/** One WebSocket connection on the server: backend/src/websocket/wsHandler.ts. */
module WsHandler {
  import opened Common
  import opened ConnectionRegistry

  // ---------- Client messages ----------

  datatype Json =
    | JNull
    | JBool(b: bool)
    | JNumber(n: real)
    | JString(s: string)
    | JArray(items: seq<Json>)
    | JObject(fields: map<string, Json>)

  /** What arrives: text, which may or may not parse as JSON, or a binary frame. */
  datatype Raw = Text(json: Option<Json>) | Binary

  datatype ClientMessage = Subscribe(cameraIds: seq<string>) | Unsubscribe(cameraIds: seq<string>) | Ping

  function Strings(items: seq<Json>): Option<seq<string>> {
    if items == [] then Some([])
    else
      match (items[0], Strings(items[1..]))
      case (JString(s), Some(rest)) => Some([s] + rest)
      case _ => None
  }

  function ParseClientMessage(raw: Raw): Option<ClientMessage> {
    // A binary frame is read as the empty string, which is not JSON; reading a field of null throws.
    if raw.Binary? || raw.json.None? || !raw.json.value.JObject? then None
    else
      var fields := raw.json.value.fields;
      if "type" !in fields || !fields["type"].JString? then None
      else
        var kind := fields["type"].s;
        if kind == "subscribe" || kind == "unsubscribe" then
          if "cameraIds" !in fields || !fields["cameraIds"].JArray? then None
          else
            match Strings(fields["cameraIds"].items)
            case None => None
            case Some(ids) => Some(if kind == "subscribe" then Subscribe(ids) else Unsubscribe(ids))
        else if kind == "ping" then Some(Ping)
        else None
  }

  /** What the browser sends: frontend/src/hooks/useWebSocket.ts. */
  function Encode(m: ClientMessage): Raw {
    var fields := match m
      case Subscribe(ids) => map["type" := JString("subscribe"), "cameraIds" := JArray(Quoted(ids))]
      case Unsubscribe(ids) => map["type" := JString("unsubscribe"), "cameraIds" := JArray(Quoted(ids))]
      case Ping => map["type" := JString("ping")];
    Text(Some(JObject(fields)))
  }

  function Quoted(ids: seq<string>): seq<Json> {
    seq(|ids|, i requires 0 <= i < |ids| => JString(ids[i]))
  }

  lemma {:induction false} StringsIff(items: seq<Json>, ids: seq<string>)
    ensures Strings(items) == Some(ids) <==> items == Quoted(ids)
  {
    if items != [] && ids != [] {
      StringsIff(items[1..], ids[1..]);
      assert Quoted(ids)[1..] == Quoted(ids[1..]);
      assert items == [items[0]] + items[1..] && ids == [ids[0]] + ids[1..];
      assert Quoted(ids)[0] == JString(ids[0]);
    } else if items != [] {
      assert |Quoted(ids)| != |items|;
    }
  }

  /** Every message a client can send is understood as it was meant. */
  lemma ParseOfEncode(m: ClientMessage)
    ensures ParseClientMessage(Encode(m)) == Some(m)
  {
    if !m.Ping? {
      StringsIff(Quoted(m.cameraIds), m.cameraIds);
    }
  }

  /** A text is understood as m exactly when it is an object with the fields of m, whatever else it carries. */
  lemma ParsedIff(raw: Raw, m: ClientMessage)
    ensures ParseClientMessage(raw) == Some(m)
            <==> raw.Text? && raw.json.Some? && raw.json.value.JObject?
                 && Encode(m).json.value.fields.Items <= raw.json.value.fields.Items
  {
    if raw.Text? && raw.json.Some? && raw.json.value.JObject? {
      var fields := raw.json.value.fields;
      CarriedIff(fields, m);
      if !m.Ping? && "cameraIds" in fields && fields["cameraIds"].JArray? {
        StringsIff(fields["cameraIds"].items, m.cameraIds);
      }
    }
  }

  function Kind(m: ClientMessage): string {
    match m case Subscribe(_) => "subscribe" case Unsubscribe(_) => "unsubscribe" case Ping => "ping"
  }

  lemma CarriedIff(fields: map<string, Json>, m: ClientMessage)
    ensures Encode(m).json.value.fields.Items <= fields.Items
            <==> "type" in fields && fields["type"] == JString(Kind(m))
                 && (!m.Ping? ==> "cameraIds" in fields && fields["cameraIds"] == JArray(Quoted(m.cameraIds)))
  {
    var carried := Encode(m).json.value.fields;
    if carried.Items <= fields.Items {
      assert ("type", JString(Kind(m))) in carried.Items;
      if !m.Ping? {
        assert ("cameraIds", JArray(Quoted(m.cameraIds))) in carried.Items;
      }
    }
  }

  // ---------- The connection ----------

  datatype Event = Opened | Received(raw: Raw) | Closed | Errored

  /** The server's side of a connection: not registered, or registered with its subscription set. */
  datatype View = Off | On(subscriptions: Subscriptions)

  function AfterMessage(subscriptions: Subscriptions, m: Option<ClientMessage>): Subscriptions {
    match m
    case Some(Subscribe(ids)) => Subscribed(subscriptions, ids)
    case Some(Unsubscribe(ids)) => Unsubscribed(subscriptions, ids)
    case _ => subscriptions
  }

  function AfterEvent(authorized: bool, v: View, e: Event): View {
    match e
    case Opened => if authorized then On(None) else v
    case Received(raw) => if v.On? then On(AfterMessage(v.subscriptions, ParseClientMessage(raw))) else v
    case Closed => Off
    case Errored => Off
  }

  predicate IsUser(userId: Option<string>) { userId.Some? && userId.value != "" }

  /** The index of all connections, seen as values, and whether this connection is registered in it. */
  datatype Site = Site(byUser: Index<Subscriptions>, registered: bool)

  /** What the callback of one connection does to the index. */
  function Callback(s: Site, userId: Option<string>, id: string, e: Event): Site {
    match e
    case Opened => if IsUser(userId) then Site(Filed(s.byUser, userId.value, id, None), true) else s
    case Received(raw) =>
      if s.registered && IsUser(userId) && Entry(s.byUser, userId.value, id).Some? then
        var subscriptions := AfterMessage(Entry(s.byUser, userId.value, id).value, ParseClientMessage(raw));
        s.(byUser := Filed(s.byUser, userId.value, id, subscriptions))
      else s
    case Closed => Leave(s, userId, id)
    case Errored => Leave(s, userId, id)
  }

  function Leave(s: Site, userId: Option<string>, id: string): Site {
    if s.registered && IsUser(userId) then Site(Unfiled(s.byUser, userId.value, id), false) else s
  }

  /** The callbacks of one connection. userId is None when the token was missing or invalid. */
  class Handler {
    const registry: ConnectionRegistry
    const userId: Option<string>
    var conn: WsConnection?

    constructor (registry: ConnectionRegistry, userId: Option<string>)
      ensures this.registry == registry && this.userId == userId && conn == null
    {
      this.registry, this.userId := registry, userId;
      conn := null;
    }

    predicate Authorized() { IsUser(userId) }

    ghost predicate Valid()
      reads this, registry
    {
      && registry.Valid()
      && (conn != null ==>
            IsUser(userId) && conn.userId == userId.value
            && Entry(registry.byUser, conn.userId, conn.id) == Some(conn))
    }

    ghost function Current(): View
      reads this, conn
    {
      if conn == null then Off else On(conn.subscriptions)
    }

    method OnOpen(newId: string)
      requires Valid() && conn == null
      modifies this, registry
      ensures Valid() && Current() == AfterEvent(Authorized(), Off, Opened)
      ensures Authorized() ==>
                && fresh(conn) && conn.userId == userId.value && conn.id == newId
                && registry.byUser == Filed(old(registry.byUser), conn.userId, conn.id, conn)
      ensures !Authorized() ==> registry.byUser == old(registry.byUser)
    {
      if userId.None? || userId.value == "" {
        return;
      }
      var c := new WsConnection(newId, userId.value);
      FiledEntries(registry.byUser, c.userId, c.id, c, c.userId, c.id);
      registry.Add(c);
      conn := c;
    }

    method OnMessage(raw: Raw)
      requires Valid()
      modifies (if conn == null then {} else {conn})`subscriptions
      ensures Valid() && Current() == AfterEvent(Authorized(), old(Current()), Received(raw))
    {
      if conn == null {
        return;
      }
      var msg := ParseClientMessage(raw);
      match msg {
        case Some(Subscribe(ids)) => registry.AddSubscriptions(conn, ids);
        case Some(Unsubscribe(ids)) => registry.RemoveSubscriptions(conn, ids);
        case Some(Ping) =>
        case None =>
      }
    }

    method OnClose()
      requires Valid()
      modifies this, registry
      ensures Valid() && Current() == Off
      ensures registry.byUser == if old(conn) == null then old(registry.byUser)
                                 else Unfiled(old(registry.byUser), old(conn).userId, old(conn).id)
    {
      if conn != null {
        registry.Remove(conn);
      }
      conn := null;
    }

    method OnError()
      requires Valid()
      modifies this, registry
      ensures Valid() && Current() == Off
      ensures registry.byUser == if old(conn) == null then old(registry.byUser)
                                 else Unfiled(old(registry.byUser), old(conn).userId, old(conn).id)
    {
      if conn != null {
        registry.Remove(conn);
      }
      conn := null;
    }
  }

  // The registry's index after a callback shows what Callback says of the index as a value.

  lemma OpenedShown(byUser: Index<WsConnection>, conn: WsConnection, sets: Index<Subscriptions>)
    requires Shows(byUser, sets) && conn.userId != "" && conn.subscriptions == None
    ensures Shows(Filed(byUser, conn.userId, conn.id, conn),
                  Callback(Site(sets, false), Some(conn.userId), conn.id, Opened).byUser)
  {
  }

  lemma ClosedShown(
    byUser: Index<WsConnection>, conn: WsConnection, sets: Index<Subscriptions>, e: Event)
    requires Shows(byUser, sets) && conn.userId != "" && (e.Closed? || e.Errored?)
    ensures Shows(Unfiled(byUser, conn.userId, conn.id),
                  Callback(Site(sets, true), Some(conn.userId), conn.id, e).byUser)
  {
    ShowsUnfiled(byUser, conn.userId, conn.id, sets);
  }

  /** The message has changed the connection's set from `was`. */
  lemma MessageShown(
    byUser: Index<WsConnection>, conn: WsConnection, sets: Index<Subscriptions>, was: Subscriptions, raw: Raw)
    requires Proper(byUser) && Entry(byUser, conn.userId, conn.id) == Some(conn) && conn.userId != ""
    requires ShowsOthers(byUser, conn, sets) && Entry(sets, conn.userId, conn.id) == Some(was)
    requires conn.subscriptions == AfterMessage(was, ParseClientMessage(raw))
    ensures Shows(byUser, Callback(Site(sets, true), Some(conn.userId), conn.id, Received(raw)).byUser)
  {
    ShowsChanged(byUser, conn, sets);
  }

  // ---------- Whole histories ----------

  function RunEvents(authorized: bool, es: seq<Event>): View {
    if es == [] then Off else AfterEvent(authorized, RunEvents(authorized, es[..|es| - 1]), es[|es| - 1])
  }

  predicate NamesIn(e: Event, cameraId: string) {
    e.Received? && match ParseClientMessage(e.raw)
                   case Some(Subscribe(ids)) => cameraId in ids
                   case _ => false
  }

  predicate DropsIn(e: Event, cameraId: string) {
    e.Received? && match ParseClientMessage(e.raw)
                   case Some(Unsubscribe(ids)) => cameraId in ids
                   case _ => false
  }

  predicate IsSubscribe(e: Event) {
    e.Received? && match ParseClientMessage(e.raw) case Some(Subscribe(_)) => true case _ => false
  }

  /** The latest mention of the camera in a subscribe or unsubscribe is a subscribe. */
  predicate NamedLast(es: seq<Event>, cameraId: string) {
    exists i | 0 <= i < |es| :: NamesIn(es[i], cameraId) && forall j | i < j < |es| :: !DropsIn(es[j], cameraId)
  }

  /**
   * A connection is registered exactly when it opened authorized and has neither closed nor errored since.
   */
  lemma {:induction false} RegisteredIff(authorized: bool, es: seq<Event>)
    requires es != [] && es[0].Opened? && forall i | 1 <= i < |es| :: !es[i].Opened?
    ensures RunEvents(authorized, es).On?
            <==> authorized && forall i | 1 <= i < |es| :: !es[i].Closed? && !es[i].Errored?
  {
    var before := es[..|es| - 1];
    if |es| > 1 {
      RegisteredIff(authorized, before);
      assert forall i | 1 <= i < |before| :: before[i] == es[i];
    } else {
      assert before == [];
    }
  }

  /**
   * While it is registered its set is null exactly when no valid subscribe was processed, and otherwise
   * contains a camera exactly when some subscribe named it and no later unsubscribe did.
   */
  lemma {:induction false} SubscriptionsFromHistory(es: seq<Event>, cameraId: string)
    requires es != [] && es[0].Opened? && forall i | 1 <= i < |es| :: es[i].Received?
    ensures var v := RunEvents(true, es);
            && v.On?
            && (v.subscriptions.None? <==> forall i | 0 <= i < |es| :: !IsSubscribe(es[i]))
            && (v.subscriptions.Some? ==> (cameraId in v.subscriptions.value <==> NamedLast(es, cameraId)))
  {
    NullFromHistory(es);
    if |es| > 1 {
      var before, e := es[..|es| - 1], es[|es| - 1];
      SubscriptionsFromHistory(before, cameraId);
      NamedLastStep(before, e, cameraId);
      assert es == before + [e];
      MentionStep(RunEvents(true, before).subscriptions, e.raw, cameraId);
      if RunEvents(true, before).subscriptions.None? {
        NeverNamed(before, cameraId);
      }
    }
  }

  lemma NeverNamed(es: seq<Event>, cameraId: string)
    requires forall i | 0 <= i < |es| :: !IsSubscribe(es[i])
    ensures !NamedLast(es, cameraId)
  {
  }

  lemma MentionStep(subs: Subscriptions, raw: Raw, cameraId: string)
    ensures var after := AfterMessage(subs, ParseClientMessage(raw));
            after.Some? ==>
              (cameraId in after.value
               <==> NamesIn(Received(raw), cameraId)
                    || (subs.Some? && cameraId in subs.value && !DropsIn(Received(raw), cameraId)))
  {
  }

  lemma {:induction false} NullFromHistory(es: seq<Event>)
    requires es != [] && es[0].Opened? && forall i | 1 <= i < |es| :: es[i].Received?
    ensures RunEvents(true, es).On?
    ensures RunEvents(true, es).subscriptions.None? <==> forall i | 0 <= i < |es| :: !IsSubscribe(es[i])
  {
    var before := es[..|es| - 1];
    assert forall i | 0 <= i < |before| :: before[i] == es[i];
    if |es| > 1 {
      NullFromHistory(before);
    } else {
      assert before == [];
    }
  }

  lemma NamedLastStep(es: seq<Event>, e: Event, cameraId: string)
    ensures NamedLast(es + [e], cameraId)
            <==> NamesIn(e, cameraId) || (NamedLast(es, cameraId) && !DropsIn(e, cameraId))
  {
    var all := es + [e];
    if NamesIn(e, cameraId) {
      assert NamesIn(all[|es|], cameraId);
    } else if NamedLast(es, cameraId) && !DropsIn(e, cameraId) {
      var i :| 0 <= i < |es| && NamesIn(es[i], cameraId) && forall j | i < j < |es| :: !DropsIn(es[j], cameraId);
      assert NamesIn(all[i], cameraId);
      forall j | i < j < |all| ensures !DropsIn(all[j], cameraId) {
        assert j < |es| ==> all[j] == es[j];
      }
    } else if NamedLast(all, cameraId) {
      var i :| 0 <= i < |all| && NamesIn(all[i], cameraId) && forall j | i < j < |all| :: !DropsIn(all[j], cameraId);
      assert all[|es|] == e && all[i] == es[i];
      forall j | i < j < |es| ensures !DropsIn(es[j], cameraId) {
        assert all[j] == es[j];
      }
    }
  }

  // ---------- Wanting a camera ----------

  /** Opened at i, and neither closed nor opened again since. */
  predicate OpenSince(es: seq<Event>, i: int) {
    0 <= i < |es| && es[i].Opened? && forall j | i < j < |es| :: es[j].Received?
  }

  /** Open, and since then no subscribe at all or one that named the camera and was not taken back. */
  predicate WantsByHistory(es: seq<Event>, cameraId: string) {
    exists i | 0 <= i < |es| && OpenSince(es, i) ::
      (forall j | i <= j < |es| :: !IsSubscribe(es[j])) || NamedLast(es[i..], cameraId)
  }

  lemma {:induction false} OnIffOpenSince(es: seq<Event>)
    ensures RunEvents(true, es).On? <==> exists i :: OpenSince(es, i)
  {
    if es != [] {
      var before, k := es[..|es| - 1], |es| - 1;
      OnIffOpenSince(before);
      if es[k].Opened? {
        assert OpenSince(es, k);
      } else if es[k].Received? {
        forall i | i < k ensures OpenSince(es, i) <==> OpenSince(before, i) {
          OpenBefore(es, i);
        }
        assert !OpenSince(es, k);
      }
    }
  }

  lemma OpenBefore(es: seq<Event>, i: int)
    requires es != [] && i < |es| - 1 && es[|es| - 1].Received?
    ensures OpenSince(es, i) <==> OpenSince(es[..|es| - 1], i)
  {
  }

  /** Nothing before it opened matters. */
  lemma {:induction false} OnlySinceOpen(es: seq<Event>, i: nat)
    requires OpenSince(es, i)
    ensures RunEvents(true, es) == RunEvents(true, es[i..])
  {
    var before, k := es[..|es| - 1], |es| - 1;
    if i == k {
      assert es[i..] == [es[k]];
    } else {
      OpenBefore(es, i);
      OnlySinceOpen(before, i);
      assert es[i..][..|es[i..]| - 1] == before[i..];
    }
  }

  /** A connection wants the events of a camera exactly when its own history says so. */
  lemma {:induction false} WantsIff(es: seq<Event>, cameraId: string)
    ensures RunEvents(true, es).On? && Wants(RunEvents(true, es).subscriptions, cameraId)
            <==> WantsByHistory(es, cameraId)
  {
    OnIffOpenSince(es);
    if RunEvents(true, es).On? {
      var i :| OpenSince(es, i);
      assert forall k | OpenSince(es, k) :: k == i;
      OnlySinceOpen(es, i);
      SubscriptionsFromHistory(es[i..], cameraId);
      assert (forall j | i <= j < |es| :: !IsSubscribe(es[j]))
             <==> forall j | 0 <= j < |es[i..]| :: !IsSubscribe(es[i..][j]);
      if forall j | 0 <= j < |es[i..]| :: !IsSubscribe(es[i..][j]) {
        NeverNamed(es[i..], cameraId);
      }
    }
  }
}
