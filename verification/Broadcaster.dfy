/**
 * Per-camera fan-out with a cached owner lookup: backend/src/websocket/broadcaster.ts, fed by the ingestion
 * of backend/src/services/alerts.service.ts and against camera deletion in
 * backend/src/services/cameras.service.ts. Storing an alert and looking an owner up await the database, so
 * other requests run in between.
 */
module Broadcaster {
  import opened Common
  import opened ConnectionRegistry
  import opened WsHandler

  /** JavaScript truthiness of an optional string. */
  predicate Truthy(s: Option<string>) { s.Some? && s.value != "" }

  function Cached(cache: map<string, string>, cameraId: string): Option<string> {
    if cameraId in cache && cache[cameraId] != "" then Some(cache[cameraId]) else None
  }

  /** The cache after a lookup came back with `found`. */
  function AfterLookup(cache: map<string, string>, cameraId: string, found: Option<string>): map<string, string> {
    if Truthy(found) then cache[cameraId := found.value] else cache
  }

  class Broadcaster {
    var ownerCache: map<string, string>
    const registry: ConnectionRegistry

    constructor (registry: ConnectionRegistry)
      ensures this.registry == registry && ownerCache == map[]
    {
      this.registry := registry;
      ownerCache := map[];
    }

    method InvalidateOwner(cameraId: string)
      modifies this
      ensures ownerCache == old(ownerCache) - {cameraId}
      ensures Cached(ownerCache, cameraId) == None
      ensures forall c | c != cameraId :: Cached(ownerCache, c) == Cached(old(ownerCache), c)
    {
      ownerCache := ownerCache - {cameraId};
    }

    /** Up to the await: a cached owner needs no lookup. */
    method ResolveStart(cameraId: string) returns (owner: Option<string>)
      ensures owner == Cached(ownerCache, cameraId)
    {
      owner := None;
      if cameraId in ownerCache {
        if ownerCache[cameraId] != "" {
          owner := Some(ownerCache[cameraId]);
        }
      }
    }

    /** After the await. */
    method ResolveResume(cameraId: string, found: Option<string>) returns (owner: Option<string>)
      modifies this
      ensures owner == found && ownerCache == AfterLookup(old(ownerCache), cameraId, found)
    {
      if found.Some? && found.value != "" {
        ownerCache := ownerCache[cameraId := found.value];
      }
      owner := found;
    }

    /** The rest of a broadcast: nothing without an owner, otherwise delivery to that user's audience. */
    method Deliver(owner: Option<string>, cameraId: string, message: Message, fails: set<string>)
      returns (delivered: nat)
      requires registry.Valid()
      modifies (if Truthy(owner) then registry.Members(owner.value) else {})`outbox
      ensures delivered == if Truthy(owner) then |Reached(registry.Audience(owner.value, cameraId), fails)| else 0
      ensures Truthy(owner) ==> forall conn | conn in registry.Members(owner.value) ::
                && conn.userId == owner.value
                && conn.outbox == old(conn.outbox)
                     + if conn in Reached(registry.Audience(owner.value, cameraId), fails) then [message] else []
    {
      if owner.None? || owner.value == "" {
        return 0;
      }
      delivered := registry.DeliverToUserForCamera(owner.value, cameraId, message, fails);
    }
  }

  // ---------- Interleavings ----------

  /** A WebSocket of a user, unless its token was invalid; events is everything that happened to it. */
  datatype Socket = Socket(userId: Option<string>, registered: bool, events: seq<Event>)

  /** What a message carries: an alert, or statistics or a state, which are not stored. */
  datatype Content = AlertOf(alertId: string) | Ephemeral

  /**
   * A broadcast under way: its alert was stored but it has not begun; it waits in resolveOwner before the
   * database read, or before the continuation there; or it waits for the owner that resolveOwner returned,
   * which takes a turn even when the owner was cached.
   */
  datatype Pending =
    | AwaitStart(cameraId: string, content: Content)
    | AwaitRead(cameraId: string, content: Content)
    | AwaitResume(cameraId: string, content: Content, found: Option<string>)
    | AwaitDelivery(cameraId: string, content: Content, owner: Option<string>)

  /** offered: the connections one message was offered to. */
  datatype Delivery = Delivery(cameraId: string, content: Content, offered: set<string>)

  /**
   * The database. owners and persisted remember every camera ever created with its owner and every alert ever
   * stored with its camera; ids are never reused. cameras and alerts are the rows there are now.
   */
  datatype Rows = Rows(
    owners: map<string, string>, cameras: map<string, string>,
    persisted: map<string, string>, alerts: map<string, string>)

  /** The sockets and the connection registry. */
  datatype Net = Net(sockets: map<string, Socket>, byUser: Index<Subscriptions>)

  /** Broadcasts under way are kept under tickets. */
  datatype State = State(rows: Rows, cache: map<string, string>, pending: map<nat, Pending>, net: Net, log: seq<Delivery>)

  datatype Action =
    | CreateCamera(cameraId: string, owner: string)
    | DestroyCamera(cameraId: string)
    | Invalidate(cameraId: string)
    | Upgrade(id: string, userId: Option<string>)
    | SocketEvent(id: string, event: Event)
    | Persist(alertId: string, cameraId: string, ticket: nat)
    | Start(ticket: nat)
    | Broadcast(cameraId: string, ticket: nat)
    | Read(ticket: nat)
    | Resume(ticket: nat)
    | Deliver(ticket: nat)

  const INIT: State := State(Rows(map[], map[], map[], map[]), map[], map[], Net(map[], map[]), [])

  function DeliverTo(s: State, owner: Option<string>, cameraId: string, content: Content): State {
    if Truthy(owner)
    then s.(log := s.log + [Delivery(cameraId, content, Offered(s.net.byUser, owner.value, cameraId))])
    else s
  }

  /** Where a broadcast waits first. */
  function FirstAwait(s: State, cameraId: string, content: Content): Pending {
    var owner := Cached(s.cache, cameraId);
    if owner.Some? then AwaitDelivery(cameraId, content, owner) else AwaitRead(cameraId, content)
  }

  function Waits(s: State, ticket: nat, p: Pending): State {
    s.(pending := s.pending[ticket := p])
  }

  function OwnerOf(r: Rows, cameraId: string): Option<string> {
    if cameraId in r.cameras then Some(r.cameras[cameraId]) else None
  }

  /** Deleting a camera deletes its alerts: the foreign key cascades. */
  function Destroyed(r: Rows, cameraId: string): Rows {
    r.(cameras := r.cameras - {cameraId}, alerts := map a | a in r.alerts && r.alerts[a] != cameraId :: r.alerts[a])
  }

  function Created(r: Rows, cameraId: string, owner: string): Rows {
    r.(owners := r.owners[cameraId := owner], cameras := r.cameras[cameraId := owner])
  }

  function Inserted(r: Rows, a: string, cameraId: string): Rows {
    r.(persisted := r.persisted[a := cameraId], alerts := r.alerts[a := cameraId])
  }

  function RowStep(s: State, act: Action): Option<State> {
    match act
    case CreateCamera(c, owner) => if c in s.rows.owners then None else Some(s.(rows := Created(s.rows, c, owner)))
    case DestroyCamera(c) => Some(s.(rows := Destroyed(s.rows, c)))
    case Invalidate(c) => Some(s.(cache := s.cache - {c}))
    case Persist(a, c, ticket) =>
      // The foreign key refuses an alert of a camera that is gone.
      if a in s.rows.persisted || c !in s.rows.cameras || ticket in s.pending then None
      else Some(s.(rows := Inserted(s.rows, a, c), pending := s.pending[ticket := AwaitStart(c, AlertOf(a))]))
    case _ => None
  }

  function OnSocket(n: Net, id: string, e: Event): Net
    requires id in n.sockets
  {
    var k := n.sockets[id];
    var site := Callback(Site(n.byUser, k.registered), k.userId, id, e);
    Net(n.sockets[id := Socket(k.userId, site.registered, k.events + [e])], site.byUser)
  }

  function NetStep(n: Net, act: Action): Option<Net> {
    match act
    case Upgrade(id, userId) =>
      if id in n.sockets then None else Some(n.(sockets := n.sockets[id := Socket(userId, false, [])]))
    case SocketEvent(id, e) =>
      // A socket opens once.
      if id in n.sockets && !(e.Opened? && Opened in n.sockets[id].events) then Some(OnSocket(n, id, e)) else None
    case _ => None
  }

  function BroadcastStep(s: State, act: Action): Option<State> {
    match act
    case Broadcast(c, ticket) =>
      if ticket in s.pending then None else Some(Waits(s, ticket, FirstAwait(s, c, Ephemeral)))
    case Start(ticket) =>
      if ticket in s.pending && s.pending[ticket].AwaitStart?
      then Some(Waits(s, ticket, FirstAwait(s, s.pending[ticket].cameraId, s.pending[ticket].content))) else None
    case Read(ticket) =>
      if ticket in s.pending && s.pending[ticket].AwaitRead? then
        var p := s.pending[ticket];
        Some(Waits(s, ticket, AwaitResume(p.cameraId, p.content, OwnerOf(s.rows, p.cameraId))))
      else None
    case Resume(ticket) =>
      if ticket in s.pending && s.pending[ticket].AwaitResume? then
        var p := s.pending[ticket];
        Some(Waits(s.(cache := AfterLookup(s.cache, p.cameraId, p.found)), ticket,
                   AwaitDelivery(p.cameraId, p.content, p.found)))
      else None
    case Deliver(ticket) =>
      if ticket in s.pending && s.pending[ticket].AwaitDelivery? then
        var p := s.pending[ticket];
        Some(DeliverTo(s.(pending := s.pending - {ticket}), p.owner, p.cameraId, p.content))
      else None
    case _ => None
  }

  predicate OfNet(act: Action) { act.Upgrade? || act.SocketEvent? }

  predicate OfRows(act: Action) { act.CreateCamera? || act.DestroyCamera? || act.Invalidate? || act.Persist? }

  function Step(s: State, act: Action): Option<State> {
    if OfNet(act) then
      match NetStep(s.net, act) case None => None case Some(n) => Some(s.(net := n))
    else if OfRows(act) then RowStep(s, act)
    else BroadcastStep(s, act)
  }

  lemma BroadcastFrame(s: State, act: Action)
    requires BroadcastStep(s, act).Some?
    ensures BroadcastStep(s, act).value.rows == s.rows && BroadcastStep(s, act).value.net == s.net
  {
  }

  function Run(acts: seq<Action>): Option<State> {
    RunFrom(Step, INIT, acts)
  }

  // ---------- Owners ----------

  predicate Agrees(m: map<string, string>, owners: map<string, string>) {
    forall c | c in m :: c in owners && m[c] == owners[c]
  }

  /** The owner a broadcast goes on with. */
  function Resolved(p: Pending): Option<string> {
    match p case AwaitResume(_, _, found) => found case AwaitDelivery(_, _, owner) => owner case _ => None
  }

  /** It is the camera's. */
  predicate FoundRight(p: Pending, owners: map<string, string>) {
    Resolved(p).Some? ==> p.cameraId in owners && Resolved(p).value == owners[p.cameraId]
  }

  predicate OwnersInv(s: State) {
    && Agrees(s.rows.cameras, s.rows.owners)
    && Agrees(s.cache, s.rows.owners)
    && forall t | t in s.pending :: FoundRight(s.pending[t], s.rows.owners)
  }

  lemma RowsKeepOwners(s: State, act: Action)
    requires OwnersInv(s) && RowStep(s, act).Some?
    ensures OwnersInv(RowStep(s, act).value)
  {
  }

  lemma BroadcastsKeepOwners(s: State, act: Action)
    requires OwnersInv(s) && BroadcastStep(s, act).Some?
    ensures OwnersInv(BroadcastStep(s, act).value)
  {
  }

  /**
   * In every run, also when a deletion falls into the gap of an awaited lookup, each cached owner is the one
   * owner that camera ever had.
   */
  lemma CachedOwnerIsTheOwner(acts: seq<Action>, cameraId: string)
    requires Run(acts).Some? && cameraId in Run(acts).value.cache
    ensures cameraId in Run(acts).value.rows.owners
    ensures Run(acts).value.cache[cameraId] == Run(acts).value.rows.owners[cameraId]
  {
    Reachable(acts);
  }

  // ---------- Connections ----------

  /** The server's side of a socket, from everything that happened to it. */
  function ViewOf(k: Socket): View {
    RunEvents(IsUser(k.userId), k.events)
  }

  /** What the history of socket id says about this user's entry. */
  function HistoryEntry(sockets: map<string, Socket>, userId: string, id: string): Option<Subscriptions> {
    if id in sockets && sockets[id].userId == Some(userId) && ViewOf(sockets[id]).On?
    then Some(ViewOf(sockets[id]).subscriptions) else None
  }

  /** The nested index holds what the histories say, and no empty user. */
  ghost predicate IndexInv(n: Net) {
    && NoEmptyUser(n.byUser)
    && (forall u, id :: Entry(n.byUser, u, id) == HistoryEntry(n.sockets, u, id))
    && (forall id | id in n.sockets :: n.sockets[id].registered <==> ViewOf(n.sockets[id]).On?)
  }

  lemma ViewStep(k: Socket, e: Event)
    ensures ViewOf(k.(events := k.events + [e])) == AfterEvent(IsUser(k.userId), ViewOf(k), e)
    ensures ViewOf(k).On? ==> IsUser(k.userId)
  {
    assert (k.events + [e])[..|k.events|] == k.events;
    OnlyUsers(IsUser(k.userId), k.events);
  }

  lemma {:induction false} OnlyUsers(authorized: bool, es: seq<Event>)
    ensures RunEvents(authorized, es).On? ==> authorized
  {
    if es != [] {
      OnlyUsers(authorized, es[..|es| - 1]);
    }
  }

  /** The index after the callback, by what the history says then. */
  function IndexAfter(n: Net, k: Socket, id: string, after: View): Index<Subscriptions> {
    if !IsUser(k.userId) || (after.Off? && !k.registered) then n.byUser
    else if after.On? then Filed(n.byUser, k.userId.value, id, after.subscriptions)
    else Unfiled(n.byUser, k.userId.value, id)
  }

  predicate FollowsHistory(n: Net, id: string, e: Event)
    requires id in n.sockets
  {
    var k := n.sockets[id];
    var site := Callback(Site(n.byUser, k.registered), k.userId, id, e);
    var after := AfterEvent(IsUser(k.userId), ViewOf(k), e);
    (site.registered <==> after.On?) && site.byUser == IndexAfter(n, k, id, after)
  }

  lemma MessageFollowsHistory(n: Net, id: string, raw: Raw)
    requires IndexInv(n) && id in n.sockets && n.sockets[id].registered
    ensures FollowsHistory(n, id, Received(raw))
  {
  }

  lemma CallbackFollowsHistory(n: Net, id: string, e: Event)
    requires IndexInv(n) && id in n.sockets
    ensures FollowsHistory(n, id, e)
  {
    var k := n.sockets[id];
    OnlyUsers(IsUser(k.userId), k.events);
    if e.Received? && k.registered {
      MessageFollowsHistory(n, id, e.raw);
    }
  }

  lemma IndexAfterEntries(n: Net, id: string, after: View, u: string, c: string)
    requires IndexInv(n) && id in n.sockets
    ensures var k := n.sockets[id];
            var byUser := IndexAfter(n, k, id, after);
            && NoEmptyUser(byUser)
            && Entry(byUser, u, c) == if k.userId == Some(u) && IsUser(k.userId) && c == id
               then (if after.On? then Some(after.subscriptions) else None) else Entry(n.byUser, u, c)
  {
    var k := n.sockets[id];
    if IsUser(k.userId) {
      assert Entry(n.byUser, k.userId.value, id) == HistoryEntry(n.sockets, k.userId.value, id);
      if after.On? {
        FiledEntries(n.byUser, k.userId.value, id, after.subscriptions, u, c);
      } else {
        UnfiledEntries(n.byUser, k.userId.value, id, u, c);
      }
    }
  }

  lemma HistoryAfter(n: Net, id: string, e: Event, u: string, c: string)
    requires id in n.sockets
    ensures var k := n.sockets[id];
            var after := AfterEvent(IsUser(k.userId), ViewOf(k), e);
            HistoryEntry(OnSocket(n, id, e).sockets, u, c) == if c != id then HistoryEntry(n.sockets, u, c)
              else if k.userId == Some(u) && after.On? then Some(after.subscriptions) else None
  {
  }

  lemma CallbackEntries(n: Net, id: string, e: Event, u: string, c: string)
    requires IndexInv(n) && id in n.sockets
    ensures var m := OnSocket(n, id, e);
            NoEmptyUser(m.byUser) && Entry(m.byUser, u, c) == HistoryEntry(m.sockets, u, c)
  {
    var k := n.sockets[id];
    CallbackFollowsHistory(n, id, e);
    ViewStep(k, e);
    OnlyUsers(IsUser(k.userId), k.events + [e]);
    IndexAfterEntries(n, id, AfterEvent(IsUser(k.userId), ViewOf(k), e), u, c);
    HistoryAfter(n, id, e, u, c);
    assert Entry(n.byUser, u, c) == HistoryEntry(n.sockets, u, c);
  }

  lemma IndexKept(n: Net, act: Action)
    requires IndexInv(n) && NetStep(n, act).Some?
    ensures IndexInv(NetStep(n, act).value)
  {
    var m := NetStep(n, act).value;
    if act.SocketEvent? {
      SocketEventKeepsIndex(n, act.id, act.event);
    } else {
      forall u, c ensures Entry(m.byUser, u, c) == HistoryEntry(m.sockets, u, c) {
        assert Entry(n.byUser, u, c) == HistoryEntry(n.sockets, u, c);
      }
    }
  }

  lemma SocketEventKeepsIndex(n: Net, id: string, e: Event)
    requires IndexInv(n) && id in n.sockets
    ensures IndexInv(OnSocket(n, id, e))
  {
    var m := OnSocket(n, id, e);
    CallbackFollowsHistory(n, id, e);
    ViewStep(n.sockets[id], e);
    forall u, c ensures Entry(m.byUser, u, c) == HistoryEntry(m.sockets, u, c) {
      CallbackEntries(n, id, e, u, c);
    }
    CallbackEntries(n, id, e, "", "");
  }

  /** This user's, and by its own history open and wanting the camera. */
  predicate Wanting(n: Net, id: string, userId: string, cameraId: string) {
    && id in n.sockets && n.sockets[id].userId == Some(userId) && userId != ""
    && WantsByHistory(n.sockets[id].events, cameraId)
  }

  lemma OfferedIffWanting(n: Net, id: string, userId: string, cameraId: string)
    requires IndexInv(n)
    ensures id in Offered(n.byUser, userId, cameraId) <==> Wanting(n, id, userId, cameraId)
  {
    assert Entry(n.byUser, userId, id) == HistoryEntry(n.sockets, userId, id);
    if id in n.sockets {
      OnlyUsers(IsUser(n.sockets[id].userId), n.sockets[id].events);
      WantsIff(n.sockets[id].events, cameraId);
    }
  }

  /** A new socket has no history; what happens to a socket goes into its own, and it opens once. */
  lemma HistoriesGrow(n: Net, id: string, userId: Option<string>, e: Event)
    ensures NetStep(n, Upgrade(id, userId)) ==
            if id in n.sockets then None else Some(n.(sockets := n.sockets[id := Socket(userId, false, [])]))
    ensures NetStep(n, SocketEvent(id, e)).Some?
            <==> id in n.sockets && !(e.Opened? && Opened in n.sockets[id].events)
    ensures NetStep(n, SocketEvent(id, e)).Some? ==>
              var m := NetStep(n, SocketEvent(id, e)).value;
              && m.sockets.Keys == n.sockets.Keys && m.sockets[id].events == n.sockets[id].events + [e]
              && m.sockets[id].userId == n.sockets[id].userId
              && forall other | other in n.sockets && other != id :: m.sockets[other] == n.sockets[other]
  {
  }

  ghost predicate Inv(s: State) {
    OwnersInv(s) && IndexInv(s.net) && RowsInv(s.rows) && AlertsInv(s)
  }

  // ---------- Stored alerts ----------

  function Find(alerts: map<string, string>, a: string): Option<string> {
    if a in alerts then Some(alerts[a]) else None
  }

  /** An alert with this content was stored for this camera. */
  predicate ForCamera(persisted: map<string, string>, content: Content, cameraId: string) {
    content.AlertOf? ==> Find(persisted, content.alertId) == Some(cameraId)
  }

  predicate SameAlert(x: Content, y: Content) { x.AlertOf? && x == y }

  /** No broadcast under way or delivered carries this alert. */
  predicate Unused(s: State, content: Content) {
    && (forall t | t in s.pending :: !SameAlert(content, s.pending[t].content))
    && (forall i | 0 <= i < |s.log| :: !SameAlert(content, s.log[i].content))
  }

  /** An alert is stored as long as its camera exists. */
  predicate RowsInv(r: Rows) {
    && (forall a | a in r.persisted :: r.persisted[a] in r.owners)
    && (forall a | a in r.alerts :: a in r.persisted && r.alerts[a] == r.persisted[a])
    && (forall a | a in r.persisted :: a in r.alerts <==> r.persisted[a] in r.cameras)
  }

  /** Every alert has one broadcast at most, for its own camera. */
  predicate AlertsInv(s: State) {
    && (forall t | t in s.pending :: ForCamera(s.rows.persisted, s.pending[t].content, s.pending[t].cameraId))
    && (forall i | 0 <= i < |s.log| :: ForCamera(s.rows.persisted, s.log[i].content, s.log[i].cameraId))
    && (forall t, u | t in s.pending && u in s.pending && t != u ::
          !SameAlert(s.pending[t].content, s.pending[u].content))
    && (forall i, t | 0 <= i < |s.log| && t in s.pending :: !SameAlert(s.log[i].content, s.pending[t].content))
    && (forall i, j | 0 <= i < j < |s.log| :: !SameAlert(s.log[i].content, s.log[j].content))
  }

  lemma TakenOut(s: State, ticket: nat)
    requires AlertsInv(s) && ticket in s.pending
    ensures AlertsInv(s.(pending := s.pending - {ticket}))
    ensures Unused(s.(pending := s.pending - {ticket}), s.pending[ticket].content)
  {
  }

  lemma Put(s: State, ticket: nat, p: Pending)
    requires AlertsInv(s) && ForCamera(s.rows.persisted, p.content, p.cameraId)
    requires Unused(s.(pending := s.pending - {ticket}), p.content)
    ensures AlertsInv(s.(pending := s.pending[ticket := p]))
  {
    var t := s.(pending := s.pending - {ticket});
    forall u | u in s.pending && u != ticket ensures !SameAlert(p.content, s.pending[u].content) {
      assert u in t.pending;
    }
  }

  lemma Delivered(s: State, owner: Option<string>, cameraId: string, content: Content)
    requires AlertsInv(s) && ForCamera(s.rows.persisted, content, cameraId) && Unused(s, content)
    ensures AlertsInv(DeliverTo(s, owner, cameraId, content))
  {
  }

  /** A waiting broadcast goes on waiting for something else. */
  lemma Moved(s: State, ticket: nat, p: Pending)
    requires AlertsInv(s) && ticket in s.pending
    requires p.content == s.pending[ticket].content && p.cameraId == s.pending[ticket].cameraId
    ensures AlertsInv(Waits(s, ticket, p))
  {
  }

  lemma BroadcastsKeepAlerts(s: State, act: Action)
    requires AlertsInv(s) && BroadcastStep(s, act).Some?
    ensures AlertsInv(BroadcastStep(s, act).value)
  {
    match act
    case Broadcast(c, ticket) => Put(s, ticket, FirstAwait(s, c, Ephemeral));
    case Deliver(ticket) =>
      TakenOut(s, ticket);
      var p := s.pending[ticket];
      Delivered(s.(pending := s.pending - {ticket}), p.owner, p.cameraId, p.content);
    case Resume(ticket) =>
      var p := s.pending[ticket];
      var t := s.(cache := AfterLookup(s.cache, p.cameraId, p.found));
      assert AlertsInv(t);
      Moved(t, ticket, AwaitDelivery(p.cameraId, p.content, p.found));
    case Start(ticket) => Moved(s, ticket, BroadcastStep(s, act).value.pending[ticket]);
    case Read(ticket) => Moved(s, ticket, BroadcastStep(s, act).value.pending[ticket]);
  }

  lemma RowsKept(s: State, act: Action)
    requires OwnersInv(s) && RowsInv(s.rows) && RowStep(s, act).Some?
    ensures RowsInv(RowStep(s, act).value.rows)
  {
  }

  lemma NeverStored(s: State, a: string)
    requires AlertsInv(s) && a !in s.rows.persisted
    ensures Unused(s, AlertOf(a))
  {
  }

  lemma PersistKeepsAlerts(s: State, a: string, c: string, ticket: nat)
    requires AlertsInv(s) && RowStep(s, Persist(a, c, ticket)).Some?
    ensures AlertsInv(RowStep(s, Persist(a, c, ticket)).value)
  {
    NeverStored(s, a);
    var t := s.(rows := Inserted(s.rows, a, c));
    assert AlertsInv(t) && Unused(t, AlertOf(a));
    Put(t, ticket, AwaitStart(c, AlertOf(a)));
  }

  lemma RowsKeepAlerts(s: State, act: Action)
    requires AlertsInv(s) && RowStep(s, act).Some?
    ensures AlertsInv(RowStep(s, act).value)
  {
    if act.Persist? {
      PersistKeepsAlerts(s, act.alertId, act.cameraId, act.ticket);
    }
  }

  lemma StepKeeps(s: State, act: Action)
    requires Inv(s) && Step(s, act).Some?
    ensures Inv(Step(s, act).value)
  {
    if OfNet(act) {
      IndexKept(s.net, act);
    } else if OfRows(act) {
      RowsKeepOwners(s, act);
      RowsKept(s, act);
      RowsKeepAlerts(s, act);
    } else {
      BroadcastFrame(s, act);
      BroadcastsKeepOwners(s, act);
      BroadcastsKeepAlerts(s, act);
    }
  }

  lemma Reachable(acts: seq<Action>)
    requires Run(acts).Some?
    ensures Inv(Run(acts).value)
  {
    forall s, act | Inv(s) && Step(s, act).Some? ensures Inv(Step(s, act).value) {
      StepKeeps(s, act);
    }
    RunKeeps(Step, Inv, INIT, acts);
  }

  // ---------- Theorems ----------

  /** One message for this camera went to exactly the wanting connections of its owner. */
  ghost predicate Delivers(s: State, t: State, c: string, content: Content) {
    && c in s.rows.owners
    && |t.log| == |s.log| + 1
    && t.log == s.log + [Delivery(c, content, t.log[|s.log|].offered)]
    && forall id :: id in t.log[|s.log|].offered <==> Wanting(s.net, id, s.rows.owners[c], c)
  }

  lemma DeliverExact(s: State, ticket: nat)
    requires Inv(s) && BroadcastStep(s, Deliver(ticket)).Some?
    ensures var p, t := s.pending[ticket], BroadcastStep(s, Deliver(ticket)).value;
            if Truthy(p.owner) then Delivers(s, t, p.cameraId, p.content) else t.log == s.log
  {
    var p := s.pending[ticket];
    assert FoundRight(p, s.rows.owners);
    if Truthy(p.owner) {
      forall id ensures id in Offered(s.net.byUser, p.owner.value, p.cameraId)
                        <==> Wanting(s.net, id, p.owner.value, p.cameraId)
      {
        OfferedIffWanting(s.net, id, p.owner.value, p.cameraId);
      }
    }
  }

  /**
   * Fan-out is exact and owner-scoped: whenever a step of any run delivers, it delivers one message, for its
   * own camera, to exactly the connections of the camera's one owner that by their own histories are
   * registered at that moment and have a set that is null or contains the camera.
   */
  lemma FanOutExact(acts: seq<Action>, act: Action)
    requires Run(acts).Some? && Step(Run(acts).value, act).Some?
    ensures var s, t := Run(acts).value, Step(Run(acts).value, act).value;
            || t.log == s.log
            || (act.Deliver? && act.ticket in s.pending
                && Delivers(s, t, s.pending[act.ticket].cameraId, s.pending[act.ticket].content))
  {
    Reachable(acts);
    if act.Deliver? {
      DeliverExact(Run(acts).value, act.ticket);
    }
  }

  /** The step a waiting broadcast waits for. */
  function NextOf(p: Pending, ticket: nat): Action {
    match p
    case AwaitStart(_, _) => Start(ticket)
    case AwaitRead(_, _) => Read(ticket)
    case AwaitResume(_, _, _) => Resume(ticket)
    case AwaitDelivery(_, _, _) => Deliver(ticket)
  }

  lemma AwaitsStep(s: State, ticket: nat, act: Action)
    requires ticket in s.pending && act != NextOf(s.pending[ticket], ticket) && Step(s, act).Some?
    ensures ticket in Step(s, act).value.pending && Step(s, act).value.pending[ticket] == s.pending[ticket]
  {
  }

  /** Nothing else moves a waiting broadcast. */
  lemma {:induction false} AwaitsUntilNext(s: State, ticket: nat, acts: seq<Action>)
    requires ticket in s.pending && NextOf(s.pending[ticket], ticket) !in acts && RunFrom(Step, s, acts).Some?
    ensures var t := RunFrom(Step, s, acts).value;
            ticket in t.pending && t.pending[ticket] == s.pending[ticket]
    decreases |acts|
  {
    if acts != [] {
      assert acts[0] in acts && forall a | a in acts[1..] :: a in acts;
      AwaitsStep(s, ticket, acts[0]);
      AwaitsUntilNext(Step(s, acts[0]).value, ticket, acts[1..]);
    }
  }

  lemma {:induction false} OneMoreStep(acts: seq<Action>, act: Action, more: seq<Action>)
    requires Run(acts + [act] + more).Some?
    ensures Run(acts).Some? && Step(Run(acts).value, act).Some?
    ensures Run(acts + [act]) == Step(Run(acts).value, act)
    ensures Run(acts + [act] + more) == RunFrom(Step, Step(Run(acts).value, act).value, more)
  {
    RunConcat(Step, INIT, acts + [act], more);
    RunConcat(Step, INIT, acts, [act]);
    if Step(Run(acts).value, act).Some? {
      FirstStep(Step, Run(acts).value, act, []);
      assert [act] + [] == [act];
    }
  }

  /**
   * A lookup that reads an existing camera with a non-empty owner caches that owner when it continues and gets
   * its message out, to the connections of that moment, whatever runs between the read, the continuation and
   * the delivery, deletion and invalidation included.
   */
  lemma LookupDelivers(
    acts: seq<Action>, ticket: nat, read: seq<Action>, between: seq<Action>, resumed: seq<Action>, later: seq<Action>)
    requires Run(acts).Some? && ticket in Run(acts).value.pending
    requires var s, p := Run(acts).value, Run(acts).value.pending[ticket];
             p.AwaitRead? && p.cameraId in s.rows.cameras && s.rows.cameras[p.cameraId] != ""
    requires read == acts + [Read(ticket)] && Resume(ticket) !in between
    requires resumed == read + between + [Resume(ticket)] && Deliver(ticket) !in later
    requires Run(resumed + later).Some?
    ensures var p := Run(acts).value.pending[ticket];
            && Run(resumed).Some? && p.cameraId in Run(resumed).value.cache
            && var s := Run(resumed + later).value;
               var t := Step(s, Deliver(ticket));
               t.Some? && Delivers(s, t.value, p.cameraId, p.content)
  {
    var s0 := Run(acts).value;
    OneMoreStep(read + between, Resume(ticket), later);
    OneMoreStep(acts, Read(ticket), between);
    var s1 := Step(s0, Read(ticket)).value;
    AwaitsUntilNext(s1, ticket, between);
    var s2 := Run(resumed).value;
    AwaitsUntilNext(s2, ticket, later);
    Reachable(resumed + later);
    DeliverExact(Run(resumed + later).value, ticket);
  }

  // ---------- Every broadcast gets out ----------

  predicate OwnStep(ticket: nat, act: Action) {
    act == Start(ticket) || act == Read(ticket) || act == Resume(ticket) || act == Deliver(ticket)
  }

  function StepsLeft(p: Pending): nat {
    match p
    case AwaitStart(_, _) => 4
    case AwaitRead(_, _) => 3
    case AwaitResume(_, _, _) => 2
    case AwaitDelivery(_, _, _) => 1
  }

  function OwnSteps(ticket: nat, acts: seq<Action>): nat
    decreases |acts|
  {
    if acts == [] then 0 else (if OwnStep(ticket, acts[0]) then 1 else 0) + OwnSteps(ticket, acts[1..])
  }

  /** If the lookup of this broadcast reads, it finds the camera. */
  predicate FindsCamera(s: State, ticket: nat, c: string, acts: seq<Action>)
    decreases |acts|
  {
    acts != [] && Step(s, acts[0]).Some? ==>
      (acts[0] == Read(ticket) ==> c in s.rows.cameras) && FindsCamera(Step(s, acts[0]).value, ticket, c, acts[1..])
  }

  /** On the way to the owner of the camera: what has been found out about the owner is right. */
  predicate OnCourse(s: State, ticket: nat, c: string, content: Content) {
    && c in s.rows.owners && s.rows.owners[c] != ""
    && ticket in s.pending && s.pending[ticket].cameraId == c && s.pending[ticket].content == content
    && (s.pending[ticket].AwaitResume? || s.pending[ticket].AwaitDelivery? ==>
          Resolved(s.pending[ticket]) == Some(s.rows.owners[c]))
  }

  function ContentOf(act: Action): Content {
    if act.Persist? then AlertOf(act.alertId) else Ephemeral
  }

  /** An alert is being stored for the camera, or a message broadcast for it; its owner is not empty. */
  predicate Begins(s: State, act: Action, c: string, ticket: nat) {
    && c in s.rows.owners && s.rows.owners[c] != "" && ticket !in s.pending
    && (act == Broadcast(c, ticket)
        || (act.Persist? && act == Persist(act.alertId, c, ticket)
            && act.alertId !in s.rows.persisted && c in s.rows.cameras))
  }

  lemma OwnerStays(s: State, c: string, act: Action)
    requires c in s.rows.owners && Step(s, act).Some?
    ensures c in Step(s, act).value.rows.owners && Step(s, act).value.rows.owners[c] == s.rows.owners[c]
  {
  }

  lemma BeginsOnCourse(s: State, ticket: nat, c: string, act: Action)
    requires Inv(s) && Begins(s, act, c, ticket)
    ensures Step(s, act).Some? && OnCourse(Step(s, act).value, ticket, c, ContentOf(act))
  {
  }

  lemma MovesOnCourse(s: State, ticket: nat, c: string, content: Content, act: Action)
    requires Inv(s) && OnCourse(s, ticket, c, content) && OwnStep(ticket, act) && act != Deliver(ticket)
    requires BroadcastStep(s, act).Some? && (act == Read(ticket) ==> c in s.rows.cameras)
    ensures OnCourse(BroadcastStep(s, act).value, ticket, c, content)
    ensures StepsLeft(BroadcastStep(s, act).value.pending[ticket]) < StepsLeft(s.pending[ticket])
  {
  }

  lemma {:induction false} OnCourseStep(s: State, ticket: nat, c: string, content: Content, act: Action)
    requires Inv(s) && OnCourse(s, ticket, c, content) && act != Deliver(ticket)
    requires Step(s, act).Some? && (act == Read(ticket) ==> c in s.rows.cameras)
    ensures OnCourse(Step(s, act).value, ticket, c, content)
    ensures StepsLeft(Step(s, act).value.pending[ticket]) + OwnSteps(ticket, [act]) <= StepsLeft(s.pending[ticket])
  {
    if OwnStep(ticket, act) {
      MovesOnCourse(s, ticket, c, content, act);
    } else {
      OwnerStays(s, c, act);
      AwaitsStep(s, ticket, act);
    }
  }

  lemma {:induction false} OnCourseRun(s: State, ticket: nat, c: string, content: Content, more: seq<Action>)
    requires Inv(s) && OnCourse(s, ticket, c, content) && Deliver(ticket) !in more
    requires RunFrom(Step, s, more).Some? && FindsCamera(s, ticket, c, more)
    ensures var t := RunFrom(Step, s, more).value;
            && Inv(t) && OnCourse(t, ticket, c, content)
            && OwnSteps(ticket, more) + StepsLeft(t.pending[ticket]) <= StepsLeft(s.pending[ticket])
    decreases |more|
  {
    if more != [] {
      assert more[0] in more && forall a | a in more[1..] :: a in more;
      StepKeeps(s, more[0]);
      OnCourseStep(s, ticket, c, content, more[0]);
      OnCourseRun(Step(s, more[0]).value, ticket, c, content, more[1..]);
    }
  }

  /** The lookup, if it is still to come, would find the camera now. */
  predicate WouldFind(s: State, ticket: nat)
    requires ticket in s.pending
  {
    var p := s.pending[ticket];
    p.AwaitStart? || p.AwaitRead? ==> p.cameraId in s.rows.cameras
  }

  /** These steps of the broadcast by itself deliver it, once, and end it. */
  ghost predicate GetsOut(s: State, ticket: nat, c: string, content: Content, rest: seq<Action>) {
    && (forall a | a in rest :: OwnStep(ticket, a))
    && RunFrom(Step, s, rest).Some? && ticket !in RunFrom(Step, s, rest).value.pending
    && Delivers(s, RunFrom(Step, s, rest).value, c, content)
  }

  lemma DeliveryGetsOut(s: State, ticket: nat, c: string, content: Content)
    requires Inv(s) && OnCourse(s, ticket, c, content) && s.pending[ticket].AwaitDelivery?
    ensures GetsOut(s, ticket, c, content, [Deliver(ticket)] + [])
  {
    DeliverExact(s, ticket);
    FirstStep(Step, s, Deliver(ticket), []);
  }

  lemma OwnStepQuiet(s: State, ticket: nat, c: string, content: Content)
    requires Inv(s) && OnCourse(s, ticket, c, content) && !s.pending[ticket].AwaitDelivery? && WouldFind(s, ticket)
    ensures var act := NextOf(s.pending[ticket], ticket);
            && OwnStep(ticket, act) && Step(s, act).Some?
            && Inv(Step(s, act).value) && OnCourse(Step(s, act).value, ticket, c, content)
            && WouldFind(Step(s, act).value, ticket)
            && StepsLeft(Step(s, act).value.pending[ticket]) < StepsLeft(s.pending[ticket])
            && Step(s, act).value.rows == s.rows && Step(s, act).value.net == s.net && Step(s, act).value.log == s.log
  {
    var act := NextOf(s.pending[ticket], ticket);
    StepKeeps(s, act);
    MovesOnCourse(s, ticket, c, content, act);
    BroadcastFrame(s, act);
  }

  lemma FinishesAlone(s: State, ticket: nat, c: string, content: Content) returns (rest: seq<Action>)
    requires Inv(s) && OnCourse(s, ticket, c, content) && WouldFind(s, ticket)
    ensures |rest| <= StepsLeft(s.pending[ticket]) && GetsOut(s, ticket, c, content, rest)
    decreases StepsLeft(s.pending[ticket])
  {
    if s.pending[ticket].AwaitDelivery? {
      DeliveryGetsOut(s, ticket, c, content);
      return [Deliver(ticket)] + [];
    }
    var act := NextOf(s.pending[ticket], ticket);
    OwnStepQuiet(s, ticket, c, content);
    rest := FinishesAlone(Step(s, act).value, ticket, c, content);
    FirstStep(Step, s, act, rest);
    rest := [act] + rest;
  }

  /** Its next step is enabled; the delivery, when that is next, delivers and ends it; so does `rest` by itself. */
  ghost predicate OnItsWay(s: State, ticket: nat, c: string, content: Content, rest: seq<Action>) {
    && ticket in s.pending && Step(s, NextOf(s.pending[ticket], ticket)).Some?
    && (s.pending[ticket].AwaitDelivery? ==> GetsOut(s, ticket, c, content, [Deliver(ticket)] + []))
    && (WouldFind(s, ticket) ==> GetsOut(s, ticket, c, content, rest))
  }

  lemma IsOnItsWay(s: State, ticket: nat, c: string, content: Content) returns (rest: seq<Action>)
    requires Inv(s) && OnCourse(s, ticket, c, content)
    ensures |rest| <= StepsLeft(s.pending[ticket]) && OnItsWay(s, ticket, c, content, rest)
  {
    if s.pending[ticket].AwaitDelivery? {
      DeliveryGetsOut(s, ticket, c, content);
    }
    rest := [];
    if WouldFind(s, ticket) {
      rest := FinishesAlone(s, ticket, c, content);
    }
  }

  /**
   * Every broadcast for a camera whose owner is not empty gets out, whether that owner is cached or has to be
   * looked up. It begins as soon as the alert is stored, or at once when it carries no alert. Whatever runs
   * then, provided only that a lookup that reads finds the camera: until it is delivered its next step is
   * enabled, and with its own steps so far at most four deliver it, once, to the connections that FanOutExact
   * names.
   */
  lemma BroadcastDelivers(acts: seq<Action>, act: Action, c: string, ticket: nat, more: seq<Action>)
    returns (rest: seq<Action>)
    requires Run(acts).Some? && Begins(Run(acts).value, act, c, ticket) && Deliver(ticket) !in more
    requires Step(Run(acts).value, act).Some? ==>
               var s := Step(Run(acts).value, act).value;
               RunFrom(Step, s, more).Some? && FindsCamera(s, ticket, c, more)
    ensures Step(Run(acts).value, act).Some?
    ensures |rest| + OwnSteps(ticket, more) <= 4
    ensures var t := RunFrom(Step, Step(Run(acts).value, act).value, more).value;
            OnItsWay(t, ticket, c, ContentOf(act), rest)
  {
    Reachable(acts);
    var s := Run(acts).value;
    BeginsOnCourse(s, ticket, c, act);
    StepKeeps(s, act);
    OnCourseRun(Step(s, act).value, ticket, c, ContentOf(act), more);
    rest := IsOnItsWay(RunFrom(Step, Step(s, act).value, more).value, ticket, c, ContentOf(act));
  }

  /** The condition is exact: a lookup that does not find the camera ends in silence, and caches nothing. */
  lemma {:induction false} GoneCameraIsSilent(s: State, ticket: nat)
    requires ticket in s.pending && s.pending[ticket].AwaitRead? && s.pending[ticket].cameraId !in s.rows.cameras
    ensures var t := RunFrom(Step, s, [Read(ticket)] + ([Resume(ticket)] + ([Deliver(ticket)] + [])));
            t.Some? && t.value.log == s.log && t.value.cache == s.cache && ticket !in t.value.pending
  {
    var s1 := Step(s, Read(ticket)).value;
    var s2 := Step(s1, Resume(ticket)).value;
    FirstStep(Step, s2, Deliver(ticket), []);
    FirstStep(Step, s1, Resume(ticket), [Deliver(ticket)] + []);
    FirstStep(Step, s, Read(ticket), [Resume(ticket)] + ([Deliver(ticket)] + []));
  }

  /**
   * Storage comes first: in every run an alert that was offered to anyone had been stored, for the camera it
   * was offered for, and is offered at most once. It is still stored exactly while that camera exists.
   */
  lemma StoredThenOfferedOnce(acts: seq<Action>, i: nat, a: string)
    requires Run(acts).Some? && i < |Run(acts).value.log| && Run(acts).value.log[i].content == AlertOf(a)
    ensures var s := Run(acts).value;
            && Find(s.rows.persisted, a) == Some(s.log[i].cameraId)
            && (Find(s.rows.alerts, a) == Some(s.log[i].cameraId) <==> s.log[i].cameraId in s.rows.cameras)
            && (forall j | 0 <= j < |s.log| && j != i :: s.log[j].content != AlertOf(a))
            && (forall t | t in s.pending :: s.pending[t].content != AlertOf(a))
  {
    Reachable(acts);
    var s := Run(acts).value;
    assert ForCamera(s.rows.persisted, s.log[i].content, s.log[i].cameraId);
    forall j | 0 <= j < |s.log| && j != i ensures s.log[j].content != AlertOf(a) {
      assert !SameAlert(s.log[if i < j then i else j].content, s.log[if i < j then j else i].content);
    }
    forall t | t in s.pending ensures s.pending[t].content != AlertOf(a) {
      assert !SameAlert(s.log[i].content, s.pending[t].content);
    }
  }

  /** A stored alert of camera c, or a lost one whose camera is gone for good. */
  ghost predicate Fate(s: State, a: string, c: string, destroyed: bool) {
    && Inv(s) && Find(s.rows.persisted, a) == Some(c) && c in s.rows.owners
    && (destroyed <==> c !in s.rows.cameras)
  }

  lemma FateStep(s: State, act: Action, a: string, c: string, destroyed: bool)
    requires Fate(s, a, c, destroyed) && Step(s, act).Some?
    ensures Fate(Step(s, act).value, a, c, destroyed || act == DestroyCamera(c))
  {
    StepKeeps(s, act);
    if OfRows(act) {
      RowFate(s, act, a, c);
    } else if !OfNet(act) {
      BroadcastFrame(s, act);
    }
  }

  lemma RowFate(s: State, act: Action, a: string, c: string)
    requires Find(s.rows.persisted, a) == Some(c) && c in s.rows.owners && RowStep(s, act).Some?
    ensures var r := RowStep(s, act).value.rows;
            && Find(r.persisted, a) == Some(c) && c in r.owners
            && (c !in r.cameras <==> c !in s.rows.cameras || act == DestroyCamera(c))
  {
  }

  lemma {:induction false} FateRun(s: State, acts: seq<Action>, a: string, c: string, destroyed: bool)
    requires Fate(s, a, c, destroyed) && RunFrom(Step, s, acts).Some?
    ensures Fate(RunFrom(Step, s, acts).value, a, c, destroyed || DestroyCamera(c) in acts)
    decreases |acts|
  {
    if acts != [] {
      FateStep(s, acts[0], a, c, destroyed);
      FateRun(Step(s, acts[0]).value, acts[1..], a, c, destroyed || acts[0] == DestroyCamera(c));
      assert DestroyCamera(c) in acts <==> acts[0] == DestroyCamera(c) || DestroyCamera(c) in acts[1..];
    }
  }

  /**
   * No fan-out can lose an alert, failing or not: whatever runs after it was stored, it is stored exactly as
   * long as its camera has not been deleted.
   */
  lemma {:induction false} StoredIffCameraKept(acts: seq<Action>, a: string, c: string, ticket: nat, more: seq<Action>)
    requires Run(acts).Some? && Step(Run(acts).value, Persist(a, c, ticket)).Some?
    requires RunFrom(Step, Step(Run(acts).value, Persist(a, c, ticket)).value, more).Some?
    ensures var t := RunFrom(Step, Step(Run(acts).value, Persist(a, c, ticket)).value, more).value;
            Find(t.rows.alerts, a) == Some(c) <==> DestroyCamera(c) !in more
  {
    Reachable(acts);
    StepKeeps(Run(acts).value, Persist(a, c, ticket));
    FateRun(Step(Run(acts).value, Persist(a, c, ticket)).value, more, a, c, false);
  }

  // ---------- Deletion against awaits ----------

  /** A deleted camera that is not cached and that no lookup under way will cache. */
  ghost predicate GoneForGood(s: State, c: string) {
    && c in s.rows.owners && c !in s.rows.cameras && c !in s.cache
    && forall t | t in s.pending :: !WillCache(s.pending[t], c)
  }

  predicate WillCache(p: Pending, c: string) {
    p.AwaitResume? && p.cameraId == c && Truthy(p.found)
  }

  lemma {:induction false} StaysGone(s: State, c: string, acts: seq<Action>)
    requires GoneForGood(s, c) && RunFrom(Step, s, acts).Some?
    ensures GoneForGood(RunFrom(Step, s, acts).value, c)
  {
    var gone := (t: State) => GoneForGood(t, c);
    forall t, act | gone(t) && Step(t, act).Some? ensures gone(Step(t, act).value) {
      GoneStep(t, c, act);
    }
    RunKeeps(Step, gone, s, acts);
  }

  lemma GoneStep(s: State, c: string, act: Action)
    requires GoneForGood(s, c) && Step(s, act).Some?
    ensures GoneForGood(Step(s, act).value, c)
  {
    if !OfNet(act) && !OfRows(act) {
      GoneBroadcast(s, c, act);
    }
  }

  lemma GoneBroadcast(s: State, c: string, act: Action)
    requires GoneForGood(s, c) && BroadcastStep(s, act).Some?
    ensures GoneForGood(BroadcastStep(s, act).value, c)
  {
  }

  lemma {:induction false} CachesOnResume(s: State, c: string, ticket: nat)
    requires ticket in s.pending && WillCache(s.pending[ticket], c)
    ensures RunFrom(Step, s, [Resume(ticket)]).Some? && c in RunFrom(Step, s, [Resume(ticket)]).value.cache
  {
  }

  predicate Recaches(s: State, c: string, more: seq<Action>) {
    RunFrom(Step, s, more).Some? && c in RunFrom(Step, s, more).value.cache
  }

  /**
   * What invalidation achieves: it is always possible, uncaches the camera, and a deleted camera can be cached
   * again after it exactly when a lookup that had read its owner is still waiting to continue.
   */
  lemma RecachedIff(s: State, c: string)
    requires c in s.rows.owners && c !in s.rows.cameras
    ensures Step(s, Invalidate(c)).Some? && c !in Step(s, Invalidate(c)).value.cache
    ensures (exists more :: Recaches(Step(s, Invalidate(c)).value, c, more))
            <==> exists t | t in s.pending :: WillCache(s.pending[t], c)
  {
    var u := Step(s, Invalidate(c)).value;
    if t :| t in s.pending && WillCache(s.pending[t], c) {
      CachesOnResume(u, c, t);
      assert Recaches(u, c, [Resume(t)]);
    } else {
      forall more | RunFrom(Step, u, more).Some? ensures !Recaches(u, c, more) {
        StaysGone(u, c, more);
      }
    }
  }

  /** The owner of a camera has been cached by an earlier broadcast. */
  function Known(c: string, owner: string): State {
    INIT.(rows := Created(INIT.rows, c, owner), cache := map[c := owner], log := [Delivery(c, Ephemeral, {})])
  }

  /** A lookup has read the owner of an existing camera. */
  function OwnerRead(c: string, owner: string): State {
    INIT.(rows := Created(INIT.rows, c, owner), pending := map[0 := AwaitResume(c, Ephemeral, Some(owner))])
  }

  lemma OwnerReadRun(c: string, owner: string, rest: seq<Action>) returns (acts: seq<Action>)
    ensures Run(acts) == RunFrom(Step, OwnerRead(c, owner), rest)
    ensures forall a | a in rest :: a in acts
  {
    var s1 := Step(INIT, CreateCamera(c, owner)).value;
    var s2 := Step(s1, Broadcast(c, 0)).value;
    assert Step(s2, Read(0)).value == OwnerRead(c, owner);
    FirstStep(Step, s2, Read(0), rest);
    acts := [Read(0)] + rest;
    FirstStep(Step, s1, Broadcast(c, 0), acts);
    acts := [Broadcast(c, 0)] + acts;
    FirstStep(Step, INIT, CreateCamera(c, owner), acts);
    acts := [CreateCamera(c, owner)] + acts;
  }

  /**
   * Invalidation can be outrun: a lookup that read the owner before a deletion caches it afterwards, so the
   * entry of a deleted camera stays. By CachedOwnerIsTheOwner it still names the right user.
   */
  lemma DeletedCameraStaysCached(c: string, owner: string) returns (acts: seq<Action>)
    requires owner != ""
    ensures Run(acts).Some? && c in Run(acts).value.rows.owners
    ensures c !in Run(acts).value.rows.cameras && c in Run(acts).value.cache && Invalidate(c) in acts
  {
    var s1 := Step(OwnerRead(c, owner), DestroyCamera(c)).value;
    var s2 := Step(s1, Invalidate(c)).value;
    acts := [Resume(0)] + [];
    FirstStep(Step, s2, Resume(0), []);
    FirstStep(Step, s1, Invalidate(c), acts);
    acts := [Invalidate(c)] + acts;
    FirstStep(Step, OwnerRead(c, owner), DestroyCamera(c), acts);
    assert Invalidate(c) in [DestroyCamera(c)] + acts;
    acts := OwnerReadRun(c, owner, [DestroyCamera(c)] + acts);
  }

  lemma KnownRun(c: string, owner: string, rest: seq<Action>) returns (acts: seq<Action>)
    requires owner != ""
    ensures Run(acts) == RunFrom(Step, Known(c, owner), rest)
  {
    var s1 := Step(OwnerRead(c, owner), Resume(0)).value;
    assert Step(s1, Deliver(0)).value == Known(c, owner);
    FirstStep(Step, s1, Deliver(0), rest);
    FirstStep(Step, OwnerRead(c, owner), Resume(0), [Deliver(0)] + rest);
    acts := OwnerReadRun(c, owner, [Resume(0)] + ([Deliver(0)] + rest));
  }

  /** The owner is known, the alert is stored and its broadcast under way, and the camera is gone. */
  function Orphaned(a: string, c: string, owner: string): State {
    Known(c, owner).(rows := Destroyed(Inserted(Known(c, owner).rows, a, c), c),
                     pending := map[0 := AwaitDelivery(c, AlertOf(a), Some(owner))])
  }

  lemma OrphanedRun(a: string, c: string, owner: string, rest: seq<Action>)
    returns (acts: seq<Action>)
    requires owner != ""
    ensures Run(acts) == RunFrom(Step, Orphaned(a, c, owner), rest)
  {
    var s1 := Step(Known(c, owner), Persist(a, c, 0)).value;
    var s2 := Step(s1, DestroyCamera(c)).value;
    assert Step(s2, Start(0)).value == Orphaned(a, c, owner);
    FirstStep(Step, s2, Start(0), rest);
    acts := [Start(0)] + rest;
    FirstStep(Step, s1, DestroyCamera(c), acts);
    acts := [DestroyCamera(c)] + acts;
    FirstStep(Step, Known(c, owner), Persist(a, c, 0), acts);
    acts := KnownRun(c, owner, [Persist(a, c, 0)] + acts);
  }

  /**
   * An alert can be offered after its row is gone: with the owner cached, the camera is deleted between the
   * insert and the start of the broadcast.
   */
  lemma OfferedAfterDeletion(a: string, c: string, owner: string) returns (acts: seq<Action>)
    requires owner != ""
    ensures Run(acts).Some? && |Run(acts).value.log| == 2 && Run(acts).value.log[1].content == AlertOf(a)
    ensures a !in Run(acts).value.rows.alerts
  {
    acts := OrphanedRun(a, c, owner, [Deliver(0)] + []);
    FirstStep(Step, Orphaned(a, c, owner), Deliver(0), []);
  }
}
