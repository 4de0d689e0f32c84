/** Live WebSocket connections indexed by user: backend/src/websocket/connectionRegistry.ts. */
module ConnectionRegistry {
  import opened Common

  type Message = string

  /** subscriptions is None while the connection wants every event of its user's cameras. */
  class WsConnection {
    const id: string
    const userId: string
    var subscriptions: Subscriptions
    /** What send has transmitted. */
    var outbox: seq<Message>

    constructor (id: string, userId: string)
      ensures this.id == id && this.userId == userId && subscriptions == None && outbox == []
    {
      this.id, this.userId := id, userId;
      subscriptions, outbox := None, [];
    }
  }

  /** Two levels: users, and their connections by id. */
  type Index<T> = map<string, map<string, T>>

  function Entry<T>(byUser: Index<T>, userId: string, id: string): Option<T> {
    if userId in byUser && id in byUser[userId] then Some(byUser[userId][id]) else None
  }

  predicate NoEmptyUser<T(==)>(byUser: Index<T>) {
    forall u | u in byUser :: byUser[u] != map[]
  }

  function Filed<T>(byUser: Index<T>, userId: string, id: string, conn: T): Index<T> {
    var conns: map<string, T> := if userId in byUser then byUser[userId] else map[];
    byUser[userId := conns[id := conn]]
  }

  function Unfiled<T>(byUser: Index<T>, userId: string, id: string): Index<T> {
    if userId !in byUser then byUser
    else
      var conns := byUser[userId] - {id};
      if |conns| == 0 then byUser - {userId} else byUser[userId := conns]
  }

  /** Filing changes one entry and leaves no user key with an empty map. */
  lemma FiledEntries<T>(byUser: Index<T>, userId: string, id: string, conn: T, u: string, c: string)
    requires NoEmptyUser(byUser)
    ensures NoEmptyUser(Filed(byUser, userId, id, conn))
    ensures Entry(Filed(byUser, userId, id, conn), u, c) ==
            if u == userId && c == id then Some(conn) else Entry(byUser, u, c)
  {
    assert id in Filed(byUser, userId, id, conn)[userId];
  }

  /** Removing takes out one entry and, with the last one, the user's key. */
  lemma UnfiledEntries<T>(byUser: Index<T>, userId: string, id: string, u: string, c: string)
    requires NoEmptyUser(byUser)
    ensures NoEmptyUser(Unfiled(byUser, userId, id))
    ensures Entry(Unfiled(byUser, userId, id), u, c) ==
            if u == userId && c == id then None else Entry(byUser, u, c)
  {
  }

  /** Connections are filed under their own user and id, and no user key has an empty map. */
  predicate Proper(byUser: Index<WsConnection>) {
    && NoEmptyUser(byUser)
    && (forall u, c | u in byUser && c in byUser[u] :: byUser[u][c].userId == u && byUser[u][c].id == c)
  }

  type Subscriptions = Option<set<string>>

  ghost function Connections(byUser: Index<WsConnection>): set<WsConnection> {
    set u, c | u in byUser && c in byUser[u] :: byUser[u][c]
  }

  /** sets is the index with each connection replaced by its subscriptions. */
  ghost predicate Shows(byUser: Index<WsConnection>, sets: Index<Subscriptions>)
    reads Connections(byUser)
  {
    && sets.Keys == byUser.Keys
    && (forall u | u in byUser :: sets[u].Keys == byUser[u].Keys)
    && (forall u, c | u in byUser && c in byUser[u] :: sets[u][c] == byUser[u][c].subscriptions)
  }

  /** The ids of the connections a camera message for this user is offered to. */
  function Offered(byUser: Index<Subscriptions>, userId: string, cameraId: string): set<string> {
    if userId in byUser then set id | id in byUser[userId] && Wants(byUser[userId][id], cameraId) else {}
  }

  predicate Wants(subscriptions: Subscriptions, cameraId: string) {
    subscriptions.None? || cameraId in subscriptions.value
  }

  function ToSet(ids: seq<string>): set<string> { set id | id in ids }

  /** A subscribe narrows to, or adds, the named cameras. */
  function Subscribed(subscriptions: Subscriptions, ids: seq<string>): Subscriptions {
    Some((if subscriptions.None? then {} else subscriptions.value) + ToSet(ids))
  }

  function Unsubscribed(subscriptions: Subscriptions, ids: seq<string>): Subscriptions {
    if subscriptions.None? then None else Some(subscriptions.value - ToSet(ids))
  }

  class ConnectionRegistry {
    var byUser: Index<WsConnection>

    ghost predicate Valid()
      reads this
    {
      Proper(byUser)
    }

    constructor ()
      ensures Valid() && byUser == map[]
    {
      byUser := map[];
    }

    method Add(conn: WsConnection)
      requires Valid()
      modifies this
      ensures Valid() && byUser == Filed(old(byUser), conn.userId, conn.id, conn)
    {
      var conns: map<string, WsConnection> := map[];
      if conn.userId in byUser {
        conns := byUser[conn.userId];
      }
      FiledEntries(byUser, conn.userId, conn.id, conn, conn.userId, conn.id);
      byUser := byUser[conn.userId := conns[conn.id := conn]];
    }

    method Remove(conn: WsConnection)
      requires Valid()
      modifies this
      ensures Valid() && byUser == Unfiled(old(byUser), conn.userId, conn.id)
    {
      UnfiledEntries(byUser, conn.userId, conn.id, conn.userId, conn.id);
      if conn.userId !in byUser {
        return;
      }
      var conns := byUser[conn.userId] - {conn.id};
      if |conns| == 0 {
        byUser := byUser - {conn.userId};
      } else {
        byUser := byUser[conn.userId := conns];
      }
    }

    method AddSubscriptions(conn: WsConnection, cameraIds: seq<string>)
      modifies conn`subscriptions
      ensures conn.subscriptions == Subscribed(old(conn.subscriptions), cameraIds)
    {
      var subs := if conn.subscriptions.None? then {} else conn.subscriptions.value;
      ghost var before := subs;
      for i := 0 to |cameraIds|
        invariant subs == before + ToSet(cameraIds[..i])
      {
        subs := subs + {cameraIds[i]};
        assert cameraIds[..i + 1] == cameraIds[..i] + [cameraIds[i]];
      }
      assert cameraIds[..|cameraIds|] == cameraIds;
      conn.subscriptions := Some(subs);
    }

    method RemoveSubscriptions(conn: WsConnection, cameraIds: seq<string>)
      modifies conn`subscriptions
      ensures conn.subscriptions == Unsubscribed(old(conn.subscriptions), cameraIds)
    {
      if conn.subscriptions.None? {
        return;
      }
      var subs := conn.subscriptions.value;
      ghost var before := subs;
      for i := 0 to |cameraIds|
        invariant subs == before - ToSet(cameraIds[..i])
      {
        subs := subs - {cameraIds[i]};
        assert cameraIds[..i + 1] == cameraIds[..i] + [cameraIds[i]];
      }
      assert cameraIds[..|cameraIds|] == cameraIds;
      conn.subscriptions := Some(subs);
    }

    ghost function Members(userId: string): set<WsConnection>
      reads this
    {
      if userId in byUser then byUser[userId].Values else {}
    }

    /** The connections a camera message for this user is offered to. */
    ghost function Audience(userId: string, cameraId: string): set<WsConnection>
      reads this, Members(userId)`subscriptions
    {
      set conn | conn in Members(userId) && Wants(conn.subscriptions, cameraId)
    }

    /** fails: the connections whose send throws; that is logged and the loop goes on. */
    method DeliverToUserForCamera(userId: string, cameraId: string, message: Message, fails: set<string>)
      returns (delivered: nat)
      requires Valid()
      modifies Members(userId)`outbox
      ensures delivered == |Reached(Audience(userId, cameraId), fails)|
      ensures forall conn | conn in Members(userId) ::
                conn.outbox == old(conn.outbox)
                               + if conn in Reached(Audience(userId, cameraId), fails) then [message] else []
    {
      if userId !in byUser {
        return 0;
      }
      delivered := OfferAll(byUser[userId], cameraId, message, fails);
      assert Audience(userId, cameraId) == Willing(byUser[userId], cameraId);
    }
  }

  /** Connections are filed under their own ids. */
  predicate KeyedById(conns: map<string, WsConnection>) { forall id | id in conns :: conns[id].id == id }

  ghost function Willing(conns: map<string, WsConnection>, cameraId: string): set<WsConnection>
    reads conns.Values`subscriptions
  {
    set conn | conn in conns.Values && Wants(conn.subscriptions, cameraId)
  }

  /** The loop over one user's connections. */
  method OfferAll(conns: map<string, WsConnection>, cameraId: string, message: Message, fails: set<string>)
    returns (delivered: nat)
    requires KeyedById(conns)
    modifies conns.Values`outbox
    ensures delivered == |Reached(Willing(conns, cameraId), fails)|
    ensures forall conn | conn in conns.Values ::
              conn.outbox == old(conn.outbox)
                             + if conn in Reached(Willing(conns, cameraId), fails) then [message] else []
  {
    ghost var target := Reached(Willing(conns, cameraId), fails);
    ghost var reached: set<WsConnection> := {};
    var todo := conns.Keys;
    delivered := 0;
    while todo != {}
      invariant todo <= conns.Keys
      invariant forall conn | conn in conns.Values :: conn in reached <==> conn in target && conn.id !in todo
      invariant reached <= conns.Values && delivered == |reached|
      invariant forall conn | conn in conns.Values ::
                  conn.outbox == old(conn.outbox) + if conn in reached then [message] else []
    {
      var id :| id in todo;
      var conn := conns[id];
      todo := todo - {id};
      if Wants(conn.subscriptions, cameraId) && id !in fails {
        conn.outbox := conn.outbox + [message];
        delivered := delivered + 1;
        reached := reached + {conn};
      }
    }
    assert reached == target;
  }

  /** Every index has such a view. */
  lemma ViewExists(byUser: Index<WsConnection>) returns (sets: Index<Subscriptions>)
    ensures Shows(byUser, sets)
  {
    sets := map u | u in byUser :: map c | c in byUser[u] :: byUser[u][c].subscriptions;
  }

  /** Add and Remove do the same to the view as to the index. */
  lemma ShowsFiled(byUser: Index<WsConnection>, conn: WsConnection, sets: Index<Subscriptions>)
    requires Shows(byUser, sets)
    ensures Shows(Filed(byUser, conn.userId, conn.id, conn), Filed(sets, conn.userId, conn.id, conn.subscriptions))
  {
  }

  lemma ShowsUnfiled(
    byUser: Index<WsConnection>, userId: string, id: string, sets: Index<Subscriptions>)
    requires Shows(byUser, sets)
    ensures Shows(Unfiled(byUser, userId, id), Unfiled(sets, userId, id))
  {
  }

  /** sets is right but for the subscriptions of one connection, which have changed. */
  ghost predicate ShowsOthers(byUser: Index<WsConnection>, conn: WsConnection, sets: Index<Subscriptions>)
    reads Connections(byUser)
  {
    && sets.Keys == byUser.Keys
    && (forall u | u in byUser :: sets[u].Keys == byUser[u].Keys)
    && (forall u, c | u in byUser && c in byUser[u] && byUser[u][c] != conn ::
          sets[u][c] == byUser[u][c].subscriptions)
  }

  lemma Refiled<T>(m: Index<T>, userId: string, id: string, conn: T)
    requires userId in m && id in m[userId]
    ensures var n := Filed(m, userId, id, conn);
            && n.Keys == m.Keys
            && (forall u | u in m :: n[u].Keys == m[u].Keys)
            && (forall u, c | u in m && c in m[u] :: n[u][c] == if u == userId && c == id then conn else m[u][c])
  {
  }

  /** Changing the set of one filed connection files its new set and changes no other entry. */
  lemma ShowsChanged(byUser: Index<WsConnection>, conn: WsConnection, sets: Index<Subscriptions>)
    requires Proper(byUser) && Entry(byUser, conn.userId, conn.id) == Some(conn)
    requires ShowsOthers(byUser, conn, sets)
    ensures Shows(byUser, Filed(sets, conn.userId, conn.id, conn.subscriptions))
  {
    Refiled(sets, conn.userId, conn.id, conn.subscriptions);
    var after := Filed(sets, conn.userId, conn.id, conn.subscriptions);
    forall u, c | u in byUser && c in byUser[u] ensures after[u][c] == byUser[u][c].subscriptions {
      assert byUser[u][c].userId == u && byUser[u][c].id == c;
    }
  }

  /** The ids of the audience of a camera message are those offered it in the view. */
  lemma AudienceIds(
    registry: ConnectionRegistry, sets: Index<Subscriptions>, userId: string, cameraId: string)
    requires registry.Valid() && Shows(registry.byUser, sets)
    ensures (set conn | conn in registry.Audience(userId, cameraId) :: conn.id)
            == Offered(sets, userId, cameraId)
  {
  }

  ghost function Reached(audience: set<WsConnection>, fails: set<string>): set<WsConnection> {
    set conn | conn in audience && conn.id !in fails
  }
}
