/**
 * Client and server together: the subscriptions kept by frontend/src/hooks/useWebSocket.ts against the set
 * kept by backend/src/websocket/connectionRegistry.ts, over a channel that delivers in order.
 */
module SubscriptionSync {
  import opened Common
  import opened ConnectionRegistry
  import opened WsHandler
  import opened WebSocketClient

  /** The server's set after it processed these client messages, each serialised and parsed. */
  function ServerAfter(subs: Option<set<string>>, msgs: seq<ClientMessage>): Option<set<string>> {
    if msgs == [] then subs
    else
      var last := |msgs| - 1;
      AfterMessage(ServerAfter(subs, msgs[..last]), ParseClientMessage(Encode(msgs[last])))
  }

  predicate Covers(subs: Option<set<string>>, ids: seq<string>) {
    forall id | id in ids :: Wants(subs, id)
  }

  lemma {:induction false} ProcessedThenInFlight(subs: Option<set<string>>, a: seq<ClientMessage>, b: seq<ClientMessage>)
    ensures ServerAfter(ServerAfter(subs, a), b) == ServerAfter(subs, a + b)
  {
    if b == [] {
      assert a + b == a;
    } else {
      ProcessedThenInFlight(subs, a, b[..|b| - 1]);
      assert (a + b)[..|a + b| - 1] == a + b[..|b| - 1];
    }
  }

  lemma {:induction false} OneMore(subs: Option<set<string>>, msgs: seq<ClientMessage>, m: ClientMessage)
    ensures ServerAfter(subs, msgs + [m]) == AfterMessage(ServerAfter(subs, msgs), Some(m))
  {
    assert (msgs + [m])[..|msgs|] == msgs;
    ParseOfEncode(m);
  }

  /** On an open current socket, what was sent so far covers the registered cameras; before opening nothing was sent. */
  predicate CoverInv(c: Client) {
    Usable(c) ==>
      var s := c.sockets[c.wsRef.value];
      && (s.readyState == Open ==> Covers(ServerAfter(None, s.sent), c.cameraIds))
  }

  lemma AfterSubscribe(subs: Option<set<string>>, ids: seq<string>)
    ensures Covers(AfterMessage(subs, Some(Subscribe(ids))), ids)
  {
  }

  lemma SubscribeCovers(c: Client)
    ensures CoverInv(SendSubscribe(c))
  {
    if Usable(c) {
      var sent := c.sockets[c.wsRef.value].sent;
      OneMore(None, sent, Subscribe(c.cameraIds));
      AfterSubscribe(ServerAfter(None, sent), c.cameraIds);
    }
  }

  lemma PingKeeps(c: Client)
    requires CoverInv(c)
    ensures CoverInv(Send(c, Ping))
  {
    if Usable(c) {
      OneMore(None, c.sockets[c.wsRef.value].sent, Ping);
    }
  }

  /** A new socket is not open yet. */
  lemma ConnectCovers(c: Client, throws: bool)
    requires SocketInv(c) && CoverInv(c)
    ensures CoverInv(Connect(c, throws))
  {
  }

  lemma AuthCovers(c: Client, isAuthenticated: bool, token: string, throws: bool)
    requires Inv(c)
    ensures CoverInv(AuthEffect(c, isAuthenticated, token, throws))
  {
  }

  lemma CloseCovers(c: Client, k: nat)
    requires Inv(c) && CoverInv(c) && Step(c, SocketCloses(k)).Some?
    ensures CoverInv(Step(c, SocketCloses(k)).value)
  {
  }

  lemma CoverStep(c: Client, act: Action)
    requires Inv(c) && CoverInv(c) && Step(c, act).Some?
    ensures CoverInv(Step(c, act).value)
  {
    match act
    case SocketOpens(k) =>
      SubscribeCovers(WithState(c, k, Open).(reconnectAttempts := 0, status := StatusOpen));
    case PingFires => PingKeeps(c);
    case Register(ids) => SubscribeCovers(c.(cameraIds := SortIds(ids)));
    case Auth(isAuthenticated, token, throws) => AuthCovers(c, isAuthenticated, token, throws);
    case ReconnectFires(throws) => ConnectCovers(c.(reconnectTimer := false), throws);
    case SocketCloses(k) => CloseCovers(c, k);
    case _ =>
  }

  /** The ids of the latest registration. */
  function LastRegistered(ids: seq<string>, acts: seq<Action>): seq<string>
    decreases |acts|
  {
    if acts == [] then ids
    else LastRegistered(if acts[0].Register? then acts[0].ids else ids, acts[1..])
  }

  lemma CameraIdsStep(c: Client, act: Action)
    requires Step(c, act).Some?
    ensures Step(c, act).value.cameraIds == if act.Register? then SortIds(act.ids) else c.cameraIds
  {
  }

  lemma {:induction false} CoverRun(c: Client, acts: seq<Action>, ids: seq<string>)
    requires Inv(c) && CoverInv(c) && c.cameraIds == SortIds(ids) && RunFrom(Step, c, acts).Some?
    ensures var d := RunFrom(Step, c, acts).value;
            Inv(d) && CoverInv(d) && d.cameraIds == SortIds(LastRegistered(ids, acts))
    decreases |acts|
  {
    if acts != [] {
      StepKeeps(c, acts[0]);
      CoverStep(c, acts[0]);
      CameraIdsStep(c, acts[0]);
      CoverRun(Step(c, acts[0]).value, acts[1..], if acts[0].Register? then acts[0].ids else ids);
    }
  }

  lemma {:induction false} InsertKeepsIds(sorted: seq<string>, id: string, x: string)
    ensures x in InsertId(sorted, id) <==> x == id || x in sorted
  {
    if sorted != [] && !StringLeq(id, sorted[0]) {
      InsertKeepsIds(sorted[1..], id, x);
      assert x in sorted <==> x == sorted[0] || x in sorted[1..];
    }
  }

  lemma {:induction false} SortKeepsIds(ids: seq<string>, x: string)
    ensures x in SortIds(ids) <==> x in ids
  {
    if ids != [] {
      SortKeepsIds(ids[..|ids| - 1], x);
      InsertKeepsIds(SortIds(ids[..|ids| - 1]), ids[|ids| - 1], x);
      assert ids == ids[..|ids| - 1] + [ids[|ids| - 1]];
    }
  }

  lemma {:induction false} WantsAfterBoth(
    a: seq<ClientMessage>, b: seq<ClientMessage>, ids: seq<string>, cameraId: string)
    requires Covers(ServerAfter(None, a + b), ids) && cameraId in ids
    ensures Wants(ServerAfter(ServerAfter(None, a), b), cameraId)
  {
    ProcessedThenInFlight(None, a, b);
  }

  lemma {:induction false} CoveredAfterAll(c: Client, n: nat, ids: seq<string>, cameraId: string)
    requires CoverInv(c) && Usable(c) && c.sockets[c.wsRef.value].readyState == Open
    requires n <= |c.sockets[c.wsRef.value].sent| && c.cameraIds == SortIds(ids) && cameraId in ids
    ensures var sent := c.sockets[c.wsRef.value].sent;
            Wants(ServerAfter(ServerAfter(None, sent[..n]), sent[n..]), cameraId)
  {
    var sent := c.sockets[c.wsRef.value].sent;
    SortKeepsIds(ids, cameraId);
    assert sent[..n] + sent[n..] == sent;
    WantsAfterBoth(sent[..n], sent[n..], c.cameraIds, cameraId);
  }

  /**
   * Subscription coverage. In every reachable state whose current socket is open, for every number n of
   * messages the server has processed so far, once it applies those in flight it wants every camera of the
   * latest registration: registrations made while closed, reconnects and skipped unchanged lists included.
   */
  lemma {:induction false} SubscriptionCoverage(acts: seq<Action>, n: nat, cameraId: string)
    requires Run(acts).Some? && Run(acts).value.wsRef.Some?
    requires Usable(Run(acts).value)
    requires var s := Run(acts).value.sockets[Run(acts).value.wsRef.value]; s.readyState == Open && n <= |s.sent|
    requires cameraId in LastRegistered([], acts)
    ensures var s := Run(acts).value.sockets[Run(acts).value.wsRef.value];
            Wants(ServerAfter(ServerAfter(None, s.sent[..n]), s.sent[n..]), cameraId)
  {
    CoverRun(INIT, acts, []);
    CoveredAfterAll(Run(acts).value, n, LastRegistered([], acts), cameraId);
  }
}
