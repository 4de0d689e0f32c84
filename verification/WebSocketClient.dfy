/**
 * The browser's single shared connection: frontend/src/hooks/useWebSocket.ts. Each callback runs to
 * completion before the next; a socket closed by the client fires no later events.
 */
module WebSocketClient {
  import opened Common
  import opened WsHandler
  import Retry

  const MAX_BACKOFF_MS: nat := 30_000
  const BASE_BACKOFF_MS: nat := 1_000

  datatype ReadyState = Connecting | Open | Closing | Closed

  /** attached: its onclose handler has not been taken off. sent: everything the client sent on it. */
  datatype Socket = Socket(readyState: ReadyState, attached: bool, sent: seq<ClientMessage>)

  datatype Status = Idle | StatusConnecting | StatusOpen | StatusClosed

  /** The refs of the provider, the sockets it ever made, and the token its callbacks were created with. */
  datatype Client = Client(
    shouldRun: bool, token: string, wsRef: Option<nat>, sockets: seq<Socket>,
    reconnectTimer: bool, pingTimer: bool, reconnectAttempts: nat, cameraIds: seq<string>, status: Status)

  const INIT: Client := Client(false, "", None, [], false, false, 0, [], Idle)

  // ---------- The callbacks as functions of the state ----------

  predicate Usable(c: Client) {
    c.wsRef.Some? && c.wsRef.value < |c.sockets|
  }

  function Send(c: Client, m: ClientMessage): Client {
    if Usable(c) && c.sockets[c.wsRef.value].readyState == Open then
      var k := c.wsRef.value;
      c.(sockets := c.sockets[k := c.sockets[k].(sent := c.sockets[k].sent + [m])])
    else c
  }

  function SendSubscribe(c: Client): Client {
    if |c.cameraIds| > 0 then Send(c, Subscribe(c.cameraIds)) else c
  }

  function ScheduleReconnect(c: Client): Client {
    if !c.shouldRun || c.reconnectTimer then c
    else c.(reconnectAttempts := c.reconnectAttempts + 1, reconnectTimer := true)
  }

  /** throws: the WebSocket constructor fails. */
  function Connect(c: Client, throws: bool): Client {
    if !c.shouldRun || c.token == "" then c
    else if Usable(c) && (c.sockets[c.wsRef.value].readyState == Open
                          || c.sockets[c.wsRef.value].readyState == Connecting) then c
    else if throws then ScheduleReconnect(c.(status := StatusConnecting))
    else c.(status := StatusConnecting, wsRef := Some(|c.sockets|), sockets := c.sockets + [Socket(Connecting, true, [])])
  }

  function OnOpen(c: Client): Client {
    SendSubscribe(c.(reconnectAttempts := 0, status := StatusOpen)).(pingTimer := true)
  }

  function OnClose(c: Client): Client {
    var d := c.(pingTimer := false, wsRef := None);
    if d.shouldRun then ScheduleReconnect(d.(status := StatusConnecting)) else d.(status := StatusClosed)
  }

  function ClearTimers(c: Client): Client {
    c.(reconnectTimer := false, pingTimer := false)
  }

  /** Take the handler off, close, forget. */
  function DropSocket(c: Client): Client {
    if Usable(c) then
      var k := c.wsRef.value;
      c.(sockets := c.sockets[k := c.sockets[k].(readyState := Closing, attached := false)], wsRef := None)
    else c.(wsRef := None)
  }

  function Cleanup(c: Client): Client {
    DropSocket(ClearTimers(c.(shouldRun := false)))
  }

  /** The auth effect after its previous cleanup. */
  function AuthEffect(c: Client, isAuthenticated: bool, token: string, throws: bool): Client {
    var d := Cleanup(c).(token := token);
    if isAuthenticated && token != ""
    then Connect(d.(shouldRun := true, reconnectAttempts := 0), throws)
    else d.(status := Idle)
  }

  // Sorting of ids by code units.

  predicate StringLeq(a: string, b: string) {
    a == [] || (b != [] && (a[0] < b[0] || (a[0] == b[0] && StringLeq(a[1..], b[1..]))))
  }

  function InsertId(sorted: seq<string>, id: string): seq<string> {
    if sorted == [] then [id]
    else if StringLeq(id, sorted[0]) then [id] + sorted
    else [sorted[0]] + InsertId(sorted[1..], id)
  }

  function SortIds(ids: seq<string>): seq<string> {
    if ids == [] then [] else InsertId(SortIds(ids[..|ids| - 1]), ids[|ids| - 1])
  }

  function RegisterCameras(c: Client, ids: seq<string>): Client {
    var sorted := SortIds(ids);
    var d := c.(cameraIds := sorted);
    if sorted != c.cameraIds then SendSubscribe(d) else d
  }

  lemma {:induction false} PowPositive(k: nat)
    ensures Retry.Pow(2, k) >= 1
  {
    if k > 0 {
      PowPositive(k - 1);
    }
  }

  // ---------- The provider ----------

  class Provider {
    var shouldRun: bool
    var token: string
    var wsRef: Option<nat>
    var sockets: seq<Socket>
    var reconnectTimer: bool
    var pingTimer: bool
    var reconnectAttempts: nat
    var cameraIds: seq<string>
    var status: Status

    ghost function State(): Client
      reads this
    {
      Client(shouldRun, token, wsRef, sockets, reconnectTimer, pingTimer, reconnectAttempts, cameraIds, status)
    }

    constructor ()
      ensures State() == INIT
    {
      shouldRun, token, wsRef, sockets := false, "", None, [];
      reconnectTimer, pingTimer, reconnectAttempts, cameraIds, status := false, false, 0, [], Idle;
    }

    predicate HasSocket()
      reads this
    {
      wsRef.Some? && wsRef.value < |sockets|
    }

    method SendMessage(m: ClientMessage)
      modifies this
      ensures State() == Send(old(State()), m)
    {
      if HasSocket() && sockets[wsRef.value].readyState == Open {
        var ws := sockets[wsRef.value];
        sockets := sockets[wsRef.value := ws.(sent := ws.sent + [m])];
      }
    }

    method SubscribeAll()
      modifies this
      ensures State() == SendSubscribe(old(State()))
    {
      if |cameraIds| > 0 {
        SendMessage(Subscribe(cameraIds));
      }
    }

    /** The delay is capped doubling plus less than one second of random jitter. */
    method Schedule() returns (delay: nat)
      modifies this
      ensures State() == ScheduleReconnect(old(State()))
      ensures reconnectTimer && !old(reconnectTimer) ==>
                var backoff := Min(BASE_BACKOFF_MS * Retry.Pow(2, old(reconnectAttempts)), MAX_BACKOFF_MS);
                BASE_BACKOFF_MS <= backoff <= delay < backoff + 1000
    {
      delay := 0;
      if !shouldRun || reconnectTimer {
        return;
      }
      var attempt := reconnectAttempts;
      PowPositive(attempt);
      var backoff := Min(BASE_BACKOFF_MS * Retry.Pow(2, attempt), MAX_BACKOFF_MS);
      var random: nat :| random < 1000;
      delay := backoff + random;
      reconnectAttempts := attempt + 1;
      reconnectTimer := true;
    }

    method TryConnect(throws: bool)
      modifies this
      ensures State() == Connect(old(State()), throws)
    {
      if !shouldRun || token == "" {
        return;
      }
      if HasSocket() && (sockets[wsRef.value].readyState == Open || sockets[wsRef.value].readyState == Connecting) {
        return;
      }
      status := StatusConnecting;
      if throws {
        var _ := Schedule();
        return;
      }
      wsRef := Some(|sockets|);
      sockets := sockets + [Socket(Connecting, true, [])];
    }

    method HandleOpen()
      modifies this
      ensures State() == OnOpen(old(State()))
    {
      reconnectAttempts := 0;
      status := StatusOpen;
      SubscribeAll();
      pingTimer := true;
    }

    method HandleClose()
      modifies this
      ensures State() == OnClose(old(State()))
    {
      pingTimer := false;
      wsRef := None;
      if shouldRun {
        status := StatusConnecting;
        var _ := Schedule();
      } else {
        status := StatusClosed;
      }
    }

    method TearDown()
      modifies this
      ensures State() == Cleanup(old(State()))
    {
      shouldRun := false;
      reconnectTimer := false;
      pingTimer := false;
      if HasSocket() {
        sockets := sockets[wsRef.value := sockets[wsRef.value].(readyState := Closing, attached := false)];
      }
      wsRef := None;
    }

    method RunAuthEffect(isAuthenticated: bool, newToken: string, throws: bool)
      modifies this
      ensures State() == AuthEffect(old(State()), isAuthenticated, newToken, throws)
    {
      TearDown();
      token := newToken;
      if isAuthenticated && token != "" {
        shouldRun := true;
        reconnectAttempts := 0;
        TryConnect(throws);
      } else {
        status := Idle;
      }
    }

    method Register(ids: seq<string>)
      modifies this
      ensures State() == RegisterCameras(old(State()), ids)
    {
      var sorted := SortIds(ids);
      var changed := sorted != cameraIds;
      cameraIds := sorted;
      if changed {
        SubscribeAll();
      }
    }
  }

  // ---------- Runs ----------

  datatype Action =
    | Auth(isAuthenticated: bool, token: string, throws: bool)
    | Unmount
    | SocketOpens(k: nat)
    | SocketStartsClosing(k: nat)
    | SocketCloses(k: nat)
    | ReconnectFires(throws: bool)
    | PingFires
    | Register(ids: seq<string>)

  function WithState(c: Client, k: nat, r: ReadyState): Client
    requires k < |c.sockets|
  {
    c.(sockets := c.sockets[k := c.sockets[k].(readyState := r)])
  }

  function Step(c: Client, act: Action): Option<Client> {
    match act
    case Auth(isAuthenticated, token, throws) => Some(AuthEffect(c, isAuthenticated, token, throws))
    case Unmount => Some(Cleanup(c))
    case SocketOpens(k) =>
      if k < |c.sockets| && c.sockets[k].readyState == Connecting && c.sockets[k].attached
      then Some(OnOpen(WithState(c, k, Open))) else None
    case SocketStartsClosing(k) =>
      // The peer or the network ends it; its close event is still to come.
      if k < |c.sockets| && (c.sockets[k].readyState == Connecting || c.sockets[k].readyState == Open)
      then Some(WithState(c, k, Closing)) else None
    case SocketCloses(k) =>
      if k < |c.sockets| && c.sockets[k].readyState != ReadyState.Closed then
        var d := WithState(c, k, ReadyState.Closed);
        Some(if c.sockets[k].attached then OnClose(d) else d)
      else None
    case ReconnectFires(throws) =>
      if c.reconnectTimer then Some(Connect(c.(reconnectTimer := false), throws)) else None
    case PingFires => if c.pingTimer then Some(Send(c, Ping)) else None
    case Register(ids) => Some(RegisterCameras(c, ids))
  }

  function Run(acts: seq<Action>): Option<Client> {
    RunFrom(Step, INIT, acts)
  }

  predicate Alive(s: Socket) { s.readyState == Connecting || s.readyState == Open }

  predicate SocketInv(c: Client) {
    && (c.wsRef.Some? ==> c.wsRef.value < |c.sockets| && c.sockets[c.wsRef.value].attached
                          && c.sockets[c.wsRef.value].readyState != ReadyState.Closed)
    && (forall k | 0 <= k < |c.sockets| && c.wsRef != Some(k) ::
          !Alive(c.sockets[k]) && (c.sockets[k].attached ==> c.sockets[k].readyState == ReadyState.Closed))
  }

  predicate TimerInv(c: Client) {
    && (c.reconnectTimer ==> c.wsRef.None?)
    && (c.pingTimer ==> c.wsRef.Some?)
    && (c.wsRef.Some? && c.wsRef.value < |c.sockets| && c.sockets[c.wsRef.value].readyState == Open ==> c.pingTimer)
    && (c.shouldRun <==> c.wsRef.Some? || c.reconnectTimer)
    && (c.shouldRun ==> c.token != "")
  }

  predicate Inv(c: Client) { SocketInv(c) && TimerInv(c) }

  lemma SendKeeps(c: Client, m: ClientMessage)
    requires Inv(c)
    ensures Inv(Send(c, m))
  {
  }

  lemma ConnectKeeps(c: Client, throws: bool)
    requires SocketInv(c) && c.wsRef.None? && !c.reconnectTimer && !c.pingTimer && c.shouldRun && c.token != ""
    ensures Inv(Connect(c, throws))
  {
  }

  lemma CleanupKeeps(c: Client)
    requires SocketInv(c)
    ensures Inv(Cleanup(c))
  {
  }

  lemma CloseKeeps(c: Client, k: nat)
    requires Inv(c) && Step(c, SocketCloses(k)).Some?
    ensures Inv(Step(c, SocketCloses(k)).value)
  {
  }

  lemma StepKeeps(c: Client, act: Action)
    requires Inv(c) && Step(c, act).Some?
    ensures Inv(Step(c, act).value)
  {
    match act
    case Auth(isAuthenticated, token, throws) =>
      CleanupKeeps(c);
      if isAuthenticated && token != "" {
        ConnectKeeps(Cleanup(c).(token := token, shouldRun := true, reconnectAttempts := 0), throws);
      }
    case Unmount => CleanupKeeps(c);
    case SocketOpens(k) =>
      var d := WithState(c, k, Open).(reconnectAttempts := 0, status := StatusOpen, pingTimer := true);
      SendKeeps(d, Subscribe(c.cameraIds));
    case ReconnectFires(throws) => ConnectKeeps(c.(reconnectTimer := false), throws);
    case PingFires => SendKeeps(c, Ping);
    case Register(ids) => SendKeeps(c.(cameraIds := SortIds(ids)), Subscribe(SortIds(ids)));
    case SocketCloses(k) => CloseKeeps(c, k);
    case SocketStartsClosing(_) =>
  }

  lemma Reachable(acts: seq<Action>)
    requires Run(acts).Some?
    ensures Inv(Run(acts).value)
  {
    forall c, act | Inv(c) && Step(c, act).Some? ensures Inv(Step(c, act).value) {
      StepKeeps(c, act);
    }
    RunKeeps(Step, Inv, INIT, acts);
  }

  /**
   * In every reachable state at most one socket is connecting or open; a pending reconnect means there is
   * none; a ping timer means there is a current socket, and an open socket has one; and while the provider should run
   * it either has a current socket or a pending reconnect, so it is never stranded.
   */
  lemma SingleConnection(acts: seq<Action>, j: nat, k: nat)
    requires Run(acts).Some? && j < |Run(acts).value.sockets| && k < |Run(acts).value.sockets|
    ensures var c := Run(acts).value;
            && (Alive(c.sockets[j]) && Alive(c.sockets[k]) ==> j == k)
            && (c.reconnectTimer ==> !Alive(c.sockets[k]))
            && (c.pingTimer ==> c.wsRef.Some?)
            && (c.sockets[k].readyState == Open ==> c.wsRef == Some(k) && c.pingTimer)
            && (c.shouldRun ==> c.wsRef.Some? || c.reconnectTimer)
  {
    Reachable(acts);
  }

  predicate Login(act: Action) { act.Auth? && act.isAuthenticated && act.token != "" }
  predicate Leave(act: Action) { act.Unmount? || (act.Auth? && !Login(act)) }

  /**
   * After a logout or unmount, whatever happens until the next login, no timer runs, there is no current
   * socket, and every socket still attached is already closed; a logout shows idle all that time.
   */
  lemma {:induction false} QuietAfterLogout(before: seq<Action>, leave: Action, after: seq<Action>, k: nat)
    requires Run(before).Some? && Leave(leave) && RunFrom(Step, Step(Run(before).value, leave).value, after).Some?
    requires forall a | a in after :: !Login(a)
    ensures var c := RunFrom(Step, Step(Run(before).value, leave).value, after).value;
            && !c.shouldRun && !c.reconnectTimer && !c.pingTimer && c.wsRef.None?
            && (leave.Auth? ==> c.status == Idle)
            && (k < |c.sockets| ==>
                  !Alive(c.sockets[k]) && (c.sockets[k].attached ==> c.sockets[k].readyState == ReadyState.Closed))
  {
    Reachable(before);
    StepKeeps(Run(before).value, leave);
    StaysQuiet(Step(Run(before).value, leave).value, after);
  }

  lemma {:induction false} StaysQuiet(c: Client, acts: seq<Action>)
    requires Inv(c) && !c.shouldRun && RunFrom(Step, c, acts).Some?
    requires forall a | a in acts :: !Login(a)
    ensures var d := RunFrom(Step, c, acts).value; Inv(d) && !d.shouldRun && (c.status == Idle ==> d.status == Idle)
    decreases |acts|
  {
    if acts != [] {
      StepKeeps(c, acts[0]);
      assert !Login(acts[0]);
      assert forall a | a in acts[1..] :: a in acts;
      StaysQuiet(Step(c, acts[0]).value, acts[1..]);
    }
  }

  // ---------- Getting connected ----------

  predicate IsOpen(c: Client) {
    Usable(c) && c.sockets[c.wsRef.value].readyState == Open
  }

  /** The current socket is connecting. */
  predicate IsConnecting(c: Client) {
    Usable(c) && c.sockets[c.wsRef.value].readyState == Connecting
  }

  lemma OpensNow(c: Client) returns (rest: seq<Action>)
    requires Inv(c) && IsConnecting(c)
    ensures |rest| == 1 && RunFrom(Step, c, rest).Some?
    ensures var d := RunFrom(Step, c, rest).value;
            && IsOpen(d) && d.wsRef == c.wsRef && d.cameraIds == c.cameraIds && d.status == StatusOpen
            && d.reconnectAttempts == 0 && d.pingTimer
            && (c.cameraIds != [] ==>
                  d.sockets[d.wsRef.value].sent == c.sockets[c.wsRef.value].sent + [Subscribe(c.cameraIds)])
  {
    var k := c.wsRef.value;
    rest := [SocketOpens(k)] + [];
    FirstStep(Step, c, SocketOpens(k), []);
  }

  /** A pending reconnect makes a new socket. */
  lemma FiresNow(c: Client)
    requires Inv(c) && c.reconnectTimer
    ensures Step(c, ReconnectFires(false)).Some?
    ensures var d := Step(c, ReconnectFires(false)).value;
            && Inv(d) && IsConnecting(d) && d.wsRef == Some(|c.sockets|) && d.sockets[|c.sockets|].sent == []
            && d.cameraIds == c.cameraIds
  {
  }

  /** The end of a socket that should run is followed by a pending reconnect. */
  lemma ClosesNow(c: Client)
    requires Inv(c) && Usable(c) && c.shouldRun
    ensures Step(c, SocketCloses(c.wsRef.value)).Some?
    ensures var d := Step(c, SocketCloses(c.wsRef.value)).value;
            Inv(d) && d.reconnectTimer && d.cameraIds == c.cameraIds
  {
  }

  lemma OpensAfterTimer(c: Client) returns (rest: seq<Action>)
    requires Inv(c) && c.reconnectTimer
    ensures |rest| == 2 && RunFrom(Step, c, rest).Some? && OpenAndSubscribed(RunFrom(Step, c, rest).value)
  {
    FiresNow(c);
    rest := OpensNow(Step(c, ReconnectFires(false)).value);
    FirstStep(Step, c, ReconnectFires(false), rest);
    rest := [ReconnectFires(false)] + rest;
  }

  /** The provider shows open, pings, and has just asked for the registered cameras. */
  predicate OpenAndSubscribed(c: Client) {
    && IsOpen(c) && c.status == StatusOpen && c.pingTimer && c.reconnectAttempts == 0
    && (c.cameraIds != [] ==>
          var sent := c.sockets[c.wsRef.value].sent;
          sent != [] && sent[|sent| - 1] == Subscribe(c.cameraIds))
  }

  /**
   * A provider that should run gets connected: from every reachable state without an open socket at most three
   * steps that are all enabled, none of them a login, lead to an open socket that has just subscribed.
   */
  lemma GetsConnected(acts: seq<Action>) returns (rest: seq<Action>)
    requires Run(acts).Some? && Run(acts).value.shouldRun && !IsOpen(Run(acts).value)
    ensures |rest| <= 3 && RunFrom(Step, Run(acts).value, rest).Some?
    ensures OpenAndSubscribed(RunFrom(Step, Run(acts).value, rest).value)
  {
    Reachable(acts);
    var c := Run(acts).value;
    if c.reconnectTimer {
      rest := OpensAfterTimer(c);
    } else if IsConnecting(c) {
      rest := OpensNow(c);
    } else {
      var close := SocketCloses(c.wsRef.value);
      ClosesNow(c);
      rest := OpensAfterTimer(Step(c, close).value);
      FirstStep(Step, c, close, rest);
      rest := [close] + rest;
    }
  }

  /**
   * The loss of the connection is noticed: from every reachable state the network can end the current socket at
   * any time, with or without a closing phase, and its end leaves a pending reconnect and no ping timer.
   */
  lemma LossIsNoticed(acts: seq<Action>)
    requires Run(acts).Some? && (IsOpen(Run(acts).value) || IsConnecting(Run(acts).value))
    ensures var c := Run(acts).value;
            var k := c.wsRef.value;
            && c.shouldRun && Loses(c, k)
            && Step(c, SocketStartsClosing(k)).Some? && Loses(Step(c, SocketStartsClosing(k)).value, k)
  {
    Reachable(acts);
    StepKeeps(Run(acts).value, SocketStartsClosing(Run(acts).value.wsRef.value));
  }

  predicate Loses(c: Client, k: nat) {
    var d := Step(c, SocketCloses(k));
    d.Some? && d.value.wsRef.None? && d.value.reconnectTimer && !d.value.pingTimer
  }

  /** A login makes a socket at once, or schedules the next try when that throws. */
  lemma LoginConnects(acts: seq<Action>, token: string, throws: bool)
    requires Run(acts).Some? && token != ""
    ensures Step(Run(acts).value, Auth(true, token, throws)).Some?
    ensures var d := Step(Run(acts).value, Auth(true, token, throws)).value;
            d.shouldRun && d.token == token && if throws then d.reconnectTimer else IsConnecting(d)
  {
  }

  // ---------- Backoff ----------

  /** Failed tries since the socket was last open or the user logged in: n before the run. */
  function Failures(c: Client, n: nat, acts: seq<Action>): nat
    decreases |acts|
  {
    if acts == [] || Step(c, acts[0]).None? then n
    else
      var after := match acts[0]
        case Auth(_, _, throws) => if throws && Login(acts[0]) then 1 else 0
        case SocketOpens(_) => 0
        case ReconnectFires(throws) => if throws then n + 1 else n
        case SocketCloses(k) => if c.sockets[k].attached then n + 1 else n
        case _ => n;
      Failures(Step(c, acts[0]).value, after, acts[1..])
  }

  lemma FailureStep(c: Client, act: Action)
    requires Inv(c) && Step(c, act).Some? && Step(c, act).value.shouldRun
    ensures var d := Step(c, act).value;
            d.reconnectAttempts == match act
              case Auth(_, _, throws) => if throws then 1 else 0
              case SocketOpens(_) => 0
              case ReconnectFires(throws) => if throws then c.reconnectAttempts + 1 else c.reconnectAttempts
              case SocketCloses(k) => if c.sockets[k].attached then c.reconnectAttempts + 1 else c.reconnectAttempts
              case _ => c.reconnectAttempts
    ensures !act.Auth? ==> c.shouldRun
  {
  }

  lemma {:induction false} FailuresCounted(c: Client, n: nat, acts: seq<Action>)
    requires Inv(c) && (c.shouldRun ==> c.reconnectAttempts == n) && RunFrom(Step, c, acts).Some?
    ensures var d := RunFrom(Step, c, acts).value; d.shouldRun ==> d.reconnectAttempts == Failures(c, n, acts)
    decreases |acts|
  {
    if acts != [] {
      var d := Step(c, acts[0]).value;
      StepKeeps(c, acts[0]);
      if d.shouldRun {
        FailureStep(c, acts[0]);
      }
      var after := match acts[0]
        case Auth(_, _, throws) => if throws && Login(acts[0]) then 1 else 0
        case SocketOpens(_) => 0
        case ReconnectFires(throws) => if throws then n + 1 else n
        case SocketCloses(k) => if c.sockets[k].attached then n + 1 else n
        case _ => n;
      assert d.shouldRun && acts[0].Auth? ==> Login(acts[0]);
      FailuresCounted(d, after, acts[1..]);
    }
  }

  /** The attempts the backoff doubles with are the failures since the socket was last open or the user logged in. */
  lemma {:induction false} AttemptsAreFailures(acts: seq<Action>)
    requires Run(acts).Some? && Run(acts).value.shouldRun
    ensures Run(acts).value.reconnectAttempts == Failures(INIT, 0, acts)
  {
    FailuresCounted(INIT, 0, acts);
  }

  // ---------- The status shown ----------

  predicate StatusInv(c: Client) {
    && (IsOpen(c) ==> c.status == StatusOpen)
    && (IsConnecting(c) || c.reconnectTimer ==> c.status == StatusConnecting)
  }

  lemma StatusKept(c: Client, act: Action)
    requires Inv(c) && StatusInv(c) && Step(c, act).Some?
    ensures StatusInv(Step(c, act).value)
  {
    assert Cleanup(c).wsRef.None?;
  }

  /** The status the application sees: open with an open socket, connecting with a new one or a pending reconnect. */
  lemma StatusShown(acts: seq<Action>)
    requires Run(acts).Some?
    ensures var c := Run(acts).value;
            && (IsOpen(c) ==> c.status == StatusOpen)
            && (IsConnecting(c) || c.reconnectTimer ==> c.status == StatusConnecting)
  {
    forall c, act | Inv(c) && StatusInv(c) && Step(c, act).Some?
      ensures Inv(Step(c, act).value) && StatusInv(Step(c, act).value)
    {
      StepKeeps(c, act);
      StatusKept(c, act);
    }
    RunKeeps(Step, c => Inv(c) && StatusInv(c), INIT, acts);
  }

  /** A heartbeat goes out on an open socket. */
  lemma HeartbeatGoesOut(acts: seq<Action>)
    requires Run(acts).Some? && IsOpen(Run(acts).value)
    ensures Step(Run(acts).value, PingFires).Some?
    ensures var k, c, d := Run(acts).value.wsRef.value, Run(acts).value, Step(Run(acts).value, PingFires).value;
            k < |d.sockets| && d.sockets[k].sent == c.sockets[k].sent + [Ping]
  {
    Reachable(acts);
  }

  // ---------- The order of the ids ----------

  lemma {:induction false} LeqTotal(a: string, b: string)
    ensures StringLeq(a, b) || StringLeq(b, a)
    ensures StringLeq(a, b) && StringLeq(b, a) ==> a == b
  {
    if a != [] && b != [] {
      LeqTotal(a[1..], b[1..]);
      assert a == [a[0]] + a[1..] && b == [b[0]] + b[1..];
    }
  }

  lemma {:induction false} LeqTransitive(a: string, b: string, c: string)
    requires StringLeq(a, b) && StringLeq(b, c)
    ensures StringLeq(a, c)
  {
    if a != [] && a[0] == b[0] == c[0] {
      LeqTransitive(a[1..], b[1..], c[1..]);
    }
  }

  predicate SortedIds(ids: seq<string>) {
    forall i, j | 0 <= i < j < |ids| :: StringLeq(ids[i], ids[j])
  }

  lemma {:induction false} InsertAdds(sorted: seq<string>, id: string)
    ensures multiset(InsertId(sorted, id)) == multiset(sorted) + multiset{id}
  {
    if sorted != [] {
      InsertAdds(sorted[1..], id);
      assert sorted == [sorted[0]] + sorted[1..];
    }
  }

  lemma {:induction false} InsertBetween(x: string, sorted: seq<string>, id: string)
    requires StringLeq(x, id) && forall i | 0 <= i < |sorted| :: StringLeq(x, sorted[i])
    ensures forall i | 0 <= i < |InsertId(sorted, id)| :: StringLeq(x, InsertId(sorted, id)[i])
  {
    if sorted != [] && !StringLeq(id, sorted[0]) {
      InsertBetween(x, sorted[1..], id);
    }
  }

  lemma {:induction false} BeforeAll(id: string, sorted: seq<string>)
    requires SortedIds(sorted) && sorted != [] && StringLeq(id, sorted[0])
    ensures forall i | 0 <= i < |sorted| :: StringLeq(id, sorted[i])
  {
    forall i | 0 <= i < |sorted| ensures StringLeq(id, sorted[i]) {
      if i > 0 {
        LeqTransitive(id, sorted[0], sorted[i]);
      }
    }
  }

  lemma {:induction false} Prepended(x: string, rest: seq<string>)
    requires SortedIds(rest) && forall i | 0 <= i < |rest| :: StringLeq(x, rest[i])
    ensures SortedIds([x] + rest)
  {
  }

  lemma {:induction false} InsertSorts(sorted: seq<string>, id: string)
    requires SortedIds(sorted)
    ensures SortedIds(InsertId(sorted, id))
  {
    if sorted != [] {
      var x, rest := sorted[0], sorted[1..];
      LeqTotal(id, x);
      if StringLeq(id, x) {
        BeforeAll(id, sorted);
        Prepended(id, sorted);
      } else {
        InsertSorts(rest, id);
        InsertBetween(x, rest, id);
        Prepended(x, InsertId(rest, id));
      }
    }
  }

  /** Sorting keeps every id as often as it was registered, in ascending order. */
  lemma {:induction false} SortSorts(ids: seq<string>)
    ensures SortedIds(SortIds(ids)) && multiset(SortIds(ids)) == multiset(ids)
  {
    if ids != [] {
      var before, id := ids[..|ids| - 1], ids[|ids| - 1];
      SortSorts(before);
      InsertSorts(SortIds(before), id);
      InsertAdds(SortIds(before), id);
      assert ids == before + [id];
    }
  }

  lemma {:induction false} HeadIsLeast(a: seq<string>, x: string)
    requires SortedIds(a) && x in a
    ensures StringLeq(a[0], x)
  {
    var i :| 0 <= i < |a| && a[i] == x;
    LeqTotal(x, x);
  }

  lemma Headed(a: seq<string>)
    requires a != []
    ensures multiset(a[1..]) == multiset(a) - multiset{a[0]}
  {
    assert a == [a[0]] + a[1..];
  }

  lemma SameHead(a: seq<string>, b: seq<string>)
    requires SortedIds(a) && SortedIds(b) && a != [] && b != [] && a[0] in b && b[0] in a
    ensures a[0] == b[0]
  {
    HeadIsLeast(a, b[0]);
    HeadIsLeast(b, a[0]);
    LeqTotal(a[0], b[0]);
  }

  lemma SameLength(a: seq<string>, b: seq<string>)
    requires multiset(a) == multiset(b)
    ensures |a| == |b| && (a != [] ==> a[0] in b && b[0] in a)
  {
    assert |multiset(a)| == |a| && |multiset(b)| == |b|;
    if a != [] {
      assert a[0] in multiset(b) && b[0] in multiset(a);
    }
  }

  lemma SortedUnique(a: seq<string>, b: seq<string>)
    requires SortedIds(a) && SortedIds(b) && multiset(a) == multiset(b)
    ensures a == b
    decreases |a|
  {
    SameLength(a, b);
    if a != [] {
      SameHead(a, b);
      Headed(a);
      Headed(b);
      SortedUnique(a[1..], b[1..]);
      assert a == [a[0]] + a[1..] && b == [b[0]] + b[1..];
    }
  }

  /** Registering the same ids in another order changes nothing and sends nothing; other ids always count as a change. */
  lemma {:induction false} RegisterAgainIff(c: Client, ids: seq<string>, again: seq<string>)
    requires c.cameraIds == SortIds(ids)
    ensures multiset(again) == multiset(ids) ==> Step(c, Register(again)) == Some(c)
    ensures multiset(again) != multiset(ids) ==>
              Step(c, Register(again)) == Some(SendSubscribe(c.(cameraIds := SortIds(again))))
  {
    SortSorts(ids);
    SortSorts(again);
    if multiset(again) == multiset(ids) {
      SortedUnique(SortIds(again), SortIds(ids));
    }
  }
}
