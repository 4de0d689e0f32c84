/**
 * One camera instance: start, stop, the two supervised pipelines and the statistics goroutine of
 * worker/internal/camera/camera.go, interleaved at their lock regions, cancellation, operation starts and
 * returns, publications and WaitGroup operations.
 */
module CameraLifecycle {
  import opened Common
  import Retry

  datatype CameraState = Stopped | Connecting | Live | Error

  type Failure = Retry.Error

  const CONTEXT_CANCELLED: Failure := "context canceled"
  const PIPELINE_PANIC: Failure := "camera: pipeline panic"

  // ---------- runWebRTC ----------

  /** How the transcoder ended (worker/internal/webrtc/stream.go). */
  datatype StreamExit = SetupFailed(e: Failure) | Finished(write: Option<Failure>, wait: Option<Failure>)

  /** The result of stream.Run; write is None when the pump ended at end of file. */
  function StreamResult(ctxDone: bool, exit: StreamExit): Option<Failure> {
    match exit
    case SetupFailed(e) => Some(e)
    case Finished(write, wait) =>
      if ctxDone then Some(CONTEXT_CANCELLED)
      else if write.Some? then Some("webrtc: pump nals: " + write.value)
      else if wait.Some? then Some("webrtc: ffmpeg exited: " + wait.value)
      else Some("webrtc: ffmpeg stream ended")
  }

  // ---------- Threads ----------

  datatype Pipeline = WebRTC | Detection

  /** Where a pipeline's operation is. Detection runs in one piece here; its inside is module Ingestion. */
  datatype OpStage = NewStream | SetLive | PublishLive | RunStream | RunDetection

  /** A supervisor goroutine inside retry.Do, and after it returned. */
  datatype Supervisor =
    | NotStarted
    | LoopHead(attempt: nat)
    | InOp(attempt: nat, stage: OpStage)
    | Waiting(attempt: nat)
    | DoReturned(err: Option<Failure>)
    | SetError
    | PublishError
    | Exiting
    | Exited

  datatype Starter = NotCalled | PublishConnecting | SpawnWebRTC | SpawnDetection | SpawnStats | StartReturned

  datatype Statistics = StatsNotStarted | StatsRunning | StatsExited

  datatype Stopper = StopNotCalled | StopCancelled | StopWaited | StopDedupReset | StopForced | StopReturned

  /**
   * initiated lists the publications begun, in order; posted those whose first POST really started, that is,
   * whose context was not already cancelled at the head of the retry loop.
   */
  datatype State = State(
    ctxDone: bool, cam: CameraState, wg: nat,
    starter: Starter, web: Supervisor, det: Supervisor, stats: Statistics, stopper: Stopper,
    initiated: seq<CameraState>, posted: seq<CameraState>)

  const INIT: State := State(
    false, Stopped, 0, NotCalled, NotStarted, NotStarted, StatsNotStarted, StopNotCalled, [], [])

  datatype Action =
    | RootCancel
    | StartStep
    | StopStep
    | StatsExit
    | Head(p: Pipeline)
    | StreamCreated(ok: bool)
    | LiveRegion
    | LivePublished
    | StreamEnds(exit: StreamExit)
    | DetectionEnds(err: Failure)
    | Panic(p: Pipeline)
    | Wake(p: Pipeline, byCancel: bool)
    | Supervise(p: Pipeline)

  function Get(s: State, p: Pipeline): Supervisor {
    match p case WebRTC => s.web case Detection => s.det
  }

  function Put(s: State, p: Pipeline, v: Supervisor): State {
    match p case WebRTC => s.(web := v) case Detection => s.(det := v)
  }

  /** A publication under the camera's own context. */
  function Publish(s: State, st: CameraState): State {
    s.(initiated := s.initiated + [st], posted := s.posted + if s.ctxDone then [] else [st])
  }

  /** retry.Do after the operation of this attempt returned. */
  function AfterOp(attempt: nat, result: Option<Failure>): Supervisor {
    match Retry.Decide(Retry.DefaultConfig().maxAttempts, attempt, result)
    case ReturnNil => DoReturned(None)
    case GiveUp => DoReturned(result)
    case Backoff => Waiting(attempt)
  }

  function FirstStage(p: Pipeline): OpStage {
    match p case WebRTC => NewStream case Detection => RunDetection
  }

  function StartStepFrom(s: State): Option<State> {
    match s.starter
    case NotCalled =>
      if s.cam == Connecting then Some(s.(starter := SpawnWebRTC))
      else Some(s.(cam := Connecting, starter := PublishConnecting))
    case PublishConnecting => Some(Publish(s, Connecting).(starter := SpawnWebRTC))
    case SpawnWebRTC => Some(s.(wg := s.wg + 1, web := LoopHead(1), starter := SpawnDetection))
    case SpawnDetection => Some(s.(wg := s.wg + 1, det := LoopHead(1), starter := SpawnStats))
    case SpawnStats => Some(s.(wg := s.wg + 1, stats := StatsRunning, starter := StartReturned))
    case StartReturned => None
  }

  /** stop(): cancel, wg.Wait, reset of the dedup gate, forced state, publication under a fresh context. */
  function StopStepFrom(s: State): Option<State> {
    match s.stopper
    case StopNotCalled => Some(s.(ctxDone := true, stopper := StopCancelled))
    case StopCancelled => if s.wg == 0 then Some(s.(stopper := StopWaited)) else None
    case StopWaited => Some(s.(stopper := StopDedupReset))
    case StopDedupReset => Some(s.(cam := Stopped, stopper := StopForced))
    case StopForced =>
      Some(s.(initiated := s.initiated + [Stopped], posted := s.posted + [Stopped], stopper := StopReturned))
    case StopReturned => None
  }

  /** What supervise does once retry.Do has returned. */
  function SuperviseFrom(s: State, p: Pipeline): Option<State> {
    match Get(s, p)
    case DoReturned(err) =>
      if s.ctxDone then Some(Put(s, p, Exiting))
      else if err.Some? then Some(Put(s, p, SetError))
      else Some(Put(s, p, Exiting))
    case SetError =>
      if s.cam == Error then Some(Put(s, p, Exiting)) else Some(Put(s, p, PublishError).(cam := Error))
    case PublishError => Some(Put(Publish(s, Error), p, Exiting))
    case Exiting => if s.wg > 0 then Some(Put(s, p, Exited).(wg := s.wg - 1)) else None
    case _ => None
  }

  function Step(s: State, act: Action): Option<State> {
    match act
    case RootCancel => Some(s.(ctxDone := true))
    case StartStep => StartStepFrom(s)
    case StopStep => StopStepFrom(s)
    case StatsExit =>
      if s.stats.StatsRunning? && s.ctxDone && s.wg > 0
      then Some(s.(stats := StatsExited, wg := s.wg - 1)) else None
    case Head(p) =>
      if Get(s, p).LoopHead? then
        Some(Put(s, p, if s.ctxDone then DoReturned(Some(CONTEXT_CANCELLED))
                       else InOp(Get(s, p).attempt, FirstStage(p))))
      else None
    case StreamCreated(ok) =>
      if s.web.InOp? && s.web.stage == NewStream then
        Some(s.(web := if ok then InOp(s.web.attempt, SetLive)
                       else AfterOp(s.web.attempt, Some("webrtc: create track"))))
      else None
    case LiveRegion =>
      if s.web.InOp? && s.web.stage == SetLive then
        Some(if s.cam == Live then s.(web := InOp(s.web.attempt, RunStream))
             else s.(cam := Live, web := InOp(s.web.attempt, PublishLive)))
      else None
    case LivePublished =>
      if s.web.InOp? && s.web.stage == PublishLive
      then Some(Publish(s, Live).(web := InOp(s.web.attempt, RunStream))) else None
    case StreamEnds(exit) =>
      if s.web.InOp? && s.web.stage == RunStream
      then Some(s.(web := AfterOp(s.web.attempt, StreamResult(s.ctxDone, exit)))) else None
    case DetectionEnds(err) =>
      // runDetection never returns nil: module Ingestion, ExactlyOneHandshake.
      if s.det.InOp? then Some(s.(det := AfterOp(s.det.attempt, Some(err)))) else None
    case Panic(p) =>
      if Get(s, p).InOp? then Some(Put(s, p, AfterOp(Get(s, p).attempt, Some(PIPELINE_PANIC)))) else None
    case Wake(p, byCancel) =>
      if Get(s, p).Waiting? && (byCancel ==> s.ctxDone) then
        Some(Put(s, p, if byCancel then DoReturned(Some(CONTEXT_CANCELLED)) else LoopHead(Get(s, p).attempt + 1)))
      else None
    case Supervise(p) => SuperviseFrom(s, p)
  }

  function Run(acts: seq<Action>): Option<State> {
    RunFrom(Step, INIT, acts)
  }

  // ---------- What every interleaving keeps ----------

  predicate Counted(v: Supervisor) { !v.NotStarted? && !v.Exited? }

  function One(b: bool): nat { if b then 1 else 0 }

  /** stop() is past its wait. */
  predicate Past(s: State) { !s.stopper.StopNotCalled? && !s.stopper.StopCancelled? }

  /** The error branch of a supervisor is not taken; Do returns only the context's error. */
  predicate SupervisorInv(s: State, v: Supervisor) {
    && !v.SetError? && !v.PublishError?
    && (v.DoReturned? ==> s.ctxDone && v.err.Some?)
    && (v.Exiting? || v.Exited? ==> s.ctxDone)
    && (Past(s) ==> !v.InOp? && !v.Waiting?)
  }

  predicate ThreadsInv(s: State) {
    && SupervisorInv(s, s.web) && SupervisorInv(s, s.det)
    && s.wg == One(Counted(s.web)) + One(Counted(s.det)) + One(s.stats.StatsRunning?)
    && (s.starter.NotCalled? || s.starter.PublishConnecting? || s.starter.SpawnWebRTC? <==> s.web.NotStarted?)
    && (s.starter.SpawnStats? || s.starter.StartReturned? <==> !s.det.NotStarted?)
    && (s.starter.StartReturned? <==> !s.stats.StatsNotStarted?)
    && (s.stats.StatsExited? ==> s.ctxDone)
    && (!s.stopper.StopNotCalled? ==> s.ctxDone)
  }

  /** The camera went live in an operation that has not published it yet. */
  predicate LivePending(s: State) { s.web.InOp? && s.web.stage == PublishLive }

  const LIFE: seq<CameraState> := [Connecting, Live, Stopped]

  function Rank(st: CameraState): nat {
    match st case Connecting => 0 case Live => 1 case Stopped => 2 case Error => 3
  }

  /** States of LIFE in its order, none twice. */
  predicate InOrder(posts: seq<CameraState>) {
    && (forall i, j | 0 <= i < j < |posts| :: Rank(posts[i]) < Rank(posts[j]))
    && (forall i | 0 <= i < |posts| :: posts[i] != Error)
  }

  const LATE: seq<CameraState> := [Stopped, Connecting]

  /** Both logs are in order, except that connecting may be begun late when stop() overtook start(). */
  predicate LogsInv(initiated: seq<CameraState>, posted: seq<CameraState>) {
    && (InOrder(initiated) || initiated == LATE)
    && InOrder(posted)
    && (Connecting in posted ==> Connecting in initiated)
    && (Live in posted ==> Live in initiated)
    && (Stopped in posted <==> Stopped in initiated)
  }

  /** How far the publications can have come, and the state that goes with them. */
  predicate PostsInv(s: State) {
    && (Stopped in s.initiated <==> s.stopper.StopReturned?)
    && (Connecting in s.initiated ==> !s.starter.NotCalled? && !s.starter.PublishConnecting?)
    && (Live in s.initiated ==> !s.web.NotStarted?)
    && (Live in s.initiated || LivePending(s) ==> s.cam == Live || s.stopper.StopForced? || s.stopper.StopReturned?)
    && !(LivePending(s) && Live in s.initiated)
    && s.cam != Error
  }

  predicate Inv(s: State) { ThreadsInv(s) && PostsInv(s) && LogsInv(s.initiated, s.posted) }

  lemma Appended(posts: seq<CameraState>, st: CameraState)
    ensures forall x :: x in posts + [st] <==> x in posts || x == st
  {
  }

  lemma ConnectingExtends(posts: seq<CameraState>)
    requires InOrder(posts) && Connecting !in posts && Live !in posts
    ensures posts + [Connecting] == if Stopped in posts then LATE else [Connecting]
  {
    OnlyStopped(posts);
  }

  lemma LateHas(initiated: seq<CameraState>)
    requires initiated == LATE
    ensures Connecting in initiated && Stopped in initiated
  {
  }

  lemma ConnectingLogged(initiated: seq<CameraState>, posted: seq<CameraState>, really: bool)
    requires LogsInv(initiated, posted) && Connecting !in initiated && Live !in initiated
    requires really ==> Stopped !in initiated
    ensures LogsInv(initiated + [Connecting], if really then posted + [Connecting] else posted)
  {
    if initiated == LATE {
      LateHas(initiated);
    }
    ConnectingExtends(initiated);
    ConnectingExtends(posted);
    Appended(initiated, Connecting);
    Appended(posted, Connecting);
  }

  lemma OnlyStopped(posts: seq<CameraState>)
    requires InOrder(posts) && Connecting !in posts && Live !in posts
    ensures posts == if Stopped in posts then [Stopped] else []
  {
    if |posts| >= 2 {
      FirstTwoDiffer(posts);
    } else if |posts| == 1 {
      assert posts == [posts[0]];
    }
    assert forall i | 0 <= i < |posts| :: posts[i] in posts && posts[i] == Stopped;
  }

  lemma FirstTwoDiffer(posts: seq<CameraState>)
    requires InOrder(posts) && |posts| >= 2
    ensures posts[0] in posts && posts[1] in posts && posts[0] != posts[1]
  {
  }

  predicate KeepsLogs(s: State, t: State) { t.initiated == s.initiated && t.posted == s.posted }

  lemma ConnectingKeeps(s: State)
    requires Inv(s) && s.starter.PublishConnecting?
    ensures Inv(StartStepFrom(s).value)
  {
    ConnectingLogged(s.initiated, s.posted, !s.ctxDone);
    Appended(s.initiated, Connecting);
    assert s.posted + [] == s.posted;
  }

  lemma SpawnKeeps(s: State)
    requires ThreadsInv(s) && PostsInv(s) && StartStepFrom(s).Some? && !s.starter.PublishConnecting?
    ensures ThreadsInv(StartStepFrom(s).value) && PostsInv(StartStepFrom(s).value)
    ensures KeepsLogs(s, StartStepFrom(s).value)
  {
  }

  lemma StartKeeps(s: State)
    requires Inv(s) && StartStepFrom(s).Some?
    ensures Inv(StartStepFrom(s).value)
  {
    if s.starter.PublishConnecting? {
      ConnectingKeeps(s);
    } else {
      SpawnKeeps(s);
    }
  }

  lemma StoppedKeeps(s: State)
    requires Inv(s) && s.stopper.StopForced?
    ensures Inv(StopStepFrom(s).value)
  {
  }

  lemma StoppingKeeps(s: State)
    requires ThreadsInv(s) && PostsInv(s) && StopStepFrom(s).Some? && !s.stopper.StopForced?
    ensures ThreadsInv(StopStepFrom(s).value) && PostsInv(StopStepFrom(s).value)
    ensures KeepsLogs(s, StopStepFrom(s).value)
  {
  }

  lemma StopKeeps(s: State)
    requires Inv(s) && StopStepFrom(s).Some?
    ensures Inv(StopStepFrom(s).value)
  {
    if s.stopper.StopForced? {
      StoppedKeeps(s);
    } else {
      StoppingKeeps(s);
    }
  }

  lemma LivePublishedKeeps(s: State)
    requires Inv(s) && Step(s, LivePublished).Some?
    ensures Inv(Step(s, LivePublished).value)
  {
  }

  /** A counted supervisor moves on to another state that fits. */
  lemma PutKeeps(s: State, p: Pipeline, v: Supervisor)
    requires ThreadsInv(s) && PostsInv(s) && Counted(Get(s, p))
    requires Counted(v) && SupervisorInv(s, v) && !(v.InOp? && v.stage == PublishLive)
    ensures ThreadsInv(Put(s, p, v)) && PostsInv(Put(s, p, v)) && KeepsLogs(s, Put(s, p, v))
  {
  }

  lemma LiveRegionKeeps(s: State)
    requires ThreadsInv(s) && PostsInv(s) && Step(s, LiveRegion).Some?
    ensures ThreadsInv(Step(s, LiveRegion).value) && PostsInv(Step(s, LiveRegion).value)
    ensures KeepsLogs(s, Step(s, LiveRegion).value)
  {
  }

  lemma OperationKeeps(s: State, act: Action)
    requires act.StreamCreated? || act.LiveRegion? || act.StreamEnds? || act.DetectionEnds?
    requires ThreadsInv(s) && PostsInv(s) && Step(s, act).Some?
    ensures ThreadsInv(Step(s, act).value) && PostsInv(Step(s, act).value) && KeepsLogs(s, Step(s, act).value)
  {
    match act
    case LiveRegion => LiveRegionKeeps(s);
    case DetectionEnds(_) => PutKeeps(s, Detection, Step(s, act).value.det);
    case StreamCreated(_) => PutKeeps(s, WebRTC, Step(s, act).value.web);
    case StreamEnds(_) => PutKeeps(s, WebRTC, Step(s, act).value.web);
  }

  lemma HeadKeeps(s: State, p: Pipeline)
    requires ThreadsInv(s) && PostsInv(s) && Step(s, Head(p)).Some?
    ensures ThreadsInv(Step(s, Head(p)).value) && PostsInv(Step(s, Head(p)).value)
    ensures KeepsLogs(s, Step(s, Head(p)).value)
  {
    PutKeeps(s, p, if s.ctxDone then DoReturned(Some(CONTEXT_CANCELLED)) else InOp(Get(s, p).attempt, FirstStage(p)));
  }

  lemma PanicKeeps(s: State, p: Pipeline)
    requires ThreadsInv(s) && PostsInv(s) && Step(s, Panic(p)).Some?
    ensures ThreadsInv(Step(s, Panic(p)).value) && PostsInv(Step(s, Panic(p)).value)
    ensures KeepsLogs(s, Step(s, Panic(p)).value)
  {
    PutKeeps(s, p, AfterOp(Get(s, p).attempt, Some(PIPELINE_PANIC)));
  }

  lemma WakeKeeps(s: State, p: Pipeline, byCancel: bool)
    requires ThreadsInv(s) && PostsInv(s) && Step(s, Wake(p, byCancel)).Some?
    ensures ThreadsInv(Step(s, Wake(p, byCancel)).value) && PostsInv(Step(s, Wake(p, byCancel)).value)
    ensures KeepsLogs(s, Step(s, Wake(p, byCancel)).value)
  {
    PutKeeps(s, p, if byCancel then DoReturned(Some(CONTEXT_CANCELLED)) else LoopHead(Get(s, p).attempt + 1));
  }

  lemma ExitKeeps(s: State, p: Pipeline)
    requires ThreadsInv(s) && PostsInv(s) && Get(s, p).Exiting? && s.wg > 0
    ensures var t := Put(s, p, Exited).(wg := s.wg - 1); ThreadsInv(t) && PostsInv(t) && KeepsLogs(s, t)
  {
  }

  lemma SuperviseKeeps(s: State, p: Pipeline)
    requires ThreadsInv(s) && PostsInv(s) && SuperviseFrom(s, p).Some?
    ensures SuperviseFrom(s, p).value.cam == s.cam
    ensures ThreadsInv(SuperviseFrom(s, p).value) && PostsInv(SuperviseFrom(s, p).value)
    ensures KeepsLogs(s, SuperviseFrom(s, p).value)
  {
    if Get(s, p).Exiting? {
      ExitKeeps(s, p);
    } else {
      assert Get(s, p).DoReturned? && s.ctxDone;
      PutKeeps(s, p, Exiting);
    }
  }

  lemma StepKeeps(s: State, act: Action)
    requires Inv(s) && Step(s, act).Some?
    ensures Inv(Step(s, act).value)
  {
    match act
    case StartStep => StartKeeps(s);
    case StopStep => StopKeeps(s);
    case LivePublished => LivePublishedKeeps(s);
    case Supervise(p) => SuperviseKeeps(s, p);
    case Head(p) => HeadKeeps(s, p);
    case Wake(p, byCancel) => WakeKeeps(s, p, byCancel);
    case Panic(p) => PanicKeeps(s, p);
    case RootCancel =>
    case StatsExit =>
    case _ => OperationKeeps(s, act);
  }

  lemma Reachable(acts: seq<Action>)
    requires Run(acts).Some?
    ensures Inv(Run(acts).value)
  {
    forall s, act | Inv(s) && Step(s, act).Some? ensures Inv(Step(s, act).value) {
      StepKeeps(s, act);
    }
    RunKeeps(Step, Inv, INIT, acts);
  }

  // ---------- Theorems over whole runs ----------

  /**
   * Supervision never gives up. In every interleaving the camera is never in the error state, no error is
   * ever published, and as long as nobody cancelled, every started pipeline is running, restarting or
   * waiting for its next attempt, and the statistics keep running.
   */
  lemma SupervisionNeverGivesUp(acts: seq<Action>, p: Pipeline)
    requires Run(acts).Some?
    ensures var s := Run(acts).value;
            && s.cam != Error && Error !in s.initiated
            && (!s.ctxDone && !Get(s, p).NotStarted? ==> Get(s, p).LoopHead? || Get(s, p).InOp? || Get(s, p).Waiting?)
            && (!s.ctxDone && s.starter.StartReturned? ==> s.stats.StatsRunning?)
  {
    Reachable(acts);
  }

  /**
   * In every interleaving, even when stop() overlaps start(), the states whose POST really starts form a
   * subsequence of connecting, live, stopped; none of them twice, whatever the number of restarts.
   */
  lemma PostsFollowLife(acts: seq<Action>)
    requires Run(acts).Some?
    ensures IsSubsequence(Run(acts).value.posted, LIFE)
    ensures forall i, j | 0 <= i < j < |Run(acts).value.initiated| ::
              Run(acts).value.initiated[i] != Run(acts).value.initiated[j]
  {
    Reachable(acts);
    InOrderIsSubsequence(Run(acts).value.posted);
  }

  lemma {:induction false} InOrderIsSubsequence(posts: seq<CameraState>)
    requires InOrder(posts)
    ensures IsSubsequence(posts, LIFE)
  {
    FromRank(posts, 0);
    assert LIFE[0..] == LIFE;
  }

  lemma {:induction false} FromRank(posts: seq<CameraState>, r: nat)
    requires InOrder(posts) && r <= 3 && (posts != [] ==> r <= Rank(posts[0]))
    ensures IsSubsequence(posts, LIFE[r..])
    decreases 3 - r
  {
    if posts != [] {
      assert LIFE[r..][0] == LIFE[r] && LIFE[r..][1..] == LIFE[r + 1..];
      FromRank(if Rank(posts[0]) == r then posts[1..] else posts, r + 1);
    }
  }

  /** Some step publishes connecting after stop() has returned: stop() overtook start(). */
  predicate Overtaken(s: State, acts: seq<Action>)
    decreases |acts|
  {
    acts != [] && Step(s, acts[0]).Some?
    && ((acts[0].StartStep? && s.starter.PublishConnecting? && s.stopper.StopReturned?)
        || Overtaken(Step(s, acts[0]).value, acts[1..]))
  }

  lemma StepKeepsLogs(s: State, act: Action)
    requires ThreadsInv(s) && Step(s, act).Some?
    requires !act.StartStep? && !act.StopStep? && !act.LivePublished?
    ensures KeepsLogs(s, Step(s, act).value)
  {
  }

  lemma LateStep(s: State, act: Action)
    requires Inv(s) && Step(s, act).Some?
    ensures Step(s, act).value.initiated == LATE
            <==> s.initiated == LATE || (act.StartStep? && s.starter.PublishConnecting? && s.stopper.StopReturned?)
  {
    assert LATE[0] == Stopped && LATE[1] == Connecting;
    if act.StartStep? && s.starter.PublishConnecting? {
      assert s.initiated != LATE;
      OnlyStopped(s.initiated);
    } else if act.LivePublished? {
      assert s.initiated != LATE;
    } else if act.StopStep? {
      assert s.stopper.StopForced? ==> Step(s, act).value.initiated[|s.initiated|] == Stopped;
    } else if !act.StartStep? {
      StepKeepsLogs(s, act);
    }
  }

  lemma {:induction false} LateIffOvertaken(s: State, acts: seq<Action>)
    requires Inv(s) && RunFrom(Step, s, acts).Some?
    ensures RunFrom(Step, s, acts).value.initiated == LATE <==> s.initiated == LATE || Overtaken(s, acts)
    decreases |acts|
  {
    if acts != [] {
      LateStep(s, acts[0]);
      StepKeeps(s, acts[0]);
      LateIffOvertaken(Step(s, acts[0]).value, acts[1..]);
    }
  }

  /**
   * The publications an instance begins follow connecting, live, stopped exactly when start() published
   * connecting before stop() returned.
   */
  lemma {:induction false} InitiatedFollowLifeIff(acts: seq<Action>)
    requires Run(acts).Some?
    ensures IsSubsequence(Run(acts).value.initiated, LIFE) <==> !Overtaken(INIT, acts)
  {
    Reachable(acts);
    LateIffOvertaken(INIT, acts);
    if Overtaken(INIT, acts) {
      assert LIFE[1..] == [Live, Stopped] && [Live, Stopped][1..] == [Stopped] && [Stopped][1..] == [];
      assert LATE[1..] == [Connecting];
      assert !IsSubsequence([Connecting], []);
    } else {
      InOrderIsSubsequence(Run(acts).value.initiated);
    }
  }

  /**
   * Once stop() is past its wait no pipeline runs or begins an operation, sets the state or publishes:
   * only start() and stop() themselves still can.
   */
  lemma NothingAfterStop(acts: seq<Action>, act: Action)
    requires Run(acts).Some? && Past(Run(acts).value)
    requires !act.StartStep? && !act.StopStep? && Step(Run(acts).value, act).Some?
    ensures var s, t := Run(acts).value, Step(Run(acts).value, act).value;
            && t.cam == s.cam && t.initiated == s.initiated && t.posted == s.posted
            && !s.web.InOp? && !s.det.InOp? && !t.web.InOp? && !t.det.InOp?
  {
    Reachable(acts);
    PastStep(Run(acts).value, act);
  }

  lemma PastStep(s: State, act: Action)
    requires ThreadsInv(s) && Past(s)
    requires !act.StartStep? && !act.StopStep? && Step(s, act).Some?
    ensures var t := Step(s, act).value;
            && t.cam == s.cam && t.initiated == s.initiated && t.posted == s.posted
            && !s.web.InOp? && !s.det.InOp? && !t.web.InOp? && !t.det.InOp?
  {
  }

  // ---------- stop() completes ----------

  /** How many steps a cancelled supervisor can still take. */
  function Work(v: Supervisor): nat {
    match v
    case NotStarted => 0
    case Exited => 0
    case Exiting => 1
    case PublishError => 2
    case SetError => 3
    case DoReturned(_) => 4
    case LoopHead(_) => 5
    case Waiting(_) => 6
    case InOp(_, stage) => match stage case NewStream => 10 case SetLive => 9 case PublishLive => 8 case _ => 7
  }

  function StopWork(stopper: Stopper): nat {
    match stopper
    case StopNotCalled => 5
    case StopCancelled => 4
    case StopWaited => 3
    case StopDedupReset => 2
    case StopForced => 1
    case StopReturned => 0
  }

  function Remaining(s: State): nat {
    Work(s.web) + Work(s.det) + One(s.stats.StatsRunning?) + StopWork(s.stopper)
  }

  /** start() has returned and the context is cancelled. */
  predicate Ending(s: State) { ThreadsInv(s) && s.ctxDone && s.starter.StartReturned? }

  /** A step that leaves cancellation and start() alone and takes work away. */
  predicate Works(s: State, t: State) {
    Remaining(t) < Remaining(s) && t.ctxDone && t.starter.StartReturned?
  }

  lemma EndingStop(s: State)
    requires Ending(s) && StopStepFrom(s).Some?
    ensures Works(s, StopStepFrom(s).value)
  {
  }

  lemma EndingSupervise(s: State, p: Pipeline)
    requires Ending(s) && SuperviseFrom(s, p).Some?
    ensures Works(s, SuperviseFrom(s, p).value)
  {
  }

  lemma EndingRetry(s: State, act: Action)
    requires Ending(s) && (act.Head? || act.Wake? || act.Panic?) && Step(s, act).Some?
    ensures Works(s, Step(s, act).value)
  {
  }

  lemma EndingStep(s: State, act: Action)
    requires Ending(s) && !act.RootCancel? && Step(s, act).Some?
    ensures Works(s, Step(s, act).value)
  {
    match act
    case StopStep => EndingStop(s);
    case Supervise(p) => EndingSupervise(s, p);
    case Head(_) => EndingRetry(s, act);
    case Wake(_, _) => EndingRetry(s, act);
    case Panic(_) => EndingRetry(s, act);
    case _ =>
  }

  /** The next step of a supervisor; where an operation is running, its end after the process was killed. */
  function NextOf(v: Supervisor, p: Pipeline): Action {
    match v
    case LoopHead(_) => Head(p)
    case Waiting(_) => Wake(p, true)
    case InOp(_, NewStream) => StreamCreated(true)
    case InOp(_, SetLive) => LiveRegion
    case InOp(_, PublishLive) => LivePublished
    case InOp(_, RunStream) => StreamEnds(Finished(None, None))
    case InOp(_, RunDetection) => DetectionEnds(CONTEXT_CANCELLED)
    case _ => Supervise(p)
  }

  /** Operations belong to their pipelines. */
  predicate OwnStages(s: State) {
    && (s.web.InOp? ==> s.web.stage != RunDetection)
    && (s.det.InOp? ==> s.det.stage == RunDetection)
  }

  lemma StagesKept(s: State, act: Action)
    requires OwnStages(s) && Step(s, act).Some?
    ensures OwnStages(Step(s, act).value)
  {
  }

  lemma StagesReachable(acts: seq<Action>)
    requires Run(acts).Some?
    ensures OwnStages(Run(acts).value)
  {
    forall s, act | OwnStages(s) && Step(s, act).Some? ensures OwnStages(Step(s, act).value) {
      StagesKept(s, act);
    }
    RunKeeps(Step, OwnStages, INIT, acts);
  }

  function NextStep(s: State): Action {
    if !s.web.Exited? then NextOf(s.web, WebRTC)
    else if !s.det.Exited? then NextOf(s.det, Detection)
    else if s.stats.StatsRunning? then StatsExit
    else StopStep
  }

  lemma NeverStuck(s: State)
    requires Ending(s) && OwnStages(s) && !s.stopper.StopReturned?
    ensures Step(s, NextStep(s)).Some? && !NextStep(s).RootCancel?
  {
  }

  lemma EndingCompletes(s: State) returns (rest: seq<Action>)
    requires Ending(s) && OwnStages(s) && Inv(s)
    ensures |rest| <= Remaining(s) && RootCancel !in rest
    ensures RunFrom(Step, s, rest).Some? && RunFrom(Step, s, rest).value.stopper.StopReturned?
    decreases Remaining(s)
  {
    if s.stopper.StopReturned? {
      return [];
    }
    var act := NextStep(s);
    NeverStuck(s);
    EndingStep(s, act);
    StepKeeps(s, act);
    StagesKept(s, act);
    rest := EndingCompletes(Step(s, act).value);
    FirstStep(Step, s, act, rest);
    rest := [act] + rest;
  }

  lemma {:induction false} EndingBounded(s: State, more: seq<Action>)
    requires Ending(s) && Inv(s) && RootCancel !in more && RunFrom(Step, s, more).Some?
    ensures |more| <= Remaining(s)
    decreases |more|
  {
    if more != [] {
      assert more[0] in more && forall a | a in more[1..] :: a in more;
      EndingStep(s, more[0]);
      StepKeeps(s, more[0]);
      EndingBounded(Step(s, more[0]).value, more[1..]);
    }
  }

  /** Cancelled after start(); once stop() has forced the state it is stopped, and posted last. */
  predicate Halting(s: State) {
    && Inv(s) && OwnStages(s) && s.ctxDone && s.starter.StartReturned?
    && (s.stopper.StopForced? || s.stopper.StopReturned? ==> s.cam == Stopped)
    && (s.stopper.StopReturned? ==> s.posted != [] && s.posted[|s.posted| - 1] == Stopped)
  }

  lemma StopHalts(s: State)
    requires Halting(s) && StopStepFrom(s).Some?
    ensures var t := StopStepFrom(s).value;
            && (t.stopper.StopForced? || t.stopper.StopReturned? ==> t.cam == Stopped)
            && (t.stopper.StopReturned? ==> t.posted != [] && t.posted[|t.posted| - 1] == Stopped)
  {
  }

  lemma HaltingKept(s: State, act: Action)
    requires Halting(s) && Step(s, act).Some?
    ensures Halting(Step(s, act).value)
  {
    StepKeeps(s, act);
    StagesKept(s, act);
    StaysCancelled(s, act);
    if act.StopStep? {
      StopHalts(s);
    } else if Past(s) {
      PastStep(s, act);
    }
  }

  lemma StaysCancelled(s: State, act: Action)
    requires Step(s, act).Some?
    ensures s.ctxDone ==> Step(s, act).value.ctxDone
    ensures s.starter.StartReturned? ==> Step(s, act).value.starter.StartReturned?
    ensures !act.StopStep? ==> Step(s, act).value.stopper == s.stopper
  {
  }

  /**
   * stop() cannot wait for ever. Once start() has returned, the shutdown of the whole worker or the beginning of
   * stop() cancels the camera: no run takes more than twenty-three further steps, and from every state on the
   * way steps that are all enabled lead to the return of stop(), with the camera stopped and stopped posted last.
   */
  lemma StopCompletes(acts: seq<Action>, cancel: Action, more: seq<Action>) returns (rest: seq<Action>)
    requires Run(acts).Some? && Run(acts).value.starter.StartReturned? && Run(acts).value.stopper.StopNotCalled?
    requires cancel == RootCancel || cancel == StopStep
    requires Step(Run(acts).value, cancel).Some? ==>
               RootCancel !in more && RunFrom(Step, Step(Run(acts).value, cancel).value, more).Some?
    ensures Step(Run(acts).value, cancel).Some? && Step(Run(acts).value, cancel).value.ctxDone
    ensures |more| <= 23
    ensures var mid := RunFrom(Step, Step(Run(acts).value, cancel).value, more);
            var end := RunFrom(Step, mid.value, rest);
            && RootCancel !in rest && end.Some? && end.value.stopper.StopReturned?
            && end.value.cam == Stopped
            && end.value.posted != [] && end.value.posted[|end.value.posted| - 1] == Stopped
  {
    Reachable(acts);
    StagesReachable(acts);
    CancelHalts(Run(acts).value, cancel);
    var s := Step(Run(acts).value, cancel).value;
    EndingBounded(s, more);
    HaltingRun(s, more);
    rest := EndingCompletes(RunFrom(Step, s, more).value);
    HaltingRun(RunFrom(Step, s, more).value, rest);
  }

  lemma CancelHalts(s: State, cancel: Action)
    requires Inv(s) && OwnStages(s) && s.starter.StartReturned? && s.stopper.StopNotCalled?
    requires cancel == RootCancel || cancel == StopStep
    ensures Step(s, cancel).Some? && Halting(Step(s, cancel).value) && Remaining(Step(s, cancel).value) <= 23
  {
  }

  lemma {:induction false} HaltingRun(s: State, more: seq<Action>)
    requires Halting(s) && RunFrom(Step, s, more).Some?
    ensures Halting(RunFrom(Step, s, more).value)
  {
    forall t, act | Halting(t) && Step(t, act).Some? ensures Halting(Step(t, act).value) {
      HaltingKept(t, act);
    }
    RunKeeps(Step, Halting, s, more);
  }

  // ---------- Starting and restarting ----------

  predicate OnlyStarts(rest: seq<Action>) { forall a | a in rest :: a.StartStep? }

  function StartWork(starter: Starter): nat {
    match starter
    case NotCalled => 5
    case PublishConnecting => 4
    case SpawnWebRTC => 3
    case SpawnDetection => 2
    case SpawnStats => 1
    case StartReturned => 0
  }

  lemma StartGoesOnFrom(s: State) returns (rest: seq<Action>)
    ensures |rest| <= StartWork(s.starter) && OnlyStarts(rest)
    ensures RunFrom(Step, s, rest).Some? && RunFrom(Step, s, rest).value.starter.StartReturned?
    decreases StartWork(s.starter)
  {
    if s.starter.StartReturned? {
      return [];
    }
    assert Step(s, StartStep).Some? && StartWork(Step(s, StartStep).value.starter) < StartWork(s.starter);
    rest := StartGoesOnFrom(Step(s, StartStep).value);
    FirstStep(Step, s, StartStep, rest);
    rest := [StartStep] + rest;
  }

  predicate FreshUntilStart(s: State) { s.starter.NotCalled? ==> s.cam == Stopped }

  lemma FreshKept(s: State, act: Action)
    requires ThreadsInv(s) && FreshUntilStart(s) && Step(s, act).Some?
    ensures FreshUntilStart(Step(s, act).value)
  {
  }

  lemma FreshReachable(acts: seq<Action>)
    requires Run(acts).Some?
    ensures FreshUntilStart(Run(acts).value)
  {
    var fresh' := (t: State) => Inv(t) && FreshUntilStart(t);
    forall t, act | fresh'(t) && Step(t, act).Some? ensures fresh'(Step(t, act).value) {
      StepKeeps(t, act);
      FreshKept(t, act);
    }
    RunKeeps(Step, fresh', INIT, acts);
  }

  /**
   * start() completes: from every reachable state at most five steps, all its own and all enabled, return from
   * it with every goroutine started. Not cancelled, it makes the camera connecting and posts that first.
   */
  lemma StartCompletes(acts: seq<Action>) returns (rest: seq<Action>)
    requires Run(acts).Some?
    ensures |rest| <= 5 && OnlyStarts(rest)
    ensures var end := RunFrom(Step, Run(acts).value, rest);
            && end.Some? && end.value.starter.StartReturned?
            && !end.value.web.NotStarted? && !end.value.det.NotStarted? && !end.value.stats.StatsNotStarted?
    ensures var s := Run(acts).value;
            var t := RunFrom(Step, s, [StartStep, StartStep]);
            s.starter.NotCalled? && !s.ctxDone ==>
              t.Some? && t.value.cam == Connecting && t.value.posted == s.posted + [Connecting]
  {
    Reachable(acts);
    FreshReachable(acts);
    var s := Run(acts).value;
    rest := StartGoesOnFrom(s);
    RunConcat(Step, INIT, acts, rest);
    Reachable(acts + rest);
    if s.starter.NotCalled? && !s.ctxDone {
      TwoSteps(s, StartStep, StartStep);
    }
  }

  lemma {:induction false} TwoSteps(s: State, a: Action, b: Action)
    requires Step(s, a).Some?
    ensures RunFrom(Step, s, [a, b]) == Step(Step(s, a).value, b)
  {
    var t := Step(s, a).value;
    FirstStep(Step, s, a, [b]);
    assert [a, b] == [a] + [b];
    if Step(t, b).Some? {
      FirstStep(Step, t, b, []);
      assert [b] + [] == [b];
    }
  }

  lemma {:induction false} ThreeSteps(s: State, a: Action, b: Action, c: Action)
    requires Step(s, a).Some?
    ensures RunFrom(Step, s, [a, b, c]) == RunFrom(Step, Step(s, a).value, [b, c])
  {
  }

  /** Ways in which the operation of a pipeline ends in the stage it is in. */
  predicate Ends(s: State, p: Pipeline, act: Action) {
    && Get(s, p).InOp?
    && match p
       case WebRTC =>
         || (act == StreamCreated(false) && s.web.stage == NewStream)
         || (act.StreamEnds? && s.web.stage == RunStream)
         || act == Panic(WebRTC)
       case Detection => act.DetectionEnds? || act == Panic(Detection)
  }

  lemma FailureWaits(s: State, p: Pipeline, act: Action)
    requires !s.ctxDone && Ends(s, p, act)
    ensures Step(s, act) == Some(Put(s, p, Waiting(Get(s, p).attempt)))
  {
  }

  lemma WaitingRestarts(s: State, p: Pipeline, k: nat)
    requires !s.ctxDone
    ensures Step(Put(s, p, Waiting(k)), Wake(p, false)) == Some(Put(s, p, LoopHead(k + 1)))
    ensures Step(Put(s, p, LoopHead(k + 1)), Head(p)) == Some(Put(s, p, InOp(k + 1, FirstStage(p))))
  {
  }

  /**
   * A failed attempt restarts: however the operation of attempt k ends, the backoff timer alone brings the
   * pipeline into attempt k + 1, and nothing else about the camera changes.
   */
  lemma FailureRestarts(s: State, p: Pipeline, act: Action)
    requires !s.ctxDone && Ends(s, p, act)
    ensures var k := Get(s, p).attempt;
            && Step(s, act) == Some(Put(s, p, Waiting(k)))
            && Step(Put(s, p, Waiting(k)), Wake(p, false)) == Some(Put(s, p, LoopHead(k + 1)))
            && Step(Put(s, p, LoopHead(k + 1)), Head(p)) == Some(Put(s, p, InOp(k + 1, FirstStage(p))))
  {
  }

  function AttemptOf(v: Supervisor): nat {
    match v case LoopHead(a) => a case InOp(a, _) => a case Waiting(a) => a case _ => 0
  }

  lemma RestartRun(s: State, p: Pipeline, k: nat)
    requires !s.ctxDone
    ensures RunFrom(Step, Put(s, p, Waiting(k)), [Wake(p, false)] + ([Head(p)] + []))
            == Some(Put(s, p, InOp(k + 1, FirstStage(p))))
  {
    WaitingRestarts(s, p, k);
    FirstStep(Step, Put(s, p, LoopHead(k + 1)), Head(p), []);
    FirstStep(Step, Put(s, p, Waiting(k)), Wake(p, false), [Head(p)] + []);
  }

  lemma {:induction false} PanicRun(s: State, p: Pipeline)
    requires !s.ctxDone && Get(s, p).InOp?
    ensures RunFrom(Step, s, [Panic(p)] + ([Wake(p, false)] + ([Head(p)] + [])))
            == Some(Put(s, p, InOp(Get(s, p).attempt + 1, FirstStage(p))))
  {
    FailureWaits(s, p, Panic(p));
    RestartRun(s, p, Get(s, p).attempt);
    FirstStep(Step, s, Panic(p), [Wake(p, false)] + ([Head(p)] + []));
  }

  lemma PutTwice(s: State, p: Pipeline, v: Supervisor, w: Supervisor)
    ensures Get(Put(s, p, v), p) == v && Put(Put(s, p, v), p, w) == Put(s, p, w) && Put(s, p, Get(s, p)) == s
  {
  }

  /**
   * A pipeline is never stranded: from every reachable state that is not cancelled, at most four enabled steps,
   * none of them a cancellation, bring a started pipeline into its next attempt.
   */
  lemma NextAttemptBegins(acts: seq<Action>, p: Pipeline) returns (rest: seq<Action>)
    requires Run(acts).Some? && !Run(acts).value.ctxDone && !Get(Run(acts).value, p).NotStarted?
    ensures |rest| <= 4 && RootCancel !in rest && StopStep !in rest
    ensures var s := Run(acts).value;
            RunFrom(Step, s, rest) == Some(Put(s, p, InOp(AttemptOf(Get(s, p)) + 1, FirstStage(p))))
  {
    SupervisionNeverGivesUp(acts, p);
    rest := NextAttemptFrom(Run(acts).value, p);
  }

  lemma NextAttemptFrom(s: State, p: Pipeline) returns (rest: seq<Action>)
    requires !s.ctxDone && (Get(s, p).Waiting? || Get(s, p).InOp? || Get(s, p).LoopHead?)
    ensures |rest| <= 4 && RootCancel !in rest && StopStep !in rest
    ensures RunFrom(Step, s, rest) == Some(Put(s, p, InOp(AttemptOf(Get(s, p)) + 1, FirstStage(p))))
  {
    var v := Get(s, p);
    PutTwice(s, p, InOp(AttemptOf(v), FirstStage(p)), InOp(AttemptOf(v) + 1, FirstStage(p)));
    rest := [Wake(p, false)] + ([Head(p)] + []);
    if v.Waiting? {
      RestartRun(s, p, v.attempt);
    } else if v.InOp? {
      PanicRun(s, p);
      rest := [Panic(p)] + rest;
    } else {
      PanicRun(Put(s, p, InOp(v.attempt, FirstStage(p))), p);
      rest := [Panic(p)] + rest;
      FirstStep(Step, s, Head(p), rest);
      rest := [Head(p)] + rest;
    }
  }

  /** The steps by which the WebRTC pipeline goes live. */
  function ToLive(s: State): seq<Action> {
    [Head(WebRTC), StreamCreated(true), LiveRegion] + if s.cam == Live then [] else [LivePublished]
  }

  /**
   * An attempt of the WebRTC pipeline whose stream is created makes the camera live; the first one posts it, and
   * a later one finds the camera live already and posts nothing.
   */
  lemma AttemptGoesLive(s: State)
    requires !s.ctxDone && s.web.LoopHead?
    ensures RunFrom(Step, s, ToLive(s))
            == Some((if s.cam == Live then s else Publish(s, Live)).(
                      cam := Live, web := InOp(s.web.attempt, RunStream)))
  {
    var s1 := s.(web := InOp(s.web.attempt, NewStream));
    var s2 := s.(web := InOp(s.web.attempt, SetLive));
    var s3 := Step(s2, LiveRegion).value;
    ThreeSteps(s, Head(WebRTC), StreamCreated(true), LiveRegion);
    TwoSteps(s1, StreamCreated(true), LiveRegion);
    RunConcat(Step, s, [Head(WebRTC), StreamCreated(true), LiveRegion], if s.cam == Live then [] else [LivePublished]);
    if s.cam != Live {
      FirstStep(Step, s3, LivePublished, []);
      assert [LivePublished] + [] == [LivePublished];
    }
  }

  lemma {:induction false} FirstOvertaken(s: State, act: Action, rest: seq<Action>)
    requires Step(s, act).Some?
    ensures RunFrom(Step, s, [act] + rest) == RunFrom(Step, Step(s, act).value, rest)
    ensures Overtaken(s, [act] + rest) <==>
              (act.StartStep? && s.starter.PublishConnecting? && s.stopper.StopReturned?)
              || Overtaken(Step(s, act).value, rest)
  {
  }

  /** stop() has run completely before start(). */
  const STOPPED_FIRST: State :=
    INIT.(ctxDone := true, stopper := StopReturned, initiated := [Stopped], posted := [Stopped])

  lemma StopRuns(rest: seq<Action>) returns (acts: seq<Action>)
    ensures Run(acts) == RunFrom(Step, STOPPED_FIRST, rest)
    ensures Overtaken(INIT, acts) <==> Overtaken(STOPPED_FIRST, rest)
  {
    var s1 := INIT.(ctxDone := true, stopper := StopCancelled);
    var s2 := s1.(stopper := StopWaited);
    var s3 := s2.(stopper := StopDedupReset);
    var s4 := s3.(stopper := StopForced);
    assert s4.initiated + [Stopped] == STOPPED_FIRST.initiated && s4.posted + [Stopped] == STOPPED_FIRST.posted;
    assert Step(s4, StopStep) == Some(STOPPED_FIRST);
    FirstOvertaken(s4, StopStep, rest);
    acts := [StopStep] + rest;
    FirstOvertaken(s3, StopStep, acts);
    acts := [StopStep] + acts;
    FirstOvertaken(s2, StopStep, acts);
    acts := [StopStep] + acts;
    FirstOvertaken(s1, StopStep, acts);
    acts := [StopStep] + acts;
    FirstOvertaken(INIT, StopStep, acts);
    acts := [StopStep] + acts;
  }

  /**
   * The overtaking is possible: stop() runs completely before start(). The instance then stays in
   * connecting although it was stopped, but no POST says so.
   */
  lemma OvertakenRun() returns (acts: seq<Action>)
    ensures Run(acts).Some? && Overtaken(INIT, acts)
    ensures Run(acts).value.initiated == LATE && Run(acts).value.posted == [Stopped]
    ensures Run(acts).value.cam == Connecting && Run(acts).value.stopper == StopReturned
  {
    var s1 := Step(STOPPED_FIRST, StartStep).value;
    FirstOvertaken(s1, StartStep, []);
    FirstOvertaken(STOPPED_FIRST, StartStep, [StartStep] + []);
    acts := StopRuns([StartStep] + ([StartStep] + []));
  }
}
