/**
 * One detection pipeline and its ingestion goroutine: runDetection in worker/internal/camera/camera.go
 * against Run in worker/internal/rtsp/rtspClient.go, restarted by the supervisor. Every attempt has its own
 * detector, client, frame channel (one slot) and result channel (one slot).
 */
module Ingestion {
  import opened Common

  type Error = string

  const CONTEXT_CANCELLED: Error := "context canceled"
  const STREAM_ENDED: Error := "camera: stream ended"

  /** How the reading loop ended. */
  datatype ReadEnd = ReadEof | ReadFailed(e: Error)

  /** How FFmpeg ended: it could not be set up, or it was read to the end and waited for. */
  datatype ProcessExit = SetupFailed(e: Error) | Finished(read: ReadEnd, wait: Option<Error>)

  /** The result of client.Run. */
  function RunResult(ctxDone: bool, exit: ProcessExit): Option<Error> {
    match exit
    case SetupFailed(e) => Some(e)
    case Finished(read, wait) =>
      if ctxDone then Some(CONTEXT_CANCELLED)
      else if read.ReadFailed? then Some("rtsp: read frames: " + read.e)
      else if wait.Some? then Some("rtsp: ffmpeg exited: " + wait.value)
      else Some("rtsp: ffmpeg stream ended")
  }

  /** The goroutine: inside client.Run, after Run closed the frame channel and returned, after its send. */
  datatype Runner = Reading | Closed(result: Option<Error>) | Sent(result: Option<Error>)

  datatype Consumer =
    | Selecting
    | Handling
    | AwaitAfterCancel
    | AwaitAfterClose
    | Returned(err: Option<Error>)
    | Panicked

  datatype Attempt = Attempt(
    runner: Runner, frames: nat, runErrCh: seq<Option<Error>>, consumer: Consumer,
    detectorOpen: bool, sends: nat, receives: nat)

  datatype State = State(ctxDone: bool, attempts: seq<Attempt>)

  datatype Action =
    | Cancel
    | BeginAttempt
    | RunnerOffersFrame(i: nat)
    | RunnerEnds(i: nat, exit: ProcessExit)
    | RunnerSends(i: nat)
    | SeeCancel
    | SeeResult
    | SeeFrame
    | SeeClosed
    | FrameDone
    | FramePanics
    | ReceiveAfterCancel
    | ReceiveAfterClose

  const NEW_ATTEMPT: Attempt := Attempt(Reading, 0, [], Selecting, true, 0, 0)

  predicate Ended(a: Attempt) {
    a.consumer.Returned? || a.consumer.Panicked?
  }

  /** The deferred Close runs on every way out of runDetection. */
  function LeaveWith(a: Attempt, c: Consumer): Attempt {
    a.(consumer := c, detectorOpen := false)
  }

  function Receive(a: Attempt): Attempt
    requires a.runErrCh != []
  {
    a.(runErrCh := a.runErrCh[1..], receives := a.receives + 1)
  }

  function OrStreamEnded(r: Option<Error>): Option<Error> {
    if r.None? then Some(STREAM_ENDED) else r
  }

  /** One atomic step inside an attempt; None when the step is not enabled. */
  function AttemptStep(ctxDone: bool, a: Attempt, act: Action): Option<Attempt> {
    match act
    case RunnerOffersFrame(_) =>
      // A full slot drops the new frame.
      if a.runner.Reading? then Some(a.(frames := 1)) else None
    case RunnerEnds(_, exit) =>
      if a.runner.Reading? then Some(a.(runner := Closed(RunResult(ctxDone, exit)))) else None
    case RunnerSends(_) =>
      if a.runner.Closed? && |a.runErrCh| < 1
      then
        Some(a.(runner := Sent(a.runner.result), runErrCh := a.runErrCh + [a.runner.result], sends := a.sends + 1))
      else None
    case SeeCancel =>
      if a.consumer.Selecting? && ctxDone then Some(a.(consumer := AwaitAfterCancel)) else None
    case SeeResult =>
      if a.consumer.Selecting? && a.runErrCh != []
      then Some(LeaveWith(Receive(a), Returned(OrStreamEnded(a.runErrCh[0])))) else None
    case SeeFrame =>
      if a.consumer.Selecting? && a.frames > 0
      then Some(a.(consumer := Handling, frames := a.frames - 1)) else None
    case SeeClosed =>
      if a.consumer.Selecting? && a.frames == 0 && !a.runner.Reading?
      then Some(a.(consumer := AwaitAfterClose)) else None
    case FrameDone =>
      if a.consumer.Handling? then Some(a.(consumer := Selecting)) else None
    case FramePanics =>
      if a.consumer.Handling? then Some(LeaveWith(a, Panicked)) else None
    case ReceiveAfterCancel =>
      if a.consumer.AwaitAfterCancel? && a.runErrCh != []
      then Some(LeaveWith(Receive(a), Returned(Some(CONTEXT_CANCELLED)))) else None
    case ReceiveAfterClose =>
      if a.consumer.AwaitAfterClose? && a.runErrCh != []
      then Some(LeaveWith(Receive(a), Returned(OrStreamEnded(a.runErrCh[0])))) else None
    case Cancel => None
    case BeginAttempt => None
  }

  /** The attempt an action belongs to: its own for a runner, the latest for the pipeline. */
  function Target(s: State, act: Action): int {
    if act.RunnerOffersFrame? || act.RunnerEnds? || act.RunnerSends? then act.i else |s.attempts| - 1
  }

  function AttemptStepAt(s: State, k: int, act: Action): Option<State> {
    if 0 <= k < |s.attempts| then
      match AttemptStep(s.ctxDone, s.attempts[k], act)
      case None => None
      case Some(a) => Some(s.(attempts := s.attempts[k := a]))
    else None
  }

  /** The supervisor checks the context and runs one attempt at a time. */
  function Begun(s: State): Option<State> {
    if !s.ctxDone && (s.attempts == [] || Ended(s.attempts[|s.attempts| - 1]))
    then Some(s.(attempts := s.attempts + [NEW_ATTEMPT])) else None
  }

  function Step(s: State, act: Action): Option<State> {
    match act
    case Cancel => Some(s.(ctxDone := true))
    case BeginAttempt => Begun(s)
    case _ => AttemptStepAt(s, Target(s, act), act)
  }

  const INIT: State := State(false, [])

  function Run(acts: seq<Action>): Option<State> {
    RunFrom(Step, INIT, acts)
  }

  // ---------- What every interleaving keeps ----------

  predicate AttemptInv(a: Attempt) {
    && a.frames <= 1
    && a.sends == (if a.runner.Sent? then 1 else 0)
    && a.receives == (if a.consumer.Returned? then 1 else 0)
    && |a.runErrCh| == a.sends - a.receives
    && (a.consumer.Returned? ==> a.runner.Sent? && a.consumer.err.Some?)
    && (a.consumer.AwaitAfterClose? ==> !a.runner.Reading?)
    && (a.detectorOpen <==> !Ended(a))
  }

  predicate AttemptsInv(attempts: seq<Attempt>) {
    && (forall k | 0 <= k < |attempts| :: AttemptInv(attempts[k]))
    && (forall k | 0 <= k < |attempts| - 1 :: Ended(attempts[k]))
  }

  predicate Inv(s: State) { AttemptsInv(s.attempts) }

  lemma StepAtKeeps(s: State, k: int, act: Action)
    requires Inv(s) && AttemptStepAt(s, k, act).Some?
    ensures Inv(AttemptStepAt(s, k, act).value)
  {
  }

  lemma StepKeeps(s: State, act: Action)
    requires Inv(s) && Step(s, act).Some?
    ensures Inv(Step(s, act).value)
  {
    match act
    case Cancel =>
    case BeginAttempt => BeginKeeps(s);
    case _ => StepAtKeeps(s, Target(s, act), act);
  }

  lemma BeginKeeps(s: State)
    requires Inv(s) && Begun(s).Some?
    ensures Inv(Begun(s).value)
  {
  }

  lemma Reachable(acts: seq<Action>)
    requires Run(acts).Some?
    ensures Inv(Run(acts).value)
  {
    forall s, act | Inv(s) && Step(s, act).Some? ensures Inv(Step(s, act).value) {
      StepKeeps(s, act);
    }
    RunKeeps(Step, Inv, INIT, acts);
  }

  /**
   * In every run, each ingestion goroutine sends exactly one value, once, after Run ended, and is never
   * blocked on the send; runDetection returns only after receiving that value, exactly once, and always
   * with an error, so the supervisor restarts it.
   */
  lemma ExactlyOneHandshake(acts: seq<Action>, k: nat)
    requires Run(acts).Some? && k < |Run(acts).value.attempts|
    ensures var a := Run(acts).value.attempts[k];
            && (a.runner.Closed? ==> a.sends == 0 && Step(Run(acts).value, RunnerSends(k)).Some?)
            && (a.runner.Sent? <==> a.sends == 1) && a.sends <= 1
            && (a.consumer.Returned? <==> a.receives == 1) && a.receives <= 1
            && (a.consumer.Returned? ==> a.runner.Sent? && a.consumer.err.Some?)
  {
    Reachable(acts);
  }

  /** What travels on the result channel, and what runDetection makes of it. */
  predicate ValueInv(ctxDone: bool, a: Attempt) {
    && (!a.runner.Reading? ==> a.runner.result.Some?)
    && (a.runErrCh != [] ==> a.runner.Sent? && a.runErrCh == [a.runner.result])
    && (a.consumer.AwaitAfterCancel? ==> ctxDone)
    && (a.consumer.AwaitAfterClose? ==> !a.runner.Reading? && a.frames == 0)
    && (a.consumer.Returned? ==>
          a.runner.Sent? && (a.consumer.err == a.runner.result || (ctxDone && a.consumer.err == Some(CONTEXT_CANCELLED))))
  }

  predicate ValuesInv(s: State) {
    forall k | 0 <= k < |s.attempts| :: ValueInv(s.ctxDone, s.attempts[k])
  }

  lemma ValueStep(ctxDone: bool, a: Attempt, act: Action)
    requires AttemptInv(a) && ValueInv(ctxDone, a) && AttemptStep(ctxDone, a, act).Some?
    ensures ValueInv(ctxDone, AttemptStep(ctxDone, a, act).value)
  {
  }

  lemma ValuesKept(s: State, act: Action)
    requires Inv(s) && ValuesInv(s) && Step(s, act).Some?
    ensures ValuesInv(Step(s, act).value)
  {
    if !act.Cancel? && !act.BeginAttempt? {
      ValueStep(s.ctxDone, s.attempts[Target(s, act)], act);
    }
  }

  /**
   * runDetection hands on what Run returned: in every run the error it returns is the result of its own ingest,
   * or the context's error, and that only after cancellation. It takes the channel for closed only when no frame
   * is left in it.
   */
  lemma ReturnsRunsResult(acts: seq<Action>, k: nat)
    requires Run(acts).Some? && k < |Run(acts).value.attempts|
    ensures var s, a := Run(acts).value, Run(acts).value.attempts[k];
            && (a.consumer.AwaitAfterClose? ==> a.frames == 0 && !a.runner.Reading?)
            && (a.consumer.Returned? ==>
                  && a.runner.Sent? && a.consumer.err.Some?
                  && (a.consumer.err == a.runner.result || (s.ctxDone && a.consumer.err == Some(CONTEXT_CANCELLED))))
  {
    forall s, act | Inv(s) && ValuesInv(s) && Step(s, act).Some?
      ensures Inv(Step(s, act).value) && ValuesInv(Step(s, act).value)
    {
      StepKeeps(s, act);
      ValuesKept(s, act);
    }
    RunKeeps(Step, s => Inv(s) && ValuesInv(s), INIT, acts);
    Reachable(acts);
  }

  /** The receive that ends the current wait. */
  function Receiving(a: Attempt): Action {
    if a.consumer.AwaitAfterCancel? then ReceiveAfterCancel else ReceiveAfterClose
  }

  /** runDetection waits for the result in its latest attempt. */
  predicate Waiting(s: State) {
    s.attempts != []
    && var c := s.attempts[|s.attempts| - 1].consumer; c.AwaitAfterCancel? || c.AwaitAfterClose?
  }

  /** These steps are enabled in turn and end with runDetection returned. */
  predicate Completes(s: State, rest: seq<Action>) {
    var end := RunFrom(Step, s, rest);
    && end.Some? && end.value.attempts != [] && |end.value.attempts| == |s.attempts|
    && end.value.attempts[|end.value.attempts| - 1].consumer.Returned?
  }

  lemma CompletesAfterSend(s: State) returns (rest: seq<Action>)
    requires Inv(s) && Waiting(s) && s.attempts[|s.attempts| - 1].runner.Sent?
    ensures Completes(s, rest) && |rest| == 1
  {
    rest := [Receiving(s.attempts[|s.attempts| - 1])] + [];
    FirstStep(Step, s, Receiving(s.attempts[|s.attempts| - 1]), []);
  }

  lemma CompletesAfterClose(s: State) returns (rest: seq<Action>)
    requires Inv(s) && Waiting(s) && s.attempts[|s.attempts| - 1].runner.Closed?
    ensures Completes(s, rest) && |rest| == 2
  {
    var k := |s.attempts| - 1;
    StepKeeps(s, RunnerSends(k));
    var t := Step(s, RunnerSends(k)).value;
    rest := CompletesAfterSend(t);
    FirstStep(Step, s, RunnerSends(k), rest);
    rest := [RunnerSends(k)] + rest;
  }

  lemma CompletesFromReading(s: State, exit: ProcessExit) returns (rest: seq<Action>)
    requires Inv(s) && Waiting(s) && s.attempts[|s.attempts| - 1].runner.Reading?
    ensures Completes(s, rest) && |rest| == 3
  {
    var k := |s.attempts| - 1;
    StepKeeps(s, RunnerEnds(k, exit));
    var t := Step(s, RunnerEnds(k, exit)).value;
    rest := CompletesAfterClose(t);
    FirstStep(Step, s, RunnerEnds(k, exit), rest);
    rest := [RunnerEnds(k, exit)] + rest;
  }

  /**
   * No deadlock: from any reachable wait for the result, the end of the process, the send and the receive,
   * at most three steps that are all enabled in turn, complete runDetection.
   */
  lemma WaitCompletes(acts: seq<Action>, exit: ProcessExit) returns (rest: seq<Action>)
    requires Run(acts).Some? && Waiting(Run(acts).value)
    ensures |rest| <= 3 && Completes(Run(acts).value, rest)
  {
    Reachable(acts);
    var s := Run(acts).value;
    match s.attempts[|s.attempts| - 1].runner
    case Sent(_) => rest := CompletesAfterSend(s);
    case Closed(_) => rest := CompletesAfterClose(s);
    case Reading => rest := CompletesFromReading(s, exit);
  }

  /** These steps of the latest attempt are enabled in turn; this is where they take it. */
  function Through(ctxDone: bool, a: Attempt, acts: seq<Action>): Option<Attempt>
    decreases |acts|
  {
    if acts == [] then Some(a)
    else match AttemptStep(ctxDone, a, acts[0]) case None => None case Some(b) => Through(ctxDone, b, acts[1..])
  }

  lemma {:induction false} NextThrough(ctxDone: bool, a: Attempt, act: Action, rest: seq<Action>)
    requires AttemptStep(ctxDone, a, act).Some?
    ensures Through(ctxDone, a, [act] + rest) == Through(ctxDone, AttemptStep(ctxDone, a, act).value, rest)
  {
  }

  /** An offered frame is handled, and the attempt is where it was. */
  lemma {:induction false} FrameIsHandled(ctxDone: bool, a: Attempt, k: nat)
    requires a.runner.Reading? && a.consumer.Selecting?
    ensures Through(ctxDone, a, [RunnerOffersFrame(k)] + ([SeeFrame] + ([FrameDone] + []))) == Some(a.(frames := 0))
  {
    var b := a.(frames := 1);
    var c := a.(frames := 0, consumer := Handling);
    NextThrough(ctxDone, c, FrameDone, []);
    NextThrough(ctxDone, b, SeeFrame, [FrameDone] + []);
    NextThrough(ctxDone, a, RunnerOffersFrame(k), [SeeFrame] + ([FrameDone] + []));
  }

  /** The end of FFmpeg reaches the supervisor through the result, whichever branch of the select sees it. */
  lemma {:induction false} EndIsReturned(ctxDone: bool, a: Attempt, k: nat, exit: ProcessExit)
    requires AttemptInv(a) && a.runner.Reading? && a.consumer.Selecting?
    ensures var b := Through(ctxDone, a, [RunnerEnds(k, exit)] + ([RunnerSends(k)] + ([SeeResult] + [])));
            b.Some? && b.value.consumer == Returned(RunResult(ctxDone, exit)) && !b.value.detectorOpen
    ensures var b := Through(ctxDone, a.(frames := 0),
                             [RunnerEnds(k, exit)] + ([SeeClosed] + ([RunnerSends(k)] + ([ReceiveAfterClose] + []))));
            b.Some? && b.value.consumer == Returned(RunResult(ctxDone, exit)) && !b.value.detectorOpen
  {
    var result := RunResult(ctxDone, exit);
    var b := a.(runner := Closed(result));
    var c := b.(runner := Sent(result), runErrCh := [result], sends := a.sends + 1);
    assert a.runErrCh + [result] == [result];
    NextThrough(ctxDone, c, SeeResult, []);
    NextThrough(ctxDone, b, RunnerSends(k), [SeeResult] + []);
    NextThrough(ctxDone, a, RunnerEnds(k, exit), [RunnerSends(k)] + ([SeeResult] + []));
    ClosedIsReturned(ctxDone, a.(frames := 0), k, exit);
  }

  /** Waiting for the result, when Run has just returned. */
  lemma {:induction false} ResultIsReceived(ctxDone: bool, a: Attempt, k: nat)
    requires a.runErrCh == [] && a.runner.Closed? && a.runner.result.Some?
    requires a.consumer.AwaitAfterClose? || a.consumer.AwaitAfterCancel?
    ensures var b := Through(ctxDone, a, [RunnerSends(k)] + ([Receiving(a)] + []));
            && b.Some? && !b.value.detectorOpen
            && b.value.consumer
               == Returned(if a.consumer.AwaitAfterCancel? then Some(CONTEXT_CANCELLED) else a.runner.result)
  {
    var b := a.(runner := Sent(a.runner.result), runErrCh := [a.runner.result], sends := a.sends + 1);
    assert a.runErrCh + [a.runner.result] == [a.runner.result];
    NextThrough(ctxDone, b, Receiving(a), []);
    NextThrough(ctxDone, a, RunnerSends(k), [Receiving(a)] + []);
  }

  lemma {:induction false} ClosedIsReturned(ctxDone: bool, a: Attempt, k: nat, exit: ProcessExit)
    requires a.runErrCh == [] && a.runner.Reading? && a.consumer.Selecting? && a.frames == 0
    ensures var b := Through(ctxDone, a,
                             [RunnerEnds(k, exit)] + ([SeeClosed] + ([RunnerSends(k)] + ([ReceiveAfterClose] + []))));
            b.Some? && b.value.consumer == Returned(RunResult(ctxDone, exit)) && !b.value.detectorOpen
  {
    var b := a.(runner := Closed(RunResult(ctxDone, exit)));
    ResultIsReceived(ctxDone, b.(consumer := AwaitAfterClose), k);
    NextThrough(ctxDone, b, SeeClosed, [RunnerSends(k)] + ([ReceiveAfterClose] + []));
    NextThrough(ctxDone, a, RunnerEnds(k, exit), [SeeClosed] + ([RunnerSends(k)] + ([ReceiveAfterClose] + [])));
  }

  /** Cancelled, the select can leave at once; runDetection then waits for the ingest and returns the context's error. */
  lemma {:induction false} CancelIsReturned(a: Attempt, k: nat, exit: ProcessExit)
    requires AttemptInv(a) && a.runner.Reading? && a.consumer.Selecting?
    ensures var b := Through(true, a,
                             [SeeCancel] + ([RunnerEnds(k, exit)] + ([RunnerSends(k)] + ([ReceiveAfterCancel] + []))));
            b.Some? && b.value.consumer == Returned(Some(CONTEXT_CANCELLED)) && !b.value.detectorOpen
  {
    var b := a.(consumer := AwaitAfterCancel);
    ResultIsReceived(true, b.(runner := Closed(RunResult(true, exit))), k);
    NextThrough(true, b, RunnerEnds(k, exit), [RunnerSends(k)] + ([ReceiveAfterCancel] + []));
    NextThrough(true, a, SeeCancel, [RunnerEnds(k, exit)] + ([RunnerSends(k)] + ([ReceiveAfterCancel] + [])));
  }

  predicate IngestAlive(a: Attempt) { a.runner.Reading? }

  /**
   * Across restarts every detection ingest still alive belongs to the current attempt or to one that
   * panicked, and only the current attempt can hold an open detector.
   */
  lemma AtMostOneIngest(acts: seq<Action>, i: nat)
    requires Run(acts).Some? && i < |Run(acts).value.attempts| - 1
    ensures var a := Run(acts).value.attempts[i];
            && !a.detectorOpen
            && (IngestAlive(a) ==> a.consumer.Panicked?)
  {
    Reachable(acts);
  }

  /** Without panics at most one ingest and at most one detector exist at any time. */
  lemma NoPanicsNoOverlap(acts: seq<Action>, i: nat, j: nat)
    requires FramePanics !in acts
    requires Run(acts).Some? && i < j < |Run(acts).value.attempts|
    ensures !IngestAlive(Run(acts).value.attempts[i])
    ensures !Run(acts).value.attempts[i].detectorOpen
  {
    AtMostOneIngest(acts, i);
    PanicsComeFromFrames(INIT, acts, i);
  }

  lemma {:induction false} PanicsComeFromFrames(s: State, acts: seq<Action>, k: nat)
    requires FramePanics !in acts && RunFrom(Step, s, acts).Some? && k < |RunFrom(Step, s, acts).value.attempts|
    requires forall i | 0 <= i < |s.attempts| :: !s.attempts[i].consumer.Panicked?
    ensures !RunFrom(Step, s, acts).value.attempts[k].consumer.Panicked?
    decreases |acts|
  {
    if acts != [] {
      assert acts[0] in acts && forall a | a in acts[1..] :: a in acts;
      PanicsComeFromFrames(Step(s, acts[0]).value, acts[1..], k);
    }
  }

  lemma {:induction false} NoneBegins(s: State, acts: seq<Action>)
    requires s.ctxDone && RunFrom(Step, s, acts).Some?
    ensures |RunFrom(Step, s, acts).value.attempts| == |s.attempts|
    decreases |acts|
  {
    if acts != [] {
      NoneBegins(Step(s, acts[0]).value, acts[1..]);
    }
  }

  /** Cancellation is always possible, and no attempt begins after it. */
  lemma {:induction false} CancelIsFinal(s: State, more: seq<Action>)
    requires RunFrom(Step, s, [Cancel] + more).Some?
    ensures Step(s, Cancel).Some?
    ensures |RunFrom(Step, s, [Cancel] + more).value.attempts| == |s.attempts|
  {
    FirstStep(Step, s, Cancel, more);
    NoneBegins(Step(s, Cancel).value, more);
  }

  // ---------- When ingests overlap ----------

  ghost predicate TwoAlive(s: State) {
    exists i, j | 0 <= i < j < |s.attempts| :: IngestAlive(s.attempts[i]) && IngestAlive(s.attempts[j])
  }

  /** The attempt panicked while its ingest was still reading. */
  predicate Abandoned(a: Attempt) { a.consumer.Panicked? && IngestAlive(a) }

  lemma AbandonedBefore(s: State, act: Action, k: nat)
    requires act != FramePanics && Step(s, act).Some?
    requires k < |Step(s, act).value.attempts| && Abandoned(Step(s, act).value.attempts[k])
    ensures k < |s.attempts| && Abandoned(s.attempts[k])
  {
  }

  lemma {:induction false} AbandonedFirst(s: State, acts: seq<Action>, k: nat)
    requires FramePanics !in acts && RunFrom(Step, s, acts).Some?
    requires k < |RunFrom(Step, s, acts).value.attempts| && Abandoned(RunFrom(Step, s, acts).value.attempts[k])
    ensures k < |s.attempts| && Abandoned(s.attempts[k])
    decreases |acts|
  {
    if acts != [] {
      assert acts[0] in acts && forall a | a in acts[1..] :: a in acts;
      AbandonedFirst(Step(s, acts[0]).value, acts[1..], k);
      AbandonedBefore(s, acts[0], k);
    }
  }

  /** How many steps an attempt whose ingest is over needs until the next one can begin. */
  function ToNext(a: Attempt): nat {
    if Ended(a) then 0 else if a.runner.Closed? then 3 else if a.consumer.Handling? then 2 else 1
  }

  function Draining(a: Attempt, k: nat): Action {
    if a.runner.Closed? then RunnerSends(k)
    else if a.consumer.Handling? then FrameDone
    else if a.consumer.Selecting? then SeeResult
    else Receiving(a)
  }

  lemma DrainStep(s: State)
    requires Inv(s) && s.attempts != []
    requires var a := s.attempts[|s.attempts| - 1]; !a.runner.Reading? && !Ended(a)
    ensures var k := |s.attempts| - 1;
            var act := Draining(s.attempts[k], k);
            && act != FramePanics && Step(s, act).Some?
            && var t := Step(s, act).value;
               && Inv(t) && t.ctxDone == s.ctxDone && t.attempts == s.attempts[k := t.attempts[k]]
               && !t.attempts[k].runner.Reading? && ToNext(t.attempts[k]) < ToNext(s.attempts[k])
  {
    var k := |s.attempts| - 1;
    var act := Draining(s.attempts[k], k);
    assert AttemptInv(s.attempts[k]);
    assert AttemptStep(s.ctxDone, s.attempts[k], act).Some?;
    StepKeeps(s, act);
  }

  /** The attempt in progress comes to its end and the next one begins; earlier ones are left alone. */
  lemma NextBegins(s: State) returns (more: seq<Action>)
    requires Inv(s) && !s.ctxDone && s.attempts != []
    requires var a := s.attempts[|s.attempts| - 1]; Ended(a) || !a.runner.Reading?
    ensures FramePanics !in more && RunFrom(Step, s, more).Some?
    ensures var n, t := |s.attempts|, RunFrom(Step, s, more).value;
            && |t.attempts| == n + 1 && IngestAlive(t.attempts[n])
            && t.attempts[..n - 1] == s.attempts[..n - 1]
            && (Ended(s.attempts[n - 1]) ==> t.attempts[n - 1] == s.attempts[n - 1])
    decreases ToNext(s.attempts[|s.attempts| - 1])
  {
    var k := |s.attempts| - 1;
    if Ended(s.attempts[k]) {
      more := [BeginAttempt] + [];
      FirstStep(Step, s, BeginAttempt, []);
    } else {
      var act := Draining(s.attempts[k], k);
      DrainStep(s);
      more := NextBegins(Step(s, act).value);
      FirstStep(Step, s, act, more);
      more := [act] + more;
    }
  }

  /** The attempt in progress comes to its end once its ingest is over. */
  lemma CurrentEnds(s: State) returns (rest: seq<Action>)
    requires Inv(s) && s.attempts != [] && !s.attempts[|s.attempts| - 1].runner.Reading?
    ensures |rest| <= ToNext(s.attempts[|s.attempts| - 1]) && FramePanics !in rest && RunFrom(Step, s, rest).Some?
    ensures var k, t := |s.attempts| - 1, RunFrom(Step, s, rest).value;
            |t.attempts| == k + 1 && Ended(t.attempts[k])
            && (!s.attempts[k].consumer.Panicked? ==> t.attempts[k].consumer.Returned?)
    decreases ToNext(s.attempts[|s.attempts| - 1])
  {
    var k := |s.attempts| - 1;
    if Ended(s.attempts[k]) {
      rest := [];
    } else {
      var act := Draining(s.attempts[k], k);
      DrainStep(s);
      rest := CurrentEnds(Step(s, act).value);
      FirstStep(Step, s, act, rest);
      rest := [act] + rest;
    }
  }

  lemma EndStep(s: State, k: nat, exit: ProcessExit)
    requires Inv(s) && k == |s.attempts| - 1 && s.attempts[k].runner.Reading?
    ensures Step(s, RunnerEnds(k, exit)).Some?
    ensures var t := Step(s, RunnerEnds(k, exit)).value;
            && Inv(t) && |t.attempts| == |s.attempts|
            && t.attempts[k] == s.attempts[k].(runner := Closed(RunResult(s.ctxDone, exit)))
  {
  }

  /**
   * Every attempt can end: from every reachable state the end of its process and at most three further steps,
   * all enabled in turn, make runDetection return, wherever it is, frames being handled included.
   */
  lemma AttemptCompletes(acts: seq<Action>, exit: ProcessExit) returns (rest: seq<Action>)
    requires Run(acts).Some? && Run(acts).value.attempts != []
    requires !Ended(Run(acts).value.attempts[|Run(acts).value.attempts| - 1])
    ensures |rest| <= 4 && FramePanics !in rest && RunFrom(Step, Run(acts).value, rest).Some?
    ensures var k, t := |Run(acts).value.attempts| - 1, RunFrom(Step, Run(acts).value, rest).value;
            k < |t.attempts| && t.attempts[k].consumer.Returned?
  {
    Reachable(acts);
    var s := Run(acts).value;
    var k := |s.attempts| - 1;
    if s.attempts[k].runner.Reading? {
      EndStep(s, k, exit);
      rest := CurrentEnds(Step(s, RunnerEnds(k, exit)).value);
      FirstStep(Step, s, RunnerEnds(k, exit), rest);
      rest := [RunnerEnds(k, exit)] + rest;
    } else {
      rest := CurrentEnds(s);
    }
  }

  lemma AbandonedOverlaps(s: State, k: nat) returns (more: seq<Action>)
    requires Inv(s) && !s.ctxDone && k < |s.attempts| && Abandoned(s.attempts[k])
    ensures FramePanics !in more && RunFrom(Step, s, more).Some? && TwoAlive(RunFrom(Step, s, more).value)
  {
    var last := |s.attempts| - 1;
    if k < last && IngestAlive(s.attempts[last]) {
      more := [];
    } else {
      more := NextBegins(s);
      var t := RunFrom(Step, s, more).value;
      assert k < last ==> t.attempts[..last][k] == s.attempts[..last][k];
      assert t.attempts[k] == s.attempts[k] && IngestAlive(t.attempts[last + 1]);
    }
  }

  /**
   * Ingests overlap only through a panic in the middle of reading: before cancellation, a run can go on without
   * further panics to two ingests alive at once exactly when some attempt has panicked while its ingest is
   * still reading.
   */
  lemma OverlapIff(acts: seq<Action>)
    requires Run(acts).Some? && !Run(acts).value.ctxDone
    ensures (exists more :: FramePanics !in more && RunFrom(Step, Run(acts).value, more).Some?
                            && TwoAlive(RunFrom(Step, Run(acts).value, more).value))
            <==> exists k | 0 <= k < |Run(acts).value.attempts| :: Abandoned(Run(acts).value.attempts[k])
  {
    Reachable(acts);
    var s := Run(acts).value;
    if k :| 0 <= k < |s.attempts| && Abandoned(s.attempts[k]) {
      var more := AbandonedOverlaps(s, k);
    }
    forall more | FramePanics !in more && RunFrom(Step, s, more).Some? && TwoAlive(RunFrom(Step, s, more).value)
      ensures exists k | 0 <= k < |s.attempts| :: Abandoned(s.attempts[k])
    {
      var t := RunFrom(Step, s, more).value;
      var i, j :| 0 <= i < j < |t.attempts| && IngestAlive(t.attempts[i]) && IngestAlive(t.attempts[j]);
      RunConcat(Step, INIT, acts, more);
      AtMostOneIngest(acts + more, i);
      AbandonedFirst(s, more, i);
    }
  }

  const IN_PANIC: State := State(false, [NEW_ATTEMPT.(consumer := Panicked, detectorOpen := false)])

  lemma OnePanic(rest: seq<Action>) returns (acts: seq<Action>)
    ensures Run(acts) == RunFrom(Step, IN_PANIC, rest)
  {
    var s1 := State(false, [NEW_ATTEMPT]);
    var s2 := State(false, [NEW_ATTEMPT.(frames := 1)]);
    var s3 := State(false, [NEW_ATTEMPT.(consumer := Handling)]);
    assert Step(INIT, BeginAttempt).value.attempts == s1.attempts;
    assert Step(s1, RunnerOffersFrame(0)).value.attempts == s2.attempts;
    assert Step(s2, SeeFrame).value.attempts == s3.attempts;
    assert Step(s3, FramePanics).value.attempts == IN_PANIC.attempts;
    FirstStep(Step, s3, FramePanics, rest);
    acts := [FramePanics] + rest;
    FirstStep(Step, s2, SeeFrame, acts);
    acts := [SeeFrame] + acts;
    FirstStep(Step, s1, RunnerOffersFrame(0), acts);
    acts := [RunnerOffersFrame(0)] + acts;
    FirstStep(Step, INIT, BeginAttempt, acts);
    acts := [BeginAttempt] + acts;
  }

  /** A panic while handling a frame leaves its ingest running beside the next attempt's. */
  lemma PanicLeaksIngest() returns (acts: seq<Action>)
    ensures Run(acts).Some? && |Run(acts).value.attempts| == 2
    ensures IngestAlive(Run(acts).value.attempts[0]) && IngestAlive(Run(acts).value.attempts[1])
  {
    acts := OnePanic([BeginAttempt] + []);
    FirstStep(Step, IN_PANIC, BeginAttempt, []);
  }
}
