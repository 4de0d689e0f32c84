/**
 * The status stored by the backend against the state of the worker's instances:
 * backend/src/services/cameras.service.ts and alerts.service.ts, worker/internal/camera/manager.go and
 * camera.go. User operations run one at a time; instances are those of module CameraLifecycle. A POST of a
 * state is stored at once, or dropped after its attempts (worker/internal/eventbus/publisher.go).
 */
module StatusProtocol {
  import opened Common
  import L = CameraLifecycle

  type Id = string
  type Status = L.CameraState

  datatype Kind = Start | Stop | Remove

  /**
   * Where a user operation is: before the first status write of start, before the call to the worker, while
   * the worker stops the old instance, before it installs a new one, while it starts that one, before the
   * rollback after a failed call, and before the last write.
   */
  datatype Pc = Mark | CallWorker | StopOld | Install | RunStart | RollBack | Finish

  datatype Op = Idle | Busy(kind: Kind, id: Id, pc: Pc)

  /**
   * known: every camera ever created; ids are not reused. leaving: the instance taken out of the worker's map
   * and being stopped.
   */
  datatype State = State(
    known: set<Id>, db: map<Id, Status>, worker: map<Id, L.State>, leaving: Option<L.State>, op: Op)

  const INIT: State := State({}, map[], map[], None, Idle)

  /** dropped: the POST begun in this step, if any, is refused on all its attempts. */
  datatype Action =
    | Create(id: Id)
    | Begin(kind: Kind, id: Id)
    | OpStep(dropped: bool)
    | CallFails
    | InstanceStep(id: Id, act: L.Action, dropped: bool)
    | LeavingStep(act: L.Action, dropped: bool)

  /** What the pipelines of an instance do by themselves. */
  predicate ByPipeline(act: L.Action) { !act.StartStep? && !act.StopStep? && !act.RootCancel? }

  /** ingestCameraState for whatever the instance posted in this step; unknown cameras are ignored. */
  function Ingest(db: map<Id, Status>, id: Id, before: L.State, after: L.State, dropped: bool): map<Id, Status> {
    if |after.posted| > |before.posted| && !dropped && id in db then db[id := after.posted[|after.posted| - 1]] else db
  }

  function Goto(s: State, pc: Pc): State
    requires s.op.Busy?
  {
    s.(op := s.op.(pc := pc))
  }

  /** After the worker's part: start installs, stop and remove write last. */
  function AfterOld(kind: Kind): Pc { if kind == Start then Install else Finish }

  function OpStepFrom(s: State, dropped: bool): Option<State>
    requires s.op.Busy?
  {
    var id := s.op.id;
    match s.op.pc
    case Mark => Some(Goto(s.(db := s.db[id := L.Connecting]), CallWorker))
    case CallWorker =>
      // The first region under the manager's lock.
      if id in s.worker then Some(Goto(s.(worker := s.worker - {id}, leaving := Some(s.worker[id])), StopOld))
      else if s.op.kind == Start then Some(Goto(s.(worker := s.worker[id := L.INIT]), RunStart))
      else Some(Goto(s, Finish))
    case StopOld => (
      if s.leaving.None? then None
      else
        match L.StopStepFrom(s.leaving.value)
        case None => None
        case Some(i) =>
          var t := s.(db := Ingest(s.db, id, s.leaving.value, i, dropped));
          Some(if i.stopper.StopReturned? then Goto(t.(leaving := None), AfterOld(s.op.kind)) else t.(leaving := Some(i)))
      )
    case Install => Some(Goto(s.(worker := s.worker[id := L.INIT]), RunStart))
    case RunStart => (
      if id !in s.worker then None
      else
        match L.StartStepFrom(s.worker[id])
        case None => None
        case Some(i) =>
          var t := s.(worker := s.worker[id := i], db := Ingest(s.db, id, s.worker[id], i, dropped));
          Some(if i.starter.StartReturned? then t.(op := Idle) else t)
      )
    case RollBack => Some(s.(db := s.db[id := L.Error], op := Idle))
    case Finish =>
      Some(if s.op.kind == Remove then s.(db := s.db - {id}, op := Idle)
           else s.(db := s.db[id := L.Stopped], op := Idle))
  }

  function Step(s: State, act: Action): Option<State> {
    match act
    case Create(id) =>
      if id in s.known then None else Some(s.(known := s.known + {id}, db := s.db[id := L.Stopped]))
    case Begin(kind, id) =>
      if s.op.Busy? then None
      else if id !in s.db then Some(s)
      else Some(s.(op := Busy(kind, id, if kind == Start then Mark else CallWorker)))
    case OpStep(dropped) => if s.op.Busy? then OpStepFrom(s, dropped) else None
    case CallFails =>
      // The worker cannot be reached: start rolls back, stop and remove go on.
      if s.op.Busy? && s.op.pc == CallWorker
      then Some(Goto(s, if s.op.kind == Start then RollBack else Finish)) else None
    case InstanceStep(id, a, dropped) =>
      if id in s.worker && ByPipeline(a) && L.Step(s.worker[id], a).Some? then
        var i := L.Step(s.worker[id], a).value;
        Some(s.(worker := s.worker[id := i], db := Ingest(s.db, id, s.worker[id], i, dropped)))
      else None
    case LeavingStep(a, dropped) =>
      if s.op.Busy? && s.leaving.Some? && ByPipeline(a) && L.Step(s.leaving.value, a).Some? then
        var i := L.Step(s.leaving.value, a).value;
        Some(s.(leaving := Some(i), db := Ingest(s.db, s.op.id, s.leaving.value, i, dropped)))
      else None
  }

  function Run(acts: seq<Action>): Option<State> {
    RunFrom(Step, INIT, acts)
  }

  /** A panic after the state became live and before its publication. */
  predicate SkipsPost(s: State, act: Action) {
    act.InstanceStep? && act.act == L.Panic(L.WebRTC) && act.id in s.worker && L.LivePending(s.worker[act.id])
  }

  predicate DropsPost(act: Action) {
    (act.OpStep? || act.InstanceStep? || act.LeavingStep?) && act.dropped
  }

  /** A step that loses a POST. */
  predicate LosesPost(s: State, act: Action) { SkipsPost(s, act) || DropsPost(act) }

  /** The worker answers every call and no POST is lost. */
  predicate Faultless(s: State, acts: seq<Action>)
    decreases |acts|
  {
    acts == []
    || (!acts[0].CallFails? && !LosesPost(s, acts[0])
        && (Step(s, acts[0]).Some? ==> Faultless(Step(s, acts[0]).value, acts[1..])))
  }

  // ---------- One instance ----------

  /** An instance whose start has published connecting and that is not being stopped. */
  predicate Running(i: L.State) {
    && L.Inv(i) && !i.ctxDone && i.stopper.StopNotCalled?
    && !i.starter.NotCalled? && !i.starter.PublishConnecting?
    && i.cam != L.Stopped
  }

  /** A fresh instance up to its first POST. */
  predicate Fresh(i: L.State) {
    && L.Inv(i) && !i.ctxDone && i.stopper.StopNotCalled? && i.posted == []
    && ((i.starter.NotCalled? && i.cam == L.Stopped) || (i.starter.PublishConnecting? && i.cam == L.Connecting))
  }

  /** What a step of a pipeline does to a running instance. */
  lemma RunningStep(i: L.State, a: L.Action)
    requires Running(i) && ByPipeline(a) && L.Step(i, a).Some?
    ensures var j := L.Step(i, a).value;
            && Running(j) && j.starter == i.starter
            && j.posted == (if a.LivePublished? then i.posted + [L.Live] else i.posted)
            && (!L.LivePending(i) && !L.LivePending(j) ==> j.cam == i.cam)
            && (L.LivePending(i) && !L.LivePending(j) ==> a.LivePublished? || a == L.Panic(L.WebRTC))
            && (L.LivePending(i) || a.LivePublished? ==> j.cam == L.Live)
            && (a.LivePublished? ==> !L.LivePending(j))
  {
    L.StepKeeps(i, a);
    if a.LivePublished? {
      assert i.posted + [L.Live] == L.Step(i, a).value.posted;
    } else {
      L.StepKeepsLogs(i, a);
      QuietStep(i, a);
    }
  }

  /** A step without publication: only the region that goes live changes the state. */
  predicate Quiet(i: L.State, a: L.Action, j: L.State) {
    && j.starter == i.starter && j.stopper == i.stopper && j.ctxDone == i.ctxDone
    && (if a.LiveRegion? then j.cam == L.Live && !L.LivePending(i) && (L.LivePending(j) <==> i.cam != L.Live)
        else j.cam == i.cam && (L.LivePending(j) <==> L.LivePending(i) && a != L.Panic(L.WebRTC)))
  }

  lemma QuietSupervise(i: L.State, p: L.Pipeline)
    requires L.ThreadsInv(i) && L.Step(i, L.Supervise(p)).Some?
    ensures Quiet(i, L.Supervise(p), L.Step(i, L.Supervise(p)).value)
  {
  }

  lemma QuietRetry(i: L.State, a: L.Action)
    requires (a.Head? || a.Wake? || a.Panic?) && L.Step(i, a).Some?
    ensures Quiet(i, a, L.Step(i, a).value)
  {
  }

  lemma QuietStep(i: L.State, a: L.Action)
    requires L.ThreadsInv(i) && ByPipeline(a) && !a.LivePublished? && L.Step(i, a).Some?
    ensures Quiet(i, a, L.Step(i, a).value)
  {
    match a
    case Supervise(p) => QuietSupervise(i, p);
    case Head(_) => QuietRetry(i, a);
    case Wake(_, _) => QuietRetry(i, a);
    case Panic(_) => QuietRetry(i, a);
    case _ =>
  }

  lemma FreshHasNoPipelines(i: L.State, a: L.Action)
    requires Fresh(i) && ByPipeline(a)
    ensures L.Step(i, a).None?
  {
  }

  lemma StartStepPublishes(i: L.State)
    requires Fresh(i) || (Running(i) && !i.starter.StartReturned?)
    ensures L.StartStepFrom(i).Some?
    ensures var j := L.StartStepFrom(i).value;
            && (Fresh(j) || Running(j)) && (j.starter.StartReturned? ==> Running(j))
            && (Running(i) ==> Running(j) && j.posted == i.posted && j.cam == i.cam
                               && (L.LivePending(j) <==> L.LivePending(i)))
            && (Fresh(i) && Running(j) ==> j.posted == [L.Connecting] && j.cam == L.Connecting && !L.LivePending(j))
            && (Fresh(i) && Fresh(j) ==> j.posted == i.posted)
  {
    L.StartKeeps(i);
  }

  // ---------- When stored status and instance disagree ----------

  /**
   * The cameras whose status is known to be wrong, from the faults of the run: a lost POST of a state that is
   * not stored already, the error written after a failed start call, and the stopped written while the worker
   * still holds the instance. A POST of the instance that gets through repairs it, and so does a stop call that
   * does.
   */
  function MarksAfter(s: State, marks: set<Id>, act: Action): set<Id> {
    match act
    case InstanceStep(id, a, dropped) =>
      if a.LivePublished? then AfterPost(s, marks, id, L.Live, dropped)
      else if SkipsPost(s, act) then AfterPost(s, marks, id, L.Live, true)
      else marks
    case OpStep(dropped) => if s.op.Busy? then MarksAfterOp(s, marks, dropped) else marks
    case _ => marks
  }

  function AfterPost(s: State, marks: set<Id>, id: Id, st: Status, lost: bool): set<Id> {
    if lost && id in s.db && s.db[id] != st then marks + {id} else marks - {id}
  }

  function MarksAfterOp(s: State, marks: set<Id>, dropped: bool): set<Id>
    requires s.op.Busy?
  {
    var id := s.op.id;
    match s.op.pc
    case RunStart =>
      if id in s.worker && s.worker[id].starter.PublishConnecting?
      then AfterPost(s, marks, id, L.Connecting, dropped) else marks
    case RollBack => marks + {id}
    case Finish => if s.op.kind == Stop && id in s.worker then marks + {id} else marks - {id}
    case _ => marks
  }

  function MarksFrom(s: State, marks: set<Id>, acts: seq<Action>): set<Id>
    decreases |acts|
  {
    if acts == [] then marks
    else match Step(s, acts[0]) case None => marks case Some(t) => MarksFrom(t, MarksAfter(s, marks, acts[0]), acts[1..])
  }

  predicate Disagrees(s: State, id: Id)
    requires id in s.db
  {
    if id in s.worker then s.db[id] != s.worker[id].cam else s.db[id] != L.Stopped
  }

  /** The stored status is wrong exactly when marked, unless the instance is just about to publish live. */
  predicate Matches(st: Status, i: L.State, marked: bool) {
    !L.LivePending(i) ==> (st == i.cam <==> !marked)
  }

  predicate Settled(s: State, marks: set<Id>, id: Id) {
    && Held(s, id)
    && (id in s.worker && id in s.db ==> Matches(s.db[id], s.worker[id], id in marks))
    && (id !in s.worker && id in s.db ==> (s.db[id] == L.Stopped <==> id !in marks))
  }

  predicate Held(s: State, id: Id) {
    id in s.worker ==> Running(s.worker[id]) && s.worker[id].starter.StartReturned?
  }

  predicate OpInv(s: State, marks: set<Id>) {
    match s.op
    case Idle => s.leaving.None?
    case Busy(kind, id, pc) =>
      && id in s.db
      && (s.leaving.Some? <==> pc == StopOld)
      && match pc
         case Mark => kind == Start && Settled(s, marks, id)
         case CallWorker => Held(s, id)
         case StopOld => id !in s.worker
         case Install => kind == Start && id !in s.worker
         case RunStart => kind == Start && id in s.worker && Starts(s.worker[id], s.db[id], id in marks)
         case RollBack => kind == Start && Held(s, id)
         case Finish => kind != Start && Held(s, id)
  }

  /** An instance being started: nothing posted yet, or marked as any other. */
  predicate Starts(i: L.State, st: Status, marked: bool) {
    Fresh(i) || (Running(i) && !i.starter.StartReturned? && Matches(st, i, marked))
  }

  predicate Subject(s: State, id: Id) { s.op.Busy? && s.op.id == id }

  ghost predicate Inv(s: State, marks: set<Id>) {
    && OpInv(s, marks)
    && s.db.Keys <= s.known && s.worker.Keys <= s.known && marks <= s.known
    && forall id :: !Subject(s, id) ==> Settled(s, marks, id)
  }

  /** Nothing about another camera changed. */
  predicate Same(s: State, t: State, id: Id) {
    && (id in t.db <==> id in s.db) && (id in s.db ==> t.db[id] == s.db[id])
    && (id in t.worker <==> id in s.worker) && (id in s.worker ==> t.worker[id] == s.worker[id])
  }

  lemma OpStepOthers(s: State, marks: set<Id>, dropped: bool, id: Id)
    requires s.op.Busy? && OpStepFrom(s, dropped).Some? && id != s.op.id
    ensures Same(s, OpStepFrom(s, dropped).value, id) && !Subject(OpStepFrom(s, dropped).value, id)
    ensures id in MarksAfterOp(s, marks, dropped) <==> id in marks
  {
  }

  /** The instance a start call works on, after one of its steps. */
  lemma StartsStep(i: L.State, st: Status, marked: bool, dropped: bool)
    requires Starts(i, st, marked)
    ensures L.StartStepFrom(i).Some?
    ensures var j := L.StartStepFrom(i).value;
            var posts := i.starter.PublishConnecting?;
            var st' := if posts && !dropped then L.Connecting else st;
            var marked' := if posts then dropped && st != L.Connecting else marked;
            && j.posted == (if posts then i.posted + [L.Connecting] else i.posted)
            && (if j.starter.StartReturned? then Running(j) && Matches(st', j, marked') else Starts(j, st', marked'))
  {
    StartStepPublishes(i);
    assert i.posted == [] ==> i.posted + [L.Connecting] == [L.Connecting];
  }

  lemma RunStartKeeps(s: State, marks: set<Id>, dropped: bool)
    requires OpInv(s, marks) && s.op.Busy? && s.op.pc == RunStart && OpStepFrom(s, dropped).Some?
    ensures var t, m := OpStepFrom(s, dropped).value, MarksAfterOp(s, marks, dropped);
            OpInv(t, m) && (!Subject(t, s.op.id) ==> Settled(t, m, s.op.id))
  {
    StartsStep(s.worker[s.op.id], s.db[s.op.id], s.op.id in marks, dropped);
  }

  lemma OpKeeps(s: State, marks: set<Id>, dropped: bool)
    requires OpInv(s, marks) && s.op.Busy? && s.op.pc != RunStart && OpStepFrom(s, dropped).Some?
    ensures var t, m := OpStepFrom(s, dropped).value, MarksAfterOp(s, marks, dropped);
            OpInv(t, m) && (!Subject(t, s.op.id) ==> Settled(t, m, s.op.id))
  {
    assert Fresh(L.INIT);
  }

  lemma OpKnown(s: State, marks: set<Id>, dropped: bool)
    requires s.op.Busy? && s.op.id in s.known && OpStepFrom(s, dropped).Some?
    requires s.db.Keys <= s.known && s.worker.Keys <= s.known && marks <= s.known
    ensures var t := OpStepFrom(s, dropped).value;
            && t.known == s.known && t.db.Keys <= s.known && t.worker.Keys <= s.known
            && MarksAfterOp(s, marks, dropped) <= s.known
  {
  }

  lemma OpStepKeeps(s: State, marks: set<Id>, dropped: bool)
    requires Inv(s, marks) && s.op.Busy? && OpStepFrom(s, dropped).Some?
    ensures Inv(OpStepFrom(s, dropped).value, MarksAfterOp(s, marks, dropped))
  {
    var t, m := OpStepFrom(s, dropped).value, MarksAfterOp(s, marks, dropped);
    if s.op.pc == RunStart {
      RunStartKeeps(s, marks, dropped);
    } else {
      OpKeeps(s, marks, dropped);
    }
    OpKnown(s, marks, dropped);
    forall id | !Subject(t, id) ensures Settled(t, m, id) {
      if id != s.op.id {
        OpStepOthers(s, marks, dropped, id);
        assert Settled(s, marks, id);
      }
    }
  }

  lemma MatchesStep(st: Status, i: L.State, a: L.Action, marked: bool, dropped: bool)
    requires Running(i) && Matches(st, i, marked) && ByPipeline(a) && L.Step(i, a).Some?
    ensures var j := L.Step(i, a).value;
            var marked' := if a.LivePublished? then dropped && st != L.Live
                           else if a == L.Panic(L.WebRTC) && L.LivePending(i) then st != L.Live
                           else marked;
            Matches(if a.LivePublished? && !dropped then L.Live else st, j, marked')
  {
  }

  lemma InstanceEffect(s: State, act: Action)
    requires act.InstanceStep? && Step(s, act).Some? && (Running(s.worker[act.id]) || Fresh(s.worker[act.id]))
    ensures Running(s.worker[act.id])
    ensures var i, j, t := s.worker[act.id], L.Step(s.worker[act.id], act.act).value, Step(s, act).value;
            && Running(j) && j.starter == i.starter
            && t.worker == s.worker[act.id := j]
            && t.db == (if act.act.LivePublished? && !act.dropped && act.id in s.db then s.db[act.id := L.Live] else s.db)
            && t.op == s.op && t.leaving == s.leaving && t.known == s.known
  {
    if Fresh(s.worker[act.id]) {
      FreshHasNoPipelines(s.worker[act.id], act.act);
    }
    RunningStep(s.worker[act.id], act.act);
  }

  lemma InstanceSettled(s: State, marks: set<Id>, act: Action)
    requires act.InstanceStep? && Step(s, act).Some? && Settled(s, marks, act.id)
    ensures Settled(Step(s, act).value, MarksAfter(s, marks, act), act.id)
  {
    InstanceEffect(s, act);
    if act.id in s.db {
      MatchesStep(s.db[act.id], s.worker[act.id], act.act, act.id in marks, act.dropped);
    }
  }

  lemma InstanceOpInv(s: State, marks: set<Id>, act: Action)
    requires OpInv(s, marks) && act.InstanceStep? && Step(s, act).Some?
    requires Subject(s, act.id) || Settled(s, marks, act.id)
    ensures OpInv(Step(s, act).value, MarksAfter(s, marks, act))
  {
    InstanceEffect(s, act);
    if Subject(s, act.id) && Matches(s.db[act.id], s.worker[act.id], act.id in marks) {
      MatchesStep(s.db[act.id], s.worker[act.id], act.act, act.id in marks, act.dropped);
    }
  }

  lemma InstanceStepKeeps(s: State, marks: set<Id>, act: Action)
    requires Inv(s, marks) && act.InstanceStep? && Step(s, act).Some?
    ensures Inv(Step(s, act).value, MarksAfter(s, marks, act))
  {
    var t, m := Step(s, act).value, MarksAfter(s, marks, act);
    assert Subject(s, act.id) || Settled(s, marks, act.id);
    InstanceOpInv(s, marks, act);
    InstanceEffect(s, act);
    forall other | !Subject(t, other) ensures Settled(t, m, other) {
      assert Settled(s, marks, other);
      if other == act.id {
        InstanceSettled(s, marks, act);
      } else {
        OtherInstance(s, other, act);
      }
    }
  }

  lemma LeavingKeeps(s: State, marks: set<Id>, act: Action)
    requires Inv(s, marks) && act.LeavingStep? && Step(s, act).Some?
    ensures Inv(Step(s, act).value, marks)
  {
    var t := Step(s, act).value;
    forall other | !Subject(t, other) ensures Settled(t, marks, other) {
      assert Settled(s, marks, other) && Same(s, t, other);
    }
  }

  lemma StepKeeps(s: State, marks: set<Id>, act: Action)
    requires Inv(s, marks) && Step(s, act).Some?
    ensures Inv(Step(s, act).value, MarksAfter(s, marks, act))
  {
    var t := Step(s, act).value;
    match act {
      case OpStep(dropped) => OpStepKeeps(s, marks, dropped);
      case InstanceStep(_, _, _) => InstanceStepKeeps(s, marks, act);
      case LeavingStep(_, _) => LeavingKeeps(s, marks, act);
      case Create(id) =>
        assert Subject(s, id) || Settled(s, marks, id);
        forall other | !Subject(t, other) ensures Settled(t, marks, other) {
          assert Settled(s, marks, other);
        }
      case Begin(kind, id) =>
        assert s.op.Idle? ==> Settled(s, marks, id);
        forall other | !Subject(t, other) ensures Settled(t, marks, other) {
          assert Settled(s, marks, other);
        }
      case CallFails =>
        forall other | !Subject(t, other) ensures Settled(t, marks, other) {
          assert Settled(s, marks, other);
        }
    }
  }

  lemma {:induction false} RunMarks(s: State, marks: set<Id>, acts: seq<Action>)
    requires Inv(s, marks) && RunFrom(Step, s, acts).Some?
    ensures Inv(RunFrom(Step, s, acts).value, MarksFrom(s, marks, acts))
    decreases |acts|
  {
    if acts != [] {
      StepKeeps(s, marks, acts[0]);
      RunMarks(Step(s, acts[0]).value, MarksAfter(s, marks, acts[0]), acts[1..]);
    }
  }

  /**
   * In every run with one user operation at a time, whatever calls fail to reach the worker and whatever POSTs
   * are skipped by a panic or dropped after their attempts: the stored status of a camera that no operation is
   * working on, and whose instance is not just about to publish live, is wrong exactly when it is marked.
   */
  lemma {:induction false} DisagreesIffMarked(acts: seq<Action>, id: Id)
    requires Run(acts).Some? && id in Run(acts).value.db && !Subject(Run(acts).value, id)
    requires id in Run(acts).value.worker ==> !L.LivePending(Run(acts).value.worker[id])
    ensures Disagrees(Run(acts).value, id) <==> id in MarksFrom(INIT, {}, acts)
  {
    RunMarks(INIT, {}, acts);
    assert Settled(Run(acts).value, MarksFrom(INIT, {}, acts), id);
  }

  // ---------- Without faults ----------

  /** No operation is past a failed call, and every instance has its camera. */
  predicate Clean(s: State) {
    && (s.op.Busy? ==> s.op.pc != RollBack && (s.op.pc == Finish ==> s.op.id !in s.worker))
    && s.worker.Keys <= s.db.Keys
  }

  lemma CleanStep(s: State, act: Action)
    requires Inv(s, {}) && Clean(s) && Step(s, act).Some? && !act.CallFails? && !LosesPost(s, act)
    ensures Clean(Step(s, act).value) && MarksAfter(s, {}, act) == {}
  {
    if act.OpStep? {
      CleanOp(s);
    }
  }

  lemma CleanOp(s: State)
    requires Inv(s, {}) && Clean(s) && s.op.Busy? && OpStepFrom(s, false).Some?
    ensures Clean(OpStepFrom(s, false).value) && MarksAfterOp(s, {}, false) == {}
  {
  }

  lemma {:induction false} FaultlessUnmarked(s: State, acts: seq<Action>)
    requires Inv(s, {}) && Clean(s) && Faultless(s, acts) && RunFrom(Step, s, acts).Some?
    ensures MarksFrom(s, {}, acts) == {} && Clean(RunFrom(Step, s, acts).value)
    decreases |acts|
  {
    if acts != [] {
      CleanStep(s, acts[0]);
      StepKeeps(s, {}, acts[0]);
      FaultlessUnmarked(Step(s, acts[0]).value, acts[1..]);
    }
  }

  /**
   * Status agreement. In every run with one user operation at a time, a responsive worker and no lost POST,
   * the stored status of each existing camera that no operation is working on equals its instance's state,
   * unless that instance is just about to publish live, and is stopped when the worker holds no instance.
   * Restarts of running cameras and deletions are included.
   */
  lemma {:induction false} StatusAgreement(acts: seq<Action>, id: Id)
    requires Faultless(INIT, acts) && Run(acts).Some?
    requires id in Run(acts).value.db && !Subject(Run(acts).value, id)
    ensures var s := Run(acts).value;
            && (id !in s.worker ==> s.db[id] == L.Stopped)
            && (id in s.worker && !L.LivePending(s.worker[id]) ==> s.db[id] == s.worker[id].cam)
            && (id in s.worker && L.LivePending(s.worker[id]) ==> s.worker[id].cam == L.Live)
  {
    FaultlessUnmarked(INIT, acts);
    RunMarks(INIT, {}, acts);
    assert Settled(Run(acts).value, {}, id);
  }

  /** The worker never holds an instance of a camera that does not exist. */
  lemma {:induction false} NoInstanceWithoutCamera(acts: seq<Action>, id: Id)
    requires Faultless(INIT, acts) && Run(acts).Some? && id in Run(acts).value.worker
    ensures id in Run(acts).value.db
  {
    FaultlessUnmarked(INIT, acts);
  }

  // ---------- What each operation achieves ----------

  /** An instance taken out of the map: started, and its stop not over. */
  predicate Leaves(i: L.State) {
    && L.Inv(i) && L.OwnStages(i) && i.starter.StartReturned? && !i.stopper.StopReturned?
    && (L.Past(i) ==> i.wg == 0)
  }

  predicate InstancesInv(s: State) {
    && (forall id | id in s.worker :: L.OwnStages(s.worker[id]))
    && (s.leaving.Some? ==> Leaves(s.leaving.value))
  }

  ghost predicate Good(s: State) { Inv(s, {}) && Clean(s) && InstancesInv(s) }

  predicate Fair(s: State, act: Action) { !act.CallFails? && !LosesPost(s, act) }

  lemma StopOldKept(s: State, dropped: bool)
    requires InstancesInv(s) && s.op.Busy? && s.op.pc == StopOld && OpStepFrom(s, dropped).Some?
    ensures InstancesInv(OpStepFrom(s, dropped).value)
  {
  }

  lemma RunStartKept(s: State, dropped: bool)
    requires InstancesInv(s) && s.op.Busy? && s.op.pc == RunStart && OpStepFrom(s, dropped).Some?
    ensures InstancesInv(OpStepFrom(s, dropped).value)
  {
  }

  lemma TakeOutKept(s: State, marks: set<Id>, dropped: bool)
    requires Inv(s, marks) && InstancesInv(s) && s.op.Busy? && s.op.pc == CallWorker
    ensures InstancesInv(OpStepFrom(s, dropped).value)
  {
  }

  lemma OpKept(s: State, marks: set<Id>, dropped: bool)
    requires Inv(s, marks) && InstancesInv(s) && s.op.Busy? && OpStepFrom(s, dropped).Some?
    ensures InstancesInv(OpStepFrom(s, dropped).value)
  {
    match s.op.pc
    case StopOld => StopOldKept(s, dropped);
    case RunStart => RunStartKept(s, dropped);
    case CallWorker => TakeOutKept(s, marks, dropped);
    case _ =>
  }

  lemma LeavesKept(i: L.State, a: L.Action)
    requires Leaves(i) && ByPipeline(a) && L.Step(i, a).Some?
    ensures Leaves(L.Step(i, a).value)
  {
    L.StepKeeps(i, a);
    L.StagesKept(i, a);
    L.StaysCancelled(i, a);
  }

  lemma InstancesKept(s: State, marks: set<Id>, act: Action)
    requires Inv(s, marks) && InstancesInv(s) && Step(s, act).Some?
    ensures InstancesInv(Step(s, act).value)
  {
    match act
    case OpStep(dropped) => OpKept(s, marks, dropped);
    case InstanceStep(id, a, _) => L.StagesKept(s.worker[id], a);
    case LeavingStep(a, _) => LeavesKept(s.leaving.value, a);
    case _ =>
  }

  lemma {:induction false} InstancesRun(s: State, marks: set<Id>, acts: seq<Action>)
    requires Inv(s, marks) && InstancesInv(s) && RunFrom(Step, s, acts).Some?
    ensures InstancesInv(RunFrom(Step, s, acts).value)
    decreases |acts|
  {
    if acts != [] {
      StepKeeps(s, marks, acts[0]);
      InstancesKept(s, marks, acts[0]);
      InstancesRun(Step(s, acts[0]).value, MarksAfter(s, marks, acts[0]), acts[1..]);
    }
  }

  /**
   * An operation never overtakes the stop of the old instance. In every run, faults included, when it goes past
   * that instance all its goroutines are over, the step is the publication of stopped, and if that gets through
   * stopped is stored.
   */
  lemma OldInstanceIsOver(acts: seq<Action>, act: Action)
    requires Run(acts).Some? && Run(acts).value.leaving.Some?
    requires Step(Run(acts).value, act).Some? && Step(Run(acts).value, act).value.leaving.None?
    ensures var s, t := Run(acts).value, Step(Run(acts).value, act).value;
            var i := s.leaving.value;
            && i.web.Exited? && i.det.Exited? && i.stats.StatsExited?
            && L.StopStepFrom(i).Some? && L.StopStepFrom(i).value.posted == i.posted + [L.Stopped]
            && s.op.Busy? && s.op.id in t.db && s.op.id !in t.worker
            && (!DropsPost(act) ==> t.db[s.op.id] == L.Stopped)
  {
    InstancesRun(INIT, {}, acts);
    RunMarks(INIT, {}, acts);
  }

  lemma GoodStep(s: State, act: Action)
    requires Good(s) && Fair(s, act) && Step(s, act).Some?
    ensures Good(Step(s, act).value)
  {
    CleanStep(s, act);
    StepKeeps(s, {}, act);
    InstancesKept(s, {}, act);
  }

  lemma {:induction false} GoodRun(s: State, acts: seq<Action>)
    requires Good(s) && Faultless(s, acts) && RunFrom(Step, s, acts).Some?
    ensures Good(RunFrom(Step, s, acts).value)
    decreases |acts|
  {
    if acts != [] {
      GoodStep(s, acts[0]);
      GoodRun(Step(s, acts[0]).value, acts[1..]);
    }
  }

  /** What the user asked for. */
  predicate Achieved(s: State, kind: Kind, id: Id) {
    match kind
    case Start => id in s.db && id in s.worker && Running(s.worker[id]) && s.worker[id].starter.StartReturned?
    case Stop => id in s.db && s.db[id] == L.Stopped && id !in s.worker
    case Remove => id !in s.db && id !in s.worker
  }

  /** The operation is under way, or over and achieved. */
  predicate Serving(s: State, kind: Kind, id: Id) {
    && id in s.known
    && if s.op.Idle? then Achieved(s, kind, id) else s.op.kind == kind && s.op.id == id
  }

  lemma ServingOp(s: State, kind: Kind, id: Id)
    requires Good(s) && Serving(s, kind, id) && s.op.Busy? && OpStepFrom(s, false).Some?
    ensures Serving(OpStepFrom(s, false).value, kind, id)
  {
    if s.op.pc == RunStart {
      StartStepPublishes(s.worker[id]);
    }
  }

  lemma ServingStep(s: State, kind: Kind, id: Id, act: Action)
    requires Good(s) && Serving(s, kind, id) && Fair(s, act) && !act.Begin? && Step(s, act).Some?
    ensures Serving(Step(s, act).value, kind, id)
  {
    match act
    case OpStep(_) => ServingOp(s, kind, id);
    case InstanceStep(other, a, _) =>
      if other == id && s.op.Idle? {
        RunningStep(s.worker[id], a);
      }
    case _ =>
  }

  lemma {:induction false} ServingRun(s: State, kind: Kind, id: Id, acts: seq<Action>)
    requires Good(s) && Serving(s, kind, id) && Faultless(s, acts) && RunFrom(Step, s, acts).Some?
    requires forall a | a in acts :: !a.Begin?
    ensures Good(RunFrom(Step, s, acts).value) && Serving(RunFrom(Step, s, acts).value, kind, id)
    decreases |acts|
  {
    if acts != [] {
      assert acts[0] in acts && forall a | a in acts[1..] :: a in acts;
      GoodStep(s, acts[0]);
      ServingStep(s, kind, id, acts[0]);
      ServingRun(Step(s, acts[0]).value, kind, id, acts[1..]);
    }
  }

  // ---------- Operations complete ----------

  /** How many more steps an operation needs at most. */
  function Todo(s: State): nat {
    match s.op
    case Idle => 0
    case Busy(_, id, pc) =>
      match pc
      case Mark => 31
      case CallWorker => 30
      case StopOld => if s.leaving.Some? then 6 + L.Remaining(s.leaving.value) else 0
      case Install => 6
      case RunStart => if id in s.worker then L.StartWork(s.worker[id].starter) else 0
      case _ => 1
  }

  /** The next step of an operation; while the old instance stops, that may be one of its pipelines'. */
  function NextStep(s: State): Action {
    if s.leaving.None? || s.leaving.value.stopper.StopNotCalled? || L.NextStep(s.leaving.value).StopStep?
    then OpStep(false) else LeavingStep(L.NextStep(s.leaving.value), false)
  }

  lemma RemainingBounded(i: L.State)
    requires L.OwnStages(i)
    ensures L.Remaining(i) <= 23
  {
  }

  lemma Bounded(s: State)
    requires Good(s)
    ensures Todo(s) <= 31
  {
    if s.leaving.Some? {
      RemainingBounded(s.leaving.value);
    }
  }

  predicate Advances(s: State, act: Action) {
    Fair(s, act) && !act.Begin? && Step(s, act).Some? && Todo(Step(s, act).value) < Todo(s)
  }

  lemma StopAdvances(s: State)
    requires Good(s) && s.op.Busy? && s.op.pc == StopOld
    ensures Advances(s, NextStep(s))
  {
    var i := s.leaving.value;
    if !i.stopper.StopNotCalled? {
      L.NeverStuck(i);
      L.EndingStep(i, L.NextStep(i));
      NextIsOwn(i);
    }
  }

  lemma NextIsOwn(i: L.State)
    ensures L.NextStep(i).StopStep? || ByPipeline(L.NextStep(i))
  {
  }

  lemma StartWorksOff(i: L.State)
    requires L.StartStepFrom(i).Some?
    ensures L.StartWork(L.StartStepFrom(i).value.starter) < L.StartWork(i.starter)
  {
  }

  lemma StartAdvances(s: State)
    requires s.op.Busy? && s.op.pc == RunStart && s.leaving.None?
    requires s.op.id in s.worker && L.StartStepFrom(s.worker[s.op.id]).Some?
    ensures Advances(s, NextStep(s))
  {
    StartWorksOff(s.worker[s.op.id]);
  }

  lemma CallAdvances(s: State)
    requires Good(s) && s.op.Busy? && s.op.pc == CallWorker
    ensures Advances(s, NextStep(s))
  {
    if s.op.id in s.worker {
      RemainingBounded(s.worker[s.op.id]);
    }
  }

  lemma OpAdvances(s: State)
    requires Good(s) && s.op.Busy?
    ensures Advances(s, NextStep(s))
  {
    match s.op.pc
    case StopOld => StopAdvances(s);
    case RunStart =>
      StartStepPublishes(s.worker[s.op.id]);
      StartAdvances(s);
    case CallWorker => CallAdvances(s);
    case _ =>
  }

  lemma {:induction false} FaultlessFirst(s: State, act: Action, rest: seq<Action>)
    requires Fair(s, act) && Step(s, act).Some? && Faultless(Step(s, act).value, rest)
    ensures Faultless(s, [act] + rest)
  {
    assert ([act] + rest)[1..] == rest;
  }

  /** Nobody interferes and nothing fails. */
  ghost predicate Calm(s: State, rest: seq<Action>) {
    Faultless(s, rest) && (forall a | a in rest :: !a.Begin?) && RunFrom(Step, s, rest).Some?
  }

  /** A new instance: at most connecting was posted, and stored then; no pipeline is past its first attempt. */
  predicate New(i: L.State, st: Status) {
    && (Fresh(i) || (i.posted == [L.Connecting] && i.cam == st == L.Connecting))
    && (i.web.NotStarted? || i.web == L.LoopHead(1)) && (i.det.NotStarted? || i.det == L.LoopHead(1))
  }

  /** A start that has not handed over to an older instance. */
  predicate Renews(s: State, id: Id) {
    s.op.Idle? || s.op.pc == RunStart ==> id in s.db && id in s.worker && New(s.worker[id], s.db[id])
  }

  lemma NewStays(i: L.State, db: map<Id, Status>, id: Id)
    requires Fresh(i) || (Running(i) && !i.starter.StartReturned?)
    requires id in db && New(i, db[id]) && L.StartStepFrom(i).Some?
    ensures var j := L.StartStepFrom(i).value; New(j, Ingest(db, id, i, j, false)[id])
  {
    StartStepPublishes(i);
  }

  lemma RenewsStart(s: State, id: Id)
    requires Good(s) && Serving(s, Start, id) && Renews(s, id) && s.op.Busy? && s.op.pc == RunStart
    requires OpStepFrom(s, false).Some?
    ensures Renews(OpStepFrom(s, false).value, id)
  {
    NewStays(s.worker[id], s.db, id);
  }

  lemma RenewsStep(s: State, id: Id)
    requires Good(s) && Serving(s, Start, id) && Renews(s, id) && s.op.Busy? && Step(s, NextStep(s)).Some?
    ensures Renews(Step(s, NextStep(s)).value, id)
  {
    if s.op.pc == RunStart {
      RenewsStart(s, id);
    }
  }

  lemma Completion(s: State, kind: Kind, id: Id) returns (rest: seq<Action>)
    requires Good(s) && Serving(s, kind, id)
    ensures |rest| <= Todo(s) && Calm(s, rest)
    ensures RunFrom(Step, s, rest).value.op.Idle? && Achieved(RunFrom(Step, s, rest).value, kind, id)
    ensures kind == Start && Renews(s, id) ==> Renews(RunFrom(Step, s, rest).value, id)
    decreases Todo(s)
  {
    if s.op.Idle? {
      return [];
    }
    OpAdvances(s);
    var act := NextStep(s);
    GoodStep(s, act);
    ServingStep(s, kind, id, act);
    if kind == Start && Renews(s, id) {
      RenewsStep(s, id);
    }
    rest := Completion(Step(s, act).value, kind, id);
    FaultlessFirst(s, act, rest);
    FirstStep(Step, s, act, rest);
    rest := [act] + rest;
  }

  /**
   * Every operation on an existing camera does what it is for. When none is under way it begins at once; in
   * every faultless run after that it is the one under way until it is over, and then: started, the worker holds
   * a running instance that was not cancelled; stopped, it holds none and stopped is stored; removed, neither
   * row nor instance is left. From every state on the way at most 31 enabled steps complete it.
   */
  lemma OperationAchieves(acts: seq<Action>, kind: Kind, id: Id, more: seq<Action>) returns (rest: seq<Action>)
    requires Faultless(INIT, acts) && Run(acts).Some? && Run(acts).value.op.Idle? && id in Run(acts).value.db
    requires Step(Run(acts).value, Begin(kind, id)).Some? ==> Calm(Step(Run(acts).value, Begin(kind, id)).value, more)
    ensures Step(Run(acts).value, Begin(kind, id)).Some? && Step(Run(acts).value, Begin(kind, id)).value.op.Busy?
    ensures var t := RunFrom(Step, Step(Run(acts).value, Begin(kind, id)).value, more).value;
            && (if t.op.Idle? then Achieved(t, kind, id) else t.op.kind == kind && t.op.id == id)
            && |rest| <= 31 && Calm(t, rest)
            && var end := RunFrom(Step, t, rest).value; end.op.Idle? && Achieved(end, kind, id)
  {
    GoodRun(INIT, acts);
    var s := Run(acts).value;
    var t := Step(s, Begin(kind, id)).value;
    GoodStep(s, Begin(kind, id));
    ServingRun(t, kind, id, more);
    var u := RunFrom(Step, t, more).value;
    Bounded(u);
    rest := Completion(u, kind, id);
  }

  /** At the head of its first attempts, with only connecting posted. */
  predicate JustStarted(i: L.State) {
    && Running(i) && i.starter.StartReturned? && i.posted == [L.Connecting] && i.cam == L.Connecting
    && i.web == L.LoopHead(1) && i.det == L.LoopHead(1)
  }

  /** The first thing a start does is to store connecting. */
  predicate Connects(s: State, id: Id) {
    var t := Step(s, OpStep(false));
    t.Some? && t.value.worker == s.worker && id in t.value.db && t.value.db[id] == L.Connecting
  }

  /**
   * A start stores connecting and replaces the instance, running or not: at most 31 enabled steps lead to a new
   * one, at its first attempts, with connecting stored. Four more make it live, and live is stored.
   */
  lemma StartRenews(acts: seq<Action>, id: Id) returns (rest: seq<Action>)
    requires Faultless(INIT, acts) && Run(acts).Some? && Run(acts).value.op.Idle? && id in Run(acts).value.db
    ensures |rest| <= 31 && Step(Run(acts).value, Begin(Start, id)).Some?
    ensures Connects(Step(Run(acts).value, Begin(Start, id)).value, id)
    ensures var t := Step(Run(acts).value, Begin(Start, id)).value;
            && Calm(t, rest)
            && var end := RunFrom(Step, t, rest).value;
               && end.op.Idle? && id in end.worker && id in end.db
               && JustStarted(end.worker[id]) && end.db[id] == L.Connecting
               && var live := RunFrom(Step, end, Lifted(id, L.ToLive(end.worker[id])));
                  live.Some? && id in live.value.worker && live.value.worker[id].cam == L.Live
                  && id in live.value.db && live.value.db[id] == L.Live
  {
    GoodRun(INIT, acts);
    var s := Run(acts).value;
    var t := Step(s, Begin(Start, id)).value;
    GoodStep(s, Begin(Start, id));
    Bounded(t);
    rest := Completion(t, Start, id);
    var end := RunFrom(Step, t, rest).value;
    NewRuns(end.worker[id], end.db[id]);
    GoesLiveStored(end, id);
  }

  /** A new camera can be created at any time, also while an operation is under way; it is stopped. */
  lemma CreationAtAnyTime(s: State, id: Id)
    requires id !in s.known
    ensures Step(s, Create(id)) == Some(s.(known := s.known + {id}, db := s.db[id := L.Stopped]))
    ensures forall other | other != id :: Same(s, Step(s, Create(id)).value, other)
  {
  }

  /**
   * A call that cannot reach the worker still ends the operation: a start stores error, a stop stores stopped, a
   * removal deletes the row, and the worker's instances are left as they are.
   */
  lemma FailedCallEnds(s: State, dropped: bool)
    requires s.op.Busy? && s.op.pc == CallWorker
    ensures Step(s, CallFails).Some? && Step(Step(s, CallFails).value, OpStep(dropped)).Some?
    ensures var t, id := Step(Step(s, CallFails).value, OpStep(dropped)).value, s.op.id;
            && t.op.Idle? && t.worker == s.worker
            && match s.op.kind
               case Start => id in t.db && t.db[id] == L.Error
               case Stop => id in t.db && t.db[id] == L.Stopped
               case Remove => id !in t.db
  {
  }

  lemma NewRuns(i: L.State, st: Status)
    requires Running(i) && i.starter.StartReturned? && New(i, st)
    ensures JustStarted(i) && st == L.Connecting
  {
  }

  /** Steps of an instance by itself, none of whose POSTs is dropped. */
  function Lifted(id: Id, acts: seq<L.Action>): seq<Action>
    decreases |acts|
  {
    if acts == [] then [] else [InstanceStep(id, acts[0], false)] + Lifted(id, acts[1..])
  }

  /** The stored status after these POSTs. */
  function Stored(st: Status, before: L.State, after: L.State): Status {
    if |after.posted| > |before.posted| then after.posted[|after.posted| - 1] else st
  }

  /** From s to t only this instance ran, and what it posted last is stored. */
  predicate Carries(s: State, t: State, id: Id, i: L.State) {
    && id in s.worker && id in s.db && id in t.db && t.worker == s.worker[id := i]
    && s.worker[id].posted <= i.posted && t.db[id] == Stored(s.db[id], s.worker[id], i)
  }

  lemma LiftedStep(s: State, id: Id, a: L.Action)
    requires id in s.worker && id in s.db && ByPipeline(a) && L.Step(s.worker[id], a).Some?
    ensures Step(s, InstanceStep(id, a, false)).Some?
    ensures Carries(s, Step(s, InstanceStep(id, a, false)).value, id, L.Step(s.worker[id], a).value)
  {
  }

  lemma CarriesOn(s: State, t: State, u: State, id: Id, i: L.State, j: L.State)
    requires Carries(s, t, id, i) && Carries(t, u, id, j)
    ensures Carries(s, u, id, j)
  {
    UpdatedTwice(s.worker, id, i, j);
  }

  lemma UpdatedTwice(m: map<Id, L.State>, id: Id, i: L.State, j: L.State)
    ensures m[id := i][id := j] == m[id := j] && id in m[id := i] && m[id := i][id] == i
  {
  }

  /** What an instance does by itself it does in the whole system, and the last state it posts is stored. */
  lemma {:induction false} LastPostStored(s: State, id: Id, i: L.State, acts: seq<L.Action>)
    requires id in s.worker && id in s.db && i == s.worker[id] && RunFrom(L.Step, i, acts).Some?
    requires forall a | a in acts :: ByPipeline(a)
    ensures RunFrom(Step, s, Lifted(id, acts)).Some?
    ensures Carries(s, RunFrom(Step, s, Lifted(id, acts)).value, id, RunFrom(L.Step, i, acts).value)
    decreases |acts|, 0
  {
    if acts == [] {
      assert s.worker[id := i] == s.worker;
    } else {
      assert acts[0] in acts && forall a | a in acts[1..] :: a in acts;
      var act := InstanceStep(id, acts[0], false);
      LiftedStep(s, id, acts[0]);
      FirstStep(Step, s, act, Lifted(id, acts[1..]));
      assert Lifted(id, acts) == [act] + Lifted(id, acts[1..]);
      CarriedOn(s, Step(s, act).value, id, L.Step(i, acts[0]).value, acts[1..]);
    }
  }

  lemma {:induction false} CarriedOn(s: State, t: State, id: Id, i: L.State, acts: seq<L.Action>)
    requires Carries(s, t, id, i) && RunFrom(L.Step, i, acts).Some? && forall a | a in acts :: ByPipeline(a)
    ensures RunFrom(Step, t, Lifted(id, acts)).Some?
    ensures Carries(s, RunFrom(Step, t, Lifted(id, acts)).value, id, RunFrom(L.Step, i, acts).value)
    decreases |acts|, 1
  {
    LastPostStored(t, id, i, acts);
    CarriesOn(s, t, RunFrom(Step, t, Lifted(id, acts)).value, id, i, RunFrom(L.Step, i, acts).value);
  }

  lemma {:induction false} GoesLiveStored(s: State, id: Id)
    requires id in s.worker && id in s.db && !s.worker[id].ctxDone
    requires s.worker[id].web.LoopHead? && s.worker[id].cam != L.Live
    ensures var live := RunFrom(Step, s, Lifted(id, L.ToLive(s.worker[id])));
            live.Some? && id in live.value.worker && live.value.worker[id].cam == L.Live
            && id in live.value.db && live.value.db[id] == L.Live
  {
    L.AttemptGoesLive(s.worker[id]);
    LastPostStored(s, id, s.worker[id], L.ToLive(s.worker[id]));
  }

  // ---------- A lost POST is never made up for ----------

  /** Live, and the publication over. */
  predicate PastLive(i: L.State) {
    Running(i) && i.starter.StartReturned? && i.cam == L.Live && !L.LivePending(i)
  }

  /** The camera is not being operated on, and its instance will not post any more. */
  predicate Stuck(s: State, id: Id, st: Status) {
    && !Subject(s, id) && id in s.known
    && id in s.db && s.db[id] == st
    && id in s.worker && PastLive(s.worker[id])
  }

  lemma PastLiveStep(i: L.State, a: L.Action)
    requires PastLive(i) && ByPipeline(a) && L.Step(i, a).Some?
    ensures PastLive(L.Step(i, a).value) && !a.LivePublished?
  {
    RunningStep(i, a);
    if !a.LivePublished? {
      QuietStep(i, a);
    }
  }

  lemma StuckInstance(s: State, id: Id, st: Status, act: Action)
    requires Stuck(s, id, st) && act.InstanceStep? && act.id == id && Step(s, act).Some?
    ensures Stuck(Step(s, act).value, id, st)
  {
    PastLiveStep(s.worker[id], act.act);
    InstanceEffect(s, act);
  }

  lemma OtherInstance(s: State, id: Id, act: Action)
    requires act.InstanceStep? && act.id != id && Step(s, act).Some?
    ensures var t := Step(s, act).value; Same(s, t, id) && t.op == s.op && t.known == s.known
  {
  }

  lemma StuckStep(s: State, id: Id, st: Status, act: Action)
    requires Stuck(s, id, st) && Step(s, act).Some? && !(act.Begin? && act.id == id)
    ensures Stuck(Step(s, act).value, id, st)
  {
    if act.OpStep? {
      OpStepOthers(s, {}, act.dropped, id);
      assert OpStepFrom(s, act.dropped).value.known == s.known;
    } else if act.InstanceStep? && act.id == id {
      StuckInstance(s, id, st, act);
    } else if act.InstanceStep? {
      OtherInstance(s, id, act);
    }
  }

  lemma {:induction false} StuckRun(s: State, id: Id, st: Status, acts: seq<Action>)
    requires Stuck(s, id, st) && RunFrom(Step, s, acts).Some?
    requires forall a | a in acts :: !(a.Begin? && a.id == id)
    ensures Stuck(RunFrom(Step, s, acts).value, id, st)
    decreases |acts|
  {
    if acts != [] {
      assert acts[0] in acts && forall a | a in acts[1..] :: a in acts;
      StuckStep(s, id, st, acts[0]);
      StuckRun(Step(s, acts[0]).value, id, st, acts[1..]);
    }
  }

  /**
   * No restart of a pipeline corrects a lost POST of live, however it was lost: from any reachable state in
   * which the instance is live, its publication over and live not stored, whatever runs, faults included, the
   * stored status stays as it is until a user operates on that camera.
   */
  lemma {:induction false} LostPostStays(acts: seq<Action>, id: Id, more: seq<Action>)
    requires Run(acts).Some?
    requires var s := Run(acts).value;
             && id in s.db && id in s.worker && !Subject(s, id)
             && s.worker[id].cam == L.Live && !L.LivePending(s.worker[id]) && s.db[id] != L.Live
    requires forall a | a in more :: !(a.Begin? && a.id == id)
    requires RunFrom(Step, Run(acts).value, more).Some?
    ensures var s, t := Run(acts).value, RunFrom(Step, Run(acts).value, more).value;
            && id in t.db && id in t.worker
            && t.worker[id].cam == L.Live && t.db[id] == s.db[id] != L.Live
  {
    RunMarks(INIT, {}, acts);
    var s := Run(acts).value;
    assert Settled(s, MarksFrom(INIT, {}, acts), id);
    StuckRun(s, id, s.db[id], more);
  }

  /**
   * The assumption on the worker is needed: one start call that does not get through leaves error stored
   * while the worker holds nothing.
   */
  lemma UnreachableWorkerDisagrees(id: Id) returns (acts: seq<Action>)
    ensures Run(acts).Some? && Run(acts).value.op.Idle?
    ensures id in Run(acts).value.db && id !in Run(acts).value.worker && Run(acts).value.db[id] == L.Error
  {
    var s1 := Step(INIT, Create(id)).value;
    var s2 := Step(s1, Begin(Start, id)).value;
    var s3 := Step(s2, OpStep(false)).value;
    var s4 := Step(s3, CallFails).value;
    acts := [OpStep(false)] + [];
    FirstStep(Step, s4, OpStep(false), []);
    FirstStep(Step, s3, CallFails, acts);
    acts := [CallFails] + acts;
    FirstStep(Step, s2, OpStep(false), acts);
    acts := [OpStep(false)] + acts;
    FirstStep(Step, s1, Begin(Start, id), acts);
    acts := [Begin(Start, id)] + acts;
    FirstStep(Step, INIT, Create(id), acts);
    acts := [Create(id)] + acts;
  }

  const RUNNING: L.State := L.State(
    false, L.Connecting, 3, L.StartReturned, L.LoopHead(1), L.LoopHead(1), L.StatsRunning, L.StopNotCalled,
    [L.Connecting], [L.Connecting])

  function Started(id: Id): State { State({id}, map[id := L.Connecting], map[id := RUNNING], None, Idle) }

  /** A start call with connecting stored and its instance in the given state. */
  function Starting(id: Id, i: L.State): State {
    State({id}, map[id := L.Connecting], map[id := i], None,
          if i.starter.StartReturned? then Idle else Busy(Start, id, RunStart))
  }

  lemma {:induction false} OneStartStep(id: Id, i: L.State, rest: seq<Action>)
    requires L.StartStepFrom(i).Some?
    requires var j := L.StartStepFrom(i).value; j.posted == i.posted || j.posted == i.posted + [L.Connecting]
    ensures RunFrom(Step, Starting(id, i), [OpStep(false)] + rest)
            == RunFrom(Step, Starting(id, L.StartStepFrom(i).value), rest)
  {
    var j := L.StartStepFrom(i).value;
    assert Ingest(map[id := L.Connecting], id, i, j, false) == map[id := L.Connecting];
    assert map[id := i][id := j] == map[id := j];
    FirstStep(Step, Starting(id, i), OpStep(false), rest);
  }

  lemma StartRuns(id: Id, rest: seq<Action>) returns (acts: seq<Action>)
    ensures RunFrom(Step, Starting(id, L.INIT), acts) == RunFrom(Step, Started(id), rest)
  {
    var i1 := L.StartStepFrom(L.INIT).value;
    var i2 := L.StartStepFrom(i1).value;
    var i3 := L.StartStepFrom(i2).value;
    var i4 := L.StartStepFrom(i3).value;
    assert i2.posted == [L.Connecting] && i2.initiated == [L.Connecting];
    OneStartStep(id, i4, rest);
    acts := [OpStep(false)] + rest;
    OneStartStep(id, i3, acts);
    acts := [OpStep(false)] + acts;
    OneStartStep(id, i2, acts);
    acts := [OpStep(false)] + acts;
    OneStartStep(id, i1, acts);
    acts := [OpStep(false)] + acts;
    OneStartStep(id, L.INIT, acts);
    acts := [OpStep(false)] + acts;
  }

  lemma StartedIsReachable(id: Id, rest: seq<Action>) returns (acts: seq<Action>)
    ensures Run(acts) == RunFrom(Step, Started(id), rest)
  {
    acts := StartRuns(id, rest);
    var s1 := Step(INIT, Create(id)).value;
    var s2 := Step(s1, Begin(Start, id)).value;
    var s3 := Step(s2, OpStep(false)).value;
    assert Step(s3, OpStep(false)).value == Starting(id, L.INIT);
    FirstStep(Step, s3, OpStep(false), acts);
    acts := [OpStep(false)] + acts;
    FirstStep(Step, s2, OpStep(false), acts);
    acts := [OpStep(false)] + acts;
    FirstStep(Step, s1, Begin(Start, id), acts);
    acts := [Begin(Start, id)] + acts;
    FirstStep(Step, INIT, Create(id), acts);
    acts := [Create(id)] + acts;
  }

  /**
   * So is the assumption on POSTs. A POST of live that is refused on all its attempts, or skipped by a panic
   * before it, leaves connecting stored; by LostPostStays it remains stored.
   */
  lemma LostPostDisagrees(id: Id, byPanic: bool) returns (acts: seq<Action>)
    ensures Run(acts).Some? && Run(acts).value.op.Idle? && id in Run(acts).value.worker && id in Run(acts).value.db
    ensures !L.LivePending(Run(acts).value.worker[id])
    ensures Run(acts).value.db[id] == L.Connecting && Run(acts).value.worker[id].cam == L.Live
    ensures !byPanic ==> Run(acts).value.worker[id].posted == [L.Connecting, L.Live]
  {
    acts := StartedIsReachable(id, LiveNotStored(id, byPanic));
    LiveIsNotStored(id, byPanic);
  }

  function WentLive(id: Id): State {
    Started(id).(worker := map[id := RUNNING.(cam := L.Live, web := L.InOp(1, L.PublishLive))])
  }

  function WebRTCStep(id: Id, act: L.Action): Action { InstanceStep(id, act, false) }

  /** From the started camera to the lost POST. */
  function LiveNotStored(id: Id, byPanic: bool): seq<Action> {
    [WebRTCStep(id, L.Head(L.WebRTC))] + ([WebRTCStep(id, L.StreamCreated(true))] + ([WebRTCStep(id, L.LiveRegion)]
      + ([Losing(id, byPanic)] + [])))
  }

  function Losing(id: Id, byPanic: bool): Action {
    if byPanic then InstanceStep(id, L.Panic(L.WebRTC), false) else InstanceStep(id, L.LivePublished, true)
  }

  function NotStored(id: Id, byPanic: bool): State {
    Started(id).(worker := map[id := if byPanic then RUNNING.(cam := L.Live, web := L.Waiting(1))
      else RUNNING.(cam := L.Live, web := L.InOp(1, L.RunStream), initiated := LIVE_POSTED, posted := LIVE_POSTED)])
  }

  const LIVE_POSTED: seq<L.CameraState> := [L.Connecting, L.Live]

  lemma LosingStep(id: Id, byPanic: bool)
    ensures Step(WentLive(id), Losing(id, byPanic)) == Some(NotStored(id, byPanic))
  {
    assert [L.Connecting] + [L.Live] == LIVE_POSTED;
    var s := WentLive(id);
    var i := L.Step(s.worker[id], Losing(id, byPanic).act).value;
    assert i == NotStored(id, byPanic).worker[id];
    assert s.worker[id := i] == map[id := i];
  }

  lemma LiveIsNotStored(id: Id, byPanic: bool)
    ensures RunFrom(Step, Started(id), LiveNotStored(id, byPanic)) == Some(NotStored(id, byPanic))
  {
    GoesLive(id, [Losing(id, byPanic)] + []);
    LosingStep(id, byPanic);
    FirstStep(Step, WentLive(id), Losing(id, byPanic), []);
  }

  lemma {:induction false} GoesLive(id: Id, rest: seq<Action>)
    ensures RunFrom(Step, Started(id), [WebRTCStep(id, L.Head(L.WebRTC))] + ([WebRTCStep(id, L.StreamCreated(true))]
              + ([WebRTCStep(id, L.LiveRegion)] + rest)))
            == RunFrom(Step, WentLive(id), rest)
  {
    var s1 := Started(id).(worker := map[id := RUNNING.(web := L.InOp(1, L.NewStream))]);
    var s2 := Started(id).(worker := map[id := RUNNING.(web := L.InOp(1, L.SetLive))]);
    OneInstanceStep(id, RUNNING, L.Head(L.WebRTC));
    OneInstanceStep(id, RUNNING.(web := L.InOp(1, L.NewStream)), L.StreamCreated(true));
    OneInstanceStep(id, RUNNING.(web := L.InOp(1, L.SetLive)), L.LiveRegion);
    var last := [WebRTCStep(id, L.LiveRegion)] + rest;
    FirstStep(Step, s2, WebRTCStep(id, L.LiveRegion), rest);
    FirstStep(Step, s1, WebRTCStep(id, L.StreamCreated(true)), last);
    FirstStep(Step, Started(id), WebRTCStep(id, L.Head(L.WebRTC)), [WebRTCStep(id, L.StreamCreated(true))] + last);
  }

  lemma OneInstanceStep(id: Id, i: L.State, act: L.Action)
    requires ByPipeline(act) && L.Step(i, act).Some? && L.Step(i, act).value.posted == i.posted
    ensures var s := Started(id).(worker := map[id := i]);
            Step(s, WebRTCStep(id, act)) == Some(s.(worker := map[id := L.Step(i, act).value]))
  {
    assert map[id := i][id := L.Step(i, act).value] == map[id := L.Step(i, act).value];
  }
}
