/**
 * The map of running cameras: worker/internal/camera/manager.go. Calls run concurrently; an atomic step is
 * one region under the manager's lock, the beginning or the end of one stop(), or one start().
 */
module Manager {
  import opened Common

  type Id = string
  /** Instances are numbered in the order they are created. */
  type InstId = nat

  function Find(cams: map<Id, InstId>, id: Id): Option<InstId> {
    if id in cams then Some(cams[id]) else None
  }

  // What the regions under the lock do to the map; the interleavings below take these as their steps.

  function TakenOut(cams: map<Id, InstId>, id: Id): map<Id, InstId> { cams - {id} }

  /** An entry already there is overwritten. */
  function Installed(cams: map<Id, InstId>, id: Id, newCam: InstId): map<Id, InstId> { cams[id := newCam] }

  /** Every instance is in one entry at most. */
  predicate OneEntryEach(cams: map<Id, InstId>) {
    forall i, j | i in cams && j in cams && i != j :: cams[i] != cams[j]
  }

  /** The lock regions. */
  class Manager {
    var cameras: map<Id, InstId>

    constructor ()
      ensures cameras == map[]
    {
      cameras := map[];
    }

    /** First region of Start: take out a running instance, or install a fresh one at once. */
    method StartRegion(id: Id, newCam: InstId) returns (existing: Option<InstId>)
      modifies this
      ensures existing == Find(old(cameras), id)
      ensures cameras == if existing.Some? then TakenOut(old(cameras), id) else Installed(old(cameras), id, newCam)
    {
      if id in cameras {
        existing := Some(cameras[id]);
        cameras := cameras - {id};
      } else {
        existing := None;
        cameras := cameras[id := newCam];
      }
    }

    /** Second region of Start, after the old instance stopped. What it loses is the entry it finds, if any. */
    method InstallRegion(id: Id, newCam: InstId)
      modifies this
      ensures cameras == Installed(old(cameras), id, newCam)
      ensures OneEntryEach(old(cameras)) ==>
                old(cameras).Values - cameras.Values
                == match Find(old(cameras), id) case None => {} case Some(n) => {n} - {newCam}
    {
      ghost var before := cameras;
      cameras := cameras[id := newCam];
      if OneEntryEach(before) {
        LostByInstall(before, id, newCam);
      }
    }

    method StopRegion(id: Id) returns (cam: Option<InstId>)
      modifies this
      ensures cam == Find(old(cameras), id) && cameras == TakenOut(old(cameras), id)
    {
      cam := None;
      if id in cameras {
        cam := Some(cameras[id]);
        cameras := cameras - {id};
      }
      assert cam.None? ==> cameras == TakenOut(old(cameras), id);
    }

    method StopAllRegion() returns (cams: set<InstId>)
      modifies this
      ensures cams == old(cameras).Values && cameras == map[]
    {
      cams := {};
      var todo := cameras.Keys;
      while todo != {}
        invariant todo <= cameras.Keys && cameras == old(cameras)
        invariant cams <= cameras.Values
        invariant forall id | id in cameras.Keys - todo :: cameras[id] in cams
      {
        var id :| id in todo;
        cams := cams + {cameras[id]};
        todo := todo - {id};
      }
      forall n | n in cameras.Values ensures n in cams {
        var id :| id in cameras && cameras[id] == n;
        assert id in cameras.Keys - todo;
      }
      cameras := map[];
    }
  }

  lemma LostByInstall(cams: map<Id, InstId>, id: Id, newCam: InstId)
    requires OneEntryEach(cams)
    ensures cams.Values - Installed(cams, id, newCam).Values
            == match Find(cams, id) case None => {} case Some(n) => {n} - {newCam}
  {
    var after := Installed(cams, id, newCam);
    forall n ensures n in cams.Values && n !in after.Values <==> Find(cams, id) == Some(n) && n != newCam {
      if n in cams.Values {
        var i :| i in cams && cams[i] == n;
        assert i != id ==> after[i] == n;
        if id in cams && cams[id] == n && n in after.Values {
          var j :| j in after && after[j] == n;
        }
      }
      assert after[id] == newCam;
    }
  }

  // ---------- Interleavings ----------

  datatype Inst = Inst(id: Id, starts: nat, stopsBegun: nat, stopsDone: nat)

  datatype Call = Start(id: Id) | Stop(id: Id) | StopAll

  /** claimed: taken out of the map, stop() not begun; running: inside stop(). */
  datatype Pc =
    | Entry
    | Stopping(claimed: set<InstId>, running: set<InstId>)
    | Installing
    | Starting(inst: InstId)
    | Returned

  datatype Thread = Thread(call: Call, pc: Pc)

  datatype State = State(cams: map<Id, InstId>, insts: seq<Inst>, threads: seq<Thread>)

  datatype Action =
    | Begin(call: Call, rtspUrl: string)
    | Advance(t: nat)
    | BeginStopOf(t: nat, n: InstId)
    | EndStopOf(t: nat, n: InstId)

  const INIT: State := State(map[], [], [])

  function At(s: State, t: nat, pc: Pc): State
    requires t < |s.threads|
  {
    s.(threads := s.threads[t := s.threads[t].(pc := pc)])
  }

  /** A fresh instance enters the map; start() is called outside the lock. */
  function InstallFresh(s: State, t: nat, id: Id): State
    requires t < |s.threads|
  {
    var n := |s.insts|;
    At(s, t, Starting(n)).(cams := Installed(s.cams, id, n), insts := s.insts + [Inst(id, 0, 0, 0)])
  }

  function AdvanceFrom(s: State, t: nat): Option<State>
    requires t < |s.threads|
  {
    var th := s.threads[t];
    match th.pc
    case Entry => (
      match th.call
      case Start(id) =>
        if id in s.cams then Some(At(s, t, Stopping({s.cams[id]}, {})).(cams := TakenOut(s.cams, id)))
        else Some(InstallFresh(s, t, id))
      case Stop(id) =>
        if id in s.cams then Some(At(s, t, Stopping({s.cams[id]}, {})).(cams := TakenOut(s.cams, id)))
        else Some(At(s, t, Returned))
      case StopAll => Some(At(s, t, Stopping(s.cams.Values, {})).(cams := map[]))
    )
    case Stopping(claimed, running) =>
      if claimed == {} && running == {}
      then Some(At(s, t, if th.call.Start? then Installing else Returned)) else None
    case Installing => if th.call.Start? then Some(InstallFresh(s, t, th.call.id)) else None
    case Starting(n) =>
      if n < |s.insts|
      then Some(At(s, t, Returned).(insts := s.insts[n := s.insts[n].(starts := s.insts[n].starts + 1)])) else None
    case Returned => None
  }

  function Step(s: State, act: Action): Option<State> {
    match act
    case Begin(call, rtspUrl) =>
      // Start refuses an empty id or an empty URL.
      var refused := call.Start? && (call.id == "" || rtspUrl == "");
      Some(s.(threads := s.threads + [Thread(call, if refused then Returned else Entry)]))
    case Advance(t) => if t < |s.threads| then AdvanceFrom(s, t) else None
    case BeginStopOf(t, n) =>
      if t < |s.threads| && n < |s.insts| && s.threads[t].pc.Stopping? && n in s.threads[t].pc.claimed then
        var pc := s.threads[t].pc;
        Some(At(s, t, Stopping(pc.claimed - {n}, pc.running + {n})).(
          insts := s.insts[n := s.insts[n].(stopsBegun := s.insts[n].stopsBegun + 1)]))
      else None
    case EndStopOf(t, n) =>
      if t < |s.threads| && n < |s.insts| && s.threads[t].pc.Stopping? && n in s.threads[t].pc.running then
        var pc := s.threads[t].pc;
        Some(At(s, t, Stopping(pc.claimed, pc.running - {n})).(
          insts := s.insts[n := s.insts[n].(stopsDone := s.insts[n].stopsDone + 1)]))
      else None
  }

  function Run(acts: seq<Action>): Option<State> {
    RunFrom(Step, INIT, acts)
  }

  // ---------- What every interleaving keeps ----------

  predicate Claims(th: Thread, n: InstId) { th.pc.Stopping? && n in th.pc.claimed }
  predicate Stops(th: Thread, n: InstId) { th.pc.Stopping? && n in th.pc.running }
  predicate Holds(th: Thread, n: InstId) { Claims(th, n) || Stops(th, n) }

  /** A call for one id. */
  predicate For(th: Thread, id: Id) { th.call.StopAll? || th.call.id == id }

  predicate InMap(s: State, n: InstId) {
    n < |s.insts| && s.insts[n].id in s.cams && s.cams[s.insts[n].id] == n
  }

  /** Every entry is keyed by its own id, and stop() of its instance has not begun. */
  predicate MapInv(s: State) {
    forall id | id in s.cams ::
      s.cams[id] < |s.insts| && s.insts[s.cams[id]].id == id && s.insts[s.cams[id]].stopsBegun == 0
  }

  predicate InstInv(s: State) {
    forall n | 0 <= n < |s.insts| :: s.insts[n].stopsDone <= s.insts[n].stopsBegun <= 1
  }

  ghost predicate ThreadInv(s: State, th: Thread) {
    && (forall n: nat | Claims(th, n) ::
          n < |s.insts| && For(th, s.insts[n].id) && s.insts[n].stopsBegun == 0 && !InMap(s, n))
    && (forall n: nat | Stops(th, n) ::
          n < |s.insts| && For(th, s.insts[n].id) && s.insts[n].stopsBegun == 1 && s.insts[n].stopsDone == 0)
    && (th.pc.Starting? ==> th.call.Start? && th.pc.inst < |s.insts| && s.insts[th.pc.inst].id == th.call.id)
    && (th.pc.Installing? ==> th.call.Start?)
  }

  /** No two threads hold one instance. */
  ghost predicate Exclusive(s: State) {
    forall t, u, n: nat | 0 <= t < |s.threads| && 0 <= u < |s.threads| && t != u && Holds(s.threads[t], n) ::
      !Holds(s.threads[u], n)
  }

  ghost predicate Inv(s: State) {
    && MapInv(s) && InstInv(s) && Exclusive(s)
    && (forall t | 0 <= t < |s.threads| :: ThreadInv(s, s.threads[t]))
  }

  /** The steps that only claim, or move on after the claimed instances stopped. */
  lemma ClaimKeeps(s: State, t: nat)
    requires Inv(s) && t < |s.threads| && AdvanceFrom(s, t).Some?
    requires |AdvanceFrom(s, t).value.insts| == |s.insts| && !s.threads[t].pc.Starting?
    ensures Inv(AdvanceFrom(s, t).value)
  {
    var s' := AdvanceFrom(s, t).value;
    assert s'.insts == s.insts;
    forall u | 0 <= u < |s.threads| ensures ThreadInv(s', s'.threads[u]) {
      assert ThreadInv(s, s.threads[u]);
    }
    ClaimExclusive(s, t);
  }

  lemma ClaimExclusive(s: State, t: nat)
    requires Inv(s) && t < |s.threads| && AdvanceFrom(s, t).Some? && !s.threads[t].pc.Starting?
    ensures Exclusive(AdvanceFrom(s, t).value)
  {
    var s' := AdvanceFrom(s, t).value;
    forall u, n: nat | 0 <= u < |s.threads| && u != t && Holds(s'.threads[t], n) ensures !Holds(s'.threads[u], n) {
      if !Holds(s.threads[t], n) {
        assert InMap(s, n);
        assert ThreadInv(s, s.threads[u]);
      }
    }
  }

  lemma InstallKeeps(s: State, t: nat, id: Id)
    requires Inv(s) && t < |s.threads| && s.threads[t].call == Start(id) && !s.threads[t].pc.Stopping?
    ensures Inv(InstallFresh(s, t, id))
  {
  }

  lemma StartKeeps(s: State, t: nat)
    requires Inv(s) && t < |s.threads| && s.threads[t].pc.Starting?
    ensures AdvanceFrom(s, t).Some? && Inv(AdvanceFrom(s, t).value)
  {
  }

  lemma AdvanceKeeps(s: State, t: nat)
    requires Inv(s) && t < |s.threads| && AdvanceFrom(s, t).Some?
    ensures Inv(AdvanceFrom(s, t).value)
  {
    var th := s.threads[t];
    if th.pc.Starting? {
      StartKeeps(s, t);
    } else if th.pc.Installing? || (th.pc.Entry? && th.call.Start? && th.call.id !in s.cams) {
      InstallKeeps(s, t, th.call.id);
    } else {
      ClaimKeeps(s, t);
    }
  }

  lemma StopOfKeeps(s: State, act: Action)
    requires Inv(s) && (act.BeginStopOf? || act.EndStopOf?) && Step(s, act).Some?
    ensures Inv(Step(s, act).value)
  {
    var s' := Step(s, act).value;
    assert ThreadInv(s, s.threads[act.t]);
    assert forall m: nat :: InMap(s', m) <==> InMap(s, m);
    assert Exclusive(s');
    forall u | 0 <= u < |s.threads| ensures ThreadInv(s', s'.threads[u]) {
      StopOfThread(s, act, u);
    }
  }

  lemma StopOfThread(s: State, act: Action, u: nat)
    requires Inv(s) && (act.BeginStopOf? || act.EndStopOf?) && Step(s, act).Some? && u < |s.threads|
    ensures ThreadInv(Step(s, act).value, Step(s, act).value.threads[u])
  {
    var s' := Step(s, act).value;
    assert ThreadInv(s, s.threads[act.t]) && ThreadInv(s, s.threads[u]);
    var was, th := s.threads[u], s'.threads[u];
    forall n: nat | Claims(th, n)
      ensures n < |s'.insts| && For(th, s'.insts[n].id) && s'.insts[n].stopsBegun == 0 && !InMap(s', n)
    {
      assert Claims(was, n) && (u != act.t ==> !Holds(was, act.n));
    }
    forall n: nat | Stops(th, n)
      ensures n < |s'.insts| && For(th, s'.insts[n].id) && s'.insts[n].stopsBegun == 1 && s'.insts[n].stopsDone == 0
    {
      assert u != act.t ==> Stops(was, n) && !Holds(was, act.n);
      assert u == act.t ==> Stops(was, n) || (act.BeginStopOf? && n == act.n);
    }
  }

  lemma StepKeeps(s: State, act: Action)
    requires Inv(s) && Step(s, act).Some?
    ensures Inv(Step(s, act).value)
  {
    match act
    case Begin(call, _) =>
      var s' := Step(s, act).value;
      forall u | 0 <= u < |s'.threads| ensures ThreadInv(s', s'.threads[u]) {
        assert u < |s.threads| ==> ThreadInv(s, s.threads[u]);
      }
    case Advance(t) => AdvanceKeeps(s, t);
    case _ => StopOfKeeps(s, act);
  }

  lemma Reachable(acts: seq<Action>)
    requires Run(acts).Some?
    ensures Inv(Run(acts).value)
  {
    forall s, act | Inv(s) && Step(s, act).Some? ensures Inv(Step(s, act).value) {
      StepKeeps(s, act);
    }
    RunKeeps(Step, Inv, INIT, acts);
  }

  /**
   * Under every interleaving of calls: each entry of the map is keyed by its own id and its instance has
   * not begun to stop and is claimed by nobody; stop() runs at most once per instance; an instance is
   * claimed or being stopped by at most one call, and only by one for its own id.
   */
  lemma EveryInterleaving(acts: seq<Action>, n: InstId)
    requires Run(acts).Some? && n < |Run(acts).value.insts|
    ensures var s := Run(acts).value;
            && (forall id | id in s.cams ::
                  s.cams[id] < |s.insts| && s.insts[s.cams[id]].id == id && s.insts[s.cams[id]].stopsBegun == 0)
            && s.insts[n].stopsBegun <= 1
            && (InMap(s, n) ==> forall t | 0 <= t < |s.threads| :: !Holds(s.threads[t], n))
            && (forall t | 0 <= t < |s.threads| && Holds(s.threads[t], n) :: For(s.threads[t], s.insts[n].id))
            && (forall t, u | 0 <= t < u < |s.threads| :: !(Holds(s.threads[t], n) && Holds(s.threads[u], n)))
  {
    Reachable(acts);
    var s := Run(acts).value;
    forall t | 0 <= t < |s.threads|
      ensures InMap(s, n) ==> !Holds(s.threads[t], n)
      ensures Holds(s.threads[t], n) ==> For(s.threads[t], s.insts[n].id)
    {
      assert ThreadInv(s, s.threads[t]);
    }
  }

  /** An instance that left the map never re-enters, whatever runs afterwards. */
  lemma {:induction false} NeverReenters(s: State, acts: seq<Action>, n: InstId)
    requires n < |s.insts| && !InMap(s, n) && RunFrom(Step, s, acts).Some?
    ensures n < |RunFrom(Step, s, acts).value.insts| && !InMap(RunFrom(Step, s, acts).value, n)
    decreases |acts|
  {
    if acts != [] {
      var t := Step(s, acts[0]).value;
      assert n < |t.insts| && t.insts[n].id == s.insts[n].id;
      NeverReenters(t, acts[1..], n);
    }
  }

  /** The call that takes a step. */
  predicate TakenBy(s: State, act: Action, th: Thread) {
    !act.Begin? && act.t < |s.threads| && s.threads[act.t] == th
  }

  /** A step of a call for one id leaves every other id's entry and instances alone. */
  lemma OtherIdsUntouched(acts: seq<Action>, act: Action, th: Thread, other: Id)
    requires Run(acts).Some? && Step(Run(acts).value, act).Some?
    requires TakenBy(Run(acts).value, act, th) && !For(th, other)
    ensures var s, s' := Run(acts).value, Step(Run(acts).value, act).value;
            && Find(s'.cams, other) == Find(s.cams, other)
            && |s.insts| <= |s'.insts|
            && (forall n | 0 <= n < |s.insts| && s.insts[n].id == other :: s'.insts[n] == s.insts[n])
            && (forall n | |s.insts| <= n < |s'.insts| :: s'.insts[n].id != other)
  {
    Reachable(acts);
    assert ThreadInv(Run(acts).value, th);
  }

  // ---------- What a call has done when it returns ----------

  /** Call t has taken instance n out to stop it, and goes on only when that is done. */
  predicate TakesDown(s: State, t: nat, n: InstId) {
    && t < |s.threads| && n < |s.insts|
    && (s.insts[n].stopsDone == 1 || Holds(s.threads[t], n))
  }

  lemma TakesDownStep(s: State, act: Action, t: nat, n: InstId)
    requires Inv(s) && TakesDown(s, t, n) && Step(s, act).Some?
    ensures TakesDown(Step(s, act).value, t, n)
  {
    assert ThreadInv(s, s.threads[t]);
    if act.EndStopOf? {
      assert ThreadInv(s, s.threads[act.t]);
    }
  }

  lemma {:induction false} TakesDownRun(s: State, acts: seq<Action>, t: nat, n: InstId)
    requires Inv(s) && TakesDown(s, t, n) && RunFrom(Step, s, acts).Some?
    ensures TakesDown(RunFrom(Step, s, acts).value, t, n)
    decreases |acts|
  {
    if acts != [] {
      StepKeeps(s, acts[0]);
      TakesDownStep(s, acts[0], t, n);
      TakesDownRun(Step(s, acts[0]).value, acts[1..], t, n);
    }
  }

  lemma EntryTakes(s: State, t: nat, n: InstId)
    requires Inv(s) && t < |s.threads| && s.threads[t].pc.Entry? && InMap(s, n) && For(s.threads[t], s.insts[n].id)
    ensures Step(s, Advance(t)).Some?
    ensures TakesDown(Step(s, Advance(t)).value, t, n) && !InMap(Step(s, Advance(t)).value, n)
  {
  }

  /**
   * Every call stops what it finds: a Start or Stop the instance of its id, a StopAll every instance of the map.
   * Its first step takes them out, they never come back, and however other calls interleave, once it is past
   * stopping, and in particular when it has returned, stop() of each of them has returned.
   */
  lemma {:induction false} CallStopsWhatItFinds(acts: seq<Action>, t: nat, n: InstId, more: seq<Action>)
    requires Run(acts).Some? && t < |Run(acts).value.threads| && Run(acts).value.threads[t].pc.Entry?
    requires InMap(Run(acts).value, n) && For(Run(acts).value.threads[t], Run(acts).value.insts[n].id)
    ensures Step(Run(acts).value, Advance(t)).Some?
    ensures var z := RunFrom(Step, Step(Run(acts).value, Advance(t)).value, more);
            z.Some? ==>
              && !InMap(z.value, n) && t < |z.value.threads| && n < |z.value.insts|
              && (!z.value.threads[t].pc.Stopping? ==> z.value.insts[n].stopsDone == 1)
  {
    Reachable(acts);
    var s := Run(acts).value;
    EntryTakes(s, t, n);
    StepKeeps(s, Advance(t));
    if RunFrom(Step, Step(s, Advance(t)).value, more).Some? {
      TakesDownRun(Step(s, Advance(t)).value, more, t, n);
      NeverReenters(Step(s, Advance(t)).value, more, n);
    }
  }

  /** How many steps of its own a call past its first region needs. */
  function Left(th: Thread): nat {
    match th.pc
    case Entry => 0
    case Stopping(claimed, running) => 2 * |claimed| + |running| + 3
    case Installing => 2
    case Starting(_) => 1
    case Returned => 0
  }

  predicate Own(t: nat, rest: seq<Action>) { forall a | a in rest :: !a.Begin? && a.t == t }

  /** What the rest of a call past its first region does to the map and to its own instance. */
  predicate Finishes(s: State, t: nat, z: State)
    requires t < |s.threads|
  {
    && t < |z.threads| && z.threads[t] == s.threads[t].(pc := Returned) && |s.insts| <= |z.insts|
    && match s.threads[t].pc
       case Starting(n) =>
         z.cams == s.cams && n < |s.insts| && z.insts[n].starts == s.insts[n].starts + 1
       case Returned => z == s
       case _ =>
         if s.threads[t].call.Start? then
           && z.cams == Installed(s.cams, s.threads[t].call.id, |s.insts|)
           && |s.insts| < |z.insts| && z.insts[|s.insts|].starts == 1
         else z.cams == s.cams
  }

  /** Call t has gone on by one step of its own. */
  predicate GoneOn(s: State, t: nat, z: State)
    requires t < |s.threads|
  {
    && t < |z.threads| && z.threads[t].call == s.threads[t].call && Left(z.threads[t]) < Left(s.threads[t])
    && match s.threads[t].pc
       case Starting(n) =>
         && z.threads[t].pc.Returned? && z.cams == s.cams && n < |s.insts| == |z.insts|
         && z.insts[n].starts == s.insts[n].starts + 1
       case Installing =>
         && z.threads[t].pc == Starting(|s.insts|) && s.threads[t].call.Start?
         && z.cams == Installed(s.cams, s.threads[t].call.id, |s.insts|)
         && |z.insts| == |s.insts| + 1 && z.insts[|s.insts|].starts == 0
       case _ =>
         && z.cams == s.cams && |z.insts| == |s.insts|
         && (z.threads[t].pc.Stopping?
             || z.threads[t].pc == if s.threads[t].call.Start? then Installing else Returned)
  }

  /** One step of its own takes a call on. */
  lemma OwnStep(s: State, t: nat) returns (act: Action)
    requires Inv(s) && t < |s.threads| && !s.threads[t].pc.Entry? && !s.threads[t].pc.Returned?
    ensures !act.Begin? && act.t == t && Step(s, act).Some? && GoneOn(s, t, Step(s, act).value)
  {
    var pc := s.threads[t].pc;
    assert ThreadInv(s, s.threads[t]);
    if pc.Stopping? && pc.claimed != {} {
      var n :| n in pc.claimed;
      assert Claims(s.threads[t], n);
      BeginsOne(s, t, n);
      act := BeginStopOf(t, n);
    } else if pc.Stopping? && pc.running != {} {
      var n :| n in pc.running;
      assert Stops(s.threads[t], n);
      act := EndStopOf(t, n);
    } else {
      act := Advance(t);
    }
  }

  lemma BeginsOne(s: State, t: nat, n: InstId)
    requires t < |s.threads| && n < |s.insts| && Claims(s.threads[t], n)
    ensures Step(s, BeginStopOf(t, n)).Some? && GoneOn(s, t, Step(s, BeginStopOf(t, n)).value)
  {
  }

  /** Left to itself a call returns, in a bounded number of steps of its own that are all enabled. */
  lemma CallFinishes(s: State, t: nat) returns (rest: seq<Action>)
    requires Inv(s) && t < |s.threads| && !s.threads[t].pc.Entry?
    ensures |rest| <= Left(s.threads[t]) && Own(t, rest)
    ensures RunFrom(Step, s, rest).Some? && Finishes(s, t, RunFrom(Step, s, rest).value)
    decreases Left(s.threads[t])
  {
    if s.threads[t].pc.Returned? {
      return [];
    }
    var act := OwnStep(s, t);
    StepKeeps(s, act);
    var z := Step(s, act).value;
    rest := CallFinishes(z, t);
    FirstStep(Step, s, act, rest);
    rest := [act] + rest;
  }

  /** What a call is for: s before it, z when it has returned. */
  predicate Done(s: State, call: Call, z: State) {
    && (forall n | 0 <= n < |s.insts| && InMap(s, n) && For(Thread(call, Returned), s.insts[n].id) ::
          n < |z.insts| && z.insts[n].stopsDone == 1)
    && match call
       case Start(id) => id in z.cams && |s.insts| <= z.cams[id] < |z.insts| && z.insts[z.cams[id]].starts == 1
       case Stop(id) => z.cams == TakenOut(s.cams, id)
       case StopAll => z.cams == map[]
  }

  lemma EntryStep(s: State, t: nat)
    requires Inv(s) && t < |s.threads| && s.threads[t].pc.Entry?
    ensures Step(s, Advance(t)).Some?
    ensures var z, call := Step(s, Advance(t)).value, s.threads[t].call;
            && t < |z.threads| && z.threads[t].call == call && !z.threads[t].pc.Entry?
            && Left(z.threads[t]) <= 2 * |s.cams| + 3
            && match call
               case Start(id) =>
                 if id in s.cams then z.threads[t].pc.Stopping? && |z.insts| == |s.insts|
                 else && z.threads[t].pc == Starting(|s.insts|) && z.cams == Installed(s.cams, id, |s.insts|)
                      && |z.insts| == |s.insts| + 1 && z.insts[|s.insts|].starts == 0
               case Stop(id) => z.cams == TakenOut(s.cams, id) && (z.threads[t].pc.Stopping? || z.threads[t].pc.Returned?)
               case StopAll => z.cams == map[] && z.threads[t].pc.Stopping?
  {
  }

  lemma SubsetSize(a: set<InstId>, b: set<InstId>)
    requires a <= b
    ensures |a| <= |b|
    decreases a
  {
    if a != {} {
      var n :| n in a;
      SubsetSize(a - {n}, b - {n});
    }
  }

  /**
   * Every call does what it is for: from every reachable state, a call that is not refused returns after a
   * bounded number of steps, all its own and all enabled. Start has then put a fresh, started instance under its
   * id, Stop has removed its entry, StopAll has emptied the map, and the instances they found have stopped.
   */
  lemma CallDoes(acts: seq<Action>, call: Call, url: string) returns (rest: seq<Action>)
    requires Run(acts).Some? && (call.Start? ==> call.id != "" && url != "")
    ensures |rest| <= 2 * |Run(acts).value.cams| + 4 && Own(|Run(acts).value.threads|, rest)
    ensures var s := Run(acts).value;
            var z := RunFrom(Step, s, [Begin(call, url)] + rest);
            && z.Some? && |z.value.threads| == |s.threads| + 1
            && z.value.threads[|s.threads|] == Thread(call, Returned)
            && Done(s, call, z.value)
  {
    Reachable(acts);
    var s, t := Run(acts).value, |Run(acts).value.threads|;
    var s1 := Step(s, Begin(call, url)).value;
    StepKeeps(s, Begin(call, url));
    EntryStep(s1, t);
    StepKeeps(s1, Advance(t));
    var s2 := Step(s1, Advance(t)).value;
    var own := CallFinishes(s2, t);
    var z := RunFrom(Step, s2, own).value;
    rest := [Advance(t)] + own;
    FirstStep(Step, s1, Advance(t), own);
    FirstStep(Step, s, Begin(call, url), rest);
    forall n: nat | n < |s.insts| && InMap(s, n) && For(Thread(call, Returned), s.insts[n].id)
      ensures n < |z.insts| && z.insts[n].stopsDone == 1
    {
      EntryTakes(s1, t, n);
      TakesDownRun(s2, own, t, n);
    }
    OwnThreads(s2, t, own);
  }

  lemma {:induction false} OwnThreads(s: State, t: nat, rest: seq<Action>)
    requires Own(t, rest) && RunFrom(Step, s, rest).Some?
    ensures |RunFrom(Step, s, rest).value.threads| == |s.threads|
    decreases |rest|
  {
    if rest != [] {
      assert rest[0] in rest && forall a | a in rest[1..] :: a in rest;
      OwnThreads(Step(s, rest[0]).value, t, rest[1..]);
    }
  }

  /** A Start without an id or a URL is refused: it returns and changes nothing. */
  lemma RefusedStartDoesNothing(s: State, id: Id, url: string)
    requires id == "" || url == ""
    ensures Step(s, Begin(Start(id), url)) == Some(s.(threads := s.threads + [Thread(Start(id), Returned)]))
    ensures Step(Step(s, Begin(Start(id), url)).value, Advance(|s.threads|)).None?
  {
  }

  /** Call t has installed instance n and not started it, or has started it once and returned; nobody else does. */
  predicate Launches(s: State, t: nat, n: InstId) {
    && t < |s.threads| && n < |s.insts|
    && (forall u | 0 <= u < |s.threads| && u != t :: s.threads[u].pc != Starting(n))
    && if s.threads[t].pc == Starting(n) then s.insts[n].starts == 0
       else s.threads[t].pc.Returned? && s.insts[n].starts == 1
  }

  lemma LaunchesStep(s: State, act: Action, t: nat, n: InstId)
    requires Inv(s) && Launches(s, t, n) && Step(s, act).Some?
    ensures Launches(Step(s, act).value, t, n)
  {
    if act.Advance? && act.t != t {
      assert s.threads[act.t].pc != Starting(n);
    }
  }

  /**
   * Every instance is started once: whatever runs after call t installed it, it is started by that call and no
   * other, and has been started exactly once when that call has returned.
   */
  lemma {:induction false} InstalledStartsOnce(acts: seq<Action>, t: nat, more: seq<Action>)
    requires Run(acts).Some? && InstallsFor(Run(acts).value, Advance(t)).Some?
    ensures Step(Run(acts).value, Advance(t)).Some?
    ensures var s, s' := Run(acts).value, Step(Run(acts).value, Advance(t)).value;
            && Find(s'.cams, s.threads[t].call.id) == Some(|s.insts|)
            && |s'.insts| == |s.insts| + 1 && s'.insts[|s.insts|] == Inst(s.threads[t].call.id, 0, 0, 0)
    ensures var n, z := |Run(acts).value.insts|, RunFrom(Step, Step(Run(acts).value, Advance(t)).value, more);
            z.Some? ==> Launches(z.value, t, n)
  {
    Reachable(acts);
    var s := Run(acts).value;
    StepKeeps(s, Advance(t));
    var s' := Step(s, Advance(t)).value;
    assert forall u | 0 <= u < |s.threads| :: ThreadInv(s, s.threads[u]);
    if RunFrom(Step, s', more).Some? {
      LaunchesRun(s', more, t, |s.insts|);
    }
  }

  lemma {:induction false} LaunchesRun(s: State, acts: seq<Action>, t: nat, n: InstId)
    requires Inv(s) && Launches(s, t, n) && RunFrom(Step, s, acts).Some?
    ensures Launches(RunFrom(Step, s, acts).value, t, n)
  {
    var kept := (z: State) => Inv(z) && Launches(z, t, n);
    forall z, act | kept(z) && Step(z, act).Some? ensures kept(Step(z, act).value) {
      StepKeeps(z, act);
      LaunchesStep(z, act, t, n);
    }
    RunKeeps(Step, kept, s, acts);
  }

  // ---------- No instance is lost, unless starts of one id overlap ----------

  /** Not in the map, not claimed by any call, and never stopped. */
  ghost predicate Orphan(s: State, n: InstId) {
    && n < |s.insts| && !InMap(s, n) && s.insts[n].stopsBegun == 0
    && forall t | 0 <= t < |s.threads| :: !Claims(s.threads[t], n)
  }

  /** The second region of Start finds an entry and overwrites it. */
  predicate Overwrites(s: State, act: Action) {
    && act.Advance? && act.t < |s.threads|
    && s.threads[act.t].pc.Installing? && s.threads[act.t].call.Start? && s.threads[act.t].call.id in s.cams
  }

  predicate OverwritesIn(s: State, acts: seq<Action>)
    decreases |acts|
  {
    acts != [] && Step(s, acts[0]).Some?
    && (Overwrites(s, acts[0]) || OverwritesIn(Step(s, acts[0]).value, acts[1..]))
  }

  lemma OrphanOnlyByAdvance(s: State, act: Action, n: InstId)
    requires Inv(s) && Step(s, act).Some? && !act.Advance?
    ensures Orphan(Step(s, act).value, n) <==> Orphan(s, n)
  {
    var s' := Step(s, act).value;
    if Orphan(s', n) {
      forall t | 0 <= t < |s.threads| ensures !Claims(s.threads[t], n) {
        assert !Claims(s'.threads[t], n);
      }
    }
    if Orphan(s, n) && !act.Begin? {
      assert !Claims(s.threads[act.t], n);
      assert ThreadInv(s, s.threads[act.t]);
    }
  }

  lemma OrphanStays(s: State, t: nat, n: InstId)
    requires Inv(s) && Step(s, Advance(t)).Some? && Orphan(s, n)
    ensures Orphan(Step(s, Advance(t)).value, n)
  {
  }

  lemma OverwrittenIsOrphan(s: State, t: nat)
    requires Inv(s) && Overwrites(s, Advance(t))
    ensures Orphan(Step(s, Advance(t)).value, s.cams[s.threads[t].call.id])
  {
  }

  lemma OrphanStep(s: State, t: nat, n: InstId)
    requires Inv(s) && Step(s, Advance(t)).Some?
    ensures Orphan(Step(s, Advance(t)).value, n)
            <==> Orphan(s, n) || (Overwrites(s, Advance(t)) && s.cams[s.threads[t].call.id] == n)
  {
    var s' := Step(s, Advance(t)).value;
    if Orphan(s, n) {
      OrphanStays(s, t, n);
    } else if Overwrites(s, Advance(t)) && s.cams[s.threads[t].call.id] == n {
      OverwrittenIsOrphan(s, t);
    } else if Orphan(s', n) {
      assert n < |s.insts| && !Claims(s'.threads[t], n);
      forall u | 0 <= u < |s.threads| ensures !Claims(s.threads[u], n) {
        assert !Claims(s'.threads[u], n);
      }
    }
  }

  /** Instances are lost exactly in the runs in which some Start overwrites an entry. */
  lemma {:induction false} OrphansIffOverwritten(s: State, acts: seq<Action>)
    requires Inv(s) && RunFrom(Step, s, acts).Some?
    ensures (exists n: InstId :: Orphan(RunFrom(Step, s, acts).value, n))
            <==> (exists n: InstId :: Orphan(s, n)) || OverwritesIn(s, acts)
    decreases |acts|
  {
    if acts != [] {
      var act := acts[0];
      var s' := Step(s, act).value;
      StepKeeps(s, act);
      forall n: InstId
        ensures Orphan(s', n)
                <==> Orphan(s, n) || (Overwrites(s, act) && s.cams[s.threads[act.t].call.id] == n)
      {
        if act.Advance? {
          OrphanStep(s, act.t, n);
        } else {
          OrphanOnlyByAdvance(s, act, n);
        }
      }
      if Overwrites(s, act) {
        assert Orphan(s', s.cams[s.threads[act.t].call.id]);
      }
      OrphansIffOverwritten(s', acts[1..]);
    }
  }

  predicate ActiveStart(th: Thread, id: Id) { th.call == Start(id) && !th.pc.Returned? }

  /** Every Start begins when no other Start of its id is under way. */
  predicate Serial(s: State, acts: seq<Action>)
    decreases |acts|
  {
    acts == []
    || (&& (acts[0].Begin? && acts[0].call.Start? ==>
              forall t | 0 <= t < |s.threads| :: !ActiveStart(s.threads[t], acts[0].call.id))
        && (Step(s, acts[0]).Some? ==> Serial(Step(s, acts[0]).value, acts[1..])))
  }

  predicate SerialInv(s: State) {
    && (forall t, u | 0 <= t < u < |s.threads| && s.threads[t].call.Start? ::
          !(ActiveStart(s.threads[t], s.threads[t].call.id) && ActiveStart(s.threads[u], s.threads[t].call.id)))
    && (forall t | 0 <= t < |s.threads| && s.threads[t].call.Start? ::
          s.threads[t].pc.Stopping? || s.threads[t].pc.Installing? ==> s.threads[t].call.id !in s.cams)
  }

  /** The call is over, or goes on without an entry under its id. */
  lemma SerialMove(s: State, t: nat, s': State)
    requires SerialInv(s) && t < |s.threads| && |s'.threads| == |s.threads| && s'.cams.Keys <= s.cams.Keys
    requires s'.threads == s.threads[t := s'.threads[t]] && s'.threads[t].call == s.threads[t].call
    requires Active(s'.threads[t]) ==> Active(s.threads[t])
    requires s.threads[t].call.Start? && (s'.threads[t].pc.Stopping? || s'.threads[t].pc.Installing?) ==>
               s.threads[t].call.id !in s'.cams
    ensures SerialInv(s')
  {
  }

  lemma SerialInstalls(s: State, t: nat, id: Id)
    requires SerialInv(s) && t < |s.threads| && ActiveStart(s.threads[t], id)
    ensures SerialInv(InstallFresh(s, t, id))
  {
  }

  lemma SerialAdvance(s: State, t: nat)
    requires SerialInv(s) && Step(s, Advance(t)).Some?
    ensures SerialInv(Step(s, Advance(t)).value)
  {
    var s', th := Step(s, Advance(t)).value, s.threads[t];
    if th.pc.Installing? || (th.pc.Entry? && th.call.Start? && th.call.id !in s.cams) {
      SerialInstalls(s, t, th.call.id);
    } else {
      SerialMove(s, t, s');
    }
  }

  lemma {:induction false} SerialStep(s: State, act: Action)
    requires SerialInv(s) && Serial(s, [act]) && Step(s, act).Some?
    ensures SerialInv(Step(s, act).value) && !Overwrites(s, act)
  {
    if act.Advance? {
      SerialAdvance(s, act.t);
    }
  }

  lemma {:induction false} SerialNeverOverwrites(s: State, acts: seq<Action>)
    requires SerialInv(s) && Serial(s, acts) && RunFrom(Step, s, acts).Some?
    ensures !OverwritesIn(s, acts)
    decreases |acts|
  {
    if acts != [] {
      assert Serial(s, [acts[0]]);
      SerialStep(s, acts[0]);
      SerialNeverOverwrites(Step(s, acts[0]).value, acts[1..]);
    }
  }

  /**
   * If no two Starts of one id overlap, then, however Stop and StopAll interleave with them, every instance
   * is in the map, or claimed by exactly one call, or its stop() has begun.
   */
  lemma {:induction false} SerialStartsLoseNothing(acts: seq<Action>, n: InstId)
    requires Serial(INIT, acts) && Run(acts).Some? && n < |Run(acts).value.insts|
    ensures var s := Run(acts).value;
            || InMap(s, n) || s.insts[n].stopsBegun == 1
            || exists t :: 0 <= t < |s.threads| && Claims(s.threads[t], n)
                           && forall u | 0 <= u < |s.threads| && u != t :: !Holds(s.threads[u], n)
  {
    Reachable(acts);
    SerialNeverOverwrites(INIT, acts);
    OrphansIffOverwritten(INIT, acts);
    assert !Orphan(Run(acts).value, n);
  }

  // ---------- At most one instance of an id that is not stopped ----------

  predicate Unfinished(s: State, n: InstId) { n < |s.insts| && s.insts[n].stopsDone == 0 }

  /** No id has two instances that have not stopped. */
  ghost predicate Single(s: State) {
    forall m, n | 0 <= m < n < |s.insts| && s.insts[m].id == s.insts[n].id :: !Unfinished(s, m) || !Unfinished(s, n)
  }

  /** A stop() that has begun is run by some call. */
  ghost predicate StopsInv(s: State) {
    forall n: nat | Unfinished(s, n) && s.insts[n].stopsBegun > 0 ::
      exists t | 0 <= t < |s.threads| :: Stops(s.threads[t], n)
  }

  /** The id for which this step installs a fresh instance. */
  function InstallsFor(s: State, act: Action): Option<Id> {
    if act.Advance? && act.t < |s.threads| && s.threads[act.t].call.Start?
       && (s.threads[act.t].pc.Installing? || (s.threads[act.t].pc.Entry? && s.threads[act.t].call.id !in s.cams))
    then Some(s.threads[act.t].call.id) else None
  }

  ghost predicate SomeHolds(s: State, n: InstId) {
    exists t | 0 <= t < |s.threads| :: Holds(s.threads[t], n)
  }

  /** It finds an entry, an instance that some call is taking down, or one that was lost. */
  ghost predicate InstallsOver(s: State, act: Action) {
    && InstallsFor(s, act).Some?
    && var id := InstallsFor(s, act).value;
       || id in s.cams
       || exists n: nat | n < |s.insts| && s.insts[n].id == id :: SomeHolds(s, n) || Orphan(s, n)
  }

  lemma UnfinishedIff(s: State, n: InstId)
    requires Inv(s) && StopsInv(s) && n < |s.insts|
    ensures Unfinished(s, n) <==> InMap(s, n) || SomeHolds(s, n) || Orphan(s, n)
  {
  }

  lemma StopsBefore(s: State, act: Action, n: InstId)
    requires Inv(s) && Step(s, act).Some? && !(act.BeginStopOf? && act.n == n)
    requires Unfinished(Step(s, act).value, n) && Step(s, act).value.insts[n].stopsBegun > 0
    ensures Unfinished(s, n) && s.insts[n].stopsBegun > 0
  {
  }

  lemma StopGoesOn(s: State, act: Action, n: InstId, t: nat)
    requires Inv(s) && Step(s, act).Some? && t < |s.threads| && Stops(s.threads[t], n)
    requires Unfinished(Step(s, act).value, n)
    ensures Stops(Step(s, act).value.threads[t], n)
  {
  }

  lemma OneStopKept(s: State, act: Action, n: InstId)
    requires Inv(s) && StopsInv(s) && Step(s, act).Some? && !(act.BeginStopOf? && act.n == n)
    requires Unfinished(Step(s, act).value, n) && Step(s, act).value.insts[n].stopsBegun > 0
    ensures exists t | 0 <= t < |s.threads| :: Stops(Step(s, act).value.threads[t], n)
  {
    StopsBefore(s, act, n);
    var t :| 0 <= t < |s.threads| && Stops(s.threads[t], n);
    StopGoesOn(s, act, n, t);
  }

  lemma StopsKept(s: State, act: Action)
    requires Inv(s) && StopsInv(s) && Step(s, act).Some?
    ensures StopsInv(Step(s, act).value)
  {
    var s' := Step(s, act).value;
    assert |s.threads| <= |s'.threads|;
    forall n: nat | Unfinished(s', n) && s'.insts[n].stopsBegun > 0
      ensures exists t | 0 <= t < |s'.threads| :: Stops(s'.threads[t], n)
    {
      if act.BeginStopOf? && act.n == n {
        assert Stops(s'.threads[act.t], n);
      } else {
        OneStopKept(s, act, n);
      }
    }
  }

  /** Steps that install nothing add no instance and take back no stop. */
  lemma OnlyInstallsAdd(s: State, act: Action)
    requires Step(s, act).Some? && InstallsFor(s, act).None?
    ensures var s' := Step(s, act).value;
            && |s'.insts| == |s.insts|
            && forall n | 0 <= n < |s.insts| ::
                 s'.insts[n].id == s.insts[n].id && s'.insts[n].stopsDone >= s.insts[n].stopsDone
  {
  }

  lemma InstallAdds(s: State, act: Action)
    requires Step(s, act).Some? && InstallsFor(s, act).Some?
    ensures Step(s, act).value.insts == s.insts + [Inst(InstallsFor(s, act).value, 0, 0, 0)]
  {
  }

  /** A second unstopped instance comes up exactly when an install finds one. */
  lemma SingleStepIff(s: State, act: Action)
    requires Inv(s) && StopsInv(s) && Single(s) && Step(s, act).Some?
    ensures Single(Step(s, act).value) <==> !InstallsOver(s, act)
  {
    var s' := Step(s, act).value;
    if InstallsFor(s, act).None? {
      OnlyInstallsAdd(s, act);
      forall m, n | 0 <= m < n < |s'.insts| && s'.insts[m].id == s'.insts[n].id
        ensures !Unfinished(s', m) || !Unfinished(s', n)
      {
        assert !Unfinished(s, m) || !Unfinished(s, n);
      }
    } else {
      var id, last := InstallsFor(s, act).value, |s.insts|;
      InstallAdds(s, act);
      forall n: nat | n < last ensures Unfinished(s, n) <==> InMap(s, n) || SomeHolds(s, n) || Orphan(s, n) {
        UnfinishedIff(s, n);
      }
      assert Unfinished(s', last);
      if InstallsOver(s, act) {
        var n := OneFound(s, act);
        assert Unfinished(s', n) && s'.insts[n].id == s'.insts[last].id;
      } else {
        forall m, n | 0 <= m < n < |s'.insts| && s'.insts[m].id == s'.insts[n].id
          ensures !Unfinished(s', m) || !Unfinished(s', n)
        {
          assert n < last ==> !Unfinished(s, m) || !Unfinished(s, n);
          assert InMap(s, m) ==> s.insts[m].id in s.cams;
        }
      }
    }
  }

  lemma OneFound(s: State, act: Action) returns (n: nat)
    requires Inv(s) && StopsInv(s) && InstallsOver(s, act)
    ensures Unfinished(s, n) && s.insts[n].id == InstallsFor(s, act).value
  {
    var id := InstallsFor(s, act).value;
    if id in s.cams {
      n := s.cams[id];
    } else {
      n :| n < |s.insts| && s.insts[n].id == id && (SomeHolds(s, n) || Orphan(s, n));
      UnfinishedIff(s, n);
    }
  }

  ghost predicate AlwaysSingle(s: State, acts: seq<Action>)
    decreases |acts|
  {
    Single(s) && (acts != [] && Step(s, acts[0]).Some? ==> AlwaysSingle(Step(s, acts[0]).value, acts[1..]))
  }

  ghost predicate InstallsOverIn(s: State, acts: seq<Action>)
    decreases |acts|
  {
    acts != [] && Step(s, acts[0]).Some?
    && (InstallsOver(s, acts[0]) || InstallsOverIn(Step(s, acts[0]).value, acts[1..]))
  }

  lemma {:induction false} AlwaysSingleIffFrom(s: State, acts: seq<Action>)
    requires Inv(s) && StopsInv(s) && Single(s)
    ensures AlwaysSingle(s, acts) <==> !InstallsOverIn(s, acts)
    decreases |acts|
  {
    if acts != [] && Step(s, acts[0]).Some? {
      SingleStepIff(s, acts[0]);
      StepKeeps(s, acts[0]);
      StopsKept(s, acts[0]);
      if !InstallsOver(s, acts[0]) {
        AlwaysSingleIffFrom(Step(s, acts[0]).value, acts[1..]);
      }
    }
  }

  /**
   * Isolation in time: in every interleaving, no id ever has two instances that have not stopped, started or
   * not, exactly if every install finds none: no entry, none being taken down by a call, none lost.
   */
  lemma {:induction false} AlwaysSingleIff(acts: seq<Action>)
    ensures AlwaysSingle(INIT, acts) <==> !InstallsOverIn(INIT, acts)
  {
    AlwaysSingleIffFrom(INIT, acts);
  }

  predicate Active(th: Thread) { !th.pc.Returned? }

  /** The calls concern a common id. */
  predicate Meet(c: Call, d: Call) { c.StopAll? || d.StopAll? || c.id == d.id }

  /** Every call begins when no call that concerns its id is under way. */
  predicate SerialCalls(s: State, acts: seq<Action>)
    decreases |acts|
  {
    acts == []
    || (&& (acts[0].Begin? ==> forall t | 0 <= t < |s.threads| && Active(s.threads[t]) ::
                                 !Meet(s.threads[t].call, acts[0].call))
        && (Step(s, acts[0]).Some? ==> SerialCalls(Step(s, acts[0]).value, acts[1..])))
  }

  predicate ActiveOnce(s: State) {
    forall t, u | 0 <= t < u < |s.threads| && Active(s.threads[t]) && Active(s.threads[u]) ::
      !Meet(s.threads[t].call, s.threads[u].call)
  }

  ghost predicate NoOrphan(s: State) { forall n: nat | n < |s.insts| :: !Orphan(s, n) }

  lemma SameCalls(s: State, act: Action, t: nat)
    requires Step(s, act).Some? && t < |s.threads|
    ensures var s' := Step(s, act).value;
            && t < |s'.threads| && s'.threads[t].call == s.threads[t].call
            && (Active(s'.threads[t]) ==> Active(s.threads[t]))
            && |s'.threads| == |s.threads| + if act.Begin? then 1 else 0
  {
  }

  lemma {:induction false} ActiveOnceKept(s: State, act: Action)
    requires ActiveOnce(s) && SerialCalls(s, [act]) && Step(s, act).Some?
    ensures ActiveOnce(Step(s, act).value)
  {
    var s' := Step(s, act).value;
    forall t, u | 0 <= t < u < |s'.threads| && Active(s'.threads[t]) && Active(s'.threads[u])
      ensures !Meet(s'.threads[t].call, s'.threads[u].call)
    {
      assert t < |s.threads|;
      SameCalls(s, act, t);
      if u < |s.threads| {
        SameCalls(s, act, u);
      }
    }
  }

  lemma NoOrphanKept(s: State, act: Action)
    requires Inv(s) && NoOrphan(s) && !Overwrites(s, act) && Step(s, act).Some?
    ensures NoOrphan(Step(s, act).value)
  {
    forall n: nat ensures !Orphan(Step(s, act).value, n) {
      if act.Advance? {
        OrphanStep(s, act.t, n);
      } else {
        OrphanOnlyByAdvance(s, act, n);
      }
    }
  }

  lemma SerialInstall(s: State, act: Action)
    requires Inv(s) && SerialInv(s) && ActiveOnce(s) && NoOrphan(s) && Step(s, act).Some?
    ensures !InstallsOver(s, act)
  {
  }

  lemma {:induction false} SerialCallsFrom(s: State, acts: seq<Action>)
    requires Inv(s) && SerialInv(s) && ActiveOnce(s) && NoOrphan(s) && SerialCalls(s, acts)
    ensures !InstallsOverIn(s, acts)
    decreases |acts|
  {
    if acts != [] && Step(s, acts[0]).Some? {
      assert SerialCalls(s, [acts[0]]);
      SerialInstall(s, acts[0]);
      SerialStep(s, acts[0]);
      StepKeeps(s, acts[0]);
      ActiveOnceKept(s, acts[0]);
      NoOrphanKept(s, acts[0]);
      SerialCallsFrom(Step(s, acts[0]).value, acts[1..]);
    }
  }

  /** When all calls that concern one id are serial, it never has two instances that have not stopped. */
  lemma {:induction false} SerialCallsSingle(acts: seq<Action>)
    requires SerialCalls(INIT, acts)
    ensures AlwaysSingle(INIT, acts)
  {
    SerialCallsFrom(INIT, acts);
    AlwaysSingleIff(acts);
  }

  /** A Stop is inside stop() of instance 0. */
  function Halting(id: Id): State {
    State(map[], [Inst(id, 1, 1, 0)], [Thread(Start(id), Returned), Thread(Stop(id), Stopping({}, {0}))])
  }

  lemma HaltingRun(id: Id, url: string, rest: seq<Action>) returns (acts: seq<Action>)
    requires id != "" && url != ""
    ensures Run(acts) == RunFrom(Step, Halting(id), rest)
  {
    var start, stop := Begin(Start(id), url), Begin(Stop(id), url);
    var s1 := Step(INIT, start).value;
    var s2 := Step(s1, Advance(0)).value;
    var s3 := Step(s2, Advance(0)).value;
    var s4 := Step(s3, stop).value;
    var s5 := Step(s4, Advance(1)).value;
    assert s5.threads[1].pc == Stopping({0}, {}) && s5.cams == map[];
    var s6 := Step(s5, BeginStopOf(1, 0)).value;
    assert s6.threads[1].pc == Stopping({}, {0});
    assert s6.threads == Halting(id).threads && s6.insts == Halting(id).insts;
    FirstStep(Step, s5, BeginStopOf(1, 0), rest);
    acts := [BeginStopOf(1, 0)] + rest;
    FirstStep(Step, s4, Advance(1), acts);
    acts := [Advance(1)] + acts;
    FirstStep(Step, s3, stop, acts);
    acts := [stop] + acts;
    FirstStep(Step, s2, Advance(0), acts);
    acts := [Advance(0)] + acts;
    FirstStep(Step, s1, Advance(0), acts);
    acts := [Advance(0)] + acts;
    FirstStep(Step, INIT, start, acts);
    acts := [start] + acts;
  }

  /** A Start during the stop() of a Stop finds no entry: two instances of the id are started and not stopped. */
  lemma StartDuringStop(id: Id, url: string) returns (acts: seq<Action>)
    requires id != "" && url != ""
    ensures Run(acts).Some? && |Run(acts).value.insts| == 2
    ensures forall n | 0 <= n < 2 ::
              var i := Run(acts).value.insts[n]; i.id == id && i.starts == 1 && i.stopsDone == 0
  {
    var start := Begin(Start(id), url);
    var s1 := Step(Halting(id), start).value;
    var s2 := Step(s1, Advance(2)).value;
    acts := [Advance(2)] + [];
    FirstStep(Step, s2, Advance(2), []);
    FirstStep(Step, s1, Advance(2), acts);
    acts := [Advance(2)] + acts;
    FirstStep(Step, Halting(id), start, acts);
    acts := HaltingRun(id, url, [start] + acts);
  }

  // ---------- An overlap that loses an instance ----------

  /** One Start has taken instance 0 out to stop it; another has meanwhile put instance 1 in and started it. */
  function Overlap(id: Id): State {
    State(map[id := 1], [Inst(id, 1, 0, 0), Inst(id, 1, 0, 0)],
          [Thread(Start(id), Returned), Thread(Start(id), Stopping({0}, {})), Thread(Start(id), Returned)])
  }

  lemma OverlapLoses(id: Id) returns (acts: seq<Action>)
    ensures RunFrom(Step, Overlap(id), acts).Some?
    ensures Orphan(RunFrom(Step, Overlap(id), acts).value, 1)
    ensures RunFrom(Step, Overlap(id), acts).value.insts[1].starts == 1
  {
    var s1 := Step(Overlap(id), BeginStopOf(1, 0)).value;
    var s2 := Step(s1, EndStopOf(1, 0)).value;
    var s3 := Step(s2, Advance(1)).value;
    acts := [Advance(1)] + [];
    FirstStep(Step, s3, Advance(1), []);
    FirstStep(Step, s2, Advance(1), acts);
    acts := [Advance(1)] + acts;
    FirstStep(Step, s1, EndStopOf(1, 0), acts);
    acts := [EndStopOf(1, 0)] + acts;
    FirstStep(Step, Overlap(id), BeginStopOf(1, 0), acts);
    acts := [BeginStopOf(1, 0)] + acts;
  }

  /**
   * Two overlapping Starts of one id do lose an instance: a camera runs, a second Start takes it out to stop
   * it, a third Start finds no entry and installs its own, and the second then overwrites that.
   */
  lemma OverlappingStartsLoseOne(id: Id, url: string) returns (acts: seq<Action>)
    requires id != "" && url != ""
    ensures Run(acts).Some? && Orphan(Run(acts).value, 1)
    ensures Run(acts).value.insts[1].starts == 1
  {
    acts := OverlapLoses(id);
    var b := Begin(Start(id), url);
    var s1 := Step(INIT, b).value;
    var s2 := Step(s1, Advance(0)).value;
    var s3 := Step(s2, Advance(0)).value;
    var s4 := Step(s3, b).value;
    var s5 := Step(s4, Advance(1)).value;
    var s6 := Step(s5, b).value;
    var s7 := Step(s6, Advance(2)).value;
    assert Step(s7, Advance(2)).value == Overlap(id);
    FirstStep(Step, s7, Advance(2), acts);
    acts := [Advance(2)] + acts;
    FirstStep(Step, s6, Advance(2), acts);
    acts := [Advance(2)] + acts;
    FirstStep(Step, s5, b, acts);
    acts := [b] + acts;
    FirstStep(Step, s4, Advance(1), acts);
    acts := [Advance(1)] + acts;
    FirstStep(Step, s3, b, acts);
    acts := [b] + acts;
    FirstStep(Step, s2, Advance(0), acts);
    acts := [Advance(0)] + acts;
    FirstStep(Step, s1, Advance(0), acts);
    acts := [Advance(0)] + acts;
    FirstStep(Step, INIT, b, acts);
    acts := [b] + acts;
  }
}
