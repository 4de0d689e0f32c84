/**
 * How many detections per minute a camera can report: the dedup gate of
 * worker/internal/eventbus/publisher.go feeding the rolling window of worker/internal/camera/camera.go.
 * A detection is stamped into the window only after its POST returned, which may be long after the gate
 * let it through; ticks happen at any time in between.
 */
module AlertRate {
  import opened Common
  import opened SpacingGate
  import CameraStats
  import Retry

  datatype Event = Offered(at: int) | Stamped(at: int) | Ticked(at: int)

  /** Gate memory, and whether an admitted detection is still being sent. */
  datatype Gate = Gate(last: Option<int>, sending: bool)

  /** Detections of one camera are handled one after the other. None: the event cannot happen here. */
  function After(g: Gate, e: Event, window: int): Option<Gate> {
    match e
    case Offered(at) =>
      if g.sending then None
      else if Admits(g.last, at, window) then Some(Gate(Some(at), true))
      else Some(g)
    case Stamped(_) => if g.sending then Some(g.(sending := false)) else None
    case Ticked(_) => Some(g)
  }

  function Run(es: seq<Event>, window: int): Option<Gate> {
    if es == [] then Some(Gate(None, false))
    else
      match Run(es[..|es| - 1], window)
      case None => None
      case Some(g) => After(g, es[|es| - 1], window)
  }

  /** What the statistics see of an event. */
  function SeenOf(e: Event): seq<CameraStats.Event> {
    match e
    case Offered(_) => []
    case Stamped(at) => [CameraStats.Recorded(at)]
    case Ticked(at) => [CameraStats.Ticked(at)]
  }

  /** What they see of a run. */
  function Seen(es: seq<Event>): seq<CameraStats.Event> {
    if es == [] then [] else Seen(es[..|es| - 1]) + SeenOf(es[|es| - 1])
  }

  predicate ClockForward(es: seq<Event>) {
    forall i, j | 0 <= i <= j < |es| :: es[i].at <= es[j].at
  }

  function DetectionsPerMinute(es: seq<Event>): nat {
    |CameraStats.Run(Seen(es)).window|
  }

  /** No POST of the run takes longer than maxSend, from the gate decision to the stamp. */
  predicate Prompt(es: seq<Event>, window: int, maxSend: int) {
    es == []
    || var before, e := es[..|es| - 1], es[|es| - 1];
       var g := Run(before, window);
       && Prompt(before, window, maxSend)
       && (e.Stamped? && g.Some? && g.value.last.Some? ==> e.at - g.value.last.value <= maxSend)
  }

  /** c is a divided by b, rounded up. */
  predicate IsCeilDiv(c: int, a: int, b: int) {
    (c - 1) * b < a <= c * b
  }

  /** Gate times and stamps of the run so far alternate, none is in the future, and gate times are spaced. */
  ghost predicate Alternate(now: Option<int>, g: Gate, gates: seq<int>, stamps: seq<int>, window: int) {
    && |gates| == |stamps| + (if g.sending then 1 else 0)
    && g.last == (if gates == [] then None else Some(gates[|gates| - 1]))
    && Spaced(gates, window)
    && (forall i | 0 <= i < |stamps| :: gates[i] <= stamps[i])
    && (forall i, j | 0 <= i < |stamps| && i + 1 == j < |gates| :: stamps[i] <= gates[j])
    && (gates != [] ==> now.Some? && gates[|gates| - 1] <= now.value)
    && (stamps != [] ==> now.Some? && stamps[|stamps| - 1] <= now.value)
  }

  function Now(es: seq<Event>): Option<int> {
    if es == [] then None else Some(es[|es| - 1].at)
  }

  lemma RunPrefix(es: seq<Event>, window: int)
    requires es != [] && ClockForward(es) && Run(es, window).Some?
    ensures var before := es[..|es| - 1];
            && ClockForward(before) && Run(before, window).Some?
            && Run(es, window) == After(Run(before, window).value, es[|es| - 1], window)
            && (before != [] ==> before[|before| - 1].at <= es[|es| - 1].at)
  {
  }

  lemma GateStep(now: Option<int>, g: Gate, at: int, gates: seq<int>, stamps: seq<int>, window: int)
    requires Alternate(now, g, gates, stamps, window) && !g.sending && Admits(g.last, at, window)
    requires now.Some? ==> now.value <= at
    ensures Alternate(Some(at), Gate(Some(at), true), gates + [at], stamps, window)
  {
  }

  lemma StampStep(now: Option<int>, g: Gate, at: int, gates: seq<int>, stamps: seq<int>, window: int)
    requires Alternate(now, g, gates, stamps, window) && g.sending
    requires now.Some? ==> now.value <= at
    ensures Alternate(Some(at), g.(sending := false), gates, stamps + [at], window)
  {
  }

  lemma AlternateStep(
    now: Option<int>, g: Gate, e: Event, gates: seq<int>, stamps: seq<int>, window: int)
    returns (gates': seq<int>, stamps': seq<int>)
    requires Alternate(now, g, gates, stamps, window) && After(g, e, window).Some?
    requires now.Some? ==> now.value <= e.at
    ensures Alternate(Some(e.at), After(g, e, window).value, gates', stamps', window)
    ensures gates <= gates' && stamps' == stamps + if e.Stamped? then [e.at] else []
    ensures e.Stamped? ==> g.last.Some? && |stamps| < |gates'| && gates'[|stamps|] == g.last.value
  {
    gates', stamps' := gates, stamps;
    if e.Offered? && Admits(g.last, e.at, window) {
      GateStep(now, g, e.at, gates, stamps, window);
      gates' := gates + [e.at];
    } else if e.Stamped? {
      StampStep(now, g, e.at, gates, stamps, window);
      stamps' := stamps + [e.at];
    }
  }

  /** Every stamp is at most maxSend after its gate decision. */
  predicate Within(gates: seq<int>, stamps: seq<int>, maxSend: int) {
    |stamps| <= |gates| && forall i | 0 <= i < |stamps| :: stamps[i] - gates[i] <= maxSend
  }

  /**
   * Gate decisions and stamps alternate, gate decisions are spaced, and every stamp follows its decision
   * within the time of the longest POST.
   */
  lemma GatesAndStamps(es: seq<Event>, window: int, maxSend: int)
    returns (gates: seq<int>, stamps: seq<int>)
    requires ClockForward(es) && Run(es, window).Some?
    ensures stamps == CameraStats.Records(Seen(es))
    ensures Alternate(Now(es), Run(es, window).value, gates, stamps, window)
    ensures Prompt(es, window, maxSend) ==> Within(gates, stamps, maxSend)
  {
    if es == [] {
      return [], [];
    }
    var before, e := es[..|es| - 1], es[|es| - 1];
    RunPrefix(es, window);
    SeenStep(es);
    var gs, ss := GatesAndStamps(before, window, maxSend);
    gates, stamps := AlternateStep(Now(before), Run(before, window).value, e, gs, ss, window);
    if Prompt(es, window, maxSend) {
      forall i | 0 <= i < |stamps| ensures stamps[i] - gates[i] <= maxSend {
        assert i < |ss| ==> stamps[i] == ss[i] && gates[i] == gs[i];
      }
    }
  }

  lemma SeenStep(es: seq<Event>)
    requires es != []
    ensures var before, e, seen := es[..|es| - 1], es[|es| - 1], Seen(es);
            && seen == Seen(before) + SeenOf(e)
            && (e.Offered? ==> seen == Seen(before))
            && (!e.Offered? ==> seen != [] && seen[..|seen| - 1] == Seen(before) && [seen[|seen| - 1]] == SeenOf(e))
            && CameraStats.Records(seen) == CameraStats.Records(Seen(before)) + if e.Stamped? then [e.at] else []
  {
    assert es[|es| - 1].Offered? ==> Seen(es) == Seen(es[..|es| - 1]);
  }

  lemma {:induction false} SeenClock(es: seq<Event>)
    requires ClockForward(es)
    ensures CameraStats.ClockForward(Seen(es))
    ensures CameraStats.Clock(Seen(es)).Some? ==> es != [] && CameraStats.Clock(Seen(es)).value <= es[|es| - 1].at
  {
    if es != [] {
      var before := es[..|es| - 1];
      SeenClock(before);
      SeenStep(es);
      assert before != [] ==> before[|before| - 1].at <= es[|es| - 1].at;
    }
  }

  lemma {:induction false} KeptIsSuffix(times: seq<int>, cutoff: int)
    requires Nondecreasing(times)
    ensures var kept := CameraStats.KeptAfter(times, Some(cutoff));
            && |kept| <= |times|
            && (kept != [] ==> times[|times| - |kept|] > cutoff)
            && (|kept| < |times| ==> times[|times| - |kept| - 1] <= cutoff)
  {
    if times != [] {
      KeptIsSuffix(times[..|times| - 1], cutoff);
    }
  }

  lemma SpacedSpan(s: seq<int>, window: int, i: nat, j: nat)
    requires Spaced(s, window) && i <= j < |s|
    ensures s[j] - s[i] >= (j - i) * window
    decreases j
  {
    if i < j {
      SpacedSpan(s, window, i, j - 1);
      assert s[j] - s[j - 1] >= window;
      assert (j - i) * window == (j - 1 - i) * window + window;
    } else {
      assert (j - i) * window == 0;
    }
  }

  lemma CountFromSpan(n: int, c: int, window: int, span: int)
    requires window > 0 && n * window < span <= c * window
    ensures n < c
  {
  }

  /**
   * The rolling window never over-reports, however slow the POSTs are: one more than a minute divided by
   * the dedup window, rounded up.
   */
  lemma {:induction false} RateBound(es: seq<Event>, window: int, c: int)
    requires window > 0 && IsCeilDiv(c, CameraStats.MINUTE, window)
    requires ClockForward(es) && Run(es, window).Some?
    requires es != [] && es[|es| - 1].Ticked?
    ensures DetectionsPerMinute(es) <= c + 1
  {
    var gates, stamps := GatesAndStamps(es, window, 0);
    WindowAtTick(es);
    KeptCount(Run(es, window).value, gates, stamps, window, es[|es| - 1].at, c);
  }

  lemma {:induction false} WindowAtTick(es: seq<Event>)
    requires ClockForward(es) && es != [] && es[|es| - 1].Ticked?
    ensures CameraStats.Run(Seen(es)).window
            == CameraStats.KeptAfter(CameraStats.Records(Seen(es)), Some(es[|es| - 1].at - CameraStats.MINUTE))
  {
    SeenClock(es);
    SeenStep(es);
    CameraStats.PruningLosesNothing(Seen(es));
  }

  lemma {:induction false} KeptCount(g: Gate, gates: seq<int>, stamps: seq<int>, window: int, now: int, c: int)
    requires window > 0 && IsCeilDiv(c, CameraStats.MINUTE, window)
    requires Alternate(Some(now), g, gates, stamps, window)
    ensures |CameraStats.KeptAfter(stamps, Some(now - CameraStats.MINUTE))| <= c + 1
  {
    StampsNondecreasing(g, gates, stamps, window, now);
    KeptIsSuffix(stamps, now - CameraStats.MINUTE);
    var n := |CameraStats.KeptAfter(stamps, Some(now - CameraStats.MINUTE))|;
    if n >= 2 {
      var first, last := |stamps| - n, |stamps| - 1;
      SpacedSpan(gates, window, first + 1, last);
      assert stamps[first] <= gates[first + 1];
      CountFromSpan(n - 2, c, window, CameraStats.MINUTE);
    } else {
      CountFromSpan(0, c, window, CameraStats.MINUTE);
    }
  }

  lemma {:induction false} PromptCount(
    g: Gate, gates: seq<int>, stamps: seq<int>, window: int, now: int, maxSend: nat, c: int)
    requires window > 0 && IsCeilDiv(c, CameraStats.MINUTE + maxSend, window)
    requires Alternate(Some(now), g, gates, stamps, window) && Within(gates, stamps, maxSend)
    ensures |CameraStats.KeptAfter(stamps, Some(now - CameraStats.MINUTE))| <= c
  {
    StampsNondecreasing(g, gates, stamps, window, now);
    KeptIsSuffix(stamps, now - CameraStats.MINUTE);
    var n := |CameraStats.KeptAfter(stamps, Some(now - CameraStats.MINUTE))|;
    if n >= 1 {
      var first, last := |stamps| - n, |stamps| - 1;
      SpacedSpan(gates, window, first, last);
      assert stamps[first] - gates[first] <= maxSend;
      CountFromSpan(n - 1, c, window, CameraStats.MINUTE + maxSend);
    } else {
      CountFromSpan(0, c, window, CameraStats.MINUTE + maxSend);
    }
  }

  /**
   * With POSTs that take at most maxSend the bound is a minute and that time, or at most one more window,
   * divided by the window, rounded up.
   */
  lemma {:induction false} RateBoundPrompt(es: seq<Event>, window: int, maxSend: nat, c: int)
    requires window > 0 && IsCeilDiv(c, CameraStats.MINUTE + Min(maxSend, window), window)
    requires ClockForward(es) && Run(es, window).Some? && Prompt(es, window, maxSend)
    requires es != [] && es[|es| - 1].Ticked?
    ensures DetectionsPerMinute(es) <= c
  {
    if maxSend <= window {
      var gates, stamps := GatesAndStamps(es, window, maxSend);
      WindowAtTick(es);
      PromptCount(Run(es, window).value, gates, stamps, window, es[|es| - 1].at, maxSend, c);
    } else {
      OneWindowLess(c, CameraStats.MINUTE, window);
      RateBound(es, window, c - 1);
    }
  }

  lemma OneWindowLess(c: int, a: int, b: int)
    requires IsCeilDiv(c, a + b, b)
    ensures IsCeilDiv(c - 1, a, b)
  {
  }

  lemma StampsNondecreasing(g: Gate, gates: seq<int>, stamps: seq<int>, window: int, now: int)
    requires Alternate(Some(now), g, gates, stamps, window)
    ensures Nondecreasing(stamps)
  {
    forall i, j | 0 <= i <= j < |stamps| ensures stamps[i] <= stamps[j] {
      StampsOrdered(g, gates, stamps, window, now, i, j);
    }
  }

  lemma StampsOrdered(
    g: Gate, gates: seq<int>, stamps: seq<int>, window: int, now: int, i: nat, j: nat)
    requires Alternate(Some(now), g, gates, stamps, window)
    requires i <= j < |stamps|
    ensures stamps[i] <= stamps[j]
    decreases j
  {
    if i < j {
      StampsOrdered(g, gates, stamps, window, now, i, j - 1);
      assert stamps[j - 1] <= gates[j] <= stamps[j];
    }
  }

  /** The bound for a window given in milliseconds, as configured. */
  lemma {:induction false} RateBoundMillis(es: seq<Event>, windowMs: int, c: int)
    requires windowMs > 0 && IsCeilDiv(c, 60000, windowMs)
    requires ClockForward(es) && Run(es, windowMs * Retry.MILLISECOND).Some?
    requires es != [] && es[|es| - 1].Ticked?
    ensures DetectionsPerMinute(es) <= c + 1
  {
    var window := windowMs * Retry.MILLISECOND;
    assert c * window == (c * windowMs) * Retry.MILLISECOND;
    assert (c - 1) * window == ((c - 1) * windowMs) * Retry.MILLISECOND;
    RateBound(es, window, c);
  }

  // ---------- The bound is attained ----------

  /** One detection whose POST takes `send`, then k detections with instant POSTs. */
  function Burst(k: nat, window: int, send: int): seq<Event> {
    if k == 0 then [Offered(0), Stamped(send)]
    else Burst(k - 1, window, send) + [Offered(k * window), Stamped(k * window)]
  }

  lemma NextMultiple(k: nat, window: int)
    requires window > 0 && k > 0
    ensures k * window == (k - 1) * window + window && k * window >= window
  {
  }

  /** What a burst leaves behind: its last event at the given time, its last admission at `last`. */
  ghost predicate BurstEnds(es: seq<Event>, at: int, last: int, window: int, maxSend: int) {
    && es != [] && es[|es| - 1].at == at
    && ClockForward(es)
    && Run(es, window) == Some(Gate(Some(last), false))
    && Prompt(es, window, maxSend)
  }

  /** An admitted detection whose POST returns at `done`. */
  lemma {:induction false} SendOne(es: seq<Event>, last: Option<int>, at: int, done: int, window: int, maxSend: int)
    requires ClockForward(es) && Run(es, window) == Some(Gate(last, false)) && Prompt(es, window, maxSend)
    requires Admits(last, at, window) && at <= done <= at + maxSend && (es != [] ==> es[|es| - 1].at <= at)
    ensures BurstEnds(es + [Offered(at)] + [Stamped(done)], done, at, window, maxSend)
  {
  }

  lemma BurstStep(es: seq<Event>, at: int, last: int, next: int, window: int, maxSend: nat)
    requires BurstEnds(es, at, last, window, maxSend) && at <= next && last + window <= next
    ensures BurstEnds(es + [Offered(next)] + [Stamped(next)], next, next, window, maxSend)
  {
  }

  lemma {:induction false} BurstRuns(k: nat, window: int, send: nat, maxSend: nat)
    requires window > 0 && send <= window && send <= maxSend
    ensures BurstEnds(Burst(k, window, send), if k == 0 then send else k * window, k * window, window, maxSend)
  {
    if k == 0 {
      SendOne([], None, 0, send, window, maxSend);
      assert Burst(0, window, send) == [] + [Offered(0)] + [Stamped(send)];
    } else {
      var before, next := Burst(k - 1, window, send), k * window;
      BurstRuns(k - 1, window, send, maxSend);
      NextMultiple(k, window);
      BurstStep(before, if k == 1 then send else (k - 1) * window, (k - 1) * window, next, window, maxSend);
      assert Burst(k, window, send) == before + [Offered(next)] + [Stamped(next)];
    }
  }

  /** What the statistics gain from one admitted detection. */
  lemma {:induction false} SeenPair(es: seq<Event>, at: int, done: int)
    ensures var seen, seen' := Seen(es), Seen(es + [Offered(at)] + [Stamped(done)]);
            && CameraStats.Records(seen') == CameraStats.Records(seen) + [done]
            && CameraStats.LastCutoff(seen') == CameraStats.LastCutoff(seen)
  {
    var offered := es + [Offered(at)];
    var stamped := offered + [Stamped(done)];
    assert offered[..|es|] == es && stamped[..|offered|] == offered;
    SeenStep(offered);
    SeenStep(stamped);
  }

  /** n records, none earlier than `from`, and no tick so far. */
  predicate Recorded(es: seq<Event>, n: nat, from: int) {
    var records := CameraStats.Records(Seen(es));
    && |records| == n
    && (forall t | t in records :: t >= from)
    && CameraStats.LastCutoff(Seen(es)) == None
  }

  lemma OneMoreRecord(es: seq<Event>, at: int, done: int, n: nat, from: int)
    requires Recorded(es, n, from) && done >= from
    ensures Recorded(es + [Offered(at)] + [Stamped(done)], n + 1, from)
  {
    SeenPair(es, at, done);
  }

  lemma {:induction false} BurstRecords(k: nat, window: int, send: nat)
    requires window > 0 && send <= window
    ensures Recorded(Burst(k, window, send), k + 1, send)
  {
    if k == 0 {
      OneMoreRecord([], 0, send, 0, send);
      assert Burst(0, window, send) == [] + [Offered(0)] + [Stamped(send)];
    } else {
      BurstRecords(k - 1, window, send);
      NextMultiple(k, window);
      OneMoreRecord(Burst(k - 1, window, send), k * window, k * window, k, send);
      assert Burst(k, window, send) == Burst(k - 1, window, send) + [Offered(k * window)] + [Stamped(k * window)];
    }
  }

  lemma {:induction false} AllKept(times: seq<int>, cutoff: int)
    requires forall t | t in times :: t > cutoff
    ensures CameraStats.KeptAfter(times, Some(cutoff)) == times
  {
    if times != [] {
      var before := times[..|times| - 1];
      assert times == before + [times[|times| - 1]];
      assert forall t | t in before :: t in times;
      assert times[|times| - 1] in times;
      AllKept(times[..|times| - 1], cutoff);
    }
  }

  lemma {:induction false} TickRuns(es: seq<Event>, at: int, last: int, now: int, window: int, maxSend: int)
    requires BurstEnds(es, at, last, window, maxSend) && at <= now
    ensures var ticked := es + [Ticked(now)];
            && ticked[..|es|] == es
            && ClockForward(ticked) && Run(ticked, window).Some? && Prompt(ticked, window, maxSend)
  {
  }

  lemma TickReports(es: seq<Event>, now: int, n: nat, from: int)
    requires Recorded(es, n, from) && now - CameraStats.MINUTE < from && ClockForward(es + [Ticked(now)])
    ensures DetectionsPerMinute(es + [Ticked(now)]) == n
  {
    var ticked := es + [Ticked(now)];
    assert ticked[..|es|] == es;
    SeenStep(ticked);
    WindowAtTick(ticked);
    AllKept(CameraStats.Records(Seen(es)), now - CameraStats.MINUTE);
  }

  /** The bound is exact: for every window and every longest POST some run reports that many. */
  lemma RateBoundAttained(window: int, maxSend: nat, c: nat) returns (es: seq<Event>)
    requires window > 0 && IsCeilDiv(c, CameraStats.MINUTE + Min(maxSend, window), window)
    ensures ClockForward(es) && Run(es, window).Some? && es != [] && es[|es| - 1].Ticked?
    ensures Prompt(es, window, maxSend)
    ensures DetectionsPerMinute(es) == c
  {
    var send: nat := Min(maxSend, window);
    assert c > 0 by { assert c == 0 ==> c * window == 0; }
    var k := c - 1;
    var at := if k == 0 then send else k * window;
    if k > 0 {
      NextMultiple(k, window);
    }
    BurstRuns(k, window, send, maxSend);
    BurstRecords(k, window, send);
    TickRuns(Burst(k, window, send), at, k * window, at, window, maxSend);
    TickReports(Burst(k, window, send), at, c, send);
    es := Burst(k, window, send) + [Ticked(at)];
  }
}
