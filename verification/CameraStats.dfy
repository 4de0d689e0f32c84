/** Per-camera statistics: frame counter and rolling detection window of worker/internal/camera/camera.go. */
module CameraStats {
  import opened Common
  import Retry

  const MINUTE: int := 60 * Retry.SECOND

  /** framesSinceTick and the contents of detsWindow. */
  datatype Stats = Stats(frames: nat, window: seq<int>)

  datatype Event = FrameHandled | Recorded(at: int) | Ticked(at: int)

  /** The times later than the cutoff, in order. */
  function KeptAfter(times: seq<int>, cutoff: Option<int>): seq<int> {
    if times == [] then []
    else
      var before := KeptAfter(times[..|times| - 1], cutoff);
      var t := times[|times| - 1];
      if cutoff.None? || t > cutoff.value then before + [t] else before
  }

  function After(s: Stats, e: Event): Stats {
    match e
    case FrameHandled => s.(frames := s.frames + 1)
    case Recorded(at) => s.(window := s.window + [at])
    case Ticked(at) => Stats(0, KeptAfter(s.window, Some(at - MINUTE)))
  }

  /** detsWindow is a slice: a backing array and a length; appending grows the array when it is full. */
  class Counters {
    var framesSinceTick: nat
    var buf: array<int>
    var len: nat

    ghost predicate Valid()
      reads this
    {
      len <= buf.Length
    }

    ghost function Value(): Stats
      requires Valid()
      reads this, buf
    {
      Stats(framesSinceTick, buf[..len])
    }

    constructor ()
      ensures Valid() && fresh(buf) && Value() == Stats(0, [])
    {
      framesSinceTick, buf, len := 0, new int[0], 0;
    }

    method CountFrame()
      requires Valid()
      modifies this
      ensures Valid() && buf == old(buf) && Value() == After(old(Value()), FrameHandled)
    {
      framesSinceTick := framesSinceTick + 1;
    }

    method RecordDetection(now: int)
      requires Valid()
      modifies this, buf
      ensures Valid() && (buf == old(buf) || fresh(buf)) && Value() == After(old(Value()), Recorded(now))
    {
      if len == buf.Length {
        var bigger := new int[2 * len + 1];
        for i := 0 to len
          invariant Valid() && Value() == old(Value()) && buf == old(buf) && len == old(len)
          invariant fresh(bigger)
          invariant bigger[..i] == buf[..i]
        {
          bigger[i] := buf[i];
        }
        buf := bigger;
      }
      buf[len] := now;
      len := len + 1;
    }

    /** Takes the frame count and compacts the window in place; the result is what the tick reports. */
    method EmitStats(now: int) returns (frames: nat, detsPerMin: nat)
      requires Valid()
      modifies this, buf
      ensures Valid() && buf == old(buf) && Value() == After(old(Value()), Ticked(now))
      ensures frames == old(framesSinceTick) && detsPerMin == |Value().window|
    {
      frames := framesSinceTick;
      framesSinceTick := 0;
      var cutoff := now - MINUTE;
      ghost var was := buf[..len];
      var kept := 0;
      for i := 0 to len
        invariant buf == old(buf) && len == old(len) && framesSinceTick == 0 && Valid()
        invariant kept <= i
        invariant buf[i..len] == was[i..]
        invariant buf[..kept] == KeptAfter(was[..i], Some(cutoff))
      {
        var t := buf[i];
        assert was[..i + 1][..i] == was[..i];
        assert t == was[i];
        if t > cutoff {
          buf[kept] := t;
          kept := kept + 1;
        }
      }
      assert was[..len] == was;
      len := kept;
      detsPerMin := len;
    }
  }

  // ---------- Whole runs ----------

  function Run(es: seq<Event>): Stats {
    if es == [] then Stats(0, []) else After(Run(es[..|es| - 1]), es[|es| - 1])
  }

  /** Every detection ever recorded. */
  function Records(es: seq<Event>): seq<int> {
    if es == [] then []
    else
      var before := Records(es[..|es| - 1]);
      match es[|es| - 1] case Recorded(at) => before + [at] case _ => before
  }

  /** The cutoff used by the latest tick. */
  function LastCutoff(es: seq<Event>): Option<int> {
    if es == [] then None
    else match es[|es| - 1] case Ticked(at) => Some(at - MINUTE) case _ => LastCutoff(es[..|es| - 1])
  }

  /** Sum of the frame counts taken by the ticks of a run. */
  function Taken(es: seq<Event>): nat {
    if es == [] then 0
    else
      var before := es[..|es| - 1];
      Taken(before) + if es[|es| - 1].Ticked? then Run(before).frames else 0
  }

  function Handled(es: seq<Event>): nat {
    if es == [] then 0
    else Handled(es[..|es| - 1]) + if es[|es| - 1].FrameHandled? then 1 else 0
  }

  function Clock(es: seq<Event>): Option<int> {
    if es == [] then None
    else
      match es[|es| - 1]
      case FrameHandled => Clock(es[..|es| - 1])
      case Recorded(at) => Some(at)
      case Ticked(at) => Some(at)
  }

  /** Timestamps never run backwards. */
  predicate ClockForward(es: seq<Event>) {
    es == []
    || var before := es[..|es| - 1];
       && ClockForward(before)
       && (Clock(before).Some? && !es[|es| - 1].FrameHandled? ==> es[|es| - 1].at >= Clock(before).value)
  }

  /** What pruning keeps: in order, every time later than the cutoff as often as it stands there, and no other. */
  lemma {:induction false} KeptExactly(times: seq<int>, cutoff: int, t: int)
    ensures IsSubsequence(KeptAfter(times, Some(cutoff)), times)
    ensures multiset(KeptAfter(times, Some(cutoff)))[t] == if t > cutoff then multiset(times)[t] else 0
  {
    if times != [] {
      var before, last := times[..|times| - 1], times[|times| - 1];
      KeptExactly(before, cutoff, t);
      SubsequenceAppend(KeptAfter(before, Some(cutoff)), before, last);
      assert times == before + [last];
    }
  }

  lemma {:induction false} KeepTwice(times: seq<int>, c1: Option<int>, c2: int)
    requires c1.None? || c1.value <= c2
    ensures KeptAfter(KeptAfter(times, c1), Some(c2)) == KeptAfter(times, Some(c2))
  {
    if times != [] {
      var before, t := times[..|times| - 1], times[|times| - 1];
      KeepTwice(before, c1, c2);
      var kept := KeptAfter(before, c1);
      assert (kept + [t])[..|kept|] == kept;
    }
  }

  lemma {:induction false} CutoffBehindClock(es: seq<Event>)
    requires ClockForward(es)
    ensures LastCutoff(es).Some? ==> Clock(es).Some? && LastCutoff(es).value <= Clock(es).value - MINUTE
  {
    if es != [] {
      CutoffBehindClock(es[..|es| - 1]);
    }
  }

  /** Pruning in place loses nothing: the window is the whole history filtered by the latest cutoff. */
  lemma {:induction false} PruningLosesNothing(es: seq<Event>)
    requires ClockForward(es)
    ensures Run(es).window == KeptAfter(Records(es), LastCutoff(es))
  {
    if es != [] {
      var before, e := es[..|es| - 1], es[|es| - 1];
      PruningLosesNothing(before);
      CutoffBehindClock(before);
      match e {
        case FrameHandled =>
        case Recorded(at) =>
          assert Records(es)[..|Records(before)|] == Records(before);
        case Ticked(at) =>
          KeepTwice(Records(before), LastCutoff(before), at - MINUTE);
      }
    }
  }

  /** Every handled frame is reported by exactly one tick or still counted. */
  lemma {:induction false} FramesConserved(es: seq<Event>)
    ensures Taken(es) + Run(es).frames == Handled(es)
  {
    if es != [] {
      FramesConserved(es[..|es| - 1]);
    }
  }
}
