/**
 * "At most one per window": the decision behind the alert dedup gate
 * (worker/internal/eventbus/publisher.go) and the frame throttle (worker/internal/rtsp/rtspClient.go).
 * Both remember the last admitted time and admit a call when it is a full window later.
 */
module SpacingGate {
  import opened Common

  predicate Admits(last: Option<int>, now: int, window: int) {
    last.None? || !(now - last.value < window)
  }

  function Remember(last: Option<int>, now: int, window: int): Option<int> {
    if Admits(last, now, window) then Some(now) else last
  }

  /** The verdicts of one gate on consecutive calls. */
  function Verdicts(last: Option<int>, times: seq<int>, window: int): seq<bool>
    decreases |times|
  {
    if times == [] then []
    else [Admits(last, times[0], window)] + Verdicts(Remember(last, times[0], window), times[1..], window)
  }

  /** The call times a gate admits. */
  function Admitted(last: Option<int>, times: seq<int>, window: int): seq<int>
    decreases |times|
  {
    if times == [] then []
    else if Admits(last, times[0], window) then [times[0]] + Admitted(Some(times[0]), times[1..], window)
    else Admitted(last, times[1..], window)
  }

  predicate Nondecreasing(s: seq<int>) {
    forall i, j | 0 <= i <= j < |s| :: s[i] <= s[j]
  }

  /** Neighbours are at least a window apart. */
  ghost predicate Spaced(s: seq<int>, window: int) {
    forall i, j | 0 <= i < j < |s| && j == i + 1 :: s[j] - s[i] >= window
  }

  lemma {:induction false} AdmittedSpaced(last: Option<int>, times: seq<int>, window: int)
    ensures Spaced(Admitted(last, times, window), window)
    ensures IsSubsequence(Admitted(last, times, window), times)
    ensures var a := Admitted(last, times, window);
            last.Some? && a != [] ==> a[0] - last.value >= window
    decreases |times|
  {
    if times != [] {
      if Admits(last, times[0], window) {
        AdmittedSpaced(Some(times[0]), times[1..], window);
      } else {
        AdmittedSpaced(last, times[1..], window);
        SkipHead(Admitted(last, times[1..], window), times);
      }
    }
  }

  lemma {:induction false} SkipHead(p: seq<int>, s: seq<int>)
    requires s != [] && IsSubsequence(p, s[1..])
    ensures IsSubsequence(p, s)
  {
  }

  lemma {:induction false} SubsequenceFirst(p: seq<int>, s: seq<int>)
    requires Nondecreasing(s) && p != [] && IsSubsequence(p, s)
    ensures s != [] && s[0] <= p[0]
  {
    if p[0] != s[0] || !IsSubsequence(p[1..], s[1..]) {
      SubsequenceFirst(p, s[1..]);
    }
  }

  /** Greedy is optimal: no selection of the offered times that keeps the spacing is larger. */
  lemma {:induction false} GreedyIsMaximal(last: Option<int>, times: seq<int>, picks: seq<int>, window: int)
    requires Nondecreasing(times)
    requires IsSubsequence(picks, times) && Spaced(picks, window)
    requires picks != [] ==> Admits(last, picks[0], window)
    ensures |picks| <= |Admitted(last, times, window)|
    decreases |times|
  {
    if picks != [] {
      var t, rest := times[0], times[1..];
      SubsequenceFirst(picks, times);
      if Admits(last, t, window) {
        var tail := picks[1..];
        assert IsSubsequence(tail, rest) by { DropFirst(picks, times); }
        assert tail != [] ==> tail[0] - picks[0] >= window by {
          assert |picks| > 1 ==> picks[1] - picks[0] >= window;
        }
        assert Spaced(tail, window) by {
          forall i, j | 0 <= i < j < |tail| && j == i + 1 ensures tail[j] - tail[i] >= window {
            assert picks[j + 1] - picks[i + 1] >= window;
          }
        }
        GreedyIsMaximal(Some(t), rest, tail, window);
      } else {
        GreedyIsMaximal(last, rest, picks, window);
      }
    }
  }

  lemma {:induction false} DropFirst(p: seq<int>, s: seq<int>)
    requires p != [] && IsSubsequence(p, s)
    ensures s != [] && IsSubsequence(p[1..], s[1..])
    decreases |s|
  {
    if !(p[0] == s[0] && IsSubsequence(p[1..], s[1..])) {
      DropFirst(p, s[1..]);
      assert s[1..] != [];
    }
  }

  /** Verdicts and admitted times are two views of the same run. */
  lemma {:induction false} AdmittedByVerdict(last: Option<int>, times: seq<int>, window: int)
    ensures |Verdicts(last, times, window)| == |times|
    ensures Admitted(last, times, window) == Selected(times, Verdicts(last, times, window))
    decreases |times|
  {
    if times != [] {
      AdmittedByVerdict(Remember(last, times[0], window), times[1..], window);
    }
  }

  function Selected<T>(xs: seq<T>, verdicts: seq<bool>): seq<T>
    requires |xs| == |verdicts|
  {
    if xs == [] then []
    else (if verdicts[0] then [xs[0]] else []) + Selected(xs[1..], verdicts[1..])
  }

  /** What a gate remembers after consecutive calls. */
  function MemoryAfter(last: Option<int>, times: seq<int>, window: int): Option<int>
    decreases |times|
  {
    if times == [] then last
    else MemoryAfter(Remember(last, times[0], window), times[1..], window)
  }

  lemma {:induction false} OneMoreCall(last: Option<int>, times: seq<int>, t: int, window: int)
    ensures var memory := MemoryAfter(last, times, window);
            && Verdicts(last, times + [t], window) == Verdicts(last, times, window) + [Admits(memory, t, window)]
            && MemoryAfter(last, times + [t], window) == Remember(memory, t, window)
            && |Verdicts(last, times, window)| == |times|
    decreases |times|
  {
    if times != [] {
      OneMoreCall(Remember(last, times[0], window), times[1..], t, window);
      assert (times + [t])[1..] == times[1..] + [t];
    }
  }

  lemma {:induction false} SelectedAppend<T>(xs: seq<T>, verdicts: seq<bool>, x: T, v: bool)
    requires |xs| == |verdicts|
    ensures Selected(xs + [x], verdicts + [v]) == Selected(xs, verdicts) + if v then [x] else []
  {
    if xs != [] {
      SelectedAppend(xs[1..], verdicts[1..], x, v);
      assert (xs + [x])[1..] == xs[1..] + [x] && (verdicts + [v])[1..] == verdicts[1..] + [v];
    } else {
      assert Selected([x], [v]) == if v then [x] else [];
    }
  }

  /** Dropping some of the admitted calls keeps the spacing. */
  lemma {:induction false} ThinnedSpaced(last: Option<int>, times: seq<int>, keep: seq<bool>, window: int)
    requires |keep| == |times| && window >= 0
    requires var verdicts := Verdicts(last, times, window);
             forall k | 0 <= k < |times| && keep[k] :: k < |verdicts| && verdicts[k]
    ensures Spaced(Selected(times, keep), window)
    ensures var kept := Selected(times, keep);
            last.Some? && kept != [] ==> kept[0] - last.value >= window
    decreases |times|
  {
    if times != [] {
      var memory := Remember(last, times[0], window);
      forall k | 0 <= k < |times| - 1 && keep[1..][k]
        ensures k < |Verdicts(memory, times[1..], window)| && Verdicts(memory, times[1..], window)[k]
      {
        assert keep[k + 1];
      }
      ThinnedSpaced(memory, times[1..], keep[1..], window);
    }
  }
}
