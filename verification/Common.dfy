/** Vocabulary shared by the models of the worker, the backend and the browser client. */
module Common {

  datatype Option<+T> = None | Some(value: T)

  /** p can be obtained from s by deleting elements, keeping the order of the rest. */
  predicate IsSubsequence<T(==)>(p: seq<T>, s: seq<T>)
    decreases |s|
  {
    if p == [] then true
    else if s == [] then false
    else (p[0] == s[0] && IsSubsequence(p[1..], s[1..])) || IsSubsequence(p, s[1..])
  }

  lemma {:induction false} SubsequenceAppend<T>(p: seq<T>, s: seq<T>, x: T)
    requires IsSubsequence(p, s)
    ensures IsSubsequence(p, s + [x])
    ensures IsSubsequence(p + [x], s + [x])
    decreases |s|
  {
    if s == [] {
      assert p == [];
    } else {
      assert (s + [x])[1..] == s[1..] + [x];
      if p != [] && p[0] == s[0] && IsSubsequence(p[1..], s[1..]) {
        SubsequenceAppend(p[1..], s[1..], x);
        assert (p + [x])[1..] == p[1..] + [x];
      } else if p != [] {
        SubsequenceAppend(p, s[1..], x);
      } else {
        SubsequenceAppend([], s[1..], x);
        assert p + [x] == [x];
      }
    }
  }

  function Min(a: int, b: int): int { if a <= b then a else b }

  /** Conversion of a float to an integer as Go does it: the fraction is dropped. */
  function Trunc(r: real): int {
    if r >= 0.0 then r.Floor else -((-r).Floor)
  }

  // ---------- Runs of a state machine ----------

  /** The state after the actions in turn; None when one of them is not enabled. */
  function RunFrom<S, A>(step: (S, A) -> Option<S>, s: S, acts: seq<A>): Option<S>
    decreases |acts|
  {
    if acts == [] then Some(s)
    else match step(s, acts[0]) case None => None case Some(t) => RunFrom(step, t, acts[1..])
  }

  /** What every step keeps, every run keeps. */
  lemma {:induction false} RunKeeps<S(!new), A(!new)>(step: (S, A) -> Option<S>, inv: S -> bool, s: S, acts: seq<A>)
    requires forall t, a :: inv(t) && step(t, a).Some? ==> inv(step(t, a).value)
    requires inv(s) && RunFrom(step, s, acts).Some?
    ensures inv(RunFrom(step, s, acts).value)
    decreases |acts|
  {
    if acts != [] {
      RunKeeps(step, inv, step(s, acts[0]).value, acts[1..]);
    }
  }

  lemma {:induction false} RunConcat<S, A>(step: (S, A) -> Option<S>, s: S, p: seq<A>, q: seq<A>)
    ensures RunFrom(step, s, p + q) ==
            if RunFrom(step, s, p).Some? then RunFrom(step, RunFrom(step, s, p).value, q) else None
    decreases |p|
  {
    if p == [] {
      assert p + q == q;
    } else {
      assert (p + q)[1..] == p[1..] + q;
      if step(s, p[0]).Some? {
        RunConcat(step, step(s, p[0]).value, p[1..], q);
      }
    }
  }

  lemma {:induction false} FirstStep<S, A>(step: (S, A) -> Option<S>, s: S, act: A, rest: seq<A>)
    requires step(s, act).Some?
    ensures RunFrom(step, s, [act] + rest) == RunFrom(step, step(s, act).value, rest)
  {
  }
}
