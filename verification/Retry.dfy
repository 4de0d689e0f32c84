/** Exponential backoff with cancellation: worker/pkg/retry/retry.go. Durations are integer nanoseconds. */
module Retry {
  import opened Common

  const MILLISECOND: int := 1_000_000
  const SECOND: int := 1000 * MILLISECOND

  type Error = string

  datatype Config = Config(
    maxAttempts: int, initialDelay: int, maxDelay: int, multiplier: real, jitter: bool)

  /** Unlimited attempts: the schedule of the camera supervisors. */
  function DefaultConfig(): Config {
    Config(0, 500 * MILLISECOND, 30 * SECOND, 2.0, true)
  }

  /** The schedule of one POST to the backend. */
  function PublisherConfig(): Config {
    DefaultConfig().(maxAttempts := 4, initialDelay := 300 * MILLISECOND, maxDelay := 3 * SECOND)
  }

  // ---------- The delay schedule ----------

  function StartDelay(cfg: Config): int {
    if cfg.initialDelay <= 0 then 100 * MILLISECOND else cfg.initialDelay
  }

  function Multiplier(cfg: Config): real {
    if cfg.multiplier <= 0.0 then 2.0 else cfg.multiplier
  }

  function NextDelay(cur: int, mult: real, maxDelay: int): int {
    var next := Trunc(cur as real * mult);
    if maxDelay > 0 && next > maxDelay then maxDelay else next
  }

  /** u is the random draw rand.Float64()*2 - 1. */
  function ApplyJitter(d: int, u: real): int {
    if d <= 0 then d
    else
      var delta := d as real * 0.2;
      var out := Trunc(d as real + u * delta);
      if out < 0 then 0 else out
  }

  /** The unjittered delay after the (k+1)-th failing attempt. */
  function DelayAt(cfg: Config, k: nat): int {
    if k == 0 then StartDelay(cfg)
    else NextDelay(DelayAt(cfg, k - 1), Multiplier(cfg), cfg.maxDelay)
  }

  function WaitAt(cfg: Config, k: nat, u: real): int {
    if cfg.jitter then ApplyJitter(DelayAt(cfg, k), u) else DelayAt(cfg, k)
  }

  function Pow(m: nat, k: nat): nat {
    if k == 0 then 1 else m * Pow(m, k - 1)
  }

  lemma GrowsBy(x: int, m: nat)
    requires x >= 0 && m >= 1
    ensures x * m >= x
  {
  }

  lemma NextDelayGrows(cur: int, mult: real, maxDelay: int)
    requires cur > 0 && mult >= 1.0
    ensures NextDelay(cur, mult, maxDelay) > 0
    ensures maxDelay <= 0 || cur <= maxDelay ==> NextDelay(cur, mult, maxDelay) >= cur
  {
  }

  lemma {:induction false} DelayPositive(cfg: Config, k: nat)
    requires Multiplier(cfg) >= 1.0
    ensures DelayAt(cfg, k) > 0
  {
    if k > 0 {
      DelayPositive(cfg, k - 1);
      NextDelayGrows(DelayAt(cfg, k - 1), Multiplier(cfg), cfg.maxDelay);
    }
  }

  lemma NextDelayWhole(cur: int, m: nat, maxDelay: int)
    requires cur >= 0
    ensures NextDelay(cur, m as real, maxDelay) == if maxDelay > 0 then Min(maxDelay, cur * m) else cur * m
  {
  }

  lemma PowStep(x: int, m: nat, k: nat)
    requires k > 0
    ensures x * Pow(m, k) == x * Pow(m, k - 1) * m
  {
  }

  /** For a whole-number multiplier the delay is a capped power; the first one is never capped. */
  lemma {:induction false} BackoffClosedForm(cfg: Config, m: nat, k: nat)
    requires m >= 1 && Multiplier(cfg) == m as real
    ensures DelayAt(cfg, k) ==
            var uncapped := StartDelay(cfg) * Pow(m, k);
            if cfg.maxDelay <= 0 || k == 0 then uncapped else Min(cfg.maxDelay, uncapped)
  {
    if k > 0 {
      BackoffClosedForm(cfg, m, k - 1);
      var prev := DelayAt(cfg, k - 1);
      var p := StartDelay(cfg) * Pow(m, k - 1);
      PowStep(StartDelay(cfg), m, k);
      DelayPositive(cfg, k - 1);
      NextDelayWhole(prev, m, cfg.maxDelay);
      GrowsBy(prev, m);
      if prev != p {
        GrowsBy(p, m);
      }
    }
  }

  lemma DelayStepMonotone(cfg: Config, k: nat)
    requires Multiplier(cfg) >= 1.0
    requires cfg.maxDelay <= 0 || StartDelay(cfg) <= cfg.maxDelay
    ensures DelayAt(cfg, k) <= DelayAt(cfg, k + 1)
  {
    DelayPositive(cfg, k);
    DelayCapped(cfg, k);
    NextDelayGrows(DelayAt(cfg, k), Multiplier(cfg), cfg.maxDelay);
  }

  /** Delays never shrink exactly when the multiplier is at least one and the first delay within the cap. */
  lemma {:induction false} BackoffMonotoneIff(cfg: Config)
    ensures (forall k: nat :: DelayAt(cfg, k) <= DelayAt(cfg, k + 1))
            <==> Multiplier(cfg) >= 1.0 && (cfg.maxDelay <= 0 || StartDelay(cfg) <= cfg.maxDelay)
  {
    if Multiplier(cfg) >= 1.0 && (cfg.maxDelay <= 0 || StartDelay(cfg) <= cfg.maxDelay) {
      forall k: nat ensures DelayAt(cfg, k) <= DelayAt(cfg, k + 1) {
        DelayStepMonotone(cfg, k);
      }
    } else {
      DelayShrinks(cfg);
    }
  }

  lemma {:induction false} DelayShrinks(cfg: Config)
    requires Multiplier(cfg) < 1.0 || 0 < cfg.maxDelay < StartDelay(cfg)
    ensures DelayAt(cfg, 0 + 1) < DelayAt(cfg, 0)
  {
    if Multiplier(cfg) < 1.0 {
      ScaledDown(StartDelay(cfg), Multiplier(cfg));
    }
  }

  lemma ScaledDown(d: int, mult: real)
    requires d > 0 && 0.0 < mult < 1.0
    ensures Trunc(d as real * mult) < d
  {
  }

  lemma {:induction false} DelayCapped(cfg: Config, k: nat)
    requires cfg.maxDelay <= 0 || StartDelay(cfg) <= cfg.maxDelay
    ensures cfg.maxDelay > 0 ==> DelayAt(cfg, k) <= cfg.maxDelay
  {
  }

  lemma ScaledWithin(u: real, delta: real)
    requires -1.0 <= u <= 1.0 && delta >= 0.0
    ensures -delta <= u * delta <= delta
  {
  }

  /** Each jittered wait stays within 20 percent (dropping the fraction costs less than a nanosecond). */
  lemma JitterWithinFifth(d: int, u: real)
    requires d >= 0 && -1.0 <= u <= 1.0
    ensures 4 * d - 5 < 5 * ApplyJitter(d, u) <= 6 * d
  {
    var delta := d as real * 0.2;
    ScaledWithin(u, delta);
    var j := u * delta;
    var out := d as real + j;
    assert 0.0 <= 0.8 * d as real <= out <= 1.2 * d as real;
    if d > 0 {
      assert ApplyJitter(d, u) == out.Floor;
    }
  }

  /** The draw moves the wait linearly: to the nanosecond it is the delay and its share of a fifth. */
  lemma JitterFollowsDraw(d: int, u: real)
    requires d >= 0 && -1.0 <= u <= 1.0
    ensures var exact := d as real * (1.0 + 0.2 * u);
            exact - 1.0 < ApplyJitter(d, u) as real <= exact
  {
  }

  /** The restarts of a camera pipeline: half a second doubling up to half a minute. */
  lemma {:induction false} SupervisorSchedule(k: nat)
    ensures DelayAt(DefaultConfig(), k) == Min(30 * SECOND, 500 * MILLISECOND * Pow(2, k))
  {
    BackoffClosedForm(DefaultConfig(), 2, k);
  }

  // ---------- Do ----------

  /**
   * What the environment does in one round of the loop: whether the context is seen cancelled at the
   * loop head, what the operation returns, whether the wait is cut short by cancellation, and the draw
   * used for jitter.
   */
  datatype Round = Round(doneAtHead: bool, op: Option<Error>, doneInWait: bool, u: real)

  /** Pending: the environment described so far ends while Do is still running. */
  datatype Outcome = Nil | OpError(e: Error) | CtxError | Pending

  datatype Decision = ReturnNil | GiveUp | Backoff

  /** What the loop does after the attempt-th operation returned. */
  function Decide(maxAttempts: int, attempt: int, result: Option<Error>): Decision {
    if result.None? then ReturnNil
    else if maxAttempts > 0 && attempt >= maxAttempts then GiveUp
    else Backoff
  }

  /** Round k ends with another round to follow. */
  predicate Continues(cfg: Config, r: Round, k: nat) {
    !r.doneAtHead && Decide(cfg.maxAttempts, k + 1, r.op).Backoff? && !r.doneInWait
  }

  /** Declarative meaning of a call: `ops` operations were executed and the call ended as `out`. */
  predicate Explains(cfg: Config, env: seq<Round>, out: Outcome, ops: nat) {
    && ops <= |env|
    && (forall k | 0 <= k < ops :: !env[k].doneAtHead)
    && (forall k | 0 <= k < ops - 1 :: Continues(cfg, env[k], k))
    && match out
       case Nil => ops > 0 && env[ops - 1].op.None?
       case OpError(e) => ops > 0 && env[ops - 1].op == Some(e) && cfg.maxAttempts == ops
       case CtxError =>
         || (ops > 0 && env[ops - 1].op.Some? && env[ops - 1].doneInWait && ops != cfg.maxAttempts)
         || (ops < |env| && env[ops].doneAtHead && (ops > 0 ==> Continues(cfg, env[ops - 1], ops - 1)))
       case Pending => ops == |env| && (ops > 0 ==> Continues(cfg, env[ops - 1], ops - 1))
  }

  method Do(cfg: Config, env: seq<Round>) returns (out: Outcome, ops: nat, waits: seq<int>)
    ensures Explains(cfg, env, out, ops)
    ensures |waits| <= ops
    ensures |waits| == if out.CtxError? && ops > 0 && env[ops - 1].doneInWait then ops
                       else if out.Nil? || out.OpError? then ops - 1 else ops
    ensures forall k | 0 <= k < |waits| :: waits[k] == WaitAt(cfg, k, env[k].u)
  {
    var delay := if cfg.initialDelay <= 0 then 100 * MILLISECOND else cfg.initialDelay;
    var mult := if cfg.multiplier <= 0.0 then 2.0 else cfg.multiplier;
    waits := [];
    ops := 0;
    var attempt := 1;
    while attempt <= |env|
      invariant ops == attempt - 1 <= |env|
      invariant |waits| == ops
      invariant delay == DelayAt(cfg, ops) && mult == Multiplier(cfg)
      invariant forall k | 0 <= k < ops :: Continues(cfg, env[k], k)
      invariant forall k | 0 <= k < ops :: waits[k] == WaitAt(cfg, k, env[k].u)
    {
      var r := env[attempt - 1];
      if r.doneAtHead {
        return CtxError, ops, waits;
      }
      ops := ops + 1;
      if r.op.None? {
        return Nil, ops, waits;
      }
      if cfg.maxAttempts > 0 && attempt >= cfg.maxAttempts {
        assert ops - 2 >= 0 ==> Continues(cfg, env[ops - 2], ops - 2);
        return OpError(r.op.value), ops, waits;
      }
      var wait := delay;
      if cfg.jitter {
        wait := ApplyJitter(wait, r.u);
      }
      waits := waits + [wait];
      if r.doneInWait {
        return CtxError, ops, waits;
      }
      delay := NextDelay(delay, mult, cfg.maxDelay);
      attempt := attempt + 1;
    }
    out := Pending;
  }

  /** The meaning leaves no freedom: any two explanations of one environment agree. */
  lemma OutcomeUnique(cfg: Config, env: seq<Round>, o1: Outcome, n1: nat, o2: Outcome, n2: nat)
    requires Explains(cfg, env, o1, n1) && Explains(cfg, env, o2, n2)
    ensures o1 == o2 && n1 == n2
  {
  }

  /**
   * Outcome and termination. Nil exactly when the last executed operation succeeded; an operation's
   * error only after exactly maxAttempts > 0 failures; a capped call never runs more than maxAttempts
   * operations and is over once that many rounds have passed; no operation starts at or after a loop
   * head that sees cancellation.
   */
  lemma OutcomeAndTermination(cfg: Config, env: seq<Round>, out: Outcome, ops: nat)
    requires Explains(cfg, env, out, ops)
    ensures out.Nil? <==> ops > 0 && env[ops - 1].op.None?
    ensures out.OpError? <==> cfg.maxAttempts > 0 && ops == cfg.maxAttempts && env[ops - 1].op.Some?
    ensures out.OpError? ==> forall k | 0 <= k < ops :: env[k].op.Some?
    ensures cfg.maxAttempts > 0 ==> ops <= cfg.maxAttempts
    ensures cfg.maxAttempts > 0 && |env| >= cfg.maxAttempts ==> !out.Pending?
    ensures forall k | 0 <= k < |env| && env[k].doneAtHead :: ops <= k
  {
    if ops > 1 {
      assert Continues(cfg, env[ops - 2], ops - 2);
    }
    if out.OpError? {
      forall k | 0 <= k < ops ensures env[k].op.Some? {
        assert k < ops - 1 ==> Continues(cfg, env[k], k);
      }
    }
  }

  /** With unlimited attempts and an operation that never succeeds, only cancellation ends the call. */
  lemma UnlimitedNeverGivesUp(cfg: Config, env: seq<Round>, out: Outcome, ops: nat)
    requires cfg.maxAttempts <= 0
    requires forall k | 0 <= k < |env| :: env[k].op.Some?
    requires Explains(cfg, env, out, ops)
    ensures out.CtxError? || out.Pending?
    ensures out.CtxError? <==> exists k :: 0 <= k < |env| && (env[k].doneAtHead || env[k].doneInWait)
  {
  }

  function Sum(s: seq<int>): int {
    if s == [] then 0 else s[0] + Sum(s[1..])
  }

  /**
   * One POST waits at most 2.52 s over its four attempts, and a dropped one has waited at least
   * 1.68 s (less the three dropped fractions of a nanosecond).
   */
  lemma {:induction false} PublisherWaitBound(env: seq<Round>, out: Outcome, ops: nat, waits: seq<int>)
    requires Explains(PublisherConfig(), env, out, ops)
    requires |waits| == if out.Nil? || out.OpError? then ops - 1 else ops
    requires forall k | 0 <= k < |waits| :: waits[k] == WaitAt(PublisherConfig(), k, env[k].u)
    requires forall k | 0 <= k < |env| :: -1.0 <= env[k].u <= 1.0
    ensures |waits| <= 3
    ensures 0 <= Sum(waits) <= 2520 * MILLISECOND
    ensures out.OpError? ==> Sum(waits) >= 1680 * MILLISECOND - 3
  {
    var cfg := PublisherConfig();
    OutcomeAndTermination(cfg, env, out, ops);
    BackoffClosedForm(cfg, 2, 0);
    BackoffClosedForm(cfg, 2, 1);
    BackoffClosedForm(cfg, 2, 2);
    assert Pow(2, 1) == 2 && Pow(2, 2) == 4 by { assert Pow(2, 0) == 1; }
    forall k | 0 <= k < |waits|
      ensures 4 * DelayAt(cfg, k) - 5 < 5 * waits[k] <= 6 * DelayAt(cfg, k)
    {
      JitterWithinFifth(DelayAt(cfg, k), env[k].u);
    }
    SumUnfolds(waits);
  }

  lemma {:induction false} SumUnfolds(s: seq<int>)
    requires |s| <= 3
    ensures Sum(s) == (if |s| > 0 then s[0] else 0) + (if |s| > 1 then s[1] else 0) + (if |s| > 2 then s[2] else 0)
  {
    if |s| > 0 {
      SumUnfolds(s[1..]);
    }
  }
}
