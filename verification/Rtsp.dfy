/** Cutting a byte stream into frames and throttling them: worker/internal/rtsp/rtspClient.go. */
module Rtsp {
  import opened Common
  import opened SpacingGate

  const FRAME_WIDTH: nat := 640
  const FRAME_HEIGHT: nat := 480
  const FRAME_BYTES: nat := FRAME_WIDTH * FRAME_HEIGHT * 3

  type Byte = bv8

  datatype Frame = Frame(data: seq<Byte>, capturedAt: int)

  /** Outcome of the three-way select: the one-slot channel took the frame, cancellation won, or the slot was full. */
  datatype Slot = Took | Cancelled | Full

  /** One round of the loop: is the context done at the top, the time after the read, the select's outcome. */
  datatype Round = Round(ctxDone: bool, now: int, slot: Slot)

  datatype Exit = CtxDone | Eof | UnexpectedEof | ReadError(e: string) | StillReading

  function Block(stream: seq<Byte>, k: nat): seq<Byte>
    requires (k + 1) * FRAME_BYTES <= |stream|
  {
    stream[k * FRAME_BYTES..(k + 1) * FRAME_BYTES]
  }

  function Times(frames: seq<Frame>): seq<int> {
    seq(|frames|, k requires 0 <= k < |frames| => frames[k].capturedAt)
  }

  /** The first n blocks of the stream, stamped with the clock. */
  function FramesRead(stream: seq<Byte>, env: seq<Round>, n: nat): (frames: seq<Frame>)
    requires n * FRAME_BYTES <= |stream| && n <= |env|
  {
    seq(n, k requires 0 <= k < n => Frame(Block(stream, k), env[k].now))
  }

  /** Does the throttle admit the k-th frame? */
  predicate PassesThrottle(frames: seq<Frame>, k: nat, interval: int) {
    var verdicts := Verdicts(None, Times(frames), interval);
    k < |verdicts| && verdicts[k]
  }

  /** Which of the frames read reach the channel: those the throttle admits while the slot is free. */
  function Delivered(frames: seq<Frame>, env: seq<Round>, interval: int): seq<bool>
    requires |frames| <= |env|
  {
    seq(|frames|, k requires 0 <= k < |frames| => PassesThrottle(frames, k, interval) && env[k].slot.Took?)
  }

  /** Cancellation won the select for the k-th frame. */
  predicate CancelledAt(frames: seq<Frame>, env: seq<Round>, interval: int, k: int)
    requires |frames| <= |env|
  {
    0 <= k < |frames| && PassesThrottle(frames, k, interval) && env[k].slot.Cancelled?
  }

  /** Cancellation has not won any select so far. */
  predicate Uncancelled(frames: seq<Frame>, env: seq<Round>, interval: int)
    requires |frames| <= |env|
  {
    forall k | 0 <= k < |frames| :: !CancelledAt(frames, env, interval, k)
  }

  /**
   * stream is everything the pipe will ever deliver; then it ends, or fails with an error. n frames are read
   * from it; sent are those put on the channel. The loop ends at the first cancellation it can see or when no
   * whole frame is left.
   */
  method ReadFrames(interval: int, stream: seq<Byte>, failure: Option<string>, env: seq<Round>)
    returns (exit: Exit, sent: seq<Frame>, n: nat)
    ensures n * FRAME_BYTES <= |stream| && n <= |env|
    ensures var frames := FramesRead(stream, env, n);
            && sent == Selected(frames, Delivered(frames, env, interval))
            && (n > 0 ==> Uncancelled(frames[..n - 1], env, interval))
            && (exit.CtxDone? <==> CancelledAt(frames, env, interval, n - 1) || (n < |env| && env[n].ctxDone))
    ensures forall k | 0 <= k < n :: !env[k].ctxDone
    ensures exit.Eof? || exit.UnexpectedEof? || exit.ReadError? ==>
              && n < |env| && |stream| < (n + 1) * FRAME_BYTES
              && exit == match failure
                         case Some(e) => ReadError(e)
                         case None => if |stream| == n * FRAME_BYTES then Eof else UnexpectedEof
    ensures exit.StillReading? ==> n == |env|
  {
    var lastSent: Option<int> := None;
    var offset := 0;
    sent, n := [], 0;
    ghost var frames: seq<Frame> := [];
    while n < |env|
      invariant n <= |env| && offset == n * FRAME_BYTES <= |stream|
      invariant frames == FramesRead(stream, env, n)
      invariant sent == Selected(frames, Delivered(frames, env, interval))
      invariant lastSent == MemoryAfter(None, Times(frames), interval)
      invariant forall k | 0 <= k < n :: !env[k].ctxDone
      invariant Uncancelled(frames, env, interval)
    {
      if env[n].ctxDone {
        UncancelledPrefix(frames, env, interval);
        return CtxDone, sent, n;
      }
      if |stream| - offset < FRAME_BYTES {
        UncancelledPrefix(frames, env, interval);
        if failure.Some? {
          return ReadError(failure.value), sent, n;
        }
        return if offset == |stream| then Eof else UnexpectedEof, sent, n;
      }
      var buf := stream[offset..offset + FRAME_BYTES];
      offset := offset + FRAME_BYTES;
      var now := env[n].now;
      var frame := Frame(buf, now);
      DeliveredStep(frames, frame, env, interval);
      n := n + 1;
      OneMoreFrame(stream, env, n - 1);
      frames := frames + [frame];
      if lastSent.Some? && now - lastSent.value < interval {
        continue;
      }
      lastSent := Some(now);
      match env[n - 1].slot {
        case Took =>
          sent := sent + [frame];
        case Cancelled =>
          return CtxDone, sent, n;
        case Full =>
      }
    }
    UncancelledPrefix(frames, env, interval);
    exit := StillReading;
  }

  lemma OneMoreFrame(stream: seq<Byte>, env: seq<Round>, n: nat)
    requires (n + 1) * FRAME_BYTES <= |stream| && n < |env|
    ensures var offset := n * FRAME_BYTES;
            && FramesRead(stream, env, n + 1)
               == FramesRead(stream, env, n) + [Frame(stream[offset..offset + FRAME_BYTES], env[n].now)]
            && FramesRead(stream, env, n + 1)[..n] == FramesRead(stream, env, n)
  {
  }

  /** What one more frame changes. */
  lemma {:induction false} DeliveredStep(frames: seq<Frame>, f: Frame, env: seq<Round>, interval: int)
    requires |frames| < |env|
    ensures var memory := MemoryAfter(None, Times(frames), interval);
            var frames' := frames + [f];
            && MemoryAfter(None, Times(frames'), interval) == Remember(memory, f.capturedAt, interval)
            && (Uncancelled(frames', env, interval)
                <==> Uncancelled(frames, env, interval) && !CancelledAt(frames', env, interval, |frames|))
            && (CancelledAt(frames', env, interval, |frames|)
                <==> Admits(memory, f.capturedAt, interval) && env[|frames|].slot.Cancelled?)
            && Selected(frames', Delivered(frames', env, interval)) ==
               Selected(frames, Delivered(frames, env, interval))
               + if Admits(memory, f.capturedAt, interval) && env[|frames|].slot.Took? then [f] else []
  {
    var memory := MemoryAfter(None, Times(frames), interval);
    var v := Admits(memory, f.capturedAt, interval) && env[|frames|].slot.Took?;
    var frames' := frames + [f];
    assert Times(frames') == Times(frames) + [f.capturedAt];
    OneMoreCall(None, Times(frames), f.capturedAt, interval);
    assert forall k: nat | k < |frames| :: PassesThrottle(frames', k, interval) <==> PassesThrottle(frames, k, interval);
    assert Delivered(frames', env, interval) == Delivered(frames, env, interval) + [v];
    SelectedAppend(frames, Delivered(frames, env, interval), f, v);
    UncancelledStep(frames, f, env, interval);
  }

  lemma UncancelledStep(frames: seq<Frame>, f: Frame, env: seq<Round>, interval: int)
    requires |frames| < |env|
    requires forall k: nat | k < |frames| ::
               PassesThrottle(frames + [f], k, interval) <==> PassesThrottle(frames, k, interval)
    ensures Uncancelled(frames + [f], env, interval)
            <==> Uncancelled(frames, env, interval) && !CancelledAt(frames + [f], env, interval, |frames|)
  {
    var frames' := frames + [f];
    forall k | 0 <= k < |frames|
      ensures CancelledAt(frames', env, interval, k) <==> CancelledAt(frames, env, interval, k)
    {
    }
  }

  lemma UncancelledPrefix(frames: seq<Frame>, env: seq<Round>, interval: int)
    requires |frames| <= |env| && Uncancelled(frames, env, interval)
    ensures !CancelledAt(frames, env, interval, |frames| - 1)
    ensures frames != [] ==> Uncancelled(frames[..|frames| - 1], env, interval)
  {
    if frames != [] {
      var last := |frames| - 1;
      assert frames == frames[..last] + [frames[last]];
      DeliveredStep(frames[..last], frames[last], env, interval);
    }
  }

  function Concat(frames: seq<Frame>): seq<Byte> {
    if frames == [] then [] else Concat(frames[..|frames| - 1]) + frames[|frames| - 1].data
  }

  /** The frames put together again are a prefix of the stream. */
  lemma FramesArePrefix(stream: seq<Byte>, env: seq<Round>, n: nat)
    requires n * FRAME_BYTES <= |stream| && n <= |env|
    ensures Concat(FramesRead(stream, env, n)) == stream[..n * FRAME_BYTES]
  {
    if n > 0 {
      FramesArePrefix(stream, env, n - 1);
      assert FramesRead(stream, env, n)[..n - 1] == FramesRead(stream, env, n - 1);
      assert stream[..(n - 1) * FRAME_BYTES] + Block(stream, n - 1) == stream[..n * FRAME_BYTES];
    }
  }

  lemma {:induction false} SelectedIsSubsequence<T>(xs: seq<T>, keep: seq<bool>)
    requires |xs| == |keep|
    ensures IsSubsequence(Selected(xs, keep), xs)
  {
    if xs != [] {
      SelectedIsSubsequence(xs[1..], keep[1..]);
      var rest := Selected(xs[1..], keep[1..]);
      assert Selected(xs, keep) == if keep[0] then [xs[0]] + rest else rest;
      assert ([xs[0]] + rest)[1..] == rest;
      assert rest == [] || !keep[0] ==> IsSubsequence(Selected(xs, keep)[if keep[0] then 1 else 0..], xs[1..]);
    }
  }

  lemma {:induction false} TimesSelected(frames: seq<Frame>, keep: seq<bool>)
    requires |frames| == |keep|
    ensures Times(Selected(frames, keep)) == Selected(Times(frames), keep)
  {
    if frames != [] {
      TimesSelected(frames[1..], keep[1..]);
      assert Times(frames)[1..] == Times(frames[1..]);
    }
  }

  /**
   * Frames handed to detection are frames of the stream in order, captured at least an interval apart,
   * although a frame dropped at a full slot also counts for the throttle.
   */
  lemma {:induction false} SentSpaced(frames: seq<Frame>, env: seq<Round>, interval: int, sent: seq<Frame>)
    requires interval >= 0 && |frames| <= |env|
    requires sent == Selected(frames, Delivered(frames, env, interval))
    ensures IsSubsequence(sent, frames)
    ensures Spaced(Times(sent), interval)
  {
    var keep := Delivered(frames, env, interval);
    SelectedIsSubsequence(frames, keep);
    TimesSelected(frames, keep);
    ThinnedSpaced(None, Times(frames), keep, interval);
  }
}
