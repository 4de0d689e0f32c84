/** Alert dedup and canonical events: worker/internal/eventbus/publisher.go. */
module Publisher {
  import opened Common
  import opened SpacingGate
  import opened Detection
  import Retry

  datatype Event = Event(
    cameraId: string, eventType: string, eventLabel: string, confidence: real, detectionCount: nat,
    boundingBoxes: seq<Detection>, frameTimestamp: int)

  function Lookup(lastSent: map<string, int>, camera: string): Option<int> {
    if camera in lastSent then Some(lastSent[camera]) else None
  }

  /** What one call of the gate leaves behind. */
  function AfterAsk(lastSent: map<string, int>, camera: string, now: int, window: int): map<string, int> {
    if Admits(Lookup(lastSent, camera), now, window) then lastSent[camera := now] else lastSent
  }

  function ClampBox(d: Detection): Detection {
    d.(x := Clamp01(d.x), y := Clamp01(d.y), w := Clamp01(d.w), h := Clamp01(d.h))
  }

  /** The largest of zero and the confidences. */
  predicate IsPeak(c: real, dets: seq<Detection>) {
    && c >= 0.0
    && (forall d | d in dets :: d.confidence <= c)
    && (c == 0.0 || exists d | d in dets :: d.confidence == c)
  }

  /** The canonical event made from one frame's detections. */
  predicate Describes(e: Event, camera: string, dets: seq<Detection>, frameTs: int) {
    && e.cameraId == camera && e.eventType == "person_detected" && e.eventLabel == "person"
    && e.detectionCount == |dets| == |e.boundingBoxes|
    && (forall k | 0 <= k < |dets| :: e.boundingBoxes[k] == ClampBox(dets[k]))
    && IsPeak(e.confidence, dets)
    && e.frameTimestamp == frameTs
  }

  class Publisher {
    const dedupWin: int
    var lastSent: map<string, int>

    constructor (dedupWindow: int)
      ensures dedupWin == dedupWindow && lastSent == map[]
    {
      dedupWin := dedupWindow;
      lastSent := map[];
    }

    method Allow(cameraID: string, now: int) returns (ok: bool)
      modifies this
      ensures ok <==> Admits(Lookup(old(lastSent), cameraID), now, dedupWin)
      ensures lastSent == AfterAsk(old(lastSent), cameraID, now, dedupWin)
    {
      if cameraID in lastSent {
        if now - lastSent[cameraID] < dedupWin {
          return false;
        }
      }
      lastSent := lastSent[cameraID := now];
      ok := true;
    }

    method ResetDedup(cameraID: string)
      modifies this
      ensures Lookup(lastSent, cameraID) == None
      ensures forall c | c != cameraID :: Lookup(lastSent, c) == Lookup(old(lastSent), c)
    {
      lastSent := lastSent - {cameraID};
    }

    /** A POST with bounded retries. Whatever happens to it, the caller continues. */
    method Send(env: seq<Retry.Round>) returns (out: Retry.Outcome, ops: nat)
      ensures Retry.Explains(Retry.PublisherConfig(), env, out, ops)
      ensures ops <= 4
    {
      var waits;
      out, ops, waits := Retry.Do(Retry.PublisherConfig(), env);
      Retry.OutcomeAndTermination(Retry.PublisherConfig(), env, out, ops);
    }

    /**
     * now is the time of the gate decision and env the fate of the POST. The event is Some exactly when
     * the alert passed the gate, whether or not the POST got through; ops counts the POSTs made for it.
     */
    method PublishDetections(cameraID: string, dets: seq<Detection>, frameTs: int, now: int, env: seq<Retry.Round>)
      returns (sent: bool, event: Option<Event>, out: Retry.Outcome, ops: nat)
      modifies this
      ensures sent <==> dets != [] && Admits(Lookup(old(lastSent), cameraID), now, dedupWin)
      ensures lastSent == if dets == [] then old(lastSent) else AfterAsk(old(lastSent), cameraID, now, dedupWin)
      ensures sent <==> event.Some?
      ensures sent ==> Describes(event.value, cameraID, dets, frameTs)
      ensures if sent then Retry.Explains(Retry.PublisherConfig(), env, out, ops) else ops == 0
    {
      if |dets| == 0 {
        return false, None, Retry.Pending, 0;
      }
      var ok := Allow(cameraID, now);
      if !ok {
        return false, None, Retry.Pending, 0;
      }
      var boxes := [];
      var maxConf := 0.0;
      for i := 0 to |dets|
        invariant |boxes| == i
        invariant forall k | 0 <= k < i :: boxes[k] == ClampBox(dets[k])
        invariant IsPeak(maxConf, dets[..i])
      {
        var d := dets[i];
        assert dets[..i + 1] == dets[..i] + [d];
        if d.confidence > maxConf {
          maxConf := d.confidence;
        }
        boxes := boxes + [Detection(Clamp01(d.x), Clamp01(d.y), Clamp01(d.w), Clamp01(d.h), d.confidence)];
      }
      assert dets[..|dets|] == dets;
      event := Some(Event(cameraID, "person_detected", "person", maxConf, |dets|, boxes, frameTs));
      out, ops := Send(env);
      sent := true;
    }
  }

  // ---------- The event contract ----------

  predicate Nearest(c: real, v: real) {
    0.0 <= c <= 1.0 && (v < 0.0 ==> c == 0.0) && (v > 1.0 ==> c == 1.0) && (0.0 <= v <= 1.0 ==> c == v)
  }

  /** Whatever boxes a caller hands over, each of their four numbers arrives as the nearest one of the unit interval. */
  lemma BoxesNormalised(e: Event, camera: string, dets: seq<Detection>, frameTs: int, k: nat)
    requires Describes(e, camera, dets, frameTs) && k < |dets|
    ensures var b, d := e.boundingBoxes[k], dets[k];
            && Nearest(b.x, d.x) && Nearest(b.y, d.y) && Nearest(b.w, d.w) && Nearest(b.h, d.h)
            && b.confidence == d.confidence
  {
  }

  predicate IsMaxConfidence(c: real, dets: seq<Detection>) {
    (exists d | d in dets :: d.confidence == c) && (forall d | d in dets :: d.confidence <= c)
  }

  /** The reported confidence is the largest box confidence exactly when some confidence is not negative. */
  lemma ConfidenceIsMaximumIff(e: Event, camera: string, dets: seq<Detection>, frameTs: int)
    requires Describes(e, camera, dets, frameTs)
    ensures IsMaxConfidence(e.confidence, dets) <==> exists d | d in dets :: d.confidence >= 0.0
  {
  }

  /**
   * From network output to event: with a threshold that is not negative, what ParseSSD returns for a frame
   * with at least one person passes the publisher's second clamp unchanged, every box is in the frame, and
   * the event carries their number (at least one) and their largest confidence.
   */
  lemma {:induction false} DetectionsToEvent(
    data: seq<real>, n: nat, minConf: real, dets: seq<Detection>, e: Event, camera: string, frameTs: int)
    requires n * COLS <= |data| && minConf >= 0.0
    requires dets == BoxesOf(data, PersonRows(data, n, minConf)) && dets != []
    requires Describes(e, camera, dets, frameTs)
    ensures e.boundingBoxes == dets
    ensures forall b | b in e.boundingBoxes :: InFrame(b)
    ensures e.detectionCount == |e.boundingBoxes| >= 1
    ensures IsMaxConfidence(e.confidence, e.boundingBoxes)
  {
    BoxesInFrame(data, n, minConf);
    forall k | 0 <= k < |dets| ensures ClampBox(dets[k]) == dets[k] {
      assert dets[k] in dets;
    }
    assert dets[0] in dets;
    ConfidenceIsMaximumIff(e, camera, dets, frameTs);
  }

  // ---------- Runs of the gate ----------

  datatype Call = Ask(camera: string, now: int) | Reset(camera: string)

  function AfterCall(lastSent: map<string, int>, c: Call, window: int): map<string, int> {
    match c
    case Ask(camera, now) => AfterAsk(lastSent, camera, now, window)
    case Reset(camera) => lastSent - {camera}
  }

  /** The verdicts one camera receives in a run that interleaves the calls of all cameras. */
  function VerdictsFor(lastSent: map<string, int>, calls: seq<Call>, camera: string, window: int): seq<bool>
    decreases |calls|
  {
    if calls == [] then []
    else
      var rest := VerdictsFor(AfterCall(lastSent, calls[0], window), calls[1..], camera, window);
      if calls[0].Ask? && calls[0].camera == camera
      then [Admits(Lookup(lastSent, camera), calls[0].now, window)] + rest else rest
  }

  /** The camera's own calls. */
  function Own(calls: seq<Call>, camera: string): seq<Call> {
    if calls == [] then []
    else if calls[0].camera == camera then [calls[0]] + Own(calls[1..], camera)
    else Own(calls[1..], camera)
  }

  /** Times at which the camera asks. */
  function AskTimes(calls: seq<Call>, camera: string): seq<int> {
    if calls == [] then []
    else if calls[0].Ask? && calls[0].camera == camera then [calls[0].now] + AskTimes(calls[1..], camera)
    else AskTimes(calls[1..], camera)
  }

  predicate NeverReset(calls: seq<Call>, camera: string) {
    forall c | c in calls :: c.Reset? ==> c.camera != camera
  }

  /** Only the camera's own memory and own calls matter. */
  lemma {:induction false} NonInterference(
    m1: map<string, int>, m2: map<string, int>, calls: seq<Call>, camera: string, window: int)
    requires Lookup(m1, camera) == Lookup(m2, camera)
    ensures VerdictsFor(m1, calls, camera, window) == VerdictsFor(m2, Own(calls, camera), camera, window)
    decreases |calls|
  {
    if calls != [] {
      var n1 := AfterCall(m1, calls[0], window);
      if calls[0].camera == camera {
        NonInterference(n1, AfterCall(m2, calls[0], window), calls[1..], camera, window);
        assert Own(calls, camera)[1..] == Own(calls[1..], camera);
      } else {
        NonInterference(n1, m2, calls[1..], camera, window);
      }
    }
  }

  /** Without resets the camera sees a gate of its own. */
  lemma {:induction false} SingleCameraGate(m: map<string, int>, calls: seq<Call>, camera: string, window: int)
    requires NeverReset(calls, camera)
    ensures VerdictsFor(m, calls, camera, window) ==
            Verdicts(Lookup(m, camera), AskTimes(calls, camera), window)
    decreases |calls|
  {
    if calls != [] {
      SingleCameraGate(AfterCall(m, calls[0], window), calls[1..], camera, window);
      if calls[0].Ask? && calls[0].camera == camera {
        assert AskTimes(calls, camera)[1..] == AskTimes(calls[1..], camera);
      }
    }
  }

  /**
   * The dedup gate is spaced and optimal. In any interleaving of cameras without a reset of this one and
   * with a clock that never runs backwards for it, the alerts it passes are at least a window apart and no
   * selection of the offered times that keeps this spacing is larger.
   */
  lemma {:induction false} DedupGateOptimal(calls: seq<Call>, camera: string, window: int, picks: seq<int>)
    requires NeverReset(calls, camera) && Nondecreasing(AskTimes(calls, camera))
    requires IsSubsequence(picks, AskTimes(calls, camera)) && Spaced(picks, window)
    ensures var times := AskTimes(calls, camera);
            var verdicts := VerdictsFor(map[], calls, camera, window);
            && |verdicts| == |times|
            && Spaced(Selected(times, verdicts), window)
            && |picks| <= |Selected(times, verdicts)|
  {
    var times := AskTimes(calls, camera);
    SingleCameraGate(map[], calls, camera, window);
    AdmittedByVerdict(None, times, window);
    AdmittedSpaced(None, times, window);
    GreedyIsMaximal(None, times, picks, window);
  }
}
