/** Turning the network output into person boxes: worker/internal/detection/detector.go. */
module Detection {
  import opened Common

  const PERSON_CLASS_ID: int := 15
  const COLS: nat := 7

  datatype Detection = Detection(x: real, y: real, w: real, h: real, confidence: real)

  function Clamp01(v: real): real {
    if v < 0.0 then 0.0 else if v > 1.0 then 1.0 else v
  }

  /** Row i of the output: [_, classId, confidence, x1, y1, x2, y2]. */
  function Row(data: seq<real>, i: nat): (row: seq<real>)
    requires (i + 1) * COLS <= |data|
  {
    data[i * COLS..(i + 1) * COLS]
  }

  /** A row reports a person: right class, enough confidence, and a box that is not empty after clamping. */
  predicate ReportsPerson(row: seq<real>, minConf: real)
    requires |row| == COLS
  {
    && Trunc(row[1]) == PERSON_CLASS_ID
    && row[2] >= minConf
    && Clamp01(row[3]) < Clamp01(row[5])
    && Clamp01(row[4]) < Clamp01(row[6])
  }

  /** The box between the clamped corners of a row. */
  function BoxOf(row: seq<real>): Detection
    requires |row| == COLS
  {
    var x, y := Clamp01(row[3]), Clamp01(row[4]);
    Detection(x, y, Clamp01(row[5]) - x, Clamp01(row[6]) - y, row[2])
  }

  /** Indices of the reporting rows among the first n, in order. */
  function PersonRows(data: seq<real>, n: nat, minConf: real): (rows: seq<nat>)
    requires n * COLS <= |data|
    ensures forall k | 0 <= k < |rows| :: rows[k] < n
  {
    if n == 0 then []
    else PersonRows(data, n - 1, minConf) + if ReportsPerson(Row(data, n - 1), minConf) then [n - 1] else []
  }

  /** The boxes of the given rows. */
  function BoxesOf(data: seq<real>, rows: seq<nat>): (boxes: seq<Detection>)
    requires forall k | 0 <= k < |rows| :: (rows[k] + 1) * COLS <= |data|
  {
    seq(|rows|, k requires 0 <= k < |rows| => BoxOf(Row(data, rows[k])))
  }

  lemma {:induction false} PersonRowsExact(data: seq<real>, n: nat, minConf: real)
    requires n * COLS <= |data|
    ensures var rows := PersonRows(data, n, minConf);
            && (forall i, j | 0 <= i < j < |rows| :: rows[i] < rows[j])
            && (forall r: nat | r < n :: r in rows <==> ReportsPerson(Row(data, r), minConf))
  {
    if n > 0 {
      PersonRowsExact(data, n - 1, minConf);
      var before := PersonRows(data, n - 1, minConf);
      var rows := PersonRows(data, n, minConf);
      assert rows == before || rows == before + [n - 1];
      forall r: nat | r < n ensures r in rows <==> ReportsPerson(Row(data, r), minConf) {
        assert r in rows <==> r in before || (r == n - 1 && rows != before);
      }
    }
  }

  /** A row in terms of the flat buffer. */
  lemma RowAt(data: seq<real>, i: nat, minConf: real)
    requires (i + 1) * COLS <= |data|
    ensures var base := i * COLS;
            && (ReportsPerson(Row(data, i), minConf) <==>
                  && Trunc(data[base + 1]) == PERSON_CLASS_ID && data[base + 2] >= minConf
                  && Clamp01(data[base + 3]) < Clamp01(data[base + 5])
                  && Clamp01(data[base + 4]) < Clamp01(data[base + 6]))
            && BoxOf(Row(data, i)) == Detection(Clamp01(data[base + 3]), Clamp01(data[base + 4]),
                                                Clamp01(data[base + 5]) - Clamp01(data[base + 3]),
                                                Clamp01(data[base + 6]) - Clamp01(data[base + 4]), data[base + 2])
  {
  }

  lemma BoxesStep(data: seq<real>, i: nat, minConf: real)
    requires (i + 1) * COLS <= |data|
    ensures BoxesOf(data, PersonRows(data, i + 1, minConf))
            == BoxesOf(data, PersonRows(data, i, minConf))
               + if ReportsPerson(Row(data, i), minConf) then [BoxOf(Row(data, i))] else []
  {
  }

  /**
   * total is the number of values the blob claims to hold; data is None when the buffer cannot be read.
   * The result lists the boxes of exactly the reporting rows, in row order.
   */
  method ParseSSD(total: nat, data: Option<seq<real>>, minConf: real) returns (dets: seq<Detection>)
    ensures data.None? || |data.value| < total / COLS * COLS ==> dets == []
    ensures data.Some? && total / COLS * COLS <= |data.value| ==>
              dets == BoxesOf(data.value, PersonRows(data.value, total / COLS, minConf))
  {
    if total == 0 {
      return [];
    }
    var rows := total / COLS;
    if rows == 0 {
      return [];
    }
    if data.None? || |data.value| < rows * COLS {
      return [];
    }
    dets := PersonBoxes(data.value, rows, minConf);
  }

  /** The loop over the rows. */
  method PersonBoxes(d: seq<real>, rows: nat, minConf: real) returns (dets: seq<Detection>)
    requires rows * COLS <= |d|
    ensures dets == BoxesOf(d, PersonRows(d, rows, minConf))
  {
    dets := [];
    var i := 0;
    while i < rows
      invariant 0 <= i <= rows
      invariant dets == BoxesOf(d, PersonRows(d, i, minConf))
    {
      var base := i * COLS;
      RowAt(d, i, minConf);
      BoxesStep(d, i, minConf);
      var classID := Trunc(d[base + 1]);
      var conf := d[base + 2];
      i := i + 1;
      if classID != PERSON_CLASS_ID || conf < minConf {
        continue;
      }
      var x := Clamp01(d[base + 3]);
      var y := Clamp01(d[base + 4]);
      var w := Clamp01(d[base + 5]) - x;
      var h := Clamp01(d[base + 6]) - y;
      if w <= 0.0 || h <= 0.0 {
        continue;
      }
      dets := dets + [Detection(x, y, w, h, conf)];
    }
  }

  function Distance(a: real, b: real): real { if a <= b then b - a else a - b }

  /** Clamping moves a value into the unit interval, and no further than needed. */
  lemma ClampIsNearest(v: real, x: real)
    ensures 0.0 <= Clamp01(v) <= 1.0
    ensures 0.0 <= x <= 1.0 ==> Distance(v, Clamp01(v)) <= Distance(v, x)
  {
  }

  /** Strictly between the bounds of an interval that meets the unit interval in more than a point. */
  predicate Meets(lo: real, hi: real) { lo < hi && lo < 1.0 && hi > 0.0 }

  /**
   * A row reports a person exactly when it has class 15, enough confidence, and corners whose rectangle meets
   * the frame in more than an edge: a person partly out of the frame is reported.
   */
  lemma ReportedIff(row: seq<real>, minConf: real)
    requires |row| == COLS
    ensures ReportsPerson(row, minConf)
            <==> 15.0 <= row[1] < 16.0 && row[2] >= minConf && Meets(row[3], row[5]) && Meets(row[4], row[6])
  {
  }

  predicate Inside(px: real, py: real, x1: real, y1: real, x2: real, y2: real) { x1 <= px <= x2 && y1 <= py <= y2 }

  /** Its box is then the part of that rectangle inside the frame. */
  lemma BoxIsVisiblePart(row: seq<real>, minConf: real, px: real, py: real)
    requires |row| == COLS && ReportsPerson(row, minConf)
    ensures var b := BoxOf(row);
            && b.confidence == row[2]
            && (Inside(px, py, b.x, b.y, b.x + b.w, b.y + b.h)
                <==> Inside(px, py, row[3], row[4], row[5], row[6]) && Inside(px, py, 0.0, 0.0, 1.0, 1.0))
  {
  }

  /** Normalised, non-empty, and inside the frame. */
  predicate InFrame(d: Detection) {
    && 0.0 <= d.x < d.x + d.w <= 1.0
    && 0.0 <= d.y < d.y + d.h <= 1.0
  }

  lemma {:induction false} BoxesInFrame(data: seq<real>, n: nat, minConf: real)
    requires n * COLS <= |data|
    ensures forall d | d in BoxesOf(data, PersonRows(data, n, minConf)) :: InFrame(d) && d.confidence >= minConf
  {
    PersonRowsExact(data, n, minConf);
    var rows := PersonRows(data, n, minConf);
    forall k | 0 <= k < |rows|
      ensures InFrame(BoxOf(Row(data, rows[k]))) && BoxOf(Row(data, rows[k])).confidence >= minConf
    {
      assert rows[k] in rows;
    }
  }
}
