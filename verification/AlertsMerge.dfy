/** The alert list of one camera tile: frontend/src/hooks/useAlerts.ts. */
module AlertsMerge {
  import opened Common

  const MAX_ALERTS: nat := 20

  /** frameTimestamp is the parsed instant; body stands for the remaining fields. */
  datatype Alert = Alert(id: string, frameTimestamp: int, body: string)

  function Take<T>(xs: seq<T>, n: nat): seq<T> {
    if |xs| <= n then xs else xs[..n]
  }

  predicate HasId(alerts: seq<Alert>, id: string) {
    exists i | 0 <= i < |alerts| :: alerts[i].id == id
  }

  /** The live buffer after one alert: newest first, bounded, ignored when its id is already there. */
  function Receive(prev: seq<Alert>, a: Alert): seq<Alert> {
    if HasId(prev, a.id) then prev else Take([a] + prev, MAX_ALERTS)
  }

  /** The buffer after a sequence of live alerts. */
  function Buffer(arrivals: seq<Alert>): seq<Alert> {
    if arrivals == [] then [] else Receive(Buffer(arrivals[..|arrivals| - 1]), arrivals[|arrivals| - 1])
  }

  /** The same without a bound: every live alert, newest first. */
  function Reversed(arrivals: seq<Alert>): seq<Alert> {
    if arrivals == [] then [] else [arrivals[|arrivals| - 1]] + Reversed(arrivals[..|arrivals| - 1])
  }

  /** The first occurrence of each id that is not in seen. */
  function Dedup(alerts: seq<Alert>, seen: set<string>): seq<Alert>
    decreases |alerts|
  {
    if alerts == [] then []
    else if alerts[0].id in seen then Dedup(alerts[1..], seen)
    else [alerts[0]] + Dedup(alerts[1..], seen + {alerts[0].id})
  }

  /** Stable insertion: behind every element that is not older. */
  function Insert(sorted: seq<Alert>, a: Alert): seq<Alert> {
    if sorted == [] then [a]
    else if sorted[0].frameTimestamp >= a.frameTimestamp then [sorted[0]] + Insert(sorted[1..], a)
    else [a] + sorted
  }

  /** The stable sort by descending timestamp. */
  function SortDesc(alerts: seq<Alert>): seq<Alert> {
    if alerts == [] then [] else Insert(SortDesc(alerts[..|alerts| - 1]), alerts[|alerts| - 1])
  }

  function Merged(live: seq<Alert>, fetched: seq<Alert>): seq<Alert> {
    Take(SortDesc(Dedup(live + fetched, {})), MAX_ALERTS)
  }

  // ---------- The merge ----------

  lemma {:induction false} DedupAppend(xs: seq<Alert>, a: Alert, seen: set<string>)
    ensures Dedup(xs + [a], seen) ==
            Dedup(xs, seen) + if a.id in seen || HasId(xs, a.id) then [] else [a]
    decreases |xs|
  {
    if xs == [] {
      assert xs + [a] == [a];
      assert Dedup([a], seen) == if a.id in seen then [] else [a];
    } else {
      var seen' := seen + {xs[0].id};
      assert (xs + [a])[1..] == xs[1..] + [a];
      DedupAppend(xs[1..], a, if xs[0].id in seen then seen else seen');
      assert HasId(xs, a.id) <==> xs[0].id == a.id || HasId(xs[1..], a.id) by {
        assert xs[0].id == a.id ==> HasId(xs, a.id);
        assert HasId(xs[1..], a.id) ==> HasId(xs, a.id) by {
          if HasId(xs[1..], a.id) {
            var i :| 0 <= i < |xs[1..]| && xs[1..][i].id == a.id;
            assert xs[i + 1].id == a.id;
          }
        }
        if HasId(xs, a.id) {
          var i :| 0 <= i < |xs| && xs[i].id == a.id;
          assert i > 0 ==> xs[1..][i - 1].id == a.id;
        }
      }
    }
  }

  /** One render: the loop over live then fetched alerts, the library's sort, the cut to twenty. */
  method Merge(live: seq<Alert>, fetched: seq<Alert>) returns (alerts: seq<Alert>)
    ensures alerts == Merged(live, fetched)
  {
    var all := live + fetched;
    var seen: set<string> := {};
    var merged: seq<Alert> := [];
    for i := 0 to |all|
      invariant merged == Dedup(all[..i], {})
      invariant forall id :: id in seen <==> HasId(all[..i], id)
    {
      var a := all[i];
      DedupAppend(all[..i], a, {});
      assert all[..i + 1] == all[..i] + [a];
      ghost var before := seen;
      if a.id !in seen {
        seen := seen + {a.id};
        merged := merged + [a];
      }
      forall id ensures id in seen <==> HasId(all[..i + 1], id) {
        assert all[..i + 1][i] == a;
        if HasId(all[..i], id) {
          var j :| 0 <= j < i && all[..i][j].id == id;
          assert all[..i + 1][j].id == id;
        }
        if HasId(all[..i + 1], id) && id != a.id {
          var j :| 0 <= j < i + 1 && all[..i + 1][j].id == id;
          assert all[..i][j].id == id;
        }
      }
    }
    assert all[..|all|] == all;
    merged := SortDesc(merged);
    alerts := if |merged| <= MAX_ALERTS then merged else merged[..MAX_ALERTS];
  }

  // ---------- The sort is the stable one ----------

  predicate Descending(alerts: seq<Alert>) {
    forall i, j | 0 <= i < j < |alerts| :: alerts[i].frameTimestamp >= alerts[j].frameTimestamp
  }

  /** The alerts of one instant, in order. */
  function AtInstant(alerts: seq<Alert>, t: int): seq<Alert> {
    if alerts == [] then []
    else (if alerts[0].frameTimestamp == t then [alerts[0]] else []) + AtInstant(alerts[1..], t)
  }

  lemma {:induction false} AtInstantLast(alerts: seq<Alert>, a: Alert, t: int)
    ensures AtInstant(alerts + [a], t) == AtInstant(alerts, t) + if a.frameTimestamp == t then [a] else []
  {
    if alerts == [] {
      assert [a][1..] == [];
    } else {
      AtInstantLast(alerts[1..], a, t);
      assert (alerts + [a])[1..] == alerts[1..] + [a];
    }
  }

  lemma {:induction false} InsertDescending(sorted: seq<Alert>, a: Alert)
    requires Descending(sorted)
    ensures Descending(Insert(sorted, a))
  {
    if sorted != [] && sorted[0].frameTimestamp >= a.frameTimestamp {
      InsertDescending(sorted[1..], a);
      InsertElements(sorted[1..], a);
      var rest := Insert(sorted[1..], a);
      forall i | 0 <= i < |rest| ensures rest[i].frameTimestamp <= sorted[0].frameTimestamp {
        assert rest[i] in rest;
      }
    }
  }

  lemma {:induction false} InsertStable(sorted: seq<Alert>, a: Alert, t: int)
    requires Descending(sorted)
    ensures AtInstant(Insert(sorted, a), t) == AtInstant(sorted, t) + if a.frameTimestamp == t then [a] else []
  {
    if sorted != [] && sorted[0].frameTimestamp >= a.frameTimestamp {
      InsertStable(sorted[1..], a, t);
      assert Insert(sorted, a)[1..] == Insert(sorted[1..], a);
    } else {
      assert ([a] + sorted)[1..] == sorted;
      if a.frameTimestamp == t {
        NoneOlder(sorted, t);
      }
    }
  }

  lemma {:induction false} NoneOlder(sorted: seq<Alert>, t: int)
    requires forall x | x in sorted :: x.frameTimestamp < t
    ensures AtInstant(sorted, t) == []
  {
    if sorted != [] {
      NoneOlder(sorted[1..], t);
    }
  }

  /** Descending in time, and the alerts of each instant keep their order. */
  lemma {:induction false} SortIsStable(alerts: seq<Alert>, t: int)
    ensures Descending(SortDesc(alerts))
    ensures AtInstant(SortDesc(alerts), t) == AtInstant(alerts, t)
  {
    if alerts != [] {
      var before, a := alerts[..|alerts| - 1], alerts[|alerts| - 1];
      SortIsStable(before, t);
      InsertDescending(SortDesc(before), a);
      InsertStable(SortDesc(before), a, t);
      AtInstantLast(before, a, t);
      assert alerts == before + [a];
    }
  }

  // ---------- The live buffer ----------

  predicate DistinctIds(alerts: seq<Alert>) {
    forall i, j | 0 <= i < j < |alerts| :: alerts[i].id != alerts[j].id
  }

  predicate Chronological(alerts: seq<Alert>) {
    forall i, j | 0 <= i < j < |alerts| :: alerts[i].frameTimestamp <= alerts[j].frameTimestamp
  }

  lemma {:induction false} ReversedAt(arrivals: seq<Alert>)
    ensures |Reversed(arrivals)| == |arrivals|
    ensures forall i | 0 <= i < |arrivals| :: Reversed(arrivals)[i] == arrivals[|arrivals| - 1 - i]
  {
    if arrivals != [] {
      ReversedAt(arrivals[..|arrivals| - 1]);
    }
  }

  /** The buffer holds the newest twenty live alerts. */
  lemma {:induction false} BufferIsNewest(arrivals: seq<Alert>)
    requires DistinctIds(arrivals)
    ensures Buffer(arrivals) == Take(Reversed(arrivals), MAX_ALERTS)
  {
    if arrivals != [] {
      var before, a := arrivals[..|arrivals| - 1], arrivals[|arrivals| - 1];
      BufferIsNewest(before);
      ReversedAt(before);
      assert !HasId(Buffer(before), a.id);
      assert Take([a] + Take(Reversed(before), MAX_ALERTS), MAX_ALERTS) == Take([a] + Reversed(before), MAX_ALERTS);
    }
  }

  /**
   * A live alert whose id is in the buffer already changes nothing, so ids in the buffer are distinct whatever
   * arrives; any other alert comes first, and nothing else is lost but the twenty-first.
   */
  lemma {:induction false} BufferStaysDistinct(arrivals: seq<Alert>)
    ensures |Buffer(arrivals)| <= MAX_ALERTS && DistinctIds(Buffer(arrivals))
    ensures arrivals != [] ==>
              var before, a := Buffer(arrivals[..|arrivals| - 1]), arrivals[|arrivals| - 1];
              if HasId(before, a.id) then Buffer(arrivals) == before
              else Buffer(arrivals) == [a] + Take(before, MAX_ALERTS - 1)
  {
    if arrivals != [] {
      BufferStaysDistinct(arrivals[..|arrivals| - 1]);
    }
  }

  /** What the merge keeps: of every id its first copy, in order. */
  lemma {:induction false} DedupKeepsFirst(xs: seq<Alert>, seen: set<string>)
    ensures DistinctIds(Dedup(xs, seen)) && Ids(Dedup(xs, seen)) == Ids(xs) - seen
    ensures forall j | 0 <= j < |xs| ::
              xs[j] in Dedup(xs, seen) <== xs[j].id !in seen && forall i | 0 <= i < j :: xs[i].id != xs[j].id
    decreases |xs|
  {
    if xs != [] {
      var x, rest := xs[0], xs[1..];
      var later := if x.id in seen then seen else seen + {x.id};
      DedupKeepsFirst(rest, later);
      assert xs == [x] + rest;
      IdsOfConcat([x], rest);
      IdsOfConcat([x], Dedup(rest, later));
      forall i | 0 <= i < |Dedup(rest, later)| ensures Dedup(rest, later)[i].id !in later {
        assert Dedup(rest, later)[i].id in Ids(Dedup(rest, later));
      }
      forall j | 0 <= j < |xs| && xs[j].id !in seen && forall i | 0 <= i < j :: xs[i].id != xs[j].id
        ensures xs[j] in Dedup(xs, seen)
      {
        if j > 0 {
          assert rest[j - 1] == xs[j] && xs[0].id != xs[j].id;
          assert forall i | 0 <= i < j - 1 :: rest[i] == xs[i + 1];
        }
      }
    }
  }

  // ---------- Losing old live alerts is invisible ----------

  function Ids(alerts: seq<Alert>): set<string> {
    set a | a in alerts :: a.id
  }

  function Fold(sorted: seq<Alert>, ys: seq<Alert>): seq<Alert>
    decreases |ys|
  {
    if ys == [] then sorted else Fold(Insert(sorted, ys[0]), ys[1..])
  }

  /** The same fold that keeps only the first n after each insertion. */
  function TopFold(top: seq<Alert>, ys: seq<Alert>, n: nat): seq<Alert>
    decreases |ys|
  {
    if ys == [] then top else TopFold(Take(Insert(top, ys[0]), n), ys[1..], n)
  }

  lemma {:induction false} FoldLast(sorted: seq<Alert>, ys: seq<Alert>, y: Alert)
    ensures Fold(sorted, ys + [y]) == Insert(Fold(sorted, ys), y)
    decreases |ys|
  {
    if ys == [] {
      assert (ys + [y])[1..] == [];
    } else {
      FoldLast(Insert(sorted, ys[0]), ys[1..], y);
      assert (ys + [y])[1..] == ys[1..] + [y];
    }
  }

  lemma {:induction false} SortOfConcat(xs: seq<Alert>, ys: seq<Alert>)
    ensures SortDesc(xs + ys) == Fold(SortDesc(xs), ys)
  {
    if ys == [] {
      assert xs + ys == xs;
    } else {
      var last := |ys| - 1;
      SortOfConcat(xs, ys[..last]);
      FoldLast(SortDesc(xs), ys[..last], ys[last]);
      assert ys[..last] + [ys[last]] == ys;
      assert (xs + ys)[..|xs + ys| - 1] == xs + ys[..last];
    }
  }

  lemma {:induction false} TakeInsert(sorted: seq<Alert>, a: Alert, n: nat)
    ensures Take(Insert(sorted, a), n) == Take(Insert(Take(sorted, n), a), n)
  {
    if n > 0 && sorted != [] && sorted[0].frameTimestamp >= a.frameTimestamp {
      TakeInsert(sorted[1..], a, n - 1);
      var rest := Insert(sorted[1..], a);
      assert Take([sorted[0]] + rest, n) == [sorted[0]] + Take(rest, n - 1);
      var top := Take(sorted, n);
      assert top[1..] == Take(sorted[1..], n - 1) && top[0] == sorted[0];
      var rest2 := Insert(top[1..], a);
      assert Take([top[0]] + rest2, n) == [top[0]] + Take(rest2, n - 1);
    } else if n > 0 && sorted != [] {
      assert Take([a] + sorted, n) == Take([a] + Take(sorted, n), n);
    }
  }

  lemma {:induction false} TopOfFold(sorted: seq<Alert>, ys: seq<Alert>, n: nat)
    ensures Take(Fold(sorted, ys), n) == TopFold(Take(sorted, n), ys, n)
    decreases |ys|
  {
    if ys != [] {
      TakeInsert(sorted, ys[0], n);
      TopOfFold(Insert(sorted, ys[0]), ys[1..], n);
    }
  }

  /** n alerts, none older than the cut. */
  predicate FullAbove(top: seq<Alert>, n: nat, cut: int) {
    |top| == n && forall i | 0 <= i < n :: top[i].frameTimestamp >= cut
  }

  lemma {:induction false} InsertBehind(sorted: seq<Alert>, a: Alert)
    requires forall i | 0 <= i < |sorted| :: sorted[i].frameTimestamp >= a.frameTimestamp
    ensures Insert(sorted, a) == sorted + [a]
  {
    if sorted != [] {
      InsertBehind(sorted[1..], a);
      assert sorted == [sorted[0]] + sorted[1..];
    }
  }

  lemma {:induction false} InsertElements(sorted: seq<Alert>, a: Alert)
    ensures |Insert(sorted, a)| == |sorted| + 1
    ensures forall x | x in Insert(sorted, a) :: x == a || x in sorted
  {
    if sorted != [] && sorted[0].frameTimestamp >= a.frameTimestamp {
      InsertElements(sorted[1..], a);
    }
  }

  lemma {:induction false} TopStep(top: seq<Alert>, a: Alert, n: nat, cut: int)
    requires FullAbove(top, n, cut)
    ensures FullAbove(Take(Insert(top, a), n), n, cut)
    ensures a.frameTimestamp <= cut ==> Take(Insert(top, a), n) == top
  {
    InsertElements(top, a);
    if a.frameTimestamp <= cut {
      InsertBehind(top, a);
    } else {
      var out := Insert(top, a);
      forall i | 0 <= i < n ensures out[i].frameTimestamp >= cut {
        assert out[i] in out;
      }
    }
  }

  lemma {:induction false} OldOnesVanish(top: seq<Alert>, dropped: seq<Alert>, ys: seq<Alert>, n: nat, cut: int)
    requires FullAbove(top, n, cut)
    requires forall i | 0 <= i < |dropped| :: dropped[i].frameTimestamp <= cut
    ensures TopFold(top, dropped + ys, n) == TopFold(top, ys, n)
    decreases |dropped|
  {
    if dropped == [] {
      assert dropped + ys == ys;
    } else {
      TopStep(top, dropped[0], n, cut);
      OldOnesVanish(top, dropped[1..], ys, n, cut);
      assert (dropped + ys)[1..] == dropped[1..] + ys;
    }
  }

  lemma DistinctTail(xs: seq<Alert>)
    requires DistinctIds(xs) && xs != []
    ensures DistinctIds(xs[1..])
    ensures forall i | 0 <= i < |xs| - 1 :: xs[1..][i] == xs[i + 1] && xs[1..][i].id != xs[0].id
  {
  }

  lemma {:induction false} DedupNew(x: Alert, rest: seq<Alert>, seen: set<string>)
    requires x.id !in seen
    ensures Dedup([x] + rest, seen) == [x] + Dedup(rest, seen + {x.id})
  {
  }

  lemma {:induction false} DedupAfterDistinct(xs: seq<Alert>, ys: seq<Alert>, seen: set<string>)
    requires DistinctIds(xs) && forall i | 0 <= i < |xs| :: xs[i].id !in seen
    ensures Dedup(xs + ys, seen) == xs + Dedup(ys, seen + Ids(xs))
    decreases |xs|
  {
    if xs == [] {
      assert xs + ys == ys && seen + Ids(xs) == seen;
    } else {
      var x, rest := xs[0], xs[1..];
      DistinctTail(xs);
      DedupNew(x, rest + ys, seen);
      DedupAfterDistinct(rest, ys, seen + {x.id});
      assert xs + ys == [x] + (rest + ys);
      Regroup(xs, seen, Dedup(ys, seen + {x.id} + Ids(rest)));
    }
  }

  lemma Regroup(xs: seq<Alert>, seen: set<string>, tail: seq<Alert>)
    requires xs != []
    ensures seen + {xs[0].id} + Ids(xs[1..]) == seen + Ids(xs)
    ensures [xs[0]] + (xs[1..] + tail) == xs + tail
  {
  }

  lemma {:induction false} SortOfDescending(xs: seq<Alert>)
    requires Descending(xs)
    ensures SortDesc(xs) == xs
  {
    if xs != [] {
      SortOfDescending(xs[..|xs| - 1]);
      InsertBehind(xs[..|xs| - 1], xs[|xs| - 1]);
    }
  }

  lemma {:induction false} SortedTop(kept: seq<Alert>, ys: seq<Alert>)
    requires Descending(kept)
    ensures Take(SortDesc(kept + ys), |kept|) == TopFold(kept, ys, |kept|)
  {
    SortOfDescending(kept);
    SortOfConcat(kept, ys);
    TopOfFold(kept, ys, |kept|);
  }

  lemma IdsOfConcat(xs: seq<Alert>, ys: seq<Alert>)
    ensures Ids(xs + ys) == Ids(xs) + Ids(ys)
  {
  }

  lemma {:induction false} KeptTop(kept: seq<Alert>, fetched: seq<Alert>)
    requires |kept| == MAX_ALERTS && DistinctIds(kept) && Descending(kept)
    ensures Merged(kept, fetched) == TopFold(kept, Dedup(fetched, Ids(kept)), MAX_ALERTS)
  {
    DedupAfterDistinct(kept, fetched, {});
    assert {} + Ids(kept) == Ids(kept);
    SortedTop(kept, Dedup(fetched, Ids(kept)));
  }

  lemma {:induction false} HistoryTop(kept: seq<Alert>, dropped: seq<Alert>, fetched: seq<Alert>)
    requires |kept| == MAX_ALERTS && DistinctIds(kept + dropped) && Descending(kept)
    ensures Merged(kept + dropped, fetched)
            == TopFold(kept, dropped + Dedup(fetched, Ids(kept) + Ids(dropped)), MAX_ALERTS)
  {
    var many := Dedup(fetched, Ids(kept) + Ids(dropped));
    DedupAfterDistinct(kept + dropped, fetched, {});
    IdsOfConcat(kept, dropped);
    assert {} + Ids(kept + dropped) == Ids(kept) + Ids(dropped);
    assert (kept + dropped) + many == kept + (dropped + many);
    SortedTop(kept, dropped + many);
  }

  // What becomes of a list when the alerts with some ids are left out.

  function WithoutIds(xs: seq<Alert>, ids: set<string>): seq<Alert> {
    if xs == [] then []
    else if xs[0].id in ids then WithoutIds(xs[1..], ids)
    else [xs[0]] + WithoutIds(xs[1..], ids)
  }

  lemma {:induction false} WithoutElements(xs: seq<Alert>, ids: set<string>)
    ensures forall x | x in WithoutIds(xs, ids) :: x in xs && x.id !in ids
    ensures (forall x | x in xs :: x.id !in ids) ==> WithoutIds(xs, ids) == xs
  {
    if xs != [] {
      WithoutElements(xs[1..], ids);
      assert xs == [xs[0]] + xs[1..];
    }
  }

  lemma {:induction false} WithoutHead(x: Alert, rest: seq<Alert>, ids: set<string>)
    ensures WithoutIds([x] + rest, ids) == (if x.id in ids then [] else [x]) + WithoutIds(rest, ids)
  {
  }

  lemma {:induction false} WithoutConcat(xs: seq<Alert>, ys: seq<Alert>, ids: set<string>)
    ensures WithoutIds(xs + ys, ids) == WithoutIds(xs, ids) + WithoutIds(ys, ids)
  {
    if xs == [] {
      assert xs + ys == ys;
    } else {
      var x, rest := xs[0], xs[1..];
      WithoutConcat(rest, ys, ids);
      WithoutHead(x, rest + ys, ids);
      WithoutHead(x, rest, ids);
      assert xs == [x] + rest && xs + ys == [x] + (rest + ys);
    }
  }

  lemma {:induction false} DedupWithout(page: seq<Alert>, seen: set<string>, ids: set<string>)
    ensures Dedup(page, seen + ids) == WithoutIds(Dedup(page, seen), ids)
    decreases |page|
  {
    if page != [] {
      var f, rest := page[0], page[1..];
      if f.id in seen {
        DedupWithout(rest, seen, ids);
      } else {
        DedupWithout(rest, seen + {f.id}, ids);
        WithoutHead(f, Dedup(rest, seen + {f.id}), ids);
        assert seen + {f.id} + ids == seen + ids + {f.id};
        assert f.id in ids ==> seen + ids + {f.id} == seen + ids;
      }
    }
  }

  lemma {:induction false} InsertWithout(sorted: seq<Alert>, a: Alert, ids: set<string>)
    requires Descending(sorted)
    ensures WithoutIds(Insert(sorted, a), ids)
            == if a.id in ids then WithoutIds(sorted, ids) else Insert(WithoutIds(sorted, ids), a)
  {
    if sorted != [] && sorted[0].frameTimestamp >= a.frameTimestamp {
      InsertWithout(sorted[1..], a, ids);
      WithoutHead(sorted[0], Insert(sorted[1..], a), ids);
    } else {
      WithoutHead(a, sorted, ids);
      WithoutElements(sorted, ids);
      assert Insert(sorted, a) == [a] + sorted;
      var left := WithoutIds(sorted, ids);
      assert left != [] ==> left[0] in sorted;
    }
  }

  lemma {:induction false} WithoutLast(xs: seq<Alert>, a: Alert, ids: set<string>)
    ensures WithoutIds(xs + [a], ids) == WithoutIds(xs, ids) + if a.id in ids then [] else [a]
  {
    WithoutConcat(xs, [a], ids);
    assert [a][1..] == [];
  }

  lemma {:induction false} SortLast(xs: seq<Alert>, a: Alert)
    ensures SortDesc(xs + [a]) == Insert(SortDesc(xs), a)
  {
  }

  lemma {:induction false} SortWithout(xs: seq<Alert>, ids: set<string>)
    ensures SortDesc(WithoutIds(xs, ids)) == WithoutIds(SortDesc(xs), ids)
  {
    if xs != [] {
      var before, a := xs[..|xs| - 1], xs[|xs| - 1];
      SortWithout(before, ids);
      SortIsStable(before, 0);
      InsertWithout(SortDesc(before), a, ids);
      WithoutLast(before, a, ids);
      assert xs == before + [a];
      SortLastUnless(WithoutIds(before, ids), a, a.id in ids);
    }
  }

  lemma {:induction false} SortLastUnless(xs: seq<Alert>, a: Alert, skip: bool)
    ensures SortDesc(xs + if skip then [] else [a]) == if skip then SortDesc(xs) else Insert(SortDesc(xs), a)
  {
    if skip {
      assert xs + [] == xs;
    } else {
      SortLast(xs, a);
    }
  }

  /** Leaving ids out does not change the first n exactly when none of the first n has such an id. */
  lemma {:induction false} TakeWithoutIff(xs: seq<Alert>, ids: set<string>, n: nat)
    requires n <= |xs|
    ensures Take(WithoutIds(xs, ids), n) == Take(xs, n) <==> forall a | a in Take(xs, n) :: a.id !in ids
  {
    var top := Take(xs, n);
    assert xs == top + xs[n..];
    WithoutConcat(top, xs[n..], ids);
    WithoutElements(top, ids);
    WithoutElements(xs, ids);
    var left := Take(WithoutIds(xs, ids), n);
    assert forall a | a in left :: a in WithoutIds(xs, ids);
  }

  /** The alerts that left the live buffer. */
  function Evicted(arrivals: seq<Alert>): seq<Alert> {
    if |arrivals| <= MAX_ALERTS then [] else arrivals[..|arrivals| - MAX_ALERTS]
  }

  lemma {:induction false} ReversedIds(arrivals: seq<Alert>, n: nat)
    requires n <= |arrivals|
    ensures |Reversed(arrivals)| == |arrivals|
    ensures Ids(Reversed(arrivals)[|arrivals| - n..]) == Ids(arrivals[..n])
  {
    ReversedAt(arrivals);
    var tail, head := Reversed(arrivals)[|arrivals| - n..], arrivals[..n];
    assert forall i | 0 <= i < n :: tail[i] == head[n - 1 - i];
    forall a ensures a in tail <==> a in head {
      if a in head {
        var i :| 0 <= i < n && head[i] == a;
        assert tail[n - 1 - i] == a;
      }
    }
  }

  /** The history newest first, as the buffer and the rest. */
  lemma HistoryParts(arrivals: seq<Alert>) returns (kept: seq<Alert>, dropped: seq<Alert>)
    requires DistinctIds(arrivals) && Chronological(arrivals) && |arrivals| > MAX_ALERTS
    ensures kept == Buffer(arrivals) && kept + dropped == Reversed(arrivals) && |kept| == MAX_ALERTS
    ensures DistinctIds(kept + dropped) && Descending(kept + dropped)
    ensures DistinctIds(kept) && Descending(kept)
    ensures kept[0] == arrivals[|arrivals| - 1] && kept[MAX_ALERTS - 1] == arrivals[|arrivals| - MAX_ALERTS]
    ensures Ids(dropped) == Ids(Evicted(arrivals))
  {
    BufferIsNewest(arrivals);
    ReversedAt(arrivals);
    ReversedIds(arrivals, |arrivals| - MAX_ALERTS);
    HistoryShape(arrivals);
    var history := Reversed(arrivals);
    kept, dropped := history[..MAX_ALERTS], history[MAX_ALERTS..];
    assert kept + dropped == history;
    assert forall i | 0 <= i < MAX_ALERTS :: kept[i] == history[i];
  }

  /** Reversing a chronological history with distinct ids. */
  lemma {:induction false} HistoryShape(arrivals: seq<Alert>)
    requires DistinctIds(arrivals) && Chronological(arrivals)
    ensures DistinctIds(Reversed(arrivals)) && Descending(Reversed(arrivals))
  {
    ReversedAt(arrivals);
  }

  lemma {:induction false} DroppedVanish(kept: seq<Alert>, dropped: seq<Alert>, ys: seq<Alert>)
    requires |kept| == MAX_ALERTS && Descending(kept + dropped) && Descending(kept)
    ensures TopFold(kept, dropped + ys, MAX_ALERTS) == TopFold(kept, ys, MAX_ALERTS)
  {
    var all, cut := kept + dropped, kept[MAX_ALERTS - 1].frameTimestamp;
    forall j | 0 <= j < |dropped| ensures dropped[j].frameTimestamp <= cut {
      assert dropped[j] == all[MAX_ALERTS + j] && all[MAX_ALERTS - 1] == kept[MAX_ALERTS - 1];
    }
    OldOnesVanish(kept, dropped, ys, MAX_ALERTS, cut);
  }

  lemma KeptIdsApart(kept: seq<Alert>, dropped: seq<Alert>)
    requires DistinctIds(kept + dropped)
    ensures forall a | a in kept :: a.id !in Ids(dropped)
  {
    var all := kept + dropped;
    forall i, j | 0 <= i < |kept| && 0 <= j < |dropped| ensures kept[i].id != dropped[j].id {
      assert all[i] == kept[i] && all[|kept| + j] == dropped[j];
    }
  }

  /** The list shows no alert that left the buffer. */
  lemma {:induction false} NoneComesBackIff(arrivals: seq<Alert>, page: seq<Alert>)
    requires DistinctIds(arrivals) && Chronological(arrivals)
    ensures Merged(Buffer(arrivals), page) == Merged(Reversed(arrivals), page)
            <==> forall a | a in Merged(Buffer(arrivals), page) :: a.id !in Ids(Evicted(arrivals))
  {
    if |arrivals| <= MAX_ALERTS {
      BufferIsNewest(arrivals);
      ReversedAt(arrivals);
    } else {
      var kept, dropped := HistoryParts(arrivals);
      PartsAlikeIff(kept, dropped, page);
    }
  }

  // Where the sort puts an alert.

  /** Alerts newer than t, or as old and standing before position j. */
  function RankedBefore(xs: seq<Alert>, t: int, j: nat): nat {
    if xs == [] then 0
    else
      var i := |xs| - 1;
      RankedBefore(xs[..i], t, j) + if xs[i].frameTimestamp > t || (xs[i].frameTimestamp == t && i < j) then 1 else 0
  }

  /** Alerts at least as new as t. */
  function AtLeast(xs: seq<Alert>, t: int): nat {
    if xs == [] then 0 else AtLeast(xs[1..], t) + if xs[0].frameTimestamp >= t then 1 else 0
  }

  lemma {:induction false} AtLeastInsert(sorted: seq<Alert>, a: Alert, t: int)
    ensures AtLeast(Insert(sorted, a), t) == AtLeast(sorted, t) + if a.frameTimestamp >= t then 1 else 0
  {
    if sorted != [] && sorted[0].frameTimestamp >= a.frameTimestamp {
      AtLeastInsert(sorted[1..], a, t);
      assert Insert(sorted, a)[1..] == Insert(sorted[1..], a);
    } else {
      assert Insert(sorted, a)[1..] == sorted;
    }
  }

  /** From behind, everything as new as t ranks before it; sorting does not change how many there are. */
  lemma {:induction false} RankOfLast(xs: seq<Alert>, t: int, j: nat)
    requires j >= |xs|
    ensures RankedBefore(xs, t, j) == AtLeast(SortDesc(xs), t)
  {
    if xs != [] {
      var before, a := xs[..|xs| - 1], xs[|xs| - 1];
      RankOfLast(before, t, j);
      AtLeastInsert(SortDesc(before), a, t);
    }
  }

  lemma {:induction false} NoneAtLeast(sorted: seq<Alert>, t: int)
    requires forall i | 0 <= i < |sorted| :: sorted[i].frameTimestamp < t
    ensures AtLeast(sorted, t) == 0
  {
    if sorted != [] {
      NoneAtLeast(sorted[1..], t);
    }
  }

  /** An alert goes behind those at least as new. */
  lemma {:induction false} InsertAt(sorted: seq<Alert>, a: Alert, k: nat)
    requires Descending(sorted) && k <= |sorted|
    ensures var p := AtLeast(sorted, a.frameTimestamp);
            && p <= |sorted| && |Insert(sorted, a)| == |sorted| + 1
            && Insert(sorted, a)[k] == (if k < p then sorted[k] else if k == p then a else sorted[k - 1])
            && (k < |sorted| ==> (k < p <==> sorted[k].frameTimestamp >= a.frameTimestamp))
  {
    InsertElements(sorted, a);
    if sorted != [] && sorted[0].frameTimestamp >= a.frameTimestamp {
      InsertAt(sorted[1..], a, if k == 0 then 0 else k - 1);
      assert Insert(sorted, a)[1..] == Insert(sorted[1..], a);
    } else {
      NoneAtLeast(sorted, a.frameTimestamp);
    }
  }

  function Rank(xs: seq<Alert>, j: nat): nat
    requires j < |xs|
  {
    RankedBefore(xs, xs[j].frameTimestamp, j)
  }

  lemma RankGrows(xs: seq<Alert>, a: Alert, j: nat)
    requires j < |xs|
    ensures Rank(xs + [a], j) == Rank(xs, j) + if a.frameTimestamp > xs[j].frameTimestamp then 1 else 0
  {
  }

  lemma {:induction false} Placed(sorted: seq<Alert>, a: Alert, r: nat)
    requires Descending(sorted) && r < |sorted|
    ensures var r' := r + if a.frameTimestamp > sorted[r].frameTimestamp then 1 else 0;
            r' < |Insert(sorted, a)| && Insert(sorted, a)[r'] == sorted[r]
  {
    InsertAt(sorted, a, r);
    InsertAt(sorted, a, r + 1);
  }

  lemma LastAtRank(before: seq<Alert>, a: Alert)
    ensures var xs := before + [a];
            Rank(xs, |before|) < |SortDesc(xs)| && SortDesc(xs)[Rank(xs, |before|)] == a
  {
    var sorted := SortDesc(before);
    assert (before + [a])[..|before|] == before;
    SortIsStable(before, 0);
    RankOfLast(before, a.frameTimestamp, |before|);
    InsertAt(sorted, a, 0);
    InsertAt(sorted, a, AtLeast(sorted, a.frameTimestamp));
  }

  /** The sort puts every alert at its rank. */
  lemma {:induction false} SortedAtRank(xs: seq<Alert>, j: nat)
    requires j < |xs|
    ensures Rank(xs, j) < |SortDesc(xs)| && SortDesc(xs)[Rank(xs, j)] == xs[j]
  {
    var before, a := xs[..|xs| - 1], xs[|xs| - 1];
    assert xs == before + [a];
    if j == |before| {
      LastAtRank(before, a);
    } else {
      SortedAtRank(before, j);
      RankGrows(before, a, j);
      SortIsStable(before, 0);
      Placed(SortDesc(before), a, Rank(before, j));
    }
  }

  /** And nothing else is there. */
  lemma RankedAt(xs: seq<Alert>, k: nat) returns (j: nat)
    requires k < |SortDesc(xs)|
    ensures j < |xs| && Rank(xs, j) == k && SortDesc(xs)[k] == xs[j]
  {
    var before, a := xs[..|xs| - 1], xs[|xs| - 1];
    var sorted := SortDesc(before);
    assert xs == before + [a];
    SortIsStable(before, 0);
    InsertElements(sorted, a);
    InsertAt(sorted, a, k);
    var p := AtLeast(sorted, a.frameTimestamp);
    if k == p {
      j := |before|;
      RankOfLast(before, a.frameTimestamp, j);
    } else {
      var k' := if k < p then k else k - 1;
      InsertAt(sorted, a, k');
      j := RankedAt(before, k');
      RankGrows(before, a, j);
    }
  }

  /** The alerts of buffer and page, the first copy of each id. */
  function Candidates(live: seq<Alert>, page: seq<Alert>): seq<Alert> { Dedup(live + page, {}) }

  lemma ShownIff(live: seq<Alert>, page: seq<Alert>, ids: set<string>)
    ensures (forall a | a in Merged(live, page) :: a.id !in ids)
            <==> forall j | 0 <= j < |Candidates(live, page)| && Candidates(live, page)[j].id in ids ::
                   Rank(Candidates(live, page), j) >= MAX_ALERTS
  {
    var xs, shown := Candidates(live, page), Merged(live, page);
    forall j | 0 <= j < |xs| && Rank(xs, j) < MAX_ALERTS ensures xs[j] in shown {
      SortedAtRank(xs, j);
      assert shown[Rank(xs, j)] == xs[j];
    }
    forall k | 0 <= k < |shown| ensures exists j | 0 <= j < |xs| :: xs[j] == shown[k] && Rank(xs, j) < MAX_ALERTS {
      var j := RankedAt(xs, k);
    }
  }

  /**
   * When live alerts arrive with distinct ids in chronological order, a fetched page shows the same list from
   * the bounded buffer as from the unbounded history exactly when, of the alerts of buffer and page, at least
   * twenty rank before every copy of an alert that left the buffer: newer, or as new and standing before it.
   */
  lemma {:induction false} ShownAlikeIff(arrivals: seq<Alert>, page: seq<Alert>)
    requires DistinctIds(arrivals) && Chronological(arrivals)
    ensures Merged(Buffer(arrivals), page) == Merged(Reversed(arrivals), page)
            <==> var xs := Candidates(Buffer(arrivals), page);
                 forall j | 0 <= j < |xs| && xs[j].id in Ids(Evicted(arrivals)) :: Rank(xs, j) >= MAX_ALERTS
  {
    NoneComesBackIff(arrivals, page);
    ShownIff(Buffer(arrivals), page, Ids(Evicted(arrivals)));
  }

  lemma PartsAlikeIff(kept: seq<Alert>, dropped: seq<Alert>, page: seq<Alert>)
    requires |kept| == MAX_ALERTS && DistinctIds(kept + dropped) && Descending(kept + dropped)
    requires DistinctIds(kept) && Descending(kept)
    ensures Merged(kept, page) == Merged(kept + dropped, page)
            <==> forall a | a in Merged(kept, page) :: a.id !in Ids(dropped)
  {
    var added := Dedup(page, Ids(kept));
    var rest := Dedup(page, Ids(kept) + Ids(dropped));
    KeptTop(kept, page);
    SortedTop(kept, added);
    HistoryTop(kept, dropped, page);
    DroppedVanish(kept, dropped, rest);
    SortedTop(kept, rest);
    DedupWithout(page, Ids(kept), Ids(dropped));
    WithoutConcat(kept, added, Ids(dropped));
    KeptIdsApart(kept, dropped);
    WithoutElements(kept, Ids(dropped));
    SortWithout(kept + added, Ids(dropped));
    SortLength(kept + added);
    TakeWithoutIff(SortDesc(kept + added), Ids(dropped), MAX_ALERTS);
  }

  lemma {:induction false} SortLength(xs: seq<Alert>)
    ensures |SortDesc(xs)| == |xs|
  {
    if xs != [] {
      SortLength(xs[..|xs| - 1]);
      InsertElements(SortDesc(xs[..|xs| - 1]), xs[|xs| - 1]);
    }
  }

  /** Fetched copies of alerts that left the buffer are not newer than the oldest live alert still in it. */
  predicate CopiesNotNewer(arrivals: seq<Alert>, page: seq<Alert>) {
    |arrivals| > MAX_ALERTS ==>
      forall f | f in page && f.id in Ids(Evicted(arrivals)) ::
        f.frameTimestamp <= arrivals[|arrivals| - MAX_ALERTS].frameTimestamp
  }

  /** What is shown besides the buffer is newer than its oldest alert. */
  lemma {:induction false} TopElements(top: seq<Alert>, ys: seq<Alert>, n: nat, cut: int)
    requires FullAbove(top, n, cut)
    ensures forall x | x in TopFold(top, ys, n) :: x in top || (x in ys && x.frameTimestamp > cut)
    decreases |ys|
  {
    if ys != [] {
      var next := Take(Insert(top, ys[0]), n);
      TopStep(top, ys[0], n, cut);
      InsertElements(top, ys[0]);
      assert forall x | x in next :: x in Insert(top, ys[0]);
      TopElements(next, ys[1..], n, cut);
    }
  }

  lemma {:induction false} DedupElements(xs: seq<Alert>, seen: set<string>)
    ensures forall x | x in Dedup(xs, seen) :: x in xs
    decreases |xs|
  {
    if xs != [] {
      DedupElements(xs[1..], if xs[0].id in seen then seen else seen + {xs[0].id});
    }
  }

  /**
   * So losing old live alerts is invisible for every page whose copies of them are not newer than what the
   * buffer still holds; a copy of the same stored alert has the same timestamp and never is.
   */
  lemma {:induction false} LosingOldAlertsIsInvisible(arrivals: seq<Alert>, fetched: seq<Alert>)
    requires DistinctIds(arrivals) && Chronological(arrivals)
    requires CopiesNotNewer(arrivals, fetched)
    ensures Merged(Buffer(arrivals), fetched) == Merged(Reversed(arrivals), fetched)
  {
    NoneComesBackIff(arrivals, fetched);
    if |arrivals| > MAX_ALERTS {
      var kept, dropped := HistoryParts(arrivals);
      var added, cut := Dedup(fetched, Ids(kept)), kept[MAX_ALERTS - 1].frameTimestamp;
      KeptTop(kept, fetched);
      KeptIdsApart(kept, dropped);
      TopElements(kept, added, MAX_ALERTS, cut);
      DedupElements(fetched, Ids(kept));
    }
  }

  /** Copies with the timestamp of the live alert are among them. */
  lemma SameCopiesNotNewer(arrivals: seq<Alert>, fetched: seq<Alert>)
    requires Chronological(arrivals)
    requires forall f, a | f in fetched && a in arrivals && f.id == a.id :: f.frameTimestamp == a.frameTimestamp
    ensures CopiesNotNewer(arrivals, fetched)
  {
  }

  /** A page in which an alert that left the buffer carries a newer timestamp than all live ones. */
  lemma NewerCopyShows(arrivals: seq<Alert>) returns (page: seq<Alert>)
    requires DistinctIds(arrivals) && Chronological(arrivals) && |arrivals| > MAX_ALERTS
    ensures Merged(Buffer(arrivals), page) != Merged(Reversed(arrivals), page)
  {
    var kept, dropped := HistoryParts(arrivals);
    var newer := Alert(arrivals[0].id, arrivals[|arrivals| - 1].frameTimestamp + 1, "");
    page := [newer];
    assert arrivals[0] in Evicted(arrivals) && newer.id in Ids(dropped);
    KeptTop(kept, page);
    KeptIdsApart(kept, dropped);
    assert Dedup(page, Ids(kept)) == [newer] && [newer][1..] == [];
    assert TopFold(kept, [newer], MAX_ALERTS) == Take(Insert(kept, newer), MAX_ALERTS);
    assert Insert(kept, newer) == [newer] + kept;
    assert newer in Merged(kept, page) by {
      assert Merged(kept, page)[0] == newer;
    }
    NoneComesBackIff(arrivals, page);
  }

  /**
   * Of arbitrary pages, also ones no backend returns, all show the same list exactly while no alert has left
   * the buffer.
   */
  lemma {:induction false} InvisibleToAnyPageIff(arrivals: seq<Alert>)
    requires DistinctIds(arrivals) && Chronological(arrivals)
    ensures (forall page :: Merged(Buffer(arrivals), page) == Merged(Reversed(arrivals), page))
            <==> |arrivals| <= MAX_ALERTS
  {
    BufferIsNewest(arrivals);
    ReversedAt(arrivals);
    if |arrivals| > MAX_ALERTS {
      var page := NewerCopyShows(arrivals);
    }
  }

  /** What is shown has at most twenty alerts, newest first. */
  lemma {:induction false} MergedShape(live: seq<Alert>, fetched: seq<Alert>)
    ensures |Merged(live, fetched)| == Min(20, |Dedup(live + fetched, {})|) && Descending(Merged(live, fetched))
  {
    SortIsStable(Dedup(live + fetched, {}), 0);
    SortLength(Dedup(live + fetched, {}));
  }
}
