/**
 * `calculate_trend` (tracker.py:251-278): the percentage change of one asset
 * over its last N recorded days of history. Only entries holding a non-null
 * price count; they are ordered newest first by date string; the "past" value
 * is N recordings back, or the oldest when there are no more than N.
 */
module TrendCalculator {
  import opened Wrappers
  import opened DateOrder
  import opened PriceChange
  import opened HistoryStore

  /** The two windows the daily summary asks for (tracker.py:393-394). */
  const WEEK_DAYS: nat := 5
  const MONTH_DAYS: nat := 22

  /** One recorded price of the asset and the date it was recorded on. */
  datatype Point = Point(date: string, price: real)

  predicate HoldsPrice(e: HistoryEntry, asset: string) {
    asset in e.prices && e.prices[asset].Some?
  }

  /** The entries holding a non-null price for `asset`, in history order (tracker.py:256-259). */
  function Points(entries: seq<HistoryEntry>, asset: string): (pts: seq<Point>)
    ensures |pts| <= |entries|
    ensures forall e :: e in entries && HoldsPrice(e, asset) ==> Point(e.date, e.prices[asset].value) in pts
    ensures forall p :: p in pts ==> exists e :: e in entries && HoldsPrice(e, asset) && p == Point(e.date, e.prices[asset].value)
  {
    if entries == [] then []
    else
      var e := entries[0];
      (if HoldsPrice(e, asset) then [Point(e.date, e.prices[asset].value)] else []) + Points(entries[1..], asset)
  }

  /** The points dated `d`, in order. */
  function PointsOn(s: seq<Point>, d: string): (r: seq<Point>)
    ensures forall p :: p in r <==> p in s && p.date == d
  {
    if s == [] then []
    else (if s[0].date == d then [s[0]] else []) + PointsOn(s[1..], d)
  }

  /** No two points share a date. */
  ghost predicate DistinctDates(s: seq<Point>) {
    forall d :: |PointsOn(s, d)| <= 1
  }

  /** Newest first: no point is newer than one listed before it. */
  predicate Descending(s: seq<Point>) {
    forall i, j :: 0 <= i < j < |s| ==> LessEq(s[j].date, s[i].date)
  }

  /** How many points are dated strictly after `d`. */
  function CountLater(s: seq<Point>, d: string): nat {
    if s == [] then 0 else (if Less(d, s[0].date) then 1 else 0) + CountLater(s[1..], d)
  }

  /**
   * Inserts `p` into a newest-first list before the first point that is not
   * newer than it, so that it precedes the points of its own date.
   */
  function Insert(p: Point, s: seq<Point>): (r: seq<Point>)
    ensures |r| == |s| + 1
  {
    if s == [] then [p]
    else if Less(p.date, s[0].date) then [s[0]] + Insert(p, s[1..])
    else [p] + s
  }

  /** Insertion neither loses nor duplicates a point. */
  lemma {:induction false} InsertPermutes(p: Point, s: seq<Point>)
    ensures multiset(Insert(p, s)) == multiset(s) + multiset{p}
  {
    if s != [] && Less(p.date, s[0].date) {
      InsertPermutes(p, s[1..]);
      assert s == [s[0]] + s[1..];
    }
  }

  /**
   * `relevant.sort(key=lambda x: x["date"], reverse=True)`: newest first. Python's
   * sort is stable also when reversed, so points of equal date keep their order.
   */
  function SortDesc(s: seq<Point>): (r: seq<Point>)
    ensures |r| == |s|
    ensures multiset(r) == multiset(s)
  {
    if s == [] then []
    else
      assert s == [s[0]] + s[1..];
      InsertPermutes(s[0], SortDesc(s[1..]));
      Insert(s[0], SortDesc(s[1..]))
  }

  /**
   * `calculate_trend`: None with fewer than two priced entries, or when the
   * past value is zero; otherwise the change from past to current in percent.
   */
  function Trend(entries: seq<HistoryEntry>, asset: string, days: nat): (r: Option<real>)
    ensures |Points(entries, asset)| < 2 ==> r.None?
  {
    var relevant := Points(entries, asset);
    if |relevant| < 2 then None
    else
      var sorted := SortDesc(relevant);
      var current := sorted[0].price;
      var past := if |sorted| <= days then sorted[|sorted| - 1].price else sorted[days].price;
      PercentChange(current, past)
  }

  /** Every point up to index `k` lies at or below `s[k]`, and `s[0]` is newer still. */
  lemma NewerFirst(s: seq<Point>, k: nat)
    requires 0 < k < |s|
    requires forall i :: 0 < i < |s| ==> LessEq(s[i].date, s[k].date)
    requires LessEq(s[k].date, s[0].date)
    ensures forall i :: 0 <= i < |s| ==> LessEq(s[i].date, s[0].date)
  {
    forall i | 0 <= i < |s|
      ensures LessEq(s[i].date, s[0].date)
    {
      if i == 0 {
        LessIrreflexive(s[0].date);
      } else {
        LessEqTransitive(s[i].date, s[k].date, s[0].date);
      }
    }
  }

  /** If `s[0]` is strictly older than `s[k]`, the oldest of the rest, it is strictly older than all the rest. */
  lemma OlderFirst(s: seq<Point>, k: nat)
    requires 0 < k < |s|
    requires forall i :: 0 < i < |s| ==> LessEq(s[k].date, s[i].date)
    requires Less(s[0].date, s[k].date)
    ensures forall i :: 0 <= i < |s| ==> LessEq(s[0].date, s[i].date)
    ensures forall i :: 0 < i < |s| ==> Less(s[0].date, s[i].date)
  {
    forall i | 0 <= i < |s|
      ensures LessEq(s[0].date, s[i].date) && (i > 0 ==> Less(s[0].date, s[i].date))
    {
      if i == 0 {
        LessIrreflexive(s[0].date);
      } else {
        LessLessEq(s[0].date, s[k].date, s[i].date);
        LessAsymmetric(s[0].date, s[i].date);
      }
    }
  }

  /** The index of the newest point; among equally new points, the first listed. */
  function LatestIndex(s: seq<Point>): (k: nat)
    requires |s| > 0
    ensures k < |s|
    ensures forall i :: 0 <= i < |s| ==> LessEq(s[i].date, s[k].date)
    ensures forall i :: 0 <= i < k ==> Less(s[i].date, s[k].date)
  {
    if |s| == 1 then
      LessIrreflexive(s[0].date);
      0
    else
      var k := LatestIndex(s[1..]) + 1;
      if Less(s[0].date, s[k].date) then
        LessAsymmetric(s[0].date, s[k].date);
        k
      else
        NewerFirst(s, k);
        0
  }

  /** The index of the oldest point; among equally old points, the last listed. */
  function EarliestIndex(s: seq<Point>): (k: nat)
    requires |s| > 0
    ensures k < |s|
    ensures forall i :: 0 <= i < |s| ==> LessEq(s[k].date, s[i].date)
    ensures forall i :: k < i < |s| ==> Less(s[k].date, s[i].date)
  {
    if |s| == 1 then
      LessIrreflexive(s[0].date);
      0
    else
      var k := EarliestIndex(s[1..]) + 1;
      if LessEq(s[k].date, s[0].date) then
        k
      else
        OlderFirst(s, k);
        0
  }

  /** A point no older than any in a newest-first list can lead it. */
  lemma ConsDescending(x: Point, t: seq<Point>)
    requires Descending(t)
    requires forall k :: 0 <= k < |t| ==> LessEq(t[k].date, x.date)
    ensures Descending([x] + t)
  {
    var r := [x] + t;
    forall i, j | 0 <= i < j < |r|
      ensures LessEq(r[j].date, r[i].date)
    {
      assert r[j] == t[j - 1];
      if i > 0 {
        assert r[i] == t[i - 1];
      }
    }
  }

  lemma {:induction false} InsertDescending(p: Point, s: seq<Point>)
    requires Descending(s)
    ensures Descending(Insert(p, s))
  {
    if s == [] {
    } else if Less(p.date, s[0].date) {
      var t := Insert(p, s[1..]);
      assert Descending(s[1..]);
      InsertDescending(p, s[1..]);
      InsertPermutes(p, s[1..]);
      forall k | 0 <= k < |t|
        ensures LessEq(t[k].date, s[0].date)
      {
        assert t[k] in multiset(t);
        if t[k] == p {
          LessAsymmetric(p.date, s[0].date);
        } else {
          assert t[k] in multiset(s[1..]);
          var m :| 0 <= m < |s[1..]| && s[1..][m] == t[k];
          assert s[m + 1] == t[k];
        }
      }
      ConsDescending(s[0], t);
    } else {
      forall k | 0 <= k < |s|
        ensures LessEq(s[k].date, p.date)
      {
        if k > 0 {
          LessEqTransitive(s[k].date, s[0].date, p.date);
        }
      }
      ConsDescending(p, s);
    }
  }

  /** The sort yields a newest-first list. */
  lemma {:induction false} SortDescDescending(s: seq<Point>)
    ensures Descending(SortDesc(s))
  {
    if s != [] {
      SortDescDescending(s[1..]);
      InsertDescending(s[0], SortDesc(s[1..]));
    }
  }

  lemma PointsOnCons(x: Point, t: seq<Point>, d: string)
    ensures PointsOn([x] + t, d) == (if x.date == d then [x] else []) + PointsOn(t, d)
  {
    assert ([x] + t)[1..] == t;
  }

  lemma {:induction false} PointsOnInsert(p: Point, t: seq<Point>, d: string)
    ensures PointsOn(Insert(p, t), d) == PointsOn([p] + t, d)
  {
    if t != [] && Less(p.date, t[0].date) {
      var x := t[0];
      var rest := t[1..];
      assert t == [x] + rest;
      var onP := if p.date == d then [p] else [];
      var onX := if x.date == d then [x] else [];
      PointsOnInsert(p, rest, d);
      PointsOnCons(x, Insert(p, rest), d);
      PointsOnCons(p, rest, d);
      PointsOnCons(p, t, d);
      PointsOnCons(x, rest, d);
      LessIrreflexive(p.date);
      var later := PointsOn(rest, d);
      if p.date == d {
        assert onX == [];
        assert [] + (onP + later) == onP + later == onP + ([] + later);
      } else {
        assert onP == [];
        assert onX + ([] + later) == onX + later == [] + (onX + later);
      }
      calc {
        PointsOn(Insert(p, t), d);
        PointsOn([x] + Insert(p, rest), d);
        onX + (onP + later);
        onP + (onX + later);
        PointsOn([p] + t, d);
      }
    }
  }

  /** Stability: for each date, the sort keeps that date's points in their history order. */
  lemma {:induction false} PointsOnSort(s: seq<Point>, d: string)
    ensures PointsOn(SortDesc(s), d) == PointsOn(s, d)
  {
    if s != [] {
      PointsOnSort(s[1..], d);
      PointsOnInsert(s[0], SortDesc(s[1..]), d);
      assert ([s[0]] + SortDesc(s[1..]))[1..] == SortDesc(s[1..]);
    }
  }

  lemma {:induction false} CountLaterInsert(p: Point, t: seq<Point>, d: string)
    ensures CountLater(Insert(p, t), d) == CountLater([p] + t, d)
  {
    if t != [] && Less(p.date, t[0].date) {
      CountLaterInsert(p, t[1..], d);
      assert ([p] + t[1..])[1..] == t[1..];
      assert ([p] + t)[1..] == t;
      assert ([t[0]] + Insert(p, t[1..]))[1..] == Insert(p, t[1..]);
    }
  }

  /** Sorting does not change how many points are newer than a date. */
  lemma {:induction false} CountLaterSort(s: seq<Point>, d: string)
    ensures CountLater(SortDesc(s), d) == CountLater(s, d)
  {
    if s != [] {
      CountLaterSort(s[1..], d);
      CountLaterInsert(s[0], SortDesc(s[1..]), d);
      assert ([s[0]] + SortDesc(s[1..]))[1..] == SortDesc(s[1..]);
    }
  }

  /** The sorted list starts with the newest point (the first listed among ties). */
  lemma {:induction false} SortDescHead(s: seq<Point>)
    requires |s| > 0
    ensures SortDesc(s)[0] == s[LatestIndex(s)]
  {
    if |s| > 1 {
      SortDescHead(s[1..]);
    }
  }

  lemma {:induction false} InsertLast(p: Point, t: seq<Point>)
    requires Descending(t) && |t| > 0
    ensures Insert(p, t)[|t|] == if LessEq(t[|t| - 1].date, p.date) then t[|t| - 1] else p
  {
    if Less(p.date, t[0].date) {
      if |t| > 1 {
        assert Descending(t[1..]);
        InsertLast(p, t[1..]);
      }
    } else if |t| > 1 {
      LessEqTransitive(t[|t| - 1].date, t[0].date, p.date);
    }
  }

  /** The sorted list ends with the oldest point (the last listed among ties). */
  lemma {:induction false} SortDescLast(s: seq<Point>)
    requires |s| > 0
    ensures SortDesc(s)[|s| - 1] == s[EarliestIndex(s)]
  {
    if |s| > 1 {
      SortDescLast(s[1..]);
      SortDescDescending(s[1..]);
      InsertLast(s[0], SortDesc(s[1..]));
    }
  }

  lemma {:induction false} CountLaterNone(s: seq<Point>, d: string)
    requires forall i :: 0 <= i < |s| ==> LessEq(s[i].date, d)
    ensures CountLater(s, d) == 0
  {
    if s != [] {
      CountLaterNone(s[1..], d);
    }
  }

  /**
   * In a newest-first list where only `r[m]` carries its date, exactly `m`
   * points are newer than it.
   */
  lemma {:induction false} CountLaterAtRank(r: seq<Point>, m: nat)
    requires Descending(r) && m < |r|
    requires |PointsOn(r, r[m].date)| == 1
    ensures CountLater(r, r[m].date) == m
  {
    var d := r[m].date;
    if m == 0 {
      forall i | 0 <= i < |r|
        ensures LessEq(r[i].date, d)
      {
        if i == 0 {
          LessIrreflexive(d);
        }
      }
      CountLaterNone(r, d);
    } else {
      assert r[m] == r[1..][m - 1];
      assert r[m] in PointsOn(r[1..], d);
      assert r[0].date != d;
      LessTotal(d, r[0].date);
      assert Descending(r[1..]);
      CountLaterAtRank(r[1..], m - 1);
    }
  }

  lemma {:induction false} PointsOnPoints(entries: seq<HistoryEntry>, asset: string, d: string)
    ensures |PointsOn(Points(entries, asset), d)| <= |EntriesOn(entries, d)|
  {
    if entries != [] {
      PointsOnPoints(entries[1..], asset, d);
      var e := entries[0];
      var head := if HoldsPrice(e, asset) then [Point(e.date, e.prices[asset].value)] else [];
      assert Points(entries, asset) == head + Points(entries[1..], asset);
      PointsOnAppend(head, Points(entries[1..], asset), d);
    }
  }

  lemma {:induction false} PointsOnAppend(a: seq<Point>, b: seq<Point>, d: string)
    ensures PointsOn(a + b, d) == PointsOn(a, d) + PointsOn(b, d)
  {
    if a == [] {
      assert a + b == b;
    } else {
      assert (a + b)[0] == a[0] && (a + b)[1..] == a[1..] + b;
      PointsOnAppend(a[1..], b, d);
    }
  }

  /** A history keyed by date gives the asset at most one point per date. */
  lemma PointsDistinct(entries: seq<HistoryEntry>, asset: string)
    requires UniqueDates(entries)
    ensures DistinctDates(Points(entries, asset))
  {
    forall d
      ensures |PointsOn(Points(entries, asset), d)| <= 1
    {
      PointsOnPoints(entries, asset, d);
    }
  }

  lemma SameDateSamePoint(s: seq<Point>, a: nat, b: nat)
    requires DistinctDates(s) && a < |s| && b < |s|
    requires s[a].date == s[b].date
    ensures s[a] == s[b]
  {
    var on := PointsOn(s, s[a].date);
    assert s[a] in on && s[b] in on;
    assert |on| <= 1;
  }

  /**
   * The general reading of `calculate_trend`, ties in date included: the change
   * from the past point to the newest one, the past point being the oldest
   * when there are no more than `days` points, else the one `days` places
   * down the newest-first order.
   */
  lemma TrendMeaning(entries: seq<HistoryEntry>, asset: string, days: nat)
    requires |Points(entries, asset)| >= 2
    ensures var pts := Points(entries, asset);
            var past := if |pts| <= days then pts[EarliestIndex(pts)] else SortDesc(pts)[days];
            Trend(entries, asset, days) == PercentChange(pts[LatestIndex(pts)].price, past.price)
  {
    var pts := Points(entries, asset);
    SortDescHead(pts);
    if |pts| <= days {
      SortDescLast(pts);
    }
  }

  /** With distinct dates, the sort puts the newest point first. */
  lemma NewestLeads(pts: seq<Point>, i: nat)
    requires DistinctDates(pts) && i < |pts|
    requires forall k :: 0 <= k < |pts| ==> LessEq(pts[k].date, pts[i].date)
    ensures SortDesc(pts)[0] == pts[i]
  {
    SortDescHead(pts);
    var latest := LatestIndex(pts);
    LessEqAntisymmetric(pts[latest].date, pts[i].date);
    SameDateSamePoint(pts, latest, i);
  }

  /** With distinct dates, the sort puts the oldest point last. */
  lemma OldestTrails(pts: seq<Point>, j: nat)
    requires DistinctDates(pts) && j < |pts|
    requires forall k :: 0 <= k < |pts| ==> LessEq(pts[j].date, pts[k].date)
    ensures SortDesc(pts)[|pts| - 1] == pts[j]
  {
    SortDescLast(pts);
    var earliest := EarliestIndex(pts);
    LessEqAntisymmetric(pts[earliest].date, pts[j].date);
    SameDateSamePoint(pts, earliest, j);
  }

  /** With distinct dates, the point with exactly `n` newer points sits at position `n` of the sort. */
  lemma RankedAt(pts: seq<Point>, j: nat, n: nat)
    requires DistinctDates(pts) && j < |pts| && n < |pts|
    requires CountLater(pts, pts[j].date) == n
    ensures SortDesc(pts)[n] == pts[j]
  {
    var d := pts[j].date;
    var r := SortDesc(pts);
    SortDescDescending(pts);
    assert pts[j] in multiset(r);
    var m :| 0 <= m < |r| && r[m] == pts[j];
    PointsOnSort(pts, d);
    assert pts[j] in PointsOn(pts, d);
    CountLaterAtRank(r, m);
    CountLaterSort(pts, d);
  }

  /**
   * For a history keyed by date, the trend compares the newest entry `i` with
   * entry `j`: the oldest one when history holds no more than `days` points
   * (graceful degradation), otherwise the one with exactly `days` newer points.
   */
  lemma TrendWithUniqueDates(entries: seq<HistoryEntry>, asset: string, days: nat, pts: seq<Point>, i: nat, j: nat)
    requires UniqueDates(entries) && pts == Points(entries, asset) && |pts| >= 2
    requires i < |pts| && j < |pts|
    requires forall k :: 0 <= k < |pts| ==> LessEq(pts[k].date, pts[i].date)
    requires |pts| <= days ==> forall k :: 0 <= k < |pts| ==> LessEq(pts[j].date, pts[k].date)
    requires |pts| > days ==> CountLater(pts, pts[j].date) == days
    ensures Trend(entries, asset, days) == PercentChange(pts[i].price, pts[j].price)
  {
    PointsDistinct(entries, asset);
    NewestLeads(pts, i);
    if |pts| <= days {
      OldestTrails(pts, j);
    } else {
      RankedAt(pts, j, days);
    }
  }
}
