/**
 The answers of the web server read from outside: what stands in every point, which points there are and in
 which order, in terms of the rows themselves.
 */
module WebPoints {
  import opened Text
  import opened Samples
  import opened WebStats
  import opened WebProducts

  // ---- what one pair of samples contributes ----------------------------------

  predicate Within(t: int, lo: int, hi: int) { lo <= t < hi }

  function Between(lo: int, hi: int): set<int> { set t: int | lo <= t < hi && Within(t, lo, hi) }

  lemma {:induction false} BetweenSize(lo: int, hi: int)
    ensures |Between(lo, hi)| == Max(0, hi - lo)
    decreases hi - lo
  {
    if lo < hi {
      BetweenSize(lo, hi - 1);
      assert Between(lo, hi) == Between(lo, hi - 1) + {hi - 1};
    } else {
      assert Between(lo, hi) == {};
    }
  }

  predicate Machines(p: Sample) { p.power != 0 && p.execution == "ACTIVE" && p.mode == "AUTOMATIC" }

  /**
   A pair of adjacent samples is worth the seconds between them when the first one says so and they are at
   most the gap apart, in a bucket those of the seconds that lie in it; and it is worth the parts its two
   known counters rise by, in the bucket of the later sample.
   */
  lemma PairFigures(p: Sample, s: Sample, kind: Kind, gap: int, lo: int, hi: int)
    ensures var counts := (if kind == Power then p.power != 0 else Machines(p)) && 0 < s.ts - p.ts <= gap;
      && Seconds(kind, gap)(p, s) == (if counts then s.ts - p.ts else 0)
      && SecondsIn(kind, gap, lo, hi)(p, s)
           == (if counts then |set t: int | p.ts <= t < s.ts && Within(t, lo, hi)| else 0)
    ensures Parts()(p, s) == if 0 <= p.partTotal < s.partTotal then s.partTotal - p.partTotal else 0
    ensures PartsIn(lo, hi)(p, s)
         == if lo <= s.ts < hi && 0 <= p.partTotal < s.partTotal then s.partTotal - p.partTotal else 0
  {
    var both := set t: int | p.ts <= t < s.ts && Within(t, lo, hi);
    assert both == Between(Max(p.ts, lo), Min(s.ts, hi));
    BetweenSize(Max(p.ts, lo), Min(s.ts, hi));
  }

  // ---- the points of the machining view ----------------------------------------

  predicate InBucket(s: Sample, b: int, width: nat) { b <= s.ts < b + width }

  /** The samples of a bucket among the first `n`, by their index. */
  function Inside(rows: seq<Sample>, n: nat, b: int, width: nat): set<int>
    requires n <= |rows|
  {
    set i | 0 <= i < n && InBucket(rows[i], b, width)
  }

  /** Those of them with the machine machining. */
  function MachiningInside(rows: seq<Sample>, n: nat, b: int, width: nat): set<int>
    requires n <= |rows|
  {
    set i | 0 <= i < n && InBucket(rows[i], b, width) && Machines(rows[i])
  }

  lemma InsideNext(rows: seq<Sample>, n: nat, b: int, width: nat)
    requires n < |rows|
    ensures InBucket(rows[n], b, width) ==> Inside(rows, n + 1, b, width) == Inside(rows, n, b, width) + {n}
    ensures !InBucket(rows[n], b, width) ==> Inside(rows, n + 1, b, width) == Inside(rows, n, b, width)
    ensures InBucket(rows[n], b, width) && Machines(rows[n]) ==>
        MachiningInside(rows, n + 1, b, width) == MachiningInside(rows, n, b, width) + {n}
    ensures !(InBucket(rows[n], b, width) && Machines(rows[n])) ==>
        MachiningInside(rows, n + 1, b, width) == MachiningInside(rows, n, b, width)
  {
  }

  lemma OneMoreInside(a: set<int>, n: int, all: set<int>)
    requires Same(all, a + {n}) && n !in a
    ensures |all| == |a| + 1
  {
  }

  lemma SizesNext(rows: seq<Sample>, n: nat, b: int, width: nat)
    requires n < |rows|
    ensures |Inside(rows, n + 1, b, width)|
         == |Inside(rows, n, b, width)| + if InBucket(rows[n], b, width) then 1 else 0
    ensures |MachiningInside(rows, n + 1, b, width)|
         == |MachiningInside(rows, n, b, width)| + if InBucket(rows[n], b, width) && Machines(rows[n]) then 1 else 0
  {
    InsideNext(rows, n, b, width);
    if InBucket(rows[n], b, width) {
      OneMoreInside(Inside(rows, n, b, width), n, Inside(rows, n + 1, b, width));
      if Machines(rows[n]) {
        OneMoreInside(MachiningInside(rows, n, b, width), n, MachiningInside(rows, n + 1, b, width));
      }
    }
  }

  lemma {:induction false} CountIsSize(rows: seq<Sample>, n: nat, b: int, width: nat)
    requires n <= |rows|
    ensures CountIn(rows, n, b, b + width) == |Inside(rows, n, b, width)|
    ensures MachCountIn(rows, n, b, b + width) == |MachiningInside(rows, n, b, width)|
  {
    if n > 0 {
      CountIsSize(rows, n - 1, b, width);
      SizesNext(rows, n - 1, b, width);
    }
  }

  /** A point of the machining view: its bucket holds samples, and it says how many, and how many machining. */
  predicate PointRight(rows: seq<Sample>, width: nat, gap: int, p: Point)
    requires width > 0
  {
    && p.start % width == 0
    && p.sampleCount == |Inside(rows, |rows|, p.start, width)| > 0
    && p.machCount == |MachiningInside(rows, |rows|, p.start, width)|
    && p.machSec == MixSum(rows, |rows|, SecondsIn(Machining, gap, p.start, p.start + width))
    && p.powerSec == MixSum(rows, |rows|, SecondsIn(Power, gap, p.start, p.start + width))
  }

  lemma PointAtRight(rows: seq<Sample>, b: int, width: nat, gap: int)
    requires width > 0 && Aligned(b, width) && CountIn(rows, |rows|, b, b + width) > 0
    ensures PointRight(rows, width, gap, PointAt(rows, b, width, gap))
    ensures PointAt(rows, b, width, gap).start == b
  {
    CountIsSize(rows, |rows|, b, width);
  }

  predicate PointsRight(rows: seq<Sample>, width: nat, gap: int, ps: seq<Point>)
    requires width > 0
  {
    forall k :: 0 <= k < |ps| ==> PointRight(rows, width, gap, ps[k])
  }

  /** Starts rise, and none lies before `b`. */
  predicate StartsRise(ps: seq<Point>, b: int) {
    && (forall k :: 0 <= k < |ps| ==> b <= ps[k].start)
    && (forall j, k :: 0 <= j < k < |ps| ==> ps[j].start < ps[k].start)
  }

  predicate HasPoint(ps: seq<Point>, s: Sample, width: nat) {
    exists k :: 0 <= k < |ps| && InBucket(s, ps[k].start, width)
  }

  predicate HavePoints(rows: seq<Sample>, b: int, last: int, width: nat, ps: seq<Point>) {
    forall i :: 0 <= i < |rows| && b <= rows[i].ts < last + width ==> HasPoint(ps, rows[i], width)
  }

  lemma {:induction false} SampleCounts(rows: seq<Sample>, n: nat, i: nat, lo: int, hi: int)
    requires i < n <= |rows| && lo <= rows[i].ts < hi
    ensures CountIn(rows, n, lo, hi) > 0
  {
    if i < n - 1 { SampleCounts(rows, n - 1, i, lo, hi); }
  }

  lemma InFront(rows: seq<Sample>, b: int, width: nat, gap: int, p: Point, ps: seq<Point>)
    requires width > 0 && PointRight(rows, width, gap, p) && p.start == b
    requires PointsRight(rows, width, gap, ps) && StartsRise(ps, b + width)
    ensures PointsRight(rows, width, gap, [p] + ps) && StartsRise([p] + ps, b)
    ensures forall s :: InBucket(s, b, width) || HasPoint(ps, s, width) ==> HasPoint([p] + ps, s, width)
  {
    var all := [p] + ps;
    forall s | InBucket(s, b, width) || HasPoint(ps, s, width) ensures HasPoint(all, s, width) {
      if InBucket(s, b, width) {
        assert all[0] == p;
      } else {
        var k :| 0 <= k < |ps| && InBucket(s, ps[k].start, width);
        assert all[k + 1] == ps[k];
      }
    }
  }

  lemma OneMoreBucket(rows: seq<Sample>, b: int, last: int, width: nat, gap: int, ps: seq<Point>, all: seq<Point>)
    requires width > 0 && Aligned(b, width)
    requires PointsRight(rows, width, gap, ps) && StartsRise(ps, b + width)
    requires HavePoints(rows, b + width, last, width, ps)
    requires Same(all, WebStats.BucketPoint(rows, b, width, gap) + ps)
    ensures PointsRight(rows, width, gap, all) && StartsRise(all, b) && HavePoints(rows, b, last, width, all)
  {
    if CountIn(rows, |rows|, b, b + width) > 0 {
      FullBucket(rows, b, last, width, gap, ps, PointAt(rows, b, width, gap));
    } else {
      EmptyBucket(rows, b, last, width, ps);
      assert all == ps;
    }
  }

  lemma FullBucket(rows: seq<Sample>, b: int, last: int, width: nat, gap: int, ps: seq<Point>, p: Point)
    requires width > 0 && Aligned(b, width) && CountIn(rows, |rows|, b, b + width) > 0
    requires Same(p, PointAt(rows, b, width, gap))
    requires PointsRight(rows, width, gap, ps) && StartsRise(ps, b + width)
    requires HavePoints(rows, b + width, last, width, ps)
    ensures PointsRight(rows, width, gap, [p] + ps) && StartsRise([p] + ps, b)
    ensures HavePoints(rows, b, last, width, [p] + ps)
  {
    PointAtRight(rows, b, width, gap);
    InFront(rows, b, width, gap, p, ps);
  }

  lemma EmptyBucket(rows: seq<Sample>, b: int, last: int, width: nat, ps: seq<Point>)
    requires width > 0 && CountIn(rows, |rows|, b, b + width) == 0
    requires StartsRise(ps, b + width) && HavePoints(rows, b + width, last, width, ps)
    ensures StartsRise(ps, b) && HavePoints(rows, b, last, width, ps)
  {
    forall i | 0 <= i < |rows| ensures !InBucket(rows[i], b, width) {
      if InBucket(rows[i], b, width) { SampleCounts(rows, |rows|, i, b, b + width); }
    }
  }

  lemma {:induction false} PointsFromRight(rows: seq<Sample>, b: int, last: int, width: nat, gap: int)
    requires width > 0 && Aligned(b, width) && Aligned(last, width)
    ensures var ps := PointsFrom(rows, b, last, width, gap);
      PointsRight(rows, width, gap, ps) && StartsRise(ps, b) && HavePoints(rows, b, last, width, ps)
    decreases last - b
  {
    if b <= last {
      NextAligned(b, width);
      if b < last { AlignedGap(b, last, width); }
      PointsFromRight(rows, b + width, last, width, gap);
      OneMoreBucket(rows, b, last, width, gap, PointsFrom(rows, b + width, last, width, gap),
                    PointsFrom(rows, b, last, width, gap));
    } else if b < last + width {
      AlignedGap(last, b, width);
    }
  }

  /** The machining view has exactly one point for every bucket with a sample, in order, and no other. */
  lemma MachiningAnswer(rows: seq<Sample>, width: nat, gap: int)
    requires width > 0 && Sorted(rows)
    ensures var ps := ApiPoints(rows, width, gap);
      && PointsRight(rows, width, gap, ps)
      && (forall j, k :: 0 <= j < k < |ps| ==> ps[j].start < ps[k].start)
      && (forall i :: 0 <= i < |rows| ==> HasPoint(ps, rows[i], width))
  {
    FirstNotAfterLast(rows, width);
    PointsFromRight(rows, FirstBucket(rows, width), LastBucket(rows, width), width, gap);
  }

  // ---- the points of the production view ---------------------------------------

  /** The first known counter of the rows in the bucket. */
  predicate FirstKnown(rows: seq<Sample>, n: nat, b: int, width: nat, i: nat)
    requires n <= |rows|
  {
    i < n && b <= rows[i].ts < b + width && rows[i].partTotal >= 0 &&
    forall j :: 0 <= j < i && b <= rows[j].ts < b + width ==> rows[j].partTotal < 0
  }

  /** The last known counter of the rows in the bucket. */
  predicate LastKnown(rows: seq<Sample>, n: nat, b: int, width: nat, i: nat)
    requires n <= |rows|
  {
    i < n && b <= rows[i].ts < b + width && rows[i].partTotal >= 0 &&
    forall j :: i < j < n && b <= rows[j].ts < b + width ==> rows[j].partTotal < 0
  }

  predicate NoneKnown(rows: seq<Sample>, n: nat, b: int, width: nat)
    requires n <= |rows|
  {
    forall i :: 0 <= i < n && b <= rows[i].ts < b + width ==> rows[i].partTotal < 0
  }

  lemma {:induction false} FirstTotalKnown(rows: seq<Sample>, n: nat, b: int, width: nat) returns (i: nat)
    requires n <= |rows|
    ensures match FirstTotal(rows, n, b, b + width)
      case None => NoneKnown(rows, n, b, width)
      case Some(v) => FirstKnown(rows, n, b, width, i) && rows[i].partTotal == v
  {
    i := 0;
    if n > 0 {
      i := FirstTotalKnown(rows, n - 1, b, width);
      if FirstTotal(rows, n - 1, b, b + width).None? { i := n - 1; }
    }
  }

  lemma {:induction false} LastTotalKnown(rows: seq<Sample>, n: nat, b: int, width: nat) returns (i: nat)
    requires n <= |rows|
    ensures match LastTotal(rows, n, b, b + width)
      case None => NoneKnown(rows, n, b, width)
      case Some(v) => LastKnown(rows, n, b, width, i) && rows[i].partTotal == v
  {
    i := 0;
    if n > 0 {
      if b <= rows[n - 1].ts < b + width && rows[n - 1].partTotal >= 0 {
        i := n - 1;
      } else {
        i := LastTotalKnown(rows, n - 1, b, width);
      }
    }
  }

  /** A point of the production view carries the first and the last known counter of its bucket. */
  predicate ProdPointRight(rows: seq<Sample>, width: nat, p: ProdPoint)
    requires width > 0
  {
    && p.start % width == 0
    && p.produced == MixSum(rows, |rows|, PartsIn(p.start, p.start + width))
    && (exists i :: 0 <= i < |rows| && FirstKnown(rows, |rows|, p.start, width, i) && rows[i].partTotal == p.startTotal)
    && (exists i :: 0 <= i < |rows| && LastKnown(rows, |rows|, p.start, width, i) && rows[i].partTotal == p.endTotal)
  }

  predicate ProdPointsRight(rows: seq<Sample>, width: nat, ps: seq<ProdPoint>)
    requires width > 0
  {
    forall k :: 0 <= k < |ps| ==> ProdPointRight(rows, width, ps[k])
  }

  predicate ProdStartsRise(ps: seq<ProdPoint>, b: int) {
    && (forall k :: 0 <= k < |ps| ==> b <= ps[k].start)
    && (forall j, k :: 0 <= j < k < |ps| ==> ps[j].start < ps[k].start)
  }

  predicate HasProdPoint(ps: seq<ProdPoint>, s: Sample, width: nat) {
    exists k :: 0 <= k < |ps| && InBucket(s, ps[k].start, width)
  }

  predicate HaveProdPoints(rows: seq<Sample>, b: int, last: int, width: nat, ps: seq<ProdPoint>) {
    forall i :: 0 <= i < |rows| && b <= rows[i].ts < last + width && rows[i].partTotal >= 0 ==>
      HasProdPoint(ps, rows[i], width)
  }

  /** The bucket's own part of the answer: one right point, or none when no counter in it is known. */
  lemma BucketPointRight(rows: seq<Sample>, b: int, width: nat)
    requires width > 0 && Aligned(b, width)
    ensures var ps := WebProducts.BucketPoint(rows, b, width);
      || (ps == [] && NoneKnown(rows, |rows|, b, width))
      || (|ps| == 1 && ps[0].start == b && ProdPointRight(rows, width, ps[0]))
  {
    var i := FirstTotalKnown(rows, |rows|, b, width);
    var j := LastTotalKnown(rows, |rows|, b, width);
    FirstIffLast(rows, |rows|, b, b + width);
  }

  lemma ProdInFront(rows: seq<Sample>, b: int, width: nat, p: ProdPoint, ps: seq<ProdPoint>,
                    all: seq<ProdPoint>)
    requires width > 0 && ProdPointRight(rows, width, p) && p.start == b
    requires ProdPointsRight(rows, width, ps) && ProdStartsRise(ps, b + width) && Same(all, [p] + ps)
    ensures ProdPointsRight(rows, width, all) && ProdStartsRise(all, b)
    ensures forall s :: InBucket(s, b, width) || HasProdPoint(ps, s, width) ==> HasProdPoint(all, s, width)
  {
    assert forall k :: 0 < k < |all| ==> all[k] == ps[k - 1];
    forall s | InBucket(s, b, width) || HasProdPoint(ps, s, width) ensures HasProdPoint(all, s, width) {
      if InBucket(s, b, width) {
        assert all[0] == p;
      } else {
        var k :| 0 <= k < |ps| && InBucket(s, ps[k].start, width);
        assert all[k + 1] == ps[k];
      }
    }
  }

  lemma OneMoreProdBucket(rows: seq<Sample>, b: int, last: int, width: nat, ps: seq<ProdPoint>, all: seq<ProdPoint>)
    requires width > 0 && Aligned(b, width)
    requires ProdPointsRight(rows, width, ps) && ProdStartsRise(ps, b + width)
    requires HaveProdPoints(rows, b + width, last, width, ps)
    requires Same(all, WebProducts.BucketPoint(rows, b, width) + ps)
    ensures ProdPointsRight(rows, width, all) && ProdStartsRise(all, b) && HaveProdPoints(rows, b, last, width, all)
  {
    BucketPointRight(rows, b, width);
    var front := WebProducts.BucketPoint(rows, b, width);
    if front == [] {
      assert all == ps;
    } else {
      assert front == [front[0]];
      ProdInFront(rows, b, width, front[0], ps, all);
    }
  }

  lemma {:induction false} ProductionFromRight(rows: seq<Sample>, b: int, last: int, width: nat)
    requires width > 0 && Aligned(b, width) && Aligned(last, width)
    ensures var ps := ProductionFrom(rows, b, last, width);
      ProdPointsRight(rows, width, ps) && ProdStartsRise(ps, b) && HaveProdPoints(rows, b, last, width, ps)
    decreases last - b
  {
    if b <= last {
      NextAligned(b, width);
      if b < last { AlignedGap(b, last, width); }
      ProductionFromRight(rows, b + width, last, width);
      OneMoreProdBucket(rows, b, last, width, ProductionFrom(rows, b + width, last, width),
                        ProductionFrom(rows, b, last, width));
    } else if b < last + width {
      AlignedGap(last, b, width);
    }
  }

  /** The production view has exactly one point for every bucket with a known counter, in order, and no other. */
  lemma ProductionAnswer(rows: seq<Sample>, width: nat)
    requires width > 0 && Sorted(rows)
    ensures var ps := ProductionFrom(rows, FirstBucket(rows, width), LastBucket(rows, width), width);
      && ProdPointsRight(rows, width, ps)
      && (forall j, k :: 0 <= j < k < |ps| ==> ps[j].start < ps[k].start)
      && (forall i :: 0 <= i < |rows| && rows[i].partTotal >= 0 ==> HasProdPoint(ps, rows[i], width))
  {
    FirstNotAfterLast(rows, width);
    ProductionFromRight(rows, FirstBucket(rows, width), LastBucket(rows, width), width);
  }
}
