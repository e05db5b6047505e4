/** Production per bucket and per product: different groupings of the same rises of the part counter. */
module WebProducts {
  import opened Text
  import opened Samples
  import opened WebStats

  // ---- production per bucket -----------------------------------------------

  /** A rise is booked where the later sample lies. */
  function PartsIn(lo: int, hi: int): Measure {
    (p: Sample, s: Sample) => if lo <= s.ts < hi then Rise(p, s) else 0
  }

  /** First and last known counter values among the first `n` rows inside [lo,hi). */
  function FirstTotal(rows: seq<Sample>, n: nat, lo: int, hi: int): Option<int>
    requires n <= |rows|
  {
    if n == 0 then None
    else
      var before := FirstTotal(rows, n - 1, lo, hi);
      if before.None? && lo <= rows[n - 1].ts < hi && rows[n - 1].partTotal >= 0 then Some(rows[n - 1].partTotal)
      else before
  }

  function LastTotal(rows: seq<Sample>, n: nat, lo: int, hi: int): Option<int>
    requires n <= |rows|
  {
    if n == 0 then None
    else if lo <= rows[n - 1].ts < hi && rows[n - 1].partTotal >= 0 then Some(rows[n - 1].partTotal)
    else LastTotal(rows, n - 1, lo, hi)
  }

  datatype ProdPoint = ProdPoint(start: int, produced: int, startTotal: int, endTotal: int)

  function ProductionFrom(rows: seq<Sample>, b: int, last: int, width: nat): seq<ProdPoint>
    requires width > 0
    decreases last - b
  {
    if b > last then []
    else BucketPoint(rows, b, width) + ProductionFrom(rows, b + width, last, width)
  }

  /** The point of one bucket; a bucket without a known counter has none. */
  function BucketPoint(rows: seq<Sample>, b: int, width: nat): seq<ProdPoint>
    requires width > 0
  {
    var f, l := FirstTotal(rows, |rows|, b, b + width), LastTotal(rows, |rows|, b, b + width);
    if f.Some? && l.Some? then [ProdPoint(b, MixSum(rows, |rows|, PartsIn(b, b + width)), f.value, l.value)] else []
  }

  lemma {:induction false} FirstIffLast(rows: seq<Sample>, n: nat, lo: int, hi: int)
    requires n <= |rows|
    ensures FirstTotal(rows, n, lo, hi).Some? <==> LastTotal(rows, n, lo, hi).Some?
  {
    if n > 0 { FirstIffLast(rows, n - 1, lo, hi); }
  }

  datatype ProdTables = ProdTables(produced: map<int, int>, firsts: map<int, int>, lasts: map<int, int>)

  function Lookup(m: map<int, int>, k: int): Option<int> { if k in m then Some(m[k]) else None }

  ghost predicate ProdTablesOf(t: ProdTables, rows: seq<Sample>, n: nat, width: nat)
    requires n <= |rows| && width > 0
  {
    forall b: int :: Aligned(b, width) ==>
      && Get(t.produced, b) == MixSum(rows, n, PartsIn(b, b + width))
      && Lookup(t.firsts, b) == FirstTotal(rows, n, b, b + width)
      && Lookup(t.lasts, b) == LastTotal(rows, n, b, b + width)
  }

  method AddProduction(t: ProdTables, rows: seq<Sample>, i: nat, prev: Option<Sample>,
                       width: nat) returns (r: ProdTables)
    requires i < |rows| && width > 0 && prev == LastOf(rows, i, rows[i].machine)
    requires ProdTablesOf(t, rows, i, width)
    ensures ProdTablesOf(r, rows, i + 1, width)
  {
    var s := rows[i];
    var b := BucketStart(s.ts, width);
    forall c: int | Aligned(c, width) ensures c <= s.ts < c + width <==> c == b { OwnBucket(s.ts, c, width); }
    var produced, firsts, lasts := t.produced, t.firsts, t.lasts;
    if prev.Some? && prev.value.partTotal >= 0 && s.partTotal >= 0 && s.partTotal > prev.value.partTotal {
      produced := produced[b := Get(produced, b) + (s.partTotal - prev.value.partTotal)];
    }
    forall c: int | Aligned(c, width) ensures Get(produced, c) == MixSum(rows, i + 1, PartsIn(c, c + width)) {
      assert Get(t.produced, c) == MixSum(rows, i, PartsIn(c, c + width));
    }
    if s.partTotal >= 0 {
      if b !in firsts { firsts := firsts[b := s.partTotal]; }
      lasts := lasts[b := s.partTotal];
    }
    forall c: int | Aligned(c, width)
      ensures Lookup(firsts, c) == FirstTotal(rows, i + 1, c, c + width)
      ensures Lookup(lasts, c) == LastTotal(rows, i + 1, c, c + width)
    {
      assert Lookup(t.firsts, c) == FirstTotal(rows, i, c, c + width);
      assert Lookup(t.lasts, c) == LastTotal(rows, i, c, c + width);
    }
    r := ProdTables(produced, firsts, lasts);
  }

  method ApiProduction(rows: seq<Sample>, width: nat) returns (points: seq<ProdPoint>)
    requires width > 0
    ensures points == ProductionFrom(rows, FirstBucket(rows, width), LastBucket(rows, width), width)
  {
    var t := ProdTables(map[], map[], map[]);
    var prevs: map<string, Sample> := map[];
    for i := 0 to |rows|
      invariant Latest(prevs, rows, i)
      invariant ProdTablesOf(t, rows, i, width)
    {
      var s := rows[i];
      var prev := if s.machine in prevs then Some(prevs[s.machine]) else None;
      assert prev == LastOf(rows, i, s.machine);
      t := AddProduction(t, rows, i, prev, width);
      prevs := prevs[s.machine := s];
    }
    points := EmitProduction(rows, t, width);
  }

  method EmitProduction(rows: seq<Sample>, t: ProdTables, width: nat) returns (points: seq<ProdPoint>)
    requires width > 0 && ProdTablesOf(t, rows, |rows|, width)
    ensures points == ProductionFrom(rows, FirstBucket(rows, width), LastBucket(rows, width), width)
  {
    points := [];
    var b := FirstBucket(rows, width);
    var last := LastBucket(rows, width);
    while b <= last
      invariant Aligned(b, width)
      invariant ProductionFrom(rows, FirstBucket(rows, width), last, width)
                == points + ProductionFrom(rows, b, last, width)
      decreases last - b
    {
      var point := EmitBucket(rows, t, b, width);
      Associate(points, point, ProductionFrom(rows, b + width, last, width));
      points := points + point;
      NextAligned(b, width);
      b := b + width;
    }
  }

  method EmitBucket(rows: seq<Sample>, t: ProdTables, b: int, width: nat) returns (point: seq<ProdPoint>)
    requires width > 0 && ProdTablesOf(t, rows, |rows|, width) && Aligned(b, width)
    ensures point == BucketPoint(rows, b, width)
  {
    FirstIffLast(rows, |rows|, b, b + width);
    assert Lookup(t.firsts, b) == FirstTotal(rows, |rows|, b, b + width);
    assert Lookup(t.lasts, b) == LastTotal(rows, |rows|, b, b + width);
    point := [];
    if b in t.firsts { point := [ProdPoint(b, Get(t.produced, b), t.firsts[b], t.lasts[b])]; }
  }

  function ProducedTotal(points: seq<ProdPoint>): int {
    if points == [] then 0 else points[0].produced + ProducedTotal(points[1..])
  }

  /** A bucket without a known counter value cannot receive a rise. */
  lemma {:induction false} SilentBucket(rows: seq<Sample>, n: nat, lo: int, hi: int)
    requires n <= |rows| && LastTotal(rows, n, lo, hi).None?
    ensures MixSum(rows, n, PartsIn(lo, hi)) == 0
  {
    if n > 0 { SilentBucket(rows, n - 1, lo, hi); }
  }

  lemma {:induction false} ProductionIsRange(rows: seq<Sample>, b: int, last: int, width: nat)
    requires width > 0 && b <= last && Aligned(b, width) && Aligned(last, width)
    ensures ProducedTotal(ProductionFrom(rows, b, last, width)) == MixSum(rows, |rows|, PartsIn(b, last + width))
    decreases last - b
  {
    FirstIffLast(rows, |rows|, b, b + width);
    if LastTotal(rows, |rows|, b, b + width).None? { SilentBucket(rows, |rows|, b, b + width); }
    var tail := ProductionFrom(rows, b + width, last, width);
    ProducedFront(rows, b, last, width);
    if b < last {
      AlignedGap(b, last, width);
      NextAligned(b, width);
      ProductionIsRange(rows, b + width, last, width);
      MixAdd(rows, |rows|, PartsIn(b, last + width), PartsIn(b, b + width), PartsIn(b + width, last + width));
    }
  }

  lemma ProducedFront(rows: seq<Sample>, b: int, last: int, width: nat)
    requires width > 0 && b <= last
    requires FirstTotal(rows, |rows|, b, b + width).Some? <==> LastTotal(rows, |rows|, b, b + width).Some?
    ensures ProducedTotal(ProductionFrom(rows, b, last, width)) ==
      ProducedTotal(ProductionFrom(rows, b + width, last, width)) +
      if LastTotal(rows, |rows|, b, b + width).Some? then MixSum(rows, |rows|, PartsIn(b, b + width)) else 0
  {
    var tail := ProductionFrom(rows, b + width, last, width);
    var all := ProductionFrom(rows, b, last, width);
    assert LastTotal(rows, |rows|, b, b + width).Some? ==> all[1..] == tail;
    assert LastTotal(rows, |rows|, b, b + width).None? ==> all == tail;
  }

  lemma {:induction false} PartsInAll(rows: seq<Sample>, n: nat, lo: int, hi: int)
    requires n <= |rows|
    requires forall i :: 0 <= i < n ==> lo <= rows[i].ts < hi
    ensures MixSum(rows, n, PartsIn(lo, hi)) == MixSum(rows, n, Parts())
  {
    if n > 0 { PartsInAll(rows, n - 1, lo, hi); }
  }

  /** The emitted production adds up to the per-machine production, whatever the bucket width. */
  lemma ProductionConserved(rows: seq<Sample>, ms: seq<string>, width: nat)
    requires width > 0 && Sorted(rows) && Covers(ms, rows, |rows|)
    ensures ProducedTotal(ProductionFrom(rows, FirstBucket(rows, width), LastBucket(rows, width), width))
            == FleetSum(rows, ms, Parts())
  {
    FirstNotAfterLast(rows, width);
    var b, last := FirstBucket(rows, width), LastBucket(rows, width);
    ProductionIsRange(rows, b, last, width);
    AllParts(rows, ms, b, last + width);
  }

  lemma AllParts(rows: seq<Sample>, ms: seq<string>, lo: int, hi: int)
    requires Covers(ms, rows, |rows|) && forall i :: 0 <= i < |rows| ==> lo <= rows[i].ts < hi
    ensures MixSum(rows, |rows|, PartsIn(lo, hi)) == FleetSum(rows, ms, Parts())
  {
    PartsInAll(rows, |rows|, lo, hi);
    MixedPassIsFleet(rows, ms, Parts());
  }

  // ---- products ------------------------------------------------------------

  const MAX_PRODUCTS := 256

  datatype Prod = Prod(comment: string, produced: int, machSec: int)

  /** The comments of the first `n` rows in order of appearance; only the first 256 get an entry. */
  function Listed(rows: seq<Sample>, n: nat): (r: seq<string>)
    requires n <= |rows|
    ensures |r| <= MAX_PRODUCTS
    ensures forall i, j :: 0 <= i < j < |r| ==> r[i] != r[j]
  {
    if n == 0 then []
    else
      var l := Listed(rows, n - 1);
      if rows[n - 1].comment in l || |l| >= MAX_PRODUCTS then l else l + [rows[n - 1].comment]
  }

  function Comments(rows: seq<Sample>, n: nat): set<string>
    requires n <= |rows|
  {
    if n == 0 then {} else Comments(rows, n - 1) + {rows[n - 1].comment}
  }

  /** Contributions whose earlier sample carries the given comment. */
  function OfComment(w: Measure, c: string): Measure {
    (p: Sample, s: Sample) => if p.comment == c then w(p, s) else 0
  }

  function OfComments(w: Measure, cs: seq<string>): Measure {
    (p: Sample, s: Sample) => if p.comment in cs then w(p, s) else 0
  }

  function NotOfComments(w: Measure, cs: seq<string>): Measure {
    (p: Sample, s: Sample) => if p.comment in cs then 0 else w(p, s)
  }

  function CommentSum(rows: seq<Sample>, cs: seq<string>, w: Measure): int {
    if cs == [] then 0
    else CommentSum(rows, cs[..|cs| - 1], w) + MixSum(rows, |rows|, OfComment(w, cs[|cs| - 1]))
  }

  lemma {:induction false} CommentSumIsMix(rows: seq<Sample>, cs: seq<string>, w: Measure)
    requires forall i, j :: 0 <= i < j < |cs| ==> cs[i] != cs[j]
    ensures CommentSum(rows, cs, w) == MixSum(rows, |rows|, OfComments(w, cs))
  {
    if cs == [] {
      MixZero(rows, |rows|, OfComments(w, cs));
    } else {
      var init, c := cs[..|cs| - 1], cs[|cs| - 1];
      CommentSumIsMix(rows, init, w);
      assert cs == init + [c];
      MixAdd(rows, |rows|, OfComments(w, cs), OfComments(w, init), OfComment(w, c));
    }
  }

  lemma {:induction false} MixZero(rows: seq<Sample>, n: nat, w: Measure)
    requires n <= |rows| && forall p: Sample, s: Sample :: w(p, s) == 0
    ensures MixSum(rows, n, w) == 0
  {
    if n > 0 { MixZero(rows, n - 1, w); }
  }

  lemma {:induction false} ListedWithin(rows: seq<Sample>, n: nat)
    requires n <= |rows|
    ensures forall c :: c in Listed(rows, n) ==> c in Comments(rows, n)
  {
    if n > 0 { ListedWithin(rows, n - 1); }
  }

  lemma {:induction false} DistinctSize(cs: seq<string>, all: set<string>)
    requires forall i, j :: 0 <= i < j < |cs| ==> cs[i] != cs[j]
    requires forall c :: c in cs ==> c in all
    ensures |cs| <= |all|
  {
    if cs != [] {
      var init, c := cs[..|cs| - 1], cs[|cs| - 1];
      DistinctSize(init, all - {c});
    }
  }

  lemma {:induction false} CommentsGrow(rows: seq<Sample>, k: nat, n: nat)
    requires k <= n <= |rows|
    ensures Comments(rows, k) <= Comments(rows, n)
  {
    if k < n { CommentsGrow(rows, k, n - 1); }
  }

  /** With at most 256 distinct comments every comment gets an entry. */
  lemma {:induction false} AllListed(rows: seq<Sample>, n: nat)
    requires n <= |rows| && |Comments(rows, |rows|)| <= MAX_PRODUCTS
    ensures forall i :: 0 <= i < n ==> rows[i].comment in Listed(rows, n)
  {
    if n > 0 {
      AllListed(rows, n - 1);
      if rows[n - 1].comment !in Listed(rows, n - 1) { RoomForNew(rows, n); }
    }
  }

  lemma RoomForNew(rows: seq<Sample>, n: nat)
    requires 0 < n <= |rows| && |Comments(rows, |rows|)| <= MAX_PRODUCTS
    requires rows[n - 1].comment !in Listed(rows, n - 1)
    ensures |Listed(rows, n - 1)| < MAX_PRODUCTS
  {
    ListedWithin(rows, n - 1);
    CommentsGrow(rows, n - 1, |rows|);
    CommentsGrow(rows, n, |rows|);
    DistinctSize(Listed(rows, n - 1) + [rows[n - 1].comment], Comments(rows, |rows|));
  }

  lemma {:induction false} MixOfListed(rows: seq<Sample>, n: nat, cs: seq<string>, w: Measure)
    requires n <= |rows|
    requires forall i :: 0 <= i < n ==> rows[i].comment in cs
    ensures MixSum(rows, n, OfComments(w, cs)) == MixSum(rows, n, w)
  {
    if n > 0 {
      MixOfListed(rows, n - 1, cs, w);
      if LastOf(rows, n - 1, rows[n - 1].machine).Some? {
        var i := LastOfIsEarlier(rows, n - 1, rows[n - 1].machine);
      }
    }
  }

  predicate ProdsOf(list: seq<Prod>, rows: seq<Sample>, n: nat, cs: seq<string>, gap: int)
    requires n <= |rows|
  {
    && |list| == |cs|
    && forall k :: 0 <= k < |cs| ==>
         && list[k].comment == cs[k]
         && list[k].machSec == MixSum(rows, n, OfComment(Seconds(Machining, gap), cs[k]))
         && list[k].produced == MixSum(rows, n, OfComment(Parts(), cs[k]))
  }

  /** Adds to the first entry with the given comment, if there is one. */
  method Bump(list: seq<Prod>, comment: string, sec: int, parts: int) returns (r: seq<Prod>)
    requires forall i, j :: 0 <= i < j < |list| ==> list[i].comment != list[j].comment
    ensures |r| == |list|
    ensures forall k :: 0 <= k < |list| ==>
      r[k] == if list[k].comment == comment
              then list[k].(machSec := list[k].machSec + sec, produced := list[k].produced + parts) else list[k]
  {
    r := list;
    for i := 0 to |list|
      invariant r == list
      invariant forall k :: 0 <= k < i ==> list[k].comment != comment
    {
      if list[i].comment == comment {
        r := r[i := list[i].(machSec := list[i].machSec + sec, produced := list[i].produced + parts)];
        return;
      }
    }
  }

  method ListComments(rows: seq<Sample>) returns (list: seq<Prod>)
    ensures |list| == |Listed(rows, |rows|)|
    ensures forall k :: 0 <= k < |list| ==> list[k] == Prod(Listed(rows, |rows|)[k], 0, 0)
  {
    list := [];
    for i := 0 to |rows|
      invariant |list| == |Listed(rows, i)|
      invariant forall k :: 0 <= k < |list| ==> list[k] == Prod(Listed(rows, i)[k], 0, 0)
    {
      var found := false;
      for j := 0 to |list|
        invariant found <==> exists k :: 0 <= k < j && list[k].comment == rows[i].comment
      {
        if list[j].comment == rows[i].comment { found := true; break; }
      }
      if !found && |list| < MAX_PRODUCTS {
        list := list + [Prod(rows[i].comment, 0, 0)];
      }
    }
  }

  /** The product view: seconds and parts booked on the comment of the earlier sample. */
  method ApiProducts(rows: seq<Sample>, gap: int) returns (list: seq<Prod>)
    ensures ProdsOf(list, rows, |rows|, Listed(rows, |rows|), gap)
  {
    list := ListComments(rows);
    var prevs: map<string, Sample> := map[];
    ghost var cs := Listed(rows, |rows|);
    for i := 0 to |rows|
      invariant Latest(prevs, rows, i)
      invariant ProdsOf(list, rows, i, cs, gap)
    {
      var s := rows[i];
      if s.machine in prevs {
        var prev := prevs[s.machine];
        assert LastOf(rows, i, s.machine) == Some(prev);
        var sec, parts := 0, 0;
        if IsMachining(prev) && s.ts > prev.ts && s.ts - prev.ts <= gap { sec := s.ts - prev.ts; }
        if prev.partTotal >= 0 && s.partTotal >= 0 && s.partTotal > prev.partTotal {
          parts := s.partTotal - prev.partTotal;
        }
        list := Bump(list, prev.comment, sec, parts);
      } else {
        assert LastOf(rows, i, s.machine).None?;
      }
      prevs := prevs[s.machine := s];
    }
  }

  function ProdTotals(list: seq<Prod>): (int, int) {
    if list == [] then (0, 0)
    else
      var t := ProdTotals(list[..|list| - 1]);
      (t.0 + list[|list| - 1].machSec, t.1 + list[|list| - 1].produced)
  }

  lemma {:induction false} ProdTotalsAre(list: seq<Prod>, rows: seq<Sample>, cs: seq<string>, gap: int)
    requires ProdsOf(list, rows, |rows|, cs, gap)
    ensures ProdTotals(list) == (CommentSum(rows, cs, Seconds(Machining, gap)), CommentSum(rows, cs, Parts()))
  {
    if list != [] { ProdTotalsAre(list[..|list| - 1], rows, cs[..|cs| - 1], gap); }
  }

  /**
   The product entries together hold the fleet totals, except what follows a sample whose comment
   has no entry; with at most 256 comments there is no exception.
   */
  lemma ProductsConserve(list: seq<Prod>, rows: seq<Sample>, ms: seq<string>, gap: int)
    requires Covers(ms, rows, |rows|)
    requires ProdsOf(list, rows, |rows|, Listed(rows, |rows|), gap)
    ensures var cs := Listed(rows, |rows|);
      && ProdTotals(list).0 == FleetSum(rows, ms, Seconds(Machining, gap))
                               - MixSum(rows, |rows|, NotOfComments(Seconds(Machining, gap), cs))
      && ProdTotals(list).1 == FleetSum(rows, ms, Parts()) - MixSum(rows, |rows|, NotOfComments(Parts(), cs))
    ensures |Comments(rows, |rows|)| <= MAX_PRODUCTS ==>
      ProdTotals(list) == (FleetSum(rows, ms, Seconds(Machining, gap)), FleetSum(rows, ms, Parts()))
  {
    var cs := Listed(rows, |rows|);
    ProdTotalsAre(list, rows, cs, gap);
    CommentsConserve(rows, ms, Seconds(Machining, gap));
    CommentsConserve(rows, ms, Parts());
  }

  lemma CommentsConserve(rows: seq<Sample>, ms: seq<string>, w: Measure)
    requires Covers(ms, rows, |rows|)
    ensures var cs := Listed(rows, |rows|);
      && CommentSum(rows, cs, w) == FleetSum(rows, ms, w) - MixSum(rows, |rows|, NotOfComments(w, cs))
      && (|Comments(rows, |rows|)| <= MAX_PRODUCTS ==> CommentSum(rows, cs, w) == FleetSum(rows, ms, w))
  {
    var cs := Listed(rows, |rows|);
    CommentSumIsMix(rows, cs, w);
    MixAdd(rows, |rows|, w, OfComments(w, cs), NotOfComments(w, cs));
    MixedPassIsFleet(rows, ms, w);
    if |Comments(rows, |rows|)| <= MAX_PRODUCTS {
      AllListed(rows, |rows|);
      MixOfListed(rows, |rows|, cs, w);
    }
  }

  // ---- more than 256 comments ----------------------------------------------

  function Name(k: nat): (r: string)
    ensures |r| == k
  {
    seq(k, _ => 'a')
  }

  /** One machine that makes a part each second and changes its program comment each time. */
  function ManyRows(n: nat): seq<Sample> {
    seq(n, k requires 0 <= k < n => Sample(k, "M", "", "", Name(k), k, 0))
  }

  function NewNames(n: nat): (r: seq<string>)
    ensures |r| == n && forall k :: 0 <= k < n ==> r[k] == Name(k)
  {
    seq(n, k requires 0 <= k < n => Name(k))
  }

  lemma NameListed(k: nat, n: nat)
    ensures Name(k) in NewNames(n) <==> k < n
  {
    if k < n { assert NewNames(n)[k] == Name(k); }
    if Name(k) in NewNames(n) {
      var i :| 0 <= i < n && NewNames(n)[i] == Name(k);
      assert |Name(i)| == |Name(k)|;
    }
  }

  lemma {:induction false} ManyListed(n: nat, i: nat)
    requires i <= n
    ensures Listed(ManyRows(n), i) == NewNames(Min(i, MAX_PRODUCTS))
  {
    if i > 0 {
      ManyListed(n, i - 1);
      NameListed(i - 1, Min(i - 1, MAX_PRODUCTS));
      assert ManyRows(n)[i - 1].comment == Name(i - 1);
      if i <= MAX_PRODUCTS { assert NewNames(i - 1) + [Name(i - 1)] == NewNames(i); }
    }
  }

  lemma {:induction false} ManyRises(n: nat, i: nat)
    requires i <= n
    ensures MixSum(ManyRows(n), i, Parts()) == Max(i - 1, 0)
    ensures MixSum(ManyRows(n), i, NotOfComments(Parts(), NewNames(Min(n, MAX_PRODUCTS))))
         == Max(i - 1 - MAX_PRODUCTS, 0)
  {
    if i > 0 {
      ManyRises(n, i - 1);
      if i > 1 {
        var p, s := ManyRows(n)[i - 2], ManyRows(n)[i - 1];
        assert LastOf(ManyRows(n), i - 1, "M") == Some(p);
        assert Parts()(p, s) == 1;
        NameListed(i - 2, Min(n, MAX_PRODUCTS));
      }
    }
  }

  /** All parts but the first 256 are missing from the product view of such a machine, whose comments are all new. */
  lemma ManyComments(n: nat, list: seq<Prod>, gap: int)
    requires ProdsOf(list, ManyRows(n), n, Listed(ManyRows(n), n), gap)
    ensures Sorted(ManyRows(n)) && Covers(["M"], ManyRows(n), n)
    ensures FleetSum(ManyRows(n), ["M"], Parts()) == Max(n - 1, 0)
    ensures ProdTotals(list).1 == Max(Min(n - 1, MAX_PRODUCTS), 0)
  {
    ManyListed(n, n);
    ManyRises(n, n);
    MixedPassIsFleet(ManyRows(n), ["M"], Parts());
    ProductsConserve(list, ManyRows(n), ["M"], gap);
  }
}
