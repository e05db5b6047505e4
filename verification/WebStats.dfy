/**
 The statistics endpoints of the web server: whole-range figures, time buckets, production and
 products.  Every view is tied to the sum over adjacent same-machine samples of module Samples.
 */
module WebStats {
  import opened Text
  import opened Samples

  function Get(m: map<int, int>, k: int): int { if k in m then m[k] else 0 }

  // ---- whole-range figures -------------------------------------------------

  /** The rows a range figure looks at among the first `n`; an empty name selects all rows as one list. */
  function Picked(rows: seq<Sample>, n: nat, machine: string): seq<Sample>
    requires n <= |rows|
  {
    if machine == "" then rows[..n] else Only(rows, n, machine)
  }

  lemma PickedSnoc(rows: seq<Sample>, n: nat, machine: string)
    requires n < |rows| && (machine == "" || rows[n].machine == machine)
    ensures Picked(rows, n + 1, machine) == Picked(rows, n, machine) + [rows[n]]
  {
  }

  predicate IsLast(prev: Option<Sample>, xs: seq<Sample>) {
    if xs == [] then prev.None? else prev == Some(xs[|xs| - 1])
  }

  /** Machining or power seconds of one machine. */
  method SecondsInRange(rows: seq<Sample>, machine: string, kind: Kind, gap: int) returns (total: int)
    ensures total == AdjSum(Picked(rows, |rows|, machine), Seconds(kind, gap))
  {
    total := 0;
    var prev: Option<Sample> := None;
    for i := 0 to |rows|
      invariant IsLast(prev, Picked(rows, i, machine))
      invariant total == AdjSum(Picked(rows, i, machine), Seconds(kind, gap))
    {
      var s := rows[i];
      if machine != "" && s.machine != machine { continue; }
      PickedSnoc(rows, i, machine);
      AdjSnoc(Picked(rows, i, machine), s, Seconds(kind, gap));
      var sec := SecondsSince(prev, s, kind, gap);
      total := total + sec;
      prev := Some(s);
    }
  }

  /** What a sample adds to the one before, unless the gap is too long. */
  method SecondsSince(prev: Option<Sample>, s: Sample, kind: Kind, gap: int) returns (sec: int)
    ensures sec == Gain(prev, s, Seconds(kind, gap))
  {
    sec := 0;
    if prev.Some? && On(kind, prev.value) && s.ts > prev.value.ts && s.ts - prev.value.ts <= gap {
      sec := s.ts - prev.value.ts;
    }
  }

  method ProducedInRange(rows: seq<Sample>, machine: string) returns (produced: int)
    ensures produced == MachineSum(rows, machine, Parts())
  {
    produced := 0;
    var prev: Option<Sample> := None;
    for i := 0 to |rows|
      invariant prev == LastOf(rows, i, machine)
      invariant produced == PassOf(rows, i, machine, Parts())
    {
      var s := rows[i];
      if s.machine != machine { continue; }
      if prev.Some? && prev.value.partTotal >= 0 && s.partTotal >= 0 && s.partTotal > prev.value.partTotal {
        produced := produced + (s.partTotal - prev.value.partTotal);
      }
      prev := Some(s);
    }
    PassIsAdjSum(rows, |rows|, machine, Parts());
  }

  /** The machines of the rows in order of first appearance, each once. */
  method CollectMachines(rows: seq<Sample>) returns (ms: seq<string>)
    ensures Covers(ms, rows, |rows|)
    ensures forall m :: m in ms ==> exists i :: 0 <= i < |rows| && rows[i].machine == m
  {
    ms := [];
    for i := 0 to |rows|
      invariant Covers(ms, rows, i)
      invariant forall m :: m in ms ==> exists k :: 0 <= k < i && rows[k].machine == m
    {
      var found := false;
      for j := 0 to |ms|
        invariant found <==> rows[i].machine in ms[..j]
      {
        if ms[j] == rows[i].machine { found := true; break; }
      }
      assert ms[..|ms|] == ms;
      if !found { ms := ms + [rows[i].machine]; }
    }
  }

  datatype Summary = Summary(
    machine: string, machSec: int, powerSec: int, produced: int, counts: Counts)

  /** What one look at a machine's samples yields. */
  datatype Counts = Counts(samples: nat, machining: nat, startTotal: int, endTotal: int, last: Option<Sample>)

  function CountMachining(xs: seq<Sample>): nat {
    if xs == [] then 0 else CountMachining(xs[..|xs| - 1]) + if IsMachining(xs[|xs| - 1]) then 1 else 0
  }

  lemma CountSnoc(xs: seq<Sample>, s: Sample)
    ensures CountMachining(xs + [s]) == CountMachining(xs) + if IsMachining(s) then 1 else 0
  {
    assert (xs + [s])[..|xs|] == xs;
  }

  /** The first known counter value of a list, or -1. */
  predicate FirstCounter(xs: seq<Sample>, v: int) {
    if v < 0 then v == -1 && forall i :: 0 <= i < |xs| ==> xs[i].partTotal < 0
    else exists i :: 0 <= i < |xs| && xs[i].partTotal == v && forall j :: 0 <= j < i ==> xs[j].partTotal < 0
  }

  /** The last known counter value of a list, or -1. */
  predicate LastCounter(xs: seq<Sample>, v: int) {
    if v < 0 then v == -1 && forall i :: 0 <= i < |xs| ==> xs[i].partTotal < 0
    else exists i :: 0 <= i < |xs| && xs[i].partTotal == v && forall j :: i < j < |xs| ==> xs[j].partTotal < 0
  }

  lemma CounterSnoc(xs: seq<Sample>, s: Sample, first: int, last: int)
    requires FirstCounter(xs, first) && LastCounter(xs, last)
    ensures FirstCounter(xs + [s], if first < 0 && s.partTotal >= 0 then s.partTotal else first)
    ensures LastCounter(xs + [s], if s.partTotal >= 0 then s.partTotal else last)
  {
    var ys := xs + [s];
    if first >= 0 {
      var i :| 0 <= i < |xs| && xs[i].partTotal == first && forall j :: 0 <= j < i ==> xs[j].partTotal < 0;
      assert ys[i].partTotal == first;
    } else if s.partTotal >= 0 {
      assert ys[|xs|].partTotal == s.partTotal;
    }
    if s.partTotal >= 0 {
      assert ys[|xs|].partTotal == s.partTotal;
    } else if last >= 0 {
      var i :| 0 <= i < |xs| && xs[i].partTotal == last && forall j :: i < j < |xs| ==> xs[j].partTotal < 0;
      assert ys[i].partTotal == last;
    }
  }

  predicate CountsOf(c: Counts, xs: seq<Sample>) {
    && c.samples == |xs| && c.machining == CountMachining(xs) && IsLast(c.last, xs)
    && FirstCounter(xs, c.startTotal) && LastCounter(xs, c.endTotal)
  }

  /** What the summary says of one machine, in terms of the machine's own list of samples. */
  predicate SummaryOf(rows: seq<Sample>, gap: int, item: Summary) {
    var xs := Only(rows, |rows|, item.machine);
    && item.machSec == AdjSum(Picked(rows, |rows|, item.machine), Seconds(Machining, gap))
    && item.powerSec == AdjSum(Picked(rows, |rows|, item.machine), Seconds(Power, gap))
    && item.produced == AdjSum(xs, Parts())
    && CountsOf(item.counts, xs)
  }

  predicate SummariesOf(rows: seq<Sample>, gap: int, items: seq<Summary>) {
    forall i :: 0 <= i < |items| ==> SummaryOf(rows, gap, items[i])
  }

  function Names(items: seq<Summary>): seq<string> {
    if items == [] then [] else Names(items[..|items| - 1]) + [items[|items| - 1].machine]
  }

  lemma NamesSnoc(items: seq<Summary>, item: Summary)
    ensures Names(items + [item]) == Names(items) + [item.machine]
  {
    assert (items + [item])[..|items|] == items;
  }

  datatype Figure = MachSec | PowerSec | Produced

  function FigureOf(f: Figure, item: Summary): int {
    match f
    case MachSec => item.machSec
    case PowerSec => item.powerSec
    case Produced => item.produced
  }

  function MeasureOf(f: Figure, gap: int): Measure {
    match f
    case MachSec => Seconds(Machining, gap)
    case PowerSec => Seconds(Power, gap)
    case Produced => Parts()
  }

  /** One figure added up over the items. */
  function TotalOf(items: seq<Summary>, f: Figure): int {
    if items == [] then 0 else TotalOf(items[..|items| - 1], f) + FigureOf(f, items[|items| - 1])
  }

  lemma {:induction false} TotalsAreFleet(rows: seq<Sample>, gap: int, items: seq<Summary>, f: Figure)
    requires SummariesOf(rows, gap, items) && (f == Produced || "" !in Names(items))
    ensures TotalOf(items, f) == FleetSum(rows, Names(items), MeasureOf(f, gap))
  {
    if items != [] {
      var init, item := items[..|items| - 1], items[|items| - 1];
      TotalsAreFleet(rows, gap, init, f);
      assert SummaryOf(rows, gap, item);
      var names := Names(items);
      assert names[..|names| - 1] == Names(init) && names[|names| - 1] == item.machine;
      assert item.machine in names;
      assert FigureOf(f, item) == MachineSum(rows, item.machine, MeasureOf(f, gap));
    }
  }

  lemma CountsSnoc(c: Counts, s: Sample, xs: seq<Sample>, r: Counts, ys: seq<Sample>)
    requires CountsOf(c, xs) && Same(ys, xs + [s]) && r.samples == c.samples + 1 && r.last == Some(s)
    requires r.machining == c.machining + if IsMachining(s) then 1 else 0
    requires r.startTotal == if c.startTotal < 0 && s.partTotal >= 0 then s.partTotal else c.startTotal
    requires r.endTotal == if s.partTotal >= 0 then s.partTotal else c.endTotal
    ensures CountsOf(r, ys)
  {
    CountSnoc(xs, s);
    CounterSnoc(xs, s, c.startTotal, c.endTotal);
  }

  method CountSample(c: Counts, s: Sample, ghost xs: seq<Sample>) returns (r: Counts)
    requires CountsOf(c, xs)
    ensures CountsOf(r, xs + [s])
  {
    r := c.(samples := c.samples + 1, last := Some(s));
    if IsMachining(s) { r := r.(machining := r.machining + 1); }
    if s.partTotal >= 0 {
      if r.startTotal < 0 { r := r.(startTotal := s.partTotal); }
      r := r.(endTotal := s.partTotal);
    }
    CountsSnoc(c, s, xs, r, xs + [s]);
  }

  /** The pass of the summary over the samples of one machine. */
  method ScanMachine(rows: seq<Sample>, name: string) returns (c: Counts)
    ensures CountsOf(c, Only(rows, |rows|, name))
  {
    c := Counts(0, 0, -1, -1, None);
    for i := 0 to |rows|
      invariant CountsOf(c, Only(rows, i, name))
    {
      if rows[i].machine == name { c := CountSample(c, rows[i], Only(rows, i, name)); }
    }
  }

  method Summarise(rows: seq<Sample>, name: string, gap: int) returns (item: Summary)
    ensures item.machine == name && SummaryOf(rows, gap, item)
  {
    var counts := ScanMachine(rows, name);
    var mach := SecondsInRange(rows, name, Machining, gap);
    var power := SecondsInRange(rows, name, Power, gap);
    var produced := ProducedInRange(rows, name);
    item := Summary(name, mach, power, produced, counts);
  }

  /** One item per machine; the items add up to the fleet's figures, unless a machine has no name. */
  method ApiSummary(rows: seq<Sample>, gap: int) returns (items: seq<Summary>)
    ensures Covers(Names(items), rows, |rows|)
    ensures forall m :: m in Names(items) ==> exists i :: 0 <= i < |rows| && rows[i].machine == m
    ensures SummariesOf(rows, gap, items)
    ensures TotalOf(items, Produced) == FleetSum(rows, Names(items), Parts())
    ensures "" !in Names(items) ==> forall f :: TotalOf(items, f) == FleetSum(rows, Names(items), MeasureOf(f, gap))
  {
    var ms := CollectMachines(rows);
    items := SummariseAll(rows, ms, gap);
    SummaryTotals(rows, gap, items);
  }

  method SummariseAll(rows: seq<Sample>, ms: seq<string>, gap: int) returns (items: seq<Summary>)
    ensures Names(items) == ms && SummariesOf(rows, gap, items)
  {
    items := [];
    for k := 0 to |ms|
      invariant Names(items) == ms[..k] && SummariesOf(rows, gap, items)
    {
      var item := Summarise(rows, ms[k], gap);
      NamesSnoc(items, item);
      items := items + [item];
    }
    assert ms[..|ms|] == ms;
  }

  lemma SummaryTotals(rows: seq<Sample>, gap: int, items: seq<Summary>)
    requires SummariesOf(rows, gap, items)
    ensures TotalOf(items, Produced) == FleetSum(rows, Names(items), Parts())
    ensures "" !in Names(items) ==> forall f :: TotalOf(items, f) == FleetSum(rows, Names(items), MeasureOf(f, gap))
  {
    TotalsAreFleet(rows, gap, items, Produced);
    forall f | "" !in Names(items) ensures TotalOf(items, f) == FleetSum(rows, Names(items), MeasureOf(f, gap)) {
      TotalsAreFleet(rows, gap, items, f);
    }
  }

  // ---- utilisation ---------------------------------------------------------

  /** Seconds are counted inside the span between the first and the last sample. */
  lemma {:induction false} SecondsWithinSpan(xs: seq<Sample>, kind: Kind, gap: int)
    requires forall i, j :: 0 <= i < j < |xs| ==> xs[i].ts <= xs[j].ts
    ensures 0 <= AdjSum(xs, Seconds(kind, gap))
    ensures |xs| > 0 ==> AdjSum(xs, Seconds(kind, gap)) <= xs[|xs| - 1].ts - xs[0].ts
    ensures |xs| == 0 ==> AdjSum(xs, Seconds(kind, gap)) == 0
  {
    if |xs| >= 2 { SecondsWithinSpan(xs[..|xs| - 1], kind, gap); }
  }

  lemma {:induction false} MachiningWithinPower(xs: seq<Sample>, gap: int)
    ensures AdjSum(xs, Seconds(Machining, gap)) <= AdjSum(xs, Seconds(Power, gap))
  {
    if |xs| >= 2 { MachiningWithinPower(xs[..|xs| - 1], gap); }
  }

  predicate OrderedWithin(xs: seq<Sample>, lo: int, hi: int) {
    && (forall i, j :: 0 <= i < j < |xs| ==> xs[i].ts <= xs[j].ts)
    && (forall i :: 0 <= i < |xs| ==> lo <= xs[i].ts <= hi)
  }

  lemma {:induction false} OnlySorted(rows: seq<Sample>, n: nat, m: string)
    requires n <= |rows| && Sorted(rows)
    ensures if n == 0 then Only(rows, n, m) == [] else OrderedWithin(Only(rows, n, m), rows[0].ts, rows[n - 1].ts)
  {
    if n > 1 {
      OnlySorted(rows, n - 1, m);
      assert rows[n - 2].ts <= rows[n - 1].ts && rows[0].ts <= rows[n - 1].ts;
    }
  }

  /** Machining never exceeds power, so the utilisation ratio never exceeds one and its clamp is idle. */
  lemma UtilisationAtMostOne(rows: seq<Sample>, m: string, gap: int)
    requires Sorted(rows)
    ensures var mach := MachineSum(rows, m, Seconds(Machining, gap));
      var power := MachineSum(rows, m, Seconds(Power, gap));
      && 0 <= mach <= power
      && (power > 0 ==> mach as real / power as real <= 1.0)
      && (|rows| > 0 ==> power <= rows[|rows| - 1].ts - rows[0].ts)
  {
    var xs := Only(rows, |rows|, m);
    OnlySorted(rows, |rows|, m);
    SecondsWithinSpan(xs, Machining, gap);
    SecondsWithinSpan(xs, Power, gap);
    MachiningWithinPower(xs, gap);
    var mach := MachineSum(rows, m, Seconds(Machining, gap));
    var power := MachineSum(rows, m, Seconds(Power, gap));
    if power > 0 { RatioAtMostOne(mach, power); }
  }

  lemma RatioAtMostOne(a: int, b: int)
    requires a <= b && b > 0
    ensures a as real / b as real <= 1.0
  {
    var r := a as real / b as real;
    assert r * b as real == a as real;
    assert r > 1.0 ==> r * b as real > 1.0 * b as real;
  }

  // ---- buckets -------------------------------------------------------------

  /** Length of the part of [t0,t1) inside [lo,hi). */
  function Overlap(t0: int, t1: int, lo: int, hi: int): nat { Max(0, Min(t1, hi) - Max(t0, lo)) }

  /** The seconds of a pair that fall into the bucket [lo,hi). */
  function SecondsIn(kind: Kind, gap: int, lo: int, hi: int): Measure {
    (p: Sample, s: Sample) => if On(kind, p) && Counted(gap, p, s) then Overlap(p.ts, s.ts, lo, hi) else 0
  }

  lemma MulAtLeast(a: int, w: int)
    requires w > 0 && a * w > 0
    ensures a >= 1 && a * w >= w
  {
    assert a <= 0 ==> a * w <= 0;
    assert (a - 1) * w >= 0;
  }

  lemma DivUnique(x: int, w: int, q: int)
    requires w > 0 && q * w <= x < q * w + w
    ensures x / w == q && x % w == x - q * w
  {
    var q' := x / w;
    assert x == q' * w + x % w;
    assert (q - q') * w == q * w - q' * w && (q' - q) * w == q' * w - q * w;
    if q > q' { PosMul(q - q', w); }
    if q < q' { PosMul(q' - q, w); }
  }

  lemma PosMul(a: int, w: int)
    requires a >= 1 && w > 0
    ensures a * w >= w
  {
    assert (a - 1) * w >= 0;
  }

  /** Bucket edges are the multiples of the width. */
  predicate Aligned(b: int, width: nat)
    requires width > 0
  {
    b % width == 0
  }

  function BucketStart(ts: nat, width: nat): (b: nat)
    requires width > 0
    ensures b <= ts < b + width && Aligned(b, width)
  {
    StartFacts(ts, width);
    (ts / width) * width
  }

  lemma StartFacts(ts: nat, width: nat)
    requires width > 0
    ensures 0 <= (ts / width) * width <= ts < (ts / width) * width + width
    ensures Aligned((ts / width) * width, width)
  {
    assert ts == (ts / width) * width + ts % width;
    DivUnique((ts / width) * width, width, ts / width);
  }

  /** Two different bucket starts are at least one width apart. */
  lemma AlignedGap(b: int, c: int, width: nat)
    requires width > 0 && Aligned(b, width) && Aligned(c, width) && b < c
    ensures b + width <= c
  {
    var i, j := b / width, c / width;
    assert b == i * width && c == j * width;
    assert (j - i) * width == c - b;
    MulAtLeast(j - i, width);
  }

  lemma NextAligned(b: int, width: nat)
    requires width > 0 && Aligned(b, width)
    ensures Aligned(b + width, width)
  {
    var i := b / width;
    assert b == i * width;
    assert (i + 1) * width == b + width;
    DivUnique(b + width, width, i + 1);
  }

  lemma OwnBucket(ts: nat, b: int, width: nat)
    requires width > 0 && Aligned(b, width)
    ensures b <= ts < b + width <==> BucketStart(ts, width) == b
  {
    var c := BucketStart(ts, width);
    if c < b { AlignedGap(c, b, width); }
    if b < c { AlignedGap(b, c, width); }
  }

  /** A table of seconds has entries for bucket starts only, and only positive ones. */
  predicate Tight(secs: map<int, int>, width: nat)
    requires width > 0
  {
    forall b :: b in secs ==> Aligned(b, width) && secs[b] > 0
  }

  /** Cuts one interval at the bucket edges and adds the pieces to their buckets. */
  method SplitInterval(secs: map<int, int>, t0: nat, t1: nat, width: nat) returns (r: map<int, int>)
    requires width > 0 && t0 < t1
    ensures forall b: int :: Aligned(b, width) ==> Get(r, b) == Get(secs, b) + Overlap(t0, t1, b, b + width)
    ensures Tight(secs, width) ==> Tight(r, width)
  {
    r := secs;
    var bb := BucketStart(t0, width);
    forall b: int | Aligned(b, width) && b < bb ensures b + width <= t0 { AlignedGap(b, bb, width); }
    while bb < t1
      invariant Aligned(bb, width) && BucketStart(t0, width) <= bb
      invariant Tight(secs, width) ==> Tight(r, width)
      invariant forall b: int :: Aligned(b, width) ==>
        Get(r, b) == Get(secs, b) + if b < bb then Overlap(t0, t1, b, b + width) else 0
    {
      var lo := if bb > t0 then bb else t0;
      var hi := if bb + width < t1 then bb + width else t1;
      if hi > lo { r := r[bb := Get(r, bb) + (hi - lo)]; }
      NextAligned(bb, width);
      forall b: int | Aligned(b, width) && b > bb ensures b >= bb + width {
        AlignedGap(bb, b, width);
      }
      bb := bb + width;
    }
  }

  datatype Point = Point(start: int, machSec: int, powerSec: int, machCount: int, sampleCount: int)

  function CountIn(rows: seq<Sample>, n: nat, lo: int, hi: int): nat
    requires n <= |rows|
  {
    if n == 0 then 0 else CountIn(rows, n - 1, lo, hi) + if lo <= rows[n - 1].ts < hi then 1 else 0
  }

  function MachCountIn(rows: seq<Sample>, n: nat, lo: int, hi: int): nat
    requires n <= |rows|
  {
    if n == 0 then 0
    else MachCountIn(rows, n - 1, lo, hi) + if lo <= rows[n - 1].ts < hi && IsMachining(rows[n - 1]) then 1 else 0
  }

  function PointAt(rows: seq<Sample>, b: int, width: nat, gap: int): Point {
    Point(b, MixSum(rows, |rows|, SecondsIn(Machining, gap, b, b + width)),
          MixSum(rows, |rows|, SecondsIn(Power, gap, b, b + width)),
          MachCountIn(rows, |rows|, b, b + width), CountIn(rows, |rows|, b, b + width))
  }

  /** The point of one bucket; a bucket without a sample has none. */
  function BucketPoint(rows: seq<Sample>, b: int, width: nat, gap: int): seq<Point> {
    if CountIn(rows, |rows|, b, b + width) > 0 then [PointAt(rows, b, width, gap)] else []
  }

  /** The points emitted for the buckets from `b` to `last`: those holding at least one sample. */
  function PointsFrom(rows: seq<Sample>, b: int, last: int, width: nat, gap: int): seq<Point>
    requires width > 0
    decreases last - b
  {
    if b > last then []
    else BucketPoint(rows, b, width, gap) + PointsFrom(rows, b + width, last, width, gap)
  }

  function FirstBucket(rows: seq<Sample>, width: nat): int
    requires width > 0
  {
    if rows == [] then 0 else BucketStart(rows[0].ts, width)
  }

  function LastBucket(rows: seq<Sample>, width: nat): int
    requires width > 0
  {
    if rows == [] then 0 else BucketStart(rows[|rows| - 1].ts, width)
  }

  function ApiPoints(rows: seq<Sample>, width: nat, gap: int): seq<Point>
    requires width > 0
  {
    PointsFrom(rows, FirstBucket(rows, width), LastBucket(rows, width), width, gap)
  }

  ghost predicate Latest(prevs: map<string, Sample>, rows: seq<Sample>, n: nat)
    requires n <= |rows|
  {
    forall m :: LastOf(rows, n, m) == if m in prevs then Some(prevs[m]) else None
  }

  datatype Tables = Tables(secs: map<int, int>, psecs: map<int, int>, cnts: map<int, int>, scnts: map<int, int>)

  ghost predicate TablesOf(t: Tables, rows: seq<Sample>, n: nat, width: nat, gap: int)
    requires n <= |rows| && width > 0
  {
    forall b: int :: Aligned(b, width) ==>
      && Get(t.secs, b) == MixSum(rows, n, SecondsIn(Machining, gap, b, b + width))
      && Get(t.psecs, b) == MixSum(rows, n, SecondsIn(Power, gap, b, b + width))
      && Get(t.cnts, b) == MachCountIn(rows, n, b, b + width)
      && Get(t.scnts, b) == CountIn(rows, n, b, b + width)
  }

  method AddRow(t: Tables, prev: Option<Sample>, s: Sample, width: nat, gap: int) returns (r: Tables)
    requires width > 0
    ensures forall b: int :: Aligned(b, width) ==>
      && Get(r.secs, b) == Get(t.secs, b) + Gain(prev, s, SecondsIn(Machining, gap, b, b + width))
      && Get(r.psecs, b) == Get(t.psecs, b) + Gain(prev, s, SecondsIn(Power, gap, b, b + width))
      && Get(r.cnts, b) == Get(t.cnts, b) + (if b <= s.ts < b + width && IsMachining(s) then 1 else 0)
      && Get(r.scnts, b) == Get(t.scnts, b) + (if b <= s.ts < b + width then 1 else 0)
  {
    var b := BucketStart(s.ts, width);
    forall c: int | Aligned(c, width) ensures c <= s.ts < c + width <==> c == b { OwnBucket(s.ts, c, width); }
    var cnts := if IsMachining(s) then t.cnts[b := Get(t.cnts, b) + 1] else t.cnts;
    var scnts := t.scnts[b := Get(t.scnts, b) + 1];
    var secs := AddSeconds(t.secs, Machining, prev, s, width, gap);
    var psecs := AddSeconds(t.psecs, Power, prev, s, width, gap);
    r := Tables(secs, psecs, cnts, scnts);
  }

  method AddSeconds(secs: map<int, int>, kind: Kind, prev: Option<Sample>, s: Sample, width: nat, gap: int)
    returns (r: map<int, int>)
    requires width > 0
    ensures forall b: int :: Aligned(b, width) ==>
      Get(r, b) == Get(secs, b) + Gain(prev, s, SecondsIn(kind, gap, b, b + width))
    ensures Tight(secs, width) ==> Tight(r, width)
  {
    r := secs;
    if prev.Some? && s.ts > prev.value.ts && s.ts - prev.value.ts <= gap {
      if On(kind, prev.value) { r := SplitInterval(secs, prev.value.ts, s.ts, width); }
    }
  }

  /** The bucketed machining view over the interleaved rows of all machines. */
  method ApiMachining(rows: seq<Sample>, width: nat, gap: int) returns (points: seq<Point>)
    requires width > 0
    ensures points == ApiPoints(rows, width, gap)
  {
    var t := Tables(map[], map[], map[], map[]);
    var prevs: map<string, Sample> := map[];
    for i := 0 to |rows|
      invariant Latest(prevs, rows, i)
      invariant TablesOf(t, rows, i, width, gap)
    {
      var s := rows[i];
      var prev := if s.machine in prevs then Some(prevs[s.machine]) else None;
      assert prev == LastOf(rows, i, s.machine);
      t := AddRow(t, prev, s, width, gap);
      prevs := prevs[s.machine := s];
    }
    points := EmitPoints(rows, t, width, gap);
  }

  method EmitPoints(rows: seq<Sample>, t: Tables, width: nat, gap: int) returns (points: seq<Point>)
    requires width > 0 && TablesOf(t, rows, |rows|, width, gap)
    ensures points == ApiPoints(rows, width, gap)
  {
    points := [];
    var b := FirstBucket(rows, width);
    var last := LastBucket(rows, width);
    while b <= last
      invariant Aligned(b, width)
      invariant ApiPoints(rows, width, gap) == points + PointsFrom(rows, b, last, width, gap)
      decreases last - b
    {
      var point := EmitBucket(rows, t, b, width, gap);
      Associate(points, point, PointsFrom(rows, b + width, last, width, gap));
      points := points + point;
      NextAligned(b, width);
      b := b + width;
    }
  }

  method EmitBucket(rows: seq<Sample>, t: Tables, b: int, width: nat, gap: int) returns (point: seq<Point>)
    requires width > 0 && TablesOf(t, rows, |rows|, width, gap) && Aligned(b, width)
    ensures point == BucketPoint(rows, b, width, gap)
  {
    point := [];
    if Get(t.scnts, b) > 0 {
      point := [Point(b, Get(t.secs, b), Get(t.psecs, b), Get(t.cnts, b), Get(t.scnts, b))];
    }
  }

  // ---- bucket conservation -------------------------------------------------

  /** What buckets b, b + width, ... up to `last` hold together. */
  function BucketTotal(rows: seq<Sample>, n: nat, kind: Kind, gap: int, b: int, last: int, width: nat): int
    requires n <= |rows| && width > 0
    decreases last - b
  {
    if b > last then 0
    else MixSum(rows, n, SecondsIn(kind, gap, b, b + width)) + BucketTotal(rows, n, kind, gap, b + width, last, width)
  }

  lemma {:induction false} BucketTotalIsClip(rows: seq<Sample>, n: nat, kind: Kind, gap: int, b: int, last: int,
                                             width: nat)
    requires n <= |rows| && width > 0 && b <= last && Aligned(b, width) && Aligned(last, width)
    ensures BucketTotal(rows, n, kind, gap, b, last, width) == MixSum(rows, n, SecondsIn(kind, gap, b, last + width))
    decreases last - b
  {
    if b < last {
      AlignedGap(b, last, width);
      NextAligned(b, width);
      BucketTotalIsClip(rows, n, kind, gap, b + width, last, width);
      MixAdd(rows, n, SecondsIn(kind, gap, b, last + width), SecondsIn(kind, gap, b, b + width),
             SecondsIn(kind, gap, b + width, last + width));
    } else {
      assert BucketTotal(rows, n, kind, gap, b + width, last, width) == 0;
    }
  }

  lemma {:induction false} ClipOfAll(rows: seq<Sample>, n: nat, kind: Kind, gap: int, lo: int, hi: int)
    requires n <= |rows|
    requires forall i :: 0 <= i < n ==> lo <= rows[i].ts < hi
    ensures MixSum(rows, n, SecondsIn(kind, gap, lo, hi)) == MixSum(rows, n, Seconds(kind, gap))
  {
    if n > 0 {
      ClipOfAll(rows, n - 1, kind, gap, lo, hi);
      if LastOf(rows, n - 1, rows[n - 1].machine).Some? {
        var i := LastOfIsEarlier(rows, n - 1, rows[n - 1].machine);
      }
    }
  }

  lemma FirstNotAfterLast(rows: seq<Sample>, width: nat)
    requires width > 0 && Sorted(rows)
    ensures FirstBucket(rows, width) <= LastBucket(rows, width)
    ensures Aligned(FirstBucket(rows, width), width) && Aligned(LastBucket(rows, width), width)
    ensures forall i :: 0 <= i < |rows| ==>
      FirstBucket(rows, width) <= rows[i].ts < LastBucket(rows, width) + width
  {
    DivUnique(0, width, 0);
    if rows != [] {
      var b, last := FirstBucket(rows, width), LastBucket(rows, width);
      assert rows[0].ts <= rows[|rows| - 1].ts;
      if b > last { AlignedGap(last, b, width); }
      forall i | 0 <= i < |rows| ensures rows[0].ts <= rows[i].ts <= rows[|rows| - 1].ts { }
    }
  }

  /** All buckets together hold exactly the per-machine seconds, added over the machines. */
  lemma BucketsConserveSeconds(rows: seq<Sample>, ms: seq<string>, kind: Kind, gap: int, width: nat)
    requires width > 0 && Sorted(rows) && Covers(ms, rows, |rows|)
    ensures BucketTotal(rows, |rows|, kind, gap, FirstBucket(rows, width), LastBucket(rows, width), width)
            == FleetSum(rows, ms, Seconds(kind, gap))
  {
    var b, last := FirstBucket(rows, width), LastBucket(rows, width);
    FirstNotAfterLast(rows, width);
    BucketTotalIsClip(rows, |rows|, kind, gap, b, last, width);
    ClipOfAll(rows, |rows|, kind, gap, b, last + width);
    MixedPassIsFleet(rows, ms, Seconds(kind, gap));
  }

  function SecOf(kind: Kind, p: Point): int { if kind == Machining then p.machSec else p.powerSec }

  function EmittedTotal(points: seq<Point>, kind: Kind): int {
    if points == [] then 0 else SecOf(kind, points[0]) + EmittedTotal(points[1..], kind)
  }

  /** A bucket as wide as the largest counted gap cannot be crossed without a sample inside it. */
  lemma {:induction false} EmptyBucketIsIdle(rows: seq<Sample>, n: nat, kind: Kind, gap: int, b: int, width: nat)
    requires n <= |rows| && width > 0 && gap <= width && CountIn(rows, n, b, b + width) == 0
    ensures MixSum(rows, n, SecondsIn(kind, gap, b, b + width)) == 0
  {
    if n > 0 {
      EmptyBucketIsIdle(rows, n - 1, kind, gap, b, width);
      if LastOf(rows, n - 1, rows[n - 1].machine).Some? {
        var i := LastOfIsEarlier(rows, n - 1, rows[n - 1].machine);
        NotCounted(rows, n - 1, i, b, b + width);
      }
    }
  }

  lemma {:induction false} NotCounted(rows: seq<Sample>, n: nat, i: nat, lo: int, hi: int)
    requires i < n <= |rows| && CountIn(rows, n, lo, hi) == 0
    ensures !(lo <= rows[i].ts < hi)
  {
    if i < n - 1 { NotCounted(rows, n - 1, i, lo, hi); }
  }

  lemma {:induction false} EmittedIsBucketTotal(rows: seq<Sample>, kind: Kind, gap: int, b: int, last: int, width: nat)
    requires width > 0 && gap <= width
    ensures EmittedTotal(PointsFrom(rows, b, last, width, gap), kind)
            == BucketTotal(rows, |rows|, kind, gap, b, last, width)
    decreases last - b
  {
    if b <= last {
      EmittedIsBucketTotal(rows, kind, gap, b + width, last, width);
      if CountIn(rows, |rows|, b, b + width) == 0 { EmptyBucketIsIdle(rows, |rows|, kind, gap, b, width); }
      EmittedFront(BucketPoint(rows, b, width, gap), PointsFrom(rows, b + width, last, width, gap),
                   PointsFrom(rows, b, last, width, gap), kind);
    }
  }

  lemma EmittedFront(front: seq<Point>, tail: seq<Point>, all: seq<Point>, kind: Kind)
    requires |front| <= 1 && Same(all, front + tail)
    ensures EmittedTotal(all, kind) == EmittedTotal(tail, kind) + if front == [] then 0 else SecOf(kind, front[0])
  {
    if front == [] { assert all == tail; } else { assert all[1..] == tail; }
  }

  /** Whether the emitted points always add up to the per-machine totals. */
  ghost predicate EmissionConserves(width: nat, gap: int)
    requires width > 0
  {
    forall rows: seq<Sample>, ms: seq<string>, kind: Kind :: Sorted(rows) && Covers(ms, rows, |rows|) ==>
      EmittedTotal(ApiPoints(rows, width, gap), kind) == FleetSum(rows, ms, Seconds(kind, gap))
  }

  /** Two samples around a bucket without any: its seconds are counted but never emitted. */
  function LostRows(width: nat): seq<Sample>
    requires width > 0
  {
    [Sample(width - 1, "M", "ACTIVE", "AUTOMATIC", "", -1, 1), Sample(2 * width, "M", "ACTIVE", "AUTOMATIC", "", -1, 1)]
  }

  lemma EmissionLoses(width: nat, gap: int)
    requires 0 < width < gap
    ensures Sorted(LostRows(width)) && Covers(["M"], LostRows(width), 2)
    ensures EmittedTotal(ApiPoints(LostRows(width), width, gap), Power) == 1
    ensures FleetSum(LostRows(width), ["M"], Seconds(Power, gap)) == width + 1
  {
    var rows := LostRows(width);
    DivUnique(0, width, 0);
    NextAligned(0, width);
    NextAligned(width, width);
    OwnBucket(width - 1, 0, width);
    OwnBucket(2 * width, 2 * width, width);
    LostPoints(width, gap);
    MixedPassIsFleet(rows, ["M"], Seconds(Power, gap));
    LostSeconds(width, gap);
  }

  lemma LostSeconds(width: nat, gap: int)
    requires 0 < width < gap
    ensures MixSum(LostRows(width), 2, Seconds(Power, gap)) == width + 1
  {
    var rows := LostRows(width);
    assert LastOf(rows, 1, "M") == Some(rows[0]);
    assert MixSum(rows, 1, Seconds(Power, gap)) == 0;
    assert Elapsed(Power, gap, rows[0], rows[1]) == width + 1;
  }

  lemma LostMix(width: nat, gap: int, lo: int, hi: int)
    requires 0 < width < gap
    ensures MixSum(LostRows(width), 2, SecondsIn(Power, gap, lo, hi)) == Overlap(width - 1, 2 * width, lo, hi)
    ensures CountIn(LostRows(width), 2, lo, hi) ==
            (if lo <= width - 1 < hi then 1 else 0) + (if lo <= 2 * width < hi then 1 else 0)
  {
    var rows := LostRows(width);
    assert LastOf(rows, 1, "M") == Some(rows[0]);
    assert MixSum(rows, 1, SecondsIn(Power, gap, lo, hi)) == 0;
    assert CountIn(rows, 1, lo, hi) == CountIn(rows, 0, lo, hi) + if lo <= width - 1 < hi then 1 else 0;
  }

  lemma LostPoints(width: nat, gap: int)
    requires 0 < width < gap
    requires FirstBucket(LostRows(width), width) == 0 && LastBucket(LostRows(width), width) == 2 * width
    ensures EmittedTotal(ApiPoints(LostRows(width), width, gap), Power) == 1
  {
    var rows := LostRows(width);
    LostMix(width, gap, 0, width);
    LostMix(width, gap, width, 2 * width);
    LostMix(width, gap, 2 * width, 3 * width);
    var p0, p2 := PointAt(rows, 0, width, gap), PointAt(rows, 2 * width, width, gap);
    assert PointsFrom(rows, 3 * width, 2 * width, width, gap) == [];
    assert PointsFrom(rows, 2 * width, 2 * width, width, gap) == [p2];
    assert PointsFrom(rows, width, 2 * width, width, gap) == [p2];
    assert PointsFrom(rows, 0, 2 * width, width, gap) == [p0, p2];
    assert [p0, p2][1..] == [p2] && [p2][1..] == [];
    assert EmittedTotal([p2], Power) == 0;
  }

  /** The emitted points conserve the seconds of every sample list exactly when buckets are no narrower than the gap. */
  lemma EmissionConservesIff(width: nat, gap: int)
    requires width > 0
    ensures EmissionConserves(width, gap) <==> gap <= width
  {
    if gap <= width {
      forall rows: seq<Sample>, ms: seq<string>, kind: Kind | Sorted(rows) && Covers(ms, rows, |rows|)
        ensures EmittedTotal(ApiPoints(rows, width, gap), kind) == FleetSum(rows, ms, Seconds(kind, gap))
      {
        EmittedIsBucketTotal(rows, kind, gap, FirstBucket(rows, width), LastBucket(rows, width), width);
        BucketsConserveSeconds(rows, ms, kind, gap, width);
      }
    } else {
      EmissionLoses(width, gap);
    }
  }

  /** In one machine's buckets machining stays within power and power within the bucket. */
  lemma {:induction false} BucketBound(rows: seq<Sample>, n: nat, m: string, gap: int, lo: int, hi: int)
    requires n <= |rows| && Sorted(rows) && lo <= hi
    requires forall i :: 0 <= i < |rows| ==> rows[i].machine == m
    ensures 0 <= MixSum(rows, n, SecondsIn(Machining, gap, lo, hi)) <= MixSum(rows, n, SecondsIn(Power, gap, lo, hi))
    ensures MixSum(rows, n, SecondsIn(Power, gap, lo, hi)) <=
            if n == 0 then 0 else Overlap(rows[0].ts, rows[n - 1].ts, lo, hi)
  {
    if n > 0 {
      BucketBound(rows, n - 1, m, gap, lo, hi);
      if n > 1 { assert LastOf(rows, n - 1, m) == Some(rows[n - 2]); }
    }
  }
}
