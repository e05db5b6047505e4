/** The command-line report: the same rows ordered by machine, compared with the web figures. */
module Report {
  import opened Text
  import opened Samples
  import opened WebStats

  // ---- the same samples in another order -----------------------------------

  predicate StrictlySorted(xs: seq<Sample>) { forall i, j :: 0 <= i < j < |xs| ==> xs[i].ts < xs[j].ts }

  /** Rows as the report reads them: machine by machine, each by time. */
  predicate ByMachine(rows: seq<Sample>) {
    forall i, j :: 0 <= i < j < |rows| && rows[i].machine == rows[j].machine ==> rows[i].ts < rows[j].ts
  }

  lemma {:induction false} OnlyElements(rows: seq<Sample>, n: nat, m: string)
    requires n <= |rows|
    ensures forall x :: x in Only(rows, n, m) <==> x in rows[..n] && x.machine == m
  {
    if n > 0 {
      OnlyElements(rows, n - 1, m);
      assert rows[..n] == rows[..n - 1] + [rows[n - 1]];
    }
  }

  lemma {:induction false} OnlyStrict(rows: seq<Sample>, n: nat, m: string)
    requires n <= |rows| && ByMachine(rows)
    ensures StrictlySorted(Only(rows, n, m))
  {
    if n > 0 {
      OnlyStrict(rows, n - 1, m);
      var xs := Only(rows, n - 1, m);
      OnlyElements(rows, n - 1, m);
      if rows[n - 1].machine == m {
        forall i | 0 <= i < |xs| ensures xs[i].ts < rows[n - 1].ts {
          assert xs[i] in rows[..n - 1];
        }
      }
    }
  }

  /** Two time-ordered lists with the same samples are the same list. */
  lemma {:induction false} SameSet(a: seq<Sample>, b: seq<Sample>)
    requires StrictlySorted(a) && StrictlySorted(b)
    requires forall x :: x in a <==> x in b
    ensures a == b
  {
    if a == [] {
      SomeElement(b);
    } else {
      assert a[|a| - 1] in b;
      LastIsGreatest(a, b);
      LastIsGreatest(b, a);
      var x := a[|a| - 1];
      assert x == b[|b| - 1];
      var a0, b0 := a[..|a| - 1], b[..|b| - 1];
      forall y | y in a0 ensures y in b0 { InitElement(a, y); InitElement(b, y); }
      forall y | y in b0 ensures y in a0 { InitElement(a, y); InitElement(b, y); }
      SameSet(a0, b0);
      assert a == a[..|a| - 1] + [x] && b == b[..|b| - 1] + [x];
    }
  }

  lemma SomeElement(b: seq<Sample>)
    ensures b == [] || b[0] in b
  {
  }

  lemma LastIsGreatest(a: seq<Sample>, b: seq<Sample>)
    requires StrictlySorted(a) && StrictlySorted(b) && a != [] && b != []
    requires forall x :: x in a <==> x in b
    ensures a[|a| - 1].ts <= b[|b| - 1].ts
    ensures a[|a| - 1].ts == b[|b| - 1].ts ==> a[|a| - 1] == b[|b| - 1]
  {
    assert a[|a| - 1] in b;
    var k :| 0 <= k < |b| && b[k] == a[|a| - 1];
  }

  lemma InitElement(a: seq<Sample>, y: Sample)
    requires StrictlySorted(a) && a != []
    ensures y in a[..|a| - 1] <==> y in a && y != a[|a| - 1]
  {
    var init := a[..|a| - 1];
    assert a == init + [a[|a| - 1]];
  }

  lemma SortedIsByMachine(rows: seq<Sample>)
    requires Sorted(rows)
    ensures ByMachine(rows)
  {
  }

  /** Both programs see the same list of samples for every machine. */
  lemma SameMachineRows(web: seq<Sample>, cli: seq<Sample>, m: string)
    requires Sorted(web) && ByMachine(cli) && multiset(web) == multiset(cli)
    ensures Only(web, |web|, m) == Only(cli, |cli|, m)
  {
    SortedIsByMachine(web);
    OnlyStrict(web, |web|, m);
    OnlyStrict(cli, |cli|, m);
    OnlyElements(web, |web|, m);
    OnlyElements(cli, |cli|, m);
    assert web[..|web|] == web && cli[..|cli|] == cli;
    forall x ensures x in web <==> x in cli {
      assert x in web <==> x in multiset(web);
      assert x in cli <==> x in multiset(cli);
    }
    SameSet(Only(web, |web|, m), Only(cli, |cli|, m));
  }

  // ---- section 1: running time ---------------------------------------------

  lemma {:induction false} OnlyMachine(rows: seq<Sample>, n: nat, m: string)
    requires n <= |rows|
    ensures forall i :: 0 <= i < |Only(rows, n, m)| ==> Only(rows, n, m)[i].machine == m
  {
    if n > 0 { OnlyMachine(rows, n - 1, m); }
  }

  lemma {:induction false} MachCountPrefix(xs: seq<Sample>, s: Sample, n: nat, lo: int, hi: int)
    requires n <= |xs|
    ensures MachCountIn(xs + [s], n, lo, hi) == MachCountIn(xs, n, lo, hi)
  {
    if n > 0 { MachCountPrefix(xs, s, n - 1, lo, hi); }
  }

  datatype BucketTables = BucketTables(secs: map<int, int>, power: map<int, int>, counts: map<int, int>)

  /** The tables hold what a machine's samples put into each bucket, and nothing else. */
  ghost predicate BucketsOf(t: BucketTables, xs: seq<Sample>, width: nat, gap: int)
    requires width > 0
  {
    && Tight(t.secs, width) && Tight(t.power, width)
    && forall b: int :: Aligned(b, width) ==>
      && Get(t.secs, b) == AdjSum(xs, SecondsIn(Machining, gap, b, b + width))
      && Get(t.power, b) == AdjSum(xs, SecondsIn(Power, gap, b, b + width))
      && Get(t.counts, b) == MachCountIn(xs, |xs|, b, b + width)
  }

  /** One more sample of the machine. */
  method AddSample(t: BucketTables, prev: Option<Sample>, r: Sample, width: nat, gap: int, ghost xs: seq<Sample>)
    returns (u: BucketTables)
    requires width > 0 && BucketsOf(t, xs, width, gap) && IsLast(prev, xs)
    ensures BucketsOf(u, xs + [r], width, gap)
  {
    var counts := t.counts;
    var b := BucketStart(r.ts, width);
    if IsMachining(r) { counts := counts[b := Get(counts, b) + 1]; }
    var secs := AddSeconds(t.secs, Machining, prev, r, width, gap);
    var power := AddSeconds(t.power, Power, prev, r, width, gap);
    u := BucketTables(secs, power, counts);
    forall c: int | Aligned(c, width)
      ensures Get(u.secs, c) == AdjSum(xs + [r], SecondsIn(Machining, gap, c, c + width))
      ensures Get(u.power, c) == AdjSum(xs + [r], SecondsIn(Power, gap, c, c + width))
      ensures Get(u.counts, c) == MachCountIn(xs + [r], |xs| + 1, c, c + width)
    {
      AdjSnoc(xs, r, SecondsIn(Machining, gap, c, c + width));
      AdjSnoc(xs, r, SecondsIn(Power, gap, c, c + width));
      MachCountPrefix(xs, r, |xs|, c, c + width);
      OwnBucket(r.ts, c, width);
    }
  }

  /** The bucket tables of one machine: rows of other machines are passed over. */
  method MachineBuckets(rows: seq<Sample>, m: string, width: nat, gap: int) returns (t: BucketTables)
    requires width > 0
    ensures BucketsOf(t, Only(rows, |rows|, m), width, gap)
  {
    t := BucketTables(map[], map[], map[]);
    var prev: Option<Sample> := None;
    for i := 0 to |rows|
      invariant IsLast(prev, Only(rows, i, m))
      invariant BucketsOf(t, Only(rows, i, m), width, gap)
    {
      var r := rows[i];
      if r.machine != m { continue; }
      t := AddSample(t, prev, r, width, gap, Only(rows, i, m));
      prev := Some(r);
    }
  }

  // ---- section 1 in total --------------------------------------------------

  function ReportTotal(xs: seq<Sample>, kind: Kind, gap: int, b: int, last: int, width: nat): int
    requires width > 0
    decreases last - b
  {
    if b > last then 0
    else AdjSum(xs, SecondsIn(kind, gap, b, b + width)) + ReportTotal(xs, kind, gap, b + width, last, width)
  }

  lemma {:induction false} OneMachineMix(xs: seq<Sample>, m: string, w: Measure)
    requires forall i :: 0 <= i < |xs| ==> xs[i].machine == m
    ensures MixSum(xs, |xs|, w) == AdjSum(xs, w)
  {
    MixIsPassSum(xs, |xs|, [m], w);
    assert [m][..0] == [];
    assert PassSum(xs, |xs|, [], w) == 0;
    PassIsAdjSum(xs, |xs|, m, w);
    OnlyAll(xs, |xs|, m);
    assert xs[..|xs|] == xs;
  }

  lemma {:induction false} OnlyAll(xs: seq<Sample>, n: nat, m: string)
    requires n <= |xs| && forall i :: 0 <= i < |xs| ==> xs[i].machine == m
    ensures Only(xs, n, m) == xs[..n]
  {
    if n > 0 {
      OnlyAll(xs, n - 1, m);
      assert xs[..n] == xs[..n - 1] + [xs[n - 1]];
    }
  }

  lemma {:induction false} ReportTotalIsBucketTotal(xs: seq<Sample>, m: string, kind: Kind, gap: int, b: int,
                                                    last: int, width: nat)
    requires width > 0 && forall i :: 0 <= i < |xs| ==> xs[i].machine == m
    ensures ReportTotal(xs, kind, gap, b, last, width) == BucketTotal(xs, |xs|, kind, gap, b, last, width)
    decreases last - b
  {
    if b <= last {
      ReportTotalIsBucketTotal(xs, m, kind, gap, b + width, last, width);
      OneMachineMix(xs, m, SecondsIn(kind, gap, b, b + width));
    }
  }

  /** The bucket seconds the report books for a machine add up to the web server's figure for it. */
  lemma ReportSecondsAgree(web: seq<Sample>, cli: seq<Sample>, m: string, kind: Kind, gap: int, width: nat)
    requires width > 0 && Sorted(web) && ByMachine(cli) && multiset(web) == multiset(cli)
    ensures var xs := Only(cli, |cli|, m);
      ReportTotal(xs, kind, gap, FirstBucket(xs, width), LastBucket(xs, width), width)
      == MachineSum(web, m, Seconds(kind, gap))
  {
    var xs := Only(cli, |cli|, m);
    SameMachineRows(web, cli, m);
    OnlyStrict(cli, |cli|, m);
    OnlyMachine(cli, |cli|, m);
    ReportTotalIsBucketTotal(xs, m, kind, gap, FirstBucket(xs, width), LastBucket(xs, width), width);
    BucketsConserveSeconds(xs, [m], kind, gap, width);
    MixedPassIsFleet(xs, [m], Seconds(kind, gap));
    OneMachineMix(xs, m, Seconds(kind, gap));
  }

  // ---- section 1 as printed -------------------------------------------------

  datatype Line = Line(start: int, machSec: int, powerSec: int, machCount: int)

  function SecsAt(xs: seq<Sample>, kind: Kind, b: int, width: nat, gap: int): int {
    AdjSum(xs, SecondsIn(kind, gap, b, b + width))
  }

  /** The line of one bucket; a bucket without machining has none, whatever its power seconds. */
  function BucketLine(xs: seq<Sample>, b: int, width: nat, gap: int): seq<Line> {
    if SecsAt(xs, Machining, b, width, gap) > 0
    then [Line(b, SecsAt(xs, Machining, b, width, gap), SecsAt(xs, Power, b, width, gap),
               MachCountIn(xs, |xs|, b, b + width))]
    else []
  }

  function Lines(xs: seq<Sample>, b: int, last: int, width: nat, gap: int): seq<Line>
    requires width > 0
    decreases last - b
  {
    if b > last then [] else BucketLine(xs, b, width, gap) + Lines(xs, b + width, last, width, gap)
  }

  /** Everything section 1 prints about a machine. */
  function PrintedLines(xs: seq<Sample>, width: nat, gap: int): seq<Line>
    requires width > 0
  {
    Lines(xs, FirstBucket(xs, width), LastBucket(xs, width), width, gap)
  }

  /** Seconds of a pair lie between its two samples. */
  lemma {:induction false} SecsOutside(xs: seq<Sample>, kind: Kind, gap: int, lo: int, hi: int)
    requires StrictlySorted(xs)
    ensures AdjSum(xs, SecondsIn(kind, gap, lo, hi)) >= 0
    ensures xs != [] && (hi <= xs[0].ts || xs[|xs| - 1].ts <= lo) ==> AdjSum(xs, SecondsIn(kind, gap, lo, hi)) == 0
  {
    if |xs| >= 2 { SecsOutside(xs[..|xs| - 1], kind, gap, lo, hi); }
  }

  /** Every entry of the table of machining seconds is a bucket between the first and the last. */
  lemma EntriesWithin(t: BucketTables, xs: seq<Sample>, width: nat, gap: int)
    requires width > 0 && StrictlySorted(xs) && BucketsOf(t, xs, width, gap)
    ensures forall b :: b in t.secs ==> FirstBucket(xs, width) <= b <= LastBucket(xs, width)
  {
    forall b | b in t.secs ensures FirstBucket(xs, width) <= b <= LastBucket(xs, width) {
      var first, last := FirstBucket(xs, width), LastBucket(xs, width);
      assert Aligned(b, width) && t.secs[b] > 0;
      assert Get(t.secs, b) == AdjSum(xs, SecondsIn(Machining, gap, b, b + width));
      SecsOutside(xs, Machining, gap, b, b + width);
      if b < first { AlignedGap(b, first, width); }
      if last < b { AlignedGap(last, b, width); }
    }
  }

  /** Buckets without machining print nothing. */
  lemma {:induction false} IdleLines(xs: seq<Sample>, b: int, c: int, last: int, width: nat, gap: int)
    requires width > 0 && Aligned(b, width) && Aligned(c, width) && b <= c <= last
    requires forall k :: b <= k < c && Aligned(k, width) ==> SecsAt(xs, Machining, k, width, gap) <= 0
    ensures Lines(xs, b, last, width, gap) == Lines(xs, c, last, width, gap)
    decreases c - b
  {
    if b < c {
      AlignedGap(b, c, width);
      NextAligned(b, width);
      IdleLines(xs, b + width, c, last, width, gap);
      assert BucketLine(xs, b, width, gap) == [];
    }
  }

  lemma {:induction false} NoLines(xs: seq<Sample>, b: int, last: int, width: nat, gap: int)
    requires width > 0 && Aligned(b, width)
    requires forall k :: b <= k <= last && Aligned(k, width) ==> SecsAt(xs, Machining, k, width, gap) <= 0
    ensures Lines(xs, b, last, width, gap) == []
    decreases last - b
  {
    if b <= last {
      NextAligned(b, width);
      NoLines(xs, b + width, last, width, gap);
    }
  }

  method Pick<T>(s: set<T>) returns (x: T)
    requires s != {}
    ensures x in s
  {
    x :| x in s;
  }

  method Least(keys: set<int>) returns (k: int)
    requires keys != {}
    ensures k in keys && forall j :: j in keys ==> k <= j
  {
    k := Pick(keys);
    var todo := keys - {k};
    while todo != {}
      invariant k in keys && todo <= keys && forall j :: j in keys ==> j in todo || k <= j
      decreases |todo|
    {
      var j := Pick(todo);
      if j < k { k := j; }
      todo := todo - {j};
    }
  }

  /** The printing loop: over the entries of the machining table, in ascending order. */
  method PrintBuckets(t: BucketTables, ghost xs: seq<Sample>, width: nat, ghost gap: int) returns (lines: seq<Line>)
    requires width > 0 && StrictlySorted(xs) && BucketsOf(t, xs, width, gap)
    ensures lines == PrintedLines(xs, width, gap)
  {
    EntriesWithin(t, xs, width, gap);
    EdgesAligned(xs, width);
    lines := [];
    ghost var b := FirstBucket(xs, width);
    ghost var last := LastBucket(xs, width);
    assert lines + Lines(xs, b, last, width, gap) == Lines(xs, b, last, width, gap);
    var keys := t.secs.Keys;
    while keys != {}
      invariant Aligned(b, width) && Ahead(keys, t, b)
      invariant Same(PrintedLines(xs, width, gap), lines + Lines(xs, b, last, width, gap))
      decreases |keys|
    {
      var k := Least(keys);
      var line := [Line(k, t.secs[k], Get(t.power, k), Get(t.counts, k))];
      NextPrinted(t, xs, b, k, width, gap, lines, line);
      if !(t.secs[k] <= 0 && Get(t.power, k) <= 0) { lines := lines + line; }
      StillAhead(keys, t, b, k, width);
      keys := keys - {k};
      b := k + width;
    }
    NothingAhead(t, xs, b, width, gap);
    assert lines + [] == lines;
  }

  lemma NextPrinted(t: BucketTables, xs: seq<Sample>, b: int, k: int, width: nat, gap: int, lines: seq<Line>,
                    line: seq<Line>)
    requires width > 0 && BucketsOf(t, xs, width, gap) && Aligned(b, width)
    requires k in t.secs && b <= k <= LastBucket(xs, width) && forall c :: c in t.secs && c >= b ==> k <= c
    requires Same(line, [Line(k, t.secs[k], Get(t.power, k), Get(t.counts, k))])
    ensures t.secs[k] > 0
    ensures Same(lines + Lines(xs, b, LastBucket(xs, width), width, gap),
                 lines + line + Lines(xs, k + width, LastBucket(xs, width), width, gap))
  {
    NextLine(t, xs, b, k, width, gap);
    Associate(lines, line, Lines(xs, k + width, LastBucket(xs, width), width, gap));
  }

  /** The entries still to print are those from bucket `b` on. */
  ghost predicate Ahead(keys: set<int>, t: BucketTables, b: int) { forall k :: k in keys <==> k in t.secs && k >= b }

  lemma StillAhead(keys: set<int>, t: BucketTables, b: int, k: int, width: nat)
    requires width > 0 && Tight(t.secs, width) && Ahead(keys, t, b)
    requires k in keys && forall j :: j in keys ==> k <= j
    ensures Ahead(keys - {k}, t, k + width) && Aligned(k + width, width)
  {
    NextAligned(k, width);
    forall c | c in t.secs && c > k ensures c >= k + width { AlignedGap(k, c, width); }
  }

  lemma NothingAhead(t: BucketTables, xs: seq<Sample>, b: int, width: nat, gap: int)
    requires width > 0 && BucketsOf(t, xs, width, gap) && Aligned(b, width) && Ahead({}, t, b)
    ensures Lines(xs, b, LastBucket(xs, width), width, gap) == []
  {
    forall c | b <= c <= LastBucket(xs, width) && Aligned(c, width)
      ensures SecsAt(xs, Machining, c, width, gap) <= 0
    {
      assert c !in t.secs && Get(t.secs, c) == 0;
    }
    NoLines(xs, b, LastBucket(xs, width), width, gap);
  }

  lemma EdgesAligned(xs: seq<Sample>, width: nat)
    requires width > 0
    ensures Aligned(FirstBucket(xs, width), width) && Aligned(LastBucket(xs, width), width)
  {
    DivUnique(0, width, 0);
  }

  /** Up to the least remaining entry nothing is printed, and that entry's line comes next. */
  lemma NextLine(t: BucketTables, xs: seq<Sample>, b: int, k: int, width: nat, gap: int)
    requires width > 0 && BucketsOf(t, xs, width, gap) && Aligned(b, width)
    requires k in t.secs && b <= k <= LastBucket(xs, width)
    requires forall c :: c in t.secs && c >= b ==> k <= c
    ensures Aligned(k, width) && t.secs[k] > 0
    ensures Lines(xs, b, LastBucket(xs, width), width, gap)
         == [Line(k, t.secs[k], Get(t.power, k), Get(t.counts, k))]
            + Lines(xs, k + width, LastBucket(xs, width), width, gap)
  {
    forall c | b <= c < k && Aligned(c, width) ensures SecsAt(xs, Machining, c, width, gap) <= 0 {
      assert c !in t.secs && Get(t.secs, c) == 0;
    }
    IdleLines(xs, b, k, LastBucket(xs, width), width, gap);
    assert Get(t.secs, k) == SecsAt(xs, Machining, k, width, gap);
    assert Get(t.power, k) == SecsAt(xs, Power, k, width, gap);
    assert Get(t.counts, k) == MachCountIn(xs, |xs|, k, k + width);
  }

  /** Section 1 for one machine, from the rows to the lines. */
  method ReportMachine(rows: seq<Sample>, m: string, width: nat, gap: int) returns (lines: seq<Line>)
    requires width > 0 && ByMachine(rows)
    ensures lines == PrintedLines(Only(rows, |rows|, m), width, gap)
  {
    var t := MachineBuckets(rows, m, width, gap);
    OnlyStrict(rows, |rows|, m);
    lines := PrintBuckets(t, Only(rows, |rows|, m), width, gap);
  }

  function LineSec(kind: Kind, l: Line): int { if kind == Machining then l.machSec else l.powerSec }

  function PrintedTotal(lines: seq<Line>, kind: Kind): int {
    if lines == [] then 0 else LineSec(kind, lines[0]) + PrintedTotal(lines[1..], kind)
  }

  /** Power seconds of the buckets without machining. */
  function IdlePower(xs: seq<Sample>, b: int, last: int, width: nat, gap: int): int
    requires width > 0
    decreases last - b
  {
    if b > last then 0
    else (if SecsAt(xs, Machining, b, width, gap) > 0 then 0 else SecsAt(xs, Power, b, width, gap))
         + IdlePower(xs, b + width, last, width, gap)
  }

  lemma PrintedIsTotal(xs: seq<Sample>, b: int, last: int, width: nat, gap: int)
    requires width > 0 && StrictlySorted(xs)
    ensures PrintedTotal(Lines(xs, b, last, width, gap), Machining) == ReportTotal(xs, Machining, gap, b, last, width)
    ensures PrintedTotal(Lines(xs, b, last, width, gap), Power)
         == ReportTotal(xs, Power, gap, b, last, width) - IdlePower(xs, b, last, width, gap)
  {
    PrintedMachining(xs, b, last, width, gap);
    PrintedPower(xs, b, last, width, gap);
  }

  /** What the line of a bucket adds to the printed totals, and the bucket to the others. */
  lemma LineAdds(xs: seq<Sample>, b: int, width: nat, gap: int)
    requires width > 0 && StrictlySorted(xs)
    ensures var line := BucketLine(xs, b, width, gap);
      && |line| <= 1
      && (if line == [] then 0 else LineSec(Machining, line[0])) == AdjSum(xs, SecondsIn(Machining, gap, b, b + width))
      && (if line == [] then 0 else LineSec(Power, line[0]))
           == AdjSum(xs, SecondsIn(Power, gap, b, b + width))
              - if SecsAt(xs, Machining, b, width, gap) > 0 then 0 else SecsAt(xs, Power, b, width, gap)
  {
    SecsOutside(xs, Machining, gap, b, b + width);
  }

  lemma {:induction false} PrintedMachining(xs: seq<Sample>, b: int, last: int, width: nat, gap: int)
    requires width > 0 && StrictlySorted(xs)
    ensures PrintedTotal(Lines(xs, b, last, width, gap), Machining) == ReportTotal(xs, Machining, gap, b, last, width)
    decreases last - b
  {
    if b <= last {
      PrintedMachining(xs, b + width, last, width, gap);
      LineAdds(xs, b, width, gap);
      PrintedFront(BucketLine(xs, b, width, gap), Lines(xs, b + width, last, width, gap),
                   Lines(xs, b, last, width, gap), Machining);
    }
  }

  lemma {:induction false} PrintedPower(xs: seq<Sample>, b: int, last: int, width: nat, gap: int)
    requires width > 0 && StrictlySorted(xs)
    ensures PrintedTotal(Lines(xs, b, last, width, gap), Power)
         == ReportTotal(xs, Power, gap, b, last, width) - IdlePower(xs, b, last, width, gap)
    decreases last - b
  {
    if b <= last {
      PrintedPower(xs, b + width, last, width, gap);
      LineAdds(xs, b, width, gap);
      PrintedFront(BucketLine(xs, b, width, gap), Lines(xs, b + width, last, width, gap),
                   Lines(xs, b, last, width, gap), Power);
    }
  }

  lemma PrintedFront(line: seq<Line>, tail: seq<Line>, all: seq<Line>, kind: Kind)
    requires |line| <= 1 && Same(all, line + tail)
    ensures PrintedTotal(all, kind) == PrintedTotal(tail, kind) + if line == [] then 0 else LineSec(kind, line[0])
  {
    if line == [] { assert all == tail; } else { assert all[1..] == tail; }
  }

  /** Whether some bucket of the machine has power but no machining. */
  ghost predicate SomeIdleBucket(xs: seq<Sample>, b: int, last: int, width: nat, gap: int)
    requires width > 0
  {
    exists k :: IdleAt(xs, k, b, last, width, gap)
  }

  predicate IdleAt(xs: seq<Sample>, k: int, b: int, last: int, width: nat, gap: int)
    requires width > 0
  {
    b <= k <= last && Aligned(k, width) && SecsAt(xs, Machining, k, width, gap) == 0 < SecsAt(xs, Power, k, width, gap)
  }

  lemma {:induction false} IdlePowerIff(xs: seq<Sample>, b: int, last: int, width: nat, gap: int)
    requires width > 0 && StrictlySorted(xs) && Aligned(b, width)
    ensures IdlePower(xs, b, last, width, gap) >= 0
    ensures IdlePower(xs, b, last, width, gap) > 0 <==> SomeIdleBucket(xs, b, last, width, gap)
    decreases last - b
  {
    if b <= last {
      NextAligned(b, width);
      IdlePowerIff(xs, b + width, last, width, gap);
      SecsOutside(xs, Machining, gap, b, b + width);
      SecsOutside(xs, Power, gap, b, b + width);
      if SomeIdleBucket(xs, b + width, last, width, gap) {
        var k :| IdleAt(xs, k, b + width, last, width, gap);
        assert IdleAt(xs, k, b, last, width, gap);
      }
      if SomeIdleBucket(xs, b, last, width, gap) {
        var k :| IdleAt(xs, k, b, last, width, gap);
        if k != b {
          AlignedGap(b, k, width);
          assert IdleAt(xs, k, b + width, last, width, gap);
        }
      }
      if SecsAt(xs, Machining, b, width, gap) == 0 < SecsAt(xs, Power, b, width, gap) {
        assert IdleAt(xs, b, b, last, width, gap);
      }
    }
  }

  /**
   The printed machining seconds of a machine are the web server's; the printed power seconds fall
   short by those of the buckets without machining, so they agree exactly when there is no such bucket.
   */
  lemma PrintedVersusWeb(web: seq<Sample>, cli: seq<Sample>, m: string, gap: int, width: nat)
    requires width > 0 && Sorted(web) && ByMachine(cli) && multiset(web) == multiset(cli)
    ensures var xs := Only(cli, |cli|, m);
      var lines, b, last := PrintedLines(xs, width, gap), FirstBucket(xs, width), LastBucket(xs, width);
      && PrintedTotal(lines, Machining) == MachineSum(web, m, Seconds(Machining, gap))
      && PrintedTotal(lines, Power) == MachineSum(web, m, Seconds(Power, gap)) - IdlePower(xs, b, last, width, gap)
      && (PrintedTotal(lines, Power) == MachineSum(web, m, Seconds(Power, gap))
          <==> !SomeIdleBucket(xs, b, last, width, gap))
  {
    var xs := Only(cli, |cli|, m);
    var b, last := FirstBucket(xs, width), LastBucket(xs, width);
    OnlyStrict(cli, |cli|, m);
    EdgesAligned(xs, width);
    PrintedIsTotal(xs, b, last, width, gap);
    ReportSecondsAgree(web, cli, m, Machining, gap, width);
    ReportSecondsAgree(web, cli, m, Power, gap, width);
    IdlePowerIff(xs, b, last, width, gap);
  }

  /** A machine that is on but idle for a minute. */
  function IdleRows(): seq<Sample> {
    [Sample(0, "M", "READY", "AUTOMATIC", "", -1, 1), Sample(60, "M", "READY", "AUTOMATIC", "", -1, 1)]
  }

  lemma OnlyPair(p: Sample, s: Sample)
    requires p.machine == s.machine
    ensures Only([p, s], 2, p.machine) == [p, s]
  {
    assert Only([p, s], 0, p.machine) == [];
    assert Only([p, s], 1, p.machine) == [p];
  }

  /** Its minute prints no line at all, while the web server reports 60 seconds of power. */
  lemma IdleMinute()
    ensures Sorted(IdleRows()) && ByMachine(IdleRows())
    ensures PrintedLines(Only(IdleRows(), 2, "M"), 1800, 90) == []
    ensures MachineSum(IdleRows(), "M", Seconds(Power, 90)) == 60
  {
    var rows := IdleRows();
    OnlyPair(rows[0], rows[1]);
    TwoSum(rows[0], rows[1], Seconds(Power, 90));
    TwoSum(rows[0], rows[1], SecondsIn(Machining, 90, 0, 1800));
    DivUnique(0, 1800, 0);
    DivUnique(60, 1800, 0);
    NoLines(rows, 0, 0, 1800, 90);
  }

  lemma TwoSum(p: Sample, s: Sample, w: Measure)
    ensures AdjSum([p, s], w) == w(p, s)
  {
    assert [p, s][..1] == [p] && AdjSum([p], w) == 0;
  }

  // ---- sections 2 and 3: parts ---------------------------------------------

  /** The samples whose counter is known; the report skips the others altogether. */
  function Known(xs: seq<Sample>): seq<Sample> {
    if xs == [] then []
    else if xs[|xs| - 1].partTotal >= 0 then Known(xs[..|xs| - 1]) + [xs[|xs| - 1]]
    else Known(xs[..|xs| - 1])
  }

  function ReportProduced(rows: seq<Sample>, m: string): int { AdjSum(Known(Only(rows, |rows|, m)), Parts()) }

  function LastKnown(xs: seq<Sample>): Option<Sample> {
    var ks := Known(xs);
    if ks == [] then None else Some(ks[|ks| - 1])
  }

  lemma KnownSnoc(xs: seq<Sample>, s: Sample)
    ensures Known(xs + [s]) == if s.partTotal >= 0 then Known(xs) + [s] else Known(xs)
    ensures LastKnown(xs + [s]) == if s.partTotal >= 0 then Some(s) else LastKnown(xs)
  {
    assert (xs + [s])[..|xs|] == xs;
  }

  datatype Production = Production(first: int, last: int, produced: int)

  /** First and last known counter, and the rises between known ones. */
  predicate ProductionOf(p: Production, xs: seq<Sample>) {
    FirstCounter(xs, p.first) && LastCounter(xs, p.last) && p.produced == AdjSum(Known(xs), Parts())
  }

  /** Section 2 for one machine. */
  method ProducedOf(rows: seq<Sample>, m: string) returns (p: Production)
    ensures ProductionOf(p, Only(rows, |rows|, m)) && p.produced == ReportProduced(rows, m)
  {
    p := Production(-1, -1, 0);
    var prev: Option<Sample> := None;
    for i := 0 to |rows|
      invariant IsLast(prev, Known(Only(rows, i, m))) && ProductionOf(p, Only(rows, i, m))
    {
      var r := rows[i];
      ghost var xs := Only(rows, i, m);
      if r.machine != m { continue; }
      KnownSnoc(xs, r);
      CounterSnoc(xs, r, p.first, p.last);
      if r.partTotal < 0 { continue; }
      p := BookProduction(p, prev, r, xs);
      prev := Some(r);
    }
  }

  method BookProduction(p: Production, prev: Option<Sample>, r: Sample, ghost xs: seq<Sample>) returns (q: Production)
    requires ProductionOf(p, xs) && IsLast(prev, Known(xs)) && r.partTotal >= 0
    ensures ProductionOf(q, xs + [r])
  {
    KnownSnoc(xs, r);
    CounterSnoc(xs, r, p.first, p.last);
    KnownNonNegative(xs);
    AdjSnoc(Known(xs), r, Parts());
    var rise := RiseSince(prev, r);
    q := Production(if p.first < 0 then r.partTotal else p.first, r.partTotal, p.produced + rise);
  }

  /** What a sample with a known counter adds to the one before. */
  method RiseSince(prev: Option<Sample>, r: Sample) returns (rise: int)
    requires r.partTotal >= 0
    ensures rise == Gain(prev, r, Parts())
  {
    rise := 0;
    if prev.Some? && prev.value.partTotal >= 0 && r.partTotal > prev.value.partTotal {
      rise := r.partTotal - prev.value.partTotal;
    }
  }

  lemma {:induction false} KnownNonNegative(xs: seq<Sample>)
    ensures forall i :: 0 <= i < |Known(xs)| ==> Known(xs)[i].partTotal >= 0
  {
    if xs != [] { KnownNonNegative(xs[..|xs| - 1]); }
  }

  datatype Segment = Segment(comment: string, startTotal: int, endTotal: int, produced: int)

  function SegmentTotal(ps: seq<Segment>): int {
    if ps == [] then 0 else SegmentTotal(ps[..|ps| - 1]) + ps[|ps| - 1].produced
  }

  /** Where the last run of equal comments starts. */
  function RunStart(ks: seq<Sample>): (r: nat)
    requires ks != []
    ensures r < |ks| && forall i :: r <= i < |ks| ==> ks[i].comment == ks[|ks| - 1].comment
    ensures r > 0 ==> ks[r - 1].comment != ks[r].comment
  {
    var init := ks[..|ks| - 1];
    if init == [] || init[|init| - 1].comment != ks[|ks| - 1].comment then |ks| - 1 else RunStart(init)
  }

  /** One segment per run of equal comments, with the counters at its ends; a rise belongs to the later sample. */
  function SegmentsOf(ks: seq<Sample>): seq<Segment> {
    if ks == [] then []
    else
      var r := RunStart(ks);
      SegmentsOf(ks[..r]) + [LastSegment(ks, r)]
  }

  function LastSegment(ks: seq<Sample>, r: nat): Segment
    requires r < |ks|
  {
    Segment(ks[r].comment, ks[r].partTotal, ks[|ks| - 1].partTotal, AdjSum(ks, Parts()) - AdjSum(ks[..r], Parts()))
  }

  lemma SegmentSnoc(ps: seq<Segment>, p: Segment)
    ensures SegmentTotal(ps + [p]) == SegmentTotal(ps) + p.produced
  {
    assert (ps + [p])[..|ps|] == ps;
  }

  lemma {:induction false} AdjSumGrows(ks: seq<Sample>, n: nat)
    requires n <= |ks|
    ensures AdjSum(ks[..n], Parts()) <= AdjSum(ks, Parts())
    decreases |ks|
  {
    if n < |ks| {
      AdjSumGrows(ks[..|ks| - 1], n);
      assert ks[..|ks| - 1][..n] == ks[..n];
    } else {
      assert ks[..n] == ks;
    }
  }

  predicate Alternating(ps: seq<Segment>) {
    && (forall i :: 0 <= i < |ps| - 1 ==> ps[i].comment != ps[i + 1].comment)
    && (forall i :: 0 <= i < |ps| ==> ps[i].produced >= 0)
  }

  lemma AlternatingSnoc(ps: seq<Segment>, p: Segment)
    requires Alternating(ps) && p.produced >= 0 && (ps != [] ==> ps[|ps| - 1].comment != p.comment)
    ensures Alternating(ps + [p])
  {
  }

  /** The segments add up to the production figure; neighbours differ and nothing is negative. */
  lemma SegmentsAddUp(ks: seq<Sample>)
    ensures SegmentTotal(SegmentsOf(ks)) == AdjSum(ks, Parts()) && Alternating(SegmentsOf(ks))
    ensures (SegmentsOf(ks) == [] <==> ks == []) && EndsWith(SegmentsOf(ks), ks)
  {
    SegmentSum(ks);
    SegmentsAlternate(ks);
  }

  lemma {:induction false} SegmentSum(ks: seq<Sample>)
    ensures SegmentTotal(SegmentsOf(ks)) == AdjSum(ks, Parts())
    decreases |ks|
  {
    if ks != [] {
      var r := RunStart(ks);
      SegmentSum(ks[..r]);
      SegmentSnoc(SegmentsOf(ks[..r]), LastSegment(ks, r));
    }
  }

  lemma {:induction false} SegmentsAlternate(ks: seq<Sample>)
    ensures Alternating(SegmentsOf(ks)) && EndsWith(SegmentsOf(ks), ks)
    decreases |ks|
  {
    if ks != [] {
      var r := RunStart(ks);
      SegmentsAlternate(ks[..r]);
      AdjSumGrows(ks, r);
      AlternatingSnoc(SegmentsOf(ks[..r]), LastSegment(ks, r));
    }
  }

  predicate EndsWith(ps: seq<Segment>, ks: seq<Sample>) {
    ps != [] && ks != [] ==> ps[|ps| - 1].comment == ks[|ks| - 1].comment
  }

  /** A sample with another comment opens a segment. */
  lemma SegmentOpens(ks: seq<Sample>, prev: Option<Sample>, s: Sample)
    requires IsLast(prev, ks) && (prev.Some? ==> prev.value.comment != s.comment)
    ensures SegmentsOf(ks + [s])
         == SegmentsOf(ks) + [Segment(s.comment, s.partTotal, s.partTotal, Gain(prev, s, Parts()))]
  {
    var ys := ks + [s];
    AdjSnoc(ks, s, Parts());
    assert ys[..|ks|] == ks && ys[|ks|] == s;
    assert RunStart(ys) == |ks|;
  }

  function Longer(p: Segment, s: Sample, gain: int): Segment {
    p.(endTotal := s.partTotal, produced := p.produced + gain)
  }

  /** A sample with the same comment makes the last segment longer. */
  lemma SegmentGoesOn(ks: seq<Sample>, s: Sample) returns (init: seq<Segment>, p: Segment)
    requires ks != [] && ks[|ks| - 1].comment == s.comment
    ensures Same(SegmentsOf(ks), init + [p]) && p.comment == s.comment
    ensures exists i :: 0 <= i < |ks| && p.startTotal == ks[i].partTotal
    ensures Same(SegmentsOf(ks + [s]), init + [Longer(p, s, Rise(ks[|ks| - 1], s))])
  {
    var ys, r := ks + [s], RunStart(ks);
    init := SegmentsOf(ks[..r]);
    p := SegmentsOf(ks)[|init|];
    assert ks[r].partTotal == p.startTotal;
    AdjSnoc(ks, s, Parts());
    assert ys[..|ys| - 1] == ks;
    assert RunStart(ys) == r;
    assert ys[..r] == ks[..r];
  }

  /** Section 3 for one machine: one segment per run of equal comments among the samples with a known counter. */
  method ProductSegments(rows: seq<Sample>, m: string) returns (ps: seq<Segment>)
    ensures ps == SegmentsOf(Known(Only(rows, |rows|, m)))
    ensures SegmentTotal(ps) == ReportProduced(rows, m)
  {
    ps := [];
    var prev: Option<Sample> := None;
    for i := 0 to |rows|
      invariant IsLast(prev, Known(Only(rows, i, m)))
      invariant ps == SegmentsOf(Known(Only(rows, i, m)))
    {
      var r := rows[i];
      ghost var xs := Only(rows, i, m);
      if r.machine == m { KnownSnoc(xs, r); }
      if r.machine != m || r.partTotal < 0 { continue; }
      KnownNonNegative(xs);
      ps := BookSample(ps, prev, r, Known(xs));
      prev := Some(r);
    }
    SegmentsAddUp(Known(Only(rows, |rows|, m)));
  }

  /** What a sample does to the current segment. */
  method Extend(segment: Segment, prev: Option<Sample>, r: Sample) returns (cur: Segment)
    requires r.partTotal >= 0
    ensures cur == Segment(segment.comment, if segment.startTotal < 0 then r.partTotal else segment.startTotal,
                           r.partTotal, segment.produced + Gain(prev, r, Parts()))
  {
    cur := segment;
    if cur.startTotal < 0 { cur := cur.(startTotal := r.partTotal); }
    var rise := RiseSince(prev, r);
    cur := cur.(endTotal := r.partTotal, produced := cur.produced + rise);
  }

  method BookSample(ps: seq<Segment>, prev: Option<Sample>, r: Sample, ghost ks: seq<Sample>)
    returns (grown: seq<Segment>)
    requires ps == SegmentsOf(ks) && IsLast(prev, ks) && r.partTotal >= 0
    requires forall i :: 0 <= i < |ks| ==> ks[i].partTotal >= 0
    ensures grown == SegmentsOf(ks + [r])
  {
    if ps == [] || r.comment != prev.value.comment {
      SegmentsAddUp(ks);
      SegmentOpens(ks, prev, r);
      grown := ps + [Segment(r.comment, -1, -1, 0)];
    } else {
      ghost var init, p := SegmentGoesOn(ks, r);
      grown := ps;
    }
    var cur := Extend(grown[|grown| - 1], prev, r);
    grown := grown[|grown| - 1 := cur];
  }

  /** The segments that get a line: those with a comment and with parts. */
  function PrintedSegments(ps: seq<Segment>): seq<Segment> {
    if ps == [] then []
    else
      var p := ps[|ps| - 1];
      PrintedSegments(ps[..|ps| - 1]) + if p.comment != "" && p.produced > 0 then [p] else []
  }

  method PrintSegments(ps: seq<Segment>) returns (lines: seq<Segment>)
    ensures lines == PrintedSegments(ps)
  {
    lines := [];
    for i := 0 to |ps|
      invariant lines == PrintedSegments(ps[..i])
    {
      assert ps[..i + 1][..i] == ps[..i];
      if ps[i].comment != "" && ps[i].produced > 0 { lines := lines + [ps[i]]; }
    }
    assert ps[..|ps|] == ps;
  }

  /** What the segments without a comment made. */
  function UnnamedTotal(ps: seq<Segment>): int {
    if ps == [] then 0
    else UnnamedTotal(ps[..|ps| - 1]) + if ps[|ps| - 1].comment == "" then ps[|ps| - 1].produced else 0
  }

  /** The printed products add up to the production figure exactly when nothing was made without a comment. */
  lemma {:induction false} PrintedProducts(ps: seq<Segment>)
    requires forall i :: 0 <= i < |ps| ==> ps[i].produced >= 0
    ensures SegmentTotal(PrintedSegments(ps)) == SegmentTotal(ps) - UnnamedTotal(ps) && UnnamedTotal(ps) >= 0
    ensures SegmentTotal(PrintedSegments(ps)) == SegmentTotal(ps)
       <==> forall i :: 0 <= i < |ps| && ps[i].comment == "" ==> ps[i].produced == 0
  {
    if ps != [] {
      var init, p := ps[..|ps| - 1], ps[|ps| - 1];
      PrintedProducts(init);
      assert forall i :: 0 <= i < |init| ==> init[i] == ps[i];
      if p.comment != "" && p.produced > 0 {
        SegmentSnoc(PrintedSegments(init), p);
      } else {
        assert PrintedSegments(ps) == PrintedSegments(init);
      }
    }
  }

  /** Section 3 for one machine, from the rows to the lines. */
  method ReportProducts(rows: seq<Sample>, m: string) returns (lines: seq<Segment>)
    ensures lines == PrintedSegments(SegmentsOf(Known(Only(rows, |rows|, m))))
  {
    var ps := ProductSegments(rows, m);
    lines := PrintSegments(ps);
  }

  /** The lines of a machine fall short of its production by what was made without a comment, and by nothing else. */
  lemma ProductsVersusProduction(rows: seq<Sample>, m: string)
    ensures var ps := SegmentsOf(Known(Only(rows, |rows|, m)));
      && SegmentTotal(PrintedSegments(ps)) == ReportProduced(rows, m) - UnnamedTotal(ps) && UnnamedTotal(ps) >= 0
      && (SegmentTotal(PrintedSegments(ps)) == ReportProduced(rows, m)
          <==> forall i :: 0 <= i < |ps| && ps[i].comment == "" ==> ps[i].produced == 0)
  {
    SegmentsAddUp(Known(Only(rows, |rows|, m)));
    PrintedProducts(SegmentsOf(Known(Only(rows, |rows|, m))));
  }

  /** Rises between two known samples that have unknown ones between them; the web view drops these. */
  function HiddenRises(xs: seq<Sample>): nat {
    if |xs| < 2 then 0
    else
      var init, s := xs[..|xs| - 1], xs[|xs| - 1];
      HiddenRises(init) +
      if init[|init| - 1].partTotal < 0 && LastKnown(init).Some? then Rise(LastKnown(init).value, s) else 0
  }

  lemma {:induction false} ReportIsWebPlusHidden(xs: seq<Sample>)
    ensures AdjSum(Known(xs), Parts()) == AdjSum(xs, Parts()) + HiddenRises(xs)
  {
    if |xs| >= 2 {
      var init, s := xs[..|xs| - 1], xs[|xs| - 1];
      ReportIsWebPlusHidden(init);
      HiddenStep(init, s);
      assert xs == init + [s];
    } else if |xs| == 1 {
      assert xs[..0] == [];
      assert Known([]) == [];
    }
  }

  lemma HiddenStep(init: seq<Sample>, s: Sample)
    requires init != []
    ensures AdjSum(Known(init + [s]), Parts()) - AdjSum(Known(init), Parts())
            == AdjSum(init + [s], Parts()) - AdjSum(init, Parts())
               + if init[|init| - 1].partTotal < 0 && LastKnown(init).Some? then Rise(LastKnown(init).value, s) else 0
  {
    KnownSnoc(init, s);
    AdjSnoc(Known(init), s, Parts());
    AdjSnoc(init, s, Parts());
    assert Parts()(init[|init| - 1], s) == Rise(init[|init| - 1], s);
    if LastKnown(init).Some? {
      assert Parts()(LastKnown(init).value, s) == Rise(LastKnown(init).value, s);
    }
  }

  /** A rise from sample i to sample j, across unknown samples only. */
  predicate HiddenRise(xs: seq<Sample>, i: nat, j: nat)
    requires i < j < |xs|
  {
    && i + 1 < j && 0 <= xs[i].partTotal < xs[j].partTotal
    && forall k :: i < k < j ==> xs[k].partTotal < 0
  }

  ghost predicate SomeHiddenRise(xs: seq<Sample>) { exists i: nat, j: nat :: i < j < |xs| && HiddenRise(xs, i, j) }

  lemma {:induction false} LastKnownAt(xs: seq<Sample>) returns (i: nat)
    requires LastKnown(xs).Some?
    ensures i < |xs| && xs[i] == LastKnown(xs).value && xs[i].partTotal >= 0
    ensures forall k :: i < k < |xs| ==> xs[k].partTotal < 0
  {
    var init, s := xs[..|xs| - 1], xs[|xs| - 1];
    if s.partTotal >= 0 {
      i := |xs| - 1;
    } else {
      i := LastKnownAt(init);
    }
  }

  lemma {:induction false} KnownHasLast(xs: seq<Sample>, i: nat)
    requires i < |xs| && xs[i].partTotal >= 0 && forall k :: i < k < |xs| ==> xs[k].partTotal < 0
    ensures LastKnown(xs) == Some(xs[i])
  {
    if i < |xs| - 1 {
      KnownHasLast(xs[..|xs| - 1], i);
    }
  }

  lemma HiddenLonger(init: seq<Sample>, s: Sample)
    ensures SomeHiddenRise(init) ==> SomeHiddenRise(init + [s])
  {
    if SomeHiddenRise(init) {
      var i: nat, j: nat :| i < j < |init| && HiddenRise(init, i, j);
      assert HiddenRise(init + [s], i, j);
    }
  }

  lemma {:induction false} HiddenIff(xs: seq<Sample>)
    ensures HiddenRises(xs) > 0 <==> SomeHiddenRise(xs)
  {
    if |xs| >= 2 {
      var init, s := xs[..|xs| - 1], xs[|xs| - 1];
      HiddenIff(init);
      HiddenLonger(init, s);
      assert xs == init + [s];
      if init[|init| - 1].partTotal < 0 && LastKnown(init).Some? && Rise(LastKnown(init).value, s) > 0 {
        var i := LastKnownAt(init);
        assert HiddenRise(xs, i, |xs| - 1);
      }
      if SomeHiddenRise(xs) {
        var i: nat, j: nat :| i < j < |xs| && HiddenRise(xs, i, j);
        if j < |xs| - 1 {
          assert HiddenRise(init, i, j);
        } else {
          KnownHasLast(init, i);
        }
      }
    }
  }

  /**
   The report's production figure is never below the web's, and they differ exactly when the counter
   rises across samples on which it is unknown.
   */
  lemma ReportVersusWeb(web: seq<Sample>, cli: seq<Sample>, m: string)
    requires Sorted(web) && ByMachine(cli) && multiset(web) == multiset(cli)
    ensures ReportProduced(cli, m) >= MachineSum(web, m, Parts())
    ensures ReportProduced(cli, m) == MachineSum(web, m, Parts()) <==> !SomeHiddenRise(Only(web, |web|, m))
  {
    SameMachineRows(web, cli, m);
    ReportIsWebPlusHidden(Only(web, |web|, m));
    HiddenIff(Only(web, |web|, m));
  }

  /** Three samples whose counter is 5, unknown and 7. */
  function HiddenRows(): seq<Sample> {
    [Sample(0, "M", "READY", "AUTOMATIC", "", 5, 1), Sample(30, "M", "READY", "AUTOMATIC", "", -1, 1),
     Sample(60, "M", "READY", "AUTOMATIC", "", 7, 1)]
  }

  /** The report counts two parts there, the web server none. */
  lemma HiddenTwo()
    ensures Sorted(HiddenRows()) && ByMachine(HiddenRows())
    ensures ReportProduced(HiddenRows(), "M") == 2 && MachineSum(HiddenRows(), "M", Parts()) == 0
  {
    var rows := HiddenRows();
    OnlyAll(rows, 3, "M");
    assert rows[..3] == rows;
    HiddenWeb(rows[0], rows[1], rows[2]);
    HiddenReport(rows[0], rows[1], rows[2]);
  }

  lemma HiddenWeb(a: Sample, b: Sample, c: Sample)
    requires b.partTotal < 0
    ensures AdjSum([a, b, c], Parts()) == 0
  {
    assert [a, b, c] == [a, b] + [c];
    AdjSnoc([a, b], c, Parts());
    TwoSum(a, b, Parts());
  }

  lemma HiddenReport(a: Sample, b: Sample, c: Sample)
    requires b.partTotal < 0 <= a.partTotal <= c.partTotal
    ensures AdjSum(Known([a, b, c]), Parts()) == c.partTotal - a.partTotal
  {
    KnownSnoc([], a);
    KnownSnoc([a], b);
    KnownSnoc([a, b], c);
    assert [] + [a] == [a] && [a] + [b] == [a, b] && [a, b] + [c] == [a, b, c] && [a] + [c] == [a, c];
    TwoSum(a, c, Parts());
  }

  /** With every counter known the two figures agree. */
  lemma AgreeWhenKnown(web: seq<Sample>, cli: seq<Sample>, m: string)
    requires Sorted(web) && ByMachine(cli) && multiset(web) == multiset(cli)
    requires forall i :: 0 <= i < |web| ==> web[i].partTotal >= 0
    ensures ReportProduced(cli, m) == MachineSum(web, m, Parts())
  {
    ReportVersusWeb(web, cli, m);
    var xs := Only(web, |web|, m);
    OnlyElements(web, |web|, m);
    forall k | 0 <= k < |xs| ensures xs[k].partTotal >= 0 {
      assert xs[k] in web[..|web|];
    }
    forall i: nat, j: nat | i < j < |xs| ensures !HiddenRise(xs, i, j) {
      if i + 1 < j { assert xs[i + 1].partTotal >= 0; }
    }
  }
}
