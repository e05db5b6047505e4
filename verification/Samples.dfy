/**
 Samples of several machines in one time-ordered list, and the one definition every view of the
 statistics should agree with: a sum over adjacent samples of the same machine.
 */
module Samples {
  import opened Text

  datatype Sample = Sample(
    ts: nat, machine: string, execution: string, mode: string, comment: string, partTotal: int, power: int)

  predicate IsMachining(s: Sample) {
    s.power != 0 && s.execution == "ACTIVE" && s.mode == "AUTOMATIC"
  }

  /** Rows as the sample table delivers them: by time, one row per machine and instant. */
  predicate Sorted(rows: seq<Sample>) {
    && (forall i, j :: 0 <= i < j < |rows| ==> rows[i].ts <= rows[j].ts)
    && (forall i, j :: 0 <= i < j < |rows| ==> rows[i].ts < rows[j].ts || rows[i].machine != rows[j].machine)
  }

  /** What a pair of adjacent samples of one machine contributes. */
  type Measure = (Sample, Sample) -> int

  datatype Kind = Machining | Power

  predicate On(kind: Kind, p: Sample) {
    match kind
    case Machining => IsMachining(p)
    case Power => p.power != 0
  }

  predicate Counted(gap: int, p: Sample, s: Sample) { s.ts > p.ts && s.ts - p.ts <= gap }

  /** Seconds between the two samples, unless the gap says the machine was unreachable. */
  function Elapsed(kind: Kind, gap: int, p: Sample, s: Sample): nat {
    if On(kind, p) && Counted(gap, p, s) then s.ts - p.ts else 0
  }

  /** Parts made: a rise of a known counter. A fall is a counter reset and makes nothing. */
  function Rise(p: Sample, s: Sample): nat {
    if p.partTotal >= 0 && s.partTotal >= 0 && s.partTotal > p.partTotal then s.partTotal - p.partTotal else 0
  }

  function Seconds(kind: Kind, gap: int): Measure { (p: Sample, s: Sample) => Elapsed(kind, gap, p, s) }

  function Parts(): Measure { (p: Sample, s: Sample) => Rise(p, s) }

  // ---- the simple definition -----------------------------------------------

  /** The rows of one machine among the first `n`. */
  function Only(rows: seq<Sample>, n: nat, m: string): seq<Sample>
    requires n <= |rows|
  {
    if n == 0 then []
    else if rows[n - 1].machine == m then Only(rows, n - 1, m) + [rows[n - 1]]
    else Only(rows, n - 1, m)
  }

  /** Sum over the adjacent pairs of a list. */
  function AdjSum(xs: seq<Sample>, w: Measure): int {
    if |xs| < 2 then 0 else AdjSum(xs[..|xs| - 1], w) + w(xs[|xs| - 2], xs[|xs| - 1])
  }

  lemma AdjSnoc(xs: seq<Sample>, s: Sample, w: Measure)
    ensures AdjSum(xs + [s], w) == AdjSum(xs, w) + if xs == [] then 0 else w(xs[|xs| - 1], s)
  {
    assert (xs + [s])[..|xs|] == xs;
  }

  /** The whole-range figure of one machine. */
  function MachineSum(rows: seq<Sample>, m: string, w: Measure): int { AdjSum(Only(rows, |rows|, m), w) }

  /** The figures of several machines, added up. */
  function FleetSum(rows: seq<Sample>, ms: seq<string>, w: Measure): int {
    if ms == [] then 0 else FleetSum(rows, ms[..|ms| - 1], w) + MachineSum(rows, ms[|ms| - 1], w)
  }

  // ---- the interleaved pass ------------------------------------------------

  /** The latest row of machine `m` among the first `n`. */
  function LastOf(rows: seq<Sample>, n: nat, m: string): Option<Sample>
    requires n <= |rows|
  {
    if n == 0 then None
    else if rows[n - 1].machine == m then Some(rows[n - 1])
    else LastOf(rows, n - 1, m)
  }

  function Gain(prev: Option<Sample>, s: Sample, w: Measure): int {
    if prev.None? then 0 else w(prev.value, s)
  }

  /** One pass over the mixed rows, each paired with the latest earlier row of its own machine. */
  function MixSum(rows: seq<Sample>, n: nat, w: Measure): int
    requires n <= |rows|
  {
    if n == 0 then 0
    else MixSum(rows, n - 1, w) + Gain(LastOf(rows, n - 1, rows[n - 1].machine), rows[n - 1], w)
  }

  /** The same pass, looking at one machine only. */
  function PassOf(rows: seq<Sample>, n: nat, m: string, w: Measure): int
    requires n <= |rows|
  {
    if n == 0 then 0
    else PassOf(rows, n - 1, m, w) +
         if rows[n - 1].machine == m then Gain(LastOf(rows, n - 1, m), rows[n - 1], w) else 0
  }

  lemma {:induction false} LastOfOnly(rows: seq<Sample>, n: nat, m: string)
    requires n <= |rows|
    ensures LastOf(rows, n, m) ==
            var xs := Only(rows, n, m); if xs == [] then None else Some(xs[|xs| - 1])
  {
    if n > 0 { LastOfOnly(rows, n - 1, m); }
  }

  lemma {:induction false} PassIsAdjSum(rows: seq<Sample>, n: nat, m: string, w: Measure)
    requires n <= |rows|
    ensures PassOf(rows, n, m, w) == AdjSum(Only(rows, n, m), w)
  {
    if n > 0 {
      PassIsAdjSum(rows, n - 1, m, w);
      LastOfOnly(rows, n - 1, m);
      var xs := Only(rows, n - 1, m);
      if rows[n - 1].machine == m {
        var ys := xs + [rows[n - 1]];
        assert ys[..|ys| - 1] == xs;
      }
    }
  }

  /** Distinct names that cover the machines of the first `n` rows. */
  predicate Covers(ms: seq<string>, rows: seq<Sample>, n: nat)
    requires n <= |rows|
  {
    && (forall i, j :: 0 <= i < j < |ms| ==> ms[i] != ms[j])
    && (forall i :: 0 <= i < n ==> rows[i].machine in ms)
  }

  function PassSum(rows: seq<Sample>, n: nat, ms: seq<string>, w: Measure): int
    requires n <= |rows|
  {
    if ms == [] then 0 else PassSum(rows, n, ms[..|ms| - 1], w) + PassOf(rows, n, ms[|ms| - 1], w)
  }

  lemma {:induction false} PassSumStep(rows: seq<Sample>, n: nat, ms: seq<string>, w: Measure)
    requires 0 < n <= |rows|
    requires forall i, j :: 0 <= i < j < |ms| ==> ms[i] != ms[j]
    ensures PassSum(rows, n, ms, w) == PassSum(rows, n - 1, ms, w) +
            if rows[n - 1].machine in ms then Gain(LastOf(rows, n - 1, rows[n - 1].machine), rows[n - 1], w) else 0
  {
    if ms != [] {
      var init := ms[..|ms| - 1];
      PassSumStep(rows, n, init, w);
      assert ms == init + [ms[|ms| - 1]];
    }
  }

  lemma {:induction false} MixIsPassSum(rows: seq<Sample>, n: nat, ms: seq<string>, w: Measure)
    requires n <= |rows| && Covers(ms, rows, n)
    ensures MixSum(rows, n, w) == PassSum(rows, n, ms, w)
  {
    if n == 0 {
      PassSumEmpty(rows, ms, w);
    } else {
      MixIsPassSum(rows, n - 1, ms, w);
      PassSumStep(rows, n, ms, w);
    }
  }

  lemma {:induction false} PassSumEmpty(rows: seq<Sample>, ms: seq<string>, w: Measure)
    ensures PassSum(rows, 0, ms, w) == 0
  {
    if ms != [] { PassSumEmpty(rows, ms[..|ms| - 1], w); }
  }

  lemma {:induction false} PassSumIsFleet(rows: seq<Sample>, ms: seq<string>, w: Measure)
    ensures PassSum(rows, |rows|, ms, w) == FleetSum(rows, ms, w)
  {
    if ms != [] {
      PassSumIsFleet(rows, ms[..|ms| - 1], w);
      PassIsAdjSum(rows, |rows|, ms[|ms| - 1], w);
    }
  }

  /** The interleaved pass yields exactly the per-machine figures, added over the machines. */
  lemma MixedPassIsFleet(rows: seq<Sample>, ms: seq<string>, w: Measure)
    requires Covers(ms, rows, |rows|)
    ensures MixSum(rows, |rows|, w) == FleetSum(rows, ms, w)
  {
    MixIsPassSum(rows, |rows|, ms, w);
    PassSumIsFleet(rows, ms, w);
  }

  // ---- linearity -----------------------------------------------------------

  lemma {:induction false} MixAdd(rows: seq<Sample>, n: nat, w: Measure, a: Measure, b: Measure)
    requires n <= |rows|
    requires forall p: Sample, s: Sample :: w(p, s) == a(p, s) + b(p, s)
    ensures MixSum(rows, n, w) == MixSum(rows, n, a) + MixSum(rows, n, b)
  {
    if n > 0 { MixAdd(rows, n - 1, w, a, b); }
  }

  /** The previous row of the same machine is earlier in the list and strictly earlier in time. */
  lemma {:induction false} LastOfIsEarlier(rows: seq<Sample>, n: nat, m: string) returns (i: nat)
    requires n <= |rows| && LastOf(rows, n, m).Some?
    ensures i < n && rows[i] == LastOf(rows, n, m).value && rows[i].machine == m
    ensures forall j :: i < j < n ==> rows[j].machine != m
  {
    if rows[n - 1].machine == m { i := n - 1; } else { i := LastOfIsEarlier(rows, n - 1, m); }
  }
}
