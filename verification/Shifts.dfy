/** Work shifts: the calendar of shift windows and the figures of the samples inside each window. */
module Shifts {
  import opened Text
  import opened Samples
  import opened WebStats

  // ---- the calendar --------------------------------------------------------

  const DAY := 86400
  const MORNING := 30600       // 08:30
  const SUNDAY_END := 61200    // 17:00
  const EVENING := 73800       // 20:30
  const NEXT_MORNING := 117000 // 08:30 of the next day
  const MAX_DAYS := 512

  /** Number of the local day of an instant; `zone` is the offset of local time in seconds. */
  function DayOf(t: int, zone: int): int { (t + zone) / DAY }

  /** Local midnight at the start of day `d`. */
  function Midnight(d: int, zone: int): int { d * DAY - zone }

  /** 0 is Sunday; day 0 was a Thursday. */
  function Weekday(d: int): int { (d + 4) % 7 }

  datatype Win = Win(day: bool, start: int, end: int, ws: int, we: int)

  function Clipped(day: bool, start: int, end: int, from: int, to: int): Win {
    Win(day, start, end, Max(start, from), Min(end, to))
  }

  function DayShift(d: int, from: int, to: int, zone: int): Win {
    var m := Midnight(d, zone);
    Clipped(true, m + MORNING, if Weekday(d) == 0 then m + SUNDAY_END else m + EVENING, from, to)
  }

  function NightShift(d: int, from: int, to: int, zone: int): Win {
    var m := Midnight(d, zone);
    Clipped(false, m + EVENING, m + NEXT_MORNING, from, to)
  }

  /** The windows of the given shifts that meet the query range. */
  function Kept(w: Win): seq<Win> { if w.ws < w.we then [w] else [] }

  function ShiftsOfDay(d: int, from: int, to: int, zone: int): seq<Win> {
    Kept(DayShift(d, from, to, zone)) + if Weekday(d) == 0 then [] else Kept(NightShift(d, from, to, zone))
  }

  function ShiftsOfDays(d: int, n: nat, from: int, to: int, zone: int): seq<Win> {
    if n == 0 then [] else ShiftsOfDays(d, n - 1, from, to, zone) + ShiftsOfDay(d + n - 1, from, to, zone)
  }

  /** Days visited: from the day of `from` to the day of `to`, at most 512. */
  function DayCount(from: int, to: int, zone: int): nat {
    Min(MAX_DAYS, Max(0, DayOf(to, zone) - DayOf(from, zone) + 1))
  }

  function ShiftsOf(from: int, to: int, zone: int): seq<Win> {
    ShiftsOfDays(DayOf(from, zone), DayCount(from, to, zone), from, to, zone)
  }

  method BuildShifts(from: int, to: int, zone: int) returns (out: seq<Win>)
    ensures out == ShiftsOf(from, to, zone)
    ensures forall w <- out :: RightShift(w, from, to, zone)
  {
    out := [];
    var cur := DayOf(from, zone);
    var last := DayOf(to, zone);
    var guard := 0;
    while guard < MAX_DAYS
      invariant 0 <= guard <= DayCount(from, to, zone) && cur == DayOf(from, zone) + guard
      invariant out == ShiftsOfDays(DayOf(from, zone), guard, from, to, zone)
    {
      if cur > last { break; }
      var day := DayShift(cur, from, to, zone);
      ghost var before := out;
      if day.ws < day.we { out := out + [day]; }
      assert out == before + Kept(day);
      if Weekday(cur) != 0 {
        var night := NightShift(cur, from, to, zone);
        if night.ws < night.we { out := out + [night]; }
        assert out == before + Kept(day) + Kept(night);
      } else {
        assert out == before + Kept(day) + [];
      }
      assert out == before + ShiftsOfDay(cur, from, to, zone);
      cur := cur + 1;
      guard := guard + 1;
    }
    ScheduleRight(from, to, zone);
  }

  predicate Inside(w: Win, t: int) { w.ws <= t < w.we }

  ghost predicate InSome(wins: seq<Win>, t: int) { exists i :: 0 <= i < |wins| && Inside(wins[i], t) }

  /** The working day an instant belongs to: a day runs from 08:30 to 08:30. */
  function WorkDay(t: int, zone: int): int { (t + zone - MORNING) / DAY }

  /** Sunday 17:00 to Monday 08:30: no shift. */
  predicate Off(t: int, zone: int) {
    var d := WorkDay(t, zone);
    Weekday(d) == 0 && t >= Midnight(d, zone) + SUNDAY_END
  }

  lemma WorkDayIs(t: int, zone: int, d: int)
    ensures WorkDay(t, zone) == d <==> Midnight(d, zone) + MORNING <= t < Midnight(d, zone) + NEXT_MORNING
  {
  }

  lemma DayCovers(d: int, from: int, to: int, zone: int, t: int)
    ensures InSome(ShiftsOfDay(d, from, to, zone), t) <==>
            from <= t < to && WorkDay(t, zone) == d && !Off(t, zone)
  {
    WorkDayIs(t, zone, d);
    var day, night := DayShift(d, from, to, zone), NightShift(d, from, to, zone);
    var a := Kept(day);
    var b := if Weekday(d) == 0 then [] else Kept(night);
    InSomeConcat(a, b, t);
    KeptCovers(day, t);
    KeptCovers(night, t);
  }

  lemma KeptCovers(w: Win, t: int)
    ensures InSome(Kept(w), t) <==> Inside(w, t)
  {
    if Inside(w, t) { assert Inside(Kept(w)[0], t); }
  }

  lemma InSomeConcat(a: seq<Win>, b: seq<Win>, t: int)
    ensures InSome(a + b, t) <==> InSome(a, t) || InSome(b, t)
  {
    if InSome(a, t) {
      var i :| 0 <= i < |a| && Inside(a[i], t);
      assert Inside((a + b)[i], t);
    }
    if InSome(b, t) {
      var i :| 0 <= i < |b| && Inside(b[i], t);
      assert Inside((a + b)[|a| + i], t);
    }
    if InSome(a + b, t) {
      var i :| 0 <= i < |a + b| && Inside((a + b)[i], t);
      if i < |a| { assert Inside(a[i], t); } else { assert Inside(b[i - |a|], t); }
    }
  }

  lemma {:induction false} DaysCover(d: int, n: nat, from: int, to: int, zone: int, t: int)
    returns (wins: seq<Win>)
    ensures wins == ShiftsOfDays(d, n, from, to, zone)
    ensures InSome(wins, t) <==> from <= t < to && d <= WorkDay(t, zone) < d + n && !Off(t, zone)
  {
    if n == 0 {
      wins := [];
    } else {
      wins := DaysCover(d, n - 1, from, to, zone, t);
      wins := AppendCovers(wins, d + n - 1, from, to, zone, t);
    }
  }

  lemma AppendCovers(before: seq<Win>, d: int, from: int, to: int, zone: int, t: int) returns (wins: seq<Win>)
    ensures wins == before + ShiftsOfDay(d, from, to, zone)
    ensures InSome(wins, t) <==> InSome(before, t) || (from <= t < to && WorkDay(t, zone) == d && !Off(t, zone))
  {
    var day := ShiftsOfDay(d, from, to, zone);
    wins := before + day;
    DayCovers(d, from, to, zone, t);
    InSomeConcat(before, day, t);
  }

  /**
   An instant lies in a window exactly when it is in the query range, not before 08:30 of the first
   day, within the 512 days that are visited, and not between Sunday 17:00 and Monday 08:30.
   */
  lemma ScheduleCovers(from: int, to: int, zone: int, t: int)
    ensures InSome(ShiftsOf(from, to, zone), t) <==>
            && from <= t < to
            && t + zone >= (from + zone) / 86400 * 86400 + 30600
            && t + zone < ((from + zone) / 86400 + 512) * 86400 + 30600
            && !(((t + zone - 30600) / 86400 + 4) % 7 == 0 && (t + zone - 30600) % 86400 >= 30600)
  {
    var d, n := DayOf(from, zone), DayCount(from, to, zone);
    var _ := DaysCover(d, n, from, to, zone, t);
    assert t < to ==> WorkDay(t, zone) <= DayOf(t, zone) <= DayOf(to, zone);
  }

  /** 07:00 of the first day, a Tuesday, lies in no window although no break covers it. */
  lemma FirstMorningUncovered()
    ensures var from, t := 5 * DAY, 5 * DAY + 25200;
      from <= t < from + DAY && !Off(t, 0) && !InSome(ShiftsOf(from, from + DAY, 0), t)
  {
    ScheduleCovers(5 * DAY, 6 * DAY, 0, 5 * DAY + 25200);
  }

  /** Noon of the 513th day of a query over 600 days lies in no window. */
  lemma LateDayUncovered()
    ensures var from, t := 5 * DAY, (5 + MAX_DAYS) * DAY + 43200;
      from <= t < from + 600 * DAY && !Off(t, 0) && !InSome(ShiftsOf(from, from + 600 * DAY, 0), t)
  {
    ScheduleCovers(5 * DAY, 605 * DAY, 0, (5 + MAX_DAYS) * DAY + 43200);
  }

  /** Windows lie in the query range, are not empty and follow one another without overlap. */
  predicate WellOrdered(wins: seq<Win>, from: int, to: int) {
    && (forall i :: 0 <= i < |wins| ==> from <= wins[i].ws < wins[i].we <= to)
    && (forall i :: 0 <= i < |wins| ==> wins[i].start <= wins[i].ws && wins[i].we <= wins[i].end)
    && (forall i, j :: 0 <= i < j < |wins| ==> wins[i].we <= wins[j].ws)
  }

  predicate EndsBy(wins: seq<Win>, t: int) { forall i :: 0 <= i < |wins| ==> wins[i].we <= t }

  predicate StartsFrom(wins: seq<Win>, t: int) { forall i :: 0 <= i < |wins| ==> t <= wins[i].ws }

  /**
   A window belongs to one whole shift: the day shift lasts from 08:30 to 20:30, on Sundays to 17:00, the
   night shift from 20:30 to 08:30, and there is none on Sundays; day 0 was a Thursday.
   */
  predicate WholeShift(w: Win, zone: int) {
    var sunday := ((w.start + zone) / 86400 + 4) % 7 == 0;
    if w.day then (w.start + zone) % 86400 == 30600 && w.end == w.start + (if sunday then 30600 else 43200)
    else (w.start + zone) % 86400 == 73800 && w.end == w.start + 43200 && !sunday
  }

  /** A window is the part of its shift inside the query range. */
  predicate PartOfShift(w: Win, from: int, to: int) {
    && w.ws == (if w.start > from then w.start else from)
    && w.we == (if w.end < to then w.end else to)
  }

  ghost predicate RightShift(w: Win, from: int, to: int, zone: int) {
    && WholeShift(w, zone) && PartOfShift(w, from, to)
    && forall t :: Inside(w, t) ==> (w.day <==> 30600 <= (t + zone) % 86400 < 73800)
  }

  lemma InDay(d: int, r: int)
    requires 0 <= r < 86400
    ensures (d * 86400 + r) / 86400 == d && (d * 86400 + r) % 86400 == r
  {
  }

  lemma DayShiftRight(d: int, from: int, to: int, zone: int)
    ensures RightShift(DayShift(d, from, to, zone), from, to, zone)
  {
    var w := DayShift(d, from, to, zone);
    InDay(d, 30600);
    forall t | Inside(w, t) ensures 30600 <= (t + zone) % 86400 < 73800 { InDay(d, t + zone - d * 86400); }
  }

  lemma NightShiftRight(d: int, from: int, to: int, zone: int)
    requires Weekday(d) != 0
    ensures RightShift(NightShift(d, from, to, zone), from, to, zone)
  {
    var w := NightShift(d, from, to, zone);
    InDay(d, 73800);
    forall t | Inside(w, t) ensures !(30600 <= (t + zone) % 86400 < 73800) { NightTime(d, t + zone); }
  }

  lemma NightTime(d: int, u: int)
    requires d * 86400 + 73800 <= u < d * 86400 + 117000
    ensures !(30600 <= u % 86400 < 73800)
  {
    if u < (d + 1) * 86400 { InDay(d, u - d * 86400); } else { InDay(d + 1, u - (d + 1) * 86400); }
  }

  /** Every window of a schedule is of the kind the clock says at each of its instants, in one whole shift. */
  lemma {:induction false} DaysRight(d: int, n: nat, from: int, to: int, zone: int)
    ensures forall w <- ShiftsOfDays(d, n, from, to, zone) :: RightShift(w, from, to, zone)
  {
    if n > 0 {
      DaysRight(d, n - 1, from, to, zone);
      DayShiftRight(d + n - 1, from, to, zone);
      if Weekday(d + n - 1) != 0 { NightShiftRight(d + n - 1, from, to, zone); }
    }
  }

  lemma ScheduleRight(from: int, to: int, zone: int)
    ensures forall w <- ShiftsOf(from, to, zone) :: RightShift(w, from, to, zone)
  {
    DaysRight(DayOf(from, zone), DayCount(from, to, zone), from, to, zone);
  }

  /** 08:30 of day `d`. */
  function Dawn(d: int, zone: int): int { Midnight(d, zone) + MORNING }

  predicate OrderedBy(wins: seq<Win>, from: int, to: int, end: int) { WellOrdered(wins, from, to) && EndsBy(wins, end) }

  lemma {:induction false} DaysOrdered(d: int, n: nat, from: int, to: int, zone: int) returns (wins: seq<Win>)
    ensures wins == ShiftsOfDays(d, n, from, to, zone) && OrderedBy(wins, from, to, Dawn(d + n, zone))
  {
    if n == 0 {
      wins := [];
    } else {
      var early := DaysOrdered(d, n - 1, from, to, zone);
      wins := AppendDay(early, d + n - 1, from, to, zone);
      assert d + (n - 1) == d + n - 1;
      assert wins == ShiftsOfDays(d, n - 1, from, to, zone) + ShiftsOfDay(d + n - 1, from, to, zone);
    }
  }

  lemma AppendDay(wins: seq<Win>, d: int, from: int, to: int, zone: int) returns (more: seq<Win>)
    requires OrderedBy(wins, from, to, Dawn(d, zone))
    ensures more == wins + ShiftsOfDay(d, from, to, zone) && OrderedBy(more, from, to, Dawn(d + 1, zone))
  {
    var day := ShiftsOfDay(d, from, to, zone);
    more := wins + day;
    DayOrdered(d, from, to, zone);
    ConcatOrdered(wins, day, from, to, Dawn(d, zone), Dawn(d + 1, zone));
  }

  lemma ConcatOrdered(a: seq<Win>, b: seq<Win>, from: int, to: int, mid: int, hi: int)
    requires WellOrdered(a, from, to) && WellOrdered(b, from, to) && mid <= hi
    requires EndsBy(a, mid) && StartsFrom(b, mid) && EndsBy(b, hi)
    ensures WellOrdered(a + b, from, to) && EndsBy(a + b, hi)
  {
  }

  lemma DayOrdered(d: int, from: int, to: int, zone: int)
    ensures var wins := ShiftsOfDay(d, from, to, zone);
      WellOrdered(wins, from, to) && StartsFrom(wins, Dawn(d, zone)) && EndsBy(wins, Dawn(d + 1, zone))
  {
  }

  lemma ScheduleOrdered(from: int, to: int, zone: int)
    ensures WellOrdered(ShiftsOf(from, to, zone), from, to)
  {
    var _ := DaysOrdered(DayOf(from, zone), DayCount(from, to, zone), from, to, zone);
  }

  // ---- figures inside one window -------------------------------------------

  /** The rows one window looks at; an empty filter accepts every machine. */
  predicate InWindow(s: Sample, lo: int, hi: int, filter: string) {
    lo <= s.ts < hi && (filter == "" || s.machine == filter)
  }

  function Clip(w: Measure, lo: int, hi: int, filter: string, p: Sample, s: Sample): int {
    if InWindow(p, lo, hi, filter) && InWindow(s, lo, hi, filter) then w(p, s) else 0
  }

  /** Contributions of pairs that lie in the window with both samples. */
  function Within(w: Measure, lo: int, hi: int, filter: string): Measure {
    (p: Sample, s: Sample) => Clip(w, lo, hi, filter, p, s)
  }

  function LastIn(rows: seq<Sample>, n: nat, m: string, lo: int, hi: int, filter: string): Option<Sample>
    requires n <= |rows|
  {
    if n == 0 then None
    else if rows[n - 1].machine == m && InWindow(rows[n - 1], lo, hi, filter) then Some(rows[n - 1])
    else LastIn(rows, n - 1, m, lo, hi, filter)
  }

  /** What the window pass books for machine `m`: only rows inside are paired, with rows inside. */
  function WindowPass(rows: seq<Sample>, n: nat, m: string, lo: int, hi: int, filter: string, w: Measure): int
    requires n <= |rows|
  {
    if n == 0 then 0
    else
      WindowPass(rows, n - 1, m, lo, hi, filter, w) +
      if rows[n - 1].machine == m && InWindow(rows[n - 1], lo, hi, filter)
      then Gain(LastIn(rows, n - 1, m, lo, hi, filter), rows[n - 1], w) else 0
  }

  lemma {:induction false} LastInIsLastOf(rows: seq<Sample>, n: nat, m: string, lo: int, hi: int, filter: string)
    requires n <= |rows| && Sorted(rows)
    requires n > 0 ==> rows[n - 1].ts < hi
    requires filter == "" || m == filter
    ensures LastIn(rows, n, m, lo, hi, filter) ==
            var p := LastOf(rows, n, m); if p.Some? && lo <= p.value.ts then p else None
  {
    if n > 0 {
      if n > 1 { assert rows[n - 2].ts <= rows[n - 1].ts; }
      LastInIsLastOf(rows, n - 1, m, lo, hi, filter);
      var s := rows[n - 1];
      if s.machine == m && s.ts < lo && LastOf(rows, n - 1, m).Some? {
        var i := LastOfIsEarlier(rows, n - 1, m);
        assert rows[i].ts <= s.ts;
      }
      assert s.machine == m ==> (InWindow(s, lo, hi, filter) <==> lo <= s.ts);
    }
  }

  /** Restricting the rows to a window or restricting the pairs to it is the same. */
  lemma {:induction false} WindowPassIsWithin(rows: seq<Sample>, n: nat, m: string, lo: int, hi: int, filter: string,
                                              w: Measure)
    requires n <= |rows| && Sorted(rows)
    ensures WindowPass(rows, n, m, lo, hi, filter, w) == PassOf(rows, n, m, Within(w, lo, hi, filter))
  {
    if n > 0 {
      WindowPassIsWithin(rows, n - 1, m, lo, hi, filter, w);
      var s := rows[n - 1];
      if s.machine == m && InWindow(s, lo, hi, filter) {
        if n > 1 { assert rows[n - 2].ts <= s.ts; }
        LastInIsLastOf(rows, n - 1, m, lo, hi, filter);
        if LastOf(rows, n - 1, m).Some? {
          var i := LastOfIsEarlier(rows, n - 1, m);
          assert rows[i].ts <= s.ts;
        }
      }
    }
  }

  datatype ShiftMach = ShiftMach(machSec: int, powerSec: int, produced: int)

  function Add(a: ShiftMach, b: ShiftMach): ShiftMach {
    ShiftMach(a.machSec + b.machSec, a.powerSec + b.powerSec, a.produced + b.produced)
  }

  const ZERO := ShiftMach(0, 0, 0)

  /** The three figures of one machine in one window. */
  function WindowFigures(rows: seq<Sample>, n: nat, m: string, lo: int, hi: int, filter: string, gap: int): ShiftMach
    requires n <= |rows|
  {
    ShiftMach(WindowPass(rows, n, m, lo, hi, filter, Seconds(Machining, gap)),
              WindowPass(rows, n, m, lo, hi, filter, Seconds(Power, gap)),
              WindowPass(rows, n, m, lo, hi, filter, Parts()))
  }

  function PairFigures(p: Sample, s: Sample, gap: int): ShiftMach {
    ShiftMach(Elapsed(Machining, gap, p, s), Elapsed(Power, gap, p, s), Rise(p, s))
  }

  function Figures(m: map<string, ShiftMach>, k: string): ShiftMach { if k in m then m[k] else ZERO }

  ghost predicate LatestIn(prevs: map<string, Sample>, rows: seq<Sample>, n: nat, lo: int, hi: int, filter: string)
    requires n <= |rows|
  {
    forall m :: LastIn(rows, n, m, lo, hi, filter) == if m in prevs then Some(prevs[m]) else None
  }

  ghost predicate FiguresOf(acc: map<string, ShiftMach>, rows: seq<Sample>, n: nat, lo: int, hi: int, filter: string,
                            gap: int)
    requires n <= |rows|
  {
    forall m :: Figures(acc, m) == WindowFigures(rows, n, m, lo, hi, filter, gap)
  }

  ghost predicate PresentOf(present: seq<string>, rows: seq<Sample>, n: nat, lo: int, hi: int, filter: string)
    requires n <= |rows|
  {
    && (forall i, j :: 0 <= i < j < |present| ==> present[i] != present[j])
    && (forall m :: m in present <==> LastIn(rows, n, m, lo, hi, filter).Some?)
  }

  lemma FiguresStep(rows: seq<Sample>, n: nat, m: string, lo: int, hi: int, filter: string, gap: int)
    requires n < |rows|
    ensures WindowFigures(rows, n + 1, m, lo, hi, filter, gap) ==
            var before := WindowFigures(rows, n, m, lo, hi, filter, gap);
            var prev := LastIn(rows, n, m, lo, hi, filter);
            if rows[n].machine == m && InWindow(rows[n], lo, hi, filter) && prev.Some?
            then Add(before, PairFigures(prev.value, rows[n], gap)) else before
  {
  }

  /** What one more sample of a machine contributes, given the previous one in the window. */
  method BookPair(prev: Sample, s: Sample, gap: int) returns (r: ShiftMach)
    ensures r == PairFigures(prev, s, gap)
  {
    var dt := s.ts - prev.ts;
    var mach, power, parts := 0, 0, 0;
    if dt > 0 && dt <= gap {
      if IsMachining(prev) { mach := dt; }
      if prev.power != 0 { power := dt; }
    }
    if prev.partTotal >= 0 && s.partTotal >= 0 && s.partTotal > prev.partTotal {
      parts := s.partTotal - prev.partTotal;
    }
    r := ShiftMach(mach, power, parts);
  }

  method Present(present: seq<string>, rows: seq<Sample>, i: nat, ghost lo: int, ghost hi: int, ghost filter: string)
    returns (r: seq<string>)
    requires i < |rows| && InWindow(rows[i], lo, hi, filter) && PresentOf(present, rows, i, lo, hi, filter)
    ensures PresentOf(r, rows, i + 1, lo, hi, filter)
  {
    r := present;
    if rows[i].machine !in r { r := r + [rows[i].machine]; }
  }

  /** A row in the window adds its pair to its machine's figures. */
  method BookRow(acc: map<string, ShiftMach>, prevs: map<string, Sample>, rows: seq<Sample>, i: nat,
                 ghost lo: int, ghost hi: int, ghost filter: string, gap: int) returns (r: map<string, ShiftMach>)
    requires i < |rows| && InWindow(rows[i], lo, hi, filter)
    requires LatestIn(prevs, rows, i, lo, hi, filter) && FiguresOf(acc, rows, i, lo, hi, filter, gap)
    ensures FiguresOf(r, rows, i + 1, lo, hi, filter, gap)
  {
    var s := rows[i];
    r := acc;
    assert LastIn(rows, i, s.machine, lo, hi, filter) == if s.machine in prevs then Some(prevs[s.machine]) else None;
    if s.machine in prevs {
      var pair := BookPair(prevs[s.machine], s, gap);
      r := r[s.machine := Add(Figures(acc, s.machine), pair)];
    }
    forall m ensures Figures(r, m) == WindowFigures(rows, i + 1, m, lo, hi, filter, gap) {
      FiguresStep(rows, i, m, lo, hi, filter, gap);
      assert Figures(acc, m) == WindowFigures(rows, i, m, lo, hi, filter, gap);
    }
  }

  lemma OutsideRow(acc: map<string, ShiftMach>, rows: seq<Sample>, i: nat, lo: int, hi: int, filter: string, gap: int)
    requires i < |rows| && !InWindow(rows[i], lo, hi, filter) && FiguresOf(acc, rows, i, lo, hi, filter, gap)
    ensures FiguresOf(acc, rows, i + 1, lo, hi, filter, gap)
  {
    forall m ensures Figures(acc, m) == WindowFigures(rows, i + 1, m, lo, hi, filter, gap) {
      FiguresStep(rows, i, m, lo, hi, filter, gap);
      assert Figures(acc, m) == WindowFigures(rows, i, m, lo, hi, filter, gap);
    }
  }

  /** Figures of each machine seen in the window, and of the fleet. */
  method ShiftAggregate(rows: seq<Sample>, filter: string, lo: int, hi: int, gap: int)
    returns (acc: map<string, ShiftMach>, present: seq<string>, fleet: ShiftMach)
    ensures FiguresOf(acc, rows, |rows|, lo, hi, filter, gap)
    ensures PresentOf(present, rows, |rows|, lo, hi, filter)
    ensures fleet == FleetFigures(rows, present, lo, hi, filter, gap)
  {
    acc, present := map[], [];
    var prevs: map<string, Sample> := map[];
    for i := 0 to |rows|
      invariant LatestIn(prevs, rows, i, lo, hi, filter)
      invariant FiguresOf(acc, rows, i, lo, hi, filter, gap)
      invariant PresentOf(present, rows, i, lo, hi, filter)
    {
      if !InWindow(rows[i], lo, hi, filter) {
        OutsideRow(acc, rows, i, lo, hi, filter, gap);
        continue;
      }
      present := Present(present, rows, i, lo, hi, filter);
      acc := BookRow(acc, prevs, rows, i, lo, hi, filter, gap);
      prevs := prevs[rows[i].machine := rows[i]];
    }
    fleet := SumFleet(acc, present, rows, lo, hi, filter, gap);
  }

  method SumFleet(acc: map<string, ShiftMach>, present: seq<string>, ghost rows: seq<Sample>,
                  ghost lo: int, ghost hi: int, ghost filter: string, ghost gap: int) returns (fleet: ShiftMach)
    requires FiguresOf(acc, rows, |rows|, lo, hi, filter, gap)
    ensures fleet == FleetFigures(rows, present, lo, hi, filter, gap)
  {
    fleet := ZERO;
    for k := 0 to |present|
      invariant fleet == FleetFigures(rows, present[..k], lo, hi, filter, gap)
    {
      assert present[..k + 1][..k] == present[..k];
      assert Figures(acc, present[k]) == WindowFigures(rows, |rows|, present[k], lo, hi, filter, gap);
      fleet := Add(fleet, Figures(acc, present[k]));
    }
    assert present[..|present|] == present;
  }

  function FleetFigures(rows: seq<Sample>, ms: seq<string>, lo: int, hi: int, filter: string, gap: int): ShiftMach {
    if ms == [] then ZERO
    else Add(FleetFigures(rows, ms[..|ms| - 1], lo, hi, filter, gap),
             WindowFigures(rows, |rows|, ms[|ms| - 1], lo, hi, filter, gap))
  }

  function WindowMix(rows: seq<Sample>, lo: int, hi: int, filter: string, w: Measure): int {
    MixSum(rows, |rows|, Within(w, lo, hi, filter))
  }

  lemma {:induction false} FleetFiguresArePasses(rows: seq<Sample>, ms: seq<string>, lo: int, hi: int, filter: string,
                                                 gap: int)
    requires Sorted(rows)
    ensures FleetFigures(rows, ms, lo, hi, filter, gap) == ShiftMach(
      PassSum(rows, |rows|, ms, Within(Seconds(Machining, gap), lo, hi, filter)),
      PassSum(rows, |rows|, ms, Within(Seconds(Power, gap), lo, hi, filter)),
      PassSum(rows, |rows|, ms, Within(Parts(), lo, hi, filter)))
  {
    if ms != [] {
      FleetFiguresArePasses(rows, ms[..|ms| - 1], lo, hi, filter, gap);
      var m := ms[|ms| - 1];
      WindowPassIsWithin(rows, |rows|, m, lo, hi, filter, Seconds(Machining, gap));
      WindowPassIsWithin(rows, |rows|, m, lo, hi, filter, Seconds(Power, gap));
      WindowPassIsWithin(rows, |rows|, m, lo, hi, filter, Parts());
    }
  }

  lemma {:induction false} OutsiderAddsNothing(rows: seq<Sample>, n: nat, ms: seq<string>, lo: int, hi: int,
                                               filter: string, w: Measure)
    requires n <= |rows|
    requires forall i, j :: 0 <= i < j < |ms| ==> ms[i] != ms[j]
    requires forall i :: 0 <= i < n && InWindow(rows[i], lo, hi, filter) ==> rows[i].machine in ms
    ensures MixSum(rows, n, Within(w, lo, hi, filter)) == PassSum(rows, n, ms, Within(w, lo, hi, filter))
  {
    if n == 0 {
      PassSumEmpty(rows, ms, Within(w, lo, hi, filter));
    } else {
      OutsiderAddsNothing(rows, n - 1, ms, lo, hi, filter, w);
      PassSumStep(rows, n, ms, Within(w, lo, hi, filter));
    }
  }

  lemma {:induction false} SeenInside(rows: seq<Sample>, n: nat, i: nat, lo: int, hi: int, filter: string)
    requires i < n <= |rows| && InWindow(rows[i], lo, hi, filter)
    ensures LastIn(rows, n, rows[i].machine, lo, hi, filter).Some?
  {
    if i < n - 1 { SeenInside(rows, n - 1, i, lo, hi, filter); }
  }

  /** Fleet figures of a window: exactly the pairs lying in it, over all machines. */
  lemma FleetOfWindow(rows: seq<Sample>, present: seq<string>, lo: int, hi: int, filter: string, gap: int)
    requires Sorted(rows) && PresentOf(present, rows, |rows|, lo, hi, filter)
    ensures FleetFigures(rows, present, lo, hi, filter, gap) == ShiftMach(
      WindowMix(rows, lo, hi, filter, Seconds(Machining, gap)),
      WindowMix(rows, lo, hi, filter, Seconds(Power, gap)),
      WindowMix(rows, lo, hi, filter, Parts()))
  {
    FleetFiguresArePasses(rows, present, lo, hi, filter, gap);
    forall i | 0 <= i < |rows| && InWindow(rows[i], lo, hi, filter) ensures rows[i].machine in present {
      SeenInside(rows, |rows|, i, lo, hi, filter);
    }
    OutsiderAddsNothing(rows, |rows|, present, lo, hi, filter, Seconds(Machining, gap));
    OutsiderAddsNothing(rows, |rows|, present, lo, hi, filter, Seconds(Power, gap));
    OutsiderAddsNothing(rows, |rows|, present, lo, hi, filter, Parts());
  }

  // ---- all windows against the whole range ---------------------------------

  function WindowsTotal(rows: seq<Sample>, wins: seq<Win>, filter: string, w: Measure): int {
    if wins == [] then 0
    else
      var x := wins[|wins| - 1];
      WindowsTotal(rows, wins[..|wins| - 1], filter, w) + WindowMix(rows, x.ws, x.we, filter, w)
  }

  predicate Passes(s: Sample, filter: string) { filter == "" || s.machine == filter }

  function IfPasses(w: Measure, filter: string, p: Sample, s: Sample): int {
    if Passes(p, filter) && Passes(s, filter) then w(p, s) else 0
  }

  /** Contributions of the machines a query asks for. */
  function Filtered(w: Measure, filter: string): Measure { (p: Sample, s: Sample) => IfPasses(w, filter, p, s) }

  /** The figure of the whole range: of one machine, or of the fleet when no machine is named. */
  function RangeTotal(rows: seq<Sample>, ms: seq<string>, filter: string, w: Measure): int {
    if filter == "" then FleetSum(rows, ms, w) else MachineSum(rows, filter, w)
  }

  lemma {:induction false} FilteredPass(rows: seq<Sample>, n: nat, filter: string, w: Measure)
    requires n <= |rows|
    ensures MixSum(rows, n, Filtered(w, filter)) ==
            if filter == "" then MixSum(rows, n, w) else PassOf(rows, n, filter, w)
  {
    if n > 0 {
      FilteredPass(rows, n - 1, filter, w);
      if LastOf(rows, n - 1, rows[n - 1].machine).Some? { var _ := LastOfIsEarlier(rows, n - 1, rows[n - 1].machine); }
    }
  }

  lemma FilteredIsRange(rows: seq<Sample>, ms: seq<string>, filter: string, w: Measure)
    requires Covers(ms, rows, |rows|)
    ensures MixSum(rows, |rows|, Filtered(w, filter)) == RangeTotal(rows, ms, filter, w)
  {
    FilteredPass(rows, |rows|, filter, w);
    MixedPassIsFleet(rows, ms, w);
    PassIsAdjSum(rows, |rows|, filter, w);
  }

  /** Both samples lie in one and the same window. */
  predicate Together(p: Sample, s: Sample, wins: seq<Win>) {
    exists i :: 0 <= i < |wins| && Inside(wins[i], p.ts) && Inside(wins[i], s.ts)
  }

  function Joint(w: Measure, wins: seq<Win>, p: Sample, s: Sample): int {
    if Together(p, s, wins) then w(p, s) else 0
  }

  function TogetherOnly(w: Measure, wins: seq<Win>): Measure { (p: Sample, s: Sample) => Joint(w, wins, p, s) }

  /** The rest: contributions of pairs that do not lie in one window. */
  function ApartOnly(w: Measure, wins: seq<Win>): Measure {
    (p: Sample, s: Sample) => w(p, s) - Joint(w, wins, p, s)
  }

  lemma TogetherSnoc(p: Sample, s: Sample, init: seq<Win>, x: Win)
    requires forall i :: 0 <= i < |init| ==> init[i].we <= x.ws
    ensures Together(p, s, init + [x]) <==> Together(p, s, init) || (Inside(x, p.ts) && Inside(x, s.ts))
    ensures !(Together(p, s, init) && Inside(x, p.ts))
  {
    var all := init + [x];
    if Together(p, s, init) {
      var i :| 0 <= i < |init| && Inside(init[i], p.ts) && Inside(init[i], s.ts);
      assert Inside(all[i], p.ts) && Inside(all[i], s.ts);
    }
    if Inside(x, p.ts) && Inside(x, s.ts) {
      assert Inside(all[|init|], p.ts) && Inside(all[|init|], s.ts);
    }
    if Together(p, s, all) {
      var i :| 0 <= i < |all| && Inside(all[i], p.ts) && Inside(all[i], s.ts);
      if i < |init| { assert Inside(init[i], p.ts) && Inside(init[i], s.ts); }
    }
  }

  lemma {:induction false} WindowsTotalIsTogether(rows: seq<Sample>, wins: seq<Win>, filter: string, w: Measure)
    requires forall i, j :: 0 <= i < j < |wins| ==> wins[i].we <= wins[j].ws
    ensures WindowsTotal(rows, wins, filter, w) == MixSum(rows, |rows|, TogetherOnly(Filtered(w, filter), wins))
  {
    var v := Filtered(w, filter);
    if wins == [] {
      NothingTogether(rows, |rows|, v);
    } else {
      var init, x := wins[..|wins| - 1], wins[|wins| - 1];
      WindowsTotalIsTogether(rows, init, filter, w);
      assert wins == init + [x];
      forall p: Sample, s: Sample
        ensures TogetherOnly(v, wins)(p, s) == TogetherOnly(v, init)(p, s) + Within(w, x.ws, x.we, filter)(p, s)
      {
        TogetherSnoc(p, s, init, x);
      }
      MixAdd(rows, |rows|, TogetherOnly(v, wins), TogetherOnly(v, init), Within(w, x.ws, x.we, filter));
    }
  }

  lemma {:induction false} NothingTogether(rows: seq<Sample>, n: nat, w: Measure)
    requires n <= |rows|
    ensures MixSum(rows, n, TogetherOnly(w, [])) == 0
  {
    if n > 0 { NothingTogether(rows, n - 1, w); }
  }

  /** What the windows of a schedule cannot see: contributions of adjacent pairs not lying in one window. */
  function Unseen(rows: seq<Sample>, wins: seq<Win>, filter: string, w: Measure): int {
    MixSum(rows, |rows|, ApartOnly(Filtered(w, filter), wins))
  }

  /**
   Shift figures summed over all windows of the schedule are the whole-range figures minus exactly
   the adjacent pairs that do not lie in one window.
   */
  lemma ShiftsConserve(rows: seq<Sample>, ms: seq<string>, filter: string, from: int, to: int, zone: int, w: Measure)
    requires Covers(ms, rows, |rows|)
    ensures var wins := ShiftsOf(from, to, zone);
      WindowsTotal(rows, wins, filter, w) == RangeTotal(rows, ms, filter, w) - Unseen(rows, wins, filter, w)
  {
    var wins, v := ShiftsOf(from, to, zone), Filtered(w, filter);
    ScheduleOrdered(from, to, zone);
    WindowsTotalIsTogether(rows, wins, filter, w);
    MixAdd(rows, |rows|, v, TogetherOnly(v, wins), ApartOnly(v, wins));
    FilteredIsRange(rows, ms, filter, w);
  }

  // ---- the answer of the endpoint ------------------------------------------

  datatype Shift = Shift(win: Win, machines: map<string, ShiftMach>, present: seq<string>, fleet: ShiftMach)

  ghost predicate ShiftOf(e: Shift, rows: seq<Sample>, win: Win, filter: string, gap: int) {
    && e.win == win && FiguresOf(e.machines, rows, |rows|, win.ws, win.we, filter, gap)
    && PresentOf(e.present, rows, |rows|, win.ws, win.we, filter)
    && e.fleet == FleetFigures(rows, e.present, win.ws, win.we, filter, gap)
  }

  ghost predicate AnswerOf(es: seq<Shift>, rows: seq<Sample>, wins: seq<Win>, filter: string, gap: int) {
    |es| == |wins| && forall k :: 0 <= k < |es| ==> ShiftOf(es[k], rows, wins[k], filter, gap)
  }

  /** One entry per window, with the figures of the machines seen in it and their sum. */
  method ApiShifts(rows: seq<Sample>, machine: string, from: int, to: int, zone: int, gap: int) returns (es: seq<Shift>)
    ensures AnswerOf(es, rows, ShiftsOf(from, to, zone), machine, gap)
  {
    var wins := BuildShifts(from, to, zone);
    es := [];
    for k := 0 to |wins|
      invariant AnswerOf(es, rows, wins[..k], machine, gap)
    {
      var acc, present, fleet := ShiftAggregate(rows, machine, wins[k].ws, wins[k].we, gap);
      es := es + [Shift(wins[k], acc, present, fleet)];
    }
    assert wins[..|wins|] == wins;
  }

  function FleetsTotal(es: seq<Shift>): ShiftMach {
    if es == [] then ZERO else Add(FleetsTotal(es[..|es| - 1]), es[|es| - 1].fleet)
  }

  lemma {:induction false} FleetsAreWindows(es: seq<Shift>, rows: seq<Sample>, wins: seq<Win>, filter: string, gap: int)
    requires Sorted(rows) && AnswerOf(es, rows, wins, filter, gap)
    ensures FleetsTotal(es) == ShiftMach(
      WindowsTotal(rows, wins, filter, Seconds(Machining, gap)),
      WindowsTotal(rows, wins, filter, Seconds(Power, gap)),
      WindowsTotal(rows, wins, filter, Parts()))
  {
    if es != [] {
      var n := |es| - 1;
      FleetsAreWindows(es[..n], rows, wins[..n], filter, gap);
      assert ShiftOf(es[n], rows, wins[n], filter, gap);
      FleetOfWindow(rows, es[n].present, wins[n].ws, wins[n].we, filter, gap);
    }
  }

  /** The fleet figures an answer names add up to the figures of the range less what no window sees. */
  lemma AnswerConserves(es: seq<Shift>, rows: seq<Sample>, ms: seq<string>, machine: string, from: int, to: int,
                        zone: int, gap: int)
    requires Sorted(rows) && Covers(ms, rows, |rows|)
    requires AnswerOf(es, rows, ShiftsOf(from, to, zone), machine, gap)
    ensures var wins, mach, power := ShiftsOf(from, to, zone), Seconds(Machining, gap), Seconds(Power, gap);
      FleetsTotal(es) == ShiftMach(
        RangeTotal(rows, ms, machine, mach) - Unseen(rows, wins, machine, mach),
        RangeTotal(rows, ms, machine, power) - Unseen(rows, wins, machine, power),
        RangeTotal(rows, ms, machine, Parts()) - Unseen(rows, wins, machine, Parts()))
  {
    FleetsAreWindows(es, rows, ShiftsOf(from, to, zone), machine, gap);
    ShiftsConserve(rows, ms, machine, from, to, zone, Seconds(Machining, gap));
    ShiftsConserve(rows, ms, machine, from, to, zone, Seconds(Power, gap));
    ShiftsConserve(rows, ms, machine, from, to, zone, Parts());
  }

  // ---- utilisation ---------------------------------------------------------

  predicate Bounded(f: ShiftMach) { 0 <= f.machSec <= f.powerSec && f.produced >= 0 }

  /** No utilisation of an entry exceeds one, neither a machine's nor the fleet's: their clamps never fire. */
  lemma ShiftUtilisation(e: Shift, rows: seq<Sample>, win: Win, filter: string, gap: int)
    requires ShiftOf(e, rows, win, filter, gap)
    ensures forall m :: Bounded(Figures(e.machines, m)) && Ratio(Figures(e.machines, m)) <= 1.0
    ensures Bounded(e.fleet) && Ratio(e.fleet) <= 1.0
  {
    forall m ensures Bounded(Figures(e.machines, m)) && Ratio(Figures(e.machines, m)) <= 1.0 {
      assert Figures(e.machines, m) == WindowFigures(rows, |rows|, m, win.ws, win.we, filter, gap);
      FiguresBounded(rows, |rows|, m, win.ws, win.we, filter, gap);
      RatioAtMostOne(Figures(e.machines, m));
    }
    FleetBounded(rows, e.present, win.ws, win.we, filter, gap);
    RatioAtMostOne(e.fleet);
  }

  /** Machining as a share of power, zero without power. */
  function Ratio(f: ShiftMach): real { if f.powerSec > 0 then f.machSec as real / f.powerSec as real else 0.0 }

  lemma RatioAtMostOne(f: ShiftMach)
    requires Bounded(f)
    ensures Ratio(f) <= 1.0
  {
    if f.powerSec > 0 {
      var r := f.machSec as real / f.powerSec as real;
      assert r * f.powerSec as real == f.machSec as real;
    }
  }

  lemma {:induction false} FiguresBounded(rows: seq<Sample>, n: nat, m: string, lo: int, hi: int, filter: string,
                                          gap: int)
    requires n <= |rows|
    ensures Bounded(WindowFigures(rows, n, m, lo, hi, filter, gap))
  {
    if n > 0 {
      FiguresBounded(rows, n - 1, m, lo, hi, filter, gap);
      FiguresStep(rows, n - 1, m, lo, hi, filter, gap);
    }
  }

  lemma {:induction false} FleetBounded(rows: seq<Sample>, ms: seq<string>, lo: int, hi: int, filter: string, gap: int)
    ensures Bounded(FleetFigures(rows, ms, lo, hi, filter, gap))
  {
    if ms != [] {
      FleetBounded(rows, ms[..|ms| - 1], lo, hi, filter, gap);
      FiguresBounded(rows, |rows|, ms[|ms| - 1], lo, hi, filter, gap);
    }
  }
}
