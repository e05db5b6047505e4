/**
 From a reading of the device to what the clients were last sent: what each kind of reading shows, when it is
 stored, and what an unreachable device leaves behind.
 */
module AdapterReadings {
  import opened Text
  import opened ShdrServer
  import opened Adapters

  /** Within a millionth. */
  predicate Close(a: real, b: real) { -0.000001 <= a - b <= 0.000001 }

  /** What is shown is the reading; positions and samples are shown as the last value within a millionth of it. */
  predicate Shows(s: Shown, v: Value) {
    match v
    case EventVal(t) => s == TextValue(t)
    case IntVal(n, off) => s == if off then Unavailable else IntValue(n)
    case SampleVal(r, off) => !off ==> s.RealValue? && Close(s.number, r)
    case StateVal(t) => s == TextValue(t)
    case ConditionVal(level, code, severity, qualifier, message) =>
      s == ConditionValue(level, code, severity, qualifier, message)
    case MessageVal(code, body) => s == MessageValue(code, body)
    case PathVal(x, y, z, off) => !off ==> s.PointValue? && Close(s.x, x) && Close(s.y, y) && Close(s.z, z)
  }

  /** What an item of an unreachable device shows. */
  predicate ShowsLost(s: Shown, v: Value) {
    match v
    case EventVal(_) => s == TextValue("UNAVAILABLE")
    case IntVal(_, _) => s == Unavailable
    case SampleVal(_, _) => s == Unavailable
    case StateVal(_) => s == TextValue("UNAVAILABLE")
    case ConditionVal(_, _, _, _, _) => s == ConditionValue("UNAVAILABLE", "", "", "", "")
    case MessageVal(_, _) => s == MessageValue("", "UNAVAILABLE")
    case PathVal(_, _, _, _) => s == Unavailable
  }

  /** A reading is stored exactly when it says something else than what is held, beyond a millionth for numbers. */
  lemma StoredWhen(h: Held, v: Value)
    ensures !h.hasValue ==> Stored(h, v) == Held(v, true)
    ensures h.hasValue && h.value.SampleVal? && v.SampleVal? ==>
      Stored(h, v) == if !h.value.off && Close(v.number, h.value.number) then h else Held(v, true)
    ensures h.hasValue && h.value.PathVal? && v.PathVal? ==>
      Stored(h, v)
      == (if !h.value.off && Close(v.x, h.value.x) && Close(v.y, h.value.y) && Close(v.z, h.value.z) then h
          else Held(v, true))
    ensures h.hasValue && !(h.value.SampleVal? && v.SampleVal?) && !(h.value.PathVal? && v.PathVal?) ==>
      Stored(h, v) == Held(v, true)
  {
  }

  lemma StoredShows(h: Held, v: Value)
    ensures Stored(h, v).hasValue && Shows(Show(Stored(h, v).value), v)
  {
  }

  /** Whether the item counts as having a value changes for those kinds only that carry no flag. */
  predicate LostFrom(after: Held, before: Held) {
    && ShowsLost(Show(after.value), before.value)
    && (after.hasValue <==>
          before.hasValue || !(before.value.IntVal? || before.value.SampleVal? || before.value.PathVal?))
  }

  lemma LostShows(h: Held)
    ensures LostFrom(Unreachable(h), h)
  {
  }

  // ---- the readings of a sweep ---------------------------------------------------

  predicate Touches(r: Reading, i: nat) { (r.Report? && r.i == i) || (r.Lost? && r.i == i) || r.LostAll? }

  /** No reading from `k` up to `n` is about item `i`. */
  predicate Silent(rs: seq<Reading>, k: nat, n: nat, i: nat) {
    forall j :: k <= j < n && j < |rs| ==> !Touches(rs[j], i)
  }

  /** What is held of an item stays while no reading is about it. */
  lemma {:induction false} SilentKeeps(hs: seq<Held>, rs: seq<Reading>, k: nat, n: nat, i: nat)
    requires k <= n <= |rs| && i < |hs| && Silent(rs, k, n, i)
    ensures ReadAll(hs, rs, n)[i] == ReadAll(hs, rs, k)[i]
    decreases n - k
  {
    if k < n {
      SilentKeeps(hs, rs, k, n - 1, i);
      assert !Touches(rs[n - 1], i);
    }
  }

  /** The last reading about an item decides what is held of it. */
  lemma LastReadingCounts(hs: seq<Held>, rs: seq<Reading>, k: nat, n: nat, i: nat)
    requires k < n <= |rs| && i < |hs| && Touches(rs[k], i) && Silent(rs, k + 1, n, i)
    ensures var h := ReadAll(hs, rs, n)[i];
      if rs[k].Report? then h.hasValue && Shows(Show(h.value), rs[k].v) else LostFrom(h, ReadAll(hs, rs, k)[i])
  {
    SilentKeeps(hs, rs, k + 1, n, i);
    ReadsOne(ReadAll(hs, rs, k), rs[k], i);
  }

  lemma ReadsOne(hs: seq<Held>, r: Reading, i: nat)
    requires i < |hs| && Touches(r, i)
    ensures var h := ReadOne(hs, r)[i];
      if r.Report? then h.hasValue && Shows(Show(h.value), r.v) else LostFrom(h, hs[i])
  {
    if r.Report? { StoredShows(hs[i], r.v); } else { LostShows(hs[i]); }
  }

  // ---- what the clients were sent --------------------------------------------------

  /** Every client was last sent this of the item. */
  ghost predicate WereSent(a: Adapter, i: nat, s: Shown)
    requires a.server.Valid()
    reads a, a.server, a.server.slots, a.Clients()
  {
    forall c :: c in a.Clients() ==> Seen(Flat(c.received), i) == Some(s)
  }

  lemma CurrentIsSent(a: Adapter, i: nat, h: Held)
    requires a.Valid() && a.AllCurrent() && i < |a.data| && h == Held(a.data[i].value, a.data[i].hasValue)
    ensures h.hasValue ==> WereSent(a, i, Show(h.value))
  {
  }

  lemma HeldAt(a: Adapter, hs: seq<Held>, i: nat)
    requires i < |a.data| == |hs| && Same(HeldOf(a.State()), hs)
    ensures hs[i] == Held(a.data[i].value, a.data[i].hasValue)
  {
  }

  /**
   When views are current after a sweep, every client was last sent what the last reading of an item says: its
   value, or that it is unavailable.
   */
  lemma ReadingArrives(a: Adapter, hs: seq<Held>, rs: seq<Reading>, k: nat, i: nat) returns (s: Shown)
    requires a.Valid() && a.AllCurrent() && |hs| == |a.data| && Same(HeldOf(a.State()), ReadAll(hs, rs, |rs|))
    requires i < |hs| && k < |rs| && Touches(rs[k], i) && Silent(rs, k + 1, |rs|, i)
    ensures rs[k].Report? ==> WereSent(a, i, s) && Shows(s, rs[k].v)
    ensures !rs[k].Report? && a.data[i].hasValue ==>
      WereSent(a, i, s) && ShowsLost(s, ReadAll(hs, rs, k)[i].value)
  {
    var h := ReadAll(hs, rs, |rs|)[i];
    s := Show(h.value);
    LastReadingCounts(hs, rs, k, |rs|, i);
    HeldAt(a, ReadAll(hs, rs, |rs|), i);
    CurrentIsSent(a, i, h);
  }

  /** The same after a run of turns whose last one was swept. */
  lemma LastSweepArrives(a: Adapter, hs: seq<Held>, turns: seq<TurnInput>, logs: seq<TurnLog>, k: nat, i: nat)
    returns (s: Shown)
    requires a.Valid() && a.AllCurrent() && |hs| == |a.data| && 0 < |turns| == |logs| && logs[|turns| - 1].swept
    requires Same(HeldOf(a.State()), HeldAfterTurns(hs, turns, logs, |turns|))
    requires var rs := turns[|turns| - 1].second;
      i < |hs| && k < |rs| && rs[k].Report? && Touches(rs[k], i) && Silent(rs, k + 1, |rs|, i)
    ensures WereSent(a, i, s) && Shows(s, turns[|turns| - 1].second[k].v)
  {
    var n := |turns| - 1;
    var mid := HeldAfterArrival(HeldAfterTurns(hs, turns, logs, n), logs[n].arrived, turns[n].first);
    s := ReadingArrives(a, mid, turns[n].second, k, i);
  }
}
