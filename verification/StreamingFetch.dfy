/**
 The concurrent history save: one thread that claims the save, one worker per machine that fetches a
 reading and pushes it into its slot, and a watcher that polls and stores the batch.  Every atomic
 action is one step; the theorems hold for every interleaving of the steps.
 */
module StreamingFetch {
  import opened Text

  datatype Machine = Machine(id: int, name: string)

  /** One history entry; `reading` is what the machine answered, if it did. */
  datatype Entry = Entry(machine: Option<Machine>, reading: Option<int>, loading: bool)

  const BLANK := Entry(None, None, false)

  function Placeholder(m: Machine): Entry { Entry(Some(m), None, true) }

  function Fetched(m: Machine, reading: Option<int>): Entry { Entry(Some(m), reading, false) }

  /** Where a worker stands: about to fetch, about to write its slot, about to decrement, about to clear, finished. */
  datatype Worker = Fetching | Writing(e: Entry) | Decrementing | Clearing | Finished

  /** Where the thread that owns the save stands. */
  datatype Phase =
    | Idle
    | Claimed          // saving is set, the machine list has been read
    | Releasing        // no machines: only the flag is left to clear
    | Assigned         // start(): slots assigned
    | TotalSet
    | RemainingSet
    | LoadingSet
    | Placed           // placeholders written
    | Spawned          // workers run, the watcher does not yet
    | Watching         // the watcher polls
    | SawDone
    | Copied(batch: seq<Entry>)
    | Saved            // the batch is stored, the flag is still set

  /** A stored batch together with what the machines of this save had answered. */
  datatype Batch = Batch(machines: seq<Machine>, readings: seq<Option<int>>, entries: seq<Entry>)

  datatype State = State(
    saving: bool, phase: Phase, machines: seq<Machine>,
    items: seq<Entry>, total: int, remaining: int, loading: bool,
    workers: seq<Worker>, readings: seq<Option<int>>, clears: nat, stored: seq<Batch>)

  const INITIAL := State(false, Idle, [], [], 0, 0, false, [], [], 0, [])

  datatype Step =
    | Claim(ms: seq<Machine>)
    | Advance
    | Fetch(i: nat, reading: Option<int>)
    | Write(i: nat)
    | Decrement(i: nat)
    | Clear(i: nat)

  function Repeat<T>(x: T, n: nat): seq<T> { seq(n, _ => x) }

  function Placeholders(ms: seq<Machine>): seq<Entry> { seq(|ms|, i requires 0 <= i < |ms| => Placeholder(ms[i])) }

  /** The owner's next action; the watcher's poll goes on only when nothing is loading. */
  function OwnerStep(s: State): Option<State> {
    match s.phase
    case Idle => None
    case Claimed => Some(if s.machines == [] then s.(phase := Releasing)
                         else s.(phase := Assigned, items := Repeat(BLANK, |s.machines|),
                                 workers := [], readings := [], clears := 0))
    case Releasing => Some(s.(phase := Idle, saving := false))
    case Assigned => Some(s.(phase := TotalSet, total := |s.machines|))
    case TotalSet => Some(s.(phase := RemainingSet, remaining := |s.machines|))
    case RemainingSet => Some(s.(phase := LoadingSet, loading := true))
    case LoadingSet => Some(s.(phase := Placed, items := Placeholders(s.machines)))
    case Placed =>
      Some(s.(phase := Spawned, workers := Repeat(Fetching, |s.machines|), readings := Repeat(None, |s.machines|)))
    case Spawned => Some(s.(phase := Watching))
    case Watching => if s.loading then None else Some(s.(phase := SawDone))
    case SawDone => Some(s.(phase := Copied(s.items)))
    case Copied(batch) => Some(s.(phase := Saved, stored := s.stored + [Batch(s.machines, s.readings, batch)]))
    case Saved => Some(s.(phase := Idle, saving := false))
  }

  function At(s: State, i: nat, w: Worker): bool { i < |s.workers| && s.workers[i] == w }

  /** One atomic action; None when it is not enabled. */
  function Do(s: State, step: Step): Option<State> {
    match step
    case Claim(ms) =>
      // compare_exchange_strong: only the caller that finds the flag clear goes on
      Some(if s.saving then s else s.(saving := true, phase := Claimed, machines := ms))
    case Advance => OwnerStep(s)
    case Fetch(i, reading) =>
      if At(s, i, Fetching) && i < |s.machines| && i < |s.readings|
      then Some(s.(workers := s.workers[i := Writing(Fetched(s.machines[i], reading))],
                   readings := s.readings[i := reading]))
      else None
    case Write(i) =>
      if i < |s.workers| && s.workers[i].Writing?
      then Some(s.(workers := s.workers[i := Decrementing],
                   items := if i < |s.items| then s.items[i := s.workers[i].e] else s.items))
      else None
    case Decrement(i) =>
      if At(s, i, Decrementing)
      then Some(s.(remaining := s.remaining - 1,
                   workers := s.workers[i := if s.remaining <= 1 then Clearing else Finished]))
      else None
    case Clear(i) =>
      if At(s, i, Clearing)
      then Some(s.(loading := false, clears := s.clears + 1, workers := s.workers[i := Finished]))
      else None
  }

  // ---- counting workers ----------------------------------------------------

  function Pending(w: Worker): nat { if w.Clearing? || w.Finished? then 0 else 1 }

  /** Workers that have not decremented yet. */
  function PendingCount(ws: seq<Worker>): nat {
    if ws == [] then 0 else Pending(ws[0]) + PendingCount(ws[1..])
  }

  function ClearingCount(ws: seq<Worker>): nat {
    if ws == [] then 0 else (if ws[0].Clearing? then 1 else 0) + ClearingCount(ws[1..])
  }

  lemma {:induction false} CountsAfter(ws: seq<Worker>, i: nat, w: Worker)
    requires i < |ws|
    ensures PendingCount(ws[i := w]) == PendingCount(ws) - Pending(ws[i]) + Pending(w)
    ensures ClearingCount(ws[i := w]) ==
            ClearingCount(ws) - (if ws[i].Clearing? then 1 else 0) + (if w.Clearing? then 1 else 0)
  {
    if i > 0 {
      CountsAfter(ws[1..], i - 1, w);
      assert ws[i := w][1..] == ws[1..][i - 1 := w];
    } else {
      assert ws[i := w][1..] == ws[1..];
    }
  }

  lemma {:induction false} CountsOfNew(n: nat)
    ensures PendingCount(Repeat(Fetching, n)) == n && ClearingCount(Repeat(Fetching, n)) == 0
  {
    if n > 0 {
      assert Repeat(Fetching, n)[1..] == Repeat(Fetching, n - 1);
      CountsOfNew(n - 1);
    }
  }

  /** With nobody pending and nobody clearing everyone has finished, and conversely. */
  lemma {:induction false} AllFinished(ws: seq<Worker>)
    ensures PendingCount(ws) == 0 && ClearingCount(ws) == 0 <==> forall i :: 0 <= i < |ws| ==> ws[i] == Finished
  {
    if ws != [] {
      AllFinished(ws[1..]);
      assert ws == [ws[0]] + ws[1..];
      assert (forall i :: 0 <= i < |ws| ==> ws[i] == Finished) <==>
             ws[0] == Finished && forall i :: 0 <= i < |ws[1..]| ==> ws[1..][i] == Finished;
    }
  }

  lemma {:induction false} OneCounts(ws: seq<Worker>, i: nat)
    requires i < |ws|
    ensures Pending(ws[i]) <= PendingCount(ws)
    ensures ws[i].Clearing? ==> ClearingCount(ws) >= 1
  {
    if i > 0 { OneCounts(ws[1..], i - 1); }
  }

  // ---- the invariant -------------------------------------------------------

  /** The entry a machine's answer is stored as. */
  predicate Proper(e: Entry, m: Machine, reading: Option<int>) {
    e.machine == Some(m) && e.reading == reading && !e.loading
  }

  /** Slot, result and program counter of one worker fit together. */
  predicate SlotOk(s: State, i: nat)
    requires i < |s.workers| && |s.items| == |s.readings| == |s.machines| == |s.workers|
  {
    match s.workers[i]
    case Fetching => s.items[i] == Placeholder(s.machines[i])
    case Writing(e) => Proper(e, s.machines[i], s.readings[i]) && s.items[i] == Placeholder(s.machines[i])
    case _ => Proper(s.items[i], s.machines[i], s.readings[i])
  }

  /** While workers may run: counters and flags say exactly how many still have to decrement. */
  predicate Live(s: State) {
    && |s.machines| > 0
    && |s.items| == |s.readings| == |s.machines| == |s.workers|
    && s.total == |s.machines|
    && s.remaining == PendingCount(s.workers)
    && (s.remaining > 0 ==> ClearingCount(s.workers) == 0 && s.clears == 0)
    && (s.remaining == 0 ==> ClearingCount(s.workers) + s.clears == 1)
    && (s.loading <==> s.clears == 0)
    && forall i :: 0 <= i < |s.workers| ==> SlotOk(s, i)
  }

  predicate Quiet(s: State) { PendingCount(s.workers) == 0 && ClearingCount(s.workers) == 0 }

  /** A stored batch holds, machine by machine, exactly what the machine had answered. */
  predicate Good(b: Batch) {
    && |b.machines| == |b.entries| == |b.readings| > 0
    && forall i :: 0 <= i < |b.machines| ==> Proper(b.entries[i], b.machines[i], b.readings[i])
  }

  predicate PhaseOk(s: State) {
    match s.phase
    case Idle => !s.saving && Quiet(s) && s.remaining == 0
    case Claimed => s.saving && Quiet(s) && s.remaining == 0
    case Releasing => s.saving && Quiet(s) && s.remaining == 0
    case Assigned => s.saving && s.machines != [] && s.workers == [] && s.clears == 0 && s.remaining == 0
    case TotalSet =>
      s.saving && s.machines != [] && s.workers == [] && s.clears == 0 && s.remaining == 0 && s.total == |s.machines|
    case RemainingSet =>
      s.saving && s.machines != [] && s.workers == [] && s.clears == 0 && s.remaining == s.total == |s.machines|
    case LoadingSet =>
      && s.saving && s.machines != [] && s.workers == [] && s.clears == 0
      && s.remaining == s.total == |s.machines| && s.loading
    case Placed =>
      && s.saving && s.machines != [] && s.workers == [] && s.clears == 0
      && s.remaining == s.total == |s.machines| && s.loading
      && s.items == Placeholders(s.machines)
    case Spawned => s.saving && Live(s)
    case Watching => s.saving && Live(s)
    case SawDone => s.saving && Live(s) && !s.loading
    case Copied(batch) => s.saving && Live(s) && !s.loading && batch == s.items
    case Saved => s.saving && Live(s) && !s.loading
  }

  predicate Inv(s: State) {
    && PhaseOk(s)
    && 0 <= s.remaining <= s.total
    && forall b :: b in s.stored ==> Good(b)
  }

  lemma InitialInv()
    ensures Inv(INITIAL)
  {
  }

  /** Once loading is seen false every worker has finished and every slot holds its machine's result. */
  lemma DoneMeansComplete(s: State)
    requires Live(s) && !s.loading
    ensures Quiet(s) && s.clears == 1 && s.remaining == 0
    ensures forall i :: 0 <= i < |s.workers| ==> s.workers[i] == Finished
    ensures forall i :: 0 <= i < |s.machines| ==> Proper(s.items[i], s.machines[i], s.readings[i])
  {
    AllFinished(s.workers);
    forall i | 0 <= i < |s.workers| ensures Proper(s.items[i], s.machines[i], s.readings[i]) {
      assert SlotOk(s, i) && s.workers[i] == Finished;
    }
  }

  predicate Preparing(s: State) {
    s.phase.Claimed? || s.phase.Releasing? || s.phase.Assigned?
    || s.phase.TotalSet? || s.phase.RemainingSet? || s.phase.LoadingSet?
  }

  lemma PrepareKeepsInv(s: State)
    requires Inv(s) && Preparing(s)
    ensures Inv(OwnerStep(s).value)
  {
    assert OwnerStep(s).value.stored == s.stored;
  }

  lemma SpawnKeepsInv(s: State)
    requires Inv(s) && s.phase.Placed?
    ensures Inv(OwnerStep(s).value)
  {
    var t := OwnerStep(s).value;
    CountsOfNew(|s.machines|);
    forall i | 0 <= i < |t.workers| ensures SlotOk(t, i) { }
  }

  lemma StoreKeepsInv(s: State)
    requires Inv(s) && s.phase.Copied?
    ensures Inv(OwnerStep(s).value)
  {
    DoneMeansComplete(s);
    var t := OwnerStep(s).value;
    forall b | b in t.stored ensures Good(b) {
      if b !in s.stored { assert b == Batch(s.machines, s.readings, s.phase.batch); }
    }
  }

  lemma WatchKeepsInv(s: State)
    requires Inv(s) && OwnerStep(s).Some?
    requires s.phase.Spawned? || s.phase.Watching? || s.phase.SawDone? || s.phase.Saved?
    ensures Inv(OwnerStep(s).value)
  {
    var t := OwnerStep(s).value;
    assert t.stored == s.stored;
    if s.phase.Saved? {
      DoneMeansComplete(s);
    } else {
      assert forall i :: 0 <= i < |s.workers| ==> SlotOk(s, i) ==> SlotOk(t, i);
    }
  }

  lemma OwnerKeepsInv(s: State)
    requires Inv(s) && OwnerStep(s).Some?
    ensures Inv(OwnerStep(s).value)
  {
    match s.phase
    case Placed => SpawnKeepsInv(s);
    case Copied(_) => StoreKeepsInv(s);
    case Spawned => WatchKeepsInv(s);
    case Watching => WatchKeepsInv(s);
    case SawDone => WatchKeepsInv(s);
    case Saved => WatchKeepsInv(s);
    case _ => PrepareKeepsInv(s);
  }

  /** The worker steps change one worker and its own slot. */
  lemma SlotsElsewhere(s: State, t: State, i: nat)
    requires i < |s.workers| && |s.items| == |s.readings| == |s.machines| == |s.workers|
    requires t.machines == s.machines && |t.items| == |t.readings| == |t.workers| == |s.workers|
    requires forall k :: 0 <= k < |s.workers| ==> SlotOk(s, k)
    requires forall k :: 0 <= k < |s.workers| && k != i ==>
      t.workers[k] == s.workers[k] && t.items[k] == s.items[k] && t.readings[k] == s.readings[k]
    requires SlotOk(t, i)
    ensures forall k :: 0 <= k < |t.workers| ==> SlotOk(t, k)
  {
    forall k | 0 <= k < |t.workers| ensures SlotOk(t, k) {
      assert SlotOk(s, k);
    }
  }

  predicate Running(s: State) {
    s.phase.Spawned? || s.phase.Watching? || s.phase.SawDone? || s.phase.Copied? || s.phase.Saved?
  }

  /** A worker that is not finished exists only between spawning and completion. */
  lemma ActiveWorkerMeansRunning(s: State, i: nat)
    requires Inv(s) && i < |s.workers| && s.workers[i] != Finished
    ensures (s.phase.Spawned? || s.phase.Watching?) && Live(s)
  {
    AllFinished(s.workers);
    if Running(s) && !s.loading { AllFinished(s.workers); }
    OneCounts(s.workers, i);
  }

  lemma FetchKeepsInv(s: State, i: nat, reading: Option<int>)
    requires Inv(s) && Do(s, Fetch(i, reading)).Some?
    ensures Inv(Do(s, Fetch(i, reading)).value)
  {
    ActiveWorkerMeansRunning(s, i);
    var t := Do(s, Fetch(i, reading)).value;
    CountsAfter(s.workers, i, t.workers[i]);
    assert SlotOk(s, i);
    SlotsElsewhere(s, t, i);
  }

  lemma WriteKeepsInv(s: State, i: nat)
    requires Inv(s) && Do(s, Write(i)).Some?
    ensures Inv(Do(s, Write(i)).value)
  {
    ActiveWorkerMeansRunning(s, i);
    var t := Do(s, Write(i)).value;
    CountsAfter(s.workers, i, t.workers[i]);
    assert SlotOk(s, i);
    SlotsElsewhere(s, t, i);
  }

  lemma DecrementKeepsInv(s: State, i: nat)
    requires Inv(s) && Do(s, Decrement(i)).Some?
    ensures Inv(Do(s, Decrement(i)).value)
  {
    ActiveWorkerMeansRunning(s, i);
    OneCounts(s.workers, i);
    var t := Do(s, Decrement(i)).value;
    CountsAfter(s.workers, i, t.workers[i]);
    assert SlotOk(s, i);
    SlotsElsewhere(s, t, i);
  }

  lemma ClearKeepsInv(s: State, i: nat)
    requires Inv(s) && Do(s, Clear(i)).Some?
    ensures Inv(Do(s, Clear(i)).value)
  {
    ActiveWorkerMeansRunning(s, i);
    OneCounts(s.workers, i);
    var t := Do(s, Clear(i)).value;
    CountsAfter(s.workers, i, t.workers[i]);
    assert SlotOk(s, i);
    SlotsElsewhere(s, t, i);
  }

  lemma StepKeepsInv(s: State, step: Step)
    requires Inv(s) && Do(s, step).Some?
    ensures Inv(Do(s, step).value)
  {
    match step
    case Claim(_) =>
    case Advance => OwnerKeepsInv(s);
    case Fetch(i, reading) => FetchKeepsInv(s, i, reading);
    case Write(i) => WriteKeepsInv(s, i);
    case Decrement(i) => DecrementKeepsInv(s, i);
    case Clear(i) => ClearKeepsInv(s, i);
  }

  // ---- runs ----------------------------------------------------------------

  function Next(s: State, step: Step): State { if Do(s, step).Some? then Do(s, step).value else s }

  /** The states along a schedule; steps that are not enabled are passed over. */
  function After(s: State, steps: seq<Step>): State
    decreases |steps|
  {
    if steps == [] then s
    else After(Next(s, steps[0]), steps[1..])
  }

  lemma {:induction false} RunKeepsInv(s: State, steps: seq<Step>)
    requires Inv(s)
    ensures Inv(After(s, steps))
    decreases |steps|
  {
    if steps != [] {
      if Do(s, steps[0]).Some? {
        StepKeepsInv(s, steps[0]);
        RunKeepsInv(Do(s, steps[0]).value, steps[1..]);
      } else {
        RunKeepsInv(s, steps[1..]);
      }
    }
  }

  function Completed(s: State): int { s.total - s.remaining }

  /** Every slot holds what its own machine has answered in this save. */
  predicate AllDelivered(s: State) {
    && |s.items| == |s.machines| == |s.readings|
    && forall i :: 0 <= i < |s.machines| ==> Proper(s.items[i], s.machines[i], s.readings[i])
  }

  /**
   Safety over every schedule: progress stays between zero and the total; while the watcher runs,
   loading is false only when every slot holds the result of its own machine and exactly one worker
   has cleared it; every stored batch is complete and belongs to one run.
   */
  lemma EveryScheduleIsSafe(steps: seq<Step>)
    ensures var s := After(INITIAL, steps);
      && 0 <= Completed(s) <= s.total
      && (Running(s) && !s.loading ==> s.clears == 1 && AllDelivered(s))
      && (Running(s) ==> s.clears <= 1)
      && forall b :: b in s.stored ==> Good(b)
  {
    InitialInv();
    RunKeepsInv(INITIAL, steps);
    var s := After(INITIAL, steps);
    if Running(s) && !s.loading { DoneMeansComplete(s); }
  }

  /** A save that is not stored yet, with a worker that has its machine's answer. */
  predicate Answered(s: State, i: nat, m: Machine, reading: Option<int>) {
    && (s.phase.Spawned? || s.phase.Watching? || s.phase.SawDone? || s.phase.Copied?)
    && i < |s.workers| == |s.machines| == |s.readings| && s.workers[i] != Fetching
    && s.machines[i] == m && s.readings[i] == reading
  }

  lemma {:induction false} StoredGrows(s: State, steps: seq<Step>)
    ensures s.stored <= After(s, steps).stored
    decreases |steps|
  {
    if steps != [] {
      assert s.stored <= Next(s, steps[0]).stored;
      StoredGrows(Next(s, steps[0]), steps[1..]);
    }
  }

  lemma AnswerStays(s: State, i: nat, m: Machine, reading: Option<int>, step: Step)
    requires Inv(s) && Answered(s, i, m, reading)
    ensures var t := Next(s, step);
      if s.phase.Copied? && step == Advance
      then t.stored == s.stored + [Batch(s.machines, s.readings, s.items)]
      else Answered(t, i, m, reading) && t.stored == s.stored
  {
  }

  /** What a worker's machine answers is what the next batch that is stored holds for it, whatever comes between. */
  lemma {:induction false} AnswerIsStored(s: State, i: nat, m: Machine, reading: Option<int>, steps: seq<Step>)
    requires Inv(s) && Answered(s, i, m, reading)
    ensures var t, n := After(s, steps), |s.stored|;
      |t.stored| > n ==> i < |t.stored[n].entries| && t.stored[n].entries[i] == Entry(Some(m), reading, false)
    decreases |steps|
  {
    if steps != [] {
      var t := Next(s, steps[0]);
      AnswerStays(s, i, m, reading, steps[0]);
      if Do(s, steps[0]).Some? { StepKeepsInv(s, steps[0]); }
      if s.phase.Copied? && steps[0] == Advance {
        DoneMeansComplete(s);
        StoredGrows(t, steps[1..]);
      } else {
        AnswerIsStored(t, i, m, reading, steps[1..]);
      }
    }
  }

  /** An answer fetched at any time, by a worker that still waits for one, ends up in the next batch that is stored. */
  lemma FetchIsStored(s: State, i: nat, reading: Option<int>, steps: seq<Step>)
    requires Inv(s) && i < |s.workers| && s.workers[i] == Fetching
    ensures var t, n := After(Next(s, Fetch(i, reading)), steps), |s.stored|;
      && i < |s.machines|
      && (|t.stored| > n ==>
            i < |t.stored[n].entries| && t.stored[n].entries[i] == Entry(Some(s.machines[i]), reading, false))
  {
    ActiveWorkerMeansRunning(s, i);
    StepKeepsInv(s, Fetch(i, reading));
    AnswerIsStored(Next(s, Fetch(i, reading)), i, s.machines[i], reading, steps);
  }

  /** Steps of workers and of the watcher; claiming and preparing a save are left to the thread that draws. */
  predicate InBackground(s: State, step: Step) {
    !step.Claim? && (step.Advance? ==> s.phase.Watching? || s.phase.SawDone? || s.phase.Copied? || s.phase.Saved?)
  }

  predicate AllInBackground(s: State, steps: seq<Step>)
    decreases |steps|
  {
    steps == [] || (InBackground(s, steps[0]) && AllInBackground(Next(s, steps[0]), steps[1..]))
  }

  /**
   The progress is read with two loads, of the total and then of the remaining count.  Read by the
   thread that starts saves it is the progress at the second load, whatever happens in between.
   */
  lemma {:induction false} ReadTwice(s: State, steps: seq<Step>)
    requires Inv(s) && AllInBackground(s, steps)
    ensures var t := After(s, steps);
      && s.total - t.remaining == Completed(t) && t.total == s.total
      && Completed(s) <= s.total - t.remaining <= s.total
    decreases |steps|
  {
    if steps != [] {
      BackgroundCountsDown(s, steps[0]);
      ReadTwice(Next(s, steps[0]), steps[1..]);
    }
  }

  lemma BackgroundCountsDown(s: State, step: Step)
    requires Inv(s) && InBackground(s, step)
    ensures var t := Next(s, step); Inv(t) && t.total == s.total && 0 <= t.remaining <= s.remaining
  {
    if Do(s, step).Some? { StepKeepsInv(s, step); }
  }

  /** With a start of two machines between the two loads the progress read is minus two. */
  lemma ReadAcrossStart(m: Machine)
    ensures INITIAL.total - After(INITIAL, [Claim([m, m]), Advance, Advance, Advance]).remaining == -2
  {
    var steps := [Claim([m, m]), Advance, Advance, Advance];
    var claimed := Next(INITIAL, Claim([m, m]));
    var sized := Next(Next(claimed, Advance), Advance);
    assert claimed.phase.Claimed? && sized.phase.TotalSet? && sized.machines == [m, m];
    assert steps[1..] == [Advance, Advance, Advance] && steps[1..][1..] == [Advance, Advance];
    assert steps[1..][1..][1..] == [Advance] && steps[1..][1..][1..][1..] == [];
    assert After(claimed, steps[1..]) == After(sized, [Advance]) == Next(sized, Advance);
  }

  /** A second caller changes nothing while a save is under way. */
  lemma SingleFlight(s: State, ms: seq<Machine>)
    requires Inv(s)
    ensures Do(s, Claim(ms)) == Some(s) <==> s.phase != Idle || s.saving
    ensures s.saving <==> s.phase != Idle
  {
    if s.phase == Idle { assert Do(s, Claim(ms)).value.saving != s.saving; }
  }

  // ---- progress ------------------------------------------------------------

  function WorkerRank(w: Worker): nat {
    match w
    case Fetching => 4
    case Writing(_) => 3
    case Decrementing => 2
    case Clearing => 1
    case Finished => 0
  }

  function WorkersRank(ws: seq<Worker>): nat {
    if ws == [] then 0 else WorkerRank(ws[0]) + WorkersRank(ws[1..])
  }

  function PhaseRank(s: State): nat {
    var n := 4 * |s.machines|;
    match s.phase
    case Idle => 0
    case Releasing => 1
    case Saved => 1
    case Copied(_) => 2
    case SawDone => 3
    case Watching => 4
    case Spawned => 5
    case Placed => n + 6
    case LoadingSet => n + 7
    case RemainingSet => n + 8
    case TotalSet => n + 9
    case Assigned => n + 10
    case Claimed => n + 11
  }

  /** Steps left until the flag is free again. */
  function Rank(s: State): nat {
    PhaseRank(s) + if Running(s) then WorkersRank(s.workers) else 0
  }

  lemma {:induction false} RankAfter(ws: seq<Worker>, i: nat, w: Worker)
    requires i < |ws|
    ensures WorkersRank(ws[i := w]) == WorkersRank(ws) - WorkerRank(ws[i]) + WorkerRank(w)
  {
    if i > 0 {
      RankAfter(ws[1..], i - 1, w);
      assert ws[i := w][1..] == ws[1..][i - 1 := w];
    } else {
      assert ws[i := w][1..] == ws[1..];
    }
  }

  lemma {:induction false} RankOfNew(n: nat)
    ensures WorkersRank(Repeat(Fetching, n)) == 4 * n
  {
    if n > 0 {
      assert Repeat(Fetching, n)[1..] == Repeat(Fetching, n - 1);
      RankOfNew(n - 1);
    }
  }

  lemma {:induction false} RankOfFinished(ws: seq<Worker>)
    requires forall i :: 0 <= i < |ws| ==> ws[i] == Finished
    ensures WorkersRank(ws) == 0
  {
    if ws != [] { RankOfFinished(ws[1..]); }
  }

  /** Every step of a save under way brings its end closer. */
  lemma StepDescends(s: State, step: Step)
    requires Inv(s) && Do(s, step).Some? && !step.Claim?
    ensures Rank(Do(s, step).value) < Rank(s)
  {
    var t := Do(s, step).value;
    match step
    case Advance => OwnerDescends(s);
    case Fetch(i, _) => ActiveWorkerMeansRunning(s, i); RankAfter(s.workers, i, t.workers[i]);
    case Write(i) => ActiveWorkerMeansRunning(s, i); RankAfter(s.workers, i, t.workers[i]);
    case Decrement(i) => ActiveWorkerMeansRunning(s, i); RankAfter(s.workers, i, t.workers[i]);
    case Clear(i) => ActiveWorkerMeansRunning(s, i); RankAfter(s.workers, i, t.workers[i]);
  }

  lemma OwnerDescends(s: State)
    requires Inv(s) && OwnerStep(s).Some?
    ensures Rank(OwnerStep(s).value) < Rank(s)
  {
    if s.phase.Placed? { RankOfNew(|s.machines|); }
    if s.phase.Saved? { DoneMeansComplete(s); RankOfFinished(s.workers); }
  }

  /** The save never gets stuck: until the flag is free some step is enabled. */
  lemma NeverStuck(s: State) returns (step: Step)
    requires Inv(s) && s.saving
    ensures !step.Claim? && Do(s, step).Some?
  {
    step := Advance;
    if s.phase.Watching? && s.loading {
      AllFinished(s.workers);
      var i: nat :| i < |s.workers| && s.workers[i] != Finished;
      match s.workers[i]
      case Fetching => step := Fetch(i, None);
      case Writing(_) => step := Write(i);
      case Decrementing => step := Decrement(i);
      case Clearing => step := Clear(i);
    }
  }

  /** From every reachable state the save can be driven to its end in at most `Rank` steps. */
  lemma {:induction false} SaveCompletes(s: State) returns (steps: seq<Step>)
    requires Inv(s)
    ensures |steps| <= Rank(s) && Inv(After(s, steps)) && !After(s, steps).saving
    decreases Rank(s)
  {
    steps := [];
    if s.saving {
      var step := NeverStuck(s);
      StepKeepsInv(s, step);
      StepDescends(s, step);
      var rest := SaveCompletes(Do(s, step).value);
      steps := [step] + rest;
      assert steps[1..] == rest;
    }
  }
}
