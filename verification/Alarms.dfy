/**
 Alarm bookkeeping: the alarms table, the in-memory set of active alarms, and their synchronisation
 with the parsed conditions, including a crash between any two statements.
 */
module Alarms {
  import opened Text
  import opened StreamParsing

  // ---- the table -----------------------------------------------------------

  /** Primary key of the alarms table. */
  datatype Key = Key(machine: string, item: string, first: int)

  datatype Row = Row(kind: string, state: string, last: int, end: Option<int>, active: bool)

  type Table = map<Key, Row>

  predicate ActiveRow(t: Table, k: Key, m: string, i: string) {
    k in t && t[k].active && k.machine == m && k.item == i
  }

  predicate HasActive(t: Table, m: string, i: string) { exists k :: k in t && ActiveRow(t, k, m, i) }

  /** UPDATE ... SET last_ts, state, item_type WHERE machine, item_id AND active=1. */
  function Updated(t: Table, m: string, i: string, kind: string, state: string, now: int): Table {
    map k | k in t :: if ActiveRow(t, k, m, i) then t[k].(last := now, state := state, kind := kind) else t[k]
  }

  /** INSERT of a new active row; an existing primary key makes the statement fail. */
  function Inserted(t: Table, m: string, i: string, kind: string, state: string, now: int): Table {
    if Key(m, i, now) in t then t else t[Key(m, i, now) := Row(kind, state, now, None, true)]
  }

  /** UPDATE ... SET active=0, end_ts, last_ts WHERE machine, item_id AND active=1. */
  function Cleared(t: Table, m: string, i: string, now: int): Table {
    map k | k in t :: if ActiveRow(t, k, m, i) then t[k].(active := false, end := Some(now), last := now) else t[k]
  }

  /** DELETE WHERE active=0 AND end_ts IS NOT NULL AND end_ts < cutoff. */
  function Pruned(t: Table, cutoff: int): Table {
    map k | k in t && (t[k].active || t[k].end.None? || t[k].end.value >= cutoff) :: t[k]
  }

  function Upserted(t: Table, m: string, i: string, kind: string, state: string, now: int): Table {
    if HasActive(t, m, i) then Updated(t, m, i, kind, state, now) else Inserted(t, m, i, kind, state, now)
  }

  /** Statements an upsert needs: a row that is not active is inserted after the vain update. */
  function UpsertCost(t: Table, m: string, i: string): nat { if HasActive(t, m, i) then 1 else 2 }

  // ---- the shape of the history --------------------------------------------

  /** Two different rows of one alarm item. */
  predicate Earlier(a: Key, b: Key) { a.machine == b.machine && a.item == b.item && a.first < b.first }

  predicate RowShape(k: Key, r: Row, clock: int) {
    && k.first <= r.last <= clock
    && (if r.active then r.end == None else r.end == Some(r.last))
  }

  /**
   Rows of one item follow one another, touching at end points at most; only the latest may be
   active; closed rows end when they were last seen; nothing lies in the future.
   */
  ghost predicate Shape(t: Table, clock: int) {
    && (forall k :: k in t ==> RowShape(k, t[k], clock))
    && (forall a, b :: a in t && b in t && Earlier(a, b) ==> !t[a].active && t[a].last <= b.first)
  }

  lemma OneActive(t: Table, clock: int, a: Key, b: Key)
    requires Shape(t, clock) && a in t && b in t && t[a].active && t[b].active
    requires a.machine == b.machine && a.item == b.item
    ensures a == b
  {
    assert !Earlier(a, b) && !Earlier(b, a);
  }

  lemma UpdatedShape(t: Table, clock: int, m: string, i: string, kind: string, state: string, now: int)
    requires Shape(t, clock) && clock <= now
    ensures Shape(Updated(t, m, i, kind, state, now), now)
  {
    var u := Updated(t, m, i, kind, state, now);
    forall a, b | a in u && b in u && Earlier(a, b) ensures !u[a].active && u[a].last <= b.first {
      assert !t[a].active && t[a].last <= b.first;
    }
  }

  lemma InsertedShape(t: Table, clock: int, m: string, i: string, kind: string, state: string, now: int)
    requires Shape(t, clock) && clock <= now && !HasActive(t, m, i)
    ensures Shape(Inserted(t, m, i, kind, state, now), now)
  {
    var u := Inserted(t, m, i, kind, state, now);
    forall k | k in t ensures k.first <= now && t[k].last <= now {
      assert RowShape(k, t[k], clock);
    }
    forall a, b | a in u && b in u && Earlier(a, b) ensures !u[a].active && u[a].last <= b.first {
      if a in t && b !in t {
        assert !ActiveRow(t, a, m, i);
      }
    }
  }

  lemma ClearedShape(t: Table, clock: int, m: string, i: string, now: int)
    requires Shape(t, clock) && clock <= now
    ensures Shape(Cleared(t, m, i, now), now)
  {
    var u := Cleared(t, m, i, now);
    forall a, b | a in u && b in u && Earlier(a, b) ensures !u[a].active && u[a].last <= b.first {
      assert !t[a].active && t[a].last <= b.first;
    }
  }

  /** Pruning keeps the shape and every active row, unchanged. */
  lemma PrunedKeepsActive(t: Table, clock: int, cutoff: int)
    requires Shape(t, clock)
    ensures Shape(Pruned(t, cutoff), clock)
    ensures forall k :: k in t && t[k].active ==> k in Pruned(t, cutoff) && Pruned(t, cutoff)[k] == t[k]
    ensures forall k :: k in Pruned(t, cutoff) ==> k in t && Pruned(t, cutoff)[k] == t[k]
    ensures forall k :: k in t ==> (k !in Pruned(t, cutoff) <==> !t[k].active && t[k].last < cutoff)
  {
    forall k | k in t ensures k !in Pruned(t, cutoff) <==> !t[k].active && t[k].last < cutoff {
      assert RowShape(k, t[k], clock);
    }
  }

  // ---- what one statement does to the set of active alarms -----------------

  /** No row disappears or changes its first time stamp, and closed rows stay as they are. */
  ghost predicate Kept(t: Table, u: Table) {
    forall k :: k in t ==> k in u && (!t[k].active ==> u[k] == t[k])
  }

  /** Active rows of one item stay active. */
  ghost predicate StaysActive(t: Table, u: Table, m: string, i: string) {
    forall k :: ActiveRow(t, k, m, i) ==> ActiveRow(u, k, m, i)
  }

  lemma UpsertEffect(t: Table, m: string, i: string, kind: string, state: string, now: int, m': string, i': string)
    ensures var u := Upserted(t, m, i, kind, state, now);
      && Kept(t, u) && StaysActive(t, u, m', i')
      && (HasActive(u, m', i') <==>
            HasActive(t, m', i') || (m' == m && i' == i && Key(m, i, now) !in t))
      && (forall k :: k in u && k !in t ==> k == Key(m, i, now))
  {
    var u := Upserted(t, m, i, kind, state, now);
    assert forall k :: ActiveRow(t, k, m', i') ==> ActiveRow(u, k, m', i');
    if HasActive(t, m, i) {
      assert forall k :: ActiveRow(u, k, m', i') ==> ActiveRow(t, k, m', i');
    } else if Key(m, i, now) !in t {
      assert ActiveRow(u, Key(m, i, now), m, i);
      assert forall k :: ActiveRow(u, k, m', i') ==> ActiveRow(t, k, m', i') || k == Key(m, i, now);
    }
  }

  lemma ClearEffect(t: Table, m: string, i: string, now: int, m': string, i': string)
    ensures var u := Cleared(t, m, i, now);
      && Kept(t, u) && u.Keys == t.Keys
      && (m' != m || i' != i ==> StaysActive(t, u, m', i'))
      && (HasActive(u, m', i') <==> HasActive(t, m', i') && (m' != m || i' != i))
  {
    var u := Cleared(t, m, i, now);
    assert forall k :: ActiveRow(u, k, m', i') <==> ActiveRow(t, k, m', i') && (m' != m || i' != i);
  }

  // ---- the database object -------------------------------------------------

  class AlarmDb {
    var rows: Table
    /** Statements that still execute; at zero the process is gone. */
    var left: nat
    var down: bool

    constructor (rows: Table, left: nat)
      ensures this.rows == rows && this.left == left && !down
    { this.rows, this.left, down := rows, left, false; }

    /** Whether the next statement executes. */
    method Tick() returns (up: bool)
      modifies `left, `down
      ensures up <==> !down
      ensures up <==> !old(down) && old(left) > 0
      ensures up ==> left == old(left) - 1
    {
      if down || left == 0 { down := true; return false; }
      left := left - 1;
      return true;
    }

    method AlarmUpsert(m: string, i: string, kind: string, state: string, now: int)
      modifies this
      ensures !down <==> !old(down) && old(left) >= UpsertCost(old(rows), m, i)
      ensures !down ==> left == old(left) - UpsertCost(old(rows), m, i)
      ensures !down ==> rows == Upserted(old(rows), m, i, kind, state, now)
      ensures down ==> rows == old(rows)
    {
      var up := Tick();
      if !up { return; }
      var affected := HasActive(rows, m, i);
      if affected {
        rows := Updated(rows, m, i, kind, state, now);
        return;
      }
      up := Tick();
      if !up { return; }
      rows := Inserted(rows, m, i, kind, state, now);
    }

    method AlarmClear(m: string, i: string, now: int)
      modifies this
      ensures !down <==> !old(down) && old(left) > 0
      ensures !down ==> left == old(left) - 1
      ensures rows == if down then old(rows) else Cleared(old(rows), m, i, now)
    {
      var up := Tick();
      if up { rows := Cleared(rows, m, i, now); }
    }

    method PruneAlarms(cutoff: int)
      modifies this
      ensures !down <==> !old(down) && old(left) > 0
      ensures !down ==> left == old(left) - 1
      ensures rows == if down then old(rows) else Pruned(old(rows), cutoff)
    {
      var up := Tick();
      if up { rows := Pruned(rows, cutoff); }
    }
  }

  // ---- synchronisation -----------------------------------------------------

  predicate CondActive(state: string) {
    state == "WARNING" || state == "FAULT" || state == "FAILED" || state == "ESTOP"
  }

  /** The parsed states say that alarm `i` of machine `m` is on. */
  predicate Wanted(states: StateMap, m: string, i: string) {
    m in states && i in states[m].conds && CondActive(states[m].conds[i].state)
  }

  type Memory = map<string, set<string>>

  predicate InMemory(mem: Memory, m: string, i: string) { m in mem && i in mem[m] }

  /** Every machine is filed under its own name. */
  predicate WellNamed(states: StateMap) { forall m :: m in states ==> states[m].name == m && states[m].seen }

  /** An alarm that cannot be opened: no active row, and its key is taken by a closed one. */
  predicate Blocked(t: Table, m: string, i: string, now: int) {
    !HasActive(t, m, i) && Key(m, i, now) in t
  }

  // ---- what a synchronisation costs ----------------------------------------

  type Items = set<(string, string)>

  /** Statements needed to write the given alarms. */
  ghost function RaiseCost(t: Table, ps: Items): nat { |ps| + |Fresh(t, ps)| }

  ghost function Fresh(t: Table, ps: Items): Items { set p | p in ps && !HasActive(t, p.0, p.1) }

  lemma RaiseCostAdd(t: Table, ps: Items, m: string, i: string)
    requires (m, i) !in ps
    ensures RaiseCost(t, ps + {(m, i)}) == RaiseCost(t, ps) + UpsertCost(t, m, i)
  {
    assert Fresh(t, ps + {(m, i)}) == Fresh(t, ps) + if HasActive(t, m, i) then {} else {(m, i)};
  }

  lemma SizeGrows<T>(a: set<T>, b: set<T>)
    requires a <= b
    ensures |a| <= |b|
  {
    assert b == a + (b - a);
  }

  lemma RaiseCostGrows(t: Table, ps: Items, all: Items)
    requires ps <= all
    ensures RaiseCost(t, ps) <= RaiseCost(t, all) <= 2 * |all|
  {
    SizeGrows(ps, all);
    SizeGrows(Fresh(t, ps), Fresh(t, all));
    SizeGrows(Fresh(t, all), all);
  }

  /** The alarms that are on. */
  ghost function WantedItems(states: StateMap): (ps: Items)
    ensures forall m, i :: (m, i) in ps <==> Wanted(states, m, i)
  {
    set m, i | m in states && i in states[m].conds && CondActive(states[m].conds[i].state) :: (m, i)
  }

  /** The alarms in memory. */
  ghost function MemoryItems(mem: Memory): (ps: Items)
    ensures forall m, i :: (m, i) in ps <==> InMemory(mem, m, i)
  {
    set m, i | m in mem && i in mem[m] :: (m, i)
  }

  /** The alarms that are remembered and off. */
  ghost function Stale(states: StateMap, mem: Memory): Items { MemoryItems(mem) - WantedItems(states) }

  /** Statements a synchronisation needs: writing what is on, closing what is remembered and off. */
  ghost function SyncCost(t: Table, states: StateMap, mem: Memory): nat {
    RaiseCost(t, WantedItems(states)) + |Stale(states, mem)|
  }

  /** Of `left0` statements `spent` have executed; a process that died would have needed fewer than `total`. */
  predicate Paid(left: nat, down: bool, left0: nat, spent: nat, total: nat) {
    if down then left0 < total else left0 == left + spent
  }

  /** How far raising has got: the alarms in `done` have been written. */
  ghost predicate Raised(t0: Table, t: Table, done: Items, now: int) {
    && Kept(t0, t)
    && (forall m, i :: StaysActive(t0, t, m, i))
    && (forall m, i :: HasActive(t, m, i) <==> HasActive(t0, m, i) || ((m, i) in done && !Blocked(t0, m, i, now)))
    && (forall k :: k in t && k !in t0 ==> k.first == now && (k.machine, k.item) in done)
  }

  lemma RaiseOneItem(t0: Table, t: Table, done: Items, m: string, i: string, kind: string,
                     state: string,
                     now: int, m': string, i': string)
    requires Raised(t0, t, done, now)
    ensures var u := Upserted(t, m, i, kind, state, now);
      && StaysActive(t0, u, m', i')
      && (HasActive(u, m', i') <==>
            HasActive(t0, m', i') || ((m', i') in done + {(m, i)} && !Blocked(t0, m', i', now)))
  {
    var u := Upserted(t, m, i, kind, state, now);
    UpsertEffect(t, m, i, kind, state, now, m', i');
    assert StaysActive(t0, t, m', i');
    if (m', i') == (m, i) && (m, i) !in done {
      assert Key(m, i, now) in t <==> Key(m, i, now) in t0;
    }
  }

  lemma RaiseOne(t0: Table, t: Table, done: Items, m: string, i: string, kind: string, state: string,
                 now: int)
    requires Raised(t0, t, done, now)
    ensures Raised(t0, Upserted(t, m, i, kind, state, now), done + {(m, i)}, now)
  {
    var u := Upserted(t, m, i, kind, state, now);
    forall m', i' ensures StaysActive(t0, u, m', i')
      ensures HasActive(u, m', i') <==>
              HasActive(t0, m', i') || ((m', i') in done + {(m, i)} && !Blocked(t0, m', i', now))
    {
      RaiseOneItem(t0, t, done, m, i, kind, state, now, m', i');
    }
    UpsertEffect(t, m, i, kind, state, now, m, i);
  }

  lemma ShapeLater(t: Table, clock: int, now: int)
    requires Shape(t, clock) && clock <= now
    ensures Shape(t, now)
  {
  }

  lemma UpsertShape(t: Table, clock: int, m: string, i: string, kind: string, state: string, now: int)
    requires Shape(t, clock) && clock <= now
    ensures Shape(Upserted(t, m, i, kind, state, now), now)
  {
    if HasActive(t, m, i) { UpdatedShape(t, clock, m, i, kind, state, now); }
    else { InsertedShape(t, clock, m, i, kind, state, now); }
  }

  predicate On(s: MachineState, i: string) { i in s.conds && CondActive(s.conds[i].state) }

  /** `done` has grown by active conditions of `s`; unless the process died only those in `todo` are missing. */
  ghost predicate Grown(done: Items, done': Items, s: MachineState, todo: set<string>,
                        down: bool) {
    && done <= done'
    && (forall p :: p in done' ==> p in done || (p.0 == s.name && On(s, p.1)))
    && (!down ==> forall i :: On(s, i) ==> i in todo || (s.name, i) in done')
  }

  lemma GrownStep(done: Items, before: Items, after: Items,
                  s: MachineState, todo: set<string>, i: string, down: bool)
    requires On(s, i) && after == (if down then before else before + {(s.name, i)})
    requires Grown(done, before, s, todo, down)
    ensures Grown(done, after, s, todo - {i}, down)
  {
  }

  /**
   What a phase works with: the table and the alarms it starts from, the statements left before the
   synchronisation, those it has spent before this phase, and those it needs in total.
   */
  datatype Plan = Plan(t0: Table, all: Items, left0: nat, spent: nat, total: nat, states: StateMap)

  ghost predicate Raising(db: AlarmDb, plan: Plan, done: Items, now: int)
    reads db
  {
    RaisingAt(db.rows, db.left, db.down, plan, done, now)
  }

  ghost predicate RaisingAt(t: Table, left: nat, down: bool, plan: Plan, done: Items, now: int) {
    && Shape(t, now) && Raised(plan.t0, t, done, now) && Wrote(plan.t0, t, done, plan.states, now)
    && done <= plan.all
    && plan.spent + RaiseCost(plan.t0, plan.all) <= plan.total
    && Paid(left, down, plan.left0, plan.spent + RaiseCost(plan.t0, done), plan.total)
  }

  lemma RaisePays(plan: Plan, t: Table, done: Items, m: string, i: string, now: int)
    requires Raised(plan.t0, t, done, now) && (m, i) !in done && done + {(m, i)} <= plan.all
    ensures UpsertCost(t, m, i) == UpsertCost(plan.t0, m, i)
    ensures RaiseCost(plan.t0, done + {(m, i)}) == RaiseCost(plan.t0, done) + UpsertCost(t, m, i)
    ensures RaiseCost(plan.t0, done) + UpsertCost(t, m, i) <= RaiseCost(plan.t0, plan.all)
  {
    RaiseCostAdd(plan.t0, done, m, i);
    RaiseCostGrows(plan.t0, done + {(m, i)}, plan.all);
  }

  method RaiseItem(db: AlarmDb, m: string, i: string, c: Cond, now: int, ghost plan: Plan, ghost done: Items)
    returns (ghost done': Items)
    requires Raising(db, plan, done, now) && (m, i) in plan.all - done && CondOf(plan.states, m, i) == Some(c)
    requires CondActive(c.state)
    modifies db
    ensures Raising(db, plan, done', now)
    ensures old(db.down) ==> db.down
    ensures done' == if db.down then done else done + {(m, i)}
  {
    done' := done;
    ghost var t0, before := plan.t0, db.rows;
    RaisePays(plan, before, done, m, i, now);
    db.AlarmUpsert(m, i, c.kind, c.state, now);
    if !db.down {
      RaiseOne(t0, before, done, m, i, c.kind, c.state, now);
      WroteOne(t0, before, done, plan.states, m, i, c, now);
      UpsertShape(before, now, m, i, c.kind, c.state, now);
      done' := done + {(m, i)};
    }
  }

  /** Raises the active conditions of one machine, in any order; `done` grows by what got written. */
  method RaiseMachine(db: AlarmDb, s: MachineState, mem: Memory, now: int, ghost plan: Plan,
                      ghost done: Items)
    returns (mem': Memory, ghost done': Items)
    requires Raising(db, plan, done, now) && forall i :: On(s, i) ==> (s.name, i) in plan.all - done
    requires s.name in plan.states && plan.states[s.name] == s
    modifies db
    ensures Raising(db, plan, done', now)
    ensures old(db.down) ==> db.down
    ensures Grown(done, done', s, {}, db.down)
    ensures forall m, i :: InMemory(mem', m, i) <==> InMemory(mem, m, i) || (m == s.name && On(s, i))
  {
    var items := if s.name in mem then mem[s.name] else {};
    var todo := set i | i in s.conds && CondActive(s.conds[i].state);
    items, done' := RaiseItems(db, s, items, todo, now, plan, done);
    mem' := mem[s.name := items];
  }

  /** The items still to be written are planned and not written yet. */
  ghost predicate Ahead(m: string, todo: set<string>, plan: Plan, done: Items) {
    forall i :: i in todo ==> (m, i) in plan.all - done
  }

  /** One step of the loop over a machine's conditions; `done` is what had been written before it. */
  method RaiseNext(db: AlarmDb, s: MachineState, i: string, now: int, ghost plan: Plan,
                   ghost done: Items, ghost sofar: Items, ghost todo: set<string>)
    returns (ghost done': Items)
    requires Raising(db, plan, sofar, now) && Ahead(s.name, todo, plan, sofar)
    requires i in todo && On(s, i) && Grown(done, sofar, s, todo, db.down)
    requires s.name in plan.states && plan.states[s.name] == s
    modifies db
    ensures Raising(db, plan, done', now) && Ahead(s.name, todo - {i}, plan, done')
    ensures old(db.down) ==> db.down
    ensures Grown(done, done', s, todo - {i}, db.down)
  {
    done' := RaiseItem(db, s.name, i, s.conds[i], now, plan, sofar);
    GrownStep(done, sofar, done', s, todo, i, db.down);
  }

  lemma TakeOut(had: set<string>, all: set<string>, todo: set<string>, i: string)
    requires todo <= all && i in todo
    ensures had + (all - todo) + {i} == had + (all - (todo - {i})) && |todo - {i}| < |todo|
  {
  }

  method RaiseItems(db: AlarmDb, s: MachineState, had: set<string>, all: set<string>, now: int, ghost plan: Plan,
                    ghost done: Items)
    returns (items: set<string>, ghost done': Items)
    requires Raising(db, plan, done, now) && forall i :: On(s, i) ==> (s.name, i) in plan.all - done
    requires forall i :: i in all <==> On(s, i)
    requires s.name in plan.states && plan.states[s.name] == s
    modifies db
    ensures Raising(db, plan, done', now)
    ensures old(db.down) ==> db.down
    ensures Grown(done, done', s, {}, db.down)
    ensures items == had + all
  {
    var todo := all;
    items, done' := had, done;
    assert had + (all - todo) == had;
    while todo != {}
      invariant todo <= all && Same(items, had + (all - todo))
      invariant Raising(db, plan, done', now) && Ahead(s.name, todo, plan, done')
      invariant old(db.down) ==> db.down
      invariant Grown(done, done', s, todo, db.down)
      decreases |todo|
    {
      var i :| i in todo;
      done' := RaiseNext(db, s, i, now, plan, done, done', todo);
      TakeOut(had, all, todo, i);
      items := items + {i};
      todo := todo - {i};
    }
  }

  /** What has been written or closed, apart from the machines in `todo`; nothing is missing unless the process died. */
  ghost predicate Handled(done: Items, all: Items, todo: set<string>, down: bool) {
    && (forall p :: p in done ==> p.0 !in todo)
    && (!down ==> forall p :: p in all ==> p.0 in todo || p in done)
  }

  /** How far the memory has been filled. */
  ghost predicate Filled(mem: Memory, mem': Memory, states: StateMap, todo: set<string>) {
    forall m, i :: InMemory(mem', m, i) <==> InMemory(mem, m, i) || (Wanted(states, m, i) && m !in todo)
  }

  method RaiseAll(db: AlarmDb, states: StateMap, mem: Memory, now: int, ghost total: nat)
    returns (mem': Memory, ghost done: Items)
    requires WellNamed(states) && Shape(db.rows, now) && !db.down
    requires RaiseCost(db.rows, WantedItems(states)) <= total
    modifies db
    ensures Raising(db, Plan(old(db.rows), WantedItems(states), old(db.left), 0, total, states), done, now)
    ensures !db.down ==> Same(done, WantedItems(states))
    ensures Filled(mem, mem', states, {})
  {
    mem', done := mem, {};
    ghost var plan := Plan(db.rows, WantedItems(states), db.left, 0, total, states);
    NothingRaised(db.rows, db.left, plan, now);
    var todo := states.Keys;
    while todo != {}
      invariant todo <= states.Keys && Raising(db, plan, done, now)
      invariant Handled(done, plan.all, todo, db.down) && Filled(mem, mem', states, todo)
      decreases |todo|
    {
      var name :| name in todo;
      mem', done := RaiseNamed(db, states, name, mem, mem', now, plan, done, todo);
      Smaller(todo, name);
      todo := todo - {name};
    }
    AllHandled(done, plan.all, db.down);
  }

  lemma NothingRaised(t: Table, left: nat, plan: Plan, now: int)
    requires Shape(t, now) && plan.t0 == t && plan.left0 == left && plan.spent == 0
    requires RaiseCost(t, plan.all) <= plan.total
    ensures RaisingAt(t, left, false, plan, {}, now)
  {
    assert Fresh(t, {}) == {};
  }

  lemma AllHandled(done: Items, all: Items, down: bool)
    requires Handled(done, all, {}, down) && done <= all
    ensures !down ==> Same(done, all)
  {
    if !down { assert done == all; }
  }

  lemma Smaller(todo: set<string>, m: string)
    requires m in todo
    ensures |todo - {m}| < |todo|
  {
  }

  /** One machine of the raising loop. */
  method RaiseNamed(db: AlarmDb, states: StateMap, m: string, ghost mem: Memory, current: Memory, now: int,
                    ghost plan: Plan, ghost done: Items, ghost todo: set<string>)
    returns (mem': Memory, ghost done': Items)
    requires WellNamed(states) && Raising(db, plan, done, now) && Same(plan.all, WantedItems(states))
    requires Same(plan.states, states)
    requires m in todo && todo <= states.Keys
    requires Handled(done, plan.all, todo, db.down) && Filled(mem, current, states, todo)
    modifies db
    ensures Raising(db, plan, done', now)
    ensures Handled(done', plan.all, todo - {m}, db.down) && Filled(mem, mem', states, todo - {m})
  {
    ghost var wasDown := db.down;
    assert forall i :: On(states[m], i) <==> Wanted(states, m, i);
    mem', done' := RaiseMachine(db, states[m], current, now, plan, done);
    RaisedMachine(done, done', plan.all, todo, states[m], wasDown, db.down);
    FilledStep(mem, current, mem', states, todo, m);
  }

  lemma RaisedMachine(done: Items, done': Items, all: Items, todo: set<string>, s: MachineState,
                      wasDown: bool, down: bool)
    requires Handled(done, all, todo, wasDown) && (wasDown ==> down) && Grown(done, done', s, {}, down)
    requires forall i :: (s.name, i) in all ==> On(s, i)
    ensures Handled(done', all, todo - {s.name}, down)
  {
  }

  lemma FilledStep(mem: Memory, current: Memory, mem': Memory, states: StateMap, todo: set<string>, m: string)
    requires Filled(mem, current, states, todo) && m in todo
    requires forall m', i :: InMemory(mem', m', i) <==> InMemory(current, m', i) || (m' == m && Wanted(states, m, i))
    ensures Filled(mem, mem', states, todo - {m})
  {
  }

  /** How far lowering has got: the alarms in `off` have been closed, all others are as they were. */
  ghost predicate Lowered(t0: Table, t: Table, off: Items) {
    && Kept(t0, t) && t.Keys == t0.Keys
    && (forall m, i :: (m, i) !in off ==> StaysActive(t0, t, m, i))
    && (forall m, i :: HasActive(t, m, i) <==> HasActive(t0, m, i) && (m, i) !in off)
  }

  lemma LowerOne(t0: Table, t: Table, off: Items, m: string, i: string, now: int)
    requires Lowered(t0, t, off)
    ensures Lowered(t0, Cleared(t, m, i, now), off + {(m, i)})
  {
    var u := Cleared(t, m, i, now);
    forall m', i'
      ensures (m', i') !in off + {(m, i)} ==> StaysActive(t0, u, m', i')
      ensures HasActive(u, m', i') <==> HasActive(t0, m', i') && (m', i') !in off + {(m, i)}
    {
      ClearEffect(t, m, i, now, m', i');
    }
    ClearEffect(t, m, i, now, m, i);
  }

  ghost predicate Lowering(db: AlarmDb, plan: Plan, off: Items, now: int)
    reads db
  {
    LoweringAt(db.rows, db.left, db.down, plan, off, now)
  }

  ghost predicate LoweringAt(t: Table, left: nat, down: bool, plan: Plan, off: Items, now: int) {
    && Shape(t, now) && Lowered(plan.t0, t, off) && ClosedBy(plan.t0, t, off, now) && off <= plan.all
    && plan.spent + |plan.all| <= plan.total
    && Paid(left, down, plan.left0, plan.spent + |off|, plan.total)
  }

  method LowerItem(db: AlarmDb, m: string, i: string, now: int, ghost plan: Plan, ghost off: Items)
    returns (ghost off': Items)
    requires Lowering(db, plan, off, now) && (m, i) in plan.all - off
    modifies db
    ensures Lowering(db, plan, off', now)
    ensures old(db.down) ==> db.down
    ensures off' == if db.down then off else off + {(m, i)}
  {
    off' := off;
    ghost var before := db.rows;
    SizeGrows(off + {(m, i)}, plan.all);
    db.AlarmClear(m, i, now);
    if !db.down {
      LowerOne(plan.t0, before, off, m, i, now);
      ClosedOne(plan.t0, before, off, m, i, now);
      ClearedShape(before, now, m, i, now);
      off' := off + {(m, i)};
    }
  }

  /** Closes the alarms of one machine that are no longer on; returns the items that stay. */
  method LowerMachine(db: AlarmDb, states: StateMap, m: string, items: set<string>, now: int,
                      ghost plan: Plan, ghost off: Items)
    returns (stay: set<string>, ghost off': Items)
    requires Lowering(db, plan, off, now)
    requires forall i :: i in items && !Wanted(states, m, i) ==> (m, i) in plan.all - off
    modifies db
    ensures Lowering(db, plan, off', now)
    ensures old(db.down) ==> db.down
    ensures off <= off' && forall p :: p in off' ==> p in off || (p.0 == m && !Wanted(states, m, p.1))
    ensures !db.down ==> forall i :: i in items && !Wanted(states, m, i) ==> (m, i) in off'
    ensures forall i :: i in stay <==> i in items && Wanted(states, m, i)
  {
    stay, off' := items, off;
    var todo := items;
    while todo != {}
      invariant todo <= items
      invariant Lowering(db, plan, off', now)
      invariant forall i :: i in todo && !Wanted(states, m, i) ==> (m, i) !in off'
      invariant old(db.down) ==> db.down
      invariant off <= off' && forall p :: p in off' ==> p in off || (p.0 == m && !Wanted(states, m, p.1))
      invariant !db.down ==> forall i :: i in items && !Wanted(states, m, i) ==> i in todo || (m, i) in off'
      invariant forall i :: i in stay <==> i in items && (i in todo || Wanted(states, m, i))
      decreases |todo|
    {
      var i :| i in todo;
      if !Wanted(states, m, i) {
        off' := LowerItem(db, m, i, now, plan, off');
        stay := stay - {i};
      }
      todo := todo - {i};
    }
  }

  /** How far the memory has been gone through: the machines in `todo` are as they were. */
  ghost predicate Purged(mem: Memory, mem': Memory, states: StateMap, todo: set<string>) {
    && todo <= mem.Keys == mem'.Keys
    && (forall m, i :: InMemory(mem', m, i) <==> InMemory(mem, m, i) && (m in todo || Wanted(states, m, i)))
    && (forall m :: m in todo ==> mem'[m] == mem[m])
  }

  lemma PurgeStep(mem: Memory, mem': Memory, states: StateMap, todo: set<string>, m: string, stay: set<string>)
    requires Purged(mem, mem', states, todo) && m in todo
    requires forall i :: i in stay <==> i in mem[m] && Wanted(states, m, i)
    ensures Purged(mem, mem'[m := stay], states, todo - {m})
  {
    forall m', i
      ensures InMemory(mem'[m := stay], m', i) <==>
              InMemory(mem, m', i) && (m' in todo - {m} || Wanted(states, m', i))
    {
      assert InMemory(mem', m', i) <==> InMemory(mem, m', i) && (m' in todo || Wanted(states, m', i));
    }
  }

  lemma LoweredMachine(off: Items, off': Items, all: Items, todo: set<string>, m: string, wasDown: bool, down: bool)
    requires Handled(off, all, todo, wasDown) && (wasDown ==> down)
    requires off <= off' && forall p :: p in off' ==> p in off || p.0 == m
    requires !down ==> forall p :: p in all && p.0 == m ==> p in off'
    ensures Handled(off', all, todo - {m}, down)
  {
  }

  method LowerAll(db: AlarmDb, states: StateMap, mem: Memory, now: int, ghost plan: Plan)
    returns (mem': Memory, ghost off: Items)
    requires Same(plan.all, Stale(states, mem)) && Lowering(db, plan, {}, now)
    modifies db
    ensures Lowering(db, plan, off, now)
    ensures old(db.down) ==> db.down
    ensures !db.down ==> Same(off, plan.all)
    ensures Purged(mem, mem', states, {})
  {
    mem', off := mem, {};
    var todo := mem.Keys;
    while todo != {}
      invariant Lowering(db, plan, off, now) && Handled(off, plan.all, todo, db.down)
      invariant old(db.down) ==> db.down
      invariant Purged(mem, mem', states, todo)
      decreases |todo|
    {
      var name :| name in todo;
      mem', off := LowerNext(db, states, mem, mem', name, now, plan, off, todo);
      Smaller(todo, name);
      todo := todo - {name};
    }
    AllHandled(off, plan.all, db.down);
  }

  method LowerNext(db: AlarmDb, states: StateMap, ghost mem: Memory, current: Memory, m: string, now: int,
                   ghost plan: Plan, ghost off: Items, ghost todo: set<string>)
    returns (mem': Memory, ghost off': Items)
    requires Same(plan.all, Stale(states, mem)) && Lowering(db, plan, off, now)
    requires m in todo && Purged(mem, current, states, todo) && Handled(off, plan.all, todo, db.down)
    modifies db
    ensures Lowering(db, plan, off', now) && Handled(off', plan.all, todo - {m}, db.down)
    ensures old(db.down) ==> db.down
    ensures Purged(mem, mem', states, todo - {m})
  {
    var stay;
    ghost var wasDown := db.down;
    assert forall i :: i in mem[m] <==> InMemory(mem, m, i);
    stay, off' := LowerMachine(db, states, m, current[m], now, plan, off);
    mem' := current[m := stay];
    PurgeStep(mem, current, states, todo, m, stay);
    LoweredMachine(off, off', plan.all, todo, m, wasDown, db.down);
  }

  /** The memory knows every alarm that is active in the table. */
  ghost predicate Remembers(mem: Memory, t: Table) { forall m, i :: HasActive(t, m, i) ==> InMemory(mem, m, i) }

  /**
   What a synchronisation guarantees whether or not it was cut short: no first time stamp is lost,
   closed rows stay closed, an alarm that is on stays open, and only alarms that are on get opened.
   */
  ghost predicate SafeSync(t0: Table, t: Table, states: StateMap) {
    && Kept(t0, t)
    && (forall m, i :: Wanted(states, m, i) ==> StaysActive(t0, t, m, i))
    && (forall m, i :: HasActive(t, m, i) ==> HasActive(t0, m, i) || Wanted(states, m, i))
  }

  /**
   After a complete synchronisation the active rows are exactly the alarms that are on, except those
   whose key is taken by a row closed in the same second.
   */
  ghost predicate Agreed(t0: Table, t: Table, states: StateMap, now: int) {
    forall m, i :: HasActive(t, m, i) <==> Wanted(states, m, i) && !Blocked(t0, m, i, now)
  }

  /** The row says exactly what the states say about an alarm that is on, and that it was seen now. */
  predicate SaysOn(r: Row, states: StateMap, k: Key, now: int) {
    && Wanted(states, k.machine, k.item)
    && r.kind == states[k.machine].conds[k.item].kind && r.state == states[k.machine].conds[k.item].state
    && r.last == now && r.end == None && r.active
  }

  /** The row was closed now and keeps its type and its last state. */
  predicate ClosedAt(before: Row, r: Row, now: int) {
    r.kind == before.kind && r.state == before.state && r.last == now && r.end == Some(now) && !r.active
  }

  /** A row is as it was, or says that its alarm is on, or was closed because its alarm is off. */
  predicate RowWritten(t0: Table, t: Table, k: Key, states: StateMap, now: int)
    requires k in t
  {
    || (k in t0 && t[k] == t0[k])
    || ((k in t0 || k.first == now) && SaysOn(t[k], states, k, now))
    || (k in t0 && t0[k].active && !Wanted(states, k.machine, k.item) && ClosedAt(t0[k], t[k], now))
  }

  ghost predicate Written(t0: Table, t: Table, states: StateMap, now: int) {
    forall k :: k in t ==> RowWritten(t0, t, k, states, now)
  }

  /** What the rows hold after a complete synchronisation. */
  ghost predicate UpToDate(t0: Table, t: Table, states: StateMap, now: int) {
    && (forall k :: k in t && t[k].active ==> SaysOn(t[k], states, k, now))
    && (forall k :: k in t0 && t0[k].active && !Wanted(states, k.machine, k.item) ==>
          k in t && ClosedAt(t0[k], t[k], now))
  }

  /** What raising has written: the alarms in `done`, as the states have them, and nothing else. */
  ghost predicate Wrote(t0: Table, t: Table, done: Items, states: StateMap, now: int) {
    && (forall k :: k in t0 && (k.machine, k.item) !in done ==> k in t && t[k] == t0[k])
    && (forall k :: k in t && (k.machine, k.item) in done && (k in t0 ==> t0[k].active) ==>
          SaysOn(t[k], states, k, now))
  }

  lemma WroteOne(t0: Table, t: Table, done: Items, states: StateMap, m: string, i: string, c: Cond, now: int)
    requires Shape(t, now) && Raised(t0, t, done, now) && Wrote(t0, t, done, states, now)
    requires CondOf(states, m, i) == Some(c) && CondActive(c.state)
    ensures Wrote(t0, Upserted(t, m, i, c.kind, c.state, now), done + {(m, i)}, states, now)
  {
    var u := Upserted(t, m, i, c.kind, c.state, now);
    forall k | k in u && (k.machine, k.item) in done + {(m, i)} && (k in t0 ==> t0[k].active)
      ensures SaysOn(u[k], states, k, now)
    {
      if k in t {
        assert RowShape(k, t[k], now);
        assert t[k].active ==> (k.machine == m && k.item == i <==> ActiveRow(t, k, m, i));
        if ActiveRow(t, k, m, i) { assert HasActive(t, m, i); }
      }
    }
  }

  /** What closing has done: the active rows of the alarms in `off` were closed, and nothing else happened. */
  ghost predicate ClosedBy(t0: Table, t: Table, off: Items, now: int) {
    && t.Keys == t0.Keys
    && forall k :: k in t0 ==>
         if t0[k].active && (k.machine, k.item) in off then ClosedAt(t0[k], t[k], now) else t[k] == t0[k]
  }

  lemma ClosedOne(t0: Table, t: Table, off: Items, m: string, i: string, now: int)
    requires ClosedBy(t0, t, off, now)
    ensures ClosedBy(t0, Cleared(t, m, i, now), off + {(m, i)}, now)
  {
  }

  function CondOf(states: StateMap, m: string, i: string): Option<Cond> {
    if m in states && i in states[m].conds then Some(states[m].conds[i]) else None
  }

  /**
   One synchronisation.  It runs to its end if and only if the process lives for the statements it needs.
   */
  method SyncAlarms(db: AlarmDb, states: StateMap, mem: Memory, now: int) returns (mem': Memory)
    requires WellNamed(states) && Shape(db.rows, now) && Remembers(mem, db.rows) && !db.down
    modifies db
    ensures Shape(db.rows, now)
    ensures !db.down <==> old(db.left) >= SyncCost(old(db.rows), states, mem)
    ensures !db.down ==> db.left == old(db.left) - SyncCost(old(db.rows), states, mem)
    ensures SafeSync(old(db.rows), db.rows, states) && Written(old(db.rows), db.rows, states, now)
    ensures !db.down ==> Agreed(old(db.rows), db.rows, states, now)
    ensures !db.down ==> UpToDate(old(db.rows), db.rows, states, now)
    ensures !db.down ==> forall m, i :: InMemory(mem', m, i) <==> Wanted(states, m, i)
    ensures !db.down ==> Remembers(mem', db.rows)
  {
    ghost var t0, left0 := db.rows, db.left;
    ghost var ph;
    mem', ph := SyncPhases(db, states, mem, now);
    SyncSafe(t0, ph.mid, db.rows, states, now, ph.done, ph.off);
    SyncWritten(t0, ph.mid, db.rows, states, now, ph.done, ph.off);
    if !db.down {
      SyncAgrees(t0, ph.mid, db.rows, states, mem, now, ph.done, ph.off);
      SyncUpToDate(t0, ph.mid, db.rows, states, mem, now, ph.done, ph.off);
    }
  }

  /** Enough for a synchronisation by a process that remembers at most the alarms in `known`. */
  ghost function SyncBound(states: StateMap, known: Items): nat {
    2 * |WantedItems(states)| + |known - WantedItems(states)|
  }

  lemma SyncWithin(t: Table, states: StateMap, mem: Memory, known: Items)
    requires forall m, i :: InMemory(mem, m, i) ==> (m, i) in known
    ensures SyncCost(t, states, mem) <= SyncBound(states, known)
  {
    RaiseCostGrows(t, WantedItems(states), WantedItems(states));
    SizeGrows(Stale(states, mem), known - WantedItems(states));
  }

  /** How a synchronisation went: raising `done` led to `mid`, closing `off` to the end. */
  datatype Phases = Phases(mid: Table, done: Items, off: Items)

  ghost predicate Went(ph: Phases, t0: Table, left0: nat, t: Table, left: nat, down: bool,
                       states: StateMap, mem: Memory, now: int) {
    && Shape(t, now) && Raised(t0, ph.mid, ph.done, now) && Lowered(ph.mid, t, ph.off)
    && Wrote(t0, ph.mid, ph.done, states, now) && ClosedBy(ph.mid, t, ph.off, now)
    && ph.done <= WantedItems(states) && ph.off <= Stale(states, mem)
    && (!down ==> Same(ph.done, WantedItems(states)) && Same(ph.off, Stale(states, mem)))
    && Paid(left, down, left0, SyncCost(t0, states, mem), SyncCost(t0, states, mem))
  }

  ghost predicate Synchronised(ph: Phases, t0: Table, left0: nat, db: AlarmDb, states: StateMap, mem: Memory, now: int)
    reads db
  {
    Went(ph, t0, left0, db.rows, db.left, db.down, states, mem, now)
  }

  method SyncPhases(db: AlarmDb, states: StateMap, mem: Memory, now: int) returns (mem': Memory, ghost ph: Phases)
    requires WellNamed(states) && Shape(db.rows, now) && !db.down
    modifies db
    ensures Synchronised(ph, old(db.rows), old(db.left), db, states, mem, now)
    ensures forall m, i :: InMemory(mem', m, i) <==> Wanted(states, m, i)
  {
    ghost var t0, left0, cost := db.rows, db.left, SyncCost(db.rows, states, mem);
    var both, rest;
    ghost var done, off;
    both, done := RaiseAll(db, states, mem, now, cost);
    ghost var mid, up := db.rows, !db.down;
    StartLowering(t0, mid, db.left, db.down, left0, done, states, mem, both, now);
    rest, off := LowerAll(db, states, both, now, SecondPlan(t0, mid, left0, states, mem));
    ph := Phases(mid, done, off);
    mem' := rest;
    BothPhases(ph, t0, left0, db.rows, db.left, db.down, up, states, mem, now);
    forall m, i ensures InMemory(mem', m, i) <==> Wanted(states, m, i) {
      assert InMemory(both, m, i) <==> InMemory(mem, m, i) || Wanted(states, m, i);
    }
  }

  ghost function FirstPlan(t0: Table, left0: nat, states: StateMap, mem: Memory): Plan {
    Plan(t0, WantedItems(states), left0, 0, SyncCost(t0, states, mem), states)
  }

  ghost function SecondPlan(t0: Table, mid: Table, left0: nat, states: StateMap, mem: Memory): Plan {
    Plan(mid, Stale(states, mem), left0, RaiseCost(t0, WantedItems(states)), SyncCost(t0, states, mem), states)
  }

  lemma StartLowering(t0: Table, mid: Table, left: nat, down: bool, left0: nat, done: Items,
                      states: StateMap, mem: Memory, both: Memory, now: int)
    requires RaisingAt(mid, left, down, FirstPlan(t0, left0, states, mem), done, now)
    requires !down ==> Same(done, WantedItems(states))
    requires forall m, i :: InMemory(both, m, i) <==> InMemory(mem, m, i) || Wanted(states, m, i)
    ensures LoweringAt(mid, left, down, SecondPlan(t0, mid, left0, states, mem), {}, now)
    ensures Same(Stale(states, both), Stale(states, mem))
  {
    assert Stale(states, both) == Stale(states, mem);
  }

  lemma BothPhases(ph: Phases, t0: Table, left0: nat, t: Table, left: nat, down: bool, up: bool,
                   states: StateMap, mem: Memory, now: int)
    requires Raised(t0, ph.mid, ph.done, now) && Wrote(t0, ph.mid, ph.done, states, now)
    requires ph.done <= WantedItems(states) && (!down ==> up)
    requires up ==> Same(ph.done, WantedItems(states))
    requires LoweringAt(t, left, down, SecondPlan(t0, ph.mid, left0, states, mem), ph.off, now)
    requires !down ==> Same(ph.off, Stale(states, mem))
    ensures Went(ph, t0, left0, t, left, down, states, mem, now)
  {
  }

  lemma SyncSafe(t0: Table, mid: Table, t: Table, states: StateMap, now: int, done: Items,
                 off: Items)
    requires Raised(t0, mid, done, now) && Lowered(mid, t, off)
    requires forall p :: p in done ==> Wanted(states, p.0, p.1)
    requires forall p :: p in off ==> !Wanted(states, p.0, p.1)
    ensures SafeSync(t0, t, states)
  {
    forall m, i | Wanted(states, m, i) ensures StaysActive(t0, t, m, i) {
      assert (m, i) !in off;
      assert StaysActive(t0, mid, m, i) && StaysActive(mid, t, m, i);
    }
  }

  lemma SyncWritten(t0: Table, mid: Table, t: Table, states: StateMap, now: int, done: Items, off: Items)
    requires Raised(t0, mid, done, now) && Wrote(t0, mid, done, states, now)
    requires Lowered(mid, t, off) && ClosedBy(mid, t, off, now)
    requires forall p :: p in done ==> Wanted(states, p.0, p.1)
    requires forall p :: p in off ==> !Wanted(states, p.0, p.1)
    ensures Written(t0, t, states, now)
  {
    forall k | k in t ensures RowWritten(t0, t, k, states, now) {
      RowThrough(t0, mid, t, states, now, done, off, k);
    }
  }

  lemma RowThrough(t0: Table, mid: Table, t: Table, states: StateMap, now: int, done: Items, off: Items, k: Key)
    requires Raised(t0, mid, done, now) && Wrote(t0, mid, done, states, now) && ClosedBy(mid, t, off, now) && k in t
    requires (k.machine, k.item) in off ==> !Wanted(states, k.machine, k.item)
    ensures RowWritten(t0, t, k, states, now)
  {
    assert k in mid;
  }

  lemma SyncUpToDate(t0: Table, mid: Table, t: Table, states: StateMap, mem: Memory, now: int, done: Items, off: Items)
    requires Raised(t0, mid, done, now) && Wrote(t0, mid, done, states, now)
    requires Lowered(mid, t, off) && ClosedBy(mid, t, off, now)
    requires Same(done, WantedItems(states)) && Same(off, Stale(states, mem)) && Remembers(mem, t0)
    requires Agreed(t0, t, states, now)
    ensures UpToDate(t0, t, states, now)
  {
    forall k | k in t && t[k].active ensures SaysOn(t[k], states, k, now) {
      assert ActiveRow(t, k, k.machine, k.item) && HasActive(t, k.machine, k.item);
      assert k in mid && mid[k] == t[k];
    }
    forall k | k in t0 && t0[k].active && !Wanted(states, k.machine, k.item)
      ensures k in t && ClosedAt(t0[k], t[k], now)
    {
      assert ActiveRow(t0, k, k.machine, k.item) && HasActive(t0, k.machine, k.item);
      assert InMemory(mem, k.machine, k.item) && (k.machine, k.item) in off;
    }
  }

  lemma SyncAgrees(t0: Table, mid: Table, t: Table, states: StateMap, mem: Memory, now: int,
                   done: Items, off: Items)
    requires Raised(t0, mid, done, now) && Lowered(mid, t, off) && Remembers(mem, t0)
    requires forall m, i :: Wanted(states, m, i) <==> (m, i) in done
    requires forall p :: p in off ==> !Wanted(states, p.0, p.1)
    requires forall m, i :: (InMemory(mem, m, i) || Wanted(states, m, i)) && !Wanted(states, m, i) ==> (m, i) in off
    ensures Agreed(t0, t, states, now)
  {
    forall m, i ensures HasActive(t, m, i) <==> Wanted(states, m, i) && !Blocked(t0, m, i, now) {
      assert HasActive(mid, m, i) <==> HasActive(t0, m, i) || ((m, i) in done && !Blocked(t0, m, i, now));
    }
  }

  /** Full agreement holds exactly when no wanted alarm is blocked by a row closed in this very second. */
  lemma AgreementIff(t0: Table, t: Table, states: StateMap, now: int)
    requires Agreed(t0, t, states, now)
    ensures (forall m, i :: HasActive(t, m, i) <==> Wanted(states, m, i))
       <==> (forall m, i :: Wanted(states, m, i) ==> !Blocked(t0, m, i, now))
  {
    if forall m, i :: HasActive(t, m, i) <==> Wanted(states, m, i) {
      forall m, i | Wanted(states, m, i) ensures !Blocked(t0, m, i, now) {
        assert HasActive(t, m, i);
      }
    }
  }

  /** With a clock strictly later than every stored time stamp nothing can be blocked. */
  lemma LaterClockNeverBlocks(t: Table, clock: int, now: int, m: string, i: string)
    requires Shape(t, clock) && clock < now
    ensures !Blocked(t, m, i, now)
  {
    forall k | k in t ensures k.first <= clock {
      assert RowShape(k, t[k], clock);
    }
  }

  /** Clearing and raising an alarm again within one second leaves it without an active row. */
  lemma SameSecondLosesAlarm(kind: string, state: string, now: int)
    ensures var t := Cleared(Upserted(map[], "M", "a", kind, state, now), "M", "a", now);
      Shape(t, now) && Blocked(t, "M", "a", now) && !HasActive(Upserted(t, "M", "a", kind, state, now), "M", "a")
  {
    var k := Key("M", "a", now);
    var t1 := Upserted(map[], "M", "a", kind, state, now);
    assert t1 == map[k := Row(kind, state, now, None, true)];
    assert ActiveRow(t1, k, "M", "a");
    var t := Cleared(t1, "M", "a", now);
    assert t == map[k := Row(kind, state, now, Some(now), false)];
  }

  // ---- crash and restart ---------------------------------------------------

  /** SELECT machine, item_id FROM alarms WHERE active=1, into an empty memory. */
  method SeedActiveAlarms(t: Table) returns (mem: Memory)
    ensures forall m, i :: InMemory(mem, m, i) <==> HasActive(t, m, i)
  {
    mem := map[];
    var todo := t.Keys;
    while todo != {}
      invariant todo <= t.Keys
      invariant forall m, i :: InMemory(mem, m, i) <==> exists k :: k in t && k !in todo && ActiveRow(t, k, m, i)
      decreases |todo|
    {
      var k :| k in todo;
      ghost var before, rest := mem, todo - {k};
      if t[k].active {
        mem := mem[k.machine := (if k.machine in mem then mem[k.machine] else {}) + {k.item}];
      }
      forall m, i ensures InMemory(mem, m, i) <==> exists j :: j in t && j !in rest && ActiveRow(t, j, m, i) {
        SeedStep(t, todo, k, before, m, i);
        assert InMemory(mem, m, i) <==> InMemory(before, m, i) || ActiveRow(t, k, m, i);
      }
      todo := todo - {k};
    }
  }

  lemma SeedStep(t: Table, todo: set<Key>, k: Key, mem: Memory, m: string, i: string)
    requires k in todo && todo <= t.Keys
    requires InMemory(mem, m, i) <==> exists j :: j in t && j !in todo && ActiveRow(t, j, m, i)
    ensures (exists j :: j in t && j !in todo - {k} && ActiveRow(t, j, m, i)) <==>
            InMemory(mem, m, i) || ActiveRow(t, k, m, i)
  {
    if ActiveRow(t, k, m, i) { assert k in t && k !in todo - {k}; }
    if InMemory(mem, m, i) {
      var j :| j in t && j !in todo && ActiveRow(t, j, m, i);
      assert j !in todo - {k};
    }
  }

  predicate OnTwice(states1: StateMap, states2: StateMap, k: Key) {
    Wanted(states1, k.machine, k.item) && Wanted(states2, k.machine, k.item)
  }

  predicate OnThenOff(states1: StateMap, states2: StateMap, k: Key) {
    Wanted(states1, k.machine, k.item) && !Wanted(states2, k.machine, k.item)
  }

  /**
   A synchronisation that dies after any number of statements, followed by a restart and one complete
   synchronisation at a later time, restores agreement; an alarm on at both times keeps its row.
   */
  method CrashAndRecover(table: Table, clock: int, mem: Memory, left: nat,
                         states1: StateMap, now1: int, states2: StateMap, now2: int, more: nat)
    returns (db: AlarmDb, mem': Memory)
    requires WellNamed(states1) && WellNamed(states2)
    requires Shape(table, clock) && clock < now1 < now2 && Remembers(mem, table)
    ensures fresh(db) && Shape(db.rows, now2)
    ensures !db.down ==> forall m, i ::
      && (HasActive(db.rows, m, i) <==> Wanted(states2, m, i))
      && (InMemory(mem', m, i) <==> Wanted(states2, m, i))
    ensures more >= SyncBound(states2, MemoryItems(mem) + WantedItems(states1)) ==> !db.down
    ensures forall k :: k in table && table[k].active && OnTwice(states1, states2, k) ==>
      k in db.rows && db.rows[k].active
    ensures !db.down ==> forall k :: k in db.rows && db.rows[k].active ==> SaysOn(db.rows[k], states2, k, now2)
    ensures !db.down ==> forall k :: k in table && table[k].active && OnThenOff(states1, states2, k) ==>
      k in db.rows && !db.rows[k].active && db.rows[k].end == Some(now2)
    ensures Kept(table, db.rows)
  {
    db := new AlarmDb(table, left);
    ShapeLater(table, clock, now1);
    mem' := SyncAlarms(db, states1, mem, now1);
    ghost var mid := db.rows;
    // the process is gone here, whether or not it finished; only the table survives
    db := new AlarmDb(db.rows, more);
    mem' := SeedActiveAlarms(db.rows);
    SyncWithin(mid, states2, mem', MemoryItems(mem) + WantedItems(states1));
    ShapeLater(db.rows, now1, now2);
    mem' := SyncAlarms(db, states2, mem', now2);
    forall m, i ensures !Blocked(mid, m, i, now2) { LaterClockNeverBlocks(mid, now1, now2, m, i); }
    BothSyncs(table, mid, db.rows, states1, states2, now2, db.down);
  }

  /** What two synchronisations, the first of them possibly cut short, do to the rows active before. */
  lemma BothSyncs(table: Table, mid: Table, t: Table, states1: StateMap, states2: StateMap, now2: int, down: bool)
    requires SafeSync(table, mid, states1) && SafeSync(mid, t, states2)
    requires !down ==> UpToDate(mid, t, states2, now2)
    ensures forall k :: k in table && table[k].active && OnTwice(states1, states2, k) ==> k in t && t[k].active
    ensures !down ==> forall k :: k in table && table[k].active && OnThenOff(states1, states2, k) ==>
      k in t && !t[k].active && t[k].end == Some(now2)
    ensures Kept(table, t)
  {
    forall k | k in table && table[k].active && Wanted(states1, k.machine, k.item)
      ensures ActiveRow(mid, k, k.machine, k.item)
      ensures Wanted(states2, k.machine, k.item) ==> k in t && t[k].active
      ensures !down && !Wanted(states2, k.machine, k.item) ==> k in t && !t[k].active && t[k].end == Some(now2)
    {
      assert ActiveRow(table, k, k.machine, k.item) && StaysActive(table, mid, k.machine, k.item);
      assert Wanted(states2, k.machine, k.item) ==> StaysActive(mid, t, k.machine, k.item);
    }
  }

  // ---- runs ----------------------------------------------------------------

  datatype Event =
    | Sync(states: StateMap, now: int)
    | Prune(cutoff: int)
    | Restart(left: nat) // the new process lives for so many statements

  function ClockAfter(clock: int, e: Event): int { if e.Sync? then e.now else clock }

  /** Event times never go back. */
  predicate Timely(clock: int, events: seq<Event>)
    decreases |events|
  {
    events != [] ==>
      && (events[0].Sync? ==> clock <= events[0].now && WellNamed(events[0].states))
      && Timely(ClockAfter(clock, events[0]), events[1..])
  }

  function LastClock(clock: int, events: seq<Event>): int
    decreases |events|
  {
    if events == [] then clock else LastClock(ClockAfter(clock, events[0]), events[1..])
  }

  predicate TimelyEvent(clock: int, e: Event) { e.Sync? ==> clock <= e.now && WellNamed(e.states) }

  /** The alarms that can be active or remembered after an event. */
  ghost function KnownAfter(known: Items, e: Event): Items {
    match e
    case Sync(states, _) => known + WantedItems(states)
    case _ => known
  }

  ghost function KnownAfterAll(known: Items, events: seq<Event>, n: nat): Items
    requires n <= |events|
  {
    if n == 0 then known else KnownAfter(KnownAfterAll(known, events, n - 1), events[n - 1])
  }

  /** Enough statements for one event. */
  ghost function EventBound(known: Items, e: Event): nat {
    match e
    case Sync(states, _) => SyncBound(states, known)
    case Prune(_) => 1
    case Restart(_) => 0
  }

  /** Enough statements for the events since the process that is up after `n` of them was started. */
  ghost function Need(known: Items, events: seq<Event>, n: nat): nat
    requires n <= |events|
  {
    if n == 0 || events[n - 1].Restart? then 0
    else Need(known, events, n - 1) + EventBound(KnownAfterAll(known, events, n - 1), events[n - 1])
  }

  /** The statements that process was given. */
  function Given(left: nat, events: seq<Event>, n: nat): nat
    requires n <= |events|
  {
    if n == 0 then left else match events[n - 1] case Restart(more) => more case _ => Given(left, events, n - 1)
  }

  predicate WantedBy(e: Event, m: string, i: string) { e.Sync? ==> Wanted(e.states, m, i) }

  /** The alarm is on in every synchronisation. */
  predicate AlwaysOn(events: seq<Event>, m: string, i: string) {
    forall j :: 0 <= j < |events| ==> WantedBy(events[j], m, i)
  }

  ghost predicate StillActive(t: Table, k: Key) { k in t && t[k].active }

  /** Nothing is active or, while the process is up, remembered but the alarms in `known`. */
  ghost predicate Tracks(t: Table, mem: Memory, down: bool, known: Items) {
    && (forall m, i :: HasActive(t, m, i) ==> (m, i) in known)
    && (!down ==> Remembers(mem, t) && forall m, i :: InMemory(mem, m, i) ==> (m, i) in known)
  }

  /** One event of a run. */
  method RunEvent(before: AlarmDb, mem: Memory, e: Event, clock: int, ghost known: Items)
    returns (db: AlarmDb, mem': Memory)
    requires Shape(before.rows, clock) && TimelyEvent(clock, e)
    requires Tracks(before.rows, mem, before.down, known)
    modifies before
    ensures db == before || fresh(db)
    ensures Shape(db.rows, ClockAfter(clock, e)) && Tracks(db.rows, mem', db.down, KnownAfter(known, e))
    ensures e.Restart? ==> !db.down && db.left == e.left
    ensures !e.Restart? && !old(before.down) && old(before.left) >= EventBound(known, e) ==>
      !db.down && db.left >= old(before.left) - EventBound(known, e)
    ensures forall k :: old(StillActive(before.rows, k)) && WantedBy(e, k.machine, k.item) ==> StillActive(db.rows, k)
  {
    db, mem' := before, mem;
    ghost var t := before.rows;
    match e {
    case Sync(states, now) =>
      ShapeLater(t, clock, now);
      if !db.down {
        SyncWithin(t, states, mem, known);
        mem' := SyncAlarms(db, states, mem, now);
        SyncTracks(t, db.rows, mem', states, known, db.down);
      }
    case Prune(cutoff) =>
      PrunedKeepsActive(t, clock, cutoff);
      PrunedRemembered(t, clock, cutoff, mem);
      db.PruneAlarms(cutoff);
    case Restart(more) =>
      db := new AlarmDb(before.rows, more);
      mem' := SeedActiveAlarms(db.rows);
    }
  }

  lemma SyncTracks(t0: Table, t: Table, mem: Memory, states: StateMap, known: Items, down: bool)
    requires SafeSync(t0, t, states) && forall m, i :: HasActive(t0, m, i) ==> (m, i) in known
    requires !down ==> Remembers(mem, t) && forall m, i :: InMemory(mem, m, i) <==> Wanted(states, m, i)
    ensures Tracks(t, mem, down, known + WantedItems(states))
    ensures forall k :: StillActive(t0, k) && Wanted(states, k.machine, k.item) ==> StillActive(t, k)
  {
    forall k | StillActive(t0, k) && Wanted(states, k.machine, k.item) ensures StillActive(t, k) {
      assert ActiveRow(t0, k, k.machine, k.item) && StaysActive(t0, t, k.machine, k.item);
    }
  }

  /**
   Any run of synchronisations, prunings and restarts, from any table of the right shape: the shape stays;
   a row that is active at the start, its alarm on in every synchronisation, is still there and active at
   the end; and a process that was given enough statements is still up.
   */
  method RunHistory(table: Table, known: Memory, events: seq<Event>, start: int, left: nat)
    returns (db: AlarmDb, mem: Memory)
    requires Timely(start, events) && Shape(table, start) && Remembers(known, table)
    ensures fresh(db) && Shape(db.rows, LastClock(start, events))
    ensures Tracks(db.rows, mem, db.down, KnownAfterAll(MemoryItems(known), events, |events|))
    ensures Given(left, events, |events|) >= Need(MemoryItems(known), events, |events|) ==>
      !db.down && db.left >= Given(left, events, |events|) - Need(MemoryItems(known), events, |events|)
    ensures forall k :: StillActive(table, k) && AlwaysOn(events, k.machine, k.item) ==> StillActive(db.rows, k)
  {
    ghost var items := MemoryItems(known);
    db := new AlarmDb(table, left);
    mem := known;
    var clock := start;
    assert events[0..] == events;
    for i := 0 to |events|
      invariant fresh(db) && Shape(db.rows, clock)
      invariant Timely(clock, events[i..]) && LastClock(clock, events[i..]) == LastClock(start, events)
      invariant Tracks(db.rows, mem, db.down, KnownAfterAll(items, events, i))
      invariant Enough(db, Given(left, events, i), Need(items, events, i))
      invariant forall k :: StillActive(table, k) && AlwaysOn(events, k.machine, k.item) ==> StillActive(db.rows, k)
    {
      var e := events[i];
      assert events[i..][0] == e && events[i..][1..] == events[i + 1..];
      db, mem := RunEvent(db, mem, e, clock, KnownAfterAll(items, events, i));
      clock := ClockAfter(clock, e);
    }
    assert events[|events|..] == [];
  }

  ghost predicate Enough(db: AlarmDb, given: nat, need: nat)
    reads db
  {
    given >= need ==> !db.down && db.left >= given - need
  }

  /**
   After any such history a synchronisation at a later second makes table, memory and conditions agree,
   and it runs to its end when the process was given enough statements.
   */
  method RunThenSync(table: Table, known: Memory, events: seq<Event>, start: int, left: nat,
                     states: StateMap, now: int)
    returns (db: AlarmDb, mem: Memory)
    requires Timely(start, events) && Shape(table, start) && Remembers(known, table)
    requires WellNamed(states) && LastClock(start, events) < now
    ensures fresh(db) && Shape(db.rows, now)
    ensures var items := KnownAfterAll(MemoryItems(known), events, |events|);
      Given(left, events, |events|) >= Need(MemoryItems(known), events, |events|) + SyncBound(states, items) ==>
        !db.down
    ensures !db.down ==> forall m, i ::
      && (HasActive(db.rows, m, i) <==> Wanted(states, m, i))
      && (InMemory(mem, m, i) <==> Wanted(states, m, i))
    ensures forall k ::
      StillActive(table, k) && AlwaysOn(events, k.machine, k.item) && Wanted(states, k.machine, k.item) ==>
      StillActive(db.rows, k)
    ensures !db.down ==> forall k :: StillActive(db.rows, k) ==> SaysOn(db.rows[k], states, k, now)
    ensures !db.down ==> forall k ::
      StillActive(table, k) && AlwaysOn(events, k.machine, k.item) && !Wanted(states, k.machine, k.item) ==>
      k in db.rows && !db.rows[k].active && db.rows[k].end == Some(now)
  {
    db, mem := RunHistory(table, known, events, start, left);
    ghost var items := KnownAfterAll(MemoryItems(known), events, |events|);
    var clock := LastClock(start, events);
    ghost var before := db.rows;
    ShapeLater(before, clock, now);
    if !db.down {
      SyncWithin(before, states, mem, items);
      mem := SyncAlarms(db, states, mem, now);
      SyncTracks(before, db.rows, mem, states, items, db.down);
      forall m, i ensures !Blocked(before, m, i, now) { LaterClockNeverBlocks(before, clock, now, m, i); }
    }
  }

  lemma PrunedRemembered(t: Table, clock: int, cutoff: int, mem: Memory)
    requires Shape(t, clock)
    ensures Remembers(mem, t) ==> Remembers(mem, Pruned(t, cutoff))
  {
    forall m, i | HasActive(Pruned(t, cutoff), m, i) ensures HasActive(t, m, i) {
      var k :| k in Pruned(t, cutoff) && ActiveRow(Pruned(t, cutoff), k, m, i);
      assert ActiveRow(t, k, m, i);
    }
  }

  // ---- the parser delivers well-named states -------------------------------

  /** Whatever text the parser reads, every machine stays filed under its own name. */
  lemma {:induction false} ParserKeepsNames(states: StateMap, blocks: seq<string>)
    requires WellNamed(states)
    ensures WellNamed(StatesAfter(states, blocks))
  {
    if blocks != [] {
      var init, block := blocks[..|blocks| - 1], blocks[|blocks| - 1];
      ParserKeepsNames(states, init);
      var before := StatesAfter(states, init);
      var name := AttrOf(block, "name");
      MachineKeepsName(block, Touch(before, name));
    }
  }
}
