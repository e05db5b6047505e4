/**
 The machine-tool simulator: programs of blocks, a machine record changed by ticks of the clock, by the
 automatic cycle and by control commands. Segment lengths come from a given distance function.
 */
module CncSim {

  // ---- programs and the machine record --------------------------------------

  datatype Point = Point(x: real, y: real, z: real)

  datatype Kind = Rapid | Feed | Spindle | Finish

  datatype Block = Block(kind: Kind, to: Point, feed: real, speed: real)

  datatype Program = Program(blocks: seq<Block>, products: nat)

  type Distance = (Point, Point) -> real

  datatype Exec = Ready | Active | Interrupted | Stopped
  datatype Mode = Automatic | Manual | Mdi

  datatype Machine = Machine(
    estop: bool, auto: bool, exec: Exec, mode: Mode, alarm: nat, since: int,
    line: int, frac: real, start: Point, target: Point, pos: Point, probe: Point,
    feedAct: real, feedOvr: int, spAct: real, spTgt: real,
    part: int, partCurrent: int, partTotal: int, product: int)

  const RAPID_FEED := 6000.0
  const TINY := 0.000000001
  const HOME := Point(0.0, 0.0, 10.0)
  const PARTS_PER_PRODUCT := 10

  function PowerUp(now: int): Machine {
    Machine(false, true, Ready, Automatic, 0, now, 0, 0.0, HOME, HOME, HOME, HOME,
            0.0, 100, 0.0, 0.0, 0, 0, 0, 0)
  }

  /** A machine the tick can be asked of: its line names a block. */
  predicate OnProgram(prog: Program, m: Machine) { 0 <= m.line < |prog.blocks| }

  // ---- what the operations do to the record ---------------------------------

  /** Division of the C language: towards zero. */
  function Quotient(a: int, b: int): int
    requires b > 0
  {
    if a >= 0 then a / b else -(-a / b)
  }

  function ProductIndex(prog: Program, current: int): int {
    if prog.products == 0 then 0
    else
      var q := Quotient(current - 1, PARTS_PER_PRODUCT);
      if q < 0 then 0 else q % prog.products
  }

  function Entered(prog: Program, m: Machine, idx: int): Machine {
    if idx < 0 || idx >= |prog.blocks| then m
    else
      var b := prog.blocks[idx];
      m.(line := idx, frac := 0.0, start := m.pos, target := b.to,
         spTgt := if b.kind == Spindle then b.speed else m.spTgt)
  }

  function Ramp(act: real, tgt: real, step: real): real {
    if act < tgt then (if act + step > tgt then tgt else act + step)
    else if act > tgt then (if act - step < tgt then tgt else act - step)
    else act
  }

  function Between(a: Point, b: Point, frac: real): Point {
    Point(a.x + (b.x - a.x) * frac, a.y + (b.y - a.y) * frac, a.z + (b.z - a.z) * frac)
  }

  function Rate(b: Block): real { if b.kind == Rapid then RAPID_FEED else b.feed }

  /** Distance travelled in one tick. */
  function Way(b: Block, ovr: int, dt: real): real { Rate(b) * ovr as real / 100.0 / 60.0 * dt }

  /** Share of a segment covered in one tick. */
  function Share(b: Block, ovr: int, dt: real, length: real): real
    requires length > 0.0
  {
    Way(b, ovr, dt) / length
  }

  function Counted(prog: Program, m: Machine): Machine {
    m.(part := m.part + 1, partCurrent := m.partCurrent + 1, partTotal := m.partTotal + 1,
       product := ProductIndex(prog, m.partCurrent + 1),
       exec := Ready, line := 0, frac := 0.0, pos := HOME, probe := HOME, feedAct := 0.0, spTgt := 0.0)
  }

  function Moved(prog: Program, len: Distance, m: Machine, dt: real): Machine
    requires OnProgram(prog, m)
  {
    var b := prog.blocks[m.line];
    var d := len(m.start, b.to);
    if d > TINY then
      var f := m.frac + Share(b, m.feedOvr, dt, d);
      if f >= 1.0 then Entered(prog, m.(frac := f, pos := b.to), m.line + 1)
      else m.(frac := f, pos := Between(m.start, b.to, f))
    else Entered(prog, m, m.line + 1)
  }

  predicate Runs(m: Machine) { m.exec == Active && !m.estop }

  function Ticked(prog: Program, len: Distance, m: Machine, dt: real): Machine
    requires OnProgram(prog, m)
  {
    var r := m.(spAct := Ramp(m.spAct, m.spTgt, 2500.0 * dt));
    if !Runs(r) then r.(feedAct := 0.0)
    else if prog.blocks[r.line].kind == Finish then Counted(prog, r)
    else Moved(prog, len, r.(feedAct := Rate(prog.blocks[r.line]) * r.feedOvr as real / 100.0), dt)
  }

  /** Milliseconds since the last change, in 64 bits. */
  function Waited(m: Machine, now: int): int { (now - m.since) % 0x1_0000_0000_0000_0000 }

  function Cycled(prog: Program, m: Machine, now: int): Machine {
    if !m.auto || m.estop then m
    else
      match m.exec
      case Ready => if Waited(m, now) > 2000 then Entered(prog, m.(exec := Active), 0).(since := now) else m
      case Active => if Waited(m, now) > 10000 then m.(exec := Interrupted, feedAct := 0.0, since := now) else m
      case Interrupted => if Waited(m, now) > 3000 then m.(exec := Active, since := now) else m
      case Stopped => if Waited(m, now) > 3000 then m.(exec := Ready, line := 0, pos := HOME, since := now) else m
  }

  datatype Command = Start | Stop | Hold | Resume | Reset | Estop | Release | SetMode(mode: Mode)
                   | Alarm(id: nat) | Auto(on: bool) | Override(percent: int)

  function Clamp(v: int, lo: int, hi: int): int { if v < lo then lo else if v > hi then hi else v }

  /** A command other than `auto` first takes the machine out of the automatic cycle. */
  function Commanded(prog: Program, m: Machine, c: Command): Machine {
    if c.Auto? then m.(auto := c.on) else Manually(prog, m.(auto := false), c)
  }

  function Manually(prog: Program, m: Machine, c: Command): Machine {
    match c
    case Start =>
      if m.estop then m
      else Entered(prog, m.(alarm := 0, mode := Automatic, exec := Active, pos := HOME), 0).(spTgt := 0.0)
    case Stop => (if m.exec == Active || m.exec == Interrupted then m.(exec := Stopped) else m).(feedAct := 0.0)
    case Hold => (if m.exec == Active then m.(exec := Interrupted) else m).(feedAct := 0.0)
    case Resume =>
      if !m.estop && (m.exec == Stopped || m.exec == Interrupted) && m.mode == Automatic then m.(exec := Active) else m
    case Reset =>
      m.(exec := Ready, line := 0, frac := 0.0, pos := HOME, start := HOME, target := HOME,
         spTgt := 0.0, feedAct := 0.0, alarm := 0, partCurrent := 0, product := 0)
    case Estop => m.(estop := true, exec := Stopped, spTgt := 0.0, feedAct := 0.0)
    case Release => m.(estop := false, exec := Ready)
    case SetMode(mode) => m.(mode := mode, exec := Ready, spTgt := 0.0, feedAct := 0.0)
    case Alarm(id) => m.(alarm := id, exec := if id != 0 && m.exec == Active then Interrupted else m.exec)
    case Auto(on) => m
    case Override(percent) => m.(feedOvr := Clamp(percent, 0, 200))
  }

  // ---- the simulator object ------------------------------------------------

  class Simulator {
    const prog: Program
    const len: Distance
    var g: Machine

    constructor (prog: Program, len: Distance, now: int)
      requires prog.blocks != []
      ensures this.prog == prog && this.len == len && g == PowerUp(now) && OnProgram(prog, g)
    {
      this.prog, this.len, g := prog, len, PowerUp(now);
    }

    method UpdateProductIndex()
      modifies this
      ensures g == old(g).(product := ProductIndex(prog, g.partCurrent))
    {
      if prog.products == 0 {
        g := g.(product := 0);
        return;
      }
      var idx := Quotient(g.partCurrent - 1, PARTS_PER_PRODUCT);
      idx := if idx < 0 then -(-idx % prog.products) else idx % prog.products;
      if idx < 0 { idx := 0; }
      g := g.(product := idx);
    }

    method EnterBlock(idx: int)
      modifies this
      ensures g == Entered(prog, old(g), idx)
    {
      if idx < 0 || idx >= |prog.blocks| { return; }
      var b := prog.blocks[idx];
      g := g.(line := idx);
      g := g.(frac := 0.0);
      g := g.(start := g.pos);
      g := g.(target := b.to);
      if b.kind == Spindle { g := g.(spTgt := b.speed); }
    }

    method RampSpindle(dt: real)
      modifies this
      ensures g == old(g).(spAct := Ramp(old(g).spAct, old(g).spTgt, 2500.0 * dt))
    {
      if g.spAct < g.spTgt {
        g := g.(spAct := g.spAct + 2500.0 * dt);
        if g.spAct > g.spTgt { g := g.(spAct := g.spTgt); }
      } else if g.spAct > g.spTgt {
        g := g.(spAct := g.spAct - 2500.0 * dt);
        if g.spAct < g.spTgt { g := g.(spAct := g.spTgt); }
      }
    }

    method CountPart()
      modifies this
      ensures g == Counted(prog, old(g))
    {
      g := g.(part := g.part + 1);
      g := g.(partCurrent := g.partCurrent + 1);
      g := g.(partTotal := g.partTotal + 1);
      UpdateProductIndex();
      g := g.(exec := Ready, line := 0, frac := 0.0);
      g := g.(pos := HOME, probe := HOME);
      g := g.(feedAct := 0.0, spTgt := 0.0);
    }

    method Move(dt: real)
      requires OnProgram(prog, g)
      modifies this
      ensures g == Moved(prog, len, old(g), dt)
    {
      var b := prog.blocks[g.line];
      var d := len(g.start, b.to);
      if d > TINY {
        g := g.(frac := g.frac + Share(b, g.feedOvr, dt, d));
        if g.frac >= 1.0 {
          g := g.(pos := b.to);
          EnterBlock(g.line + 1);
        } else {
          g := g.(pos := Between(g.start, b.to, g.frac));
        }
      } else {
        EnterBlock(g.line + 1);
      }
    }

    method SimStep(dt: real)
      requires OnProgram(prog, g)
      modifies this
      ensures g == Ticked(prog, len, old(g), dt)
    {
      RampSpindle(dt);
      if g.exec != Active || g.estop {
        g := g.(feedAct := 0.0);
        return;
      }
      var b := prog.blocks[g.line];
      if b.kind == Finish {
        CountPart();
        return;
      }
      g := g.(feedAct := Rate(b) * g.feedOvr as real / 100.0);
      Move(dt);
    }

    method AutoCycleTick(now: int)
      modifies this
      ensures g == Cycled(prog, old(g), now)
    {
      if !g.auto || g.estop { return; }
      var elapsed := Waited(g, now);
      match g.exec {
        case Ready =>
          if elapsed > 2000 {
            g := g.(exec := Active);
            EnterBlock(0);
            g := g.(since := now);
          }
        case Active =>
          if elapsed > 10000 { g := g.(exec := Interrupted, feedAct := 0.0, since := now); }
        case Interrupted =>
          if elapsed > 3000 { g := g.(exec := Active, since := now); }
        case Stopped =>
          if elapsed > 3000 { g := g.(exec := Ready, line := 0, pos := HOME, since := now); }
      }
    }

    method StartProgram() returns (ok: bool)
      modifies this
      ensures ok == !old(g).estop && g == Manually(prog, old(g), Start)
    {
      if g.estop { return false; }
      g := g.(alarm := 0, mode := Automatic, exec := Active);
      g := g.(pos := HOME);
      EnterBlock(0);
      g := g.(spTgt := 0.0);
      return true;
    }

    method Apply(c: Command) returns (ok: bool)
      modifies this
      ensures g == Commanded(prog, old(g), c)
      ensures ok <==> !(old(g).estop && (c.Start? || c.Resume?))
    {
      ok := true;
      if c.Auto? {
        g := g.(auto := c.on);
        return;
      }
      g := g.(auto := false);
      match c {
        case Start => ok := StartProgram();
        case Stop =>
          if g.exec == Active || g.exec == Interrupted { g := g.(exec := Stopped); }
          g := g.(feedAct := 0.0);
        case Hold =>
          if g.exec == Active { g := g.(exec := Interrupted); }
          g := g.(feedAct := 0.0);
        case Resume =>
          if g.estop { return false; }
          if (g.exec == Stopped || g.exec == Interrupted) && g.mode == Automatic { g := g.(exec := Active); }
        case Reset =>
          g := g.(exec := Ready, line := 0, frac := 0.0, pos := HOME);
          g := g.(start := HOME, target := HOME, spTgt := 0.0, feedAct := 0.0);
          g := g.(alarm := 0, partCurrent := 0, product := 0);
        case Estop => g := g.(estop := true, exec := Stopped, spTgt := 0.0, feedAct := 0.0);
        case Release => g := g.(estop := false, exec := Ready);
        case SetMode(mode) => g := g.(mode := mode, exec := Ready, spTgt := 0.0, feedAct := 0.0);
        case Alarm(id) =>
          g := g.(alarm := id);
          if id != 0 && g.exec == Active { g := g.(exec := Interrupted); }
        case Override(percent) => g := g.(feedOvr := Clamp(percent, 0, 200));
      }
    }

    /** One turn of the main loop between commands. */
    method Turn(now: int, dt: real)
      requires OnProgram(prog, g)
      modifies this
      ensures g == Ticked(prog, len, Cycled(prog, old(g), now), dt)
    {
      AutoCycleTick(now);
      SimStep(dt);
    }
  }

  // ---- the course of a run --------------------------------------------------

  /** What can happen to the machine: the two halves of a turn, and commands between turns. */
  datatype Event = Cycle(now: int) | Tick(dt: real) | Control(command: Command)

  function After(prog: Program, len: Distance, m: Machine, e: Event): (r: Machine)
    requires OnProgram(prog, m)
    ensures OnProgram(prog, r)
  {
    match e
    case Cycle(now) => Cycled(prog, m, now)
    case Tick(dt) => Ticked(prog, len, m, dt)
    case Control(c) => Commanded(prog, m, c)
  }

  /** First M30 at or behind `k`, or the number of blocks. */
  function EndFrom(prog: Program, k: nat): (r: nat)
    requires k <= |prog.blocks|
    ensures k <= r <= |prog.blocks|
    ensures r < |prog.blocks| ==> prog.blocks[r].kind == Finish
    ensures forall j :: k <= j < r ==> prog.blocks[j].kind != Finish
    decreases |prog.blocks| - k
  {
    if k == |prog.blocks| || prog.blocks[k].kind == Finish then k else EndFrom(prog, k + 1)
  }

  function EndOf(prog: Program): nat { EndFrom(prog, 0) }

  /** Where the machine stands when it enters a block, when it started at `p`: a tiny segment is not moved along. */
  function StartOf(prog: Program, len: Distance, p: Point, k: nat): Point
    requires k <= |prog.blocks|
    decreases k, 0
  {
    if k == 0 then p
    else if Long(prog, len, p, k - 1) then prog.blocks[k - 1].to
    else StartOf(prog, len, p, k - 1)
  }

  predicate Long(prog: Program, len: Distance, p: Point, k: nat)
    requires k < |prog.blocks|
    decreases k, 1
  {
    len(StartOf(prog, len, p, k), prog.blocks[k].to) > TINY
  }

  /** The machine is in the middle of a run that started at `p`. */
  predicate InRun(prog: Program, len: Distance, p: Point, m: Machine) {
    && !m.estop && m.exec != Ready && m.feedOvr >= 0
    && 0 <= m.line <= EndOf(prog) && m.line < |prog.blocks|
    && m.start == StartOf(prog, len, p, m.line) && m.target == prog.blocks[m.line].to
    && m.frac < 1.0
    && m.pos == (if Long(prog, len, p, m.line) then Between(m.start, m.target, m.frac) else m.start)
  }

  /** The event is a tick of a running machine standing at M30. */
  predicate Finishes(prog: Program, m: Machine, e: Event)
    requires OnProgram(prog, m)
  {
    e.Tick? && Runs(m) && prog.blocks[m.line].kind == Finish
  }

  /** The event abandons the run. */
  predicate Drops(m: Machine, e: Event) {
    match e
    case Cycle(now) => m.auto && !m.estop && m.exec == Stopped && Waited(m, now) > 3000
    case Tick(_) => false
    case Control(c) => c.Start? || c.Reset? || c.Estop? || c.Release? || c.SetMode?
  }

  /** The three part counters. */
  function Counters(m: Machine): (int, int, int) { (m.part, m.partCurrent, m.partTotal) }

  function Place(m: Machine): (int, real, Point, Point, Point) { (m.line, m.frac, m.start, m.target, m.pos) }

  lemma StartAgain(a: Point, b: Point)
    ensures Between(a, b, 0.0) == a
  {
  }

  /** Both ways to start a program begin a run: the command from home, the automatic cycle from where it stands. */
  lemma StartBeginsRun(prog: Program, len: Distance, m: Machine, now: int)
    requires prog.blocks != [] && m.feedOvr >= 0 && !m.estop
    ensures InRun(prog, len, HOME, Commanded(prog, m, Start)) && Runs(Commanded(prog, m, Start))
    ensures m.exec == Ready && m.auto && Waited(m, now) > 2000 ==> InRun(prog, len, m.pos, Cycled(prog, m, now))
    ensures Counters(Commanded(prog, m, Start)) == Counters(m) == Counters(Cycled(prog, m, now))
  {
    StartAgain(HOME, prog.blocks[0].to);
    StartAgain(m.pos, prog.blocks[0].to);
  }

  /** Nothing but a tick of the running machine moves it or counts a part. */
  lemma PauseKeepsPlace(prog: Program, len: Distance, p: Point, m: Machine, e: Event)
    requires InRun(prog, len, p, m) && !Drops(m, e) && !(e.Tick? && Runs(m))
    ensures Place(After(prog, len, m, e)) == Place(m) && Counters(After(prog, len, m, e)) == Counters(m)
    ensures InRun(prog, len, p, After(prog, len, m, e))
  {
    match e {
      case Cycle(now) =>
      case Tick(dt) =>
      case Control(c) => CommandKeepsPlace(prog, m, c);
    }
  }

  lemma CommandKeepsPlace(prog: Program, m: Machine, c: Command)
    requires !Drops(m, Control(c)) && !m.estop && m.exec != Ready && m.feedOvr >= 0
    ensures Place(Commanded(prog, m, c)) == Place(m) && Counters(Commanded(prog, m, c)) == Counters(m)
    ensures !Commanded(prog, m, c).estop && Commanded(prog, m, c).exec != Ready && Commanded(prog, m, c).feedOvr >= 0
  {
  }

  lemma {:induction false} EndStaysAhead(prog: Program, k: nat, j: nat)
    requires k <= |prog.blocks| && k <= j < EndFrom(prog, k)
    ensures j + 1 <= EndFrom(prog, k) && prog.blocks[j].kind != Finish
  {
  }

  /** A tick on a block in front of M30 stays on it or enters the next one exactly where the last one ended. */
  lemma MoveGoesOn(prog: Program, len: Distance, p: Point, m: Machine, dt: real)
    requires InRun(prog, len, p, m) && Runs(m) && m.line < EndOf(prog) < |prog.blocks|
    ensures var r := Ticked(prog, len, m, dt);
      && InRun(prog, len, p, r) && Runs(r) && Counters(r) == Counters(m) && r.feedOvr == m.feedOvr
      && (r.line == m.line || (r.line == m.line + 1 && r.frac == 0.0))
      && (r.line == m.line ==> Long(prog, len, p, m.line) &&
                               r.frac == m.frac + Share(prog.blocks[m.line], m.feedOvr, dt, len(m.start, m.target)))
  {
    var b := prog.blocks[m.line];
    var k := m.line;
    if k + 1 < |prog.blocks| {
      StartAgain(StartOf(prog, len, p, k + 1), prog.blocks[k + 1].to);
    }
  }

  /** At M30 the run is over and each counter has grown by exactly one. */
  lemma FinishCountsOne(prog: Program, len: Distance, m: Machine, dt: real)
    requires OnProgram(prog, m) && Finishes(prog, m, Tick(dt))
    ensures var r := After(prog, len, m, Tick(dt));
      && Counters(r) == (m.part + 1, m.partCurrent + 1, m.partTotal + 1)
      && r.exec == Ready && r.line == 0 && r.frac == 0.0 && r.feedAct == 0.0 && r.spTgt == 0.0
      && r.pos == r.probe == Point(0.0, 0.0, 10.0)
    ensures m.partCurrent >= 0 && prog.products > 0 ==>
      After(prog, len, m, Tick(dt)).product == m.partCurrent / 10 % prog.products
    ensures m.partCurrent < 0 || prog.products == 0 ==> After(prog, len, m, Tick(dt)).product == 0
  {
  }

  // ---- whole runs ----------------------------------------------------------

  datatype Course = Running(m: Machine) | Done(m: Machine, left: seq<Event>) | Dropped(m: Machine)

  /** The events of a run up to its end. */
  function Play(prog: Program, len: Distance, m: Machine, es: seq<Event>): Course
    requires OnProgram(prog, m)
    decreases |es|
  {
    if es == [] then Running(m)
    else
      var r := After(prog, len, m, es[0]);
      if Finishes(prog, m, es[0]) then Done(r, es[1..])
      else if Drops(m, es[0]) then Dropped(r)
      else Play(prog, len, r, es[1..])
  }

  /** The lines the machine stands on, one per state of the run. */
  function Lines(prog: Program, len: Distance, m: Machine, es: seq<Event>): seq<int>
    requires OnProgram(prog, m)
    decreases |es|
  {
    if es == [] || Finishes(prog, m, es[0]) || Drops(m, es[0]) then [m.line]
    else [m.line] + Lines(prog, len, After(prog, len, m, es[0]), es[1..])
  }

  predicate InOrder(ls: seq<int>) {
    forall k :: 0 < k < |ls| ==> ls[k] == ls[k - 1] || ls[k] == ls[k - 1] + 1
  }

  predicate ForwardTicks(es: seq<Event>) { forall e <- es :: e.Tick? ==> e.dt >= 0.0 }

  /** A run visits its lines one after the other, whatever pauses come between, and counts one part at its end. */
  lemma {:induction false} RunVisitsInOrder(prog: Program, len: Distance, p: Point, m: Machine, es: seq<Event>)
    requires InRun(prog, len, p, m) && EndOf(prog) < |prog.blocks|
    ensures var c := Play(prog, len, m, es);
      && (c.Done? ==>
            Counters(c.m) == (m.part + 1, m.partCurrent + 1, m.partTotal + 1) && c.m.exec == Ready && c.m.pos == HOME)
      && (c.Running? ==> Counters(c.m) == Counters(m) && InRun(prog, len, p, c.m))
    ensures var ls := Lines(prog, len, m, es);
      && ls != [] && ls[0] == m.line && InOrder(ls)
      && (Play(prog, len, m, es).Done? ==> ls[|ls| - 1] == EndOf(prog))
    decreases |es|
  {
    if es != [] {
      var e := es[0];
      var r := After(prog, len, m, e);
      if Finishes(prog, m, e) {
        FinishCountsOne(prog, len, m, e.dt);
      } else if !Drops(m, e) {
        EventGoesOn(prog, len, p, m, e);
        RunVisitsInOrder(prog, len, p, r, es[1..]);
        InOrderFront(m.line, Lines(prog, len, r, es[1..]));
      }
    }
  }

  lemma InOrderFront(a: int, ls: seq<int>)
    requires ls != [] && InOrder(ls) && (ls[0] == a || ls[0] == a + 1)
    ensures InOrder([a] + ls)
  {
  }

  lemma EventGoesOn(prog: Program, len: Distance, p: Point, m: Machine, e: Event)
    requires InRun(prog, len, p, m) && EndOf(prog) < |prog.blocks| && !Finishes(prog, m, e) && !Drops(m, e)
    ensures var r := After(prog, len, m, e);
      InRun(prog, len, p, r) && Counters(r) == Counters(m) && (r.line == m.line || r.line == m.line + 1)
  {
    if e.Tick? && Runs(m) { MoveGoesOn(prog, len, p, m, e.dt); } else { PauseKeepsPlace(prog, len, p, m, e); }
  }

  // ---- how long it takes ----------------------------------------------------

  /** The shortest tick and the lowest feed override that are counted on. */
  datatype Pace = Pace(dt: real, ovr: int)

  predicate PaceOk(pace: Pace) { pace.dt > 0.0 && pace.ovr > 0 }

  /** The machine can move along a block: there is nothing to move, or a positive rate. */
  predicate Movable(prog: Program, len: Distance, p: Point, k: nat)
    requires k < |prog.blocks|
  {
    Long(prog, len, p, k) ==> Rate(prog.blocks[k]) > 0.0
  }

  predicate Completable(prog: Program, len: Distance, p: Point) {
    EndOf(prog) < |prog.blocks| && forall k :: 0 <= k < EndOf(prog) ==> Movable(prog, len, p, k)
  }

  function Ceil(r: real): int { -((-r).Floor) }

  lemma CeilDrops(a: real, b: real)
    ensures b <= a ==> Ceil(b) <= Ceil(a)
    ensures b <= a - 1.0 ==> Ceil(b) <= Ceil(a) - 1
    ensures a > 0.0 ==> Ceil(a) >= 1
  {
  }

  /** Ticks for the rest of a block, when `frac` of it is done. */
  function Need(prog: Program, len: Distance, p: Point, k: nat, frac: real, pace: Pace): int
    requires k < |prog.blocks| && Movable(prog, len, p, k) && PaceOk(pace)
  {
    if !Long(prog, len, p, k) then 1
    else
      var share := Share(prog.blocks[k], pace.ovr, pace.dt, len(StartOf(prog, len, p, k), prog.blocks[k].to));
      SharePositive(prog.blocks[k], pace.ovr, pace.dt, len(StartOf(prog, len, p, k), prog.blocks[k].to));
      Ceil((1.0 - frac) / share)
  }

  lemma SharePositive(b: Block, ovr: int, dt: real, d: real)
    requires Rate(b) > 0.0 && ovr > 0 && dt > 0.0 && d > 0.0
    ensures Share(b, ovr, dt, d) > 0.0
  {
    var rate := Rate(b) * ovr as real;
    Positive(Rate(b), ovr as real);
    assert rate / 100.0 / 60.0 > 0.0;
    Positive(rate / 100.0 / 60.0, dt);
    Quot(Way(b, ovr, dt), d);
  }

  lemma Positive(a: real, b: real)
    requires a > 0.0 && b > 0.0
    ensures a * b > 0.0
  {
  }

  lemma TimesMono(a: real, b: real, c: real, d: real)
    requires 0.0 <= a <= b && 0.0 <= c <= d
    ensures 0.0 <= a * c <= b * d
  {
    assert a * c <= b * c <= b * d;
  }

  lemma WayGrows(b: Block, ovr: int, dt: real, ovr': int, dt': real)
    requires Rate(b) > 0.0 && 0 <= ovr <= ovr' && 0.0 <= dt <= dt'
    ensures 0.0 <= Way(b, ovr, dt) <= Way(b, ovr', dt')
  {
    var slow, fast := Rate(b) * ovr as real, Rate(b) * ovr' as real;
    TimesMono(Rate(b), Rate(b), ovr as real, ovr' as real);
    assert 0.0 <= slow <= fast;
    TimesMono(slow / 100.0 / 60.0, fast / 100.0 / 60.0, dt, dt');
  }

  lemma ShareGrows(b: Block, ovr: int, dt: real, d: real, pace: Pace)
    requires Rate(b) > 0.0 && d > 0.0 && PaceOk(pace) && ovr >= 0 && dt >= 0.0
    ensures Share(b, ovr, dt, d) >= 0.0
    ensures ovr >= pace.ovr && dt >= pace.dt ==> Share(b, ovr, dt, d) >= Share(b, pace.ovr, pace.dt, d)
  {
    WayGrows(b, 0, 0.0, ovr, dt);
    assert Way(b, ovr, dt) >= 0.0;
    OverMono(0.0, Way(b, ovr, dt), d);
    assert 0.0 / d == 0.0;
    if ovr >= pace.ovr && dt >= pace.dt {
      WayGrows(b, pace.ovr, pace.dt, ovr, dt);
      OverMono(Way(b, pace.ovr, pace.dt), Way(b, ovr, dt), d);
    }
  }

  lemma OverMono(a: real, b: real, d: real)
    requires a <= b && d > 0.0
    ensures a / d <= b / d
  {
  }

  /** Ticks for the blocks from `k` on, and one for M30. */
  function Ahead(prog: Program, len: Distance, p: Point, k: nat, pace: Pace): int
    requires Completable(prog, len, p) && PaceOk(pace) && k <= EndOf(prog)
    decreases EndOf(prog) - k
  {
    if k == EndOf(prog) then 1 else Need(prog, len, p, k, 0.0, pace) + Ahead(prog, len, p, k + 1, pace)
  }

  /** A bound on the running ticks still needed. */
  function Rank(prog: Program, len: Distance, p: Point, m: Machine, pace: Pace): int
    requires Completable(prog, len, p) && PaceOk(pace) && InRun(prog, len, p, m)
  {
    if m.line == EndOf(prog) then 1
    else Need(prog, len, p, m.line, m.frac, pace) + Ahead(prog, len, p, m.line + 1, pace)
  }

  lemma NeedPositive(prog: Program, len: Distance, p: Point, k: nat, frac: real, pace: Pace)
    requires k < |prog.blocks| && Movable(prog, len, p, k) && PaceOk(pace) && frac < 1.0
    ensures Need(prog, len, p, k, frac, pace) >= 1
  {
    if Long(prog, len, p, k) {
      var d := len(StartOf(prog, len, p, k), prog.blocks[k].to);
      var share := Share(prog.blocks[k], pace.ovr, pace.dt, d);
      SharePositive(prog.blocks[k], pace.ovr, pace.dt, d);
      Quot(1.0 - frac, share);
      CeilDrops((1.0 - frac) / share, 0.0);
    }
  }

  lemma Quot(a: real, b: real)
    requires a > 0.0 && b > 0.0
    ensures a / b > 0.0
  {
  }

  lemma {:induction false} RankPositive(prog: Program, len: Distance, p: Point, k: nat, pace: Pace)
    requires Completable(prog, len, p) && PaceOk(pace) && k <= EndOf(prog)
    ensures Ahead(prog, len, p, k, pace) >= 1
    decreases EndOf(prog) - k
  {
    if k < EndOf(prog) {
      NeedPositive(prog, len, p, k, 0.0, pace);
      RankPositive(prog, len, p, k + 1, pace);
    }
  }

  /** The tick is one that is counted on. */
  predicate Counts(m: Machine, e: Event, pace: Pace) {
    e.Tick? && Runs(m) && e.dt >= pace.dt && m.feedOvr >= pace.ovr
  }

  lemma QuotDrops(a: real, b: real, share: real, step: real)
    requires share > 0.0 && b == a - step && step >= 0.0
    ensures b / share <= a / share
    ensures step >= share ==> b / share <= a / share - 1.0
  {
    var q := a / share;
    assert q * share == a;
    assert b / share == (a - step) / share == q - step / share;
    OverMono(0.0, step, share);
    if step >= share {
      OverMono(share, step, share);
      assert share / share == 1.0;
    }
  }

  lemma NeedDrops(prog: Program, len: Distance, p: Point, m: Machine, dt: real, pace: Pace)
    requires InRun(prog, len, p, m) && PaceOk(pace) && dt >= 0.0
    requires Movable(prog, len, p, m.line) && Long(prog, len, p, m.line)
    ensures var f := m.frac + Share(prog.blocks[m.line], m.feedOvr, dt, len(m.start, m.target));
      && Need(prog, len, p, m.line, f, pace) <= Need(prog, len, p, m.line, m.frac, pace)
      && (dt >= pace.dt && m.feedOvr >= pace.ovr ==>
            Need(prog, len, p, m.line, f, pace) <= Need(prog, len, p, m.line, m.frac, pace) - 1)
  {
    var b := prog.blocks[m.line];
    var d := len(m.start, b.to);
    var step := Share(b, m.feedOvr, dt, d);
    var share := Share(b, pace.ovr, pace.dt, d);
    SharePositive(b, pace.ovr, pace.dt, d);
    ShareGrows(b, m.feedOvr, dt, d, pace);
    QuotDrops(1.0 - m.frac, 1.0 - (m.frac + step), share, step);
    CeilDrops((1.0 - m.frac) / share, (1.0 - (m.frac + step)) / share);
  }

  /** No event of the run raises the bound, and every counted tick lowers it. */
  lemma RankDescends(prog: Program, len: Distance, p: Point, m: Machine, e: Event, pace: Pace)
    requires Completable(prog, len, p) && PaceOk(pace) && InRun(prog, len, p, m)
    requires !Finishes(prog, m, e) && !Drops(m, e) && (e.Tick? ==> e.dt >= 0.0)
    ensures InRun(prog, len, p, After(prog, len, m, e))
    ensures Rank(prog, len, p, After(prog, len, m, e), pace)
         <= Rank(prog, len, p, m, pace) - if Counts(m, e, pace) then 1 else 0
  {
    if e.Tick? && Runs(m) {
      MoveGoesOn(prog, len, p, m, e.dt);
      var r := After(prog, len, m, e);
      if r.line == m.line {
        NeedDrops(prog, len, p, m, e.dt, pace);
      } else {
        NeedPositive(prog, len, p, m.line, m.frac, pace);
      }
    } else {
      PauseKeepsPlace(prog, len, p, m, e);
    }
  }

  /** The counted ticks among the events of a run. */
  function CountedTicks(prog: Program, len: Distance, m: Machine, es: seq<Event>, pace: Pace): nat
    requires OnProgram(prog, m)
    decreases |es|
  {
    if es == [] then 0
    else
      (if Counts(m, es[0], pace) then 1 else 0) +
      if Finishes(prog, m, es[0]) || Drops(m, es[0]) then 0
      else CountedTicks(prog, len, After(prog, len, m, es[0]), es[1..], pace)
  }

  /** A run that is not over has had fewer counted ticks than the bound, however it was paused. */
  lemma {:induction false} FinishesWithinRank(
    prog: Program, len: Distance, p: Point, m: Machine, es: seq<Event>, pace: Pace)
    requires Completable(prog, len, p) && PaceOk(pace) && InRun(prog, len, p, m) && ForwardTicks(es)
    ensures Play(prog, len, m, es).Running? ==>
      CountedTicks(prog, len, m, es, pace) < Rank(prog, len, p, m, pace)
    decreases |es|
  {
    if es == [] {
      RankAtLeastOne(prog, len, p, m, pace);
    } else if !Finishes(prog, m, es[0]) && !Drops(m, es[0]) {
      RankDescends(prog, len, p, m, es[0], pace);
      FinishesWithinRank(prog, len, p, After(prog, len, m, es[0]), es[1..], pace);
    }
  }

  lemma RankAtLeastOne(prog: Program, len: Distance, p: Point, m: Machine, pace: Pace)
    requires Completable(prog, len, p) && PaceOk(pace) && InRun(prog, len, p, m)
    ensures Rank(prog, len, p, m, pace) >= 1
  {
    if m.line < EndOf(prog) {
      NeedPositive(prog, len, p, m.line, m.frac, pace);
      RankPositive(prog, len, p, m.line + 1, pace);
    }
  }

  /** Ticks, and the commands that at most pause: hold, stop, resume, an alarm, an override. */
  predicate Gentle(e: Event) {
    e.Control? ==> e.command.Hold? || e.command.Stop? || e.command.Resume? || e.command.Alarm? || e.command.Override?
  }

  lemma {:induction false} GentleNeverDrops(prog: Program, len: Distance, m: Machine, es: seq<Event>)
    requires OnProgram(prog, m) && !m.auto && forall e <- es :: Gentle(e)
    ensures !Play(prog, len, m, es).Dropped?
    decreases |es|
  {
    if es != [] {
      assert Gentle(es[0]);
      GentleNeverDrops(prog, len, After(prog, len, m, es[0]), es[1..]);
    }
  }

  /** A started program with enough counted ticks has completed, whatever holds and overrides came between. */
  lemma StartedRunCompletes(prog: Program, len: Distance, m: Machine, es: seq<Event>, pace: Pace)
    requires prog.blocks != [] && m.feedOvr >= 0 && !m.estop
    requires Completable(prog, len, HOME) && PaceOk(pace) && ForwardTicks(es) && forall e <- es :: Gentle(e)
    ensures var s := Commanded(prog, m, Start);
      && InRun(prog, len, HOME, s)
      && (CountedTicks(prog, len, s, es, pace) >= Rank(prog, len, HOME, s, pace) ==>
            Play(prog, len, s, es).Done? &&
            Counters(Play(prog, len, s, es).m) == (m.part + 1, m.partCurrent + 1, m.partTotal + 1))
  {
    var s := Commanded(prog, m, Start);
    StartBeginsRun(prog, len, m, 0);
    FinishesWithinRank(prog, len, HOME, s, es, pace);
    GentleNeverDrops(prog, len, s, es);
    RunVisitsInOrder(prog, len, HOME, s, es);
  }

  /** Turns of the automatic cycle, ticks, and the commands that at most hold the machine up. */
  predicate Calm(e: Event) {
    e.Control? ==> e.command.Hold? || e.command.Resume? || e.command.Alarm? || e.command.Override? || e.command.Auto?
  }

  lemma {:induction false} CalmNeverDrops(prog: Program, len: Distance, m: Machine, es: seq<Event>)
    requires OnProgram(prog, m) && m.exec != Stopped && forall e <- es :: Calm(e)
    ensures !Play(prog, len, m, es).Dropped?
    decreases |es|
  {
    if es != [] {
      assert Calm(es[0]);
      if !Finishes(prog, m, es[0]) { CalmNeverDrops(prog, len, After(prog, len, m, es[0]), es[1..]); }
    }
  }

  /**
   A program the automatic cycle has started, from wherever the machine stands, completes likewise: the
   cycle interrupts and resumes it, but never drops it.
   */
  lemma CycledRunCompletes(prog: Program, len: Distance, m: Machine, now: int, es: seq<Event>, pace: Pace)
    requires prog.blocks != [] && m.feedOvr >= 0 && !m.estop
    requires m.auto && m.exec == Ready && Waited(m, now) > 2000
    requires Completable(prog, len, m.pos) && PaceOk(pace) && ForwardTicks(es) && forall e <- es :: Calm(e)
    ensures var s := Cycled(prog, m, now);
      && InRun(prog, len, m.pos, s)
      && (CountedTicks(prog, len, s, es, pace) >= Rank(prog, len, m.pos, s, pace) ==>
            Play(prog, len, s, es).Done? &&
            Counters(Play(prog, len, s, es).m) == (m.part + 1, m.partCurrent + 1, m.partTotal + 1))
  {
    var s := Cycled(prog, m, now);
    StartBeginsRun(prog, len, m, now);
    FinishesWithinRank(prog, len, m.pos, s, es, pace);
    CalmNeverDrops(prog, len, s, es);
    RunVisitsInOrder(prog, len, m.pos, s, es);
  }

  // ---- when a run can end --------------------------------------------------

  /** The run stands in front of, or at the start of, a block it cannot move along. */
  predicate HeldUp(prog: Program, len: Distance, p: Point, m: Machine, j: nat) {
    && InRun(prog, len, p, m) && j < EndOf(prog) < |prog.blocks| && !Movable(prog, len, p, j)
    && m.line <= j && (m.line == j ==> m.frac <= 0.0)
  }

  lemma ShareNegative(b: Block, ovr: int, dt: real, d: real)
    requires Rate(b) <= 0.0 && ovr >= 0 && dt >= 0.0 && d > 0.0
    ensures Share(b, ovr, dt, d) <= 0.0
  {
    var rate := Rate(b) * ovr as real;
    TimesMono(0.0, -Rate(b), 0.0, ovr as real);
    assert rate == -(-Rate(b) * ovr as real) && rate <= 0.0;
    TimesMono(0.0, -(rate / 100.0 / 60.0), 0.0, dt);
    assert Way(b, ovr, dt) == -(-(rate / 100.0 / 60.0) * dt);
    OverMono(Way(b, ovr, dt), 0.0, d);
  }

  lemma {:induction false} HeldUpForever(prog: Program, len: Distance, p: Point, m: Machine, j: nat, es: seq<Event>)
    requires HeldUp(prog, len, p, m, j) && ForwardTicks(es)
    ensures !Play(prog, len, m, es).Done?
    decreases |es|
  {
    if es != [] && !Drops(m, es[0]) {
      StaysHeldUp(prog, len, p, m, j, es[0]);
      HeldUpForever(prog, len, p, After(prog, len, m, es[0]), j, es[1..]);
    }
  }

  lemma StaysHeldUp(prog: Program, len: Distance, p: Point, m: Machine, j: nat, e: Event)
    requires HeldUp(prog, len, p, m, j) && !Drops(m, e) && (e.Tick? ==> e.dt >= 0.0)
    ensures !Finishes(prog, m, e) && HeldUp(prog, len, p, After(prog, len, m, e), j)
  {
    EndStaysAhead(prog, 0, j);
    EndStaysAhead(prog, 0, m.line);
    if e.Tick? && Runs(m) {
      MoveGoesOn(prog, len, p, m, e.dt);
      if m.line == j { ShareNegative(prog.blocks[j], m.feedOvr, e.dt, len(m.start, m.target)); }
    } else {
      PauseKeepsPlace(prog, len, p, m, e);
    }
  }

  /** Without M30 nothing ever finishes. */
  lemma {:induction false} NoEndNoFinish(prog: Program, len: Distance, m: Machine, es: seq<Event>)
    requires EndOf(prog) == |prog.blocks| && OnProgram(prog, m)
    ensures !Play(prog, len, m, es).Done?
    decreases |es|
  {
    if es != [] { NoEndNoFinish(prog, len, After(prog, len, m, es[0]), es[1..]); }
  }

  function Steady(n: nat): (r: seq<Event>)
    ensures |r| == n && ForwardTicks(r)
  {
    seq(n, k requires 0 <= k < n => Tick(1.0))
  }

  /** Without commands and outside the automatic cycle every tick counts. */
  lemma {:induction false} SteadyCounts(prog: Program, len: Distance, p: Point, m: Machine, n: nat, pace: Pace)
    requires InRun(prog, len, p, m) && Runs(m) && EndOf(prog) < |prog.blocks|
    requires pace.dt <= 1.0 && pace.ovr <= m.feedOvr
    ensures Play(prog, len, m, Steady(n)).Done? ||
            (Play(prog, len, m, Steady(n)).Running? && CountedTicks(prog, len, m, Steady(n), pace) == n)
    decreases n
  {
    if n > 0 {
      var e := Steady(n)[0];
      assert Steady(n)[1..] == Steady(n - 1);
      if !Finishes(prog, m, e) {
        MoveGoesOn(prog, len, p, m, e.dt);
        SteadyCounts(prog, len, p, After(prog, len, m, e), n - 1, pace);
      }
    }
  }

  /** A started program can end exactly when it has an M30 and a positive rate on every segment before it. */
  lemma CompletesIff(prog: Program, len: Distance, m: Machine)
    requires prog.blocks != [] && m.feedOvr >= 0 && !m.estop
    ensures (exists es :: ForwardTicks(es) && Play(prog, len, Commanded(prog, m, Start), es).Done?)
       <==> Completable(prog, len, HOME)
  {
    var r := Commanded(prog, m, Start);
    StartBeginsRun(prog, len, m, 0);
    if Completable(prog, len, HOME) {
      CanComplete(prog, len, m);
    } else {
      forall es | ForwardTicks(es)
        ensures !Play(prog, len, r, es).Done?
      {
        CannotComplete(prog, len, m, es);
      }
    }
  }

  lemma CanComplete(prog: Program, len: Distance, m: Machine)
    requires prog.blocks != [] && m.feedOvr >= 0 && !m.estop && Completable(prog, len, HOME)
    ensures exists es :: ForwardTicks(es) && Play(prog, len, Commanded(prog, m, Start), es).Done?
  {
    var r := Commanded(prog, m, Start);
    var full := Control(Override(100));
    var s := After(prog, len, r, full);
    var pace := Pace(1.0, 100);
    StartBeginsRun(prog, len, m, 0);
    PauseKeepsPlace(prog, len, HOME, r, full);
    RankAtLeastOne(prog, len, HOME, s, pace);
    var n := Rank(prog, len, HOME, s, pace);
    SteadyCounts(prog, len, HOME, s, n, pace);
    FinishesWithinRank(prog, len, HOME, s, Steady(n), pace);
    var es := [full] + Steady(n);
    assert es[1..] == Steady(n);
    assert ForwardTicks(es);
    assert Play(prog, len, r, es).Done?;
  }

  lemma CannotComplete(prog: Program, len: Distance, m: Machine, es: seq<Event>)
    requires prog.blocks != [] && m.feedOvr >= 0 && !m.estop && !Completable(prog, len, HOME) && ForwardTicks(es)
    ensures !Play(prog, len, Commanded(prog, m, Start), es).Done?
  {
    var r := Commanded(prog, m, Start);
    StartBeginsRun(prog, len, m, 0);
    if EndOf(prog) == |prog.blocks| {
      NoEndNoFinish(prog, len, r, es);
    } else {
      var j: nat :| j < EndOf(prog) && !Movable(prog, len, HOME, j);
      HeldUpForever(prog, len, HOME, r, j, es);
    }
  }

  // ---- the programs of the simulator ----------------------------------------

  /**
   Every block in front of M30 is a rapid move, has a positive feed, or stays where the block before
   it goes.
   */
  predicate WellFormed(prog: Program) {
    exists n :: 0 <= n < |prog.blocks| && IsEnd(prog, n) && forall k :: 0 <= k < n ==> BlockOk(prog, k)
  }

  predicate IsEnd(prog: Program, n: nat) {
    n < |prog.blocks| && prog.blocks[n].kind == Finish && forall k :: 0 <= k < n ==> prog.blocks[k].kind != Finish
  }

  predicate BlockOk(prog: Program, k: nat)
    requires k < |prog.blocks|
  {
    Rate(prog.blocks[k]) > 0.0 || (k > 0 && prog.blocks[k].to == prog.blocks[k - 1].to)
  }

  lemma {:induction false} EndIs(prog: Program, k: nat, n: nat)
    requires k <= n && IsEnd(prog, n)
    ensures EndFrom(prog, k) == n
    decreases n - k
  {
    if k < n { EndIs(prog, k + 1, n); }
  }

  /** A well-formed program can complete from anywhere, when no point has a distance from itself. */
  lemma WellFormedCompletable(prog: Program, len: Distance, p: Point)
    requires WellFormed(prog) && forall a :: len(a, a) <= TINY
    ensures Completable(prog, len, p)
  {
    var n :| 0 <= n < |prog.blocks| && IsEnd(prog, n) && forall k :: 0 <= k < n ==> BlockOk(prog, k);
    EndIs(prog, 0, n);
    forall k | 0 <= k < n ensures Movable(prog, len, p, k) {
      assert BlockOk(prog, k);
      if Rate(prog.blocks[k]) <= 0.0 {
        var before := prog.blocks[k - 1].to;
        assert len(before, before) <= TINY;
        assert StartOf(prog, len, p, k) == before || StartOf(prog, len, p, k) == StartOf(prog, len, p, k - 1);
      }
    }
  }

  function Go(x: real, y: real, z: real): Block { Block(Rapid, Point(x, y, z), 0.0, 0.0) }

  function Cut(x: real, y: real, z: real, feed: real, speed: real): Block { Block(Feed, Point(x, y, z), feed, speed) }

  function Turning(x: real, y: real, z: real, speed: real): Block { Block(Spindle, Point(x, y, z), 0.0, speed) }

  const M30 := Block(Finish, HOME, 0.0, 0.0)

  const O1000 := Program([
    Go(0.0, 0.0, 10.0), Go(50.0, 30.0, 10.0), Turning(50.0, 30.0, 10.0, 1500.0),
    Cut(50.0, 30.0, -5.0, 300.0, 1500.0), Cut(100.0, 30.0, -5.0, 600.0, 1500.0),
    Cut(100.0, 70.0, -5.0, 600.0, 1500.0), Cut(50.0, 50.0, -5.0, 500.0, 1500.0),
    Cut(50.0, 30.0, -5.0, 400.0, 1500.0), Cut(50.0, 30.0, 10.0, 300.0, 1500.0),
    Go(0.0, 0.0, 10.0), Turning(0.0, 0.0, 10.0, 0.0), M30], 6)

  const O2000 := Program([
    Go(0.0, 0.0, 10.0), Go(30.0, 20.0, 10.0), Turning(30.0, 20.0, 10.0, 800.0),
    Cut(30.0, 20.0, -3.0, 150.0, 800.0), Cut(80.0, 20.0, -3.0, 200.0, 800.0),
    Cut(80.0, 40.0, -3.0, 200.0, 800.0), Cut(30.0, 20.0, -3.0, 150.0, 800.0),
    Cut(30.0, 20.0, 10.0, 200.0, 800.0), Go(0.0, 0.0, 10.0), Turning(0.0, 0.0, 10.0, 0.0), M30], 6)

  const O3000 := Program([
    Go(0.0, 0.0, 10.0), Go(10.0, 10.0, 10.0), Turning(10.0, 10.0, 10.0, 2000.0),
    Cut(10.0, 10.0, -2.0, 200.0, 2000.0), Cut(90.0, 10.0, -2.0, 400.0, 2000.0),
    Cut(90.0, 60.0, -2.0, 400.0, 2000.0), Cut(10.0, 10.0, -2.0, 350.0, 2000.0),
    Cut(10.0, 10.0, 10.0, 250.0, 2000.0), Go(0.0, 0.0, 10.0), Turning(0.0, 0.0, 10.0, 0.0), M30], 6)

  /** The three programs of the simulator can complete from wherever they are started. */
  lemma BuiltInCompletable(prog: Program, len: Distance, p: Point)
    requires prog == O1000 || prog == O2000 || prog == O3000
    requires forall a :: len(a, a) <= TINY
    ensures prog.blocks != [] && Completable(prog, len, p)
  {
    assert IsEnd(O1000, 11) && forall k :: 0 <= k < 11 ==> BlockOk(O1000, k);
    assert IsEnd(O2000, 10) && forall k :: 0 <= k < 10 ==> BlockOk(O2000, k);
    assert IsEnd(O3000, 10) && forall k :: 0 <= k < 10 ==> BlockOk(O3000, k);
    WellFormedCompletable(prog, len, p);
  }

  // ---- a run without its pauses --------------------------------------------

  /** What a run is made of: the ticks in which the machine moved, with the override at the time. */
  datatype Stroke = Stroke(dt: real, ovr: int)

  function Strokes(prog: Program, len: Distance, m: Machine, es: seq<Event>): seq<Stroke>
    requires OnProgram(prog, m)
    decreases |es|
  {
    if es == [] || Finishes(prog, m, es[0]) || Drops(m, es[0]) then []
    else
      (if es[0].Tick? && Runs(m) then [Stroke(es[0].dt, m.feedOvr)] else []) +
      Strokes(prog, len, After(prog, len, m, es[0]), es[1..])
  }

  /** The machine moved by strokes alone: no commands, no automatic cycle. */
  function Stroked(prog: Program, len: Distance, m: Machine, ks: seq<Stroke>): (r: Machine)
    requires OnProgram(prog, m)
    ensures OnProgram(prog, r)
    decreases |ks|
  {
    if ks == [] then m else Stroked(prog, len, Moved(prog, len, m.(feedOvr := ks[0].ovr), ks[0].dt), ks[1..])
  }

  lemma MovedPlace(prog: Program, len: Distance, a: Machine, b: Machine, k: Stroke)
    requires OnProgram(prog, a) && OnProgram(prog, b) && Place(a) == Place(b)
    ensures Place(Moved(prog, len, a.(feedOvr := k.ovr), k.dt)) == Place(Moved(prog, len, b.(feedOvr := k.ovr), k.dt))
  {
    var d := len(a.start, prog.blocks[a.line].to);
    if d > TINY {
      assert a.frac + Share(prog.blocks[a.line], k.ovr, k.dt, d) == b.frac + Share(prog.blocks[b.line], k.ovr, k.dt, d);
    }
  }

  lemma {:induction false} StrokedPlace(prog: Program, len: Distance, a: Machine, b: Machine, ks: seq<Stroke>)
    requires OnProgram(prog, a) && OnProgram(prog, b) && Place(a) == Place(b)
    ensures Place(Stroked(prog, len, a, ks)) == Place(Stroked(prog, len, b, ks))
    decreases |ks|
  {
    if ks != [] {
      var ra := Moved(prog, len, a.(feedOvr := ks[0].ovr), ks[0].dt);
      var rb := Moved(prog, len, b.(feedOvr := ks[0].ovr), ks[0].dt);
      MovedPlace(prog, len, a, b, ks[0]);
      StrokedPlace(prog, len, ra, rb, ks[1..]);
    }
  }

  /** Taking every pause out of a run that is still going changes nothing about where the machine is. */
  lemma {:induction false} PausesChangeNothing(prog: Program, len: Distance, p: Point, m: Machine, es: seq<Event>)
    requires InRun(prog, len, p, m) && EndOf(prog) < |prog.blocks| && Play(prog, len, m, es).Running?
    ensures Place(Play(prog, len, m, es).m) == Place(Stroked(prog, len, m, Strokes(prog, len, m, es)))
    decreases |es|
  {
    if es != [] {
      var e := es[0];
      var r := After(prog, len, m, e);
      var ks := Strokes(prog, len, r, es[1..]);
      EventGoesOn(prog, len, p, m, e);
      PausesChangeNothing(prog, len, p, r, es[1..]);
      if e.Tick? && Runs(m) {
        OneStroke(prog, len, m, e.dt);
        assert ([Stroke(e.dt, m.feedOvr)] + ks)[1..] == ks;
        StrokedPlace(prog, len, r, Moved(prog, len, m.(feedOvr := m.feedOvr), e.dt), ks);
      } else {
        PauseKeepsPlace(prog, len, p, m, e);
        assert [] + ks == ks;
        StrokedPlace(prog, len, r, m, ks);
      }
    }
  }

  lemma OneStroke(prog: Program, len: Distance, m: Machine, dt: real)
    requires OnProgram(prog, m) && Runs(m) && prog.blocks[m.line].kind != Finish
    ensures Place(Ticked(prog, len, m, dt)) == Place(Moved(prog, len, m.(feedOvr := m.feedOvr), dt))
  {
  }

  // ---- the spindle ---------------------------------------------------------

  function Gap(a: real, b: real): real { if a < b then b - a else a - b }

  /** The spindle closes its gap to the commanded speed by the step, and never overshoots. */
  lemma RampCloses(act: real, tgt: real, step: real)
    requires step >= 0.0
    ensures Gap(Ramp(act, tgt, step), tgt) == if Gap(act, tgt) <= step then 0.0 else Gap(act, tgt) - step
  {
  }
}
