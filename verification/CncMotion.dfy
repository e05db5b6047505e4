/**
 The simulator in figures: how far a tick moves, how many ticks a block takes, when the automatic cycle
 acts, and what each command leaves behind. Distances, times and places are stated outright and not through
 the functions of the simulator.
 */
module CncMotion {

  import opened CncSim

  // ---- one tick --------------------------------------------------------------

  lemma OfLength(w: real, d: real)
    requires d > 0.0
    ensures w / d * d == w
  {
  }

  lemma Sixtieth(a: real, dt: real)
    ensures a / 100.0 / 60.0 * dt == a * dt / 6000.0
  {
  }

  lemma TimesUp(a: real, b: real, d: real)
    requires d > 0.0
    ensures a * d + b * d == (a + b) * d
    ensures a >= 1.0 <==> a * d >= d
  {
  }

  /** Millimetres a tick of `dt` seconds adds along a block, at `percent` of its rate in millimetres a minute. */
  function Gain(b: Block, percent: int, dt: real): real {
    (if b.kind == Rapid then 6000.0 else b.feed) * percent as real * dt / 6000.0
  }

  lemma ShareOfGain(b: Block, percent: int, dt: real, d: real, frac: real)
    requires d > 0.0
    ensures var f := frac + Share(b, percent, dt, d);
      f * d == frac * d + Gain(b, percent, dt) && (f >= 1.0 <==> frac * d + Gain(b, percent, dt) >= d)
  {
    var share := Share(b, percent, dt, d);
    Sixtieth(Rate(b) * percent as real, dt);
    OfLength(Way(b, percent, dt), d);
    TimesUp(frac, share, d);
    TimesUp(frac + share, 0.0, d);
  }

  /**
   A tick of the running machine on a segment that is long enough to move along: it gains its way on the
   segment, or leaves it at its end and enters the next block, if there is one, from there.
   */
  lemma TickMoves(prog: Program, len: Distance, m: Machine, dt: real)
    requires OnProgram(prog, m) && m.exec == Active && !m.estop && prog.blocks[m.line].kind != Finish
    ensures var b := prog.blocks[m.line];
      var d := len(m.start, b.to);
      var r := Ticked(prog, len, m, dt);
      && r.exec == Active && !r.estop
      && (d <= 0.000000001 && m.line + 1 < |prog.blocks| ==>
            r.line == m.line + 1 && r.frac == 0.0 && r.pos == r.start == m.pos && r.target == prog.blocks[r.line].to)
      && (d > 0.000000001 && m.frac * d + Gain(b, m.feedOvr, dt) < d ==>
            && r.line == m.line && r.start == m.start && r.target == m.target
            && r.frac * d == m.frac * d + Gain(b, m.feedOvr, dt)
            && r.pos.x == m.start.x + (b.to.x - m.start.x) * r.frac
            && r.pos.y == m.start.y + (b.to.y - m.start.y) * r.frac
            && r.pos.z == m.start.z + (b.to.z - m.start.z) * r.frac)
      && (d > 0.000000001 && m.frac * d + Gain(b, m.feedOvr, dt) >= d ==>
            && r.pos == b.to
            && (m.line + 1 < |prog.blocks| ==>
                  r.line == m.line + 1 && r.frac == 0.0 && r.start == b.to && r.target == prog.blocks[r.line].to))
  {
    var b := prog.blocks[m.line];
    var d := len(m.start, b.to);
    if d > TINY {
      ShareOfGain(b, m.feedOvr, dt, d, m.frac);
    }
  }

  lemma Percent(rate: real, percent: real)
    ensures rate * percent / 100.0 * 100.0 == rate * percent
    ensures rate == 6000.0 ==> rate * percent / 100.0 == 60.0 * percent
  {
  }

  /** In a tick the spindle closes its gap by 2500 rpm a second and the feed shown is that of the block. */
  lemma TickShows(prog: Program, len: Distance, m: Machine, dt: real)
    requires OnProgram(prog, m) && dt >= 0.0
    ensures var r := Ticked(prog, len, m, dt);
      && (m.spTgt - 2500.0 * dt <= m.spAct <= m.spTgt + 2500.0 * dt ==> r.spAct == m.spTgt)
      && (m.spAct < m.spTgt - 2500.0 * dt ==> r.spAct == m.spAct + 2500.0 * dt)
      && (m.spAct > m.spTgt + 2500.0 * dt ==> r.spAct == m.spAct - 2500.0 * dt)
      && (m.exec != Active || m.estop ==> r == m.(spAct := r.spAct, feedAct := 0.0))
      && (m.exec == Active && !m.estop && prog.blocks[m.line].kind == Rapid ==> r.feedAct == 60.0 * m.feedOvr as real)
      && (m.exec == Active && !m.estop && (prog.blocks[m.line].kind == Feed || prog.blocks[m.line].kind == Spindle) ==>
            100.0 * r.feedAct == prog.blocks[m.line].feed * m.feedOvr as real)
  {
    var b := prog.blocks[m.line];
    if m.exec == Active && !m.estop && b.kind != Finish { Percent(Rate(b), m.feedOvr as real); }
  }

  /** The spindle is told a speed by a spindle block when the machine enters it, and by no other block. */
  lemma EnteringSetsSpindle(prog: Program, m: Machine, idx: nat)
    requires idx < |prog.blocks|
    ensures prog.blocks[idx].kind == Spindle ==> Entered(prog, m, idx).spTgt == prog.blocks[idx].speed
    ensures prog.blocks[idx].kind != Spindle ==> Entered(prog, m, idx).spTgt == m.spTgt
  {
  }

  // ---- the ticks of a block --------------------------------------------------

  function Ticks(prog: Program, len: Distance, m: Machine, dts: seq<real>): (r: Machine)
    requires OnProgram(prog, m)
    ensures OnProgram(prog, r)
    decreases |dts|
  {
    if dts == [] then m else Ticks(prog, len, Ticked(prog, len, m, dts[0]), dts[1..])
  }

  predicate Forward(dts: seq<real>) { forall k :: 0 <= k < |dts| ==> dts[k] >= 0.0 }

  lemma GainForward(b: Block, percent: int, dt: real)
    requires percent >= 0 && dt >= 0.0 && (b.kind != Rapid ==> b.feed >= 0.0)
    ensures Gain(b, percent, dt) >= 0.0
  {
    var rate := (if b.kind == Rapid then 6000.0 else b.feed) * percent as real;
    assert rate >= 0.0;
    assert rate * dt >= 0.0;
  }

  /** The running machine is on a block it moves along at a rate that is not negative. */
  predicate Moving(prog: Program, len: Distance, m: Machine) {
    && OnProgram(prog, m) && m.exec == Active && !m.estop && m.feedOvr >= 0
    && prog.blocks[m.line].kind != Finish && (prog.blocks[m.line].kind != Rapid ==> prog.blocks[m.line].feed >= 0.0)
    && len(m.start, prog.blocks[m.line].to) > 0.000000001
  }

  /** The gains of the ticks one by one. */
  function Gains(b: Block, percent: int, dts: seq<real>): real {
    if dts == [] then 0.0 else Gain(b, percent, dts[0]) + Gains(b, percent, dts[1..])
  }

  lemma {:induction false} GainsForward(b: Block, percent: int, dts: seq<real>)
    requires percent >= 0 && Forward(dts) && (b.kind != Rapid ==> b.feed >= 0.0)
    ensures Gains(b, percent, dts) >= 0.0
  {
    if dts != [] {
      GainForward(b, percent, dts[0]);
      GainsForward(b, percent, dts[1..]);
    }
  }

  /** How far the machine is along its segment. */
  function Along(prog: Program, len: Distance, m: Machine): real
    requires OnProgram(prog, m)
  {
    m.frac * len(m.start, prog.blocks[m.line].to)
  }

  lemma StaysOn(prog: Program, len: Distance, m: Machine, dt: real)
    requires Moving(prog, len, m)
    requires Along(prog, len, m) + Gain(prog.blocks[m.line], m.feedOvr, dt) < len(m.start, prog.blocks[m.line].to)
    ensures var r := Ticked(prog, len, m, dt);
      && r.line == m.line && r.start == m.start && r.feedOvr == m.feedOvr && Moving(prog, len, r)
      && Along(prog, len, r) == Along(prog, len, m) + Gain(prog.blocks[m.line], m.feedOvr, dt)
  {
    TickMoves(prog, len, m, dt);
  }

  /** As long as the way of all ticks together is short of the segment, it adds up on it. */
  lemma {:induction false} GainsAddUp(prog: Program, len: Distance, m: Machine, dts: seq<real>)
    requires Moving(prog, len, m) && Forward(dts)
    requires Along(prog, len, m) + Gains(prog.blocks[m.line], m.feedOvr, dts) < len(m.start, prog.blocks[m.line].to)
    ensures var r := Ticks(prog, len, m, dts);
      && r.line == m.line && r.start == m.start && r.feedOvr == m.feedOvr && Moving(prog, len, r)
      && Along(prog, len, r) == Along(prog, len, m) + Gains(prog.blocks[m.line], m.feedOvr, dts)
    decreases |dts|
  {
    if dts != [] {
      GainsForward(prog.blocks[m.line], m.feedOvr, dts[1..]);
      StaysOn(prog, len, m, dts[0]);
      GainsAddUp(prog, len, Ticked(prog, len, m, dts[0]), dts[1..]);
    }
  }

  lemma {:induction false} TicksSplit(prog: Program, len: Distance, m: Machine, dts: seq<real>, dt: real)
    requires OnProgram(prog, m)
    ensures Ticks(prog, len, m, dts + [dt]) == Ticked(prog, len, Ticks(prog, len, m, dts), dt)
    decreases |dts|
  {
    if dts == [] {
      assert dts + [dt] == [dt];
      assert Ticks(prog, len, m, [dt]) == Ticks(prog, len, Ticked(prog, len, m, dt), []);
    } else {
      assert (dts + [dt])[1..] == dts[1..] + [dt];
      TicksSplit(prog, len, Ticked(prog, len, m, dts[0]), dts[1..], dt);
    }
  }

  lemma LeavesBlock(prog: Program, len: Distance, m: Machine, dt: real)
    requires Moving(prog, len, m) && m.line + 1 < |prog.blocks|
    requires Along(prog, len, m) + Gain(prog.blocks[m.line], m.feedOvr, dt) >= len(m.start, prog.blocks[m.line].to)
    ensures var r := Ticked(prog, len, m, dt);
      r.line == m.line + 1 && r.frac == 0.0 && r.pos == r.start == prog.blocks[m.line].to
  {
    TickMoves(prog, len, m, dt);
  }

  lemma GainsLast(b: Block, percent: int, dts: seq<real>, dt: real)
    ensures Gains(b, percent, dts + [dt]) == Gains(b, percent, dts) + Gain(b, percent, dt)
    decreases |dts|
  {
    if dts == [] {
      assert dts + [dt] == [dt];
      assert [dt][1..] == [];
    } else {
      assert (dts + [dt])[1..] == dts[1..] + [dt];
      GainsLast(b, percent, dts[1..], dt);
    }
  }

  /**
   A block is left in exactly the tick with which the way of the ticks on it reaches its length: the machine
   then stands at its end, at the start of the next block.
   */
  lemma BlockTakes(prog: Program, len: Distance, m: Machine, dts: seq<real>, dt: real)
    requires Moving(prog, len, m) && Forward(dts) && m.line + 1 < |prog.blocks|
    requires Along(prog, len, m) + Gains(prog.blocks[m.line], m.feedOvr, dts) < len(m.start, prog.blocks[m.line].to)
    requires Along(prog, len, m) + Gains(prog.blocks[m.line], m.feedOvr, dts + [dt])
          >= len(m.start, prog.blocks[m.line].to)
    ensures var r := Ticks(prog, len, m, dts + [dt]);
      && Ticks(prog, len, m, dts).line == m.line
      && r.line == m.line + 1 && r.frac == 0.0 && r.pos == r.start == prog.blocks[m.line].to
  {
    GainsAddUp(prog, len, m, dts);
    GainsLast(prog.blocks[m.line], m.feedOvr, dts, dt);
    TicksSplit(prog, len, m, dts, dt);
    LeavesBlock(prog, len, Ticks(prog, len, m, dts), dt);
  }

  function Even(n: nat, dt: real): (r: seq<real>)
    ensures |r| == n
  {
    seq(n, k requires 0 <= k < n => dt)
  }

  lemma {:induction false} EvenGains(b: Block, percent: int, n: nat, dt: real)
    ensures Gains(b, percent, Even(n, dt)) == n as real * Gain(b, percent, dt)
  {
    if n > 0 {
      assert Even(n, dt)[1..] == Even(n - 1, dt);
      EvenGains(b, percent, n - 1, dt);
      OneMore(n - 1, Gain(b, percent, dt));
    }
  }

  lemma OneMore(n: nat, gain: real)
    ensures gain + n as real * gain == (n + 1) as real * gain
  {
  }

  /**
   At one override and ticks of one length, a block of length `d` takes from its start the least number `n`
   of ticks with n * dt * rate * override / 6000 >= d.
   */
  lemma EvenTicks(prog: Program, len: Distance, m: Machine, dt: real, n: nat, rate: real)
    requires Moving(prog, len, m) && m.frac == 0.0 && dt >= 0.0 && m.line + 1 < |prog.blocks| && n > 0
    requires rate == if prog.blocks[m.line].kind == Rapid then 6000.0 else prog.blocks[m.line].feed
    requires (n - 1) as real * (dt * rate * m.feedOvr as real / 6000.0) < len(m.start, prog.blocks[m.line].to)
    requires n as real * (dt * rate * m.feedOvr as real / 6000.0) >= len(m.start, prog.blocks[m.line].to)
    ensures Ticks(prog, len, m, Even(n - 1, dt)).line == m.line
    ensures Ticks(prog, len, m, Even(n, dt)).line == m.line + 1
    ensures Ticks(prog, len, m, Even(n, dt)).pos == prog.blocks[m.line].to
  {
    var b := prog.blocks[m.line];
    EvenGains(b, m.feedOvr, n - 1, dt);
    EvenGains(b, m.feedOvr, n, dt);
    Turned(dt, rate, m.feedOvr as real);
    assert Even(n, dt) == Even(n - 1, dt) + [dt];
    assert Along(prog, len, m) == 0.0;
    BlockTakes(prog, len, m, Even(n - 1, dt), dt);
  }

  lemma Turned(t: real, rate: real, percent: real)
    ensures t * rate * percent == rate * percent * t
  {
    assert t * rate * percent == t * (rate * percent);
  }

  // ---- the automatic cycle ---------------------------------------------------

  /** Milliseconds after which the automatic cycle acts on a machine, and what it makes of it. */
  predicate CycleGoes(exec: Exec, wait: int, next: Exec) {
    || (exec == Ready && wait == 2000 && next == Active)
    || (exec == Active && wait == 10000 && next == Interrupted)
    || (exec == Interrupted && wait == 3000 && next == Active)
    || (exec == Stopped && wait == 3000 && next == Ready)
  }

  /** The cycle acts on a machine it may act on when the time of its state is over, and starts the next time. */
  lemma CycleActs(prog: Program, m: Machine, now: int, wait: int, next: Exec)
    requires prog.blocks != [] && 0 <= now - m.since < 0x1_0000_0000_0000_0000 && CycleGoes(m.exec, wait, next)
    ensures var r := Cycled(prog, m, now);
      && (!m.auto || m.estop || now - m.since <= wait ==> r == m)
      && (m.auto && !m.estop && now - m.since > wait ==>
            && r.exec == next && r.since == now
            && r.auto && !r.estop && Counters(r) == Counters(m) && r.feedOvr == m.feedOvr
            && (m.exec == Active || m.exec == Interrupted ==> Place(r) == Place(m))
            && (m.exec == Active ==> r.feedAct == 0.0)
            && (m.exec == Ready ==> r.line == 0 && r.frac == 0.0 && r.pos == r.start == m.pos)
            && (m.exec == Stopped ==> r.line == 0 && r.pos == Point(0.0, 0.0, 10.0)))
  {
  }

  /** A machine that has just been switched on runs its program from home after two seconds, at full override. */
  lemma PowerUpRuns(prog: Program, t: int, now: int)
    requires prog.blocks != [] && 2000 < now - t < 0x1_0000_0000_0000_0000
    ensures var r := Cycled(prog, PowerUp(t), now);
      && r.exec == Active && !r.estop && r.auto && r.mode == Automatic && r.alarm == 0 && r.feedOvr == 100
      && r.line == 0 && r.frac == 0.0 && r.pos == r.start == Point(0.0, 0.0, 10.0)
      && Counters(r) == (0, 0, 0) && r.product == 0 && r.since == now
  {
  }

  // ---- the commands ----------------------------------------------------------

  /** Started by command, the machine runs the program from home with its spindle told to stand. */
  lemma StartRuns(prog: Program, m: Machine)
    requires prog.blocks != []
    ensures var r := Commanded(prog, m, Start);
      && !r.auto && (m.estop ==> r == m.(auto := false))
      && (!m.estop ==>
            && r.exec == Active && !r.estop && r.mode == Automatic && r.alarm == 0 && r.line == 0 && r.frac == 0.0
            && r.pos == r.start == Point(0.0, 0.0, 10.0) && r.target == prog.blocks[0].to && r.spTgt == 0.0
            && Counters(r) == Counters(m) && r.feedOvr == m.feedOvr)
  {
  }

  /** The machine moves with time: what a tick needs to see. */
  predicate Stands(m: Machine) { m.exec != Active || m.estop }

  /** Hold and stop make a running machine stand where it is; from there resume lets it run on. */
  lemma HoldThenResume(prog: Program, m: Machine, pause: Command)
    requires m.exec == Active && !m.estop && (pause == Hold || pause == Stop)
    ensures var h := Commanded(prog, m, pause);
      var r := Commanded(prog, h, Resume);
      && Stands(h) && h.feedAct == 0.0 && Place(h) == Place(m) && Counters(h) == Counters(m)
      && Place(r) == Place(m) && Counters(r) == Counters(m) && r.feedOvr == m.feedOvr
      && (r.exec == Active && !r.estop <==> m.mode == Automatic)
  {
  }

  /** Resume lets exactly the held and stopped machines run that are in automatic mode without emergency stop. */
  lemma ResumeIff(prog: Program, m: Machine)
    ensures var r := Commanded(prog, m, Resume);
      && Place(r) == Place(m) && Counters(r) == Counters(m)
      && (Stands(m) ==>
            (!Stands(r) <==> !m.estop && (m.exec == Stopped || m.exec == Interrupted) && m.mode == Automatic))
      && (!Stands(m) ==> r == m.(auto := false))
  {
  }

  /** A reset goes home to the first line and forgets the alarm and the parts of this order, no other count. */
  lemma ResetGoesHome(prog: Program, m: Machine)
    ensures var r := Commanded(prog, m, Reset);
      && r.exec == Ready && r.line == 0 && r.frac == 0.0 && r.pos == r.start == r.target == Point(0.0, 0.0, 10.0)
      && r.spTgt == 0.0 && r.feedAct == 0.0 && r.alarm == 0 && r.partCurrent == 0 && r.product == 0
      && r.part == m.part && r.partTotal == m.partTotal && r.estop == m.estop && r.mode == m.mode
  {
  }

  /** The mode is the one set, the machine waits for a start; an alarm interrupts a run, a zero ends the alarm. */
  lemma ModeAndAlarm(prog: Program, m: Machine, mode: Mode, id: nat, percent: int)
    ensures var r := Commanded(prog, m, SetMode(mode));
      r.mode == mode && r.exec == Ready && r.spTgt == 0.0 && r.feedAct == 0.0 && Place(r) == Place(m)
    ensures var r := Commanded(prog, m, CncSim.Alarm(id));
      r.alarm == id && Place(r) == Place(m) && r.exec == if m.exec == Active && id != 0 then Interrupted else m.exec
    ensures var r := Commanded(prog, m, Override(percent));
      && r == m.(auto := false, feedOvr := r.feedOvr) && 0 <= r.feedOvr <= 200
      && (0 <= percent <= 200 ==> r.feedOvr == percent)
      && (percent < 0 ==> r.feedOvr == 0) && (percent > 200 ==> r.feedOvr == 200)
    ensures var r := Commanded(prog, m, Auto(true)); r == m.(auto := true)
    ensures var r := Commanded(prog, m, Auto(false)); r == m.(auto := false)
  {
  }

  /** Every command but that of the automatic cycle takes the machine out of it. */
  lemma CommandTakesOver(prog: Program, m: Machine, c: Command)
    requires !c.Auto?
    ensures !Commanded(prog, m, c).auto
  {
  }

  function AfterAll(prog: Program, len: Distance, m: Machine, es: seq<Event>): (r: Machine)
    requires OnProgram(prog, m)
    ensures OnProgram(prog, r)
    decreases |es|
  {
    if es == [] then m else AfterAll(prog, len, After(prog, len, m, es[0]), es[1..])
  }

  predicate NoRelease(es: seq<Event>) { forall k :: 0 <= k < |es| ==> es[k] != Control(Release) }

  /**
   From the emergency stop on, whatever the cycle, the clock and the commands do, the machine stands and
   counts nothing until the stop is released; it goes nowhere but home, by a reset.
   */
  lemma {:induction false} EstopHolds(prog: Program, len: Distance, m: Machine, es: seq<Event>)
    requires OnProgram(prog, m) && m.estop && NoRelease(es)
    ensures var r := AfterAll(prog, len, m, es);
      && r.estop && r.part == m.part && r.partTotal == m.partTotal
      && (r.pos == m.pos || (Control(Reset) in es && r.pos == Point(0.0, 0.0, 10.0)))
    decreases |es|
  {
    if es != [] {
      EstopHolds(prog, len, After(prog, len, m, es[0]), es[1..]);
    }
  }

  lemma EstopStops(prog: Program, m: Machine)
    ensures var r := Commanded(prog, m, Estop);
      && r.estop && r.exec == Stopped && r.spTgt == 0.0 && r.feedAct == 0.0
      && Place(r) == Place(m) && Counters(r) == Counters(m)
    ensures var r := Commanded(prog, m, Release);
      r == m.(auto := false, estop := false, exec := Ready)
  {
  }
}
