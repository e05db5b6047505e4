/** The linked list of active conditions and the fault handling of the Fanuc adapter. */
module FaultList {

  datatype Level = Unavailable | Normal | Warning | Fault

  class Condition {
    var level: Level
    var text: string
    var code: string
    var qualifier: string
    var severity: string
    var changed: bool
    var hasValue: bool

    constructor ()
      ensures level == Unavailable && !changed && !hasValue
    {
      level, changed, hasValue := Unavailable, false, false;
      text, code, qualifier, severity := "", "", "", "";
    }

    predicate Holds(aLevel: Level, aText: string, aCode: string, aQualifier: string, aSeverity: string)
      reads this
    {
      hasValue && level == aLevel && text == aText && code == aCode && qualifier == aQualifier && severity == aSeverity
    }

    /** Stores a differing reading; the result is the changed flag, not whether this call changed anything. */
    method SetValue(aLevel: Level, aText: string, aCode: string, aQualifier: string, aSeverity: string)
      returns (flag: bool)
      modifies this
      ensures Holds(aLevel, aText, aCode, aQualifier, aSeverity)
      ensures flag == changed == (old(changed) || !old(Holds(aLevel, aText, aCode, aQualifier, aSeverity)))
    {
      if !hasValue || level != aLevel || code != aCode || qualifier != aQualifier || severity != aSeverity
         || text != aText {
        level, code, qualifier, severity, text := aLevel, aCode, aQualifier, aSeverity, aText;
        changed, hasValue := true, true;
      }
      flag := changed;
    }
  }

  class Node {
    const cond: Condition
    var next: Node?
    var prev: Node?

    constructor (cond: Condition, next: Node?)
      ensures this.cond == cond && this.next == next && prev == null
    { this.cond, this.next, prev := cond, next, null; }
  }

  /** The conditions on a chain of nodes, in order. */
  function Conditions(nodes: seq<Node>): (r: seq<Condition>)
    ensures |r| == |nodes| && forall i :: 0 <= i < |nodes| ==> r[i] == nodes[i].cond
  {
    if nodes == [] then [] else [nodes[0].cond] + Conditions(nodes[1..])
  }

  class ConditionList {
    var head: Node?
    ghost var nodes: seq<Node>

    /** Forward links are right; a back link, where there is one, leads to the node before. */
    ghost predicate Valid()
      reads this, nodes
    {
      && head == (if nodes == [] then null else nodes[0])
      && (forall i :: 0 <= i < |nodes| ==> Linked(nodes, i))
      && (forall i, j :: 0 <= i < j < |nodes| ==> nodes[i] != nodes[j])
    }

    constructor ()
      ensures Valid() && nodes == []
    { head, nodes := null, []; }

    /** Puts a condition at the front.  The old head gets no back link. */
    method Add(c: Condition)
      requires Valid()
      modifies this
      ensures Valid() && Conditions(nodes) == [c] + old(Conditions(nodes))
      ensures |nodes| == |old(nodes)| + 1 && fresh(nodes[0]) && nodes[1..] == old(nodes)
      ensures old(NoBackLinks(nodes)) ==> NoBackLinks(nodes)
    {
      var n := new Node(c, head);
      ghost var before := nodes;
      assert n !in before;
      head := n;
      nodes := [n] + nodes;
      assert nodes[1..] == before;
      forall i | 0 < i < |nodes| ensures Linked(nodes, i) && nodes[i] == before[i - 1] {
        assert Linked(before, i - 1);
      }
    }
  }

  ghost predicate Linked(nodes: seq<Node>, i: nat)
    requires i < |nodes|
    reads nodes
  {
    && nodes[i].next == (if i + 1 < |nodes| then nodes[i + 1] else null)
    && (nodes[i].prev == null || (i > 0 && nodes[i].prev == nodes[i - 1]))
  }

  ghost predicate NoBackLinks(nodes: seq<Node>)
    reads nodes
  {
    forall i :: 0 <= i < |nodes| ==> nodes[i].prev == null
  }

  /** What is left when the node at `k` is removed: everything else if it has a back link, what follows it if not. */
  function Remaining<T>(nodes: seq<T>, k: nat, backLink: bool): seq<T>
    requires k < |nodes|
  {
    if backLink then nodes[..k] + nodes[k + 1..] else nodes[k + 1..]
  }

  class Iterator {
    const list: ConditionList
    var current: Node?

    constructor (list: ConditionList)
      ensures this.list == list && current == list.head
    { this.list, current := list, list.head; }

    /** Moves on to the next node. */
    method Next(ghost k: nat)
      requires list.Valid() && k <= |list.nodes|
      requires current == if k < |list.nodes| then list.nodes[k] else null
      modifies this
      ensures current == if k + 1 < |list.nodes| then list.nodes[k + 1] else null
    {
      if current != null {
        assert Linked(list.nodes, k);
        current := current.next;
      }
    }

    /** Removes the current node, which is the `k`-th, and moves on to the next. */
    method Remove(ghost k: nat) returns (ok: bool)
      requires list.Valid() && k <= |list.nodes|
      requires current == if k < |list.nodes| then list.nodes[k] else null
      modifies this, list, list.nodes
      ensures list.Valid()
      ensures ok <==> k < |old(list.nodes)|
      ensures ok ==> list.nodes == Remaining(old(list.nodes), k, old(list.nodes[k].prev) != null)
      ensures ok ==> current == if k + 1 < |old(list.nodes)| then old(list.nodes)[k + 1] else null
      ensures !ok ==> list.nodes == old(list.nodes) && current == null
      ensures old(NoBackLinks(list.nodes)) ==> NoBackLinks(list.nodes)
    {
      if current == null { return false; }
      ghost var before := list.nodes;
      ghost var back := current.prev != null;
      assert Linked(before, k);
      if k + 1 < |before| { assert Linked(before, k + 1); }
      if current.prev != null {
        current.prev.next := current.next;
      } else {
        list.head := current.next;
      }
      if current.next != null {
        current.next.prev := current.prev;
      }
      current := current.next;
      list.nodes := Remaining(before, k, back);
      forall i | 0 <= i < |list.nodes| ensures Linked(list.nodes, i) {
        ghost var j := if back && i < k then i else if back then i + 1 else i + k + 1;
        assert list.nodes[i] == before[j] && old(Linked(before, j));
      }
      return true;
    }
  }

  /** Without back links a removal drops exactly the current node if and only if it stands at the head. */
  lemma RemovesOneIff<T>(nodes: seq<T>, k: nat)
    requires k < |nodes|
    ensures Remaining(nodes, k, false) == nodes[..k] + nodes[k + 1..] <==> k == 0
  {
    assert |nodes[..k] + nodes[k + 1..]| == |nodes| - 1;
  }

  /** Two conditions are added and the second node is removed: the list is empty afterwards. */
  method RemoveSecond(a: Condition, b: Condition) returns (list: ConditionList)
    ensures list.Valid() && list.nodes == []
  {
    list := new ConditionList();
    list.Add(a);
    list.Add(b);
    var it := new Iterator(list);
    it.Next(0);
    var removed := it.Remove(1);
    assert list.nodes == [];
  }

  // ---- the adapter's conditions --------------------------------------------

  /** One alarm message of the control. */
  datatype Alarm = Alarm(axis: int, number: string, message: string)

  const BITS := 31

  class FanucConditions {
    const logic: Condition
    const comms: Condition
    const motion: Condition
    const system: Condition
    const servo: Condition
    const spindle: Condition
    const axisTravel: seq<Condition>
    const axisOverheat: seq<Condition>
    const axisServo: seq<Condition>
    const active: ConditionList

    /** Every condition the adapter registers. */
    const all: seq<Condition>

    constructor (fixed: seq<Condition>, travel: seq<Condition>, overheat: seq<Condition>, axis: seq<Condition>,
                 all: seq<Condition>)
      requires |fixed| == 6 && forall i :: 0 <= i < 6 ==> fixed[i] in all
      requires (forall c :: c in travel ==> c in all) && (forall c :: c in overheat ==> c in all)
      requires forall c :: c in axis ==> c in all
      requires forall c :: c in all ==> c.level != Fault
      ensures Valid() && this.all == all && fresh(active)
    {
      logic, comms, motion, system, servo, spindle := fixed[0], fixed[1], fixed[2], fixed[3], fixed[4], fixed[5];
      axisTravel, axisOverheat, axisServo := travel, overheat, axis;
      active := new ConditionList();
      this.all := all;
    }

    /** The named conditions and those of the axes are registered. */
    predicate Registered() {
      && logic in all && comms in all && motion in all && system in all && servo in all && spindle in all
      && (forall c :: c in axisTravel ==> c in all) && (forall c :: c in axisOverheat ==> c in all)
      && (forall c :: c in axisServo ==> c in all)
    }

    /** Every condition at fault level is in the active list; the list holds only the adapter's conditions. */
    ghost predicate Valid()
      reads this, active, active.nodes, all
    {
      && active.Valid() && Registered()
      && (forall c :: c in all && c.level == Fault ==> c in Conditions(active.nodes))
      && (forall c :: c in Conditions(active.nodes) ==> c in all)
    }

    predicate AxisOk(axis: int) { axis <= |axisTravel| && axis <= |axisOverheat| && axis <= |axisServo| }

    function TranslateAlarmNo(num: int, axis: int): (c: Condition)
      requires AxisOk(axis) && Registered()
      ensures c in all
    {
      match num
      case 0 => logic
      case 2 => comms
      case 7 => comms
      case 4 => if axis > 0 then axisTravel[axis - 1] else system
      case 5 => if axis > 0 then axisOverheat[axis - 1] else system
      case 6 => if axis > 0 then axisServo[axis - 1] else servo
      case 12 => motion
      case 3 => motion
      case 8 => motion
      case 9 => spindle
      case 19 => logic
      case _ => system
    }

    /** The named conditions are different ones, and none of them is one of an axis. */
    predicate Distinct() {
      var named := {logic, comms, motion, system, servo, spindle};
      && |named| == 6
      && (forall c :: c in axisTravel || c in axisOverheat || c in axisServo ==> c !in named)
      && (forall c :: c in axisTravel ==> c !in axisOverheat && c !in axisServo)
      && (forall c :: c in axisOverheat ==> c !in axisServo)
    }

    lemma SixNames()
      requires Distinct()
      ensures logic !in {comms, motion, system, servo, spindle} && comms !in {motion, system, servo, spindle}
      ensures motion !in {system, servo, spindle} && system !in {servo, spindle} && servo != spindle
    {
      var named := {logic, comms, motion, system, servo, spindle};
      if logic in {comms, motion, system, servo, spindle} { FewNames(named, [comms, motion, system, servo, spindle]); }
      if comms in {motion, system, servo, spindle} { FewNames(named, [logic, motion, system, servo, spindle]); }
      if motion in {system, servo, spindle} { FewNames(named, [logic, comms, system, servo, spindle]); }
      if system in {servo, spindle} { FewNames(named, [logic, comms, motion, servo, spindle]); }
      if servo == spindle { FewNames(named, [logic, comms, motion, system, spindle]); }
    }

    lemma {:induction false} FewNames(named: set<Condition>, cs: seq<Condition>)
      requires forall c :: c in named ==> c in cs
      ensures |named| <= |cs|
    {
      if cs != [] {
        forall c | c in named - {cs[0]} ensures c in cs[1..] { }
        FewNames(named - {cs[0]}, cs[1..]);
      }
    }

    /** Which alarm numbers stand for which condition, on an axis and off the axes. */
    lemma AlarmNumbers(num: int, axis: int)
      requires AxisOk(axis) && Registered() && Distinct()
      ensures var c := TranslateAlarmNo(num, axis);
        && (c == logic <==> num in {0, 19}) && (c == comms <==> num in {2, 7})
        && (c == motion <==> num in {3, 8, 12}) && (c == spindle <==> num == 9)
        && (c == servo <==> num == 6 && axis <= 0)
        && (c in axisTravel <==> num == 4 && axis > 0) && (num == 4 && axis > 0 ==> c == axisTravel[axis - 1])
        && (c in axisOverheat <==> num == 5 && axis > 0) && (num == 5 && axis > 0 ==> c == axisOverheat[axis - 1])
        && (c in axisServo <==> num == 6 && axis > 0) && (num == 6 && axis > 0 ==> c == axisServo[axis - 1])
        && (c == system <==> num !in {0, 2, 3, 4, 5, 6, 7, 8, 9, 12, 19} || (num in {4, 5} && axis <= 0))
    {
      SixNames();
    }

    /** The condition an alarm stands for goes to fault level and, when flagged, on the list. */
    method RaiseAlarm(num: int, a: Alarm)
      requires Valid() && AxisOk(a.axis)
      modifies active, all
      ensures Valid()
      ensures forall n :: n in active.nodes && n !in old(active.nodes) ==> fresh(n)
      ensures var cond := TranslateAlarmNo(num, a.axis);
        cond.level == Fault && cond.text == a.message && cond.code == a.number
      ensures forall c :: c in all && c != TranslateAlarmNo(num, a.axis) ==> c.level == old(c.level)
    {
      var cond := TranslateAlarmNo(num, a.axis);
      var flag := cond.SetValue(Fault, a.message, a.number, "", "");
      if flag {
        active.Add(cond);
        assert Conditions(active.nodes)[0] == cond;
      }
    }

    predicate Readable(read: map<nat, seq<Alarm>>) {
      forall i, j :: i in read && 0 <= j < |read[i]| ==> AxisOk(read[i][j].axis)
    }

    /** One of the first `n` alarms of bit `i` stands for the condition. */
    predicate NamedAt(c: Condition, i: nat, alarms: seq<Alarm>, n: nat)
      requires Registered() && n <= |alarms| && forall j :: 0 <= j < |alarms| ==> AxisOk(alarms[j].axis)
    {
      exists j :: 0 <= j < n && TranslateAlarmNo(i, alarms[j].axis) == c
    }

    lemma NamedNext(c: Condition, i: nat, alarms: seq<Alarm>, n: nat)
      requires Registered() && n < |alarms| && forall j :: 0 <= j < |alarms| ==> AxisOk(alarms[j].axis)
      ensures NamedAt(c, i, alarms, n + 1) <==> NamedAt(c, i, alarms, n) || c == TranslateAlarmNo(i, alarms[n].axis)
    {
    }

    predicate NamedBit(c: Condition, i: nat, word: set<nat>, read: map<nat, seq<Alarm>>)
      requires Registered() && Readable(read)
    {
      i in word && i in read && NamedAt(c, i, read[i], |read[i]|)
    }

    /** An alarm read for one of the first `n` bits of the word stands for the condition. */
    predicate Named(c: Condition, word: set<nat>, read: map<nat, seq<Alarm>>, n: nat)
      requires Registered() && Readable(read)
    {
      exists i :: 0 <= i < n && NamedBit(c, i, word, read)
    }

    /** Bit `i` of the word is set and the control has alarms for it. */
    predicate Alarmed(i: nat, word: set<nat>, read: map<nat, seq<Alarm>>) { i in word && i in read && read[i] != [] }

    lemma NamedIfAlarmed(c: Condition, word: set<nat>, read: map<nat, seq<Alarm>>, i: nat)
      requires Registered() && Readable(read) && i < 31 && Alarmed(i, word, read)
      requires TranslateAlarmNo(i, read[i][0].axis) == c
      ensures Named(c, word, read, BITS)
    {
      assert NamedAt(c, i, read[i], |read[i]|);
      assert NamedBit(c, i, word, read);
    }

    predicate Stands(c: Condition, i: nat, axis: int)
      requires Registered()
    {
      AxisOk(axis) && TranslateAlarmNo(i, axis) == c
    }

    /** A condition that some alarm numbers stand for, whatever the axis, is named by alarms of those bits. */
    lemma NamedByBits(c: Condition, bits: set<nat>, word: set<nat>, read: map<nat, seq<Alarm>>)
      requires Registered() && Readable(read) && forall i :: i in bits ==> i < 31
      requires forall i: nat, axis :: AxisOk(axis) ==> (Stands(c, i, axis) <==> i in bits)
      ensures Named(c, word, read, BITS) <==> exists i :: i in bits && Alarmed(i, word, read)
    {
      if Named(c, word, read, BITS) {
        var i :| 0 <= i < BITS && NamedBit(c, i, word, read);
        var j :| 0 <= j < |read[i]| && TranslateAlarmNo(i, read[i][j].axis) == c;
        assert Stands(c, i, read[i][j].axis);
        assert Alarmed(i, word, read);
      }
      forall i | i in bits && Alarmed(i, word, read) ensures Named(c, word, read, BITS) {
        assert AxisOk(read[i][0].axis);
        assert Stands(c, i, read[i][0].axis);
        NamedIfAlarmed(c, word, read, i);
      }
    }

    lemma BitsOf(c: Condition, bits: set<nat>)
      requires Registered() && Distinct()
      requires (c == logic && bits == {0, 19}) || (c == comms && bits == {2, 7}) ||
               (c == motion && bits == {3, 8, 12}) || (c == spindle && bits == {9})
      ensures forall i: nat, axis :: AxisOk(axis) ==> (Stands(c, i, axis) <==> i in bits)
    {
      SixNames();
      forall i: nat, axis | AxisOk(axis) ensures Stands(c, i, axis) <==> i in bits { AlarmNumbers(i, axis); }
    }

    /** A word raises each of these conditions by its own bits, and the system by every bit without a condition. */
    lemma WordRaises(word: set<nat>, read: map<nat, seq<Alarm>>, n: nat)
      requires Registered() && Readable(read) && Distinct()
      ensures Named(logic, word, read, BITS) <==> Alarmed(0, word, read) || Alarmed(19, word, read)
      ensures Named(comms, word, read, BITS) <==> Alarmed(2, word, read) || Alarmed(7, word, read)
      ensures Named(motion, word, read, BITS) <==>
        Alarmed(3, word, read) || Alarmed(8, word, read) || Alarmed(12, word, read)
      ensures Named(spindle, word, read, BITS) <==> Alarmed(9, word, read)
      ensures 10 <= n < 31 && n != 12 && n != 19 && Alarmed(n, word, read) ==> Named(system, word, read, BITS)
    {
      BitsOf(logic, {0, 19});
      NamedByBits(logic, {0, 19}, word, read);
      BitsOf(comms, {2, 7});
      NamedByBits(comms, {2, 7}, word, read);
      BitsOf(motion, {3, 8, 12});
      NamedByBits(motion, {3, 8, 12}, word, read);
      BitsOf(spindle, {9});
      NamedByBits(spindle, {9}, word, read);
      if 10 <= n < 31 && n != 12 && n != 19 && Alarmed(n, word, read) {
        AlarmNumbers(n, read[n][0].axis);
        NamedIfAlarmed(system, word, read, n);
      }
    }

    /**
     One poll of the alarm word; `read[i]` is what the control answers for bit `i`, absent for an error.
     A zero word empties the list and leaves no condition at fault level; any other word adds exactly
     the conditions its alarms stand for.
     */
    method GetCondition(word: set<nat>, read: map<nat, seq<Alarm>>)
      requires Valid() && Readable(read)
      modifies active, active.nodes, all
      ensures Valid()
      ensures forall n :: n in active.nodes && n !in old(active.nodes) ==> fresh(n)
      ensures word == {} ==> active.nodes == [] && forall c :: c in all ==> c.level != Fault
      ensures word != {} ==>
        forall c :: c in all ==> c.level == if Named(c, word, read, BITS) then Fault else old(c.level)
    {
      if word != {} {
        RaiseWord(word, read);
      } else {
        Drain();
      }
    }

    method RaiseWord(word: set<nat>, read: map<nat, seq<Alarm>>)
      requires Valid() && Readable(read)
      modifies active, all
      ensures Valid()
      ensures forall n :: n in active.nodes && n !in old(active.nodes) ==> fresh(n)
      ensures forall c :: c in all ==> c.level == if Named(c, word, read, BITS) then Fault else old(c.level)
    {
      for i := 0 to BITS
        invariant Valid()
        invariant forall n :: n in active.nodes && n !in old(active.nodes) ==> fresh(n)
        invariant forall c :: c in all ==> c.level == if Named(c, word, read, i) then Fault else old(c.level)
      {
        if i in word && i in read { RaiseBit(i, read[i]); }
        forall c | c in all
          ensures Named(c, word, read, i + 1) <==> Named(c, word, read, i) || NamedBit(c, i, word, read)
        {
          NamedStep(c, word, read, i);
        }
      }
    }

    lemma NamedStep(c: Condition, word: set<nat>, read: map<nat, seq<Alarm>>, i: nat)
      requires Registered() && Readable(read)
      ensures Named(c, word, read, i + 1) <==> Named(c, word, read, i) || NamedBit(c, i, word, read)
    {
    }

    method RaiseBit(i: nat, alarms: seq<Alarm>)
      requires Valid() && forall j :: 0 <= j < |alarms| ==> AxisOk(alarms[j].axis)
      modifies active, all
      ensures Valid()
      ensures forall n :: n in active.nodes && n !in old(active.nodes) ==> fresh(n)
      ensures forall c :: c in all ==> c.level == if NamedAt(c, i, alarms, |alarms|) then Fault else old(c.level)
    {
      for j := 0 to |alarms|
        invariant Valid()
        invariant forall n :: n in active.nodes && n !in old(active.nodes) ==> fresh(n)
        invariant forall c :: c in all ==> c.level == if NamedAt(c, i, alarms, j) then Fault else old(c.level)
      {
        forall c ensures NamedAt(c, i, alarms, j + 1) <==>
                         NamedAt(c, i, alarms, j) || c == TranslateAlarmNo(i, alarms[j].axis) {
          NamedNext(c, i, alarms, j);
        }
        RaiseAlarm(i, alarms[j]);
      }
    }

    /** Sets every listed condition to normal, always removing at the head, until the list is empty. */
    method Drain()
      requires Valid()
      modifies active, active.nodes, all
      ensures Valid() && active.nodes == []
      ensures forall c :: c in all ==> c.level == if c in old(Conditions(active.nodes)) then Normal else old(c.level)
      ensures forall c :: c in all ==> c.level != Fault
    {
      var it := new Iterator(active);
      ghost var nodes, done, k := active.nodes, {}, 0;
      while it.current != null
        invariant Valid() && fresh(it) && it.list == active && it.current == active.head
        invariant k <= |nodes| && active.nodes == nodes[k..]
        invariant forall c :: c in done || c in Conditions(active.nodes) <==> c in Conditions(nodes)
        invariant forall c :: c in all ==> c.level == if c in done then Normal else old(c.level)
        decreases |active.nodes|
      {
        done := done + {it.current.cond};
        DrainNext(it, nodes, k);
        k := k + 1;
      }
    }

    method DrainNext(it: Iterator, ghost nodes: seq<Node>, ghost k: nat)
      requires Valid() && it.list == active && it.current == active.head && it.current != null
      requires k < |nodes| && active.nodes == nodes[k..]
      modifies it, active, nodes, all
      ensures Valid() && it.current == active.head && active.nodes == nodes[k + 1..]
      ensures forall c ::
        c in old(Conditions(active.nodes)) <==> c == old(it.current.cond) || c in Conditions(active.nodes)
      ensures forall c :: c in all ==> c.level == if c == old(it.current.cond) then Normal else old(c.level)
    {
      assert forall n :: n in active.nodes ==> n in nodes;
      assert nodes[k..][1..] == nodes[k + 1..];
      DrainHead(it);
    }

    method DrainHead(it: Iterator)
      requires Valid() && it.list == active && it.current == active.head && it.current != null
      modifies it, active, active.nodes, all
      ensures Valid() && it.current == active.head && active.nodes == old(active.nodes)[1..]
      ensures forall c ::
        c in old(Conditions(active.nodes)) <==> c == old(it.current.cond) || c in Conditions(active.nodes)
      ensures forall c :: c in all ==> c.level == if c == old(it.current.cond) then Normal else old(c.level)
    {
      ghost var before := active.nodes;
      var cond := it.current.cond;
      assert Conditions(before)[0] == cond && cond in Conditions(before);
      var flag := cond.SetValue(Normal, "", "", "", "");
      var ok := it.Remove(0);
      assert active.nodes == before[1..];
      assert Conditions(before) == [cond] + Conditions(active.nodes);
    }

    /** Connecting sets every condition to normal; losing the device sets it to unavailable. */
    method SetAll(level: Level)
      requires Valid() && level != Fault
      modifies all
      ensures Valid() && forall c :: c in all ==> c.level == level
    {
      var todo := all;
      for i := 0 to |todo|
        invariant Valid()
        invariant forall k :: 0 <= k < i ==> todo[k].level == level
      {
        var flag := todo[i].SetValue(level, "", "", "", "");
      }
    }

    /** A condition that has been sent is no longer flagged; its level stays. */
    method Sent(c: Condition)
      requires Valid() && c in all
      modifies c`changed
      ensures Valid() && !c.changed
    {
      c.changed := false;
    }
  }

  datatype Event = Poll(word: set<nat>, read: map<nat, seq<Alarm>>) | Sending(c: Condition) | Linking(level: Level)

  /**
   Over any run of polls, sendings and connections, the faults stay on the list, and a last zero word
   clears them all.
   */
  method RunFaults(a: FanucConditions, events: seq<Event>)
    requires a.Valid()
    requires forall e :: e in events ==>
      (e.Poll? ==> a.Readable(e.read)) && (e.Sending? ==> e.c in a.all) && (e.Linking? ==> e.level != Fault)
    modifies a.active, a.active.nodes, a.all
    ensures a.Valid()
    ensures |events| > 0 && events[|events| - 1].Poll? && events[|events| - 1].word == {} ==>
      a.active.nodes == [] && forall c :: c in a.all ==> c.level != Fault
  {
    for k := 0 to |events|
      invariant a.Valid()
      invariant forall n :: n in a.active.nodes && n !in old(a.active.nodes) ==> fresh(n)
      invariant k > 0 && events[k - 1].Poll? && events[k - 1].word == {} ==>
        a.active.nodes == [] && forall c :: c in a.all ==> c.level != Fault
    {
      assert events[k] in events;
      match events[k]
      case Poll(word, read) =>
        assert forall i :: 0 <= i < |a.active.nodes| ==>
          a.active.nodes[i] in old(a.active.nodes) || fresh(a.active.nodes[i]);
        a.GetCondition(word, read);
      case Sending(c) => a.Sent(c);
      case Linking(level) => a.SetAll(level);
    }
  }
}
