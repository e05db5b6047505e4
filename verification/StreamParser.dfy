/**
 The incremental parser of an agent response.  A response arrives in arbitrary pieces; finished
 <DeviceStream> blocks are applied to the machine states and dropped from the buffer.
 */
module StreamParsing {
  import opened Text

  datatype Cond = Cond(kind: string, state: string)

  datatype MachineState = MachineState(
    name: string, execution: string, mode: string, tmmode: string, avail: string,
    program: string, comment: string, partTotal: int, seen: bool, conds: map<string, Cond>)

  const NEW_MACHINE := MachineState("", "", "", "", "", "", "", -1, false, map[])

  type StateMap = map<string, MachineState>

  /** An element: the text between its tags and its opening tag (without the `>`). */
  datatype Hit = Hit(value: string, head: string)

  datatype Field = Execution | Mode | Comment | Program | Avail

  // ---- attributes and tags -------------------------------------------------

  /** The value of the first `name="..."` in `s`, empty when there is none. */
  function AttrOf(s: string, name: string): string {
    var pat := name + "=\"";
    var p := Find(s, pat, 0);
    if p == -1 then ""
    else
      var q := p + |pat|;
      var e := Find(s, "\"", q);
      if e == -1 then "" else s[q..e]
  }

  function SequenceOf(h: Hit): int { ParseLL(AttrOf(h.head, "sequence")) }

  function CharAt(s: string, p: nat): char { if p < |s| then s[p] else '\0' }

  /** One step of a scan: nothing more to find, a place to go on from, or an item. */
  datatype Scan<T> = Stop | Skip(from: nat) | Step(item: T, next: nat)

  /** The closing tag starts after the `>` that ends the opening one. */
  lemma TagGap(s: string, tag: string, p: nat, gt: nat, ce: nat)
    requires gt == Find(s, ">", p) && ce == Find(s, "</" + tag + ">", gt)
    ensures gt < ce
  {
    FindLeftmost(s, ">", p);
    FindLeftmost(s, "</" + tag + ">", gt);
    assert ">"[0] == s[gt + 0];
    assert ("</" + tag + ">")[0] == s[ce + 0];
  }

  /** The `<tag ...>value</tag>` element that opens at `p`, when it is complete. */
  function ElementAt(s: string, p: nat, tag: string): (r: Scan<Hit>)
    ensures !r.Skip?
    ensures r.Step? ==> p < r.next <= |s|
  {
    var gt := Find(s, ">", p);
    if gt == -1 then Stop
    else
      var close := "</" + tag + ">";
      var ce := Find(s, close, gt);
      if ce == -1 then Stop
      else
        TagGap(s, tag, p, gt, ce);
        Step(Hit(s[gt + 1..ce], s[p..gt]), ce + |close|)
  }

  /** Looks at the `<tag` that starts at `p`; a longer tag name is stepped over. */
  function TagAt(s: string, p: nat, tag: string): (r: Scan<Hit>)
    ensures r.Step? ==> p < r.next <= |s|
    ensures r.Skip? ==> r.from == p + 1
  {
    var c := CharAt(s, p + |tag| + 1);
    if c == ' ' || c == '>' then ElementAt(s, p, tag) else Skip(p + 1)
  }

  /** Looks at the first `<tag` at or after `pos`. */
  function TagStep(s: string, pos: nat, tag: string): (r: Scan<Hit>)
    ensures r.Step? ==> pos < r.next <= |s|
    ensures r.Skip? ==> pos < r.from <= |s|
  {
    var p := Find(s, "<" + tag, pos);
    if p == -1 then Stop else TagAt(s, p, tag)
  }

  /** The next complete `<tag ...>value</tag>` at or after `pos`. */
  function NextTag(s: string, pos: nat, tag: string): (r: Scan<Hit>)
    ensures !r.Skip?
    ensures r.Step? ==> pos < r.next <= |s|
    decreases |s| - pos
  {
    match TagStep(s, pos, tag)
    case Skip(from) => NextTag(s, from, tag)
    case step => step
  }

  lemma NextTagIs(s: string, from: nat, p: nat, tag: string)
    requires Find(s, "<" + tag, from) == p
    ensures NextTag(s, from, tag) == if TagAt(s, p, tag).Skip? then NextTag(s, p + 1, tag) else TagAt(s, p, tag)
  {
    assert TagStep(s, from, tag) == TagAt(s, p, tag);
  }

  method NextTagValue(s: string, pos: nat, tag: string) returns (r: Scan<Hit>)
    ensures r == NextTag(s, pos, tag)
  {
    var open := "<" + tag;
    ghost var from := pos;
    var p := Find(s, open, pos);
    while p != -1
      invariant p == Find(s, open, from)
      invariant NextTag(s, pos, tag) == NextTag(s, from, tag)
      decreases |s| - from
    {
      r := TagAt(s, p, tag);
      NextTagIs(s, from, p, tag);
      if !r.Skip? { return; }
      from := p + 1;
      p := Find(s, open, p + 1);
    }
    return Stop;
  }

  /** All complete `<tag ...>` elements of `s` from `pos` on, in document order. */
  function Hits(s: string, pos: nat, tag: string): seq<Hit>
    decreases |s| - pos
  {
    match NextTag(s, pos, tag)
    case Step(h, next) => [h] + Hits(s, next, tag)
    case _ => []
  }

  /** The last element wins; a block without the element leaves the field alone. */
  function LastValue(hits: seq<Hit>, current: string): string {
    if hits == [] then current else Trimmed(hits[|hits| - 1].value)
  }

  function MaxSeq(hits: seq<Hit>): nat {
    if hits == [] then 0 else Max(MaxSeq(hits[..|hits| - 1]), SequenceOf(hits[|hits| - 1]))
  }

  function TagOf(f: Field): string {
    match f
    case Execution => "Execution"
    case Mode => "ControllerMode"
    case Comment => "ProgramComment"
    case Program => "Program"
    case Avail => "Availability"
  }

  function Get(st: MachineState, f: Field): string {
    match f
    case Execution => st.execution
    case Mode => st.mode
    case Comment => st.comment
    case Program => st.program
    case Avail => st.avail
  }

  function Set(st: MachineState, f: Field, v: string): (r: MachineState)
    ensures r.name == st.name && r.seen == st.seen
  {
    match f
    case Execution => st.(execution := v)
    case Mode => st.(mode := v)
    case Comment => st.(comment := v)
    case Program => st.(program := v)
    case Avail => st.(avail := v)
  }

  method Apply(block: string, f: Field, st: MachineState, last: nat)
    returns (st': MachineState, last': nat)
    ensures st' == Set(st, f, LastValue(Hits(block, 0, TagOf(f)), Get(st, f)))
    ensures last' == Max(last, MaxSeq(Hits(block, 0, TagOf(f))))
  {
    st', last' := st, last;
    ghost var done: seq<Hit> := [];
    var pos := 0;
    var h := NextTagValue(block, pos, TagOf(f));
    while h.Step?
      invariant h == NextTag(block, pos, TagOf(f))
      invariant Hits(block, 0, TagOf(f)) == done + Hits(block, pos, TagOf(f))
      invariant st' == Set(st, f, LastValue(done, Get(st, f)))
      invariant last' == Max(last, MaxSeq(done))
      decreases |block| - pos
    {
      SnocValue(done, h.item, f, st);
      SnocSeq(done, h.item);
      Associate(done, [h.item], Hits(block, h.next, TagOf(f)));
      done := done + [h.item];
      st', last' := Take(h.item, f, st', last');
      pos := h.next;
      h := NextTagValue(block, pos, TagOf(f));
    }
    assert done + [] == done;
  }

  /** One element of a field: its trimmed value, and its sequence number if that is higher. */
  method Take(h: Hit, f: Field, st: MachineState, last: nat) returns (st': MachineState, last': nat)
    ensures st' == Set(st, f, Trimmed(h.value)) && last' == Max(last, SequenceOf(h))
  {
    var v := Trim(h.value);
    st', last' := Set(st, f, v), last;
    if SequenceOf(h) > last { last' := SequenceOf(h); }
  }

  lemma SnocValue(hits: seq<Hit>, h: Hit, f: Field, st: MachineState)
    ensures Set(Set(st, f, LastValue(hits, Get(st, f))), f, Trimmed(h.value))
         == Set(st, f, LastValue(hits + [h], Get(st, f)))
  {
  }

  lemma SnocSeq(hits: seq<Hit>, h: Hit)
    ensures MaxSeq(hits + [h]) == Max(MaxSeq(hits), SequenceOf(h))
  {
    assert (hits + [h])[..|hits|] == hits;
  }

  /** The first element carrying `name="item"`, up to the next `<`. */
  function NamedSample(s: string, item: string): Option<Hit> {
    var p := Find(s, "name=\"" + item + "\"", 0);
    if p == -1 then None
    else
      var open := RFind(s, '<', p);
      var gt := Find(s, ">", p);
      if open == -1 || gt == -1 then None
      else
        var lt := Find(s, "<", gt + 1);
        if lt == -1 then None
        else Some(Hit(s[gt + 1..lt], s[open..gt]))
  }

  // ---- alarm conditions ----------------------------------------------------

  const CONDITION_NAMES := ["Normal", "Warning", "Fault", "Failed", "Unavailable"]

  function Upper(s: string): string {
    if s == [] then [] else [if 'a' <= s[0] <= 'z' then (s[0] as int - 32) as char else s[0]] + Upper(s[1..])
  }

  function FirstOf(s: string, pats: seq<string>): (r: int)
    ensures -1 <= r <= |s|
  {
    if pats == [] then -1
    else if Find(s, pats[0], 0) != -1 then Find(s, pats[0], 0)
    else FirstOf(s, pats[1..])
  }

  function ConditionSection(block: string): Option<string> {
    var cs := FirstOf(block, ["<Condition>", "<Condition ", "<Condition/>", "<Condition /"]);
    if cs == -1 then None
    else
      var ce := Find(block, "</Condition>", cs);
      if ce == -1 then None else Some(block[cs..ce])
  }

  /** Looks at the `<name` that starts at `p`; a longer tag name is stepped over. */
  function MarkAt(sec: string, p: nat, name: string): (r: Scan<string>)
    ensures r.Step? ==> p < r.next
    ensures r.Skip? ==> r.from == p + |name| + 1
  {
    var c := CharAt(sec, p + |name| + 1);
    if c != ' ' && c != '>' && c != '/' then Skip(p + |name| + 1)
    else
      var gt := Find(sec, ">", p);
      if gt == -1 then Stop else Step(sec[p..gt], AfterMark(sec, gt, name))
  }

  /** Looks at the first `<name` at or after `pos`. */
  function MarkStep(sec: string, pos: nat, name: string): (r: Scan<string>)
    ensures r.Step? ==> pos < r.next && pos < |sec|
    ensures r.Skip? ==> pos < r.from <= |sec|
  {
    var p := Find(sec, "<" + name, pos);
    if p == -1 then Stop else MarkAt(sec, p, name)
  }

  /** The tags of the condition elements called `name`, in document order. */
  function Marks(sec: string, pos: nat, name: string): seq<string>
    decreases |sec| - pos
  {
    match MarkStep(sec, pos, name)
    case Stop => []
    case Skip(from) => Marks(sec, from, name)
    case Step(tag, next) => [tag] + Marks(sec, next, name)
  }

  function AfterMark(sec: string, gt: nat, name: string): (r: nat)
    ensures r > gt
  {
    if At(sec, "</" + name + ">", gt + 1) then gt + 1 + |"</" + name + ">"| else gt + 1
  }

  /** One condition element; an element without a data item is ignored. */
  function PutMark(conds: map<string, Cond>, tag: string, name: string): map<string, Cond> {
    var item := AttrOf(tag, "dataItemId");
    var kind := AttrOf(tag, "type");
    if item == "" then conds else conds[item := Cond(if kind == "" then "FAULT" else kind, Upper(name))]
  }

  function PutMarks(conds: map<string, Cond>, tags: seq<string>, name: string): map<string, Cond> {
    if tags == [] then conds else PutMark(PutMarks(conds, tags[..|tags| - 1], name), tags[|tags| - 1], name)
  }

  function PutStates(conds: map<string, Cond>, sec: string, names: seq<string>): map<string, Cond> {
    if names == [] then conds
    else
      var name := names[|names| - 1];
      PutMarks(PutStates(conds, sec, names[..|names| - 1]), Marks(sec, 0, name), name)
  }

  function WithEstop(block: string, conds: map<string, Cond>): map<string, Cond> {
    match NextTag(block, 0, "EmergencyStop")
    case Step(h, _) =>
      (if Trimmed(h.value) == "TRIGGERED" then conds["estop" := Cond("ESTOP", "ESTOP")]
      else if Trimmed(h.value) == "ARMED" then conds["estop" := Cond("ESTOP", "NORMAL")]
      else conds)
    case _ => conds
  }

  /** Condition updates of one block: states in the fixed name order, then the emergency stop. */
  function CondsAfter(block: string, conds: map<string, Cond>): map<string, Cond> {
    match ConditionSection(block)
    case None => conds
    case Some(sec) => WithEstop(block, PutStates(conds, sec, CONDITION_NAMES))
  }

  method ParseConditions(block: string, conds: map<string, Cond>) returns (r: map<string, Cond>)
    ensures r == CondsAfter(block, conds)
  {
    r := conds;
    var section := ConditionSection(block);
    if section.None? { return; }
    r := ParseStates(section.value, CONDITION_NAMES, r);
    var stop := NextTagValue(block, 0, "EmergencyStop");
    if stop.Step? {
      var s := Trim(stop.item.value);
      if s == "TRIGGERED" {
        r := r["estop" := Cond("ESTOP", "ESTOP")];
      } else if s == "ARMED" {
        r := r["estop" := Cond("ESTOP", "NORMAL")];
      }
    }
  }

  method ParseStates(sec: string, names: seq<string>, conds: map<string, Cond>) returns (r: map<string, Cond>)
    ensures r == PutStates(conds, sec, names)
  {
    r := conds;
    for i := 0 to |names|
      invariant r == PutStates(conds, sec, names[..i])
    {
      r := ParseState(sec, names[i], r);
      assert names[..i + 1][..i] == names[..i];
    }
    assert names[..|names|] == names;
  }

  method ParseState(sec: string, name: string, conds: map<string, Cond>) returns (r: map<string, Cond>)
    ensures r == PutMarks(conds, Marks(sec, 0, name), name)
  {
    r := conds;
    var open := "<" + name;
    ghost var done: seq<string> := [];
    ghost var from := 0;
    var pos := Find(sec, open, 0);
    while pos != -1
      invariant pos == Find(sec, open, from)
      invariant Marks(sec, 0, name) == done + Marks(sec, from, name)
      invariant r == PutMarks(conds, done, name)
      decreases |sec| - from
    {
      var step := MarkAt(sec, pos, name);
      assert step == MarkStep(sec, from, name);
      match step
      case Stop => break;
      case Skip(after) =>
        from := after;
        pos := Find(sec, open, after);
      case Step(tag, next) =>
        r := PutMark(r, tag, name);
        SnocMark(conds, done, tag, name);
        Associate(done, [tag], Marks(sec, next, name));
        done := done + [tag];
        from := next;
        pos := Find(sec, open, next);
    }
    assert done + [] == done;
  }

  lemma SnocMark(conds: map<string, Cond>, tags: seq<string>, tag: string, name: string)
    ensures PutMarks(conds, tags + [tag], name) == PutMark(PutMarks(conds, tags, name), tag, name)
  {
    assert (tags + [tag])[..|tags|] == tags;
  }

  // ---- one block -----------------------------------------------------------

  function SampleSeq(h: Option<Hit>): int { if h.None? then 0 else SequenceOf(h.value) }

  function FieldsAfter(block: string, st: MachineState, fs: seq<Field>): (r: MachineState)
    ensures r.name == st.name && r.seen == st.seen
  {
    if fs == [] then st
    else
      var before := FieldsAfter(block, st, fs[..|fs| - 1]);
      var f := fs[|fs| - 1];
      Set(before, f, LastValue(Hits(block, 0, TagOf(f)), Get(before, f)))
  }

  function FieldsSeq(block: string, fs: seq<Field>): nat {
    if fs == [] then 0
    else Max(FieldsSeq(block, fs[..|fs| - 1]), MaxSeq(Hits(block, 0, TagOf(fs[|fs| - 1]))))
  }

  const FIELDS := [Execution, Mode, Comment, Program, Avail]

  function SamplesAfter(block: string, st: MachineState): MachineState {
    var part := NamedSample(block, "partTotal");
    var tm := NamedSample(block, "tmMode");
    st.(partTotal := if part.Some? then ParseLL(part.value.value) else st.partTotal,
        tmmode := if tm.Some? then Trimmed(tm.value.value) else st.tmmode)
  }

  function SamplesSeq(block: string): int {
    Max(SampleSeq(NamedSample(block, "partTotal")), SampleSeq(NamedSample(block, "tmMode")))
  }

  /** What one block does to its own machine. */
  function MachineAfter(block: string, st: MachineState): MachineState {
    var a := SamplesAfter(block, FieldsAfter(block, st, FIELDS));
    a.(conds := CondsAfter(block, a.conds))
  }

  lemma MachineKeepsName(block: string, st: MachineState)
    ensures MachineAfter(block, st).name == st.name && MachineAfter(block, st).seen == st.seen
  {
  }

  method ApplyFields(block: string, st: MachineState, last: nat) returns (st': MachineState, last': nat)
    ensures st' == FieldsAfter(block, st, FIELDS)
    ensures last' == Max(last, FieldsSeq(block, FIELDS))
  {
    st', last' := st, last;
    for i := 0 to |FIELDS|
      invariant st' == FieldsAfter(block, st, FIELDS[..i])
      invariant last' == Max(last, FieldsSeq(block, FIELDS[..i]))
    {
      assert FIELDS[..i + 1][..i] == FIELDS[..i];
      st', last' := Apply(block, FIELDS[i], st', last');
    }
    assert FIELDS[..|FIELDS|] == FIELDS;
  }

  method ApplySamples(block: string, st: MachineState, last: nat) returns (st': MachineState, last': nat)
    ensures st' == SamplesAfter(block, st)
    ensures last' == Max(last, SamplesSeq(block))
  {
    st', last' := st, last;
    var part := NamedSample(block, "partTotal");
    if part.Some? {
      st' := st'.(partTotal := ParseLL(part.value.value));
      if SequenceOf(part.value) > last' { last' := SequenceOf(part.value); }
    }
    var tm := NamedSample(block, "tmMode");
    if tm.Some? {
      var v := Trim(tm.value.value);
      st' := st'.(tmmode := v);
      if SequenceOf(tm.value) > last' { last' := SequenceOf(tm.value); }
    }
  }

  predicate Skipped(block: string) { AttrOf(block, "name") == "" || AttrOf(block, "name") == "Agent" }

  function Touch(states: StateMap, name: string): MachineState {
    var st := if name in states then states[name] else NEW_MACHINE;
    if st.seen then st else st.(seen := true, name := name)
  }

  /** What one block does to the states of all machines. */
  function BlockStates(states: StateMap, block: string): StateMap {
    var name := AttrOf(block, "name");
    if Skipped(block) then states else states[name := MachineAfter(block, Touch(states, name))]
  }

  /** The largest event sequence number one block carries. */
  function BlockSeq(block: string): nat {
    if Skipped(block) then 0
    else Max(FieldsSeq(block, FIELDS), SamplesSeq(block))
  }

  // ---- a whole text --------------------------------------------------------

  const OPEN := "<DeviceStream "
  const CLOSE := "</DeviceStream>"

  /** Where the first complete block of `s` ends (exclusive), or -1. */
  function BlockEnd(s: string): (r: int)
    ensures r != -1 ==> Find(s, OPEN, 0) != -1 && Find(s, OPEN, 0) + 15 <= r <= |s| && r >= 15
    ensures r != -1 ==> r - 15 == Find(s, CLOSE, Find(s, OPEN, 0))
  {
    var p := Find(s, OPEN, 0);
    if p == -1 || Find(s, CLOSE, p) == -1 then -1 else Find(s, CLOSE, p) + 15
  }

  function FirstBlock(s: string): string
    requires BlockEnd(s) != -1
  {
    s[Find(s, OPEN, 0)..BlockEnd(s)]
  }

  /** The complete blocks of a text, in order. */
  function Blocks(s: string): seq<string>
    decreases |s|
  {
    if BlockEnd(s) == -1 then [] else [FirstBlock(s)] + Blocks(s[BlockEnd(s)..])
  }

  /** What remains of a text after its last complete block. */
  function Rest(s: string): string
    decreases |s|
  {
    if BlockEnd(s) == -1 then s else Rest(s[BlockEnd(s)..])
  }

  /** The next complete `<Header ...` tag, without its `>`. */
  function NextHeader(s: string, pos: nat): (r: Scan<string>)
    ensures !r.Skip?
    ensures r.Step? ==> pos < r.next <= |s|
  {
    var p := Find(s, "<Header ", pos);
    if p == -1 then Stop
    else
      var e := Find(s, ">", p);
      if e == -1 then Stop else Step(s[p..e], e + 1)
  }

  /** The complete `<Header ...` tags of a text from `pos` on. */
  function Headers(s: string, pos: nat): seq<string>
    decreases |s| - pos
  {
    match NextHeader(s, pos)
    case Step(tag, next) => [tag] + Headers(s, next)
    case _ => []
  }

  function NextSequence(tag: string): int { ParseLL(AttrOf(tag, "nextSequence")) }

  lemma SnocNext(tags: seq<string>, tag: string)
    ensures MaxNext(tags + [tag]) == Max(MaxNext(tags), NextSequence(tag))
  {
    assert (tags + [tag])[..|tags|] == tags;
  }

  function MaxNext(tags: seq<string>): nat {
    if tags == [] then 0
    else Max(MaxNext(tags[..|tags| - 1]), NextSequence(tags[|tags| - 1]))
  }

  function StatesAfter(states: StateMap, blocks: seq<string>): StateMap {
    if blocks == [] then states
    else BlockStates(StatesAfter(states, blocks[..|blocks| - 1]), blocks[|blocks| - 1])
  }

  function SeqAfter(blocks: seq<string>): nat {
    if blocks == [] then 0 else Max(SeqAfter(blocks[..|blocks| - 1]), BlockSeq(blocks[|blocks| - 1]))
  }

  lemma SnocBlock(states: StateMap, blocks: seq<string>, block: string)
    ensures StatesAfter(states, blocks + [block]) == BlockStates(StatesAfter(states, blocks), block)
    ensures SeqAfter(blocks + [block]) == Max(SeqAfter(blocks), BlockSeq(block))
  {
    assert (blocks + [block])[..|blocks|] == blocks;
  }

  /** The largest sequence number a text carries, in its headers and its complete blocks. */
  function TextSeq(s: string): nat { Max(MaxNext(Headers(s, 0)), SeqAfter(Blocks(s))) }

  // ---- facts about cutting a text ------------------------------------------

  lemma {:induction false} StatesAfterConcat(states: StateMap, a: seq<string>, b: seq<string>)
    ensures StatesAfter(states, a + b) == StatesAfter(StatesAfter(states, a), b)
    ensures SeqAfter(a + b) == Max(SeqAfter(a), SeqAfter(b))
  {
    if b == [] {
      assert a + b == a;
    } else {
      assert (a + b)[..|a + b| - 1] == a + b[..|b| - 1];
      StatesAfterConcat(states, a, b[..|b| - 1]);
    }
  }

  lemma {:induction false} MaxNextConcat(a: seq<string>, b: seq<string>)
    ensures MaxNext(a + b) == Max(MaxNext(a), MaxNext(b))
  {
    if b == [] {
      assert a + b == a;
    } else {
      assert (a + b)[..|a + b| - 1] == a + b[..|b| - 1];
      MaxNextConcat(a, b[..|b| - 1]);
    }
  }

  lemma BlockEndPrefix(a: string, b: string)
    requires BlockEnd(a) != -1
    ensures BlockEnd(a + b) == BlockEnd(a) && FirstBlock(a + b) == FirstBlock(a)
  {
    FindPrefix(a, b, OPEN, 0);
    FindPrefix(a, b, CLOSE, Find(a, OPEN, 0));
  }

  /** Blocks found early are the blocks found late: cutting a text changes nothing. */
  lemma {:induction false} BlocksConcat(a: string, b: string)
    ensures Blocks(a + b) == Blocks(a) + Blocks(Rest(a) + b)
    ensures Rest(a + b) == Rest(Rest(a) + b)
    decreases |a|
  {
    if BlockEnd(a) != -1 {
      BlockEndPrefix(a, b);
      var e := BlockEnd(a);
      assert (a + b)[e..] == a[e..] + b;
      BlocksConcat(a[e..], b);
    }
  }

  lemma {:induction false} RestHasNoBlock(s: string)
    ensures BlockEnd(Rest(s)) == -1 && Blocks(Rest(s)) == [] && Rest(Rest(s)) == Rest(s)
    decreases |s|
  {
    if BlockEnd(s) != -1 {
      RestHasNoBlock(s[BlockEnd(s)..]);
    }
  }

  /** What remains starts where the text starts or right after a `>`. */
  lemma {:induction false} RestCut(s: string) returns (done: string)
    ensures s == done + Rest(s)
    ensures |done| > 0 ==> done[|done| - 1] == '>'
    decreases |s|
  {
    if BlockEnd(s) == -1 {
      done := "";
    } else {
      var e := BlockEnd(s);
      BlockEndsInGt(s);
      var more := RestCut(s[e..]);
      done := s[..e] + more;
      SplitAt(s, e);
      Associate(s[..e], more, Rest(s[e..]));
      LastOfConcat(s[..e], more);
    }
  }

  lemma LastOfConcat(a: string, b: string)
    requires |a| > 0
    ensures (a + b)[|a| + |b| - 1] == if b == "" then a[|a| - 1] else b[|b| - 1]
  {
  }

  lemma BlockEndsInGt(s: string)
    requires BlockEnd(s) != -1
    ensures s[BlockEnd(s) - 1] == '>'
  {
    FindLeftmost(s, CLOSE, Find(s, OPEN, 0));
    assert CLOSE[14] == s[BlockEnd(s) - 15 + 14];
  }

  lemma NextHeaderShift(s: string, c: nat, pos: nat)
    requires c <= |s| && c <= pos
    ensures NextHeader(s[c..], pos - c) == Earlier(NextHeader(s, pos), c)
  {
    FindSuffix(s, c, "<Header ", pos);
    var p := Find(s, "<Header ", pos);
    if p != -1 {
      FindSuffix(s, c, ">", p);
      var e := Find(s, ">", p);
      if e != -1 {
        CutSuffix(s, c, p, e);
      }
    }
  }

  function Earlier(step: Scan<string>, c: nat): Scan<string>
    requires step.Step? ==> step.next >= c
  {
    if step.Step? then Step(step.item, step.next - c) else Stop
  }

  lemma HeadersShift(s: string, c: nat, pos: nat)
    requires c <= |s| && c <= pos
    ensures Headers(s, pos) == Headers(s[c..], pos - c)
  {
    forall from: nat | c <= from ensures NextHeader(s[c..], from - c) == Earlier(NextHeader(s, from), c) {
      NextHeaderShift(s, c, from);
    }
    SameHeaders(s, s[c..], c, pos);
  }

  /** Texts that show the same next header from everywhere, `c` places apart, show the same headers. */
  lemma {:induction false} SameHeaders(s: string, t: string, c: nat, pos: nat)
    requires c <= pos
    requires forall from: nat :: c <= from ==> NextHeader(t, from - c) == Earlier(NextHeader(s, from), c)
    ensures Headers(s, pos) == Headers(t, pos - c)
    decreases |s| - pos
  {
    var step := NextHeader(s, pos);
    if step.Step? { SameHeaders(s, t, c, step.next); }
  }

  lemma NextHeaderPrefix(a: string, b: string, pos: nat)
    requires NextHeader(a, pos).Step?
    ensures NextHeader(a + b, pos) == NextHeader(a, pos)
  {
    var p := Find(a, "<Header ", pos);
    FindPrefix(a, b, "<Header ", pos);
    var e := Find(a, ">", p);
    FindPrefix(a, b, ">", p);
    assert (a + b)[p..e] == a[p..e];
  }

  lemma {:induction false} HeadersPrefix(a: string, b: string, pos: nat)
    ensures Headers(a, pos) <= Headers(a + b, pos)
    decreases |a| - pos
  {
    match NextHeader(a, pos)
    case Step(_, next) =>
      NextHeaderPrefix(a, b, pos);
      HeadersPrefix(a, b, next);
    case _ =>
  }

  /** A header tag that starts before a `>` is closed by it at the latest. */
  lemma HeaderBeforeCut(s: string, c: nat, p: nat)
    requires 0 < c <= |s| && s[c - 1] == '>' && p < c && At(s, "<Header ", p)
    ensures p + 8 <= c && p <= Find(s, ">", p) < c
  {
    var pat := "<Header ";
    forall i | p <= i < p + 8 ensures s[i] != '>' {
      assert pat[i - p] == s[p + (i - p)];
    }
    assert At(s, ">", c - 1);
    FindLeftmost(s, ">", p);
  }

  lemma FindWithin(l: string, r: string, pat: string, from: nat)
    requires from <= Find(l + r, pat, from) <= |l| - |pat|
    ensures Find(l, pat, from) == Find(l + r, pat, from)
  {
    var p := Find(l + r, pat, from);
    FindLeftmost(l + r, pat, from);
    FindLeftmost(l, pat, from);
    AtPrefix(l, r, pat, p);
    FindPrefix(l, r, pat, from);
  }

  /** A header tag lies wholly before or wholly after a cut that follows a `>`. */
  lemma NextHeaderCut(l: string, r: string, pos: nat)
    requires pos <= |l| && (|l| > 0 ==> l[|l| - 1] == '>')
    ensures NextHeader(l, pos).Step? ==> NextHeader(l + r, pos) == NextHeader(l, pos)
    ensures !NextHeader(l, pos).Step? ==> NextHeader(l + r, pos) == NextHeader(l + r, |l|)
  {
    var s, pat := l + r, "<Header ";
    var p := Find(s, pat, pos);
    if NextHeader(l, pos).Step? {
      NextHeaderPrefix(l, r, pos);
    } else if p == -1 || p >= |l| {
      FindSkip(s, pat, pos, |l|);
    } else {
      FindLeftmost(s, pat, pos);
      HeaderBeforeCut(s, |l|, p);
      FindWithin(l, r, pat, pos);
      FindWithin(l, r, ">", p);
      assert false;
    }
  }

  lemma HeadersAfter(l: string, r: string)
    ensures Headers(l + r, |l|) == Headers(r, 0)
  {
    assert (l + r)[|l|..] == r;
    HeadersShift(l + r, |l|, |l|);
  }

  /** No header tag straddles a cut right after a `>`. */
  lemma {:induction false} HeadersCut(l: string, r: string, pos: nat)
    requires pos <= |l| && (|l| > 0 ==> l[|l| - 1] == '>')
    ensures Headers(l + r, pos) == Headers(l, pos) + Headers(r, 0)
    decreases |l| - pos
  {
    NextHeaderCut(l, r, pos);
    var step := NextHeader(l, pos);
    if step.Step? {
      HeadersCut(l, r, step.next);
      Associate([step.item], Headers(l, step.next), Headers(r, 0));
    } else {
      HeadersAfter(l, r);
    }
  }

  lemma MaxNextPrefix(a: seq<string>, b: seq<string>)
    requires a <= b
    ensures MaxNext(a) <= MaxNext(b)
  {
    assert b == a + b[|a|..];
    MaxNextConcat(a, b[|a|..]);
  }

  lemma HeadersAround(l: string, r: string, b: string)
    requires |l| > 0 ==> l[|l| - 1] == '>'
    ensures MaxNext(Headers(l + (r + b), 0)) == Max(MaxNext(Headers(l + r, 0)), MaxNext(Headers(r + b, 0)))
  {
    HeadersCut(l, r, 0);
    HeadersCut(l, r + b, 0);
    MaxNextConcat(Headers(l, 0), Headers(r, 0));
    MaxNextConcat(Headers(l, 0), Headers(r + b, 0));
    HeadersPrefix(r, b, 0);
    MaxNextPrefix(Headers(r, 0), Headers(r + b, 0));
  }

  /** Header tags seen so far plus those of the kept remainder and the new text are all of them. */
  lemma HeadersConcat(a: string, b: string)
    ensures MaxNext(Headers(a + b, 0)) == Max(MaxNext(Headers(a, 0)), MaxNext(Headers(Rest(a) + b, 0)))
  {
    var done := RestCut(a);
    HeadersAround(done, Rest(a), b);
    Associate(done, Rest(a), b);
  }

  /** Cutting a text anywhere changes neither the states nor the sequence number it yields. */
  lemma CutAnywhere(states: StateMap, a: string, b: string)
    ensures StatesAfter(states, Blocks(a + b)) == StatesAfter(StatesAfter(states, Blocks(a)), Blocks(Rest(a) + b))
    ensures TextSeq(a + b) == Max(TextSeq(a), TextSeq(Rest(a) + b))
    ensures Rest(a + b) == Rest(Rest(a) + b)
  {
    BlocksConcat(a, b);
    StatesAfterConcat(states, Blocks(a), Blocks(Rest(a) + b));
    HeadersConcat(a, b);
  }

  // ---- the parser object ---------------------------------------------------

  class StateTable {
    var m: StateMap
    constructor (m: StateMap)
      ensures this.m == m
    { this.m := m; }
  }

  class StreamParser {
    var buf: string
    var lastSeq: nat

    constructor ()
      ensures buf == "" && lastSeq == 0
    { buf, lastSeq := "", 0; }

    method ProcessHeader()
      modifies this`lastSeq
      ensures lastSeq == Max(old(lastSeq), MaxNext(Headers(buf, 0)))
    {
      var pos := 0;
      ghost var done: seq<string> := [];
      while true
        invariant Headers(buf, 0) == done + Headers(buf, pos)
        invariant lastSeq == Max(old(lastSeq), MaxNext(done))
        decreases |buf| - pos
      {
        var header := NextHeader(buf, pos);
        if !header.Step? { break; }
        var tag := header.item;
        var ns := NextSequence(tag);
        if ns > lastSeq { lastSeq := ns; }
        SnocNext(done, tag);
        Associate(done, [tag], Headers(buf, header.next));
        done := done + [tag];
        pos := header.next;
      }
      assert Headers(buf, pos) == [];
      assert done + [] == done;
    }

    method HandleBlock(block: string, states: StateTable)
      modifies this`lastSeq, states
      ensures states.m == BlockStates(old(states.m), block)
      ensures lastSeq == Max(old(lastSeq), BlockSeq(block))
    {
      var devName := AttrOf(block, "name");
      if devName == "" || devName == "Agent" { return; }
      var st := if devName in states.m then states.m[devName] else NEW_MACHINE;
      if !st.seen {
        st := st.(seen := true, name := devName);
      }
      var l;
      st, l := ApplyFields(block, st, lastSeq);
      st, l := ApplySamples(block, st, l);
      lastSeq := l;
      var conds := ParseConditions(block, st.conds);
      states.m := states.m[devName := st.(conds := conds)];
    }

    /** Handles the first complete block and erases the text up to its end. */
    method NextBlock(states: StateTable) returns (found: bool)
      modifies this, states
      ensures found <==> BlockEnd(old(buf)) != -1
      ensures !found ==> Same(buf, old(buf)) && Same(states.m, old(states.m)) && lastSeq == old(lastSeq)
      ensures found ==> Same(buf, old(buf)[BlockEnd(old(buf))..])
      ensures found ==> Same(states.m, BlockStates(old(states.m), FirstBlock(old(buf))))
      ensures found ==> lastSeq == Max(old(lastSeq), BlockSeq(FirstBlock(old(buf))))
    {
      var p := Find(buf, OPEN, 0);
      if p == -1 { return false; }
      var close := Find(buf, CLOSE, p);
      if close == -1 { return false; }
      var end := close + 15;
      assert end == BlockEnd(buf) && Same(buf[p..end], FirstBlock(buf));
      HandleBlock(buf[p..end], states);
      buf := buf[end..];
      return true;
    }

    method Process(states: StateTable)
      modifies this, states
      ensures buf == Rest(old(buf))
      ensures states.m == StatesAfter(old(states.m), Blocks(old(buf)))
      ensures lastSeq == Max(old(lastSeq), TextSeq(old(buf)))
    {
      ProcessHeader();
      ProcessBlocks(states);
    }

    method ProcessBlocks(states: StateTable)
      modifies this, states
      ensures Same(buf, Rest(old(buf)))
      ensures Same(states.m, StatesAfter(old(states.m), Blocks(old(buf))))
      ensures lastSeq == Max(old(lastSeq), SeqAfter(Blocks(old(buf))))
    {
      ghost var done: seq<string> := [];
      assert done + Blocks(buf) == Blocks(buf);
      while true
        invariant Same(Blocks(old(buf)), done + Blocks(buf)) && Same(Rest(old(buf)), Rest(buf))
        invariant Same(states.m, StatesAfter(old(states.m), done))
        invariant lastSeq == Max(old(lastSeq), SeqAfter(done))
        decreases |buf|
      {
        ghost var text := buf;
        var found := NextBlock(states);
        if !found { break; }
        SnocBlock(old(states.m), done, FirstBlock(text));
        Associate(done, [FirstBlock(text)], Blocks(buf));
        done := done + [FirstBlock(text)];
      }
      assert done + [] == done;
    }

    method Feed(data: string, states: StateTable)
      modifies this, states
      ensures buf == Rest(old(buf) + data)
      ensures states.m == StatesAfter(old(states.m), Blocks(old(buf) + data))
      ensures lastSeq == Max(old(lastSeq), TextSeq(old(buf) + data))
    {
      buf := buf + data;
      Process(states);
    }

    method Finish(states: StateTable)
      modifies this, states
      ensures buf == ""
      ensures states.m == StatesAfter(old(states.m), Blocks(old(buf)))
      ensures lastSeq == Max(old(lastSeq), TextSeq(old(buf)))
    {
      Process(states);
      buf := "";
    }
  }

  lemma FinishAddsNothing(text: string)
    ensures Blocks(Rest(text)) == [] && TextSeq(Rest(text)) <= TextSeq(text)
  {
    RestHasNoBlock(text);
    HeadersConcat(text, "");
    assert text + "" == text && Rest(text) + "" == Rest(text);
  }

  /** One-shot parse of a whole document. */
  method ParseDocument(doc: string, states: StateTable) returns (last: nat)
    modifies states
    ensures states.m == StatesAfter(old(states.m), Blocks(doc)) && last == TextSeq(doc)
  {
    var p := new StreamParser();
    p.Feed(doc, states);
    assert "" + doc == doc;
    FinishAddsNothing(doc);
    p.Finish(states);
    last := p.lastSeq;
  }

  function Concat(chunks: seq<string>): string {
    if chunks == [] then "" else Concat(chunks[..|chunks| - 1]) + chunks[|chunks| - 1]
  }

  /**
   One streamed response: a `Feed` per chunk and a `Finish` at the end.  Whatever the chunks are,
   the outcome is that of `ParseDocument` on their concatenation.
   */
  method StreamResponse(chunks: seq<string>, states: StateTable) returns (last: nat)
    modifies states
    ensures states.m == StatesAfter(old(states.m), Blocks(Concat(chunks))) && last == TextSeq(Concat(chunks))
  {
    var p := new StreamParser();
    for i := 0 to |chunks|
      invariant fresh(p)
      invariant p.buf == Rest(Concat(chunks[..i]))
      invariant states.m == StatesAfter(old(states.m), Blocks(Concat(chunks[..i])))
      invariant p.lastSeq == TextSeq(Concat(chunks[..i]))
    {
      ghost var text := Concat(chunks[..i]);
      assert chunks[..i + 1][..i] == chunks[..i];
      CutAnywhere(old(states.m), text, chunks[i]);
      p.Feed(chunks[i], states);
    }
    assert chunks[..|chunks|] == chunks;
    FinishAddsNothing(Concat(chunks));
    p.Finish(states);
    last := p.lastSeq;
  }
}
