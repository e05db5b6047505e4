/** The client array of the SHDR server: connecting, removing and broadcasting in place. */
module ShdrServer {

  /** What is sent for one data item: which item, and the value as rendered. */
  datatype Shown =
    | Unavailable
    | TextValue(text: string)
    | IntValue(value: int)
    | RealValue(number: real)
    | PointValue(x: real, y: real, z: real)
    | ConditionValue(level: string, code: string, severity: string, qualifier: string, message: string)
    | MessageValue(messageCode: string, body: string)

  datatype Item = Item(index: nat, shown: Shown)

  /** Conditions and messages travel on a line of their own. */
  predicate Alone(s: Shown) { s.ConditionValue? || s.MessageValue? }

  predicate Shared(items: seq<Item>) { forall k :: 0 <= k < |items| ==> !Alone(items[k].shown) }

  predicate LineOk(items: seq<Item>) { |items| == 1 || Shared(items) }

  type Line = items: seq<Item> | LineOk(items)

  const MAX_CLIENTS := 64

  /** A connection; it accepts `left` more lines before a write fails. */
  class Client {
    /** The turn of the server loop it connected in. */
    const turn: nat
    var received: seq<Line>
    var left: nat

    constructor (left: nat, turn: nat)
      ensures received == [] && this.left == left && this.turn == turn
    { received, this.left, this.turn := [], left, turn; }

    method Write(line: Line) returns (ok: bool)
      modifies this
      ensures ok <==> old(left) > 0
      ensures received == if ok then old(received) + [line] else old(received)
      ensures left == if ok then old(left) - 1 else old(left)
    {
      ok := left > 0;
      if ok {
        received := received + [line];
        left := left - 1;
      }
    }
  }

  /** Connections that survive a broadcast, given how many lines each still accepts. */
  function Survivors(cs: seq<Client?>, lefts: seq<nat>): (r: seq<Client?>)
    requires |cs| == |lefts|
    ensures |r| <= |cs|
  {
    if cs == [] then []
    else (if lefts[0] > 0 then [cs[0]] else []) + Survivors(cs[1..], lefts[1..])
  }

  predicate Distinct<T(==)>(s: seq<T>) { forall i, j :: 0 <= i < j < |s| ==> s[i] != s[j] }

  lemma {:induction false} SurvivorsAre(cs: seq<Client?>, lefts: seq<nat>)
    requires |cs| == |lefts|
    ensures forall c :: c in Survivors(cs, lefts) <==> exists k :: 0 <= k < |cs| && cs[k] == c && lefts[k] > 0
  {
    if cs != [] {
      SurvivorsAre(cs[1..], lefts[1..]);
      forall c ensures c in Survivors(cs, lefts) <==> exists k :: 0 <= k < |cs| && cs[k] == c && lefts[k] > 0 {
        if k :| 0 <= k < |cs| && cs[k] == c && lefts[k] > 0 {
          if k > 0 { assert cs[1..][k - 1] == c && lefts[1..][k - 1] > 0; }
        }
        if c in Survivors(cs[1..], lefts[1..]) {
          var k :| 0 <= k < |cs[1..]| && cs[1..][k] == c && lefts[1..][k] > 0;
          assert cs[k + 1] == c && lefts[k + 1] > 0;
        }
      }
    }
  }

  ghost function Members(cs: seq<Client?>): set<Client> { set i | 0 <= i < |cs| && cs[i] != null :: cs[i] }

  lemma {:induction false} DistinctCount(cs: seq<Client?>)
    requires Distinct(cs) && forall i :: 0 <= i < |cs| ==> cs[i] != null
    ensures |Members(cs)| == |cs|
  {
    if cs != [] {
      var init, c := cs[..|cs| - 1], cs[|cs| - 1];
      DistinctCount(init);
      assert Members(cs) == Members(init) + {c} && c !in Members(init);
    }
  }

  /** The read finds the connection dead; `gone` has the turns in which the dead ones connected. */
  predicate Lost(c: Client?, gone: set<nat>) { c != null && c.turn in gone }

  /** Connections that are not found dead, in order. */
  function Staying(cs: seq<Client?>, gone: set<nat>): seq<Client?> {
    if cs == [] then [] else (if Lost(cs[0], gone) then [] else [cs[0]]) + Staying(cs[1..], gone)
  }

  lemma {:induction false} StayingAre(cs: seq<Client?>, gone: set<nat>)
    ensures forall c :: c in Staying(cs, gone) <==> c in cs && !Lost(c, gone)
  {
    if cs != [] { StayingAre(cs[1..], gone); }
  }

  function Without<T>(s: seq<T>, k: nat): seq<T>
    requires k < |s|
  {
    s[..k] + s[k + 1..]
  }

  class Server {
    const slots: array<Client?>
    var num: nat
    /** Lines broadcast so far. */
    ghost var sent: nat

    ghost predicate Valid()
      reads this, slots
    {
      && slots.Length == MAX_CLIENTS + 1 && num <= MAX_CLIENTS
      && (forall i :: 0 <= i < num ==> slots[i] != null)
      && Distinct(slots[..num])
    }

    constructor ()
      ensures Valid() && num == 0 && fresh(slots)
    {
      slots := new Client?[MAX_CLIENTS + 1](_ => null);
      num, sent := 0, 0;
    }

    ghost function Connected(): (r: set<Client>)
      requires Valid()
      reads this, slots
      ensures forall i :: 0 <= i < num ==> slots[i] in r
      ensures forall c :: c in r ==> c in slots[..num]
    {
      set i | 0 <= i < num :: slots[i]
    }

    /** Returns whether there was room. */
    method AddClient(c: Client) returns (added: bool)
      requires Valid() && c !in slots[..num]
      modifies this`num, slots
      ensures Valid()
      ensures added <==> old(num) < MAX_CLIENTS
      ensures slots[..num] == if added then old(slots[..num]) + [c] else old(slots[..num])
      ensures Connected() == if added then old(Connected()) + {c} else old(Connected())
    {
      added := num < MAX_CLIENTS;
      if added {
        slots[num] := c;
        num := num + 1;
        slots[num] := null;
        assert slots[..num] == old(slots[..num]) + [c];
        assert slots[num - 1] == c;
        assert forall k :: 0 <= k < num - 1 ==> slots[k] == old(slots[k]);
      }
    }

    /** Shifts the clients behind `pos` one place to the left. */
    method ShiftLeft(pos: nat)
      requires slots.Length == MAX_CLIENTS + 1 && pos <= num < MAX_CLIENTS
      modifies slots
      ensures forall k :: 0 <= k < slots.Length ==>
        slots[k] == old(if pos <= k < num then slots[k + 1] else slots[k])
    {
      forall k | pos <= k < num {
        slots[k] := slots[k + 1];
      }
    }

    method RemoveClient(c: Client?)
      requires Valid()
      modifies this`num, slots
      ensures Valid()
      ensures c !in old(slots[..num]) ==> slots[..num] == old(slots[..num])
      ensures forall p :: 0 <= p < old(num) && old(slots[p]) == c ==> slots[..num] == Without(old(slots[..num]), p)
    {
      var pos := 0;
      while pos < num && slots[pos] != c
        invariant 0 <= pos <= num
        invariant c !in slots[..pos]
      {
        pos := pos + 1;
      }
      assert pos == num ==> slots[..pos] == slots[..num];
      if pos < num {
        ghost var before := slots[..num];
        assert before[pos] == c;
        num := num - 1;
        ShiftLeft(pos);
        assert slots[..num] == Without(before, pos);
        WithoutDistinct(before, pos);
        slots[num + 1] := null;
        assert slots[..num] == Without(before, pos);
      }
    }

    lemma WithoutDistinct(s: seq<Client?>, k: nat)
      requires k < |s| && Distinct(s) && forall i :: 0 <= i < |s| ==> s[i] != null
      ensures Distinct(Without(s, k))
      ensures forall i :: 0 <= i < |Without(s, k)| ==> Without(s, k)[i] != null
    {
    }

    /** A failed write drops the client. */
    method SendToClient(c: Client, line: Line)
      requires Valid() && c in slots[..num]
      modifies this`num, slots, c
      ensures Valid()
      ensures old(c.left) > 0 ==> slots[..num] == old(slots[..num]) && c.received == old(c.received) + [line]
                                  && c.left == old(c.left) - 1
      ensures old(c.left) == 0 ==> c.received == old(c.received) && c.left == 0
      ensures forall p :: 0 <= p < old(num) && old(slots[p]) == c && old(c.left) == 0 ==>
        slots[..num] == Without(old(slots[..num]), p)
    {
      var ok := c.Write(line);
      if !ok { RemoveClient(c); }
    }

    /** How far a backward broadcast has got: clients from `i` on have had their turn. */
    ghost predicate Sending(cs: seq<Client?>, lefts: seq<nat>, before: seq<seq<Line>>, line: Line, i: nat)
      requires |cs| == |lefts| == |before|
      reads this, slots, set c | c in cs
    {
      && Valid() && i <= num && i <= |cs| && Distinct(cs)
      && slots[..num] == cs[..i] + Survivors(cs[i..], lefts[i..])
      && forall k :: 0 <= k < |cs| ==> Served(cs[k], lefts[k], before[k], line, k >= i)
    }

    method SendAt(i: nat, line: Line, ghost cs: seq<Client?>, ghost lefts: seq<nat>, ghost before: seq<seq<Line>>)
      requires |cs| == |lefts| == |before| && Sending(cs, lefts, before, line, i + 1)
      modifies this`num, slots, set c | c in cs
      ensures Sending(cs, lefts, before, line, i)
    {
      ghost var now := slots[..num];
      assert now[i] == cs[i] == slots[i];
      assert Served(cs[i], lefts[i], before[i], line, false);
      SendStep(now, cs, lefts, i);
      assert forall k :: 0 <= k < |cs| && k != i ==> cs[k] != slots[i];
      SendSlot(i, line);
      assert slots[..num] == cs[..i] + Survivors(cs[i..], lefts[i..]);
    }

    /** The client in slot `i` gets the line, or is dropped. */
    method SendSlot(i: nat, line: Line)
      requires Valid() && i < num
      modifies this`num, slots, slots[i]
      ensures Valid()
      ensures slots[..num] == if old(slots[i].left) > 0 then old(slots[..num]) else Without(old(slots[..num]), i)
      ensures Served(old(slots[i]), old(slots[i].left), old(slots[i].received), line, true)
    {
      ghost var now := slots[..num];
      assert now[i] == slots[i];
      SendToClient(slots[i], line);
    }

    lemma SendStep(now: seq<Client?>, cs: seq<Client?>, lefts: seq<nat>, i: nat)
      requires |cs| == |lefts| && i < |cs| && now == cs[..i + 1] + Survivors(cs[i + 1..], lefts[i + 1..])
      ensures (if lefts[i] > 0 then now else Without(now, i)) == cs[..i] + Survivors(cs[i..], lefts[i..])
    {
      var tail := Survivors(cs[i + 1..], lefts[i + 1..]);
      SurvivorsStep(cs, lefts, i);
      RemovedAt(now, cs, i, tail);
      assert [] + tail == tail;
    }

    /** The loop of a broadcast, from the last client to the first. */
    method SendBackwards(line: Line, ghost cs: seq<Client?>, ghost lefts: seq<nat>, ghost before: seq<seq<Line>>)
      requires Valid() && cs == slots[..num] && lefts == LeftsOf(cs) && before == ReceivedOf(cs)
      modifies this`num, slots, set c | c in cs
      ensures Sending(cs, lefts, before, line, 0)
    {
      var i := num;
      assert cs[i..] == [] && lefts[i..] == [];
      while i > 0
        invariant 0 <= i <= num && |cs| == old(num)
        invariant Sending(cs, lefts, before, line, i)
      {
        i := i - 1;
        SendAt(i, line, cs, lefts, before);
      }
    }

    /**
     Broadcast from the last client to the first: the survivors keep their order and each of them has
     received the line exactly once; nobody else received anything.
     */
    method SendToClients(line: Line)
      requires Valid()
      modifies this, slots, Connected()
      ensures Valid() && sent == old(sent) + 1
      ensures slots[..num] == Survivors(old(slots[..num]), old(LeftsOf(slots[..num])))
      ensures forall c :: c in old(slots[..num]) ==> Served(c, old(c.left), old(c.received), line, true)
    {
      ghost var cs, lefts, before := slots[..num], LeftsOf(slots[..num]), ReceivedOf(slots[..num]);
      SendBackwards(line, cs, lefts, before);
      sent := sent + 1;
      assert cs[0..] == cs && lefts[0..] == lefts && cs[..0] == [];
      forall c | c in cs ensures Served(c, old(c.left), old(c.received), line, true) {
        var k :| 0 <= k < |cs| && cs[k] == c;
        assert Served(cs[k], lefts[k], before[k], line, true);
      }
    }

    lemma ConnectedAre()
      requires Valid()
      ensures forall c :: c in Connected() <==> c in slots[..num]
    {
    }

    lemma SomeConnected()
      requires Valid()
      ensures num > 0 <==> Connected() != {}
    {
      if num > 0 { assert slots[0] in Connected(); }
    }

    lemma CountConnected()
      requires Valid()
      ensures |Connected()| == num
    {
      DistinctCount(slots[..num]);
      assert Connected() == Members(slots[..num]);
    }

    /** Clients found dead while reading are dropped, from the last to the first; the others keep their order. */
    method ReadFromClients(gone: set<nat>)
      requires Valid()
      modifies this`num, slots
      ensures Valid() && slots[..num] == Staying(old(slots[..num]), gone)
      ensures forall c :: c in slots[..num] <==> c in old(slots[..num]) && !Lost(c, gone)
    {
      ghost var cs := slots[..num];
      var i := num;
      assert cs[i..] == [];
      while i > 0
        invariant 0 <= i <= num && i <= |cs| && Reading(cs, gone, i)
      {
        i := i - 1;
        ReadAt(i, gone, cs);
      }
      assert cs[0..] == cs && cs[..0] == [];
      StayingAre(cs, gone);
    }

    /** How far a backward reading has got: clients from `i` on have been looked at. */
    ghost predicate Reading(cs: seq<Client?>, gone: set<nat>, i: nat)
      reads this, slots
    {
      Valid() && i <= num && i <= |cs| && slots[..num] == cs[..i] + Staying(cs[i..], gone)
    }

    method ReadAt(i: nat, gone: set<nat>, ghost cs: seq<Client?>)
      requires Reading(cs, gone, i + 1)
      modifies this`num, slots
      ensures Reading(cs, gone, i)
    {
      ghost var now := slots[..num];
      assert now[i] == cs[i] == slots[i];
      ReadStep(now, cs, gone, i);
      if Lost(slots[i], gone) {
        RemoveClient(slots[i]);
        assert slots[..num] == Without(now, i);
      }
    }

    lemma ReadStep(now: seq<Client?>, cs: seq<Client?>, gone: set<nat>, i: nat)
      requires i < |cs| && now == cs[..i + 1] + Staying(cs[i + 1..], gone)
      ensures (if Lost(cs[i], gone) then Without(now, i) else now) == cs[..i] + Staying(cs[i..], gone)
    {
      StayingStep(cs, gone, i);
      RemovedAt(now, cs, i, Staying(cs[i + 1..], gone));
      assert [] + Staying(cs[i + 1..], gone) == Staying(cs[i + 1..], gone);
    }

    lemma StayingStep(cs: seq<Client?>, gone: set<nat>, i: nat)
      requires i < |cs|
      ensures Staying(cs[i..], gone) == (if Lost(cs[i], gone) then [] else [cs[i]]) + Staying(cs[i + 1..], gone)
    {
      assert cs[i..][1..] == cs[i + 1..];
    }

    lemma SurvivorsStep(cs: seq<Client?>, lefts: seq<nat>, i: nat)
      requires |cs| == |lefts| && i < |cs|
      ensures Survivors(cs[i..], lefts[i..]) ==
              (if lefts[i] > 0 then [cs[i]] else []) + Survivors(cs[i + 1..], lefts[i + 1..])
    {
      assert cs[i..][1..] == cs[i + 1..] && lefts[i..][1..] == lefts[i + 1..];
    }

    lemma RemovedAt(now: seq<Client?>, cs: seq<Client?>, i: nat, tail: seq<Client?>)
      requires i < |cs| && now == cs[..i + 1] + tail
      ensures Without(now, i) == cs[..i] + tail && now == cs[..i] + ([cs[i]] + tail)
    {
    }
  }

  ghost function LeftsOf(cs: seq<Client?>): (r: seq<nat>)
    requires forall i :: 0 <= i < |cs| ==> cs[i] != null
    reads set c | c in cs
    ensures |r| == |cs| && forall k :: 0 <= k < |cs| ==> r[k] == cs[k].left
  {
    if cs == [] then [] else LeftsOf(cs[..|cs| - 1]) + [cs[|cs| - 1].left]
  }

  ghost function ReceivedOf(cs: seq<Client?>): (r: seq<seq<Line>>)
    requires forall i :: 0 <= i < |cs| ==> cs[i] != null
    reads set c | c in cs
    ensures |r| == |cs| && forall k :: 0 <= k < |cs| ==> r[k] == cs[k].received
  {
    if cs == [] then [] else ReceivedOf(cs[..|cs| - 1]) + [cs[|cs| - 1].received]
  }

  /** Whether a client has (or has not yet) had its turn in a broadcast. */
  ghost predicate Served(c: Client?, left: nat, before: seq<Line>, line: Line, turn: bool)
    reads c
  {
    c != null &&
    if turn && left > 0 then c.received == before + [line] && c.left == left - 1
    else c.received == before && c.left == left
  }
}
