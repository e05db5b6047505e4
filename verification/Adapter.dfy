/**
 The adapter's change tracking: data items with changed/has-value flags, the line buffer, and the
 server loop that keeps every connected client up to date, however late it joined.
 */
module Adapters {
  import opened Text
  import opened ShdrServer

  // ---- data items ----------------------------------------------------------

  /** Internal value of a data item. */
  datatype Value =
    | EventVal(text: string)
    | IntVal(value: int, off: bool)
    | SampleVal(number: real, off: bool)
    | StateVal(state: string)
    | ConditionVal(level: string, code: string, severity: string, qualifier: string, message: string)
    | MessageVal(messageCode: string, body: string)
    | PathVal(x: real, y: real, z: real, off: bool)

  /** What toString prints. */
  function Show(v: Value): Shown {
    match v
    case EventVal(t) => TextValue(t)
    case IntVal(n, off) => if off then Unavailable else IntValue(n)
    case SampleVal(r, off) => if off then Unavailable else RealValue(r)
    case StateVal(s) => TextValue(s)
    case ConditionVal(l, c, s, q, m) => ConditionValue(l, c, s, q, m)
    case MessageVal(c, b) => MessageValue(c, b)
    case PathVal(x, y, z, off) => if off then Unavailable else PointValue(x, y, z)
  }

  const TOLERANCE := 0.000001

  function Abs(r: real): real { if r < 0.0 then -r else r }

  /** Whether a new reading is close enough to the stored one to be ignored. */
  function Negligible(stored: Value, v: Value): bool {
    match stored
    case SampleVal(a, off) => v.SampleVal? && !off && Abs(v.number - a) <= TOLERANCE
    case PathVal(x, y, z, off) =>
      v.PathVal? && !off && Abs(v.x - x) <= TOLERANCE && Abs(v.y - y) <= TOLERANCE && Abs(v.z - z) <= TOLERANCE
    case _ => v == stored
  }

  /** The value an item takes when the device is unreachable. */
  function Dead(v: Value): Value {
    match v
    case EventVal(_) => EventVal("UNAVAILABLE")
    case IntVal(n, _) => IntVal(n, true)
    case SampleVal(r, _) => SampleVal(r, true)
    case StateVal(_) => StateVal("UNAVAILABLE")
    case ConditionVal(_, _, _, _, _) => ConditionVal("UNAVAILABLE", "", "", "", "")
    case MessageVal(_, _) => MessageVal("", "UNAVAILABLE")
    case PathVal(x, y, z, _) => PathVal(x, y, z, true)
  }

  predicate CarriesFlag(v: Value) { v.IntVal? || v.SampleVal? || v.PathVal? }

  predicate OwnLine(v: Value) { v.ConditionVal? || v.MessageVal? }

  class Datum {
    var value: Value
    var changed: bool
    var hasValue: bool

    constructor (value: Value)
      ensures this.value == value && !changed && !hasValue
    { this.value, changed, hasValue := value, false, false; }

    /** Stores a reading that differs; flags it for sending. */
    method SetValue(v: Value)
      modifies this
      ensures !changed ==> value == old(value) && hasValue == old(hasValue) && !old(changed)
      ensures if old(hasValue) && Negligible(old(value), v) then value == old(value) && changed == old(changed)
              else value == v && changed
      ensures hasValue
    {
      if !hasValue || !Negligible(value, v) {
        value, changed, hasValue := v, true, true;
      }
    }

    /** The flag-carrying kinds do not count as having a value afterwards, the others do. */
    method SetUnavailable()
      modifies this
      ensures !changed ==> value == old(value) && hasValue == old(hasValue) && !old(changed)
      ensures value == Dead(old(value))
      ensures hasValue <==> old(hasValue) || !CarriesFlag(old(value))
    {
      if CarriesFlag(value) {
        if !value.off {
          value, changed := Dead(value), true;
        }
      } else {
        SetValue(Dead(value));
      }
    }
  }

  datatype DatumState = DatumState(value: Value, changed: bool, hasValue: bool)

  // ---- what a client has seen ----------------------------------------------

  /** The items of all lines in order. */
  function Flat(lines: seq<Line>): seq<Item> {
    if lines == [] then [] else Flat(lines[..|lines| - 1]) + lines[|lines| - 1]
  }

  /** The latest value seen for one item. */
  function Seen(items: seq<Item>, index: nat): Option<Shown> {
    if items == [] then None
    else if items[|items| - 1].index == index then Some(items[|items| - 1].shown)
    else Seen(items[..|items| - 1], index)
  }

  lemma FlatSnoc(lines: seq<Line>, line: Line)
    ensures Flat(lines + [line]) == Flat(lines) + line
  {
    assert (lines + [line])[..|lines|] == lines;
  }

  lemma SeenSnoc(items: seq<Item>, item: Item, index: nat)
    ensures Seen(items + [item], index) == if item.index == index then Some(item.shown) else Seen(items, index)
  {
    assert (items + [item])[..|items|] == items;
  }

  /** The view is current for item `i`. */
  predicate Current(items: seq<Item>, st: seq<DatumState>, i: nat)
    requires i < |st|
  {
    Seen(items, i) == Some(Show(st[i].value))
  }

  /** Everything with a value and not flagged as changed has been seen as it is. */
  predicate Synced(items: seq<Item>, st: seq<DatumState>) {
    forall i :: 0 <= i < |st| && st[i].hasValue && !st[i].changed ==> Current(items, st, i)
  }

  /** Everything with a value below `n` has been seen as it is. */
  predicate UpTo(items: seq<Item>, st: seq<DatumState>, n: nat) {
    forall i :: 0 <= i < n && i < |st| && st[i].hasValue ==> Current(items, st, i)
  }

  /** Sending item `k` makes it current and disturbs no other. */
  lemma AfterSending(items: seq<Item>, st: seq<DatumState>, after: seq<DatumState>, k: nat)
    requires k < |st| && after == st[k := st[k].(changed := false)]
    ensures var seen := items + [Item(k, Show(st[k].value))];
      && (Synced(items, st) ==> Synced(seen, after))
      && (UpTo(items, st, k) ==> UpTo(seen, after, k + 1))
      && (forall n :: UpTo(items, st, n) ==> UpTo(seen, after, n))
  {
    var item := Item(k, Show(st[k].value));
    forall i | 0 <= i < |st| ensures Seen(items + [item], i) == if i == k then Some(item.shown) else Seen(items, i) {
      SeenSnoc(items, item, i);
    }
    assert forall i :: 0 <= i < |st| && i != k ==> (Current(items, st, i) <==> Current(items + [item], after, i));
    assert Current(items + [item], after, k);
  }

  ghost function StateOf(ds: seq<Datum>): (r: seq<DatumState>)
    reads ds
    ensures |r| == |ds|
    ensures forall i :: 0 <= i < |ds| ==> r[i] == DatumState(ds[i].value, ds[i].changed, ds[i].hasValue)
  {
    if ds == [] then []
    else
      var d := ds[|ds| - 1];
      StateOf(ds[..|ds| - 1]) + [DatumState(d.value, d.changed, d.hasValue)]
  }

  // ---- the adapter ---------------------------------------------------------

  /** What one sweep over the device may do to the items. */
  datatype Reading = Report(i: nat, v: Value) | Lost(i: nat) | LostAll | Flush

  /** An item's value and whether it has one, without the changed flag. */
  datatype Held = Held(value: Value, hasValue: bool)

  function HeldOf(st: seq<DatumState>): (r: seq<Held>)
    ensures |r| == |st| && forall i :: 0 <= i < |st| ==> r[i] == Held(st[i].value, st[i].hasValue)
  {
    seq(|st|, i requires 0 <= i < |st| => Held(st[i].value, st[i].hasValue))
  }

  /** Clearing a flag changes nothing about what is held. */
  lemma HeldUnflagged(st: seq<DatumState>, i: nat)
    requires i < |st|
    ensures HeldOf(st[i := st[i].(changed := false)]) == HeldOf(st)
  {
  }

  lemma HeldElsewhere(st: seq<DatumState>, after: seq<DatumState>, i: nat)
    requires i < |st| == |after| && forall k :: 0 <= k < |st| && k != i ==> after[k] == st[k]
    ensures HeldOf(after) == HeldOf(st)[i := Held(after[i].value, after[i].hasValue)]
  {
  }

  function Stored(h: Held, v: Value): Held { if h.hasValue && Negligible(h.value, v) then h else Held(v, true) }

  function Unreachable(h: Held): Held { Held(Dead(h.value), h.hasValue || !CarriesFlag(h.value)) }

  /** The first `n` items lost. */
  function LoseFirst(hs: seq<Held>, n: nat): (r: seq<Held>)
    requires n <= |hs|
    ensures |r| == |hs| && forall i :: 0 <= i < |hs| ==> r[i] == if i < n then Unreachable(hs[i]) else hs[i]
  {
    seq(|hs|, i requires 0 <= i < |hs| => if i < n then Unreachable(hs[i]) else hs[i])
  }

  function ReadOne(hs: seq<Held>, r: Reading): (after: seq<Held>)
    ensures |after| == |hs|
  {
    match r
    case Report(i, v) => if i < |hs| then hs[i := Stored(hs[i], v)] else hs
    case Lost(i) => if i < |hs| then hs[i := Unreachable(hs[i])] else hs
    case LostAll => LoseFirst(hs, |hs|)
    case Flush => hs
  }

  /** What the items hold after the first `n` readings of a sweep. */
  function ReadAll(hs: seq<Held>, rs: seq<Reading>, n: nat): (after: seq<Held>)
    requires n <= |rs|
    ensures |after| == |hs|
  {
    if n == 0 then hs else ReadOne(ReadAll(hs, rs, n - 1), rs[n - 1])
  }

  function HeldAfterArrival(hs: seq<Held>, arrived: bool, first: seq<Reading>): (after: seq<Held>)
    ensures |after| == |hs|
  {
    if arrived then ReadAll(hs, first, |first|) else hs
  }

  /** The past with a client that connects now, if one does. */
  ghost function With(past: Past, newcomer: Client?, arrival: Option<nat>, sent: nat): Past {
    if newcomer == null || arrival.None? then past else past[newcomer := Moment(arrival.value, [], sent)]
  }

  /** How it was with a client at some moment: what it accepted and had received, and the lines broadcast until then. */
  datatype Moment = Moment(left: nat, received: seq<Line>, sent: nat)

  /** Clients of an earlier time, each at a moment of its own. */
  type Past = map<Client, Moment>

  /** Since that moment the client has accepted at most what was broadcast, and nothing else. */
  predicate Follows(left: nat, received: seq<Line>, sent: nat, m: Moment) {
    && m.received <= received && left + |received| == m.left + |m.received|
    && |received| + m.sent <= |m.received| + sent
  }

  /** The clients that did not connect in one of the given turns. */
  ghost function Spared(past: Past, gone: set<nat>): Past { map c | c in past && c.turn !in gone :: past[c] }

  /** Lines that sending all of `size` items takes at most: conditions and messages travel alone. */
  function FullLines(size: nat): nat { 2 * size + 1 }

  /** Lines that the flushes among the first `n` readings take at most. */
  function FlushLines(size: nat, rs: seq<Reading>, n: nat): nat
    requires n <= |rs|
  {
    if n == 0 then 0
    else FlushLines(size, rs, n - 1) + if rs[n - 1].LostAll? || rs[n - 1].Flush? then FullLines(size) else 0
  }

  /** Lines that one turn broadcasts at most. */
  function TurnLines(size: nat, arrival: Option<nat>, second: seq<Reading>): nat {
    (if arrival.Some? then FullLines(size) else 0) + FlushLines(size, second, |second|) + FullLines(size)
  }

  /** Clients that connected before turn `n`, each in a turn of its own. */
  predicate Numbered(cs: set<Client>, n: nat) {
    && (forall c :: c in cs ==> c.turn < n)
    && forall c, d {:trigger Apart(c, d)} :: c in cs && d in cs ==> Apart(c, d)
  }

  predicate Apart(c: Client, d: Client) { c.turn == d.turn ==> c == d }

  lemma NumberedNext(cs: set<Client>, newcomer: Client?, after: set<Client>, n: nat)
    requires Numbered(cs, n) && (newcomer != null ==> newcomer.turn == n)
    requires forall c :: c in after ==> c in cs || c == newcomer
    ensures Numbered(after, n + 1)
  {
  }

  lemma NumberedLess(cs: set<Client>, fewer: set<Client>, n: nat)
    requires Numbered(cs, n) && fewer <= cs
    ensures Numbered(fewer, n)
  {
  }

  class Adapter {
    const data: seq<Datum>
    const server: Server
    var buffer: seq<Item>
    var disableFlush: bool
    var hasClients: bool
    /** Turns of the server loop so far. */
    var turns: nat
    /** How often the last client has been found gone. */
    var disconnects: nat
    /** A client that has just connected and has not had the initial values yet. */
    ghost var late: Client?

    constructor (data: seq<Datum>, server: Server)
      ensures this.data == data && this.server == server && buffer == [] && late == null
      ensures !hasClients && disconnects == 0 && turns == 0
    {
      this.data, this.server, buffer, disableFlush := data, server, [], false;
      hasClients, disconnects, turns, late := false, 0, 0, null;
    }

    ghost predicate Sound()
      reads this, server, server.slots
    {
      server.Valid() && Distinct(data)
    }

    /** What is pending may go on one line, with more to come. */
    ghost predicate Valid()
      reads this, server, server.slots
    {
      Sound() && Shared(buffer)
    }

    ghost function State(): (r: seq<DatumState>)
      reads data
      ensures |r| == |data|
      ensures forall i :: 0 <= i < |data| ==> r[i] == DatumState(data[i].value, data[i].changed, data[i].hasValue)
    {
      StateOf(data)
    }

    /** All a connected client has been sent, plus what is about to be. */
    ghost function View(c: Client): seq<Item>
      reads this, c
    {
      Flat(c.received) + buffer
    }

    ghost function Clients(): set<Client>
      requires server.Valid()
      reads server, server.slots
    {
      server.Connected()
    }

    ghost predicate AllSynced()
      requires server.Valid()
      reads this, server, server.slots, data, Clients()
    {
      forall c :: c in Clients() && c != late ==> Synced(View(c), State())
    }

    ghost predicate AllUpTo(n: nat)
      requires server.Valid()
      reads this, server, server.slots, data, Clients()
    {
      forall c :: c in Clients() ==> UpTo(View(c), State(), n)
    }

    /** A broadcast as the clients see it. */
    method Deliver(line: Line)
      requires Sound()
      modifies server, server.slots, Clients()
      ensures Sound() && server.sent == old(server.sent) + 1
      ensures forall c :: c in Clients() ==> c in old(Clients()) && c.received == old(c.received) + [line]
      ensures forall c :: c in old(Clients()) ==>
        Served(c, old(c.left), old(c.received), line, true) && (c.left > 0 ==> c in Clients())
    {
      ghost var cs, lefts := server.slots[..server.num], LeftsOf(server.slots[..server.num]);
      server.ConnectedAre();
      server.SendToClients(line);
      server.ConnectedAre();
      SurvivorsAre(cs, lefts);
      forall c | c in cs
        ensures Served(c, old(c.left), old(c.received), line, true)
        ensures c in Clients() ==> c.received == old(c.received) + [line]
        ensures c in Clients() <==> old(c.left) > 0
      {
        var k :| 0 <= k < |cs| && cs[k] == c;
        assert Served(c, old(c.left), old(c.received), line, true);
        assert c in Survivors(cs, lefts) <==> old(c.left) > 0;
      }
    }

    /** Sends the pending line, if any; nobody's view changes. */
    method SendBuffer(ghost past: Past)
      requires Sound() && LineOk(buffer) && Loyal(past)
      modifies this`buffer, server, server.slots, Clients()
      ensures Valid() && buffer == [] && server.sent <= old(server.sent) + 1
      ensures forall c :: c in Clients() ==> c in old(Clients()) && View(c) == old(View(c))
      ensures Loyal(past)
    {
      if |buffer| > 0 {
        ghost var line := buffer;
        Deliver(buffer);
        buffer := [];
        forall c | c in Clients() ensures c in old(Clients()) && View(c) == old(View(c)) {
          FlatSnoc(old(c.received), line);
        }
      }
    }

    /** Appends one item; conditions and messages travel on a line of their own. */
    method SendDatum(k: nat, ghost past: Past)
      requires Valid() && k < |data| && Loyal(past)
      modifies this`buffer, server, server.slots, Clients(), data[k]
      ensures Valid()
      ensures State() == old(State())[k := old(State())[k].(changed := false)]
      ensures forall c :: c in Clients() ==> c in old(Clients()) && Extended(c, k, old(View(c)), old(data[k].value))
      ensures Loyal(past)
      ensures server.sent <= old(server.sent) + 2
    {
      var own := OwnLine(data[k].value);
      if own { SendBuffer(past); }
      AppendAndSend(k, own, past);
    }

    method AppendAndSend(k: nat, own: bool, ghost past: Past)
      requires Valid() && k < |data| && Loyal(past) && own == OwnLine(data[k].value) && (own ==> buffer == [])
      modifies this`buffer, server, server.slots, Clients(), data[k]
      ensures Valid()
      ensures State() == old(State())[k := old(State())[k].(changed := false)]
      ensures forall c :: c in Clients() ==> c in old(Clients()) && Extended(c, k, old(View(c)), old(data[k].value))
      ensures Loyal(past)
      ensures server.sent <= old(server.sent) + 1
    {
      Append(k);
      assert forall c :: c in Clients() ==> Extended(c, k, old(View(c)), old(data[k].value));
      if own { SendBuffer(past); }
    }

    ghost predicate Extended(c: Client, k: nat, view: seq<Item>, v: Value)
      reads this, c
    {
      View(c) == view + [Item(k, Show(v))]
    }

    method Append(k: nat)
      requires Valid() && k < |data|
      modifies this`buffer, data[k]
      ensures Sound() && (OwnLine(old(data[k].value)) || Valid())
      ensures buffer == old(buffer) + [Item(k, Show(old(data[k].value)))]
      ensures data[k].value == old(data[k].value)
      ensures State() == old(State())[k := old(State())[k].(changed := false)]
    {
      buffer := buffer + [Item(k, Show(data[k].value))];
      data[k].changed := false;
      assert forall i :: 0 <= i < |data| && i != k ==> data[i] != data[k];
    }

    /** Sends every changed item; afterwards nothing is flagged and nothing is pending. */
    method SendChangedData(ghost past: Past)
      requires Valid() && AllSynced() && Loyal(past)
      modifies this`buffer, server, server.slots, Clients(), data
      ensures Valid() && AllSynced() && buffer == []
      ensures forall i :: 0 <= i < |data| ==> !data[i].changed
      ensures Clients() <= old(Clients()) && Loyal(past)
      ensures HeldOf(State()) == old(HeldOf(State()))
      ensures server.sent <= old(server.sent) + FullLines(|data|)
    {
      SendChangedItems(past);
      FlushRest(past);
    }

    method SendChangedItems(ghost past: Past)
      requires Valid() && AllSynced() && Loyal(past)
      modifies this`buffer, server, server.slots, Clients(), data
      ensures Valid() && AllSynced()
      ensures forall i :: 0 <= i < |data| ==> !State()[i].changed
      ensures Clients() <= old(Clients()) && Loyal(past)
      ensures Same(HeldOf(State()), old(HeldOf(State())))
      ensures server.sent <= old(server.sent) + 2 * |data|
    {
      ghost var cs, held := Clients(), HeldOf(State());
      for i := 0 to |data|
        invariant Valid() && AllSynced() && Same(HeldOf(State()), held)
        invariant forall k :: 0 <= k < i ==> !State()[k].changed
        invariant Clients() <= cs && Loyal(past) && server.sent <= old(server.sent) + 2 * i
      {
        SendIfChanged(i, past);
      }
    }

    method SendIfChanged(i: nat, ghost past: Past)
      requires Valid() && AllSynced() && i < |data| && Loyal(past)
      modifies this`buffer, server, server.slots, Clients(), data[i]
      ensures Valid() && AllSynced() && Same(HeldOf(State()), old(HeldOf(State()))) && !State()[i].changed
      ensures forall k :: 0 <= k < |data| && !old(State())[k].changed ==> !State()[k].changed
      ensures Clients() <= old(Clients()) && Loyal(past)
      ensures server.sent <= old(server.sent) + 2
    {
      HeldUnflagged(State(), i);
      if data[i].changed { SendOne(i, past); }
    }

    method SendIfHeld(i: nat, ghost past: Past)
      requires Valid() && AllSynced() && AllUpTo(i) && i < |data| && Loyal(past)
      modifies this`buffer, server, server.slots, Clients(), data[i]
      ensures Valid() && AllSynced() && AllUpTo(i + 1) && HeldOf(State()) == old(HeldOf(State()))
      ensures Clients() <= old(Clients()) && Loyal(past)
      ensures server.sent <= old(server.sent) + 2
    {
      HeldUnflagged(State(), i);
      if data[i].hasValue {
        SendOne(i, past);
      } else {
        forall c | c in Clients() ensures UpTo(View(c), State(), i + 1) { assert UpTo(View(c), State(), i); }
      }
    }

    /** Sending one item keeps every client's view in step. */
    method SendOne(i: nat, ghost past: Past)
      requires Valid() && i < |data| && Loyal(past)
      modifies this`buffer, server, server.slots, Clients(), data[i]
      ensures Valid()
      ensures State() == old(State())[i := old(State())[i].(changed := false)]
      ensures old(AllSynced()) ==> AllSynced()
      ensures old(AllUpTo(i)) ==> AllUpTo(i + 1)
      ensures Clients() <= old(Clients()) && Loyal(past)
      ensures server.sent <= old(server.sent) + 2
    {
      ghost var st := State();
      SendDatum(i, past);
      forall c | c in Clients()
        ensures Synced(old(View(c)), st) ==> Synced(View(c), State())
        ensures UpTo(old(View(c)), st, i) ==> UpTo(View(c), State(), i + 1)
      {
        AfterSending(old(View(c)), st, State(), i);
      }
    }

    /** Every client of the past has followed what was broadcast, and whoever still accepts lines is connected. */
    ghost predicate Loyal(past: Past)
      requires server.Valid()
      reads this, server, server.slots, past.Keys
    {
      forall c :: c in past ==>
        Follows(c.left, c.received, server.sent, past[c]) && (c.left > 0 ==> c in Clients())
    }

    /** Compared with an earlier moment nobody has been sent anything, and everybody is still there. */
    ghost predicate Unserved(past: Past)
      requires Valid()
      reads this, server, server.slots, past.Keys
    {
      past.Keys == Clients() && forall c :: c in past ==> past[c] == Moment(c.left, c.received, server.sent)
    }

    /** What the connected clients accept and have received. */
    ghost function Present(): (past: Past)
      requires Valid()
      reads this, server, server.slots, Clients()
      ensures past.Keys == Clients() && Loyal(past) && Unserved(past)
    {
      map c | c in Clients() :: Moment(c.left, c.received, server.sent)
    }

    /** One sweep over the device, in an arbitrary order of reports; a flush inside it sends at once. */
    method GatherDeviceData(readings: seq<Reading>, ghost past: Past)
      requires Valid() && AllSynced() && Loyal(past)
      modifies this`buffer, server, server.slots, Clients(), data
      ensures Valid() && AllSynced() && Clients() <= old(Clients()) && Loyal(past)
      ensures disableFlush && old(Unserved(past)) ==> buffer == old(buffer) && Unserved(past)
      ensures Same(HeldOf(State()), ReadAll(old(HeldOf(State())), readings, |readings|))
      ensures server.sent <= old(server.sent) + if disableFlush then 0 else FlushLines(|data|, readings, |readings|)
    {
      ghost var cs, held := Clients(), HeldOf(State());
      for r := 0 to |readings|
        invariant Valid() && AllSynced() && Clients() <= cs && Loyal(past)
        invariant disableFlush && old(Unserved(past)) ==> buffer == old(buffer) && Unserved(past)
        invariant Same(HeldOf(State()), ReadAll(held, readings, r))
        invariant server.sent <= old(server.sent) + if disableFlush then 0 else FlushLines(|data|, readings, r)
      {
        Take(readings[r], past);
      }
    }

    /** One reading of a sweep. */
    method Take(r: Reading, ghost past: Past)
      requires Valid() && AllSynced() && Loyal(past)
      modifies this`buffer, server, server.slots, Clients(), data
      ensures Valid() && AllSynced() && Loyal(past) && Clients() <= old(Clients())
      ensures disableFlush && old(Unserved(past)) ==> buffer == old(buffer) && Unserved(past)
      ensures Same(HeldOf(State()), ReadOne(old(HeldOf(State())), r))
      ensures server.sent <= old(server.sent) +
        if disableFlush || !(r.LostAll? || r.Flush?) then 0 else FullLines(|data|)
    {
      Note(r, past);
      if r.LostAll? || r.Flush? { FlushNow(past); }
    }

    /** Stores what a reading says; nothing is sent. */
    method Note(r: Reading, ghost past: Past)
      requires Valid() && AllSynced() && Loyal(past)
      modifies data
      ensures Valid() && AllSynced() && Loyal(past) && Clients() == old(Clients())
      ensures old(Unserved(past)) ==> Unserved(past)
      ensures Same(HeldOf(State()), ReadOne(old(HeldOf(State())), r))
    {
      match r
      case Report(i, v) => if i < |data| { StoreReading(i, v); }
      case Lost(i) => if i < |data| { LoseItem(i); }
      case LostAll => LoseAll();
      case Flush =>
    }

    method StoreReading(i: nat, v: Value)
      requires Valid() && AllSynced() && i < |data|
      modifies data[i]
      ensures Valid() && AllSynced()
      ensures HeldOf(State()) == old(HeldOf(State()))[i := Stored(old(HeldOf(State()))[i], v)]
    {
      ghost var st := State();
      data[i].SetValue(v);
      HeldElsewhere(st, State(), i);
      StaysSynced(st, i);
    }

    method LoseItem(i: nat)
      requires Valid() && AllSynced() && i < |data|
      modifies data[i]
      ensures Valid() && AllSynced()
      ensures HeldOf(State()) == old(HeldOf(State()))[i := Unreachable(old(HeldOf(State()))[i])]
    {
      ghost var st := State();
      data[i].SetUnavailable();
      HeldElsewhere(st, State(), i);
      StaysSynced(st, i);
    }

    /** Rewriting item `i` and flagging it, or leaving it as it was, spoils no client's view. */
    lemma StaysSynced(st: seq<DatumState>, i: nat)
      requires Valid() && i < |st| == |data|
      requires forall c :: c in Clients() && c != late ==> Synced(View(c), st)
      requires forall k :: 0 <= k < |st| && k != i ==> State()[k] == st[k]
      requires State()[i].changed || State()[i] == st[i]
      ensures AllSynced()
    {
      forall c | c in Clients() && c != late ensures Synced(View(c), State()) {
        ChangedStaysSynced(View(c), st, State(), i);
      }
    }

    method LoseAll()
      requires Valid() && AllSynced()
      modifies data
      ensures Valid() && AllSynced()
      ensures HeldOf(State()) == LoseFirst(old(HeldOf(State())), |data|)
    {
      ghost var held := HeldOf(State());
      for i := 0 to |data|
        invariant Valid() && AllSynced() && HeldOf(State()) == LoseFirst(held, i)
      {
        LoseItem(i);
      }
    }

    method FlushNow(ghost past: Past)
      requires Valid() && AllSynced() && Loyal(past)
      modifies this`buffer, server, server.slots, Clients(), data
      ensures Valid() && AllSynced() && Loyal(past) && Clients() <= old(Clients())
      ensures disableFlush && old(Unserved(past)) ==> buffer == old(buffer) && Unserved(past)
      ensures Same(HeldOf(State()), old(HeldOf(State())))
      ensures server.sent <= old(server.sent) + if disableFlush then 0 else FullLines(|data|)
    {
      if !disableFlush { SendChangedData(past); }
    }

    /** All items with a value are current for all clients. */
    ghost predicate AllCurrent()
      requires server.Valid()
      reads this, server, server.slots, data, Clients()
    {
      forall c, i :: c in Clients() && 0 <= i < |data| && data[i].hasValue ==>
        Seen(Flat(c.received), i) == Some(Show(data[i].value))
    }

    /** Sends everything that has a value to everyone. */
    method SendAllValues(ghost past: Past)
      requires Valid() && AllSynced() && Loyal(past)
      modifies this`buffer, server, server.slots, Clients(), data
      ensures Valid() && AllSynced() && AllUpTo(|data|) && buffer == []
      ensures Clients() <= old(Clients()) && Loyal(past)
      ensures Same(HeldOf(State()), old(HeldOf(State())))
      ensures server.sent <= old(server.sent) + FullLines(|data|)
    {
      SendAllItems(past);
      FlushRest(past);
    }

    method SendAllItems(ghost past: Past)
      requires Valid() && AllSynced() && Loyal(past)
      modifies this`buffer, server, server.slots, Clients(), data
      ensures Valid() && AllSynced() && AllUpTo(|data|)
      ensures Clients() <= old(Clients()) && Loyal(past)
      ensures Same(HeldOf(State()), old(HeldOf(State())))
      ensures server.sent <= old(server.sent) + 2 * |data|
    {
      ghost var cs, held := Clients(), HeldOf(State());
      for i := 0 to |data|
        invariant Valid() && AllSynced() && AllUpTo(i) && Same(HeldOf(State()), held)
        invariant Clients() <= cs && Loyal(past) && server.sent <= old(server.sent) + 2 * i
      {
        SendIfHeld(i, past);
      }
    }

    method FlushRest(ghost past: Past)
      requires Valid() && AllSynced() && Loyal(past)
      modifies this`buffer, server, server.slots, Clients()
      ensures Valid() && AllSynced() && buffer == [] && Clients() <= old(Clients())
      ensures forall n :: old(AllUpTo(n)) ==> AllUpTo(n)
      ensures Loyal(past)
      ensures server.sent <= old(server.sent) + 1
    {
      SendBuffer(past);
    }

    /** The late client gets the initial values, and with them everybody else; then it is late no more. */
    method SendInitialData(readings: seq<Reading>, ghost past: Past)
      requires Valid() && AllSynced() && Loyal(past)
      modifies this`buffer, this`late, this`disableFlush, server, server.slots, Clients(), data
      ensures Valid() && AllSynced() && buffer == [] && late == null && !disableFlush
      ensures Clients() <= old(Clients()) && Loyal(past)
      ensures Same(HeldOf(State()), ReadAll(old(HeldOf(State())), readings, |readings|))
      ensures server.sent <= old(server.sent) + FullLines(|data|)
    {
      SetDisableFlush(true);
      GatherDeviceData(readings, past);
      SendAllAndWelcome(past);
      SetDisableFlush(false);
    }

    method SendAllAndWelcome(ghost past: Past)
      requires Valid() && AllSynced() && Loyal(past)
      modifies this`buffer, this`late, server, server.slots, Clients(), data
      ensures Valid() && AllSynced() && buffer == [] && late == null
      ensures Clients() <= old(Clients()) && Loyal(past)
      ensures Same(HeldOf(State()), old(HeldOf(State())))
      ensures server.sent <= old(server.sent) + FullLines(|data|)
    {
      SendAllValues(past);
      Welcome();
    }

    method SetDisableFlush(on: bool)
      requires Valid() && AllSynced()
      modifies this`disableFlush
      ensures Valid() && AllSynced() && disableFlush == on && Clients() == old(Clients())
    {
      disableFlush := on;
    }

    /** A client that has seen all values is late no more. */
    method Welcome()
      requires Valid() && AllSynced() && AllUpTo(|data|)
      modifies this`late
      ensures Valid() && AllSynced() && late == null && Clients() == old(Clients())
    {
      late := null;
    }

    /** Accepts one connection; whether it got a slot. */
    method Connect(accepts: nat) returns (client: Client, added: bool)
      requires Valid() && AllSynced() && late == null
      modifies this`late, server`num, server.slots
      ensures Valid() && AllSynced() && fresh(client) && added == (old(server.num) < MAX_CLIENTS)
      ensures client.turn == turns && client.left == accepts && client.received == []
      ensures Clients() == if added then old(Clients()) + {client} else old(Clients())
      ensures !added ==> late == null
    {
      client := new Client(accepts, turns);
      added := Admit(client);
    }

    method Admit(client: Client) returns (added: bool)
      requires Valid() && AllSynced() && late == null && client !in server.slots[..server.num]
      modifies this`late, server`num, server.slots
      ensures Valid() && AllSynced() && added == (old(server.num) < MAX_CLIENTS)
      ensures Clients() == if added then old(Clients()) + {client} else old(Clients())
      ensures !added ==> late == null
    {
      late := client;
      added := TakeSlot(client);
      if !added { late := null; }
    }

    method TakeSlot(client: Client) returns (added: bool)
      requires Valid() && AllSynced() && late == client && client !in server.slots[..server.num]
      modifies server`num, server.slots
      ensures Valid() && AllSynced() && added == (old(server.num) < MAX_CLIENTS)
      ensures Clients() == if added then old(Clients()) + {client} else old(Clients())
    {
      added := server.AddClient(client);
    }

    /** A connection that may arrive gets a slot while there is one, and all values. */
    method Arrive(arrival: Option<nat>, first: seq<Reading>, ghost past: Past)
      returns (ghost newcomer: Client?, ghost later: Past)
      requires Valid() && AllSynced() && late == null && buffer == [] && Loyal(past)
      modifies this`buffer, this`late, this`disableFlush, server, server.slots, Clients(), data
      ensures Valid() && AllSynced() && late == null && buffer == []
      ensures newcomer != null <==> arrival.Some? && old(server.num) < MAX_CLIENTS
      ensures newcomer != null ==> fresh(newcomer) && newcomer.turn == turns
      ensures Same(later, With(past, newcomer, arrival, old(server.sent))) && Loyal(later)
      ensures Clients() <= old(Clients()) + One(newcomer)
      ensures Same(HeldOf(State()), HeldAfterArrival(old(HeldOf(State())), newcomer != null, first))
      ensures server.sent <= old(server.sent) + if arrival.Some? then FullLines(|data|) else 0
    {
      newcomer, later := null, past;
      if arrival.Some? {
        var client, added := Connect(arrival.value);
        if added {
          newcomer, later := client, past[client := Moment(client.left, client.received, server.sent)];
          SendInitialData(first, later);
        }
      }
    }

    /** Sweep the device and send what changed: every client ends up current. */
    method Sweep(second: seq<Reading>, ghost past: Past)
      requires Valid() && AllSynced() && late == null && Loyal(past)
      modifies this`buffer, server, server.slots, Clients(), data
      ensures Valid() && AllSynced() && buffer == [] && AllCurrent()
      ensures Clients() <= old(Clients()) && Loyal(past)
      ensures Same(HeldOf(State()), ReadAll(old(HeldOf(State())), second, |second|))
      ensures server.sent <= old(server.sent) + FlushLines(|data|, second, |second|) + FullLines(|data|)
    {
      GatherDeviceData(second, past);
      SendChangedData(past);
      NothingPending();
    }

    /** With nobody late, nothing pending and nothing flagged, a synchronised view is a current one. */
    lemma NothingPending()
      requires Valid() && AllSynced() && late == null && buffer == []
      requires forall i :: 0 <= i < |data| ==> !data[i].changed
      ensures AllCurrent()
    {
      forall c, i | c in Clients() && 0 <= i < |data| && data[i].hasValue
        ensures Seen(Flat(c.received), i) == Some(Show(data[i].value))
      {
        assert Synced(View(c), State());
        assert Current(View(c), State(), i);
        assert View(c) == Flat(c.received);
      }
    }

    /** Reading from the clients drops those found dead. */
    method DropDead(gone: set<nat>, ghost past: Past)
      requires Valid() && AllSynced() && Loyal(past)
      modifies server`num, server.slots
      ensures Valid() && AllSynced() && Loyal(Spared(past, gone))
      ensures forall c :: c in Clients() <==> c in old(Clients()) && c.turn !in gone
    {
      server.ConnectedAre();
      server.ReadFromClients(gone);
      server.ConnectedAre();
    }

    /** Between turns: nobody is late, nothing is pending, and whoever is connected has been noticed. */
    ghost predicate Ready()
      requires Valid()
      reads this, server, server.slots, data, Clients()
    {
      AllSynced() && late == null && buffer == [] && (Clients() != {} ==> hasClients) && Numbered(Clients(), turns)
    }

    method ClientsDisconnected()
      modifies this`disconnects
      ensures disconnects == old(disconnects) + 1
    {
      disconnects := disconnects + 1;
    }

    /**
     One turn of the server loop: a connection may arrive, clients may be found dead, the device is
     swept, and what changed is sent.  At the end every connected client has last received the current
     value of every item that has one; nobody is dropped who was neither found dead nor failed a write, and
     who was found dead is gone, even in the turn it came; the items hold exactly what the readings of the
     turn say; the departure of the last client is reported once; and no more lines are sent than needed.
     `past` is any earlier time, `later` the same with the newcomer.
     */
    method Turn(arrival: Option<nat>, first: seq<Reading>, gone: set<nat>, second: seq<Reading>, ghost past: Past)
      returns (ghost newcomer: Client?, ghost swept: bool, ghost later: Past)
      requires Valid() && Ready() && Loyal(past)
      modifies this, server, server.slots, Clients(), data
      ensures Valid() && Ready() && AllCurrent() && turns == old(turns) + 1
      ensures newcomer != null <==> arrival.Some? && old(server.num) < MAX_CLIENTS
      ensures newcomer != null ==> fresh(newcomer) && newcomer.turn == old(turns)
      ensures Clients() <= old(Clients()) + One(newcomer) && forall c :: c in Clients() ==> c.turn !in gone
      ensures later == With(past, newcomer, arrival, old(server.sent)) && Loyal(Spared(later, gone))
      ensures Clients() != {} ==> swept
      ensures swept ==> exists c :: c in old(Clients()) + One(newcomer) && c.turn !in gone
      ensures HeldOf(State()) == HeldAfterTurn(old(HeldOf(State())), first, second, TurnLog(newcomer != null, swept))
      ensures hasClients <==> swept && (old(hasClients) || arrival.Some?)
      ensures disconnects == old(disconnects) + if !swept && (old(hasClients) || arrival.Some?) then 1 else 0
      ensures server.sent <= old(server.sent) + TurnLines(|data|, arrival, second)
    {
      if arrival.Some? { NoteClients(past); }
      newcomer, swept, later := RenewAndAttend(arrival, first, gone, second, past);
      NextTurn();
    }

    /** The sleep at the end of a turn. */
    method NextTurn()
      requires Valid() && AllSynced() && late == null && buffer == [] && AllCurrent() && Numbered(Clients(), turns + 1)
      modifies this`turns
      ensures Valid() && AllSynced() && AllCurrent() && turns == old(turns) + 1 && Numbered(Clients(), turns)
      ensures Clients() == old(Clients())
    {
      turns := turns + 1;
    }

    method RenewAndAttend(arrival: Option<nat>, first: seq<Reading>, gone: set<nat>, second: seq<Reading>,
                          ghost past: Past)
      returns (ghost newcomer: Client?, ghost swept: bool, ghost later: Past)
      requires Valid() && AllSynced() && late == null && buffer == [] && Loyal(past) && Numbered(Clients(), turns)
      modifies this`buffer, this`late, this`disableFlush, this`hasClients, this`disconnects,
               server, server.slots, Clients(), data
      ensures Valid() && AllSynced() && late == null && buffer == [] && AllCurrent() && Numbered(Clients(), turns + 1)
      ensures newcomer != null <==> arrival.Some? && old(server.num) < MAX_CLIENTS
      ensures newcomer != null ==> fresh(newcomer) && newcomer.turn == turns
      ensures Clients() <= old(Clients()) + One(newcomer) && forall c :: c in Clients() ==> c.turn !in gone
      ensures Same(later, With(past, newcomer, arrival, old(server.sent))) && Loyal(Spared(later, gone))
      ensures Clients() != {} ==> swept
      ensures swept ==> exists c :: c in old(Clients()) + One(newcomer) && c.turn !in gone
      ensures Same(HeldOf(State()),
                   HeldAfterTurn(old(HeldOf(State())), first, second, TurnLog(newcomer != null, swept)))
      ensures hasClients == (swept && old(hasClients))
      ensures disconnects == old(disconnects) + if !swept && old(hasClients) then 1 else 0
      ensures server.sent <= old(server.sent) + TurnLines(|data|, arrival, second)
    {
      newcomer, later := Renew(arrival, first, gone, past);
      NumberedNext(old(Clients()), newcomer, Clients(), turns);
      ghost var there := Clients();
      swept := Attend(second, Spared(later, gone));
      NumberedLess(there, Clients(), turns + 1);
    }

    method NoteClients(ghost past: Past)
      requires Valid() && AllSynced() && Loyal(past)
      modifies this`hasClients
      ensures Valid() && AllSynced() && Loyal(past) && hasClients && Clients() == old(Clients())
    {
      hasClients := true;
    }

    /** The first half of a turn: a connection may arrive, clients may be found dead. */
    method Renew(arrival: Option<nat>, first: seq<Reading>, gone: set<nat>, ghost past: Past)
      returns (ghost newcomer: Client?, ghost later: Past)
      requires Valid() && AllSynced() && late == null && buffer == [] && Loyal(past)
      modifies this`buffer, this`late, this`disableFlush, server, server.slots, Clients(), data
      ensures Valid() && AllSynced() && late == null && buffer == []
      ensures newcomer != null <==> arrival.Some? && old(server.num) < MAX_CLIENTS
      ensures newcomer != null ==> fresh(newcomer) && newcomer.turn == turns
      ensures Same(later, With(past, newcomer, arrival, old(server.sent))) && Loyal(Spared(later, gone))
      ensures Clients() <= old(Clients()) + One(newcomer) && forall c :: c in Clients() ==> c.turn !in gone
      ensures Same(HeldOf(State()), HeldAfterArrival(old(HeldOf(State())), newcomer != null, first))
      ensures server.sent <= old(server.sent) + if arrival.Some? then FullLines(|data|) else 0
    {
      newcomer, later := Arrive(arrival, first, past);
      DropDead(gone, later);
    }

    /** The second half of a turn: with anybody connected the device is swept, otherwise a departure is reported. */
    method Attend(second: seq<Reading>, ghost past: Past) returns (ghost swept: bool)
      requires Valid() && AllSynced() && late == null && buffer == [] && Loyal(past)
      modifies this`buffer, this`hasClients, this`disconnects, server, server.slots, Clients(), data
      ensures Valid() && AllSynced() && buffer == [] && AllCurrent()
      ensures Clients() <= old(Clients()) && (swept <==> old(Clients()) != {})
      ensures Loyal(past)
      ensures Same(HeldOf(State()),
                   if swept then ReadAll(old(HeldOf(State())), second, |second|) else old(HeldOf(State())))
      ensures hasClients == (swept && old(hasClients))
      ensures disconnects == old(disconnects) + if !swept && old(hasClients) then 1 else 0
      ensures server.sent <= old(server.sent) + FlushLines(|data|, second, |second|) + FullLines(|data|)
    {
      swept := server.num > 0;
      server.SomeConnected();
      if server.num > 0 {
        Sweep(second, past);
      } else if hasClients {
        hasClients := false;
        ClientsDisconnected();
      }
    }
  }

  /** What one turn of the loop meets: a connection, the clients found dead, and the readings of its two sweeps. */
  datatype TurnInput = TurnInput(arrival: Option<nat>, first: seq<Reading>, gone: set<nat>, second: seq<Reading>)

  /** Whether a connection got a slot, and whether anybody was left to be served. */
  datatype TurnLog = TurnLog(arrived: bool, swept: bool)

  function HeldAfterTurn(hs: seq<Held>, first: seq<Reading>, second: seq<Reading>, log: TurnLog): (after: seq<Held>)
    ensures |after| == |hs|
  {
    var mid := HeldAfterArrival(hs, log.arrived, first);
    if log.swept then ReadAll(mid, second, |second|) else mid
  }

  /** What the items hold after the first `n` turns. */
  function HeldAfterTurns(hs: seq<Held>, turns: seq<TurnInput>, logs: seq<TurnLog>, n: nat): (after: seq<Held>)
    requires n <= |turns| && n <= |logs|
    ensures |after| == |hs|
  {
    if n == 0 then hs
    else HeldAfterTurn(HeldAfterTurns(hs, turns, logs, n - 1), turns[n - 1].first, turns[n - 1].second, logs[n - 1])
  }

  lemma {:induction false} HeldPrefix(hs: seq<Held>, turns: seq<TurnInput>, logs: seq<TurnLog>, log: TurnLog, n: nat)
    requires n <= |turns| && n <= |logs|
    ensures HeldAfterTurns(hs, turns, logs + [log], n) == HeldAfterTurns(hs, turns, logs, n)
  {
    if n > 0 { HeldPrefix(hs, turns, logs, log, n - 1); }
  }

  lemma HeldStep(hs: seq<Held>, turns: seq<TurnInput>, logs: seq<TurnLog>, log: TurnLog, n: nat)
    requires n == |logs| < |turns|
    ensures Same(HeldAfterTurns(hs, turns, logs + [log], n + 1),
                 HeldAfterTurn(HeldAfterTurns(hs, turns, logs, n), turns[n].first, turns[n].second, log))
  {
    HeldPrefix(hs, turns, logs, log, n);
  }

  // ---- runs of the server loop ---------------------------------------------

  /** Lines that the first `n` turns broadcast at most. */
  function RunLines(size: nat, turns: seq<TurnInput>, n: nat): nat
    requires n <= |turns|
  {
    if n == 0 then 0
    else RunLines(size, turns, n - 1) + TurnLines(size, turns[n - 1].arrival, turns[n - 1].second)
  }

  /** A client that connected in turn `t` is found dead in one of the first `n` turns; the run starts at turn `base`. */
  predicate Found(t: nat, turns: seq<TurnInput>, base: nat, n: nat)
    requires n <= |turns|
  {
    n > 0 && (Found(t, turns, base, n - 1) || (t <= base + (n - 1) && t in turns[n - 1].gone))
  }

  /** Connections among the first `n` turns that got a slot. */
  function Arrivals(logs: seq<TurnLog>, n: nat): nat
    requires n <= |logs|
  {
    if n == 0 then 0 else Arrivals(logs, n - 1) + if logs[n - 1].arrived then 1 else 0
  }

  /** Who came: for every connection that got a slot the one client that connected in that turn. */
  ghost predicate CameIn(came: set<Client>, logs: seq<TurnLog>, base: nat) {
    && Numbered(came, base + |logs|) && |came| == Arrivals(logs, |logs|)
    && (forall c :: c in came ==> base <= c.turn && logs[c.turn - base].arrived)
    && forall i :: 0 <= i < |logs| && logs[i].arrived ==> CameAt(came, base + i)
  }

  ghost predicate CameAt(came: set<Client>, t: nat) { exists c :: c in came && c.turn == t }

  /** A connection gets a slot, unless the clients there at the start and those that came could fill them all. */
  predicate Admitted(turns: seq<TurnInput>, logs: seq<TurnLog>, start: nat)
    requires |logs| <= |turns|
  {
    forall i :: 0 <= i < |logs| ==>
      && (logs[i].arrived ==> turns[i].arrival.Some?)
      && (turns[i].arrival.Some? && !logs[i].arrived ==> start + Arrivals(logs, i) >= MAX_CLIENTS)
  }

  /** A turn is swept while a client now connected was there; and a swept turn had a client not yet found dead. */
  ghost predicate SweptFor(logs: seq<TurnLog>, turns: seq<TurnInput>, base: nat, all: set<Client>, now: set<Client>)
    requires |logs| <= |turns|
  {
    && (forall c :: c in now ==> SweptSince(logs, c.turn, base))
    && forall i :: 0 <= i < |logs| && logs[i].swept ==> SomebodyIn(all, turns, base, i)
  }

  predicate SweptSince(logs: seq<TurnLog>, t: nat, base: nat) {
    forall i :: 0 <= i < |logs| && t <= base + i ==> logs[i].swept
  }

  ghost predicate SomebodyIn(all: set<Client>, turns: seq<TurnInput>, base: nat, i: nat)
    requires i < |turns|
  {
    exists c :: c in all && c.turn <= base + i && !Found(c.turn, turns, base, i + 1)
  }

  /** What everybody was like when they were first seen: at the start of the run, or when they came. */
  ghost predicate FirstSeen(known: Past, start: Past, came: set<Client>, turns: seq<TurnInput>, base: nat, n: nat,
                            size: nat, sent: nat)
    requires n <= |turns|
  {
    && known.Keys == start.Keys + came
    && (forall c :: c in start ==> known[c] == start[c] && sent <= start[c].sent + RunLines(size, turns, n))
    && (forall c :: c in came ==>
          base <= c.turn < base + n && FirstSeenAt(known[c], turns, c.turn - base, n, size, sent))
  }

  predicate FirstSeenAt(m: Moment, turns: seq<TurnInput>, i: nat, n: nat, size: nat, sent: nat)
    requires i < n <= |turns|
  {
    && turns[i].arrival == Some(m.left) && m.received == []
    && sent + RunLines(size, turns, i) <= m.sent + RunLines(size, turns, n)
  }

  /** Those who were never found dead. */
  ghost function NeverFound(known: Past, turns: seq<TurnInput>, base: nat, n: nat): Past
    requires n <= |turns|
  {
    map c | c in known && !Found(c.turn, turns, base, n) :: known[c]
  }

  lemma {:induction false} NotFoundBefore(t: nat, turns: seq<TurnInput>, base: nat, n: nat)
    requires n <= |turns| && t >= base + n
    ensures !Found(t, turns, base, n)
  {
    if n > 0 { NotFoundBefore(t, turns, base, n - 1); }
  }

  lemma {:induction false} LinesGrow(size: nat, turns: seq<TurnInput>, i: nat, n: nat)
    requires i <= n <= |turns|
    ensures RunLines(size, turns, i) <= RunLines(size, turns, n)
  {
    if i < n { LinesGrow(size, turns, i, n - 1); }
  }

  lemma {:induction false} ArrivalsPrefix(logs: seq<TurnLog>, log: TurnLog, n: nat)
    requires n <= |logs|
    ensures Arrivals(logs + [log], n) == Arrivals(logs, n)
  {
    if n > 0 { ArrivalsPrefix(logs, log, n - 1); }
  }

  ghost function One(newcomer: Client?): set<Client> { if newcomer == null then {} else {newcomer} }

  lemma WithKeys(past: Past, newcomer: Client?, arrival: Option<nat>, sent: nat)
    requires newcomer != null ==> arrival.Some?
    ensures Same(With(past, newcomer, arrival, sent).Keys, past.Keys + One(newcomer))
  {
    assert With(past, newcomer, arrival, sent).Keys == past.Keys + One(newcomer);
  }

  lemma OneMore(cs: set<Client>, newcomer: Client?)
    requires newcomer !in cs
    ensures |cs + One(newcomer)| == |cs| + if newcomer == null then 0 else 1
  {
  }

  lemma CameStep(came: set<Client>, logs: seq<TurnLog>, base: nat, newcomer: Client?, log: TurnLog)
    requires CameIn(came, logs, base) && log.arrived == (newcomer != null)
    requires newcomer != null ==> newcomer.turn == base + |logs|
    ensures CameIn(came + One(newcomer), logs + [log], base)
  {
    NumberedNext(came, newcomer, came + One(newcomer), base + |logs|);
    CameCount(came, logs, newcomer, log);
    CameForward(came, logs, base, newcomer, log);
    CameBack(came, logs, base, newcomer, log);
  }

  lemma CameCount(came: set<Client>, logs: seq<TurnLog>, newcomer: Client?, log: TurnLog)
    requires newcomer !in came && |came| == Arrivals(logs, |logs|) && (log.arrived <==> newcomer != null)
    ensures |came + One(newcomer)| == Arrivals(logs + [log], |logs + [log]|)
  {
    ArrivalsPrefix(logs, log, |logs|);
    OneMore(came, newcomer);
  }

  lemma CameForward(came: set<Client>, logs: seq<TurnLog>, base: nat, newcomer: Client?, log: TurnLog)
    requires Numbered(came, base + |logs|) && (log.arrived <==> newcomer != null)
    requires forall c :: c in came ==> base <= c.turn && logs[c.turn - base].arrived
    requires newcomer != null ==> newcomer.turn == base + |logs|
    ensures forall c :: c in came + One(newcomer) ==>
      base <= c.turn < base + |logs| + 1 && (logs + [log])[c.turn - base].arrived
  {
    forall c | c in came ensures (logs + [log])[c.turn - base].arrived { assert logs[c.turn - base].arrived; }
  }

  lemma CameBack(came: set<Client>, logs: seq<TurnLog>, base: nat, newcomer: Client?, log: TurnLog)
    requires log.arrived == (newcomer != null) && (newcomer != null ==> newcomer.turn == base + |logs|)
    requires forall i :: 0 <= i < |logs| && logs[i].arrived ==> CameAt(came, base + i)
    ensures forall i :: 0 <= i < |logs + [log]| && (logs + [log])[i].arrived ==> CameAt(came + One(newcomer), base + i)
  {
    var all, more := came + One(newcomer), logs + [log];
    forall i | 0 <= i < |more| && more[i].arrived ensures CameAt(all, base + i) {
      if i < |logs| {
        var c :| c in came && c.turn == base + i;
        assert c in all;
      } else {
        assert newcomer in all;
      }
    }
  }

  lemma AdmittedStep(turns: seq<TurnInput>, logs: seq<TurnLog>, start: nat, num: nat, log: TurnLog)
    requires |logs| < |turns| && Admitted(turns, logs, start) && num <= start + Arrivals(logs, |logs|)
    requires log.arrived <==> turns[|logs|].arrival.Some? && num < MAX_CLIENTS
    ensures Admitted(turns, logs + [log], start)
  {
    forall i | 0 <= i <= |logs| ensures Arrivals(logs + [log], i) == Arrivals(logs, i) { ArrivalsPrefix(logs, log, i); }
  }

  lemma SweptStep(logs: seq<TurnLog>, turns: seq<TurnInput>, base: nat, all: set<Client>, before: set<Client>,
                  newcomer: Client?, now: set<Client>, log: TurnLog)
    requires |logs| < |turns| && SweptFor(logs, turns, base, all, before) && before <= all
    requires Numbered(before, base + |logs|) && forall c :: c in before ==> !Found(c.turn, turns, base, |logs|)
    requires newcomer != null ==> newcomer.turn == base + |logs|
    requires forall c :: c in now ==> c in before || c == newcomer
    requires now != {} ==> log.swept
    requires log.swept ==> exists c :: c in before + One(newcomer) && c.turn !in turns[|logs|].gone
    ensures SweptFor(logs + [log], turns, base, all + One(newcomer), now)
  {
    var n, more, wider := |logs|, logs + [log], all + One(newcomer);
    NotFoundBefore(base + n, turns, base, n);
    forall c | c in now ensures SweptSince(more, c.turn, base) {
      assert c in before ==> SweptSince(logs, c.turn, base);
    }
    forall i | 0 <= i < |more| && more[i].swept ensures SomebodyIn(wider, turns, base, i) {
      if i < n {
        assert SomebodyIn(all, turns, base, i);
        var c :| c in all && c.turn <= base + i && !Found(c.turn, turns, base, i + 1);
        assert c in wider;
      } else {
        var c :| c in before + One(newcomer) && c.turn !in turns[n].gone;
        assert c in wider && !Found(c.turn, turns, base, n);
      }
    }
  }

  lemma FirstSeenStep(known: Past, start: Past, came: set<Client>, turns: seq<TurnInput>, base: nat, n: nat,
                      size: nat, before: nat, newcomer: Client?, sent: nat)
    requires n < |turns| && FirstSeen(known, start, came, turns, base, n, size, before)
    requires sent <= before + TurnLines(size, turns[n].arrival, turns[n].second)
    requires newcomer != null ==> newcomer.turn == base + n && newcomer !in known && turns[n].arrival.Some?
    ensures FirstSeen(With(known, newcomer, turns[n].arrival, before), start, came + One(newcomer), turns, base, n + 1,
                      size, sent)
  {
    var later, all := With(known, newcomer, turns[n].arrival, before), came + One(newcomer);
    WithKeys(known, newcomer, turns[n].arrival, before);
    assert start.Keys + came + One(newcomer) == start.Keys + all;
    forall c | c in all
      ensures base <= c.turn < base + n + 1 && FirstSeenAt(later[c], turns, c.turn - base, n + 1, size, sent)
    {
      if c != newcomer { assert FirstSeenAt(known[c], turns, c.turn - base, n, size, before); }
    }
  }

  /** Who is spared in the turn after the first `n` is who is found dead in none of the first `n + 1`. */
  lemma NeverFoundStep(known: Past, turns: seq<TurnInput>, base: nat, n: nat, newcomer: Client?, sent: nat)
    requires n < |turns| && (forall c :: c in known ==> c.turn < base + n)
    requires newcomer != null ==> newcomer.turn == base + n && turns[n].arrival.Some?
    ensures Same(NeverFound(With(known, newcomer, turns[n].arrival, sent), turns, base, n + 1),
                 Spared(With(NeverFound(known, turns, base, n), newcomer, turns[n].arrival, sent), turns[n].gone))
  {
    NotFoundBefore(base + n, turns, base, n);
    assert NeverFound(With(known, newcomer, turns[n].arrival, sent), turns, base, n + 1)
        == Spared(With(NeverFound(known, turns, base, n), newcomer, turns[n].arrival, sent), turns[n].gone);
  }

  /** The record of a run: how it started, who came, what everybody was like at first, and what happened. */
  datatype Run = Run(base: nat, start: Past, held: seq<Held>, came: set<Client>, known: Past, logs: seq<TurnLog>)

  /** The record is right about the first `n` turns. */
  ghost predicate Recorded(run: Run, turns: seq<TurnInput>, n: nat, size: nat, sent: nat, now: set<Client>) {
    && |run.logs| == n <= |turns|
    && PeopleOk(run, turns, n, size, sent) && ServiceOk(run, turns, n, now)
  }

  ghost predicate PeopleOk(run: Run, turns: seq<TurnInput>, n: nat, size: nat, sent: nat)
    requires |run.logs| == n <= |turns|
  {
    && CameIn(run.came, run.logs, run.base) && Admitted(turns, run.logs, |run.start.Keys|)
    && FirstSeen(run.known, run.start, run.came, turns, run.base, n, size, sent)
  }

  ghost predicate ServiceOk(run: Run, turns: seq<TurnInput>, n: nat, now: set<Client>)
    requires |run.logs| == n <= |turns|
  {
    && SweptFor(run.logs, turns, run.base, run.known.Keys, now)
    && Connected(now, run.known.Keys, turns, run.base, n)
  }

  /** Who is connected is known and has not been found dead. */
  ghost predicate Connected(now: set<Client>, known: set<Client>, turns: seq<TurnInput>, base: nat, n: nat)
    requires n <= |turns|
  {
    && now <= known && (forall c :: c in known ==> c.turn < base + n) && Numbered(now, base + n)
    && forall c :: c in now ==> !Found(c.turn, turns, base, n)
  }

  lemma ConnectedStep(was: set<Client>, now: set<Client>, newcomer: Client?, known: set<Client>,
                      turns: seq<TurnInput>, base: nat, n: nat)
    requires n < |turns| && Connected(was, known, turns, base, n)
    requires newcomer != null ==> newcomer.turn == base + n
    requires forall c :: c in now ==> c in was + One(newcomer) && c.turn !in turns[n].gone
    ensures Connected(now, known + One(newcomer), turns, base, n + 1)
  {
    NotFoundBefore(base + n, turns, base, n);
    NumberedNext(was, newcomer, now, base + n);
  }

  ghost function NextRun(run: Run, newcomer: Client?, arrival: Option<nat>, sent: nat, log: TurnLog): Run {
    Run(run.base, run.start, run.held, run.came + One(newcomer), With(run.known, newcomer, arrival, sent),
        run.logs + [log])
  }

  /** What a turn does, as far as the record is concerned. */
  ghost predicate TurnDone(was: set<Client>, num: nat, input: TurnInput, newcomer: Client?, now: set<Client>,
                           log: TurnLog, turn: nat) {
    && (log.arrived <==> newcomer != null) && (log.arrived <==> input.arrival.Some? && num < MAX_CLIENTS)
    && (now != {} ==> log.swept)
    && (newcomer != null ==> newcomer.turn == turn)
    && (forall c :: c in now ==> c in was + One(newcomer) && c.turn !in input.gone)
    && (log.swept ==> exists c :: c in was + One(newcomer) && c.turn !in input.gone)
  }

  lemma RecordedStep(run: Run, turns: seq<TurnInput>, n: nat, size: nat, before: nat, was: set<Client>,
                     newcomer: Client?, sent: nat, now: set<Client>, log: TurnLog)
    requires n < |turns| && Recorded(run, turns, n, size, before, was)
    requires TurnDone(was, |was|, turns[n], newcomer, now, log, run.base + n)
    requires sent <= before + TurnLines(size, turns[n].arrival, turns[n].second)
    ensures Recorded(NextRun(run, newcomer, turns[n].arrival, before, log), turns, n + 1, size, sent, now)
  {
    PeopleStep(run, turns, n, size, before, was, newcomer, sent, now, log);
    ServiceStep(run, turns, n, before, was, newcomer, now, log);
  }

  lemma PeopleStep(run: Run, turns: seq<TurnInput>, n: nat, size: nat, before: nat, was: set<Client>,
                   newcomer: Client?, sent: nat, now: set<Client>, log: TurnLog)
    requires |run.logs| == n < |turns| && PeopleOk(run, turns, n, size, before) && was <= run.known.Keys
    requires TurnDone(was, |was|, turns[n], newcomer, now, log, run.base + n)
    requires forall c :: c in run.known.Keys ==> c.turn < run.base + n
    requires sent <= before + TurnLines(size, turns[n].arrival, turns[n].second)
    ensures PeopleOk(NextRun(run, newcomer, turns[n].arrival, before, log), turns, n + 1, size, sent)
  {
    CameStep(run.came, run.logs, run.base, newcomer, log);
    SizeOfBoth(was, run.start.Keys, run.came);
    AdmittedStep(turns, run.logs, |run.start.Keys|, |was|, log);
    FirstSeenStep(run.known, run.start, run.came, turns, run.base, n, size, before, newcomer, sent);
  }

  lemma ServiceStep(run: Run, turns: seq<TurnInput>, n: nat, before: nat, was: set<Client>,
                    newcomer: Client?, now: set<Client>, log: TurnLog)
    requires |run.logs| == n < |turns| && ServiceOk(run, turns, n, was)
    requires TurnDone(was, |was|, turns[n], newcomer, now, log, run.base + n)
    ensures ServiceOk(NextRun(run, newcomer, turns[n].arrival, before, log), turns, n + 1, now)
  {
    SweptStep(run.logs, turns, run.base, run.known.Keys, was, newcomer, now, log);
    ConnectedStep(was, now, newcomer, run.known.Keys, turns, run.base, n);
    WithKeys(run.known, newcomer, turns[n].arrival, before);
  }

  lemma SizeOfBoth(s: set<Client>, a: set<Client>, b: set<Client>)
    requires s <= a + b
    ensures |s| <= |a| + |b|
  {
    assert a + b == a + (b - a) && a + b == s + (a + b - s) && b == (b - a) + (b * a);
  }

  /**
   Before turn `n` of a run the adapter is ready, views are current, the record is right, and who was
   never found dead is loyal.
   */
  ghost predicate Serving(a: Adapter, turns: seq<TurnInput>, n: nat, run: Run)
    reads a, a.server, a.server.slots, a.data, run.known.Keys, if a.server.Valid() then a.Clients() else {}
  {
    a.Valid() && a.Ready() && (n > 0 ==> a.AllCurrent()) && InOrder(a, turns, n, run)
  }

  ghost predicate InOrder(a: Adapter, turns: seq<TurnInput>, n: nat, run: Run)
    requires a.Valid()
    reads a, a.server, a.server.slots, a.data, run.known.Keys
  {
    && a.turns == run.base + n
    && Recorded(run, turns, n, |a.data|, a.server.sent, a.Clients())
    && a.Loyal(NeverFound(run.known, turns, run.base, n))
    && |run.held| == |a.data| && Same(HeldOf(a.State()), HeldAfterTurns(run.held, turns, run.logs, n))
  }

  /** One turn of a run. */
  method ServeTurn(a: Adapter, turns: seq<TurnInput>, i: nat, ghost run: Run)
    returns (ghost next: Run, ghost more: set<Client>)
    requires i < |turns| && Serving(a, turns, i, run)
    modifies a, a.server, a.server.slots, a.Clients(), a.data
    ensures Serving(a, turns, i + 1, next) && SameStart(next, run)
    ensures Same(next.came, run.came + more) && fresh(more)
  {
    var input := turns[i];
    ghost var past := NeverFound(run.known, turns, run.base, i);
    ghost var was, before := a.Clients(), a.server.sent;
    a.server.CountConnected();
    ghost var newcomer, swept, later := a.Turn(input.arrival, input.first, input.gone, input.second, past);
    ghost var log := TurnLog(newcomer != null, swept);
    next, more := NextRun(run, newcomer, input.arrival, before, log), One(newcomer);
    NeverFoundStep(run.known, turns, run.base, i, newcomer, before);
    HeldStep(run.held, turns, run.logs, log, i);
    assert TurnDone(was, |was|, input, newcomer, a.Clients(), log, run.base + i);
    RecordedStep(run, turns, i, |a.data|, before, was, newcomer, a.server.sent, a.Clients(), log);
  }

  predicate SameStart(run: Run, other: Run) {
    run.base == other.base && Same(run.start, other.start) && Same(run.held, other.held)
  }

  /**
   Who is connected after a run: nobody else than those there at its start and those who came, and nobody
   found dead; of the others all who still accept lines, and so all who accepted more lines than the
   turns can have broadcast since they were there.
   */
  ghost predicate Accounted(a: Adapter, start: Past, came: set<Client>, logs: seq<TurnLog>,
                            turns: seq<TurnInput>, base: nat)
    requires a.Valid() && |logs| == |turns| && CameIn(came, logs, base)
    reads a, a.server, a.server.slots, start.Keys, came
  {
    && a.Clients() <= start.Keys + came
    && (forall c :: c in a.Clients() ==> !Found(c.turn, turns, base, |turns|))
    && (forall c :: c in start.Keys && !Found(c.turn, turns, base, |turns|) ==>
          (c.left > 0 || start[c].left > RunLines(|a.data|, turns, |turns|) ==> c in a.Clients()))
    && (forall c :: c in came && !Found(c.turn, turns, base, |turns|) ==>
          (c.left > 0 || Accepts(turns, c.turn - base, |a.data|) ==> c in a.Clients()))
  }

  /** The client that connects in turn `i` accepts more lines than this and the later turns broadcast. */
  predicate Accepts(turns: seq<TurnInput>, i: nat, size: nat)
    requires i < |turns|
  {
    turns[i].arrival.Some? &&
    turns[i].arrival.value + RunLines(size, turns, i) > RunLines(size, turns, |turns|)
  }

  lemma RunAccounted(a: Adapter, turns: seq<TurnInput>, run: Run)
    requires Serving(a, turns, |turns|, run)
    ensures CameIn(run.came, run.logs, run.base) && Admitted(turns, run.logs, |run.start.Keys|)
    ensures SweptFor(run.logs, turns, run.base, run.start.Keys + run.came, a.Clients())
    ensures Accounted(a, run.start, run.came, run.logs, turns, run.base)
  {
    forall c | c in run.start.Keys && !Found(c.turn, turns, run.base, |turns|)
      ensures c.left > 0 || run.start[c].left > RunLines(|a.data|, turns, |turns|) ==> c in a.Clients()
    {
      LoyalOne(a, turns, run, c);
      StillAccepts(c.left, c.received, a.server.sent, run.start[c], RunLines(|a.data|, turns, |turns|));
    }
    forall c | c in run.came && !Found(c.turn, turns, run.base, |turns|)
      ensures c.left > 0 || Accepts(turns, c.turn - run.base, |a.data|) ==> c in a.Clients()
    {
      LoyalOne(a, turns, run, c);
      CameAccepts(turns, run, c, |a.data|, a.server.sent);
    }
  }

  lemma LoyalOne(a: Adapter, turns: seq<TurnInput>, run: Run, c: Client)
    requires Serving(a, turns, |turns|, run) && c in run.known && !Found(c.turn, turns, run.base, |turns|)
    ensures Follows(c.left, c.received, a.server.sent, run.known[c]) && (c.left > 0 ==> c in a.Clients())
  {
    assert c in NeverFound(run.known, turns, run.base, |turns|);
  }

  /** A client whose moment was at most so many lines ago, and which accepted more, still accepts some. */
  lemma StillAccepts(left: nat, received: seq<Line>, sent: nat, m: Moment, lines: nat)
    requires Follows(left, received, sent, m) && sent <= m.sent + lines
    ensures m.left > lines ==> left > 0
  {
  }

  lemma CameAccepts(turns: seq<TurnInput>, run: Run, c: Client, size: nat, sent: nat)
    requires FirstSeen(run.known, run.start, run.came, turns, run.base, |turns|, size, sent) && c in run.came
    requires Follows(c.left, c.received, sent, run.known[c])
    ensures Accepts(turns, c.turn - run.base, size) ==> c.left > 0
  {
    var i := c.turn - run.base;
    assert FirstSeenAt(run.known[c], turns, i, |turns|, size, sent);
    LinesGrow(size, turns, i, |turns|);
    StillAccepts(c.left, c.received, sent, run.known[c], RunLines(size, turns, |turns|) - RunLines(size, turns, i));
  }

  ghost function NewRun(a: Adapter): Run
    requires a.Valid()
    reads a, a.server, a.server.slots, a.data, a.Clients()
  {
    Run(a.turns, a.Present(), HeldOf(a.State()), {}, a.Present(), [])
  }

  lemma StartServing(a: Adapter, turns: seq<TurnInput>)
    requires a.Valid() && a.Ready()
    ensures Serving(a, turns, 0, NewRun(a))
  {
    var start := a.Present();
    assert NeverFound(start, turns, a.turns, 0) == start;
    FirstRecord(NewRun(a), turns, |a.data|, a.server.sent, a.Clients());
  }

  lemma FirstRecord(run: Run, turns: seq<TurnInput>, size: nat, sent: nat, now: set<Client>)
    requires run == Run(run.base, run.start, run.held, {}, run.start, [])
    requires now == run.start.Keys && Numbered(now, run.base)
    requires forall c :: c in run.start ==> run.start[c].sent == sent
    ensures Recorded(run, turns, 0, size, sent, now)
  {
    assert run.start.Keys == run.start.Keys + {};
  }

  /**
   Any number of turns.  Views stay current; who is connected is accounted for; a connection gets a slot
   unless all can be taken; turns are swept exactly when somebody is there; and the items hold what the
   readings of the turns say.
   */
  method Serve(a: Adapter, turns: seq<TurnInput>) returns (ghost came: set<Client>, ghost logs: seq<TurnLog>)
    requires a.Valid() && a.Ready()
    modifies a, a.server, a.server.slots, a.Clients(), a.data
    ensures a.Valid() && a.Ready() && (|turns| > 0 ==> a.AllCurrent()) && a.turns == old(a.turns) + |turns|
    ensures |logs| == |turns| && fresh(came) && CameIn(came, logs, old(a.turns))
    ensures Admitted(turns, logs, |old(a.Clients())|)
    ensures Accounted(a, old(a.Present()), came, logs, turns, old(a.turns))
    ensures SweptFor(logs, turns, old(a.turns), old(a.Clients()) + came, a.Clients())
    ensures HeldOf(a.State()) == HeldAfterTurns(old(HeldOf(a.State())), turns, logs, |turns|)
  {
    ghost var first := NewRun(a);
    StartServing(a, turns);
    ghost var run := ServeTurns(a, turns, |turns|, first);
    RunAccounted(a, turns, run);
    came, logs := run.came, run.logs;
  }

  lemma ServedAreKnown(a: Adapter, turns: seq<TurnInput>, n: nat, run: Run)
    requires Serving(a, turns, n, run)
    ensures a.Clients() <= run.start.Keys + run.came
  {
  }

  /** A turn touches only clients that were there at the start of the run or came since. */
  method ServeNext(a: Adapter, turns: seq<TurnInput>, i: nat, ghost run: Run, ghost first: Run)
    returns (ghost next: Run, ghost more: set<Client>)
    requires i < |turns| && Serving(a, turns, i, run) && SameStart(run, first)
    modifies a, a.server, a.server.slots, first.start.Keys, run.came, a.data
    ensures Serving(a, turns, i + 1, next) && SameStart(next, first)
    ensures Same(next.came, run.came + more) && fresh(more)
  {
    ServedAreKnown(a, turns, i, run);
    next, more := ServeTurn(a, turns, i, run);
  }

  /** The first `n` turns, with their record. */
  method ServeTurns(a: Adapter, turns: seq<TurnInput>, n: nat, ghost first: Run) returns (ghost run: Run)
    requires n <= |turns| && Serving(a, turns, 0, first) && first.came == {}
    modifies a, a.server, a.server.slots, first.start.Keys, a.data
    ensures Serving(a, turns, n, run) && SameStart(run, first)
    ensures fresh(run.came)
  {
    if n == 0 {
      run := first;
    } else {
      ghost var before := ServeTurns(a, turns, n - 1, first);
      ghost var more;
      run, more := ServeNext(a, turns, n - 1, before, first);
      assert run.came == before.came + more;
    }
  }

  /** An item that was rewritten and flagged, or left as it was, does not spoil a view. */
  lemma ChangedStaysSynced(items: seq<Item>, st: seq<DatumState>, after: seq<DatumState>, i: nat)
    requires Synced(items, st) && i < |st| == |after|
    requires forall k :: 0 <= k < |st| && k != i ==> after[k] == st[k]
    requires after[i].changed || after[i] == st[i]
    ensures Synced(items, after)
  {
    forall k | 0 <= k < |after| && after[k].hasValue && !after[k].changed ensures Current(items, after, k) {
      assert Current(items, st, k);
    }
  }
}
