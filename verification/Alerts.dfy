/** Offline and agent alerts: which messages a run may produce, and how far apart. */
module Alerts {
  import opened StreamParsing

  datatype Message =
    | Offline(machine: string, time: int)
    | StillOffline(machine: string, time: int)
    | Recovered(machine: string, time: int)
    | AgentDown(time: int)
    | AgentBack(time: int)

  /** Where a channel stands after a trace: quiet, alarmed with the time of the last alarm, or out of order. */
  datatype Channel = Quiet | Alarmed(last: int) | Broken

  /** One machine's channel: offline, then still-offline at intervals of at least `every`, then recovered. */
  function MachineStep(c: Channel, msg: Message, m: string, every: int): Channel {
    match msg
    case Offline(name, t) => if name != m then c else if c.Quiet? then Alarmed(t) else Broken
    case StillOffline(name, t) =>
      if name != m then c else if c.Alarmed? && t - c.last >= every then Alarmed(t) else Broken
    case Recovered(name, _) => if name != m then c else if c.Alarmed? then Quiet else Broken
    case _ => c
  }

  function AgentStep(c: Channel, msg: Message, every: int): Channel {
    match msg
    case AgentDown(t) =>
      if c.Quiet? then Alarmed(t) else if c.Alarmed? && t - c.last >= every then Alarmed(t) else Broken
    case AgentBack(_) => if c.Alarmed? then Quiet else Broken
    case _ => c
  }

  function MachineChannel(trace: seq<Message>, m: string, every: int): Channel {
    if trace == [] then Quiet
    else MachineStep(MachineChannel(trace[..|trace| - 1], m, every), trace[|trace| - 1], m, every)
  }

  function AgentChannel(trace: seq<Message>, every: int): Channel {
    if trace == [] then Quiet
    else AgentStep(AgentChannel(trace[..|trace| - 1], every), trace[|trace| - 1], every)
  }

  lemma Snoc(trace: seq<Message>, msg: Message, every: int)
    ensures forall m ::
      MachineChannel(trace + [msg], m, every) == MachineStep(MachineChannel(trace, m, every), msg, m, every)
    ensures AgentChannel(trace + [msg], every) == AgentStep(AgentChannel(trace, every), msg, every)
  {
    assert (trace + [msg])[..|trace|] == trace;
  }

  predicate SameEntry(a: map<string, int>, b: map<string, int>, k: string) {
    (k in a <==> k in b) && (k in a && k in b ==> a[k] == b[k])
  }

  /** What one machine's check leaves behind: off machines have had an alarm less than `every` ago. */
  predicate Tracked(alerts: map<string, int>, name: string, off: bool, now: int, every: int) {
    if off then name in alerts && (alerts[name] == now || now - alerts[name] < every) else name !in alerts
  }

  predicate IsOff(s: MachineState) { s.avail == "UNAVAILABLE" || s.execution == "UNAVAILABLE" }

  class AlertTracker {
    var offlineSince: map<string, int>
    var lastOfflineAlert: map<string, int>
    var lastReqOk: bool
    var lastReqFailAlert: int
    const enabled: bool
    const every: int
    ghost var trace: seq<Message>

    constructor (enabled: bool, every: int)
      ensures this.enabled == enabled && this.every == every && trace == [] && Valid()
    {
      offlineSince, lastOfflineAlert, lastReqOk, lastReqFailAlert := map[], map[], true, 0;
      this.enabled, this.every := enabled, every;
      trace := [];
    }

    /** The tracker's fields are exactly the channel states of everything sent so far; no channel is out of order. */
    ghost predicate Valid()
      reads this
    {
      && offlineSince.Keys == lastOfflineAlert.Keys
      && (forall m :: MachineChannel(trace, m, every) ==
                      if m in lastOfflineAlert then Alarmed(lastOfflineAlert[m]) else Quiet)
      && AgentChannel(trace, every) == if lastReqOk then Quiet else Alarmed(lastReqFailAlert)
    }

    method Send(msg: Message)
      modifies this`trace
      ensures trace == old(trace) + [msg]
      ensures forall m ::
        MachineChannel(trace, m, every) == MachineStep(MachineChannel(old(trace), m, every), msg, m, every)
      ensures AgentChannel(trace, every) == AgentStep(AgentChannel(old(trace), every), msg, every)
    {
      Snoc(trace, msg, every);
      trace := trace + [msg];
    }

    method CheckMachine(s: MachineState, now: int)
      requires Valid()
      modifies this`trace, this`offlineSince, this`lastOfflineAlert
      ensures Valid() && old(trace) <= trace
      ensures Tracked(lastOfflineAlert, s.name, IsOff(s), now, every)
      ensures forall k :: k != s.name ==> SameEntry(lastOfflineAlert, old(lastOfflineAlert), k)
      ensures forall k :: k != s.name ==> SameEntry(offlineSince, old(offlineSince), k)
      ensures IsOff(s) && s.name in old(offlineSince) ==> offlineSince == old(offlineSince)
    {
      if IsOff(s) { CheckOff(s.name, now); } else { CheckOn(s.name, now); }
    }

    method CheckOff(name: string, now: int)
      requires Valid()
      modifies this`trace, this`offlineSince, this`lastOfflineAlert
      ensures Valid() && old(trace) <= trace
      ensures Tracked(lastOfflineAlert, name, true, now, every)
      ensures forall k :: k != name ==> SameEntry(lastOfflineAlert, old(lastOfflineAlert), k)
      ensures forall k :: k != name ==> SameEntry(offlineSince, old(offlineSince), k)
      ensures name in old(offlineSince) ==> offlineSince == old(offlineSince)
    {
      if name !in offlineSince {
        FirstAlarm(name, now);
      } else if now - lastOfflineAlert[name] >= every {
        Remind(name, now);
      }
    }

    method FirstAlarm(name: string, now: int)
      requires Valid() && name !in offlineSince
      modifies this`trace, this`offlineSince, this`lastOfflineAlert
      ensures Valid() && old(trace) <= trace
      ensures offlineSince == old(offlineSince)[name := now] && lastOfflineAlert == old(lastOfflineAlert)[name := now]
    {
      offlineSince := offlineSince[name := now];
      lastOfflineAlert := lastOfflineAlert[name := now];
      Send(Offline(name, now));
    }

    method Remind(name: string, now: int)
      requires Valid() && name in lastOfflineAlert && now - lastOfflineAlert[name] >= every
      modifies this`trace, this`lastOfflineAlert
      ensures Valid() && old(trace) <= trace && lastOfflineAlert == old(lastOfflineAlert)[name := now]
    {
      lastOfflineAlert := lastOfflineAlert[name := now];
      Send(StillOffline(name, now));
    }

    method CheckOn(name: string, now: int)
      requires Valid()
      modifies this`trace, this`offlineSince, this`lastOfflineAlert
      ensures Valid() && old(trace) <= trace
      ensures Tracked(lastOfflineAlert, name, false, now, every)
      ensures forall k :: k != name ==> SameEntry(lastOfflineAlert, old(lastOfflineAlert), k)
      ensures forall k :: k != name ==> SameEntry(offlineSince, old(offlineSince), k)
    {
      if name in offlineSince {
        Send(Recovered(name, now));
        offlineSince := offlineSince - {name};
        lastOfflineAlert := lastOfflineAlert - {name};
      }
    }

    method CheckAgent(now: int, reqOk: bool)
      requires Valid()
      modifies this`trace, this`lastReqOk, this`lastReqFailAlert
      ensures Valid() && old(trace) <= trace && lastReqOk == reqOk
      ensures !reqOk ==> lastReqFailAlert == now || now - lastReqFailAlert < every
    {
      if reqOk {
        if !lastReqOk { Send(AgentBack(now)); }
        lastReqOk := true;
      } else if lastReqOk || now - lastReqFailAlert >= every {
        lastReqOk := false;
        lastReqFailAlert := now;
        Send(AgentDown(now));
      }
    }

    /** One check of all machines, in any order, and of the agent. */
    method Check(states: StateMap, now: int, reqOk: bool)
      requires Valid() && forall m :: m in states ==> states[m].name == m
      modifies this
      ensures Valid() && old(trace) <= trace
      ensures enabled ==> lastReqOk == reqOk && Fits(AgentChannel(trace, every), !reqOk, now, every)
      ensures enabled ==>
        forall m :: m in states ==> Tracked(lastOfflineAlert, m, IsOff(states[m]), now, every)
      ensures enabled ==>
        forall m :: m !in states ==> MachineChannel(trace, m, every) == MachineChannel(old(trace), m, every)
      ensures !enabled ==> trace == old(trace)
    {
      if !enabled { return; }
      var todo := states.Keys;
      while todo != {}
        invariant todo <= states.Keys && Valid() && old(trace) <= trace
        invariant forall m :: m in states && m !in todo ==> Tracked(lastOfflineAlert, m, IsOff(states[m]), now, every)
        invariant forall m :: m !in states ==> SameEntry(lastOfflineAlert, old(lastOfflineAlert), m)
        decreases |todo|
      {
        var m :| m in todo;
        ghost var before := lastOfflineAlert;
        CheckMachine(states[m], now);
        forall k | k in states && k !in todo ensures Tracked(lastOfflineAlert, k, IsOff(states[k]), now, every) {
          assert SameEntry(lastOfflineAlert, before, k);
        }
        forall k | k !in states ensures SameEntry(lastOfflineAlert, old(lastOfflineAlert), k) {
          assert SameEntry(lastOfflineAlert, before, k);
        }
        todo := todo - {m};
      }
      CheckAgent(now, reqOk);
    }
  }

  datatype Round = Round(states: StateMap, now: int, reqOk: bool)

  /** What a channel is like right after a check: down means an alarm now or less than `every` ago. */
  predicate Fits(c: Channel, down: bool, now: int, every: int) {
    if down then c.Alarmed? && (c.last == now || now - c.last < every) else c == Quiet
  }

  /** The messages sent say what the last round found, of every machine in it and of the agent. */
  ghost predicate UpToDate(trace: seq<Message>, r: Round, every: int) {
    && (forall m :: m in r.states ==>
          var off := r.states[m].avail == "UNAVAILABLE" || r.states[m].execution == "UNAVAILABLE";
          Fits(MachineChannel(trace, m, every), off, r.now, every))
    && Fits(AgentChannel(trace, every), !r.reqOk, r.now, every)
  }

  /**
   Whatever a run meets, no channel ever gets out of order, and after its last round the messages sent are
   up to date; a tracker that is switched off sends nothing.
   */
  method RunAlerts(rounds: seq<Round>, enabled: bool, every: int) returns (t: AlertTracker)
    requires forall r, m :: r in rounds && m in r.states ==> r.states[m].name == m
    ensures fresh(t) && t.Valid() && t.every == every
    ensures forall m :: MachineChannel(t.trace, m, every) != Broken
    ensures AgentChannel(t.trace, every) != Broken
    ensures t.offlineSince.Keys == t.lastOfflineAlert.Keys
    ensures enabled && rounds != [] ==> UpToDate(t.trace, rounds[|rounds| - 1], every)
    ensures !enabled ==> t.trace == []
  {
    t := new AlertTracker(enabled, every);
    for i := 0 to |rounds|
      invariant fresh(t) && t.Valid() && t.every == every && t.enabled == enabled
      invariant enabled && i > 0 ==> UpToDate(t.trace, rounds[i - 1], every)
      invariant !enabled ==> t.trace == []
    {
      var r := rounds[i];
      assert r in rounds;
      t.Check(r.states, r.now, r.reqOk);
    }
  }
}
