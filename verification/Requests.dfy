// What becomes of a request: it takes effect, and an asset left off stays off until it is asked for.

module Requests {
  import opened Events
  import opened Assets
  import opened Iteration
  import opened Accounting
  import opened Network
  import opened Conservation
  import opened PowerSafety
  import opened AtRest

  // ----- Staying off -----

  /** The asset is off and nothing but a request for it can light it: its user switched it off, or
      every OID above it says so. */
  predicate HeldOff(s: Site, a: AssetState, c: Key)
    requires s.topo.Has(c)
  {
    !a.status && (a.reason == Some(TurnedOff) || (!s.IsRoot(c) && !a.oidsOn))
  }

  /** No request to light c is in flight. */
  ghost predicate NotAskedFor(s: Site, q: seq<Message>, c: Key)
    requires s.topo.Has(c)
  {
    forall i :: 0 <= i < |q| && q[i].target == c ==> (q[i].PowerButton? ==> !q[i].on) && (q[i].Signal? ==> !q[i].on && !s.IsRoot(c))
  }

  ghost predicate StaysOff(s: Site, net: Net, c: Key) {
    Running(s, net) && c in s.config && s.topo.Has(c) && HeldOff(s, net.hw[c], c) && NotAskedFor(s, net.engine.queue, c)
  }

  lemma ReactsOff(s: Site, net: Net, c: Key)
    requires StaysOff(s, net, c) && net.engine.queue != [] && net.engine.queue[0].VoltageSide() && net.engine.queue[0].target == c
    ensures HeldOff(s, Report(s, net).state, c)
  {
    hide Accounted;
    assert NotAskedFor(s, net.engine.queue, c);
  }

  lemma VoltTurnKeepsHeld(s: Site, net: Net, c: Key)
    requires StaysOff(s, net, c) && net.engine.queue != [] && net.engine.queue[0].VoltageSide()
    ensures c in Turn(s, net).hw && HeldOff(s, Turn(s, net).hw[c], c)
  {
    hide Accounted, Turn, HeldOff, AfterPowerSide;
    var first, second := VoltTurnQueue(s, net);
    if net.engine.queue[0].target == c {
      ReactsOff(s, net, c);
    }
    hide Report;
  }

  lemma NotAskedForAfter(s: Site, q: seq<Message>, added: seq<Message>, c: Key)
    requires s.topo.Has(c) && q != [] && NotAskedFor(s, q, c)
    requires forall i :: 0 <= i < |added| ==> added[i].InputVoltage? || added[i].ChildLoad?
    ensures NotAskedFor(s, q[1..] + added, c)
  {
  }

  lemma VoltTurnStaysOff(s: Site, net: Net, c: Key)
    requires StaysOff(s, net, c) && net.engine.queue != [] && net.engine.queue[0].VoltageSide()
    ensures StaysOff(s, Turn(s, net), c)
  {
    VoltTurnKeepsHeld(s, net, c);
    hide Accounted, Turn, HeldOff, AfterPowerSide, DownstreamMessages, UpstreamMessages, NotAskedFor;
    var first, second := VoltTurnQueue(s, net);
    ReportIsPlain(s, net);
    var e := Report(s, net).event;
    hide Report;
    ReportAddsNoRequests(s, e, first, second);
    NotAskedForAfter(s, net.engine.queue, DownstreamMessages(s.topo, e, second) + UpstreamMessages(s.topo, e, first), c);
  }

  lemma LoadTurnStaysOff(s: Site, net: Net, c: Key)
    requires StaysOff(s, net, c) && net.engine.queue != [] && net.engine.queue[0].ChildLoad?
    ensures StaysOff(s, Turn(s, net), c)
  {
    hide Accounted, Turn;
    var added := LoadTurnShape(s, net);
  }

  lemma TurnStaysOff(s: Site, net: Net, c: Key)
    requires StaysOff(s, net, c)
    ensures StaysOff(s, Turn(s, net), c)
  {
    assert net.engine.queue == [] ==> Turn(s, net) == net;
    hide Accounted, Turn, HeldOff;
    if net.engine.queue != [] {
      if net.engine.queue[0].VoltageSide() {
        VoltTurnStaysOff(s, net, c);
      } else {
        LoadTurnStaysOff(s, net, c);
      }
    }
  }

  /** The request does not ask for c to be lit. */
  predicate LeavesAlone(q: Request, c: Key) {
    match q
    case SetMains(_) => true
    case Press(k, on) => k != c || !on
    case Switch(k, on) => k != c || !on
  }

  lemma AskStaysOff(s: Site, net: Net, q: Request, c: Key)
    requires StaysOff(s, net, c) && ValidRequest(s, q) && LeavesAlone(q, c)
    ensures StaysOff(s, Ask(s, net, q), c)
  {
    AskKeepsStates(s, net, q);
    assert HeldOff(s, Ask(s, net, q).hw[c], c);
    hide Accounted, HeldOff;
    if Idle(net) {
      AskPutsInFlight(s, net, q, c);
    }
  }

  lemma AskPutsInFlight(s: Site, net: Net, q: Request, c: Key)
    requires Running(s, net) && Idle(net) && ValidRequest(s, q) && LeavesAlone(q, c) && s.topo.Has(c)
    ensures NotAskedFor(s, Ask(s, net, q).engine.queue, c)
  {
    hide Accounted;
    match q
    case SetMains(v) => LaunchedQueue(s.topo, Wallpower(Change(net.mains, v)));
    case Press(k, on) => LaunchedQueue(s.topo, Button(k, on));
    case Switch(k, on) => LaunchedQueue(s.topo, Snmp(k, on));
  }

  ghost predicate NeverAskedFor(actions: seq<Action>, c: Key) {
    forall i :: 0 <= i < |actions| && actions[i].Requested? ==> LeavesAlone(actions[i].request, c)
  }

  /** An asset switched off by its user or by its OIDs stays off over every run, whatever the mains and
      all other assets do, until it is asked for itself. */
  lemma {:induction false} OffUntilAskedFor(s: Site, net: Net, actions: seq<Action>, c: Key)
    requires StaysOff(s, net, c) && ValidActions(s, actions) && NeverAskedFor(actions, c)
    ensures StaysOff(s, Exec(s, net, actions), c) && !Exec(s, net, actions).hw[c].status
  {
    hide StaysOff, Running;
    assert StaysOff(s, net, c) ==> Running(s, net) && c in net.hw && s.topo.Has(c) && !net.hw[c].status by { OffIsOff(s, net, c); }
    if actions != [] {
      var before, a := actions[..|actions| - 1], actions[|actions| - 1];
      OffUntilAskedFor(s, net, before, c);
      var t := Exec(s, net, before);
      match a
      case Requested(q) => AskStaysOff(s, t, q, c);
      case TurnTaken => TurnStaysOff(s, t, c);
      OffIsOff(s, Exec(s, net, actions), c);
    }
  }

  lemma OffIsOff(s: Site, net: Net, c: Key)
    requires StaysOff(s, net, c)
    ensures Running(s, net) && c in net.hw && s.topo.Has(c) && !net.hw[c].status
  {
  }

  // ----- Taking effect -----

  /** Everything in flight on the voltage side is for assets below k, whose voltages are settled. */
  ghost predicate WaveBelow(s: Site, net: Net, k: Key, a: AssetState) {
    && Running(s, net) && k in s.config && net.hw[k] == a.(load := net.hw[k].load)
    && forall i :: 0 <= i < |net.engine.queue| && net.engine.queue[i].VoltageSide() ==>
         net.engine.queue[i].target in s.config && s.rank[k] < s.rank[net.engine.queue[i].target]
  }

  /** The voltage events of a report are for assets further from the wall. */
  lemma ReportGoesDown(s: Site, e: AssetPowerEvent, first: nat, second: nat)
    requires s.Valid() && e.asset in s.config && e.streamed == []
    ensures var q := DownstreamMessages(s.topo, e, second) + UpstreamMessages(s.topo, e, first);
            forall i :: 0 <= i < |q| && q[i].VoltageSide() ==> q[i].target in s.config && s.rank[e.asset] < s.rank[q[i].target]
  {
    assert s.topo.Has(e.asset);
  }

  lemma ReportIsPlain(s: Site, net: Net)
    requires Running(s, net) && net.engine.queue != [] && net.engine.queue[0].VoltageSide()
    requires net.engine.queue[0].target in s.config && s.topo.Has(net.engine.queue[0].target)
    ensures Report(s, net).event.asset == net.engine.queue[0].target && Report(s, net).event.streamed == []
  {
    hide Running;
  }

  lemma VoltTurnGoesDown(s: Site, net: Net, k: Key, a: AssetState)
    requires WaveBelow(s, net, k, a) && net.engine.queue != [] && net.engine.queue[0].VoltageSide()
    ensures WaveBelow(s, Turn(s, net), k, a)
  {
    hide Accounted, Turn, AfterPowerSide, DownstreamMessages, UpstreamMessages;
    var first, second := VoltTurnQueue(s, net);
    ReportIsPlain(s, net);
    ReportGoesDown(s, Report(s, net).event, first, second);
    hide Report;
  }

  lemma LoadTurnGoesDown(s: Site, net: Net, k: Key, a: AssetState)
    requires WaveBelow(s, net, k, a) && net.engine.queue != [] && net.engine.queue[0].ChildLoad?
    ensures WaveBelow(s, Turn(s, net), k, a)
  {
    hide Accounted, Turn;
    var added := LoadTurnShape(s, net);
  }

  lemma TurnGoesDown(s: Site, net: Net, k: Key, a: AssetState)
    requires WaveBelow(s, net, k, a)
    ensures WaveBelow(s, Turn(s, net), k, a)
  {
    assert net.engine.queue == [] ==> Turn(s, net) == net;
    hide WaveBelow, Turn, Running;
    if net.engine.queue != [] {
      if net.engine.queue[0].VoltageSide() {
        VoltTurnGoesDown(s, net, k, a);
      } else {
        LoadTurnGoesDown(s, net, k, a);
      }
    }
  }

  lemma {:induction false} SettlesBelow(s: Site, net: Net, k: Key, a: AssetState)
    requires WaveBelow(s, net, k, a)
    ensures WaveBelow(s, Settle(s, net), k, a)
    decreases InFlightWeight(s, net)
  {
    assert Running(s, net);
    hide WaveBelow, Running, Turn, InFlightWeight;
    if !Idle(net) {
      TurnDescends(s, net);
      TurnGoesDown(s, net, k, a);
      SettlesBelow(s, Turn(s, net), k, a);
    }
  }

  /** A request for k alone in flight: k reacts to it, and what follows is below k. */
  lemma RequestHandled(s: Site, net: Net, m: Message)
    requires Running(s, net) && net.engine.queue == [m] && (m.PowerButton? || m.Signal?) && m.target in s.config && s.topo.Has(m.target)
    ensures WaveBelow(s, Turn(s, net), m.target, Report(s, net).state)
    ensures WaveBelow(s, Settle(s, net), m.target, Report(s, net).state)
  {
    hide Accounted, Turn, AfterPowerSide, InFlightWeight;
    var first, second := VoltTurnQueue(s, net);
    var e, a := Report(s, net).event, Report(s, net).state;
    ReportIsPlain(s, net);
    ReportGoesDown(s, e, first, second);
    assert a == a.(load := a.load);
    SettlesBelow(s, Turn(s, net), m.target, a);
    hide Running, WaveBelow;
    assert !Idle(net);
  }

  /** A press that goes through leaves the asset as pressed, one that does not changes nothing. */
  lemma PressTakesEffect(s: Site, net: Net, k: Key, on: bool)
    requires Running(s, net) && Idle(net) && k in s.config && s.topo.Has(k)
    ensures var r := Settle(s, Ask(s, net, Press(k, on)));
            if PressAllowed(s, net, k, on) then
              r.hw[k].status == on && r.hw[k].reason == Some(if on then TurnedOn else TurnedOff)
              && r.hw[k].inVolt == net.hw[k].inVolt && r.hw[k].oidsOn == net.hw[k].oidsOn
            else r == net
  {
    hide Accounted, PressAllowed;
    if PressAllowed(s, net, k, on) {
      LaunchedQueue(s.topo, Button(k, on));
      RequestHandled(s, Ask(s, net, Press(k, on)), PowerButton(k, on, 0));
    }
  }

  /** A signal that switches an outlet off leaves it off; one that switches it on leaves it lit exactly
      when it was or its source is live. */
  lemma SwitchTakesEffect(s: Site, net: Net, k: Key, on: bool)
    requires Running(s, net) && Idle(net) && ValidRequest(s, Switch(k, on))
    ensures var r := Settle(s, Ask(s, net, Switch(k, on)));
            var p := net.hw[s.Parent(k)];
            && r.hw[k].oidsOn == on && r.hw[k].inVolt == net.hw[k].inVolt && r.hw[k].reason == Some(if on then AcRestored else AcLost)
            && (r.hw[k].status <==> on && (net.hw[k].status || (p.status && p.OutputVoltage() > s.config[k].minVoltage)))
  {
    hide Accounted;
    LaunchedQueue(s.topo, Snmp(k, on));
    SupplyFollowsParent(s, net, k);
    var asked := Ask(s, net, Switch(k, on));
    RequestHandled(s, asked, Signal(k, on, 0));
    assert SupplyOf(s, asked, k) == SupplyOf(s, net, k);
  }
}
