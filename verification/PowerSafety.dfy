// Nothing stays lit under a dead parent: power safety over every run of a power network.

module PowerSafety {
  import opened Events
  import opened Assets
  import opened Iteration
  import opened Accounting
  import opened Network
  import opened Conservation
  import opened AtRest

  /** No event ever brings the asset a voltage: it has no parent and is no outlet in the wall. */
  predicate Unplugged(s: Site, n: Key)
    requires n in s.config && s.topo.Has(n)
  {
    s.IsRoot(n) && !s.config[n].kind.Outlet?
  }

  /** The asset puts a voltage out. */
  predicate Live(a: AssetState) {
    a.status && a.inVolt > 0.0
  }

  // ----- Input voltages in flight -----

  /** The input voltages in flight to c, oldest first. */
  ghost function Incoming(q: seq<Message>, c: Key): seq<real> {
    if q == [] then []
    else (if q[0].InputVoltage? && q[0].target == c then [q[0].volt.after] else []) + Incoming(q[1..], c)
  }

  lemma {:induction false} IncomingAppend(p: seq<Message>, q: seq<Message>, c: Key)
    ensures Incoming(p + q, c) == Incoming(p, c) + Incoming(q, c)
  {
    if p == [] {
      assert p + q == q;
    } else {
      assert (p + q)[1..] == p[1..] + q;
      IncomingAppend(p[1..], q, c);
    }
  }

  lemma {:induction false} IncomingNone(q: seq<Message>, c: Key)
    requires forall i :: 0 <= i < |q| && q[i].InputVoltage? ==> q[i].target != c
    ensures Incoming(q, c) == []
  {
    if q != [] {
      IncomingNone(q[1..], c);
    }
  }

  /** Voltage events for a repeat-free list of targets bring each target one voltage. */
  lemma {:induction false} IncomingOfVolts(ks: seq<Key>, q: seq<Message>, v: real, c: Key)
    requires Distinct(ks) && |q| == |ks|
    requires forall i :: 0 <= i < |q| ==> q[i].InputVoltage? && q[i].target == ks[i] && q[i].volt.after == v
    ensures Incoming(q, c) == if c in ks then [v] else []
  {
    if q == [] {
    } else if q[0].target == c {
      IncomingNone(q[1..], c);
      assert ks[0] in ks;
    } else {
      IncomingOfVolts(ks[1..], q[1..], v, c);
    }
  }

  // ----- The invariant -----

  /** What an asset's input voltage and state have to do with a lit source at `volt`, given the
      voltages still in flight to the asset. */
  ghost predicate FollowsLit(a: AssetState, min: real, volt: real, incoming: seq<real>) {
    if incoming == [] then a.inVolt == volt && (a.status ==> volt > min) else incoming[|incoming| - 1] == volt
  }

  /** An asset below a source that is not live is off, or will be once what is in flight arrives. */
  ghost predicate FollowsDark(a: AssetState, incoming: seq<real>) {
    !a.status || exists v :: v in incoming && v <= 0.0
  }

  ghost predicate Follows(parent: AssetState, a: AssetState, min: real, incoming: seq<real>) {
    if Live(parent) then FollowsLit(a, min, parent.inVolt, incoming) else FollowsDark(a, incoming)
  }

  ghost predicate EdgeOk(s: Site, net: Net, c: Key)
    requires c in s.config && c in net.hw && s.topo.Has(c)
  {
    var incoming := Incoming(net.engine.queue, c);
    if Unplugged(s, c) then incoming == []
    else if s.IsRoot(c) then FollowsLit(net.hw[c], 0.0, net.mains, incoming)
    else s.Parent(c) in net.hw && Follows(net.hw[s.Parent(c)], net.hw[c], s.config[c].minVoltage, incoming)
  }

  ghost predicate InOrder(s: Site, net: Net, c: Key)
    requires c in s.config && c in net.hw && s.topo.Has(c)
  {
    EdgeOk(s, net, c) && (net.hw[c].status && !Unplugged(s, c) ==> net.hw[c].inVolt > 0.0)
  }

  /** A request in flight is alone, and still allowed. */
  ghost predicate RequestReady(s: Site, net: Net, m: Message) {
    && m.target in s.config
    && (m.PowerButton? ==> net.engine.queue == [m] && s.topo.Has(m.target) && m.target in net.hw && PressAllowed(s, net, m.target, m.on))
    && (m.Signal? ==> net.engine.queue == [m] && s.topo.Has(m.target) && !s.IsRoot(m.target))
  }

  ghost predicate Safe(s: Site, net: Net) {
    && Running(s, net) && net.mains >= 0.0
    && (forall i :: 0 <= i < |net.engine.queue| ==> RequestReady(s, net, net.engine.queue[i]))
    && (forall c :: c in s.config ==> InOrder(s, net, c))
  }

  // ----- One asset -----

  /** What a turn of an asset must tell its children: its new output voltage when it is live and
      anything changed, zero when it went dead. */
  ghost predicate TellsChildren(before: AssetState, after: AssetState, out: Change) {
    if Live(after) then
      if out.Unchanged() then Live(before) && before.inVolt == after.inVolt else out.after == after.inVolt
    else Live(before) ==> !out.Unchanged() && out.after <= 0.0
  }

  lemma ReactionTells(c: Config, a: AssetState, m: Message, supply: Supply)
    requires c.Valid() && m.VoltageSide() && (m.PowerButton? || (a.status ==> a.inVolt > 0.0))
    requires m.PowerButton? ==> a.status != m.on
    requires m.Signal? && m.on && supply.Available(true) ==> a.inVolt > 0.0
    ensures TellsChildren(a, AfterPowerSide(c, a, m, supply).state, AfterPowerSide(c, a, m, supply).event.outVolt)
    ensures var r := AfterPowerSide(c, a, m, supply).state;
            (m.PowerButton? && m.on ==> a.inVolt > 0.0) && r.status ==> r.inVolt > 0.0
  {
  }

  /** A child's edge survives its parent's turn when the child is told. */
  lemma ChildFollows(before: AssetState, after: AssetState, out: Change, a: AssetState, min: real, incoming: seq<real>)
    requires Follows(before, a, min, incoming) && TellsChildren(before, after, out)
    ensures Follows(after, a, min, incoming + if out.Unchanged() then [] else [out.after])
  {
    if out.Unchanged() {
      assert incoming + [] == incoming;
    } else {
      var next := incoming + [out.after];
      if !Live(after) && a.status {
        if Live(before) {
          assert out.after in next;
        } else {
          var v :| v in incoming && v <= 0.0;
          assert v in next;
        }
      }
    }
  }

  /** An asset that handles the oldest voltage in flight to it keeps following a lit source. */
  lemma HandlesLit(c: Config, a: AssetState, m: Message, supply: Supply, min: real, volt: real, incoming: seq<real>)
    requires c.Valid() && m.InputVoltage? && volt >= 0.0 && min <= c.minVoltage
    requires FollowsLit(a, min, volt, [m.volt.after] + incoming)
    ensures FollowsLit(AfterInputVoltage(c, a, m, supply).state, min, volt, incoming)
  {
  }

  lemma HandlesDark(c: Config, a: AssetState, m: Message, supply: Supply, incoming: seq<real>)
    requires c.Valid() && m.InputVoltage? && !supply.Available(a.oidsOn)
    requires FollowsDark(a, [m.volt.after] + incoming)
    ensures FollowsDark(AfterInputVoltage(c, a, m, supply).state, incoming)
  {
  }

  // ----- One turn -----

  lemma SupplyFollowsParent(s: Site, net: Net, n: Key)
    requires Running(s, net) && n in s.config && s.topo.Has(n) && !s.IsRoot(n)
    ensures s.Parent(n) in net.hw && s.topo.parents[n] == [s.Parent(n)] && s.Parent(n) != n
    ensures SupplyOf(s, net, n)
         == Parents(net.hw[s.Parent(n)].OutputVoltage() > s.config[n].minVoltage && net.hw[s.Parent(n)].status)
  {
  }

  /** The edge above the asset that takes the turn, after an input voltage event. */
  lemma OwnEdgeAfterVoltage(s: Site, net: Net, a: AssetState)
    requires Safe(s, net) && net.engine.queue != [] && net.engine.queue[0].InputVoltage?
    requires s.topo.Has(net.engine.queue[0].target) && a == Report(s, net).state
    ensures var n, rest := net.engine.queue[0].target, net.engine.queue[1..];
            !Unplugged(s, n) &&
            if s.IsRoot(n) then FollowsLit(a, 0.0, net.mains, Incoming(rest, n))
            else Follows(net.hw[s.Parent(n)], a, s.config[n].minVoltage, Incoming(rest, n))
  {
    var m, rest := net.engine.queue[0], net.engine.queue[1..];
    var n := m.target;
    assert RequestReady(s, net, m) && InOrder(s, net, n);
    assert Incoming(net.engine.queue, n) == [m.volt.after] + Incoming(rest, n);
    var c, supply := s.config[n], SupplyOf(s, net, n);
    if s.IsRoot(n) {
      HandlesLit(c, net.hw[n], m, supply, 0.0, net.mains, Incoming(rest, n));
    } else {
      SupplyFollowsParent(s, net, n);
      var p := net.hw[s.Parent(n)];
      if Live(p) {
        HandlesLit(c, net.hw[n], m, supply, c.minVoltage, p.inVolt, Incoming(rest, n));
      } else {
        HandlesDark(c, net.hw[n], m, supply, Incoming(rest, n));
      }
    }
  }

  /** ... and after a button press or a signal, which come alone. */
  lemma OwnEdgeAfterRequest(s: Site, net: Net, a: AssetState)
    requires Safe(s, net) && net.engine.queue != [] && (net.engine.queue[0].PowerButton? || net.engine.queue[0].Signal?)
    requires s.topo.Has(net.engine.queue[0].target) && a == Report(s, net).state
    ensures var n, m := net.engine.queue[0].target, net.engine.queue[0];
            && (m.PowerButton? ==> net.hw[n].status != m.on)
            && (m.Signal? ==> !Unplugged(s, n))
            && (m.Signal? && m.on && SupplyOf(s, net, n).Available(true) ==> net.hw[n].inVolt > 0.0)
            && (!Unplugged(s, n) && m.PowerButton? && m.on ==> net.hw[n].inVolt > 0.0)
            && if Unplugged(s, n) then true
               else if s.IsRoot(n) then FollowsLit(a, 0.0, net.mains, [])
               else Follows(net.hw[s.Parent(n)], a, s.config[n].minVoltage, [])
  {
    var m := net.engine.queue[0];
    var n := m.target;
    assert RequestReady(s, net, m) && InOrder(s, net, n);
    assert net.engine.queue == [m];
    assert Incoming(net.engine.queue, n) == [];
    if !s.IsRoot(n) {
      SupplyFollowsParent(s, net, n);
    }
  }

  /** What the turn of n adds to the voltages in flight. */
  ghost predicate AddsVolts(s: Site, n: Key, added: seq<Message>, out: Change)
    requires n in s.config && s.topo.Has(n)
  {
    forall k :: Incoming(added, k) == if k in s.topo.children[n] && !out.Unchanged() then [out.after] else []
  }

  lemma ReportAddsVolts(s: Site, e: AssetPowerEvent, first: nat, second: nat)
    requires s.Valid() && e.asset in s.config
    ensures AddsVolts(s, e.asset, DownstreamMessages(s.topo, e, second) + UpstreamMessages(s.topo, e, first), e.outVolt)
  {
    var volts, loads := DownstreamMessages(s.topo, e, second), UpstreamMessages(s.topo, e, first);
    forall k ensures Incoming(volts + loads, k) == if k in s.topo.children[e.asset] && !e.outVolt.Unchanged() then [e.outVolt.after] else []
    {
      IncomingAppend(volts, loads, k);
      IncomingNone(loads, k);
      if e.outVolt.Unchanged() {
        IncomingNone(volts, k);
      } else {
        IncomingOfVolts(s.topo.children[e.asset], volts, e.outVolt.after, k);
      }
    }
  }

  lemma IncomingAfterTurn(q: seq<Message>, added: seq<Message>, k: Key)
    requires q != []
    ensures Incoming(q[1..] + added, k) == Incoming(q[1..], k) + Incoming(added, k)
    ensures !(q[0].InputVoltage? && q[0].target == k) ==> Incoming(q, k) == Incoming(q[1..], k)
  {
    IncomingAppend(q[1..], added, k);
    assert [] + Incoming(q[1..], k) == Incoming(q[1..], k);
  }

  lemma OnlyParent(s: Site, c: Key, n: Key)
    requires s.Valid() && c in s.config && n in s.config && s.topo.Has(c) && s.topo.Has(n)
    ensures c in s.topo.children[n] <==> !s.IsRoot(c) && s.Parent(c) == n
    ensures !s.IsRoot(c) ==> s.Parent(c) in s.config
  {
  }

  /** Every other edge survives: those below the asset are told, the rest do not change. */
  lemma OtherEdge(s: Site, net: Net, r: Net, n: Key, added: seq<Message>, out: Change, c: Key)
    requires s.Valid() && net.hw.Keys == s.config.Keys && net.engine.queue != []
    requires n in s.config && s.topo.Has(n) && AddsVolts(s, n, added, out)
    requires n in r.hw && TellsChildren(net.hw[n], r.hw[n], out) && r.hw == net.hw[n := r.hw[n]]
    requires r.mains == net.mains && r.engine.queue == net.engine.queue[1..] + added
    requires c in s.config && s.topo.Has(c) && EdgeOk(s, net, c)
    requires c != n && n == net.engine.queue[0].target
    ensures EdgeOk(s, r, c)
  {
    IncomingAfterTurn(net.engine.queue, added, c);
    OnlyParent(s, c, n);
    var incoming := Incoming(net.engine.queue, c);
    assert incoming + [] == incoming;
    if c in s.topo.children[n] {
      ChildFollows(net.hw[n], r.hw[n], out, net.hw[c], s.config[c].minVoltage, incoming);
    }
  }

  lemma NewMessagesAreNoRequests(s: Site, net: Net, r: Net, added: seq<Message>)
    requires net.engine.queue != [] && r.engine.queue == net.engine.queue[1..] + added
    requires forall i :: 0 <= i < |net.engine.queue| ==> RequestReady(s, net, net.engine.queue[i])
    requires forall i :: 0 <= i < |added| ==> added[i].target in s.config && (added[i].InputVoltage? || added[i].ChildLoad?)
    ensures forall i :: 0 <= i < |r.engine.queue| ==> RequestReady(s, r, r.engine.queue[i])
  {
  }

  lemma ReportAddsNoRequests(s: Site, e: AssetPowerEvent, first: nat, second: nat)
    requires s.Valid() && e.asset in s.config && e.streamed == []
    ensures var added := DownstreamMessages(s.topo, e, second) + UpstreamMessages(s.topo, e, first);
            forall i :: 0 <= i < |added| ==> added[i].target in s.config && (added[i].InputVoltage? || added[i].ChildLoad?)
  {
  }

  lemma OwnEdge(s: Site, net: Net, r: Net, added: seq<Message>)
    requires Safe(s, net) && net.engine.queue != [] && net.engine.queue[0].VoltageSide()
    requires s.topo.Has(net.engine.queue[0].target) && net.engine.queue[0].target in s.config
    requires var n := net.engine.queue[0].target;
             && r.hw == net.hw[n := Report(s, net).state] && r.mains == net.mains
             && r.engine.queue == net.engine.queue[1..] + added && AddsVolts(s, n, added, Report(s, net).event.outVolt)
    ensures var n := net.engine.queue[0].target;
            && InOrder(s, r, n)
            && TellsChildren(net.hw[n], r.hw[n], Report(s, net).event.outVolt)
  {
    var m := net.engine.queue[0];
    var n := m.target;
    IncomingAfterTurn(net.engine.queue, added, n);
    assert Incoming(added, n) == [] by {
      OnlyParent(s, n, n);
      assert !s.IsRoot(n) ==> s.Parent(n) in s.topo.parents[n];
    }
    assert Incoming(net.engine.queue[1..], n) + [] == Incoming(net.engine.queue[1..], n);
    if m.InputVoltage? {
      OwnEdgeAfterVoltage(s, net, Report(s, net).state);
    } else {
      OwnEdgeAfterRequest(s, net, Report(s, net).state);
      assert RequestReady(s, net, m) && net.engine.queue[1..] == [];
    }
    if !s.IsRoot(n) {
      SupplyFollowsParent(s, net, n);
    }
    ReactionTells(s.config[n], net.hw[n], m, SupplyOf(s, net, n));
  }

  /** Once the asset that took the turn is in order, so is everything else. */
  lemma TurnedSafe(s: Site, net: Net, r: Net, n: Key, added: seq<Message>, out: Change)
    requires Safe(s, net) && Running(s, r) && net.engine.queue != [] && n == net.engine.queue[0].target
    requires n in s.config && s.topo.Has(n) && r.hw == net.hw[n := r.hw[n]] && r.mains == net.mains
    requires r.engine.queue == net.engine.queue[1..] + added && AddsVolts(s, n, added, out)
    requires InOrder(s, r, n) && TellsChildren(net.hw[n], r.hw[n], out)
    requires forall i :: 0 <= i < |r.engine.queue| ==> RequestReady(s, r, r.engine.queue[i])
    ensures Safe(s, r)
  {
    hide Accounted;
    forall c | c in s.config ensures InOrder(s, r, c)
    {
      assert InOrder(s, net, c);
      if c != n {
        OtherEdge(s, net, r, n, added, out, c);
      }
    }
  }

  lemma VoltTurnSafe(s: Site, net: Net)
    requires Safe(s, net) && net.engine.queue != [] && net.engine.queue[0].VoltageSide()
    ensures Safe(s, Turn(s, net))
  {
    var first, second := VoltTurnQueue(s, net);
    var e, r := Report(s, net).event, Turn(s, net);
    var added := DownstreamMessages(s.topo, e, second) + UpstreamMessages(s.topo, e, first);
    ReportAddsVolts(s, e, first, second);
    ReportAddsNoRequests(s, e, first, second);
    NewMessagesAreNoRequests(s, net, r, added);
    OwnEdge(s, net, r, added);
    TurnedSafe(s, net, r, net.engine.queue[0].target, added, e.outVolt);
  }

  /** A load event changes no state, no voltage and nothing about the voltages in flight. */
  lemma SameVoltagesSafe(s: Site, net: Net, r: Net, added: seq<Message>)
    requires Safe(s, net) && Running(s, r) && r.mains == net.mains && net.engine.queue != [] && !net.engine.queue[0].InputVoltage?
    requires forall c :: c in s.config ==> r.hw[c].status == net.hw[c].status && r.hw[c].inVolt == net.hw[c].inVolt
    requires r.engine.queue == net.engine.queue[1..] + added && forall i :: 0 <= i < |added| ==> added[i].ChildLoad?
    requires forall i :: 0 <= i < |r.engine.queue| ==> RequestReady(s, r, r.engine.queue[i])
    ensures Safe(s, r)
  {
    forall c | c in s.config ensures InOrder(s, r, c)
    {
      assert InOrder(s, net, c);
      IncomingAfterTurn(net.engine.queue, added, c);
      IncomingNone(added, c);
      assert Incoming(net.engine.queue, c) + [] == Incoming(net.engine.queue, c);
      OnlyParent(s, c, c);
    }
  }

  lemma LoadTurnShape(s: Site, net: Net) returns (added: seq<Message>)
    requires Running(s, net) && net.engine.queue != [] && net.engine.queue[0].ChildLoad?
    ensures Turn(s, net).engine.queue == net.engine.queue[1..] + added
    ensures forall i :: 0 <= i < |added| ==> added[i].target in s.config && added[i].ChildLoad?
    ensures forall c :: c in s.config ==> Turn(s, net).hw[c] == net.hw[c].(load := Turn(s, net).hw[c].load)
  {
    hide Accounted;
    LoadTurnQueue(s, net);
    var m := net.engine.queue[0];
    var e := AfterChildLoad(s.config[m.target], net.hw[m.target], m).event;
    added := AfterAssetLoad(net.engine.current.value, s.topo, e).loads;
  }

  lemma LoadTurnSafe(s: Site, net: Net)
    requires Safe(s, net) && net.engine.queue != [] && net.engine.queue[0].ChildLoad?
    ensures Safe(s, Turn(s, net))
  {
    var added := LoadTurnShape(s, net);
    NewMessagesAreNoRequests(s, net, Turn(s, net), added);
    SameVoltagesSafe(s, net, Turn(s, net), added);
  }

  lemma TurnSafe(s: Site, net: Net)
    requires Safe(s, net)
    ensures Safe(s, Turn(s, net))
  {
    if net.engine.queue != [] {
      if net.engine.queue[0].VoltageSide() {
        VoltTurnSafe(s, net);
      } else {
        LoadTurnSafe(s, net);
      }
    }
  }

  // ----- Requests -----

  lemma MainsSafe(s: Site, net: Net, v: real)
    requires Safe(s, net) && Idle(net) && v >= 0.0
    ensures Safe(s, Ask(s, net, SetMains(v)))
  {
    hide Accounted;
    var src := Wallpower(Change(net.mains, v));
    LaunchedQueue(s.topo, src);
    var r := Ask(s, net, SetMains(v));
    if v != net.mains {
      forall c | c in s.config ensures InOrder(s, r, c)
      {
        assert InOrder(s, net, c);
        IncomingOfVolts(s.topo.mains, r.engine.queue, v, c);
        assert s.topo.Has(c) && (c in s.topo.mains <==> s.IsRoot(c) && !Unplugged(s, c));
      }
    }
  }

  lemma RequestSafe(s: Site, net: Net, r: Net)
    requires Safe(s, net) && net.engine.queue == [] && Running(s, r) && SameButDeviceLoads(s, net, r) && r.mains == net.mains
    requires forall i :: 0 <= i < |r.engine.queue| ==> !r.engine.queue[i].InputVoltage? && RequestReady(s, r, r.engine.queue[i])
    ensures Safe(s, r)
  {
    forall c | c in s.config ensures InOrder(s, r, c)
    {
      assert InOrder(s, net, c);
      IncomingNone(r.engine.queue, c);
    }
  }

  lemma PressSafe(s: Site, net: Net, k: Key, on: bool)
    requires Safe(s, net) && Idle(net) && k in s.config
    ensures Safe(s, Ask(s, net, Press(k, on)))
  {
    hide Accounted;
    var r := Ask(s, net, Press(k, on));
    LaunchedQueue(s.topo, Button(k, on));
    AskKeepsStates(s, net, Press(k, on));
    if s.topo.Has(k) && PressAllowed(s, net, k, on) {
      assert r.engine.queue == [PowerButton(k, on, 0)];
      RequestSafe(s, net, r);
    }
  }

  lemma SwitchSafe(s: Site, net: Net, k: Key, on: bool)
    requires Safe(s, net) && Idle(net) && ValidRequest(s, Switch(k, on))
    ensures Safe(s, Ask(s, net, Switch(k, on)))
  {
    hide Accounted;
    var r := Ask(s, net, Switch(k, on));
    LaunchedQueue(s.topo, Snmp(k, on));
    assert r.engine.queue == [Signal(k, on, 0)];
    RequestSafe(s, net, r);
  }

  lemma AskSafe(s: Site, net: Net, q: Request)
    requires Safe(s, net) && ValidRequest(s, q)
    ensures Safe(s, Ask(s, net, q))
  {
    if Idle(net) {
      match q
      case SetMains(v) => MainsSafe(s, net, v);
      case Press(k, on) => PressSafe(s, net, k, on);
      case Switch(k, on) => SwitchSafe(s, net, k, on);
    }
  }

  lemma {:induction false} ExecSafe(s: Site, net: Net, actions: seq<Action>)
    requires Safe(s, net) && ValidActions(s, actions)
    ensures Safe(s, Exec(s, net, actions))
  {
    if actions != [] {
      var before := actions[..|actions| - 1];
      ExecSafe(s, net, before);
      match actions[|actions| - 1]
      case Requested(q) => AskSafe(s, Exec(s, net, before), q);
      case TurnTaken => TurnSafe(s, Exec(s, net, before));
    }
  }

  // ----- The law -----

  /** Every asset below another has the voltage its parent puts out, if any, as its input, and is
      lit only if its parent is and puts out more than the asset's minimum. An outlet in the wall
      has the wall voltage as its input and is lit only if that is above zero. */
  ghost predicate Coherent(s: Site, net: Net) {
    forall c :: c in s.config && c in net.hw && s.topo.Has(c) && !Unplugged(s, c) ==>
      if s.IsRoot(c) then net.hw[c].inVolt == net.mains && (net.hw[c].status ==> net.mains > 0.0)
      else
        && s.Parent(c) in net.hw
        && var out := net.hw[s.Parent(c)].OutputVoltage();
        && (out > 0.0 ==> net.hw[c].inVolt == out)
        && (net.hw[c].status ==> net.hw[s.Parent(c)].status && out > s.config[c].minVoltage)
  }

  lemma CoherentIsSafe(s: Site, net: Net)
    requires Running(s, net) && Idle(net) && net.mains >= 0.0
    ensures Coherent(s, net) <==> Safe(s, net)
  {
  }

  /** Power safety: from a coherent start, after any sequence of mains changes, button presses and
      outlet signals made between iterations, the network is coherent as soon as the events in
      flight are handled. */
  lemma NothingLitUnderDeadParent(s: Site, net: Net, actions: seq<Action>)
    requires Running(s, net) && Idle(net) && net.mains >= 0.0 && Coherent(s, net) && ValidActions(s, actions)
    ensures Coherent(s, Settle(s, Exec(s, net, actions)))
  {
    hide Accounted, Coherent;
    CoherentIsSafe(s, net);
    var longer := SettledRun(s, net, actions);
    ExecSafe(s, net, longer);
    CoherentIsSafe(s, Exec(s, net, longer));
  }
}
