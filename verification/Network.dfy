// A running power network: a tree of outlets and PDUs with static devices at its leaves,
// the mains, and the engine's events in flight.

module Network {
  import opened Events
  import opened Assets
  import opened Iteration
  import opened Engine
  import opened Accounting
  import T = Topology

  /** What does not change while the engine runs. */
  datatype Site = Site(topo: T.Topology, config: map<Key, Config>, rank: map<Key, nat>, top: nat) {
    predicate IsRoot(n: Key)
      requires topo.Has(n)
    {
      topo.parents[n] == []
    }

    ghost predicate Valid() {
      && topo.Ranked(rank, top)
      && config.Keys == topo.parents.Keys
      && (forall n :: n in config ==> config[n].Valid() && |topo.parents[n]| <= 1 && Distinct(topo.children[n]))
      && (forall n :: n in config && config[n].kind.Static? ==> topo.children[n] == [])
      && (forall p, c :: p in config && c in config ==> (c in topo.children[p] <==> p in topo.parents[c]))
      && Distinct(topo.mains)
      && (forall n :: n in config ==> (n in topo.mains <==> config[n].kind.Outlet? && topo.parents[n] == []))
    }

    function Parent(n: Key): Key
      requires topo.Has(n) && !IsRoot(n)
    {
      topo.parents[n][0]
    }
  }

  /** The stored state of every asset, the wall voltage, and the engine. */
  datatype Net = Net(hw: map<Key, AssetState>, mains: real, engine: EngineState)

  ghost predicate Idle(net: Net) {
    net.engine.current.None? && net.engine.queue == []
  }

  /** Between iterations, or inside one whose branches are all accounted for. */
  ghost predicate Running(s: Site, net: Net) {
    && s.Valid() && net.hw.Keys == s.config.Keys
    && (Idle(net) || Accounted(s.topo, net.engine, multiset{}))
  }

  /** _parents_available as seen from asset n. */
  function SupplyOf(s: Site, net: Net, n: Key): Supply
    requires n in s.config && s.topo.Has(n)
  {
    if s.IsRoot(n) then Mains(net.mains != 0.0)
    else
      Parents(
        && (exists p :: p in s.topo.parents[n] && p in net.hw && net.hw[p].OutputVoltage() > s.config[n].minVoltage)
        && (exists p :: p in s.topo.parents[n] && p in net.hw && net.hw[p].status))
  }

  // ----- One turn of the event loop -----

  /** The asset's reaction to the event at the head of the queue. */
  function React(s: Site, net: Net, m: Message): (AssetState, Answer)
    requires m.target in s.config && m.target in net.hw && s.topo.Has(m.target)
  {
    var c, a := s.config[m.target], net.hw[m.target];
    if m.VoltageSide() then
      var r := AfterPowerSide(c, a, m, SupplyOf(s, net, m.target));
      (r.state, PowerAnswer(r.event))
    else
      var r := AfterChildLoad(c, a, m);
      (r.state, LoadAnswer(r.event))
  }

  ghost function Turn(s: Site, net: Net): (r: Net)
    requires Running(s, net)
    ensures Running(s, r) && r.mains == net.mains
  {
    if net.engine.queue == [] then net
    else
      HeadIsTracked(s.topo, net.engine, multiset{});
      var m := net.engine.queue[0];
      var (a, answer) := React(s, net, m);
      StepAccounted(s.topo, net.engine, multiset{}, answer);
      assert multiset{} + ForkedBy(s.topo, m) == multiset{};
      Net(net.hw[m.target := a], net.mains, Step(s.topo, net.engine, answer))
  }

  // ----- Requests -----

  datatype Request = SetMains(volt: real) | Press(key: Key, on: bool) | Switch(key: Key, on: bool)

  /** Requests a user or an SNMP client can make: a wall voltage is not negative, and only an
      outlet that has a parent has a switching OID. */
  ghost predicate ValidRequest(s: Site, r: Request) {
    match r
    case SetMains(v) => v >= 0.0
    case Press(k, _) => k in s.config
    case Switch(k, _) => k in s.config && s.config[k].kind.Outlet? && s.topo.Has(k) && !s.IsRoot(k)
  }

  /** The state interface lets a power request through only when it changes something, and
      lets an asset be switched on only when its supply is available. */
  predicate PressAllowed(s: Site, net: Net, k: Key, on: bool)
    requires k in s.config && k in net.hw && s.topo.Has(k)
  {
    if on then SupplyOf(s, net, k).Available(net.hw[k].oidsOn) && !net.hw[k].status else net.hw[k].status
  }

  /** What the state manager itself does when a press goes through: a static device stores its
      usage, or none, before the engine hears of the button. */
  function Pressed(c: Config, a: AssetState, on: bool): AssetState {
    if c.kind.Static? then a.(load := if on then Clamp(CalculateLoad(c.watts, a.inVolt)) else 0.0) else a
  }

  /** A request made between iterations; it queues and launches an iteration when it changes something. */
  ghost function Ask(s: Site, net: Net, r: Request): (n: Net)
    requires Running(s, net) && ValidRequest(s, r)
    ensures Running(s, n)
  {
    if !Idle(net) then net
    else
      match r
      case SetMains(v) =>
        LaunchAccounted(s.topo, Wallpower(Change(net.mains, v)));
        if v == net.mains then net
        else Net(net.hw, v, Launched(s.topo, Wallpower(Change(net.mains, v))))
      case Press(k, on) =>
        LaunchAccounted(s.topo, Button(k, on));
        if PressAllowed(s, net, k, on) then
          Net(net.hw[k := Pressed(s.config[k], net.hw[k], on)], net.mains, Launched(s.topo, Button(k, on)))
        else net
      case Switch(k, on) =>
        LaunchAccounted(s.topo, Snmp(k, on));
        net.(engine := Launched(s.topo, Snmp(k, on)))
  }

  /** r differs from net at most in the stored loads of static devices. */
  ghost predicate SameButDeviceLoads(s: Site, net: Net, r: Net) {
    && r.hw.Keys == net.hw.Keys == s.config.Keys
    && forall n :: n in s.config ==> r.hw[n] == if s.config[n].kind.Static? then net.hw[n].(load := r.hw[n].load) else net.hw[n]
  }

  lemma AskKeepsStates(s: Site, net: Net, q: Request)
    requires Running(s, net) && ValidRequest(s, q)
    ensures SameButDeviceLoads(s, net, Ask(s, net, q))
  {
    hide Accounted, Launched;
  }

  /** A run: any sequence of requests and turns. A request made during an iteration waits
      outside the model, so here it has no effect. */
  datatype Action = Requested(request: Request) | TurnTaken

  ghost predicate ValidActions(s: Site, actions: seq<Action>) {
    forall i :: 0 <= i < |actions| && actions[i].Requested? ==> ValidRequest(s, actions[i].request)
  }

  ghost function Act(s: Site, net: Net, a: Action): (r: Net)
    requires Running(s, net)
    requires a.Requested? ==> ValidRequest(s, a.request)
    ensures Running(s, r)
  {
    match a
    case Requested(q) => Ask(s, net, q)
    case TurnTaken => Turn(s, net)
  }

  ghost function Exec(s: Site, net: Net, actions: seq<Action>): (r: Net)
    requires Running(s, net) && ValidActions(s, actions)
    ensures Running(s, r)
  {
    if actions == [] then net
    else Act(s, Exec(s, net, actions[..|actions| - 1]), actions[|actions| - 1])
  }

  /** The engine at start-up: the store marks every asset as on, nothing has input voltage
      or load yet, and the mains are at zero. */
  ghost function StartUp(s: Site): (r: Net)
    requires s.Valid()
    ensures Running(s, r)
  {
    Net(map n | n in s.config :: AssetState(true, 0.0, 0.0, None, true), 0.0, EngineState(None, [], []))
  }
}
