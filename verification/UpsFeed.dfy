// A UPS below an outlet in the running engine: what the outlet carries for it while events travel.

module UpsFeed {
  import opened Events
  import opened Iteration
  import opened Engine
  import opened Ups
  import opened UpsLoad
  import opened Reports
  import A = Assets
  import T = Topology

  /** The power graph, the UPS and the outlet in the wall that feeds it and nothing else. */
  datatype Rig = Rig(topo: T.Topology, outlet: Key, ups: Key, outletConfig: A.Config, config: Config) {
    ghost predicate Valid() {
      && topo.Valid() && topo.Has(outlet) && topo.Has(ups) && outlet != ups
      && topo.parents[outlet] == [] && topo.children[outlet] == [ups] && topo.parents[ups] == [outlet]
      && (forall n :: n in topo.parents && n != ups ==> outlet !in topo.parents[n])
      && (forall n :: n in topo.children && n != outlet ==> ups !in topo.children[n])
      && (forall n :: n in topo.children ==> outlet !in topo.children[n])
      && Distinct(topo.mains) && outlet in topo.mains && ups !in topo.mains
      && outletConfig.kind.Outlet? && outletConfig.Valid() && outletConfig.powerOnAc && outletConfig.minVoltage == 0.0
      && config.Valid() && config.watts > 0.0
    }
  }

  datatype Plant = Plant(ups: UpsState, outlet: A.AssetState, mains: real, st: EngineState)

  // ----- Steps -----

  /** The UPS hears of its input as the engine tells it: up or down by the event, not by what is stored. */
  function UpsReaction(r: Rig, p: Plant, volt: Change): Reaction {
    if IsDownEvent(volt) then AfterVoltageDown(r.config, p.ups, volt.after) else AfterVoltageUp(r.config, p.ups, volt.after)
  }

  /** What is below a UPS on battery is marked; on line a mark from below is passed on. */
  function UpsLoadAnswer(r: Rig, p: Plant, m: Message): Answer
    requires m.ChildLoad?
  {
    LoadAnswer(AssetLoadEvent(m.target, AfterChildLoad(p.ups, m.load).1, p.ups.OnBattery() || m.upsOnBattery, m.branch))
  }

  /** The new states and the answer to the event at the head of the queue; `a` is the answer of any
      asset but the UPS and its outlet. */
  function React(r: Rig, p: Plant, m: Message, a: Answer): (Plant, Answer) {
    if m.target == r.outlet && m.InputVoltage? then
      var x := A.AfterInputVoltage(r.outletConfig, p.outlet, m, A.Mains(p.mains != 0.0));
      (p.(outlet := x.state), PowerAnswer(x.event))
    else if m.target == r.outlet && m.ChildLoad? then
      var x := A.AfterChildLoad(r.outletConfig, p.outlet, m);
      (p.(outlet := x.state), LoadAnswer(x.event))
    else if m.target == r.ups && m.InputVoltage? then
      var x := UpsReaction(r, p, m.volt);
      (p.(ups := x.state), PowerAnswer(AssetPowerEvent(m.target, x.outVolt, x.load, [], m.branch)))
    else if m.target == r.ups && m.ChildLoad? then
      (p.(ups := AfterChildLoad(p.ups, m.load).0), UpsLoadAnswer(r, p, m))
    else (p, a)
  }

  /** The mains move; a request for an asset other than the two; or the head of the queue is handled. */
  datatype Action = MainsTo(volt: real) | Request(src: Source) | Handled(a: Answer)

  ghost predicate Enabled(r: Rig, p: Plant, act: Action) {
    match act
    case MainsTo(v) => p.st.current.None? && p.st.queue == [] && v != p.mains && MainsMove(r.config, p.ups, v)
    case Request(src) => p.st.current.None? && p.st.queue == [] && !src.Wallpower? && src.key != r.ups && src.key != r.outlet
    case Handled(a) => HeadTracked(r.topo, p.st) && ValidAnswer(r.topo, p.st.queue[0], React(r, p, p.st.queue[0], a).1)
                       && DrawsPowered(r, p, p.st.queue[0])
  }

  /** What is below the UPS changes its load only while the UPS has power for it. */
  predicate DrawsPowered(r: Rig, p: Plant, m: Message) {
    m.ChildLoad? && m.target == r.ups ==> p.ups.OnBattery() || p.ups.inVolt > 0.0
  }

  ghost function Next(r: Rig, p: Plant, act: Action): Plant
    requires Enabled(r, p, act)
  {
    match act
    case MainsTo(v) => p.(mains := v, st := Launched(r.topo, Wallpower(Change(p.mains, v))))
    case Request(src) => p.(st := Launched(r.topo, src))
    case Handled(a) =>
      var (q, answer) := React(r, p, p.st.queue[0], a);
      q.(st := Step(r.topo, p.st, answer))
  }

  // ----- What travels between the two -----

  /** The load events in flight to the outlet, oldest first. */
  ghost function Edge(q: seq<Message>, outlet: Key): seq<Told> {
    if q == [] then []
    else (if q[0].ChildLoad? && q[0].target == outlet then [Told(q[0].load, q[0].upsOnBattery)] else []) + Edge(q[1..], outlet)
  }

  /** The voltage events in flight to n, oldest first. */
  ghost function Volts(q: seq<Message>, n: Key): seq<Change> {
    if q == [] then []
    else (if q[0].InputVoltage? && q[0].target == n then [q[0].volt] else []) + Volts(q[1..], n)
  }

  lemma {:induction false} EdgeAppended(p: seq<Message>, q: seq<Message>, n: Key)
    ensures Edge(p + q, n) == Edge(p, n) + Edge(q, n)
  {
    if p == [] {
      assert p + q == q;
    } else {
      assert (p + q)[1..] == p[1..] + q;
      EdgeAppended(p[1..], q, n);
    }
  }

  lemma {:induction false} VoltsAppended(p: seq<Message>, q: seq<Message>, n: Key)
    ensures Volts(p + q, n) == Volts(p, n) + Volts(q, n)
  {
    if p == [] {
      assert p + q == q;
    } else {
      assert (p + q)[1..] == p[1..] + q;
      VoltsAppended(p[1..], q, n);
    }
  }

  lemma EdgeAppends(p: seq<Message>, q: seq<Message>, n: Key)
    ensures Edge(p + q, n) == Edge(p, n) + Edge(q, n) && Volts(p + q, n) == Volts(p, n) + Volts(q, n)
  {
    EdgeAppended(p, q, n);
    VoltsAppended(p, q, n);
  }

  lemma {:induction false} NoEdge(q: seq<Message>, n: Key)
    requires forall i :: 0 <= i < |q| && q[i].ChildLoad? ==> q[i].target != n
    ensures Edge(q, n) == []
  {
    if q != [] {
      NoEdge(q[1..], n);
    }
  }

  lemma {:induction false} NoVolts(q: seq<Message>, n: Key)
    requires forall i :: 0 <= i < |q| && q[i].InputVoltage? ==> q[i].target != n
    ensures Volts(q, n) == []
  {
    if q != [] {
      NoVolts(q[1..], n);
    }
  }

  // ----- The invariant -----

  /** The outlet follows the mains and the UPS the outlet, one event at a time. */
  ghost predicate Follows(r: Rig, p: Plant) {
    var toOutlet, toUps := Volts(p.st.queue, r.outlet), Volts(p.st.queue, r.ups);
    && p.mains >= 0.0 && p.outlet.inVolt >= 0.0
    && (NeverPowered(p.ups) ==> (p.mains == 0.0 || r.config.InRange(p.mains)) && (p.outlet.inVolt == 0.0 || r.config.InRange(p.outlet.inVolt)))
    && (p.outlet.inVolt > 0.0 ==> p.outlet.status) && p.outlet.reason != Some(A.TurnedOff)
    && (if toOutlet == [] then p.outlet.inVolt == p.mains
        else toOutlet == [Change(p.outlet.inVolt, p.mains)] && p.outlet.inVolt != p.mains && toUps == [])
    && (if toUps == [] then p.ups.inVolt == p.outlet.inVolt
        else toUps == [Change(p.ups.inVolt, p.outlet.inVolt)] && p.ups.inVolt != p.outlet.inVolt)
  }

  /** Only voltages and loads are for the two, and only the UPS tells the outlet loads. */
  ghost predicate Plain(r: Rig, q: seq<Message>) {
    forall i :: 0 <= i < |q| && (q[i].target == r.ups || q[i].target == r.outlet) ==> q[i].InputVoltage? || q[i].ChildLoad?
  }

  ghost predicate Linked(r: Rig, p: Plant) {
    r.Valid() && Plain(r, p.st.queue) && Follows(r, p) && Ready(r.config, p.ups)
  }

  ghost function FeedOf(r: Rig, p: Plant): Feed {
    Feed(p.ups, p.outlet.load, Edge(p.st.queue, r.outlet))
  }

  // ----- What a turn puts in flight -----

  /** Nothing for the outlet or the UPS. */
  ghost predicate Elsewhere(r: Rig, q: seq<Message>) {
    forall i :: 0 <= i < |q| ==> q[i].target != r.outlet && (q[i].target == r.ups ==> q[i].ChildLoad?)
  }

  lemma ElsewhereAdds(r: Rig, rest: seq<Message>, q: seq<Message>)
    requires Elsewhere(r, q)
    ensures Edge(rest + q, r.outlet) == Edge(rest, r.outlet)
    ensures Volts(rest + q, r.outlet) == Volts(rest, r.outlet) && Volts(rest + q, r.ups) == Volts(rest, r.ups)
  {
    EdgeAppends(rest, q, r.outlet);
    EdgeAppends(rest, q, r.ups);
    NoEdge(q, r.outlet);
    NoVolts(q, r.outlet);
    NoVolts(q, r.ups);
  }

  /** The queue after a power report and after a load report. */
  lemma ReportQueue(r: Rig, st: EngineState, e: AssetPowerEvent) returns (volts: seq<Message>, loads: seq<Message>)
    requires HeadTracked(r.topo, st) && ValidAnswer(r.topo, st.queue[0], PowerAnswer(e))
    ensures Step(r.topo, st, PowerAnswer(e)).queue == st.queue[1..] + (volts + loads)
    ensures forall i :: 0 <= i < |volts| ==> volts[i].InputVoltage? && volts[i].target in r.topo.children[e.asset] && volts[i].volt == e.outVolt
    ensures |volts| == if e.outVolt.Unchanged() then 0 else |r.topo.children[e.asset]|
    ensures forall i :: 0 <= i < |loads| ==> loads[i].ChildLoad? && loads[i].target in r.topo.parents[e.asset]
    ensures e.streamed == [] ==>
              && |loads| == (if e.LoadChanged() then |r.topo.parents[e.asset]| else 0)
              && forall i :: 0 <= i < |loads| ==> loads[i].load == e.load.value && !loads[i].upsOnBattery
  {
    var it := st.current.value;
    var o := AfterAssetPower(it, r.topo, e);
    volts, loads := o.volts, o.loads;
    assert st.queue[1..] + volts + loads == st.queue[1..] + (volts + loads);
    if e.streamed != [] {
      var idx := StreamedUpdatesAreSent(r.topo, it, e);
      forall i | 0 <= i < |loads| ensures loads[i].ChildLoad? && loads[i].target in r.topo.parents[e.asset]
      {
        assert e.streamed[idx[i]].key in r.topo.parents[e.asset];
      }
    } else {
      LoadIsSent(r.topo, it, e);
    }
  }

  lemma LoadReportQueue(r: Rig, st: EngineState, e: AssetLoadEvent) returns (loads: seq<Message>)
    requires HeadTracked(r.topo, st) && ValidAnswer(r.topo, st.queue[0], LoadAnswer(e))
    ensures Step(r.topo, st, LoadAnswer(e)).queue == st.queue[1..] + loads
    ensures |loads| == |r.topo.parents[e.asset]|
    ensures forall i :: 0 <= i < |loads| ==>
              loads[i].ChildLoad? && loads[i].target in r.topo.parents[e.asset] && loads[i].load == e.load && loads[i].upsOnBattery == e.upsOnBattery
  {
    var it := st.current.value;
    LoadGoesUp(r.topo, it, e);
    loads := AfterAssetLoad(it, r.topo, e).loads;
  }

  lemma HeadOff(q: seq<Message>, n: Key)
    requires q != []
    ensures Edge(q, n) == (if q[0].ChildLoad? && q[0].target == n then [Told(q[0].load, q[0].upsOnBattery)] else []) + Edge(q[1..], n)
    ensures Volts(q, n) == (if q[0].InputVoltage? && q[0].target == n then [q[0].volt] else []) + Volts(q[1..], n)
  {
  }

  // ----- One turn -----

  /** What a step of the plant is in terms of the feed: nothing, or one of its actions. */
  ghost predicate Matches(r: Rig, p: Plant, q: Plant, act: Option<UpsLoad.Action>) {
    match act
    case None => FeedOf(r, q) == FeedOf(r, p)
    case Some(b) => Allowed(r.config, FeedOf(r, p), b) && FeedOf(r, q) == Act(r.config, FeedOf(r, p), b)
  }

  /** What an asset other than the two answers adds nothing for the outlet, and no voltage for the UPS. */
  lemma OtherReports(r: Rig, st: EngineState, a: Answer)
    requires r.Valid() && HeadTracked(r.topo, st) && ValidAnswer(r.topo, st.queue[0], a)
    requires st.queue[0].target != r.ups && st.queue[0].target != r.outlet && Plain(r, st.queue)
    ensures var q, rest := Step(r.topo, st, a).queue, st.queue[1..];
            && Plain(r, q) && Edge(q, r.outlet) == Edge(rest, r.outlet)
            && Volts(q, r.outlet) == Volts(rest, r.outlet) && Volts(q, r.ups) == Volts(rest, r.ups)
  {
    var rest := st.queue[1..];
    var added: seq<Message>;
    if a.PowerAnswer? {
      assert a.power.asset == st.queue[0].target;
      var volts, loads := ReportQueue(r, st, a.power);
      added := volts + loads;
    } else {
      assert a.load.asset == st.queue[0].target;
      added := LoadReportQueue(r, st, a.load);
    }
    hide Step, Edge, Volts, HeadTracked, ValidAnswer;
    assert Elsewhere(r, added);
    ElsewhereAdds(r, rest, added);
  }

  /** An asset other than the two. */
  lemma OtherTurn(r: Rig, p: Plant, a: Answer)
    requires Linked(r, p) && Enabled(r, p, Handled(a))
    requires p.st.queue[0].target != r.ups && p.st.queue[0].target != r.outlet
    ensures var q := Next(r, p, Handled(a));
            Plain(r, q.st.queue) && Follows(r, q) && Matches(r, p, q, None)
  {
    HeadOff(p.st.queue, r.outlet);
    HeadOff(p.st.queue, r.ups);
    var rest := p.st.queue[1..];
    assert [] + Edge(rest, r.outlet) == Edge(rest, r.outlet);
    assert [] + Volts(rest, r.outlet) == Volts(rest, r.outlet) && [] + Volts(rest, r.ups) == Volts(rest, r.ups);
    hide Step, Edge, Volts, Ready, ValidAnswer, HeadTracked, Plain;
    OtherReports(r, p.st, a);
  }

  /** The outlet follows the mains and tells the UPS, no load being its own. */
  lemma OutletReacts(r: Rig, p: Plant, m: Message)
    requires r.Valid() && m.InputVoltage? && m.volt == Change(p.outlet.inVolt, p.mains) && p.outlet.inVolt != p.mains
    requires p.mains >= 0.0 && p.outlet.inVolt >= 0.0
    requires (p.outlet.inVolt > 0.0 ==> p.outlet.status) && p.outlet.reason != Some(A.TurnedOff)
    ensures var x := A.AfterInputVoltage(r.outletConfig, p.outlet, m, A.Mains(p.mains != 0.0));
            && x.state.inVolt == p.mains && (p.mains > 0.0 ==> x.state.status) && x.state.reason != Some(A.TurnedOff)
            && x.state.load == p.outlet.load
            && x.event.asset == m.target && x.event.streamed == [] && x.event.outVolt == m.volt && !x.event.LoadChanged()
  {
  }

  lemma OutletVoltTurn(r: Rig, p: Plant, a: Answer)
    requires Linked(r, p) && Enabled(r, p, Handled(a)) && p.st.queue[0].target == r.outlet && p.st.queue[0].InputVoltage?
    ensures var q := Next(r, p, Handled(a));
            Plain(r, q.st.queue) && Follows(r, q) && Matches(r, p, q, None)
  {
    var m, rest := p.st.queue[0], p.st.queue[1..];
    HeadOff(p.st.queue, r.outlet);
    HeadOff(p.st.queue, r.ups);
    assert [] + Edge(rest, r.outlet) == Edge(rest, r.outlet) && [] + Volts(rest, r.ups) == Volts(rest, r.ups);
    assert Volts(p.st.queue, r.outlet)[0] == m.volt && |Volts(p.st.queue, r.outlet)| == 1;
    assert Volts(rest, r.outlet) == [];
    OutletReacts(r, p, m);
    hide Step, Edge, Volts, Ready, A.AfterInputVoltage;
    var e := React(r, p, m, a).1.power;
    var volts, loads := ReportQueue(r, p.st, e);
    assert loads == [] && volts + loads == volts;
    OneVolt(r, rest, volts[0]);
    assert volts == [volts[0]];
  }

  lemma OneVolt(r: Rig, rest: seq<Message>, m: Message)
    requires m.InputVoltage? && m.target == r.ups && r.ups != r.outlet
    ensures Edge(rest + [m], r.outlet) == Edge(rest, r.outlet)
    ensures Volts(rest + [m], r.outlet) == Volts(rest, r.outlet) && Volts(rest + [m], r.ups) == Volts(rest, r.ups) + [m.volt]
  {
    EdgeAppends(rest, [m], r.outlet);
    EdgeAppends(rest, [m], r.ups);
    HeadOff([m], r.outlet);
    HeadOff([m], r.ups);
    assert [m][1..] == [];
  }

  lemma OneLoad(r: Rig, rest: seq<Message>, m: Message)
    requires m.ChildLoad? && m.target == r.outlet
    ensures Edge(rest + [m], r.outlet) == Edge(rest, r.outlet) + [Told(m.load, m.upsOnBattery)]
    ensures Volts(rest + [m], r.outlet) == Volts(rest, r.outlet) && Volts(rest + [m], r.ups) == Volts(rest, r.ups)
  {
    EdgeAppends(rest, [m], r.outlet);
    EdgeAppends(rest, [m], r.ups);
    HeadOff([m], r.outlet);
    HeadOff([m], r.ups);
    assert [m][1..] == [];
  }

  /** The outlet handles the oldest load event in flight to it. */
  lemma OutletLoadTurn(r: Rig, p: Plant, a: Answer)
    requires Linked(r, p) && Enabled(r, p, Handled(a)) && p.st.queue[0].target == r.outlet && p.st.queue[0].ChildLoad?
    ensures var q := Next(r, p, Handled(a));
            Plain(r, q.st.queue) && Follows(r, q) && Matches(r, p, q, Some(Deliver))
  {
    var m, rest := p.st.queue[0], p.st.queue[1..];
    HeadOff(p.st.queue, r.outlet);
    HeadOff(p.st.queue, r.ups);
    var told := Told(m.load, m.upsOnBattery);
    assert Edge(p.st.queue, r.outlet) == [told] + Edge(rest, r.outlet);
    assert ([told] + Edge(rest, r.outlet))[1..] == Edge(rest, r.outlet);
    assert [] + Volts(rest, r.outlet) == Volts(rest, r.outlet) && [] + Volts(rest, r.ups) == Volts(rest, r.ups);
    hide Step, Edge, Volts, Ready;
    var loads := LoadReportQueue(r, p.st, React(r, p, m, a).1.load);
    assert rest + loads == rest;
  }

  /** The event tells the UPS the truth about its input, which it stores. */
  lemma UpsHearsTheTruth(r: Rig, p: Plant)
    requires Linked(r, p) && p.st.queue != [] && p.st.queue[0].target == r.ups && p.st.queue[0].InputVoltage?
    ensures var m, rest := p.st.queue[0], p.st.queue[1..];
            && m.volt == Change(p.ups.inVolt, p.outlet.inVolt) && m.volt.before != m.volt.after
            && Volts(rest, r.ups) == [] && Volts(rest, r.outlet) == Volts(p.st.queue, r.outlet)
            && Edge(rest, r.outlet) == Edge(p.st.queue, r.outlet)
            && UpsReaction(r, p, m.volt) == AfterInput(r.config, p.ups, m.volt.after)
            && UpsReaction(r, p, m.volt).state.inVolt == m.volt.after
  {
    var m, rest := p.st.queue[0], p.st.queue[1..];
    HeadOff(p.st.queue, r.outlet);
    HeadOff(p.st.queue, r.ups);
    assert [] + Edge(rest, r.outlet) == Edge(rest, r.outlet) && [] + Volts(rest, r.outlet) == Volts(rest, r.outlet);
    assert Volts(p.st.queue, r.ups)[0] == m.volt && |Volts(p.st.queue, r.ups)| == 1;
  }

  /** What its reaction adds to what is in flight. */
  lemma UpsReports(r: Rig, st: EngineState, x: Reaction, e: AssetPowerEvent)
    requires r.Valid() && HeadTracked(r.topo, st) && ValidAnswer(r.topo, st.queue[0], PowerAnswer(e))
    requires e.asset == r.ups && e.load == x.load && e.streamed == [] && Plain(r, st.queue)
    ensures var q, rest := Step(r.topo, st, PowerAnswer(e)).queue, st.queue[1..];
            && Plain(r, q)
            && Edge(q, r.outlet) == Edge(rest, r.outlet) + (if x.LoadChanged() then [Told(x.load.value, false)] else [])
            && Volts(q, r.outlet) == Volts(rest, r.outlet) && Volts(q, r.ups) == Volts(rest, r.ups)
  {
    var rest := st.queue[1..];
    var volts, loads := ReportQueue(r, st, e);
    hide Step, Edge, Volts, HeadTracked, ValidAnswer;
    assert Elsewhere(r, volts);
    ElsewhereAdds(r, rest, volts);
    assert rest + (volts + loads) == rest + volts + loads;
    if x.LoadChanged() {
      assert loads == [loads[0]];
      OneLoad(r, rest + volts, loads[0]);
    } else {
      assert loads == [] && rest + volts + loads == rest + volts;
      assert Edge(rest, r.outlet) + [] == Edge(rest, r.outlet);
    }
  }

  /** The UPS handles a change of its input. */
  lemma UpsVoltTurn(r: Rig, p: Plant, a: Answer)
    requires Linked(r, p) && Enabled(r, p, Handled(a)) && p.st.queue[0].target == r.ups && p.st.queue[0].InputVoltage?
    ensures var q := Next(r, p, Handled(a));
            Plain(r, q.st.queue) && Follows(r, q) && Matches(r, p, q, Some(Mains(p.st.queue[0].volt.after)))
  {
    var m := p.st.queue[0];
    UpsHearsTheTruth(r, p);
    hide Step, Edge, Volts, Ready, UpsReaction, AfterInput, ValidAnswer, HeadTracked;
    UpsReports(r, p.st, UpsReaction(r, p, m.volt), React(r, p, m, a).1.power);
  }

  lemma UpsLoadReports(r: Rig, st: EngineState, e: AssetLoadEvent)
    requires r.Valid() && HeadTracked(r.topo, st) && ValidAnswer(r.topo, st.queue[0], LoadAnswer(e)) && e.asset == r.ups && Plain(r, st.queue)
    ensures var q, rest := Step(r.topo, st, LoadAnswer(e)).queue, st.queue[1..];
            && Plain(r, q) && Edge(q, r.outlet) == Edge(rest, r.outlet) + [Told(e.load, e.upsOnBattery)]
            && Volts(q, r.outlet) == Volts(rest, r.outlet) && Volts(q, r.ups) == Volts(rest, r.ups)
  {
    var loads := LoadReportQueue(r, st, e);
    hide Step, Edge, Volts, HeadTracked, ValidAnswer;
    assert loads == [loads[0]];
    OneLoad(r, st.queue[1..], loads[0]);
  }

  /** The UPS handles a load change from below. */
  lemma UpsLoadTurn(r: Rig, p: Plant, a: Answer)
    requires Linked(r, p) && Enabled(r, p, Handled(a)) && p.st.queue[0].target == r.ups && p.st.queue[0].ChildLoad?
    ensures var q, m := Next(r, p, Handled(a)), p.st.queue[0];
            Plain(r, q.st.queue) && Follows(r, q) && Matches(r, p, q, Some(Child(m.load, m.upsOnBattery)))
  {
    var m, rest := p.st.queue[0], p.st.queue[1..];
    HeadOff(p.st.queue, r.outlet);
    HeadOff(p.st.queue, r.ups);
    assert [] + Edge(rest, r.outlet) == Edge(rest, r.outlet);
    assert [] + Volts(rest, r.outlet) == Volts(rest, r.outlet) && [] + Volts(rest, r.ups) == Volts(rest, r.ups);
    hide Step, Edge, Volts, Ready, ValidAnswer, HeadTracked, Plain;
    UpsLoadReports(r, p.st, React(r, p, m, a).1.load);
  }

  /** The mains move, or another asset is asked for something. */
  lemma LaunchMatches(r: Rig, p: Plant, act: Action)
    requires Linked(r, p) && Enabled(r, p, act) && !act.Handled?
    ensures var q := Next(r, p, act);
            Plain(r, q.st.queue) && Follows(r, q) && Matches(r, p, q, None)
  {
    var src := if act.MainsTo? then Wallpower(Change(p.mains, act.volt)) else act.src;
    var q := Launched(r.topo, src).queue;
    LaunchedQueueIs(r, src);
    if act.MainsTo? {
      MainsVolts(r.topo.mains, q, src.volt, r.outlet);
      MainsVolts(r.topo.mains, q, src.volt, r.ups);
    } else {
      NoVolts(q, r.outlet);
      NoVolts(q, r.ups);
    }
    NoEdge(q, r.outlet);
  }

  lemma LaunchedQueueIs(r: Rig, src: Source)
    ensures Launched(r.topo, src).queue == AfterLaunch(r.topo, src).volts
  {
    assert [] + AfterLaunch(r.topo, src).volts + [] == AfterLaunch(r.topo, src).volts;
  }

  lemma {:induction false} MainsVolts(ks: seq<Key>, q: seq<Message>, volt: Change, n: Key)
    requires Distinct(ks) && |q| == |ks|
    requires forall i :: 0 <= i < |q| ==> q[i].InputVoltage? && q[i].target == ks[i] && q[i].volt == volt
    ensures Volts(q, n) == if n in ks then [volt] else []
  {
    if q == [] {
    } else if q[0].target == n {
      NoVolts(q[1..], n);
      assert ks[0] in ks;
    } else {
      MainsVolts(ks[1..], q[1..], volt, n);
    }
  }

  // ----- Every run -----

  /** The steps that get the outlet's account wrong are those of UpsLoad: told from the event at the
      head of the queue and the UPS. */
  predicate Harmless(r: Rig, p: Plant, act: Action) {
    act.Handled? && p.st.queue != [] && p.st.queue[0].target == r.ups ==>
      var m := p.st.queue[0];
      if m.InputVoltage? then !Misreports(r.config, p.ups, m.volt.after)
      else m.ChildLoad? ==> !Lost(p.ups, m.load, m.upsOnBattery)
  }

  /** The action of the feed a step stands for. */
  ghost function FeedAction(r: Rig, p: Plant, act: Action): Option<UpsLoad.Action>
    requires Enabled(r, p, act)
  {
    if !act.Handled? then None
    else
      var m := p.st.queue[0];
      if m.target == r.outlet && m.ChildLoad? then Some(Deliver)
      else if m.target == r.ups && m.InputVoltage? then Some(Mains(m.volt.after))
      else if m.target == r.ups && m.ChildLoad? then Some(Child(m.load, m.upsOnBattery))
      else None
  }

  /** Every step of the engine is a step of the feed, or none of its concern. */
  lemma StepMatches(r: Rig, p: Plant, act: Action)
    requires Linked(r, p) && Enabled(r, p, act)
    ensures var q := Next(r, p, act);
            Plain(r, q.st.queue) && Follows(r, q) && Matches(r, p, q, FeedAction(r, p, act))
  {
    assert p.st.queue != [] ==> (p.st.queue[0].target == r.ups || p.st.queue[0].target == r.outlet ==>
             p.st.queue[0].InputVoltage? || p.st.queue[0].ChildLoad?);
    hide Linked, Plain, Follows, Matches, Next;
    if !act.Handled? {
      LaunchMatches(r, p, act);
    } else {
      var m := p.st.queue[0];
      if m.target == r.outlet {
        if m.InputVoltage? { OutletVoltTurn(r, p, act.a); } else { OutletLoadTurn(r, p, act.a); }
      } else if m.target == r.ups {
        if m.InputVoltage? { UpsVoltTurn(r, p, act.a); } else { UpsLoadTurn(r, p, act.a); }
      } else {
        OtherTurn(r, p, act.a);
      }
    }
  }

  lemma StepKeepsCarried(r: Rig, p: Plant, act: Action)
    requires Linked(r, p) && Carried(FeedOf(r, p)) && Enabled(r, p, act)
    ensures Linked(r, Next(r, p, act))
    ensures Carried(FeedOf(r, Next(r, p, act))) <==> Harmless(r, p, act)
  {
    StepMatches(r, p, act);
    var b := FeedAction(r, p, act);
    hide Next, Plain, Follows, Carried, Ready, Edge, Misreports, Lost;
    if b.Some? {
      NextKeepsCarried(r.config, FeedOf(r, p), b.value);
    }
  }

  /** Steps that are not enabled when their turn comes have no effect. */
  ghost function Taken(r: Rig, p: Plant, act: Action): Plant {
    if Enabled(r, p, act) then Next(r, p, act) else p
  }

  ghost function Exec(r: Rig, p: Plant, actions: seq<Action>): Plant
    decreases |actions|
  {
    if actions == [] then p else Exec(r, Taken(r, p, actions[0]), actions[1..])
  }

  ghost predicate AllHarmless(r: Rig, p: Plant, actions: seq<Action>)
    decreases |actions|
  {
    actions == [] || ((Enabled(r, p, actions[0]) ==> Harmless(r, p, actions[0])) && AllHarmless(r, Taken(r, p, actions[0]), actions[1..]))
  }

  ghost predicate AlwaysCarried(r: Rig, p: Plant, actions: seq<Action>)
    decreases |actions|
  {
    Carried(FeedOf(r, p)) && (actions == [] || AlwaysCarried(r, Taken(r, p, actions[0]), actions[1..]))
  }

  /** Over every run of the engine, whatever the rest of the network answers: the outlet's account is
      right in every state on the way exactly when no step is harmful. */
  lemma {:induction false} AlwaysCarriedExactly(r: Rig, p: Plant, actions: seq<Action>)
    requires Linked(r, p) && Carried(FeedOf(r, p))
    ensures AlwaysCarried(r, p, actions) <==> AllHarmless(r, p, actions)
    ensures AllHarmless(r, p, actions) ==> Carried(FeedOf(r, Exec(r, p, actions)))
    decreases |actions|
  {
    hide Linked, Carried, Enabled, Harmless, FeedOf;
    if actions != [] {
      var q := Taken(r, p, actions[0]);
      if Enabled(r, p, actions[0]) {
        StepKeepsCarried(r, p, actions[0]);
      }
      if Carried(FeedOf(r, q)) {
        AlwaysCarriedExactly(r, q, actions[1..]);
      } else {
        assert !AlwaysCarried(r, q, actions[1..]);
      }
    }
  }

  /** The plant as the engine creates it, with the mains off. */
  const CREATED := Plant(StartUp().ups, A.AssetState(true, 0.0, 0.0, None, true), 0.0, EngineState(None, [], []))

  /** Over every run without a harmful step the load of the outlet, with what is in flight to it and not
      marked, is nothing while the UPS is on battery and the load of the UPS otherwise. */
  lemma OutletCarriesUpsInTheEngine(r: Rig, actions: seq<Action>)
    requires r.Valid() && AllHarmless(r, CREATED, actions)
    ensures var p := Exec(r, CREATED, actions);
            p.outlet.load + InFlight(Edge(p.st.queue, r.outlet)) == if p.ups.OnBattery() then 0.0 else p.ups.load
  {
    AlwaysCarriedExactly(r, CREATED, actions);
  }
}
