// What a UPS puts on the outlet that feeds it: its whole load on input power, nothing on battery.

module UpsLoad {
  import opened Events
  import opened Ups
  import A = Assets

  /** A load event on the way from the UPS to its outlet. */
  datatype Told = Told(load: Change, onBattery: bool)

  /** The UPS, the load stored for the outlet that feeds it, and the events in flight between them. */
  datatype Feed = Feed(ups: UpsState, outlet: real, edge: seq<Told>)

  /** The load the events still in flight will add to the outlet; an outlet ignores marked ones. */
  ghost function InFlight(edge: seq<Told>): real {
    if edge == [] then 0.0
    else (if edge[0].onBattery then 0.0 else edge[0].load.Difference()) + InFlight(edge[1..])
  }

  /** Delivered one by one, the events never take the outlet below zero. */
  ghost predicate NeverBelowZero(outlet: real, edge: seq<Told>)
    decreases |edge|
  {
    && outlet >= 0.0
    && (edge != [] ==>
          NeverBelowZero(outlet + (if edge[0].onBattery then 0.0 else edge[0].load.Difference()), edge[1..]))
  }

  /** What the outlet should carry for the UPS. */
  function Upstream(s: UpsState): real {
    if s.OnBattery() then 0.0 else s.load
  }

  ghost predicate Carried(f: Feed) {
    f.outlet + InFlight(f.edge) == Upstream(f.ups) && NeverBelowZero(f.outlet, f.edge)
  }

  // ----- Steps -----

  /** The mains move; the event goes through the outlet to the UPS. */
  function AfterMains(c: Config, f: Feed, v: real): Feed {
    var r := AfterInput(c, f.ups, v);
    f.(ups := r.state, edge := f.edge + if r.LoadChanged() then [Told(r.load.value, false)] else [])
  }

  /** A child of the UPS changes its load; the UPS always reports, and passes on a mark that another
      UPS below it has put on the change. */
  function AfterChild(f: Feed, load: Change, marked: bool): Feed {
    var (s, report) := AfterChildLoad(f.ups, load);
    f.(ups := s, edge := f.edge + [Told(report, f.ups.OnBattery() || marked)])
  }

  /** The outlet handles the oldest event in flight. */
  function AfterDelivery(f: Feed): Feed
    requires f.edge != []
  {
    var outlet := A.Config(A.Outlet, 0.0, 0.0, true);
    var m := ChildLoad(0, 0, f.edge[0].load, f.edge[0].onBattery, 0);
    var state := A.AfterChildLoad(outlet, A.AssetState(true, 0.0, f.outlet, None, true), m).state;
    Feed(f.ups, state.load, f.edge[1..])
  }

  // ----- Facts about the edge -----

  lemma {:induction false} EdgeAppend(outlet: real, edge: seq<Told>, t: Told)
    requires NeverBelowZero(outlet, edge)
    ensures InFlight(edge + [t]) == InFlight(edge) + if t.onBattery then 0.0 else t.load.Difference()
    ensures outlet + InFlight(edge) >= 0.0
    ensures NeverBelowZero(outlet, edge + [t]) <==> outlet + InFlight(edge + [t]) >= 0.0
    decreases |edge|
  {
    if edge == [] {
      assert [t][1..] == [];
    } else {
      assert (edge + [t])[1..] == edge[1..] + [t];
      EdgeAppend(outlet + (if edge[0].onBattery then 0.0 else edge[0].load.Difference()), edge[1..], t);
    }
  }

  /** A change marked by a UPS below while this one is on line: it is stored here, but the outlet is
      going to ignore it. */
  predicate Lost(s: UpsState, load: Change, marked: bool) {
    marked && !s.OnBattery() && Clamp(s.load + load.Difference()) != s.load
  }

  lemma ChildKeepsCarried(f: Feed, load: Change, marked: bool)
    requires Carried(f)
    ensures Carried(AfterChild(f, load, marked)) <==> !Lost(f.ups, load, marked)
  {
    var (s, report) := AfterChildLoad(f.ups, load);
    EdgeAppend(f.outlet, f.edge, Told(report, f.ups.OnBattery() || marked));
  }

  lemma DeliveryKeepsCarried(f: Feed)
    requires Carried(f) && f.edge != []
    ensures Carried(AfterDelivery(f))
  {
    EdgeNonNegative(f.outlet, f.edge);
  }

  lemma EdgeNonNegative(outlet: real, edge: seq<Told>)
    requires NeverBelowZero(outlet, edge) && edge != []
    ensures outlet + (if edge[0].onBattery then 0.0 else edge[0].load.Difference()) >= 0.0
  {
  }

  /** The UPS before the mains move: on and charged, on battery exactly while its input is out of range,
      unless it has never had any. */
  ghost predicate Ready(c: Config, s: UpsState) {
    && c.Valid() && c.watts > 0.0 && s.status && s.battery > 0 && s.load >= 0.0 && s.inVolt >= 0.0
    && if NeverPowered(s) then s.load == 0.0 && !s.draining
       else
         && (s.OnBattery() <==> !c.InRange(s.inVolt)) && (s.cause == HighLineVoltage <==> s.inVolt >= c.high)
         && (if s.OnBattery() then !s.charging else !s.draining)
  }

  predicate NeverPowered(s: UpsState) {
    !s.OnBattery() && s.inVolt == 0.0
  }

  /** To any voltage; the first one is in range. */
  predicate MainsMove(c: Config, s: UpsState, v: real) {
    v != s.inVolt && v >= 0.0 && (NeverPowered(s) ==> c.InRange(v))
  }

  /** A rise within range at whose end the idle draw equals the load stored for the UPS. */
  predicate Coincides(c: Config, s: UpsState, v: real) {
    c.InRange(v) && !s.OnBattery() && 0.0 < s.inVolt < v && c.watts / v == s.load
  }

  /** A change of the idle draw, on a rise that ends within range, that would take the load stored for
      the UPS below zero. */
  predicate Sinks(c: Config, s: UpsState, v: real) {
    c.InRange(v) && s.inVolt < v &&
    if s.OnBattery() then v > WALLPOWER_STANDARD && s.load == 0.0
    else 0.0 < s.inVolt && s.load + c.watts / v - c.watts / s.inVolt < 0.0
  }

  /** A rise that ends out of range: on battery the UPS reports a change of its idle draw all the
      same, and so does one that has no load to take off its input. */
  predicate Strays(c: Config, s: UpsState, v: real) {
    s.inVolt < v && !c.InRange(v) && if s.OnBattery() then v != WALLPOWER_STANDARD else s.load == 0.0
  }

  predicate Misreports(c: Config, s: UpsState, v: real) {
    Coincides(c, s, v) || Sinks(c, s, v) || Strays(c, s, v)
  }

  lemma MainsKeepsReady(c: Config, s: UpsState, v: real)
    requires Ready(c, s) && MainsMove(c, s, v)
    ensures Ready(c, AfterInput(c, s, v).state)
  {
    DrawFalls(c, s.inVolt, v);
    DrawFalls(c, v, s.inVolt);
  }

  /** What the outlet should carry changes by what the UPS reports, and does not sink below zero. */
  predicate Reports(s: UpsState, r: Reaction) {
    Upstream(r.state) >= 0.0 && Upstream(r.state) - Upstream(s) == if r.LoadChanged() then r.load.value.Difference() else 0.0
  }

  lemma RiseReports(c: Config, s: UpsState, v: real)
    requires Ready(c, s) && MainsMove(c, s, v) && s.inVolt < v
    ensures Reports(s, AfterInput(c, s, v)) <==> !Misreports(c, s, v)
  {
    DrawFalls(c, s.inVolt, v);
    DrawFalls(c, WALLPOWER_STANDARD, v);
    DrawFalls(c, v, WALLPOWER_STANDARD);
  }

  lemma FallReports(c: Config, s: UpsState, v: real)
    requires Ready(c, s) && MainsMove(c, s, v) && v < s.inVolt
    ensures Reports(s, AfterInput(c, s, v)) && !Misreports(c, s, v)
  {
    DrawFalls(c, v, s.inVolt);
  }

  /** The mains move and the outlet still carries what it should, exactly unless the move is a
      coincidence, where the handler skips the UPS's own update, sinks below zero, where the
      clamp cuts it short, or strays. */
  lemma MainsKeepsCarried(c: Config, f: Feed, v: real)
    requires Carried(f) && Ready(c, f.ups) && MainsMove(c, f.ups, v)
    ensures Ready(c, AfterMains(c, f, v).ups)
    ensures Carried(AfterMains(c, f, v)) <==> !Misreports(c, f.ups, v)
  {
    var r := AfterInput(c, f.ups, v);
    MainsKeepsReady(c, f.ups, v);
    assert Upstream(r.state) >= 0.0;
    hide AfterInput, Misreports, Upstream, Ready;
    if f.ups.inVolt < v {
      RiseReports(c, f.ups, v);
    } else {
      FallReports(c, f.ups, v);
    }
    if r.LoadChanged() {
      EdgeAppend(f.outlet, f.edge, Told(r.load.value, false));
    } else {
      assert f.edge + [] == f.edge;
    }
  }

  /** The idle draw falls as the voltage rises. */
  lemma DrawFalls(c: Config, v: real, w: real)
    requires c.watts > 0.0
    ensures 0.0 < v ==> c.watts / v > 0.0
    ensures 0.0 < v < w ==> c.watts / v > c.watts / w
  {
  }

  /** What a UPS on battery reports starts from the load it had stored and ends at the child's own: a PDU
      between it and the outlet, which does not heed marks and should carry nothing for it, is left in
      peace only while children draw no more than the UPS had stored in all. */
  lemma PduAboveIsMisled(s: UpsState, pdu: A.Config, load: Change)
    requires s.OnBattery() && pdu.kind.Pdu?
    ensures var report := AfterChildLoad(s, load).1;
            var above := A.AfterChildLoad(pdu, A.AssetState(true, 0.0, 0.0, None, true), ChildLoad(0, 0, report, true, 0)).state;
            above.load == 0.0 <==> load.after <= s.load
  {
  }

  // ----- Runs -----

  datatype Action = Mains(volt: real) | Child(load: Change, marked: bool) | Deliver

  /** The mains move, and children draw only what the UPS powers. */
  predicate Allowed(c: Config, f: Feed, a: Action) {
    match a
    case Mains(v) => MainsMove(c, f.ups, v)
    case Child(_, _) => f.ups.OnBattery() || f.ups.inVolt > 0.0
    case Deliver => f.edge != []
  }

  function Act(c: Config, f: Feed, a: Action): Feed
    requires Allowed(c, f, a)
  {
    match a
    case Mains(v) => AfterMains(c, f, v)
    case Child(load, marked) => AfterChild(f, load, marked)
    case Deliver => AfterDelivery(f)
  }

  /** Actions that are not allowed when their turn comes have no effect. */
  function Next(c: Config, f: Feed, a: Action): Feed {
    if Allowed(c, f, a) then Act(c, f, a) else f
  }

  function Exec(c: Config, f: Feed, actions: seq<Action>): Feed
    decreases |actions|
  {
    if actions == [] then f else Exec(c, Next(c, f, actions[0]), actions[1..])
  }

  /** The guards of MainsKeepsCarried and ChildKeepsCarried. */
  predicate Harmless(c: Config, f: Feed, a: Action) {
    match a
    case Mains(v) => Allowed(c, f, a) ==> !Misreports(c, f.ups, v)
    case Child(load, marked) => Allowed(c, f, a) ==> !Lost(f.ups, load, marked)
    case Deliver => true
  }

  predicate AllHarmless(c: Config, f: Feed, actions: seq<Action>)
    decreases |actions|
  {
    actions == [] || (Harmless(c, f, actions[0]) && AllHarmless(c, Next(c, f, actions[0]), actions[1..]))
  }

  /** The outlet's account is right in every state the run visits. */
  ghost predicate AlwaysCarried(c: Config, f: Feed, actions: seq<Action>)
    decreases |actions|
  {
    Carried(f) && (actions == [] || AlwaysCarried(c, Next(c, f, actions[0]), actions[1..]))
  }

  lemma NextKeepsCarried(c: Config, f: Feed, a: Action)
    requires Carried(f) && Ready(c, f.ups)
    ensures Ready(c, Next(c, f, a).ups)
    ensures Carried(Next(c, f, a)) <==> Harmless(c, f, a)
  {
    if Allowed(c, f, a) {
      match a
      case Mains(v) => MainsKeepsCarried(c, f, v);
      case Child(load, marked) => ChildKeepsCarried(f, load, marked);
      case Deliver => DeliveryKeepsCarried(f);
    }
  }

  /** Over every run, wherever the mains return after an outage: the outlet's account is right all
      the way exactly when no mains move on the way is misreported and no change is lost. */
  lemma {:induction false} AlwaysCarriedExactly(c: Config, f: Feed, actions: seq<Action>)
    requires Carried(f) && Ready(c, f.ups)
    ensures AlwaysCarried(c, f, actions) <==> AllHarmless(c, f, actions)
    ensures AllHarmless(c, f, actions) ==> Carried(Exec(c, f, actions)) && Ready(c, Exec(c, f, actions).ups)
    decreases |actions|
  {
    if actions != [] {
      NextKeepsCarried(c, f, actions[0]);
      if Carried(Next(c, f, actions[0])) {
        AlwaysCarriedExactly(c, Next(c, f, actions[0]), actions[1..]);
      } else {
        assert !AlwaysCarried(c, Next(c, f, actions[0]), actions[1..]);
      }
    }
  }

  /** The state the engine creates, with nothing powered yet. */
  function StartUp(): Feed {
    Feed(UpsState(true, 0.0, 0.0, 1000, NoTransfer, false, false), 0.0, [])
  }

  /** The outlet that feeds the UPS carries, counting what is in flight, nothing on battery and the
      UPS's load otherwise, over every run without such a step and across child load changes made
      on battery. */
  lemma OutletCarriesUps(c: Config, actions: seq<Action>)
    requires c.Valid() && c.watts > 0.0 && AllHarmless(c, StartUp(), actions)
    ensures var f := Exec(c, StartUp(), actions);
            f.outlet + InFlight(f.edge) == if f.ups.OnBattery() then 0.0 else f.ups.load
  {
    AlwaysCarriedExactly(c, StartUp(), actions);
  }

  // ----- Returning at the same voltage -----

  /** The run with the last voltage the mains had and the load of the UPS's children. */
  datatype History = History(feed: Feed, last: real, children: real)

  function Recorded(c: Config, h: History, a: Action): History {
    History(
      Next(c, h.feed, a),
      if a.Mains? && Allowed(c, h.feed, a) && a.volt != 0.0 then a.volt else h.last,
      if a.Child? && Allowed(c, h.feed, a) then h.children + a.load.Difference() else h.children)
  }

  /** The mains fail or stay in range and return at the voltage at which they left, no UPS below is on battery, and children
      never draw less than nothing. */
  predicate Regular(c: Config, h: History, actions: seq<Action>)
    decreases |actions|
  {
    actions == [] ||
    (Regularly(c, h, actions[0]) && Regular(c, Recorded(c, h, actions[0]), actions[1..]))
  }

  predicate Regularly(c: Config, h: History, a: Action) {
    Allowed(c, h.feed, a) ==>
      && (a.Mains? ==> a.volt == 0.0 || c.InRange(a.volt))
      && (a.Mains? && h.feed.ups.OnBattery() ==> a.volt == h.last)
      && (a.Child? ==> !a.marked && h.children + a.load.Difference() >= 0.0)
  }

  /** The UPS carries its idle draw at the last mains voltage plus its children. */
  ghost predicate Steady(c: Config, h: History) {
    && Carried(h.feed) && Ready(c, h.feed.ups) && (h.feed.ups.inVolt == 0.0 || c.InRange(h.feed.ups.inVolt))
    && h.children >= 0.0 && h.feed.ups.load == CalculateLoad(c.watts, h.last) + h.children
    && (h.feed.ups.inVolt > 0.0 ==> h.last == h.feed.ups.inVolt)
    && (h.feed.ups.OnBattery() ==> c.InRange(h.last))
    && (h.last == 0.0 || c.InRange(h.last))
  }

  lemma RegularIsHarmless(c: Config, h: History, a: Action)
    requires Steady(c, h) && Regularly(c, h, a)
    ensures Harmless(c, h.feed, a) && Steady(c, Recorded(c, h, a))
  {
    DrawFalls(c, h.feed.ups.inVolt, if a.Mains? then a.volt else 0.0);
    DrawFalls(c, h.last, if a.Mains? then a.volt else 0.0);
    NextKeepsCarried(c, h.feed, a);
  }

  lemma {:induction false} RegularRunsAreHarmless(c: Config, h: History, actions: seq<Action>)
    requires Steady(c, h) && Regular(c, h, actions)
    ensures AllHarmless(c, h.feed, actions)
    decreases |actions|
  {
    if actions != [] {
      RegularIsHarmless(c, h, actions[0]);
      RegularRunsAreHarmless(c, Recorded(c, h, actions[0]), actions[1..]);
    }
  }

  /** Mains that return at the voltage at which they left never make such a move. */
  lemma ReturnAtTheSameVoltage(c: Config, actions: seq<Action>)
    requires c.Valid() && c.watts > 0.0 && Regular(c, History(StartUp(), 0.0, 0.0), actions)
    ensures AlwaysCarried(c, StartUp(), actions)
  {
    RegularRunsAreHarmless(c, History(StartUp(), 0.0, 0.0), actions);
    AlwaysCarriedExactly(c, StartUp(), actions);
  }

  /** At another voltage they can: mains at 126 V, an outage, a return at 107 V and a rise to
      126 V, where the idle draw is the load the UPS has stored since before the outage. */
  lemma ReturnAtAnotherVoltageBreaksTheLaw(c: Config)
    requires c == Config(106.0, 127.0, 48.0, 24.0)
    ensures var f := AfterMains(c, AfterMains(c, AfterMains(c, AfterMains(c, StartUp(), 126.0), 0.0), 107.0), 126.0);
            !f.ups.OnBattery() && f.outlet + InFlight(f.edge) < f.ups.load
  {
    var f0 := StartUp();
    var f1 := AfterMains(c, f0, 126.0);
    MainsKeepsCarried(c, f0, 126.0);
    var f2 := AfterMains(c, f1, 0.0);
    MainsKeepsCarried(c, f1, 0.0);
    var f3 := AfterMains(c, f2, 107.0);
    MainsKeepsCarried(c, f2, 107.0);
    EdgeAppend(f3.outlet, f3.edge, Told(Change(24.0 / 107.0, 24.0 / 126.0), false));
  }
}
