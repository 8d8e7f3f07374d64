// A UPS is on battery exactly while its input is outside the transfer thresholds, and what it
// passes on is always usable.

module UpsTransfer {
  import opened Events
  import opened Ups

  /** On battery exactly when the input is out of range, for an overvoltage exactly when it is too
      high; and the battery thread that may be alive is the right one. */
  ghost predicate Settled(c: Config, s: UpsState) {
    && s.inVolt >= 0.0
    && (s.OnBattery() <==> !c.InRange(s.inVolt))
    && (s.OnBattery() ==> (s.cause == HighLineVoltage <==> s.inVolt >= c.high))
    && (if s.OnBattery() then !s.charging else !s.draining)
  }

  /** What the UPS passes on: nothing new, the standard voltage, or a voltage in range. */
  predicate Shielded(c: Config, out: Change) {
    out.Unchanged() || out.after == WALLPOWER_STANDARD || c.InRange(out.after)
  }

  /** The up handler keeps the UPS settled exactly when it is not asked to handle, on input power or
      in an overvoltage, a rise that ends below the range: it has no branch that records a sag. */
  lemma VoltageUpSettles(c: Config, s: UpsState, v: real)
    requires c.Valid() && Settled(c, s) && s.status && s.battery > 0 && v >= 0.0
    ensures var r := AfterVoltageUp(c, s, v);
            && (Settled(c, r.state) <==> !((!s.OnBattery() || s.cause == HighLineVoltage) && v <= c.low))
            && (Shielded(c, r.outVolt) <==> !(!s.OnBattery() && v <= c.low && v != s.inVolt && v != WALLPOWER_STANDARD))
  {
  }

  /** The down handler keeps the UPS settled exactly when it is not asked to return from a sag:
      it only returns to input power from an overvoltage. */
  lemma VoltageDownSettles(c: Config, s: UpsState, v: real)
    requires c.Valid() && Settled(c, s) && s.status && s.battery > 0 && v >= 0.0
    ensures var r := AfterVoltageDown(c, s, v);
            && (Settled(c, r.state) <==> !(s.OnBattery() && s.cause != HighLineVoltage && c.InRange(v)))
            && Shielded(c, r.outVolt)
  {
  }

  /** First power in range, from the state the engine creates a UPS in. */
  lemma FirstPowerSettles(c: Config, s: UpsState, v: real)
    requires c.Valid() && c.InRange(v) && s.status && s.inVolt == 0.0 && s.cause == NoTransfer && !s.draining
    ensures Settled(c, AfterInput(c, s, v).state) && Shielded(c, AfterInput(c, s, v).outVolt)
  {
  }

  /** A UPS whose battery is empty does not transfer on a sag: it stays on line and passes the sag on. */
  lemma EmptyUpsStaysOnLine(c: Config, s: UpsState, v: real)
    requires c.Valid() && s.battery == 0 && !s.OnBattery() && 0.0 <= v <= c.low
    ensures var r := AfterVoltageDown(c, s, v);
            !r.state.OnBattery() && r.state.draining == s.draining && r.outVolt.after == v && r.state.OutputVoltage() == v
  {
  }

  /** A UPS that went off on battery comes back with its input exactly when its battery is not empty; its
      idle draw is then stored once, unless some input voltage was left. */
  lemma OffUpsReturns(c: Config, s: UpsState, v: real)
    requires c.Valid() && c.watts > 0.0 && !s.status && s.OnBattery() && s.load == 0.0 && !s.charging && 0.0 <= s.inVolt <= c.low && c.InRange(v)
    ensures var r := AfterVoltageUp(c, s, v);
            && !r.state.OnBattery() && r.outVolt == Change(0.0, v) && r.state.OutputVoltage() == v
            && (r.state.status <==> s.battery != 0)
            && r.load == Some(Change(0.0, c.watts / v))
            && (r.state.load == c.watts / v <==> s.battery == 0 || s.inVolt == 0.0)
  {
    DrawsDiffer(c.watts, s.inVolt, v);
  }

  lemma DrawsDiffer(watts: real, u: real, v: real)
    requires watts > 0.0 && u < v && 0.0 < v
    ensures watts / v > 0.0 && (u > 0.0 ==> watts / u > 0.0 && watts / u != watts / v)
  {
    if u > 0.0 {
      var x, y := watts / u, watts / v;
      assert x * u == watts == y * v;
      assert x > 0.0 && y > 0.0;
      assert x * (v - u) > 0.0;
      assert x * v > y * v;
    }
  }

  /** An event that tells the truth about where the input comes from never asks for that, and what
      the UPS then reports to what it powers is the change of its output; the thread of the side it
      transfers to is started. */
  lemma InputSettles(c: Config, s: UpsState, v: real)
    requires c.Valid() && Settled(c, s) && s.status && s.battery > 0 && v >= 0.0
    ensures var r := AfterInput(c, s, v);
            && Settled(c, r.state) && Shielded(c, r.outVolt)
            && r.state.status && r.state.battery == s.battery && r.state.inVolt == v
            && r.outVolt == Change(s.OutputVoltage(), r.state.OutputVoltage())
            && (!s.OnBattery() && r.state.OnBattery() ==> r.state.draining) && (s.OnBattery() && !r.state.OnBattery() ==> r.state.charging)
  {
  }

  /** Without it the law fails: an up event to 50 V while the stored input is still in range, as
      a parent outlet sends that was switched off, missed the outage and follows the mains again. */
  lemma StaleInputBreaksTheLaw(c: Config, s: UpsState)
    requires c == Config(106.0, 127.0, 48.0, 24.0)
    requires Settled(c, s) && s.inVolt == 120.0
    ensures var r := AfterVoltageUp(c, s, 50.0);
            !r.state.OnBattery() && r.state.inVolt == 50.0 && r.outVolt == Change(120.0, 50.0)
  {
  }

  // ----- Runs -----

  /** What happens to a UPS that stays on: its input moves, the drain thread makes the cause
      severer or ends, the charge thread ends, the battery threads store another level above
      zero, and children change their load. */
  datatype Action =
    | InputMoves(volt: real) | CauseGetsSeverer | DrainEnds | ChargeEnds | LevelStored(level: int) | ChildLoads(load: Change)

  predicate ValidAction(a: Action) {
    match a
    case InputMoves(v) => v >= 0.0
    case LevelStored(level) => 0 < level <= 1000
    case _ => true
  }

  function Act(c: Config, s: UpsState, a: Action): UpsState {
    match a
    case InputMoves(v) => AfterInput(c, s, v).state
    case CauseGetsSeverer => if s.draining then s.(cause := Severer(s.cause)) else s
    case DrainEnds => s.(draining := false)
    case ChargeEnds => s.(charging := false)
    case LevelStored(level) => s.(battery := level)
    case ChildLoads(load) => AfterChildLoad(s, load).0
  }

  function Exec(c: Config, s: UpsState, actions: seq<Action>): UpsState
    decreases |actions|
  {
    if actions == [] then s else Exec(c, Act(c, s, actions[0]), actions[1..])
  }

  /** Over every run the UPS is on battery exactly while its input is out of range, and the next
      input it handles passes on nothing but the standard voltage or a voltage in range. */
  lemma {:induction false} OnBatteryExactlyOutOfRange(c: Config, s: UpsState, actions: seq<Action>, v: real)
    requires c.Valid() && Settled(c, s) && s.status && s.battery > 0 && v >= 0.0
    requires forall i :: 0 <= i < |actions| ==> ValidAction(actions[i])
    ensures var r := Exec(c, s, actions);
            && (r.OnBattery() <==> !c.InRange(r.inVolt))
            && (r.cause == HighLineVoltage <==> r.inVolt >= c.high)
            && !(r.draining && !r.OnBattery()) && !(r.charging && r.OnBattery())
            && Shielded(c, AfterInput(c, r, v).outVolt)
    decreases |actions|
  {
    if actions == [] {
      InputSettles(c, s, v);
    } else {
      if actions[0].InputMoves? {
        InputSettles(c, s, actions[0].volt);
      }
      OnBatteryExactlyOutOfRange(c, Act(c, s, actions[0]), actions[1..], v);
    }
  }

  // ----- The stored cause -----

  /** What a run leaves for the cause: the voltage of the last drop of the input, and whether the
      transfer has lasted past a momentary sag since, or a drop came while the battery was draining. */
  datatype History = History(ups: UpsState, drop: real, long: bool)

  function Recorded(c: Config, h: History, a: Action): History {
    var s := Act(c, h.ups, a);
    match a
    case InputMoves(v) =>
      if IsDownEvent(Change(h.ups.inVolt, v)) then History(s, v, h.ups.draining)
      else h.(ups := s)
    case CauseGetsSeverer => h.(ups := s, long := h.long || h.ups.draining)
    case _ => h.(ups := s)
  }

  function Record(c: Config, h: History, actions: seq<Action>): History
    decreases |actions|
  {
    if actions == [] then h else Record(c, Recorded(c, h, actions[0]), actions[1..])
  }

  /** Momentary sags are small or deep, longer ones are brownouts or blackouts; the voltage of the last
      drop decides which. */
  ghost predicate ExplainsCause(c: Config, h: History) {
    h.ups.OnBattery() && h.ups.cause != HighLineVoltage ==>
      && 0.0 <= h.drop <= c.low
      && h.ups.cause ==
           if h.drop < c.ratedThreshold then (if h.long then Blackout else DeepMomentarySag)
           else (if h.long then Brownout else SmallMomentarySag)
  }

  /** Over every run the cause of a transfer on a drop tells how deep the drop was, and whether it was
      momentary. */
  lemma {:induction false} CauseTellsTheDrop(c: Config, h: History, actions: seq<Action>)
    requires c.Valid() && Settled(c, h.ups) && h.ups.status && h.ups.battery > 0 && ExplainsCause(c, h)
    requires forall i :: 0 <= i < |actions| ==> ValidAction(actions[i])
    ensures var r := Record(c, h, actions);
            r.ups == Exec(c, h.ups, actions) && ExplainsCause(c, r)
    decreases |actions|
  {
    if actions != [] {
      if actions[0].InputMoves? {
        InputSettles(c, h.ups, actions[0].volt);
      }
      CauseTellsTheDrop(c, Recorded(c, h, actions[0]), actions[1..]);
    }
  }
}
