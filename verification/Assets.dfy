// Hardware assets that follow their parent: outlets, PDUs, static devices and lamps.

module Assets {
  import opened Events

  datatype Kind = Outlet | Pdu | Static

  /** Configured properties; outlets and PDUs have no consumption of their own. */
  datatype Config = Config(kind: Kind, minVoltage: real, watts: real, powerOnAc: bool) {
    predicate Valid() {
      minVoltage >= 0.0 && watts >= 0.0 && (kind != Static ==> watts == 0.0)
    }
  }

  datatype Reason = AcRestored | AcLost | TurnedOn | TurnedOff

  /** What the store holds for an asset. oidsOn is false when every OID that powers the asset
      says it is switched off (and true for an asset no OID powers). */
  datatype AssetState = AssetState(status: bool, inVolt: real, load: real, reason: Option<Reason>, oidsOn: bool) {
    function OutputVoltage(): real {
      if status then inVolt else 0.0
    }

    /** What a powered device draws at its input voltage. */
    function Draw(watts: real): real {
      if status then CalculateLoad(watts, inVolt) else 0.0
    }
  }

  /** What _parents_available finds around the asset: for an asset without parents the mains
      decide, for any other its parents and its OIDs. */
  datatype Supply = Mains(on: bool) | Parents(up: bool) {
    predicate Available(oidsOn: bool) {
      match this
      case Mains(on) => on
      case Parents(up) => up && oidsOn
    }
  }

  // ----- Specification on values -----

  /** Asset.power_off and below it the state manager's power_off; a static device also zeroes its load. */
  function PoweredOff(c: Config, s: AssetState): AssetState {
    s.(status := false, reason := Some(AcLost), load := if c.kind.Static? then 0.0 else s.load)
  }

  /** Asset.power_up and below it the state manager's power_up; a static device that is on
      afterwards also stores its power usage, at the input voltage stored so far. */
  function PoweredUp(c: Config, s: AssetState, supply: Supply): AssetState {
    var on := s.status || supply.Available(s.oidsOn);
    s.(status := on, reason := Some(AcRestored),
       load := if c.kind.Static? && on then Clamp(CalculateLoad(c.watts, s.inVolt)) else s.load)
  }

  predicate Underpowered(c: Config, s: AssetState, volt: real) {
    volt <= c.minVoltage && s.status
  }

  predicate PowersBack(c: Config, s: AssetState, volt: real) {
    volt > c.minVoltage && !s.status && s.reason != Some(TurnedOff) && c.powerOnAc
  }

  datatype PowerReaction = PowerReaction(state: AssetState, event: AssetPowerEvent)

  function Scale(v: real, on: bool): real {
    Clamp(if on then v else 0.0)
  }

  /** State and output voltage after the threshold decision of _process_parent_volt_e. */
  function AfterThreshold(c: Config, s: AssetState, volt: real, supply: Supply): (AssetState, Change) {
    if Underpowered(c, s, volt) then
      (PoweredOff(c, s), Change(Scale(s.OutputVoltage(), s.status), Scale(volt, false)))
    else if PowersBack(c, s, volt) then
      var up := PoweredUp(c, s, supply);
      (up, Change(Scale(s.OutputVoltage(), s.status), Scale(volt, up.status)))
    else
      (s, Change(s.OutputVoltage(), volt))
  }

  /** An input voltage event: _process_parent_volt_e, then detect_input_voltage. */
  function AfterInputVoltage(c: Config, s: AssetState, m: Message, supply: Supply): PowerReaction
    requires m.InputVoltage?
  {
    var (s1, out) := AfterThreshold(c, s, m.volt.after, supply);
    var recalculates := s1.status || s1.status != s.status;
    var load := LoadFromVolt(c.watts, out);
    var stored := if recalculates && !load.Unchanged() then Clamp(s1.load - load.before + load.after) else s1.load;
    PowerReaction(
      s1.(load := stored, inVolt := Clamp(m.volt.after)),
      AssetPowerEvent(m.target, out, if recalculates then Some(load) else None, [], m.branch))
  }

  /** A power button event: the new state is stored first, then reported. */
  function AfterButton(c: Config, s: AssetState, m: Message): PowerReaction
    requires m.PowerButton?
  {
    var out := if m.on then Change(0.0, s.inVolt) else Change(s.inVolt, 0.0);
    PowerReaction(
      s.(status := m.on, reason := Some(if m.on then TurnedOn else TurnedOff)),
      AssetPowerEvent(m.target, out, Some(LoadFromVolt(c.watts, out)), [], m.branch))
  }

  /** A network signal to an outlet: all OIDs are set alike, then the outlet follows. */
  function AfterSignal(c: Config, s: AssetState, m: Message, supply: Supply): PowerReaction
    requires m.Signal?
  {
    var s1 := s.(oidsOn := m.on);
    PowerReaction(
      if m.on then PoweredUp(c, s1, supply) else PoweredOff(c, s1),
      AssetPowerEvent(m.target, Change(s.OutputVoltage(), if m.on then s.inVolt else 0.0), None, [], m.branch))
  }

  /** The reaction to any voltage-side event. */
  function AfterPowerSide(c: Config, s: AssetState, m: Message, supply: Supply): PowerReaction
    requires m.VoltageSide()
  {
    if m.InputVoltage? then AfterInputVoltage(c, s, m, supply)
    else if m.PowerButton? then AfterButton(c, s, m)
    else AfterSignal(c, s, m, supply)
  }

  datatype LoadReaction = LoadReaction(state: AssetState, event: AssetLoadEvent)

  /** A child's load event. An outlet ignores it while a UPS below runs on battery. */
  function AfterChildLoad(c: Config, s: AssetState, m: Message): LoadReaction
    requires m.ChildLoad?
  {
    if m.upsOnBattery && c.kind.Outlet? then
      LoadReaction(s, AssetLoadEvent(m.target, Change(s.load, s.load), m.upsOnBattery, m.branch))
    else
      var load := Clamp(s.load + m.load.Difference());
      LoadReaction(s.(load := load), AssetLoadEvent(m.target, Change(s.load, load), m.upsOnBattery, m.branch))
  }

  // ----- The class -----

  class Asset {
    const key: Key
    const config: Config
    var status: bool
    var inputVoltage: real
    var load: real
    var stateReason: Option<Reason>
    var oidsOn: bool

    function View(): AssetState
      reads this
    {
      AssetState(status, inputVoltage, load, stateReason, oidsOn)
    }

    ghost predicate Valid()
      reads this
    {
      config.Valid() && inputVoltage >= 0.0 && load >= 0.0
    }

    /** The store marks every asset as on before the engine creates it with no input and no load. */
    constructor (k: Key, c: Config)
      requires c.Valid()
      ensures Valid() && key == k && config == c
      ensures View() == AssetState(true, 0.0, 0.0, None, true)
    {
      key, config := k, c;
      status, inputVoltage, load, stateReason, oidsOn := true, 0.0, 0.0, None, true;
    }

    method UpdateLoad(newLoad: real)
      modifies this`load
      ensures load == Clamp(newLoad)
    {
      load := Clamp(newLoad);
    }

    method PowerOff() returns (powered: bool)
      modifies this
      ensures View() == PoweredOff(config, old(View())) && powered == status
    {
      stateReason := Some(AcLost);
      status := false;
      if config.kind.Static? {
        UpdateLoad(0.0);
      }
      powered := false;
    }

    method PowerUp(supply: Supply) returns (powered: bool)
      modifies this
      ensures View() == PoweredUp(config, old(View()), supply) && powered == status
    {
      stateReason := Some(AcRestored);
      if supply.Available(oidsOn) && !status {
        status := true;
      }
      if status && config.kind.Static? {
        UpdateLoad(CalculateLoad(config.watts, inputVoltage));
      }
      powered := status;
    }

    method ProcessParentVoltE(m: Message, supply: Supply) returns (e: AssetPowerEvent)
      requires m.InputVoltage?
      modifies this
      ensures View().(inVolt := Clamp(m.volt.after)) == AfterInputVoltage(config, old(View()), m, supply).state
      ensures e == AfterInputVoltage(config, old(View()), m, supply).event
      ensures inputVoltage == old(inputVoltage)
    {
      var wasOn := status;
      var oldOut, newOut := View().OutputVoltage(), m.volt.after;
      e := AssetPowerEvent(m.target, Change(oldOut, newOut), None, [], m.branch);
      var powerOff := newOut <= config.minVoltage && wasOn;
      var powerUp := newOut > config.minVoltage && !wasOn && stateReason != Some(TurnedOff) && config.powerOnAc;
      if powerOff || powerUp {
        var isOn;
        if powerOff {
          isOn := PowerOff();
        } else {
          isOn := PowerUp(supply);
        }
        e := e.(outVolt := Change(Scale(oldOut, wasOn), Scale(newOut, isOn)));
      }
      if status || status != wasOn {
        e := e.(load := Some(LoadFromVolt(config.watts, e.outVolt)));
        if !e.load.value.Unchanged() {
          UpdateLoad(load - e.load.value.before + e.load.value.after);
        }
      }
    }

    method DetectInputVoltage(m: Message)
      requires m.InputVoltage?
      modifies this`inputVoltage
      ensures inputVoltage == Clamp(m.volt.after)
    {
      inputVoltage := Clamp(m.volt.after);
    }

    /** InputVoltageUpEvent and InputVoltageDownEvent run the reaction, then store the input voltage. */
    method OnInputVoltage(m: Message, supply: Supply) returns (e: AssetPowerEvent)
      requires Valid() && m.InputVoltage?
      modifies this
      ensures Valid()
      ensures PowerReaction(View(), e) == AfterInputVoltage(config, old(View()), m, supply)
    {
      e := ProcessParentVoltE(m, supply);
      DetectInputVoltage(m);
    }

    method OnPowerButton(m: Message) returns (e: AssetPowerEvent)
      requires Valid() && m.PowerButton?
      modifies this
      ensures Valid()
      ensures PowerReaction(View(), e) == AfterButton(config, old(View()), m)
    {
      stateReason := Some(if m.on then TurnedOn else TurnedOff);
      status := m.on;
      var outVolt := if m.on then View().OutputVoltage() else inputVoltage;
      var out := Change(if m.on then 0.0 else outVolt, if m.on then outVolt else 0.0);
      e := AssetPowerEvent(m.target, out, Some(LoadFromVolt(config.watts, out)), [], m.branch);
    }

    method OnSignal(m: Message, supply: Supply) returns (e: AssetPowerEvent)
      requires Valid() && m.Signal?
      modifies this
      ensures Valid()
      ensures PowerReaction(View(), e) == AfterSignal(config, old(View()), m, supply)
    {
      oidsOn := m.on;
      e := AssetPowerEvent(m.target, Change(View().OutputVoltage(), if m.on then inputVoltage else 0.0), None, [], m.branch);
      if m.on {
        var _ := PowerUp(supply);
      } else {
        var _ := PowerOff();
      }
    }

    method OnChildLoadUpdate(m: Message) returns (e: AssetLoadEvent)
      requires Valid() && m.ChildLoad?
      modifies this`load
      ensures Valid()
      ensures LoadReaction(View(), e) == AfterChildLoad(config, old(View()), m)
    {
      e := AssetLoadEvent(m.target, Change(load, load), m.upsOnBattery, m.branch);
      if !(m.upsOnBattery && config.kind.Outlet?) {
        var newLoad := e.load.before + m.load.Difference();
        e := e.(load := Change(e.load.before, Clamp(newLoad)));
        UpdateLoad(newLoad);
      }
    }
  }
}
