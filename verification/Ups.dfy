// UPS: transfer between input power and battery.

module Ups {
  import opened Events

  const WALLPOWER_STANDARD := 120.0

  /** InputLineFailCause, without the causes the engine never sets. */
  datatype Cause = NoTransfer | HighLineVoltage | Brownout | Blackout | SmallMomentarySag | DeepMomentarySag

  /** Transfer thresholds, the voltage below which a sag is deep, and the idle consumption. */
  datatype Config = Config(low: real, high: real, ratedThreshold: real, watts: real) {
    predicate Valid() {
      0.0 < low < high && 0.0 <= ratedThreshold <= high && watts >= 0.0
    }

    predicate InRange(v: real) {
      low < v < high
    }
  }

  /** battery is the stored level; draining and charging say which battery thread is alive. */
  datatype UpsState = UpsState(
    status: bool, inVolt: real, load: real, battery: int, cause: Cause, draining: bool, charging: bool)
  {
    predicate OnBattery() {
      cause != NoTransfer
    }

    function OutputVoltage(): real {
      if OnBattery() then (if status then WALLPOWER_STANDARD else 0.0) else inVolt
    }
  }

  // ----- Specification on values -----

  datatype Verdict = Accept | Transfer(cause: Cause) | Unknown

  /** process_voltage; Unknown stands for its ValueError. */
  function ProcessVoltage(c: Config, v: real): Verdict {
    if c.InRange(v) then Accept
    else if 0.0 <= v < c.ratedThreshold then Transfer(DeepMomentarySag)
    else if c.ratedThreshold <= v <= c.low then Transfer(SmallMomentarySag)
    else if v >= c.high then Transfer(HighLineVoltage)
    else Unknown
  }

  function Severer(cause: Cause): Cause {
    match cause
    case SmallMomentarySag => Brownout
    case DeepMomentarySag => Blackout
    case _ => cause
  }

  /** _launch_battery_drain: a drain that is already running only gets a severer cause;
      otherwise the charge thread is waited for and a drain thread starts. */
  function DrainLaunched(s: UpsState, cause: Cause): UpsState {
    if s.draining then s.(cause := Severer(cause))
    else s.(cause := cause, charging := false, draining := true)
  }

  /** _launch_battery_charge: nothing happens while a charge is running; otherwise the drain
      thread is waited for and a charge thread starts. */
  function ChargeLaunched(s: UpsState): UpsState {
    if s.charging then s
    else s.(cause := NoTransfer, draining := false, charging := true)
  }

  /** The state manager's power_up. */
  function PoweredUp(c: Config, s: UpsState): UpsState {
    if s.battery != 0 && !s.status then s.(status := true, load := Clamp(CalculateLoad(c.watts, s.inVolt))) else s
  }

  /** _get_ups_load_update: the whole load leaves or returns to the input when the UPS transfers. */
  function LoadUpdate(s: UpsState, transfers: bool): Option<Change> {
    if transfers == s.OnBattery() || s.load == 0.0 then None
    else Some(if transfers then Change(s.load, 0.0) else Change(0.0, s.load))
  }

  /** A handler's effect: the new state, the output voltage and the load change it reports. */
  datatype Reaction = Reaction(state: UpsState, outVolt: Change, load: Option<Change>) {
    predicate LoadChanged() {
      load.Some? && !load.value.Unchanged()
    }
  }

  /** on_input_voltage_up, then detect_input_voltage. */
  function AfterVoltageUp(c: Config, s: UpsState, v: real): Reaction {
    var before := Clamp(s.OutputVoltage());
    var transfers := ProcessVoltage(c, v).Transfer?;
    var high := ProcessVoltage(c, v) == Transfer(HighLineVoltage);
    var load := LoadUpdate(s, transfers).GetOr(LoadFromVolt(c.watts, Change(before, v)));
    var s1 := if !transfers && s.OnBattery() then PoweredUp(c, ChargeLaunched(s)) else s;
    var s2 := if high then DrainLaunched(s1, HighLineVoltage) else s1;
    var out := if high then WALLPOWER_STANDARD else if transfers && s.OnBattery() then before else v;
    var stored := if load.after != 0.0 && load.after != s2.load then Clamp(s2.load + load.Difference()) else s2.load;
    Reaction(s2.(load := stored, inVolt := Clamp(v)), Change(before, Clamp(out)), Some(load))
  }

  /** on_input_voltage_down, then detect_input_voltage. */
  function AfterVoltageDown(c: Config, s: UpsState, v: real): Reaction {
    var before := Clamp(s.OutputVoltage());
    var verdict := ProcessVoltage(c, v);
    var update := LoadUpdate(s, verdict.Transfer?);
    if verdict.Transfer? && s.battery != 0 then
      Reaction(DrainLaunched(s, verdict.cause).(inVolt := Clamp(v)), Change(before, WALLPOWER_STANDARD), update)
    else if s.cause == HighLineVoltage && verdict != Transfer(HighLineVoltage) then
      Reaction(ChargeLaunched(s).(inVolt := Clamp(v)), Change(before, v), update)
    else
      var load := LoadFromVolt(c.watts, Change(before, v));
      Reaction(s.(load := Clamp(s.load + load.Difference()), inVolt := Clamp(v)), Change(before, v), Some(load))
  }

  /** An input voltage event whose parent moved from the voltage the UPS has now to v. */
  function AfterInput(c: Config, s: UpsState, v: real): Reaction {
    if IsDownEvent(Change(s.inVolt, v)) then AfterVoltageDown(c, s, v) else AfterVoltageUp(c, s, v)
  }

  /** A child's load event: on battery the report is marked, so that no outlet above reacts to it,
      and still carries the child's own new value. */
  function AfterChildLoad(s: UpsState, load: Change): (UpsState, Change) {
    var stored := Clamp(s.load + load.Difference());
    (s.(load := stored), Change(s.load, if s.OnBattery() then load.after else stored))
  }

  // ----- The class -----

  class UpsAsset {
    const config: Config
    var status: bool
    var inputVoltage: real
    var load: real
    var batteryLevel: int
    var transferReason: Cause
    var draining: bool
    var charging: bool

    function View(): UpsState
      reads this
    {
      UpsState(status, inputVoltage, load, batteryLevel, transferReason, draining, charging)
    }

    constructor (c: Config)
      ensures config == c && View() == UpsState(true, 0.0, 0.0, 1000, NoTransfer, false, false)
    {
      config := c;
      status, inputVoltage, load, batteryLevel := true, 0.0, 0.0, 1000;
      transferReason, draining, charging := NoTransfer, false, false;
    }

    method IncreaseTransferSeverity()
      modifies this`transferReason
      ensures transferReason == Severer(old(transferReason))
    {
      if transferReason == SmallMomentarySag {
        transferReason := Brownout;
      } else if transferReason == DeepMomentarySag {
        transferReason := Blackout;
      }
    }

    method LaunchBatteryDrain(cause: Cause)
      modifies this
      ensures View() == DrainLaunched(old(View()), cause)
    {
      if draining {
        transferReason := cause;
        IncreaseTransferSeverity();
        return;
      }
      transferReason := cause;
      charging := false;
      draining := true;
    }

    method LaunchBatteryCharge()
      modifies this
      ensures View() == ChargeLaunched(old(View()))
    {
      if charging {
        return;
      }
      transferReason := NoTransfer;
      draining := false;
      charging := true;
    }

    method PowerUp()
      modifies this
      ensures View() == PoweredUp(config, old(View()))
    {
      if batteryLevel != 0 && !status {
        status := true;
        load := Clamp(CalculateLoad(config.watts, inputVoltage));
      }
    }

    method OnInputVoltageUp(v: real) returns (r: Reaction)
      requires ProcessVoltage(config, v) != Unknown
      modifies this
      ensures r == AfterVoltageUp(config, old(View()), v) && View() == r.state
    {
      var outVolt := Change(Clamp(View().OutputVoltage()), v);
      var change := LoadFromVolt(config.watts, outVolt);
      var verdict := ProcessVoltage(config, v);
      var update := LoadUpdate(View(), verdict.Transfer?);
      if update.Some? {
        change := update.value;
      }
      if !verdict.Transfer? && View().OnBattery() {
        LaunchBatteryCharge();
        PowerUp();
      } else if View().OnBattery() {
        outVolt := Change(outVolt.before, outVolt.before);
      }
      if verdict == Transfer(HighLineVoltage) {
        LaunchBatteryDrain(HighLineVoltage);
        outVolt := Change(outVolt.before, WALLPOWER_STANDARD);
      }
      if change.after != 0.0 && change.after != load {
        load := Clamp(load + change.Difference());
      }
      inputVoltage := Clamp(v);
      r := Reaction(View(), Change(outVolt.before, Clamp(outVolt.after)), Some(change));
    }

    method OnInputVoltageDown(v: real) returns (r: Reaction)
      requires ProcessVoltage(config, v) != Unknown
      modifies this
      ensures r == AfterVoltageDown(config, old(View()), v) && View() == r.state
    {
      var outVolt := Change(Clamp(View().OutputVoltage()), v);
      var verdict := ProcessVoltage(config, v);
      var change := LoadUpdate(View(), verdict.Transfer?);
      if verdict.Transfer? && batteryLevel != 0 {
        LaunchBatteryDrain(verdict.cause);
        outVolt := Change(outVolt.before, WALLPOWER_STANDARD);
      } else if transferReason == HighLineVoltage && verdict != Transfer(HighLineVoltage) {
        LaunchBatteryCharge();
      } else {
        change := Some(LoadFromVolt(config.watts, outVolt));
        load := Clamp(load + change.value.Difference());
      }
      inputVoltage := Clamp(v);
      r := Reaction(View(), outVolt, change);
    }

    method OnChildLoadUpdate(change: Change) returns (report: Change)
      modifies this`load
      ensures (View(), report) == AfterChildLoad(old(View()), change)
    {
      report := Change(load, change.after);
      load := Clamp(load + change.Difference());
      if !View().OnBattery() {
        report := Change(report.before, load);
      }
    }
  }
}
