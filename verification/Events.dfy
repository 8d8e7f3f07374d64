// Engine events as values: what the engine sends to an asset (Message) and what
// an asset answers with (AssetPowerEvent, AssetLoadEvent).

module Events {

  type Key = int

  datatype Option<+T> = None | Some(value: T) {
    function GetOr(default: T): T {
      if Some? then value else default
    }
  }

  /** EventDataPair once both sides are set; an unset pair is None where a pair is optional. */
  datatype Change = Change(before: real, after: real) {
    predicate Unchanged() {
      before == after
    }

    function Difference(): real {
      after - before
    }
  }

  /** The setters of EventDataPair store max(0, value). */
  function Clamp(x: real): real {
    if x < 0.0 then 0.0 else x
  }

  /** Events the engine fires at an asset. Every one of them travels on a branch.
      InputVoltage, PowerButton and Signal belong to the voltage side. */
  datatype Message =
    | InputVoltage(target: Key, source: Key, volt: Change, branch: nat)
    | PowerButton(target: Key, on: bool, branch: nat)
    | Signal(target: Key, on: bool, branch: nat)
    | ChildLoad(target: Key, source: Key, load: Change, upsOnBattery: bool, branch: nat)
  {
    predicate VoltageSide() {
      !ChildLoad?
    }
  }

  /** InputVoltageDownEvent is chosen for a drop and for a new value of zero,
      InputVoltageUpEvent otherwise. */
  predicate IsDownEvent(volt: Change) {
    volt.before > volt.after || volt.after == 0.0
  }

  datatype StreamedLoad = StreamedLoad(key: Key, load: Change)

  /** What an asset reports after a voltage-side event. An empty `streamed` stands for
      both None and {}: the iteration treats the two alike. */
  datatype AssetPowerEvent = AssetPowerEvent(
    asset: Key,
    outVolt: Change,
    load: Option<Change>,
    streamed: seq<StreamedLoad>,
    branch: nat)
  {
    predicate LoadChanged() {
      load.Some? && !load.value.Unchanged()
    }
  }

  /** What an asset reports after a child's load changed. */
  datatype AssetLoadEvent = AssetLoadEvent(asset: Key, load: Change, upsOnBattery: bool, branch: nat)

  /** AssetPowerEvent.calculate_load: amperes drawn by `watts` at `voltage`. */
  function CalculateLoad(watts: real, voltage: real): real {
    if voltage == 0.0 then 0.0 else watts / voltage
  }

  function LoadFromVolt(watts: real, outVolt: Change): Change {
    Change(CalculateLoad(watts, outVolt.before), CalculateLoad(watts, outVolt.after))
  }

  predicate Distinct<T(==)>(s: seq<T>) {
    forall i, j :: 0 <= i < j < |s| ==> s[i] != s[j]
  }
}
