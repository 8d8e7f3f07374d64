// Engine: chaining of asset reports into new events, and completion notices.

module Engine {
  import opened Events
  import opened Iteration
  import T = Topology

  datatype Notice = AllVoltageBranchesDone | AllLoadBranchesDone

  /** The running iteration (None between iterations), events fired and not yet handled
      in firing order, and completion notices sent so far for this iteration. */
  datatype EngineState = EngineState(current: Option<IterationState>, queue: seq<Message>, notices: seq<Notice>)

  // ----- Specification on values -----

  /** _chain_power_events, after the iteration produced `o`. */
  function ChainPower(st: EngineState, o: Outcome): EngineState {
    var fired := st.queue + o.volts + o.loads;
    if o.iter.volt.active != [] then
      EngineState(Some(o.iter), fired, st.notices)
    else if o.iter.load.active != [] then
      EngineState(Some(o.iter), fired, st.notices + [AllVoltageBranchesDone])
    else
      EngineState(None, fired, st.notices + [AllVoltageBranchesDone, AllLoadBranchesDone])
  }

  /** _chain_load_events, after the iteration produced `o`. */
  function ChainLoad(st: EngineState, o: Outcome): EngineState {
    var fired := st.queue + o.loads;
    if o.iter.Done() then EngineState(None, fired, st.notices + [AllLoadBranchesDone])
    else EngineState(Some(o.iter), fired, st.notices)
  }

  function Launched(t: T.Topology, src: Source): EngineState {
    ChainPower(EngineState(None, [], []), AfterLaunch(t, src))
  }

  /** What an asset may answer: a report about itself on the branch of the event it handled. */
  datatype Answer = PowerAnswer(power: AssetPowerEvent) | LoadAnswer(load: AssetLoadEvent)

  function StreamKeys(s: seq<StreamedLoad>): seq<Key> {
    seq(|s|, i requires 0 <= i < |s| => s[i].key)
  }

  ghost predicate ValidAnswer(t: T.Topology, m: Message, a: Answer) {
    if m.VoltageSide() then
      && a.PowerAnswer? && a.power.asset == m.target && a.power.branch == m.branch
      && (forall i :: 0 <= i < |a.power.streamed| ==> t.Has(a.power.asset) && a.power.streamed[i].key in t.parents[a.power.asset])
      && Distinct(StreamKeys(a.power.streamed))
    else
      a.LoadAnswer? && a.load.asset == m.target && a.load.branch == m.branch
  }

  /** The event at the head of the queue runs on a branch the iteration still counts as active. */
  ghost predicate HeadTracked(t: T.Topology, st: EngineState) {
    && st.queue != [] && st.current.Some?
    && t.Has(st.queue[0].target)
    && st.queue[0].branch in
       (if st.queue[0].VoltageSide() then st.current.value.volt.active else st.current.value.load.active)
  }

  /** One event is handled: the asset answers and the engine chains the answer. */
  ghost function Step(t: T.Topology, st: EngineState, a: Answer): EngineState
    requires HeadTracked(t, st) && ValidAnswer(t, st.queue[0], a)
  {
    var rest := st.(queue := st.queue[1..]);
    if a.PowerAnswer? then ChainPower(rest, AfterAssetPower(st.current.value, t, a.power))
    else ChainLoad(rest, AfterAssetLoad(st.current.value, t, a.load))
  }

  // ----- The class -----

  class Engine {
    const topology: T.Topology
    var current: PowerIteration?
    var queue: seq<Message>
    var notices: seq<Notice>

    ghost predicate Valid()
      reads this, current
    {
      current != null ==> current.Valid() && current.topology == topology
    }

    ghost function Footprint(): set<object>
      reads this
    {
      {this} + if current == null then {} else current.Footprint()
    }

    function View(): EngineState
      reads this, current,
            if current == null then {} else {current.voltBranches, current.loadBranches}
    {
      EngineState(if current == null then None else Some(current.View()), queue, notices)
    }

    constructor (t: T.Topology)
      ensures Valid() && fresh(Footprint())
      ensures View() == EngineState(None, [], []) && topology == t
    {
      topology, current, queue, notices := t, null, [], [];
    }

    /** unfreeze_task_queue: the assertion of the source is the precondition. */
    method UnfreezeTaskQueue()
      requires current != null && current.IterationDone()
      modifies this`current
      ensures current == null
    {
      current := null;
    }

    method MarkLoadBranchesDone()
      requires current != null && current.IterationDone()
      modifies this`current, this`notices
      ensures current == null && notices == old(notices) + [AllLoadBranchesDone]
    {
      notices := notices + [AllLoadBranchesDone];
      UnfreezeTaskQueue();
    }

    method ChainPowerEvents(volts: seq<Message>, loads: seq<Message>)
      requires Valid() && current != null
      modifies this
      ensures Valid()
      ensures View() == ChainPower(old(View()), Outcome(old(current.View()), volts, loads))
      ensures Footprint() <= old(Footprint())
    {
      if current.voltBranches.Completed() {
        notices := notices + [AllVoltageBranchesDone];
        if current.loadBranches.Completed() {
          MarkLoadBranchesDone();
        }
      }
      queue := queue + volts;
      queue := queue + loads;
    }

    method ChainLoadEvents(loads: seq<Message>)
      requires Valid() && current != null
      modifies this
      ensures Valid()
      ensures View() == ChainLoad(old(View()), Outcome(old(current.View()), [], loads))
      ensures Footprint() <= old(Footprint())
    {
      if current.IterationDone() {
        MarkLoadBranchesDone();
      }
      queue := queue + loads;
    }

    /** The consumer's worker launches a queued iteration. */
    method LaunchIteration(src: Source)
      requires View() == EngineState(None, [], [])
      modifies this
      ensures Valid() && fresh(Footprint() - {this})
      ensures View() == Launched(topology, src)
    {
      var it := new PowerIteration(topology);
      current := it;
      var volts := it.Launch(src);
      ChainPowerEvents(volts, []);
    }

    /** _on_asset_power_event_success. */
    method OnAssetPowerEventSuccess(e: AssetPowerEvent)
      requires Valid() && current != null
      requires topology.Has(e.asset) && e.branch in current.voltBranches.branchesActive
      modifies Footprint()
      ensures Valid()
      ensures View() == ChainPower(old(View()), AfterAssetPower(old(current.View()), topology, e))
    {
      var volts, loads := current.ProcessPowerEvent(e);
      ChainPowerEvents(volts, loads);
    }

    /** _on_asset_load_event_success. */
    method OnAssetLoadEventSuccess(e: AssetLoadEvent)
      requires Valid() && current != null
      requires topology.Has(e.asset) && e.branch in current.loadBranches.branchesActive
      modifies Footprint()
      ensures Valid()
      ensures View() == ChainLoad(old(View()), AfterAssetLoad(old(current.View()), topology, e))
    {
      var loads := current.ProcessLoadEvent(e);
      ChainLoadEvents(loads);
    }

    /** The framework takes the head of the queue, the asset answers, the engine reacts. */
    method HandleNext(a: Answer)
      requires Valid() && HeadTracked(topology, View()) && ValidAnswer(topology, queue[0], a)
      modifies Footprint()
      ensures Valid()
      ensures View() == old(Step(topology, View(), a))
    {
      queue := queue[1..];
      match a {
        case PowerAnswer(e) => OnAssetPowerEventSuccess(e);
        case LoadAnswer(e) => OnAssetLoadEventSuccess(e);
      }
    }
  }
}
