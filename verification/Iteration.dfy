// PowerIteration: which events follow an asset's report, and which branches they run on.

module Iteration {
  import opened Events
  import T = Topology

  // ----- Specification on values -----

  /** Where list.remove finds `b`: its first occurrence. */
  function FirstIndex(s: seq<nat>, b: nat): (i: nat)
    requires b in s
    ensures i < |s| && s[i] == b
    ensures b !in s[..i]
  {
    if s[0] == b then 0 else 1 + FirstIndex(s[1..], b)
  }

  /** list.remove takes out the first occurrence and raises when there is none. */
  function RemoveFirst(s: seq<nat>, b: nat): seq<nat>
    requires b in s
  {
    s[..FirstIndex(s, b)] + s[FirstIndex(s, b) + 1..]
  }

  lemma RemoveFirstMultiset(s: seq<nat>, b: nat)
    requires b in s
    ensures multiset(RemoveFirst(s, b)) == multiset(s) - multiset{b}
  {
    var i := FirstIndex(s, b);
    assert s == s[..i] + [b] + s[i + 1..];
  }

  datatype Tracker = Tracker(active: seq<nat>, done: seq<nat>) {
    function Complete(b: nat): Tracker
      requires b in active
    {
      Tracker(RemoveFirst(active, b), done + [b])
    }

    function Extend(branches: seq<nat>): Tracker {
      Tracker(active + branches, done)
    }
  }

  /** Branch objects are numbered in the order they are created. */
  datatype IterationState = IterationState(volt: Tracker, load: Tracker, nextBranch: nat) {
    predicate Done() {
      volt.active == [] && load.active == []
    }
  }

  const NEW_ITERATION := IterationState(Tracker([], []), Tracker([], []), 0)

  function FreshBranches(first: nat, n: nat): (r: seq<nat>)
    ensures |r| == n
  {
    seq(n, i => first + i)
  }

  /** The source event that starts an iteration. */
  datatype Source =
    | Wallpower(volt: Change)
    | Button(key: Key, pressedOn: bool)
    | Snmp(key: Key, switchOn: bool)

  function VoltMessages(targets: seq<Key>, source: Key, volt: Change, first: nat): (r: seq<Message>)
    ensures |r| == |targets|
    ensures forall i :: 0 <= i < |r| ==> r[i] == InputVoltage(targets[i], source, volt, first + i)
  {
    seq(|targets|, i requires 0 <= i < |targets| => InputVoltage(targets[i], source, volt, first + i))
  }

  function LoadMessages(targets: seq<Key>, source: Key, load: Change, ups: bool, first: nat): (r: seq<Message>)
    ensures |r| == |targets|
    ensures forall i :: 0 <= i < |r| ==> r[i] == ChildLoad(targets[i], source, load, ups, first + i)
  {
    seq(|targets|, i requires 0 <= i < |targets| => ChildLoad(targets[i], source, load, ups, first + i))
  }

  /** The streamed updates that changed something, in the order they were set. */
  function ChangedStreams(s: seq<StreamedLoad>): (r: seq<StreamedLoad>) {
    if s == [] then []
    else if s[|s| - 1].load.Unchanged() then ChangedStreams(s[..|s| - 1])
    else ChangedStreams(s[..|s| - 1]) + [s[|s| - 1]]
  }

  function StreamMessages(s: seq<StreamedLoad>, source: Key, first: nat): (r: seq<Message>)
    ensures |r| == |s|
    ensures forall i :: 0 <= i < |r| ==> r[i] == ChildLoad(s[i].key, source, s[i].load, false, first + i)
  {
    seq(|s|, i requires 0 <= i < |s| => ChildLoad(s[i].key, source, s[i].load, false, first + i))
  }

  /** Load messages an asset's report sends to the parents. */
  function UpstreamMessages(t: T.Topology, e: AssetPowerEvent, first: nat): seq<Message>
    requires t.Has(e.asset)
  {
    if e.streamed != [] then StreamMessages(ChangedStreams(e.streamed), e.asset, first)
    else if e.LoadChanged() then LoadMessages(t.parents[e.asset], e.asset, e.load.value, false, first)
    else []
  }

  /** Voltage messages an asset's report sends to the children. A single child
      inherits the branch, several children get a branch each. */
  function DownstreamMessages(t: T.Topology, e: AssetPowerEvent, first: nat): seq<Message>
    requires t.Has(e.asset)
  {
    var kids := t.children[e.asset];
    if e.outVolt.Unchanged() then []
    else if |kids| > 1 then VoltMessages(kids, e.asset, e.outVolt, first)
    else VoltMessages(kids, e.asset, e.outVolt, e.branch)
  }

  /** The voltage branch ends at a fork, at a leaf and where the voltage did not change. */
  predicate EndsVoltBranch(t: T.Topology, e: AssetPowerEvent)
    requires t.Has(e.asset)
  {
    |t.children[e.asset]| != 1 || e.outVolt.Unchanged()
  }

  datatype Outcome = Outcome(iter: IterationState, volts: seq<Message>, loads: seq<Message>)

  /** The upstream half of _process_hardware_asset_event: a new branch for every load event. */
  function AfterLoadSide(it: IterationState, t: T.Topology, e: AssetPowerEvent): Outcome
    requires t.Has(e.asset)
  {
    var loads := UpstreamMessages(t, e, it.nextBranch);
    Outcome(
      it.(load := it.load.Extend(FreshBranches(it.nextBranch, |loads|)), nextBranch := it.nextBranch + |loads|),
      [], loads)
  }

  /** The downstream half: the event's branch ends, goes on to the only child, or forks. */
  function AfterVoltSide(it: IterationState, t: T.Topology, e: AssetPowerEvent): Outcome
    requires t.Has(e.asset) && e.branch in it.volt.active
  {
    var volts := DownstreamMessages(t, e, it.nextBranch);
    if !EndsVoltBranch(t, e) then Outcome(it, volts, [])
    else
      Outcome(
        it.(volt := it.volt.Complete(e.branch).Extend(FreshBranches(it.nextBranch, |volts|)),
            nextBranch := it.nextBranch + |volts|),
        volts, [])
  }

  /** _process_hardware_asset_event on an event that already has a branch. */
  function AfterAssetPower(it: IterationState, t: T.Topology, e: AssetPowerEvent): Outcome
    requires t.Has(e.asset) && e.branch in it.volt.active
  {
    var up := AfterLoadSide(it, t, e);
    var down := AfterVoltSide(up.iter, t, e);
    Outcome(down.iter, down.volts, up.loads)
  }

  /** process_load_event. With several parents the branch is replaced by one branch per
      parent, and the replaced branch stays in the active list. */
  function AfterAssetLoad(it: IterationState, t: T.Topology, e: AssetLoadEvent): Outcome
    requires t.Has(e.asset) && e.branch in it.load.active
  {
    var parents := t.parents[e.asset];
    if parents == [] then
      Outcome(it.(load := it.load.Complete(e.branch)), [], [])
    else if |parents| == 1 then
      Outcome(it, [], LoadMessages(parents, e.asset, e.load, e.upsOnBattery, e.branch))
    else
      Outcome(
        it.(load := it.load.Extend(FreshBranches(it.nextBranch, |parents|)),
            nextBranch := it.nextBranch + |parents|),
        [], LoadMessages(parents, e.asset, e.load, e.upsOnBattery, it.nextBranch))
  }

  /** Launching: wallpower, button and SNMP starts. */
  function AfterLaunch(t: T.Topology, src: Source): Outcome {
    match src
    case Wallpower(volt) =>
      Outcome(
        IterationState(Tracker(FreshBranches(0, |t.mains|), []), Tracker([], []), |t.mains|),
        VoltMessages(t.mains, 0, volt, 0), [])
    case Button(key, on) =>
      Outcome(IterationState(Tracker([0], []), Tracker([], []), 1), [PowerButton(key, on, 0)], [])
    case Snmp(key, on) =>
      Outcome(IterationState(Tracker([0], []), Tracker([], []), 1), [Signal(key, on, 0)], [])
  }

  // ----- The classes -----

  /** Branches in progress and branches completed. */
  class BranchTracker {
    var branchesActive: seq<nat>
    var branchesDone: seq<nat>

    constructor ()
      ensures View() == Tracker([], [])
    {
      branchesActive, branchesDone := [], [];
    }

    function View(): Tracker
      reads this
    {
      Tracker(branchesActive, branchesDone)
    }

    predicate Completed()
      reads this
    {
      |branchesActive| == 0
    }

    method CompleteBranch(b: nat)
      requires b in branchesActive
      modifies this
      ensures View() == old(View()).Complete(b)
    {
      branchesActive := RemoveFirst(branchesActive, b);
      branchesDone := branchesDone + [b];
    }

    method AddBranch(b: nat)
      modifies this
      ensures View() == old(View()).Extend([b])
    {
      branchesActive := branchesActive + [b];
    }

    method Extend(branches: seq<nat>)
      modifies this
      ensures View() == old(View()).Extend(branches)
    {
      branchesActive := branchesActive + branches;
    }
  }

  /** One iteration: two trackers and the number of the next branch. */
  class PowerIteration {
    const voltBranches: BranchTracker
    const loadBranches: BranchTracker
    const topology: T.Topology
    var nextBranch: nat

    ghost predicate Valid()
      reads this
    {
      voltBranches != loadBranches
    }

    ghost function Footprint(): set<object> {
      {this, voltBranches, loadBranches}
    }

    function View(): IterationState
      reads this, voltBranches, loadBranches
    {
      IterationState(voltBranches.View(), loadBranches.View(), nextBranch)
    }

    predicate IterationDone()
      reads this, voltBranches, loadBranches
      ensures IterationDone() <==> View().Done()
    {
      loadBranches.Completed() && voltBranches.Completed()
    }

    constructor (t: T.Topology)
      ensures Valid() && fresh(voltBranches) && fresh(loadBranches)
      ensures View() == NEW_ITERATION && topology == t
    {
      var v := new BranchTracker();
      var l := new BranchTracker();
      voltBranches, loadBranches, topology, nextBranch := v, l, t, 0;
    }

    /** process_power_event on the source event. */
    method Launch(src: Source) returns (volts: seq<Message>)
      requires Valid() && View() == NEW_ITERATION
      modifies Footprint()
      ensures Outcome(View(), volts, []) == AfterLaunch(topology, src)
    {
      match src {
        case Wallpower(volt) =>
          var outlets := topology.mains;
          voltBranches.Extend(FreshBranches(nextBranch, |outlets|));
          volts := VoltMessages(outlets, 0, volt, nextBranch);
          nextBranch := nextBranch + |outlets|;
        case Button(key, on) =>
          voltBranches.AddBranch(nextBranch);
          volts := [PowerButton(key, on, nextBranch)];
          nextBranch := nextBranch + 1;
        case Snmp(key, on) =>
          voltBranches.AddBranch(nextBranch);
          volts := [Signal(key, on, nextBranch)];
          nextBranch := nextBranch + 1;
      }
    }

    /** The loop over streamed_load_updates: an event for each update that changed something. */
    static method StreamedLoadEvents(e: AssetPowerEvent, first: nat) returns (loads: seq<Message>)
      ensures loads == StreamMessages(ChangedStreams(e.streamed), e.asset, first)
    {
      loads := [];
      for i := 0 to |e.streamed|
        invariant loads == StreamMessages(ChangedStreams(e.streamed[..i]), e.asset, first)
      {
        assert e.streamed[..i + 1][..i] == e.streamed[..i];
        var s := e.streamed[i];
        if !s.load.Unchanged() {
          loads := loads + [ChildLoad(s.key, e.asset, s.load, false, first + |loads|)];
        }
      }
      assert e.streamed[..|e.streamed|] == e.streamed;
    }

    /** The upstream half of _process_hardware_asset_event. */
    method StartLoadBranches(e: AssetPowerEvent) returns (loads: seq<Message>)
      requires Valid() && topology.Has(e.asset)
      modifies this`nextBranch, loadBranches
      ensures Outcome(View(), [], loads) == AfterLoadSide(old(View()), topology, e)
    {
      var parents := topology.parents[e.asset];
      loads := [];
      if e.streamed != [] {
        loads := StreamedLoadEvents(e, nextBranch);
      } else if parents != [] && e.LoadChanged() {
        loads := LoadMessages(parents, e.asset, e.load.value, false, nextBranch);
      }
      loadBranches.Extend(FreshBranches(nextBranch, |loads|));
      nextBranch := nextBranch + |loads|;
    }

    /** process_power_event on an asset's report. */
    method ProcessPowerEvent(e: AssetPowerEvent) returns (volts: seq<Message>, loads: seq<Message>)
      requires Valid() && topology.Has(e.asset) && e.branch in voltBranches.branchesActive
      modifies Footprint()
      ensures Outcome(View(), volts, loads) == AfterAssetPower(old(View()), topology, e)
    {
      loads := StartLoadBranches(e);
      var kids := topology.children[e.asset];
      if |kids| > 1 || kids == [] || e.outVolt.Unchanged() {
        voltBranches.CompleteBranch(e.branch);
      }
      if e.outVolt.Unchanged() {
        volts := [];
      } else if |kids| > 1 {
        volts := VoltMessages(kids, e.asset, e.outVolt, nextBranch);
        voltBranches.Extend(FreshBranches(nextBranch, |kids|));
        nextBranch := nextBranch + |kids|;
      } else {
        volts := VoltMessages(kids, e.asset, e.outVolt, e.branch);
      }
      assert voltBranches.branchesActive + FreshBranches(nextBranch, 0) == voltBranches.branchesActive;
    }

    /** process_load_event on an asset's report. */
    method ProcessLoadEvent(e: AssetLoadEvent) returns (loads: seq<Message>)
      requires Valid() && topology.Has(e.asset) && e.branch in loadBranches.branchesActive
      modifies Footprint()
      ensures Outcome(View(), [], loads) == AfterAssetLoad(old(View()), topology, e)
    {
      var parents := topology.parents[e.asset];
      if parents == [] {
        loadBranches.CompleteBranch(e.branch);
        return [];
      }
      loads := LoadMessages(parents, e.asset, e.load, e.upsOnBattery, e.branch);
      if |parents| > 1 {
        loads := LoadMessages(parents, e.asset, e.load, e.upsOnBattery, nextBranch);
        loadBranches.Extend(FreshBranches(nextBranch, |parents|));
        nextBranch := nextBranch + |parents|;
      }
    }
  }
}
