// What an asset's report sends: which load events leave for which sources, and what they leave there.

module Reports {
  import opened Events
  import opened Iteration
  import opened Server
  import opened ServerLoad
  import A = Assets
  import T = Topology

  // ----- Streamed updates -----

  predicate Changed(s: seq<StreamedLoad>, i: nat) {
    i < |s| && !s[i].load.Unchanged()
  }

  predicate Ascending(idx: seq<nat>) {
    forall j, k :: 0 <= j < k < |idx| ==> idx[j] < idx[k]
  }

  /** idx lists the updates that changed something, all of them and in order. */
  ghost predicate ListsChanged(idx: seq<nat>, s: seq<StreamedLoad>) {
    Ascending(idx) && forall i: nat :: Changed(s, i) <==> i in idx
  }

  /** The updates at the listed positions. */
  function Picked(s: seq<StreamedLoad>, idx: seq<nat>): (r: seq<StreamedLoad>)
    requires forall j :: 0 <= j < |idx| ==> idx[j] < |s|
    ensures |r| == |idx| && forall j :: 0 <= j < |r| ==> r[j] == s[idx[j]]
  {
    if idx == [] then [] else Picked(s, idx[..|idx| - 1]) + [s[idx[|idx| - 1]]]
  }

  lemma Listed(idx: seq<nat>, s: seq<StreamedLoad>)
    requires ListsChanged(idx, s)
    ensures forall j :: 0 <= j < |idx| ==> Changed(s, idx[j])
  {
    assert forall j :: 0 <= j < |idx| ==> idx[j] in idx;
  }

  lemma LastUpdate(s: seq<StreamedLoad>)
    requires s != []
    ensures var n := |s| - 1; ChangedStreams(s) == ChangedStreams(s[..n]) + if s[n].load.Unchanged() then [] else [s[n]]
  {
  }

  lemma OneMoreUpdate(idx: seq<nat>, s: seq<StreamedLoad>)
    requires s != [] && ListsChanged(idx, s[..|s| - 1])
    ensures ListsChanged(if Changed(s, |s| - 1) then idx + [|s| - 1] else idx, s)
  {
    var n := |s| - 1;
    Listed(idx, s[..n]);
    forall i: nat ensures Changed(s, i) <==> Changed(s[..n], i) || (i == n && Changed(s, n))
    {
    }
    hide Changed;
    assert forall i: nat :: i in idx + [n] <==> i in idx || i == n;
  }

  /** The positions of the updates that changed something. */
  function Positions(s: seq<StreamedLoad>): seq<nat> {
    if s == [] then []
    else
      var n := |s| - 1;
      if Changed(s, n) then Positions(s[..n]) + [n] else Positions(s[..n])
  }

  lemma {:induction false} PositionsListChanged(s: seq<StreamedLoad>)
    ensures ListsChanged(Positions(s), s)
  {
    if s != [] {
      PositionsListChanged(s[..|s| - 1]);
      OneMoreUpdate(Positions(s[..|s| - 1]), s);
      hide ListsChanged;
    }
  }

  lemma PickedFromPrefix(s: seq<StreamedLoad>, n: nat, idx: seq<nat>)
    requires n <= |s| && forall j :: 0 <= j < |idx| ==> idx[j] < n
    ensures Picked(s, idx) == Picked(s[..n], idx)
  {
    hide Picked;
    forall j | 0 <= j < |idx| ensures Picked(s, idx)[j] == Picked(s[..n], idx)[j]
    {
      assert s[..n][idx[j]] == s[idx[j]];
    }
  }

  lemma PickedMore(s: seq<StreamedLoad>, idx: seq<nat>, i: nat)
    requires i < |s| && forall j :: 0 <= j < |idx| ==> idx[j] < |s|
    ensures Picked(s, idx + [i]) == Picked(s, idx) + [s[i]]
  {
    assert (idx + [i])[..|idx|] == idx;
  }

  lemma {:induction false} PositionsInRange(s: seq<StreamedLoad>)
    ensures forall j :: 0 <= j < |Positions(s)| ==> Positions(s)[j] < |s|
  {
    if s != [] {
      PositionsInRange(s[..|s| - 1]);
    }
  }

  lemma LastPosition(s: seq<StreamedLoad>)
    requires s != []
    ensures var n := |s| - 1; Positions(s) == Positions(s[..n]) + if s[n].load.Unchanged() then [] else [n]
  {
  }

  lemma {:induction false} ChangedArePicked(s: seq<StreamedLoad>)
    requires forall j :: 0 <= j < |Positions(s)| ==> Positions(s)[j] < |s|
    ensures ChangedStreams(s) == Picked(s, Positions(s))
  {
    if s != [] {
      var n := |s| - 1;
      var before := Positions(s[..n]);
      PositionsInRange(s[..n]);
      LastUpdate(s);
      LastPosition(s);
      hide ChangedStreams, Picked, Positions;
      ChangedArePicked(s[..n]);
      PickedFromPrefix(s, n, before);
      if s[n].load.Unchanged() {
        assert Positions(s) == before;
      } else {
        assert Positions(s) == before + [n];
        PickedMore(s, before, n);
      }
    } else {
      assert Positions(s) == [];
    }
  }

  /** Every streamed update that changed something gets exactly one load event: to its key, with its
      change, in order, unmarked, on a branch of its own. Nothing else is sent. */
  ghost predicate SendsUpdates(q: seq<Message>, s: seq<StreamedLoad>, source: Key, first: nat, idx: seq<nat>) {
    && ListsChanged(idx, s) && |q| == |idx|
    && forall j :: 0 <= j < |q| ==> Changed(s, idx[j]) && q[j] == ChildLoad(s[idx[j]].key, source, s[idx[j]].load, false, first + j)
  }

  lemma StreamedUpdatesAreSent(t: T.Topology, it: IterationState, e: AssetPowerEvent) returns (idx: seq<nat>)
    requires t.Has(e.asset) && e.branch in it.volt.active && e.streamed != []
    ensures var o := AfterAssetPower(it, t, e);
            && SendsUpdates(o.loads, e.streamed, e.asset, it.nextBranch, idx)
            && o.iter.load.active == it.load.active + FreshBranches(it.nextBranch, |idx|)
  {
    idx := Positions(e.streamed);
    PositionsListChanged(e.streamed);
    PositionsInRange(e.streamed);
    Listed(idx, e.streamed);
    ChangedArePicked(e.streamed);
    hide ChangedStreams, ListsChanged, Positions, Changed;
  }

  /** Without streamed updates every source of the asset is told the change of its load, if any. */
  lemma LoadIsSent(t: T.Topology, it: IterationState, e: AssetPowerEvent)
    requires t.Has(e.asset) && e.branch in it.volt.active && e.streamed == []
    ensures var q := AfterAssetPower(it, t, e).loads;
            if e.load == None || e.load.value.before == e.load.value.after then q == []
            else
              |q| == |t.parents[e.asset]| && forall i :: 0 <= i < |q| ==>
                q[i] == ChildLoad(t.parents[e.asset][i], e.asset, e.load.value, false, it.nextBranch + i)
  {
  }

  // ----- Reports of a server -----

  /** The server's reaction as the report the iteration gets; keys are those of its supplies. */
  function ServerReport(server: Key, keys: seq<Key>, streamed: seq<Change>, branch: nat): (e: AssetPowerEvent)
    requires streamed == [] || |streamed| == |keys|
    ensures |e.streamed| == |streamed|
    ensures forall i :: 0 <= i < |streamed| ==> e.streamed[i] == StreamedLoad(keys[i], streamed[i])
  {
    AssetPowerEvent(server, Change(0.0, 0.0), None,
      seq(|streamed|, i requires 0 <= i < |streamed| => StreamedLoad(keys[i], streamed[i])), branch)
  }

  /** on_child_load_update of a supply. */
  function AfterSupplyLoad(p: Psu, load: Change): Psu {
    p.(load := Clamp(p.load + load.Difference()))
  }

  /** The supplies by key, once they have handled the load events of a queue. */
  function Handled(psus: map<Key, Psu>, q: seq<Message>): map<Key, Psu> {
    if q == [] then psus
    else
      var m := q[0];
      Handled(if m.ChildLoad? && m.target in psus then psus[m.target := AfterSupplyLoad(psus[m.target], m.load)] else psus, q[1..])
  }

  /** A supply no event is for. */
  lemma {:induction false} HandledElsewhere(psus: map<Key, Psu>, q: seq<Message>, k: Key)
    requires k in psus && forall j :: 0 <= j < |q| ==> q[j].target != k
    ensures k in Handled(psus, q) && Handled(psus, q)[k] == psus[k]
  {
    if q != [] {
      var m := q[0];
      HandledElsewhere(if m.ChildLoad? && m.target in psus then psus[m.target := AfterSupplyLoad(psus[m.target], m.load)] else psus, q[1..], k);
    }
  }

  /** A supply exactly one event is for. */
  lemma {:induction false} HandledOnce(psus: map<Key, Psu>, q: seq<Message>, j: nat)
    requires j < |q| && q[j].ChildLoad? && q[j].target in psus
    requires forall i :: 0 <= i < |q| && i != j ==> q[i].target != q[j].target
    ensures var k := q[j].target; k in Handled(psus, q) && Handled(psus, q)[k] == AfterSupplyLoad(psus[k], q[j].load)
  {
    var m := q[0];
    var next := if m.ChildLoad? && m.target in psus then psus[m.target := AfterSupplyLoad(psus[m.target], m.load)] else psus;
    if j == 0 {
      HandledElsewhere(next, q[1..], q[j].target);
    } else {
      HandledOnce(next, q[1..], j - 1);
    }
  }

  /** When the load events of a server's report are handled, every supply is left as the streamed
      updates say: this is what Deliver stands for. */
  lemma ReportIsDelivered(t: T.Topology, it: IterationState, server: Key, keys: seq<Key>, psus: map<Key, Psu>, s: seq<Psu>, streamed: seq<Change>, branch: nat, i: nat)
    requires t.Has(server) && branch in it.volt.active && Distinct(keys) && |keys| == |s| == |streamed| && i < |keys|
    requires forall j :: 0 <= j < |keys| ==> keys[j] in psus && psus[keys[j]] == s[j]
    ensures var r := Handled(psus, AfterAssetPower(it, t, ServerReport(server, keys, streamed, branch)).loads);
            keys[i] in r && r[keys[i]] == Deliver(s, streamed)[i]
  {
    var e := ServerReport(server, keys, streamed, branch);
    var idx := StreamedUpdatesAreSent(t, it, e);
    var q := AfterAssetPower(it, t, e).loads;
    hide AfterAssetPower, Handled, ServerReport;
    forall j | 0 <= j < |q| ensures q[j].target == keys[idx[j]] && q[j].ChildLoad? && q[j].load == streamed[idx[j]]
    {
      assert e.streamed[idx[j]] == StreamedLoad(keys[idx[j]], streamed[idx[j]]);
    }
    assert e.streamed[i] == StreamedLoad(keys[i], streamed[i]);
    if streamed[i].Unchanged() {
      assert forall j :: 0 <= j < |q| ==> idx[j] != i;
      HandledElsewhere(psus, q, keys[i]);
    } else {
      assert i in idx;
      var j :| 0 <= j < |idx| && idx[j] == i;
      assert forall l :: 0 <= l < |q| && l != j ==> idx[l] != i;
      HandledOnce(psus, q, j);
    }
  }

  // ----- Reports of load -----

  /** A load report goes up as it is: every source is told the change and whether a UPS on battery
      is below, and nobody else is told anything. */
  lemma LoadGoesUp(t: T.Topology, it: IterationState, e: AssetLoadEvent)
    requires t.Has(e.asset) && e.branch in it.load.active
    ensures var q := AfterAssetLoad(it, t, e).loads;
            && |q| == |t.parents[e.asset]|
            && (forall i :: 0 <= i < |q| ==>
                  && q[i].ChildLoad? && q[i].target == t.parents[e.asset][i] && q[i].source == e.asset
                  && q[i].load == e.load && q[i].upsOnBattery == e.upsOnBattery)
            && (|q| == 1 ==> q[0].branch == e.branch)
            && (|q| > 1 ==> forall i :: 0 <= i < |q| ==> q[i].branch == it.nextBranch + i)
  {
  }

  /** A change of an asset's output voltage goes down as it is: every asset it powers hears of it from
      this asset, once and in order, and nobody hears of anything else. */
  lemma VoltageGoesDown(t: T.Topology, it: IterationState, e: AssetPowerEvent)
    requires t.Has(e.asset) && e.branch in it.volt.active
    ensures var q, kids := AfterAssetPower(it, t, e).volts, t.children[e.asset];
            if e.outVolt.before == e.outVolt.after then q == []
            else
              && |q| == |kids|
              && (forall i :: 0 <= i < |q| ==>
                    q[i].InputVoltage? && q[i].target == kids[i] && q[i].source == e.asset && q[i].volt == e.outVolt)
              && (|q| == 1 ==> q[0].branch == e.branch)
  {
  }

  // ----- How far a load change climbs -----

  /** An asset on the way up and what it stores. */
  datatype Rung = Rung(config: A.Config, state: A.AssetState)

  /** The assets from the one above a child up to the wall, each handling what the one below reports. */
  function Climbed(path: seq<Rung>, load: Change, marked: bool): (r: seq<Rung>)
    ensures |r| == |path|
    decreases |path|
  {
    if path == [] then []
    else
      var x := A.AfterChildLoad(path[0].config, path[0].state, ChildLoad(0, 0, load, marked, 0));
      [path[0].(state := x.state)] + Climbed(path[1..], x.event.load, x.event.upsOnBattery)
  }

  predicate Stops(path: seq<Rung>, marked: bool, i: nat) {
    marked && exists j :: 0 <= j <= i < |path| && path[j].config.kind.Outlet?
  }

  /** A load change is added to every asset above; one marked by a UPS on battery gets no further than the
      PDUs below the next outlet, which is left as it is, like everything above it. */
  lemma {:induction false} ClimbExactly(path: seq<Rung>, load: Change, marked: bool)
    requires forall i :: 0 <= i < |path| ==> path[i].state.load + load.Difference() >= 0.0 && path[i].state.load >= 0.0
    ensures var r := Climbed(path, load, marked);
            forall i: nat :: i < |path| ==>
              r[i] == path[i].(state := path[i].state.(load := path[i].state.load + if Stops(path, marked, i) then 0.0 else load.Difference()))
    decreases |path|
  {
    if path != [] {
      var x := A.AfterChildLoad(path[0].config, path[0].state, ChildLoad(0, 0, load, marked, 0));
      assert x.event.upsOnBattery == marked;
      var ignored := marked && path[0].config.kind.Outlet?;
      assert x.event.load.Difference() == if ignored then 0.0 else load.Difference();
      ClimbExactly(path[1..], x.event.load, marked);
      forall i: nat | i < |path|
        ensures Climbed(path, load, marked)[i]
             == path[i].(state := path[i].state.(load := path[i].state.load + if Stops(path, marked, i) then 0.0 else load.Difference()))
      {
        if i > 0 {
          assert path[1..][i - 1] == path[i];
          StopsAbove(path, marked, i);
        } else {
          assert Stops(path, marked, 0) == ignored;
        }
      }
    }
  }

  lemma StopsAbove(path: seq<Rung>, marked: bool, i: nat)
    requires 0 < i < |path|
    ensures Stops(path, marked, i) <==> (marked && path[0].config.kind.Outlet?) || Stops(path[1..], marked, i - 1)
  {
    if Stops(path, marked, i) {
      var j :| 0 <= j <= i && path[j].config.kind.Outlet?;
      assert j > 0 ==> path[1..][j - 1].config.kind.Outlet?;
    }
    if Stops(path[1..], marked, i - 1) {
      var j :| 0 <= j <= i - 1 && path[1..][j].config.kind.Outlet?;
      assert path[j + 1].config.kind.Outlet?;
    }
  }
}
