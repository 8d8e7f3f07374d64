// Branch accounting over every run of one power iteration, on every topology and
// whatever the hardware answers.

module Accounting {
  import opened Events
  import opened Iteration
  import opened Engine
  import T = Topology

  /** Branches carried by the in-flight events of one side, with multiplicity. */
  ghost function InFlight(q: seq<Message>, voltSide: bool): multiset<nat> {
    if q == [] then multiset{}
    else (if q[0].VoltageSide() == voltSide then multiset{q[0].branch} else multiset{}) + InFlight(q[1..], voltSide)
  }

  /** A load event whose target has several parents: process_load_event forks it. */
  predicate ForksLoad(t: T.Topology, m: Message) {
    m.ChildLoad? && t.Has(m.target) && |t.parents[m.target]| > 1
  }

  ghost function ForkedBy(t: T.Topology, m: Message): multiset<nat> {
    if ForksLoad(t, m) then multiset{m.branch} else multiset{}
  }

  ghost predicate TargetsIn(t: T.Topology, q: seq<Message>) {
    forall i :: 0 <= i < |q| ==> t.Has(q[i].target)
  }

  /** Branches without repetition, all numbered below the next one. */
  ghost predicate Numbered(active: seq<nat>, nextBranch: nat) {
    Distinct(active) && forall i :: 0 <= i < |active| ==> active[i] < nextBranch
  }

  /** A tracker's active branches correspond one to one to the given in-flight ones. */
  ghost predicate Balanced(active: seq<nat>, inFlight: multiset<nat>, nextBranch: nat) {
    multiset(active) == inFlight && Numbered(active, nextBranch)
  }

  /** The accounting invariant. `forked` holds the branches of the load events forked so far. */
  ghost predicate Accounted(t: T.Topology, st: EngineState, forked: multiset<nat>) {
    && TargetsIn(t, st.queue)
    && match st.current
       case None =>
         st.queue == [] && forked == multiset{} && st.notices == [AllVoltageBranchesDone, AllLoadBranchesDone]
       case Some(it) =>
         && Balanced(it.volt.active, InFlight(st.queue, true), it.nextBranch)
         && Balanced(it.load.active, InFlight(st.queue, false) + forked, it.nextBranch)
         && !it.Done()
         && st.notices == if it.volt.active == [] then [AllVoltageBranchesDone] else []
  }

  // ----- Facts about message lists -----

  lemma {:induction false} InFlightAppend(p: seq<Message>, q: seq<Message>, v: bool)
    ensures InFlight(p + q, v) == InFlight(p, v) + InFlight(q, v)
  {
    if p == [] {
      assert p + q == q;
    } else {
      assert (p + q)[1..] == p[1..] + q;
      InFlightAppend(p[1..], q, v);
    }
  }

  /** A list of one side's messages on consecutive branches carries exactly those branches. */
  lemma {:induction false} InFlightFresh(q: seq<Message>, v: bool, first: nat)
    requires forall i :: 0 <= i < |q| ==> q[i].VoltageSide() == v && q[i].branch == first + i
    ensures InFlight(q, v) == multiset(FreshBranches(first, |q|))
    ensures InFlight(q, !v) == multiset{}
  {
    if q == [] {
      assert FreshBranches(first, 0) == [];
    } else {
      InFlightFresh(q[1..], v, first + 1);
      assert FreshBranches(first, |q|) == [first] + FreshBranches(first + 1, |q| - 1);
    }
  }

  lemma ExtendBalanced(active: seq<nat>, inFlight: multiset<nat>, next: nat, n: nat)
    requires Balanced(active, inFlight, next)
    ensures Balanced(active + FreshBranches(next, n), inFlight + multiset(FreshBranches(next, n)), next + n)
  {
  }

  lemma CompleteBalanced(active: seq<nat>, b: nat, inFlight: multiset<nat>, next: nat)
    requires b in active && Balanced(active, multiset{b} + inFlight, next)
    ensures Balanced(RemoveFirst(active, b), inFlight, next)
  {
    RemoveFirstMultiset(active, b);
    assert multiset{b} + inFlight - multiset{b} == inFlight;
  }

  lemma UpstreamInFlight(t: T.Topology, e: AssetPowerEvent, first: nat)
    requires t.Has(e.asset)
    ensures var q := UpstreamMessages(t, e, first);
            InFlight(q, false) == multiset(FreshBranches(first, |q|)) && InFlight(q, true) == multiset{}
  {
    InFlightFresh(UpstreamMessages(t, e, first), false, first);
  }

  lemma DownstreamInFlight(t: T.Topology, e: AssetPowerEvent, first: nat)
    requires t.Has(e.asset)
    ensures var q := DownstreamMessages(t, e, first);
            && InFlight(q, false) == multiset{}
            && InFlight(q, true) == if EndsVoltBranch(t, e) then multiset(FreshBranches(first, |q|)) else multiset{e.branch}
  {
    var q := DownstreamMessages(t, e, first);
    if EndsVoltBranch(t, e) {
      InFlightFresh(q, true, first);
    } else {
      InFlightFresh(q, true, e.branch);
      assert FreshBranches(e.branch, 1) == [e.branch];
    }
  }

  lemma {:induction false} ChangedStreamsSubset(s: seq<StreamedLoad>)
    ensures forall x :: x in ChangedStreams(s) ==> x in s
  {
    if s != [] {
      ChangedStreamsSubset(s[..|s| - 1]);
    }
  }

  lemma TargetsKnown(t: T.Topology, e: AssetPowerEvent, m: Message, first: nat)
    requires t.Valid() && t.Has(m.target) && m.VoltageSide() && ValidAnswer(t, m, PowerAnswer(e))
    ensures TargetsIn(t, UpstreamMessages(t, e, first)) && TargetsIn(t, DownstreamMessages(t, e, first))
  {
    ChangedStreamsSubset(e.streamed);
    var q := UpstreamMessages(t, e, first);
    forall i | 0 <= i < |q| ensures t.Has(q[i].target)
    {
      if e.streamed != [] {
        assert ChangedStreams(e.streamed)[i] in e.streamed;
      }
    }
  }

  lemma QueueInFlight(rest: seq<Message>, volts: seq<Message>, loads: seq<Message>, v: bool)
    ensures InFlight(rest + volts + loads, v) == InFlight(rest, v) + InFlight(volts, v) + InFlight(loads, v)
  {
    InFlightAppend(rest + volts, loads, v);
    InFlightAppend(rest, volts, v);
  }

  // ----- One step -----

  /** The head's branch is active, so complete_branch is never asked to remove an absent branch. */
  lemma HeadIsTracked(t: T.Topology, st: EngineState, forked: multiset<nat>)
    requires Accounted(t, st, forked) && st.queue != []
    ensures HeadTracked(t, st)
  {
    var m := st.queue[0];
    var it := st.current.value;
    assert m.branch in InFlight(st.queue, m.VoltageSide());
    if m.VoltageSide() {
      assert m.branch in multiset(it.volt.active);
    } else {
      assert m.branch in multiset(it.load.active);
    }
  }

  ghost predicate BothBalanced(o: Outcome, q: seq<Message>, forked: multiset<nat>) {
    && Balanced(o.iter.volt.active, InFlight(q, true), o.iter.nextBranch)
    && Balanced(o.iter.load.active, InFlight(q, false) + forked, o.iter.nextBranch)
  }

  /** Chaining a balanced outcome keeps the invariant: the notices are sent exactly when a
      side runs dry, and nothing is left in the queue once both are dry. */
  lemma ChainPowerAccounted(t: T.Topology, st: EngineState, o: Outcome, q: seq<Message>, forked: multiset<nat>)
    requires q == st.queue + o.volts + o.loads && TargetsIn(t, q) && BothBalanced(o, q, forked)
    requires st.notices == []
    ensures Accounted(t, ChainPower(st, o), forked)
  {
  }

  lemma ChainLoadAccounted(t: T.Topology, st: EngineState, o: Outcome, q: seq<Message>, forked: multiset<nat>)
    requires q == st.queue + o.loads && TargetsIn(t, q) && BothBalanced(o, q, forked)
    requires st.notices == if o.iter.volt.active == [] then [AllVoltageBranchesDone] else []
    ensures Accounted(t, ChainLoad(st, o), forked)
  {
  }

  lemma LaunchAccounted(t: T.Topology, src: Source)
    requires t.Valid()
    requires src.Wallpower? || t.Has(src.key)
    ensures Accounted(t, Launched(t, src), multiset{})
  {
    var o := AfterLaunch(t, src);
    var q := [] + o.volts + o.loads;
    assert q == o.volts;
    LaunchBalanced(t, src);
    ChainPowerAccounted(t, EngineState(None, [], []), o, q, multiset{});
  }

  lemma LaunchedQueue(t: T.Topology, src: Source)
    ensures Launched(t, src).queue == AfterLaunch(t, src).volts
  {
  }

  lemma LaunchBalanced(t: T.Topology, src: Source)
    ensures BothBalanced(AfterLaunch(t, src), AfterLaunch(t, src).volts, multiset{})
  {
    var o := AfterLaunch(t, src);
    InFlightFresh(o.volts, true, 0);
    assert FreshBranches(0, 1) == [0];
    assert o.iter.volt.active == FreshBranches(0, |o.volts|);
  }

  lemma LoadSideBalanced(t: T.Topology, it: IterationState, e: AssetPowerEvent, inFlight: multiset<nat>)
    requires t.Has(e.asset) && Balanced(it.load.active, inFlight, it.nextBranch)
    ensures var up := AfterLoadSide(it, t, e);
            && InFlight(up.loads, true) == multiset{}
            && Balanced(up.iter.load.active, inFlight + InFlight(up.loads, false), up.iter.nextBranch)
            && up.iter.volt == it.volt && it.nextBranch <= up.iter.nextBranch
  {
    hide Balanced;
    var up := AfterLoadSide(it, t, e);
    UpstreamInFlight(t, e, it.nextBranch);
    ExtendBalanced(it.load.active, inFlight, it.nextBranch, |up.loads|);
  }

  lemma VoltSideBalanced(t: T.Topology, it: IterationState, e: AssetPowerEvent, inFlight: multiset<nat>)
    requires t.Has(e.asset) && e.branch in it.volt.active
    requires Balanced(it.volt.active, multiset{e.branch} + inFlight, it.nextBranch)
    ensures var down := AfterVoltSide(it, t, e);
            && InFlight(down.volts, false) == multiset{}
            && Balanced(down.iter.volt.active, inFlight + InFlight(down.volts, true), down.iter.nextBranch)
            && down.iter.load == it.load && it.nextBranch <= down.iter.nextBranch
  {
    hide Balanced, RemoveFirst, FreshBranches, InFlight;
    var down := AfterVoltSide(it, t, e);
    DownstreamInFlight(t, e, it.nextBranch);
    if EndsVoltBranch(t, e) {
      CompleteBalanced(it.volt.active, e.branch, inFlight, it.nextBranch);
      ExtendBalanced(RemoveFirst(it.volt.active, e.branch), inFlight, it.nextBranch, |down.volts|);
    } else {
      Commute(multiset{e.branch}, inFlight);
    }
  }

  lemma Commute(a: multiset<nat>, b: multiset<nat>)
    ensures a + b == b + a
  {
  }

  lemma PowerStepBalanced(t: T.Topology, it: IterationState, rest: seq<Message>, e: AssetPowerEvent, forked: multiset<nat>)
    requires t.Has(e.asset) && e.branch in it.volt.active
    requires Balanced(it.volt.active, multiset{e.branch} + InFlight(rest, true), it.nextBranch)
    requires Balanced(it.load.active, InFlight(rest, false) + forked, it.nextBranch)
    ensures var o := AfterAssetPower(it, t, e); BothBalanced(o, rest + o.volts + o.loads, forked)
  {
    var up := AfterLoadSide(it, t, e);
    var down := AfterVoltSide(up.iter, t, e);
    LoadSideBalanced(t, it, e, InFlight(rest, false) + forked);
    VoltSideBalanced(t, up.iter, e, InFlight(rest, true));
    QueueInFlight(rest, down.volts, up.loads, true);
    QueueInFlight(rest, down.volts, up.loads, false);
    assert InFlight(rest, false) + forked + InFlight(up.loads, false)
        == InFlight(rest + down.volts + up.loads, false) + forked;
    assert InFlight(rest, true) + InFlight(down.volts, true) == InFlight(rest + down.volts + up.loads, true);
  }

  lemma PowerStepAccounted(t: T.Topology, st: EngineState, forked: multiset<nat>, e: AssetPowerEvent)
    requires t.Valid() && Accounted(t, st, forked) && HeadTracked(t, st)
    requires st.queue[0].VoltageSide() && ValidAnswer(t, st.queue[0], PowerAnswer(e))
    ensures Accounted(t, Step(t, st, PowerAnswer(e)), forked)
  {
    var it, rest := st.current.value, st.queue[1..];
    var o := AfterAssetPower(it, t, e);
    PowerStepBalanced(t, it, rest, e, forked);
    TargetsKnown(t, e, st.queue[0], it.nextBranch);
    TargetsKnown(t, e, st.queue[0], AfterLoadSide(it, t, e).iter.nextBranch);
    ChainPowerAccounted(t, st.(queue := rest), o, rest + o.volts + o.loads, forked);
  }

  lemma {:induction false} NoVoltsInFlight(q: seq<Message>)
    requires forall i :: 0 <= i < |q| ==> q[i].ChildLoad?
    ensures InFlight(q, true) == multiset{}
  {
    if q != [] {
      NoVoltsInFlight(q[1..]);
    }
  }

  lemma LoadStepVolts(t: T.Topology, it: IterationState, rest: seq<Message>, e: AssetLoadEvent)
    requires t.Has(e.asset) && e.branch in it.load.active
    ensures InFlight(rest + AfterAssetLoad(it, t, e).loads, true) == InFlight(rest, true)
  {
    var o := AfterAssetLoad(it, t, e);
    hide RemoveFirst;
    InFlightAppend(rest, o.loads, true);
    NoVoltsInFlight(o.loads);
    assert InFlight(rest, true) + multiset{} == InFlight(rest, true);
  }

  /** The voltage side of a load step: no new event, no branch touched. */
  lemma LoadStepKeepsVolt(t: T.Topology, it: IterationState, rest: seq<Message>, e: AssetLoadEvent)
    requires t.Has(e.asset) && e.branch in it.load.active
    requires Balanced(it.volt.active, InFlight(rest, true), it.nextBranch)
    ensures var o := AfterAssetLoad(it, t, e);
            o.iter.volt == it.volt && Balanced(it.volt.active, InFlight(rest + o.loads, true), o.iter.nextBranch)
  {
    hide InFlight, RemoveFirst;
    LoadStepVolts(t, it, rest, e);
  }

  lemma LoadStepBalanced(t: T.Topology, it: IterationState, e: AssetLoadEvent, inFlight: multiset<nat>)
    requires t.Has(e.asset) && e.branch in it.load.active
    requires Balanced(it.load.active, multiset{e.branch} + inFlight, it.nextBranch)
    ensures var o := AfterAssetLoad(it, t, e);
            var forked := if |t.parents[e.asset]| > 1 then multiset{e.branch} else multiset{};
            Balanced(o.iter.load.active, inFlight + forked + InFlight(o.loads, false), o.iter.nextBranch)
  {
    hide Balanced, RemoveFirst;
    var o := AfterAssetLoad(it, t, e);
    var parents := t.parents[e.asset];
    assert inFlight + multiset{} == inFlight && multiset{e.branch} + inFlight == inFlight + multiset{e.branch};
    if parents == [] {
      CompleteBalanced(it.load.active, e.branch, inFlight, it.nextBranch);
    } else if |parents| == 1 {
      InFlightFresh(o.loads, false, e.branch);
      assert multiset(FreshBranches(e.branch, 1)) == multiset{e.branch};
    } else {
      InFlightFresh(o.loads, false, it.nextBranch);
      ExtendBalanced(it.load.active, inFlight + multiset{e.branch}, it.nextBranch, |parents|);
    }
  }

  lemma LoadHead(q: seq<Message>)
    requires q != [] && q[0].ChildLoad?
    ensures InFlight(q, true) == InFlight(q[1..], true)
    ensures InFlight(q, false) == multiset{q[0].branch} + InFlight(q[1..], false)
  {
  }

  lemma Regroup(a: multiset<nat>, b: multiset<nat>, c: multiset<nat>, d: multiset<nat>)
    ensures a + b + c + d == (a + d) + (b + c) && (a + b) + c == a + (b + c)
  {
  }

  lemma LoadStepAccounted(t: T.Topology, st: EngineState, forked: multiset<nat>, e: AssetLoadEvent)
    requires t.Valid() && Accounted(t, st, forked) && HeadTracked(t, st)
    requires st.queue[0].ChildLoad? && ValidAnswer(t, st.queue[0], LoadAnswer(e))
    ensures Accounted(t, Step(t, st, LoadAnswer(e)), forked + ForkedBy(t, st.queue[0]))
  {
    hide Balanced, InFlight;
    var it, m, rest := st.current.value, st.queue[0], st.queue[1..];
    var o := AfterAssetLoad(it, t, e);
    LoadHead(st.queue);
    Regroup(multiset{e.branch}, InFlight(rest, false), forked, multiset{});
    LoadStepKeepsVolt(t, it, rest, e);
    LoadStepBalanced(t, it, e, InFlight(rest, false) + forked);
    InFlightAppend(rest, o.loads, false);
    Regroup(InFlight(rest, false), forked, ForkedBy(t, m), InFlight(o.loads, false));
    ChainLoadAccounted(t, st.(queue := rest), o, rest + o.loads, forked + ForkedBy(t, m));
  }

  lemma StepAccounted(t: T.Topology, st: EngineState, forked: multiset<nat>, a: Answer)
    requires t.Valid() && Accounted(t, st, forked) && HeadTracked(t, st) && ValidAnswer(t, st.queue[0], a)
    ensures Accounted(t, Step(t, st, a), forked + ForkedBy(t, st.queue[0]))
  {
    match a
    case PowerAnswer(e) =>
      PowerStepAccounted(t, st, forked, e);
      assert forked + multiset{} == forked;
    case LoadAnswer(e) =>
      LoadStepAccounted(t, st, forked, e);
  }
}
