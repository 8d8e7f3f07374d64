// Every power iteration ends, on every acyclic topology and whatever the hardware answers.

module Termination {
  import opened Events
  import opened Iteration
  import opened Engine
  import opened Accounting
  import T = Topology

  // ----- The measure -----

  ghost predicate AllBelow(t: T.Topology, rank: map<Key, nat>, ks: seq<Key>, bound: nat) {
    forall i :: 0 <= i < |ks| ==> t.Has(ks[i]) && ks[i] in rank && rank[ks[i]] < bound
  }

  ghost predicate AllAbove(t: T.Topology, rank: map<Key, nat>, ks: seq<Key>, bound: nat) {
    forall i :: 0 <= i < |ks| ==> t.Has(ks[i]) && ks[i] in rank && bound < rank[ks[i]]
  }

  /** L(n) = 1 + the sum of L over the parents of n. */
  ghost function LoadWeight(t: T.Topology, rank: map<Key, nat>, top: nat, n: Key): nat
    requires t.Ranked(rank, top) && t.Has(n)
    decreases rank[n], 1, 0
  {
    1 + LoadWeights(t, rank, top, t.parents[n], rank[n])
  }

  ghost function LoadWeights(t: T.Topology, rank: map<Key, nat>, top: nat, ks: seq<Key>, bound: nat): nat
    requires t.Ranked(rank, top)
    requires AllBelow(t, rank, ks, bound)
    decreases bound, 0, |ks|
  {
    if ks == [] then 0
    else LoadWeight(t, rank, top, ks[0]) + LoadWeights(t, rank, top, ks[1..], bound)
  }

  /** V(n) = 1 + the sum of L over the parents of n + the sum of V over the children of n. */
  ghost function VoltWeight(t: T.Topology, rank: map<Key, nat>, top: nat, n: Key): nat
    requires t.Ranked(rank, top) && t.Has(n)
    decreases top - rank[n], 1, 0
  {
    LoadWeight(t, rank, top, n) + VoltWeights(t, rank, top, t.children[n], rank[n])
  }

  ghost function VoltWeights(t: T.Topology, rank: map<Key, nat>, top: nat, ks: seq<Key>, above: nat): nat
    requires t.Ranked(rank, top) && above <= top
    requires AllAbove(t, rank, ks, above)
    decreases top - above, 0, |ks|
  {
    if ks == [] then 0
    else VoltWeight(t, rank, top, ks[0]) + VoltWeights(t, rank, top, ks[1..], above)
  }

  ghost function MessageWeight(t: T.Topology, rank: map<Key, nat>, top: nat, m: Message): nat
    requires t.Ranked(rank, top) && t.Has(m.target)
  {
    if m.VoltageSide() then VoltWeight(t, rank, top, m.target) else LoadWeight(t, rank, top, m.target)
  }

  ghost function QueueWeight(t: T.Topology, rank: map<Key, nat>, top: nat, q: seq<Message>): nat
    requires t.Ranked(rank, top) && TargetsIn(t, q)
  {
    if q == [] then 0 else MessageWeight(t, rank, top, q[0]) + QueueWeight(t, rank, top, q[1..])
  }

  lemma {:induction false} QueueWeightAppend(t: T.Topology, rank: map<Key, nat>, top: nat, p: seq<Message>, q: seq<Message>)
    requires t.Ranked(rank, top) && TargetsIn(t, p) && TargetsIn(t, q)
    ensures TargetsIn(t, p + q)
    ensures QueueWeight(t, rank, top, p + q) == QueueWeight(t, rank, top, p) + QueueWeight(t, rank, top, q)
  {
    if p == [] {
      assert p + q == q;
    } else {
      assert (p + q)[1..] == p[1..] + q;
      QueueWeightAppend(t, rank, top, p[1..], q);
    }
  }

  // ----- What one answer adds to the queue -----

  /** A load message per entry of `ks` weighs what the entries weigh. */
  lemma {:induction false} LoadListWeight(t: T.Topology, rank: map<Key, nat>, top: nat, ks: seq<Key>, bound: nat, q: seq<Message>)
    requires t.Ranked(rank, top) && |q| == |ks|
    requires AllBelow(t, rank, ks, bound)
    requires forall i :: 0 <= i < |q| ==> q[i].ChildLoad? && q[i].target == ks[i]
    ensures TargetsIn(t, q)
    ensures QueueWeight(t, rank, top, q) == LoadWeights(t, rank, top, ks, bound)
  {
    if ks != [] {
      LoadListWeight(t, rank, top, ks[1..], bound, q[1..]);
    }
  }

  lemma {:induction false} VoltListWeight(t: T.Topology, rank: map<Key, nat>, top: nat, ks: seq<Key>, above: nat, q: seq<Message>)
    requires t.Ranked(rank, top) && above <= top && |q| == |ks|
    requires AllAbove(t, rank, ks, above)
    requires forall i :: 0 <= i < |q| ==> q[i].VoltageSide() && q[i].target == ks[i]
    ensures TargetsIn(t, q)
    ensures QueueWeight(t, rank, top, q) == VoltWeights(t, rank, top, ks, above)
  {
    if ks != [] {
      VoltListWeight(t, rank, top, ks[1..], above, q[1..]);
    }
  }

  /** Taking one entry out of a list of parents takes its weight out of the sum. */
  lemma {:induction false} LoadWeightsSplit(t: T.Topology, rank: map<Key, nat>, top: nat, ks: seq<Key>, j: nat, bound: nat)
    requires t.Ranked(rank, top) && j < |ks|
    requires AllBelow(t, rank, ks, bound)
    ensures AllBelow(t, rank, ks[..j] + ks[j + 1..], bound)
    ensures LoadWeights(t, rank, top, ks, bound)
         == LoadWeight(t, rank, top, ks[j]) + LoadWeights(t, rank, top, ks[..j] + ks[j + 1..], bound)
  {
    if j == 0 {
      assert ks[..0] + ks[1..] == ks[1..];
    } else {
      LoadWeightsSplit(t, rank, top, ks[1..], j - 1, bound);
      assert (ks[..j] + ks[j + 1..])[1..] == ks[1..][..j - 1] + ks[1..][j..];
    }
  }

  /** Streamed updates name different parents, so together they weigh no more than all parents. */
  lemma {:induction false} StreamsWeight(t: T.Topology, rank: map<Key, nat>, top: nat, s: seq<Key>, ks: seq<Key>, bound: nat)
    requires t.Ranked(rank, top) && Distinct(s)
    requires AllBelow(t, rank, ks, bound)
    requires forall i :: 0 <= i < |s| ==> s[i] in ks
    ensures AllBelow(t, rank, s, bound)
    ensures LoadWeights(t, rank, top, s, bound) <= LoadWeights(t, rank, top, ks, bound)
    decreases |s|
  {
    if s != [] {
      assert s[0] in ks;
      var j :| 0 <= j < |ks| && ks[j] == s[0];
      var rest := ks[..j] + ks[j + 1..];
      LoadWeightsSplit(t, rank, top, ks, j, bound);
      forall i | 0 <= i < |s[1..]| ensures s[1..][i] in rest
      {
        var k :| 0 <= k < |ks| && ks[k] == s[1..][i];
        assert s[1..][i] == s[i + 1] != s[0];
        assert k != j;
        assert rest[if k < j then k else k - 1] == ks[k];
      }
      StreamsWeight(t, rank, top, s[1..], rest, bound);
    }
  }

  lemma {:induction false} ChangedStreamsDistinct(s: seq<StreamedLoad>)
    requires Distinct(StreamKeys(s))
    ensures Distinct(StreamKeys(ChangedStreams(s)))
  {
    if s != [] {
      var init, last := s[..|s| - 1], s[|s| - 1];
      assert StreamKeys(init) == StreamKeys(s)[..|s| - 1];
      ChangedStreamsDistinct(init);
      var c := ChangedStreams(init);
      ChangedStreamsSubset(init);
      forall i | 0 <= i < |c| ensures c[i].key != last.key
      {
        assert c[i] in init;
        var j :| 0 <= j < |init| && init[j] == c[i];
        assert StreamKeys(s)[j] == c[i].key && StreamKeys(s)[|s| - 1] == last.key;
      }
      assert StreamKeys(c + [last]) == StreamKeys(c) + [last.key];
    }
  }

  lemma UpstreamWeight(t: T.Topology, rank: map<Key, nat>, top: nat, m: Message, e: AssetPowerEvent, first: nat)
    requires t.Ranked(rank, top) && t.Has(m.target) && m.VoltageSide() && ValidAnswer(t, m, PowerAnswer(e))
    ensures var q := UpstreamMessages(t, e, first);
            TargetsIn(t, q) && QueueWeight(t, rank, top, q) < LoadWeight(t, rank, top, e.asset)
  {
    var q := UpstreamMessages(t, e, first);
    var ps, bound := t.parents[e.asset], rank[e.asset];
    if e.streamed != [] {
      var c := ChangedStreams(e.streamed);
      ChangedStreamsDistinct(e.streamed);
      ChangedStreamsSubset(e.streamed);
      forall i | 0 <= i < |c| ensures c[i].key in ps
      {
        assert c[i] in e.streamed;
      }
      StreamsWeight(t, rank, top, StreamKeys(c), ps, bound);
      LoadListWeight(t, rank, top, StreamKeys(c), bound, q);
    } else if e.LoadChanged() {
      LoadListWeight(t, rank, top, ps, bound, q);
    }
  }

  lemma DownstreamWeight(t: T.Topology, rank: map<Key, nat>, top: nat, e: AssetPowerEvent, first: nat)
    requires t.Ranked(rank, top) && t.Has(e.asset)
    ensures var q := DownstreamMessages(t, e, first);
            TargetsIn(t, q) && QueueWeight(t, rank, top, q) <= VoltWeights(t, rank, top, t.children[e.asset], rank[e.asset])
  {
    if !e.outVolt.Unchanged() {
      VoltListWeight(t, rank, top, t.children[e.asset], rank[e.asset], DownstreamMessages(t, e, first));
    }
  }

  /** Handling one event strictly lowers the total weight of the events in flight. */
  lemma StepDescends(t: T.Topology, rank: map<Key, nat>, top: nat, st: EngineState, a: Answer)
    requires t.Ranked(rank, top) && TargetsIn(t, st.queue) && HeadTracked(t, st) && ValidAnswer(t, st.queue[0], a)
    ensures TargetsIn(t, Step(t, st, a).queue)
    ensures QueueWeight(t, rank, top, Step(t, st, a).queue) < QueueWeight(t, rank, top, st.queue)
  {
    var it, m, rest := st.current.value, st.queue[0], st.queue[1..];
    match a
    case PowerAnswer(e) =>
      var up := AfterLoadSide(it, t, e);
      var down := AfterVoltSide(up.iter, t, e);
      UpstreamWeight(t, rank, top, m, e, it.nextBranch);
      DownstreamWeight(t, rank, top, e, up.iter.nextBranch);
      QueueWeightAppend(t, rank, top, rest, down.volts);
      QueueWeightAppend(t, rank, top, rest + down.volts, up.loads);
    case LoadAnswer(e) =>
      var o := AfterAssetLoad(it, t, e);
      LoadListWeight(t, rank, top, if o.loads == [] then [] else t.parents[e.asset], rank[e.asset], o.loads);
      QueueWeightAppend(t, rank, top, rest, o.loads);
  }

  // ----- Runs -----

  /** The hardware: whatever it answers at its i-th event, as long as the answer is about
      the asset and the branch of that event. */
  type Hardware = (nat, Message) -> Answer

  ghost predicate ValidHardware(t: T.Topology, hw: Hardware) {
    forall i: nat, m: Message :: ValidAnswer(t, m, hw(i, m))
  }

  ghost predicate ValidSource(t: T.Topology, src: Source) {
    src.Wallpower? || t.Has(src.key)
  }

  /** A state of a run and the branches of the load events forked on the way to it. */
  datatype RunState = RunState(st: EngineState, forked: multiset<nat>)

  /** The run after k events, or after its last event when it has fewer. */
  ghost function Run(t: T.Topology, hw: Hardware, src: Source, k: nat): (r: RunState)
    requires t.Valid() && ValidHardware(t, hw) && ValidSource(t, src)
    ensures Accounted(t, r.st, r.forked)
  {
    if k == 0 then
      LaunchAccounted(t, src);
      RunState(Launched(t, src), multiset{})
    else
      var r := Run(t, hw, src, k - 1);
      if r.st.queue == [] then r
      else
        var m := r.st.queue[0];
        var a := hw(k - 1, m);
        HeadIsTracked(t, r.st, r.forked);
        StepAccounted(t, r.st, r.forked, a);
        RunState(Step(t, r.st, a), r.forked + ForkedBy(t, m))
  }

  /** The number of events an iteration can take, known when it is launched. */
  ghost function Budget(t: T.Topology, rank: map<Key, nat>, top: nat, src: Source): nat
    requires t.Ranked(rank, top) && ValidSource(t, src)
  {
    LaunchAccounted(t, src);
    QueueWeight(t, rank, top, Launched(t, src).queue)
  }

  lemma WeightPositive(t: T.Topology, rank: map<Key, nat>, top: nat, q: seq<Message>)
    requires t.Ranked(rank, top) && TargetsIn(t, q)
    ensures q == [] <==> QueueWeight(t, rank, top, q) == 0
  {
  }

  /** The weight still in flight after k events. */
  ghost function Remaining(t: T.Topology, rank: map<Key, nat>, top: nat, hw: Hardware, src: Source, k: nat): nat
    requires t.Ranked(rank, top) && ValidHardware(t, hw) && ValidSource(t, src)
  {
    QueueWeight(t, rank, top, Run(t, hw, src, k).st.queue)
  }

  lemma RemainingDescends(t: T.Topology, rank: map<Key, nat>, top: nat, hw: Hardware, src: Source, k: nat)
    requires t.Ranked(rank, top) && ValidHardware(t, hw) && ValidSource(t, src)
    ensures var w := Remaining(t, rank, top, hw, src, k);
            if w == 0 then Remaining(t, rank, top, hw, src, k + 1) == 0 else Remaining(t, rank, top, hw, src, k + 1) < w
  {
    var r := Run(t, hw, src, k);
    WeightPositive(t, rank, top, r.st.queue);
    if r.st.queue != [] {
      HeadIsTracked(t, r.st, r.forked);
      StepDescends(t, rank, top, r.st, hw(k, r.st.queue[0]));
    }
  }

  lemma RemainingAtLaunch(t: T.Topology, rank: map<Key, nat>, top: nat, hw: Hardware, src: Source)
    requires t.Ranked(rank, top) && ValidHardware(t, hw) && ValidSource(t, src)
    ensures Remaining(t, rank, top, hw, src, 0) == Budget(t, rank, top, src)
  {
  }

  lemma {:induction false} RemainingBound(t: T.Topology, rank: map<Key, nat>, top: nat, hw: Hardware, src: Source, k: nat, budget: nat)
    requires t.Ranked(rank, top) && ValidHardware(t, hw) && ValidSource(t, src)
    requires budget == Remaining(t, rank, top, hw, src, 0)
    ensures var w := Remaining(t, rank, top, hw, src, k); w == 0 || w + k <= budget
  {
    hide *;
    if k > 0 {
      RemainingBound(t, rank, top, hw, src, k - 1, budget);
      RemainingDescends(t, rank, top, hw, src, k - 1);
    }
  }

  /** Termination: after Budget events at the latest nothing is in flight. */
  lemma IterationTerminates(t: T.Topology, rank: map<Key, nat>, top: nat, hw: Hardware, src: Source)
    requires t.Ranked(rank, top) && ValidHardware(t, hw) && ValidSource(t, src)
    ensures Run(t, hw, src, Budget(t, rank, top, src)).st.queue == []
  {
    var n := Budget(t, rank, top, src);
    RemainingAtLaunch(t, rank, top, hw, src);
    RemainingBound(t, rank, top, hw, src, n, n);
    WeightPositive(t, rank, top, Run(t, hw, src, n).st.queue);
  }

  /** Completion, exactly. When its events are exhausted an iteration has announced both
      completions, once each and in order, and has released the queue of iterations, if and
      only if no load event was handled by an asset with several parents. Otherwise the
      forked branches stay active for good, and the load side is never announced. */
  lemma CompletionExactly(t: T.Topology, hw: Hardware, src: Source, k: nat)
    requires t.Valid() && ValidHardware(t, hw) && ValidSource(t, src)
    requires Run(t, hw, src, k).st.queue == []
    ensures var r := Run(t, hw, src, k);
            && (r.st.current.None? <==> r.forked == multiset{})
            && (r.st.current.None? <==> r.st.notices == [AllVoltageBranchesDone, AllLoadBranchesDone])
            && (r.st.current.Some? ==>
                  r.st.notices == [AllVoltageBranchesDone] && multiset(r.st.current.value.load.active) == r.forked)
  {
  }

  /** Load messages only reach assets that power something, so without such assets having
      several parents nothing is ever forked. */
  ghost predicate LoadsReachPowering(t: T.Topology, q: seq<Message>) {
    forall i :: 0 <= i < |q| && q[i].ChildLoad? ==>
      exists c :: c in t.parents && q[i].target in t.parents[c]
  }

  lemma StepReachesPowering(t: T.Topology, st: EngineState, a: Answer)
    requires t.Valid() && HeadTracked(t, st) && ValidAnswer(t, st.queue[0], a) && LoadsReachPowering(t, st.queue)
    ensures LoadsReachPowering(t, Step(t, st, a).queue)
  {
    var it := st.current.value;
    if a.PowerAnswer? {
      var e := a.power;
      ChangedStreamsSubset(e.streamed);
      var q := UpstreamMessages(t, e, it.nextBranch);
      forall i | 0 <= i < |q| ensures q[i].target in t.parents[e.asset]
      {
        if e.streamed != [] {
          assert ChangedStreams(e.streamed)[i] in e.streamed;
        }
      }
    }
  }

  lemma HeadNotForked(t: T.Topology, q: seq<Message>)
    requires t.Valid() && t.NoLoadFork() && LoadsReachPowering(t, q) && q != []
    ensures ForkedBy(t, q[0]) == multiset{}
  {
  }

  ghost predicate Unforked(t: T.Topology, r: RunState) {
    r.forked == multiset{} && LoadsReachPowering(t, r.st.queue)
  }

  lemma StaysUnforked(t: T.Topology, hw: Hardware, src: Source, k: nat)
    requires t.Valid() && ValidHardware(t, hw) && ValidSource(t, src) && t.NoLoadFork()
    requires Unforked(t, Run(t, hw, src, k))
    ensures Unforked(t, Run(t, hw, src, k + 1))
  {
    var r := Run(t, hw, src, k);
    if r.st.queue != [] {
      HeadIsTracked(t, r.st, r.forked);
      HeadNotForked(t, r.st.queue);
      StepReachesPowering(t, r.st, hw(k, r.st.queue[0]));
    }
  }

  lemma UnforkedAtLaunch(t: T.Topology, hw: Hardware, src: Source)
    requires t.Valid() && ValidHardware(t, hw) && ValidSource(t, src)
    ensures Unforked(t, Run(t, hw, src, 0))
  {
  }

  lemma {:induction false} NothingForked(t: T.Topology, hw: Hardware, src: Source, k: nat)
    requires t.Valid() && ValidHardware(t, hw) && ValidSource(t, src) && t.NoLoadFork()
    ensures Unforked(t, Run(t, hw, src, k))
  {
    hide *;
    if k == 0 {
      UnforkedAtLaunch(t, hw, src);
    } else {
      NothingForked(t, hw, src, k - 1);
      StaysUnforked(t, hw, src, k - 1);
    }
  }

  /** On an acyclic topology without load forks every iteration ends within its budget, having
      announced each completion exactly once and released the queue of iterations. */
  lemma IterationCompletes(t: T.Topology, rank: map<Key, nat>, top: nat, hw: Hardware, src: Source)
    requires t.Ranked(rank, top) && t.NoLoadFork() && ValidHardware(t, hw) && ValidSource(t, src)
    ensures Run(t, hw, src, Budget(t, rank, top, src)).st
         == EngineState(None, [], [AllVoltageBranchesDone, AllLoadBranchesDone])
  {
    var n := Budget(t, rank, top, src);
    IterationTerminates(t, rank, top, hw, src);
    NothingForked(t, hw, src, n);
    CompletionExactly(t, hw, src, n);
  }
}
