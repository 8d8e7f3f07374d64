// Which topologies let a load event fork, and with it which ones let every iteration complete.

module LoadForks {
  import opened Events
  import opened Iteration
  import opened Engine
  import opened Accounting
  import opened Termination
  import T = Topology

  // ----- Runs that have ended -----

  lemma OneMoreEvent(t: T.Topology, hw: Hardware, src: Source, k: nat)
    requires t.Valid() && ValidHardware(t, hw) && ValidSource(t, src)
    ensures var r := Run(t, hw, src, k);
            if r.st.queue == [] then Run(t, hw, src, k + 1) == r
            else Run(t, hw, src, k + 1).forked == r.forked + ForkedBy(t, r.st.queue[0])
  {
    hide Accounted, Step, ForkedBy;
  }

  /** Forked branches are never taken back, and a run whose queue is empty has ended. */
  lemma {:induction false} ForkedGrows(t: T.Topology, hw: Hardware, src: Source, k: nat, n: nat)
    requires t.Valid() && ValidHardware(t, hw) && ValidSource(t, src) && k <= n
    ensures Run(t, hw, src, k).forked <= Run(t, hw, src, n).forked
    ensures Run(t, hw, src, k).st.queue == [] ==> Run(t, hw, src, n) == Run(t, hw, src, k)
    decreases n - k
  {
    hide *;
    if k < n {
      ForkedGrows(t, hw, src, k, n - 1);
      OneMoreEvent(t, hw, src, n - 1);
    }
  }

  // ----- A topology that forks -----

  /** Assets that keep their voltage and load, except that n asks its source p for one ampere. */
  function AnswerOf(n: Key, p: Key, m: Message): Answer {
    if m.VoltageSide() then
      var streamed := if m.target == n then [StreamedLoad(p, Change(0.0, 1.0))] else [];
      PowerAnswer(AssetPowerEvent(m.target, Change(0.0, 0.0), None, streamed, m.branch))
    else LoadAnswer(AssetLoadEvent(m.target, Change(0.0, 0.0), false, m.branch))
  }

  /** The load event n sends when it is switched on. */
  lemma AnswerSendsLoad(t: T.Topology, n: Key, p: Key)
    requires t.Valid() && t.Has(n)
    ensures var e := AnswerOf(n, p, PowerButton(n, true, 0)).power;
            UpstreamMessages(t, e, 1) == [ChildLoad(p, n, Change(0.0, 1.0), false, 1)] && DownstreamMessages(t, e, 2) == []
  {
    var e := AnswerOf(n, p, PowerButton(n, true, 0)).power;
    assert e.streamed[..0] == [];
    assert ChangedStreams(e.streamed) == e.streamed;
  }

  lemma AnswersAreValid(t: T.Topology, n: Key, p: Key, hw: Hardware)
    requires t.Valid() && t.Has(n) && p in t.parents[n]
    requires forall i: nat, m: Message :: hw(i, m) == AnswerOf(n, p, m)
    ensures ValidHardware(t, hw)
  {
  }

  lemma QueueAfterAnswer(t: T.Topology, n: Key, p: Key, hw: Hardware)
    requires t.Valid() && t.Has(n) && ValidHardware(t, hw)
    requires forall i: nat, m: Message :: hw(i, m) == AnswerOf(n, p, m)
    ensures Run(t, hw, Button(n, true), 1).st.queue == [ChildLoad(p, n, Change(0.0, 1.0), false, 1)]
  {
    hide ValidHardware, DownstreamMessages, UpstreamMessages, Accounted;
    var src, m := Button(n, true), PowerButton(n, true, 0);
    LaunchedQueue(t, src);
    var st := Run(t, hw, src, 0).st;
    assert st.queue == [m] && st.current.value.nextBranch == 1 && st.current.value.volt.active == [0];
    AnswerSendsLoad(t, n, p);
    assert FreshBranches(1, 1) == [1];
  }

  /** Switching on an asset whose source has several sources itself can fork a load event. */
  lemma ForkIsReached(t: T.Topology, n: Key, p: Key, hw: Hardware)
    requires t.Valid() && t.Has(n) && t.Has(p) && p in t.parents[n] && |t.parents[p]| > 1
    requires forall i: nat, m: Message :: hw(i, m) == AnswerOf(n, p, m)
    ensures ValidHardware(t, hw) && Run(t, hw, Button(n, true), 2).forked != multiset{}
  {
    AnswersAreValid(t, n, p, hw);
    QueueAfterAnswer(t, n, p, hw);
    OneMoreEvent(t, hw, Button(n, true), 1);
    hide Run, ValidHardware, AnswerOf;
  }

  lemma SomeHardwareForks(t: T.Topology) returns (hw: Hardware, src: Source)
    requires t.Valid() && !t.NoLoadFork()
    ensures ValidHardware(t, hw) && ValidSource(t, src) && Run(t, hw, src, 2).forked != multiset{}
  {
    var n, i :| n in t.parents && 0 <= i < |t.parents[n]| && t.Has(t.parents[n][i]) && |t.parents[t.parents[n][i]]| > 1;
    var p := t.parents[n][i];
    hw, src := (i, m) => AnswerOf(n, p, m), Button(n, true);
    ForkIsReached(t, n, p, hw);
  }

  /** No run of any hardware from any source forks a load event. */
  ghost predicate NeverForks(t: T.Topology)
    requires t.Valid()
  {
    forall hw: Hardware, src: Source, k: nat :: ValidHardware(t, hw) && ValidSource(t, src) ==>
      Run(t, hw, src, k).forked == multiset{}
  }

  /** Load events never fork exactly when every asset that powers something has at most one source,
      which can be looked up before an iteration is launched. */
  lemma NeverForksExactly(t: T.Topology)
    requires t.Valid()
    ensures NeverForks(t) <==> t.NoLoadFork()
  {
    if t.NoLoadFork() {
      forall hw: Hardware, src: Source, k: nat | ValidHardware(t, hw) && ValidSource(t, src)
        ensures Run(t, hw, src, k).forked == multiset{}
      {
        NothingForked(t, hw, src, k);
      }
    } else {
      var hw, src := SomeHardwareForks(t);
    }
  }

  /** Every iteration ends within its budget, having announced each completion exactly once and
      released the queue of iterations. */
  ghost predicate AlwaysCompletes(t: T.Topology, rank: map<Key, nat>, top: nat)
    requires t.Ranked(rank, top)
  {
    forall hw: Hardware, src: Source :: ValidHardware(t, hw) && ValidSource(t, src) ==>
      Run(t, hw, src, Budget(t, rank, top, src)).st == EngineState(None, [], [AllVoltageBranchesDone, AllLoadBranchesDone])
  }

  /** On an acyclic topology every iteration completes exactly under the same condition. */
  lemma AlwaysCompletesExactly(t: T.Topology, rank: map<Key, nat>, top: nat)
    requires t.Ranked(rank, top)
    ensures AlwaysCompletes(t, rank, top) <==> t.NoLoadFork()
  {
    hide Accounted, Run, Budget, ValidHardware;
    if t.NoLoadFork() {
      forall hw: Hardware, src: Source | ValidHardware(t, hw) && ValidSource(t, src)
        ensures Run(t, hw, src, Budget(t, rank, top, src)).st
             == EngineState(None, [], [AllVoltageBranchesDone, AllLoadBranchesDone])
      {
        IterationCompletes(t, rank, top, hw, src);
      }
    } else {
      var hw, src := SomeHardwareForks(t);
      ForkStaysIncomplete(t, rank, top, hw, src);
    }
  }

  /** An iteration that has forked never completes. */
  lemma ForkStaysIncomplete(t: T.Topology, rank: map<Key, nat>, top: nat, hw: Hardware, src: Source)
    requires t.Ranked(rank, top) && ValidHardware(t, hw) && ValidSource(t, src)
    requires Run(t, hw, src, 2).forked != multiset{}
    ensures Run(t, hw, src, Budget(t, rank, top, src)).st.current.Some?
  {
    hide Accounted;
    var n := Budget(t, rank, top, src);
    IterationTerminates(t, rank, top, hw, src);
    CompletionExactly(t, hw, src, n);
    if n < 2 {
      ForkedGrows(t, hw, src, n, 2);
    } else {
      ForkedGrows(t, hw, src, 2, n);
    }
  }
}
