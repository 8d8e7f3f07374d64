// The modeler and the engine together: iterations over every model that can be built.

module ModelledRuns {
  import opened Events
  import opened Iteration
  import opened Engine
  import opened SystemModeler
  import opened Termination
  import T = Topology

  /** Over every model built from nothing, whatever the hardware answers, process_load_event never
      takes its fork branch. */
  lemma LoadNeverForks(edits: seq<Edit>, t: T.Topology, hw: Hardware, src: Source, k: nat)
    requires AllFresh(EMPTY, edits) && Presents(t, Exec(EMPTY, edits))
    requires ValidHardware(t, hw) && ValidSource(t, src)
    ensures t.Valid() && Run(t, hw, src, k).forked == multiset{}
  {
    EveryModelIsWellShaped(EMPTY, edits);
    PresentedModelHasNoLoadFork(t, Exec(EMPTY, edits));
    NothingForked(t, hw, src, k);
  }

  /** And when no link closes a loop, every iteration ends, with each completion announced once. */
  lemma EveryIterationCompletes(edits: seq<Edit>, t: T.Topology, hw: Hardware, src: Source)
    requires AllFresh(EMPTY, edits) && NoLoopLinked(EMPTY, edits) && Presents(t, Exec(EMPTY, edits))
    requires ValidHardware(t, hw) && ValidSource(t, src)
    ensures t.Valid()
    ensures exists n: nat ::
      Run(t, hw, src, n).st == EngineState(None, [], [AllVoltageBranchesDone, AllLoadBranchesDone])
  {
    var g := Exec(EMPTY, edits);
    EveryModelIsWellShaped(EMPTY, edits);
    assert RankedBy(EMPTY, map[], 0);
    CarefulModelsAreLoopFree(EMPTY, edits);
    PresentedModelHasNoLoadFork(t, g);
    PresentedModelIsRanked(t, g);
    var rank: map<Key, nat>, top: nat :| t.Ranked(rank, top);
    IterationCompletes(t, rank, top, hw, src);
  }
}
