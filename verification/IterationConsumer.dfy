// EngineIterationConsumer: a worker thread that is meant to run one iteration at a time, in
// order, and the engine thread that queues iterations and reports them done.

module IterationConsumer {
  import opened Events

  type Iter = nat

  /** Where the worker is in its loop: blocked on the done flag, blocked on the queue, holding a
      dequeued iteration, running the launch callback (and, when the iteration has no branch at
      all, completing it from there), or about to clear the flag. */
  datatype Worker = Waiting | Getting | Holding(next: Iter) | InCallback | CallbackReset | Clearing

  /** What the engine thread is in the middle of: nothing, _complete_task after it reset the
      current iteration, or queue_iteration after it looked at the current iteration. */
  datatype EngineThread = Free | Completing | Queueing(sawNone: bool)

  /** `queued` and `launched` are the histories of both ends. */
  datatype State = State(
    queue: seq<Iter>, doneFlag: bool, current: Option<Iter>,
    worker: Worker, engine: EngineThread,
    queued: seq<Iter>, launched: seq<Iter>)

  /** After start(): the worker runs and the flag is set. */
  const STARTED := State([], true, None, Waiting, Free, [], [])

  /** One step of either thread. Queue is queue_iteration in one go; Put and Signal are its two
      halves. Reset and Release are the two halves of _complete_task on the engine thread,
      CallbackResets and CallbackReleases the same inside the worker's callback. */
  datatype Action =
    | Queue(iter: Iter) | Put(iter: Iter) | SignalQueued
    | Reset | Release
    | Wait | Get | Begin | CallbackResets | CallbackReleases | CallbackEnds | Clear

  predicate Enabled(s: State, a: Action) {
    match a
    case Queue(_) => s.engine.Free?
    case Put(_) => s.engine.Free?
    case SignalQueued => s.engine.Queueing?
    case Reset => s.engine.Free? && s.current.Some?
    case Release => s.engine.Completing?
    case Wait => s.worker.Waiting? && s.doneFlag
    case Get => s.worker.Getting? && s.queue != []
    case Begin => s.worker.Holding? && s.current.None?
    case CallbackResets => s.worker.InCallback? && s.current.Some?
    case CallbackReleases => s.worker.CallbackReset?
    case CallbackEnds => s.worker.InCallback?
    case Clear => s.worker.Clearing?
  }

  function Apply(s: State, a: Action): State
    requires Enabled(s, a)
  {
    match a
    case Queue(i) => s.(queue := s.queue + [i], queued := s.queued + [i], doneFlag := s.doneFlag || s.current.None?)
    case Put(i) => s.(queue := s.queue + [i], queued := s.queued + [i], engine := Queueing(s.current.None?))
    case SignalQueued => s.(doneFlag := s.doneFlag || s.engine.sawNone, engine := Free)
    case Reset => s.(current := None, engine := Completing)
    case Release => s.(doneFlag := true, engine := Free)
    case Wait => s.(worker := Getting)
    case Get => s.(worker := Holding(s.queue[0]), queue := s.queue[1..])
    case Begin => s.(current := Some(s.worker.next), launched := s.launched + [s.worker.next], worker := InCallback)
    case CallbackResets => s.(current := None, worker := CallbackReset)
    case CallbackReleases => s.(doneFlag := true, worker := Clearing)
    case CallbackEnds => s.(worker := Clearing)
    case Clear => s.(doneFlag := false, worker := Waiting)
  }

  function Next(s: State, a: Action): State {
    if Enabled(s, a) then Apply(s, a) else s
  }

  /** A run: the actions of both threads in the order they happen after start(). */
  datatype Run = Started | After(before: Run, action: Action)

  /** The state a run leads to; an action that is not enabled when its turn comes has no effect. */
  function Exec(r: Run): State {
    match r
    case Started => STARTED
    case After(before, a) => Next(Exec(before), a)
  }

  /** queue_iteration is never interrupted between its look at the current iteration and the flag. */
  predicate AtomicQueueing(r: Run) {
    r.After? ==> !r.action.Put? && !r.action.SignalQueued? && AtomicQueueing(r.before)
  }

  // ----- One iteration at a time, in order -----

  function Held(w: Worker): seq<Iter> {
    if w.Holding? then [w.next] else []
  }

  ghost predicate Ordered(s: State) {
    s.queued == s.launched + Held(s.worker) + s.queue
  }

  ghost predicate OneAtATime(s: State) {
    && (s.worker.Getting? || s.worker.Holding? || s.worker.CallbackReset? ==> s.current.None? && !s.engine.Completing?)
    && (s.worker.Waiting? && s.doneFlag ==> s.current.None? && !s.engine.Completing?)
    && (s.engine.Completing? ==> s.current.None?)
  }

  /** queue_iteration looked when no iteration was current and sets the flag now that one is, with
      the worker already waiting for its end. */
  predicate LateSignal(s: State, a: Action) {
    a.SignalQueued? && s.engine.Queueing? && s.engine.sawNone && s.worker.Waiting? && s.current.Some?
  }

  lemma StepKeepsOrder(s: State, a: Action)
    requires Ordered(s) && Enabled(s, a)
    ensures Ordered(Apply(s, a))
  {
  }

  /** A step of either thread keeps iterations one at a time exactly unless it is a late signal. */
  lemma StepKeepsOneAtATime(s: State, a: Action)
    requires OneAtATime(s) && Enabled(s, a)
    ensures OneAtATime(Apply(s, a)) <==> !LateSignal(s, a)
  {
  }

  predicate NoLateSignal(r: Run) {
    r.After? ==>
      && !(Enabled(Exec(r.before), r.action) && LateSignal(Exec(r.before), r.action))
      && NoLateSignal(r.before)
  }

  lemma {:induction false} RunKeeps(r: Run)
    ensures Ordered(Exec(r))
    ensures NoLateSignal(r) ==> OneAtATime(Exec(r))
  {
    if r.After? {
      var s := Exec(r.before);
      RunKeeps(r.before);
      if Enabled(s, r.action) {
        StepKeepsOrder(s, r.action);
        if NoLateSignal(r) {
          StepKeepsOneAtATime(s, r.action);
        }
      }
    }
  }

  /** The worker's `assert self._current_iteration is None` holds after every run without a late
      signal, so one iteration is current at a time; and after every run at all iterations are
      launched in the order they were queued. */
  lemma WorkerAssertionHolds(r: Run)
    ensures var s := Exec(r);
            && (NoLateSignal(r) && s.worker.Holding? ==> s.current.None?)
            && s.launched <= s.queued
  {
    RunKeeps(r);
    var s := Exec(r);
    assert s.queued == s.launched + (Held(s.worker) + s.queue);
  }

  /** A queue_iteration that is never interrupted sends no late signal. */
  lemma {:induction false} AtomicQueueingSendsNone(r: Run)
    requires AtomicQueueing(r)
    ensures NoLateSignal(r) && !Exec(r).engine.Queueing?
  {
    if r.After? {
      AtomicQueueingSendsNone(r.before);
    }
  }

  lemma Leads(r: Run, s: State, a: Action)
    requires Exec(r) == s
    ensures Exec(After(r, a)) == Next(s, a)
  {
  }

  /** After a late signal the assertion fails as soon as the worker takes another iteration. */
  lemma LateSignalBreaksTheAssertion(r: Run, i: Iter)
    requires Enabled(Exec(r), SignalQueued) && LateSignal(Exec(r), SignalQueued)
    ensures var s := Exec(After(After(After(After(r, SignalQueued), Queue(i)), Wait), Get));
            s.worker.Holding? && s.current.Some?
  {
    var s := Exec(r);
    hide Exec;
    var r1, s1 := After(r, SignalQueued), Next(s, SignalQueued);
    Leads(r, s, SignalQueued);
    var r2, s2 := After(r1, Queue(i)), Next(s1, Queue(i));
    Leads(r1, s1, Queue(i));
    var r3, s3 := After(r2, Wait), Next(s2, Wait);
    Leads(r2, s2, Wait);
    Leads(r3, s3, Get);
  }

  /** Such runs exist: the worker launches 1 between the two halves of queue_iteration(1),
      the late signal then lets it take 2 while 1 is still current. */
  lemma InterruptedQueueingBreaksTheAssertion() returns (r: Run)
    ensures Exec(r).worker == Holding(2) && Exec(r).current == Some(1)
  {
    var s := STARTED;
    r := Started;
    assert Exec(r) == s;
    hide Exec;
    Leads(r, s, Put(1));
    r, s := After(r, Put(1)), State([1], true, None, Waiting, Queueing(true), [1], []);
    assert Exec(r) == s;
    Leads(r, s, Wait);
    r, s := After(r, Wait), State([1], true, None, Getting, Queueing(true), [1], []);
    assert Exec(r) == s;
    Leads(r, s, Get);
    r, s := After(r, Get), State([], true, None, Holding(1), Queueing(true), [1], []);
    assert Exec(r) == s;
    Leads(r, s, Begin);
    r, s := After(r, Begin), State([], true, Some(1), InCallback, Queueing(true), [1], [1]);
    assert Exec(r) == s;
    Leads(r, s, CallbackEnds);
    r, s := After(r, CallbackEnds), State([], true, Some(1), Clearing, Queueing(true), [1], [1]);
    assert Exec(r) == s;
    Leads(r, s, Clear);
    r, s := After(r, Clear), State([], false, Some(1), Waiting, Queueing(true), [1], [1]);
    assert Exec(r) == s;
    Leads(r, s, SignalQueued);
    r, s := After(r, SignalQueued), State([], true, Some(1), Waiting, Free, [1], [1]);
    assert Exec(r) == s;
    Leads(r, s, Queue(2));
    r, s := After(r, Queue(2)), State([2], true, Some(1), Waiting, Free, [1, 2], [1]);
    assert Exec(r) == s;
    Leads(r, s, Wait);
    r, s := After(r, Wait), State([2], true, Some(1), Getting, Free, [1, 2], [1]);
    assert Exec(r) == s;
    Leads(r, s, Get);
    r := After(r, Get);
  }

  // ----- No iteration left behind -----

  /** The worker waits on a cleared flag and neither thread is going to set it, although
      iterations are queued: they wait until somebody queues another one. */
  predicate Stranded(s: State) {
    s.worker.Waiting? && !s.doneFlag && s.current.None? && s.engine.Free? && s.queue != []
  }

  /** The waiting worker will be released: by the current iteration, by its completion under way,
      or by a queue_iteration under way. */
  predicate ReleaseUnderWay(s: State) {
    s.current.Some? || s.engine.Completing? || (s.engine.Queueing? && s.engine.sawNone)
  }

  /** Clearing the flag after the iteration was already reported done. */
  predicate LateClear(s: State, a: Action) {
    a.Clear? && !ReleaseUnderWay(s)
  }

  predicate WillBeReleased(s: State) {
    s.worker.Waiting? && !s.doneFlag ==> ReleaseUnderWay(s)
  }

  /** A step of either thread, interrupted or not, leaves the waiting worker without anyone to
      release it exactly when it is a late clear. */
  lemma OnlyLateClearLosesTheSignal(s: State, a: Action)
    requires WillBeReleased(s) && Enabled(s, a)
    ensures WillBeReleased(Apply(s, a)) <==> !LateClear(s, a)
  {
  }

  /** Completion always follows the clear: the run takes no late clear. */
  predicate CompletesAfterClear(r: Run) {
    r.After? ==>
      && !(Enabled(Exec(r.before), r.action) && LateClear(Exec(r.before), r.action))
      && CompletesAfterClear(r.before)
  }

  lemma {:induction false} SignalKept(r: Run)
    requires CompletesAfterClear(r)
    ensures WillBeReleased(Exec(r))
  {
    if r.After? {
      SignalKept(r.before);
      if Enabled(Exec(r.before), r.action) {
        OnlyLateClearLosesTheSignal(Exec(r.before), r.action);
      }
    }
  }

  /** When completion always follows the clear, no queued iteration is ever stranded, even if
      queue_iteration is interrupted. */
  lemma NeverStranded(r: Run)
    requires CompletesAfterClear(r)
    ensures !Stranded(Exec(r))
  {
    SignalKept(r);
  }

  /** The halves of queue_iteration, taken together, are the whole. */
  lemma HalvesMakeTheWhole(s: State, i: Iter)
    requires s.engine.Free?
    ensures Apply(Apply(s, Put(i)), SignalQueued) == Apply(s, Queue(i))
  {
  }

  /** Whichever thread completes an iteration: none is current afterwards, and the flag is set. */
  lemma CompletesAlike(s: State, t: State)
    requires s.engine.Free? && s.current.Some? && t == s.(worker := InCallback)
    ensures var a, b := Apply(Apply(s, Reset), Release), Apply(Apply(t, CallbackResets), CallbackReleases);
            a.current.None? && a.doneFlag && a == b.(worker := a.worker)
  {
  }

  /** Whoever queues another iteration rescues those left behind: the worker goes on with the oldest. */
  lemma QueueingRescues(s: State, i: Iter)
    requires Stranded(s)
    ensures var t := Apply(s, Queue(i));
            Enabled(t, Wait) && Enabled(Apply(t, Wait), Get) && Apply(Apply(t, Wait), Get).worker == Holding(s.queue[0])
  {
  }

  /** A run that has launched its first iteration. */
  lemma FirstLaunch() returns (r: Run)
    ensures AtomicQueueing(r) && Exec(r) == State([], true, Some(1), InCallback, Free, [1], [1])
  {
    var s := STARTED;
    r := Started;
    assert Exec(r) == s;
    hide Exec;
    Leads(r, s, Queue(1));
    r, s := After(r, Queue(1)), State([1], true, None, Waiting, Free, [1], []);
    assert Exec(r) == s;
    Leads(r, s, Wait);
    r, s := After(r, Wait), State([1], true, None, Getting, Free, [1], []);
    assert Exec(r) == s;
    Leads(r, s, Get);
    r, s := After(r, Get), State([], true, None, Holding(1), Free, [1], []);
    assert Exec(r) == s;
    Leads(r, s, Begin);
    r := After(r, Begin);
  }

  /** An iteration without branches completes in the callback, before the clear; an iteration
      queued meanwhile is then left behind the cleared flag. */
  lemma EarlyCompletionStrands() returns (r: Run)
    ensures AtomicQueueing(r) && Stranded(Exec(r))
  {
    r := FirstLaunch();
    var s := State([], true, Some(1), InCallback, Free, [1], [1]);
    hide Exec;
    Leads(r, s, Queue(2));
    r, s := After(r, Queue(2)), State([2], true, Some(1), InCallback, Free, [1, 2], [1]);
    assert Exec(r) == s;
    Leads(r, s, CallbackResets);
    r, s := After(r, CallbackResets), State([2], true, None, CallbackReset, Free, [1, 2], [1]);
    assert Exec(r) == s && AtomicQueueing(r);
    Leads(r, s, CallbackReleases);
    r, s := After(r, CallbackReleases), State([2], true, None, Clearing, Free, [1, 2], [1]);
    assert Exec(r) == s;
    Leads(r, s, Clear);
    r, s := After(r, Clear), State([2], false, None, Waiting, Free, [1, 2], [1]);
    assert Exec(r) == s;
  }

  // ----- The class -----

  class EngineIterationConsumer {
    var eventQueue: seq<Iter>
    var iterationDone: bool
    var currentIteration: Option<Iter>
    var worker: Worker
    ghost var engine: EngineThread
    ghost var queued: seq<Iter>
    ghost var launched: seq<Iter>

    ghost function View(): State
      reads this
    {
      State(eventQueue, iterationDone, currentIteration, worker, engine, queued, launched)
    }

    constructor ()
      ensures View() == STARTED
    {
      eventQueue, iterationDone, currentIteration, worker := [], true, None, Waiting;
      engine, queued, launched := Free, [], [];
    }

    method QueueIteration(iter: Iter)
      requires engine == Free
      modifies this
      ensures View() == Apply(old(View()), Queue(iter))
    {
      eventQueue := eventQueue + [iter];
      queued := queued + [iter];
      if currentIteration.None? {
        iterationDone := true;
      }
    }

    /** _complete_task on the engine thread, uninterrupted. */
    method CompleteTask()
      requires engine == Free && currentIteration.Some?
      modifies this
      ensures View() == Apply(Apply(old(View()), Reset), Release)
    {
      currentIteration := None;
      iterationDone := true;
    }

    /** The worker's loop body up to the launch, when neither the flag nor the queue blocks it. */
    method TakeNext() returns (next: Iter)
      requires worker == Waiting && iterationDone && eventQueue != []
      requires OneAtATime(View())
      modifies this
      ensures View() == Apply(Apply(Apply(old(View()), Wait), Get), Begin)
      ensures currentIteration == Some(next)
    {
      next := eventQueue[0];
      eventQueue := eventQueue[1..];
      assert currentIteration.None?;
      currentIteration := Some(next);
      launched := launched + [next];
      worker := InCallback;
    }

    method EndLaunch()
      requires worker == InCallback
      modifies this
      ensures View() == Apply(Apply(old(View()), CallbackEnds), Clear)
    {
      iterationDone := false;
      worker := Waiting;
    }
  }
}
