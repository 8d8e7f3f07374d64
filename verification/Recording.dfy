// The recorder of actions: recording, replaying, and the slices of history it works on.

module Recording {
  import opened Events

  // ----- Recorded work -----

  /** A recordable method: its name, whether its class is one the recorder listens to, and what its
      body does to the recorder. */
  datatype Work = Work(name: nat, listened: bool, body: Body)

  /** A body calls other recordable methods, sets the recorder's status, and ends. */
  datatype Body =
    | End
    | Calls(work: Work, at: int, rest: Body)
    | Toggles(enable: bool, rest: Body)

  datatype Action = Action(work: Work, time: int)

  datatype State = State(actions: seq<Action>, enabled: bool, replaying: bool) {
    /** The enabled setter has no effect during a replay. */
    function SetEnabled(value: bool): State {
      if replaying then this else this.(enabled := value)
    }

    /** What the wrapper does before it calls the method. */
    function Recorded(w: Work, at: int): State {
      if w.listened && enabled then this.(actions := actions + [Action(w, at)]) else this
    }
  }

  // ----- Specification -----

  /** The recorder after a body. */
  function AfterBody(s: State, b: Body): State
    decreases b
  {
    match b
    case End => s
    case Calls(w, at, rest) => AfterBody(AfterBody(s.Recorded(w, at), w.body), rest)
    case Toggles(enable, rest) => AfterBody(s.SetEnabled(enable), rest)
  }

  /** The methods a body executes, in order. */
  function Executed(b: Body): seq<nat> {
    match b
    case End => []
    case Calls(w, _, rest) => [w.name] + Executed(w.body) + Executed(rest)
    case Toggles(_, rest) => Executed(rest)
  }

  /** Python's slice bounds: negative ones count from the end, and both are clipped. */
  function Bound(b: Option<int>, default: nat, n: nat): (i: nat)
    requires default <= n
    ensures i <= n
  {
    match b
    case None => default
    case Some(k) =>
      if k < 0 then (if k + n < 0 then 0 else k + n)
      else if k > n then n else k
  }

  datatype Slice = Slice(start: Option<int>, end: Option<int>)

  function Sliced<T>(a: seq<T>, slc: Slice): seq<T> {
    var i := Bound(slc.start, 0, |a|);
    var j := Bound(slc.end, |a|, |a|);
    if i <= j then a[i..j] else []
  }

  /** The recorder after the works of a list of actions were run. */
  function AfterActions(s: State, actions: seq<Action>): State
    decreases |actions|
  {
    if actions == [] then s else AfterActions(AfterBody(s, actions[0].work.body), actions[1..])
  }

  function ExecutedActions(actions: seq<Action>): seq<nat>
    decreases |actions|
  {
    if actions == [] then []
    else [actions[0].work.name] + Executed(actions[0].work.body) + ExecutedActions(actions[1..])
  }

  /** replay_range: recording is off and the status is locked while the slice is run. */
  function AfterReplay(s: State, slc: Slice): State {
    var run := AfterActions(s.SetEnabled(false).(replaying := true), Sliced(s.actions, slc));
    run.(replaying := false).SetEnabled(s.enabled)
  }

  lemma ActionsStep(s: State, actions: seq<Action>)
    requires actions != []
    ensures AfterActions(s, actions) == AfterActions(AfterBody(s, actions[0].work.body), actions[1..])
    ensures ExecutedActions(actions)
         == [actions[0].work.name] + Executed(actions[0].work.body) + ExecutedActions(actions[1..])
  {
  }

  // ----- The recorder -----

  class Recorder {
    var actions: seq<Action>
    var enabled: bool
    var replaying: bool
    ghost var trace: seq<nat>

    function View(): State
      reads this
    {
      State(actions, enabled, replaying)
    }

    constructor ()
      ensures View() == State([], true, false) && trace == []
    {
      actions, enabled, replaying, trace := [], true, false, [];
    }

    method SetEnabled(value: bool)
      modifies this`enabled
      ensures View() == old(View()).SetEnabled(value)
    {
      if !replaying {
        enabled := value;
      }
    }

    /** The decorated method: record the call, then make it. */
    method Call(w: Work, at: int)
      modifies this
      ensures View() == AfterBody(old(View()).Recorded(w, at), w.body)
      ensures trace == old(trace) + [w.name] + Executed(w.body)
      decreases w, 1
    {
      if w.listened && enabled {
        actions := actions + [Action(w, at)];
      }
      Run(w);
    }

    /** The method itself. */
    method Run(w: Work)
      modifies this
      ensures View() == AfterBody(old(View()), w.body)
      ensures trace == old(trace) + [w.name] + Executed(w.body)
      decreases w, 0
    {
      trace := trace + [w.name];
      RunBody(w.body);
    }

    method RunBody(b: Body)
      modifies this
      ensures View() == AfterBody(old(View()), b)
      ensures trace == old(trace) + Executed(b)
      decreases b
    {
      match b
      case End =>
      case Calls(w, at, rest) =>
        Call(w, at);
        RunBody(rest);
      case Toggles(enable, rest) =>
        SetEnabled(enable);
        RunBody(rest);
    }

    method ReplayRange(slc: Slice)
      modifies this
      ensures View() == AfterReplay(old(View()), slc)
      ensures trace == old(trace) + ExecutedActions(Sliced(old(actions), slc))
    {
      var before := enabled;
      SetEnabled(false);
      replaying := true;
      var chosen := Sliced(actions, slc);
      ghost var s := View();
      ghost var t := trace;
      for i := 0 to |chosen|
        invariant AfterActions(s, chosen) == AfterActions(View(), chosen[i..])
        invariant t + ExecutedActions(chosen) == trace + ExecutedActions(chosen[i..])
      {
        ActionsStep(View(), chosen[i..]);
        assert chosen[i..][1..] == chosen[i + 1..];
        hide AfterActions, ExecutedActions, AfterBody, Executed;
        Run(chosen[i].work);
      }
      replaying := false;
      SetEnabled(before);
    }

    method EraseRange(slc: Slice)
      modifies this`actions
      ensures actions == Erased(old(actions), slc)
    {
      var i := Bound(slc.start, 0, |actions|);
      var j := Bound(slc.end, |actions|, |actions|);
      if i < j {
        actions := actions[..i] + actions[j..];
      }
    }
  }

  function Erased<T>(a: seq<T>, slc: Slice): seq<T> {
    var i := Bound(slc.start, 0, |a|);
    var j := Bound(slc.end, |a|, |a|);
    if i <= j then a[..i] + a[j..] else a
  }

  /** What is erased and what is kept are together every action once, and the kept ones keep their order. */
  lemma EraseKeepsTheRest<T>(a: seq<T>, slc: Slice)
    ensures multiset(Erased(a, slc)) + multiset(Sliced(a, slc)) == multiset(a)
    ensures forall k :: 0 <= k < |Erased(a, slc)| ==>
              Erased(a, slc)[k] == a[if k < Bound(slc.start, 0, |a|) then k else k + |Sliced(a, slc)|]
  {
    var i, j := Bound(slc.start, 0, |a|), Bound(slc.end, |a|, |a|);
    if i <= j {
      assert a == a[..i] + a[i..j] + a[j..];
    }
  }

  /** Slicing as a list of n actions is sliced: counts from the end are taken from n, and both ends are
      kept within the list. */
  lemma SliceSelects<T>(a: seq<T>, slc: Slice, k: int)
    requires 0 <= k < |a| && slc.start.Some? && slc.end.Some?
    ensures var from := if slc.start.value >= 0 then slc.start.value else |a| + slc.start.value;
            var until := if slc.end.value >= 0 then slc.end.value else |a| + slc.end.value;
            from <= k < until <==> Bound(slc.start, 0, |a|) <= k < Bound(slc.end, |a|, |a|)
  {
  }

  // ----- Switching the recorder -----

  /** What a body last sets the recorder to, itself or in a method it calls. */
  function LastToggle(b: Body): Option<bool> {
    match b
    case End => None
    case Calls(w, _, rest) => if LastToggle(rest).Some? then LastToggle(rest) else LastToggle(w.body)
    case Toggles(enable, rest) => if LastToggle(rest).Some? then LastToggle(rest) else Some(enable)
  }

  /** Outside a replay the last switch counts, inside none does. */
  lemma {:induction false} LastToggleCounts(s: State, b: Body)
    ensures AfterBody(s, b).enabled == if s.replaying then s.enabled else LastToggle(b).GetOr(s.enabled)
    ensures AfterBody(s, b).replaying == s.replaying
    decreases b
  {
    match b
    case End =>
    case Calls(w, at, rest) =>
      LastToggleCounts(s.Recorded(w, at), w.body);
      LastToggleCounts(AfterBody(s.Recorded(w, at), w.body), rest);
    case Toggles(enable, rest) =>
      LastToggleCounts(s.SetEnabled(enable), rest);
  }

  // ----- Replays -----

  /** While recording is off and locked a body leaves the recorder as it is. */
  lemma {:induction false} LockedBodyChangesNothing(s: State, b: Body)
    requires s.replaying && !s.enabled
    ensures AfterBody(s, b) == s
    decreases b
  {
    match b
    case End =>
    case Calls(w, at, rest) =>
      LockedBodyChangesNothing(s, w.body);
      LockedBodyChangesNothing(s, rest);
    case Toggles(enable, rest) =>
      LockedBodyChangesNothing(s, rest);
  }

  lemma {:induction false} LockedActionsChangeNothing(s: State, actions: seq<Action>)
    requires s.replaying && !s.enabled
    ensures AfterActions(s, actions) == s
    decreases |actions|
  {
    if actions != [] {
      LockedBodyChangesNothing(s, actions[0].work.body);
      LockedActionsChangeNothing(s, actions[1..]);
    }
  }

  /** A replay leaves history and status exactly as they were, whatever the replayed methods call
      or toggle. */
  lemma ReplayChangesNothing(s: State, slc: Slice)
    requires !s.replaying
    ensures AfterReplay(s, slc) == s
  {
    LockedActionsChangeNothing(s.SetEnabled(false).(replaying := true), Sliced(s.actions, slc));
  }

  /** A replay inside a replay unlocks the recorder while the outer one is still running. */
  lemma NestedReplayUnlocks(s: State, slc: Slice)
    requires s.replaying && !s.enabled
    ensures AfterReplay(s, slc) == s.(replaying := false)
  {
    LockedActionsChangeNothing(s, Sliced(s.actions, slc));
  }

  // ----- Runs -----

  datatype Op = Call(work: Work, at: int) | Enable(on: bool) | Replay(slc: Slice) | Erase(range: Slice)

  function AfterOp(s: State, op: Op): State {
    match op
    case Call(w, at) => AfterBody(s.Recorded(w, at), w.body)
    case Enable(on) => s.SetEnabled(on)
    case Replay(slc) => AfterReplay(s, slc)
    case Erase(range) => s.(actions := Erased(s.actions, range))
  }

  function Exec(s: State, ops: seq<Op>): State
    decreases |ops|
  {
    if ops == [] then s else Exec(AfterOp(s, ops[0]), ops[1..])
  }

  function WithoutReplays(ops: seq<Op>): seq<Op>
    decreases |ops|
  {
    if ops == [] then []
    else if ops[0].Replay? then WithoutReplays(ops[1..])
    else [ops[0]] + WithoutReplays(ops[1..])
  }

  lemma {:induction false} BodyKeepsReplaying(s: State, b: Body)
    ensures AfterBody(s, b).replaying == s.replaying
    decreases b
  {
    match b
    case End =>
    case Calls(w, at, rest) =>
      BodyKeepsReplaying(s.Recorded(w, at), w.body);
      BodyKeepsReplaying(AfterBody(s.Recorded(w, at), w.body), rest);
    case Toggles(enable, rest) =>
      BodyKeepsReplaying(s.SetEnabled(enable), rest);
  }

  /** Over any run the replays can be left out: the recorder ends up the same. */
  lemma {:induction false} ReplaysLeaveNoTrace(s: State, ops: seq<Op>)
    requires !s.replaying
    ensures Exec(s, ops) == Exec(s, WithoutReplays(ops)) && !Exec(s, ops).replaying
    decreases |ops|
  {
    if ops != [] {
      var op := ops[0];
      var next := AfterOp(s, op);
      if op.Replay? {
        ReplayChangesNothing(s, op.slc);
      } else {
        if op.Call? {
          BodyKeepsReplaying(s.Recorded(op.work, op.at), op.work.body);
        }
        var rest := WithoutReplays(ops);
        assert rest[0] == op && rest[1..] == WithoutReplays(ops[1..]);
      }
      ReplaysLeaveNoTrace(next, ops[1..]);
    }
  }

  // ----- What a replay repeats -----

  predicate CallsNothingListened(b: Body) {
    match b
    case End => true
    case Calls(w, _, rest) => !w.listened && CallsNothingListened(w.body) && CallsNothingListened(rest)
    case Toggles(_, rest) => CallsNothingListened(rest)
  }

  predicate NeverToggles(b: Body) {
    match b
    case End => true
    case Calls(w, _, rest) => NeverToggles(w.body) && NeverToggles(rest)
    case Toggles(_, _) => false
  }

  lemma {:induction false} ExecutedActionsAppend(a: seq<Action>, b: seq<Action>)
    ensures ExecutedActions(a + b) == ExecutedActions(a) + ExecutedActions(b)
    decreases |a|
  {
    if a == [] {
      assert a + b == b;
    } else {
      ExecutedActionsAppend(a[1..], b);
      assert (a + b)[1..] == a[1..] + b;
    }
  }

  /** A body with recording on extends the history, by nothing exactly when it calls nothing the
      recorder listens to. */
  lemma {:induction false} BodyExtendsHistory(s: State, b: Body)
    requires s.enabled && NeverToggles(b)
    ensures var t := AfterBody(s, b);
            t.enabled && s.actions <= t.actions && (t.actions == s.actions <==> CallsNothingListened(b))
    decreases b
  {
    match b
    case End =>
    case Calls(w, at, rest) =>
      var s1 := s.Recorded(w, at);
      BodyExtendsHistory(s1, w.body);
      BodyExtendsHistory(AfterBody(s1, w.body), rest);
    case Toggles(_, _) =>
  }

  /** Replaying the history of one recorded call repeats what the call did exactly when its method
      calls nothing that is recorded as well: such nested calls are run twice. */
  lemma ReplayRepeatsTheCallExactly(w: Work, at: int)
    requires w.listened && NeverToggles(w.body)
    ensures var s := AfterOp(State([], true, false), Call(w, at));
            ExecutedActions(s.actions) == [w.name] + Executed(w.body) <==> CallsNothingListened(w.body)
  {
    var s1 := State([Action(w, at)], true, false);
    var s := AfterBody(s1, w.body);
    assert State([], true, false).Recorded(w, at) == s1;
    BodyExtendsHistory(s1, w.body);
    var more := s.actions[1..];
    assert s.actions == s1.actions + more;
    ExecutedActionsAppend(s1.actions, more);
    assert s1.actions[1..] == [];
    assert ExecutedActions(s1.actions) == [w.name] + Executed(w.body);
    if more == [] {
      assert s.actions == s1.actions;
    } else {
      assert |ExecutedActions(more)| > 0;
    }
  }

  /** Calls of listened methods that call nothing listened themselves and leave the recorder alone. */
  predicate Plain(works: seq<Work>) {
    forall i :: 0 <= i < |works| ==> works[i].listened && NeverToggles(works[i].body) && CallsNothingListened(works[i].body)
  }

  function CalledInOrder(works: seq<Work>): seq<Op> {
    seq(|works|, i requires 0 <= i < |works| => Call(works[i], 0))
  }

  /** What the methods execute, one after the other. */
  function ExecutedInOrder(works: seq<Work>): seq<nat>
    decreases |works|
  {
    if works == [] then [] else [works[0].name] + Executed(works[0].body) + ExecutedInOrder(works[1..])
  }

  /** Such a call is recorded, and nothing else is. */
  lemma PlainCall(s: State, w: Work)
    requires s.enabled && w.listened && NeverToggles(w.body) && CallsNothingListened(w.body)
    ensures var t := AfterOp(s, Call(w, 0));
            t.enabled && ExecutedActions(t.actions) == ExecutedActions(s.actions) + ([w.name] + Executed(w.body))
  {
    BodyExtendsHistory(s.Recorded(w, 0), w.body);
    hide AfterBody, Executed;
    ExecutedActionsAppend(s.actions, [Action(w, 0)]);
    assert [Action(w, 0)][1..] == [];
    assert ExecutedActions([Action(w, 0)]) == [w.name] + Executed(w.body);
  }

  lemma CalledStep(s: State, works: seq<Work>)
    requires works != []
    ensures Exec(s, CalledInOrder(works)) == Exec(AfterOp(s, Call(works[0], 0)), CalledInOrder(works[1..]))
  {
    var ops := CalledInOrder(works);
    assert ops[0] == Call(works[0], 0) && ops[1..] == CalledInOrder(works[1..]);
    hide AfterOp, CalledInOrder;
  }

  lemma ExecutedStep(before: seq<nat>, works: seq<Work>)
    requires works != []
    ensures before + ([works[0].name] + Executed(works[0].body)) + ExecutedInOrder(works[1..])
         == before + ExecutedInOrder(works)
  {
    hide Executed;
  }

  /** The history of such calls is the calls in order, and replaying it repeats them in that order. */
  lemma {:induction false} ReplayRepeatsInOrder(s: State, works: seq<Work>)
    requires s.enabled && Plain(works)
    ensures var t := Exec(s, CalledInOrder(works));
            t.enabled && ExecutedActions(t.actions) == ExecutedActions(s.actions) + ExecutedInOrder(works)
    decreases |works|
  {
    if works == [] {
      assert CalledInOrder(works) == [];
    } else {
      assert Plain(works[1..]);
      PlainCall(s, works[0]);
      hide AfterOp, Exec, ExecutedActions, Executed, ExecutedInOrder, CalledInOrder, Plain;
      CalledStep(s, works);
      ExecutedStep(ExecutedActions(s.actions), works);
      ReplayRepeatsInOrder(AfterOp(s, Call(works[0], 0)), works[1..]);
    }
  }
}
