// The drain and the charge thread of a UPS: over every interleaving with their launchers they
// exclude each other.

module BatteryThreads {
  import U = Ups

  const MAX_LEVEL := 1000

  /** update_battery: the clamped level, truncated. */
  function Stored(level: real): int {
    if level < 0.0 then 0 else if level > 1000.0 then MAX_LEVEL else level.Floor
  }

  /** A battery thread: dead, at the loop head, in the loop body, or (drain only) past the level
      update, or inside _increase_transfer_severity after it has read the cause. It keeps its own
      level. Whether the momentary period is over is left open, so a drain may escalate any turn. */
  datatype Thread =
    | Dead
    | AtHead(level: real)
    | InBody(level: real)
    | Updated(level: real)
    | Escalating(level: real, read: U.Cause)
  {
    predicate Alive() {
      !Dead?
    }
  }

  /** The engine thread: free, or blocked in the join of a launcher. */
  datatype Launcher = Free | JoiningCharge | JoiningDrain

  datatype State = State(status: bool, cause: U.Cause, stored: int, drain: Thread, charge: Thread, launcher: Launcher) {
    predicate OnBattery() {
      cause != U.NoTransfer
    }
  }

  /** Atomic steps. The launches belong to the engine thread, the rest to the battery threads;
      the amount drained or charged in a turn is arbitrary. */
  datatype Action =
    | LaunchDrain(why: U.Cause) | LaunchCharge | ChargeJoined | DrainJoined
    | DrainChecks | DrainTurn(amount: real) | DrainLoops | DrainReadsCause | DrainWritesCause
    | ChargeChecks | ChargeTurn(amount: real)
    | PowerSet(on: bool)

  predicate Enabled(s: State, a: Action) {
    match a
    case LaunchDrain(why) => s.launcher.Free? && why != U.NoTransfer
    case LaunchCharge => s.launcher.Free?
    case ChargeJoined => s.launcher.JoiningCharge? && !s.charge.Alive()
    case DrainJoined => s.launcher.JoiningDrain? && !s.drain.Alive()
    case DrainChecks => s.drain.AtHead?
    case DrainTurn(amount) => s.drain.InBody? && amount >= 0.0
    case DrainLoops => s.drain.Updated?
    case DrainReadsCause => s.drain.Updated?
    case DrainWritesCause => s.drain.Escalating?
    case ChargeChecks => s.charge.AtHead?
    case ChargeTurn(amount) => s.charge.InBody? && amount >= 0.0
    case PowerSet(_) => true
  }

  function Apply(s: State, a: Action): State
    requires Enabled(s, a)
  {
    match a
    case LaunchDrain(why) =>
      if s.drain.Alive() then s.(cause := U.Severer(why)) else s.(cause := why, launcher := JoiningCharge)
    case LaunchCharge =>
      if s.charge.Alive() then s else s.(cause := U.NoTransfer, launcher := JoiningDrain)
    case ChargeJoined => s.(drain := AtHead(s.stored as real), launcher := Free)
    case DrainJoined => s.(charge := AtHead(s.stored as real), launcher := Free)
    case DrainChecks =>
      if s.drain.level > 0.0 && s.status && s.OnBattery() then s.(drain := InBody(s.drain.level)) else s.(drain := Dead)
    case DrainTurn(amount) =>
      s.(drain := Updated(s.drain.level - amount), stored := Stored(s.drain.level - amount))
    case DrainLoops => s.(drain := AtHead(s.drain.level))
    case DrainReadsCause => s.(drain := Escalating(s.drain.level, s.cause))
    case DrainWritesCause =>
      s.(drain := AtHead(s.drain.level), cause := if U.Severer(s.drain.read) == s.drain.read then s.cause else U.Severer(s.drain.read))
    case ChargeChecks =>
      if s.charge.level < 1000.0 && !s.OnBattery() then s.(charge := InBody(s.charge.level)) else s.(charge := Dead)
    case ChargeTurn(amount) =>
      s.(charge := AtHead(s.charge.level + amount), stored := Stored(s.charge.level + amount))
    case PowerSet(on) => s.(status := on)
  }

  function Next(s: State, a: Action): State {
    if Enabled(s, a) then Apply(s, a) else s
  }

  function Exec(s: State, actions: seq<Action>): State
    decreases |actions|
  {
    if actions == [] then s else Exec(Next(s, actions[0]), actions[1..])
  }

  const CREATED := State(true, U.NoTransfer, MAX_LEVEL, Dead, Dead, Free)

  // ----- Exclusion and level -----

  /** Never both threads; the joining launcher waits for the other one; the stored level is the
      running thread's, clamped and truncated. */
  ghost predicate Exclusive(s: State) {
    && !(s.drain.Alive() && s.charge.Alive())
    && (s.launcher.JoiningCharge? ==> !s.drain.Alive())
    && (s.launcher.JoiningDrain? ==> !s.charge.Alive())
    && !s.charge.Updated? && !s.charge.Escalating?
    && 0 <= s.stored <= MAX_LEVEL
    && (s.drain.Alive() ==> s.stored == Stored(s.drain.level))
    && (s.charge.Alive() ==> s.stored == Stored(s.charge.level) && s.charge.level >= 0.0)
  }

  lemma StepKeepsExclusive(s: State, a: Action)
    requires Exclusive(s) && Enabled(s, a)
    ensures Exclusive(Apply(s, a))
  {
  }

  /** What one step does to the stored level: a drain never raises it, a charge never lowers it,
      nothing else touches it. */
  lemma StepMovesLevel(s: State, a: Action)
    requires Exclusive(s) && Enabled(s, a)
    ensures var r := Apply(s, a);
            if a.DrainTurn? then r.stored <= s.stored
            else if a.ChargeTurn? then r.stored >= s.stored
            else r.stored == s.stored
  {
  }

  /** Over every interleaving drain and charge are never both running, and the stored level stays
      in range. */
  lemma {:induction false} ThreadsExclude(s: State, actions: seq<Action>)
    requires Exclusive(s)
    ensures var r := Exec(s, actions);
            Exclusive(r) && !(r.drain.Alive() && r.charge.Alive()) && 0 <= r.stored <= MAX_LEVEL
    decreases |actions|
  {
    if actions != [] {
      if Enabled(s, actions[0]) {
        StepKeepsExclusive(s, actions[0]);
      }
      ThreadsExclude(Next(s, actions[0]), actions[1..]);
    }
  }

  /** A drain runs all along: its thread is alive in every state the run visits. */
  predicate DrainsThroughout(s: State, actions: seq<Action>)
    decreases |actions|
  {
    s.drain.Alive() && (actions == [] || DrainsThroughout(Next(s, actions[0]), actions[1..]))
  }

  predicate ChargesThroughout(s: State, actions: seq<Action>)
    decreases |actions|
  {
    s.charge.Alive() && (actions == [] || ChargesThroughout(Next(s, actions[0]), actions[1..]))
  }

  /** However everything else interleaves with it, the stored level never rises through a drain. */
  lemma {:induction false} LevelFallsThroughDrain(s: State, actions: seq<Action>)
    requires Exclusive(s) && DrainsThroughout(s, actions)
    ensures Exec(s, actions).stored <= s.stored
    decreases |actions|
  {
    if actions != [] {
      if Enabled(s, actions[0]) {
        StepKeepsExclusive(s, actions[0]);
        StepMovesLevel(s, actions[0]);
      }
      LevelFallsThroughDrain(Next(s, actions[0]), actions[1..]);
    }
  }

  /** And it never falls through a charge. */
  lemma {:induction false} LevelRisesThroughCharge(s: State, actions: seq<Action>)
    requires Exclusive(s) && ChargesThroughout(s, actions)
    ensures Exec(s, actions).stored >= s.stored
    decreases |actions|
  {
    if actions != [] {
      if Enabled(s, actions[0]) {
        StepKeepsExclusive(s, actions[0]);
        StepMovesLevel(s, actions[0]);
      }
      LevelRisesThroughCharge(Next(s, actions[0]), actions[1..]);
    }
  }

  /** So over every run of a UPS as it is created. */
  lemma ExclusiveFromCreation(actions: seq<Action>)
    ensures var r := Exec(CREATED, actions);
            !(r.drain.Alive() && r.charge.Alive()) && 0 <= r.stored <= MAX_LEVEL
  {
    ThreadsExclude(CREATED, actions);
  }

  // ----- Joins -----

  /** The loop turns a thread that is being joined can still take before it dies. */
  function TurnsLeft(t: Thread): nat {
    if t.InBody? then 1 else 0
  }

  /** The steps it can still take. */
  function StepsLeft(t: Thread): nat {
    match t
    case Dead => 0
    case AtHead(_) => 1
    case Escalating(_, _) => 2
    case Updated(_) => 3
    case InBody(_) => 4
  }

  function Joined(s: State): Thread {
    if s.launcher.JoiningCharge? then s.charge else s.drain
  }

  /** The steps of the thread the launcher waits for. */
  predicate IsJoinedStep(s: State, a: Action) {
    if s.launcher.JoiningCharge? then a.ChargeChecks? || a.ChargeTurn?
    else a.DrainChecks? || a.DrainTurn? || a.DrainLoops? || a.DrainReadsCause? || a.DrainWritesCause?
  }

  /** The drain thread is about to write a severer cause it derived before the launch. */
  predicate WritesStaleCause(s: State) {
    s.drain.Escalating? && U.Severer(s.drain.read) != s.drain.read
  }

  /** A launcher waits under a condition that sends the joined thread out of its loop. */
  ghost predicate WillBeReleased(s: State) {
    && (s.launcher.JoiningCharge? ==> s.OnBattery())
    && (s.launcher.JoiningDrain? ==> !s.OnBattery() && !WritesStaleCause(s))
  }

  /** The loop turn the joined thread takes in a step, if any. */
  function TurnsOf(s: State, a: Action): nat {
    if ((s.launcher.JoiningCharge? && a.ChargeTurn?) || (s.launcher.JoiningDrain? && a.DrainTurn?)) && Enabled(s, a) then 1 else 0
  }

  /** While a launcher is blocked, each step of the thread it waits for uses up one of that
      thread's last steps, and no other step gives it new ones. */
  lemma JoinedThreadRunsOut(s: State, a: Action)
    requires Exclusive(s) && WillBeReleased(s) && Enabled(s, a) && !s.launcher.Free?
    ensures var r := Apply(s, a);
            && (r.launcher.Free? || (WillBeReleased(r) && r.launcher == s.launcher))
            && (r.launcher.Free? ==> Joined(s).Dead?)
            && (!r.launcher.Free? ==> StepsLeft(Joined(r)) == StepsLeft(Joined(s)) || IsJoinedStep(s, a))
            && (IsJoinedStep(s, a) ==> StepsLeft(Joined(r)) < StepsLeft(Joined(s)))
            && (!r.launcher.Free? ==> TurnsLeft(Joined(r)) + TurnsOf(s, a) <= TurnsLeft(Joined(s)))
  {
  }

  /** A drain launch is always released: it waits for a charge thread that leaves its loop. */
  lemma DrainLaunchIsReleased(s: State, why: U.Cause)
    requires Exclusive(s) && Enabled(s, LaunchDrain(why))
    ensures WillBeReleased(Apply(s, LaunchDrain(why)))
  {
  }

  /** A charge launch is released after at most one more turn exactly unless the drain thread is
      about to write a cause it read before the launch. */
  lemma ChargeLaunchIsReleased(s: State)
    requires Exclusive(s) && Enabled(s, LaunchCharge) && !s.charge.Alive()
    ensures WillBeReleased(Apply(s, LaunchCharge)) <==> !WritesStaleCause(s)
  {
  }

  // ----- Release, for every run -----

  function Waited(s: State, actions: seq<Action>): nat
    decreases |actions|
  {
    if actions == [] || s.launcher.Free? then 0
    else TurnsOf(s, actions[0]) + Waited(Next(s, actions[0]), actions[1..])
  }

  /** However the threads interleave, a blocked launcher sees at most one more loop turn. */
  lemma {:induction false} AtMostOneMoreTurn(s: State, actions: seq<Action>)
    requires Exclusive(s) && WillBeReleased(s)
    ensures Waited(s, actions) <= TurnsLeft(Joined(s)) <= 1
    decreases |actions|
  {
    if actions != [] && !s.launcher.Free? {
      var a := actions[0];
      if Enabled(s, a) {
        StepKeepsExclusive(s, a);
        JoinedThreadRunsOut(s, a);
      }
      if Next(s, a).launcher.Free? {
      } else {
        AtMostOneMoreTurn(Next(s, a), actions[1..]);
      }
    }
  }

  // ----- The launcher that is not released -----

  /** What the drain turns of a run take off the battery. */
  function Drained(actions: seq<Action>): (sum: real)
    ensures sum >= 0.0
    decreases |actions|
  {
    if actions == [] then 0.0
    else (if actions[0].DrainTurn? && actions[0].amount >= 0.0 then actions[0].amount else 0.0) + Drained(actions[1..])
  }

  predicate NeverSwitchedOff(actions: seq<Action>) {
    forall i :: 0 <= i < |actions| ==> actions[i] != PowerSet(false)
  }

  ghost predicate Stuck(s: State, reserve: real) {
    s.launcher.JoiningDrain? && s.status && s.OnBattery() && s.drain.Alive() && s.drain.level > reserve
  }

  lemma {:induction false} StuckLauncherStaysBlocked(s: State, actions: seq<Action>)
    requires Exclusive(s) && Stuck(s, Drained(actions)) && NeverSwitchedOff(actions)
    ensures Stuck(Exec(s, actions), 0.0)
    decreases |actions|
  {
    if actions != [] {
      var a := actions[0];
      if Enabled(s, a) {
        StepKeepsExclusive(s, a);
      }
      assert Stuck(Next(s, a), Drained(actions[1..]));
      StuckLauncherStaysBlocked(Next(s, a), actions[1..]);
    }
  }

  /** A stale cause puts the UPS back on battery with mains present: the engine thread is then still
      blocked after every run that neither switches the UPS off nor empties its battery. */
  lemma StaleCauseBlocksTheEngine(s: State, actions: seq<Action>)
    requires Exclusive(s) && s.launcher.JoiningDrain? && WritesStaleCause(s) && s.status
    requires NeverSwitchedOff(actions) && Drained(actions) < s.drain.level
    ensures var r := Exec(Next(s, DrainWritesCause), actions);
            r.launcher.JoiningDrain? && r.OnBattery() && r.drain.Alive()
  {
    StepKeepsExclusive(s, DrainWritesCause);
    StuckLauncherStaysBlocked(Next(s, DrainWritesCause), actions);
  }

  /** How it comes about: a UPS as created loses its input for a moment, its drain thread reads the
      cause, and the input returns before the thread has written the severer one. */
  const MOMENTARY_SAG := [
    LaunchDrain(U.SmallMomentarySag), ChargeJoined, DrainChecks, DrainTurn(0.0), DrainReadsCause, LaunchCharge]

  lemma StaleCauseIsReachable()
    ensures var s := Exec(CREATED, MOMENTARY_SAG);
            Exclusive(s) && s.launcher.JoiningDrain? && WritesStaleCause(s) && s.status && s.drain.level > 0.0
  {
    ThreadsExclude(CREATED, MOMENTARY_SAG);
    var s1 := Next(CREATED, MOMENTARY_SAG[0]);
    var s2 := Next(s1, MOMENTARY_SAG[1]);
    var s3 := Next(s2, MOMENTARY_SAG[2]);
    var s4 := Next(s3, MOMENTARY_SAG[3]);
    var s5 := Next(s4, MOMENTARY_SAG[4]);
    var s6 := Next(s5, MOMENTARY_SAG[5]);
    assert s6 == State(true, U.NoTransfer, 1000, Escalating(1000.0, U.SmallMomentarySag), Dead, JoiningDrain);
    hide Next;
    assert Exec(s6, []) == s6;
    assert Exec(s5, MOMENTARY_SAG[5..]) == s6;
    assert Exec(s4, MOMENTARY_SAG[4..]) == s6;
    assert Exec(s3, MOMENTARY_SAG[3..]) == s6;
    assert Exec(s2, MOMENTARY_SAG[2..]) == s6;
    assert Exec(s1, MOMENTARY_SAG[1..]) == s6;
  }

  /** So the engine thread can be blocked in a UPS that was only ever asked to transfer and return. */
  lemma EngineCanBeBlocked(actions: seq<Action>)
    requires NeverSwitchedOff(actions) && Drained(actions) < 1000.0
    ensures var r := Exec(CREATED, MOMENTARY_SAG + [DrainWritesCause] + actions);
            r.launcher.JoiningDrain? && r.OnBattery() && r.drain.Alive()
  {
    var s := Exec(CREATED, MOMENTARY_SAG);
    StaleCauseIsReachable();
    StaleCauseBlocksTheEngine(s, actions);
    ExecConcat(CREATED, MOMENTARY_SAG, [DrainWritesCause] + actions);
    assert MOMENTARY_SAG + [DrainWritesCause] + actions == MOMENTARY_SAG + ([DrainWritesCause] + actions);
    assert ([DrainWritesCause] + actions)[1..] == actions;
  }

  lemma {:induction false} ExecConcat(s: State, a: seq<Action>, b: seq<Action>)
    ensures Exec(s, a + b) == Exec(Exec(s, a), b)
    decreases |a|
  {
    if a == [] {
      assert a + b == b;
    } else {
      ExecConcat(Next(s, a[0]), a[1..], b);
      assert (a + b)[1..] == a[1..] + b;
    }
  }

  // ----- The launches as the UPS sees them -----

  /** The launchers' view: a thread counts from its launch on, the joined one no longer. */
  function UpsView(s: State, u: U.UpsState): U.UpsState {
    u.(cause := s.cause, draining := s.launcher.JoiningCharge? || (s.drain.Alive() && !s.launcher.JoiningDrain?),
       charging := s.launcher.JoiningDrain? || (s.charge.Alive() && !s.launcher.JoiningCharge?))
  }

  /** A launch does to cause and threads what the handlers of the UPS take it to do, and the end of the join
      changes nothing more. */
  lemma LaunchesAgree(s: State, u: U.UpsState, a: Action)
    requires Exclusive(s) && Enabled(s, a) && (a.LaunchDrain? || a.LaunchCharge? || a.ChargeJoined? || a.DrainJoined?)
    ensures var before, after := UpsView(s, u), UpsView(Apply(s, a), u);
            after == match a
                     case LaunchDrain(why) => U.DrainLaunched(before, why)
                     case LaunchCharge => U.ChargeLaunched(before)
                     case _ => before
  {
  }

  // ----- When the loops end -----

  /** The drain turns a run takes. */
  function DrainTurns(s: State, actions: seq<Action>): nat
    decreases |actions|
  {
    if actions == [] then 0
    else (if actions[0].DrainTurn? && Enabled(s, actions[0]) then 1 else 0) + DrainTurns(Next(s, actions[0]), actions[1..])
  }

  function ChargeTurns(s: State, actions: seq<Action>): nat
    decreases |actions|
  {
    if actions == [] then 0
    else (if actions[0].ChargeTurn? && Enabled(s, actions[0]) then 1 else 0) + ChargeTurns(Next(s, actions[0]), actions[1..])
  }

  /** A UPS that is off takes at most the drain turn it was in, however often a drain is launched. */
  lemma {:induction false} OffStopsTheDrain(s: State, actions: seq<Action>)
    requires !s.status && forall i :: 0 <= i < |actions| ==> actions[i] != PowerSet(true)
    ensures DrainTurns(s, actions) <= TurnsLeft(s.drain) <= 1
    decreases |actions|
  {
    if actions != [] {
      OffStopsTheDrain(Next(s, actions[0]), actions[1..]);
    }
  }

  /** So does one whose battery is empty, as long as it is not charged. */
  lemma {:induction false} EmptyStopsTheDrain(s: State, actions: seq<Action>)
    requires s.stored == 0 && (s.drain.Alive() ==> s.drain.level <= 0.0)
    requires forall i :: 0 <= i < |actions| ==> !actions[i].ChargeTurn?
    ensures DrainTurns(s, actions) <= TurnsLeft(s.drain) <= 1
    decreases |actions|
  {
    if actions != [] {
      EmptyStopsTheDrain(Next(s, actions[0]), actions[1..]);
    }
  }

  /** And a full battery takes no more than the charge turn it was in, as long as it is not drained. */
  lemma {:induction false} FullStopsTheCharge(s: State, actions: seq<Action>)
    requires s.stored == MAX_LEVEL && (s.charge.Alive() ==> s.charge.level >= 1000.0)
    requires forall i :: 0 <= i < |actions| ==> !actions[i].DrainTurn?
    ensures ChargeTurns(s, actions) <= TurnsLeft(s.charge) <= 1
    decreases |actions|
  {
    if actions != [] {
      FullStopsTheCharge(Next(s, actions[0]), actions[1..]);
    }
  }
}
