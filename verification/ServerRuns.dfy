// A server with two supplies under any sequence of moves of their inputs and button presses: who
// carries what depends only on what is on, and at which voltage.

module ServerRuns {
  import opened Server
  import opened ServerLoad
  import opened ServerPair
  import opened SupplyOut
  import opened SupplyIn
  import opened SupplyMoves
  import opened ServerButton

  /** What happens to the server or to one of its supplies; each action settles before the next. */
  datatype Action =
    | InputMoves(k: nat, volt: real)
    | PressPsu(k: nat, psuOn: bool)
    | PressServer(on: bool)

  /** A supply is fed any voltage it does not work at or it and the server both work at. Buttons pass
      the state manager's checks: something changes, and what is switched on has its source. */
  predicate Enabled(s: ServerState, a: Action)
    requires |s.psus| == 2
  {
    match a
    case InputMoves(k, w) => k < 2 && (0.0 <= w <= s.psus[k].minVoltage || Works(s, k, w))
    case PressPsu(k, on) => k < 2 && s.psus[k].on != on && (on ==> Works(s, k, s.psus[k].inVolt))
    case PressServer(on) => s.on != on && (on ==> s.inVolt != 0.0 && Supplied(s))
  }

  function Apply(s: ServerState, a: Action): (o: Outcome)
    requires |s.psus| == 2 && Enabled(s, a)
    ensures |o.server.psus| == 2 && |o.reports| == 2
  {
    match a
    case InputMoves(k, w) => PsuWave(s, k, PsuAfterInput(s.psus[k], w))
    case PressPsu(k, on) => PsuWave(s, k, PsuAfterButton(s.psus[k], on))
    case PressServer(on) => ServerPressed(s, on)
  }

  // ----- One step -----

  /** When a move of the input of supply k leaves the loads where they belong, told from the state before. */
  predicate MoveIsRight(s: ServerState, k: nat, w: real)
    requires |s.psus| == 2 && k < 2
  {
    var p := s.psus[k];
    if p.on then
      if w <= p.minVoltage then CanGoOut(s, k, false)
      else if w > p.inVolt then s.on || Tolerates(s, k, w)
      else w == p.inVolt || CanFall(s, k)
    else if w > p.minVoltage && !p.byUser then CanReturn(s, k, w) && (p.inVolt == 0.0 || p.watts == 0.0)
    else w == 0.0 || Tolerates(s, k, w)
  }

  /** The same for every action. */
  predicate IsRight(s: ServerState, a: Action)
    requires |s.psus| == 2 && Enabled(s, a)
  {
    match a
    case InputMoves(k, w) => MoveIsRight(s, k, w)
    case PressPsu(k, on) => if on then CanReturn(s, k, s.psus[k].inVolt) else CanGoOut(s, k, true)
    case PressServer(on) => on ==> CanSwitchOn(s)
  }

  /** Load reported upstream on top of the change of the supply's load: none, except that the
      button of a supply that goes off reports its idle usage a second time. */
  function Excess(s: ServerState, a: Action): real
    requires |s.psus| == 2 && (a.PressPsu? ==> a.k < 2)
  {
    if a.PressPsu? && !a.psuOn then -s.psus[a.k].Usage() else 0.0
  }

  function Subject(a: Action): int {
    if a.PressServer? then -1 else a.k
  }

  lemma MoveExactly(s: ServerState, k: nat, w: real)
    requires Shared(s) && Enabled(s, InputMoves(k, w))
    ensures KeepsExactly(s, Apply(s, InputMoves(k, w)), k, 0.0, MoveIsRight(s, k, w))
  {
    var p := s.psus[k];
    assert p.on ==> Works(s, k, p.inVolt);
    assert w >= 0.0 && p.minVoltage >= 0.0;
    hide PsuWave, PsuAfterInput, Shared, KeepsExactly, Tolerates, CanReturn, CanGoOut, CanFall;
    if p.on {
      if w <= p.minVoltage {
        LosingExactly(s, k, w);
      } else if w > p.inVolt {
        RisingExactly(s, k, w);
      } else if w < p.inVolt {
        FallingExactly(s, k, w);
      } else {
        QuietExactly(s, k, w);
      }
    } else if w > p.minVoltage && !p.byUser {
      RestoringExactly(s, k, w);
    } else if w == 0.0 {
      QuietExactly(s, k, w);
    } else {
      OffSupplyExactly(s, k, w);
    }
  }

  lemma PressExactly(s: ServerState, k: nat, on: bool)
    requires Shared(s) && Enabled(s, PressPsu(k, on))
    ensures KeepsExactly(s, Apply(s, PressPsu(k, on)), k, Excess(s, PressPsu(k, on)), IsRight(s, PressPsu(k, on)))
  {
    hide PsuWave, PsuAfterButton, Shared, KeepsExactly, CanReturn, CanGoOut, Psu.Usage;
    if on {
      PressingOnExactly(s, k);
    } else {
      PressingOffExactly(s, k);
    }
  }

  /** A step leaves the loads where they belong exactly when it is right, and then what each supply
      reports upstream is the change of its load and the excess. */
  lemma StepKeepsShared(s: ServerState, a: Action)
    requires Shared(s) && Enabled(s, a)
    ensures KeepsExactly(s, Apply(s, a), Subject(a), Excess(s, a), IsRight(s, a))
  {
    match a
    case InputMoves(k, w) =>
      hide Apply, Shared, KeepsExactly, MoveIsRight;
      MoveExactly(s, k, w);
    case PressPsu(k, on) =>
      hide Apply, Shared, KeepsExactly, IsRight;
      PressExactly(s, k, on);
    case PressServer(on) =>
      hide ServerPressed, Shared, KeepsExactly, CanSwitchOn;
      if on {
        ServerOnExactly(s);
      } else {
        ServerOffExactly(s);
      }
  }

  /** Supply k ends at its usage and its part at w, that change is what it reports, and the other supply
      keeps its load. */
  predicate RoseTo(s: ServerState, o: Outcome, k: nat, w: real) {
    && |s.psus| == |o.server.psus| == |o.reports| == 2 && k < 2
    && var load := s.psus[k].(inVolt := w).Usage() + Taken(s, k, w);
    && o.server.psus[k] == s.psus[k].(inVolt := w, load := load) && o.reports[k] == load - s.psus[k].load
    && o.server.psus[1 - k] == s.psus[1 - k] && o.reports[1 - k] == 0.0
    && o.server.load == Full(s, w)
  }

  lemma RisenRoseTo(s: ServerState, o: Outcome, k: nat, w: real)
    requires Working(s, k, w) && s.on && Risen(s, o.server, k, w) && Shared(o.server) && Reported(s, o, k, 0.0)
    ensures RoseTo(s, o, k, w)
  {
    StillFedOn(s, o.server, k, w);
    assert o.server.psus[k].load == Expected(o.server, k);
    assert |s.psus| == 2;
    hide Shared, Psu.Usage, Full, Part;
  }

  /** When a supply that is on rises from one voltage it works at to another while the server runs,
      nothing but this supply and the load of the server moves. */
  lemma RiseMovesOneSupply(s: ServerState, k: nat, w: real)
    requires Shared(s) && s.on && k < 2 && s.psus[k].on && Works(s, k, w) && w > s.psus[k].inVolt
    ensures RoseTo(s, PsuWave(s, k, PsuAfterInput(s.psus[k], w)), k, w)
  {
    var o := PsuWave(s, k, Following(s, k, w));
    assert Working(s, k, w);
    hide *;
    FollowsInput(s, k, w);
    RiseWave(s, k, w);
    RiseReports(s, k, w);
    RiseWhileOn(s, o.server, k, w);
    RisenRoseTo(s, o, k, w);
  }

  // ----- Every run -----

  /** Actions that are not enabled when their turn comes have no effect. */
  function Next(s: ServerState, a: Action): (t: ServerState)
    requires |s.psus| == 2
    ensures |t.psus| == 2
  {
    if Enabled(s, a) then Apply(s, a).server else s
  }

  function Exec(s: ServerState, actions: seq<Action>): (t: ServerState)
    requires |s.psus| == 2
    ensures |t.psus| == 2
    decreases |actions|
  {
    if actions == [] then s else Exec(Next(s, actions[0]), actions[1..])
  }

  predicate AllRight(s: ServerState, actions: seq<Action>)
    requires |s.psus| == 2
    decreases |actions|
  {
    actions == [] ||
    ((Enabled(s, actions[0]) ==> IsRight(s, actions[0])) && AllRight(Next(s, actions[0]), actions[1..]))
  }

  /** Loads are where they belong in every state the run visits. */
  predicate AlwaysShared(s: ServerState, actions: seq<Action>)
    requires |s.psus| == 2
    decreases |actions|
  {
    Shared(s) && (actions == [] || AlwaysShared(Next(s, actions[0]), actions[1..]))
  }

  lemma NextExactly(s: ServerState, a: Action)
    requires Shared(s)
    ensures Shared(Next(s, a)) <==> (Enabled(s, a) ==> IsRight(s, a))
    ensures Shared(Next(s, a)) ==> SameEquipment(s, Next(s, a))
  {
    SameAsItself(s);
    assert |s.psus| == 2;
    hide Apply, Enabled, IsRight, Shared, Reported, SameEquipment;
    if Enabled(s, a) {
      StepKeepsShared(s, a);
    }
  }

  lemma SameAsItself(s: ServerState)
    requires |s.psus| == 2
    ensures SameEquipment(s, s)
  {
  }

  /** Over every run of input moves and button presses, at whatever voltages, the loads are where they
      belong all the way exactly when every step on the way is right. */
  lemma {:induction false} AlwaysSharedExactly(s: ServerState, actions: seq<Action>)
    requires Shared(s)
    ensures AlwaysShared(s, actions) <==> AllRight(s, actions)
    decreases |actions|
  {
    assert |s.psus| == 2;
    hide Next, Enabled, IsRight, Shared, SameEquipment;
    if actions != [] {
      var t := Next(s, actions[0]);
      NextExactly(s, actions[0]);
      if Shared(t) {
        AlwaysSharedExactly(t, actions[1..]);
      } else {
        assert !AlwaysShared(t, actions[1..]);
      }
    }
  }

  /** The same things are on, at the same voltages. */
  predicate SamePower(s: ServerState, t: ServerState) {
    && |s.psus| == |t.psus| == 2 && s.on == t.on
    && forall i :: 0 <= i < 2 ==> s.psus[i].on == t.psus[i].on && (s.psus[i].on ==> s.psus[i].inVolt == t.psus[i].inVolt)
  }

  predicate OneVoltage(s: ServerState) {
    |s.psus| == 2 && (s.psus[0].on && s.psus[1].on ==> s.psus[0].inVolt == s.psus[1].inVolt)
  }

  predicate SameLoads(s: ServerState, t: ServerState) {
    && |s.psus| == |t.psus| == 2 && s.psus[0].load == t.psus[0].load && s.psus[1].load == t.psus[1].load
    && (OneVoltage(s) ==> s.load == t.load)
  }

  lemma SharedDetermines(s: ServerState, t: ServerState)
    requires Shared(s) && Shared(t) && SameEquipment(s, t) && SamePower(s, t)
    ensures SameLoads(s, t)
  {
    SameDraws(s, t);
    hide Full, Part, Configured, Fed;
  }

  lemma SameThroughout(s: ServerState, t: ServerState, u: ServerState)
    requires SameEquipment(s, t) && SameEquipment(t, u)
    ensures SameEquipment(s, u)
  {
  }

  /** Over every such run of a server with two supplies whose draws sum to one: each supply that is on
      carries its idle usage and its part of the server at its own voltage, everything when it is
      alone, and a supply that is off carries nothing. So whenever the same things are on again at the
      same voltages every load is what it was. */
  lemma {:induction false} LoadsFollowPower(s: ServerState, actions: seq<Action>)
    requires Shared(s) && AllRight(s, actions)
    ensures var t := Exec(s, actions);
            Shared(t) && SameEquipment(s, t) && (SamePower(s, t) ==> SameLoads(s, t))
    decreases |actions|
  {
    var t := Exec(s, actions);
    SameAsItself(s);
    hide Next, Enabled, IsRight, Shared, SamePower, SameLoads, SameEquipment;
    if actions != [] {
      NextExactly(s, actions[0]);
      LoadsFollowPower(Next(s, actions[0]), actions[1..]);
      SameThroughout(s, Next(s, actions[0]), t);
    }
    if SamePower(s, t) {
      SharedDetermines(s, t);
    }
  }

  // ----- Failover and failback -----

  lemma ExecOne(s: ServerState, a: Action)
    requires |s.psus| == 2 && Enabled(s, a)
    ensures Exec(s, [a]) == Apply(s, a).server
  {
    hide Apply, Enabled;
    assert Next(s, a) == Apply(s, a).server;
    assert [a][1..] == [];
    assert Exec(Next(s, a), []) == Next(s, a);
  }

  /** Both supplies and the server have one voltage. */
  predicate Uniform(s: ServerState) {
    |s.psus| == 2 && s.psus[0].on && s.psus[1].on && s.on && s.psus[0].inVolt == s.psus[1].inVolt == s.inVolt
  }

  predicate PartMovedOver(s: ServerState, t: ServerState, k: nat, part: real) {
    && |s.psus| == |t.psus| == 2 && k < 2
    && t.on == s.on && t.load == s.load
    && t.psus[k].load == 0.0 && t.psus[1 - k].load == s.psus[1 - k].load + part
  }

  /** While both supplies have one voltage the other supply takes exactly the part of the lost one, the
      server keeps its load, and the restored supply brings everything back as it was. */
  lemma FailoverAndFailback(s: ServerState, k: nat)
    requires Shared(s) && Uniform(s) && k < 2
    ensures var lost := Exec(s, [InputMoves(k, 0.0)]);
            var back := Exec(lost, [InputMoves(k, s.inVolt)]);
            PartMovedOver(s, lost, k, Part(s, k, s.inVolt)) && back == s.(inVolt := back.inVolt)
  {
    LostSupply(s, k);
    var lost := Apply(s, InputMoves(k, 0.0)).server;
    ExecOne(s, InputMoves(k, 0.0));
    BackSupply(s, lost, k);
    ExecOne(lost, InputMoves(k, s.inVolt));
    hide *;
  }

  /** Supply k has failed and nothing else but loads and the stored input has changed. */
  predicate Lost(s: ServerState, t: ServerState, k: nat) {
    && |s.psus| == |t.psus| == 2 && k < 2
    && t == s.(inVolt := t.inVolt, psus := t.psus)
    && t.psus[k] == s.psus[k].(on := false, byUser := false, inVolt := 0.0, load := 0.0)
    && t.psus[1 - k] == s.psus[1 - k].(load := t.psus[1 - k].load)
  }

  lemma LostShape(s: ServerState, t: ServerState, k: nat, r: PsuReport)
    requires Uniform(s) && k < 2 && TakenOver(s, t, k, r)
    requires r.psu == s.psus[k].(on := false, byUser := false, inVolt := 0.0, load := r.psu.load)
    ensures Lost(s, t, k)
  {
  }

  lemma LostPart(s: ServerState, t: ServerState, k: nat)
    requires Shared(s) && Uniform(s) && k < 2 && Shared(t) && Lost(s, t, k)
    ensures PartMovedOver(s, t, k, Part(s, k, s.inVolt))
  {
    PartsAddUp(s, s.inVolt);
    hide Full, Part, Psu.Usage, Configured, Fed, ServerLoaded;
    assert Full(t, s.inVolt) == Full(s, s.inVolt) by {
      SameDraws(s, t);
    }
  }

  lemma CanLose(s: ServerState, k: nat)
    requires Shared(s) && Uniform(s) && k < 2
    ensures CanGoOut(s, k, false) && s.psus[k].minVoltage >= 0.0 && s.psus[1 - k].load >= 0.0 && s.psus[k].inVolt > 0.0
  {
    LoadsAreSigned(s, k);
    hide Full, Part, Psu.Usage;
  }

  lemma LostSupply(s: ServerState, k: nat)
    requires Shared(s) && Uniform(s) && k < 2
    ensures Enabled(s, InputMoves(k, 0.0))
    ensures var t := Apply(s, InputMoves(k, 0.0)).server;
            Shared(t) && Lost(s, t, k) && PartMovedOver(s, t, k, Part(s, k, s.inVolt))
  {
    var r := PsuAfterInput(s.psus[k], 0.0);
    var t := PsuWave(s, k, r).server;
    CanLose(s, k);
    OutageReport(s, k);
    assert Configured(s) && s.psus[k].on;
    hide PsuWave, PsuAfterInput, Shared, Configured, CanGoOut, GoesOut, Part, Full, TakenOver, Lost, PartMovedOver, Reported, SameEquipment, Works;
    LosingExactly(s, k, 0.0);
    OutWave(s, k, r);
    LostShape(s, t, k, r);
    LostPart(s, t, k);
  }

  lemma OutageReport(s: ServerState, k: nat)
    requires Shared(s) && k < 2 && s.psus[k].on
    ensures var r := PsuAfterInput(s.psus[k], 0.0);
            && GoesOut(s, k, r) && r.psu.load >= 0.0
            && r.psu == s.psus[k].(on := false, byUser := false, inVolt := 0.0, load := r.psu.load)
  {
    LoadsAreSigned(s, k);
    SupplyGoesOut(s.psus[k], 0.0, Carried(s, k));
    hide PsuAfterInput, Psu.Usage, Carried;
  }

  lemma BackSupply(s: ServerState, lost: ServerState, k: nat)
    requires Shared(s) && Uniform(s) && k < 2 && Shared(lost) && Lost(s, lost, k)
    ensures Enabled(lost, InputMoves(k, s.inVolt))
    ensures var t := Apply(lost, InputMoves(k, s.inVolt)).server; t == s.(inVolt := t.inVolt)
  {
    var v := s.inVolt;
    var r := PsuAfterInput(lost.psus[k], v);
    assert Works(lost, k, v) && CanReturn(lost, k, v);
    assert !lost.psus[k].on && !lost.psus[k].byUser && lost.psus[k].inVolt == 0.0;
    hide PsuWave, PsuAfterInput, Shared, Works, CanReturn, Psu.Usage, ComesBack, Rejoined;
    RestoringExactly(lost, k, v);
    RestorationComesBack(lost, k, v);
    ReturnWave(lost, k, r, v, lost.psus[k].Usage());
    BackIsSame(s, lost, PsuWave(lost, k, r).server, k, r);
  }

  lemma BackIsSame(s: ServerState, lost: ServerState, t: ServerState, k: nat, r: PsuReport)
    requires Shared(s) && Uniform(s) && k < 2 && Lost(s, lost, k) && Shared(lost) && Shared(t)
    requires ComesBack(lost, k, r, s.inVolt, lost.psus[k].Usage()) && Rejoined(lost, t, k, r, s.inVolt)
    ensures t == s.(inVolt := t.inVolt)
  {
    assert SamePower(s, t) && SameEquipment(s, t) by {
      hide Full, Part, Shared, Psu.Usage;
    }
    SharedDetermines(s, t);
    hide Full, Part, Shared, Psu.Usage;
    assert t.psus[k] == s.psus[k] && t.psus[1 - k] == s.psus[1 - k];
    assert t.psus == s.psus;
  }
}
