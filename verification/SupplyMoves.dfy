// A supply whose input moves without switching it: from one voltage it works at to another, or while it
// is off, when it passes on what it is fed.

module SupplyMoves {
  import opened Events
  import opened Server
  import opened ServerLoad
  import opened ServerPair
  import opened SupplyOut
  import opened SupplyIn

  /** The server takes a voltage that is none of its present load's: it stays off, uses nothing, or has
      the same voltage from the other supply and no part for this one. */
  predicate Tolerates(s: ServerState, k: nat, w: real)
    requires |s.psus| == 2 && k < 2
  {
    !Powered(s) || s.watts == 0.0 || (s.psus[1 - k].on && s.psus[1 - k].inVolt == w && s.psus[k].draw == 0.0)
  }

  lemma TakenZero(s: ServerState, k: nat, u: real)
    requires Configured(s) && k < 2 && u > 0.0
    ensures Taken(s, k, u) == 0.0 <==> s.watts == 0.0 || (s.psus[1 - k].on && s.psus[k].draw == 0.0)
  {
    PartZero(s, k, u);
  }

  // ----- A supply that is off -----

  /** A supply that is off and stays off on voltage w, because it was switched off or w is too low,
      stores it and passes it on. */
  lemma OffSupplyForwards(p: Psu, w: real)
    requires !p.on && (w <= p.minVoltage || p.byUser) && w >= 0.0
    ensures PsuAfterInput(p, w) == PsuReport(p.(inVolt := w), Change(0.0, w), 0.0)
  {
  }

  predicate FedWhileOff(s: ServerState, k: nat, w: real) {
    && Shared(s) && k < 2 && !s.psus[k].on && w > 0.0
    && (w <= s.psus[k].minVoltage || (s.psus[k].byUser && Works(s, k, w)))
  }

  function OffReport(s: ServerState, k: nat, w: real): PsuReport
    requires k < |s.psus|
  {
    PsuReport(s.psus[k].(inVolt := w), Change(0.0, w), 0.0)
  }

  /** The server after a supply that is off was fed. */
  predicate PassedOn(s: ServerState, t: ServerState, k: nat, w: real) {
    && |s.psus| == |t.psus| == 2 && k < 2
    && var q := s.psus[1 - k];
    && var gives := s.on && q.on && Part(s, k, q.inVolt) > 0.0;
    && t.inVolt > 0.0
    && if !Powered(s) then t == s.(inVolt := t.inVolt, psus := s.psus[k := s.psus[k].(inVolt := w)])
       else
         && t == s.(on := q.on, vmActive := q.on, inVolt := t.inVolt, load := if gives then s.load else Full(s, w), psus := t.psus)
         && t.psus[k] == s.psus[k].(inVolt := w, load := Taken(s, k, w))
         && t.psus[1 - k] == q.(load := if gives then Clamp(q.load - Part(s, k, w)) else if q.on && !s.on then q.load + Part(s, 1 - k, w) else q.load)
  }

  /** With supply k off the other one alone decides whether the server is supplied. */
  lemma SuppliedByOther(s: ServerState, k: nat, p: Psu)
    requires Shared(s) && k < 2 && !p.on
    ensures Supplied(s.(psus := s.psus[k := p])) == s.psus[1 - k].on
  {
    var s1 := s.(psus := s.psus[k := p]);
    if s.psus[1 - k].on {
      assert s1.psus[1 - k].OutputVoltage() > s1.minVoltage;
    }
  }

  lemma PassOnWave(s: ServerState, k: nat, w: real)
    requires FedWhileOff(s, k, w)
    ensures var o := PsuWave(s, k, OffReport(s, k, w)); PassedOn(s, o.server, k, w) && Reported(s, o, k, 0.0)
  {
    var r := OffReport(s, k, w);
    var e := ServerReaction(s.(psus := s.psus[k := r.psu]), k, r.out);
    var q := s.psus[1 - k];
    LoadsAreSigned(s, k);
    UpReaction(s, k, r);
    GivesExactly(s, k, r.out);
    SuppliedByOther(s, k, r.psu);
    TakenSigned(s, k, w);
    Added(r.psu, Taken(s, k, w));
    Added(q, Part(s, k, w));
    Added(q, Part(s, 1 - k, w));
    Added(q, 0.0);
    assert s.psus[k].load == 0.0 && |s.psus| == 2 && (s.on ==> q.on);
    hide Shared, Full, Part, Taken, Gives, ServerReaction, PsuWave, Delivered, Supplied, Psu.Usage;
    if Powered(s) {
      WaveDelivers(s, k, r, e);
    } else {
      WaveEnds(s, k, r, e.server);
    }
  }

  lemma StillFedOff(s: ServerState, t: ServerState, k: nat, w: real)
    requires FedWhileOff(s, k, w) && PassedOn(s, t, k, w)
    ensures Configured(t) && Fed(t, 0) && Fed(t, 1) && SameEquipment(s, t)
    ensures forall u :: Full(t, u) == Full(s, u)
    ensures forall i: nat, u :: i < 2 ==> Part(t, i, u) == Part(s, i, u)
  {
    assert SameEquipment(s, t) by {
      hide Part, Full, Expected, ServerLoaded, Psu.Usage, Taken, Configured;
    }
    hide Part, Full, Expected, ServerLoaded, Psu.Usage, Taken;
    SameDraws(s, t);
  }

  /** The load handed to the supply that is off is nothing, and what is stored for the server is still
      its draw at the other supply's voltage. */
  lemma PassedOnExactly(s: ServerState, t: ServerState, k: nat, w: real)
    requires FedWhileOff(s, k, w) && PassedOn(s, t, k, w) && Powered(s)
    ensures Shared(t) <==> Taken(s, k, w) == 0.0 && (s.psus[1 - k].on ==> Full(s, w) == Full(s, s.psus[1 - k].inVolt))
  {
    var q := s.psus[1 - k];
    StillFedOff(s, t, k, w);
    TakenZero(s, k, w);
    PartsAddUp(s, w);
    if q.on {
      PartsAddUp(s, q.inVolt);
      PartZero(s, k, q.inVolt);
      hide Full, Part, Configured, Fed, Psu.Usage;
      assert ServerLoaded(t) <==> t.load == Full(s, q.inVolt);
    } else {
      hide Part, Configured, Fed, Psu.Usage;
    }
  }

  lemma ToleratesExactly(s: ServerState, k: nat, w: real)
    requires FedWhileOff(s, k, w) && Powered(s)
    ensures Tolerates(s, k, w) <==> Taken(s, k, w) == 0.0 && (s.psus[1 - k].on ==> Full(s, w) == Full(s, s.psus[1 - k].inVolt))
  {
    TakenZero(s, k, w);
    if s.psus[1 - k].on {
      PartsDiffer(s, k, w, s.psus[1 - k].inVolt);
    }
    hide Full, Part, Taken;
  }

  /** Feeding a supply that stays off is right exactly when the server tolerates it. */
  lemma OffSupplyExactly(s: ServerState, k: nat, w: real)
    requires FedWhileOff(s, k, w)
    ensures KeepsExactly(s, PsuWave(s, k, PsuAfterInput(s.psus[k], w)), k, 0.0, Tolerates(s, k, w))
  {
    var t := PsuWave(s, k, OffReport(s, k, w)).server;
    OffSupplyForwards(s.psus[k], w);
    PassOnWave(s, k, w);
    StillFedOff(s, t, k, w);
    if Powered(s) {
      PassedOnExactly(s, t, k, w);
      ToleratesExactly(s, k, w);
      hide *;
    } else {
      PassedUnnoticed(s, t, k, w);
    }
  }

  lemma PassedUnnoticed(s: ServerState, t: ServerState, k: nat, w: real)
    requires FedWhileOff(s, k, w) && PassedOn(s, t, k, w) && !Powered(s)
    ensures Shared(t)
  {
    StillFedOff(s, t, k, w);
    hide Full, Part, Configured, Fed, Psu.Usage;
  }

  /** Otherwise a server that is on or boots hands the supply that is off its part, or everything. */
  lemma OffSupplyIsGivenLoad(s: ServerState, k: nat, w: real)
    requires FedWhileOff(s, k, w) && Powered(s)
    ensures var t := PsuWave(s, k, PsuAfterInput(s.psus[k], w)).server;
            !t.psus[k].on && t.psus[k].load == Taken(s, k, w)
  {
    OffSupplyForwards(s.psus[k], w);
    PassOnWave(s, k, w);
    hide PsuAfterInput, PsuWave, Shared, Taken, Full, Part;
  }

  // ----- A supply that is on -----

  /** A supply that stays on replaces its idle usage at once. */
  lemma SupplyFollows(p: Psu, w: real)
    requires p.on && w > p.minVoltage >= 0.0 && p.watts >= 0.0 && p.inVolt > 0.0 && p.load >= p.Usage()
    ensures var after := p.(inVolt := w).Usage();
            PsuAfterInput(p, w)
              == PsuReport(p.(inVolt := w, load := p.load - p.Usage() + after), Change(p.inVolt, w), after - p.Usage())
  {
    UsageZero(p);
    UsageZero(p.(inVolt := w));
    assert LoadFromVolt(p.watts, Change(p.inVolt, w)) == Change(p.Usage(), p.(inVolt := w).Usage());
    hide LoadFromVolt, CalculateLoad, Psu.Usage;
  }

  predicate Working(s: ServerState, k: nat, w: real) {
    Shared(s) && k < 2 && s.psus[k].on && Works(s, k, w)
  }

  /** Supply k at w with the part it had for the server so far. */
  function Following(s: ServerState, k: nat, w: real): PsuReport
    requires |s.psus| == 2 && k < 2
  {
    var p := s.psus[k].(inVolt := w);
    PsuReport(p.(load := p.Usage() + Carried(s, k)), Change(s.psus[k].inVolt, w), p.Usage() - s.psus[k].Usage())
  }

  lemma FollowsInput(s: ServerState, k: nat, w: real)
    requires Working(s, k, w)
    ensures PsuAfterInput(s.psus[k], w) == Following(s, k, w)
  {
    LoadsAreSigned(s, k);
    hide PsuAfterInput, Psu.Usage, Carried;
    SupplyFollows(s.psus[k], w);
  }

  /** The server after supply k rose to w. */
  predicate Risen(s: ServerState, t: ServerState, k: nat, w: real) {
    && |s.psus| == |t.psus| == 2 && k < 2
    && var q := s.psus[1 - k];
    && var p := Following(s, k, w).psu;
    && t.inVolt > 0.0
    && if !Powered(s) then t == s.(inVolt := t.inVolt, psus := s.psus[k := p])
       else
         && t == s.(on := true, vmActive := true, inVolt := t.inVolt, load := Full(s, w), psus := t.psus)
         && t.psus[k] == p.(load := if Taken(s, k, s.psus[k].inVolt) == Taken(s, k, w) then p.load
                                    else Clamp(p.load + Taken(s, k, w) - Taken(s, k, s.psus[k].inVolt)))
         && t.psus[1 - k] == q.(load := if q.on && !s.on then q.load + Part(s, 1 - k, w) else q.load)
  }

  lemma RiseWave(s: ServerState, k: nat, w: real)
    requires Working(s, k, w) && w > s.psus[k].inVolt
    ensures Risen(s, PsuWave(s, k, Following(s, k, w)).server, k, w)
  {
    var r := Following(s, k, w);
    var e := ServerReaction(s.(psus := s.psus[k := r.psu]), k, r.out);
    var q := s.psus[1 - k];
    LoadsAreSigned(s, k);
    UpReaction(s, k, r);
    SuppliedNow(s, k, r.psu);
    TakenSigned(s, k, w);
    Added(q, Part(s, 1 - k, w));
    Added(q, 0.0);
    assert |s.psus| == 2 && !Gives(s, q, r.out);
    hide Shared, Full, Part, Taken, Gives, ServerReaction, PsuWave, Supplied, Psu.Usage, Carried;
    if Powered(s) {
      WaveDelivers(s, k, r, e);
    } else {
      WaveEnds(s, k, r, e.server);
    }
  }

  lemma RiseReports(s: ServerState, k: nat, w: real)
    requires Working(s, k, w) && w > s.psus[k].inVolt
    ensures Reported(s, PsuWave(s, k, Following(s, k, w)), k, 0.0)
  {
    var r := Following(s, k, w);
    var e := ServerReaction(s.(psus := s.psus[k := r.psu]), k, r.out);
    UpReaction(s, k, r);
    assert |s.psus| == 2 && r.reported == r.psu.load - s.psus[k].load;
    hide Shared, Full, Part, Taken, Gives, ServerReaction, PsuWave, Supplied, Psu.Usage, Carried, Delivered;
    if Powered(s) {
      WaveDelivers(s, k, r, e);
    } else {
      WaveEnds(s, k, r, e.server);
    }
  }

  lemma StillFedOn(s: ServerState, t: ServerState, k: nat, w: real)
    requires Working(s, k, w) && Risen(s, t, k, w)
    ensures Configured(t) && Fed(t, 0) && Fed(t, 1) && SameEquipment(s, t)
    ensures forall u :: Full(t, u) == Full(s, u)
    ensures forall i: nat, u :: i < 2 ==> Part(t, i, u) == Part(s, i, u)
  {
    assert SameEquipment(s, t) by {
      hide Part, Full, Expected, ServerLoaded, Psu.Usage, Taken, Configured, Carried;
    }
    hide Part, Full, Expected, ServerLoaded, Psu.Usage, Taken, Carried;
    SameDraws(s, t);
  }

  /** A server that is on moves the supply's part along. */
  lemma RiseWhileOn(s: ServerState, t: ServerState, k: nat, w: real)
    requires Working(s, k, w) && Risen(s, t, k, w) && s.on
    ensures Shared(t)
  {
    StillFedOn(s, t, k, w);
    TakenSigned(s, k, w);
    UsageZero(t.psus[k]);
    hide Full, Part, Configured, Fed, Psu.Usage;
    assert t.psus[k].on && t.load == Full(t, t.psus[k].inVolt);
  }

  /** A server that is off and boots takes the change of a part for the part. */
  lemma RiseWhileOff(s: ServerState, t: ServerState, k: nat, w: real)
    requires Working(s, k, w) && Risen(s, t, k, w) && !s.on && s.powerOnAc
    ensures var q := s.psus[1 - k];
            Shared(t) <==> Taken(s, k, s.psus[k].inVolt) == 0.0 && (q.on ==> Part(s, 1 - k, w) == Part(s, 1 - k, q.inVolt))
  {
    StillFedOn(s, t, k, w);
    TakenSigned(s, k, w);
    TakenSigned(s, k, s.psus[k].inVolt);
    UsageZero(t.psus[k]);
    TakenZero(s, k, w);
    TakenZero(s, k, s.psus[k].inVolt);
    hide Full, Part, Configured, Fed, Psu.Usage;
    assert t.psus[k].on && t.load == Full(t, t.psus[k].inVolt);
    assert Carried(t, k) == Taken(s, k, w);
  }

  lemma RiseToleratesExactly(s: ServerState, k: nat, w: real)
    requires Working(s, k, w) && !s.on && s.powerOnAc
    ensures var q := s.psus[1 - k];
            Tolerates(s, k, w) <==> Taken(s, k, s.psus[k].inVolt) == 0.0 && (q.on ==> Part(s, 1 - k, w) == Part(s, 1 - k, q.inVolt))
  {
    TakenZero(s, k, s.psus[k].inVolt);
    if s.psus[1 - k].on {
      PartsDiffer(s, 1 - k, w, s.psus[1 - k].inVolt);
    }
    hide Full, Part, Taken;
  }

  /** The input of supply k rises from one voltage it works at to another: right exactly when the server
      is on or tolerates it. */
  lemma RisingExactly(s: ServerState, k: nat, w: real)
    requires Working(s, k, w) && w > s.psus[k].inVolt
    ensures KeepsExactly(s, PsuWave(s, k, PsuAfterInput(s.psus[k], w)), k, 0.0, s.on || Tolerates(s, k, w))
  {
    var t := PsuWave(s, k, Following(s, k, w)).server;
    FollowsInput(s, k, w);
    RiseWave(s, k, w);
    RiseReports(s, k, w);
    StillFedOn(s, t, k, w);
    if s.on {
      RiseWhileOn(s, t, k, w);
    } else if s.powerOnAc {
      RiseWhileOff(s, t, k, w);
      RiseToleratesExactly(s, k, w);
      hide *;
    } else {
      RiseUnnoticed(s, t, k, w);
    }
  }

  lemma RiseUnnoticed(s: ServerState, t: ServerState, k: nat, w: real)
    requires Working(s, k, w) && Risen(s, t, k, w) && !Powered(s)
    ensures Shared(t)
  {
    StillFedOn(s, t, k, w);
    hide Full, Part, Configured, Fed, Psu.Usage;
  }

  // ----- Falling -----

  /** A lower voltage keeps the books exactly when the supply uses nothing itself, and the server
      uses nothing or is on with nobody else's part on this supply: the handler sets the supply's load to
      its part. */
  predicate CanFall(s: ServerState, k: nat)
    requires |s.psus| == 2 && k < 2
  {
    s.psus[k].watts == 0.0 && (s.watts == 0.0 || (s.on && (s.psus[1 - k].on || s.psus[k].draw == 1.0)))
  }

  predicate Fallen(s: ServerState, t: ServerState, k: nat, w: real) {
    && |s.psus| == |t.psus| == 2 && k < 2 && t.inVolt > 0.0
    && t == s.(inVolt := t.inVolt, load := Full(s, w), psus := t.psus)
    && t.psus[k] == s.psus[k].(inVolt := w, load := Part(s, k, w)) && t.psus[1 - k] == s.psus[1 - k]
  }

  lemma FallEvent(s: ServerState, k: nat, out: Change)
    requires k < |s.psus| && out.before > out.after > 0.0
    ensures ServerReaction(s, k, out) == AfterVoltageDown(s, k, out)
  {
    hide AfterVoltageDown, AfterVoltageUp;
  }

  lemma FallWave(s: ServerState, k: nat, w: real)
    requires Working(s, k, w) && w < s.psus[k].inVolt
    ensures var o := PsuWave(s, k, Following(s, k, w)); Fallen(s, o.server, k, w) && Reported(s, o, k, 0.0)
  {
    var r := Following(s, k, w);
    var s1 := s.(psus := s.psus[k := r.psu]);
    var q := s.psus[1 - k];
    LoadsAreSigned(s, k);
    UsageZero(r.psu);
    TakenSigned(s, k, w);
    assert |s.psus| == 2 && w > 0.0 && r.reported == r.psu.load - s.psus[k].load;
    ChangedSupply(s, k, r.psu);
    SameParts(s, k, r.psu, r.out);
    DeliveredTo(r.psu, Part(s, k, w));
    DeliveredTo(q, q.load);
    hide Shared, Configured, Full, Part, Taken, ServerReaction, PsuWave, Delivered, Psu.Usage, Carried, AfterVoltageDown, InputDetected, OwnLoad;
    PairDown(s1, k, r.out);
    FallEvent(s1, k, r.out);
    WaveDelivers(s, k, r, AfterVoltageDown(s1, k, r.out));
  }

  lemma FallenExactly(s: ServerState, t: ServerState, k: nat, w: real)
    requires Working(s, k, w) && Fallen(s, t, k, w)
    ensures SameEquipment(s, t)
    ensures Shared(t) <==> t.psus[k].Usage() == 0.0 && if s.on then Part(s, k, w) == Taken(s, k, w) else Full(s, w) == 0.0
  {
    SameDraws(s, t);
    UsageZero(t.psus[k]);
    PartsAddUp(s, w);
    assert Configured(t) && Fed(t, 0) && Fed(t, 1);
    hide Full, Part, Configured, Fed, Psu.Usage;
    if s.on {
      assert t.psus[k].on && t.load == Full(t, t.psus[k].inVolt);
    }
  }

  lemma CanFallExactly(s: ServerState, k: nat, w: real)
    requires Working(s, k, w)
    ensures CanFall(s, k)
       <==> s.psus[k].(inVolt := w).Usage() == 0.0 && if s.on then Part(s, k, w) == Taken(s, k, w) else Full(s, w) == 0.0
  {
    UsageZero(s.psus[k].(inVolt := w));
    PartZero(s, 0, w);
    PartZero(s, 1, w);
    PartsAddUp(s, w);
    hide Full, Part, Psu.Usage;
  }

  lemma FallingExactly(s: ServerState, k: nat, w: real)
    requires Working(s, k, w) && w < s.psus[k].inVolt
    ensures KeepsExactly(s, PsuWave(s, k, PsuAfterInput(s.psus[k], w)), k, 0.0, CanFall(s, k))
  {
    var t := PsuWave(s, k, Following(s, k, w)).server;
    FollowsInput(s, k, w);
    FallWave(s, k, w);
    FallenExactly(s, t, k, w);
    CanFallExactly(s, k, w);
    assert t.psus[k].Usage() == s.psus[k].(inVolt := w).Usage();
    hide PsuWave, PsuAfterInput, Following, Fallen, Part, Full, Taken, Shared, Reported, SameEquipment, CanFall, Psu.Usage;
  }

  // ----- Nothing moves -----

  lemma QuietReport(p: Psu, w: real)
    requires (if p.on then w == p.inVolt > p.minVoltage else w == 0.0) && p.load >= 0.0 && p.minVoltage >= 0.0 && w >= 0.0
    ensures var r := PsuAfterInput(p, w);
            r.psu == p.(inVolt := w) && r.out.Unchanged() && r.reported == 0.0
  {
    hide CalculateLoad;
  }

  lemma QuietWave(s: ServerState, k: nat, r: PsuReport)
    requires |s.psus| == 2 && k < 2 && r.out.Unchanged() && r.reported == 0.0 && r.psu.load == s.psus[k].load
    ensures PsuWave(s, k, r) == Outcome(s.(psus := s.psus[k := r.psu]), [0.0, 0.0])
  {
    var s1 := s.(psus := s.psus[k := r.psu]);
    assert ServerReaction(s1, k, r.out) == Reaction(s1, []);
    WaveEnds(s, k, r, s1);
    hide ServerReaction, PsuWave;
    assert PsuWave(s, k, r).reports == [0.0, 0.0];
  }

  /** Nothing but the stored input changes. */
  lemma QuietExactly(s: ServerState, k: nat, w: real)
    requires Shared(s) && k < 2 && (if s.psus[k].on then w == s.psus[k].inVolt else w == 0.0)
    ensures KeepsExactly(s, PsuWave(s, k, PsuAfterInput(s.psus[k], w)), k, 0.0, true)
  {
    LoadsAreSigned(s, k);
    assert |s.psus| == 2 && s.psus[k].minVoltage >= 0.0 && (s.psus[k].on ==> s.psus[k].inVolt > s.psus[k].minVoltage);
    hide PsuAfterInput, PsuWave, Shared, KeepsExactly;
    QuietReport(s.psus[k], w);
    QuietWave(s, k, PsuAfterInput(s.psus[k], w));
    QuietOutcome(s, k, w, PsuWave(s, k, PsuAfterInput(s.psus[k], w)));
  }

  lemma QuietOutcome(s: ServerState, k: nat, w: real, o: Outcome)
    requires Shared(s) && k < 2 && (if s.psus[k].on then w == s.psus[k].inVolt else w == 0.0)
    requires o == Outcome(s.(psus := s.psus[k := s.psus[k].(inVolt := w)]), [0.0, 0.0])
    ensures KeepsExactly(s, o, k, 0.0, true)
  {
    SameDraws(s, o.server);
    hide Full, Part;
  }
}
