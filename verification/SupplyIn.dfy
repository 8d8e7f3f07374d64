// A supply that feeds the server a higher voltage than before: it comes back, or it is off and passes
// on what it is fed.

module SupplyIn {
  import opened Events
  import opened Server
  import opened ServerLoad
  import opened ServerPair
  import opened SupplyOut

  // ----- The reaction -----

  /** What the server makes of a rise of supply k. */
  predicate UpReacts(s: ServerState, k: nat, r: PsuReport, e: Reaction) {
    && |s.psus| == 2 && k < 2
    && var s1 := s.(psus := s.psus[k := r.psu]);
    && var q := s.psus[1 - k];
    && var w := r.out.after;
    && e.server.inVolt >= w
    && if !Powered(s) then e == Reaction(s1.(inVolt := e.server.inVolt), [])
       else
         && |e.streamed| == 2
         && e.server == s1.(on := s.on || Supplied(s1), vmActive := s.on || Supplied(s1), inVolt := e.server.inVolt,
                            load := if s.on && Gives(s, q, r.out) then s.load else Full(s, w))
         && e.streamed[k] == Change(Taken(s, k, r.out.before), Taken(s, k, w))
         && e.streamed[1 - k]
              == if Gives(s, q, r.out) then Change(Clamp(q.load), Clamp(q.load - Part(s, k, w)))
                 else if q.on && !s.on then Change(0.0, Part(s, 1 - k, w)) else Change(0.0, 0.0)
  }

  lemma UpEvent(s: ServerState, k: nat, out: Change)
    requires k < |s.psus| && 0.0 <= out.before < out.after
    ensures ServerReaction(s, k, out) == AfterVoltageUp(s, k, out)
  {
    hide AfterVoltageDown, AfterVoltageUp;
  }

  /** The handler does not look at what changed about supply k itself. */
  lemma SameParts(s: ServerState, k: nat, p: Psu, volt: Change)
    requires |s.psus| == 2 && k < 2 && SameSupply(s.psus[k], p)
    ensures var s1 := s.(psus := s.psus[k := p]);
            && (forall u :: Full(s1, u) == Full(s, u)) && (forall u :: Taken(s1, k, u) == Taken(s, k, u))
            && (forall i: nat, u :: i < 2 ==> Part(s1, i, u) == Part(s, i, u))
            && Gives(s1, s.psus[1 - k], volt) == Gives(s, s.psus[1 - k], volt)
  {
  }

  lemma BootsWhenSupplied(s: ServerState, w: real)
    requires w > 0.0 && !s.on && !s.vmActive
    ensures var d := InputDetected(s, w);
            PoweredUp(d).(load := 0.0) == s.(on := Supplied(s), vmActive := Supplied(s), inVolt := d.inVolt, load := 0.0)
  {
    var d := InputDetected(s, w);
    assert Supplied(d) == Supplied(s) by {
      if Supplied(s) {
        var i :| 0 <= i < |s.psus| && s.psus[i].OutputVoltage() > s.minVoltage;
        assert d.psus[i].OutputVoltage() > d.minVoltage;
      }
      if Supplied(d) {
        var i :| 0 <= i < |d.psus| && d.psus[i].OutputVoltage() > d.minVoltage;
        assert s.psus[i].OutputVoltage() > s.minVoltage;
      }
    }
  }

  lemma UpReaction(s: ServerState, k: nat, r: PsuReport)
    requires Configured(s) && k < 2 && s.vmActive == s.on && SameSupply(s.psus[k], r.psu) && 0.0 <= r.out.before < r.out.after
    ensures UpReacts(s, k, r, ServerReaction(s.(psus := s.psus[k := r.psu]), k, r.out))
  {
    var s1 := s.(psus := s.psus[k := r.psu]);
    assert |s.psus| == 2;
    if !s.on {
      BootsWhenSupplied(s1, r.out.after);
    }
    hide AfterVoltageUp, Configured, Part, Full, Taken, Gives, ServerReaction, PoweredUp, Supplied;
    ChangedSupply(s, k, r.psu);
    SameParts(s, k, r.psu, r.out);
    PairUp(s1, k, r.out);
    UpEvent(s1, k, r.out);
  }

  // ----- A supply that comes back -----

  /** A report that supply k feeds the server again at w, with `extra` on top of its idle usage. */
  predicate ComesBack(s: ServerState, k: nat, r: PsuReport, w: real, extra: real)
    requires |s.psus| == 2 && k < 2
  {
    var p := s.psus[k].(on := true, byUser := false, inVolt := w);
    && Works(s, k, w) && extra >= 0.0
    && r == PsuReport(p.(load := p.Usage() + extra), Change(0.0, w), p.Usage())
  }

  /** The server when supply k is back at w. */
  predicate Rejoined(s: ServerState, t: ServerState, k: nat, r: PsuReport, w: real) {
    && |s.psus| == |t.psus| == 2 && k < 2
    && var q := s.psus[1 - k];
    && var gives := s.on && q.on && Part(s, k, q.inVolt) > 0.0;
    && if !Powered(s) then t == s.(inVolt := t.inVolt, psus := s.psus[k := r.psu]) && t.inVolt > 0.0
       else
         && t == s.(on := true, vmActive := true, inVolt := t.inVolt, load := if gives then s.load else Full(s, w), psus := t.psus)
         && t.inVolt > 0.0
         && t.psus[k] == r.psu.(load := r.psu.load + Taken(s, k, w))
         && t.psus[1 - k] == q.(load := if gives then Clamp(q.load - Part(s, k, w)) else if q.on && !s.on then q.load + Part(s, 1 - k, w) else q.load)
  }

  /** The other supply has something to give back while it carries everything. */
  lemma GivesExactly(s: ServerState, k: nat, volt: Change)
    requires Shared(s) && k < 2 && !s.psus[k].on && volt.before == 0.0
    ensures Gives(s, s.psus[1 - k], volt) <==> s.on && s.psus[1 - k].on && Part(s, k, s.psus[1 - k].inVolt) > 0.0
  {
    var q := s.psus[1 - k];
    if q.on {
      PartsAddUp(s, q.inVolt);
      assert DrawingExtra(s, q) <==> Part(s, 1 - k, q.inVolt) + q.Usage() < q.load;
      hide Full, Part, Psu.Usage, DrawingExtra;
    }
  }

  lemma TakenSigned(s: ServerState, k: nat, u: real)
    requires Configured(s) && k < 2 && u >= 0.0
    ensures Taken(s, k, u) >= 0.0 && Full(s, u) >= 0.0 && Part(s, k, u) >= 0.0 && Part(s, 1 - k, u) >= 0.0
    ensures Taken(s, k, 0.0) == 0.0
  {
    PartsAddUp(s, u);
  }

  lemma Added(p: Psu, x: real)
    requires p.load >= 0.0 && x >= 0.0
    ensures Delivered(p, Change(0.0, x)) == p.(load := p.load + x)
    ensures Delivered(p, Change(Clamp(p.load), Clamp(p.load - x))) == p.(load := Clamp(p.load - x))
  {
  }

  lemma SuppliedNow(s: ServerState, k: nat, p: Psu)
    requires k < |s.psus| && p.on && p.inVolt > s.minVoltage
    ensures Supplied(s.(psus := s.psus[k := p]))
  {
    var s1 := s.(psus := s.psus[k := p]);
    assert s1.psus[k].OutputVoltage() > s1.minVoltage;
  }

  lemma ReturnWave(s: ServerState, k: nat, r: PsuReport, w: real, extra: real)
    requires Shared(s) && k < 2 && !s.psus[k].on && ComesBack(s, k, r, w, extra)
    ensures var o := PsuWave(s, k, r); Rejoined(s, o.server, k, r, w) && Reported(s, o, k, -extra)
  {
    var e := ServerReaction(s.(psus := s.psus[k := r.psu]), k, r.out);
    var q := s.psus[1 - k];
    LoadsAreSigned(s, k);
    UsageZero(r.psu);
    UpReaction(s, k, r);
    GivesExactly(s, k, r.out);
    SuppliedNow(s, k, r.psu);
    TakenSigned(s, k, w);
    Added(r.psu, Taken(s, k, w));
    Added(q, Part(s, k, w));
    Added(q, Part(s, 1 - k, w));
    Added(q, 0.0);
    assert s.psus[k].load == 0.0 && |s.psus| == 2;
    hide Shared, Full, Part, Taken, Gives, ServerReaction, PsuWave, Delivered, Supplied, Psu.Usage;
    if Powered(s) {
      WaveDelivers(s, k, r, e);
    } else {
      WaveEnds(s, k, r, e.server);
    }
  }

  // ----- When it is right -----

  /** Supply k can come back at w: the server stays off, the other supply is off or at the same
      voltage, or it has no part to give back or to take. (A supply that uses nothing and has no part is
      cut off at nothing when it is asked for more than it has.) */
  predicate CanReturn(s: ServerState, k: nat, w: real)
    requires |s.psus| == 2 && k < 2
  {
    var q := s.psus[1 - k];
    !Powered(s) || !q.on || s.watts == 0.0 || w == q.inVolt ||
    if s.on then s.psus[k].draw == 0.0 || (q.watts == 0.0 && q.draw == 0.0 && w < q.inVolt) else q.draw == 0.0
  }

  lemma SameDraws(s: ServerState, t: ServerState)
    requires SameEquipment(s, t)
    ensures forall u :: Full(t, u) == Full(s, u)
    ensures forall i: nat, u :: i < 2 ==> Part(t, i, u) == Part(s, i, u)
  {
    hide CalculateLoad;
  }

  lemma StillConfigured(s: ServerState, t: ServerState, k: nat, r: PsuReport, w: real, extra: real)
    requires Shared(s) && k < 2 && !s.psus[k].on && ComesBack(s, k, r, w, extra) && Rejoined(s, t, k, r, w)
    ensures Configured(t) && Fed(t, 0) && Fed(t, 1) && SameEquipment(s, t) && t.on == Powered(s)
    ensures forall u :: Full(t, u) == Full(s, u)
    ensures forall i: nat, u :: i < 2 ==> Part(t, i, u) == Part(s, i, u)
  {
    assert SameEquipment(s, t) by {
      hide Part, Full, Expected, ServerLoaded, Psu.Usage, Taken, Configured;
    }
    hide Part, Full, Expected, ServerLoaded, Psu.Usage, Taken;
    SameDraws(s, t);
  }

  /** The server stays off. */
  lemma ReturnUnnoticed(s: ServerState, t: ServerState, k: nat, r: PsuReport, w: real, extra: real)
    requires Shared(s) && k < 2 && !s.psus[k].on && ComesBack(s, k, r, w, extra) && Rejoined(s, t, k, r, w) && !Powered(s)
    ensures Shared(t) <==> extra == 0.0
  {
    StillConfigured(s, t, k, r, w, extra);
    hide Configured, Fed, Full, Part, Psu.Usage;
  }

  /** The other supply is off: supply k carries everything. */
  lemma ReturnAlone(s: ServerState, t: ServerState, k: nat, r: PsuReport, w: real, extra: real)
    requires Shared(s) && k < 2 && !s.psus[k].on && ComesBack(s, k, r, w, extra) && Rejoined(s, t, k, r, w) && Powered(s) && !s.psus[1 - k].on
    ensures Shared(t) <==> extra == 0.0
  {
    StillConfigured(s, t, k, r, w, extra);
    hide Configured, Fed, Full, Part, Psu.Usage;
    assert t.psus[k].on && t.load == Full(t, t.psus[k].inVolt);
  }

  /** The server boots between two supplies. */
  lemma ReturnBoots(s: ServerState, t: ServerState, k: nat, r: PsuReport, w: real, extra: real)
    requires Shared(s) && k < 2 && !s.psus[k].on && ComesBack(s, k, r, w, extra) && Rejoined(s, t, k, r, w) && Powered(s) && s.psus[1 - k].on && !s.on
    ensures Shared(t) <==> extra == 0.0 && Part(s, 1 - k, w) == Part(s, 1 - k, s.psus[1 - k].inVolt)
  {
    StillConfigured(s, t, k, r, w, extra);
    hide Configured, Fed, Full, Part, Psu.Usage;
    assert t.psus[k].on && t.load == Full(t, t.psus[k].inVolt);
  }

  /** The other supply is left with its own part after giving back what the server draws of k at w. */
  predicate GivesBackRight(s: ServerState, k: nat, w: real)
    requires |s.psus| == 2 && k < 2
  {
    var q := s.psus[1 - k];
    Part(s, k, q.inVolt) == 0.0 ||
    Clamp(q.Usage() + Full(s, q.inVolt) - Part(s, k, w)) == q.Usage() + Part(s, 1 - k, q.inVolt)
  }

  /** The other supply gives back what the server draws of supply k at w. */
  lemma ReturnGives(s: ServerState, t: ServerState, k: nat, r: PsuReport, w: real, extra: real)
    requires Shared(s) && k < 2 && !s.psus[k].on && ComesBack(s, k, r, w, extra) && Rejoined(s, t, k, r, w) && s.on
    ensures var q := s.psus[1 - k];
            q.on && (Shared(t) <==> extra == 0.0 && GivesBackRight(s, k, w))
  {
    var q := s.psus[1 - k];
    StillConfigured(s, t, k, r, w, extra);
    PartsAddUp(s, q.inVolt);
    hide Configured, Fed, Full, Part, Psu.Usage;
    assert q.on && q.load == q.Usage() + Full(s, q.inVolt) && (Part(s, k, q.inVolt) > 0.0 ==> s.load == Full(s, q.inVolt));
    assert ServerLoaded(t) by {
      if Part(s, k, q.inVolt) > 0.0 {
        assert t.psus[1 - k].on && t.load == Full(t, t.psus[1 - k].inVolt);
      } else {
        assert t.psus[k].on && t.load == Full(t, t.psus[k].inVolt);
      }
    }
  }

  lemma GiveBackNumbers(usage: real, mine: real, other: real, there: real)
    requires usage >= 0.0 && mine > 0.0 && other >= 0.0 && there >= 0.0
    ensures Clamp(usage + (mine + other) - there) == usage + other <==> there == mine || (usage == 0.0 && other == 0.0 && there > mine)
  {
  }

  lemma OrderedProducts(x: real, y: real, d: real)
    requires d > 0.0
    ensures x < y <==> x * d < y * d
  {
  }

  lemma FullOrdered(s: ServerState, u: real, w: real)
    requires s.watts > 0.0 && u > 0.0 && w > 0.0
    ensures Full(s, w) > Full(s, u) <==> w < u
  {
    if w < u {
      FullFalls(s, w, u);
    } else if w > u {
      FullFalls(s, u, w);
    }
  }

  lemma PartFalls(s: ServerState, k: nat, u: real, w: real)
    requires Configured(s) && k < 2 && u > 0.0 && w > 0.0 && s.watts > 0.0 && s.psus[k].draw > 0.0
    ensures Part(s, k, u) > 0.0 && (Part(s, k, w) > Part(s, k, u) <==> w < u) && (Part(s, k, w) == Part(s, k, u) <==> w == u)
  {
    PartsDiffer(s, k, u, w);
    PartZero(s, k, u);
    PartsAddUp(s, u);
    FullOrdered(s, u, w);
    hide Full;
    OrderedProducts(Full(s, u), Full(s, w), s.psus[k].draw);
  }

  lemma GiveBackExactly(s: ServerState, k: nat, w: real)
    requires Shared(s) && k < 2 && !s.psus[k].on && s.on && w > 0.0
    ensures CanReturn(s, k, w) <==> GivesBackRight(s, k, w)
  {
    var q := s.psus[1 - k];
    var v := q.inVolt;
    assert q.on && v > 0.0 && s.watts >= 0.0 && s.psus[k].draw >= 0.0;
    PartZero(s, k, v);
    if s.watts != 0.0 && s.psus[k].draw != 0.0 {
      PartFalls(s, k, v, w);
      PartZero(s, 1 - k, v);
      PartsAddUp(s, v);
      PartsAddUp(s, w);
      UsageZero(q);
      hide Full, Part, Psu.Usage, Shared;
      GiveBackNumbers(q.Usage(), Part(s, k, v), Part(s, 1 - k, v), Part(s, k, w));
    }
  }

  lemma RejoinedExactly(s: ServerState, t: ServerState, k: nat, r: PsuReport, w: real, extra: real)
    requires Shared(s) && k < 2 && !s.psus[k].on && ComesBack(s, k, r, w, extra) && Rejoined(s, t, k, r, w)
    ensures Shared(t) <==> extra == 0.0 && CanReturn(s, k, w)
    ensures SameEquipment(s, t)
  {
    var q := s.psus[1 - k];
    StillConfigured(s, t, k, r, w, extra);
    assert Configured(s) && w > 0.0 && (q.on ==> q.inVolt > 0.0);
    if !Powered(s) {
      ReturnUnnoticed(s, t, k, r, w, extra);
    } else if !q.on {
      ReturnAlone(s, t, k, r, w, extra);
    } else if s.on {
      ReturnGives(s, t, k, r, w, extra);
      GiveBackExactly(s, k, w);
    } else {
      ReturnBoots(s, t, k, r, w, extra);
      PartsDiffer(s, 1 - k, w, q.inVolt);
      hide Shared, Part, Full, Rejoined, ComesBack;
    }
  }

  lemma ReturnExactly(s: ServerState, k: nat, r: PsuReport, w: real, extra: real)
    requires Shared(s) && k < 2 && !s.psus[k].on && ComesBack(s, k, r, w, extra)
    ensures KeepsExactly(s, PsuWave(s, k, r), k, 0.0, CanReturn(s, k, w) && extra == 0.0)
  {
    assert |s.psus| == 2;
    hide PsuWave, ComesBack, Rejoined, Shared, CanReturn, SameEquipment, Reported;
    ReturnWave(s, k, r, w, extra);
    RejoinedExactly(s, PsuWave(s, k, r).server, k, r, w, extra);
    assert extra == 0.0 ==> -extra == 0.0;
  }

  lemma LoadFromNothing(watts: real, v: real)
    requires v > 0.0 && watts >= 0.0
    ensures LoadFromVolt(watts, Change(0.0, v)) == Change(0.0, CalculateLoad(watts, v)) && CalculateLoad(watts, v) >= 0.0
  {
  }

  lemma PowersUpAs(p: Psu, w: real)
    requires !p.on && !p.byUser && 0.0 <= p.minVoltage < w
    ensures var c := LoadFromVolt(p.watts, Change(0.0, w));
            PsuAfterInput(p, w) == PsuReport(p.(on := true, inVolt := w, load := Recalculated(Clamp(p.load + p.Usage()), c)), Change(0.0, w), c.Difference())
  {
    hide LoadFromVolt, CalculateLoad, Psu.Usage, Recalculated;
  }

  lemma Adds(load: real, own: real)
    requires load >= 0.0 && own >= 0.0
    ensures Recalculated(Clamp(load), Change(0.0, own)) == load + own
  {
  }

  /** A supply that powers up adds its usage at the voltage it had so far. */
  lemma SupplyComesBack(p: Psu, w: real)
    requires !p.on && !p.byUser && p.load == 0.0 && 0.0 <= p.minVoltage < w && p.watts >= 0.0 && p.inVolt >= 0.0
    ensures var own := CalculateLoad(p.watts, w);
            PsuAfterInput(p, w) == PsuReport(p.(on := true, byUser := false, inVolt := w, load := own + p.Usage()), Change(0.0, w), own)
  {
    hide LoadFromVolt, CalculateLoad, Psu.Usage, Recalculated, PsuAfterInput, Clamp;
    LoadFromNothing(p.watts, w);
    UsageSign(p);
    PowersUpAs(p, w);
    Adds(p.load + p.Usage(), CalculateLoad(p.watts, w));
  }

  /** Supply k comes back at w: right exactly when the other supply lets it and nothing is left of its
      own usage, which it would store twice. */
  lemma RestoringExactly(s: ServerState, k: nat, w: real)
    requires Shared(s) && k < 2 && !s.psus[k].on && !s.psus[k].byUser && Works(s, k, w)
    ensures var p := s.psus[k];
            KeepsExactly(s, PsuWave(s, k, PsuAfterInput(p, w)), k, 0.0, CanReturn(s, k, w) && (p.inVolt == 0.0 || p.watts == 0.0))
  {
    var p := s.psus[k];
    OffSupplyIs(s, k);
    assert w > p.minVoltage;
    hide *;
    RestorationComesBack(s, k, w);
    UsageZero(p);
    ReturnExactly(s, k, PsuAfterInput(p, w), w, p.Usage());
  }

  lemma RestorationComesBack(s: ServerState, k: nat, w: real)
    requires Shared(s) && k < 2 && !s.psus[k].on && !s.psus[k].byUser && Works(s, k, w)
    ensures ComesBack(s, k, PsuAfterInput(s.psus[k], w), w, s.psus[k].Usage())
  {
    var p := s.psus[k];
    OffSupplyIs(s, k);
    hide PsuAfterInput, Shared, CalculateLoad, Psu.Usage;
    UsageSign(p);
    SupplyComesBack(p, w);
    UsageAt(p, w);
  }

  lemma UsageAt(p: Psu, w: real)
    ensures p.(on := true, byUser := false, inVolt := w).Usage() == CalculateLoad(p.watts, w)
  {
  }

  lemma OffSupplyIs(s: ServerState, k: nat)
    requires Shared(s) && k < 2 && !s.psus[k].on
    ensures var p := s.psus[k];
            |s.psus| == 2 && p.load == 0.0 && p.watts >= 0.0 && p.inVolt >= 0.0 && p.minVoltage >= 0.0
  {
    hide Full, Part, Psu.Usage;
  }

  lemma PressComesBack(s: ServerState, k: nat)
    requires Shared(s) && k < 2 && !s.psus[k].on && Works(s, k, s.psus[k].inVolt)
    ensures ComesBack(s, k, PsuAfterButton(s.psus[k], true), s.psus[k].inVolt, 0.0)
  {
    var p := s.psus[k];
    OffSupplyIs(s, k);
    assert p.(inVolt := p.inVolt) == p && p.inVolt > 0.0;
    hide LoadFromVolt, Shared, CalculateLoad, Psu.Usage;
    UsageSign(p);
    UsageAt(p, p.inVolt);
    LoadFromNothing(p.watts, p.inVolt);
  }

  /** Supply k is switched on again at the voltage it has. */
  lemma PressingOnExactly(s: ServerState, k: nat)
    requires Shared(s) && k < 2 && !s.psus[k].on && Works(s, k, s.psus[k].inVolt)
    ensures KeepsExactly(s, PsuWave(s, k, PsuAfterButton(s.psus[k], true)), k, 0.0, CanReturn(s, k, s.psus[k].inVolt))
  {
    var w := s.psus[k].inVolt;
    PressComesBack(s, k);
    assert |s.psus| == 2;
    hide *;
    ReturnExactly(s, k, PsuAfterButton(s.psus[k], true), w, 0.0);
  }
}
