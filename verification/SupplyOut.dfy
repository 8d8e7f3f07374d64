// A supply that stops feeding the server: its input fails, or its button is pressed.

module SupplyOut {
  import opened Events
  import opened Server
  import opened ServerLoad
  import opened ServerPair

  /** A report that supply k stopped feeding the server. */
  predicate GoesOut(s: ServerState, k: nat, r: PsuReport)
    requires |s.psus| == 2 && k < 2
  {
    && r.out == Change(s.psus[k].inVolt, 0.0)
    && r.psu == s.psus[k].(on := false, byUser := r.psu.byUser, inVolt := r.psu.inVolt, load := r.psu.load)
    && r.psu.inVolt >= 0.0
    && (r.psu.inVolt <= r.psu.minVoltage || (r.psu.byUser && Works(s, k, r.psu.inVolt)))
  }

  /** What the other supply is asked to take of a load: all but the idle usage, unless the load happens
      to be the supply's part of the load stored for the server. */
  function HandedOver(s: ServerState, k: nat, load: real): real
    requires k < |s.psus|
  {
    load - if s.load * s.psus[k].draw == load then 0.0 else s.psus[k].Usage()
  }

  /** The server and its supplies when k is out. */
  predicate TakenOver(s: ServerState, t: ServerState, k: nat, r: PsuReport) {
    && |s.psus| == |t.psus| == 2 && k < 2
    && var q := s.psus[1 - k];
    && t == (if q.on then s else PoweredOff(s)).(inVolt := t.inVolt, psus := t.psus) && t.inVolt >= 0.0 && (q.on && q.inVolt > 0.0 ==> t.inVolt > 0.0)
    && t.psus[k] == r.psu.(load := 0.0)
    && t.psus[1 - k] == if q.on then q.(load := Clamp(q.load + HandedOver(s, k, r.psu.load))) else q
  }

  lemma HandedOverIs(s: ServerState, k: nat, r: PsuReport)
    requires |s.psus| == 2 && k < 2 && GoesOut(s, k, r)
    ensures r.psu.load - OwnLoad(s.(psus := s.psus[k := r.psu]), k, r.out) == HandedOver(s, k, r.psu.load)
  {
  }

  lemma DownReaction(s: ServerState, k: nat, out: Change)
    requires k < |s.psus| && out.before > 0.0 && out.after == 0.0
    ensures ServerReaction(s, k, out) == AfterVoltageDown(s, k, out)
  {
    hide AfterVoltageDown, AfterVoltageUp;
  }

  lemma ChangedSupply(s: ServerState, k: nat, p: Psu)
    requires Configured(s) && k < 2 && SameSupply(s.psus[k], p)
    ensures Configured(s.(psus := s.psus[k := p]))
  {
  }

  /** What the server makes of it. */
  predicate OutReacts(s: ServerState, k: nat, r: PsuReport, e: Reaction) {
    && |s.psus| == 2 && k < 2 && |e.streamed| == 2 && e.server.inVolt >= 0.0
    && var s1 := s.(psus := s.psus[k := r.psu]);
    && var q := s.psus[1 - k];
    && e.server == (if q.on then s1 else PoweredOff(s1)).(inVolt := e.server.inVolt) && (q.on && q.inVolt > 0.0 ==> e.server.inVolt > 0.0)
    && e.streamed[k] == Change(r.psu.load, 0.0)
    && e.streamed[1 - k] == Change(q.load, if q.on then Clamp(q.load + HandedOver(s, k, r.psu.load)) else q.load)
  }

  lemma OutReaction(s: ServerState, k: nat, r: PsuReport)
    requires Configured(s) && k < 2 && s.psus[k].inVolt > 0.0 && GoesOut(s, k, r)
    ensures OutReacts(s, k, r, ServerReaction(s.(psus := s.psus[k := r.psu]), k, r.out))
  {
    var s1 := s.(psus := s.psus[k := r.psu]);
    HandedOverIs(s, k, r);
    assert |s.psus| == 2 && Part(s1, k, 0.0) == 0.0;
    hide AfterVoltageDown, OwnLoad, HandedOver, Configured, Part, Full, ServerReaction, InputDetected;
    ChangedSupply(s, k, r.psu);
    PairDown(s1, k, r.out);
    DownReaction(s1, k, r.out);
  }

  lemma DeliveredTo(p: Psu, load: real)
    requires p.load >= 0.0
    ensures Delivered(p, Change(p.load, Clamp(load))) == p.(load := Clamp(load)) && Delivered(p, Change(p.load, p.load)) == p
    ensures load >= 0.0 ==> Delivered(p, Change(p.load, load)) == p.(load := load)
  {
  }

  lemma OutDelivers(s: ServerState, k: nat, r: PsuReport, e: Reaction)
    requires OutReacts(s, k, r, e) && r.psu.load >= 0.0 && s.psus[1 - k].load >= 0.0
    ensures Delivered(r.psu, e.streamed[k]) == r.psu.(load := 0.0)
    ensures var q := s.psus[1 - k];
            Delivered(q, e.streamed[1 - k]) == if q.on then q.(load := Clamp(q.load + HandedOver(s, k, r.psu.load))) else q
  {
    var q := s.psus[1 - k];
    hide HandedOver, Delivered;
    DeliveredTo(r.psu, 0.0);
    DeliveredTo(q, q.load + HandedOver(s, k, r.psu.load));
  }

  lemma OutWave(s: ServerState, k: nat, r: PsuReport)
    requires Configured(s) && k < 2 && s.psus[k].inVolt > 0.0 && GoesOut(s, k, r) && r.psu.load >= 0.0 && s.psus[1 - k].load >= 0.0
    ensures var o := PsuWave(s, k, r);
            TakenOver(s, o.server, k, r) && Reported(s, o, k, r.reported - (r.psu.load - s.psus[k].load))
  {
    var e := ServerReaction(s.(psus := s.psus[k := r.psu]), k, r.out);
    assert |s.psus| == 2;
    hide *;
    OutReaction(s, k, r);
    OutDelivers(s, k, r, e);
    WaveDelivers(s, k, r, e);
    OutSettles(s, k, r, e, PsuWave(s, k, r));
  }

  /** The wave, once what it delivers is known. */
  lemma OutSettles(s: ServerState, k: nat, r: PsuReport, e: Reaction, o: Outcome)
    requires OutReacts(s, k, r, e) && |o.server.psus| == |o.reports| == 2 && o == Outcome(e.server.(psus := o.server.psus), o.reports)
    requires o.server.psus[k] == r.psu.(load := 0.0) && o.reports[k] == r.reported + o.server.psus[k].load - r.psu.load
    requires var q := s.psus[1 - k];
             && o.server.psus[1 - k] == (if q.on then q.(load := Clamp(q.load + HandedOver(s, k, r.psu.load))) else q)
             && o.reports[1 - k] == o.server.psus[1 - k].load - q.load
    ensures TakenOver(s, o.server, k, r) && Reported(s, o, k, r.reported - (r.psu.load - s.psus[k].load))
  {
    hide HandedOver;
  }

  // ----- When it is right -----

  /** The other supply takes what it should, and the load stored for the server is still its draw. */
  predicate TakesOverRight(s: ServerState, k: nat, load: real)
    requires |s.psus| == 2 && k < 2
  {
    s.psus[1 - k].on && s.on ==>
      var v := s.psus[1 - k].inVolt;
      s.load == Full(s, v) && HandedOver(s, k, load) == Part(s, k, v)
  }

  lemma SameFull(s: ServerState, t: ServerState, i: nat, u: real)
    requires s.watts == t.watts && i < |s.psus| == |t.psus| && s.psus[i].draw == t.psus[i].draw
    ensures Full(s, u) == Full(t, u) && Part(s, i, u) == Part(t, i, u)
  {
  }

  lemma StillFed(s: ServerState, t: ServerState, k: nat, r: PsuReport)
    requires Shared(s) && k < 2 && s.psus[k].on && GoesOut(s, k, r) && TakenOver(s, t, k, r)
    ensures Configured(t) && Fed(t, k) && Fed(t, 1 - k) && SameEquipment(s, t)
  {
    hide HandedOver, Expected, ServerLoaded;
  }

  /** With the other supply off everything is off. */
  lemma AllOut(s: ServerState, t: ServerState, k: nat, r: PsuReport)
    requires Shared(s) && k < 2 && s.psus[k].on && GoesOut(s, k, r) && TakenOver(s, t, k, r) && !s.psus[1 - k].on
    ensures Shared(t)
  {
    StillFed(s, t, k, r);
    hide HandedOver, Configured, Fed, Full, Part, Psu.Usage;
  }

  /** A server that is off has nothing to hand over. */
  lemma NothingHandedOver(s: ServerState, t: ServerState, k: nat, r: PsuReport)
    requires Shared(s) && k < 2 && s.psus[k].on && GoesOut(s, k, r) && TakenOver(s, t, k, r) && s.psus[1 - k].on && !s.on
    requires r.psu.load == 0.0 || r.psu.load == s.psus[k].Usage()
    ensures Shared(t)
  {
    StillFed(s, t, k, r);
    UsageZero(s.psus[1 - k]);
    assert s.load == 0.0 && s.load * s.psus[k].draw == 0.0;
    assert HandedOver(s, k, r.psu.load) == 0.0;
    hide HandedOver, Configured, Fed, Full, Part;
  }

  /** Between two supplies that are on. */
  lemma HandedOverExactly(s: ServerState, t: ServerState, k: nat, r: PsuReport)
    requires Shared(s) && k < 2 && s.psus[k].on && GoesOut(s, k, r) && TakenOver(s, t, k, r) && s.psus[1 - k].on && s.on
    requires s.load == Full(s, s.psus[1 - k].inVolt) == 0.0 ==> HandedOver(s, k, r.psu.load) >= 0.0
    ensures Shared(t) <==> TakesOverRight(s, k, r.psu.load)
  {
    var q := s.psus[1 - k];
    StillFed(s, t, k, r);
    UsageZero(q);
    PartsAddUp(s, q.inVolt);
    SameFull(s, t, 1 - k, q.inVolt);
    hide HandedOver, Configured, Fed, Full, Part, Psu.Usage;
    assert q.load == q.Usage() + Part(s, 1 - k, q.inVolt);
    assert ServerLoaded(t) <==> s.load == Full(s, q.inVolt) by {
      if s.load == Full(s, q.inVolt) {
        assert t.psus[1 - k].on && t.load == Full(t, t.psus[1 - k].inVolt);
      }
    }
    assert Expected(t, 1 - k) == q.Usage() + Full(s, q.inVolt);
    assert Shared(t) <==> s.load == Full(s, q.inVolt) && Clamp(q.load + HandedOver(s, k, r.psu.load)) == q.Usage() + Full(s, q.inVolt);
  }

  // ----- Told from the state before -----

  /** Supply k can be lost, or switched off: the other one is off, the server is off, or the load stored
      for the server is its draw at the other supply's voltage and the part handed over is the same
      there. (The numbers also agree when the idle usage happens to be the difference.) */
  predicate CanGoOut(s: ServerState, k: nat, pressed: bool)
    requires |s.psus| == 2 && k < 2
  {
    s.psus[1 - k].on && s.on ==>
      var here, there, own := Part(s, k, s.psus[k].inVolt), Part(s, k, s.psus[1 - k].inVolt), s.psus[k].Usage();
      && s.load == Full(s, s.psus[1 - k].inVolt)
      && (here == there || if pressed then here + own == there else here == there + own)
  }

  lemma HandsOverNumbers(stored: real, here: real, there: real, own: real, pressed: bool)
    requires here >= 0.0 && there >= 0.0 && own >= 0.0 && stored == there
    ensures var load := here + if pressed then own else 0.0;
            var moved := load - if stored == load then 0.0 else own;
            && (moved == there <==> here == there || if pressed then here + own == there else here == there + own)
            && (here == there == 0.0 ==> moved >= 0.0)
  {
  }

  lemma StoredPart(s: ServerState, k: nat, v: real, load: real)
    requires k < |s.psus| && s.load == Full(s, v)
    ensures HandedOver(s, k, load) == load - if Part(s, k, v) == load then 0.0 else s.psus[k].Usage()
  {
    hide CalculateLoad;
  }

  lemma HandsOver(s: ServerState, k: nat, load: real, pressed: bool)
    requires Shared(s) && k < 2 && s.psus[k].on && s.psus[1 - k].on && s.on
    requires load == Carried(s, k) + if pressed then s.psus[k].Usage() else 0.0
    ensures TakesOverRight(s, k, load) <==> CanGoOut(s, k, pressed)
    ensures s.load == Full(s, s.psus[1 - k].inVolt) == 0.0 ==> HandedOver(s, k, load) >= 0.0
  {
    var v, u := s.psus[1 - k].inVolt, s.psus[k].inVolt;
    LoadsAreSigned(s, k);
    LoadsAreSigned(s, 1 - k);
    NoLoadNoPart(s, k, u, v);
    hide Full, Part, HandedOver, Psu.Usage, Shared;
    if s.load == Full(s, v) {
      StoredPart(s, k, v, load);
      HandsOverNumbers(Part(s, k, v), Part(s, k, u), Part(s, k, v), s.psus[k].Usage(), pressed);
    }
  }

  lemma NoLoadNoPart(s: ServerState, k: nat, u: real, v: real)
    requires Configured(s) && k < 2 && u > 0.0 && v > 0.0
    ensures Part(s, k, u) >= 0.0 && Part(s, k, v) >= 0.0
    ensures Full(s, v) == 0.0 ==> Part(s, k, u) == 0.0 == Part(s, k, v)
  {
    PartsAddUp(s, u);
    PartsAddUp(s, v);
    PartZero(s, k, u);
    PartZero(s, k, v);
    hide Part, Full;
  }

  lemma OutExactly(s: ServerState, k: nat, r: PsuReport, pressed: bool)
    requires Shared(s) && k < 2 && s.psus[k].on && GoesOut(s, k, r)
    requires r.psu.load == Carried(s, k) + if pressed then s.psus[k].Usage() else 0.0
    ensures KeepsExactly(s, PsuWave(s, k, r), k, r.reported - (r.psu.load - s.psus[k].load), CanGoOut(s, k, pressed))
  {
    var t := PsuWave(s, k, r).server;
    LoadsAreSigned(s, k);
    OutWave(s, k, r);
    StillFed(s, t, k, r);
    if !s.psus[1 - k].on {
      AllOut(s, t, k, r);
    } else if !s.on {
      NothingHandedOver(s, t, k, r);
    } else {
      HandsOver(s, k, r.psu.load, pressed);
      hide *;
      HandedOverExactly(s, t, k, r);
    }
  }

  lemma LoadsAreSigned(s: ServerState, k: nat)
    requires Shared(s) && k < 2
    ensures s.psus[k].load >= 0.0 && s.psus[1 - k].load >= 0.0 && Carried(s, k) >= 0.0 && Carried(s, 1 - k) >= 0.0
    ensures s.psus[k].Usage() >= 0.0 && s.psus[1 - k].Usage() >= 0.0 && (s.psus[k].on ==> s.psus[k].inVolt > 0.0)
  {
    UsageZero(s.psus[0]);
    UsageZero(s.psus[1]);
    PartsAddUp(s, s.psus[0].inVolt);
    PartsAddUp(s, s.psus[1].inVolt);
    hide Full, Part, Psu.Usage;
  }

  /** The supply's own part of an outage, or of a brownout it cannot work at: it gives up its idle
      usage at once. */
  lemma SupplyGoesOut(p: Psu, w: real, carried: real)
    requires p.on && p.inVolt > 0.0 && 0.0 <= w <= p.minVoltage && carried >= 0.0 && p.load == p.Usage() + carried
    ensures PsuAfterInput(p, w)
         == PsuReport(p.(on := false, byUser := false, inVolt := w, load := carried), Change(p.inVolt, 0.0), -p.Usage())
  {
  }

  /** The input of supply k falls to a voltage it cannot work at. */
  lemma LosingExactly(s: ServerState, k: nat, w: real)
    requires Shared(s) && k < 2 && s.psus[k].on && 0.0 <= w <= s.psus[k].minVoltage
    ensures KeepsExactly(s, PsuWave(s, k, PsuAfterInput(s.psus[k], w)), k, 0.0, CanGoOut(s, k, false))
  {
    LoadsAreSigned(s, k);
    SupplyGoesOut(s.psus[k], w, Carried(s, k));
    hide PsuAfterInput, CanGoOut, KeepsExactly, Psu.Usage, Carried;
    OutExactly(s, k, PsuAfterInput(s.psus[k], w), false);
  }

  /** Supply k is switched off; it reports its idle usage upstream a second time. */
  lemma PressingOffExactly(s: ServerState, k: nat)
    requires Shared(s) && k < 2 && s.psus[k].on
    ensures KeepsExactly(s, PsuWave(s, k, PsuAfterButton(s.psus[k], false)), k, -s.psus[k].Usage(), CanGoOut(s, k, true))
  {
    var p := s.psus[k];
    var r := PsuAfterButton(p, false);
    assert r == PsuReport(p.(on := false, byUser := true), Change(p.inVolt, 0.0), -p.Usage()) by {
      assert CalculateLoad(p.watts, 0.0) == 0.0;
    }
    LoadsAreSigned(s, k);
    hide PsuAfterButton, CanGoOut, KeepsExactly, Psu.Usage, Carried;
    OutExactly(s, k, r, true);
  }
}
