// The power button of a server with two supplies.

module ServerButton {
  import opened Events
  import opened Server
  import opened ServerLoad
  import opened ServerPair
  import opened SupplyOut
  import opened SupplyIn

  /** The server's button, through the state manager and then the engine. */
  function ServerPressed(s: ServerState, on: bool): (o: Outcome)
    requires |s.psus| == 2
    ensures |o.server.psus| == 2 && |o.reports| == 2
  {
    if !on then ServerWave(s, AfterButtonOff(PoweredOff(s)))
    else if Online(s.psus, 2) > 0 then ServerWave(s, AfterButtonOn(PoweredUp(s)))
    else Outcome(s, [0.0, 0.0])
  }

  // ----- Off -----

  /** Every supply falls back to its idle usage. */
  lemma ServerOffExactly(s: ServerState)
    requires Shared(s) && s.on
    ensures KeepsExactly(s, ServerPressed(s, false), -1, 0.0, true)
  {
    var o := ServerPressed(s, false);
    LoadsAreSigned(s, 0);
    LoadsAreSigned(s, 1);
    assert |s.psus| == 2;
    forall i | 0 <= i < 2
      ensures o.server.psus[i] == s.psus[i].(load := if s.psus[i].on then s.psus[i].Usage() else 0.0)
    {
      hide Full, Part, Psu.Usage, Configured;
    }
    assert o.server == PoweredOff(s).(psus := o.server.psus);
    assert forall i :: 0 <= i < 2 ==> o.reports[i] == o.server.psus[i].load - s.psus[i].load;
    hide ServerPressed, Full, Part, Psu.Usage;
    OffIsShared(s, o.server);
  }

  lemma OffIsShared(s: ServerState, t: ServerState)
    requires Shared(s) && |t.psus| == 2 && t == PoweredOff(s).(psus := t.psus)
    requires forall i :: 0 <= i < 2 ==> t.psus[i] == s.psus[i].(load := if s.psus[i].on then s.psus[i].Usage() else 0.0)
    ensures Shared(t) && SameEquipment(s, t)
  {
    hide Full, Part;
  }

  // ----- On -----

  lemma PairDraws(psus: seq<Psu>)
    requires |psus| == 2
    ensures OfflineDraw(psus, -1, 2) == (if psus[0].on then 0.0 else psus[0].draw) + (if psus[1].on then 0.0 else psus[1].draw)
    ensures Online(psus, 2) == (if psus[0].on then 1 else 0) + (if psus[1].on then 1 else 0)
  {
    assert OfflineDraw(psus, -1, 1) == (if psus[0].on then 0.0 else psus[0].draw) by {
      assert OfflineDraw(psus, -1, 0) == 0.0;
    }
    assert Online(psus, 1) == (if psus[0].on then 1 else 0) by {
      assert Online(psus, 0) == 0;
    }
  }

  /** A supply's part and the extra load together are what it takes at the server's voltage. */
  lemma PairShare(u: ServerState, i: nat)
    requires Configured(u) && i < 2 && u.psus[i].on && Online(u.psus, 2) > 0
    ensures Full(u, u.inVolt) * u.psus[i].draw + Extra(u) == Taken(u, i, u.inVolt)
  {
    var total := Full(u, u.inVolt);
    PairDraws(u.psus);
    if u.psus[1 - i].on {
      assert ExtraLoad(total, 0.0, 2) == 0.0;
    } else {
      var d := u.psus[1 - i].draw;
      assert ExtraLoad(total, d, 1) == total * d;
      Distribute(total, u.psus[i].draw, d);
      assert u.psus[i].draw + d == 1.0 && total * 1.0 == total;
    }
  }

  predicate SwitchedOn(s: ServerState, t: ServerState) {
    && |s.psus| == |t.psus| == 2
    && t == s.(on := true, vmActive := true, load := Full(s, s.inVolt), psus := t.psus)
    && forall i :: 0 <= i < 2 ==> t.psus[i] == s.psus[i].(load := if s.psus[i].on then s.psus[i].load + Taken(s, i, s.inVolt) else s.psus[i].load)
  }

  /** The server as the state manager leaves it. */
  lemma PoweredUpIs(s: ServerState)
    requires Shared(s) && !s.on && s.inVolt != 0.0 && Supplied(s)
    ensures var u := s.(on := true, vmActive := true, load := Full(s, s.inVolt));
            && PoweredUp(s) == u && Configured(u) && Online(u.psus, 2) > 0 && NonNegative(u.psus)
            && (s.psus[0].on || s.psus[1].on)
  {
    LoadsAreSigned(s, 0);
    PartsAddUp(s, s.inVolt);
    PairDraws(s.psus);
    var i :| 0 <= i < |s.psus| && s.psus[i].OutputVoltage() > s.minVoltage;
    assert s.psus[i].on;
    hide Part, Psu.Usage, Online, OfflineDraw;
  }

  lemma TakesShare(u: ServerState, t: ServerState, i: nat)
    requires Configured(u) && i < 2 && |t.psus| == |u.psus| == 2 && Online(u.psus, 2) > 0
    requires SharesAdded(u.psus, t.psus, CalculateLoad(u.watts, u.inVolt), Extra(u))
    ensures t.psus[i] == u.psus[i].(load := if u.psus[i].on then u.psus[i].load + Taken(u, i, u.inVolt) else u.psus[i].load)
  {
    if u.psus[i].on {
      PairShare(u, i);
    }
    hide Extra, Taken, CalculateLoad, Configured;
  }

  lemma ButtonKeepsServer(u: ServerState)
    requires u.on && Online(u.psus, |u.psus|) > 0
    ensures var t := Settled(AfterButtonOn(u)); t == u.(psus := t.psus) && |t.psus| == |u.psus|
  {
    hide StreamOn;
  }

  lemma SharesTaken(u: ServerState)
    requires Configured(u) && u.on && Online(u.psus, 2) > 0 && NonNegative(u.psus) && u.inVolt >= 0.0
    ensures var t := Settled(AfterButtonOn(u));
            && t == u.(psus := t.psus) && |t.psus| == 2
            && forall i :: 0 <= i < 2 ==> t.psus[i] == u.psus[i].(load := if u.psus[i].on then u.psus[i].load + Taken(u, i, u.inVolt) else u.psus[i].load)
  {
    var t := Settled(AfterButtonOn(u));
    assert |u.psus| == 2 && u.watts >= 0.0;
    hide AfterButtonOn, Settled, CalculateLoad, Extra, SharesAdded, Taken, Configured, Online;
    ButtonKeepsServer(u);
    ButtonOnDelivers(u);
    TakesShare(u, t, 0);
    TakesShare(u, t, 1);
  }

  lemma ServerOnSwitches(s: ServerState)
    requires Shared(s) && !s.on && s.inVolt != 0.0 && Supplied(s)
    ensures Online(s.psus, 2) > 0 && SwitchedOn(s, Settled(AfterButtonOn(PoweredUp(s))))
  {
    var u := PoweredUp(s);
    PoweredUpIs(s);
    assert s.inVolt >= 0.0;
    assert forall i :: 0 <= i < 2 ==> Taken(u, i, u.inVolt) == Taken(s, i, s.inVolt);
    hide AfterButtonOn, PoweredUp, Settled, Supplied, Taken, Configured, Shared, Online, Full;
    SharesTaken(u);
  }

  /** The server can be switched on: every supply that is going to carry something has the voltage
      stored for the server. */
  predicate CanSwitchOn(s: ServerState)
    requires |s.psus| == 2
  {
    s.watts == 0.0 ||
    forall i :: 0 <= i < 2 && s.psus[i].on && !(s.psus[1 - i].on && s.psus[i].draw == 0.0) ==> s.psus[i].inVolt == s.inVolt
  }

  /** Supply i would get what it takes at its own voltage. */
  predicate GetsItsPart(s: ServerState, i: nat)
    requires |s.psus| == 2 && i < 2
  {
    s.psus[i].on ==> Taken(s, i, s.inVolt) == Taken(s, i, s.psus[i].inVolt)
  }

  lemma GetsItsPartExactly(s: ServerState, i: nat)
    requires Shared(s) && i < 2 && s.inVolt > 0.0
    ensures GetsItsPart(s, i) <==>
      s.watts == 0.0 || (s.psus[i].on && !(s.psus[1 - i].on && s.psus[i].draw == 0.0) ==> s.psus[i].inVolt == s.inVolt)
  {
    if s.psus[i].on {
      PartsDiffer(s, i, s.inVolt, s.psus[i].inVolt);
    }
    hide Full, Part;
  }

  lemma SwitchedOnExactly(s: ServerState, t: ServerState)
    requires Shared(s) && !s.on && s.inVolt > 0.0 && (s.psus[0].on || s.psus[1].on) && SwitchedOn(s, t)
    ensures Shared(t) <==> GetsItsPart(s, 0) && GetsItsPart(s, 1) && ServerLoaded(t)
    ensures SameEquipment(s, t)
  {
    SameDraws(s, t);
    hide Full, Part;
  }

  /** Then the load stored for the server is right as well. */
  lemma LoadedThen(s: ServerState, t: ServerState)
    requires Shared(s) && !s.on && s.inVolt > 0.0 && (s.psus[0].on || s.psus[1].on) && SwitchedOn(s, t)
    requires GetsItsPart(s, 0) && GetsItsPart(s, 1)
    ensures ServerLoaded(t)
  {
    SameDraws(s, t);
    GetsItsPartExactly(s, 0);
    GetsItsPartExactly(s, 1);
    var i := if s.psus[0].on && (!s.psus[1].on || s.psus[0].draw != 0.0) then 0 else 1;
    assert s.psus[i].on && !(s.psus[1 - i].on && s.psus[i].draw == 0.0);
    PartZero(s, i, s.inVolt);
    PartZero(s, i, s.psus[i].inVolt);
    assert t.psus[i].on && t.load == Full(t, t.psus[i].inVolt);
  }

  lemma CanSwitchOnExactly(s: ServerState)
    requires Shared(s) && s.inVolt > 0.0
    ensures CanSwitchOn(s) <==> GetsItsPart(s, 0) && GetsItsPart(s, 1)
  {
    GetsItsPartExactly(s, 0);
    GetsItsPartExactly(s, 1);
    hide GetsItsPart, Shared;
  }

  lemma OnReports(s: ServerState)
    requires Shared(s) && !s.on && s.inVolt != 0.0 && Supplied(s)
    ensures var o := ServerPressed(s, true);
            o.server == Settled(AfterButtonOn(PoweredUp(s))) && Reported(s, o, -1, 0.0)
  {
    PoweredUpIs(s);
    hide AfterButtonOn, Settled, Shared, Supplied, Online, PoweredUp, Full;
  }

  lemma ServerOnExactly(s: ServerState)
    requires Shared(s) && !s.on && s.inVolt != 0.0 && Supplied(s)
    ensures KeepsExactly(s, ServerPressed(s, true), -1, 0.0, CanSwitchOn(s))
  {
    var t := Settled(AfterButtonOn(PoweredUp(s)));
    assert s.inVolt > 0.0;
    PoweredUpIs(s);
    ServerOnSwitches(s);
    OnReports(s);
    SwitchedOnExactly(s, t);
    CanSwitchOnExactly(s);
    if GetsItsPart(s, 0) && GetsItsPart(s, 1) {
      LoadedThen(s, t);
    }
    hide *;
  }
}
