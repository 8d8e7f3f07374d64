// Both supplies of a server come back at once: they power up, the server reacts to both, and only
// then do the loads it streamed reach them.

module RestoredTogether {
  import opened Events
  import opened Server
  import opened ServerLoad
  import opened ServerPair
  import opened SupplyIn

  /** The supplies are back and carry their own usage only. */
  predicate BothIdle(s: ServerState) {
    && Configured(s) && Fed(s, 0) && Fed(s, 1) && s.psus[0].on && s.psus[1].on && s.inVolt >= 0.0
    && s.psus[0].load == s.psus[0].Usage() && s.psus[1].load == s.psus[1].Usage()
    && s.vmActive == s.on && (!s.on ==> s.load == 0.0)
  }

  /** The server once it has heard of a rise of supply k: it boots if it is off and set to. */
  predicate Heard(s: ServerState, h: ServerState, k: nat) {
    && |s.psus| == 2 && k < 2 && h.inVolt > 0.0
    && h == if Powered(s) then s.(on := true, vmActive := true, inVolt := h.inVolt, load := Full(s, s.psus[k].inVolt))
            else s.(inVolt := h.inVolt)
  }

  /** What the reaction to a rise of supply k hands it, and what it hands the other one: its part, but at
      the voltage of k, if the server boots. */
  function Due(s: ServerState, k: nat): real
    requires |s.psus| == 2 && k < 2
  {
    if Powered(s) then Part(s, k, s.psus[k].inVolt) else 0.0
  }

  function Early(s: ServerState, k: nat): real
    requires |s.psus| == 2 && k < 2
  {
    if !s.on && s.powerOnAc then Part(s, 1 - k, s.psus[k].inVolt) else 0.0
  }

  function RiseOf(s: ServerState, k: nat): Reaction
    requires |s.psus| == 2 && k < 2
  {
    AfterVoltageUp(s, k, Change(0.0, s.psus[k].inVolt))
  }

  lemma NothingToGive(s: ServerState, k: nat)
    requires BothIdle(s) && k < 2
    ensures !Gives(s, s.psus[1 - k], Change(0.0, s.psus[k].inVolt)) && s.psus[k].inVolt > 0.0
  {
    PartsAddUp(s, s.psus[1 - k].inVolt);
  }

  lemma IdleIsSupplied(s: ServerState)
    requires BothIdle(s)
    ensures Supplied(s)
  {
    assert s.psus[0].OutputVoltage() > s.minVoltage;
  }

  lemma RiseWhileIdling(s: ServerState, k: nat)
    requires BothIdle(s) && k < 2
    ensures var e := RiseOf(s, k);
            && Heard(s, e.server, k)
            && if Powered(s) then |e.streamed| == 2 && e.streamed[k] == Change(0.0, Due(s, k)) && e.streamed[1 - k] == Change(0.0, Early(s, k))
               else e.streamed == []
  {
    var w := s.psus[k].inVolt;
    NothingToGive(s, k);
    IdleIsSupplied(s);
    TakenSigned(s, k, w);
    assert Configured(s) && s.psus[1 - k].on;
    if !s.on {
      BootsWhenSupplied(s, w);
    }
    hide AfterVoltageUp, BothIdle, Configured, Part, Full, Gives, PoweredUp, Supplied;
    PairUp(s, k, Change(0.0, w));
  }

  lemma HeardIsIdle(s: ServerState, h: ServerState, k: nat)
    requires BothIdle(s) && Heard(s, h, k)
    ensures BothIdle(h) && h.psus == s.psus && Powered(h) == Powered(s) && Early(h, 1 - k) == 0.0 && Due(h, 1 - k) == Due(s, 1 - k)
  {
  }

  /** The server reacts to supply k, then to the other one; after both the loads are delivered. */
  function Together(s: ServerState, k: nat): ServerState
    requires |s.psus| == 2 && k < 2
  {
    var first := RiseOf(s, k);
    var second := RiseOf(first.server, 1 - k);
    second.server.(psus := Deliver(Deliver(s.psus, first.streamed), second.streamed))
  }

  lemma DeliverAt(psus: seq<Psu>, streamed: seq<Change>, i: nat)
    requires i < |psus| == |streamed|
    ensures Deliver(psus, streamed)[i] == Delivered(psus[i], streamed[i])
  {
  }

  /** Two deliveries of loads that only grow. */
  lemma DeliveredTwice(psus: seq<Psu>, first: seq<Change>, second: seq<Change>, i: nat, x: real, y: real)
    requires i < |psus| == |first| == |second| && psus[i].load >= 0.0 && x >= 0.0 && y >= 0.0
    requires first[i] == Change(0.0, x) && second[i] == Change(0.0, y)
    ensures Deliver(Deliver(psus, first), second)[i] == psus[i].(load := psus[i].load + x + y)
  {
    hide Deliver;
    DeliverAt(psus, first, i);
    DeliverAt(Deliver(psus, first), second, i);
  }

  /** The end of it: each supply has what it is due, the second one what it was handed early as well. */
  predicate HandedTogether(s: ServerState, t: ServerState, k: nat) {
    && |s.psus| == |t.psus| == 2 && k < 2 && t.inVolt > 0.0
    && t == (if Powered(s) then s.(on := true, vmActive := true, load := Full(s, s.psus[1 - k].inVolt)) else s).(inVolt := t.inVolt, psus := t.psus)
    && t.psus[k] == s.psus[k].(load := s.psus[k].load + Due(s, k))
    && t.psus[1 - k] == s.psus[1 - k].(load := s.psus[1 - k].load + Early(s, k) + Due(s, 1 - k))
  }

  lemma DuesSigned(s: ServerState, k: nat)
    requires BothIdle(s) && k < 2
    ensures Due(s, k) >= 0.0 && Due(s, 1 - k) >= 0.0 && Early(s, k) >= 0.0 && s.psus[k].load >= 0.0 && s.psus[1 - k].load >= 0.0
  {
    UsageZero(s.psus[k]);
    UsageZero(s.psus[1 - k]);
    TakenSigned(s, k, s.psus[k].inVolt);
    TakenSigned(s, 1 - k, s.psus[1 - k].inVolt);
    hide Part, Full, Psu.Usage;
  }

  lemma TogetherHands(s: ServerState, k: nat)
    requires BothIdle(s) && k < 2
    ensures HandedTogether(s, Together(s, k), k)
  {
    var first := RiseOf(s, k);
    var h := first.server;
    RiseWhileIdling(s, k);
    HeardIsIdle(s, h, k);
    DuesSigned(s, k);
    var second := RiseOf(h, 1 - k);
    RiseWhileIdling(h, 1 - k);
    assert |s.psus| == 2 && h.psus == s.psus;
    assert Full(h, s.psus[1 - k].inVolt) == Full(s, s.psus[1 - k].inVolt);
    hide RiseOf, BothIdle, Due, Early, Deliver, Full;
    if Powered(s) {
      DeliveredTwice(s.psus, first.streamed, second.streamed, k, Due(s, k), 0.0);
      DeliveredTwice(s.psus, first.streamed, second.streamed, 1 - k, Early(s, k), Due(s, 1 - k));
    } else {
      NothingDelivered(s.psus);
      NothingDue(s, k);
    }
  }

  lemma NothingDelivered(psus: seq<Psu>)
    ensures Deliver(Deliver(psus, []), []) == psus
  {
  }

  lemma NothingDue(s: ServerState, k: nat)
    requires |s.psus| == 2 && k < 2 && !Powered(s)
    ensures Due(s, k) == 0.0 && Due(s, 1 - k) == 0.0 && Early(s, k) == 0.0
  {
  }

  /** What each supply carries beyond what belongs to it, and when that is nothing. */
  predicate TogetherExactly(s: ServerState, t: ServerState, k: nat) {
    && SameEquipment(s, t) && k < 2 && t.on == Powered(s)
    && t.psus[k].load == Expected(t, k)
    && t.psus[1 - k].load == Expected(t, 1 - k) + (if !s.on && s.powerOnAc then Part(s, 1 - k, s.psus[k].inVolt) else 0.0)
    && (Shared(t) <==> s.on || !s.powerOnAc || s.watts == 0.0 || s.psus[1 - k].draw == 0.0)
  }

  lemma HandedIsExact(s: ServerState, t: ServerState, k: nat)
    requires BothIdle(s) && k < 2 && HandedTogether(s, t, k)
    ensures TogetherExactly(s, t, k)
  {
    assert SameEquipment(s, t) && Configured(t) && Fed(t, 0) && Fed(t, 1) by {
      hide Part, Full, Psu.Usage, Due, Early;
    }
    SameDraws(s, t);
    PartZero(s, 1 - k, s.psus[k].inVolt);
    hide Part, Full, Psu.Usage, Configured, Fed;
    if t.on {
      assert t.psus[1 - k].on && t.load == Full(t, t.psus[1 - k].inVolt);
    }
  }

  /** Whichever supply the server hears of first gets what is its due; the second one is handed its part
      twice exactly when the server was off, is set to boot, and the part is not zero. Every load is
      where it belongs in all other cases. */
  lemma RestoredTogetherExactly(s: ServerState, k: nat)
    requires BothIdle(s) && k < 2
    ensures TogetherExactly(s, Together(s, k), k)
  {
    assert |s.psus| == 2;
    hide *;
    TogetherHands(s, k);
    HandedIsExact(s, Together(s, k), k);
  }
}
