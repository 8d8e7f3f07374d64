// A server with two supplies, each at a voltage of its own: where the server's load belongs, and the
// handlers spelled out.

module ServerPair {
  import opened Events
  import opened Server
  import opened ServerLoad

  // ----- The server's load and its parts -----

  /** What the server draws at voltage u, and the part of it that belongs to supply i. */
  function Full(s: ServerState, u: real): real {
    CalculateLoad(s.watts, u)
  }

  function Part(s: ServerState, i: nat, u: real): real
    requires i < |s.psus|
  {
    Full(s, u) * s.psus[i].draw
  }

  /** A part, or everything when the other supply is off. */
  function Taken(s: ServerState, i: nat, u: real): real
    requires |s.psus| == 2 && i < 2
  {
    if s.psus[1 - i].on then Part(s, i, u) else Full(s, u)
  }

  /** What supply i carries for the server at its own voltage. */
  function Carried(s: ServerState, i: nat): real
    requires |s.psus| == 2 && i < 2
  {
    if s.on then Taken(s, i, s.psus[i].inVolt) else 0.0
  }

  /** The load of supply i: its idle usage and what it carries. */
  function Expected(s: ServerState, i: nat): real
    requires |s.psus| == 2 && i < 2
  {
    if s.psus[i].on then s.psus[i].Usage() + Carried(s, i) else 0.0
  }

  predicate Configured(s: ServerState) {
    && |s.psus| == 2 && s.watts >= 0.0 && s.minVoltage >= 0.0
    && s.psus[0].draw + s.psus[1].draw == 1.0
    && forall i :: 0 <= i < 2 ==> s.psus[i].draw >= 0.0 && s.psus[i].watts >= 0.0 && s.psus[i].minVoltage >= 0.0
  }

  lemma PartsAddUp(s: ServerState, u: real)
    requires Configured(s) && u >= 0.0
    ensures Full(s, u) >= 0.0 && Part(s, 0, u) >= 0.0 && Part(s, 1, u) >= 0.0
    ensures Part(s, 0, u) + Part(s, 1, u) == Full(s, u)
  {
    var d, p, q := Full(s, u), s.psus[0].draw, s.psus[1].draw;
    Distribute(d, p, q);
    ProductSign(d, p);
    ProductSign(d, q);
    assert d * (p + q) == d;
  }

  lemma PartZero(s: ServerState, i: nat, u: real)
    requires Configured(s) && i < 2 && u > 0.0
    ensures Full(s, u) == 0.0 <==> s.watts == 0.0
    ensures Part(s, i, u) == 0.0 <==> s.watts == 0.0 || s.psus[i].draw == 0.0
  {
    QuotientZero(s.watts, u);
    ProductZero(Full(s, u), s.psus[i].draw);
  }

  lemma QuotientsDiffer(x: real, w: real, v: real)
    requires w > 0.0 && v > 0.0
    ensures x / w == x / v <==> x == 0.0 || w == v
  {
    if x / w == x / v {
      assert x == x / w * w && x == x / v * v;
      assert x / w * (w - v) == 0.0;
    }
  }

  lemma PartsDiffer(s: ServerState, i: nat, u: real, w: real)
    requires Configured(s) && i < 2 && u > 0.0 && w > 0.0
    ensures Full(s, u) == Full(s, w) <==> s.watts == 0.0 || u == w
    ensures Part(s, i, u) == Part(s, i, w) <==> s.watts == 0.0 || s.psus[i].draw == 0.0 || u == w
  {
    QuotientsDiffer(s.watts, u, w);
    var x, y, d := Full(s, u), Full(s, w), s.psus[i].draw;
    ProductZero(x - y, d);
    assert (x - y) * d == x * d - y * d;
    QuotientZero(s.watts, u);
  }

  /** The server draws less at a higher voltage. */
  lemma FullFalls(s: ServerState, u: real, w: real)
    requires s.watts > 0.0 && 0.0 < u < w
    ensures Full(s, w) < Full(s, u)
  {
    var x, y := s.watts / u, s.watts / w;
    assert x * u == s.watts == y * w;
    assert x > 0.0 && x * (w - u) > 0.0;
    assert (x - y) * w == x * (w - u);
    FactorPositive(x - y, w);
  }

  lemma FactorPositive(x: real, w: real)
    requires x * w > 0.0 && w > 0.0
    ensures x > 0.0
  {
  }

  lemma UsageZero(p: Psu)
    requires p.watts >= 0.0 && p.inVolt >= 0.0
    ensures p.Usage() >= 0.0
    ensures p.Usage() == 0.0 <==> p.inVolt == 0.0 || p.watts == 0.0
  {
    UsageSign(p);
    if p.inVolt > 0.0 {
      QuotientZero(p.watts, p.inVolt);
    }
  }

  // ----- The invariant -----

  predicate SameSupply(p: Psu, q: Psu) {
    q == p.(on := q.on, byUser := q.byUser, inVolt := q.inVolt, load := q.load)
  }

  /** t differs from s in what is on and what flows, not in what it is made of. */
  predicate SameEquipment(s: ServerState, t: ServerState) {
    && |s.psus| == |t.psus| == 2
    && t == s.(on := t.on, vmActive := t.vmActive, inVolt := t.inVolt, load := t.load, psus := t.psus)
    && SameSupply(s.psus[0], t.psus[0]) && SameSupply(s.psus[1], t.psus[1])
  }

  /** Supply i works at voltage u, and so does the server. */
  predicate Works(s: ServerState, i: nat, u: real)
    requires i < |s.psus|
  {
    u > s.psus[i].minVoltage && u > s.minVoltage
  }

  /** A supply that is on has a voltage it works at; one that is off has one it does not work at, or was
      switched off. */
  predicate Fed(s: ServerState, i: nat)
    requires i < |s.psus|
  {
    var p := s.psus[i];
    if p.on then Works(s, i, p.inVolt) && !p.byUser
    else p.inVolt >= 0.0 && (p.inVolt <= p.minVoltage || (p.byUser && Works(s, i, p.inVolt)))
  }

  /** The load stored for the server is what it draws at the voltage of a supply that is on. */
  predicate ServerLoaded(s: ServerState)
    requires |s.psus| == 2
  {
    if s.on then exists i :: 0 <= i < 2 && s.psus[i].on && s.load == Full(s, s.psus[i].inVolt) else s.load == 0.0
  }

  /** Loads are where they belong. */
  predicate Shared(s: ServerState) {
    && Configured(s) && Fed(s, 0) && Fed(s, 1)
    && s.inVolt >= 0.0 && (s.psus[0].on || s.psus[1].on ==> s.inVolt > 0.0)
    && s.vmActive == s.on && (s.on ==> s.psus[0].on || s.psus[1].on) && ServerLoaded(s)
    && s.psus[0].load == Expected(s, 0) && s.psus[1].load == Expected(s, 1)
  }

  predicate Powered(s: ServerState) {
    s.on || s.powerOnAc
  }

  /** What the supplies report upstream is what their loads changed by, except that supply k
      reports `extra` on top. */
  predicate Reported(s: ServerState, o: Outcome, k: int, extra: real) {
    && |s.psus| == |o.server.psus| == |o.reports|
    && forall i :: 0 <= i < |s.psus| ==>
      o.reports[i] == o.server.psus[i].load - s.psus[i].load + if i == k then extra else 0.0
  }

  /** A wave of supply k that keeps loads where they belong exactly when `right` holds. */
  predicate KeepsExactly(s: ServerState, o: Outcome, k: int, extra: real, right: bool) {
    && (Shared(o.server) <==> right)
    && (right ==> SameEquipment(s, o.server) && Reported(s, o, k, extra))
  }

  // ----- The handlers for two supplies -----

  lemma PairOffline(psus: seq<Psu>, k: nat)
    requires |psus| == 2 && k < 2
    ensures OfflineDraw(psus, k, 2) == if psus[1 - k].on then 0.0 else psus[1 - k].draw
  {
    assert OfflineDraw(psus, k, 0) == 0.0;
    assert OfflineDraw(psus, k, 1) == if k != 0 && !psus[0].on then psus[0].draw else 0.0;
  }

  /** A settled wave, supply by supply. */
  lemma WaveDelivers(s: ServerState, k: nat, r: PsuReport, e: Reaction)
    requires |s.psus| == 2 && k < 2
    requires e == ServerReaction(s.(psus := s.psus[k := r.psu]), k, r.out) && |e.streamed| == 2
    ensures var o := PsuWave(s, k, r);
            o == Outcome(e.server.(psus := o.server.psus), o.reports)
    ensures PsuWave(s, k, r).server.psus[k] == Delivered(r.psu, e.streamed[k])
    ensures PsuWave(s, k, r).server.psus[1 - k] == Delivered(s.psus[1 - k], e.streamed[1 - k])
    ensures PsuWave(s, k, r).reports[k] == r.reported + Delivered(r.psu, e.streamed[k]).load - r.psu.load
    ensures PsuWave(s, k, r).reports[1 - k] == Delivered(s.psus[1 - k], e.streamed[1 - k]).load - s.psus[1 - k].load
  {
    hide ServerReaction, Delivered;
  }

  /** A wave the server answers with no updates. */
  lemma WaveEnds(s: ServerState, k: nat, r: PsuReport, d: ServerState)
    requires |s.psus| == 2 && k < 2
    requires ServerReaction(s.(psus := s.psus[k := r.psu]), k, r.out) == Reaction(d, [])
    ensures var o := PsuWave(s, k, r);
            o.server == d && o.reports[k] == r.reported && o.reports[1 - k] == 0.0
  {
    hide ServerReaction;
  }

  lemma PairOutput(psus: seq<Psu>)
    requires |psus| == 2
    ensures PsuOutVoltage(psus) == if psus[0].on then psus[0].inVolt else if psus[1].on then psus[1].inVolt else 0.0
  {
    assert psus[1..][0] == psus[1];
    assert PsuOutVoltage(psus[1..][1..]) == 0.0;
  }

  /** The handler of a drop. */
  lemma PairDown(s: ServerState, k: nat, volt: Change)
    requires Configured(s) && k < 2 && volt.before > 0.0 && volt.after >= 0.0
    ensures var r := AfterVoltageDown(s, k, volt);
            var q := s.psus[1 - k];
            var d := InputDetected(s, volt.after);
            && |r.streamed| == 2 && (q.on && q.inVolt > 0.0 && !s.psus[k].on ==> d.inVolt > 0.0)
            && r.server == (if volt.after != 0.0 then d.(load := Full(s, volt.after)) else if q.on then d else PoweredOff(d))
            && r.streamed[k] == Change(s.psus[k].load, Part(s, k, volt.after))
            && r.streamed[1 - k]
                 == Change(q.load, if q.on && volt.after == 0.0 then Clamp(q.load + s.psus[k].load - OwnLoad(s, k, volt)) else q.load)
  {
    var d := InputDetected(s, volt.after);
    PartsAddUp(s, volt.after);
    assert CalculateLoad(s.watts, 0.0) == 0.0;
    assert OwnLoad(d, k, volt) == OwnLoad(s, k, volt);
    PairOutput(s.psus);
    hide OwnLoad, PsuOutVoltage;
    assert s.psus[1 - k].on && s.psus[1 - k].inVolt > 0.0 && !s.psus[k].on ==> d.inVolt > 0.0;
    hide InputDetected;
    assert SourceDown(d, k, volt) == Change(s.psus[k].load, Part(s, k, volt.after));
    if s.psus[1 - k].on {
      assert HasAlternative(s.psus, k, 2);
    } else {
      assert !HasAlternative(s.psus, k, 2);
    }
  }

  /** Supply q stands ready to give a share back. */
  predicate Gives(s: ServerState, q: Psu, volt: Change) {
    q.on && volt.before == 0.0 && DrawingExtra(s, q)
  }

  lemma SourceUp(s: ServerState, d: ServerState, k: nat, volt: Change)
    requires Configured(s) && k < 2 && 0.0 <= volt.before && 0.0 < volt.after
    requires d == s.(inVolt := d.inVolt)
    ensures StreamUp(d, k, volt, k) == Change(Taken(s, k, volt.before), Taken(s, k, volt.after))
  {
    PairOffline(s.psus, k);
    PartsAddUp(s, volt.before);
    PartsAddUp(s, volt.after);
    var draw := s.psus[k].draw + OfflineDraw(s.psus, k, 2);
    assert s.psus[1 - k].on ==> draw == s.psus[k].draw;
    assert !s.psus[1 - k].on ==> draw == 1.0 && Full(s, volt.before) * draw == Full(s, volt.before) && Full(s, volt.after) * draw == Full(s, volt.after);
    hide CalculateLoad;
  }

  lemma OtherUp(s: ServerState, d: ServerState, k: nat, volt: Change)
    requires Configured(s) && k < 2 && 0.0 <= volt.before && 0.0 < volt.after && s.vmActive == s.on
    requires d == s.(inVolt := d.inVolt)
    ensures var q := s.psus[1 - k];
            && GivesBack(d, k, volt, 1 - k) == Gives(s, q, volt)
            && StreamUp(d, k, volt, 1 - k)
                 == if Gives(s, q, volt) then Change(Clamp(q.load), Clamp(q.load - Part(s, k, volt.after)))
                    else if q.on && !s.on then Change(0.0, Part(s, 1 - k, volt.after)) else Change(0.0, 0.0)
  {
    PartsAddUp(s, volt.after);
    assert DrawingExtra(d, s.psus[1 - k]) == DrawingExtra(s, s.psus[1 - k]);
    hide CalculateLoad, DrawingExtra;
  }

  /** The handler of a rise. */
  lemma PairUp(s: ServerState, k: nat, volt: Change)
    requires Configured(s) && k < 2 && 0.0 <= volt.before && 0.0 < volt.after && s.vmActive == s.on
    ensures var r := AfterVoltageUp(s, k, volt);
            var q := s.psus[1 - k];
            var d := InputDetected(s, volt.after);
            && r.server == (if !s.on && s.powerOnAc then PoweredUp(d).(load := Full(s, volt.after))
                            else if s.on && !Gives(s, q, volt) then d.(load := Full(s, volt.after))
                            else d)
            && if !Powered(s) then r.streamed == []
               else
                 && |r.streamed| == 2
                 && r.streamed[k] == Change(Taken(s, k, volt.before), Taken(s, k, volt.after))
                 && r.streamed[1 - k]
                      == if Gives(s, q, volt) then Change(Clamp(q.load), Clamp(q.load - Part(s, k, volt.after)))
                         else if q.on && !s.on then Change(0.0, Part(s, 1 - k, volt.after)) else Change(0.0, 0.0)
  {
    var d := InputDetected(s, volt.after);
    SourceUp(s, d, k, volt);
    OtherUp(s, d, k, volt);
    PartsAddUp(s, volt.after);
    hide StreamUp, CalculateLoad, InputDetected, PoweredUp, Taken, Part, Gives;
    assert AnyGivesBack(d, k, volt, 2) == GivesBack(d, k, volt, 1 - k) by {
      if GivesBack(d, k, volt, 1 - k) {
        assert AnyGivesBack(d, k, volt, 2);
      }
    }
  }
}
