// How the load of a server moves between its power supplies: the waves of events, and the exact
// totals for any number of supplies.

module ServerLoad {
  import opened Events
  import opened Server

  // ----- The supplies' own reactions -----

  /** A supply after an event, its output voltage, and the load change it reports upstream. */
  datatype PsuReport = PsuReport(psu: Psu, out: Change, reported: real)

  function Recalculated(load: real, c: Change): real {
    if c.Unchanged() then load else Clamp(load - c.before + c.after)
  }

  /** A supply follows its input like any other asset, except that powering up adds its usage to
      the stored load and powering off keeps it. The parent that sends the voltage is available. */
  function PsuAfterInput(p: Psu, v: real): PsuReport {
    if v <= p.minVoltage && p.on then
      var out := Change(Clamp(p.OutputVoltage()), 0.0);
      var c := LoadFromVolt(p.watts, out);
      PsuReport(p.(on := false, byUser := false, inVolt := Clamp(v), load := Recalculated(p.load, c)), out, c.Difference())
    else if v > p.minVoltage && !p.on && !p.byUser then
      var out := Change(0.0, Clamp(v));
      var c := LoadFromVolt(p.watts, out);
      PsuReport(p.(on := true, inVolt := Clamp(v), load := Recalculated(Clamp(p.load + p.Usage()), c)), out, c.Difference())
    else
      var out := Change(p.OutputVoltage(), v);
      var c := LoadFromVolt(p.watts, out);
      if p.on then PsuReport(p.(inVolt := Clamp(v), load := Recalculated(p.load, c)), out, c.Difference())
      else PsuReport(p.(inVolt := Clamp(v)), out, 0.0)
  }

  /** The power button of a supply: power_up itself adds the usage to the stored load before the
      engine hears of it; the engine only reports the change. */
  function PsuAfterButton(p: Psu, on: bool): PsuReport {
    var out := if on then Change(0.0, p.inVolt) else Change(p.inVolt, 0.0);
    var load := if on then Clamp(p.load + p.Usage()) else p.load;
    PsuReport(p.(on := on, byUser := !on, load := load), out, LoadFromVolt(p.watts, out).Difference())
  }

  function Delivered(p: Psu, c: Change): Psu {
    if c.Unchanged() then p else p.(load := Clamp(p.load + c.Difference()))
  }

  /** The streamed updates reach the supplies as child load events. */
  function Deliver(psus: seq<Psu>, streamed: seq<Change>): (r: seq<Psu>)
    requires streamed == [] || |streamed| == |psus|
    ensures |r| == |psus|
  {
    if streamed == [] then psus
    else seq(|psus|, i requires 0 <= i < |psus| => Delivered(psus[i], streamed[i]))
  }

  /** The server when all events have settled, and what each supply reported upstream meanwhile. */
  datatype Outcome = Outcome(server: ServerState, reports: seq<real>)

  function Settled(r: Reaction): (s: ServerState)
    requires r.streamed == [] || |r.streamed| == |r.server.psus|
    ensures |s.psus| == |r.server.psus|
  {
    r.server.(psus := Deliver(r.server.psus, r.streamed))
  }

  function ServerReaction(s: ServerState, k: nat, out: Change): (r: Reaction)
    requires k < |s.psus|
    ensures r.server.psus == s.psus && (r.streamed == [] || |r.streamed| == |s.psus|)
  {
    if out.Unchanged() then Reaction(s, [])
    else if IsDownEvent(out) then AfterVoltageDown(s, k, out)
    else AfterVoltageUp(s, k, out)
  }

  /** An event at supply k, the server's reaction to its output, and the loads streamed back. */
  function PsuWave(s: ServerState, k: nat, r: PsuReport): (o: Outcome)
    requires k < |s.psus|
    ensures |o.server.psus| == |o.reports| == |s.psus|
  {
    var s1 := s.(psus := s.psus[k := r.psu]);
    var s2 := Settled(ServerReaction(s1, k, r.out));
    Outcome(s2, seq(|s.psus|, i requires 0 <= i < |s.psus| =>
      (if i == k then r.reported else 0.0) + s2.psus[i].load - s1.psus[i].load))
  }

  function ServerWave(s: ServerState, r: Reaction): (o: Outcome)
    requires r.server.psus == s.psus && |r.streamed| == |s.psus|
    ensures |o.server.psus| == |o.reports| == |s.psus|
  {
    var s2 := Settled(r);
    Outcome(s2, seq(|s.psus|, i requires 0 <= i < |s.psus| => s2.psus[i].load - s.psus[i].load))
  }

  /** A virtual machine that is down while its server is on is started by the next rise of a supply exactly
      when the server is set to boot; until then nothing touches it. */
  lemma VmComesBackExactly(s: ServerState, k: nat, volt: Change)
    requires k < |s.psus| && s.on && !s.vmActive && volt.after > 0.0
    ensures var r := AfterVoltageUp(s, k, volt).server; r.on && (r.vmActive <==> s.powerOnAc)
    ensures !AfterVoltageDown(s, k, volt).server.vmActive
  {
  }

  // ----- Any number of supplies -----

  function TotalLoad(psus: seq<Psu>, n: nat): real
    requires n <= |psus|
  {
    if n == 0 then 0.0 else TotalLoad(psus, n - 1) + psus[n - 1].load
  }

  /** The supplies other than k that are on, among the first n. */
  function OnlineBut(psus: seq<Psu>, k: nat, n: nat): nat
    requires n <= |psus|
  {
    if n == 0 then 0 else OnlineBut(psus, k, n - 1) + (if n - 1 != k && psus[n - 1].on then 1 else 0)
  }

  function OnlineDraw(psus: seq<Psu>, n: nat): real
    requires n <= |psus|
  {
    if n == 0 then 0.0 else OnlineDraw(psus, n - 1) + (if psus[n - 1].on then psus[n - 1].draw else 0.0)
  }

  predicate NonNegative(psus: seq<Psu>) {
    forall i :: 0 <= i < |psus| ==> psus[i].load >= 0.0 && psus[i].draw >= 0.0 && psus[i].watts >= 0.0
  }

  lemma OneMore(n: nat, x: real)
    ensures (n + 1) as real * x == n as real * x + x
  {
  }

  lemma Distribute(x: real, y: real, z: real)
    ensures x * (y + z) == x * y + x * z
  {
  }

  lemma ProductZero(x: real, y: real)
    ensures x * y == 0.0 <==> x == 0.0 || y == 0.0
  {
  }

  lemma QuotientZero(x: real, w: real)
    requires w > 0.0
    ensures x / w == 0.0 <==> x == 0.0
  {
  }

  lemma ProductSign(x: real, y: real)
    requires x >= 0.0 && y >= 0.0
    ensures x * y >= 0.0
  {
  }

  /** What supply k carries for the server when its input fails. */
  function Share(s: ServerState, k: nat, v: real): real
    requires k < |s.psus|
  {
    s.psus[k].load - OwnLoad(s, k, Change(v, 0.0))
  }

  /** Supply k drops to nothing, every other supply that is on takes `share` more. */
  predicate ShareMoved(a: seq<Psu>, b: seq<Psu>, k: nat, share: real)
    requires |a| == |b|
  {
    forall i :: 0 <= i < |a| ==>
      b[i].load == if i == k then 0.0 else a[i].load + if a[i].on then share else 0.0
  }

  lemma {:induction false} TotalOfMovedShare(a: seq<Psu>, b: seq<Psu>, k: nat, share: real, n: nat)
    requires |a| == |b| && k < |a| && n <= |a| && ShareMoved(a, b, k, share)
    ensures TotalLoad(b, n)
              == TotalLoad(a, n) + OnlineBut(a, k, n) as real * share - (if k < n then a[k].load else 0.0)
  {
    if n > 0 {
      TotalOfMovedShare(a, b, k, share, n - 1);
      OneMore(OnlineBut(a, k, n - 1), share);
    }
  }

  lemma LossDelivers(s: ServerState, k: nat, v: real, i: nat)
    requires k < |s.psus| && i < |s.psus| && NonNegative(s.psus) && Share(s, k, v) >= 0.0
    ensures Delivered(s.psus[i], StreamDown(s, k, Change(v, 0.0), i)).load
            == if i == k then 0.0 else s.psus[i].load + if s.psus[i].on then Share(s, k, v) else 0.0
  {
  }

  lemma {:induction false} OnlineButZero(psus: seq<Psu>, k: nat, n: nat)
    requires n <= |psus|
    ensures (OnlineBut(psus, k, n) == 0) == !HasAlternative(psus, k, n)
  {
    if n > 0 {
      OnlineButZero(psus, k, n - 1);
    }
  }

  lemma LossReaction(s: ServerState, k: nat, v: real)
    requires k < |s.psus| && NonNegative(s.psus) && Share(s, k, v) >= 0.0 && OnlineBut(s.psus, k, |s.psus|) > 0
    ensures var r := Settled(AfterVoltageDown(s, k, Change(v, 0.0)));
            r.on == s.on && r.load == s.load && ShareMoved(s.psus, r.psus, k, Share(s, k, v))
  {
    var n := |s.psus|;
    var volt := Change(v, 0.0);
    var d := InputDetected(s, 0.0);
    var share := Share(s, k, v);
    assert OwnLoad(d, k, volt) == OwnLoad(s, k, volt);
    OnlineButZero(s.psus, k, n);
    var e := AfterVoltageDown(s, k, volt);
    assert e.server == d && |e.streamed| == n;
    var r := Settled(e);
    hide OwnLoad, AfterVoltageDown, InputDetected;
    forall i | 0 <= i < n
      ensures r.psus[i].load == if i == k then 0.0 else s.psus[i].load + if s.psus[i].on then share else 0.0
    {
      LossDelivers(d, k, v, i);
      hide StreamDown;
    }
  }

  /** Losing the input of supply k hands its share to every supply that is on. With a supply left
      the server keeps its state and load; the supplies together keep the share exactly when one
      supply takes it, or there is nothing to take. */
  lemma LossMovesTheShare(s: ServerState, k: nat, v: real)
    requires k < |s.psus| && NonNegative(s.psus) && Share(s, k, v) >= 0.0 && OnlineBut(s.psus, k, |s.psus|) > 0
    ensures var r := Settled(AfterVoltageDown(s, k, Change(v, 0.0)));
            var own := OwnLoad(s, k, Change(v, 0.0));
            var others := OnlineBut(s.psus, k, |s.psus|);
            var rise := TotalLoad(r.psus, |s.psus|) - (TotalLoad(s.psus, |s.psus|) - own);
            && r.on == s.on && r.load == s.load
            && ShareMoved(s.psus, r.psus, k, Share(s, k, v))
            && rise == (others - 1) as real * Share(s, k, v)
            && (rise == 0.0 <==> (others == 1 || Share(s, k, v) == 0.0))
  {
    hide AfterVoltageDown, OwnLoad, Settled, ShareMoved;
    var n := |s.psus|;
    var r := Settled(AfterVoltageDown(s, k, Change(v, 0.0)));
    LossReaction(s, k, v);
    TotalOfMovedShare(s.psus, r.psus, k, Share(s, k, v), n);
    OneMore(OnlineBut(s.psus, k, n) - 1, Share(s, k, v));
    Vanishes(OnlineBut(s.psus, k, n) - 1, Share(s, k, v));
  }

  lemma Vanishes(n: nat, x: real)
    ensures n as real * x == 0.0 <==> n == 0 || x == 0.0
  {
  }

  /** Every supply that is on takes its own share of `total` and `extra` on top. */
  predicate SharesAdded(a: seq<Psu>, b: seq<Psu>, total: real, extra: real)
    requires |a| == |b|
  {
    forall i :: 0 <= i < |a| ==>
      b[i] == a[i].(load := if a[i].on then a[i].load + total * a[i].draw + extra else a[i].load)
  }

  lemma {:induction false} TotalOfAddedShares(a: seq<Psu>, b: seq<Psu>, total: real, extra: real, n: nat)
    requires |a| == |b| && n <= |a| && SharesAdded(a, b, total, extra)
    ensures TotalLoad(b, n) == TotalLoad(a, n) + total * OnlineDraw(a, n) + Online(a, n) as real * extra
  {
    if n > 0 {
      TotalOfAddedShares(a, b, total, extra, n - 1);
      OneMore(Online(a, n - 1), extra);
      Distribute(total, OnlineDraw(a, n - 1), a[n - 1].draw);
    }
  }

  /** The extra load of a server that is switched on. */
  function Extra(s: ServerState): real
    requires Online(s.psus, |s.psus|) > 0
  {
    ExtraLoad(CalculateLoad(s.watts, s.inVolt), OfflineDraw(s.psus, -1, |s.psus|), Online(s.psus, |s.psus|))
  }

  lemma ButtonOnDelivers(s: ServerState)
    requires NonNegative(s.psus) && s.watts >= 0.0 && s.inVolt >= 0.0 && Online(s.psus, |s.psus|) > 0
    ensures SharesAdded(s.psus, Settled(AfterButtonOn(s)).psus, CalculateLoad(s.watts, s.inVolt), Extra(s)) && Extra(s) >= 0.0
  {
    var total := CalculateLoad(s.watts, s.inVolt);
    var r := Settled(AfterButtonOn(s));
    DrawsAreSplit(s.psus, |s.psus|);
    ExtraSpreadsAll(total, OfflineDraw(s.psus, -1, |s.psus|), Online(s.psus, |s.psus|));
    hide ExtraLoad;
    forall i | 0 <= i < |s.psus|
      ensures r.psus[i] == s.psus[i].(load := if s.psus[i].on then s.psus[i].load + total * s.psus[i].draw + Extra(s) else s.psus[i].load)
    {
      ProductSign(total, s.psus[i].draw);
      assert r.psus[i] == Delivered(s.psus[i], StreamOn(s.psus, total, i));
    }
  }

  lemma {:induction false} DrawsAreSplit(psus: seq<Psu>, n: nat)
    requires n <= |psus| && NonNegative(psus)
    ensures OnlineDraw(psus, n) + OfflineDraw(psus, -1, n) == AllDraw(psus, n) && OfflineDraw(psus, -1, n) >= 0.0
  {
    if n > 0 {
      DrawsAreSplit(psus, n - 1);
    }
  }

  function AllDraw(psus: seq<Psu>, n: nat): real
    requires n <= |psus|
  {
    if n == 0 then 0.0 else AllDraw(psus, n - 1) + psus[n - 1].draw
  }

  lemma ExtraSpreadsAll(total: real, draw: real, n: nat)
    requires n > 0 && total >= 0.0 && draw >= 0.0
    ensures n as real * ExtraLoad(total, draw, n) == total * draw && ExtraLoad(total, draw, n) >= 0.0
  {
  }

  lemma AllIsSpread(total: real, online: real, off: real, n: nat)
    requires n > 0 && total >= 0.0 && off >= 0.0 && online + off == 1.0
    ensures total * online + n as real * ExtraLoad(total, off, n) == total
  {
  }

  /** Switching a server on raises the supplies that are on by its whole load, together exactly,
      when the draws sum to one; the supplies that are off stay as they are. */
  lemma ButtonOnSpreadsTheLoad(s: ServerState)
    requires NonNegative(s.psus) && s.watts >= 0.0 && s.inVolt >= 0.0 && Online(s.psus, |s.psus|) > 0
    requires AllDraw(s.psus, |s.psus|) == 1.0
    ensures var r := Settled(AfterButtonOn(s));
            && TotalLoad(r.psus, |s.psus|) == TotalLoad(s.psus, |s.psus|) + CalculateLoad(s.watts, s.inVolt)
            && (forall i :: 0 <= i < |s.psus| && !s.psus[i].on ==> r.psus[i] == s.psus[i])
            && (forall i :: 0 <= i < |s.psus| ==> r.psus[i].load >= s.psus[i].load)
  {
    hide ExtraLoad, Settled, AfterButtonOn;
    var n := |s.psus|;
    var total := CalculateLoad(s.watts, s.inVolt);
    var off := OfflineDraw(s.psus, -1, n);
    var r := Settled(AfterButtonOn(s));
    ButtonOnDelivers(s);
    DrawsAreSplit(s.psus, n);
    assert TotalLoad(r.psus, n) == TotalLoad(s.psus, n) + total by {
      TotalOfAddedShares(s.psus, r.psus, total, Extra(s), n);
      AllIsSpread(total, OnlineDraw(s.psus, n), off, Online(s.psus, n));
    }
    forall i | 0 <= i < n
      ensures r.psus[i].load >= s.psus[i].load
    {
      ProductSign(total, s.psus[i].draw);
    }
  }

  predicate Idle(psus: seq<Psu>) {
    forall i :: 0 <= i < |psus| && psus[i].on ==> psus[i].load == psus[i].Usage()
  }

  /** Switching the server off again leaves every live supply at its idle usage; so on-then-off
      restores all supplies exactly when they were idle to begin with. */
  lemma ButtonOffRestoresIdle(s: ServerState)
    requires NonNegative(s.psus) && s.watts >= 0.0 && s.inVolt >= 0.0 && Online(s.psus, |s.psus|) > 0
    requires forall i :: 0 <= i < |s.psus| && s.psus[i].on ==> s.psus[i].inVolt > 0.0
    ensures var r := Settled(AfterButtonOff(Settled(AfterButtonOn(s))));
            Idle(r.psus) && (r.psus == s.psus <==> Idle(s.psus))
  {
    var a := Settled(AfterButtonOn(s));
    var r := Settled(AfterButtonOff(a));
    ButtonOnDelivers(s);
    hide ExtraLoad;
    forall i | 0 <= i < |s.psus|
      ensures r.psus[i] == s.psus[i].(load := if s.psus[i].on then s.psus[i].Usage() else s.psus[i].load)
    {
      var p := s.psus[i];
      if p.on {
        UsageSign(p);
        ProductSign(CalculateLoad(s.watts, s.inVolt), p.draw);
      }
    }
    if r.psus == s.psus {
      assert forall i :: 0 <= i < |s.psus| && s.psus[i].on ==> r.psus[i].load == s.psus[i].load;
    }
  }

  lemma UsageSign(p: Psu)
    requires p.watts >= 0.0 && p.inVolt >= 0.0
    ensures p.Usage() >= 0.0
  {
  }
}
