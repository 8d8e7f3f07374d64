// A supply that comes back to a server with any number of supplies: what they carry together.

module ServerReturn {
  import opened Events
  import opened Server
  import opened ServerLoad

  // ----- What each supply gains -----

  /** Supply i holds load that supply k is to take back. */
  predicate Holds(s: ServerState, k: nat, i: nat)
    requires i < |s.psus|
  {
    i != k && s.psus[i].on && DrawingExtra(s, s.psus[i])
  }

  /** The part of the server that belongs to supply i at voltage v. */
  function PartOf(s: ServerState, v: real, i: nat): real
    requires i < |s.psus|
  {
    CalculateLoad(s.watts, v) * s.psus[i].draw
  }

  /** The part of supply k and of all that are off. */
  function TakenBy(s: ServerState, v: real, k: nat): real
    requires k < |s.psus|
  {
    CalculateLoad(s.watts, v) * (s.psus[k].draw + OfflineDraw(s.psus, k, |s.psus|))
  }

  /** Supply k, which is on, feeds the server again; every holder has as much as is asked back of it. */
  ghost predicate Returns(s: ServerState, k: nat, v: real) {
    && k < |s.psus| && s.psus[k].on && v > 0.0 && NonNegative(s.psus) && s.watts >= 0.0 && s.vmActive == s.on
    && forall i :: 0 <= i < |s.psus| && Holds(s, k, i) ==> s.psus[i].load >= PartOf(s, v, k)
  }

  function Rise(s: ServerState, k: nat, v: real, i: nat): real
    requires k < |s.psus| && i < |s.psus|
  {
    if i == k then TakenBy(s, v, k)
    else if Holds(s, k, i) then -PartOf(s, v, k)
    else if s.psus[i].on && !s.on then PartOf(s, v, i)
    else 0.0
  }

  lemma {:induction false} OfflineSigned(psus: seq<Psu>, k: int, n: nat)
    requires n <= |psus| && NonNegative(psus)
    ensures OfflineDraw(psus, k, n) >= 0.0
  {
    if n > 0 {
      OfflineSigned(psus, k, n - 1);
    }
  }

  lemma PartsSigned(s: ServerState, k: nat, v: real, i: nat)
    requires Returns(s, k, v) && i < |s.psus|
    ensures PartOf(s, v, i) >= 0.0 && PartOf(s, v, k) >= 0.0 && TakenBy(s, v, k) >= 0.0
  {
    var total := CalculateLoad(s.watts, v);
    assert total >= 0.0;
    OfflineSigned(s.psus, k, |s.psus|);
    hide CalculateLoad;
    ProductSign(total, s.psus[k].draw + OfflineDraw(s.psus, k, |s.psus|));
    ProductSign(total, s.psus[k].draw);
    ProductSign(total, s.psus[i].draw);
  }

  /** The update streamed to supply i. */
  lemma StreamIs(s: ServerState, d: ServerState, k: nat, v: real, i: nat)
    requires Returns(s, k, v) && d == s.(inVolt := d.inVolt) && i < |s.psus|
    ensures StreamUp(d, k, Change(0.0, v), i)
         == if i == k then Change(0.0, TakenBy(s, v, k))
            else if Holds(s, k, i) then Change(Clamp(s.psus[i].load), Clamp(s.psus[i].load - PartOf(s, v, k)))
            else if s.psus[i].on && !s.on then Change(0.0, PartOf(s, v, i))
            else Change(0.0, 0.0)
  {
    PartsSigned(s, k, v, i);
    assert CalculateLoad(s.watts, 0.0) == 0.0;
    assert DrawingExtra(d, s.psus[i]) == DrawingExtra(s, s.psus[i]);
    hide CalculateLoad, DrawingExtra;
  }

  lemma StreamedRise(s: ServerState, d: ServerState, k: nat, v: real, i: nat)
    requires Returns(s, k, v) && d == s.(inVolt := d.inVolt) && i < |s.psus|
    ensures Delivered(s.psus[i], StreamUp(d, k, Change(0.0, v), i)).load == s.psus[i].load + Rise(s, k, v, i)
  {
    StreamIs(s, d, k, v, i);
    PartsSigned(s, k, v, i);
    hide StreamUp, PartOf, TakenBy, Holds;
  }

  predicate Risen(s: ServerState, b: seq<Psu>, k: nat, v: real) {
    && k < |s.psus| == |b|
    && forall i :: 0 <= i < |b| ==> b[i].load == s.psus[i].load + Rise(s, k, v, i)
  }

  lemma ReturnDelivers(s: ServerState, k: nat, v: real)
    requires Returns(s, k, v) && (s.on || s.powerOnAc)
    ensures Risen(s, Settled(AfterVoltageUp(s, k, Change(0.0, v))).psus, k, v)
  {
    var d := InputDetected(s, v);
    var e := AfterVoltageUp(s, k, Change(0.0, v));
    assert |e.streamed| == |s.psus| && forall i :: 0 <= i < |s.psus| ==> e.streamed[i] == StreamUp(d, k, Change(0.0, v), i);
    assert k < |s.psus|;
    hide AfterVoltageUp, StreamUp, InputDetected, Rise, Returns;
    forall i | 0 <= i < |s.psus|
      ensures Settled(e).psus[i].load == s.psus[i].load + Rise(s, k, v, i)
    {
      StreamedRise(s, d, k, v, i);
    }
  }

  // ----- Together -----

  function TotalRise(s: ServerState, k: nat, v: real, n: nat): real
    requires k < |s.psus| && n <= |s.psus|
  {
    if n == 0 then 0.0 else TotalRise(s, k, v, n - 1) + Rise(s, k, v, n - 1)
  }

  lemma {:induction false} LoadsRise(s: ServerState, b: seq<Psu>, k: nat, v: real, n: nat)
    requires Risen(s, b, k, v) && n <= |b|
    ensures TotalLoad(b, n) == TotalLoad(s.psus, n) + TotalRise(s, k, v, n)
  {
    hide Rise;
    if n > 0 {
      LoadsRise(s, b, k, v, n - 1);
    }
  }

  /** The supplies that hold load for k, among the first n. */
  function Holders(s: ServerState, k: nat, n: nat): nat
    requires n <= |s.psus|
  {
    if n == 0 then 0 else Holders(s, k, n - 1) + if Holds(s, k, n - 1) then 1 else 0
  }

  /** What so many holders give, each the same share. */
  function GivenBack(holders: nat, share: real): real {
    holders as real * share
  }

  /** While the server runs: what k takes, less what the holders give. */
  lemma {:induction false} RiseWhileOn(s: ServerState, k: nat, v: real, n: nat)
    requires k < |s.psus| && n <= |s.psus| && s.on
    ensures TotalRise(s, k, v, n) == (if k < n then TakenBy(s, v, k) else 0.0) - GivenBack(Holders(s, k, n), PartOf(s, v, k))
  {
    hide TakenBy, PartOf;
    if n > 0 {
      RiseWhileOn(s, k, v, n - 1);
      OneMore(Holders(s, k, n - 1), PartOf(s, v, k));
      hide Holds;
    }
  }

  /** The parts of the supplies that are on, other than k. */
  function Parts(s: ServerState, k: nat, v: real, n: nat): real
    requires n <= |s.psus|
  {
    if n == 0 then 0.0 else Parts(s, k, v, n - 1) + if n - 1 != k && s.psus[n - 1].on then PartOf(s, v, n - 1) else 0.0
  }

  /** When it boots and nobody holds anything: what k takes, and the parts of the others. */
  lemma {:induction false} RiseAtBoot(s: ServerState, k: nat, v: real, n: nat)
    requires k < |s.psus| && n <= |s.psus| && !s.on && Holders(s, k, n) == 0
    ensures TotalRise(s, k, v, n) == (if k < n then TakenBy(s, v, k) else 0.0) + Parts(s, k, v, n)
  {
    hide TakenBy, PartOf, Holds;
    if n > 0 {
      RiseAtBoot(s, k, v, n - 1);
    }
  }

  lemma {:induction false} PartsTogether(s: ServerState, k: nat, v: real, n: nat)
    requires k < |s.psus| && n <= |s.psus| && s.psus[k].on
    ensures Parts(s, k, v, n) == CalculateLoad(s.watts, v) * (OnlineDraw(s.psus, n) - if k < n then s.psus[k].draw else 0.0)
  {
    hide CalculateLoad;
    if n > 0 {
      PartsTogether(s, k, v, n - 1);
      var rest := OnlineDraw(s.psus, n - 1) - if k < n - 1 then s.psus[k].draw else 0.0;
      Distribute(CalculateLoad(s.watts, v), rest, s.psus[n - 1].draw);
    }
  }

  lemma SharesCancel(n: nat, x: real)
    ensures x - n as real * x == 0.0 <==> n == 1 || x == 0.0
  {
    assert x - n as real * x == (1.0 - n as real) * x;
    ProductZero(1.0 - n as real, x);
  }

  /** The totals once k is back. */
  predicate Moved(s: ServerState, b: seq<Psu>, k: nat, v: real) {
    && k < |s.psus| == |b|
    && TotalLoad(b, |b|) == TotalLoad(s.psus, |b|) + TakenBy(s, v, k) - GivenBack(Holders(s, k, |b|), PartOf(s, v, k))
    && (TakenBy(s, v, k) == PartOf(s, v, k) ==>
          (TotalLoad(b, |b|) == TotalLoad(s.psus, |b|) <==> Holders(s, k, |b|) == 1 || PartOf(s, v, k) == 0.0))
  }

  /** While the server runs the supplies together gain what k takes less what the holders give back; so
      with every supply on the total is kept exactly when one holder gives back, or there is nothing to give. */
  lemma ReturnMovesTheShare(s: ServerState, k: nat, v: real)
    requires Returns(s, k, v) && s.on
    ensures Moved(s, Settled(AfterVoltageUp(s, k, Change(0.0, v))).psus, k, v)
  {
    var b := Settled(AfterVoltageUp(s, k, Change(0.0, v))).psus;
    ReturnDelivers(s, k, v);
    assert k < |s.psus| == |b|;
    hide *;
    LoadsRise(s, b, k, v, |b|);
    RiseWhileOn(s, k, v, |b|);
    TotalsMoved(s, b, k, v, Holders(s, k, |b|), PartOf(s, v, k));
  }

  lemma TotalsMoved(s: ServerState, b: seq<Psu>, k: nat, v: real, holders: nat, share: real)
    requires k < |s.psus| == |b| && holders == Holders(s, k, |b|) && share == PartOf(s, v, k)
    requires TotalLoad(b, |b|) == TotalLoad(s.psus, |b|) + (TakenBy(s, v, k) - GivenBack(holders, share))
    ensures Moved(s, b, k, v)
  {
    SharesCancel(holders, share);
    hide PartOf, TakenBy, Holders, TotalLoad;
  }

  lemma {:induction false} OfflineOfLive(psus: seq<Psu>, k: nat, n: nat)
    requires k < |psus| && n <= |psus| && psus[k].on
    ensures OfflineDraw(psus, k, n) == OfflineDraw(psus, -1, n)
  {
    if n > 0 {
      OfflineOfLive(psus, k, n - 1);
    }
  }

  lemma BootTotal(s: ServerState, k: nat, v: real)
    requires k < |s.psus| && s.psus[k].on && !s.on && Holders(s, k, |s.psus|) == 0 && NonNegative(s.psus) && AllDraw(s.psus, |s.psus|) == 1.0
    ensures TotalRise(s, k, v, |s.psus|) == CalculateLoad(s.watts, v)
  {
    var n, total := |s.psus|, CalculateLoad(s.watts, v);
    RiseAtBoot(s, k, v, n);
    PartsTogether(s, k, v, n);
    DrawsAreSplit(s.psus, n);
    OfflineOfLive(s.psus, k, n);
    hide CalculateLoad;
    var mine, rest := s.psus[k].draw + OfflineDraw(s.psus, k, n), OnlineDraw(s.psus, n) - s.psus[k].draw;
    assert mine + rest == 1.0;
    Distribute(total, mine, rest);
  }

  /** A server that boots spreads exactly its load over its supplies when the draws sum to one. */
  lemma BootSpreadsTheLoad(s: ServerState, k: nat, v: real)
    requires Returns(s, k, v) && !s.on && s.powerOnAc && Holders(s, k, |s.psus|) == 0 && AllDraw(s.psus, |s.psus|) == 1.0
    ensures var r := Settled(AfterVoltageUp(s, k, Change(0.0, v)));
            |r.psus| == |s.psus| && TotalLoad(r.psus, |s.psus|) == TotalLoad(s.psus, |s.psus|) + CalculateLoad(s.watts, v)
  {
    var b := Settled(AfterVoltageUp(s, k, Change(0.0, v))).psus;
    ReturnDelivers(s, k, v);
    assert k < |s.psus| == |b| && s.psus[k].on && NonNegative(s.psus);
    hide *;
    BootTotal(s, k, v);
    LoadsRise(s, b, k, v, |b|);
  }
}
