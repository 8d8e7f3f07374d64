// The first power-up: when does a network that has just been created end up coherent?

module Startup {
  import opened Events
  import opened Assets
  import opened Iteration
  import opened Accounting
  import opened Network
  import opened Conservation
  import opened PowerSafety
  import opened AtRest

  /** The mains of a network just created come on at v. */
  ghost function SwitchedOn(s: Site, v: real): (r: Net)
    requires s.Valid() && v > 0.0
    ensures Running(s, r)
  {
    Ask(s, StartUp(s), SetMains(v))
  }

  /** As created: marked on, without input. */
  ghost predicate Untouched(a: AssetState) {
    a.status && a.inVolt == 0.0
  }

  /** Reached by the wave: on exactly when the voltage is enough. */
  ghost predicate SettledAt(a: AssetState, min: real, v: real) {
    a.inVolt == v && (a.status <==> v > min)
  }

  /** The asset's source has been reached and is on. */
  ghost predicate SourceAwake(s: Site, net: Net, v: real, c: Key)
    requires c in s.config && s.topo.Has(c)
  {
    if s.IsRoot(c) then s.config[c].kind.Outlet? else (s.Parent(c) in net.hw && net.hw[s.Parent(c)].status && net.hw[s.Parent(c)].inVolt == v)
  }

  /** Below an awake source an asset is settled or about to be; below any other it is untouched. */
  ghost predicate WakingAt(s: Site, net: Net, v: real, c: Key)
    requires c in s.config && c in net.hw && s.topo.Has(c)
  {
    var a, incoming := net.hw[c], Incoming(net.engine.queue, c);
    if SourceAwake(s, net, v, c) then
      (SettledAt(a, s.config[c].minVoltage, v) && incoming == []) || (Untouched(a) && incoming == [v])
    else Untouched(a) && incoming == []
  }

  ghost predicate Waking(s: Site, net: Net, v: real) {
    && Running(s, net) && net.mains == v > 0.0
    && (forall i :: 0 <= i < |net.engine.queue| ==>
          net.engine.queue[i].target in s.config && (net.engine.queue[i].InputVoltage? || net.engine.queue[i].ChildLoad?))
    && (forall c :: c in s.config && s.topo.Has(c) ==> WakingAt(s, net, v, c))
  }

  lemma WakingAtLaunch(s: Site, v: real)
    requires s.Valid() && v > 0.0
    ensures Waking(s, SwitchedOn(s, v), v)
  {
    hide Accounted;
    var net := SwitchedOn(s, v);
    LaunchedQueue(s.topo, Wallpower(Change(0.0, v)));
    forall c | c in s.config && s.topo.Has(c) ensures WakingAt(s, net, v, c)
    {
      IncomingOfVolts(s.topo.mains, net.engine.queue, v, c);
      if !s.IsRoot(c) {
        assert s.topo.parents[c] == [s.Parent(c)];
        assert Untouched(net.hw[s.Parent(c)]);
      }
    }
  }

  // ----- One turn -----

  /** The asset reached by the wave settles, and passes the voltage on exactly when it stays on. */
  lemma WaveSettles(c: Config, a: AssetState, m: Message, supply: Supply, v: real)
    requires c.Valid() && Untouched(a) && m.InputVoltage? && m.volt.after == v > 0.0
    ensures var r := AfterPowerSide(c, a, m, supply);
            && SettledAt(r.state, c.minVoltage, v)
            && (if r.state.status then r.event.outVolt == Change(0.0, v) else r.event.outVolt.Unchanged())
  {
  }

  /** An asset below the reached one is told when that one stays on. */
  lemma WokenChild(s: Site, net: Net, r: Net, n: Key, added: seq<Message>, out: Change, v: real, c: Key)
    requires s.Valid() && net.engine.queue != [] && n == net.engine.queue[0].target && v > 0.0
    requires n in s.config && s.topo.Has(n) && n in r.hw && r.hw == net.hw[n := r.hw[n]]
    requires AddsVolts(s, n, added, out) && r.engine.queue == net.engine.queue[1..] + added
    requires n in net.hw && Untouched(net.hw[n]) && r.hw[n].inVolt == v && (if r.hw[n].status then out == Change(0.0, v) else out.Unchanged())
    requires c in s.config && c in net.hw && s.topo.Has(c) && c != n && c in s.topo.children[n] && WakingAt(s, net, v, c)
    ensures WakingAt(s, r, v, c)
  {
    IncomingAfterTurn(net.engine.queue, added, c);
    OnlyParent(s, c, n);
    assert !SourceAwake(s, net, v, c);
    assert SourceAwake(s, r, v, c) == r.hw[n].status;
    assert Incoming(r.engine.queue, c) == Incoming(added, c);
  }

  lemma WokenElsewhere(s: Site, net: Net, r: Net, n: Key, added: seq<Message>, out: Change, v: real, c: Key)
    requires s.Valid() && net.engine.queue != [] && n == net.engine.queue[0].target
    requires n in s.config && s.topo.Has(n) && n in r.hw && r.hw == net.hw[n := r.hw[n]]
    requires AddsVolts(s, n, added, out) && r.engine.queue == net.engine.queue[1..] + added
    requires c in s.config && c in net.hw && s.topo.Has(c) && c != n && c !in s.topo.children[n] && WakingAt(s, net, v, c)
    ensures WakingAt(s, r, v, c)
  {
    IncomingAfterTurn(net.engine.queue, added, c);
    OnlyParent(s, c, n);
    assert SourceAwake(s, r, v, c) == SourceAwake(s, net, v, c);
    assert Incoming(net.engine.queue, c) + [] == Incoming(net.engine.queue, c);
    assert Incoming(r.engine.queue, c) == Incoming(net.engine.queue, c);
  }

  /** The asset at the head of the queue is untouched, and the wave has just reached it. */
  lemma HeadIsReached(s: Site, net: Net, v: real)
    requires Waking(s, net, v) && net.engine.queue != [] && net.engine.queue[0].InputVoltage?
    ensures var n := net.engine.queue[0].target;
            && n in s.config && s.topo.Has(n) && s.config[n].Valid() && net.engine.queue[0].volt.after == v
            && Untouched(net.hw[n]) && SourceAwake(s, net, v, n) && Incoming(net.engine.queue[1..], n) == []
  {
    hide Accounted;
    var m, q := net.engine.queue[0], net.engine.queue;
    assert WakingAt(s, net, v, m.target);
    assert Incoming(q, m.target) == [m.volt.after] + Incoming(q[1..], m.target);
    assert Incoming(q, m.target)[0] == m.volt.after && |Incoming(q, m.target)| == 1;
  }

  lemma ReachedAsset(s: Site, net: Net, r: Net, added: seq<Message>, out: Change, v: real)
    requires Waking(s, net, v) && net.engine.queue != [] && net.engine.queue[0].InputVoltage?
    requires var n := net.engine.queue[0].target;
             && n in s.config && s.topo.Has(n) && n in r.hw && r.hw == net.hw[n := r.hw[n]]
             && SettledAt(r.hw[n], s.config[n].minVoltage, v) && AddsVolts(s, n, added, out)
             && SourceAwake(s, net, v, n) && Incoming(net.engine.queue[1..], n) == []
    requires r.engine.queue == net.engine.queue[1..] + added
    ensures WakingAt(s, r, v, net.engine.queue[0].target)
  {
    hide Accounted;
    var n := net.engine.queue[0].target;
    IncomingAfterTurn(net.engine.queue, added, n);
    OnlyParent(s, n, n);
    assert !s.IsRoot(n) ==> s.Parent(n) in s.topo.parents[n] && s.Parent(n) != n;
  }

  /** What the turn of the reached asset does to the network. */
  lemma WaveShape(s: Site, net: Net, v: real) returns (added: seq<Message>, out: Change)
    requires Waking(s, net, v) && net.engine.queue != [] && net.engine.queue[0].InputVoltage?
    ensures var n, r := net.engine.queue[0].target, Turn(s, net);
            && r.engine.queue == net.engine.queue[1..] + added && n in r.hw && r.hw == net.hw[n := r.hw[n]]
            && n in s.config && s.topo.Has(n) && SettledAt(r.hw[n], s.config[n].minVoltage, v) && AddsVolts(s, n, added, out)
            && (if r.hw[n].status then out == Change(0.0, v) else out.Unchanged())
    ensures forall i :: 0 <= i < |added| ==> added[i].target in s.config && (added[i].InputVoltage? || added[i].ChildLoad?)
  {
    hide Accounted, WakingAt, Turn, AddsVolts;
    var first, second := VoltTurnQueue(s, net);
    HeadIsReached(s, net, v);
    var m := net.engine.queue[0];
    var e := Report(s, net).event;
    WaveSettles(s.config[m.target], net.hw[m.target], m, SupplyOf(s, net, m.target), v);
    hide Waking;
    ReportAddsVolts(s, e, first, second);
    ReportAddsNoRequests(s, e, first, second);
    added, out := DownstreamMessages(s.topo, e, second) + UpstreamMessages(s.topo, e, first), e.outVolt;
  }

  lemma WaveTurn(s: Site, net: Net, v: real)
    requires Waking(s, net, v) && net.engine.queue != [] && net.engine.queue[0].InputVoltage?
    ensures Waking(s, Turn(s, net), v)
  {
    hide Accounted, WakingAt, AddsVolts, Turn, Untouched, SourceAwake, Incoming;
    var r := Turn(s, net);
    var n := net.engine.queue[0].target;
    HeadIsReached(s, net, v);
    var added, out := WaveShape(s, net, v);
    ReachedAsset(s, net, r, added, out, v);
    forall c | c in s.config && s.topo.Has(c) ensures c in r.hw && WakingAt(s, r, v, c)
    {
      assert c in net.hw && WakingAt(s, net, v, c);
      if c != n && c in s.topo.children[n] {
        WokenChild(s, net, r, n, added, out, v, c);
      } else if c != n {
        WokenElsewhere(s, net, r, n, added, out, v, c);
      }
    }
    TurnWakes(s, net, r, added, v);
  }

  lemma SameVoltagesWake(s: Site, net: Net, r: Net, added: seq<Message>, v: real, c: Key)
    requires s.Valid() && net.hw.Keys == r.hw.Keys == s.config.Keys && net.engine.queue != [] && !net.engine.queue[0].InputVoltage?
    requires forall k :: k in s.config ==> r.hw[k].status == net.hw[k].status && r.hw[k].inVolt == net.hw[k].inVolt
    requires r.engine.queue == net.engine.queue[1..] + added && forall i :: 0 <= i < |added| ==> added[i].ChildLoad?
    requires c in s.config && s.topo.Has(c) && WakingAt(s, net, v, c)
    ensures WakingAt(s, r, v, c)
  {
    IncomingAfterTurn(net.engine.queue, added, c);
    IncomingNone(added, c);
    OnlyParent(s, c, c);
    assert Incoming(net.engine.queue, c) + [] == Incoming(net.engine.queue, c);
  }

  /** A turn whose queue and every asset are in order is in order. */
  lemma TurnWakes(s: Site, net: Net, r: Net, added: seq<Message>, v: real)
    requires Waking(s, net, v) && net.engine.queue != [] && r == Turn(s, net) && r.engine.queue == net.engine.queue[1..] + added
    requires forall i :: 0 <= i < |added| ==> added[i].target in s.config && (added[i].InputVoltage? || added[i].ChildLoad?)
    requires forall c :: c in s.config && s.topo.Has(c) ==> c in r.hw && WakingAt(s, r, v, c)
    ensures Waking(s, r, v)
  {
    hide Accounted, Turn, WakingAt;
  }

  lemma LoadTurnWakes(s: Site, net: Net, v: real)
    requires Waking(s, net, v) && net.engine.queue != [] && net.engine.queue[0].ChildLoad?
    ensures Waking(s, Turn(s, net), v)
  {
    hide Accounted, WakingAt, Turn, Incoming;
    var added := LoadTurnShape(s, net);
    var r := Turn(s, net);
    assert s.Valid() && net.hw.Keys == r.hw.Keys == s.config.Keys;
    forall c | c in s.config && s.topo.Has(c) ensures WakingAt(s, r, v, c)
    {
      SameVoltagesWake(s, net, r, added, v, c);
    }
    TurnWakes(s, net, r, added, v);
  }

  lemma TurnStaysWaking(s: Site, net: Net, v: real)
    requires Waking(s, net, v)
    ensures Waking(s, Turn(s, net), v)
  {
    hide Accounted, WakingAt;
    if net.engine.queue != [] {
      assert net.engine.queue[0].InputVoltage? || net.engine.queue[0].ChildLoad?;
      hide Turn, Waking;
      if net.engine.queue[0].InputVoltage? {
        WaveTurn(s, net, v);
      } else {
        LoadTurnWakes(s, net, v);
      }
    }
  }

  lemma {:induction false} SettlesWaking(s: Site, net: Net, v: real)
    requires Waking(s, net, v)
    ensures Waking(s, Settle(s, net), v)
    decreases InFlightWeight(s, net)
  {
    assert Running(s, net);
    hide Accounted, WakingAt, Waking, Turn, InFlightWeight;
    if !Idle(net) {
      TurnDescends(s, net);
      TurnStaysWaking(s, net, v);
      SettlesWaking(s, Turn(s, net), v);
    }
  }

  // ----- The outcome -----

  /** Every asset that powers something works at v, and is an outlet if it is in the wall. */
  ghost predicate SourcesWorkAt(s: Site, v: real) {
    forall n :: n in s.config && s.topo.Has(n) && s.topo.children[n] != [] ==> s.config[n].minVoltage < v && !Unplugged(s, n)
  }

  /** When the wave is over and every source works at v, it has reached every asset. */
  lemma {:induction false} AllReached(s: Site, net: Net, v: real, c: Key)
    requires Waking(s, net, v) && Idle(net) && SourcesWorkAt(s, v) && c in s.config && s.topo.Has(c) && !Unplugged(s, c)
    ensures SettledAt(net.hw[c], s.config[c].minVoltage, v) && SourceAwake(s, net, v, c)
    decreases s.rank[c]
  {
    hide Accounted;
    assert WakingAt(s, net, v, c);
    if !s.IsRoot(c) {
      OnlyParent(s, c, s.Parent(c));
      assert s.topo.parents[c][0] == s.Parent(c);
      AllReached(s, net, v, s.Parent(c));
      assert c in s.topo.children[s.Parent(c)];
    }
  }

  /** A source that does not work at v, or is not in the wall, leaves an asset lit without input somewhere. */
  lemma {:induction false} SomethingStaysLit(s: Site, net: Net, v: real, n: Key)
    requires Waking(s, net, v) && Idle(net) && n in s.config && s.topo.Has(n)
    requires s.topo.children[n] != [] && (s.config[n].minVoltage >= v || Unplugged(s, n))
    ensures !Coherent(s, net)
  {
    hide Accounted;
    var c := s.topo.children[n][0];
    assert c in s.topo.children[n] && c in s.config && s.topo.Has(c);
    OnlyParent(s, c, n);
    assert WakingAt(s, net, v, n) && WakingAt(s, net, v, c);
    assert !SourceAwake(s, net, v, c);
    assert net.hw[c].status && net.hw[c].inVolt == 0.0;
  }

  /** The first power-up leaves the network coherent exactly when every asset that powers something
      works at the mains voltage and has a supply: an asset that switches off at once, or never
      hears of a voltage, has nothing to announce, so what it powers stays marked as on. */
  lemma FirstPowerUpIsCoherent(s: Site, v: real)
    requires s.Valid() && v > 0.0
    ensures Coherent(s, Settle(s, SwitchedOn(s, v))) <==> SourcesWorkAt(s, v)
  {
    hide Accounted, SwitchedOn;
    var net := Settle(s, SwitchedOn(s, v));
    WakingAtLaunch(s, v);
    SettlesWaking(s, SwitchedOn(s, v), v);
    if SourcesWorkAt(s, v) {
      forall c | c in s.config && c in net.hw && s.topo.Has(c) && !Unplugged(s, c)
        ensures SettledAt(net.hw[c], s.config[c].minVoltage, v) && SourceAwake(s, net, v, c)
      {
        AllReached(s, net, v, c);
      }
      assert forall c :: c in s.config ==> s.config[c].minVoltage >= 0.0;
    } else {
      var k :| k in s.config && s.topo.Has(k) && s.topo.children[k] != [] && (s.config[k].minVoltage >= v || Unplugged(s, k));
      SomethingStaysLit(s, net, v, k);
    }
  }

  /** From such a first power-up on, every run leaves the network coherent. */
  lemma CoherentFromTheStart(s: Site, v: real, actions: seq<Action>)
    requires s.Valid() && v > 0.0 && SourcesWorkAt(s, v) && ValidActions(s, actions)
    ensures Coherent(s, Settle(s, Exec(s, Settle(s, SwitchedOn(s, v)), actions)))
  {
    hide Accounted, WakingAt, Coherent, SourcesWorkAt, Exec, SwitchedOn, Settle;
    FirstPowerUpIsCoherent(s, v);
    WakingAtLaunch(s, v);
    SettlesWaking(s, SwitchedOn(s, v), v);
    NothingLitUnderDeadParent(s, Settle(s, SwitchedOn(s, v)), actions);
  }
}
