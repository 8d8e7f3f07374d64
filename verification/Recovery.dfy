// An outage and its end: which assets come back when the mains do.

module Recovery {
  import opened Events
  import opened Assets
  import opened Iteration
  import opened Accounting
  import opened Network
  import opened Conservation
  import opened PowerSafety
  import opened AtRest

  /** The tree the asset belongs to is plugged into the wall. */
  ghost predicate Fed(s: Site, c: Key)
    requires s.Valid() && c in s.config
    decreases s.rank[c]
  {
    if s.IsRoot(c) then s.config[c].kind.Outlet?
    else
      assert s.Parent(c) == s.topo.parents[c][0];
      Fed(s, s.Parent(c))
  }

  /** Only voltages of the value v and load changes are in flight. */
  ghost predicate WaveOf(s: Site, q: seq<Message>, v: real) {
    && (forall i :: 0 <= i < |q| ==> q[i].target in s.config && (q[i].InputVoltage? || q[i].ChildLoad?))
    && (forall k, x :: k in s.config && x in Incoming(q, k) ==> x == v)
  }

  lemma WaveHead(s: Site, q: seq<Message>, v: real)
    requires WaveOf(s, q, v) && q != [] && q[0].InputVoltage?
    ensures q[0].volt.after == v && Incoming(q, q[0].target) == [v] + Incoming(q[1..], q[0].target)
  {
    assert q[0].volt.after in Incoming(q, q[0].target);
  }

  /** What a turn of the asset at the head of the queue does. */
  lemma VoltTurnShape(s: Site, net: Net) returns (added: seq<Message>)
    requires Running(s, net) && net.engine.queue != [] && net.engine.queue[0].InputVoltage?
    ensures var n, r := net.engine.queue[0].target, Turn(s, net);
            && n in s.config && s.topo.Has(n) && r.mains == net.mains
            && r.engine.queue == net.engine.queue[1..] + added && r.hw == net.hw[n := Report(s, net).state]
            && AddsVolts(s, n, added, Report(s, net).event.outVolt)
    ensures forall i :: 0 <= i < |added| ==> added[i].target in s.config && (added[i].InputVoltage? || added[i].ChildLoad?)
  {
    hide Accounted, Turn, AddsVolts;
    var first, second := VoltTurnQueue(s, net);
    var e := Report(s, net).event;
    ReportAddsVolts(s, e, first, second);
    ReportAddsNoRequests(s, e, first, second);
    added := DownstreamMessages(s.topo, e, second) + UpstreamMessages(s.topo, e, first);
  }

  /** The wave goes on when the asset passes on v or nothing. */
  lemma WaveGoesOn(s: Site, net: Net, r: Net, added: seq<Message>, out: Change, v: real)
    requires net.engine.queue != [] && net.engine.queue[0].target in s.config && s.topo.Has(net.engine.queue[0].target)
    requires WaveOf(s, net.engine.queue, v) && r.engine.queue == net.engine.queue[1..] + added
    requires AddsVolts(s, net.engine.queue[0].target, added, out) && (out.Unchanged() || out.after == v)
    requires forall i :: 0 <= i < |added| ==> added[i].target in s.config && (added[i].InputVoltage? || added[i].ChildLoad?)
    ensures WaveOf(s, r.engine.queue, v)
  {
    forall k, x | k in s.config && x in Incoming(r.engine.queue, k) ensures x == v
    {
      IncomingAfterTurn(net.engine.queue, added, k);
      assert x in Incoming(net.engine.queue[1..], k) ==> x in Incoming(net.engine.queue, k);
    }
  }

  /** A load event leaves the voltages in flight as they are. */
  lemma LoadKeepsIncoming(s: Site, net: Net, r: Net, added: seq<Message>, k: Key)
    requires net.engine.queue != [] && net.engine.queue[0].ChildLoad? && r.engine.queue == net.engine.queue[1..] + added
    requires forall i :: 0 <= i < |added| ==> added[i].ChildLoad?
    ensures Incoming(r.engine.queue, k) == Incoming(net.engine.queue, k)
  {
    IncomingAfterTurn(net.engine.queue, added, k);
    IncomingNone(added, k);
    assert Incoming(net.engine.queue, k) + [] == Incoming(net.engine.queue, k);
  }

  // ----- The outage -----

  /** An asset through an outage: nothing, or it lost AC. */
  predicate Faded(before: AssetState, a: AssetState) {
    && a.oidsOn == before.oidsOn
    && if a.status == before.status then a.reason == before.reason else !a.status && a.reason == Some(AcLost)
  }

  lemma FadesOn(c: Config, before: AssetState, a: AssetState, m: Message, supply: Supply)
    requires c.Valid() && m.InputVoltage? && m.volt.after == 0.0 && Faded(before, a)
    ensures var r := AfterInputVoltage(c, a, m, supply);
            Faded(before, r.state) && (r.event.outVolt.Unchanged() || r.event.outVolt.after == 0.0)
  {
  }

  ghost predicate Fading(s: Site, before: Net, net: Net) {
    && Running(s, net) && before.hw.Keys == s.config.Keys && WaveOf(s, net.engine.queue, 0.0)
    && forall c :: c in s.config ==> Faded(before.hw[c], net.hw[c])
  }

  lemma VoltTurnFades(s: Site, before: Net, net: Net)
    requires Fading(s, before, net) && net.engine.queue != [] && net.engine.queue[0].InputVoltage?
    ensures Fading(s, before, Turn(s, net))
  {
    hide Accounted, Turn, AddsVolts, AfterInputVoltage, WaveOf, Incoming, Faded;
    var m := net.engine.queue[0];
    var added := VoltTurnShape(s, net);
    WaveHead(s, net.engine.queue, 0.0);
    assert Faded(before.hw[m.target], net.hw[m.target]);
    FadesOn(s.config[m.target], before.hw[m.target], net.hw[m.target], m, SupplyOf(s, net, m.target));
    WaveGoesOn(s, net, Turn(s, net), added, Report(s, net).event.outVolt, 0.0);
  }

  lemma TurnFades(s: Site, before: Net, net: Net)
    requires Fading(s, before, net)
    ensures Fading(s, before, Turn(s, net))
  {
    assert net.engine.queue == [] ==> Turn(s, net) == net;
    assert net.engine.queue != [] ==> net.engine.queue[0].InputVoltage? || net.engine.queue[0].ChildLoad?;
    hide Fading, Turn, Running;
    if net.engine.queue != [] {
      if net.engine.queue[0].InputVoltage? {
        VoltTurnFades(s, before, net);
      } else {
        LoadTurnFades(s, before, net);
      }
    }
  }

  lemma LoadTurnFades(s: Site, before: Net, net: Net)
    requires Fading(s, before, net) && net.engine.queue != [] && net.engine.queue[0].ChildLoad?
    ensures Fading(s, before, Turn(s, net))
  {
    hide Accounted, Turn;
    var added := LoadTurnShape(s, net);
    LoadWaveGoesOn(s, net, Turn(s, net), added, 0.0);
  }

  lemma LoadWaveGoesOn(s: Site, net: Net, r: Net, added: seq<Message>, v: real)
    requires net.engine.queue != [] && net.engine.queue[0].ChildLoad? && r.engine.queue == net.engine.queue[1..] + added
    requires WaveOf(s, net.engine.queue, v) && forall i :: 0 <= i < |added| ==> added[i].target in s.config && added[i].ChildLoad?
    ensures WaveOf(s, r.engine.queue, v)
  {
    forall k, x | k in s.config && x in Incoming(r.engine.queue, k) ensures x == v
    {
      LoadKeepsIncoming(s, net, r, added, k);
    }
  }

  lemma {:induction false} SettlesFading(s: Site, before: Net, net: Net)
    requires Fading(s, before, net)
    ensures Fading(s, before, Settle(s, net))
    decreases InFlightWeight(s, net)
  {
    assert Running(s, net);
    hide Fading, Running, Turn, InFlightWeight;
    if !Idle(net) {
      TurnDescends(s, net);
      TurnFades(s, before, net);
      SettlesFading(s, before, Turn(s, net));
    }
  }

  /** The mains of an idle network move to v. */
  ghost function Moved(s: Site, net: Net, v: real): (r: Net)
    requires Running(s, net) && v >= 0.0
    ensures Running(s, r)
  {
    Ask(s, net, SetMains(v))
  }

  /** What a move of the mains puts in flight. */
  lemma MovedQueue(s: Site, net: Net, v: real)
    requires Running(s, net) && Idle(net) && v >= 0.0
    ensures var r := Moved(s, net, v);
            && r.hw == net.hw && r.mains == v && WaveOf(s, r.engine.queue, v)
            && forall k :: k in s.config ==> Incoming(r.engine.queue, k) == if v != net.mains && k in s.topo.mains then [v] else []
  {
    hide Accounted;
    LaunchedQueue(s.topo, Wallpower(Change(net.mains, v)));
    var q := Moved(s, net, v).engine.queue;
    if v != net.mains {
      forall k ensures Incoming(q, k) == if k in s.topo.mains then [v] else []
      {
        IncomingOfVolts(s.topo.mains, q, v, k);
      }
    }
  }

  /** The network when the mains are gone. */
  ghost function Outage(s: Site, net: Net): (r: Net)
    requires Running(s, net)
    ensures Running(s, r) && Idle(r)
  {
    Settle(s, Moved(s, net, 0.0))
  }

  lemma OutageFades(s: Site, net: Net)
    requires Running(s, net) && Idle(net)
    ensures Fading(s, net, Outage(s, net))
  {
    hide Accounted;
    MovedQueue(s, net, 0.0);
    SettlesFading(s, net, Moved(s, net, 0.0));
  }

  // ----- The return -----

  /** The asset powers itself up on v if its supply lets it. */
  predicate Tries(c: Config, a: AssetState, v: real) {
    v > c.minVoltage && a.reason != Some(TurnedOff) && c.powerOnAc
  }

  /** Why an asset that has handled v is in the state it is in. */
  function ReasonAfter(c: Config, d: AssetState, v: real): Option<Reason> {
    if Tries(c, d, v) then Some(AcRestored) else d.reason
  }

  /** After the outage the asset comes back: it tries to, its source comes back too, and no OID holds
      it off; an outlet in the wall only needs to try. */
  ghost predicate Relights(s: Site, dark: Net, v: real, c: Key)
    requires s.Valid() && dark.hw.Keys == s.config.Keys && c in s.config
    decreases s.rank[c]
  {
    && Tries(s.config[c], dark.hw[c], v)
    && (s.IsRoot(c) ||
        (assert s.Parent(c) == s.topo.parents[c][0];
         dark.hw[c].oidsOn && Relights(s, dark, v, s.Parent(c))))
  }

  /** The asset passes the voltage on: it comes back, or stays off without having tried. */
  ghost predicate Passes(s: Site, dark: Net, v: real, c: Key)
    requires s.Valid() && dark.hw.Keys == s.config.Keys && c in s.config
  {
    Relights(s, dark, v, c) || !Tries(s.config[c], dark.hw[c], v)
  }

  /** The voltage gets to the asset. */
  ghost predicate Reached(s: Site, dark: Net, v: real, c: Key)
    requires s.Valid() && dark.hw.Keys == s.config.Keys && c in s.config
    decreases s.rank[c]
  {
    s.IsRoot(c) ||
    (assert s.Parent(c) == s.topo.parents[c][0];
     Passes(s, dark, v, s.Parent(c)) && Reached(s, dark, v, s.Parent(c)))
  }

  /** The asset's source has handled the voltage and passed it on. */
  ghost predicate Called(s: Site, dark: Net, v: real, done: set<Key>, c: Key)
    requires s.Valid() && dark.hw.Keys == s.config.Keys && c in s.config && done <= s.config.Keys
  {
    s.IsRoot(c) || (s.Parent(c) in done && Passes(s, dark, v, s.Parent(c)))
  }

  /** Before the voltage gets to it an asset is as the outage left it, then it is lit exactly when
      it comes back. */
  ghost predicate RisesAt(s: Site, dark: Net, net: Net, v: real, done: set<Key>, c: Key)
    requires s.Valid() && dark.hw.Keys == s.config.Keys && c in s.config && c in net.hw && done <= s.config.Keys
  {
    var a, d, incoming := net.hw[c], dark.hw[c], Incoming(net.engine.queue, c);
    if c in done then
      && incoming == [] && a.inVolt == v && (a.status <==> Relights(s, dark, v, c)) && Called(s, dark, v, done, c)
      && a.reason == ReasonAfter(s.config[c], d, v)
    else a == d.(load := a.load) && !a.status && incoming == if Called(s, dark, v, done, c) then [v] else []
  }

  ghost predicate Rising(s: Site, dark: Net, net: Net, v: real, done: set<Key>) {
    && Running(s, net) && dark.hw.Keys == s.config.Keys && net.mains == v > 0.0 && done <= s.config.Keys
    && WaveOf(s, net.engine.queue, v)
    && (forall c :: c in s.config && !Fed(s, c) ==> Incoming(net.engine.queue, c) == [])
    && forall c :: c in s.config && Fed(s, c) ==> RisesAt(s, dark, net, v, done, c)
  }

  /** How an asset that is off handles the voltage. */
  lemma OffReacts(c: Config, a: AssetState, m: Message, supply: Supply, v: real)
    requires c.Valid() && !a.status && m.InputVoltage? && m.volt.after == v > 0.0
    ensures var r := AfterInputVoltage(c, a, m, supply);
            var lights := Tries(c, a, v) && supply.Available(a.oidsOn);
            && r.state.inVolt == v && (r.state.status <==> lights) && r.state.reason == ReasonAfter(c, a, v)
            && (if lights || !Tries(c, a, v) then r.event.outVolt == Change(0.0, v) else r.event.outVolt.Unchanged())
  {
  }

  /** Its supply is available exactly when its source is back. */
  lemma SupplyIsBack(s: Site, dark: Net, net: Net, v: real, done: set<Key>, n: Key)
    requires Rising(s, dark, net, v, done) && n in s.config && s.topo.Has(n) && Fed(s, n) && Called(s, dark, v, done, n) && n !in done
    ensures Tries(s.config[n], dark.hw[n], v) ==>
              (SupplyOf(s, net, n).Available(net.hw[n].oidsOn) <==> Relights(s, dark, v, n))
  {
    hide Accounted;
    assert RisesAt(s, dark, net, v, done, n);
    if !s.IsRoot(n) {
      var p := s.Parent(n);
      OnlyParent(s, n, p);
      SupplyFollowsParent(s, net, n);
      assert Fed(s, p) && RisesAt(s, dark, net, v, done, p);
    }
  }

  /** The asset that handles the voltage is one the wave has just got to. */
  lemma HeadRises(s: Site, dark: Net, net: Net, v: real, done: set<Key>)
    requires Rising(s, dark, net, v, done) && net.engine.queue != [] && net.engine.queue[0].InputVoltage?
    ensures var n := net.engine.queue[0].target;
            && n in s.config && s.topo.Has(n) && Fed(s, n) && n !in done && Called(s, dark, v, done, n)
            && !net.hw[n].status && net.hw[n] == dark.hw[n].(load := net.hw[n].load)
            && net.engine.queue[0].volt.after == v && Incoming(net.engine.queue[1..], n) == []
  {
    hide Accounted;
    var n := net.engine.queue[0].target;
    WaveHead(s, net.engine.queue, v);
    assert Incoming(net.engine.queue, n) != [];
    assert RisesAt(s, dark, net, v, done, n);
    assert |Incoming(net.engine.queue, n)| == 1;
  }

  /** The turn of n, as far as the wave is concerned. */
  ghost predicate Handles(s: Site, dark: Net, net: Net, r: Net, v: real, n: Key, added: seq<Message>, out: Change)
    requires s.Valid() && dark.hw.Keys == s.config.Keys
  {
    && net.engine.queue != [] && n == net.engine.queue[0].target && net.engine.queue[0].InputVoltage?
    && n in s.config && s.topo.Has(n) && n in r.hw && r.hw == net.hw[n := r.hw[n]]
    && r.engine.queue == net.engine.queue[1..] + added && AddsVolts(s, n, added, out)
    && Incoming(net.engine.queue[1..], n) == []
    && r.hw[n].inVolt == v && (r.hw[n].status <==> Relights(s, dark, v, n)) && r.hw[n].reason == ReasonAfter(s.config[n], dark.hw[n], v)
    && (if Passes(s, dark, v, n) then out == Change(0.0, v) else out.Unchanged())
  }

  lemma RiseShape(s: Site, dark: Net, net: Net, v: real, done: set<Key>) returns (added: seq<Message>, out: Change)
    requires Rising(s, dark, net, v, done) && net.engine.queue != [] && net.engine.queue[0].InputVoltage?
    ensures Handles(s, dark, net, Turn(s, net), v, net.engine.queue[0].target, added, out)
    ensures Turn(s, net).mains == net.mains && WaveOf(s, Turn(s, net).engine.queue, v)
  {
    hide Accounted, Turn, AddsVolts, RisesAt, WaveOf, Incoming;
    added := VoltTurnShape(s, net);
    HeadRises(s, dark, net, v, done);
    var m := net.engine.queue[0];
    var n := m.target;
    SupplyIsBack(s, dark, net, v, done, n);
    OffReacts(s.config[n], net.hw[n], m, SupplyOf(s, net, n), v);
    out := Report(s, net).event.outVolt;
    RelightsTries(s, dark, v, n);
    hide Rising, AfterInputVoltage, Relights;
    assert WaveOf(s, net.engine.queue, v) by { RisingWave(s, dark, net, v, done); }
    WaveGoesOn(s, net, Turn(s, net), added, out, v);
  }

  lemma RisingWave(s: Site, dark: Net, net: Net, v: real, done: set<Key>)
    requires Rising(s, dark, net, v, done)
    ensures WaveOf(s, net.engine.queue, v)
  {
  }

  lemma RelightsTries(s: Site, dark: Net, v: real, n: Key)
    requires s.Valid() && dark.hw.Keys == s.config.Keys && n in s.config
    ensures Relights(s, dark, v, n) ==> Tries(s.config[n], dark.hw[n], v)
  {
  }

  lemma IncomingOfOthers(s: Site, dark: Net, net: Net, r: Net, v: real, n: Key, added: seq<Message>, out: Change, c: Key)
    requires s.Valid() && dark.hw.Keys == s.config.Keys && v > 0.0
    requires Handles(s, dark, net, r, v, n, added, out) && c in s.config && c != n
    ensures Incoming(r.engine.queue, c)
         == Incoming(net.engine.queue, c) + if c in s.topo.children[n] && Passes(s, dark, v, n) then [v] else []
  {
    hide Passes;
    IncomingAfterTurn(net.engine.queue, added, c);
  }

  lemma CalledMore(s: Site, dark: Net, v: real, done: set<Key>, n: Key, c: Key)
    requires s.Valid() && dark.hw.Keys == s.config.Keys && n in s.config && s.topo.Has(n) && c in s.config && done <= s.config.Keys
    requires n !in done
    ensures s.topo.Has(c)
    ensures c in s.topo.children[n] ==> !Called(s, dark, v, done, c) && (Called(s, dark, v, done + {n}, c) <==> Passes(s, dark, v, n))
    ensures c !in s.topo.children[n] ==> (Called(s, dark, v, done + {n}, c) <==> Called(s, dark, v, done, c))
  {
    hide Passes;
    assert s.topo.Has(c);
    OnlyParent(s, c, n);
  }

  /** The others: those below n are called when n passes the voltage on, the rest stay as they are. */
  lemma OthersRise(s: Site, dark: Net, net: Net, r: Net, v: real, done: set<Key>, n: Key, added: seq<Message>, out: Change, c: Key)
    requires s.Valid() && dark.hw.Keys == s.config.Keys && net.hw.Keys == s.config.Keys && done <= s.config.Keys
    requires Handles(s, dark, net, r, v, n, added, out) && n !in done && v > 0.0
    requires c in s.config && c != n && RisesAt(s, dark, net, v, done, c)
    ensures RisesAt(s, dark, r, v, done + {n}, c)
  {
    IncomingOfOthers(s, dark, net, r, v, n, added, out, c);
    CalledMore(s, dark, v, done, n, c);
    var incoming := Incoming(net.engine.queue, c);
    assert incoming + [] == incoming && [] + [v] == [v];
    assert r.hw[c] == net.hw[c];
    assert c in done + {n} <==> c in done;
    hide *;
    StillRises(s, dark, net, r, v, done, n, c);
  }

  /** An asset the turn of n leaves alone, with the voltages in flight to it and what called it. */
  lemma StillRises(s: Site, dark: Net, net: Net, r: Net, v: real, done: set<Key>, n: Key, c: Key)
    requires s.Valid() && dark.hw.Keys == s.config.Keys && c in s.config && c in net.hw && done <= s.config.Keys && n in s.config
    requires RisesAt(s, dark, net, v, done, c) && c in r.hw && r.hw[c] == net.hw[c] && c != n
    requires var more := !Called(s, dark, v, done, c) && Called(s, dark, v, done + {n}, c);
             && (Called(s, dark, v, done, c) ==> Called(s, dark, v, done + {n}, c))
             && Incoming(r.engine.queue, c) == Incoming(net.engine.queue, c) + if more then [v] else []
    ensures RisesAt(s, dark, r, v, done + {n}, c)
  {
    hide Relights, Passes, Called, Incoming;
    var incoming := Incoming(net.engine.queue, c);
    assert incoming + [] == incoming;
  }

  lemma HandledRises(s: Site, dark: Net, net: Net, r: Net, v: real, done: set<Key>, n: Key, added: seq<Message>, out: Change)
    requires s.Valid() && dark.hw.Keys == s.config.Keys && net.hw.Keys == s.config.Keys && done <= s.config.Keys
    requires Handles(s, dark, net, r, v, n, added, out) && Called(s, dark, v, done, n)
    ensures RisesAt(s, dark, r, v, done + {n}, n)
  {
    IncomingAfterTurn(net.engine.queue, added, n);
    OnlyParent(s, n, n);
    assert !s.IsRoot(n) ==> s.Parent(n) == s.topo.parents[n][0] && s.Parent(n) != n;
    assert Incoming(added, n) == [];
    hide Relights;
  }

  /** Assets in no wall hear nothing. */
  lemma UnfedHearNothing(s: Site, dark: Net, net: Net, r: Net, v: real, n: Key, added: seq<Message>, out: Change, c: Key)
    requires s.Valid() && dark.hw.Keys == s.config.Keys && Handles(s, dark, net, r, v, n, added, out) && Fed(s, n)
    requires c in s.config && !Fed(s, c) && Incoming(net.engine.queue, c) == []
    ensures Incoming(r.engine.queue, c) == []
  {
    IncomingAfterTurn(net.engine.queue, added, c);
    assert s.topo.Has(c);
    OnlyParent(s, c, n);
  }

  lemma RiseTurn(s: Site, dark: Net, net: Net, v: real, done: set<Key>)
    requires Rising(s, dark, net, v, done) && net.engine.queue != [] && net.engine.queue[0].InputVoltage?
    ensures net.engine.queue[0].target in s.config && Rising(s, dark, Turn(s, net), v, done + {net.engine.queue[0].target})
  {
    hide Accounted, Turn, RisesAt, WaveOf, Incoming, Handles, Called, Fed;
    var n, r := net.engine.queue[0].target, Turn(s, net);
    HeadRises(s, dark, net, v, done);
    var added, out := RiseShape(s, dark, net, v, done);
    HandledRises(s, dark, net, r, v, done, n, added, out);
    forall c | c in s.config && Fed(s, c) ensures RisesAt(s, dark, r, v, done + {n}, c)
    {
      if c != n {
        OthersRise(s, dark, net, r, v, done, n, added, out, c);
      }
    }
    forall c | c in s.config && !Fed(s, c) ensures Incoming(r.engine.queue, c) == []
    {
      UnfedHearNothing(s, dark, net, r, v, n, added, out, c);
    }
  }

  lemma LoadRiseTurn(s: Site, dark: Net, net: Net, v: real, done: set<Key>)
    requires Rising(s, dark, net, v, done) && net.engine.queue != [] && net.engine.queue[0].ChildLoad?
    ensures Rising(s, dark, Turn(s, net), v, done)
  {
    hide Accounted, Turn, WaveOf, Incoming, Fed, Called, Relights;
    var r := Turn(s, net);
    var added := LoadTurnShape(s, net);
    LoadWaveGoesOn(s, net, r, added, v);
    forall c | c in s.config ensures Incoming(r.engine.queue, c) == Incoming(net.engine.queue, c)
    {
      LoadKeepsIncoming(s, net, r, added, c);
    }
    forall c | c in s.config && Fed(s, c) ensures RisesAt(s, dark, r, v, done, c)
    {
      assert RisesAt(s, dark, net, v, done, c);
    }
  }

  /** The whole wave; `done` ends up with everything the voltage has got to. */
  lemma {:induction false} SettlesRisen(s: Site, dark: Net, net: Net, v: real, done: set<Key>) returns (all: set<Key>)
    requires Rising(s, dark, net, v, done)
    ensures Rising(s, dark, Settle(s, net), v, all)
    decreases InFlightWeight(s, net)
  {
    assert Running(s, net);
    assert net.engine.queue != [] ==> net.engine.queue[0].InputVoltage? || net.engine.queue[0].ChildLoad?;
    IdleIsEmpty(s, net);
    hide Rising, Running, Turn, InFlightWeight;
    all := done;
    if !Idle(net) {
      TurnDescends(s, net);
      if net.engine.queue[0].InputVoltage? {
        RiseTurn(s, dark, net, v, done);
        all := SettlesRisen(s, dark, Turn(s, net), v, done + {net.engine.queue[0].target});
      } else {
        LoadRiseTurn(s, dark, net, v, done);
        all := SettlesRisen(s, dark, Turn(s, net), v, done);
      }
    }
  }

  lemma {:induction false} DoneIsReached(s: Site, dark: Net, net: Net, v: real, done: set<Key>, c: Key)
    requires Rising(s, dark, net, v, done) && Idle(net) && c in s.config && Fed(s, c)
    ensures c in done <==> Reached(s, dark, v, c)
    decreases s.rank[c]
  {
    hide Accounted, Relights, WaveOf;
    assert RisesAt(s, dark, net, v, done, c);
    if !s.IsRoot(c) {
      assert s.Parent(c) == s.topo.parents[c][0];
      DoneIsReached(s, dark, net, v, done, s.Parent(c));
    }
  }

  lemma {:induction false} RelightsReached(s: Site, dark: Net, v: real, c: Key)
    requires s.Valid() && dark.hw.Keys == s.config.Keys && c in s.config && Relights(s, dark, v, c)
    ensures Reached(s, dark, v, c)
    decreases s.rank[c]
  {
    if !s.IsRoot(c) {
      assert s.Parent(c) == s.topo.parents[c][0];
      RelightsReached(s, dark, v, s.Parent(c));
    }
  }

  // ----- The law -----

  /** Told before the outage: the mains suffice, the user has not left the asset turned off, it is
      set to come back, no OID holds it off, and the same goes for its source. */
  ghost predicate ComesBack(s: Site, net: Net, v: real, c: Key)
    requires s.Valid() && net.hw.Keys == s.config.Keys && c in s.config
    decreases s.rank[c]
  {
    var a := net.hw[c];
    && v > s.config[c].minVoltage && s.config[c].powerOnAc
    && (a.status || a.reason != Some(TurnedOff))
    && (s.IsRoot(c) ||
        (assert s.Parent(c) == s.topo.parents[c][0];
         a.oidsOn && ComesBack(s, net, v, s.Parent(c))))
  }

  /** Nothing fed by the wall is lit while the mains are gone. */
  lemma {:induction false} DarkWithoutMains(s: Site, net: Net, c: Key)
    requires Running(s, net) && Coherent(s, net) && net.mains == 0.0 && c in s.config && Fed(s, c)
    ensures !net.hw[c].status
    decreases s.rank[c]
  {
    hide Accounted;
    if !s.IsRoot(c) {
      assert s.Parent(c) == s.topo.parents[c][0];
      DarkWithoutMains(s, net, s.Parent(c));
    }
  }

  lemma OutageIsDark(s: Site, net: Net, c: Key)
    requires Running(s, net) && Idle(net) && net.mains >= 0.0 && Coherent(s, net) && c in s.config && Fed(s, c)
    ensures !Outage(s, net).hw[c].status
  {
    hide Accounted, Coherent;
    var actions := [Requested(SetMains(0.0))];
    assert ValidActions(s, actions);
    assert actions[..0] == [] && Exec(s, net, []) == net;
    assert Exec(s, net, actions) == Moved(s, net, 0.0);
    NothingLitUnderDeadParent(s, net, actions);
    MovedQueue(s, net, 0.0);
    KeepsMains(s, Moved(s, net, 0.0));
    DarkWithoutMains(s, Outage(s, net), c);
  }

  lemma {:induction false} KeepsMains(s: Site, net: Net)
    requires Running(s, net)
    ensures Settle(s, net).mains == net.mains
    decreases InFlightWeight(s, net)
  {
    hide Running, Turn, InFlightWeight;
    if !Idle(net) {
      TurnDescends(s, net);
      KeepsMains(s, Turn(s, net));
    }
  }

  lemma {:induction false} RelightsComesBack(s: Site, net: Net, dark: Net, v: real, c: Key)
    requires s.Valid() && Fading(s, net, dark) && net.hw.Keys == s.config.Keys && c in s.config && Fed(s, c)
    requires forall k :: k in s.config && Fed(s, k) ==> !dark.hw[k].status
    ensures Relights(s, dark, v, c) <==> ComesBack(s, net, v, c)
    decreases s.rank[c]
  {
    hide Accounted, WaveOf;
    assert Faded(net.hw[c], dark.hw[c]);
    if !s.IsRoot(c) {
      assert s.Parent(c) == s.topo.parents[c][0];
      RelightsComesBack(s, net, dark, v, s.Parent(c));
    }
  }

  lemma RisingAtLaunch(s: Site, dark: Net, v: real)
    requires Running(s, dark) && Idle(dark) && dark.mains == 0.0 < v
    requires forall k :: k in s.config && Fed(s, k) ==> !dark.hw[k].status
    ensures Rising(s, dark, Moved(s, dark, v), v, {})
  {
    hide Accounted, Passes;
    MovedQueue(s, dark, v);
    var net := Moved(s, dark, v);
    forall c | c in s.config
      ensures Fed(s, c) ==> RisesAt(s, dark, net, v, {}, c)
      ensures !Fed(s, c) ==> Incoming(net.engine.queue, c) == []
    {
      assert s.topo.Has(c);
      assert dark.hw[c] == dark.hw[c].(load := dark.hw[c].load);
    }
  }

  /** The network after an outage. */
  ghost function Restored(s: Site, net: Net, v: real): (r: Net)
    requires Running(s, net) && v >= 0.0
    ensures Running(s, r)
  {
    Settle(s, Moved(s, Outage(s, net), v))
  }

  /** Recovery: through an outage of a coherent network everything the wall feeds goes dark, and when
      the mains return at v an asset is lit again exactly when it comes back, told from the state
      before the outage; its input is v, and its reason that AC was restored if it tries to come back, exactly as far as
      the voltage gets. */
  lemma RecoveryIsExact(s: Site, net: Net, v: real, c: Key)
    requires Running(s, net) && Idle(net) && net.mains >= 0.0 && Coherent(s, net) && v > 0.0
    requires c in s.config && Fed(s, c)
    ensures var dark, lit := Outage(s, net), Restored(s, net, v);
            && !dark.hw[c].status
            && (lit.hw[c].status <==> ComesBack(s, net, v, c))
            && lit.hw[c].inVolt == (if Reached(s, dark, v, c) then v else dark.hw[c].inVolt)
            && lit.hw[c].reason == if Reached(s, dark, v, c) then ReasonAfter(s.config[c], dark.hw[c], v) else dark.hw[c].reason
  {
    hide Accounted, Coherent;
    var dark := Outage(s, net);
    assert net.hw.Keys == s.config.Keys;
    OutageFades(s, net);
    forall k | k in s.config && Fed(s, k) ensures !dark.hw[k].status
    {
      OutageIsDark(s, net, k);
    }
    MovedQueue(s, net, 0.0);
    KeepsMains(s, Moved(s, net, 0.0));
    RisingAtLaunch(s, dark, v);
    var done := SettlesRisen(s, dark, Moved(s, dark, v), v, {});
    RestoredAt(s, net, dark, v, done, c);
  }

  lemma RestoredAt(s: Site, net: Net, dark: Net, v: real, done: set<Key>, c: Key)
    requires s.Valid() && net.hw.Keys == s.config.Keys && Fading(s, net, dark) && c in s.config && Fed(s, c)
    requires forall k :: k in s.config && Fed(s, k) ==> !dark.hw[k].status
    requires Running(s, dark) && v > 0.0 && Rising(s, dark, Settle(s, Moved(s, dark, v)), v, done)
    ensures var lit := Settle(s, Moved(s, dark, v));
            && (lit.hw[c].status <==> ComesBack(s, net, v, c))
            && lit.hw[c].inVolt == (if Reached(s, dark, v, c) then v else dark.hw[c].inVolt)
            && lit.hw[c].reason == if Reached(s, dark, v, c) then ReasonAfter(s.config[c], dark.hw[c], v) else dark.hw[c].reason
  {
    hide Accounted, Moved, Settle, Fading;
    var lit := Settle(s, Moved(s, dark, v));
    RelightsComesBack(s, net, dark, v, c);
    DoneIsReached(s, dark, lit, v, done, c);
    if Relights(s, dark, v, c) {
      RelightsReached(s, dark, v, c);
    }
    assert RisesAt(s, dark, lit, v, done, c);
    hide Relights, ComesBack, Reached, WaveOf;
  }
}
