// Load conservation at every step of every run of a power network.

module Conservation {
  import opened Events
  import opened Assets
  import opened Iteration
  import opened Engine
  import opened Accounting
  import opened Network
  import opened AtRest

  // ----- Sums over lists of assets -----

  ghost function Sum(ks: seq<Key>, f: Key -> real): real {
    if ks == [] then 0.0 else f(ks[0]) + Sum(ks[1..], f)
  }

  lemma {:induction false} SumSame(ks: seq<Key>, f: Key -> real, g: Key -> real)
    requires forall k :: k in ks ==> f(k) == g(k)
    ensures Sum(ks, f) == Sum(ks, g)
  {
    if ks == [] {
    } else {
      assert forall k :: k in ks[1..] ==> k in ks;
      var k := ks[0];
      assert k in ks && f(k) == g(k);
      SumSame(ks[1..], f, g);
    }
  }

  /** Changing one entry of a repeat-free list changes the sum by that entry's change. */
  lemma {:induction false} SumOneChanged(ks: seq<Key>, f: Key -> real, g: Key -> real, k: Key)
    requires Distinct(ks) && k in ks
    requires forall x :: x in ks && x != k ==> f(x) == g(x)
    ensures Sum(ks, g) == Sum(ks, f) + g(k) - f(k)
  {
    if ks[0] == k {
      SumSame(ks[1..], f, g);
    } else {
      SumOneChanged(ks[1..], f, g, k);
    }
  }

  lemma {:induction false} SumNonNegative(ks: seq<Key>, f: Key -> real)
    requires forall k :: k in ks ==> f(k) >= 0.0
    ensures Sum(ks, f) >= 0.0
  {
    if ks == [] {
    } else {
      assert forall k :: k in ks[1..] ==> k in ks;
      var k := ks[0];
      assert k in ks && f(k) >= 0.0;
      SumNonNegative(ks[1..], f);
    }
  }

  // ----- The loads parents have been told about -----

  /** What an asset puts on its parent: a device its draw, an outlet or PDU its load. */
  ghost function Value(s: Site, net: Net, c: Key): real {
    if c !in s.config || c !in net.hw then 0.0
    else if s.config[c].kind.Static? then net.hw[c].Draw(s.config[c].watts)
    else net.hw[c].load
  }

  /** The load changes of c that are in flight to its parent, oldest first. */
  ghost function Pending(q: seq<Message>, c: Key): seq<Change> {
    if q == [] then []
    else (if q[0].ChildLoad? && q[0].source == c then [q[0].load] else []) + Pending(q[1..], c)
  }

  ghost function First(p: seq<Change>, value: real): real {
    if p == [] then value else p[0].before
  }

  /** The changes lead without a gap to `value`, through values that are not negative. */
  ghost predicate LeadsTo(p: seq<Change>, value: real) {
    if p == [] then value >= 0.0
    else p[0].before >= 0.0 && p[0].after == First(p[1..], value) && LeadsTo(p[1..], value)
  }

  /** The value of c its parent knows: the one before the oldest change in flight. */
  ghost function Seen(s: Site, net: Net, c: Key): real {
    First(Pending(net.engine.queue, c), Value(s, net, c))
  }

  ghost function SeenOf(s: Site, net: Net): Key -> real {
    c => Seen(s, net, c)
  }

  ghost function ValueOf(s: Site, net: Net): Key -> real {
    c => Value(s, net, c)
  }

  // ----- The invariant -----

  /** Events in flight are of the kinds the network sends. */
  ghost predicate Expected(s: Site, net: Net, m: Message) {
    && m.target in s.config
    && match m
       case ChildLoad(t, c, _, ups, _) => !ups && c in s.config && s.topo.Has(c) && t in s.topo.parents[c]
       case PowerButton(t, on, _) => net.engine.queue == [m] && t in net.hw && net.hw[t].status != on
       case Signal(t, _, _) => s.config[t].kind.Outlet?
       case InputVoltage(_, _, _, _) => true
  }

  ghost predicate AllExpected(s: Site, net: Net) {
    forall i :: 0 <= i < |net.engine.queue| ==> Expected(s, net, net.engine.queue[i])
  }

  ghost predicate Told(s: Site, net: Net, c: Key) {
    LeadsTo(Pending(net.engine.queue, c), Value(s, net, c))
  }

  /** The load of an outlet or PDU is what its children have told it so far. */
  ghost predicate Summed(s: Site, net: Net, p: Key)
    requires p in net.hw && s.topo.Has(p)
  {
    net.hw[p].load == Sum(s.topo.children[p], SeenOf(s, net))
  }

  ghost predicate Conserving(s: Site, net: Net) {
    && Running(s, net)
    && AllExpected(s, net)
    && (forall c :: c in s.config ==> net.hw[c].inVolt >= 0.0 && Told(s, net, c))
    && (forall p :: p in s.config && !s.config[p].kind.Static? ==> Summed(s, net, p))
  }

  // ----- Facts about lists of changes -----

  lemma {:induction false} PendingAppend(p: seq<Message>, q: seq<Message>, c: Key)
    ensures Pending(p + q, c) == Pending(p, c) + Pending(q, c)
  {
    if p == [] {
      assert p + q == q;
    } else {
      assert (p + q)[1..] == p[1..] + q;
      PendingAppend(p[1..], q, c);
    }
  }

  lemma {:induction false} PendingNone(q: seq<Message>, c: Key)
    requires forall i :: 0 <= i < |q| && q[i].ChildLoad? ==> q[i].source != c
    ensures Pending(q, c) == []
  {
    if q != [] {
      PendingNone(q[1..], c);
    }
  }

  lemma {:induction false} LeadsFurther(p: seq<Change>, value: real, next: real)
    requires LeadsTo(p, value) && next >= 0.0
    ensures LeadsTo(p + [Change(value, next)], next)
    ensures First(p + [Change(value, next)], next) == First(p, value)
  {
    if p == [] {
    } else {
      assert (p + [Change(value, next)])[1..] == p[1..] + [Change(value, next)];
      LeadsFurther(p[1..], value, next);
    }
  }

  lemma {:induction false} FirstNonNegative(p: seq<Change>, value: real)
    requires LeadsTo(p, value)
    ensures First(p, value) >= 0.0 && value >= 0.0
  {
    if p != [] {
      FirstNonNegative(p[1..], value);
    }
  }

  // ----- One turn -----

  /** A device's report carries exactly the change of its draw. */
  lemma DeviceReports(c: Config, a: AssetState, m: Message, supply: Supply)
    requires c.Valid() && c.kind.Static? && a.inVolt >= 0.0
    requires m.InputVoltage? || (m.PowerButton? && a.status != m.on)
    ensures var r := AfterPowerSide(c, a, m, supply);
            && r.state.inVolt >= 0.0 && r.state.Draw(c.watts) >= 0.0
            && (if r.event.LoadChanged() then r.event.load.value == Change(a.Draw(c.watts), r.state.Draw(c.watts))
                else r.state.Draw(c.watts) == a.Draw(c.watts))
  {
  }

  /** An outlet or PDU changes no load when its voltage or state changes. */
  lemma InnerReports(c: Config, a: AssetState, m: Message, supply: Supply)
    requires c.Valid() && !c.kind.Static? && a.inVolt >= 0.0 && m.VoltageSide()
    ensures var r := AfterPowerSide(c, a, m, supply);
            r.state.inVolt >= 0.0 && r.state.load == a.load && !r.event.LoadChanged()
  {
  }

  ghost predicate LeadsOnce(p: seq<Change>, before: real, after: real) {
    p == [Change(before, after)] || (p == [] && before == after)
  }

  predicate AddedMessage(s: Site, n: Key, m: Message)
    requires s.topo.Has(n)
  {
    && m.target in s.config && (m.ChildLoad? || m.InputVoltage?)
    && (m.ChildLoad? ==> m.source == n && !m.upsOnBattery && m.target in s.topo.parents[n])
  }

  /** The events the turn of an asset n adds to the queue: voltage events for its children and,
      when the value n puts on its parent changed, one load event from old to new value. */
  ghost predicate AddedBy(s: Site, n: Key, added: seq<Message>, before: real, after: real)
    requires n in s.config && s.topo.Has(n)
  {
    && (forall i :: 0 <= i < |added| ==> AddedMessage(s, n, added[i]))
    && (if s.IsRoot(n) then Pending(added, n) == [] else LeadsOnce(Pending(added, n), before, after))
  }

  lemma ReportShape(s: Site, e: AssetPowerEvent, first: nat, second: nat)
    requires s.Valid() && e.asset in s.config && e.streamed == []
    ensures var added := DownstreamMessages(s.topo, e, second) + UpstreamMessages(s.topo, e, first);
            forall i :: 0 <= i < |added| ==> AddedMessage(s, e.asset, added[i])
  {
  }

  /** What a report adds, when its load change is from `before` to `after`. */
  lemma ReportAdds(s: Site, e: AssetPowerEvent, first: nat, second: nat, before: real, after: real)
    requires s.Valid() && e.asset in s.config && e.streamed == []
    requires if e.LoadChanged() then e.load.value == Change(before, after) else before == after
    ensures AddedBy(s, e.asset, DownstreamMessages(s.topo, e, second) + UpstreamMessages(s.topo, e, first), before, after)
  {
    var volts, loads := DownstreamMessages(s.topo, e, second), UpstreamMessages(s.topo, e, first);
    ReportShape(s, e, first, second);
    PendingAppend(volts, loads, e.asset);
    PendingNone(volts, e.asset);
    hide AddedMessage;
    if !s.IsRoot(e.asset) && e.LoadChanged() {
      assert loads[1..] == [];
      assert Pending(loads[1..], e.asset) == [];
    }
  }

  /** The queue and the store after a turn. */
  ghost predicate Turned(s: Site, net: Net, r: Net, n: Key, added: seq<Message>)
    requires n in s.config && s.topo.Has(n)
  {
    && net.engine.queue != [] && n == net.engine.queue[0].target
    && r.engine.queue == net.engine.queue[1..] + added
    && r.hw.Keys == net.hw.Keys && (forall k :: k in net.hw && k != n ==> r.hw[k] == net.hw[k])
    && AddedBy(s, n, added, Value(s, net, n), Value(s, r, n))
  }

  /** The report of the asset that takes a voltage-side turn. */
  ghost function Report(s: Site, net: Net): PowerReaction
    requires Running(s, net) && net.engine.queue != [] && net.engine.queue[0].VoltageSide()
    requires net.engine.queue[0].target in s.config && s.topo.Has(net.engine.queue[0].target)
  {
    var m := net.engine.queue[0];
    AfterPowerSide(s.config[m.target], net.hw[m.target], m, SupplyOf(s, net, m.target))
  }

  lemma VoltTurnQueue(s: Site, net: Net) returns (first: nat, second: nat)
    requires Running(s, net) && net.engine.queue != [] && net.engine.queue[0].VoltageSide()
    ensures HeadTracked(s.topo, net.engine) && net.engine.queue[0].target in s.config
    ensures var e := Report(s, net).event;
            && Turn(s, net).engine.queue == net.engine.queue[1..] + (DownstreamMessages(s.topo, e, second) + UpstreamMessages(s.topo, e, first))
            && Turn(s, net).hw == net.hw[net.engine.queue[0].target := Report(s, net).state]
  {
    HeadIsTracked(s.topo, net.engine, multiset{});
    var e := Report(s, net).event;
    var it := net.engine.current.value;
    var up := AfterLoadSide(it, s.topo, e);
    first, second := it.nextBranch, up.iter.nextBranch;
    var volts, loads := DownstreamMessages(s.topo, e, second), UpstreamMessages(s.topo, e, first);
    assert net.engine.queue[1..] + volts + loads == net.engine.queue[1..] + (volts + loads);
  }

  lemma ReportCarriesValue(s: Site, net: Net, a: AssetState)
    requires Conserving(s, net) && net.engine.queue != [] && net.engine.queue[0].VoltageSide()
    requires s.topo.Has(net.engine.queue[0].target) && net.engine.queue[0].target in s.config
    requires a == Report(s, net).state
    ensures var n, e := net.engine.queue[0].target, Report(s, net).event;
            var before, after := Value(s, net, n), Value(s, net.(hw := net.hw[n := a]), n);
            && e.asset == n && e.streamed == [] && a.inVolt >= 0.0 && after >= 0.0
            && (if e.LoadChanged() then e.load.value == Change(before, after) else before == after)
            && (!s.config[n].kind.Static? ==> a.load == net.hw[n].load)
  {
    var m := net.engine.queue[0];
    var c, st, supply := s.config[m.target], net.hw[m.target], SupplyOf(s, net, m.target);
    assert Expected(s, net, m);
    assert Told(s, net, m.target);
    FirstNonNegative(Pending(net.engine.queue, m.target), Value(s, net, m.target));
    if c.kind.Static? {
      DeviceReports(c, st, m, supply);
    } else {
      InnerReports(c, st, m, supply);
    }
  }

  lemma VoltTurn(s: Site, net: Net) returns (added: seq<Message>)
    requires Conserving(s, net) && net.engine.queue != [] && net.engine.queue[0].VoltageSide()
    ensures var n, r := net.engine.queue[0].target, Turn(s, net);
            && s.topo.Has(n) && n in s.config && Turned(s, net, r, n, added)
            && r.hw[n].inVolt >= 0.0 && Value(s, r, n) >= 0.0
            && (!s.config[n].kind.Static? ==> r.hw[n].load == net.hw[n].load)
  {
    hide Accounted;
    var first, second := VoltTurnQueue(s, net);
    var n, e := net.engine.queue[0].target, Report(s, net).event;
    ReportCarriesValue(s, net, Report(s, net).state);
    ReportAdds(s, e, first, second, Value(s, net, n), Value(s, Turn(s, net), n));
    added := DownstreamMessages(s.topo, e, second) + UpstreamMessages(s.topo, e, first);
  }

  // ----- What the parents know after a turn -----

  /** The turn of n says nothing about any other asset. */
  lemma SeenElsewhere(s: Site, net: Net, r: Net, n: Key, added: seq<Message>, c: Key)
    requires Told(s, net, c) && n in s.config && s.topo.Has(n) && Turned(s, net, r, n, added)
    requires c in s.config && c != n && !(net.engine.queue[0].ChildLoad? && net.engine.queue[0].source == c)
    ensures Told(s, r, c) && Seen(s, r, c) == Seen(s, net, c)
  {
    var rest := net.engine.queue[1..];
    PendingAppend(rest, added, c);
    assert Pending(net.engine.queue, c) == Pending(rest, c);
    PendingNone(added, c);
    assert Pending(rest, c) + [] == Pending(rest, c);
  }

  lemma SeenKept(s: Site, net: Net, r: Net, n: Key, added: seq<Message>, c: Key)
    requires Conserving(s, net) && n in s.config && s.topo.Has(n) && Turned(s, net, r, n, added)
    requires c in s.config && s.topo.Has(c) && Value(s, r, n) >= 0.0
    requires !(net.engine.queue[0].ChildLoad? && net.engine.queue[0].source == c)
    ensures Told(s, r, c)
    ensures c != n || !s.IsRoot(n) ==> Seen(s, r, c) == Seen(s, net, c)
  {
    assert Told(s, net, c);
    if c != n {
      SeenElsewhere(s, net, r, n, added, c);
    } else {
      SeenOfTheTurned(s, net, r, n, added);
    }
  }

  /** Its own changes in flight lead on to its new value. */
  lemma SeenOfTheTurned(s: Site, net: Net, r: Net, n: Key, added: seq<Message>)
    requires Conserving(s, net) && n in s.config && s.topo.Has(n) && Turned(s, net, r, n, added)
    requires Value(s, r, n) >= 0.0 && !(net.engine.queue[0].ChildLoad? && net.engine.queue[0].source == n)
    ensures Told(s, r, n) && (!s.IsRoot(n) ==> Seen(s, r, n) == Seen(s, net, n))
  {
    hide Accounted, Summed;
    var rest := net.engine.queue[1..];
    assert Told(s, net, n);
    PendingAppend(rest, added, n);
    assert Pending(net.engine.queue, n) == Pending(rest, n);
    if Pending(added, n) == [] {
      assert Pending(rest, n) + [] == Pending(rest, n);
      if s.IsRoot(n) {
        NothingPendingAtRoot(s, net, n);
      }
    } else {
      LeadsFurther(Pending(rest, n), Value(s, net, n), Value(s, r, n));
    }
  }

  lemma {:induction false} NoneFromRoot(s: Site, q: seq<Message>, n: Key)
    requires s.topo.Has(n) && s.IsRoot(n)
    requires forall i :: 0 <= i < |q| && q[i].ChildLoad? ==> s.topo.Has(q[i].source) && s.topo.parents[q[i].source] != []
    ensures Pending(q, n) == []
  {
    PendingNone(q, n);
  }

  lemma NothingPendingAtRoot(s: Site, net: Net, n: Key)
    requires Conserving(s, net) && s.topo.Has(n) && s.IsRoot(n)
    ensures Pending(net.engine.queue, n) == []
  {
    forall i | 0 <= i < |net.engine.queue| && net.engine.queue[i].ChildLoad?
      ensures s.topo.Has(net.engine.queue[i].source) && s.topo.parents[net.engine.queue[i].source] != []
    {
      assert Expected(s, net, net.engine.queue[i]);
    }
    NoneFromRoot(s, net.engine.queue, n);
  }

  /** A child's load event has been told: the parent now knows the value after it. */
  lemma SeenMoves(s: Site, net: Net, r: Net, n: Key, added: seq<Message>)
    requires Conserving(s, net) && n in s.config && s.topo.Has(n) && Turned(s, net, r, n, added)
    requires net.engine.queue[0].ChildLoad?
    ensures var c, load := net.engine.queue[0].source, net.engine.queue[0].load;
            && c in s.config && s.topo.Has(c) && c != n && c in s.topo.children[n] && !s.IsRoot(c)
            && Told(s, r, c) && Seen(s, net, c) == load.before && Seen(s, r, c) == load.after && load.after >= 0.0
  {
    var m, rest := net.engine.queue[0], net.engine.queue[1..];
    var c := m.source;
    assert Expected(s, net, m);
    assert Told(s, net, c);
    assert Pending(net.engine.queue, c) == [m.load] + Pending(rest, c);
    assert (([m.load] + Pending(rest, c)))[1..] == Pending(rest, c);
    FirstNonNegative(Pending(rest, c), Value(s, net, c));
    PendingAppend(rest, added, c);
    PendingNone(added, c);
    assert Pending(rest, c) + [] == Pending(rest, c);
  }

  /** The clamp at zero does not bind: the parent's load moves by exactly the change it is told. */
  lemma NoClamp(s: Site, net: Net, r: Net, n: Key, added: seq<Message>)
    requires Conserving(s, net) && n in s.config && s.topo.Has(n) && Turned(s, net, r, n, added)
    requires net.engine.queue[0].ChildLoad? && Value(s, r, n) >= 0.0
    ensures !s.config[n].kind.Static?
    ensures net.hw[n].load + net.engine.queue[0].load.Difference() == Sum(s.topo.children[n], SeenOf(s, r)) >= 0.0
  {
    hide Accounted;
    var c := net.engine.queue[0].source;
    SeenMoves(s, net, r, n, added);
    var kids := s.topo.children[n];
    forall k | k in kids ensures k == c || Seen(s, r, k) == Seen(s, net, k)
    {
      if k != c {
        SeenKept(s, net, r, n, added, k);
      }
    }
    SumOneChanged(kids, SeenOf(s, net), SeenOf(s, r), c);
    assert Summed(s, net, n);
    forall k | k in kids ensures SeenOf(s, r)(k) >= 0.0
    {
      if k != c {
        assert Told(s, net, k);
        FirstNonNegative(Pending(net.engine.queue, k), Value(s, net, k));
      }
    }
    SumNonNegative(kids, SeenOf(s, r));
  }

  lemma LoadTurnQueue(s: Site, net: Net)
    requires Running(s, net) && net.engine.queue != [] && net.engine.queue[0].ChildLoad?
    ensures HeadTracked(s.topo, net.engine)
    ensures var m := net.engine.queue[0];
            && m.target in s.config
            && var r := AfterChildLoad(s.config[m.target], net.hw[m.target], m);
            && Turn(s, net).engine.queue == net.engine.queue[1..] + AfterAssetLoad(net.engine.current.value, s.topo, r.event).loads
            && Turn(s, net).hw == net.hw[m.target := r.state]
  {
    HeadIsTracked(s.topo, net.engine, multiset{});
  }

  /** What a load report adds: the same change of load, told to the only parent. */
  lemma LoadReportAdds(s: Site, it: IterationState, e: AssetLoadEvent)
    requires s.Valid() && e.asset in s.config && s.topo.Has(e.asset) && e.branch in it.load.active && !e.upsOnBattery
    ensures AddedBy(s, e.asset, AfterAssetLoad(it, s.topo, e).loads, e.load.before, e.load.after)
  {
  }

  lemma LoadTurn(s: Site, net: Net) returns (added: seq<Message>)
    requires Conserving(s, net) && net.engine.queue != [] && net.engine.queue[0].ChildLoad?
    ensures var n, r := net.engine.queue[0].target, Turn(s, net);
            && s.topo.Has(n) && n in s.config && Turned(s, net, r, n, added) && !s.config[n].kind.Static?
            && r.hw[n].inVolt >= 0.0 && Value(s, r, n) == r.hw[n].load >= 0.0
            && r.hw[n].load == Clamp(net.hw[n].load + net.engine.queue[0].load.Difference())
  {
    hide Accounted, LeadsTo, Sum;
    var m := net.engine.queue[0];
    var n := m.target;
    LoadTurnQueue(s, net);
    assert Expected(s, net, m);
    assert n in s.topo.parents[m.source] && m.source in s.topo.children[n];
    var e := AfterChildLoad(s.config[n], net.hw[n], m).event;
    LoadReportAdds(s, net.engine.current.value, e);
    added := AfterAssetLoad(net.engine.current.value, s.topo, e).loads;
  }

  lemma TurnKeepsExpected(s: Site, net: Net, r: Net, n: Key, added: seq<Message>)
    requires AllExpected(s, net) && n in s.config && s.topo.Has(n) && Turned(s, net, r, n, added)
    ensures AllExpected(s, r)
  {
  }

  /** After any turn every child's value is reached by what its parent knows and what is in flight. */
  lemma TurnKeepsTold(s: Site, net: Net, r: Net, n: Key, added: seq<Message>, c: Key)
    requires Conserving(s, net) && n in s.config && s.topo.Has(n) && Turned(s, net, r, n, added)
    requires Value(s, r, n) >= 0.0 && c in s.config && s.topo.Has(c)
    ensures Told(s, r, c)
  {
    if net.engine.queue[0].ChildLoad? && net.engine.queue[0].source == c {
      SeenMoves(s, net, r, n, added);
    } else {
      SeenKept(s, net, r, n, added, c);
    }
  }

  /** ... and every outlet or PDU still sums what it knows. */
  lemma TurnKeepsSums(s: Site, net: Net, r: Net, n: Key, added: seq<Message>, p: Key)
    requires Conserving(s, net) && n in s.config && s.topo.Has(n) && Turned(s, net, r, n, added)
    requires Value(s, r, n) >= 0.0 && p in s.config && s.topo.Has(p) && !s.config[p].kind.Static?
    requires r.hw[n].load == if net.engine.queue[0].ChildLoad? then Clamp(net.hw[n].load + net.engine.queue[0].load.Difference())
                             else if s.config[n].kind.Static? then r.hw[n].load else net.hw[n].load
    ensures Summed(s, r, p)
  {
    if net.engine.queue[0].ChildLoad? && p == n {
      NoClamp(s, net, r, n, added);
    } else {
      forall k | k in s.topo.children[p] ensures SeenOf(s, net)(k) == SeenOf(s, r)(k)
      {
        OtherChildSeen(s, net, r, n, added, p, k);
      }
      SumSame(s.topo.children[p], SeenOf(s, net), SeenOf(s, r));
      assert Summed(s, net, p);
    }
  }

  lemma ChildOf(s: Site, p: Key, k: Key)
    requires s.Valid() && p in s.config && s.topo.Has(p) && k in s.topo.children[p]
    ensures k in s.config && s.topo.Has(k) && s.topo.parents[k] == [p]
  {
  }

  lemma OtherChildSeen(s: Site, net: Net, r: Net, n: Key, added: seq<Message>, p: Key, k: Key)
    requires Conserving(s, net) && n in s.config && s.topo.Has(n) && Turned(s, net, r, n, added)
    requires Value(s, r, n) >= 0.0 && p in s.config && s.topo.Has(p) && k in s.topo.children[p]
    requires net.engine.queue[0].ChildLoad? ==> p != n
    ensures Seen(s, r, k) == Seen(s, net, k)
  {
    hide Accounted, Summed, Told, Pending, LeadsTo;
    var m := net.engine.queue[0];
    ChildOf(s, p, k);
    assert Expected(s, net, m);
    SeenKept(s, net, r, n, added, k);
  }

  lemma TurnedConserves(s: Site, net: Net, r: Net, n: Key, added: seq<Message>)
    requires Conserving(s, net) && n in s.config && s.topo.Has(n) && Turned(s, net, r, n, added)
    requires Running(s, r) && r.hw[n].inVolt >= 0.0 && Value(s, r, n) >= 0.0
    requires r.hw[n].load == if net.engine.queue[0].ChildLoad? then Clamp(net.hw[n].load + net.engine.queue[0].load.Difference())
                             else if s.config[n].kind.Static? then r.hw[n].load else net.hw[n].load
    ensures Conserving(s, r)
  {
    TurnKeepsExpected(s, net, r, n, added);
    forall c | c in s.config ensures r.hw[c].inVolt >= 0.0 && Told(s, r, c)
    {
      TurnKeepsTold(s, net, r, n, added, c);
    }
    forall p | p in s.config && !s.config[p].kind.Static? ensures Summed(s, r, p)
    {
      TurnKeepsSums(s, net, r, n, added, p);
    }
  }

  lemma TurnConserves(s: Site, net: Net)
    requires Conserving(s, net)
    ensures Conserving(s, Turn(s, net))
  {
    if net.engine.queue != [] {
      var added;
      if net.engine.queue[0].VoltageSide() {
        added := VoltTurn(s, net);
      } else {
        added := LoadTurn(s, net);
      }
      TurnedConserves(s, net, Turn(s, net), net.engine.queue[0].target, added);
    }
  }

  /** A launch puts voltage-side events only into the queue. */
  ghost predicate LaunchQueue(s: Site, net: Net, q: seq<Message>) {
    || (forall i :: 0 <= i < |q| ==> q[i].InputVoltage? && q[i].target in s.config)
    || (|q| == 1 && q[0].PowerButton? && q[0].target in s.config && q[0].target in net.hw && net.hw[q[0].target].status != q[0].on)
    || (|q| == 1 && q[0].Signal? && q[0].target in s.config && s.config[q[0].target].kind.Outlet?)
  }

  lemma LaunchTold(s: Site, net: Net, r: Net, c: Key)
    requires Told(s, net, c) && net.engine.queue == [] && SameButDeviceLoads(s, net, r) && LaunchQueue(s, net, r.engine.queue)
    ensures Told(s, r, c) && Seen(s, r, c) == Seen(s, net, c)
  {
    PendingNone(r.engine.queue, c);
  }

  lemma LaunchConserves(s: Site, net: Net, r: Net)
    requires Conserving(s, net) && net.engine.queue == [] && Running(s, r) && SameButDeviceLoads(s, net, r)
    requires LaunchQueue(s, net, r.engine.queue)
    ensures Conserving(s, r)
  {
    hide Accounted, Told, Seen;
    assert forall i :: 0 <= i < |r.engine.queue| ==> Expected(s, r, r.engine.queue[i]);
    forall c | c in s.config ensures Told(s, r, c) && Seen(s, r, c) == Seen(s, net, c)
    {
      assert Told(s, net, c);
      LaunchTold(s, net, r, c);
    }
    forall p | p in s.config && !s.config[p].kind.Static? ensures Summed(s, r, p)
    {
      assert Summed(s, net, p);
      SumSame(s.topo.children[p], SeenOf(s, net), SeenOf(s, r));
    }
  }

  lemma LaunchQueueOf(s: Site, net: Net, src: Source)
    requires s.Valid() && net.hw.Keys == s.config.Keys
    requires match src
             case Wallpower(_) => true
             case Button(k, on) => k in s.config && net.hw[k].status != on
             case Snmp(k, _) => k in s.config && s.config[k].kind.Outlet?
    ensures LaunchQueue(s, net, Launched(s.topo, src).queue)
  {
  }

  lemma AskLaunches(s: Site, net: Net, q: Request)
    requires Running(s, net) && Idle(net) && ValidRequest(s, q)
    ensures SameButDeviceLoads(s, net, Ask(s, net, q)) && LaunchQueue(s, net, Ask(s, net, q).engine.queue)
  {
    AskKeepsStates(s, net, q);
    match q
    case SetMains(v) =>
      LaunchQueueOf(s, net, Wallpower(Change(net.mains, v)));
    case Press(k, on) =>
      if PressAllowed(s, net, k, on) {
        LaunchQueueOf(s, net, Button(k, on));
      }
    case Switch(k, on) =>
      LaunchQueueOf(s, net, Snmp(k, on));
  }

  lemma AskConserves(s: Site, net: Net, q: Request)
    requires Conserving(s, net) && ValidRequest(s, q)
    ensures Conserving(s, Ask(s, net, q))
  {
    if Idle(net) {
      AskLaunches(s, net, q);
      LaunchConserves(s, net, Ask(s, net, q));
    }
  }

  lemma {:induction false} ExecConserves(s: Site, net: Net, actions: seq<Action>)
    requires Conserving(s, net) && ValidActions(s, actions)
    ensures Conserving(s, Exec(s, net, actions))
  {
    if actions != [] {
      var before := actions[..|actions| - 1];
      ExecConserves(s, net, before);
      match actions[|actions| - 1]
      case Requested(q) => AskConserves(s, Exec(s, net, before), q);
      case TurnTaken => TurnConserves(s, Exec(s, net, before));
    }
  }

  lemma StartUpConserves(s: Site)
    requires s.Valid()
    ensures Conserving(s, StartUp(s))
  {
    var net := StartUp(s);
    forall p | p in s.config && !s.config[p].kind.Static? ensures Summed(s, net, p)
    {
      var zero: Key -> real := _ => 0.0;
      SumSame(s.topo.children[p], SeenOf(s, net), zero);
      SumZero(s.topo.children[p], zero);
    }
  }

  lemma {:induction false} SumZero(ks: seq<Key>, f: Key -> real)
    requires forall k :: f(k) == 0.0
    ensures Sum(ks, f) == 0.0
  {
    if ks != [] {
      SumZero(ks[1..], f);
    }
  }

  // ----- The law -----

  /** The load changes in flight to p, whoever sent them. */
  ghost function InFlightTo(q: seq<Message>, p: Key): real {
    if q == [] then 0.0
    else (if q[0].ChildLoad? && q[0].target == p then q[0].load.Difference() else 0.0) + InFlightTo(q[1..], p)
  }

  ghost function Total(p: seq<Change>): real {
    if p == [] then 0.0 else p[0].Difference() + Total(p[1..])
  }

  ghost function PendingTotals(q: seq<Message>): Key -> real {
    c => Total(Pending(q, c))
  }

  lemma {:induction false} Telescopes(p: seq<Change>, value: real)
    requires LeadsTo(p, value)
    ensures First(p, value) + Total(p) == value
  {
    if p != [] {
      Telescopes(p[1..], value);
    }
  }

  /** What is in flight to p is what is in flight from its children. */
  lemma {:induction false} InFlightByChild(s: Site, q: seq<Message>, p: Key)
    requires s.Valid() && p in s.config
    requires forall i :: 0 <= i < |q| && q[i].ChildLoad? ==>
               s.topo.Has(q[i].source) && q[i].source in s.config && q[i].target in s.topo.parents[q[i].source]
    ensures InFlightTo(q, p) == Sum(s.topo.children[p], PendingTotals(q))
  {
    var kids := s.topo.children[p];
    if q == [] {
      SumZero(kids, PendingTotals(q));
    } else {
      InFlightByChild(s, q[1..], p);
      var m := q[0];
      if m.ChildLoad? && m.target == p {
        assert p in s.topo.parents[m.source] && m.source in kids;
        assert Pending(q, m.source) == [m.load] + Pending(q[1..], m.source);
        assert ([m.load] + Pending(q[1..], m.source))[1..] == Pending(q[1..], m.source);
        forall k | k in kids && k != m.source ensures PendingTotals(q[1..])(k) == PendingTotals(q)(k)
        {
          assert Pending(q, k) == [] + Pending(q[1..], k) == Pending(q[1..], k);
        }
        SumOneChanged(kids, PendingTotals(q[1..]), PendingTotals(q), m.source);
      } else {
        assert m.ChildLoad? ==> s.topo.parents[m.source] == [m.target] && m.source !in kids;
        forall k | k in kids ensures PendingTotals(q[1..])(k) == PendingTotals(q)(k)
        {
          assert Pending(q, k) == [] + Pending(q[1..], k) == Pending(q[1..], k);
        }
        SumSame(kids, PendingTotals(q[1..]), PendingTotals(q));
      }
    }
  }

  lemma {:induction false} SumAdds(ks: seq<Key>, f: Key -> real, g: Key -> real, h: Key -> real)
    requires forall k :: k in ks ==> f(k) + g(k) == h(k)
    ensures Sum(ks, f) + Sum(ks, g) == Sum(ks, h)
  {
    if ks == [] {
    } else {
      var k := ks[0];
      assert k in ks && f(k) + g(k) == h(k);
      assert forall k :: k in ks[1..] ==> k in ks;
      SumAdds(ks[1..], f, g, h);
    }
  }

  /** Load conservation, at every step of every run: the load stored for an outlet or PDU, plus
      the load changes still in flight to it, is what its children put on it. */
  lemma LoadIsConserved(s: Site, actions: seq<Action>, p: Key)
    requires s.Valid() && ValidActions(s, actions) && p in s.config && !s.config[p].kind.Static?
    ensures var net := Exec(s, StartUp(s), actions);
            net.hw[p].load + InFlightTo(net.engine.queue, p) == Sum(s.topo.children[p], ValueOf(s, net))
  {
    hide Accounted;
    StartUpConserves(s);
    ExecConserves(s, StartUp(s), actions);
    var net := Exec(s, StartUp(s), actions);
    forall i | 0 <= i < |net.engine.queue| && net.engine.queue[i].ChildLoad?
      ensures var m := net.engine.queue[i]; s.topo.Has(m.source) && m.source in s.config && m.target in s.topo.parents[m.source]
    {
      assert Expected(s, net, net.engine.queue[i]);
    }
    InFlightByChild(s, net.engine.queue, p);
    var kids := s.topo.children[p];
    forall k | k in kids ensures SeenOf(s, net)(k) + PendingTotals(net.engine.queue)(k) == ValueOf(s, net)(k)
    {
      assert Told(s, net, k);
      Telescopes(Pending(net.engine.queue, k), Value(s, net, k));
    }
    SumAdds(kids, SeenOf(s, net), PendingTotals(net.engine.queue), ValueOf(s, net));
    assert Summed(s, net, p);
  }

  /** What the devices at or below n draw together. */
  ghost function TotalDraw(s: Site, net: Net, n: Key): real
    requires s.Valid() && n in s.config
    decreases s.top - s.rank[n], 1, 0
  {
    if s.config[n].kind.Static? then Value(s, net, n)
    else TotalDraws(s, net, n, s.topo.children[n])
  }

  ghost function TotalDraws(s: Site, net: Net, p: Key, ks: seq<Key>): real
    requires s.Valid() && p in s.config && forall i :: 0 <= i < |ks| ==> ks[i] in s.config && s.rank[p] < s.rank[ks[i]]
    decreases s.top - s.rank[p], 0, |ks|
  {
    if ks == [] then 0.0 else TotalDraw(s, net, ks[0]) + TotalDraws(s, net, p, ks[1..])
  }

  lemma {:induction false} QuiescentLoad(s: Site, net: Net, n: Key)
    requires Conserving(s, net) && net.engine.queue == [] && n in s.config
    ensures Value(s, net, n) == TotalDraw(s, net, n)
    decreases s.top - s.rank[n], 1, 0
  {
    if !s.config[n].kind.Static? {
      assert Summed(s, net, n);
      QuiescentLoads(s, net, n, s.topo.children[n]);
    }
  }

  lemma {:induction false} QuiescentLoads(s: Site, net: Net, p: Key, ks: seq<Key>)
    requires Conserving(s, net) && net.engine.queue == [] && p in s.config
    requires forall i :: 0 <= i < |ks| ==> ks[i] in s.config && s.rank[p] < s.rank[ks[i]]
    ensures Sum(ks, SeenOf(s, net)) == TotalDraws(s, net, p, ks)
    decreases s.top - s.rank[p], 0, |ks|
  {
    if ks != [] {
      QuiescentLoad(s, net, ks[0]);
      QuiescentLoads(s, net, p, ks[1..]);
    }
  }

  /** After every run, once the events in flight are handled, the load of an outlet or PDU is what
      the lit devices below it draw. */
  lemma SettledLoadIsDraw(s: Site, actions: seq<Action>, p: Key)
    requires s.Valid() && ValidActions(s, actions) && p in s.config && !s.config[p].kind.Static?
    ensures var net := Settle(s, Exec(s, StartUp(s), actions)); net.hw[p].load == TotalDraw(s, net, p)
  {
    var longer := SettledRun(s, StartUp(s), actions);
    StartUpConserves(s);
    ExecConserves(s, StartUp(s), longer);
    QuiescentLoad(s, Exec(s, StartUp(s), longer), p);
  }

  /** The clamps at zero never bind: each load event moves its target's stored load by exactly
      the change it carries. */
  lemma ClampNeverBinds(s: Site, actions: seq<Action>)
    requires s.Valid() && ValidActions(s, actions)
    ensures var net := Exec(s, StartUp(s), actions);
            net.engine.queue != [] && net.engine.queue[0].ChildLoad? ==>
              var m := net.engine.queue[0];
              && m.target in net.hw
              && net.hw[m.target].load + m.load.Difference() >= 0.0
              && Turn(s, net).hw[m.target].load == net.hw[m.target].load + m.load.Difference()
  {
    StartUpConserves(s);
    ExecConserves(s, StartUp(s), actions);
    var net := Exec(s, StartUp(s), actions);
    if net.engine.queue != [] && net.engine.queue[0].ChildLoad? {
      var added := LoadTurn(s, net);
      NoClamp(s, net, Turn(s, net), net.engine.queue[0].target, added);
    }
  }
}
