// The load stored for a static device is what it draws, until it comes back from a brownout.

module StoredLoads {
  import opened Events
  import opened Assets
  import opened Iteration
  import opened Engine
  import opened Accounting
  import opened Network
  import opened Conservation

  /** What should be stored for device n: its draw, or what a press under way will make it draw. */
  function Due(s: Site, net: Net, n: Key): real
    requires n in s.config && n in net.hw
  {
    var a := net.hw[n];
    var on := if net.engine.queue != [] && net.engine.queue[0].PowerButton? && net.engine.queue[0].target == n
              then net.engine.queue[0].on else a.status;
    a.(status := on).Draw(s.config[n].watts)
  }

  predicate StoresDraw(s: Site, net: Net, n: Key)
    requires n in s.config && n in net.hw
  {
    s.config[n].kind.Static? ==> net.hw[n].load == Due(s, net, n)
  }

  /** Every device stores what it draws. */
  ghost predicate Booked(s: Site, net: Net) {
    && net.hw.Keys == s.config.Keys
    && forall n :: n in s.config ==> net.hw[n].inVolt >= 0.0 && StoresDraw(s, net, n)
  }

  /** The next event powers a device up that still has some input voltage stored: power_up books
      its usage at the old voltage before the change to the new one is added. */
  predicate ReturnsFromBrownout(s: Site, net: Net) {
    && net.engine.queue != []
    && var m := net.engine.queue[0];
    && m.InputVoltage? && m.target in s.config && m.target in net.hw && s.topo.Has(m.target)
    && var c, a := s.config[m.target], net.hw[m.target];
    && c.kind.Static? && c.watts != 0.0 && a.inVolt != 0.0
    && PowersBack(c, a, m.volt.after) && SupplyOf(s, net, m.target).Available(a.oidsOn)
  }

  // ----- One device -----

  lemma Quotient(watts: real, volt: real)
    requires watts >= 0.0 && volt >= 0.0
    ensures CalculateLoad(watts, volt) >= 0.0
    ensures CalculateLoad(watts, volt) == 0.0 <==> watts == 0.0 || volt == 0.0
  {
  }

  /** Handling an input voltage keeps the books exactly unless the device comes back from a brownout. */
  lemma VoltageKeepsBooks(c: Config, a: AssetState, m: Message, supply: Supply)
    requires c.Valid() && c.kind.Static? && m.InputVoltage? && a.inVolt >= 0.0 && a.load == a.Draw(c.watts)
    ensures var r := AfterInputVoltage(c, a, m, supply).state;
            && r.inVolt >= 0.0
            && (r.load == r.Draw(c.watts)
                <==> !(PowersBack(c, a, m.volt.after) && supply.Available(a.oidsOn) && c.watts != 0.0 && a.inVolt != 0.0))
  {
    Quotient(c.watts, a.inVolt);
    Quotient(c.watts, Clamp(m.volt.after));
    hide CalculateLoad;
    assert CalculateLoad(c.watts, 0.0) == 0.0;
  }

  /** Whatever is stored for it, a device that goes off for lack of voltage stores nothing. */
  lemma OutageClearsTheBooks(c: Config, a: AssetState, m: Message, supply: Supply)
    requires c.Valid() && c.kind.Static? && m.InputVoltage? && a.status && a.inVolt >= 0.0 && m.volt.after <= c.minVoltage
    ensures var r := AfterInputVoltage(c, a, m, supply).state; !r.status && r.load == 0.0
  {
    Quotient(c.watts, a.inVolt);
  }

  // ----- One turn -----

  /** Only the asset that takes the turn changes, and no button is left in flight. */
  lemma TurnShape(s: Site, net: Net)
    requires Conserving(s, net) && net.engine.queue != []
    ensures var m, r := net.engine.queue[0], Turn(s, net);
            && m.target in s.config && s.topo.Has(m.target)
            && (forall n :: n in s.config && n != m.target ==> r.hw[n] == net.hw[n])
            && r.hw[m.target].inVolt >= 0.0
            && (r.engine.queue != [] ==> !r.engine.queue[0].PowerButton?)
            && (m.VoltageSide() ==> r.hw[m.target] == Report(s, net).state)
            && (m.ChildLoad? ==> !s.config[m.target].kind.Static?)
            && (s.config[m.target].kind.Static? ==> !m.Signal?)
  {
    var m := net.engine.queue[0];
    assert Expected(s, net, m);
    hide Accounted, AddedMessage;
    if m.VoltageSide() {
      var added := VoltTurn(s, net);
      var first, second := VoltTurnQueue(s, net);
      NoButtonLeft(s, net, Turn(s, net), m.target, added);
    } else {
      var added := LoadTurn(s, net);
      NoButtonLeft(s, net, Turn(s, net), m.target, added);
    }
  }

  lemma NoButtonLeft(s: Site, net: Net, r: Net, n: Key, added: seq<Message>)
    requires AllExpected(s, net) && n in s.config && s.topo.Has(n) && Turned(s, net, r, n, added)
    ensures r.engine.queue != [] ==> !r.engine.queue[0].PowerButton?
  {
    var q := net.engine.queue;
    if |q| > 1 {
      assert Expected(s, net, q[1]);
      assert r.engine.queue[0] == q[1];
    } else if added != [] {
      assert r.engine.queue[0] == added[0] && AddedMessage(s, n, added[0]);
    }
  }

  lemma ButtonKeepsBooks(c: Config, a: AssetState, m: Message)
    requires c.Valid() && m.PowerButton? && a.load == a.(status := m.on).Draw(c.watts)
    ensures var r := AfterButton(c, a, m).state; r.load == r.Draw(c.watts)
  {
  }

  /** A turn keeps every device's books exactly unless a device comes back from a brownout. */
  lemma TurnBooksExactly(s: Site, net: Net)
    requires Conserving(s, net) && Booked(s, net)
    ensures Booked(s, Turn(s, net)) <==> !ReturnsFromBrownout(s, net)
  {
    hide Accounted, PowersBack, AfterInputVoltage, AfterButton, AssetState.Draw;
    if net.engine.queue != [] {
      TurnShape(s, net);
      var m, r := net.engine.queue[0], Turn(s, net);
      var n := m.target;
      assert r.hw.Keys == s.config.Keys && s.config[n].Valid() && StoresDraw(s, net, n);
      assert forall k :: k in s.config ==> Due(s, r, k) == r.hw[k].Draw(s.config[k].watts) by {
        DueWithoutButton(s, r);
      }
      forall k | k in s.config && k != n ensures StoresDraw(s, r, k) && r.hw[k].inVolt >= 0.0
      {
        assert StoresDraw(s, net, k);
        OthersDue(s, net, k);
      }
      TargetBooks(s, net, r);
    }
  }

  lemma DueWithoutButton(s: Site, r: Net)
    requires r.hw.Keys == s.config.Keys && (r.engine.queue != [] ==> !r.engine.queue[0].PowerButton?)
    ensures forall k :: k in s.config ==> Due(s, r, k) == r.hw[k].Draw(s.config[k].watts)
  {
    forall k | k in s.config ensures Due(s, r, k) == r.hw[k].Draw(s.config[k].watts)
    {
      var a := r.hw[k];
      assert a.(status := a.status) == a;
    }
  }

  lemma OthersDue(s: Site, net: Net, k: Key)
    requires net.engine.queue != [] && k in s.config && k in net.hw && k != net.engine.queue[0].target
    ensures Due(s, net, k) == net.hw[k].Draw(s.config[k].watts)
  {
    var a := net.hw[k];
    assert a.(status := a.status) == a;
  }

  lemma TargetBooks(s: Site, net: Net, r: Net)
    requires Conserving(s, net) && Booked(s, net) && net.engine.queue != [] && r == Turn(s, net)
    requires var n := net.engine.queue[0].target;
             n in s.config && s.topo.Has(n) && n in r.hw && Due(s, r, n) == r.hw[n].Draw(s.config[n].watts)
    ensures StoresDraw(s, r, net.engine.queue[0].target) <==> !ReturnsFromBrownout(s, net)
  {
    hide Accounted, PowersBack, AfterInputVoltage, AfterButton, AssetState.Draw;
    TurnShape(s, net);
    var m := net.engine.queue[0];
    var n := m.target;
    var c, a := s.config[n], net.hw[n];
    if c.kind.Static? {
      assert StoresDraw(s, net, n);
      if m.InputVoltage? {
        assert a.(status := a.status) == a;
        VoltageKeepsBooks(c, a, m, SupplyOf(s, net, n));
      } else {
        ButtonKeepsBooks(c, a, m);
      }
    }
  }

  // ----- Every run -----

  lemma AskKeepsBooks(s: Site, net: Net, q: Request)
    requires Conserving(s, net) && Booked(s, net) && ValidRequest(s, q)
    ensures Booked(s, Ask(s, net, q))
  {
    hide Accounted, Launched, CalculateLoad, PressAllowed, Summed, Told;
    var r := Ask(s, net, q);
    if Idle(net) {
      AskedQueue(s, net, q);
      forall n | n in s.config ensures r.hw[n].inVolt >= 0.0 && StoresDraw(s, r, n)
      {
        assert StoresDraw(s, net, n) && net.hw[n].(status := net.hw[n].status) == net.hw[n];
        PressBooks(s.config[n], net.hw[n]);
      }
    }
  }

  /** What a request puts at the head of the queue. */
  lemma AskedQueue(s: Site, net: Net, q: Request)
    requires Running(s, net) && Idle(net) && ValidRequest(s, q)
    ensures var r := Ask(s, net, q);
            if q.Press? && PressAllowed(s, net, q.key, q.on) then r.engine.queue == [PowerButton(q.key, q.on, 0)]
            else r.engine.queue != [] ==> !r.engine.queue[0].PowerButton?
  {
    hide Accounted, PressAllowed;
    match q
    case SetMains(v) => LaunchedQueue(s.topo, Wallpower(Change(net.mains, v)));
    case Press(k, on) => LaunchedQueue(s.topo, Button(k, on));
    case Switch(k, on) => LaunchedQueue(s.topo, Snmp(k, on));
  }

  lemma PressBooks(c: Config, a: AssetState)
    requires c.Valid() && a.inVolt >= 0.0
    ensures c.kind.Static? ==>
              && Pressed(c, a, true).load == a.(status := true).Draw(c.watts)
              && Pressed(c, a, false).load == a.(status := false).Draw(c.watts)
  {
    Quotient(c.watts, a.inVolt);
  }

  lemma StartUpBooked(s: Site)
    requires s.Valid()
    ensures Booked(s, StartUp(s))
  {
  }

  /** Booked in every state a run visits. */
  ghost predicate AlwaysBooked(s: Site, net: Net, actions: seq<Action>)
    requires Running(s, net) && ValidActions(s, actions)
    decreases |actions|
  {
    Booked(s, net) && (actions == [] || AlwaysBooked(s, Act(s, net, actions[0]), actions[1..]))
  }

  /** No turn of the run powers a device up from a brownout. */
  ghost predicate NoneReturns(s: Site, net: Net, actions: seq<Action>)
    requires Running(s, net) && ValidActions(s, actions)
    decreases |actions|
  {
    actions == [] ||
    (!(actions[0].TurnTaken? && ReturnsFromBrownout(s, net)) && NoneReturns(s, Act(s, net, actions[0]), actions[1..]))
  }

  lemma ActBooksExactly(s: Site, net: Net, a: Action)
    requires Conserving(s, net) && Booked(s, net) && (a.Requested? ==> ValidRequest(s, a.request))
    ensures Booked(s, Act(s, net, a)) <==> !(a.TurnTaken? && ReturnsFromBrownout(s, net))
  {
    hide Booked, ReturnsFromBrownout, Conserving;
    match a
    case Requested(q) => AskKeepsBooks(s, net, q);
    case TurnTaken => TurnBooksExactly(s, net);
  }

  lemma ActConserves(s: Site, net: Net, a: Action)
    requires Conserving(s, net) && (a.Requested? ==> ValidRequest(s, a.request))
    ensures Conserving(s, Act(s, net, a))
  {
    hide Conserving;
    match a
    case Requested(q) => AskConserves(s, net, q);
    case TurnTaken => TurnConserves(s, net);
  }

  lemma {:induction false} AlwaysBookedExactly(s: Site, net: Net, actions: seq<Action>)
    requires Conserving(s, net) && Booked(s, net) && ValidActions(s, actions)
    ensures AlwaysBooked(s, net, actions) <==> NoneReturns(s, net, actions)
    decreases |actions|
  {
    if actions != [] {
      ActBooksExactly(s, net, actions[0]);
      ActConserves(s, net, actions[0]);
      var next := Act(s, net, actions[0]);
      hide Booked, ReturnsFromBrownout, Conserving, Running, Act;
      if Booked(s, next) {
        AlwaysBookedExactly(s, next, actions[1..]);
      } else {
        assert !AlwaysBooked(s, next, actions[1..]);
      }
    }
  }

  /** Over every run of a network as created, every device stores what it draws all along exactly when
      no device is powered back up from a brownout on the way. */
  lemma DevicesStoreTheirDraw(s: Site, actions: seq<Action>)
    requires s.Valid() && ValidActions(s, actions)
    ensures AlwaysBooked(s, StartUp(s), actions) <==> NoneReturns(s, StartUp(s), actions)
  {
    hide Booked, ReturnsFromBrownout, Conserving, Act;
    StartUpConserves(s);
    StartUpBooked(s);
    AlwaysBookedExactly(s, StartUp(s), actions);
  }
}
