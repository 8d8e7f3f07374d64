// A power network comes to rest: from every state of every run the turns of the event loop run out.

module AtRest {
  import opened Accounting
  import opened Termination
  import opened Network

  /** The weight in flight bounds the turns the loop can still take. */
  ghost function InFlightWeight(s: Site, net: Net): nat
    requires Running(s, net)
  {
    QueueWeight(s.topo, s.rank, s.top, net.engine.queue)
  }

  /** With no event of its side in flight nothing is active. */
  lemma NothingActive(active: seq<nat>, q: multiset<nat>, next: nat)
    requires Balanced(active, q, next) && q == multiset{}
    ensures active == []
  {
    assert |multiset(active)| == |active|;
  }

  /** A network is idle exactly when no event is in flight: no iteration of a tree is left behind. */
  lemma IdleIsEmpty(s: Site, net: Net)
    requires Running(s, net)
    ensures Idle(net) <==> net.engine.queue == []
  {
    var st := net.engine;
    if st.queue == [] && st.current.Some? {
      NothingActive(st.current.value.volt.active, InFlight([], true), st.current.value.nextBranch);
      NothingActive(st.current.value.load.active, InFlight([], false) + multiset{}, st.current.value.nextBranch);
    }
  }

  lemma TurnDescends(s: Site, net: Net)
    requires Running(s, net) && !Idle(net)
    ensures InFlightWeight(s, Turn(s, net)) < InFlightWeight(s, net)
  {
    IdleIsEmpty(s, net);
    HeadIsTracked(s.topo, net.engine, multiset{});
    var (a, answer) := React(s, net, net.engine.queue[0]);
    StepDescends(s.topo, s.rank, s.top, net.engine, answer);
  }

  /** The network when every event in flight, and every event these cause, is handled. */
  ghost function Settle(s: Site, net: Net): (r: Net)
    requires Running(s, net)
    ensures Running(s, r) && Idle(r)
    decreases InFlightWeight(s, net)
  {
    if Idle(net) then net
    else
      TurnDescends(s, net);
      Settle(s, Turn(s, net))
  }

  function Turns(n: nat): seq<Action> {
    if n == 0 then [] else Turns(n - 1) + [TurnTaken]
  }

  lemma {:induction false} TurnsAreValid(s: Site, n: nat)
    ensures ValidActions(s, Turns(n)) && |Turns(n)| == n
  {
    if n > 0 {
      TurnsAreValid(s, n - 1);
    }
  }

  lemma {:induction false} ExecAppend(s: Site, net: Net, p: seq<Action>, q: seq<Action>)
    requires Running(s, net) && ValidActions(s, p) && ValidActions(s, q)
    ensures ValidActions(s, p + q) && Exec(s, net, p + q) == Exec(s, Exec(s, net, p), q)
    decreases |q|
  {
    hide Running, Act;
    if q == [] {
      assert p + q == p;
    } else {
      var init, last := q[..|q| - 1], q[|q| - 1];
      ExecAppend(s, net, p, init);
      assert (p + q)[..|p + q| - 1] == p + init;
      assert forall i :: 0 <= i < |p + q| ==> (p + q)[i] == if i < |p| then p[i] else q[i - |p|];
    }
  }

  /** The number of turns the network takes to come to rest. */
  ghost function TurnsToRest(s: Site, net: Net): nat
    requires Running(s, net)
    decreases InFlightWeight(s, net)
  {
    if Idle(net) then 0
    else
      TurnDescends(s, net);
      1 + TurnsToRest(s, Turn(s, net))
  }

  lemma OneTurn(s: Site, net: Net)
    requires Running(s, net)
    ensures ValidActions(s, [TurnTaken]) && Exec(s, net, [TurnTaken]) == Turn(s, net)
  {
    hide Running, Turn;
    assert [TurnTaken][..0] == [];
    assert Exec(s, net, []) == net;
  }

  lemma FirstTurn(s: Site, net: Net, n: nat)
    requires Running(s, net) && n > 0
    ensures ValidActions(s, Turns(n)) && ValidActions(s, Turns(n - 1))
    ensures Exec(s, net, Turns(n)) == Exec(s, Turn(s, net), Turns(n - 1))
  {
    hide Running, Turn, Exec;
    OneTurn(s, net);
    TurnsAreValid(s, n - 1);
    TurnsCommute(n - 1);
    ExecAppend(s, net, [TurnTaken], Turns(n - 1));
  }

  lemma {:induction false} TurnsCommute(n: nat)
    ensures Turns(n + 1) == [TurnTaken] + Turns(n)
  {
    if n > 0 {
      TurnsCommute(n - 1);
    }
  }

  /** The turns of the loop come to rest, within the weight in flight, and exactly from then on. */
  lemma {:induction false} ComesToRest(s: Site, net: Net, n: nat)
    requires Running(s, net)
    ensures TurnsToRest(s, net) <= InFlightWeight(s, net) && ValidActions(s, Turns(n))
    ensures Idle(Exec(s, net, Turns(n))) <==> n >= TurnsToRest(s, net)
    ensures n >= TurnsToRest(s, net) ==> Exec(s, net, Turns(n)) == Settle(s, net)
    decreases InFlightWeight(s, net), n
  {
    hide InFlightWeight, Accounted;
    TurnsAreValid(s, n);
    if n > 0 {
      FirstTurn(s, net, n);
      if Idle(net) {
        ComesToRest(s, net, n - 1);
      }
    }
    if !Idle(net) {
      TurnDescends(s, net);
      ComesToRest(s, Turn(s, net), if n > 0 then n - 1 else 0);
    }
  }

  /** A run that is left to settle is a longer run. */
  lemma SettledRun(s: Site, net: Net, actions: seq<Action>) returns (longer: seq<Action>)
    requires Running(s, net) && ValidActions(s, actions)
    ensures ValidActions(s, longer) && Exec(s, net, longer) == Settle(s, Exec(s, net, actions))
  {
    var reached := Exec(s, net, actions);
    var n := TurnsToRest(s, reached);
    ComesToRest(s, reached, n);
    ExecAppend(s, net, actions, Turns(n));
    longer := actions + Turns(n);
  }
}
