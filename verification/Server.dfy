// Servers and their power supplies: how the server's load moves between them.

module Server {
  import opened Events

  /** A power supply as the server's state managers see it. byUser: its state reason is turned_off. */
  datatype Psu = Psu(on: bool, inVolt: real, load: real, watts: real, draw: real, minVoltage: real, byUser: bool) {
    function OutputVoltage(): real {
      if on then inVolt else 0.0
    }

    function Usage(): real {
      CalculateLoad(watts, inVolt)
    }
  }

  datatype ServerState = ServerState(
    watts: real, minVoltage: real, powerOnAc: bool,
    on: bool, vmActive: bool, inVolt: real, load: real, psus: seq<Psu>)

  // ----- Specification on values -----

  /** _psu_out_voltage: the output of the first supply that is on. */
  function PsuOutVoltage(psus: seq<Psu>): real {
    if psus == [] then 0.0
    else if psus[0].on then psus[0].OutputVoltage()
    else PsuOutVoltage(psus[1..])
  }

  /** A server stores its input voltage before it reacts to the event. */
  function InputDetected(s: ServerState, v: real): (r: ServerState)
    ensures r == s.(inVolt := r.inVolt) && r.inVolt >= 0.0 && r.inVolt >= v
  {
    var out := PsuOutVoltage(s.psus);
    s.(inVolt := Clamp(if out >= v then out else v))
  }

  /** _psu_drawing_extra: the supply carries more than its own share and its idle usage. */
  predicate DrawingExtra(s: ServerState, p: Psu) {
    CalculateLoad(s.watts, p.inVolt) * p.draw + p.Usage() < p.load
  }

  predicate Supplied(s: ServerState) {
    exists i :: 0 <= i < |s.psus| && s.psus[i].OutputVoltage() > s.minVoltage
  }

  /** The state manager's power_up: also revives a virtual machine of a server that is on. A server
      that comes on stores its usage, as every static device does. */
  function PoweredUp(s: ServerState): ServerState {
    if s.on then s.(vmActive := true)
    else if s.inVolt == 0.0 || !Supplied(s) then s
    else s.(on := true, vmActive := true, load := Clamp(s.watts / s.inVolt))
  }

  function PoweredOff(s: ServerState): ServerState {
    s.(on := false, vmActive := false, load := 0.0)
  }

  /** A reaction: the server's new state and the streamed load update of each supply, or none at all. */
  datatype Reaction = Reaction(server: ServerState, streamed: seq<Change>)

  predicate HasAlternative(psus: seq<Psu>, k: nat, n: nat)
    requires n <= |psus|
  {
    exists i :: 0 <= i < n && i != k && psus[i].on
  }

  /** The supply's own usage as on_input_voltage_down finds it: none when the supply already
      carries exactly its share of the server. */
  function OwnLoad(s: ServerState, k: nat, volt: Change): real
    requires k < |s.psus|
  {
    if s.load * s.psus[k].draw == s.psus[k].load then 0.0
    else CalculateLoad(s.psus[k].watts, volt.before)
  }

  function SourceDown(s: ServerState, k: nat, volt: Change): Change
    requires k < |s.psus|
  {
    Change(s.psus[k].load, Clamp(CalculateLoad(s.watts, volt.after) * s.psus[k].draw))
  }

  /** What a voltage drop of supply k asks of supply i. */
  function StreamDown(s: ServerState, k: nat, volt: Change, i: nat): Change
    requires k < |s.psus| && i < |s.psus|
  {
    var p := s.psus[i];
    if i == k then SourceDown(s, k, volt)
    else if p.on && volt.after == 0.0 then
      Change(p.load, Clamp(p.load - SourceDown(s, k, volt).Difference() - OwnLoad(s, k, volt)))
    else Change(p.load, p.load)
  }

  function AfterVoltageDown(s0: ServerState, k: nat, volt: Change): (r: Reaction)
    requires k < |s0.psus|
    ensures r.server.psus == s0.psus && |r.streamed| == |s0.psus|
  {
    var s := InputDetected(s0, volt.after);
    var alternative := HasAlternative(s.psus, k, |s.psus|);
    var s1 := if !alternative && volt.after == 0.0 then PoweredOff(s) else s;
    var s2 := if !alternative || volt.after != 0.0 then s1.(load := Clamp(CalculateLoad(s.watts, volt.after))) else s1;
    Reaction(s2, seq(|s.psus|, i requires 0 <= i < |s.psus| => StreamDown(s, k, volt, i)))
  }

  predicate Boots(s: ServerState, volt: Change) {
    (!s.on || !s.vmActive) && volt.after != 0.0
  }

  /** Supply i returns the share it took over while supply k was out. */
  predicate GivesBack(s: ServerState, k: nat, volt: Change, i: nat)
    requires i < |s.psus|
  {
    i != k && s.psus[i].on && volt.before == 0.0 && DrawingExtra(s, s.psus[i])
  }

  /** The draw of the first n supplies that are off, leaving out supply k. */
  function OfflineDraw(psus: seq<Psu>, k: int, n: nat): real
    requires n <= |psus|
  {
    if n == 0 then 0.0
    else OfflineDraw(psus, k, n - 1) + (if n - 1 != k && !psus[n - 1].on then psus[n - 1].draw else 0.0)
  }

  /** What a voltage rise of supply k asks of supply i. */
  function StreamUp(s: ServerState, k: nat, volt: Change, i: nat): Change
    requires k < |s.psus| && i < |s.psus|
  {
    var p := s.psus[i];
    var newLoad := CalculateLoad(s.watts, volt.after);
    if i == k then
      var draw := p.draw + OfflineDraw(s.psus, k, |s.psus|);
      Change(Clamp(CalculateLoad(s.watts, volt.before) * draw), Clamp(newLoad * draw))
    else if !p.on then Change(0.0, 0.0)
    else if GivesBack(s, k, volt, i) then Change(Clamp(p.load), Clamp(p.load - newLoad * s.psus[k].draw))
    else if Boots(s, volt) then Change(0.0, Clamp(newLoad * p.draw))
    else Change(0.0, 0.0)
  }

  predicate AnyGivesBack(s: ServerState, k: nat, volt: Change, n: nat)
    requires n <= |s.psus|
  {
    exists i :: 0 <= i < n && GivesBack(s, k, volt, i)
  }

  function AfterVoltageUp(s0: ServerState, k: nat, volt: Change): (r: Reaction)
    requires k < |s0.psus|
    ensures r.server.psus == s0.psus && (r.streamed == [] || |r.streamed| == |s0.psus|)
  {
    var s := InputDetected(s0, volt.after);
    var newLoad := Clamp(CalculateLoad(s.watts, volt.after));
    var streamed := seq(|s.psus|, i requires 0 <= i < |s.psus| => StreamUp(s, k, volt, i));
    if Boots(s, volt) && s.powerOnAc then Reaction(PoweredUp(s).(load := newLoad), streamed)
    else if !Boots(s, volt) && !AnyGivesBack(s, k, volt, |s.psus|) then Reaction(s.(load := newLoad), streamed)
    else if !s.on && !s.powerOnAc then Reaction(s, [])
    else Reaction(s, streamed)
  }

  /** The supplies that are on, among the first n. */
  function Online(psus: seq<Psu>, n: nat): nat
    requires n <= |psus|
  {
    if n == 0 then 0 else Online(psus, n - 1) + (if psus[n - 1].on then 1 else 0)
  }

  lemma {:induction false} OnlineIsPositive(psus: seq<Psu>, n: nat, i: nat)
    requires i < n <= |psus| && psus[i].on
    ensures Online(psus, n) > 0
  {
    if i < n - 1 {
      OnlineIsPositive(psus, n - 1, i);
    }
  }

  function OwnShare(p: Psu, total: real): Change {
    Change(p.load, if p.on then Clamp(p.load + total * p.draw) else p.load)
  }

  /** The load of the supplies that are off, spread evenly over those that are on. */
  function ExtraLoad(total: real, offlineDraw: real, online: nat): real
    requires online > 0
  {
    total * offlineDraw / online as real
  }

  /** What a server that is switched on asks of supply i. */
  function StreamOn(psus: seq<Psu>, total: real, i: nat): Change
    requires i < |psus| && Online(psus, |psus|) > 0
  {
    var own := OwnShare(psus[i], total);
    var extra := ExtraLoad(total, OfflineDraw(psus, -1, |psus|), Online(psus, |psus|));
    Change(own.before, if psus[i].on then Clamp(own.after + extra) else own.after)
  }

  /** The server's power button, on: its load is spread over the supplies that are on. */
  function AfterButtonOn(s: ServerState): (r: Reaction)
    requires Online(s.psus, |s.psus|) > 0
    ensures r.server.psus == s.psus && |r.streamed| == |s.psus|
  {
    var total := CalculateLoad(s.watts, s.inVolt);
    Reaction(s.(on := true), seq(|s.psus|, i requires 0 <= i < |s.psus| => StreamOn(s.psus, total, i)))
  }

  /** The server's power button, off: every live supply falls back to its idle usage. */
  function AfterButtonOff(s: ServerState): (r: Reaction)
    ensures r.server.psus == s.psus && |r.streamed| == |s.psus|
  {
    Reaction(
      s.(on := false),
      seq(|s.psus|, i requires 0 <= i < |s.psus| =>
        var p := s.psus[i];
        Change(p.load, if p.on && p.inVolt != 0.0 then Clamp(p.Usage()) else p.load)))
  }

  // ----- The loops over the supplies -----

  /** The loop of on_input_voltage_up: the update of every supply, and whether one gives load back. */
  method StreamsUp(s: ServerState, k: nat, volt: Change) returns (streamed: seq<Change>, givenBack: bool)
    requires k < |s.psus|
    ensures |streamed| == |s.psus| && forall i :: 0 <= i < |s.psus| ==> streamed[i] == StreamUp(s, k, volt, i)
    ensures givenBack == AnyGivesBack(s, k, volt, |s.psus|)
  {
    var psus := s.psus;
    var extraDraw := 0.0;
    var boots := (!s.on || !s.vmActive) && volt.after != 0.0;
    var newLoad := CalculateLoad(s.watts, volt.after);
    var oldLoad := CalculateLoad(s.watts, volt.before);
    givenBack := false;
    streamed := seq(|psus|, i => Change(0.0, 0.0));
    for i := 0 to |psus|
      invariant |streamed| == |psus|
      invariant extraDraw == OfflineDraw(psus, k, i)
      invariant givenBack == AnyGivesBack(s, k, volt, i)
      invariant forall j :: 0 <= j < i && j != k ==> streamed[j] == StreamUp(s, k, volt, j)
      invariant forall j :: i <= j < |psus| ==> streamed[j] == Change(0.0, 0.0)
    {
      hide CalculateLoad;
      AnotherGivesBack(s, k, volt, i);
      if i == k {
        continue;
      }
      if !psus[i].on {
        extraDraw := extraDraw + psus[i].draw;
      } else if volt.before == 0.0 && DrawingExtra(s, psus[i]) {
        streamed := streamed[i := Change(Clamp(psus[i].load), Clamp(psus[i].load - newLoad * psus[k].draw))];
        givenBack := true;
      } else if boots {
        streamed := streamed[i := Change(0.0, Clamp(newLoad * psus[i].draw))];
      }
    }
    var draw := psus[k].draw + extraDraw;
    streamed := streamed[k := Change(Clamp(oldLoad * draw), Clamp(newLoad * draw))];
    hide CalculateLoad;
    assert streamed[k] == StreamUp(s, k, volt, k);
  }

  lemma AnotherGivesBack(s: ServerState, k: nat, volt: Change, n: nat)
    requires n < |s.psus|
    ensures AnyGivesBack(s, k, volt, n + 1) == (AnyGivesBack(s, k, volt, n) || GivesBack(s, k, volt, n))
  {
  }

  /** The two loops of on_power_button_on: own shares first, then the rest spread evenly. */
  method StreamsOn(psus: seq<Psu>, total: real) returns (streamed: seq<Change>)
    requires Online(psus, |psus|) > 0
    ensures |streamed| == |psus| && forall i :: 0 <= i < |psus| ==> streamed[i] == StreamOn(psus, total, i)
  {
    var extraDraw := 0.0;
    var online := 0;
    streamed := [];
    for i := 0 to |psus|
      invariant extraDraw == OfflineDraw(psus, -1, i) && online == Online(psus, i)
      invariant |streamed| == i
      invariant forall j :: 0 <= j < i ==> streamed[j] == OwnShare(psus[j], total)
    {
      var p := psus[i];
      if !p.on {
        extraDraw := extraDraw + p.draw;
        streamed := streamed + [Change(p.load, p.load)];
      } else {
        streamed := streamed + [Change(p.load, Clamp(p.load + total * p.draw))];
        online := online + 1;
      }
    }
    var extra := ExtraLoad(total, extraDraw, online);
    hide OwnShare, ExtraLoad;
    for i := 0 to |psus|
      invariant |streamed| == |psus|
      invariant forall j :: i <= j < |psus| ==> streamed[j] == OwnShare(psus[j], total)
      invariant forall j :: 0 <= j < i ==> streamed[j] == StreamOn(psus, total, j)
    {
      if psus[i].on {
        streamed := streamed[i := Change(streamed[i].before, Clamp(streamed[i].after + extra))];
      }
    }
  }

  // ----- The class -----

  class ServerAsset {
    var state: ServerState

    constructor (s: ServerState)
      ensures state == s
    {
      state := s;
    }

    method FirstPsuOutput() returns (v: real)
      ensures v == PsuOutVoltage(state.psus)
    {
      v := 0.0;
      for i := 0 to |state.psus|
        invariant PsuOutVoltage(state.psus) == PsuOutVoltage(state.psus[i..])
        invariant v == 0.0
      {
        if state.psus[i].on {
          return state.psus[i].OutputVoltage();
        }
      }
    }

    method DetectInputVoltage(v: real)
      modifies this
      ensures state == InputDetected(old(state), v)
    {
      var out := FirstPsuOutput();
      state := state.(inVolt := Clamp(if out >= v then out else v));
    }

    method OnInputVoltageDown(k: nat, volt: Change) returns (streamed: seq<Change>)
      requires k < |state.psus|
      modifies this
      ensures Reaction(state, streamed) == AfterVoltageDown(old(state), k, volt)
    {
      DetectInputVoltage(volt.after);
      ghost var s := state;
      var psus := state.psus;
      var offline := volt.after == 0.0;
      var own := 0.0;
      if state.load * psus[k].draw != psus[k].load {
        own := CalculateLoad(psus[k].watts, volt.before);
      }
      var newLoad := CalculateLoad(state.watts, volt.after);

      streamed := seq(|psus|, i requires 0 <= i < |psus| => Change(psus[i].load, psus[i].load));
      streamed := streamed[k := Change(psus[k].load, Clamp(newLoad * psus[k].draw))];
      var alternative := false;
      for i := 0 to |psus|
        invariant state == s && |streamed| == |psus|
        invariant streamed[k] == SourceDown(s, k, volt)
        invariant forall j :: 0 <= j < i ==> streamed[j] == StreamDown(s, k, volt, j)
        invariant forall j :: i <= j < |psus| && j != k ==> streamed[j] == Change(psus[j].load, psus[j].load)
        invariant alternative == HasAlternative(psus, k, i)
      {
        if i == k || !psus[i].on {
          continue;
        }
        alternative := true;
        if !offline {
          continue;
        }
        streamed := streamed[i := Change(psus[i].load, Clamp(streamed[i].after - streamed[k].Difference() - own))];
      }

      if !alternative && offline {
        state := PoweredOff(state);
      }
      if !alternative || !offline {
        state := state.(load := Clamp(newLoad));
      }
    }

    method OnInputVoltageUp(k: nat, volt: Change) returns (streamed: seq<Change>)
      requires k < |state.psus|
      modifies this
      ensures Reaction(state, streamed) == AfterVoltageUp(old(state), k, volt)
    {
      DetectInputVoltage(volt.after);
      var boots := (!state.on || !state.vmActive) && volt.after != 0.0;
      var newLoad := CalculateLoad(state.watts, volt.after);
      var givenBack;
      streamed, givenBack := StreamsUp(state, k, volt);
      if boots && state.powerOnAc {
        state := PoweredUp(state).(load := Clamp(newLoad));
      } else if !boots && !givenBack {
        state := state.(load := Clamp(newLoad));
      } else if !state.on && !state.powerOnAc {
        streamed := [];
      }
    }

    method OnPowerButtonOn() returns (streamed: seq<Change>)
      requires Online(state.psus, |state.psus|) > 0
      modifies this
      ensures Reaction(state, streamed) == AfterButtonOn(old(state))
    {
      streamed := StreamsOn(state.psus, CalculateLoad(state.watts, state.inVolt));
      state := state.(on := true);
    }

    method OnPowerButtonOff() returns (streamed: seq<Change>)
      modifies this
      ensures Reaction(state, streamed) == AfterButtonOff(old(state))
    {
      var psus := state.psus;
      streamed := [];
      for i := 0 to |psus|
        invariant |streamed| == i && state == old(state)
        invariant forall j :: 0 <= j < i ==> streamed[j] == AfterButtonOff(state).streamed[j]
      {
        var p := psus[i];
        if !p.on || p.inVolt == 0.0 {
          streamed := streamed + [Change(p.load, p.load)];
          continue;
        }
        streamed := streamed + [Change(p.load, Clamp(p.Usage()))];
      }
      state := state.(on := false);
    }
  }
}
