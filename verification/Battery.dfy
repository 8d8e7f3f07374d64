// The battery of a UPS: how fast it drains and charges.

module Battery {
  import opened Events

  const MAX_LEVEL := 1000.0

  /** A point of the runtime graph: at this wattage a full battery lasts this many minutes. */
  datatype Point = Point(watts: int, minutes: real)

  /** Watt-minutes. */
  function Energy(p: Point): real {
    p.minutes * p.watts as real
  }

  /** A positive runtime graph with no wattage listed twice. */
  ghost predicate ValidGraph(g: seq<Point>) {
    && g != []
    && (forall i :: 0 <= i < |g| ==> g[i].watts > 0 && g[i].minutes > 0.0)
    && (forall i, j :: 0 <= i < j < |g| ==> g[i].watts != g[j].watts)
  }

  function Distance(p: Point, wattage: real): real {
    if p.watts as real >= wattage then p.watts as real - wattage else wattage - p.watts as real
  }

  /** The first of the points closest to a wattage. */
  ghost predicate IsClosest(g: seq<Point>, wattage: real, k: int) {
    && 0 <= k < |g|
    && (forall i :: 0 <= i < |g| ==> Distance(g[k], wattage) <= Distance(g[i], wattage))
    && (forall i :: 0 <= i < k ==> Distance(g[k], wattage) < Distance(g[i], wattage))
  }

  function Closest(g: seq<Point>, wattage: real): (k: nat)
    requires g != []
    ensures k < |g| && IsClosest(g, wattage, k)
  {
    var n := |g| - 1;
    if n == 0 then 0
    else
      var k := Closest(g[..n], wattage);
      assert forall i :: 0 <= i < n ==> g[..n][i] == g[i];
      if Distance(g[n], wattage) < Distance(g[k], wattage) then n else k
  }

  /** Wattage is taken to be at least a tenth of a watt. */
  function Floored(wattage: real): real {
    if wattage < 0.1 then 0.1 else wattage
  }

  /** Minutes from watt-minutes at a wattage, longer when some input voltage is present at or
      below the transfer threshold. */
  function Minutes(energy: real, wattage: real, inVolt: real, low: real): real
    requires wattage > 0.0 && low > 0.0
  {
    var t := energy / wattage;
    if 0.0 < inVolt <= low then t + t * (inVolt / low) else t
  }

  /** _calc_full_power_time_left, in minutes: inverse proportion from the closest point. */
  function FullTimeLeft(g: seq<Point>, wattage: real, inVolt: real, low: real): real
    requires g != [] && low > 0.0
  {
    var p := g[Closest(g, Floored(wattage))];
    Minutes(Energy(p), Floored(wattage), inVolt, low)
  }

  /** A full battery per second, when it lasts so many minutes. */
  function PerSecond(time: real): real
    requires time > 0.0
  {
    MAX_LEVEL / (time * 60.0)
  }

  /** _calc_battery_discharge, per second. */
  function Discharge(g: seq<Point>, wattage: real, inVolt: real, low: real): real
    requires ValidGraph(g) && low > 0.0
  {
    TimeLeftPositive(g, wattage, inVolt, low);
    PerSecond(FullTimeLeft(g, wattage, inVolt, low))
  }

  // ----- Bounds -----

  /** The largest energy of the graph's points, in watt-minutes. */
  ghost function MaxEnergy(g: seq<Point>): real
    requires ValidGraph(g)
    ensures MaxEnergy(g) > 0.0
    ensures forall i :: 0 <= i < |g| ==> Energy(g[i]) <= MaxEnergy(g)
  {
    var n := |g| - 1;
    var e := Energy(g[n]);
    assert e > 0.0;
    if n == 0 then e
    else
      assert forall i :: 0 <= i < n ==> g[..n][i] == g[i];
      var m := MaxEnergy(g[..n]);
      if e > m then e else m
  }

  lemma MulOrder(a: real, b: real, c: real)
    requires a <= b && c >= 0.0
    ensures a * c <= b * c
  {
  }

  lemma DivMonotone(a: real, b: real, w: real, v: real)
    requires 0.0 <= a <= b && 0.0 < v <= w
    ensures 0.0 <= a / w <= b / v
  {
  }

  lemma MinutesBound(e: real, max: real, w: real, inVolt: real, low: real)
    requires 0.0 < e <= max && w >= 0.1 && low > 0.0
    ensures 0.0 < Minutes(e, w, inVolt, low) <= 20.0 * max
  {
    var t := e / w;
    assert t * w == e;
    DivMonotone(e, max, w, 0.1);
    assert 0.0 < t <= max / 0.1 == 10.0 * max;
    if 0.0 < inVolt <= low {
      var share := inVolt / low;
      DivMonotone(inVolt, low, low, low);
      MulOrder(0.0, share, t);
      MulOrder(share, 1.0, t);
      assert t * share == share * t <= t;
    }
  }

  lemma TimeLeftPositive(g: seq<Point>, wattage: real, inVolt: real, low: real)
    requires ValidGraph(g) && low > 0.0
    ensures 0.0 < FullTimeLeft(g, wattage, inVolt, low) <= 20.0 * MaxEnergy(g)
  {
    var k := Closest(g, Floored(wattage));
    var p := g[k];
    EnergyPositive(p);
    hide Minutes, IsClosest, Closest, MaxEnergy, Energy;
    MinutesBound(Energy(p), MaxEnergy(g), Floored(wattage), inVolt, low);
  }

  lemma EnergyPositive(p: Point)
    requires p.watts > 0 && p.minutes > 0.0
    ensures Energy(p) > 0.0
  {
  }

  /** Whatever the load, a second on battery costs at least this much. */
  ghost function LeastDischarge(g: seq<Point>): real
    requires ValidGraph(g)
  {
    MAX_LEVEL / (1200.0 * MaxEnergy(g))
  }

  lemma DischargeBounded(g: seq<Point>, wattage: real, inVolt: real, low: real)
    requires ValidGraph(g) && low > 0.0
    ensures Discharge(g, wattage, inVolt, low) >= LeastDischarge(g) > 0.0
  {
    TimeLeftPositive(g, wattage, inVolt, low);
    hide FullTimeLeft;
    var t, e := FullTimeLeft(g, wattage, inVolt, low), MaxEnergy(g);
    DivMonotone(MAX_LEVEL, MAX_LEVEL, 1200.0 * e, t * 60.0);
    assert MAX_LEVEL / (1200.0 * e) * (1200.0 * e) == MAX_LEVEL;
  }

  // ----- The loops -----

  /** The wattage and input voltage the drain loop reads at each turn. */
  type Readings = nat -> (real, real)

  /** The battery level the drain loop holds after n turns. */
  function DrainLevel(g: seq<Point>, low: real, factor: real, at: Readings, level: real, n: nat): real
    requires ValidGraph(g) && low > 0.0
  {
    if n == 0 then level
    else
      DrainLevel(g, low, factor, at, level, n - 1) - Discharge(g, at(n - 1).0, at(n - 1).1, low) * factor
  }

  /** a / b rounded up. */
  function CeilDiv(a: real, b: real): nat
    requires a >= 0.0 && b > 0.0
  {
    DivMonotone(0.0, a, b, b);
    var q := a / b;
    if q.Floor as real == q then q.Floor else q.Floor + 1
  }

  lemma CeilDivCovers(a: real, b: real)
    requires a >= 0.0 && b > 0.0
    ensures CeilDiv(a, b) as real * b >= a
  {
    DivMonotone(0.0, a, b, b);
    var q, n := a / b, CeilDiv(a, b) as real;
    assert q * b == a;
    MulOrder(q, n, b);
  }

  lemma {:induction false} DrainAtLeast(g: seq<Point>, low: real, factor: real, at: Readings, level: real, n: nat)
    requires ValidGraph(g) && low > 0.0 && factor > 0.0
    ensures DrainLevel(g, low, factor, at, level, n) <= level - n as real * (LeastDischarge(g) * factor)
  {
    hide Discharge, LeastDischarge;
    if n > 0 {
      DrainAtLeast(g, low, factor, at, level, n - 1);
      var d := Discharge(g, at(n - 1).0, at(n - 1).1, low);
      DischargeBounded(g, at(n - 1).0, at(n - 1).1, low);
      var least := LeastDischarge(g);
      MulOrder(least, d, factor);
      assert n as real * (least * factor) == (n - 1) as real * (least * factor) + least * factor;
    }
  }

  /** The turns after which a drain has ended, whatever the load. */
  ghost function DrainTurns(g: seq<Point>, factor: real, start: real): nat
    requires ValidGraph(g) && factor > 0.0 && start >= 0.0
  {
    LeastTimesFactor(g, factor);
    CeilDiv(start, LeastDischarge(g) * factor)
  }

  lemma DrainEnds(g: seq<Point>, low: real, factor: real, at: Readings, start: real, n: nat)
    requires ValidGraph(g) && low > 0.0 && factor > 0.0 && start >= 0.0
    requires DrainLevel(g, low, factor, at, start, n) > 0.0
    ensures n < DrainTurns(g, factor, start)
  {
    LeastTimesFactor(g, factor);
    var step := LeastDischarge(g) * factor;
    DrainAtLeast(g, low, factor, at, start, n);
    assert DrainTurns(g, factor, start) == CeilDiv(start, step);
    hide *;
    CeilDivCovers(start, step);
    FewerTurns(n, CeilDiv(start, step), start, step);
  }

  lemma LeastTimesFactor(g: seq<Point>, factor: real)
    requires ValidGraph(g) && factor > 0.0
    ensures LeastDischarge(g) * factor > 0.0
  {
  }

  lemma FewerTurns(n: nat, bound: nat, total: real, step: real)
    requires step > 0.0 && n as real * step < total <= bound as real * step
    ensures n < bound
  {
  }

  /** The drain loop of a UPS that stays on battery. It ends, within a number of turns known from
      the runtime graph, after exactly the turns it takes the level to get to zero or below. */
  method DrainBattery(g: seq<Point>, low: real, factor: real, at: Readings, start: real) returns (turns: nat, level: real)
    requires ValidGraph(g) && low > 0.0 && factor > 0.0 && 0.0 <= start <= MAX_LEVEL
    ensures level == DrainLevel(g, low, factor, at, start, turns) <= 0.0
    ensures forall k :: 0 <= k < turns ==> DrainLevel(g, low, factor, at, start, k) > 0.0
    ensures turns <= DrainTurns(g, factor, start)
  {
    hide Discharge, LeastDischarge, DrainTurns, ValidGraph;
    turns, level := 0, start;
    while level > 0.0
      invariant level == DrainLevel(g, low, factor, at, start, turns)
      invariant forall k :: 0 <= k < turns ==> DrainLevel(g, low, factor, at, start, k) > 0.0
      invariant turns <= DrainTurns(g, factor, start)
      decreases DrainTurns(g, factor, start) - turns
    {
      DrainEnds(g, low, factor, at, start, turns);
      level := level - Discharge(g, at(turns).0, at(turns).1, low) * factor;
      turns := turns + 1;
    }
  }

  // ----- How long a battery lasts -----

  /** Input voltage at or below the transfer threshold stretches the time by its share of it. */
  function Stretch(inVolt: real, low: real): real
    requires low > 0.0
  {
    if 0.0 < inVolt <= low then 1.0 + inVolt / low else 1.0
  }

  lemma MinutesTimesWattage(e: real, w: real, inVolt: real, low: real)
    requires w > 0.0 && low > 0.0
    ensures Minutes(e, w, inVolt, low) * w == e * Stretch(inVolt, low)
  {
    var t := e / w;
    assert t * w == e;
    if 0.0 < inVolt <= low {
      var r := inVolt / low;
      assert (t + t * r) * w == t * w + t * w * r;
      assert e * (1.0 + r) == e + e * r;
    }
  }

  lemma ClosestIsUnique(g: seq<Point>, w: real, k: int)
    requires g != [] && IsClosest(g, w, k)
    ensures Closest(g, w) == k
  {
  }

  lemma FullTimeIs(g: seq<Point>, k: int, wattage: real, inVolt: real, low: real)
    requires ValidGraph(g) && low > 0.0 && IsClosest(g, Floored(wattage), k)
    ensures Floored(wattage) > 0.0 && FullTimeLeft(g, wattage, inVolt, low) == Minutes(Energy(g[k]), Floored(wattage), inVolt, low) > 0.0
  {
    hide Minutes, Energy;
    TimeLeftPositive(g, wattage, inVolt, low);
    ClosestIsUnique(g, Floored(wattage), k);
  }

  lemma {:induction false} SteadyDrain(g: seq<Point>, low: real, factor: real, at: Readings, start: real, d: real, n: nat)
    requires ValidGraph(g) && low > 0.0
    requires forall i: nat :: i < n ==> Discharge(g, at(i).0, at(i).1, low) == d
    ensures DrainLevel(g, low, factor, at, start, n) == start - n as real * (d * factor)
  {
    hide Discharge, ValidGraph;
    if n > 0 {
      SteadyDrain(g, low, factor, at, start, d, n - 1);
      assert n as real * (d * factor) == (n - 1) as real * (d * factor) + d * factor;
    }
  }

  lemma ProductsOrdered(a: real, b: real, c: real)
    requires c > 0.0
    ensures a < b <==> a * c < b * c
  {
  }

  /** In n turns at this wattage and speed the load takes less than the battery holds at a level:
      its share of the energy of a point of the graph, stretched. */
  predicate Outlasts(p: Point, stretch: real, level: real, wattage: real, factor: real, n: nat) {
    n as real * factor * wattage * 1000.0 < level * (p.minutes * p.watts as real * stretch) * 60.0
  }

  lemma Rescaled(x: real, y: real, time: real, wattage: real)
    requires time > 0.0 && wattage > 0.0
    ensures x < y <==> x * (time * 60.0 * wattage) < y * (time * 60.0 * wattage)
  {
    ProductsOrdered(x, y, time * 60.0 * wattage);
  }

  lemma DrainTimesTime(n: real, factor: real, time: real, wattage: real)
    requires time > 0.0
    ensures n * (MAX_LEVEL / (time * 60.0) * factor) * (time * 60.0 * wattage) == n * factor * wattage * MAX_LEVEL
  {
    var c := time * 60.0;
    var d := MAX_LEVEL / c;
    assert d * c == MAX_LEVEL;
    assert n * (d * factor) * (c * wattage) == n * factor * wattage * (d * c);
  }

  /** A level above zero after n turns, without the divisions. */
  lemma AboveZero(n: real, factor: real, level: real, time: real, wattage: real, energy: real)
    requires time > 0.0 && wattage > 0.0 && time * wattage == energy
    ensures level - n * (MAX_LEVEL / (time * 60.0) * factor) > 0.0 <==> n * factor * wattage * MAX_LEVEL < level * energy * 60.0
  {
    var x := n * (MAX_LEVEL / (time * 60.0) * factor);
    Rescaled(x, level, time, wattage);
    DrainTimesTime(n, factor, time, wattage);
    assert level * (time * 60.0 * wattage) == level * (time * wattage) * 60.0;
  }

  /** At constant wattage and input voltage a battery is above zero for exactly the turns it
      outlasts, by inverse proportion from the closest point of the graph; less than a tenth of a
      watt counts as a tenth, and input voltage up to the transfer threshold stretches the time. */
  lemma BatteryLasts(g: seq<Point>, low: real, factor: real, at: Readings, wattage: real, inVolt: real, k: nat, start: real, n: nat)
    requires ValidGraph(g) && low > 0.0
    requires IsClosest(g, if wattage < 0.1 then 0.1 else wattage, k)
    requires forall i: nat :: i < n ==> at(i) == (wattage, inVolt)
    ensures var w := if wattage < 0.1 then 0.1 else wattage;
            DrainLevel(g, low, factor, at, start, n) > 0.0 <==> Outlasts(g[k], Stretch(inVolt, low), start, w, factor, n)
  {
    var w, p := Floored(wattage), g[k];
    assert w == if wattage < 0.1 then 0.1 else wattage;
    hide *;
    FullTimeIs(g, k, wattage, inVolt, low);
    DischargeIs(g, wattage, inVolt, low);
    var time := FullTimeLeft(g, wattage, inVolt, low);
    SteadyDrain(g, low, factor, at, start, PerSecond(time), n);
    OutlastsWhile(p, inVolt, low, start, w, factor, n, time);
  }

  lemma DischargeIs(g: seq<Point>, wattage: real, inVolt: real, low: real)
    requires ValidGraph(g) && low > 0.0 && FullTimeLeft(g, wattage, inVolt, low) > 0.0
    ensures Discharge(g, wattage, inVolt, low) == PerSecond(FullTimeLeft(g, wattage, inVolt, low))
  {
    hide FullTimeLeft;
  }

  lemma OutlastsWhile(p: Point, inVolt: real, low: real, level: real, wattage: real, factor: real, n: nat, time: real)
    requires time > 0.0 && wattage > 0.0 && low > 0.0 && time == Minutes(Energy(p), wattage, inVolt, low)
    ensures level - n as real * (PerSecond(time) * factor) > 0.0 <==> Outlasts(p, Stretch(inVolt, low), level, wattage, factor, n)
  {
    MinutesTimesWattage(Energy(p), wattage, inVolt, low);
    hide Minutes, Stretch;
    AboveZero(n as real, factor, level, time, wattage, Energy(p) * Stretch(inVolt, low));
  }

  /** A drain goes on from where it got to: with BatteryLasts, what is left after each stretch of constant
      readings says how long the next one lasts. */
  lemma {:induction false} DrainGoesOn(g: seq<Point>, low: real, factor: real, at: Readings, later: Readings, start: real, m: nat, n: nat)
    requires ValidGraph(g) && low > 0.0
    requires forall i: nat :: later(i) == at(m + i)
    ensures DrainLevel(g, low, factor, at, start, m + n) == DrainLevel(g, low, factor, later, DrainLevel(g, low, factor, at, start, m), n)
  {
    hide Discharge, ValidGraph;
    if n > 0 {
      DrainGoesOn(g, low, factor, at, later, start, m, n - 1);
      assert later(n - 1) == at(m + n - 1);
    }
  }

  /** So on a point of the graph, without input voltage and at normal speed, a full battery lasts
      the minutes the graph says. */
  lemma FullBatteryLasts(g: seq<Point>, low: real, at: Readings, k: nat, n: nat)
    requires ValidGraph(g) && low > 0.0 && k < |g|
    requires forall i: nat :: at(i) == (g[k].watts as real, 0.0)
    ensures DrainLevel(g, low, 1.0, at, MAX_LEVEL, n) > 0.0 <==> n as real < g[k].minutes * 60.0
  {
    var w := g[k].watts as real;
    assert w >= 1.0 && IsClosest(g, w, k);
    hide IsClosest, DrainLevel, ValidGraph, Outlasts;
    BatteryLasts(g, low, 1.0, at, w, 0.0, k, MAX_LEVEL, n);
    OutlastsOnPoint(g[k], n);
  }

  lemma OutlastsOnPoint(p: Point, n: nat)
    requires p.watts > 0
    ensures Outlasts(p, 1.0, MAX_LEVEL, p.watts as real, 1.0, n) <==> n as real < p.minutes * 60.0
  {
    var w := p.watts as real;
    ProductsOrdered(n as real, p.minutes * 60.0, w * 1000.0);
    assert n as real * 1.0 * w * 1000.0 == n as real * (w * 1000.0);
    assert MAX_LEVEL * (p.minutes * w * 1.0) * 60.0 == p.minutes * 60.0 * (w * 1000.0);
  }

  /** Charge per second: full in `hours` hours. */
  function ChargePerSecond(hours: real): real
    requires hours > 0.0
  {
    MAX_LEVEL / (hours * 60.0 * 60.0)
  }

  /** The level after n turns of charging. */
  function ChargeLevel(hours: real, factor: real, start: real, n: nat): real
    requires hours > 0.0
  {
    start + n as real * (ChargePerSecond(hours) * factor)
  }

  /** The UPS can be powered up after n turns: the level is above the minimum to restore, and what
      is stored of it is not zero. */
  predicate Restorable(hours: real, factor: real, start: real, min: real, n: nat)
    requires hours > 0.0
  {
    ChargeLevel(hours, factor, start, n) > min && ChargeLevel(hours, factor, start, n) >= 1.0
  }

  /** In n turns the charge adds less than the missing part of the level. */
  predicate StillCharging(hours: real, factor: real, start: real, n: nat) {
    n as real * factor * MAX_LEVEL < (MAX_LEVEL - start) * (hours * 3600.0)
  }

  /** The charge loop of a UPS that stays on input power. It takes exactly the turns in which the
      missing part of the level is made up at the rate of a full charge in `hours` hours; a UPS that
      is off and set to come back is powered up after the first turn in which it can be. */
  method ChargeBattery(hours: real, factor: real, start: real, powerUp: bool, min: real)
    returns (turns: nat, level: real, upAfter: Option<nat>)
    requires hours > 0.0 && factor > 0.0 && 0.0 <= start <= MAX_LEVEL
    ensures level == ChargeLevel(hours, factor, start, turns)
    ensures forall n: nat :: n < turns <==> StillCharging(hours, factor, start, n)
    ensures upAfter.None? <==> !powerUp || forall k: nat :: 1 <= k <= turns ==> !Restorable(hours, factor, start, min, k)
    ensures upAfter.Some? ==>
              && 1 <= upAfter.value <= turns && Restorable(hours, factor, start, min, upAfter.value)
              && forall k: nat :: 1 <= k < upAfter.value ==> !Restorable(hours, factor, start, min, k)
  {
    ghost var bound := CeilDiv(3600.0 * hours, factor);
    var step := ChargePerSecond(hours) * factor;
    ChargeStep(hours, factor);
    CeilDivCovers(3600.0 * hours, factor);
    turns, level, upAfter := 0, start, None;
    hide ChargePerSecond, CeilDiv;
    while level < MAX_LEVEL
      invariant level == ChargeLevel(hours, factor, start, turns)
      invariant turns <= bound && (turns > 0 ==> ChargeLevel(hours, factor, start, turns - 1) < MAX_LEVEL)
      invariant upAfter.None? <==> !powerUp || forall k: nat :: 1 <= k <= turns ==> !Restorable(hours, factor, start, min, k)
      invariant upAfter.Some? ==>
                  && 1 <= upAfter.value <= turns && Restorable(hours, factor, start, min, upAfter.value)
                  && forall k: nat :: 1 <= k < upAfter.value ==> !Restorable(hours, factor, start, min, k)
      decreases bound - turns
    {
      if turns == bound {
        BoundReached(hours, factor, start, bound);
        assert false;
      }
      level := level + step;
      turns := turns + 1;
      ChargeAdds(hours, factor, start, turns);
      assert Restorable(hours, factor, start, min, turns) == (level > min && level >= 1.0);
      if powerUp && upAfter.None? && level > min && level >= 1.0 {
        upAfter := Some(turns);
      }
    }
    hide ChargeLevel, Restorable;
    forall n: nat
      ensures n < turns <==> StillCharging(hours, factor, start, n)
    {
      ChargeBelow(hours, factor, start, n);
      if n < turns {
        ChargeGrows(hours, factor, start, n, turns - 1);
      } else {
        ChargeGrows(hours, factor, start, turns, n);
      }
    }
  }

  lemma ChargeAdds(hours: real, factor: real, start: real, n: nat)
    requires hours > 0.0 && n > 0
    ensures ChargeLevel(hours, factor, start, n) == ChargeLevel(hours, factor, start, n - 1) + ChargePerSecond(hours) * factor
  {
    hide ChargePerSecond;
  }

  lemma ChargeGrows(hours: real, factor: real, start: real, m: nat, n: nat)
    requires hours > 0.0 && factor > 0.0 && m <= n
    ensures ChargeLevel(hours, factor, start, m) <= ChargeLevel(hours, factor, start, n)
  {
    ChargeStep(hours, factor);
    hide ChargePerSecond;
    MulOrder(m as real, n as real, ChargePerSecond(hours) * factor);
  }

  /** A level below the maximum, without the division. */
  lemma ChargeBelow(hours: real, factor: real, start: real, n: nat)
    requires hours > 0.0 && factor > 0.0
    ensures ChargeLevel(hours, factor, start, n) < MAX_LEVEL <==> StillCharging(hours, factor, start, n)
  {
    ChargeStep(hours, factor);
    hide ChargePerSecond;
    var c, t := ChargePerSecond(hours), hours * 3600.0;
    ProductsOrdered(n as real * (c * factor), MAX_LEVEL - start, t);
    assert n as real * (c * factor) * t == n as real * factor * (c * t);
    assert c * t == MAX_LEVEL;
  }

  lemma ChargeStep(hours: real, factor: real)
    requires hours > 0.0 && factor > 0.0
    ensures ChargePerSecond(hours) > 0.0 && ChargePerSecond(hours) * factor > 0.0
    ensures ChargePerSecond(hours) * (3600.0 * hours) == MAX_LEVEL
  {
  }

  lemma BoundReached(hours: real, factor: real, start: real, n: nat)
    requires hours > 0.0 && factor > 0.0 && start >= 0.0 && n as real * factor >= 3600.0 * hours
    ensures ChargeLevel(hours, factor, start, n) >= MAX_LEVEL
  {
    ChargeStep(hours, factor);
    hide ChargePerSecond;
    var c := ChargePerSecond(hours);
    MulOrder(3600.0 * hours, n as real * factor, c);
    assert n as real * (c * factor) == n as real * factor * c;
  }
}
