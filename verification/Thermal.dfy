// Thermal steps: how sensors and the room approach their limits.

module Thermal {

  /** A thermal relationship of a target sensor. */
  datatype Rule = Rule(heats: bool, pauseAt: int, onDown: bool)

  // ----- Specification -----

  /** The limit in force: cooling stops at room temperature. */
  function Limit(rule: Rule, ambient: int): int {
    if rule.heats || rule.pauseAt > ambient then rule.pauseAt else ambient
  }

  /** The comparison and the arithmetic of a rule. */
  predicate Before(up: bool, value: int, limit: int) {
    if up then value < limit else value > limit
  }

  function Moved(up: bool, value: int, step: int): int {
    if up then value + step else value - step
  }

  /** One turn: a step that does not reach the limit, the limit itself, or no change. */
  function Turn(up: bool, value: int, step: int, limit: int): int {
    if Before(up, Moved(up, value, step), limit) then Moved(up, value, step)
    else if Before(up, value, limit) then limit
    else value
  }

  /** The relationship acts while its source is off (a down event) or on. */
  predicate Active(rule: Rule, sourceValue: int) {
    if rule.onDown then sourceValue == 0 else sourceValue != 0
  }

  /** One pass of a sensor thread over its target. */
  datatype Pass = Pass(rule: Rule, step: int, sourceValue: int)

  function AfterPass(value: int, p: Pass, ambient: int): int {
    if Active(p.rule, p.sourceValue) then Turn(p.rule.heats, value, p.step, Limit(p.rule, ambient)) else value
  }

  function AfterPasses(value: int, passes: seq<Pass>, ambient: int): int
    decreases |passes|
  {
    if passes == [] then value else AfterPasses(AfterPass(value, passes[0], ambient), passes[1..], ambient)
  }

  /** n turns of one rule. */
  function AfterTurns(up: bool, value: int, step: int, limit: int, n: nat): int {
    if n == 0 then value else Turn(up, AfterTurns(up, value, step, limit, n - 1), step, limit)
  }

  // ----- The loops -----

  method TargetSensor(value: int, p: Pass, ambient: int) returns (r: int)
    ensures r == AfterPass(value, p, ambient)
  {
    r := value;
    var pauseAt := ambient;
    if p.rule.heats || p.rule.pauseAt > ambient {
      pauseAt := p.rule.pauseAt;
    }
    var next := if p.rule.heats then value + p.step else value - p.step;
    if Active(p.rule, p.sourceValue) {
      var needsUpdate := if p.rule.heats then next < pauseAt else next > pauseAt;
      if !needsUpdate && (if p.rule.heats then value < pauseAt else value > pauseAt) {
        needsUpdate := true;
        next := pauseAt;
      }
      if needsUpdate {
        r := next;
      }
    }
  }

  /** The turns among the first n in which the room is in the condition the thread waits for. */
  function Matching(env: seq<bool>, n: nat): (k: nat)
    requires n <= |env|
    ensures k <= n
  {
    if n == 0 then 0 else Matching(env, n - 1) + if env[n - 1] then 1 else 0
  }

  /** _keep_changing_temp until it is stopped; env is the room's condition, turn by turn. */
  method KeepChangingTemp(up: bool, ambient: int, degrees: int, pauseAt: int, env: seq<bool>) returns (temp: int)
    ensures temp == AfterTurns(up, ambient, degrees, pauseAt, Matching(env, |env|))
  {
    temp := ambient;
    for i := 0 to |env|
      invariant temp == AfterTurns(up, ambient, degrees, pauseAt, Matching(env, i))
    {
      if !env[i] {
        continue;
      }
      var next := if up then temp + degrees else temp - degrees;
      var needsUpdate := Before(up, next, pauseAt);
      if !needsUpdate && Before(up, temp, pauseAt) {
        next := pauseAt;
        needsUpdate := true;
      }
      if needsUpdate {
        temp := next;
      }
    }
  }

  // ----- The envelope -----

  /** No heating goes on above high; cooling stops at its own limit or at room temperature, whichever it
      gets to first, so one of the two bounds it. */
  predicate Bounds(passes: seq<Pass>, ambient: int, low: int, high: int) {
    forall i :: 0 <= i < |passes| ==>
      && passes[i].step >= 0
      && if passes[i].rule.heats then passes[i].rule.pauseAt <= high else low <= passes[i].rule.pauseAt || low <= ambient
  }

  /** However heating and cooling passes on one target interleave, its value stays between the
      lowest cooling limit and the highest heating limit once it is there. */
  lemma {:induction false} StaysInEnvelope(value: int, passes: seq<Pass>, ambient: int, low: int, high: int)
    requires low <= value <= high && Bounds(passes, ambient, low, high)
    ensures low <= AfterPasses(value, passes, ambient) <= high
    decreases |passes|
  {
    if passes != [] {
      StaysInEnvelope(AfterPass(value, passes[0], ambient), passes[1..], ambient, low, high);
    }
  }

  /** A relationship moves its target exactly while its source is as its event says, off for a down event
      and on otherwise, and the target has not got to the limit; and then towards it. */
  lemma PassActsExactly(value: int, p: Pass, ambient: int)
    requires p.step > 0
    ensures var limit := if p.rule.heats then p.rule.pauseAt else if p.rule.pauseAt > ambient then p.rule.pauseAt else ambient;
            var r := AfterPass(value, p, ambient);
            && (r != value <==> (p.rule.onDown <==> p.sourceValue == 0) && if p.rule.heats then value < limit else value > limit)
            && (r != value ==> if p.rule.heats then value < r <= limit && r - value <= p.step else limit <= r < value && value - r <= p.step)
  {
  }

  // ----- Reaching the limit -----

  function Distance(up: bool, value: int, limit: int): int {
    if up then limit - value else value - limit
  }

  /** After n turns the distance has shrunk by n steps, or is used up. */
  lemma {:induction false} DistanceAfter(up: bool, value: int, step: int, limit: int, n: nat)
    requires step > 0 && Distance(up, value, limit) >= 0
    ensures Distance(up, AfterTurns(up, value, step, limit, n), limit)
         == if n * step <= Distance(up, value, limit) then Distance(up, value, limit) - n * step else 0
  {
    if n > 0 {
      DistanceAfter(up, value, step, limit, n - 1);
      assert n * step == (n - 1) * step + step;
    }
  }

  function CeilDiv(a: nat, b: nat): nat
    requires b > 0
  {
    (a + b - 1) / b
  }

  lemma CeilDivIsLeast(a: nat, b: nat, n: nat)
    requires b > 0
    ensures n * b >= a <==> n >= CeilDiv(a, b)
  {
    var q := CeilDiv(a, b);
    assert a + b - 1 == q * b + (a + b - 1) % b;
    if n >= q {
      Monotone(q, n, b);
    } else {
      Monotone(n, q - 1, b);
      assert (q - 1) * b == q * b - b;
    }
  }

  lemma Monotone(m: int, n: int, b: nat)
    requires m <= n
    ensures m * b <= n * b
  {
  }

  /** A single rule with a positive step is at its limit from turn ceil(distance / step) on, and not
      before. */
  lemma ReachesLimitExactly(up: bool, value: int, step: int, limit: int, n: nat)
    requires step > 0 && Distance(up, value, limit) >= 0
    ensures AfterTurns(up, value, step, limit, n) == limit <==> n >= CeilDiv(Distance(up, value, limit), step)
  {
    DistanceAfter(up, value, step, limit, n);
    CeilDivIsLeast(Distance(up, value, limit), step, n);
  }
}
