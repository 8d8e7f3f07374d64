// RAID states of the storcli emulator: from error counts of physical drives to the state of
// virtual drives and of the controller.

module Storcli {

  /** A physical drive; space is the virtual drive it belongs to. */
  datatype Drive = Drive(
    space: nat, mediaErrors: nat, otherErrors: nat, predictiveErrors: nat,
    offline: bool, timeStamp: real, rebuildTime: real)
  {
    predicate Out(now: real) {
      offline || now - timeStamp < rebuildTime
    }
  }

  /** The properties a virtual drive is judged by. */
  datatype VdCounters = VdCounters(pdOffline: int, pdRebuilding: int, media: int, other: int, predictive: int) {
    function Entries(): seq<Entry> {
      [Entry("numPdOffline", pdOffline), Entry("numPdRebuilding", pdRebuilding), Entry("mediaErrorCount", media),
       Entry("otherErrorCount", other), Entry("predictiveErrorCount", predictive)]
    }
  }

  /** The properties a controller is judged by. */
  datatype ControllerCounters = ControllerCounters(vdDegraded: int, correctable: int, uncorrectable: int) {
    function Entries(): seq<Entry> {
      [Entry("vdDgd", vdDegraded), Entry("memoryCorrectableErrors", correctable),
       Entry("memoryUncorrectableErrors", uncorrectable)]
    }
  }

  datatype Entry = Entry(prop: string, value: int)

  /** A state of the configuration file and its thresholds; a threshold of -1 is never met. */
  datatype Rule = Rule(name: string, thresholds: map<string, int>)

  predicate Covers(config: seq<Rule>, state: seq<Entry>) {
    forall i, j :: 0 <= i < |config| && 0 <= j < |state| ==> state[j].prop in config[i].thresholds
  }

  // ----- Specification -----

  /** One of the first n properties meets its threshold. */
  predicate Hits(rule: Rule, state: seq<Entry>, n: nat)
    requires n <= |state| && forall j :: 0 <= j < |state| ==> state[j].prop in rule.thresholds
  {
    exists j :: 0 <= j < n && state[j].value >= rule.thresholds[state[j].prop] && rule.thresholds[state[j].prop] != -1
  }

  /** The last of the first n states that is hit, -1 when none is: the optimal one. */
  function LastHit(config: seq<Rule>, state: seq<Entry>, optimal: string, n: nat): (k: int)
    requires n <= |config| && Covers(config, state)
    ensures -1 <= k < n
  {
    if n == 0 then -1
    else if config[n - 1].name != optimal && Hits(config[n - 1], state, |state|) then n - 1
    else LastHit(config, state, optimal, n - 1)
  }

  function StateName(config: seq<Rule>, k: int, optimal: string): string
    requires k < |config|
  {
    if k < 0 then optimal else config[k].name
  }

  /** The counters after all drives have been added to them. */
  function Counted(base: VdCounters, drives: seq<Drive>, now: real): VdCounters {
    if drives == [] then base
    else
      var d := drives[|drives| - 1];
      var c := Counted(base, drives[..|drives| - 1], now);
      c.(media := c.media + d.mediaErrors, other := c.other + d.otherErrors,
         predictive := c.predictive + d.predictiveErrors,
         pdOffline := c.pdOffline + if d.Out(now) then 1 else 0)
  }

  /** The configuration and the counters its optimal states start from. */
  datatype Config = Config(vd: seq<Rule>, vdBase: VdCounters, controller: seq<Rule>, vdDegradedBase: int) {
    ghost predicate Valid() {
      && (forall c: VdCounters :: Covers(vd, c.Entries()))
      && (forall c: ControllerCounters :: Covers(controller, c.Entries()))
    }
  }

  const VD_OPTIMAL := "Optl"
  const CONTROLLER_OPTIMAL := "Optimal"

  /** The position of a virtual drive's state in the configuration. */
  ghost function VdState(cfg: Config, drives: seq<Drive>, now: real): int
    requires cfg.Valid()
  {
    LastHit(cfg.vd, Counted(cfg.vdBase, drives, now).Entries(), VD_OPTIMAL, |cfg.vd|)
  }

  /** The controller page judges every virtual drive by all drives of the controller. */
  ghost function Degraded(cfg: Config, vds: nat, drives: seq<Drive>, now: real): int
    requires cfg.Valid()
  {
    if vds == 0 then cfg.vdDegradedBase
    else
      Degraded(cfg, vds - 1, drives, now)
      + if StateName(cfg.vd, VdState(cfg, drives, now), VD_OPTIMAL) != VD_OPTIMAL then 1 else 0
  }

  ghost function ControllerState(cfg: Config, correctable: int, uncorrectable: int, vds: nat, drives: seq<Drive>, now: real): int
    requires cfg.Valid()
  {
    var c := ControllerCounters(Degraded(cfg, vds, drives, now), correctable, uncorrectable);
    LastHit(cfg.controller, c.Entries(), CONTROLLER_OPTIMAL, |cfg.controller|)
  }

  // ----- The emulator's loops -----

  method CheckVdState(base: VdCounters, drives: seq<Drive>, now: real) returns (c: VdCounters)
    ensures c == Counted(base, drives, now)
  {
    c := base;
    for i := 0 to |drives|
      invariant c == Counted(base, drives[..i], now)
    {
      assert drives[..i + 1][..i] == drives[..i];
      var d := drives[i];
      c := c.(media := c.media + d.mediaErrors);
      c := c.(other := c.other + d.otherErrors);
      c := c.(predictive := c.predictive + d.predictiveErrors);
      if d.offline || now - d.timeStamp < d.rebuildTime {
        c := c.(pdOffline := c.pdOffline + 1);
      }
    }
    assert drives[..|drives|] == drives;
  }

  method GetStateFromConfig(config: seq<Rule>, state: seq<Entry>, optimal: string) returns (name: string)
    requires Covers(config, state)
    ensures name == StateName(config, LastHit(config, state, optimal, |config|), optimal)
  {
    name := optimal;
    for i := 0 to |config|
      invariant name == StateName(config, LastHit(config, state, optimal, i), optimal)
    {
      if config[i].name == optimal {
        continue;
      }
      ghost var before := name;
      for j := 0 to |state|
        invariant name == if Hits(config[i], state, j) then config[i].name else before
      {
        var threshold := config[i].thresholds[state[j].prop];
        if state[j].value >= threshold && threshold != -1 {
          name := config[i].name;
        }
      }
    }
  }

  method ControllerStatus(cfg: Config, correctable: int, uncorrectable: int, vds: nat, drives: seq<Drive>, now: real)
    returns (status: string)
    requires cfg.Valid()
    ensures status == StateName(cfg.controller, ControllerState(cfg, correctable, uncorrectable, vds, drives, now), CONTROLLER_OPTIMAL)
  {
    var c := ControllerCounters(cfg.vdDegradedBase, correctable, uncorrectable);
    for i := 0 to vds
      invariant c == ControllerCounters(Degraded(cfg, i, drives, now), correctable, uncorrectable)
    {
      var vd := CheckVdState(cfg.vdBase, drives, now);
      var state := GetStateFromConfig(cfg.vd, vd.Entries(), VD_OPTIMAL);
      if state != VD_OPTIMAL {
        c := c.(vdDegraded := c.vdDegraded + 1);
      }
    }
    status := GetStateFromConfig(cfg.controller, c.Entries(), CONTROLLER_OPTIMAL);
  }

  // ----- Monotonicity -----

  predicate NoLess(s: seq<Entry>, t: seq<Entry>) {
    |s| == |t| && forall j :: 0 <= j < |s| ==> s[j].prop == t[j].prop && s[j].value <= t[j].value
  }

  /** Raising properties never moves the state to an earlier one. */
  lemma {:induction false} LastHitIsMonotone(config: seq<Rule>, s: seq<Entry>, t: seq<Entry>, optimal: string, n: nat)
    requires n <= |config| && Covers(config, s) && Covers(config, t) && NoLess(s, t)
    ensures LastHit(config, s, optimal, n) <= LastHit(config, t, optimal, n)
  {
    if n > 0 {
      LastHitIsMonotone(config, s, t, optimal, n - 1);
      var rule := config[n - 1];
      if Hits(rule, s, |s|) {
        var j :| 0 <= j < |s| && s[j].value >= rule.thresholds[s[j].prop] && rule.thresholds[s[j].prop] != -1;
        assert t[j].value >= rule.thresholds[t[j].prop];
        assert Hits(rule, t, |t|);
      }
    }
  }

  /** Every drive has at least the errors it had, and is out if it was. */
  predicate Worse(a: seq<Drive>, b: seq<Drive>, now: real) {
    |a| == |b| && forall i :: 0 <= i < |a| ==>
      && a[i].mediaErrors <= b[i].mediaErrors && a[i].otherErrors <= b[i].otherErrors
      && a[i].predictiveErrors <= b[i].predictiveErrors && (a[i].Out(now) ==> b[i].Out(now))
  }

  predicate AtMost(a: VdCounters, b: VdCounters) {
    a.pdOffline <= b.pdOffline && a.pdRebuilding <= b.pdRebuilding && a.media <= b.media && a.other <= b.other && a.predictive <= b.predictive
  }

  lemma {:induction false} CountedIsMonotone(base: VdCounters, a: seq<Drive>, b: seq<Drive>, now: real)
    requires Worse(a, b, now)
    ensures AtMost(Counted(base, a, now), Counted(base, b, now))
    decreases |a|
  {
    if a != [] {
      CountedIsMonotone(base, a[..|a| - 1], b[..|b| - 1], now);
    }
  }

  lemma VdStateFollowsCounters(cfg: Config, a: seq<Drive>, x: real, b: seq<Drive>, y: real)
    requires cfg.Valid() && AtMost(Counted(cfg.vdBase, a, x), Counted(cfg.vdBase, b, y))
    ensures VdState(cfg, a, x) <= VdState(cfg, b, y)
  {
    LastHitIsMonotone(cfg.vd, Counted(cfg.vdBase, a, x).Entries(), Counted(cfg.vdBase, b, y).Entries(), VD_OPTIMAL, |cfg.vd|);
  }

  lemma {:induction false} NamedByHit(config: seq<Rule>, state: seq<Entry>, optimal: string, n: nat)
    requires n <= |config| && Covers(config, state)
    ensures StateName(config, LastHit(config, state, optimal, n), optimal) != optimal <==> LastHit(config, state, optimal, n) >= 0
  {
    if n > 0 {
      NamedByHit(config, state, optimal, n - 1);
    }
  }

  /** On the controller page all virtual drives are degraded or none is. */
  lemma {:induction false} AllDegradedOrNone(cfg: Config, vds: nat, drives: seq<Drive>, now: real)
    requires cfg.Valid()
    ensures Degraded(cfg, vds, drives, now) == cfg.vdDegradedBase + if VdState(cfg, drives, now) >= 0 then vds else 0
  {
    if vds > 0 {
      AllDegradedOrNone(cfg, vds - 1, drives, now);
      NamedByHit(cfg.vd, Counted(cfg.vdBase, drives, now).Entries(), VD_OPTIMAL, |cfg.vd|);
    }
  }

  /** More errors or more drives out, more memory errors: neither a virtual drive nor the controller
      ever moves to an earlier state of the configuration. */
  lemma WorseDrivesNeverImproveStates(cfg: Config, a: seq<Drive>, b: seq<Drive>, now: real, vds: nat, m1: int, u1: int, m2: int, u2: int)
    requires cfg.Valid() && Worse(a, b, now) && m1 <= m2 && u1 <= u2
    ensures VdState(cfg, a, now) <= VdState(cfg, b, now)
    ensures ControllerState(cfg, m1, u1, vds, a, now) <= ControllerState(cfg, m2, u2, vds, b, now)
  {
    CountedIsMonotone(cfg.vdBase, a, b, now);
    VdStateFollowsCounters(cfg, a, now, b, now);
    AllDegradedOrNone(cfg, vds, a, now);
    AllDegradedOrNone(cfg, vds, b, now);
    var c := ControllerCounters(Degraded(cfg, vds, a, now), m1, u1);
    var d := ControllerCounters(Degraded(cfg, vds, b, now), m2, u2);
    LastHitIsMonotone(cfg.controller, c.Entries(), d.Entries(), CONTROLLER_OPTIMAL, |cfg.controller|);
  }

  // ----- Time -----

  /** A drive that is put back at time t counts as out for exactly its rebuild time. */
  lemma RebuildTakesItsTime(d: Drive, t: real, now: real)
    ensures d.(offline := false, timeStamp := t).Out(now) <==> now < t + d.rebuildTime
    ensures d.(offline := true, timeStamp := t).Out(now)
  {
  }

  /** As time goes by and nothing else happens, no virtual drive and no controller gets worse. */
  lemma TimeNeverHurts(cfg: Config, drives: seq<Drive>, before: real, now: real, vds: nat, correctable: int, uncorrectable: int)
    requires cfg.Valid() && before <= now
    ensures VdState(cfg, drives, now) <= VdState(cfg, drives, before)
    ensures ControllerState(cfg, correctable, uncorrectable, vds, drives, now)
         <= ControllerState(cfg, correctable, uncorrectable, vds, drives, before)
  {
    MonotoneInTime(cfg.vdBase, drives, before, now);
    VdStateFollowsCounters(cfg, drives, now, drives, before);
    AllDegradedOrNone(cfg, vds, drives, now);
    AllDegradedOrNone(cfg, vds, drives, before);
    var c := ControllerCounters(Degraded(cfg, vds, drives, now), correctable, uncorrectable);
    var d := ControllerCounters(Degraded(cfg, vds, drives, before), correctable, uncorrectable);
    LastHitIsMonotone(cfg.controller, c.Entries(), d.Entries(), CONTROLLER_OPTIMAL, |cfg.controller|);
  }

  lemma {:induction false} MonotoneInTime(base: VdCounters, drives: seq<Drive>, before: real, now: real)
    requires before <= now
    ensures AtMost(Counted(base, drives, now), Counted(base, drives, before))
  {
    if drives != [] {
      MonotoneInTime(base, drives[..|drives| - 1], before, now);
    }
  }

  /** The state is the last one of the configuration that is not the optimal one and has a property at or
      above a threshold that is in force. */
  lemma {:induction false} LastHitIsLast(config: seq<Rule>, state: seq<Entry>, optimal: string, n: nat, i: nat)
    requires i < n <= |config| && Covers(config, state)
    ensures i == LastHit(config, state, optimal, n) <==>
      && config[i].name != optimal && Hits(config[i], state, |state|)
      && forall l :: i < l < n ==> config[l].name == optimal || !Hits(config[l], state, |state|)
  {
    if i < n - 1 {
      LastHitIsLast(config, state, optimal, n - 1, i);
    }
  }

  // ----- Two pages -----

  /** The drives of one virtual drive, which its own page judges it by. */
  function Owned(drives: seq<Drive>, space: nat): seq<Drive> {
    if drives == [] then []
    else
      var rest := Owned(drives[..|drives| - 1], space);
      if drives[|drives| - 1].space == space then rest + [drives[|drives| - 1]] else rest
  }

  lemma {:induction false} OwnedCountsAreSmaller(base: VdCounters, drives: seq<Drive>, space: nat, now: real)
    ensures AtMost(Counted(base, Owned(drives, space), now), Counted(base, drives, now))
  {
    if drives != [] {
      var before := drives[..|drives| - 1];
      OwnedCountsAreSmaller(base, before, space, now);
      var own := Owned(drives, space);
      if drives[|drives| - 1].space == space {
        assert own[..|own| - 1] == Owned(before, space);
      }
    }
  }

  /** The controller page never shows a virtual drive in an earlier state than the drive's own page. */
  lemma ControllerPageIsNoBetter(cfg: Config, drives: seq<Drive>, space: nat, now: real)
    requires cfg.Valid()
    ensures VdState(cfg, Owned(drives, space), now) <= VdState(cfg, drives, now)
  {
    OwnedCountsAreSmaller(cfg.vdBase, drives, space, now);
    VdStateFollowsCounters(cfg, Owned(drives, space), now, drives, now);
  }

  // ----- The shipped thresholds -----

  function VdThresholds(pdOffline: int, pdRebuilding: int, media: int, other: int, predictive: int): map<string, int> {
    map["numPdOffline" := pdOffline, "numPdRebuilding" := pdRebuilding, "mediaErrorCount" := media,
        "otherErrorCount" := other, "predictiveErrorCount" := predictive]
  }

  function ControllerThresholds(vdDegraded: int, correctable: int, uncorrectable: int): map<string, int> {
    map["vdDgd" := vdDegraded, "memoryCorrectableErrors" := correctable, "memoryUncorrectableErrors" := uncorrectable]
  }

  const SHIPPED := Config(
    [Rule("Optl", VdThresholds(0, -1, -1, -1, -1)), Rule("Pdgd", VdThresholds(1, 1, -1, -1, -1)), Rule("Dgrd", VdThresholds(2, 1, -1, -1, 10))],
    VdCounters(0, -1, -1, -1, -1),
    [Rule("Optimal", ControllerThresholds(0, -1, -1)), Rule("Needs Attention", ControllerThresholds(1, -1, -1))],
    0)

  function OutCount(drives: seq<Drive>, now: real): nat {
    if drives == [] then 0 else OutCount(drives[..|drives| - 1], now) + if drives[|drives| - 1].Out(now) then 1 else 0
  }

  function PredictiveErrors(drives: seq<Drive>): nat {
    if drives == [] then 0 else PredictiveErrors(drives[..|drives| - 1]) + drives[|drives| - 1].predictiveErrors
  }

  function MediaErrors(drives: seq<Drive>): nat {
    if drives == [] then 0 else MediaErrors(drives[..|drives| - 1]) + drives[|drives| - 1].mediaErrors
  }

  function OtherErrors(drives: seq<Drive>): nat {
    if drives == [] then 0 else OtherErrors(drives[..|drives| - 1]) + drives[|drives| - 1].otherErrors
  }

  /** Every counter ends at its start plus the total of the drives; rebuilding drives are not counted. */
  lemma {:induction false} CountedTotals(base: VdCounters, drives: seq<Drive>, now: real)
    ensures Counted(base, drives, now)
         == VdCounters(base.pdOffline + OutCount(drives, now), base.pdRebuilding, base.media + MediaErrors(drives),
                       base.other + OtherErrors(drives), base.predictive + PredictiveErrors(drives))
  {
    if drives != [] {
      CountedTotals(base, drives[..|drives| - 1], now);
    }
  }

  predicate Meets(value: int, threshold: int) {
    value >= threshold && threshold != -1
  }

  lemma HitsByName(rule: Rule, c: VdCounters)
    requires rule.thresholds.Keys == VdThresholds(0, 0, 0, 0, 0).Keys
    ensures Hits(rule, c.Entries(), 5) <==>
      Meets(c.pdOffline, rule.thresholds["numPdOffline"]) || Meets(c.pdRebuilding, rule.thresholds["numPdRebuilding"])
      || Meets(c.media, rule.thresholds["mediaErrorCount"]) || Meets(c.other, rule.thresholds["otherErrorCount"])
      || Meets(c.predictive, rule.thresholds["predictiveErrorCount"])
  {
    var s := c.Entries();
    assert s[0] == Entry("numPdOffline", c.pdOffline) && s[1] == Entry("numPdRebuilding", c.pdRebuilding);
    assert s[2] == Entry("mediaErrorCount", c.media) && s[3] == Entry("otherErrorCount", c.other);
    assert s[4] == Entry("predictiveErrorCount", c.predictive);
  }

  lemma ControllerHitsByName(rule: Rule, c: ControllerCounters)
    requires rule.thresholds.Keys == ControllerThresholds(0, 0, 0).Keys
    ensures Hits(rule, c.Entries(), 3) <==>
      Meets(c.vdDegraded, rule.thresholds["vdDgd"]) || Meets(c.correctable, rule.thresholds["memoryCorrectableErrors"])
      || Meets(c.uncorrectable, rule.thresholds["memoryUncorrectableErrors"])
  {
    var s := c.Entries();
    assert s[0] == Entry("vdDgd", c.vdDegraded) && s[1] == Entry("memoryCorrectableErrors", c.correctable);
    assert s[2] == Entry("memoryUncorrectableErrors", c.uncorrectable);
  }

  lemma ShippedIsValid()
    ensures SHIPPED.Valid()
  {
  }

  lemma ShippedHits(c: VdCounters)
    requires c.pdRebuilding == -1
    ensures SHIPPED.Valid() && |SHIPPED.vd| == 3
    ensures Hits(SHIPPED.vd[1], c.Entries(), 5) <==> c.pdOffline >= 1
    ensures Hits(SHIPPED.vd[2], c.Entries(), 5) <==> c.pdOffline >= 2 || c.predictive >= 10
  {
    ShippedIsValid();
    HitsByName(SHIPPED.vd[1], c);
    HitsByName(SHIPPED.vd[2], c);
    hide Hits;
  }

  lemma ShippedVdState(c: VdCounters)
    requires c.pdRebuilding == -1
    ensures SHIPPED.Valid()
    ensures LastHit(SHIPPED.vd, c.Entries(), VD_OPTIMAL, 3)
         == if c.pdOffline >= 2 || c.predictive >= 10 then 2 else if c.pdOffline >= 1 then 1 else -1
  {
    ShippedHits(c);
    hide Hits, Covers;
    assert LastHit(SHIPPED.vd, c.Entries(), VD_OPTIMAL, 1) == -1 by {
      assert LastHit(SHIPPED.vd, c.Entries(), VD_OPTIMAL, 0) == -1;
    }
  }

  /** With the shipped thresholds a virtual drive is degraded from two drives out or from eleven
      predictive errors on: the counters start at -1, so the threshold of ten is met by eleven. */
  lemma ShippedStates(drives: seq<Drive>, now: real, vds: nat)
    ensures SHIPPED.Valid()
    ensures VdState(SHIPPED, drives, now)
         == if OutCount(drives, now) >= 2 || PredictiveErrors(drives) >= 11 then 2 else if OutCount(drives, now) == 1 then 1 else -1
    ensures ControllerState(SHIPPED, 0, 0, vds, drives, now)
         == if vds > 0 && (OutCount(drives, now) >= 1 || PredictiveErrors(drives) >= 11) then 1 else -1
  {
    CountedTotals(SHIPPED.vdBase, drives, now);
    ShippedVdState(Counted(SHIPPED.vdBase, drives, now));
    AllDegradedOrNone(SHIPPED, vds, drives, now);
    var c := ControllerCounters(Degraded(SHIPPED, vds, drives, now), 0, 0);
    ControllerHitsByName(SHIPPED.controller[1], c);
    assert LastHit(SHIPPED.controller, c.Entries(), CONTROLLER_OPTIMAL, 1) == -1 by {
      assert LastHit(SHIPPED.controller, c.Entries(), CONTROLLER_OPTIMAL, 0) == -1;
    }
  }
}
