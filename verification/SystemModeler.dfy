// The system modeler: edits of the power graph, and what every sequence of edits keeps.

module SystemModeler {
  import opened Events
  import T = Topology

  /** Labels that decide whether an asset can be linked. Lamps are static assets, servers with a
      BMC are servers. */
  datatype Kind = Outlet | Pdu | Ups | Server | Psu | Static

  datatype Node = Node(kind: Kind, component: bool)

  /** A POWERED_BY edge, from the powered asset to its source. */
  datatype Edge = Edge(child: Key, parent: Key)

  /** A HAS_COMPONENT edge. */
  datatype Part = Part(owner: Key, part: Key)

  datatype Graph = Graph(nodes: map<Key, Node>, powered: set<Edge>, parts: set<Part>)

  const EMPTY := Graph(map[], {}, {})

  // ----- Specification on values -----

  function Shift(i: nat): (s: nat)
    ensures s > i && s >= 10
  {
    if i < 10 then 10 else 10 * Shift(i / 10)
  }

  /** The key of a component: the digits of the owner's key followed by those of its number. */
  function ComponentKey(key: nat, i: nat): Key {
    key * Shift(i) + i
  }

  function ComponentKeys(key: nat, n: nat): set<Key> {
    set i | 1 <= i <= n :: ComponentKey(key, i)
  }

  datatype Edit =
    | CreateOutlet(key: nat)
    | CreateStatic(key: nat)
    | CreateHub(key: nat, ups: bool, outlets: nat)
    | CreateServer(key: nat, psus: nat)
    | Link(source: Key, dest: Key)
    | Unlink(source: Key, dest: Key)
    | Delete(asset: Key)

  /** A created asset on its own. */
  function Added(g: Graph, key: Key, node: Node): Graph {
    g.(nodes := g.nodes[key := node])
  }

  function ComponentNodes(key: nat, n: nat, kind: Kind): map<Key, Node> {
    map c | c in ComponentKeys(key, n) :: Node(kind, true)
  }

  /** A PDU or UPS with the outlets it powers. */
  function HubAdded(g: Graph, key: nat, ups: bool, n: nat): Graph {
    Graph(
      g.nodes[key := Node(if ups then Ups else Pdu, false)] + ComponentNodes(key, n, Outlet),
      g.powered + set c | c in ComponentKeys(key, n) :: Edge(c, key),
      g.parts + set c | c in ComponentKeys(key, n) :: Part(key, c))
  }

  /** A server with the supplies that power it. */
  function ServerAdded(g: Graph, key: nat, n: nat): Graph {
    Graph(
      g.nodes[key := Node(Server, false)] + ComponentNodes(key, n, Psu),
      g.powered + set c | c in ComponentKeys(key, n) :: Edge(key, c),
      g.parts + set c | c in ComponentKeys(key, n) :: Part(key, c))
  }

  predicate PowersSomething(g: Graph, n: Key) {
    exists e :: e in g.powered && e.parent == n
  }

  predicate IsPowered(g: Graph, n: Key) {
    exists e :: e in g.powered && e.child == n
  }

  /** What link_assets reports. */
  datatype Verdict = Accepted | AlreadyPowers | AlreadyPowered | OwnComponent | InvalidConfiguration

  /** The labels the last query of link_assets asks for. */
  predicate LabelsAllow(g: Graph, source: Key, dest: Key) {
    && source in g.nodes && g.nodes[source].kind !in {Pdu, Ups, Server}
    && dest in g.nodes && g.nodes[dest].kind != Server && (!g.nodes[dest].component || g.nodes[dest].kind == Psu)
  }

  function LinkVerdict(g: Graph, source: Key, dest: Key): Verdict {
    if PowersSomething(g, source) then AlreadyPowers
    else if IsPowered(g, dest) then AlreadyPowered
    else if Part(dest, source) in g.parts then OwnComponent
    else if !LabelsAllow(g, source, dest) then InvalidConfiguration
    else Accepted
  }

  predicate Linkable(g: Graph, source: Key, dest: Key) {
    LinkVerdict(g, source, dest) == Accepted
  }

  function Linked(g: Graph, source: Key, dest: Key): Graph {
    if Linkable(g, source, dest) then g.(powered := g.powered + {Edge(dest, source)}) else g
  }

  /** delete_asset takes the asset, its components and every edge at any of them. */
  function Doomed(g: Graph, key: Key): set<Key> {
    if key in g.nodes then {key} + set p | p in g.parts && p.owner == key :: p.part else {}
  }

  function Deleted(g: Graph, key: Key): Graph {
    var gone := Doomed(g, key);
    Graph(
      g.nodes - gone,
      set e | e in g.powered && e.child !in gone && e.parent !in gone,
      set p | p in g.parts && p.owner !in gone && p.part !in gone)
  }

  function Edited(g: Graph, e: Edit): Graph {
    match e
    case CreateOutlet(key) => Added(g, key, Node(Outlet, false))
    case CreateStatic(key) => Added(g, key, Node(Static, false))
    case CreateHub(key, ups, n) => HubAdded(g, key, ups, n)
    case CreateServer(key, n) => ServerAdded(g, key, n)
    case Link(source, dest) => Linked(g, source, dest)
    case Unlink(source, dest) => g.(powered := g.powered - {Edge(dest, source)})
    case Delete(asset) => Deleted(g, asset)
  }

  /** The keys a create brings in are its caller's to choose, and must be unique. */
  predicate Fresh(g: Graph, e: Edit) {
    match e
    case CreateOutlet(key) => key !in g.nodes
    case CreateStatic(key) => key !in g.nodes
    case CreateHub(key, _, n) => ({key} + ComponentKeys(key, n)) !! g.nodes.Keys
    case CreateServer(key, n) => ({key} + ComponentKeys(key, n)) !! g.nodes.Keys
    case _ => true
  }

  // ----- Component keys -----

  lemma {:induction false} ShiftGrows(i: nat, j: nat)
    requires i <= j
    ensures Shift(i) <= Shift(j)
  {
    if i >= 10 {
      ShiftGrows(i / 10, j / 10);
    }
  }

  /** Within one asset components have different keys, and none has the asset's own unless that is 0. */
  lemma ComponentKeysDiffer(key: nat, i: nat, j: nat)
    requires 1 <= i < j
    ensures key <= ComponentKey(key, i) < ComponentKey(key, j) && key != ComponentKey(key, i)
  {
    ShiftGrows(i, j);
    TimesGrows(key, Shift(i), Shift(j));
    TimesGrows(key, 1, Shift(i));
  }

  lemma TimesGrows(k: nat, a: nat, b: nat)
    requires a <= b
    ensures k * a <= k * b
  {
  }

  lemma {:induction false} ShiftIsMultiple(i: nat, j: nat) returns (q: nat)
    requires Shift(i) <= Shift(j)
    ensures Shift(j) == q * Shift(i)
  {
    if i < 10 {
      q := if j < 10 then 1 else Shift(j / 10);
    } else {
      q := ShiftIsMultiple(i / 10, j / 10);
    }
  }

  lemma DivisionIsUnique(q: int, r: int, d: nat)
    requires 0 <= r < d
    ensures (q * d + r) / d == q && (q * d + r) % d == r
  {
    var x := q * d + r;
    if x / d < q {
      TimesOrdered(x / d + 1, q, d);
    } else if x / d > q {
      TimesOrdered(q + 1, x / d, d);
    }
  }

  lemma TimesOrdered(a: int, b: int, d: nat)
    requires a <= b
    ensures a * d <= b * d
  {
  }

  /** Numbers with a low part below d agree exactly when both parts do. */
  lemma PartsAgree(k1: nat, i: nat, k2: nat, j: nat, d: nat, q: nat)
    requires i < d
    ensures k1 * d + i == k2 * (q * d) + j <==> i == j % d && k1 == k2 * q + j / d
  {
    assert k2 * (q * d) + j == (k2 * q + j / d) * d + j % d;
    DivisionIsUnique(k1, i, d);
    DivisionIsUnique(k2 * q + j / d, j % d, d);
  }

  /** Two assets ask for the same component key exactly when the longer number ends in the digits of
      the shorter one and its own owner's key, followed by the digits before them, is the other
      owner's key: freshness is not automatic. */
  lemma ComponentKeysCollide(k1: nat, i: nat, k2: nat, j: nat)
    requires Shift(i) <= Shift(j)
    ensures ComponentKey(k1, i) == ComponentKey(k2, j)
      <==> i == j % Shift(i) && k1 == k2 * (Shift(j) / Shift(i)) + j / Shift(i)
  {
    var q := ShiftIsMultiple(i, j);
    DivisionIsUnique(q, 0, Shift(i));
    PartsAgree(k1, i, k2, j, Shift(i), q);
  }

  // ----- The modeler -----

  lemma OneMoreComponent(key: nat, n: nat)
    ensures ComponentKeys(key, 0) == {}
    ensures ComponentKeys(key, n + 1) == ComponentKeys(key, n) + {ComponentKey(key, n + 1)}
  {
  }

  /** A graph with one more component between `child` and `parent`. */
  function WithComponent(g: Graph, owner: Key, c: Key, kind: Kind, e: Edge): Graph {
    Graph(g.nodes[c := Node(kind, true)], g.powered + {e}, g.parts + {Part(owner, c)})
  }

  lemma HubGrows(g: Graph, key: nat, ups: bool, n: nat)
    ensures HubAdded(g, key, ups, 0) == Added(g, key, Node(if ups then Ups else Pdu, false))
    ensures var c := ComponentKey(key, n + 1);
            HubAdded(g, key, ups, n + 1) == WithComponent(HubAdded(g, key, ups, n), key, c, Outlet, Edge(c, key))
  {
    OneMoreComponent(key, n);
    hide ComponentKeys, ComponentKey;
  }

  lemma ServerGrows(g: Graph, key: nat, n: nat)
    ensures ServerAdded(g, key, 0) == Added(g, key, Node(Server, false))
    ensures var c := ComponentKey(key, n + 1);
            ServerAdded(g, key, n + 1) == WithComponent(ServerAdded(g, key, n), key, c, Psu, Edge(key, c))
  {
    OneMoreComponent(key, n);
    hide ComponentKeys, ComponentKey;
  }

  class Modeler {
    var nodes: map<Key, Node>
    var powered: set<Edge>
    var parts: set<Part>

    function View(): Graph
      reads this
    {
      Graph(nodes, powered, parts)
    }

    constructor ()
      ensures View() == EMPTY
    {
      nodes, powered, parts := map[], {}, {};
    }

    method CreateAsset(key: nat, kind: Kind)
      requires key !in nodes
      modifies this
      ensures View() == Added(old(View()), key, Node(kind, false))
    {
      nodes := nodes[key := Node(kind, false)];
    }

    /** create_pdu and create_ups: the asset, then its outlets one by one. */
    method CreateHub(key: nat, ups: bool, outlets: nat)
      requires Fresh(View(), Edit.CreateHub(key, ups, outlets))
      modifies this
      ensures View() == HubAdded(old(View()), key, ups, outlets)
    {
      ghost var g := View();
      nodes := nodes[key := Node(if ups then Ups else Pdu, false)];
      HubGrows(g, key, ups, 0);
      for i := 0 to outlets
        invariant View() == HubAdded(g, key, ups, i)
      {
        HubGrows(g, key, ups, i);
        hide HubAdded;
        var out := ComponentKey(key, i + 1);
        nodes := nodes[out := Node(Outlet, true)];
        parts := parts + {Part(key, out)};
        powered := powered + {Edge(out, key)};
      }
    }

    method AddPsu(key: nat, i: nat)
      modifies this
      ensures var c := ComponentKey(key, i);
              View() == WithComponent(old(View()), key, c, Psu, Edge(key, c))
    {
      var psu := ComponentKey(key, i);
      nodes := nodes[psu := Node(Psu, true)];
      parts := parts + {Part(key, psu)};
      powered := powered + {Edge(key, psu)};
    }

    method CreateServer(key: nat, psus: nat)
      requires Fresh(View(), Edit.CreateServer(key, psus))
      modifies this
      ensures View() == ServerAdded(old(View()), key, psus)
    {
      ghost var g := View();
      nodes := nodes[key := Node(Server, false)];
      ServerGrows(g, key, 0);
      for i := 0 to psus
        invariant View() == ServerAdded(g, key, i)
      {
        ServerGrows(g, key, i);
        hide ServerAdded;
        AddPsu(key, i + 1);
      }
    }

    method LinkAssets(source: Key, dest: Key) returns (v: Verdict)
      modifies this
      ensures v == LinkVerdict(old(View()), source, dest)
      ensures View() == Linked(old(View()), source, dest)
    {
      if exists e :: e in powered && e.parent == source {
        return AlreadyPowers;
      }
      if exists e :: e in powered && e.child == dest {
        return AlreadyPowered;
      }
      if Part(dest, source) in parts {
        return OwnComponent;
      }
      if !LabelsAllow(View(), source, dest) {
        return InvalidConfiguration;
      }
      powered := powered + {Edge(dest, source)};
      return Accepted;
    }

    method RemoveLink(source: Key, dest: Key)
      modifies this
      ensures View() == Edited(old(View()), Unlink(source, dest))
    {
      powered := powered - {Edge(dest, source)};
    }

    method DeleteAsset(key: Key)
      modifies this
      ensures View() == Deleted(old(View()), key)
    {
      if key in nodes {
        var gone := {key} + set p | p in parts && p.owner == key :: p.part;
        nodes := nodes - gone;
        powered := set e | e in powered && e.child !in gone && e.parent !in gone;
        parts := set p | p in parts && p.owner !in gone && p.part !in gone;
      }
    }
  }

  // ----- What the edits are for -----

  /** A link is accepted exactly between a source that powers nothing yet and can power one asset, and an
      asset without a source that takes one, unless the source is a part of it; a refusal gives a
      reason that holds. */
  lemma LinkIsAcceptedExactly(g: Graph, source: Key, dest: Key)
    requires source in g.nodes && dest in g.nodes
    ensures var s, d := g.nodes[source], g.nodes[dest];
            LinkVerdict(g, source, dest) == Accepted <==>
              && (forall e :: e in g.powered ==> e.parent != source && e.child != dest)
              && Part(dest, source) !in g.parts
              && (s.kind == Outlet || s.kind == Psu || s.kind == Static)
              && (d.kind == Psu || (!d.component && (d.kind == Outlet || d.kind == Pdu || d.kind == Ups || d.kind == Static)))
    ensures match LinkVerdict(g, source, dest)
            case AlreadyPowers => exists e :: e in g.powered && e.parent == source
            case AlreadyPowered => exists e :: e in g.powered && e.child == dest
            case OwnComponent => Part(dest, source) in g.parts
            case _ => true
  {
  }

  lemma DeleteUndoesLone(g: Graph, key: nat, node: Node)
    requires WellShaped(g) && key !in g.nodes
    ensures Deleted(Added(g, key, node), key) == g
  {
    var r := Added(g, key, node);
    assert Doomed(r, key) == {key};
    assert Deleted(r, key).nodes == g.nodes && Deleted(r, key).powered == g.powered && Deleted(r, key).parts == g.parts;
  }

  lemma DoomedParts(g: Graph, r: Graph, key: nat, keys: set<Key>)
    requires WellShaped(g) && key !in g.nodes && key in r.nodes && r.parts == g.parts + set c | c in keys :: Part(key, c)
    ensures Doomed(r, key) == {key} + keys
  {
    forall c | c in keys ensures c in Doomed(r, key)
    {
      assert Part(key, c) in r.parts;
    }
  }

  lemma DeleteUndoesHub(g: Graph, key: nat, ups: bool, n: nat)
    requires WellShaped(g) && Fresh(g, CreateHub(key, ups, n))
    ensures Deleted(HubAdded(g, key, ups, n), key) == g
  {
    var r := HubAdded(g, key, ups, n);
    HubKeyDiffers(key, n);
    DoomedParts(g, r, key, ComponentKeys(key, n));
    hide ComponentKeys, Doomed;
    assert Deleted(r, key).nodes == g.nodes && Deleted(r, key).powered == g.powered && Deleted(r, key).parts == g.parts;
  }

  lemma DeleteUndoesServer(g: Graph, key: nat, n: nat)
    requires WellShaped(g) && Fresh(g, CreateServer(key, n))
    ensures Deleted(ServerAdded(g, key, n), key) == g
  {
    var r := ServerAdded(g, key, n);
    HubKeyDiffers(key, n);
    DoomedParts(g, r, key, ComponentKeys(key, n));
    hide ComponentKeys, Doomed;
    assert Deleted(r, key).nodes == g.nodes && Deleted(r, key).powered == g.powered && Deleted(r, key).parts == g.parts;
  }

  /** Deleting what was just created, with everything it brought in, leaves the model as it was. */
  lemma DeleteUndoesCreate(g: Graph, e: Edit)
    requires WellShaped(g) && Fresh(g, e) && (e.CreateOutlet? || e.CreateStatic? || e.CreateHub? || e.CreateServer?)
    ensures Deleted(Edited(g, e), e.key) == g
  {
    hide WellShaped, HubAdded, ServerAdded, Added, Deleted;
    match e
    case CreateOutlet(key) => DeleteUndoesLone(g, key, Node(Outlet, false));
    case CreateStatic(key) => DeleteUndoesLone(g, key, Node(Static, false));
    case CreateHub(key, ups, n) => DeleteUndoesHub(g, key, ups, n);
    case CreateServer(key, n) => DeleteUndoesServer(g, key, n);
  }

  /** Removing a link that was just accepted leaves the model as it was, and the other way round. */
  lemma UnlinkUndoesLink(g: Graph, source: Key, dest: Key)
    ensures Linkable(g, source, dest) ==>
              Edge(dest, source) in Edited(g, Link(source, dest)).powered && Edited(Edited(g, Link(source, dest)), Unlink(source, dest)) == g
  {
    if Linkable(g, source, dest) {
      assert Edge(dest, source) !in g.powered;
      assert g.powered + {Edge(dest, source)} - {Edge(dest, source)} == g.powered;
    }
  }

  /** A free outlet in the wall and a lamp nothing powers. */
  ghost predicate Spare(g: Graph, outlet: Key, lamp: Key) {
    && outlet in g.nodes && lamp in g.nodes
    && g.nodes[outlet] == Node(Outlet, false) && !PowersSomething(g, outlet)
    && g.nodes[lamp] == Node(Static, false) && !IsPowered(g, lamp)
  }

  /** A new PDU or UPS is powered through itself and powers through its outlets only. */
  lemma NewHubIsUsable(g: Graph, key: nat, ups: bool, n: nat, c: Key, outlet: Key, lamp: Key)
    requires WellShaped(g) && Fresh(g, CreateHub(key, ups, n)) && Spare(g, outlet, lamp) && c in ComponentKeys(key, n)
    ensures var r := HubAdded(g, key, ups, n);
            && r.nodes[key].kind == (if ups then Ups else Pdu) && r.nodes[c].kind == Outlet
            && Linkable(r, outlet, key) && Linkable(r, c, lamp) && !Linkable(r, outlet, c) && !Linkable(r, key, lamp)
  {
    HubKeyDiffers(key, n);
    hide ComponentKeys;
    assert Edge(c, key) in HubAdded(g, key, ups, n).powered;
  }

  /** A new server is powered through its supplies only. */
  lemma NewServerIsUsable(g: Graph, key: nat, n: nat, c: Key, outlet: Key, lamp: Key)
    requires WellShaped(g) && Fresh(g, CreateServer(key, n)) && Spare(g, outlet, lamp) && c in ComponentKeys(key, n)
    ensures var r := ServerAdded(g, key, n);
            Linkable(r, outlet, c) && !Linkable(r, outlet, key) && !Linkable(r, key, lamp)
  {
    HubKeyDiffers(key, n);
    hide ComponentKeys;
    assert Edge(key, c) in ServerAdded(g, key, n).powered;
  }

  // ----- The shape of every graph -----

  /** Only servers have several sources, servers power nothing, and only PDUs and UPSes power
      several assets. */
  ghost predicate WellShaped(g: Graph) {
    && (forall e :: e in g.powered ==> e.child in g.nodes && e.parent in g.nodes)
    && (forall p :: p in g.parts ==> p.owner in g.nodes && p.part in g.nodes)
    && (forall e :: e in g.powered ==> g.nodes[e.parent].kind != Server)
    && (forall e, f :: e in g.powered && f in g.powered && e.child == f.child && e != f ==> g.nodes[e.child].kind == Server)
    && (forall e, f :: e in g.powered && f in g.powered && e.parent == f.parent && e != f ==> g.nodes[e.parent].kind in {Pdu, Ups})
  }

  lemma HubKeepsShape(g: Graph, key: nat, ups: bool, n: nat)
    requires WellShaped(g) && Fresh(g, CreateHub(key, ups, n))
    ensures WellShaped(HubAdded(g, key, ups, n))
  {
    HubKeyDiffers(key, n);
    hide ComponentKeys;
  }

  lemma ServerKeepsShape(g: Graph, key: nat, n: nat)
    requires WellShaped(g) && Fresh(g, CreateServer(key, n))
    ensures WellShaped(ServerAdded(g, key, n))
  {
    HubKeyDiffers(key, n);
    hide ComponentKeys;
  }

  lemma EditKeepsShape(g: Graph, e: Edit)
    requires WellShaped(g) && Fresh(g, e)
    ensures WellShaped(Edited(g, e))
  {
    hide HubAdded, ServerAdded, ComponentKeys;
    match e
    case CreateHub(key, ups, n) =>
      HubKeepsShape(g, key, ups, n);
    case CreateServer(key, n) =>
      ServerKeepsShape(g, key, n);
    case _ =>
  }

  lemma HubKeyDiffers(key: nat, n: nat)
    ensures forall c :: c in ComponentKeys(key, n) ==> c != key
  {
    forall c | c in ComponentKeys(key, n) ensures c != key {
      var i :| 1 <= i <= n && c == ComponentKey(key, i);
      ComponentKeysDiffer(key, i, i + 1);
    }
  }

  ghost predicate AllFresh(g: Graph, edits: seq<Edit>)
    decreases |edits|
  {
    edits == [] || (Fresh(g, edits[0]) && AllFresh(Edited(g, edits[0]), edits[1..]))
  }

  ghost function Exec(g: Graph, edits: seq<Edit>): Graph
    decreases |edits|
  {
    if edits == [] then g else Exec(Edited(g, edits[0]), edits[1..])
  }

  /** Every sequence of creates with fresh keys, links, unlinks and deletes keeps the shape. */
  lemma {:induction false} EveryModelIsWellShaped(g: Graph, edits: seq<Edit>)
    requires WellShaped(g) && AllFresh(g, edits)
    ensures WellShaped(Exec(g, edits))
    decreases |edits|
  {
    if edits != [] {
      EditKeepsShape(g, edits[0]);
      EveryModelIsWellShaped(Edited(g, edits[0]), edits[1..]);
    }
  }

  // ----- Loops -----

  /** Power flows from the first key of a walk to the last, edge by edge. */
  ghost predicate Walk(g: Graph, p: seq<Key>) {
    |p| > 0 && forall i :: 0 <= i < |p| - 1 ==> Edge(p[i + 1], p[i]) in g.powered
  }

  ghost predicate Reaches(g: Graph, a: Key, b: Key) {
    exists p :: Walk(g, p) && p[0] == a && p[|p| - 1] == b
  }

  /** The ranks grow along every edge: no power loop. */
  ghost predicate RankedBy(g: Graph, rank: map<Key, nat>, top: nat) {
    && rank.Keys == g.nodes.Keys
    && (forall n :: n in rank ==> rank[n] <= top)
    && (forall e :: e in g.powered ==> e.child in rank && e.parent in rank && rank[e.parent] < rank[e.child])
  }

  ghost predicate LoopFree(g: Graph) {
    exists rank, top :: RankedBy(g, rank, top)
  }

  lemma {:induction false} WalkClimbs(g: Graph, rank: map<Key, nat>, top: nat, p: seq<Key>)
    requires RankedBy(g, rank, top) && Walk(g, p) && p[0] in rank
    ensures p[|p| - 1] in rank && rank[p[0]] + |p| - 1 <= rank[p[|p| - 1]]
  {
    if |p| > 1 {
      var q := p[..|p| - 1];
      WalkClimbs(g, rank, top, q);
      assert Edge(p[|p| - 1], q[|q| - 1]) in g.powered;
    }
  }

  /** Everything below `dest` moves above `source`. */
  ghost function Lifted(g: Graph, rank: map<Key, nat>, source: Key, dest: Key): map<Key, nat>
    requires source in rank
  {
    map n | n in rank :: rank[n] + if Reaches(g, dest, n) then rank[source] + 1 else 0
  }

  lemma ReachesFurther(g: Graph, a: Key, e: Edge)
    requires e in g.powered && Reaches(g, a, e.parent)
    ensures Reaches(g, a, e.child)
  {
    var p :| Walk(g, p) && p[0] == a && p[|p| - 1] == e.parent;
    var q := p + [e.child];
    assert Walk(g, q) && q[0] == a && q[|q| - 1] == e.child;
  }

  /** An accepted link keeps the model free of loops exactly when its source is not already
      powered, at any distance, by its destination. */
  lemma LinkKeepsLoopFree(g: Graph, source: Key, dest: Key)
    requires WellShaped(g) && LoopFree(g) && Linkable(g, source, dest)
    ensures LoopFree(Linked(g, source, dest)) <==> !Reaches(g, dest, source)
  {
    var h := Linked(g, source, dest);
    if Reaches(g, dest, source) {
      var p :| Walk(g, p) && p[0] == dest && p[|p| - 1] == source;
      assert Walk(h, p);
      forall rank, top | RankedBy(h, rank, top) ensures false {
        assert Edge(dest, source) in h.powered;
        WalkClimbs(h, rank, top, p);
      }
    } else {
      var rank: map<Key, nat>, top: nat :| RankedBy(g, rank, top);
      var lifted := Lifted(g, rank, source, dest);
      assert Reaches(g, dest, dest) by {
        assert Walk(g, [dest]);
      }
      forall e | e in h.powered
        ensures e.child in lifted && e.parent in lifted && lifted[e.parent] < lifted[e.child]
      {
        if e in g.powered && Reaches(g, dest, e.parent) {
          ReachesFurther(g, dest, e);
        }
      }
      assert RankedBy(h, lifted, 2 * top + 1);
    }
  }

  /** No check stops an outlet from being linked to itself. */
  lemma SelfLinkIsAccepted()
    ensures var g := Exec(EMPTY, [CreateOutlet(1)]);
            Linkable(g, 1, 1) && LoopFree(g) && !LoopFree(Exec(EMPTY, [CreateOutlet(1), Link(1, 1)]))
  {
    var create, link := CreateOutlet(1), Link(1, 1);
    var g := Edited(EMPTY, create);
    assert [create][1..] == [] && [create, link][1..] == [link] && [link][1..] == [];
    assert Exec(g, []) == g && Exec(EMPTY, [create]) == g;
    assert Exec(Linked(g, 1, 1), []) == Linked(g, 1, 1) && Exec(g, [link]) == Linked(g, 1, 1);
    assert RankedBy(g, map[1 := 0], 0);
    assert Walk(g, [1]) && Reaches(g, 1, 1);
    LinkKeepsLoopFree(g, 1, 1);
  }

  ghost function ConstantRank(keys: set<Key>, r: nat): map<Key, nat> {
    map c | c in keys :: r
  }

  lemma HubKeepsRanks(g: Graph, key: nat, ups: bool, n: nat, rank: map<Key, nat>, top: nat)
    requires WellShaped(g) && RankedBy(g, rank, top) && Fresh(g, CreateHub(key, ups, n))
    ensures RankedBy(HubAdded(g, key, ups, n), rank[key := 0] + ConstantRank(ComponentKeys(key, n), 1), top + 1)
    ensures LoopFree(HubAdded(g, key, ups, n))
  {
    HubKeyDiffers(key, n);
    var keys := ComponentKeys(key, n);
    hide ComponentKeys;
  }

  lemma ServerKeepsRanks(g: Graph, key: nat, n: nat, rank: map<Key, nat>, top: nat)
    requires WellShaped(g) && RankedBy(g, rank, top) && Fresh(g, CreateServer(key, n))
    ensures RankedBy(ServerAdded(g, key, n), rank[key := 1] + ConstantRank(ComponentKeys(key, n), 0), top + 1)
    ensures LoopFree(ServerAdded(g, key, n))
  {
    HubKeyDiffers(key, n);
    var keys := ComponentKeys(key, n);
    hide ComponentKeys;
  }

  lemma DeleteKeepsRanks(g: Graph, key: Key, rank: map<Key, nat>, top: nat)
    requires RankedBy(g, rank, top)
    ensures RankedBy(Deleted(g, key), rank - Doomed(g, key), top)
    ensures LoopFree(Deleted(g, key))
  {
    assert RankedBy(Deleted(g, key), rank - Doomed(g, key), top);
  }

  lemma AddedKeepsRanks(g: Graph, key: Key, node: Node, rank: map<Key, nat>, top: nat)
    requires WellShaped(g) && RankedBy(g, rank, top) && key !in g.nodes
    ensures RankedBy(Added(g, key, node), rank[key := 0], top)
    ensures LoopFree(Added(g, key, node))
  {
  }

  lemma UnlinkKeepsRanks(g: Graph, source: Key, dest: Key, rank: map<Key, nat>, top: nat)
    requires RankedBy(g, rank, top)
    ensures RankedBy(Edited(g, Unlink(source, dest)), rank, top)
    ensures LoopFree(Edited(g, Unlink(source, dest)))
  {
    assert RankedBy(Edited(g, Unlink(source, dest)), rank, top);
  }

  lemma OtherEditsKeepLoopFree(g: Graph, e: Edit)
    requires WellShaped(g) && LoopFree(g) && Fresh(g, e) && !e.Link?
    ensures LoopFree(Edited(g, e))
  {
    var rank: map<Key, nat>, top: nat :| RankedBy(g, rank, top);
    hide WellShaped, LoopFree, RankedBy, Added, HubAdded, ServerAdded, Deleted, Doomed, ComponentKeys, ConstantRank, Linked;
    match e
    case CreateOutlet(key) =>
      AddedKeepsRanks(g, key, Node(Outlet, false), rank, top);
    case CreateStatic(key) =>
      AddedKeepsRanks(g, key, Node(Static, false), rank, top);
    case CreateHub(key, ups, n) =>
      HubKeepsRanks(g, key, ups, n, rank, top);
    case CreateServer(key, n) =>
      ServerKeepsRanks(g, key, n, rank, top);
    case Unlink(source, dest) =>
      UnlinkKeepsRanks(g, source, dest, rank, top);
    case Delete(asset) =>
      DeleteKeepsRanks(g, asset, rank, top);
  }

  /** No link of the sequence closes a loop. */
  ghost predicate NoLoopLinked(g: Graph, edits: seq<Edit>)
    decreases |edits|
  {
    edits != [] ==>
      && (edits[0].Link? && Linkable(g, edits[0].source, edits[0].dest) ==> !Reaches(g, edits[0].dest, edits[0].source))
      && NoLoopLinked(Edited(g, edits[0]), edits[1..])
  }

  lemma {:induction false} CarefulModelsAreLoopFree(g: Graph, edits: seq<Edit>)
    requires WellShaped(g) && LoopFree(g) && AllFresh(g, edits) && NoLoopLinked(g, edits)
    ensures LoopFree(Exec(g, edits))
    decreases |edits|
  {
    if edits != [] {
      var e := edits[0];
      EditKeepsShape(g, e);
      if !e.Link? {
        OtherEditsKeepLoopFree(g, e);
      } else if Linkable(g, e.source, e.dest) {
        LinkKeepsLoopFree(g, e.source, e.dest);
      }
      CarefulModelsAreLoopFree(Edited(g, e), edits[1..]);
    }
  }

  // ----- What the engine sees -----

  /** The engine's data source answers from the graph, each neighbour once, in any order. */
  ghost predicate Presents(t: T.Topology, g: Graph) {
    && t.parents.Keys == t.children.Keys == g.nodes.Keys
    && (forall n :: n in g.nodes ==> Distinct(t.parents[n]) && Distinct(t.children[n]))
    && (forall n, p :: n in g.nodes ==> (p in t.parents[n] <==> Edge(n, p) in g.powered))
    && (forall n, c :: n in g.nodes ==> (c in t.children[n] <==> Edge(c, n) in g.powered))
    && (forall n :: n in t.mains <==> n in g.nodes && g.nodes[n].kind == Outlet && !IsPowered(g, n))
  }

  lemma SeveralSourcesMeanServer(t: T.Topology, g: Graph, n: Key)
    requires WellShaped(g) && Presents(t, g) && n in g.nodes
    ensures |t.parents[n]| <= 1 || g.nodes[n].kind == Server
  {
    if |t.parents[n]| > 1 {
      var a, b := t.parents[n][0], t.parents[n][1];
      assert Edge(n, a) in g.powered && Edge(n, b) in g.powered;
    }
  }

  /** The degree limits the iteration relies on: an asset with several sources powers nothing, so a
      load event never forks. */
  lemma PresentedModelHasNoLoadFork(t: T.Topology, g: Graph)
    requires WellShaped(g) && Presents(t, g)
    ensures t.Valid() && t.NoLoadFork()
  {
    forall n, i | n in t.parents && 0 <= i < |t.parents[n]| ensures t.Has(t.parents[n][i]) {
      assert Edge(n, t.parents[n][i]) in g.powered;
    }
    forall n, i | n in t.children && 0 <= i < |t.children[n]| ensures t.Has(t.children[n][i]) {
      assert Edge(t.children[n][i], n) in g.powered;
    }
    forall n, i | n in t.parents && 0 <= i < |t.parents[n]| && t.Has(t.parents[n][i])
      ensures |t.parents[t.parents[n][i]]| <= 1
    {
      var p := t.parents[n][i];
      assert Edge(n, p) in g.powered && g.nodes[p].kind != Server;
      SeveralSourcesMeanServer(t, g, p);
    }
  }

  lemma PresentedModelIsRanked(t: T.Topology, g: Graph)
    requires WellShaped(g) && Presents(t, g) && LoopFree(g)
    ensures exists rank, top :: t.Ranked(rank, top)
  {
    PresentedModelHasNoLoadFork(t, g);
    var rank: map<Key, nat>, top: nat :| RankedBy(g, rank, top);
    forall n, i | n in t.parents && 0 <= i < |t.parents[n]| ensures rank[t.parents[n][i]] < rank[n] {
      assert Edge(n, t.parents[n][i]) in g.powered;
    }
    forall n, i | n in t.children && 0 <= i < |t.children[n]| ensures rank[n] < rank[t.children[n][i]] {
      assert Edge(t.children[n][i], n) in g.powered;
    }
    assert t.Ranked(rank, top);
  }
}
