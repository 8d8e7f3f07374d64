// The power graph as the engine's data source presents it.

module Topology {
  import opened Events

  /** children and parents are the answers of get_affected_assets and get_parent_assets,
      mains the answer of get_mains_powered_assets. */
  datatype Topology = Topology(
    parents: map<Key, seq<Key>>,
    children: map<Key, seq<Key>>,
    mains: seq<Key>)
  {
    predicate Has(n: Key) {
      n in parents && n in children
    }

    ghost predicate Valid() {
      && parents.Keys == children.Keys
      && (forall n, i :: n in parents && 0 <= i < |parents[n]| ==> Has(parents[n][i]))
      && (forall n, i :: n in children && 0 <= i < |children[n]| ==> Has(children[n][i]))
      && (forall i :: 0 <= i < |mains| ==> Has(mains[i]))
      && (forall n :: n in parents ==> Distinct(parents[n]))
    }

    /** An asset that powers something has at most one parent of its own. */
    ghost predicate NoLoadFork() {
      forall n, i :: n in parents && 0 <= i < |parents[n]| && Has(parents[n][i]) ==>
        |parents[parents[n][i]]| <= 1
    }

    /** rank grows strictly along every power edge, so the graph has no cycle. */
    ghost predicate Ranked(rank: map<Key, nat>, top: nat) {
      && Valid()
      && rank.Keys == parents.Keys
      && (forall n :: n in rank ==> rank[n] <= top)
      && (forall n, i :: n in parents && 0 <= i < |parents[n]| ==> rank[parents[n][i]] < rank[n])
      && (forall n, i :: n in children && 0 <= i < |children[n]| ==> rank[n] < rank[children[n][i]])
    }
  }
}
