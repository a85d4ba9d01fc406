/** Reachability in a finite directed graph, and the loop that computes it by growing a set until
    nothing new appears (`closure`, `observe` and `persistent_session_owners` all run it). */
module Reachability {
  type Edges<T(==)> = set<(T, T)>

  /** A path of exactly n edges leads from `from` to v. */
  ghost predicate ReachesIn<T(!new)>(edges: Edges<T>, from: set<T>, v: T, n: nat) {
    if n == 0 then v in from else exists u :: (u, v) in edges && ReachesIn(edges, from, u, n - 1)
  }

  ghost predicate Reaches<T(!new)>(edges: Edges<T>, from: set<T>, v: T) {
    exists n: nat :: ReachesIn(edges, from, v, n)
  }

  function Ends<T(==)>(edges: Edges<T>): set<T> {
    set e | e in edges :: e.1
  }

  /** The vertices that `from` reaches; the bound only keeps the set finite (ReachableIff). */
  ghost function Reachable<T(!new)>(edges: Edges<T>, from: set<T>): set<T> {
    set v | v in from + Ends(edges) && Reaches(edges, from, v)
  }

  lemma ReachableIff<T(!new)>(edges: Edges<T>, from: set<T>, v: T)
    ensures v in Reachable(edges, from) <==> Reaches(edges, from, v)
  {
    if Reaches(edges, from, v) {
      var n: nat :| ReachesIn(edges, from, v, n);
      if n > 0 {
        var u :| (u, v) in edges && ReachesIn(edges, from, u, n - 1);
        assert (u, v).1 in Ends(edges);
      }
    }
  }

  ghost predicate Closed<T(!new)>(edges: Edges<T>, nodes: set<T>) {
    forall u, v | (u, v) in edges && u in nodes :: v in nodes
  }

  lemma StartReachable<T(!new)>(edges: Edges<T>, from: set<T>)
    ensures from <= Reachable(edges, from)
  {
    forall v | v in from
      ensures v in Reachable(edges, from)
    {
      assert ReachesIn(edges, from, v, 0);
    }
  }

  lemma ReachableClosed<T(!new)>(edges: Edges<T>, from: set<T>)
    ensures Closed(edges, Reachable(edges, from))
  {
    forall u, v | (u, v) in edges && u in Reachable(edges, from)
      ensures v in Reachable(edges, from)
    {
      var n: nat :| ReachesIn(edges, from, u, n);
      assert ReachesIn(edges, from, v, n + 1);
      ReachableIff(edges, from, v);
    }
  }

  lemma {:induction false} ClosedHolds<T(!new)>(edges: Edges<T>, from: set<T>, nodes: set<T>, v: T, n: nat)
    requires from <= nodes && Closed(edges, nodes) && ReachesIn(edges, from, v, n)
    ensures v in nodes
    decreases n
  {
    if n > 0 {
      var u :| (u, v) in edges && ReachesIn(edges, from, u, n - 1);
      ClosedHolds(edges, from, nodes, u, n - 1);
    }
  }

  /** A closed set holding the start holds everything reachable. */
  lemma LeastClosed<T(!new)>(edges: Edges<T>, from: set<T>, nodes: set<T>)
    requires from <= nodes && Closed(edges, nodes)
    ensures Reachable(edges, from) <= nodes
  {
    forall v | v in Reachable(edges, from)
      ensures v in nodes
    {
      var n: nat :| ReachesIn(edges, from, v, n);
      ClosedHolds(edges, from, nodes, v, n);
    }
  }

  lemma MoreReachesMore<T(!new)>(edges: Edges<T>, from: set<T>, edges': Edges<T>, from': set<T>)
    requires edges <= edges' && from <= Reachable(edges', from')
    ensures Reachable(edges, from) <= Reachable(edges', from')
  {
    ReachableClosed(edges', from');
    LeastClosed(edges, from, Reachable(edges', from'));
  }

  function Inside<T(==,!new)>(edges: Edges<T>, nodes: set<T>): (kept: Edges<T>)
    ensures forall u, v :: (u, v) in kept <==> (u, v) in edges && u in nodes && v in nodes
  {
    set e | e in edges && e.0 in nodes && e.1 in nodes
  }

  lemma ClosedUnderAll<T(!new)>(edges: Edges<T>, nodes: set<T>, some: set<T>)
    requires Closed(edges, nodes) && some <= nodes && Closed(Inside(edges, nodes), some)
    ensures Closed(edges, some)
  {
    forall u, v | (u, v) in edges && u in some
      ensures v in some
    {
      assert (u, v) in Inside(edges, nodes);
    }
  }

  /** Keeping only the edges inside a closed set changes nothing for a start inside it. */
  lemma RestrictKeeps<T(!new)>(edges: Edges<T>, nodes: set<T>, from: set<T>)
    requires Closed(edges, nodes) && from <= nodes
    ensures Reachable(Inside(edges, nodes), from) == Reachable(edges, from)
  {
    var kept := Inside(edges, nodes);
    StartReachable(edges, from);
    MoreReachesMore(kept, from, edges, from);
    LeastClosed(edges, from, nodes);
    StartReachable(kept, from);
    ReachableClosed(kept, from);
    ClosedUnderAll(edges, nodes, Reachable(kept, from));
    LeastClosed(edges, from, Reachable(kept, from));
  }

  function Heads<T(==,!new)>(edges: Edges<T>, from: set<T>): (heads: set<T>)
    ensures heads <= Ends(edges)
    ensures forall v :: v in heads <==> exists u :: u in from && (u, v) in edges
  {
    var heads := set e | e in edges && e.0 in from :: e.1;
    assert forall u, v | (u, v) in edges && u in from :: (u, v).1 in heads;
    assert forall v | v in heads :: exists e :: e in edges && e.0 in from && e.1 == v;
    heads
  }

  /** Grow until every successor is already there. */
  method Grow<T(!new, ==)>(edges: Edges<T>, from: set<T>) returns (selected: set<T>)
    ensures selected == Reachable(edges, from)
  {
    selected := from;
    StartReachable(edges, from);
    ReachableClosed(edges, from);
    while true
      invariant from <= selected <= from + Ends(edges)
      invariant selected <= Reachable(edges, from)
      decreases from + Ends(edges) - selected
    {
      var found := Heads(edges, selected);
      if found <= selected {
        LeastClosed(edges, from, selected);
        return;
      }
      selected := selected + found;
    }
  }
}
