/** Ownership of native test processes (scripts/run-node-acceptance.py): which listed processes belong
    to the launched one, sample after sample, and which may outlive it. */
module Processes {
  import opened Results
  import opened Reachability

  const MAX_OBSERVED := 512

  datatype Pid = Pid(number: int)

  datatype Row = Row(parent: Pid, group: Pid, birth: string, executable: string)

  /** A `ps` sample, or the inventory of owned identities. */
  type Rows = map<Pid, Row>

  function Links(rows: Rows): (edges: Edges<Pid>)
    ensures forall p, q :: (p, q) in edges <==> q in rows && rows[q].parent == p
  {
    set q | q in rows :: (rows[q].parent, q)
  }

  /** Owned pids that are still the process they were when first seen. */
  function Alive(rows: Rows, owned: Rows): set<Pid> {
    set p | p in owned && p in rows && rows[p].birth == owned[p].birth
  }

  ghost function Family(rows: Rows, parent: Pid, owned: Rows): set<Pid> {
    Reachable(Links(rows), {parent} + Alive(rows, owned))
  }

  /** `setdefault` for every id in the sample. */
  function Added(owned: Rows, rows: Rows, ids: set<Pid>): Rows {
    owned + map p | p in ids && p in rows && p !in owned :: rows[p]
  }

  lemma AddedOneMore(owned: Rows, rows: Rows, ids: set<Pid>, p: Pid)
    requires p in rows && p !in ids
    ensures Added(owned, rows, ids + {p})
         == var sofar := Added(owned, rows, ids); if p in sofar then sofar else sofar[p := rows[p]]
  {
  }

  lemma AddedListed(owned: Rows, rows: Rows, ids: set<Pid>)
    ensures Added(owned, rows, ids * rows.Keys) == Added(owned, rows, ids)
  {
  }

  /** The inventory after one sample. */
  ghost function Observed(rows: Rows, parent: Pid, owned: Rows): Rows {
    Added(owned, rows, Family(rows, parent, owned))
  }

  class Inventory {
    const parent: Pid
    var owned: Rows

    constructor (parent: Pid)
      ensures this.parent == parent && owned == map[]
    {
      this.parent := parent;
      owned := map[];
    }

    /** `observe`; false stands for the bound on the inventory being exceeded. */
    method Observe(rows: Rows) returns (within: bool)
      modifies this
      ensures owned == Observed(rows, parent, old(owned))
      ensures within <==> |owned| <= MAX_OBSERVED
    {
      var selected := Grow(Links(rows), {parent} + Alive(rows, owned));
      Record(rows, selected * rows.Keys);
      AddedListed(old(owned), rows, selected);
      within := |owned| <= MAX_OBSERVED;
    }

    method Record(rows: Rows, ids: set<Pid>)
      requires ids <= rows.Keys
      modifies this
      ensures owned == Added(old(owned), rows, ids)
    {
      var todo := ids;
      ghost var done: set<Pid> := {};
      while todo != {}
        invariant todo !! done && done + todo == ids
        invariant owned == Added(old(owned), rows, done)
      {
        var p :| p in todo;
        AddedOneMore(old(owned), rows, done, p);
        if p !in owned {
          owned := owned[p := rows[p]];
        }
        todo, done := todo - {p}, done + {p};
      }
    }
  }

  /******* Sequences of samples *******/

  /** A sample and the pids it selected. */
  datatype Sample = Sample(rows: Rows, family: set<Pid>)

  /** The inventory after the first n samples. */
  function OwnedAfter(samples: seq<Sample>, n: nat): Rows
    requires n <= |samples|
  {
    if n == 0 then map[] else Added(OwnedAfter(samples, n - 1), samples[n - 1].rows, samples[n - 1].family)
  }

  /** The samples of one run: each selects the family of the launched process and of the identities
      owned before it. */
  ghost predicate Watched(parent: Pid, samples: seq<Sample>) {
    forall k | 0 <= k < |samples| ::
      samples[k].family == Family(samples[k].rows, parent, OwnedAfter(samples, k))
  }

  /** Watching one more sample is what Observe does. */
  lemma WatchedIsObserved(parent: Pid, samples: seq<Sample>, n: nat)
    requires Watched(parent, samples) && n < |samples|
    ensures OwnedAfter(samples, n + 1) == Observed(samples[n].rows, parent, OwnedAfter(samples, n))
  {
  }

  /** The inventory only grows, and never gives a pid another birth. */
  lemma {:induction false} OwnedKept(samples: seq<Sample>, m: nat, n: nat, p: Pid)
    requires m <= n <= |samples| && p in OwnedAfter(samples, m)
    ensures p in OwnedAfter(samples, n) && OwnedAfter(samples, n)[p] == OwnedAfter(samples, m)[p]
    decreases n
  {
    if m < n {
      OwnedKept(samples, m, n - 1, p);
    }
  }

  /** After a sample the inventory holds every listed process with a chain of parent links from the
      launched process or from an identity that is owned and still alive. */
  lemma FamilyOwned(parent: Pid, samples: seq<Sample>, n: nat, p: Pid)
    requires Watched(parent, samples) && n < |samples| && p in samples[n].rows
    requires Reaches(Links(samples[n].rows), {parent} + Alive(samples[n].rows, OwnedAfter(samples, n)), p)
    ensures p in OwnedAfter(samples, n + 1)
  {
    ReachableIff(Links(samples[n].rows), {parent} + Alive(samples[n].rows, OwnedAfter(samples, n)), p);
  }

  /** Not owned before the sample, and linked in it to the launched process or to an owned identity
      alive in it. */
  ghost predicate FirstSeen(parent: Pid, samples: seq<Sample>, k: nat, p: Pid)
    requires k < |samples|
  {
    && p !in OwnedAfter(samples, k) && p in samples[k].rows
    && Reaches(Links(samples[k].rows), {parent} + Alive(samples[k].rows, OwnedAfter(samples, k)), p)
  }

  /** And it holds nothing else: every owned identity is the row of the sample in which its pid first
      descended from the launched process or from an owned one. */
  lemma OwnedDescends(parent: Pid, samples: seq<Sample>, n: nat, p: Pid) returns (k: nat)
    requires Watched(parent, samples) && n <= |samples| && p in OwnedAfter(samples, n)
    ensures k < n && FirstSeen(parent, samples, k, p) && OwnedAfter(samples, n)[p] == samples[k].rows[p]
  {
    k := EntryOf(samples, n, p);
    NewlyOwned(parent, samples, k, p);
  }

  lemma {:induction false} EntryOf(samples: seq<Sample>, n: nat, p: Pid) returns (k: nat)
    requires n <= |samples| && p in OwnedAfter(samples, n)
    ensures k < n && p !in OwnedAfter(samples, k) && p in OwnedAfter(samples, k + 1)
    ensures OwnedAfter(samples, n)[p] == OwnedAfter(samples, k + 1)[p]
  {
    if p in OwnedAfter(samples, n - 1) {
      k := EntryOf(samples, n - 1, p);
    } else {
      k := n - 1;
    }
  }

  lemma NewlyOwned(parent: Pid, samples: seq<Sample>, k: nat, p: Pid)
    requires Watched(parent, samples) && k < |samples|
    requires p in OwnedAfter(samples, k + 1) && p !in OwnedAfter(samples, k)
    ensures FirstSeen(parent, samples, k, p) && OwnedAfter(samples, k + 1)[p] == samples[k].rows[p]
  {
    assert p in samples[k].family;
    ReachableIff(Links(samples[k].rows), {parent} + Alive(samples[k].rows, OwnedAfter(samples, k)), p);
  }

  /******* What is left at the end *******/

  /** `remaining`: live owned identities, and members of a group whose leader was owned. */
  function Remaining(rows: Rows, owned: Rows): set<Pid> {
    set p | p in rows && (p in Alive(rows, owned) || (rows[p].group in owned && owned[rows[p].group].group == rows[p].group))
  }

  /** `remaining_temporary`: without the identities admitted to persist. */
  function RemainingTemporary(rows: Rows, owned: Rows, persistent: Rows): set<Pid> {
    set p | p in Remaining(rows, owned) && (p !in persistent || rows[p].birth != persistent[p].birth)
  }

  datatype Fixture = Fixture(host: Pid, child: Pid, marked: bool)

  predicate SameProcess(rows: Rows, owned: Rows, p: Pid) {
    p in owned && p in rows && owned[p].birth != "" && rows[p].birth == owned[p].birth
      && rows[p].executable == owned[p].executable
  }

  /** The checks `persistent_session_owners` makes on the marked host and its child; `marked` stands for
      the agreement of the two marker files. */
  predicate Proven(rows: Rows, owned: Rows, f: Fixture) {
    && f.marked && f.host.number > 0 && f.child.number > 0 && f.host != f.child
    && SameProcess(rows, owned, f.host) && SameProcess(rows, owned, f.child)
    && rows[f.host].group == f.host && owned[f.host].group == f.host
    && rows[f.child].parent == f.host && owned[f.child].parent == f.host
  }

  method PersistentOwners(rows: Rows, owned: Rows, f: Fixture) returns (persistent: Option<Rows>)
    ensures persistent.Some? <==> Proven(rows, owned, f)
    ensures persistent.Some? ==>
      persistent.value == map p | p in owned && p in Reachable(Links(owned), {f.host}) :: owned[p]
  {
    if !Proven(rows, owned, f) { return None; }
    var selected := Grow(Links(owned), {f.host, f.child});
    ChildAddsNothing(Links(owned), f.host, f.child);
    GrownFrom(owned, f);
    return Some(map p | p in selected :: owned[p]);
  }

  lemma ChildAddsNothing(edges: Edges<Pid>, host: Pid, child: Pid)
    requires (host, child) in edges
    ensures Reachable(edges, {host, child}) == Reachable(edges, {host})
  {
    StartReachable(edges, {host});
    ReachableClosed(edges, {host});
    MoreReachesMore(edges, {host, child}, edges, {host});
    StartReachable(edges, {host, child});
    MoreReachesMore(edges, {host}, edges, {host, child});
  }

  lemma GrownFrom(owned: Rows, f: Fixture)
    requires f.host in owned
    ensures Reachable(Links(owned), {f.host}) <= owned.Keys
  {
    LeastClosed(Links(owned), {f.host}, owned.Keys);
  }

  /** The listed process is the owned one of its pid. */
  predicate Same(rows: Rows, owned: Rows, p: Pid) {
    p in rows && p in owned && rows[p].birth == owned[p].birth
  }

  /** The leader of the listed process's group was owned, as its own leader. */
  predicate LedByOwned(rows: Rows, owned: Rows, p: Pid) {
    p in rows && exists g :: g in owned && owned[g].group == g && rows[p].group == g
  }

  /** Nothing temporary remains exactly when every live owned identity, and every member of an owned
      group, is an admitted identity; so nothing born under an admitted pid later on is excused. */
  lemma NothingTemporary(rows: Rows, owned: Rows, f: Fixture, persistent: Rows)
    requires Proven(rows, owned, f)
    requires persistent == map p | p in owned && p in Reachable(Links(owned), {f.host}) :: owned[p]
    ensures RemainingTemporary(rows, owned, persistent) == {} <==>
      forall p | p in rows && (Same(rows, owned, p) || LedByOwned(rows, owned, p)) ::
        Same(rows, owned, p) && Reaches(Links(owned), {f.host}, p)
  {
    forall p | p in Remaining(rows, owned)
      ensures p in RemainingTemporary(rows, owned, persistent) <==>
        !(p in Alive(rows, owned) && Reaches(Links(owned), {f.host}, p))
    {
      ReachableIff(Links(owned), {f.host}, p);
      GrownFrom(owned, f);
    }
    assert RemainingTemporary(rows, owned, persistent) <= Remaining(rows, owned);
    if p :| p in RemainingTemporary(rows, owned, persistent) {
      assert p in Remaining(rows, owned);
    }
  }
}
