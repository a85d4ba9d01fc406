/** Keeping a bounded number of directories (prune in scripts/khor_lab/artifacts.py). */
module Retention {
  import Sets

  /** A directory and when it last changed. */
  datatype Entry = Entry(name: string, mtime: int)

  function Names(listing: seq<Entry>): set<string> {
    set e | e in listing :: e.name
  }

  predicate DistinctNames(listing: seq<Entry>) {
    forall i, j | 0 <= i < j < |listing| :: listing[i].name != listing[j].name
  }

  function Insert(e: Entry, sorted: seq<Entry>): seq<Entry> {
    if sorted == [] || e.mtime >= sorted[0].mtime then [e] + sorted else [sorted[0]] + Insert(e, sorted[1..])
  }

  /** Newest first, equally old ones in the order listed. */
  function ByAge(listing: seq<Entry>): seq<Entry> {
    if listing == [] then [] else Insert(listing[0], ByAge(listing[1..]))
  }

  predicate NewestFirst(sorted: seq<Entry>) {
    forall i, j | 0 <= i < j < |sorted| :: sorted[i].mtime >= sorted[j].mtime
  }

  lemma {:induction false} InsertHolds(e: Entry, sorted: seq<Entry>)
    ensures multiset(Insert(e, sorted)) == multiset{e} + multiset(sorted)
  {
    if sorted != [] && e.mtime < sorted[0].mtime {
      InsertHolds(e, sorted[1..]);
      assert sorted == [sorted[0]] + sorted[1..];
    }
  }

  lemma {:induction false} InsertMember(e: Entry, sorted: seq<Entry>, x: Entry)
    requires x in Insert(e, sorted)
    ensures x == e || x in sorted
  {
    if sorted != [] && e.mtime < sorted[0].mtime && x != sorted[0] {
      InsertMember(e, sorted[1..], x);
    }
  }

  lemma {:induction false} InsertSorts(e: Entry, sorted: seq<Entry>)
    requires NewestFirst(sorted)
    ensures NewestFirst(Insert(e, sorted))
  {
    if sorted != [] && e.mtime < sorted[0].mtime {
      var rest := Insert(e, sorted[1..]);
      InsertSorts(e, sorted[1..]);
      forall i | 0 <= i < |rest|
        ensures rest[i].mtime <= sorted[0].mtime
      {
        InsertMember(e, sorted[1..], rest[i]);
      }
    }
  }

  lemma {:induction false} ByAgeSorts(listing: seq<Entry>)
    ensures NewestFirst(ByAge(listing)) && multiset(ByAge(listing)) == multiset(listing)
  {
    if listing != [] {
      ByAgeSorts(listing[1..]);
      InsertSorts(listing[0], ByAge(listing[1..]));
      InsertHolds(listing[0], ByAge(listing[1..]));
      assert listing == [listing[0]] + listing[1..];
    }
  }

  lemma SameEntries(listing: seq<Entry>)
    ensures |ByAge(listing)| == |listing|
    ensures forall e :: e in ByAge(listing) <==> e in listing
    ensures Names(ByAge(listing)) == Names(listing)
  {
    ByAgeSorts(listing);
    assert |multiset(ByAge(listing))| == |multiset(listing)|;
    forall e
      ensures e in ByAge(listing) <==> e in listing
    {
      assert e in multiset(ByAge(listing)) <==> e in multiset(listing);
    }
  }

  function Newest(listing: seq<Entry>, keep: nat): set<string> {
    Names(if keep < |ByAge(listing)| then ByAge(listing)[..keep] else ByAge(listing))
  }

  /** What is left when the removals stop after the first n of the directories, newest first. */
  function Left(listing: seq<Entry>, keep: nat, protect: set<string>, n: nat): set<string> {
    var sorted := ByAge(listing);
    var looked := if n < |sorted| then n else |sorted|;
    Names(listing) - (Names(sorted[..looked]) - Newest(listing, keep) - protect)
  }

  /** What a whole prune leaves. */
  function Kept(listing: seq<Entry>, keep: nat, protect: set<string>): set<string> {
    Names(listing) * (Newest(listing, keep) + protect)
  }

  method Prune(listing: seq<Entry>, keep: nat, protect: set<string>, n: nat) returns (names: set<string>)
    ensures names == Left(listing, keep, protect, n)
    ensures n >= |listing| ==> names == Kept(listing, keep, protect)
  {
    names := Sweep(ByAge(listing), Names(listing), Newest(listing, keep) + protect, n);
    LeftSwept(listing, keep, protect, n);
    if n >= |listing| { LeftIsKept(listing, keep, protect, n); }
  }

  /** Removes the first n of the versions that are not retained. */
  method Sweep(versions: seq<Entry>, all: set<string>, retain: set<string>, n: nat) returns (names: set<string>)
    ensures names == all - (Names(versions[..if n < |versions| then n else |versions|]) - retain)
  {
    names := all;
    var i := 0;
    while i < |versions| && i < n
      invariant i <= |versions| && i <= n
      invariant names == all - (Names(versions[..i]) - retain)
    {
      NamesOneMore(versions, i);
      if versions[i].name !in retain { names := names - {versions[i].name}; }
      i := i + 1;
    }
  }

  lemma LeftSwept(listing: seq<Entry>, keep: nat, protect: set<string>, n: nat)
    ensures var sorted := ByAge(listing);
      Left(listing, keep, protect, n)
        == Names(listing) - (Names(sorted[..if n < |sorted| then n else |sorted|]) - (Newest(listing, keep) + protect))
  {
  }

  lemma LeftIsKept(listing: seq<Entry>, keep: nat, protect: set<string>, n: nat)
    requires n >= |listing|
    ensures Left(listing, keep, protect, n) == Kept(listing, keep, protect)
  {
    SameEntries(listing);
    assert ByAge(listing)[..|listing|] == ByAge(listing);
  }

  lemma NamesOneMore(listing: seq<Entry>, i: nat)
    requires i < |listing|
    ensures Names(listing[..i + 1]) == Names(listing[..i]) + {listing[i].name}
  {
    assert listing[..i + 1] == listing[..i] + [listing[i]];
  }

  /** A protected directory survives, however early the prune stops. */
  lemma ProtectedSurvives(listing: seq<Entry>, keep: nat, protect: set<string>, n: nat, name: string)
    requires name in Names(listing) && name in protect
    ensures name in Left(listing, keep, protect, n)
  {
  }

  /** A prune removes only when there are more than `keep`, and nothing newer than an unprotected
      directory it keeps. */
  lemma OldestGo(listing: seq<Entry>, keep: nat, protect: set<string>, n: nat, gone: Entry, kept: Entry)
    requires DistinctNames(listing) && gone in listing && gone.name !in Left(listing, keep, protect, n)
    requires kept in listing && kept.name in Kept(listing, keep, protect) && kept.name !in protect
    ensures |listing| > keep && kept.mtime >= gone.mtime
  {
    SameEntries(listing);
    ByAgeSorts(listing);
    var sorted := ByAge(listing);
    assert |sorted| > keep;
    var k :| k in sorted[..keep] && k.name == kept.name;
    SameName(listing, k, kept);
    var i :| 0 <= i < |sorted| && sorted[i] == gone;
    assert i >= keep ==> sorted[i].mtime <= k.mtime;
    AmongFirst(sorted, keep, i);
  }

  lemma AmongFirst(sorted: seq<Entry>, keep: nat, i: nat)
    requires i < |sorted| && keep <= |sorted|
    ensures i < keep ==> sorted[i].name in Names(sorted[..keep])
  {
    if i < keep {
      assert sorted[..keep][i] == sorted[i];
    }
  }

  lemma SameName(listing: seq<Entry>, a: Entry, b: Entry)
    requires DistinctNames(listing) && a in listing && b in listing && a.name == b.name
    ensures a == b
  {
  }

  /** At most `keep` unprotected directories are left. */
  lemma FewLeft(listing: seq<Entry>, keep: nat, protect: set<string>)
    ensures |Kept(listing, keep, protect) - protect| <= keep
  {
    var sorted := ByAge(listing);
    var first := if keep < |sorted| then sorted[..keep] else sorted;
    NamesSize(first);
    Sets.SubsetSize(Kept(listing, keep, protect) - protect, Newest(listing, keep));
  }

  lemma {:induction false} NamesSize(listing: seq<Entry>)
    ensures |Names(listing)| <= |listing|
  {
    if listing != [] {
      var front := listing[..|listing| - 1];
      NamesSize(front);
      NamesOneMore(listing, |front|);
      assert listing[..|front| + 1] == listing;
    }
  }

  /******* Exactly which are kept *******/

  function CountNewer(listing: seq<Entry>, mtime: int): nat {
    if listing == [] then 0 else (if listing[0].mtime > mtime then 1 else 0) + CountNewer(listing[1..], mtime)
  }

  function CountNotOlder(listing: seq<Entry>, mtime: int): nat {
    if listing == [] then 0 else (if listing[0].mtime >= mtime then 1 else 0) + CountNotOlder(listing[1..], mtime)
  }

  /** How many directories come before the i-th: newer ones, and equally old ones listed earlier. */
  function Before(listing: seq<Entry>, i: nat): nat
    requires i < |listing|
  {
    CountNotOlder(listing[..i], listing[i].mtime) + CountNewer(listing[i + 1..], listing[i].mtime)
  }

  lemma {:induction false} InsertCount(e: Entry, sorted: seq<Entry>, mtime: int)
    ensures CountNewer(Insert(e, sorted), mtime) == (if e.mtime > mtime then 1 else 0) + CountNewer(sorted, mtime)
  {
    if sorted == [] || e.mtime >= sorted[0].mtime {
      assert ([e] + sorted)[1..] == sorted;
    } else {
      InsertCount(e, sorted[1..], mtime);
      assert ([sorted[0]] + Insert(e, sorted[1..]))[1..] == Insert(e, sorted[1..]);
    }
  }

  lemma {:induction false} ByAgeCount(listing: seq<Entry>, mtime: int)
    ensures CountNewer(ByAge(listing), mtime) == CountNewer(listing, mtime)
  {
    if listing != [] {
      ByAgeCount(listing[1..], mtime);
      InsertCount(listing[0], ByAge(listing[1..]), mtime);
    }
  }

  /** In a sorted listing the newer ones are the first ones. */
  lemma {:induction false} NewerFirst(sorted: seq<Entry>, mtime: int, k: nat)
    requires NewestFirst(sorted) && k < |sorted|
    ensures sorted[k].mtime > mtime <==> k < CountNewer(sorted, mtime)
  {
    if k > 0 {
      NewerFirst(sorted[1..], mtime, k - 1);
    } else if sorted[0].mtime <= mtime {
      NoneNewer(sorted, mtime);
    }
  }

  lemma {:induction false} NoneNewer(sorted: seq<Entry>, mtime: int)
    requires forall k | 0 <= k < |sorted| :: sorted[k].mtime <= mtime
    ensures CountNewer(sorted, mtime) == 0
  {
    if sorted != [] {
      NoneNewer(sorted[1..], mtime);
    }
  }

  /** A new one goes behind the newer ones and moves the others on by one. */
  lemma {:induction false} InsertPlaces(e: Entry, sorted: seq<Entry>, k: nat)
    requires NewestFirst(sorted) && k <= |sorted|
    ensures CountNewer(sorted, e.mtime) <= |sorted|
    ensures var n, s := CountNewer(sorted, e.mtime), Insert(e, sorted);
      |s| == |sorted| + 1 && s[k] == if k < n then sorted[k] else if k == n then e else sorted[k - 1]
  {
    if sorted == [] {
    } else if e.mtime >= sorted[0].mtime {
      NoneNewer(sorted, e.mtime);
    } else {
      var rest := Insert(e, sorted[1..]);
      InsertPlaces(e, sorted[1..], if k > 0 then k - 1 else 0);
      assert Insert(e, sorted) == [sorted[0]] + rest;
      assert k > 0 ==> Insert(e, sorted)[k] == rest[k - 1];
    }
  }

  /** Every directory stands where as many come before it as do. */
  lemma {:induction false} PlaceIs(listing: seq<Entry>, i: nat)
    requires i < |listing|
    ensures Before(listing, i) < |ByAge(listing)| == |listing| && ByAge(listing)[Before(listing, i)] == listing[i]
  {
    var rest, e := listing[1..], listing[0];
    ByAgeSorts(rest);
    ByAgeCount(rest, e.mtime);
    SameEntries(rest);
    if i == 0 {
      assert listing[..0] == [];
      CountFits(rest, e.mtime);
      InsertPlaces(e, ByAge(rest), CountNewer(rest, e.mtime));
    } else {
      PlaceIs(rest, i - 1);
      var r := Before(rest, i - 1);
      assert rest[i - 1] == listing[i] && rest[i..] == listing[i + 1..] && listing[..i][1..] == rest[..i - 1];
      NewerFirst(ByAge(rest), e.mtime, r);
      InsertPlaces(e, ByAge(rest), r);
      InsertPlaces(e, ByAge(rest), r + 1);
    }
  }

  lemma {:induction false} CountFits(listing: seq<Entry>, mtime: int)
    ensures CountNewer(listing, mtime) <= |listing|
  {
    if listing != [] {
      CountFits(listing[1..], mtime);
    }
  }

  /** A directory is kept exactly if it is protected or fewer than `keep` come before it. */
  lemma KeptIff(listing: seq<Entry>, keep: nat, protect: set<string>, i: nat)
    requires DistinctNames(listing) && i < |listing|
    ensures listing[i].name in Kept(listing, keep, protect)
      <==> listing[i].name in protect || Before(listing, i) < keep
  {
    PlaceIs(listing, i);
    var sorted, k := ByAge(listing), Before(listing, i);
    assert listing[i] in listing;
    SameEntries(listing);
    if k < keep && keep < |sorted| {
      assert sorted[..keep][k] == listing[i];
    }
    if listing[i].name in Newest(listing, keep) {
      var first := if keep < |sorted| then sorted[..keep] else sorted;
      var e :| e in first && e.name == listing[i].name;
      var j :| 0 <= j < |first| && first[j] == e;
      assert sorted[j] == e && e in sorted;
      SameName(listing, e, listing[i]);
      OnePlace(listing, i, j);
    }
  }

  lemma OnePlace(listing: seq<Entry>, i: nat, j: nat)
    requires DistinctNames(listing) && i < |listing| && j < |ByAge(listing)| && ByAge(listing)[j] == listing[i]
    ensures j == Before(listing, i)
  {
    PlaceIs(listing, i);
    ByAgeSorts(listing);
    var sorted, k := ByAge(listing), Before(listing, i);
    if j != k {
      Twice(sorted, j, k);
      Once(listing, i);
    }
  }

  lemma Twice(s: seq<Entry>, j: nat, k: nat)
    requires j < |s| && k < |s| && j != k && s[j] == s[k]
    ensures multiset(s)[s[j]] >= 2
  {
    var a, b := if j < k then j else k, if j < k then k else j;
    assert s == s[..a] + [s[a]] + s[a + 1..b] + [s[b]] + s[b + 1..];
  }

  lemma Once(listing: seq<Entry>, i: nat)
    requires DistinctNames(listing) && i < |listing|
    ensures multiset(listing)[listing[i]] == 1
  {
    assert listing == listing[..i] + [listing[i]] + listing[i + 1..];
    assert listing[i] !in listing[..i] && listing[i] !in listing[i + 1..];
    assert listing[i] !in multiset(listing[..i]) && listing[i] !in multiset(listing[i + 1..]);
  }
}
