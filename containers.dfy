/**
 * The associative containers the container-extension examples use:
 * std::map / std::unordered_map<int, std::string> as a Dafny map, and
 * std::multimap<int, std::string> as a key-sorted sequence of entries.
 * Node handles are optional entries; a moved-from std::string is empty.
 */
module Containers {
  import opened Wrappers
  import opened Decimal

  type Entry = (int, string)

  /******** The effect of each update on the map's contents ********/

  /** try_emplace(k, v), and emplace of a new key: insert only when k is absent. */
  function TryEmplaced(m: map<int, string>, k: int, v: string): (r: map<int, string>)
    ensures r.Keys == m.Keys + {k}
    ensures r[k] == if k in m then m[k] else v
    ensures forall j :: j in m && j != k ==> r[j] == m[j]
  {
    if k in m then m else m[k := v]
  }

  /** insert_or_assign(k, v): afterwards k maps to v, whether it was present or not. */
  function InsertOrAssigned(m: map<int, string>, k: int, v: string): (r: map<int, string>)
    ensures r.Keys == m.Keys + {k}
    ensures r[k] == v
    ensures forall j :: j in m && j != k ==> r[j] == m[j]
  {
    m[k := v]
  }

  /** m[k] = v: operator[] first inserts a default-constructed (empty) string, which is then assigned. */
  function SubscriptAssigned(m: map<int, string>, k: int, v: string): (r: map<int, string>)
    ensures r.Keys == m.Keys + {k} && r[k] == v
    ensures forall j :: j in m && j != k ==> r[j] == m[j]
  {
    var withKey := if k in m then m else m[k := ""];
    withKey[k := v]
  }

  /** insert_or_assign has the effect of m[k] = v on the map. */
  lemma InsertOrAssignIsSubscriptAssign(m: map<int, string>, k: int, v: string)
    ensures InsertOrAssigned(m, k, v) == SubscriptAssigned(m, k, v)
  {
    if k !in m {
      assert m[k := ""][k := v] == m[k := v];
    }
  }

  /** insert_or_assign twice is insert_or_assign once. */
  lemma InsertOrAssignIdempotent(m: map<int, string>, k: int, v: string)
    ensures InsertOrAssigned(InsertOrAssigned(m, k, v), k, v) == InsertOrAssigned(m, k, v)
  {
    assert m[k := v][k := v] == m[k := v];
  }

  /** A second try_emplace of the same key changes nothing, whatever its value. */
  lemma TryEmplaceIdempotent(m: map<int, string>, k: int, v: string, w: string)
    ensures TryEmplaced(TryEmplaced(m, k, v), k, w) == TryEmplaced(m, k, v)
  {
  }

  /******** Multimap order and node insertion ********/

  ghost predicate SortedByKey(s: seq<Entry>) {
    forall i, j :: 0 <= i < j < |s| ==> s[i].0 <= s[j].0
  }

  /** The index of the first entry whose key is greater than k (the end of k's equal range when sorted). */
  function UpperBound(s: seq<Entry>, k: int): (u: nat)
    ensures u <= |s|
    ensures forall i :: 0 <= i < u ==> s[i].0 <= k
    ensures u == |s| || s[u].0 > k
  {
    if s == [] || s[0].0 > k then 0 else 1 + UpperBound(s[1..], k)
  }

  /** Where multimap::insert puts an entry: after every entry with the same or a smaller key. */
  function InsertAtUpperBound(s: seq<Entry>, e: Entry): (r: seq<Entry>)
    ensures |r| == |s| + 1 && r[UpperBound(s, e.0)] == e
    ensures forall i :: 0 <= i < UpperBound(s, e.0) ==> r[i] == s[i]
    ensures forall i :: UpperBound(s, e.0) < i < |r| ==> r[i] == s[i - 1]
  {
    var u := UpperBound(s, e.0);
    s[..u] + [e] + s[u..]
  }

  /** Inserting at the upper bound keeps the multimap sorted and adds exactly that entry. */
  lemma InsertAtUpperBoundSorted(s: seq<Entry>, e: Entry)
    requires SortedByKey(s)
    ensures SortedByKey(InsertAtUpperBound(s, e))
    ensures multiset(InsertAtUpperBound(s, e)) == multiset(s) + multiset{e}
  {
    var u := UpperBound(s, e.0);
    InsertKeepsOrder(s, e, u);
    assert s == s[..u] + s[u..];
  }

  lemma InsertKeepsOrder(s: seq<Entry>, e: Entry, u: nat)
    requires SortedByKey(s) && u <= |s|
    requires forall i :: 0 <= i < u ==> s[i].0 <= e.0
    requires u == |s| || s[u].0 > e.0
    ensures SortedByKey(s[..u] + [e] + s[u..])
  {
    var r := s[..u] + [e] + s[u..];
    forall i, j | 0 <= i < j < |r| ensures r[i].0 <= r[j].0 {
      if j < u {
        assert r[i] == s[i] && r[j] == s[j];
      } else if j == u {
        assert r[i] == s[i];
      } else if i == u {
        assert r[j] == s[j - 1] && s[u].0 <= s[j - 1].0;
      } else if i > u {
        assert r[i] == s[i - 1] && r[j] == s[j - 1];
      } else {
        assert r[i] == s[i] && r[j] == s[j - 1];
      }
    }
  }

  /******** Merging a multimap into a map ********/

  /**
   * map::merge(source): source entries are visited in order; each is moved
   * into the map when its key is not there yet (so of several equal keys
   * only the first can move) and otherwise stays in the source, in order.
   */
  function MergeFrom(m: map<int, string>, s: seq<Entry>): (r: (map<int, string>, seq<Entry>))
    ensures m.Keys <= r.0.Keys
    ensures |r.1| <= |s|
  {
    if s == [] then (m, [])
    else
      var r := MergeFrom(m, s[..|s| - 1]);
      var e := s[|s| - 1];
      if e.0 in r.0 then (r.0, r.1 + [e]) else (r.0[e.0 := e.1], r.1)
  }

  /** One more source entry: it moves if its key is still absent, and is kept otherwise. */
  lemma MergeFromSnoc(m: map<int, string>, p: seq<Entry>, e: Entry)
    ensures MergeFrom(m, p + [e]) ==
      var r := MergeFrom(m, p);
      if e.0 in r.0 then (r.0, r.1 + [e]) else (r.0[e.0 := e.1], r.1)
  {
    assert (p + [e])[..|p|] == p;
  }

  ghost function KeysOf(s: seq<Entry>): set<int> {
    set i | 0 <= i < |s| :: s[i].0
  }

  /** Merge never overwrites an entry of the map, and the map ends up with every key of both. */
  lemma {:induction false} MergeKeepsExisting(m: map<int, string>, s: seq<Entry>)
    ensures forall k :: k in m ==> k in MergeFrom(m, s).0 && MergeFrom(m, s).0[k] == m[k]
    ensures MergeFrom(m, s).0.Keys == m.Keys + KeysOf(s)
  {
    if s != [] {
      var p := s[..|s| - 1];
      MergeKeepsExisting(m, p);
      assert KeysOf(s) == KeysOf(p) + {s[|s| - 1].0} by {
        forall k | k in KeysOf(s) ensures k in KeysOf(p) + {s[|s| - 1].0} {
          var i :| 0 <= i < |s| && s[i].0 == k;
          if i < |s| - 1 { assert p[i] == s[i]; }
        }
        forall k | k in KeysOf(p) ensures k in KeysOf(s) {
          var i :| 0 <= i < |p| && p[i].0 == k;
          assert s[i] == p[i];
        }
      }
    }
  }

  /**
   * What stays in the source is a part of it whose keys are all in the map,
   * and the two sizes add up to the sizes before.
   */
  lemma {:induction false} MergeConserves(m: map<int, string>, s: seq<Entry>)
    ensures |MergeFrom(m, s).0| + |MergeFrom(m, s).1| == |m| + |s|
    ensures forall e :: e in MergeFrom(m, s).1 ==> e.0 in MergeFrom(m, s).0 && e in s
  {
    if s != [] {
      var p := s[..|s| - 1];
      MergeConserves(m, p);
      var r := MergeFrom(m, p);
      var e := s[|s| - 1];
      if e.0 !in r.0 {
        assert |r.0[e.0 := e.1]| == |r.0| + 1;
      }
      forall x | x in MergeFrom(m, s).1 ensures x.0 in MergeFrom(m, s).0 && x in s {
        if x in r.1 { assert x in p; }
      }
    }
  }

  /** The entries a merge has moved into the map: the keys it added, each with its value. */
  ghost function MovedEntries(m: map<int, string>, merged: map<int, string>): set<Entry> {
    set e | e in merged.Items && e.0 !in m
  }

  /** Moving one more entry, with a key new to both maps, adds exactly that entry. */
  lemma MovedEntriesGrow(m: map<int, string>, merged: map<int, string>, e: Entry)
    requires e.0 !in merged && m.Keys <= merged.Keys
    ensures MovedEntries(m, merged[e.0 := e.1]) == MovedEntries(m, merged) + {e}
    ensures e !in MovedEntries(m, merged)
  {
    var grown := merged[e.0 := e.1];
    forall x | x in MovedEntries(m, grown) ensures x in MovedEntries(m, merged) + {e} {
      if x.0 != e.0 {
        assert x in merged.Items;
      }
    }
    forall x | x in MovedEntries(m, merged) ensures x in MovedEntries(m, grown) {
      assert x.0 in merged && x.0 != e.0;
    }
    assert e in grown.Items;
    assert MovedEntries(m, grown) == MovedEntries(m, merged) + {e};
  }

  /**
   * Merge neither loses nor duplicates an element: what stays in the source
   * and what moved into the map together are exactly the source's entries.
   */
  lemma {:induction false} MergeConservesEntries(m: map<int, string>, s: seq<Entry>)
    ensures multiset(MergeFrom(m, s).1) + multiset(MovedEntries(m, MergeFrom(m, s).0)) == multiset(s)
  {
    if s != [] {
      var p := s[..|s| - 1];
      var e := s[|s| - 1];
      assert s == p + [e];
      MergeConservesEntries(m, p);
      var r := MergeFrom(m, p);
      if e.0 !in r.0 {
        var before, after := MovedEntries(m, r.0), MovedEntries(m, MergeFrom(m, s).0);
        assert MergeFrom(m, s).0 == r.0[e.0 := e.1];
        MovedEntriesGrow(m, r.0, e);
        assert multiset(after) == multiset(before) + multiset{e};
      }
    }
  }

  /** A key new to the map gets its value from a source entry with that key. */
  lemma {:induction false} MergeValuesFromSource(m: map<int, string>, s: seq<Entry>)
    ensures forall k :: k in MergeFrom(m, s).0 && k !in m ==> (k, MergeFrom(m, s).0[k]) in s
  {
    if s != [] {
      var p := s[..|s| - 1];
      MergeValuesFromSource(m, p);
      var r := MergeFrom(m, p);
      var e := s[|s| - 1];
      forall k | k in MergeFrom(m, s).0 && k !in m ensures (k, MergeFrom(m, s).0[k]) in s {
        if e.0 !in r.0 && k == e.0 {
          assert MergeFrom(m, s).0[k] == e.1;
        } else {
          assert k in r.0 && MergeFrom(m, s).0[k] == r.0[k];
          assert (k, r.0[k]) in p;
        }
      }
    }
  }

  /**
   * Of several source entries with the same key new to the map, the first
   * one moves: the key gets the value of the first source entry with it.
   */
  lemma {:induction false} MergeTakesFirstValue(m: map<int, string>, s: seq<Entry>, i: nat)
    requires i < |s| && s[i].0 !in m
    requires forall j :: 0 <= j < i ==> s[j].0 != s[i].0
    ensures s[i].0 in MergeFrom(m, s).0 && MergeFrom(m, s).0[s[i].0] == s[i].1
  {
    var p := s[..|s| - 1];
    var r := MergeFrom(m, p);
    var e := s[|s| - 1];
    if i == |s| - 1 {
      MergeKeepsExisting(m, p);
      assert e.0 !in KeysOf(p) by {
        forall j | 0 <= j < |p| ensures p[j].0 != e.0 {
          assert p[j] == s[j];
        }
      }
    } else {
      assert p[i] == s[i];
      MergeTakesFirstValue(m, p, i);
    }
  }

  /** What stays in a sorted source is still sorted. */
  lemma {:induction false} MergeKeepsSourceSorted(m: map<int, string>, s: seq<Entry>)
    requires SortedByKey(s)
    ensures SortedByKey(MergeFrom(m, s).1)
  {
    if s != [] {
      var p := s[..|s| - 1];
      MergeKeepsSourceSorted(m, p);
      MergeConserves(m, p);
      var kept := MergeFrom(m, p).1;
      var e := s[|s| - 1];
      forall x | x in kept ensures x.0 <= e.0 {
        var i :| 0 <= i < |p| && p[i] == x;
      }
    }
  }

  /******** Iteration order of a map ********/

  ghost predicate StrictlyIncreasing(s: seq<int>) {
    forall i, j :: 0 <= i < j < |s| ==> s[i] < s[j]
  }

  predicate IsLeast(k: int, ks: set<int>) {
    k in ks && forall j :: j in ks ==> k <= j
  }

  lemma {:induction false} LeastExists(ks: set<int>)
    requires ks != {}
    ensures exists k :: IsLeast(k, ks)
    decreases ks
  {
    if forall y :: y !in ks {
      assert false;
    }
    var x :| x in ks;
    var rest := ks - {x};
    if rest != {} {
      LeastExists(rest);
      var m :| IsLeast(m, rest);
      var least := if x < m then x else m;
      forall j | j in ks ensures least <= j {
        if j != x { assert j in rest; }
      }
      assert IsLeast(least, ks);
    } else {
      forall j | j in ks ensures x <= j {
        assert j !in rest;
      }
      assert IsLeast(x, ks);
    }
  }

  /** The keys of a map in the ascending order std::map iterates them. */
  function SortedKeys(ks: set<int>): (r: seq<int>)
    ensures |r| == |ks|
    ensures forall k :: k in r <==> k in ks
    ensures StrictlyIncreasing(r)
    decreases ks
  {
    if ks == {} then []
    else
      LeastExists(ks);
      var k :| IsLeast(k, ks);
      var rest := SortedKeys(ks - {k});
      LeastFirst(k, ks, rest);
      [k] + rest
  }

  /** The least key followed by an ascending listing of the others is ascending, and lists them all. */
  lemma LeastFirst(k: int, ks: set<int>, rest: seq<int>)
    requires IsLeast(k, ks)
    requires forall x :: x in rest <==> x in ks - {k}
    requires StrictlyIncreasing(rest)
    ensures StrictlyIncreasing([k] + rest)
    ensures forall x :: x in [k] + rest <==> x in ks
  {
    var r := [k] + rest;
    forall i, j | 0 <= i < j < |r| ensures r[i] < r[j] {
      assert r[j] == rest[j - 1];
      if i == 0 {
        assert rest[j - 1] in ks - {k};
      } else {
        assert r[i] == rest[i - 1];
      }
    }
  }

  ghost predicate KeysIncreasing(s: seq<Entry>) {
    forall i, j :: 0 <= i < j < |s| ==> s[i].0 < s[j].0
  }

  /** Two listings with strictly increasing keys and the same entries are the same listing. */
  lemma {:induction false} KeysIncreasingUnique(a: seq<Entry>, b: seq<Entry>)
    requires KeysIncreasing(a) && KeysIncreasing(b)
    requires forall e :: e in a <==> e in b
    ensures a == b
    decreases |a|
  {
    assert a != [] ==> a[0] in a && a[0] in b;
    assert b != [] ==> b[0] in b && b[0] in a;
    if a != [] && b != [] {
      assert a[0] == b[0] by {
        var i :| 0 <= i < |a| && a[i] == b[0];
        var j :| 0 <= j < |b| && b[j] == a[0];
        assert a[0].0 <= a[i].0 && b[0].0 <= b[j].0;
      }
      forall e | e in a[1..] ensures e in b[1..] {
        var i :| 1 <= i < |a| && a[i] == e;
        assert e in a;
        var j :| 0 <= j < |b| && b[j] == e;
        assert j != 0 by { assert a[0].0 < a[i].0; }
        assert b[1..][j - 1] == e;
      }
      forall e | e in b[1..] ensures e in a[1..] {
        var j :| 1 <= j < |b| && b[j] == e;
        assert e in b;
        var i :| 0 <= i < |a| && a[i] == e;
        assert i != 0 by { assert b[0].0 < b[j].0; }
        assert a[1..][i - 1] == e;
      }
      KeysIncreasingUnique(a[1..], b[1..]);
    }
  }

  function EntriesFor(m: map<int, string>, ks: seq<int>): (r: seq<Entry>)
    requires forall i :: 0 <= i < |ks| ==> ks[i] in m
    ensures |r| == |ks|
    ensures forall i :: 0 <= i < |ks| ==> r[i] == (ks[i], m[ks[i]])
  {
    if ks == [] then [] else [(ks[0], m[ks[0]])] + EntriesFor(m, ks[1..])
  }

  /** A map's entries in ascending key order. */
  function Listing(m: map<int, string>): (r: seq<Entry>)
    ensures |r| == |m|
    ensures forall i, j :: 0 <= i < j < |r| ==> r[i].0 < r[j].0
    ensures forall k :: k in m ==> (k, m[k]) in r
    ensures forall e :: e in r ==> e.0 in m && e.1 == m[e.0]
  {
    var ks := SortedKeys(m.Keys);
    var r := EntriesFor(m, ks);
    EntriesForContents(m, ks);
    assert |r| == |m| by {
      assert |r| == |ks| == |m.Keys| == |m|;
    }
    assert forall i, j :: 0 <= i < j < |r| ==> r[i].0 < r[j].0 by {
      forall i, j | 0 <= i < j < |r| ensures r[i].0 < r[j].0 {
        assert r[i].0 == ks[i] && r[j].0 == ks[j];
      }
    }
    r
  }

  lemma EntriesForContents(m: map<int, string>, ks: seq<int>)
    requires forall i :: 0 <= i < |ks| ==> ks[i] in m
    requires forall k :: k in m ==> k in ks
    ensures forall k :: k in m ==> (k, m[k]) in EntriesFor(m, ks)
    ensures forall e :: e in EntriesFor(m, ks) ==> e.0 in m && e.1 == m[e.0]
  {
    var r := EntriesFor(m, ks);
    forall k | k in m ensures (k, m[k]) in r {
      var i :| 0 <= i < |ks| && ks[i] == k;
      assert r[i] == (k, m[k]);
    }
    forall e | e in r ensures e.0 in m && e.1 == m[e.0] {
      var i :| 0 <= i < |r| && r[i] == e;
    }
  }

  /** Any ascending listing of exactly the map's entries is the iteration order. */
  lemma ListingIs(m: map<int, string>, r: seq<Entry>)
    requires KeysIncreasing(r)
    requires forall k :: k in m ==> (k, m[k]) in r
    requires forall e :: e in r ==> e.0 in m && e.1 == m[e.0]
    ensures Listing(m) == r
  {
    var l := Listing(m);
    forall e ensures e in l <==> e in r {
      if e in l { assert (e.0, m[e.0]) in r; }
      if e in r { assert (e.0, m[e.0]) in l; }
    }
    KeysIncreasingUnique(l, r);
  }

  /******** Printing ********/

  function EntryText(e: Entry): (t: string)
    ensures |t| == |IntToString(e.0)| + |e.1| + 6
    ensures t[0] == '{' && t[1..1 + |IntToString(e.0)|] == IntToString(e.0)
    ensures t[1 + |IntToString(e.0)|..3 + |IntToString(e.0)|] == ": " && t[3 + |IntToString(e.0)|..|t| - 3] == e.1
    ensures t[|t| - 3..] == "}, "
  {
    "{" + IntToString(e.0) + ": " + e.1 + "}, "
  }

  function EntriesText(items: seq<Entry>): (t: string)
    ensures |t| >= 6 * |items|
    ensures items != [] ==> t[0] == '{'
  {
    if items == [] then "" else EntriesText(items[..|items| - 1]) + EntryText(items[|items| - 1])
  }

  lemma ConcatAssociative(x: string, y: string, z: string)
    ensures (x + y) + z == x + (y + z)
  {
  }

  /** Printing one more entry appends that entry's text. */
  lemma EntriesTextSnoc(items: seq<Entry>, e: Entry)
    ensures EntriesText(items + [e]) == EntriesText(items) + EntryText(e)
  {
    assert (items + [e])[..|items|] == items;
  }

  /** Printing two runs of entries one after the other prints their texts one after the other. */
  lemma {:induction false} EntriesTextAppend(a: seq<Entry>, b: seq<Entry>)
    ensures EntriesText(a + b) == EntriesText(a) + EntriesText(b)
    decreases |b|
  {
    if b == [] {
      assert a + b == a;
    } else {
      var b', last := b[..|b| - 1], b[|b| - 1];
      assert a + b == (a + b') + [last] && b == b' + [last];
      EntriesTextSnoc(a + b', last);
      EntriesTextSnoc(b', last);
      EntriesTextAppend(a, b');
      ConcatAssociative(EntriesText(a), EntriesText(b'), EntryText(last));
    }
  }

  /** print_map: "[ ", then "{key: value}, " for each entry in iteration order, then "]\n". */
  method PrintMap(items: seq<Entry>) returns (text: string)
    ensures text == "[ " + EntriesText(items) + "]\n"
  {
    var body := "";
    var i := 0;
    while i < |items|
      invariant 0 <= i <= |items|
      invariant body == EntriesText(items[..i])
    {
      assert items[..i + 1][..i] == items[..i];
      body := body + EntryText(items[i]);
      i := i + 1;
    }
    assert items[..i] == items;
    text := "[ " + body + "]\n";
  }

  /******** The containers ********/

  /** A std::string variable; moving from it leaves it empty. */
  class StringVar {
    var text: string

    constructor (t: string)
      ensures text == t
    {
      text := t;
    }

    method MoveOut() returns (t: string)
      modifies this
      ensures t == old(text) && text == ""
    {
      t := text;
      text := "";
    }
  }

  /** std::map<int, std::string> (and unordered_map, whose order is never observed here). */
  class AssocMap {
    var entries: map<int, string>

    constructor (init: map<int, string>)
      ensures entries == init
    {
      entries := init;
    }

    /** find(k): the value at k, or the end iterator. */
    function Find(k: int): (r: Option<string>)
      reads this
      ensures r.Some? <==> k in entries
      ensures r.Some? ==> r.value == entries[k]
    {
      if k in entries then Some(entries[k]) else None
    }

    /** The entries in ascending key order, as iterating the map visits them. */
    function Items(): (r: seq<Entry>)
      reads this
      ensures |r| == |entries|
      ensures forall i, j :: 0 <= i < j < |r| ==> r[i].0 < r[j].0
      ensures forall k :: k in entries ==> (k, entries[k]) in r
      ensures forall e :: e in r ==> e.0 in entries && e.1 == entries[e.0]
    {
      Listing(entries)
    }

    /**
     * emplace(k, std::move(s)): the value is constructed from s before the
     * key is looked up, so s is moved from whether or not it is kept.
     */
    method Emplace(k: int, src: StringVar) returns (inserted: bool)
      modifies this, src
      ensures inserted <==> k !in old(entries)
      ensures entries == TryEmplaced(old(entries), k, old(src.text))
      ensures src.text == ""
    {
      var v := src.MoveOut();
      inserted := k !in entries;
      if inserted {
        entries := entries[k := v];
      }
    }

    /** pos->second = std::move(s), for a position pos at key k. */
    method AssignAt(k: int, src: StringVar)
      requires k in entries
      modifies this, src
      ensures entries == old(entries)[k := old(src.text)]
      ensures src.text == ""
    {
      var v := src.MoveOut();
      entries := entries[k := v];
    }

    /** try_emplace(k, std::move(s)): s is moved from only when the entry is inserted. */
    method TryEmplace(k: int, src: StringVar) returns (key: int, value: string, inserted: bool)
      modifies this, src
      ensures inserted <==> k !in old(entries)
      ensures entries == TryEmplaced(old(entries), k, old(src.text))
      ensures key == k && key in entries && value == entries[key]
      ensures src.text == if inserted then "" else old(src.text)
    {
      inserted := k !in entries;
      if inserted {
        var v := src.MoveOut();
        entries := entries[k := v];
      }
      key, value := k, entries[k];
    }

    /** insert_or_assign(k, std::move(s)): s is moved from in either case. */
    method InsertOrAssign(k: int, src: StringVar) returns (key: int, inserted: bool)
      modifies this, src
      ensures inserted <==> k !in old(entries)
      ensures entries == InsertOrAssigned(old(entries), k, old(src.text))
      ensures key == k
      ensures src.text == ""
    {
      inserted := k !in entries;
      var v := src.MoveOut();
      entries := entries[k := v];
      key := k;
    }

    /** extract(k): removes that key's entry and hands it out as a node; an absent key gives an empty node. */
    method Extract(k: int) returns (node: Option<Entry>)
      modifies this
      ensures k in old(entries) ==> node == Some((k, old(entries)[k])) && entries == old(entries) - {k}
      ensures k !in old(entries) ==> node == None && entries == old(entries)
    {
      if k in entries {
        node := Some((k, entries[k]));
        entries := entries - {k};
      } else {
        node := None;
      }
    }

    /**
     * insert(std::move(node)): an empty node inserts nothing; a node whose
     * key is already present is handed back, and the map is left as it was.
     */
    method InsertNode(node: Option<Entry>) returns (inserted: bool, leftover: Option<Entry>)
      modifies this
      ensures node == None ==> !inserted && leftover == None && entries == old(entries)
      ensures node.Some? && node.value.0 in old(entries) ==>
                !inserted && leftover == node && entries == old(entries)
      ensures node.Some? && node.value.0 !in old(entries) ==>
                inserted && leftover == None && entries == old(entries)[node.value.0 := node.value.1]
    {
      if node == None {
        inserted, leftover := false, None;
      } else if node.value.0 in entries {
        inserted, leftover := false, node;
      } else {
        entries := entries[node.value.0 := node.value.1];
        inserted, leftover := true, None;
      }
    }

    /** merge(source): moves every source entry whose key is not (yet) in this map. */
    method Merge(source: MultiMap)
      requires source.Valid()
      modifies this, source
      ensures source.Valid()
      ensures (entries, source.entries) == MergeFrom(old(entries), old(source.entries))
    {
      var src := source.entries;
      var kept: seq<Entry> := [];
      var i := 0;
      while i < |src|
        invariant 0 <= i <= |src|
        invariant (entries, kept) == MergeFrom(old(entries), src[..i])
      {
        var e := src[i];
        assert src[..i + 1][..i] == src[..i];
        if e.0 in entries {
          kept := kept + [e];
        } else {
          entries := entries[e.0 := e.1];
        }
        i := i + 1;
      }
      assert src[..i] == src;
      MergeKeepsSourceSorted(old(entries), src);
      source.entries := kept;
    }
  }

  /** std::multimap<int, std::string>: entries sorted by key, equal keys in insertion order. */
  class MultiMap {
    var entries: seq<Entry>

    ghost predicate Valid()
      reads this
    {
      SortedByKey(entries)
    }

    constructor (init: seq<Entry>)
      requires SortedByKey(init)
      ensures Valid() && entries == init
    {
      entries := init;
    }

    /** insert(std::move(node)): a non-empty node goes after the last entry with the same key. */
    method InsertNode(node: Option<Entry>)
      requires Valid()
      modifies this
      ensures Valid()
      ensures entries == if node.None? then old(entries) else InsertAtUpperBound(old(entries), node.value)
    {
      if node.Some? {
        var e := node.value;
        var i := 0;
        while i < |entries| && entries[i].0 <= e.0
          invariant 0 <= i <= |entries|
          invariant forall j :: 0 <= j < i ==> entries[j].0 <= e.0
        {
          i := i + 1;
        }
        UpperBoundIsFirstGreater(entries, e.0, i);
        InsertAtUpperBoundSorted(entries, e);
        assert entries[..i] + [e] + entries[i..] == InsertAtUpperBound(entries, e);
        entries := entries[..i] + [e] + entries[i..];
      }
    }
  }

  lemma {:induction false} UpperBoundIsFirstGreater(s: seq<Entry>, k: int, i: nat)
    requires i <= |s|
    requires forall j :: 0 <= j < i ==> s[j].0 <= k
    requires i == |s| || s[i].0 > k
    ensures UpperBound(s, k) == i
  {
    if i > 0 {
      UpperBoundIsFirstGreater(s[1..], k, i - 1);
    }
  }
}
