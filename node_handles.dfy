/**
 * The node-handle example: a node is extracted from a map, re-keyed and put
 * back; two nodes move from the map into a multimap; the map then merges the
 * multimap in.
 */
module NodeHandles {
  import opened Wrappers
  import opened Containers

  /** node_handle.key() = k: the node keeps its value under the new key. */
  function Rekeyed(node: Option<Entry>, k: int): (r: Option<Entry>)
    requires node.Some?
    ensures r.Some? && r.value.0 == k && r.value.1 == node.value.1
  {
    Some((k, node.value.1))
  }

  /**
   * Extracting k from a map and inserting that node into a multimap takes one
   * entry out of the one and puts the same entry into the other: the two
   * sizes still add up, and the multimap stays sorted.
   */
  lemma MoveNodeConserves(m: map<int, string>, s: seq<Entry>, k: int)
    requires k in m && SortedByKey(s)
    ensures |m - {k}| + |InsertAtUpperBound(s, (k, m[k]))| == |m| + |s|
    ensures SortedByKey(InsertAtUpperBound(s, (k, m[k])))
    ensures (k, m[k]) in InsertAtUpperBound(s, (k, m[k])) && k !in m - {k}
  {
    InsertAtUpperBoundSorted(s, (k, m[k]));
    assert |multiset(InsertAtUpperBound(s, (k, m[k])))| == |s| + 1;
    assert (k, m[k]) in multiset(InsertAtUpperBound(s, (k, m[k])));
  }

  /** Extracting a key and reinserting its node under a fresh key moves that one value to the new key. */
  lemma RekeyMovesValue(m: map<int, string>, k: int, k': int)
    requires k in m && k' !in m
    ensures (m - {k})[k' := m[k]].Keys == m.Keys - {k} + {k'}
    ensures forall j :: j in m && j != k ==> (m - {k})[k' := m[k]][j] == m[j]
    ensures (m - {k})[k' := m[k]][k'] == m[k]
  {
  }

  /** The listing of the final map: ascending keys 1 to 4. */
  lemma FinalMapListing(m: map<int, string>)
    requires m == map[1 := "foo", 2 := "two", 3 := "three", 4 := "four"]
    ensures Listing(m) == [(1, "foo"), (2, "two"), (3, "three"), (4, "four")]
  {
    ListingIs(m, [(1, "foo"), (2, "two"), (3, "three"), (4, "four")]);
  }

  /** Extract 2 from {1:foo, 2:bar, 3:baz}, re-key the node to 4 and insert it again. */
  method RekeyScenario() returns (extracted: Option<Entry>, inserted: bool, afterRekey: map<int, string>)
    ensures extracted == Some((2, "bar")) && inserted
    ensures afterRekey == map[1 := "foo", 3 := "baz", 4 := "bar"]
  {
    var foomap := new AssocMap(map[1 := "foo", 2 := "bar", 3 := "baz"]);
    extracted := foomap.Extract(2);
    assert foomap.entries == map[1 := "foo", 3 := "baz"];
    var nodeHandle := Rekeyed(extracted, 4);
    var leftover;
    inserted, leftover := foomap.InsertNode(nodeHandle);
    afterRekey := foomap.entries;
  }

  /** (3, baz) goes after (3, three), the last entry with key 3. */
  lemma InsertBazTrace(s: seq<Entry>)
    requires s == [(1, "one"), (2, "two"), (3, "three"), (4, "four")]
    ensures InsertAtUpperBound(s, (3, "baz")) == [(1, "one"), (2, "two"), (3, "three"), (3, "baz"), (4, "four")]
  {
    UpperBoundIsFirstGreater(s, 3, 3);
  }

  /** (4, bar) goes after (4, four), at the end. */
  lemma InsertBarTrace(s: seq<Entry>)
    requires s == [(1, "one"), (2, "two"), (3, "three"), (3, "baz"), (4, "four")]
    ensures InsertAtUpperBound(s, (4, "bar")) == s + [(4, "bar")]
  {
    UpperBoundIsFirstGreater(s, 4, 5);
  }

  /** to.insert(from.extract(k)): the entry at k, if any, leaves the map and joins the multimap. */
  method MoveNode(from: AssocMap, k: int, to: MultiMap)
    requires to.Valid()
    modifies from, to
    ensures to.Valid()
    ensures from.entries == old(from.entries) - {k}
    ensures k in old(from.entries) ==> to.entries == InsertAtUpperBound(old(to.entries), (k, old(from.entries)[k]))
    ensures k !in old(from.entries) ==> to.entries == old(to.entries)
  {
    var node := from.Extract(k);
    to.InsertNode(node);
  }

  /** The map side of the two moves: 3 holds baz, 4 holds bar, and {1:foo} remains. */
  lemma MoveMapTrace(m: map<int, string>)
    requires m == map[1 := "foo", 3 := "baz", 4 := "bar"]
    ensures 3 in m && m[3] == "baz"
    ensures 4 in m - {3} && (m - {3})[4] == "bar"
    ensures m - {3} - {4} == map[1 := "foo"]
  {
    assert m - {3} == map[1 := "foo", 4 := "bar"];
  }

  /** Move the nodes at 3 and at 4 from the map into the multimap. */
  method MoveNodesScenario() returns (mapAfterMoves: map<int, string>, multiAfterMoves: seq<Entry>)
    ensures mapAfterMoves == map[1 := "foo"]
    ensures multiAfterMoves == [(1, "one"), (2, "two"), (3, "three"), (3, "baz"), (4, "four"), (4, "bar")]
  {
    var foomap := new AssocMap(map[1 := "foo", 3 := "baz", 4 := "bar"]);
    var othermap := new MultiMap([(1, "one"), (2, "two"), (3, "three"), (4, "four")]);
    MoveMapTrace(foomap.entries);
    InsertBazTrace(othermap.entries);
    MoveNode(foomap, 3, othermap);
    InsertBarTrace(othermap.entries);
    MoveNode(foomap, 4, othermap);
    mapAfterMoves, multiAfterMoves := foomap.entries, othermap.entries;
  }

  /** Merge the multimap into the map: keys 2, 3 and 4 move once each; seven elements in all. */
  method MergeScenario() returns (mapAfterMerge: map<int, string>, multiAfterMerge: seq<Entry>, total: nat)
    ensures mapAfterMerge == map[1 := "foo", 2 := "two", 3 := "three", 4 := "four"]
    ensures multiAfterMerge == [(1, "one"), (3, "baz"), (4, "bar")]
    ensures total == 7
  {
    var foomap := new AssocMap(map[1 := "foo"]);
    var othermap := new MultiMap([(1, "one"), (2, "two"), (3, "three"), (3, "baz"), (4, "four"), (4, "bar")]);
    MergeTrace(foomap.entries, othermap.entries);
    foomap.Merge(othermap);
    mapAfterMerge, multiAfterMerge := foomap.entries, othermap.entries;
    total := |mapAfterMerge| + |multiAfterMerge|;
  }

  /** merge, one source entry at a time: 1 stays, 2 and 3 move, the second 3 stays, 4 moves, the second 4 stays. */
  lemma MergeTrace(m: map<int, string>, s: seq<Entry>)
    requires m == map[1 := "foo"]
    requires s == [(1, "one"), (2, "two"), (3, "three"), (3, "baz"), (4, "four"), (4, "bar")]
    ensures MergeFrom(m, s) == (map[1 := "foo", 2 := "two", 3 := "three", 4 := "four"], [(1, "one"), (3, "baz"), (4, "bar")])
  {
    var e1, e2, e3, e4, e5, e6 := s[0], s[1], s[2], s[3], s[4], s[5];
    var m2, m3, m4 := m[2 := "two"], m[2 := "two"][3 := "three"], m[2 := "two"][3 := "three"][4 := "four"];
    MergeFromSnoc(m, [], e1);
    assert [] + [e1] == [e1];
    assert MergeFrom(m, [e1]) == (m, [e1]);
    MergeFromSnoc(m, [e1], e2);
    assert MergeFrom(m, [e1, e2]) == (m2, [e1]);
    MergeFromSnoc(m, [e1, e2], e3);
    assert [e1, e2] + [e3] == [e1, e2, e3];
    assert MergeFrom(m, [e1, e2, e3]) == (m3, [e1]);
    MergeFromSnoc(m, [e1, e2, e3], e4);
    assert [e1, e2, e3] + [e4] == [e1, e2, e3, e4];
    assert [e1] + [e4] == [e1, e4];
    assert MergeFrom(m, [e1, e2, e3, e4]) == (m3, [e1, e4]);
    MergeFromSnoc(m, [e1, e2, e3, e4], e5);
    assert [e1, e2, e3, e4] + [e5] == [e1, e2, e3, e4, e5];
    assert MergeFrom(m, [e1, e2, e3, e4, e5]) == (m4, [e1, e4]);
    MergeFromSnoc(m, [e1, e2, e3, e4, e5], e6);
    assert [e1, e2, e3, e4, e5] + [e6] == s;
    assert [e1, e4] + [e6] == [e1, e4, e6];
    assert MergeFrom(m, s) == (m4, [e1, e4, e6]);
    assert m4 == map[1 := "foo", 2 := "two", 3 := "three", 4 := "four"];
  }

  /** print_map of the merged map writes its four entries in ascending key order. */
  method PrintMergedMap() returns (text: string)
    ensures text == "[ " + EntriesText([(1, "foo"), (2, "two"), (3, "three"), (4, "four")]) + "]\n"
  {
    var foomap := new AssocMap(map[1 := "foo", 2 := "two", 3 := "three", 4 := "four"]);
    FinalMapListing(foomap.entries);
    text := PrintMap(foomap.Items());
  }
}
