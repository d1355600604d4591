/**
 * The insert_or_assign example: before C++17, moving a string into a map
 * whether or not the key exists took a find followed by emplace or by
 * assignment through the found position; insert_or_assign does it in one call.
 */
module InsertOrAssignExample {
  import opened Containers

  /**
   * if (pos == m.cend()) m.emplace(k, std::move(s)); else pos->second = std::move(s):
   * afterwards k maps to s's old contents, and s has been moved from, in both cases.
   */
  method FindThenEmplaceOrAssign(m: AssocMap, k: int, src: StringVar)
    modifies m, src
    ensures m.entries == InsertOrAssigned(old(m.entries), k, old(src.text))
    ensures src.text == ""
  {
    var pos := m.Find(k);
    if pos.None? {
      var _ := m.Emplace(k, src);
    } else {
      m.AssignAt(k, src);
    }
  }

  /** The example's trace: the hand-written block puts "ni" at 42, and insert_or_assign replaces it with "ninini". */
  method InsertOrAssignScenario() returns (afterBlock: map<int, string>, inserted: bool, finalMap: map<int, string>)
    ensures afterBlock == map[1 := "foo", 2 := "bar", 3 := "baz", 42 := "ni"]
    ensures !inserted
    ensures finalMap == map[1 := "foo", 2 := "bar", 3 := "baz", 42 := "ninini"]
  {
    var foomap := new AssocMap(map[1 := "foo", 2 := "bar", 3 := "baz"]);
    var ni := new StringVar("ni");
    FindThenEmplaceOrAssign(foomap, 42, ni);
    afterBlock := foomap.entries;
    var ni3 := new StringVar("ninini");
    var key;
    key, inserted := foomap.InsertOrAssign(42, ni3);
    finalMap := foomap.entries;
  }
}
