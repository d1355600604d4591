/**
 * The try_emplace example: before C++17, moving a string into a map only
 * when the key is absent took a find followed by emplace; try_emplace does
 * the same in one call and leaves its argument alone when the key exists.
 */
module TryEmplaceExample {
  import opened Containers
  import opened Decimal
  import opened Streams

  /**
   * if (m.find(k) == m.cend()) m.emplace(k, std::move(s)): inserts (k, s)
   * only when k is absent; when k is present neither the map nor s changes.
   * The result is the same map try_emplace gives.
   */
  method FindThenEmplace(m: AssocMap, k: int, src: StringVar)
    modifies m, src
    ensures m.entries == TryEmplaced(old(m.entries), k, old(src.text))
    ensures k in old(m.entries) ==> src.text == old(src.text) && m.entries == old(m.entries)
    ensures k !in old(m.entries) ==> src.text == ""
  {
    var pos := m.Find(k);
    if pos.None? {
      var _ := m.Emplace(k, src);
    }
  }

  /**
   * The diagnostic written to std::cerr when try_emplace finds the key: the
   * string that was not moved, in quotes, then the key.
   */
  function DidNotEmplaceLine(v: string, k: int): (line: string)
    ensures |line| == 25 + |v| + 21 + |IntToString(k)| + 15
    ensures line[..25] == "did not emplace value = \"" && line[25..25 + |v|] == v
    ensures line[25 + |v|..46 + |v|] == "\", element for key = "
    ensures line[46 + |v|..|line| - 15] == IntToString(k) && line[|line| - 15..] == " already exists"
  {
    var head, key := "did not emplace value = \"" + v + "\", element for key = ", IntToString(k);
    assert (head + key)[..|head|] == head && (head + key)[|head|..] == key;
    head + key + " already exists"
  }

  /** The diagnostic of the example, for "ninini" at key 42. */
  lemma NotEmplacedNininiLine()
    ensures DidNotEmplaceLine("ninini", 42)
            == "did not emplace value = \"" + "ninini" + "\", element for key = " + "42" + " already exists"
  {
    NatToStringAppend(4, 2);
  }

  /**
   * The example's trace: the hand-written block puts "ni" at 42; the
   * following try_emplace(42, "ninini") reports false, the string keeps its
   * contents and 42 still maps to "ni"; the one line on std::cerr says so.
   */
  method TryEmplaceScenario() returns (afterBlock: map<int, string>, inserted: bool, itValue: string,
                                       ssAfter: string, finalMap: map<int, string>, errLines: seq<string>)
    ensures afterBlock == map[1 := "foo", 2 := "bar", 3 := "baz", 42 := "ni"]
    ensures !inserted && itValue == "ni" && ssAfter == "ninini"
    ensures finalMap == afterBlock
    ensures errLines == ["did not emplace value = \"" + "ninini" + "\", element for key = " + "42" + " already exists"]
  {
    var cerr := new OutputStream();
    var foomap := new AssocMap(map[1 := "foo", 2 := "bar", 3 := "baz"]);
    var s := new StringVar("ni");
    FindThenEmplace(foomap, 42, s);
    afterBlock := foomap.entries;
    var ss := new StringVar("ninini");
    var it;
    it, itValue, inserted := foomap.TryEmplace(42, ss);
    ssAfter := ss.text;
    if !inserted {
      cerr.WriteLine(DidNotEmplaceLine(ss.text, 42));
    }
    finalMap := foomap.entries;
    errLines := cerr.lines;
    NotEmplacedNininiLine();
  }
}
