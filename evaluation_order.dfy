/**
 * The evaluation-order example: three chained std::string::replace calls
 * whose position arguments come from std::string::find. Since C++17 the
 * object expression of a member call is evaluated before its arguments, so
 * each find sees the string the previous replace produced.
 */
module EvaluationOrder {

  /** std::string::npos, the largest size_t (64 bits). */
  const NPOS: nat := 0xFFFF_FFFF_FFFF_FFFF

  /** t occurs in s at position i. */
  predicate OccursAt(s: string, t: string, i: nat) {
    i + |t| <= |s| && s[i..i + |t|] == t
  }

  /** The first occurrence of t in s at or after position i. */
  function FindFrom(s: string, t: string, i: nat): (r: nat)
    requires i <= |s| < NPOS
    ensures r == NPOS || (i <= r && OccursAt(s, t, r))
    ensures r != NPOS ==> forall j :: i <= j < r ==> !OccursAt(s, t, j)
    ensures r == NPOS ==> forall j :: i <= j <= |s| ==> !OccursAt(s, t, j)
    decreases |s| - i
  {
    if OccursAt(s, t, i) then i
    else if i == |s| then NPOS
    else FindFrom(s, t, i + 1)
  }

  /** find(t): the first position of t in s, or npos. */
  function Find(s: string, t: string): (r: nat)
    requires |s| < NPOS
    ensures r != NPOS ==> OccursAt(s, t, r) && forall j :: 0 <= j < r ==> !OccursAt(s, t, j)
    ensures r == NPOS ==> forall j :: 0 <= j <= |s| ==> !OccursAt(s, t, j)
  {
    FindFrom(s, t, 0)
  }

  /**
   * The first position of t is i when t occurs there and no earlier position
   * starts with t's first two characters.
   */
  lemma {:induction false} FindFromIs(s: string, t: string, k: nat, i: nat)
    requires |t| > 1 && k <= i && OccursAt(s, t, i) && |s| < NPOS
    requires forall j :: k <= j < i ==> s[j] != t[0] || s[j + 1] != t[1]
    ensures FindFrom(s, t, k) == i
    decreases i - k
  {
    if k < i {
      if k + |t| <= |s| {
        var w := s[k..k + |t|];
        assert w[0] == s[k] && w[1] == s[k + 1];
      }
      FindFromIs(s, t, k + 1, i);
    }
  }

  /**
   * A slice equals t when it agrees with t character by character; the find
   * lemmas (FindEven, FindDontBelieve) use it to place their matches.
   */
  lemma SliceIs(s: string, i: nat, t: string)
    requires i + |t| <= |s|
    requires forall k :: 0 <= k < |t| ==> s[i + k] == t[k]
    ensures s[i..i + |t|] == t
  {
  }

  /** replace(pos, count, t) on s, for pos <= size: the count is cut off at the end of s. */
  function Replaced(s: string, pos: nat, count: nat, t: string): (r: string)
    requires pos <= |s|
    ensures var n := if count <= |s| - pos then count else |s| - pos;
      && |r| == |s| - n + |t|
      && r[..pos] == s[..pos]
      && r[pos..pos + |t|] == t
      && r[pos + |t|..] == s[pos + n..]
  {
    var n := if count <= |s| - pos then count else |s| - pos;
    s[..pos] + t + s[pos + n..]
  }

  /** A std::string, changed in place. */
  class StdString {
    var chars: string

    constructor (s: string)
      ensures chars == s
    {
      chars := s;
    }

    /** find(t) on the current contents. */
    function FindText(t: string): (r: nat)
      reads this
      requires |chars| < NPOS
      ensures r == Find(chars, t)
    {
      Find(chars, t)
    }

    /**
     * replace(pos, count, t): ok is false where replace throws out_of_range
     * (pos past the end), and then nothing changes; otherwise the contents are replaced.
     */
    method Replace(pos: nat, count: nat, t: string) returns (ok: bool)
      modifies this
      ensures ok <==> pos <= |old(chars)|
      ensures ok ==> chars == Replaced(old(chars), pos, count, t)
      ensures !ok ==> chars == old(chars)
    {
      ok := pos <= |chars|;
      if ok {
        chars := Replaced(chars, pos, count, t);
      }
    }
  }

  /** Replacing exactly the middle part b of a + b + c by t gives a + t + c. */
  lemma ReplacedMiddle(a: string, b: string, c: string, t: string)
    ensures Replaced(a + b + c, |a|, |b|, t) == a + t + c
  {
    var s := a + b + c;
    assert s[..|a|] == a && s[|a| + |b|..] == c;
  }

  /** FirstStep's split of the original string around the eight characters it drops. */
  lemma HeardParts(s: string)
    requires s == "I heard it even works if you don't believe"
    ensures s == "" + "I heard " + "it even works if you don't believe"
  {
  }

  /** Dropping the first eight characters leaves "it even works if you don't believe". */
  lemma FirstStep(s: string)
    requires s == "I heard it even works if you don't believe"
    ensures Replaced(s, 0, 8, "") == "it even works if you don't believe"
  {
    HeardParts(s);
    ReplacedMiddle("", "I heard ", "it even works if you don't believe", "");
  }

  /** In the shortened string "even" starts at 3. */
  lemma FindEven(s: string)
    requires s == "it even works if you don't believe"
    ensures Find(s, "even") == 3
  {
    SliceIs(s, 3, "even");
    FindFromIs(s, "even", 0, 3);
  }

  /** SecondStep's split of the shortened string around "even". */
  lemma EvenParts(s: string)
    requires s == "it even works if you don't believe"
    ensures s == "it " + "even" + " works if you don't believe"
  {
  }

  /** SecondStep's join of the parts around "always" into the second result. */
  lemma AlwaysJoined()
    ensures "it " + "always" + " works if you don't believe" == "it always works if you don't believe"
  {
  }

  /** Replacing the four characters of "even" at 3 by "always". */
  lemma SecondStep(s: string)
    requires s == "it even works if you don't believe"
    ensures Replaced(s, 3, 4, "always") == "it always works if you don't believe"
  {
    EvenParts(s);
    ReplacedMiddle("it ", "even", " works if you don't believe", "always");
    AlwaysJoined();
  }

  /** In the second string "don't believe" starts at 23. */
  lemma FindDontBelieve(s: string)
    requires s == "it always works if you don't believe"
    ensures Find(s, "don't believe") == 23
  {
    SliceIs(s, 23, "don't believe");
    FindFromIs(s, "don't believe", 0, 23);
  }

  /** Replacing the thirteen characters of "don't believe" at 23 by "use C++17". */
  lemma ThirdStep(s: string)
    requires s == "it always works if you don't believe"
    ensures Replaced(s, 23, 13, "use C++17") == "it always works if you use C++17"
  {
    assert s == "it always works if you " + "don't believe" + "";
    ReplacedMiddle("it always works if you ", "don't believe", "", "use C++17");
  }

  /**
   * The chained call, in the order C++17 fixes: each find runs on the result
   * of the replace before it; every position is in range, so nothing throws.
   */
  method ReplaceChain() returns (evenAt: nat, dontBelieveAt: nat, result: string)
    ensures evenAt == 3 && dontBelieveAt == 23
    ensures result == "it always works if you use C++17"
  {
    var s := new StdString("I heard it even works if you don't believe");
    FirstStep(s.chars);
    var ok := s.Replace(0, 8, "");
    FindEven(s.chars);
    evenAt := s.FindText("even");
    SecondStep(s.chars);
    ok := s.Replace(evenAt, 4, "always");
    FindDontBelieve(s.chars);
    dontBelieveAt := s.FindText("don't believe");
    ThirdStep(s.chars);
    ok := s.Replace(dontBelieveAt, 13, "use C++17");
    result := s.chars;
  }

  /** Searched in the original string instead, "even" is at 11: the order of evaluation decides the outcome. */
  lemma FindEvenInOriginal(s: string)
    requires s == "I heard it even works if you don't believe"
    ensures Find(s, "even") == 11
  {
    SliceIs(s, 11, "even");
    FindFromIs(s, "even", 0, 11);
  }
}
