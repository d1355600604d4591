/**
 * The string-view example: `asInt` (std::from_chars into an int, as in
 * section 23.20.3 [utility.from.chars] of ISO/IEC 14882:2017), `toString`,
 * and the construction, trimming, swapping and assignment of views.
 */
module StringView {
  import opened Wrappers
  import opened Decimal

  /** The range of a 32-bit `int`. */
  const IntMin: int := -0x8000_0000
  const IntMax: int := 0x7FFF_FFFF

  predicate InIntRange(v: int) {
    IntMin <= v <= IntMax
  }

  /** True when s starts with the pattern from_chars accepts: an optional '-' and then a digit. */
  predicate StartsWithNumber(s: string) {
    (|s| > 0 && IsDigit(s[0])) || (|s| > 1 && s[0] == '-' && IsDigit(s[1]))
  }

  /** The length of the longest run of digits at the start of s. */
  function LeadingDigits(s: string): (k: nat)
    ensures k <= |s|
    ensures forall i :: 0 <= i < k ==> IsDigit(s[i])
    ensures k == |s| || !IsDigit(s[k])
  {
    if s == [] || !IsDigit(s[0]) then 0 else 1 + LeadingDigits(s[1..])
  }

  /**
   * asInt: from_chars over the whole view, keeping the value only when the
   * error code is clear. No pattern gives invalid_argument, a value outside
   * `int` gives result_out_of_range; characters after the digits are ignored.
   */
  function AsInt(sv: string): (r: Option<int>)
    ensures r.Some? ==> InIntRange(r.value)
    ensures !StartsWithNumber(sv) ==> r == None
  {
    var negative := |sv| > 0 && sv[0] == '-';
    var body := if negative then sv[1..] else sv;
    var k := LeadingDigits(body);
    if k == 0 then None
    else
      var magnitude: int := DigitsValue(body[..k]);
      var v := if negative then -magnitude else magnitude;
      if InIntRange(v) then Some(v) else None
  }

  /** The value from_chars gives to a sign and a run of digits, if it fits an int. */
  function Signed(sign: string, digits: string): Option<int>
    requires AllDigits(digits)
  {
    var magnitude: int := DigitsValue(digits);
    var v := if sign == "-" then -magnitude else magnitude;
    if InIntRange(v) then Some(v) else None
  }

  lemma {:induction false} LeadingDigitsOfConcat(digits: string, rest: string)
    requires AllDigits(digits)
    requires rest == [] || !IsDigit(rest[0])
    ensures LeadingDigits(digits + rest) == |digits|
  {
    if digits != [] {
      assert (digits + rest)[1..] == digits[1..] + rest;
      LeadingDigitsOfConcat(digits[1..], rest);
    } else {
      assert digits + rest == rest;
    }
  }

  /**
   * Every text that splits into an optional '-', a non-empty run of digits
   * and a rest that does not continue the run reads as that signed run.
   */
  lemma AsIntOfSplit(sign: string, digits: string, rest: string)
    requires sign == "" || sign == "-"
    requires |digits| > 0 && AllDigits(digits)
    requires rest == [] || !IsDigit(rest[0])
    ensures AsInt(sign + digits + rest) == Signed(sign, digits)
  {
    var sv := sign + digits + rest;
    var body := digits + rest;
    if sign == "-" {
      assert sv[0] == '-' && sv[1..] == body;
    } else {
      assert sv == body;
      assert !IsDigit('-');
    }
    LeadingDigitsOfConcat(digits, rest);
    assert body[..|digits|] == digits;
  }

  /** Round trip: the decimal text of any int, followed by anything that is not a digit, reads back as it. */
  lemma AsIntRoundTrip(n: int, rest: string)
    requires InIntRange(n)
    requires rest == [] || !IsDigit(rest[0])
    ensures AsInt(IntToString(n) + rest) == Some(n)
  {
    var digits := NatToString(if n < 0 then -n else n);
    var sign := if n < 0 then "-" else "";
    DigitsValueOfNatToString(if n < 0 then -n else n);
    assert IntToString(n) == sign + digits;
    AsIntOfSplit(sign, digits, rest);
  }

  /** A leading '+' or a leading blank is not accepted. */
  lemma AsIntRejectsPlusAndBlank(s: string)
    requires |s| > 0 && (s[0] == '+' || s[0] == ' ')
    ensures AsInt(s) == None
  {
  }

  /** Only the error code is checked, so the text after the digits is ignored. */
  lemma AsIntIgnoresTrailingText()
    ensures AsInt("12ab") == Some(12)
  {
    AsIntOfSplit("", "12", "ab");
    assert "" + "12" + "ab" == "12ab";
    assert DigitsValue("12") == 12;
  }

  /** The decimal text of 2^31, one digit at a time, for IntMinText and AsIntPastIntMax. */
  lemma IntMaxPlusOneText()
    ensures NatToString(2147483648) == "2147483648"
  {
    assert NatToString(2) == "2";
    NatToStringAppend(2, 1);
    assert NatToString(21) == "21";
    NatToStringAppend(21, 4);
    assert NatToString(214) == "214";
    NatToStringAppend(214, 7);
    assert NatToString(2147) == "2147";
    NatToStringAppend(2147, 4);
    assert NatToString(21474) == "21474";
    NatToStringAppend(21474, 8);
    assert NatToString(214748) == "214748";
    NatToStringAppend(214748, 3);
    assert NatToString(2147483) == "2147483";
    NatToStringAppend(2147483, 6);
    assert NatToString(21474836) == "21474836";
    NatToStringAppend(21474836, 4);
    assert NatToString(214748364) == "214748364";
    NatToStringAppend(214748364, 8);
  }

  lemma IntMinText()
    ensures IntToString(IntMin) == "-2147483648"
  {
    IntMaxPlusOneText();
  }

  /** The smallest int is read. */
  lemma AsIntOfIntMin(text: string)
    requires text == "-2147483648"
    ensures AsInt(text) == Some(IntMin)
  {
    IntMinText();
    AsIntRoundTrip(IntMin, "");
    assert IntToString(IntMin) + "" == text;
  }

  /** A run of digits beyond the largest int reads as nothing. */
  lemma AsIntOutOfRange(digits: string)
    requires |digits| > 0 && AllDigits(digits) && DigitsValue(digits) > IntMax
    ensures AsInt(digits) == None
  {
    AsIntOfSplit("", digits, "");
    assert "" + digits + "" == digits;
  }

  /** One past the largest int is out of range. */
  lemma AsIntPastIntMax(text: string)
    requires text == "2147483648"
    ensures AsInt(text) == None
  {
    IntMaxPlusOneText();
    DigitsValueOfNatToString(2147483648);
    AsIntOutOfRange(NatToString(2147483648));
  }

  /** A bare sign, an empty view and an explicit plus read as nothing. */
  lemma AsIntRejectsNonNumbers()
    ensures AsInt("-") == None && AsInt("") == None && AsInt("+5") == None
  {
  }

  /**
   * toString: the prefix followed by the ctime text without its final
   * character (the newline). ctime's text is a parameter: the clock and the
   * C library are not part of this model; remove_suffix(1) needs it non-empty.
   */
  function ToString(prefix: string, timestamp: string): (r: string)
    requires |timestamp| > 0
    ensures |r| == |prefix| + |timestamp| - 1
    ensures r[..|prefix|] == prefix
    ensures r[|prefix|..] + [timestamp[|timestamp| - 1]] == timestamp
  {
    prefix + timestamp[..|timestamp| - 1]
  }

  /** The length of a NUL-terminated character buffer: the index of its first NUL. */
  function CStrLen(chars: string): (n: nat)
    requires '\0' in chars
    ensures n < |chars| && chars[n] == '\0'
    ensures forall i :: 0 <= i < n ==> chars[i] != '\0'
  {
    if chars[0] == '\0' then 0 else 1 + CStrLen(chars[1..])
  }

  /** A character array that ends in the NUL after text (a string literal) has text's length. */
  lemma {:induction false} CStrLenOfLiteral(text: string)
    requires '\0' !in text
    ensures CStrLen(text + ['\0']) == |text|
  {
    if text != [] {
      assert (text + ['\0'])[1..] == text[1..] + ['\0'];
      CStrLenOfLiteral(text[1..]);
    }
  }

  /** std::string_view: a window (start, length) onto characters it does not own. */
  class View {
    var chars: string   // the characters pointed into
    var start: nat
    var len: nat

    ghost predicate Valid()
      reads this
    {
      start + len <= |chars|
    }

    /** The characters the view denotes. */
    function Contents(): string
      reads this
      requires Valid()
    {
      chars[start..start + len]
    }

    function Size(): nat
      reads this
    {
      len
    }

    /** string_view{}: empty. */
    constructor Empty()
      ensures Valid() && Contents() == [] && Size() == 0
    {
      chars, start, len := [], 0, 0;
    }

    /** string_view{p}: up to (not including) the first NUL of the buffer p points to. */
    constructor FromCString(buffer: string)
      requires '\0' in buffer
      ensures Valid() && chars == buffer && start == 0
      ensures Size() == CStrLen(buffer) && Contents() == buffer[..CStrLen(buffer)]
    {
      chars, start, len := buffer, 0, CStrLen(buffer);
    }

    /** string_view{p, n}: exactly n characters, NULs included. */
    constructor FromBuffer(buffer: string, n: nat)
      requires n <= |buffer|
      ensures Valid() && chars == buffer && start == 0
      ensures Size() == n && Contents() == buffer[..n]
    {
      chars, start, len := buffer, 0, n;
    }

    /** remove_prefix(k): drops the first k characters. */
    method RemovePrefix(k: nat)
      requires Valid() && k <= Size()
      modifies this
      ensures Valid() && chars == old(chars)
      ensures Size() == old(Size()) - k
      ensures Contents() == old(Contents())[k..]
    {
      start, len := start + k, len - k;
    }

    /** remove_suffix(k): drops the last k characters. */
    method RemoveSuffix(k: nat)
      requires Valid() && k <= Size()
      modifies this
      ensures Valid() && chars == old(chars) && start == old(start)
      ensures Size() == old(Size()) - k
      ensures Contents() == old(Contents())[..old(Size()) - k]
    {
      ghost var before := Contents();
      len := len - k;
      assert Contents() == before[..|before| - k];
    }

    /** this = other: afterwards both denote the same characters. */
    method Assign(other: View)
      requires other.Valid()
      modifies this
      ensures Valid() && Contents() == other.Contents()
      ensures chars == other.chars && start == other.start && len == other.len
    {
      chars, start, len := other.chars, other.start, other.len;
    }
  }

  /** std::swap of two views: each takes the other's window. */
  method Swap(a: View, b: View)
    requires a.Valid() && b.Valid()
    modifies a, b
    ensures a.Valid() && b.Valid()
    ensures a.Contents() == old(b.Contents()) && b.Contents() == old(a.Contents())
    ensures a.chars == old(b.chars) && b.chars == old(a.chars)
  {
    a.chars, a.start, a.len, b.chars, b.start, b.len := b.chars, b.start, b.len, a.chars, a.start, a.len;
  }

  /** The construction block: the literal "hello" is the buffer "hello\0". */
  method ConstructionScenario() returns (empty: nat, literal: nat, withTerminator: nat, terminatorIncluded: bool)
    ensures empty == 0 && literal == 5 && withTerminator == 6 && terminatorIncluded
  {
    var sv := new View.Empty();
    CStrLenOfLiteral("hello");
    var svc := new View.FromCString("hello" + ['\0']);
    var svNull := new View.FromBuffer("hello" + ['\0'], 6);
    empty, literal, withTerminator := sv.Size(), svc.Size(), svNull.Size();
    terminatorIncluded := svNull.Contents()[5] == '\0';
  }

  /** Swapping and assigning: after std::swap and sv2 = sv1 both views denote "world". */
  method SwapAssignScenario() returns (first: string, second: string)
    ensures first == "world" && second == "world"
  {
    CStrLenOfLiteral("hello");
    CStrLenOfLiteral("world");
    var sv1 := new View.FromCString("hello" + ['\0']);
    var sv2 := new View.FromCString("world" + ['\0']);
    assert sv2.Contents() == "world";
    Swap(sv1, sv2);
    sv2.Assign(sv1);
    first, second := sv1.Contents(), sv2.Contents();
  }

  /** Trimming: remove_prefix(2) and remove_suffix(3) turn ", some text! I" into "some text". */
  method TrimScenario() returns (trimmed: string)
    ensures trimmed == "some text"
  {
    var text := ", some text! I";
    CStrLenOfLiteral(text);
    var sv := new View.FromCString(text + ['\0']);
    assert sv.Contents() == text;
    sv.RemovePrefix(2);
    assert sv.Contents() == text[2..];
    sv.RemoveSuffix(3);
    assert sv.Contents() == text[2..][..9];
    trimmed := sv.Contents();
  }
}
