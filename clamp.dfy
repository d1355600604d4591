/**
 * std::clamp (section 28.7.9 [alg.clamp] of ISO/IEC 14882:2017), with the
 * default comparison and with a caller's comparator, as the clamp example
 * uses them.
 */
module Clamp {

  /** A strict weak ordering, the requirement [alg.clamp] puts on the comparator. */
  ghost predicate StrictWeakOrder<T(!new)>(less: (T, T) -> bool) {
    && (forall a :: !less(a, a))
    && (forall a, b, c :: less(a, b) && less(b, c) ==> less(a, c))
    && (forall a, b, c :: !less(a, b) && !less(b, a) && !less(b, c) && !less(c, b) ==> !less(a, c) && !less(c, a))
  }

  /**
   * clamp(v, lo, hi, comp): lo when v is less than lo, else hi when hi is
   * less than v, else v. [alg.clamp] requires that hi is not less than lo.
   */
  function ClampBy<T>(v: T, lo: T, hi: T, less: (T, T) -> bool): (r: T)
    requires !less(hi, lo)
    ensures less(v, lo) ==> r == lo
    ensures !less(v, lo) && less(hi, v) ==> r == hi
    ensures !less(v, lo) && !less(hi, v) ==> r == v
  {
    if less(v, lo) then lo else if less(hi, v) then hi else v
  }

  /** Under a strict weak ordering the result lies between the bounds. */
  lemma ClampByInRange<T(!new)>(v: T, lo: T, hi: T, less: (T, T) -> bool)
    requires StrictWeakOrder(less) && !less(hi, lo)
    ensures !less(ClampBy(v, lo, hi, less), lo) && !less(hi, ClampBy(v, lo, hi, less))
  {
  }

  /** Clamping a clamped value changes nothing. */
  lemma ClampByIdempotent<T(!new)>(v: T, lo: T, hi: T, less: (T, T) -> bool)
    requires StrictWeakOrder(less) && !less(hi, lo)
    ensures ClampBy(ClampBy(v, lo, hi, less), lo, hi, less) == ClampBy(v, lo, hi, less)
  {
    ClampByInRange(v, lo, hi, less);
  }

  function Min(a: int, b: int): int {
    if a <= b then a else b
  }

  function Max(a: int, b: int): int {
    if a >= b then a else b
  }

  /** clamp(v, lo, hi) with operator<. */
  function ClampInt(v: int, lo: int, hi: int): (r: int)
    requires lo <= hi
    ensures lo <= r <= hi
    ensures lo <= v <= hi ==> r == v
  {
    ClampBy(v, lo, hi, (a: int, b: int) => a < b)
  }

  /** The effect is that of std::min(std::max(v, lo), hi). */
  lemma ClampIsMinOfMax(v: int, lo: int, hi: int)
    requires lo <= hi
    ensures ClampInt(v, lo, hi) == Min(Max(v, lo), hi)
  {
  }

  /** Clamping an int twice is clamping it once. */
  lemma ClampIntIdempotent(v: int, lo: int, hi: int)
    requires lo <= hi
    ensures ClampInt(ClampInt(v, lo, hi), lo, hi) == ClampInt(v, lo, hi)
  {
  }

  function Abs(x: int): nat {
    if x < 0 then -x else x
  }

  /** The example's comparator: |l| < |r|. */
  function AbsLess(l: int, r: int): (less: bool)
    ensures less <==> l * l < r * r
  {
    Abs(l) < Abs(r)
  }

  /** Comparing by magnitude is a strict weak ordering. */
  lemma AbsLessIsStrictWeakOrder()
    ensures StrictWeakOrder(AbsLess)
  {
  }

  /** With the comparator, a value is kept when its magnitude is between the bounds'. */
  lemma ClampByAbsKeepsMagnitudeInRange(v: int, lo: int, hi: int)
    requires Abs(lo) <= Abs(hi) && Abs(lo) <= Abs(v) <= Abs(hi)
    ensures ClampBy(v, lo, hi, AbsLess) == v
  {
  }

  /** The loop over -7, 0, 8, 15 with bounds 5 and 13 prints 5, 5, 8 and 13. */
  lemma PlainClampTrace()
    ensures [ClampInt(-7, 5, 13), ClampInt(0, 5, 13), ClampInt(8, 5, 13), ClampInt(15, 5, 13)] == [5, 5, 8, 13]
  {
  }

  /** With the magnitude comparator the same loop prints -7, 5, 8 and 13: |-7| lies between 5 and 13. */
  lemma AbsClampTrace()
    ensures [ClampBy(-7, 5, 13, AbsLess), ClampBy(0, 5, 13, AbsLess), ClampBy(8, 5, 13, AbsLess),
             ClampBy(15, 5, 13, AbsLess)] == [-7, 5, 8, 13]
  {
  }
}
