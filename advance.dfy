/**
 * The constexpr-if examples: `call`, which forwards a callable's result or
 * its void-ness, and `advance`, written once as tag dispatch over the
 * iterator category (best match among the overloads) and once with
 * constexpr-if (first match). An iterator is modelled by its integer
 * position; each ++ and -- is counted.
 */
module Advance {
  import opened Wrappers

  /******** call ********/

  /** A callable, told apart by whether its invoke result is void. */
  datatype Callable<!A, R> = NonVoid(f: A -> R) | Void(g: A -> ())

  /** What call(c, args...) gives back: the callable's result, or nothing. */
  datatype Returned<R> = Value(v: R) | Nothing

  /** call(c, args): the result of c(args) unchanged, and no value when c returns void. */
  function Call<A, R>(c: Callable<A, R>, args: A): (r: Returned<R>)
    ensures c.NonVoid? <==> r.Value?
    ensures c.NonVoid? ==> r.v == c.f(args)
  {
    match c
    case Void(g) =>
      var done := g(args);
      Nothing
    case NonVoid(f) =>
      var ret := f(args);
      Value(ret)
  }

  /******** Iterator categories ********/

  datatype Category = InputIterator | ForwardIterator | BidirectionalIterator | RandomAccessIterator

  /** The tag class hierarchy: each tag derives from the one before it (and from itself). */
  predicate DerivesFrom(a: Category, b: Category) {
    match b
    case InputIterator => true
    case ForwardIterator => a != InputIterator
    case BidirectionalIterator => a == BidirectionalIterator || a == RandomAccessIterator
    case RandomAccessIterator => a == RandomAccessIterator
  }

  /** The tags the three advanceImpl overloads take. */
  predicate HasOverload(t: Category) {
    t != ForwardIterator
  }

  /**
   * Overload resolution on the tag: the most derived overload tag the
   * category derives from, so forward iterators take the input overload.
   */
  function OverloadFor(cat: Category): (t: Category)
    ensures HasOverload(t) && DerivesFrom(cat, t)
    ensures forall u :: HasOverload(u) && DerivesFrom(cat, u) ==> DerivesFrom(t, u)
  {
    match cat
    case RandomAccessIterator => RandomAccessIterator
    case BidirectionalIterator => BidirectionalIterator
    case ForwardIterator => InputIterator
    case InputIterator => InputIterator
  }

  /**
   * The constexpr-if chain: the first branch whose is_same test holds, the
   * final else taking every other category.
   */
  function FirstMatch(cat: Category): (branch: Category)
    ensures HasOverload(branch) && DerivesFrom(cat, branch)
  {
    if cat == RandomAccessIterator then RandomAccessIterator
    else if cat == BidirectionalIterator then BidirectionalIterator
    else InputIterator
  }

  /** For the four standard tags that have an advance branch, first match and best match pick the same branch. */
  lemma DispatchAgrees(cat: Category)
    ensures FirstMatch(cat) == OverloadFor(cat)
  {
  }

  /**
   * A tag type the iterator traits may name: one of the four tags above, the
   * output tag (no advanceImpl overload takes it), or a class derived from
   * another tag type.
   */
  datatype Tag = Standard(cat: Category) | OutputTag | Derived(base: Tag)

  /** Whether a tag converts to the standard tag c: it is c, or derives from it. */
  predicate ConvertsTo(t: Tag, c: Category) {
    match t
    case Standard(a) => DerivesFrom(a, c)
    case OutputTag => false
    case Derived(b) => ConvertsTo(b, c)
  }

  /** Every tag that converts to the random-access tag converts to the bidirectional one. */
  lemma {:induction false} RandomAccessConvertsToBidirectional(t: Tag)
    requires ConvertsTo(t, RandomAccessIterator)
    ensures ConvertsTo(t, BidirectionalIterator)
  {
    if t.Derived? {
      RandomAccessConvertsToBidirectional(t.base);
    }
  }

  /**
   * Overload resolution for any tag: the most derived overload tag it
   * converts to, and none (the call does not compile) when it converts to
   * no overload's tag, as the output tag.
   */
  function OverloadForTag(t: Tag): (r: Option<Category>)
    ensures r.Some? ==> HasOverload(r.value) && ConvertsTo(t, r.value)
    ensures r.Some? ==> forall u :: HasOverload(u) && ConvertsTo(t, u) ==> DerivesFrom(r.value, u)
    ensures r.None? <==> !ConvertsTo(t, InputIterator)
  {
    match t
    case Standard(a) => Some(OverloadFor(a))
    case OutputTag => None
    case Derived(b) => OverloadForTag(b)
  }

  /**
   * The constexpr-if chain for any tag: is_same matches only the exact
   * random-access and bidirectional tags; every other tag, derived ones
   * included, takes the final else.
   */
  function FirstMatchTag(t: Tag): (branch: Category)
    ensures branch == RandomAccessIterator <==> t == Standard(RandomAccessIterator)
    ensures branch == BidirectionalIterator <==> t == Standard(BidirectionalIterator)
    ensures HasOverload(branch)
  {
    match t
    case Standard(a) => FirstMatch(a)
    case _ => InputIterator
  }

  /**
   * Best match and first match agree exactly on the standard tags and on the
   * tags that reach only the input overload; they differ on the output tag
   * and on every tag derived from the bidirectional or random-access tag.
   */
  lemma {:induction false} DispatchAgreesExactly(t: Tag)
    ensures OverloadForTag(t) == Some(FirstMatchTag(t))
            <==> t.Standard? || (ConvertsTo(t, InputIterator) && !ConvertsTo(t, BidirectionalIterator))
  {
    if !t.Standard? {
      var r := OverloadForTag(t);
      if ConvertsTo(t, InputIterator) && !ConvertsTo(t, BidirectionalIterator) {
        if r.value == RandomAccessIterator {
          RandomAccessConvertsToBidirectional(t);
        }
        assert r.value == InputIterator;
      }
    }
  }

  /**
   * A tag derived from the random-access tag: tag dispatch takes the
   * random-access overload (pos += n, no steps), the constexpr-if chain the
   * input loop (n increments), so for n > 0 the two versions step differently.
   */
  lemma DerivedRandomAccessDisagrees(n: int)
    requires n > 0
    ensures OverloadForTag(Derived(Standard(RandomAccessIterator))) == Some(RandomAccessIterator)
    ensures FirstMatchTag(Derived(Standard(RandomAccessIterator))) == InputIterator
    ensures Steps(RandomAccessIterator, n) == (0, 0) && Steps(InputIterator, n) == (n, 0)
  {
  }

  /** The number of ++ and of -- a branch performs to move by n. */
  function Steps(branch: Category, n: int): (r: (nat, nat))
    requires branch != RandomAccessIterator && branch != BidirectionalIterator ==> n >= 0
    ensures r.0 - r.1 == if branch == RandomAccessIterator then 0 else n
  {
    match branch
    case RandomAccessIterator => (0, 0)
    case BidirectionalIterator => if n >= 0 then (n, 0) else (0, -n)
    case _ => (n, 0)
  }

  /******** advanceImpl ********/

  /** The random-access overload: pos += n, no single steps. */
  method AdvanceRandomAccess(pos: int, n: int) returns (p: int, increments: nat, decrements: nat)
    ensures p == pos + n && increments == 0 && decrements == 0
  {
    p, increments, decrements := pos + n, 0, 0;
  }

  /** while (n--) ++pos: exactly n increments; it stops only when n starts non-negative. */
  method StepForward(pos: int, n: int) returns (p: int, increments: nat)
    requires n >= 0
    ensures p == pos + n && increments == n
  {
    p, increments := pos, 0;
    var k := n;
    while k != 0
      invariant 0 <= k <= n
      invariant p == pos + (n - k) && increments == n - k
    {
      k := k - 1;
      p := p + 1;
      increments := increments + 1;
    }
  }

  /** while (n++) --pos: exactly -n decrements, for negative n. */
  method StepBackward(pos: int, n: int) returns (p: int, decrements: nat)
    requires n < 0
    ensures p == pos + n && decrements == -n
  {
    p, decrements := pos, 0;
    var k := n;
    while k != 0
      invariant n <= k <= 0
      invariant p == pos + (n - k) && decrements == k - n
    {
      k := k + 1;
      p := p - 1;
      decrements := decrements + 1;
    }
  }

  /** The bidirectional overload: forward n steps for n >= 0, back -n steps otherwise. */
  method AdvanceBidirectional(pos: int, n: int) returns (p: int, increments: nat, decrements: nat)
    ensures p == pos + n
    ensures n >= 0 ==> increments == n && decrements == 0
    ensures n < 0 ==> increments == 0 && decrements == -n
  {
    if n >= 0 {
      p, increments := StepForward(pos, n);
      decrements := 0;
    } else {
      p, decrements := StepBackward(pos, n);
      increments := 0;
    }
  }

  /** The input overload: n increments; a negative n would never stop. */
  method AdvanceInput(pos: int, n: int) returns (p: int, increments: nat, decrements: nat)
    requires n >= 0
    ensures p == pos + n && increments == n && decrements == 0
  {
    p, increments := StepForward(pos, n);
    decrements := 0;
  }

  /******** advance ********/

  /** advance by tag dispatch: the overload for the category's tag does the work. */
  method AdvanceTagDispatch(pos: int, n: int, cat: Category) returns (p: int, increments: nat, decrements: nat)
    requires OverloadFor(cat) == InputIterator ==> n >= 0
    ensures p == pos + n
    ensures (increments, decrements) == Steps(OverloadFor(cat), n)
  {
    match OverloadFor(cat)
    case RandomAccessIterator =>
      p, increments, decrements := AdvanceRandomAccess(pos, n);
    case BidirectionalIterator =>
      p, increments, decrements := AdvanceBidirectional(pos, n);
    case InputIterator =>
      p, increments, decrements := AdvanceInput(pos, n);
  }

  /** advance with constexpr-if: the branch of the first matching is_same test does the work. */
  method AdvanceConstexprIf(pos: int, n: int, cat: Category) returns (p: int, increments: nat, decrements: nat)
    requires FirstMatch(cat) == InputIterator ==> n >= 0
    ensures p == pos + n
    ensures (increments, decrements) == Steps(FirstMatch(cat), n)
  {
    if cat == RandomAccessIterator {
      p, increments, decrements := AdvanceRandomAccess(pos, n);
    } else if cat == BidirectionalIterator {
      p, increments, decrements := AdvanceBidirectional(pos, n);
    } else {
      p, increments, decrements := AdvanceInput(pos, n);
    }
  }

  /** Both versions of advance end at the same position with the same steps, for each of the four standard tags. */
  method BothAdvancesAgree(pos: int, n: int, cat: Category) returns (same: bool)
    requires OverloadFor(cat) == InputIterator ==> n >= 0
    ensures same
  {
    DispatchAgrees(cat);
    var p1, i1, d1 := AdvanceTagDispatch(pos, n, cat);
    var p2, i2, d2 := AdvanceConstexprIf(pos, n, cat);
    same := p1 == p2 && i1 == i2 && d1 == d2;
  }
}
