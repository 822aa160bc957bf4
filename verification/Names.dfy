/** The tables of USB names: sixteen chains indexed by a hash that is a remainder of
    polynomials over GF(2), each chain searched from its newest entry. */
module Names {
  import opened Bags
  import opened Bytes

  // ------------------------------------------------------------ the hash

  const HASH_SIZE: nat := 16

  /** x^4 replaced by x in every term of degree four or more, once. */
  function Fold(n: bv32): bv32 {
    (n & 15) ^ ((n >> 4) << 1)
  }

  lemma FoldShrinks(n: bv32)
    ensures n >= 16 ==> Fold(n) < n
    ensures n < 16 ==> Fold(n) == n
  {
  }

  /** n as a polynomial over GF(2), folded until its degree is below four. */
  function Remainder(n: bv32): (r: bv32)
    ensures r < 16
    decreases n
  {
    if n < 16 then n
    else
      FoldShrinks(n);
      Remainder(Fold(n))
  }

  lemma RemainderOfFold(n: bv32)
    ensures Remainder(n) == Remainder(Fold(n))
  {
    FoldShrinks(n);
  }

  function Sum(a: bv32, b: bv32): bv32 {
    a ^ b
  }

  lemma FoldOfSum(a: bv32, b: bv32)
    ensures Fold(Sum(a, b)) == Sum(Fold(a), Fold(b))
  {
    BitsOfFold(a, b);
  }

  lemma BitsOfFold(a: bv32, b: bv32)
    ensures ((a ^ b) & 15) ^ (((a ^ b) >> 4) << 1) == ((a & 15) ^ ((a >> 4) << 1)) ^ ((b & 15) ^ ((b >> 4) << 1))
  {
  }

  predicate Linear(a: bv32, b: bv32) {
    Remainder(Sum(a, b)) == Sum(Remainder(a), Remainder(b))
  }

  lemma {:induction false} LinearAlways(a: bv32, b: bv32)
    ensures Linear(a, b)
    decreases a, b
  {
    hide Fold, Remainder, Linear, Sum;
    if a < 16 && b < 16 {
      SmallSum(a, b);
    } else {
      FoldShrinks(a);
      FoldShrinks(b);
      LinearAlways(Fold(a), Fold(b));
      LinearStep(a, b);
    }
  }

  lemma LinearStep(a: bv32, b: bv32)
    requires Linear(Fold(a), Fold(b))
    ensures Linear(a, b)
  {
    hide Fold, Remainder, Sum;
    FoldOfSum(a, b);
    RemainderOfFold(a);
    RemainderOfFold(b);
    RemainderOfFold(Sum(a, b));
  }

  /** The hash respects exclusive or. */
  lemma HashLinear(a: bv32, b: bv32)
    ensures Remainder(a ^ b) == Remainder(a) ^ Remainder(b)
  {
    hide Remainder;
    LinearAlways(a, b);
  }

  lemma SmallSum(a: bv32, b: bv32)
    requires a < 16 && b < 16
    ensures Linear(a, b)
  {
    assert Sum(a, b) < 16;
  }

  const QUOTIENT_MAX: bv32 := 0x0FFF_FFFF

  /** n = q * (x^4 + x) + r, as polynomials over GF(2). */
  predicate Divides(n: bv32, q: bv32, r: bv32) {
    q <= QUOTIENT_MAX && r < 16 && n == ((q << 4) ^ (q << 1)) ^ r
  }

  /** Whatever divides, the remainder is the same, and it is Remainder. */
  lemma DivisionIsUnique(n: bv32, q: bv32, r: bv32)
    requires Divides(n, q, r)
    ensures Remainder(n) == r
  {
    hide Remainder, Fold;
    var a, b := q << 4, q << 1;
    assert Fold(a) == b by { FoldOfMultiple(q); }
    RemainderOfFold(a);
    HashLinear(a, b);
    HashLinear(a ^ b, r);
    SelfSum(Remainder(a), r);
    assert Remainder(r) == r by { SmallRemainder(r); }
  }

  lemma FoldOfMultiple(q: bv32)
    requires q <= QUOTIENT_MAX
    ensures Fold(q << 4) == q << 1
  {
  }

  lemma SelfSum(x: bv32, r: bv32)
    ensures (x ^ x) ^ r == r
  {
  }

  lemma SmallRemainder(r: bv32)
    requires r < 16
    ensures Remainder(r) == r
  {
  }

  // ------------------------------------------------------------ the loop

  /** One bit, not one of the lowest three, and the bit three places below it. */
  predicate Masks(mask1: bv32, mask2: bv32) {
    mask1 >= 8 && mask1 & (mask1 - 1) == 0 && mask2 == mask1 >> 3
  }

  /** What has been folded is the quotient so far: the number differs from its start by
      x times it, and above the mask it is x^4 times it. */
  predicate Divided(number: bv32, num: bv32, q: bv32, mask: bv32) {
    && q <= QUOTIENT_MAX && num == number ^ (q << 1)
    && (num ^ (q << 4)) >> 1 < mask && (q << 4) & ((mask << 1) - 1) == 0
  }

  /** hashnum: a mask walks down the bits and folds each set one three places down. */
  method HashNum(number: bv32) returns (h: bv32)
    ensures h == Remainder(number)
    ensures exists q :: Divides(number, q, h)
  {
    hide Divided, Masks, Remainder, Divides;
    var num := number;
    var mask1: bv32, mask2: bv32 := 0x10 << 27, 0x02 << 27;
    ghost var q: bv32 := 0;
    assert Masks(mask1, mask2) && Divided(number, num, q, mask1) by { NothingFolded(number); }
    while mask1 >= 0x10
      invariant Masks(mask1, mask2) && Divided(number, num, q, mask1)
      decreases mask1
    {
      Halved(mask1, mask2);
      if num & mask1 != 0 {
        Folds(number, num, q, mask1, mask2);
        num := num ^ mask2;
        q := q ^ (mask1 >> 4);
      } else {
        Passes(number, num, q, mask1, mask2);
      }
      mask1, mask2 := mask1 >> 1, mask2 >> 1;
    }
    h := num & 15;
    Folded(number, num, q, mask1, mask2);
    DivisionIsUnique(number, q, h);
  }

  lemma NothingFolded(number: bv32)
    ensures Masks(0x10 << 27, 0x02 << 27) && Divided(number, number, 0, 0x10 << 27)
  {
  }

  lemma Halved(mask1: bv32, mask2: bv32)
    requires Masks(mask1, mask2) && mask1 >= 16
    ensures Masks(mask1 >> 1, mask2 >> 1) && mask1 >> 1 < mask1
  {
  }

  lemma Passes(number: bv32, num: bv32, q: bv32, mask1: bv32, mask2: bv32)
    requires Masks(mask1, mask2) && mask1 >= 16 && Divided(number, num, q, mask1) && num & mask1 == 0
    ensures Divided(number, num, q, mask1 >> 1)
  {
  }

  lemma Folds(number: bv32, num: bv32, q: bv32, mask1: bv32, mask2: bv32)
    requires Masks(mask1, mask2) && mask1 >= 16 && Divided(number, num, q, mask1) && num & mask1 != 0
    ensures Divided(number, num ^ mask2, q ^ (mask1 >> 4), mask1 >> 1)
  {
  }

  lemma Folded(number: bv32, num: bv32, q: bv32, mask1: bv32, mask2: bv32)
    requires Masks(mask1, mask2) && mask1 < 16 && Divided(number, num, q, mask1)
    ensures Divides(number, q, num & 15)
  {
    hide Masks, Divided, Divides, Low, Differs, IsSum;
    assert mask1 == 8 by { LowestMask(mask1, mask2); }
    AllFolded(number, num, q);
    LowBits(num, q << 4);
    Regrouped(number, num, q << 1, q << 4, num & 15);
    LowMask(num);
    SumDivides(number, q, num & 15);
  }

  lemma LowestMask(mask1: bv32, mask2: bv32)
    requires Masks(mask1, mask2) && mask1 < 16
    ensures mask1 == 8
  {
  }

  /** Above the lowest four bits num is b, which has none of these. */
  predicate Low(num: bv32, b: bv32) {
    (num ^ b) >> 1 < 8 && b & 15 == 0
  }

  predicate Differs(x: bv32, y: bv32, d: bv32) {
    x == y ^ d
  }

  lemma AllFolded(number: bv32, num: bv32, q: bv32)
    requires Divided(number, num, q, 8)
    ensures q <= QUOTIENT_MAX && Differs(num, number, q << 1) && Low(num, q << 4)
  {
  }

  lemma LowBits(num: bv32, b: bv32)
    requires Low(num, b)
    ensures Differs(num, b, num & 15)
  {
  }

  lemma LowMask(num: bv32)
    ensures num & 15 < 16
  {
  }

  /** n is the sum of three. */
  predicate IsSum(n: bv32, a: bv32, b: bv32, r: bv32) {
    n == (b ^ a) ^ r
  }

  lemma Regrouped(number: bv32, num: bv32, a: bv32, b: bv32, r: bv32)
    requires Differs(num, number, a) && Differs(num, b, r)
    ensures IsSum(number, a, b, r)
  {
  }

  lemma SumDivides(number: bv32, q: bv32, r: bv32)
    requires q <= QUOTIENT_MAX && r < 16 && IsSum(number, q << 1, q << 4, r)
    ensures Divides(number, q, r)
  {
  }
}
