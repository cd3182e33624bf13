/** Conversion of an order total in cents to wallet credits, in the signed
    64-bit arithmetic the service uses. */
module Credits {

  const MIN64: int := -0x8000_0000_0000_0000
  const MAX64: int := 0x7FFF_FFFF_FFFF_FFFF
  const MODULUS: int := 0x1_0000_0000_0000_0000
  const CREDITS_PER_RMB: int := 10

  predicate Int64(x: int) {
    MIN64 <= x <= MAX64
  }

  type int64 = x: int | Int64(x)

  // The int64 a mathematical result wraps around to.
  function Wrap64(x: int): (r: int)
    ensures Int64(r)
    ensures Int64(x) ==> r == x
  {
    (x - MIN64) % MODULUS + MIN64
  }

  // Go's integer division truncates towards zero.
  function TruncDiv(a: int, b: int): int
    requires b > 0
  {
    if a >= 0 then a / b else -(-a / b)
  }

  function ConvertCashAmountToCredits(cents: int64): int {
    if cents <= 0 then 0 else TruncDiv(Wrap64(Wrap64(cents * CREDITS_PER_RMB) + 99), 100)
  }

  function OrderTotal(unitAmount: int64, quantity: int64): int64 {
    Wrap64(unitAmount * quantity)
  }

  // The least number of credits worth at least the given amount (10 cents each).
  predicate IsCeiling(cents: int, credits: int) {
    10 * (credits - 1) < cents <= 10 * credits
  }

  const MAX_CENTS: int := (MAX64 - 99) / CREDITS_PER_RMB

  lemma OverflowIsFarAway(x: int)
    requires x > MAX64
    ensures Wrap64(x) <= x - MODULUS
  {
  }

  // Exactly the amounts up to MAX_CENTS are converted to their exact ceiling.
  lemma ConversionIsCeilingIff(cents: int)
    requires 0 < cents <= MAX64
    ensures IsCeiling(cents, ConvertCashAmountToCredits(cents)) <==> cents <= MAX_CENTS
  {
    var product := cents * CREDITS_PER_RMB;
    if cents <= MAX_CENTS {
      assert Wrap64(product) == product;
    } else {
      assert product + 99 > MAX64;
      if product <= MAX64 {
        OverflowIsFarAway(product + 99);
        assert Wrap64(Wrap64(product) + 99) < 0;
      } else {
        OverflowIsFarAway(product);
        var w := Wrap64(product);
        assert w + 99 <= product + 99 - MODULUS;
        assert Wrap64(w + 99) <= w + 99;
        assert ConvertCashAmountToCredits(cents) * 100 <= product + 99 - MODULUS || ConvertCashAmountToCredits(cents) <= 0;
      }
    }
  }

  // The total is exact iff the mathematical product fits in 64 bits.
  lemma OrderTotalIsExactIff(unitAmount: int64, quantity: int64)
    ensures OrderTotal(unitAmount, quantity) == unitAmount * quantity <==> Int64(unitAmount * quantity)
  {
  }

  lemma ConversionIsMonotone(a: int, b: int)
    requires Int64(a) && a <= b <= MAX_CENTS
    ensures ConvertCashAmountToCredits(a) <= ConvertCashAmountToCredits(b)
  {
    if a > 0 {
      ConversionIsCeilingIff(a);
      ConversionIsCeilingIff(b);
    }
  }

  function Sum(parts: seq<int>): int {
    if parts == [] then 0 else parts[0] + Sum(parts[1..])
  }

  function SumOfCredits(parts: seq<int>): int
    requires forall p :: p in parts ==> Int64(p)
  {
    if parts == [] then 0 else ConvertCashAmountToCredits(parts[0]) + SumOfCredits(parts[1..])
  }

  // Tenfold credits exceed the amount by at most nine cents a part.
  lemma {:induction false} SplitBounds(parts: seq<int>)
    requires forall p :: p in parts ==> 0 < p <= MAX_CENTS
    ensures Sum(parts) <= 10 * SumOfCredits(parts) <= Sum(parts) + 9 * |parts|
  {
    if parts != [] {
      assert parts == [parts[0]] + parts[1..];
      assert parts[0] in parts;
      assert forall p :: p in parts[1..] ==> p in parts;
      ConversionIsCeilingIff(parts[0]);
      SplitBounds(parts[1..]);
    }
  }

  // Paying in n positive parts is never cheaper and costs at most n - 1 credits more.
  lemma SplittingCostsLittle(parts: seq<int>)
    requires parts != [] && (forall p :: p in parts ==> 0 < p) && Sum(parts) <= MAX_CENTS
    ensures forall p :: p in parts ==> p <= MAX_CENTS
    ensures 0 < Sum(parts)
    ensures ConvertCashAmountToCredits(Sum(parts)) <= SumOfCredits(parts)
    ensures SumOfCredits(parts) <= ConvertCashAmountToCredits(Sum(parts)) + |parts| - 1
  {
    PartsBelowSum(parts);
    SplitBounds(parts);
    ConversionIsCeilingIff(Sum(parts));
  }

  lemma {:induction false} PartsBelowSum(parts: seq<int>)
    requires forall p :: p in parts ==> 0 < p
    ensures |parts| <= Sum(parts)
    ensures forall p :: p in parts ==> p <= Sum(parts)
  {
    if parts != [] {
      assert parts == [parts[0]] + parts[1..];
      assert parts[0] in parts;
      assert forall p :: p in parts[1..] ==> p in parts;
      PartsBelowSum(parts[1..]);
    }
  }

  lemma TruncDivTruncates(a: int, b: int)
    requires b > 0
    ensures var r := TruncDiv(a, b);
            && (a >= 0 ==> b * r <= a < b * (r + 1))
            && (a < 0 ==> b * (r - 1) < a <= b * r)
  {
    if a < 0 {
      assert -a == b * (-a / b) + -a % b;
    } else {
      assert a == b * (a / b) + a % b;
    }
  }
}
