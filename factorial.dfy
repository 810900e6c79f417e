/**
 * The `Factorial` trait: one iterative algorithm, attached unchanged to every
 * primitive integer type and to the arbitrary-precision BigInt and BigUint.
 */
module FactorialTrait {
  import opened FactorialMath

  /**
   * The types that implement the trait. isize and usize are taken with a
   * 64-bit pointer width; BigInt and BigUint are unbounded.
   */
  datatype IntType =
    | BigInt | BigUint
    | I8 | I16 | I32 | I64 | I128 | Isize
    | U8 | U16 | U32 | U64 | U128 | Usize
  {
    /** True when x is a value of this type. */
    predicate Contains(x: int)
    {
      match this
      case BigInt => true
      case BigUint => 0 <= x
      case I8 => -0x80 <= x <= 0x7F
      case I16 => -0x8000 <= x <= 0x7FFF
      case I32 => -0x8000_0000 <= x <= 0x7FFF_FFFF
      case I64 | Isize => -0x8000_0000_0000_0000 <= x <= 0x7FFF_FFFF_FFFF_FFFF
      case I128 =>
        -0x8000_0000_0000_0000_0000_0000_0000_0000 <= x <= 0x7FFF_FFFF_FFFF_FFFF_FFFF_FFFF_FFFF_FFFF
      case U8 => 0 <= x <= 0xFF
      case U16 => 0 <= x <= 0xFFFF
      case U32 => 0 <= x <= 0xFFFF_FFFF
      case U64 | Usize => 0 <= x <= 0xFFFF_FFFF_FFFF_FFFF
      case U128 => 0 <= x <= 0xFFFF_FFFF_FFFF_FFFF_FFFF_FFFF_FFFF_FFFF
    }
  }

  /** Multiplication of type t; the precondition rules out overflow. */
  function Mul(t: IntType, a: int, b: int): (r: int)
    requires t.Contains(a * b)
  {
    a * b
  }

  /** Addition of type t; the precondition rules out overflow. */
  function Add(t: IntType, a: int, b: int): (r: int)
    requires t.Contains(a + b)
  {
    a + b
  }

  /**
   * Once n! is a value of t, no step of the loop leaves t: at counter i
   * (1 <= i <= n) the new accumulator (i - 1)! * i is i!, a value of t, and
   * so is the next counter i + 1.
   */
  lemma LoopStaysInRange(t: IntType, n: nat, i: int)
    requires t.Contains(n) && t.Contains(Fact(n))
    requires 1 <= i <= n
    ensures Fact(i - 1) * i == Fact(i) && t.Contains(Fact(i))
    ensures t.Contains(i + 1)
  {
    FactMonotone(i, n);
    assert Fact(i) == i * Fact(i - 1);
    if 3 <= n {
      CounterBelowFact(n);
    }
  }

  /**
   * The trait's default method `factorial`: it requires a non-negative
   * receiver (the source asserts it), then multiplies an accumulator by
   * 1, 2, ..., n. The result is n! whatever the implementing type, and the
   * loop body runs exactly n times.
   */
  method Factorial(t: IntType, n: int) returns (r: int, ghost steps: nat)
    requires t.Contains(n)
    requires n >= 0
    requires t.Contains(Fact(n))
    ensures r == Fact(n)
    ensures steps == n
  {
    var fact := 1;
    var i := 1;
    steps := 0;
    while i <= n
      invariant 1 <= i <= n + 1
      invariant fact == Fact(i - 1)
      invariant steps == i - 1
      decreases n - i
    {
      LoopStaysInRange(t, n, i);
      fact := Mul(t, fact, i);
      assert fact == Fact(i);
      i := Add(t, i, 1);
      steps := steps + 1;
    }
    r := fact;
  }

  /** The values the crate's test expects for factorial(0), ..., factorial(10). */
  const ExpectedFactorials: seq<nat> :=
    [1, 1, 2, 6, 24, 120, 720, 5_040, 40_320, 362_880, 3_628_800]

  /** factorial(i) equals the expected table entry for every i in 0..=10; in particular 0! = 1 and 10! = 3628800. */
  lemma ExpectedValues()
    ensures |ExpectedFactorials| == 11
    ensures forall i :: 0 <= i < |ExpectedFactorials| ==> Fact(i) == ExpectedFactorials[i]
  {
    assert Fact(10) == 3_628_800;
  }

  /**
   * On every implementing type that can hold 3628800 (the test's usize among
   * them), each test input 0..=10 is a value of the type and so is its
   * factorial: the method's preconditions hold for the whole test.
   */
  lemma ExpectedValuesAdmissible(t: IntType)
    requires t.Contains(3_628_800)
    ensures forall i: nat :: i <= 10 ==> t.Contains(i) && t.Contains(Fact(i))
  {
    forall i: nat | i <= 10
      ensures t.Contains(i) && t.Contains(Fact(i))
    {
      FactMonotone(i, 10);
      ExpectedValues();
    }
  }

  /** With an unbounded type the crate's bigint test value holds: 30! = 265252859812191058636308480000000. */
  lemma Factorial30()
    ensures Fact(30) == 265252859812191058636308480000000
    ensures BigUint.Contains(Fact(30))
  {
    ExpectedValues();
    assert Fact(15) == 1_307_674_368_000;
    assert Fact(20) == 2_432_902_008_176_640_000;
    assert Fact(25) == 15_511_210_043_330_985_984_000_000;
  }
}
