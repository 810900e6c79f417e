# rust-factorial in Dafny

A model of the `factorial` crate: the trait `Factorial`, whose one default
method `factorial` computes n! by repeated multiplication, and the empty
implementations that attach it to every primitive integer type and to
`num_bigint::BigInt` / `BigUint`.

- `math.dfy`, module `FactorialMath`: the mathematical factorial `Fact`,
  an independent "product of 1..n" definition `Product`, and lemmas about
  them (the two agree, the step the loop takes, monotonicity).
- `factorial.dfy`, module `FactorialTrait`: `IntType`, one constructor per
  implementing type with its value range (`Contains`); the method
  `Factorial`, the trait's default method as an imperative loop over the
  two locals `fact` and `i`; and lemmas for the values the crate's tests
  expect.

The `assert!(*self >= Zero::zero())` at the head of `factorial` rejects a
caller bug rather than reporting an error, so it is modelled as the
precondition `n >= 0`: a Dafny caller that might pass a negative number does
not verify. The receiver is read through a shared reference and never
changed; `Factorial` takes it as a value parameter and has no `modifies`
clause, so the only state it changes is its locals. Its result does not
depend on the implementing type `t`: `factorial(5) == 120` on every type
that holds 120.

Each arithmetic step of the loop goes through `Mul` or `Add` of the
implementing type, whose preconditions say the result stays in the type's
range. `Factorial` requires n! itself to be a value of the type, and
`LoopStaysInRange` proves that then no intermediate product or counter
overflows, so the requirement on n! is the only one a caller needs.

## Model

| member | source | states |
|---|---|---|
| `FactorialMath.Fact` | src/lib.rs:9-13 | n! is positive for every n >= 0, in particular 0! = 1 |
| `FactorialMath.FactIsProduct` | src/lib.rs:9-10 | n! equals the product of the integers 1..n, the quantity the loop accumulates |
| `FactorialMath.ProductLast` | src/lib.rs:28-31 | the product of lo..hi is the product of lo..hi-1 times hi, so the last iteration (i = n) turns (n-1)! into n * (n-1)! |
| `FactorialMath.FactMonotone` | src/lib.rs:23-33 | for m <= n, m! <= n!: the result never decreases as the receiver grows |
| `FactorialMath.FactStrictlyIncreasing` | src/lib.rs:23-33 | for m < n, m! < n! exactly when n >= 2 (0! = 1! = 1 is the only tie) |
| `FactorialTrait.Factorial` | src/lib.rs:23-33 | for a non-negative receiver of type t whose factorial fits in t, the result is n! whatever t is, and the loop body runs exactly n times |
| `FactorialTrait.LoopStaysInRange` | src/lib.rs:45-56 | on any implementing type that holds n and n!, every intermediate accumulator (i-1)! * i and counter i + 1 of the loop is also a value of the type |
| `FactorialTrait.ExpectedValues` | src/lib.rs:64-68 | factorial(i) for i = 0..=10 is 1, 1, 2, 6, 24, 120, 720, 5040, 40320, 362880, 3628800 |
| `FactorialTrait.ExpectedValuesAdmissible` | src/lib.rs:65-67 | on every implementing type that can hold 3628800, each test input 0..=10 and its factorial are values of the type |
| `FactorialTrait.Factorial30` | src/lib.rs:73-81 | 30! = 265252859812191058636308480000000, a value of BigUint |

## Left out

- Factorial: requires n! to be a value of the implementing type (and, through `Add`, every counter value to be one too); fixed-width overflow when it is not is not modelled, because the crate adds no handling of its own and the behaviour depends on the build profile. In a debug build the multiplication at src/lib.rs:29 panics. In a release build the arithmetic wraps, and for n = T::MAX (`255u8`, `127i8`) the call never returns: at i == T::MAX the increment at src/lib.rs:30 wraps i to T::MIN, so the guard `i <= n` at src/lib.rs:28 holds again forever.
- The trait bounds `num_integer::Integer + Clone` and the `One`/`Zero` constants are foreign library code; the model uses Dafny's unbounded `int` with the literals 0 and 1.
- isize and usize are taken with a 64-bit pointer width; other widths are not modelled.
- The `num-bigint` feature gate (src/lib.rs:40-43) is build configuration; BigInt and BigUint are always present in `IntType`.
- The decimal formatting with `to_string` in the bigint test is foreign library code; `Factorial30` states the numeric value instead.
- Termination of the loop is proved by Dafny from the decreasing measure n - i only on the inputs `Factorial` admits (n! a value of the type); it says nothing about the non-terminating wrapped loop above. The exact iteration count is the ghost out-parameter `steps` of `Factorial`.
