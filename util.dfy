/** The example utilities of `examples/util.py`: a Fibonacci list built by an
    append loop, and a recursive factorial that rejects negative input. */
module Util {
  import opened Results

  /** The Fibonacci numbers, F(0) = 0 and F(1) = 1: the reference that the
      list built by `Fibonacci` is checked against. */
  function Fib(i: nat): nat
  {
    if i < 2 then i else Fib(i - 1) + Fib(i - 2)
  }

  /** `fibonacci(n)`: the first `n` Fibonacci numbers, built from `[0, 1]`
      by appending the sum of the last two entries. */
  method Fibonacci(n: int) returns (sequence: seq<int>)
    ensures n <= 0 ==> sequence == []
    ensures n == 1 ==> sequence == [0]
    ensures n >= 1 ==> |sequence| == n
    ensures n >= 2 ==> sequence[..2] == [0, 1]
    ensures forall i :: 2 <= i < |sequence| ==> sequence[i] == sequence[i - 1] + sequence[i - 2]
    ensures forall i :: 0 <= i < |sequence| ==> sequence[i] == Fib(i)
  {
    if n <= 0 {
      return [];
    } else if n == 1 {
      return [0];
    }
    sequence := [0, 1];
    for i := 2 to n
      invariant |sequence| == i
      invariant forall k :: 0 <= k < i ==> sequence[k] == Fib(k)
    {
      sequence := sequence + [sequence[i - 1] + sequence[i - 2]];
    }
    sequence := sequence[..n];
  }

  const NegativeFactorialMessage := "Factorial not defined for negative numbers"

  /** `factorial(n)`: raises ValueError below zero, otherwise n! by
      recursion on n - 1. */
  function Factorial(n: int): (r: Result<int>)
    ensures r.Raise? <==> n < 0
    ensures r.Raise? ==> r.exc == ValueError(NegativeFactorialMessage)
    ensures n == 0 || n == 1 ==> r == Ok(1)
    ensures r.Ok? ==> r.value >= 1 && r.value >= n
    ensures r.Ok? ==> forall k :: 1 <= k <= n ==> r.value % k == 0
    decreases if n < 0 then 0 else n
  {
    if n < 0 then
      Raise(ValueError(NegativeFactorialMessage))
    else if n == 0 || n == 1 then
      Ok(1)
    else
      match Factorial(n - 1)
      case Ok(f) =>
        MultipleOfFactors(n, f);
        Ok(n * f)
      case Raise(e) => Raise(e)
  }

  /** Multiplying by `n` keeps every divisor of `f` and adds `n` itself. */
  lemma MultipleOfFactors(n: int, f: int)
    requires n >= 2 && f >= 1
    requires forall k :: 1 <= k <= n - 1 ==> f % k == 0
    ensures forall k :: 1 <= k <= n ==> (n * f) % k == 0
  {
    forall k | 1 <= k <= n
      ensures (n * f) % k == 0
    {
      if k == n {
        MultipleOf(n, f);
      } else {
        MultipleOf(k, f / k * n);
        assert f == k * (f / k) + f % k;
        assert n * f == k * (f / k * n);
      }
    }
  }

  lemma MultipleOf(k: int, m: int)
    requires k >= 1
    ensures (k * m) % k == 0
  {
    var q, r := (k * m) / k, (k * m) % k;
    assert k * m == k * q + r && 0 <= r < k;
    var d := m - q;
    assert k * d == r;
  }

  /** The ascending product lo * (lo + 1) * ... * hi, an independent
      definition of the factorial. */
  function Product(lo: int, hi: int): int
    decreases hi - lo
  {
    if lo > hi then 1 else lo * Product(lo + 1, hi)
  }

  lemma {:induction false} ProductTakeLast(lo: int, hi: int)
    requires lo <= hi
    ensures Product(lo, hi) == Product(lo, hi - 1) * hi
    decreases hi - lo
  {
    if lo < hi {
      ProductTakeLast(lo + 1, hi);
      calc {
        Product(lo, hi);
        lo * Product(lo + 1, hi);
        lo * (Product(lo + 1, hi - 1) * hi);
        (lo * Product(lo + 1, hi - 1)) * hi;
        Product(lo, hi - 1) * hi;
      }
    }
  }

  /** For every n >= 0, `factorial(n)` is the product 1 * 2 * ... * n. */
  lemma {:induction false} FactorialIsProduct(n: int)
    requires n >= 0
    ensures Factorial(n) == Ok(Product(1, n))
  {
    if n >= 2 {
      FactorialIsProduct(n - 1);
      ProductTakeLast(1, n);
    }
  }

  /** The recurrence of `factorial` for n >= 2. */
  lemma FactorialStep(n: int)
    requires n >= 2
    ensures Factorial(n).value == n * Factorial(n - 1).value
  {
  }

  /** The value printed by the module's own demonstration. */
  lemma FactorialOfFive()
    ensures Factorial(5) == Ok(120)
  {
  }
}
