/** Shared helpers: an option type, duplicate-free sequences and 64-bit counters. */
module Common {

  datatype Option<+T> = None | Some(value: T)

  /** No element occurs twice. */
  predicate Distinct<T(==)>(s: seq<T>) {
    forall i, j :: 0 <= i < j < |s| ==> s[i] != s[j]
  }

  ghost function Elements<T>(s: seq<T>): set<T> {
    set x | x in s
  }

  /** A duplicate-free sequence is as long as its set of elements is large. */
  lemma {:induction false} DistinctSize<T>(s: seq<T>)
    requires Distinct(s)
    ensures |Elements(s)| == |s|
  {
    if s == [] {
      assert Elements(s) == {};
    } else {
      var n := |s| - 1;
      DistinctSize(s[..n]);
      assert s[n] !in s[..n];
      assert Elements(s) == Elements(s[..n]) + {s[n]};
    }
  }

  lemma SubsetSize<T>(a: set<T>, b: set<T>)
    requires a <= b
    ensures |a| <= |b|
  {
    assert b == a + (b - a);
  }

  /** The image of a set under a function injective on it has the same size. */
  lemma {:induction false} ImageSize<T, U>(a: set<T>, f: T -> U, image: set<U>)
    requires forall x, y :: x in a && y in a && f(x) == f(y) ==> x == y
    requires image == set x | x in a :: f(x)
    ensures |image| == |a|
    decreases |a|
  {
    if a == {} {
      assert image == {};
    } else {
      var x :| x in a;
      var rest := a - {x};
      var image' := set y | y in rest :: f(y);
      ImageSize(rest, f, image');
      assert f(x) !in image';
      assert image == image' + {f(x)};
    }
  }

  const U64: nat := 0x1_0000_0000_0000_0000
  const I64: nat := 0x8000_0000_0000_0000

  /** Adding one to a `uint64`. */
  function Inc(n: nat): nat {
    (n + 1) % U64
  }

  /** Adding the all-ones word to a `uint64`, which is how the source subtracts one. */
  function Dec(n: nat): nat {
    (n + (U64 - 1)) % U64
  }

  /** Go's conversion of a non-negative integer to `int64`. */
  function ToInt64(n: nat): int {
    if n % U64 < I64 then n % U64 else n % U64 - U64
  }

  /** Two's complement: the 64-bit integer congruent to the given one. */
  lemma ToInt64IsCongruent(n: nat)
    ensures 0 - I64 <= ToInt64(n) < I64 && (n - ToInt64(n)) % U64 == 0
    ensures n < I64 ==> ToInt64(n) == n
  {
  }

  /** Counting on from a wrapped-around counter. */
  lemma WrapShift(base: nat, m: nat, n: nat)
    requires m <= n
    ensures ((base + m) % U64 + (n - m)) % U64 == (base + n) % U64
  {
  }

  /** `n` blocks of size `b`. */
  ghost function Blocks(b: nat, n: nat): nat {
    if n == 0 then 0 else b + Blocks(b, n - 1)
  }

  lemma {:induction false} BlocksIsProduct(b: nat, n: nat)
    ensures Blocks(b, n) == b * n
  {
    if n > 0 {
      BlocksIsProduct(b, n - 1);
      assert b * n == b * (n - 1) + b;
    }
  }

  /** One block more than the quotient covers the count. */
  lemma BlocksCover(r: nat, b: nat)
    requires b > 0
    ensures r < Blocks(b, r / b + 1)
  {
    BlocksIsProduct(b, r / b + 1);
    assert b * (r / b + 1) == b * (r / b) + b;
    assert r == b * (r / b) + r % b;
  }

  lemma {:induction false} BlocksMonotone(b: nat, m: nat, n: nat)
    requires m <= n
    ensures Blocks(b, m) <= Blocks(b, n)
    decreases n
  {
    if m < n {
      BlocksMonotone(b, m, n - 1);
    }
  }
}
