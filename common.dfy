/** Small helpers shared by the modules of the model: an optional value, integer bounds,
    the "last n elements" window, and counting multiples of a period. */
module Common {

  /** A value that may be absent: JavaScript's `undefined` for an optional field or option. */
  datatype Option<T> = None | Some(value: T) {
    function GetOr(default: T): T {
      match this
      case Some(v) => v
      case None => default
    }
  }

  /** JavaScript truthiness of an optional string: present and not the empty string. */
  predicate Truthy(s: Option<string>) {
    s.Some? && s.value != ""
  }

  function Min(a: int, b: int): int {
    if a <= b then a else b
  }

  function Max(a: int, b: int): int {
    if a >= b then a else b
  }

  /** The last `min(n, |s|)` elements of `s`, in their original order. */
  function LastN<T>(s: seq<T>, n: nat): (r: seq<T>)
    ensures |r| == Min(n, |s|)
    ensures r == s[|s| - |r|..]
  {
    if |s| <= n then s else s[|s| - n..]
  }

  /** Keeping a window of the last `n` elements and then extending it keeps the same
      window as extending first: the window of a window is the window of the whole. */
  lemma LastNOfAppend<T>(s: seq<T>, t: seq<T>, n: nat)
    ensures LastN(LastN(s, n) + t, n) == LastN(s + t, n)
  {
    var w := LastN(s, n);
    var p := s[..|s| - |w|];
    assert s == p + w;
    assert s + t == p + (w + t);
    LastNOfSuffix(p, w + t, n);
  }

  /** The window of a sequence only depends on a suffix at least as long as the window. */
  lemma LastNOfSuffix<T>(p: seq<T>, y: seq<T>, n: nat)
    requires |y| >= Min(n, |p + y|)
    ensures LastN(y, n) == LastN(p + y, n)
  {
    var m := Min(n, |p + y|);
    assert (p + y)[|p + y| - m..] == y[|y| - m..];
  }

  lemma HeadTail<T>(s: seq<T>)
    requires s != []
    ensures [s[0]] + s[1..] == s
  {
  }

  /** The concatenation of `f` applied to each element of `xs`, in order. */
  function FlatMap<X, Y>(f: X -> seq<Y>, xs: seq<X>): seq<Y>
    decreases |xs|
  {
    if xs == [] then [] else FlatMap(f, xs[..|xs| - 1]) + f(xs[|xs| - 1])
  }

  lemma {:induction false} FlatMapAppend<X, Y>(f: X -> seq<Y>, a: seq<X>, b: seq<X>)
    ensures FlatMap(f, a + b) == FlatMap(f, a) + FlatMap(f, b)
    decreases |b|
  {
    if b == [] {
      assert a + b == a;
    } else {
      var init := b[..|b| - 1];
      FlatMapAppend(f, a, init);
      assert (a + b)[..|a + b| - 1] == a + init;
      assert (a + b)[|a + b| - 1] == b[|b| - 1];
      assert FlatMap(f, b) == FlatMap(f, init) + f(b[|b| - 1]);
    }
  }

  lemma FlatMapOne<X, Y>(f: X -> seq<Y>, x: X)
    ensures FlatMap(f, [x]) == f(x)
  {
    assert [x][..0] == [];
  }

  lemma FlatMapPair<X, Y>(f: X -> seq<Y>, x: X, y: X)
    ensures FlatMap(f, [x, y]) == f(x) + f(y)
  {
    assert [x, y][..1] == [x];
    assert [x][..0] == [];
    assert FlatMap(f, [x]) == FlatMap(f, []) + f(x);
  }

  lemma FlatMapStep<X, Y>(f: X -> seq<Y>, xs: seq<X>, i: nat)
    requires i < |xs|
    ensures FlatMap(f, xs[..i + 1]) == FlatMap(f, xs[..i]) + f(xs[i])
  {
    assert xs[..i + 1][..i] == xs[..i];
  }

  /** The sum of `f` over the elements of `xs`. */
  function SumMap<X>(f: X -> nat, xs: seq<X>): nat
    decreases |xs|
  {
    if xs == [] then 0 else SumMap(f, xs[..|xs| - 1]) + f(xs[|xs| - 1])
  }

  lemma SumMapOne<X>(f: X -> nat, x: X)
    ensures SumMap(f, [x]) == f(x)
  {
    assert [x][..0] == [];
  }

  lemma {:induction false} SumMapAppend<X>(f: X -> nat, a: seq<X>, b: seq<X>)
    ensures SumMap(f, a + b) == SumMap(f, a) + SumMap(f, b)
    decreases |b|
  {
    if b == [] {
      assert a + b == a;
    } else {
      var init := b[..|b| - 1];
      SumMapAppend(f, a, init);
      assert (a + b)[..|a + b| - 1] == a + init;
      assert (a + b)[|a + b| - 1] == b[|b| - 1];
    }
  }

  /** The number of multiples of `period` in the range `1..n`. */
  function MultiplesUpTo(n: nat, period: nat): nat
    requires period > 0
  {
    if n == 0 then 0
    else MultiplesUpTo(n - 1, period) + (if n % period == 0 then 1 else 0)
  }

  /** Counting multiples one by one gives the integer quotient. */
  lemma {:induction false} MultiplesUpToIsQuotient(n: nat, period: nat)
    requires period > 0
    ensures MultiplesUpTo(n, period) == n / period
  {
    if n > 0 {
      MultiplesUpToIsQuotient(n - 1, period);
      QuotientStep(n - 1, period);
    }
  }

  /** Dividing `m + 1` instead of `m` raises the quotient exactly when `m + 1` is a multiple. */
  lemma QuotientStep(m: nat, period: nat)
    requires period > 0
    ensures (m + 1) / period == m / period + (if (m + 1) % period == 0 then 1 else 0)
  {
    var q, r := m / period, m % period;
    assert m == q * period + r && 0 <= r < period;
    if r + 1 < period {
      assert m + 1 == q * period + (r + 1);
      DivUnique(m + 1, period, q, r + 1);
    } else {
      assert m + 1 == (q + 1) * period + 0;
      DivUnique(m + 1, period, q + 1, 0);
    }
  }

  /** Euclidean division has a unique quotient and remainder. */
  lemma DivUnique(a: nat, d: nat, q: int, r: int)
    requires d > 0 && a == q * d + r && 0 <= r < d
    ensures a / d == q && a % d == r
  {
    var q', r' := a / d, a % d;
    var k := q - q';
    assert k * d == r' - r;
    if k > 0 {
      MulAtLeast(k, d);
    } else if k < 0 {
      MulAtLeast(-k, d);
    }
  }

  lemma MulAtLeast(k: int, d: nat)
    requires k >= 1
    ensures k * d >= d
  {
    assert k * d == (k - 1) * d + d;
    assert (k - 1) * d >= 0;
  }
}
