/** The wrap-around of ring indexes by masking: (x + 1) & (size - 1). */
module RingMask {

  /** Bitwise and. */
  function And(a: nat, b: nat): (r: nat)
    decreases a
  {
    if a == 0 || b == 0 then 0
    else 2 * And(a / 2, b / 2) + (if a % 2 == 1 && b % 2 == 1 then 1 else 0)
  }

  lemma {:induction false} AndCommutes(a: nat, b: nat)
    ensures And(a, b) == And(b, a)
    decreases a
  {
    if a != 0 && b != 0 {
      AndCommutes(a / 2, b / 2);
    }
  }

  function Pow2(k: nat): (r: nat)
    ensures r >= 1
  {
    if k == 0 then 1 else 2 * Pow2(k - 1)
  }

  ghost predicate IsPow2(n: nat) { exists k :: 0 <= k <= n && Pow2(k) == n }

  lemma MaskStep(a: nat, m: nat)
    requires m >= 1
    ensures And(a, 2 * m - 1) == 2 * And(a / 2, m - 1) + a % 2
  {
    assert (2 * m - 1) / 2 == m - 1 && (2 * m - 1) % 2 == 1;
  }

  lemma MaskDoubles(a: nat, m: nat)
    requires m >= 1 && And(a / 2, m - 1) == a / 2 % m
    ensures And(a, 2 * m - 1) == a % (2 * m)
  {
    MaskStep(a, m);
    HalfRemainder(a, m);
  }

  lemma {:induction false} MaskIsRemainder(a: nat, k: nat)
    ensures And(a, Pow2(k) - 1) == a % Pow2(k)
    decreases k
  {
    if k > 0 {
      MaskIsRemainder(a / 2, k - 1);
      MaskDoubles(a, Pow2(k - 1));
    }
  }

  lemma HalfRemainder(a: nat, m: nat)
    requires m > 0
    ensures a % (2 * m) == 2 * (a / 2 % m) + a % 2
  {
    var q, r := a / 2 / m, a / 2 % m;
    assert a == 2 * (q * m + r) + a % 2;
    var x := 2 * r + a % 2;
    assert a == q * (2 * m) + x && x < 2 * m;
    RemainderIs(a, 2 * m, q, x);
  }

  lemma AtLeastOne(k: int, d: nat)
    requires k >= 1
    ensures k * d >= d
  {
  }

  lemma RemainderIs(a: nat, d: nat, q: nat, r: nat)
    requires d > 0 && a == q * d + r && r < d
    ensures a % d == r
  {
    var p, s := a / d, a % d;
    SameQuotient(p, q, d, s, r);
  }

  lemma SameQuotient(p: int, q: int, d: nat, s: nat, r: nat)
    requires p * d + s == q * d + r && s < d && r < d
    ensures p == q && s == r
  {
    assert (q - p) * d == q * d - p * d && (p - q) * d == p * d - q * d;
    if p < q {
      AtLeastOne(q - p, d);
    } else if p > q {
      AtLeastOne(p - q, d);
    }
  }

  lemma {:induction false} AndSelf(a: nat)
    ensures And(a, a) == a
  {
    if a > 0 {
      AndSelf(a / 2);
    }
  }

  lemma {:induction false} OnlyPowers(n: nat)
    requires n >= 1 && And(n, n - 1) == 0
    ensures IsPow2(n)
  {
    if n == 1 {
      assert Pow2(0) == 1;
    } else if n % 2 == 1 {
      assert (n - 1) / 2 == n / 2;
      AndSelf(n / 2);
    } else {
      assert (n - 1) / 2 == n / 2 - 1;
      OnlyPowers(n / 2);
      var k :| 0 <= k <= n / 2 && Pow2(k) == n / 2;
      assert Pow2(k + 1) == n;
    }
  }

  /** The index after x, as the queue computes it. */
  function Next(x: nat, size: nat): nat
    requires size >= 1
  {
    And(x + 1, size - 1)
  }

  ghost predicate MaskWraps(size: nat)
    requires size >= 1
  {
    forall x :: 0 <= x < size ==> Next(x, size) == (x + 1) % size
  }

  /** Masking steps a ring index round all its slots exactly when the size is a power of two. */
  lemma MaskWrapsIff(size: nat)
    requires size >= 1
    ensures MaskWraps(size) <==> IsPow2(size)
  {
    if IsPow2(size) {
      var k :| 0 <= k <= size && Pow2(k) == size;
      forall x | 0 <= x < size ensures Next(x, size) == (x + 1) % size {
        MaskIsRemainder(x + 1, k);
      }
    } else if MaskWraps(size) {
      assert Next(size - 1, size) == size % size == 0;
      OnlyPowers(size);
    }
  }

  lemma NextIsRemainder(x: nat, size: nat)
    requires x < size && IsPow2(size)
    ensures Next(x, size) == (x + 1) % size
  {
    var k :| 0 <= k <= size && Pow2(k) == size;
    MaskIsRemainder(x + 1, k);
  }

  lemma NextWraps(x: nat, size: nat)
    requires x < size && IsPow2(size)
    ensures Next(x, size) == if x + 1 == size then 0 else x + 1
  {
    NextIsRemainder(x, size);
    if x + 1 == size {
      RemainderIs(x + 1, size, 1, 0);
    } else {
      RemainderIs(x + 1, size, 0, x + 1);
    }
  }
}
