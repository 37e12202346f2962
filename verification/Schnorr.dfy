// The Schnorr equation behind `sign` in tests/crypto.py, over any commutative group whose generator has the
// order of secp256k1 (SEC 2 version 2, section 2.4.1). Challenges and nonces are arbitrary naturals: the source
// takes both from 256-bit hashes and reduces neither.
module Schnorr {

  const Q: nat := 0xFFFFFFFFFFFFFFFFFFFFFFFFFFFFFFFEBAAEDCE6AF48A03BBFD25E8CD0364141

  datatype Group<!P> = Group(add: (P, P) -> P, zero: P, g: P)

  /** n·x: n copies of x added up. */
  function Times<P>(c: Group<P>, n: nat, x: P): P {
    if n == 0 then c.zero else c.add(x, Times(c, n - 1, x))
  }

  ghost predicate Commute<P>(c: Group<P>, x: P, y: P) {
    c.add(x, y) == c.add(y, x)
  }

  ghost predicate Associate<P>(c: Group<P>, x: P, y: P, z: P) {
    c.add(c.add(x, y), z) == c.add(x, c.add(y, z))
  }

  ghost predicate Neutral<P>(c: Group<P>, x: P) {
    c.add(c.zero, x) == x
  }

  /** A commutative group in which the generator has order exactly `q`. */
  ghost predicate OfOrder<P(!new)>(c: Group<P>, q: nat) {
    && (forall x, y :: Commute(c, x, y))
    && (forall x, y, z :: Associate(c, x, y, z))
    && (forall x :: Neutral(c, x))
    && Times(c, q, c.g) == c.zero
    && (forall n: nat | 0 < n < q :: Times(c, n, c.g) != c.zero)
  }

  lemma {:induction false} TimesSum<P(!new)>(c: Group<P>, q: nat, m: nat, n: nat, x: P)
    requires OfOrder(c, q)
    ensures Times(c, m + n, x) == c.add(Times(c, m, x), Times(c, n, x))
  {
    if m == 0 {
      assert Neutral(c, Times(c, n, x));
    } else {
      TimesSum(c, q, m - 1, n, x);
      assert Associate(c, x, Times(c, m - 1, x), Times(c, n, x));
    }
  }

  lemma {:induction false} TimesProduct<P(!new)>(c: Group<P>, q: nat, m: nat, n: nat, x: P)
    requires OfOrder(c, q)
    ensures Times(c, m * n, x) == Times(c, m, Times(c, n, x))
  {
    if m == 0 {
    } else {
      TimesProduct(c, q, m - 1, n, x);
      assert m * n == n + (m - 1) * n;
      TimesSum(c, q, n, (m - 1) * n, x);
    }
  }

  // Whole multiples of the order do not move the generator.
  lemma {:induction false} TimesPeriodic<P(!new)>(c: Group<P>, q: nat, n: nat, t: nat)
    requires OfOrder(c, q)
    ensures Times(c, n + t * q, c.g) == Times(c, n, c.g)
  {
    if t == 0 {
      assert n + t * q == n;
    } else {
      TimesPeriodic(c, q, n, t - 1);
      assert n + t * q == q + (n + (t - 1) * q);
      TimesSum(c, q, q, n + (t - 1) * q, c.g);
      assert Neutral(c, Times(c, n + (t - 1) * q, c.g));
    }
  }

  lemma TimesCongruent<P(!new)>(c: Group<P>, q: nat, m: nat, n: nat, t: int)
    requires OfOrder(c, q) && m == n + t * q
    ensures Times(c, m, c.g) == Times(c, n, c.g)
  {
    if t >= 0 {
      TimesPeriodic(c, q, n, t);
    } else {
      assert n == m + (-t) * q by {
        assert (-t) * q == -(t * q);
      }
      TimesPeriodic(c, q, m, -t);
    }
  }

  // Below the order, multiples of the generator are distinct.
  lemma TimesInjective<P(!new)>(c: Group<P>, q: nat, m: nat, n: nat)
    requires OfOrder(c, q) && m < n < q
    ensures Times(c, m, c.g) != Times(c, n, c.g)
  {
    TimesSum(c, q, m, q - n, c.g);
    TimesSum(c, q, n, q - n, c.g);
    assert 0 < m + (q - n) < q;
  }

  /** The signature over challenge `e` with private key `d` and nonce `k`. */
  function Sign(d: nat, k: nat, e: nat): (s: nat)
    ensures s < Q
  {
    (k - d * e) % Q
  }

  /** The verification equation: s·G + e·P = R. */
  ghost predicate Verifies<P(!new)>(c: Group<P>, s: nat, e: nat, pubKey: P, r: P) {
    c.add(Times(c, s, c.g), Times(c, e, pubKey)) == r
  }

  lemma SumOfMultiples<P(!new)>(c: Group<P>, d: nat, s: nat, e: nat)
    requires OfOrder(c, Q)
    ensures c.add(Times(c, s, c.g), Times(c, e, Times(c, d, c.g))) == Times(c, s + e * d, c.g)
  {
    TimesProduct(c, Q, e, d, c.g);
    TimesSum(c, Q, s, e * d, c.g);
  }

  // Adding one amount to two different reduced multiples keeps them different.
  lemma DifferentSums<P(!new)>(c: Group<P>, s: nat, s': nat, a: nat)
    requires OfOrder(c, Q) && s < Q && s' < Q && s != s'
    ensures Times(c, s + a, c.g) != Times(c, s' + a, c.g)
  {
    var back := a * Q - a;
    assert a * Q >= a by { assert a * (Q - 1) >= 0; }
    TimesSum(c, Q, s + a, back, c.g);
    TimesSum(c, Q, s' + a, back, c.g);
    TimesPeriodic(c, Q, s, a);
    TimesPeriodic(c, Q, s', a);
    if s < s' {
      TimesInjective(c, Q, s, s');
    } else {
      TimesInjective(c, Q, s', s);
    }
  }

  // Among reduced values, `sign` returns the one and only that verifies, for every key, challenge and nonce.
  lemma OnlySignVerifies<P(!new)>(c: Group<P>, d: nat, k: nat, e: nat, s: nat)
    requires OfOrder(c, Q) && s < Q
    ensures Verifies(c, s, e, Times(c, d, c.g), Times(c, k, c.g)) <==> s == Sign(d, k, e)
  {
    var signed := Sign(d, k, e);
    SumOfMultiples(c, d, signed, e);
    var t := (k - d * e) / Q;
    assert k - d * e == t * Q + signed;
    assert e * d == d * e;
    TimesCongruent(c, Q, k, signed + e * d, t);
    if s != signed {
      DifferentSums(c, s, signed, e * d);
      SumOfMultiples(c, d, s, e);
    }
  }
}
