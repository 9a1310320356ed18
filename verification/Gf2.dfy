/** Polynomials over GF(2) as bit strings, most significant coefficient first. */
module Gf2 {
  type Bits = seq<bool>

  function Zeros(n: nat): (z: Bits)
    ensures |z| == n && forall k :: 0 <= k < n ==> !z[k]
  {
    seq(n, _ => false)
  }

  /** Addition: coefficientwise exclusive or. */
  function Xor(a: Bits, b: Bits): (c: Bits)
    requires |a| == |b|
    ensures |c| == |a| && forall k :: 0 <= k < |c| ==> c[k] == (a[k] != b[k])
  {
    seq(|a|, k requires 0 <= k < |a| => a[k] != b[k])
  }

  /** x^8 + x^7 + x^3 + x^2 + 1: the byte 0x8D below an implicit leading coefficient. */
  const GENERATOR: Bits := [true, true, false, false, false, true, true, false, true]

  /** The product q * GENERATOR, by schoolbook multiplication: one shifted copy per set coefficient. */
  function Times(q: Bits): (p: Bits)
    ensures |p| == |q| + 8
  {
    if q == [] then Zeros(8)
    else
      var n := |q| - 1;
      Xor(Times(q[..n]) + [false], Zeros(n) + (if q[n] then GENERATOR else Zeros(9)))
  }

  ghost predicate IsMultiple(p: Bits) {
    exists q :: Times(q) == p
  }

  lemma TimesSnoc(q: Bits, c: bool)
    ensures Times(q + [c]) == Xor(Times(q) + [false], Zeros(|q|) + (if c then GENERATOR else Zeros(9)))
  {
    assert (q + [c])[..|q|] == q;
  }

  lemma TimesShift(q: Bits)
    ensures Times(q + [false]) == Times(q) + [false]
  {
    TimesSnoc(q, false);
  }

  lemma TimesAt(q: Bits, k: nat)
    requires q != [] && k < |q| + 8
    ensures var n := |q| - 1;
            Times(q)[k] == ((k < n + 8 && Times(q[..n])[k]) != (k >= n && q[n] && GENERATOR[k - n]))
  {
  }

  /** The generator has constant term 1, so a product ending in 0 has a factor ending in 0. */
  lemma TimesUnshift(q: Bits, c: bool, p: Bits)
    requires Times(q + [c]) == p + [false]
    ensures !c && Times(q) == p
  {
    hide Times;
    var n, q' := |q|, q + [c];
    assert q'[..n] == q;
    TimesAt(q', n + 8);
    assert (p + [false])[n + 8] == false;
    forall k | 0 <= k < n + 8 ensures Times(q)[k] == p[k] {
      TimesAt(q', k);
      assert (p + [false])[k] == p[k];
    }
  }

  /** Multiplying by x^8 neither creates nor destroys divisibility: x does not divide the generator. */
  lemma {:induction false} MultipleShift(p: Bits, k: nat)
    requires |p| >= 8
    ensures IsMultiple(p + Zeros(k)) <==> IsMultiple(p)
  {
    if k == 0 {
      assert p + Zeros(0) == p;
    } else {
      MultipleShift(p, k - 1);
      var p' := p + Zeros(k - 1);
      assert p + Zeros(k) == p' + [false];
      if q :| Times(q) == p' + [false] {
        var n := |q| - 1;
        assert q == q[..n] + [q[n]];
        TimesUnshift(q[..n], q[n], p');
      }
      if q :| Times(q) == p' {
        TimesShift(q);
        assert Times(q + [false]) == p' + [false];
      }
    }
  }

  /** Division with remainder is unique: quotient and remainder are determined by the sum. */
  lemma {:induction false} DivisionUnique(q: Bits, r: Bits, q': Bits, r': Bits)
    requires |q| == |q'| && |r| == |r'| == 8
    requires Xor(Times(q), Zeros(|q|) + r) == Xor(Times(q'), Zeros(|q|) + r')
    ensures q == q' && r == r'
  {
    if q != q' {
      TimesAdds(q, q');
      var k := Nonzero(Xor(q, q'));
      var i, _ := ProductSpan(Xor(q, q'), k);
      SameTop(q, r, q', r', i);
      assert false;
    } else {
      forall k | 0 <= k < 8 ensures r[k] == r'[k] {
        var n := |q|;
        assert Xor(Times(q), Zeros(n) + r)[n + k] == (Times(q)[n + k] != r[k]);
        assert Xor(Times(q), Zeros(n) + r')[n + k] == (Times(q)[n + k] != r'[k]);
      }
    }
  }

  lemma SameTop(q: Bits, r: Bits, q': Bits, r': Bits, i: nat)
    requires |q| == |q'| && |r| == |r'| == 8 && i < |q|
    requires Xor(Times(q), Zeros(|q|) + r) == Xor(Times(q'), Zeros(|q|) + r')
    ensures Times(q)[i] == Times(q')[i]
  {
    assert Xor(Times(q), Zeros(|q|) + r)[i] == Times(q)[i];
    assert Xor(Times(q'), Zeros(|q|) + r')[i] == Times(q')[i];
  }

  lemma Nonzero(d: Bits) returns (k: nat)
    requires d != Zeros(|d|)
    ensures k < |d| && d[k]
  {
    k :| 0 <= k < |d| && d[k] != Zeros(|d|)[k];
  }

  lemma {:induction false} TimesAdds(a: Bits, b: Bits)
    requires |a| == |b|
    ensures Times(Xor(a, b)) == Xor(Times(a), Times(b))
  {
    if a != [] {
      var n := |a| - 1;
      TimesAdds(a[..n], b[..n]);
      assert Xor(a, b)[..n] == Xor(a[..n], b[..n]);
    }
  }

  lemma {:induction false} TimesZeros(n: nat)
    ensures Times(Zeros(n)) == Zeros(n + 8)
  {
    if n > 0 {
      TimesZeros(n - 1);
      assert Zeros(n)[..n - 1] == Zeros(n - 1);
    }
  }

  /** A product with a nonzero factor has set coefficients at distance 8 or more: those coming from
      the first and the last set coefficient of the factor. */
  lemma {:induction false} ProductSpan(q: Bits, k: nat) returns (first: nat, last: nat)
    requires k < |q| && q[k]
    ensures first + 8 <= last < |q| + 8 && Times(q)[first] && Times(q)[last]
    ensures q[first] && forall i :: 0 <= i < |q| && q[i] ==> first <= i <= last - 8
    decreases |q|
  {
    hide Times, Zeros;
    var n := |q| - 1;
    if q[..n] != Zeros(n) {
      var k' := Nonzero(q[..n]);
      first, last := ProductSpan(q[..n], k');
      TimesAt(q, first);
      TimesAt(q, n + 8);
      TimesAt(q, last);
      last := if q[n] then n + 8 else last;
    } else {
      first, last := n, n + 8;
      TimesZeros(n);
      TimesAt(q, n);
      TimesAt(q, n + 8);
      assert forall i :: 0 <= i < n ==> q[i] == q[..n][i];
    }
  }

  /** A factor with one set coefficient yields one shifted copy of the generator. */
  lemma {:induction false} TimesMonomial(before: nat, after: nat)
    ensures Times(Zeros(before) + [true] + Zeros(after)) == Zeros(before) + GENERATOR + Zeros(after)
  {
    hide Times;
    var q := Zeros(before) + [true] + Zeros(after);
    if after == 0 {
      assert q == Zeros(before) + [true];
      TimesSnoc(Zeros(before), true);
      TimesZeros(before);
      XorZeros(Zeros(before) + GENERATOR);
      assert Zeros(before + 8) + [false] == Zeros(before + 9);
    } else {
      TimesMonomial(before, after - 1);
      var q' := Zeros(before) + [true] + Zeros(after - 1);
      assert q == q' + [false];
      TimesShift(q');
      assert Zeros(after) == Zeros(after - 1) + [false];
    }
  }

  lemma XorZeros(p: Bits)
    ensures Xor(p, Zeros(|p|)) == p == Xor(Zeros(|p|), p)
  {
  }
}
