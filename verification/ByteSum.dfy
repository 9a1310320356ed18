/** Addition of bytes as polynomials over GF(2): exclusive or, seen as a commutative group. */
module ByteSum {
  function Add(a: bv8, b: bv8): bv8 {
    a ^ b
  }

  lemma AddZero(a: bv8)
    ensures Add(a, 0) == a == Add(0, a) && Add(a, a) == 0
  {
  }

  lemma AddCommutes(a: bv8, b: bv8)
    ensures Add(a, b) == Add(b, a)
  {
  }

  lemma AddAssociates(a: bv8, b: bv8, c: bv8)
    ensures Add(a, Add(b, c)) == Add(Add(a, b), c)
  {
  }

  lemma AddSwaps(a: bv8, b: bv8, c: bv8, d: bv8)
    ensures Add(Add(a, b), Add(c, d)) == Add(Add(a, c), Add(b, d))
  {
    hide *;
    AddAssociates(Add(a, b), c, d);
    AddAssociates(a, b, c);
    AddCommutes(b, c);
    AddAssociates(a, c, b);
    AddAssociates(Add(a, c), b, d);
  }
}
