/** What the checksum comparison detects, for messages of every length. */
module CrcDetection {
  import opened Gf2
  import opened ByteSum
  import opened Crc8

  // ----- The register is a polynomial remainder -----

  /** `init` times x^n plus `p` times x^8, as n + 8 coefficients. */
  function Dividend(init: bv8, p: Bits): (d: Bits)
    ensures |d| == |p| + 8
  {
    Xor(ByteBits(init) + Zeros(|p|), p + Zeros(8))
  }

  /** The bit-serial register divides: it pairs a quotient with the remainder it holds. */
  lemma {:induction false} RegisterDivides(init: bv8, p: Bits) returns (q: Bits)
    ensures |q| == |p|
    ensures Dividend(init, p) == Xor(Times(q), Zeros(|p|) + ByteBits(FeedAll(init, p)))
  {
    if p == [] {
      q := [];
      assert Times(q) == Zeros(8);
    } else {
      var n := |p| - 1;
      q := RegisterDivides(init, p[..n]);
      DividendSnoc(init, p);
      q := DivideStep(Dividend(init, p[..n]), Dividend(init, p), q, FeedAll(init, p[..n]), p[n]);
    }
  }

  lemma DividendSnoc(init: bv8, p: Bits)
    requires p != []
    ensures var n := |p| - 1;
            var d := Dividend(init, p[..n]);
            forall k :: 0 <= k < n + 9 ==>
              Dividend(init, p)[k] == ((k < n + 8 && d[k]) != (k == n && p[n]))
  {
  }

  /** Bringing down one more coefficient extends the quotient by one. */
  lemma DivideStep(d: Bits, d': Bits, q: Bits, r: bv8, b: bool) returns (q': Bits)
    requires |d| == |q| + 8 && |d'| == |q| + 9
    requires d == Xor(Times(q), Zeros(|q|) + ByteBits(r))
    requires forall k :: 0 <= k < |d'| ==> d'[k] == ((k < |q| + 8 && d[k]) != (k == |q| && b))
    ensures |q'| == |q| + 1
    ensures d' == Xor(Times(q'), Zeros(|q'|) + ByteBits(Feed(r, b)))
  {
    FeedBits(r, b);
    q' := DivideStepBits(d, d', q, ByteBits(r), ByteBits(Feed(r, b)), b);
  }

  lemma DivideStepBits(d: Bits, d': Bits, q: Bits, o: Bits, o': Bits, b: bool) returns (q': Bits)
    requires |d| == |q| + 8 && |d'| == |q| + 9 && |o| == 8
    requires d == Xor(Times(q), Zeros(|q|) + o)
    requires forall k :: 0 <= k < |d'| ==> d'[k] == ((k < |q| + 8 && d[k]) != (k == |q| && b))
    requires var t := o[0] != b;
             o' == [o[1] != t, o[2], o[3], o[4], o[5] != t, o[6] != t, o[7], t]
    ensures |q'| == |q| + 1
    ensures d' == Xor(Times(q'), Zeros(|q'|) + o')
  {
    var n, t := |q|, o[0] != b;
    q' := q + [t];
    TimesSnoc(q, t);
    var product := Xor(Times(q'), Zeros(n + 1) + o');
    forall k | 0 <= k < n + 9 ensures d'[k] == product[k] {
      if k >= n {
        FeedDivides(o, o', b, k - n);
      }
    }
  }

  /** The bits of the register after one step: shifted up, with the generator added when the
      outgoing bit is set. */
  lemma FeedBits(r: bv8, b: bool)
    ensures var o := ByteBits(r);
            var t := o[0] != b;
            ByteBits(Feed(r, b)) == [o[1] != t, o[2], o[3], o[4], o[5] != t, o[6] != t, o[7], t]
  {
    FlipTop(r);
    ShiftBits(if b then r ^ 0x80 else r);
  }

  lemma ShiftBits(r: bv8)
    ensures var s, top := Shift(r), r & 0x80 != 0;
            && (s & 0x80 != 0 <==> (r & 0x40 != 0) != top)
            && (s & 0x40 != 0 <==> r & 0x20 != 0)
            && (s & 0x20 != 0 <==> r & 0x10 != 0)
            && (s & 0x10 != 0 <==> r & 0x08 != 0)
            && (s & 0x08 != 0 <==> (r & 0x04 != 0) != top)
            && (s & 0x04 != 0 <==> (r & 0x02 != 0) != top)
            && (s & 0x02 != 0 <==> r & 0x01 != 0)
            && (s & 0x01 != 0 <==> top)
  {
  }

  lemma FlipTop(r: bv8)
    ensures var s := r ^ 0x80;
            && (s & 0x80 != 0 <==> r & 0x80 == 0)
            && s & 0x40 == r & 0x40 && s & 0x20 == r & 0x20 && s & 0x10 == r & 0x10
            && s & 0x08 == r & 0x08 && s & 0x04 == r & 0x04 && s & 0x02 == r & 0x02
            && s & 0x01 == r & 0x01
  {
  }

  /** One register step is one step of long division. */
  lemma FeedDivides(o: Bits, o': Bits, b: bool, k: nat)
    requires |o| == 8 && k < 9
    requires var t := o[0] != b;
             o' == [o[1] != t, o[2], o[3], o[4], o[5] != t, o[6] != t, o[7], t]
    ensures ((k < 8 && o[k]) != (k == 0 && b)) == ((o[0] != b && GENERATOR[k]) != (k > 0 && o'[k - 1]))
  {
    assert k == 0 || k == 1 || k == 2 || k == 3 || k == 4 || k == 5 || k == 6 || k == 7 || k == 8;
  }

  /** r is a remainder of 0xFF * x^(8n) + data * x^8 modulo the generator (n bytes of data). */
  ghost predicate IsRemainder(data: Bytes, r: bv8) {
    var start := [true, true, true, true, true, true, true, true];
    exists q :: |q| == 8 * |data|
             && Xor(start + Zeros(8 * |data|), BitsOf(data) + Zeros(8)) == Xor(Times(q), Zeros(|q|) + ByteBits(r))
  }

  /** The checksum loop computes the polynomial remainder, and that remainder is unique. */
  lemma CrcIsTheRemainder(data: Bytes, r: bv8)
    ensures IsRemainder(data, r) <==> r == Crc(data)
  {
    hide Times, Zeros, BitsOf, ByteBits, FeedAll, Crc, Register;
    FromAllOnes(data);
    var q := RegisterDivides(CRC_INITIAL, BitsOf(data));
    if q' :| |q'| == |q| && Dividend(CRC_INITIAL, BitsOf(data)) == Xor(Times(q'), Zeros(|q'|) + ByteBits(r)) {
      DivisionUnique(q, ByteBits(Crc(data)), q', ByteBits(r));
      ByteBitsInjective(r, Crc(data));
    }
  }

  /** The register starts with all its bits set. */
  lemma FromAllOnes(data: Bytes)
    ensures FeedAll(CRC_INITIAL, BitsOf(data)) == Crc(data) && |BitsOf(data)| == 8 * |data|
    ensures Dividend(CRC_INITIAL, BitsOf(data)) ==
            Xor([true, true, true, true, true, true, true, true] + Zeros(8 * |data|), BitsOf(data) + Zeros(8))
  {
    RegisterIsBitSerial(CRC_INITIAL, data);
  }

  lemma ByteBitsInjective(a: bv8, b: bv8)
    requires ByteBits(a) == ByteBits(b)
    ensures a == b
  {
    var p, q := ByteBits(a), ByteBits(b);
    assert p[0] == q[0] && p[1] == q[1] && p[2] == q[2] && p[3] == q[3];
    assert p[4] == q[4] && p[5] == q[5] && p[6] == q[6] && p[7] == q[7];
  }

  // ----- Errors -----

  /** `frame` as received when the bits set in `error` are flipped on the way. */
  function Corrupted(frame: Bytes, error: Bytes): (f: Bytes)
    requires |frame| == |error|
    ensures |f| == |frame|
  {
    if frame == [] then []
    else
      var n := |frame| - 1;
      Corrupted(frame[..n], error[..n]) + [frame[n] ^ error[n]]
  }

  /** The register is affine: equal-length messages add up, and so do the registers. */
  lemma {:induction false} RegisterAdds(init: bv8, init': bv8, a: Bytes, b: Bytes)
    requires |a| == |b|
    ensures Register(Add(init, init'), Corrupted(a, b)) == Add(Register(init, a), Register(init', b))
  {
    hide *;
    var sum := Corrupted(a, b);
    if a == [] {
      RegisterEmpty(init);
      RegisterEmpty(init');
      RegisterEmpty(Add(init, init'));
      assert sum == [] && b == [];
    } else {
      var n := |a| - 1;
      RegisterAdds(init, init', a[..n], b[..n]);
      CorruptedLast(a, b, n);
      RegisterLast(Add(init, init'), sum, n);
      RegisterLast(init, a, n);
      RegisterLast(init', b, n);
      var r, r' := Register(init, a[..n]), Register(init', b[..n]);
      ByteStepAdds(r, r', a[n], b[n]);
    }
  }

  lemma CorruptedLast(a: Bytes, b: Bytes, n: nat)
    requires |a| == |b| == n + 1
    ensures Corrupted(a, b)[..n] == Corrupted(a[..n], b[..n]) && Corrupted(a, b)[n] == Add(a[n], b[n])
  {
  }

  lemma RegisterEmpty(init: bv8)
    ensures Register(init, []) == init
  {
  }

  lemma RegisterLast(init: bv8, data: Bytes, n: nat)
    requires |data| == n + 1
    ensures Register(init, data) == ByteStep(Register(init, data[..n]), data[n])
  {
  }

  lemma ByteStepAdds(r: bv8, r': bv8, c: bv8, d: bv8)
    ensures ByteStep(Add(r, r'), Add(c, d)) == Add(ByteStep(r, c), ByteStep(r', d))
  {
    hide *;
    AddSwaps(r, r', c, d);
    ByteStepAsSum(Add(r, r'), Add(c, d));
    ByteStepAsSum(r, c);
    ByteStepAsSum(r', d);
    ShiftByAdds(Add(r, c), Add(r', d), 8);
  }

  lemma ByteStepAsSum(r: bv8, d: bv8)
    ensures ByteStep(r, d) == ShiftBy(Add(r, d), 8)
  {
    hide ShiftBy;
  }

  lemma ShiftByAdds(a: bv8, b: bv8, k: nat)
    ensures ShiftBy(Add(a, b), k) == Add(ShiftBy(a, k), ShiftBy(b, k))
  {
    hide ShiftBy;
    ShiftByLinear(a, b, k);
  }

  /** crc(a + b + c) = crc(a) + crc(b) + crc(c) for messages of equal length. */
  lemma {:induction false} CrcIsAffine(a: Bytes, b: Bytes, c: Bytes)
    requires |a| == |b| == |c|
    ensures Crc(Corrupted(Corrupted(a, b), c)) == Crc(a) ^ Crc(b) ^ Crc(c)
  {
    RegisterAdds(CRC_INITIAL, CRC_INITIAL, a, b);
    RegisterAdds(0, CRC_INITIAL, Corrupted(a, b), c);
    AddZero(CRC_INITIAL);
  }

  /** Whether a corruption is noticed depends on the error pattern alone, never on the payload. */
  lemma {:induction false} AcceptanceDependsOnErrorOnly(frame: Bytes, error: Bytes)
    requires |frame| == |error| && Accepts(frame)
    ensures Accepts(Corrupted(frame, error)) <==> Register(0, error) == 0
  {
    AcceptsIsZeroRegister(frame);
    AcceptsIsZeroRegister(Corrupted(frame, error));
    RegisterAdds(CRC_INITIAL, 0, frame, error);
    AddZero(CRC_INITIAL);
    AddZero(Register(0, error));
  }

  /** A corruption goes unnoticed exactly when its bits, read as a polynomial, are a multiple of
      the generator. */
  lemma {:induction false} UnnoticedIffMultiple(frame: Bytes, error: Bytes)
    requires |frame| == |error| && Accepts(frame)
    ensures Accepts(Corrupted(frame, error)) <==> IsMultiple(BitsOf(error))
  {
    AcceptanceDependsOnErrorOnly(frame, error);
    RegisterIsBitSerial(0, error);
    ZeroRegisterIffMultiple(BitsOf(error));
    MultipleShift(BitsOf(error), 8);
  }

  lemma ZeroRegisterIffMultiple(p: Bits)
    ensures FeedAll(0, p) == 0 <==> IsMultiple(p + Zeros(8))
  {
    var q := RegisterDivides(0, p);
    assert ByteBits(0) == Zeros(8);
    assert Zeros(8) + Zeros(|p|) == Zeros(|p| + 8) == Zeros(|p|) + Zeros(8);
    XorZeros(p + Zeros(8));
    if FeedAll(0, p) == 0 {
      XorZeros(Times(q));
    }
    if q' :| Times(q') == p + Zeros(8) {
      XorZeros(Times(q'));
      DivisionUnique(q, ByteBits(FeedAll(0, p)), q', Zeros(8));
      ByteBitsInjective(FeedAll(0, p), 0);
    }
  }

  // ----- Bursts -----

  /** All set bits lie among `width` consecutive positions starting at `start`. */
  ghost predicate IsBurst(e: Bits, start: nat, width: nat) {
    forall k :: 0 <= k < |e| && e[k] ==> start <= k < start + width
  }

  /** A burst of at most 8 bits is always rejected; a burst of 9 bits is accepted only when it is
      the generator pattern itself. */
  lemma {:induction false} BurstsAreNoticed(frame: Bytes, error: Bytes, start: nat)
    requires |frame| == |error| && Accepts(frame)
    requires BitsOf(error) != Zeros(8 * |error|)
    ensures IsBurst(BitsOf(error), start, 8) ==> !Accepts(Corrupted(frame, error))
    ensures IsBurst(BitsOf(error), start, 9) ==>
              (Accepts(Corrupted(frame, error)) <==>
                start + 9 <= 8 * |error|
                && BitsOf(error) == Zeros(start) + GENERATOR + Zeros(8 * |error| - start - 9))
  {
    var e := BitsOf(error);
    UnnoticedIffMultiple(frame, error);
    if q :| Times(q) == e {
      MultiplesSpanNine(q, start);
    }
    if start + 9 <= |e| && e == Zeros(start) + GENERATOR + Zeros(|e| - start - 9) {
      TimesMonomial(start, |e| - start - 9);
    }
  }

  /** A nonzero multiple of the generator spans at least 9 positions, and only a shifted generator
      spans exactly 9. */
  lemma MultiplesSpanNine(q: Bits, start: nat)
    requires Times(q) != Zeros(|q| + 8)
    ensures !IsBurst(Times(q), start, 8)
    ensures IsBurst(Times(q), start, 9) ==>
              start < |q| && Times(q) == Zeros(start) + GENERATOR + Zeros(|q| - 1 - start)
  {
    hide *;
    if q == Zeros(|q|) {
      TimesZeros(|q|);
    } else {
      var k := Nonzero(q);
      var first, last := ProductSpan(q, k);
      SpanNine(q, Times(q), first, last, start);
      if IsBurst(Times(q), start, 9) {
        TimesMonomial(start, |q| - 1 - start);
      }
    }
  }

  lemma SpanNine(q: Bits, p: Bits, first: nat, last: nat, start: nat)
    requires |p| == |q| + 8 && first + 8 <= last < |p| && p[first] && p[last]
    requires q[first] && forall i :: 0 <= i < |q| && q[i] ==> first <= i <= last - 8
    ensures !IsBurst(p, start, 8)
    ensures IsBurst(p, start, 9) ==> start < |q| && q == Zeros(start) + [true] + Zeros(|q| - 1 - start)
  {
    if IsBurst(p, start, 9) {
      assert first == start && last == start + 8;
      Monomial(q, start);
    }
  }

  lemma Monomial(q: Bits, k: nat)
    requires k < |q| && q[k] && forall i :: 0 <= i < |q| && q[i] ==> i == k
    ensures q == Zeros(k) + [true] + Zeros(|q| - 1 - k)
  {
  }

  // ----- Two flipped bits -----

  /** The error pattern of n bits with positions i and j set. */
  function TwoFlips(n: nat, i: nat, j: nat): (e: Bits)
    requires i < j < n
    ensures |e| == n
  {
    Zeros(i) + [true] + Zeros(j - i - 1) + [true] + Zeros(n - j - 1)
  }

  /** Two flipped bits go unnoticed exactly when their distance is a multiple of 255, the order of
      x modulo the generator, whatever the length of the message. */
  lemma {:induction false} TwoFlipsUnnoticedIff255(frame: Bytes, error: Bytes, i: nat, j: nat)
    requires |frame| == |error| && Accepts(frame)
    requires i < j < 8 * |error| && BitsOf(error) == TwoFlips(8 * |error|, i, j)
    ensures Accepts(Corrupted(frame, error)) <==> (j - i) % 255 == 0
  {
    hide *;
    AcceptanceDependsOnErrorOnly(frame, error);
    RegisterIsBitSerial(0, error);
    TwoFlipsRegister(8 * |error|, i, j);
    OrderOfX(j - i);
  }

  lemma {:induction false} FeedZeros(r: bv8, n: nat)
    ensures FeedAll(r, Zeros(n)) == ShiftBy(r, n)
  {
    if n > 0 {
      FeedZeros(r, n - 1);
      assert Zeros(n)[..n - 1] == Zeros(n - 1);
    }
  }

  lemma TwoFlipsRegister(n: nat, i: nat, j: nat)
    requires i < j < n
    ensures FeedAll(0, TwoFlips(n, i, j)) == 0 <==> ShiftBy(CRC_POLYNOMIAL, j - i) == CRC_POLYNOMIAL
  {
    var first := Zeros(i) + [true];
    var gap := first + Zeros(j - i - 1);
    var second := gap + [true];
    FeedZeros(0, i);
    ShiftByZero(i);
    FeedOne(0, Zeros(i));
    FeedAllConcat(0, first, Zeros(j - i - 1));
    FeedZeros(CRC_POLYNOMIAL, j - i - 1);
    FeedOne(0, gap);
    var r := ShiftBy(CRC_POLYNOMIAL, j - i - 1);
    FeedAllConcat(0, second, Zeros(n - j - 1));
    FeedZeros(FeedAll(0, second), n - j - 1);
    assert TwoFlips(n, i, j) == second + Zeros(n - j - 1);
    ShiftByInjective(FeedAll(0, second), 0, n - j - 1);
    ShiftByZero(n - j - 1);
    ShiftBijective(r ^ 0x80);
    assert CRC_POLYNOMIAL == Shift(0x80);
    ShiftBijective(r);
    ShiftBijective(0x80);
    assert r ^ 0x80 == 0 <==> r == 0x80;
    assert Shift(r ^ 0x80) == 0 <==> r ^ 0x80 == 0;
  }

  lemma FeedOne(r: bv8, p: Bits)
    ensures FeedAll(r, p + [true]) == Shift(FeedAll(r, p) ^ 0x80)
  {
    assert (p + [true])[..|p|] == p;
  }

  // ----- The order of x -----

  /** x has order exactly 255 modulo the generator. */
  lemma OrderOfX(d: nat)
    ensures ShiftBy(CRC_POLYNOMIAL, d) == CRC_POLYNOMIAL <==> d % 255 == 0
  {
    Orbit();
    PeriodMod(d, 255);
    PeriodZero();
    var m := d % 255;
    if m != 0 && IsPeriod(m) {
      var g, s, t := CommonPeriod(255, m);
      DivisorsOf255(g, s);
      assert false;
    }
  }

  ghost predicate IsPeriod(k: nat) {
    ShiftBy(CRC_POLYNOMIAL, k) == CRC_POLYNOMIAL
  }

  lemma PeriodZero()
    ensures IsPeriod(0)
  {
  }

  lemma PeriodSum(a: nat, b: nat)
    requires IsPeriod(a)
    ensures IsPeriod(a + b) <==> IsPeriod(b)
  {
    ShiftByAdd(CRC_POLYNOMIAL, a, b);
  }

  lemma {:induction false} PeriodMultiple(b: nat, s: nat, r: nat)
    requires IsPeriod(b)
    ensures b * s >= 0 && (IsPeriod(b * s + r) <==> IsPeriod(r))
  {
    hide *;
    if s == 0 {
      assert b * 0 == 0;
    } else {
      PeriodMultiple(b, s - 1, r);
      assert b * s == b + b * (s - 1);
      PeriodSum(b, b * (s - 1) + r);
      assert b + (b * (s - 1) + r) == b * s + r;
    }
  }

  lemma PeriodMod(a: nat, b: nat)
    requires b > 0 && IsPeriod(b)
    ensures IsPeriod(a) <==> IsPeriod(a % b)
  {
    hide *;
    PeriodMultiple(b, a / b, a % b);
    assert b * (a / b) + a % b == a;
  }

  /** Euclid's algorithm on periods: two periods have a period that divides both. */
  lemma {:induction false} CommonPeriod(a: nat, b: nat) returns (g: nat, s: nat, t: nat)
    requires IsPeriod(a) && IsPeriod(b) && a >= b > 0
    ensures 0 < g <= b && IsPeriod(g) && a == g * s && b == g * t
    decreases b
  {
    PeriodMod(a, b);
    var m := a % b;
    if m == 0 {
      g, s, t := b, a / b, 1;
    } else {
      var s', t';
      g, s', t' := CommonPeriod(b, m);
      s, t := (a / b) * s' + t', s';
      assert g * s == (a / b) * (g * s') + g * t';
    }
  }

  /** No proper divisor of 255 is a period. */
  lemma DivisorsOf255(g: nat, s: nat)
    requires 0 < g < 255 && g * s == 255
    ensures !IsPeriod(g)
  {
    Orbit();
    ShortPeriods();
    SmallDivisors(g, s);
  }

  lemma SmallDivisors(g: nat, s: nat)
    requires 0 < g < 255 && g * s == 255
    ensures g in {1, 3, 5, 15, 17, 51, 85}
  {
    if g < 16 {
      assert g in {1, 3, 5, 15};
    } else {
      assert s < 16;
      assert s in {3, 5, 15};
    }
  }

  /** Four inner-loop turns at once. */
  function By4(r: bv8): bv8 {
    (r << 4) ^ (if r & 0x80 != 0 then 0xCB else 0) ^ (if r & 0x40 != 0 then 0xA3 else 0)
      ^ (if r & 0x20 != 0 then 0x97 else 0) ^ (if r & 0x10 != 0 then 0x8D else 0)
  }

  lemma ShiftBy4(r: bv8)
    ensures ShiftBy(r, 4) == By4(r)
  {
    assert ShiftBy(r, 1) == Shift(r);
    assert ShiftBy(r, 2) == Shift(Shift(r));
    assert ShiftBy(r, 3) == Shift(Shift(Shift(r)));
  }

  lemma Stride(k: nat, r: bv8, r': bv8)
    requires ShiftBy(CRC_POLYNOMIAL, k) == r && Shift(By4(By4(By4(By4(r))))) == r'
    ensures ShiftBy(CRC_POLYNOMIAL, k + 17) == r'
  {
    hide By4;
    ShiftBy4(r);
    ShiftBy4(By4(r));
    ShiftBy4(By4(By4(r)));
    ShiftBy4(By4(By4(By4(r))));
    ShiftByAdd(r, 4, 4);
    ShiftByAdd(r, 8, 4);
    ShiftByAdd(r, 12, 4);
    ShiftByAdd(CRC_POLYNOMIAL, k, 17);
  }

  lemma ShortPeriods()
    ensures !IsPeriod(1) && !IsPeriod(3) && !IsPeriod(5) && !IsPeriod(15)
  {
    assert ShiftBy(CRC_POLYNOMIAL, 5) == 0x36;
    ShiftByAdd(CRC_POLYNOMIAL, 5, 5);
    ShiftByAdd(CRC_POLYNOMIAL, 10, 5);
  }

  /** Walking the orbit of x^8 in strides of 17. */
  lemma Orbit()
    ensures IsPeriod(255)
    ensures !IsPeriod(17) && !IsPeriod(51) && !IsPeriod(85)
  {
    hide ShiftBy;
    assert ShiftBy(CRC_POLYNOMIAL, 0) == CRC_POLYNOMIAL by { PeriodZero(); }
    Stride(0, 0x8D, 0x1D);
    Stride(17, 0x1D, 0xCC);
    Stride(34, 0xCC, 0x03);
    Stride(51, 0x03, 0x8E);
    Stride(68, 0x8E, 0x93);
    Stride(85, 0x93, 0x5F);
    Stride(102, 0x5F, 0x5C);
    Stride(119, 0x5C, 0xD2);
    Stride(136, 0xD2, 0x41);
    Stride(153, 0x41, 0x1E);
    Stride(170, 0x1E, 0x42);
    Stride(187, 0x42, 0x90);
    Stride(204, 0x90, 0xD1);
    Stride(221, 0xD1, 0xCF);
    Stride(238, 0xCF, 0x8D);
  }

  // ----- The errors a short frame is protected against -----

  /** No flip, flips within 8 consecutive bits (one flip included), or two flips anywhere. */
  ghost predicate WeakError(error: Bytes) {
    var e := BitsOf(error);
    || e == Zeros(|e|)
    || (exists start :: IsBurst(e, start, 8))
    || (exists i, j :: 0 <= i < j < |e| && e == TwoFlips(|e|, i, j))
  }

  /** On frames of at most 255 bits, such as the 80-bit meter frame, a weak error is rejected
      unless it changed nothing. */
  lemma {:induction false} WeakErrorsAreNoticed(frame: Bytes, error: Bytes)
    requires |frame| == |error| <= 31 && Accepts(frame) && WeakError(error)
    ensures Accepts(Corrupted(frame, error)) <==> Corrupted(frame, error) == frame
  {
    hide *;
    var e := BitsOf(error);
    if e == Zeros(|e|) {
      NoErrorBits(frame, error);
    } else if exists start :: IsBurst(e, start, 8) {
      var start :| IsBurst(e, start, 8);
      BurstsAreNoticed(frame, error, start);
    } else {
      WeakCases(error);
      var i, j :| 0 <= i < j < |e| && e == TwoFlips(|e|, i, j);
      TwoFlipsUnnoticedIff255(frame, error, i, j);
    }
  }

  lemma WeakCases(error: Bytes)
    requires WeakError(error)
    requires var e := BitsOf(error); e != Zeros(|e|) && !exists start :: IsBurst(e, start, 8)
    ensures var e := BitsOf(error); exists i, j :: 0 <= i < j < |e| && e == TwoFlips(|e|, i, j)
  {
  }

  lemma {:induction false} NoErrorBits(frame: Bytes, error: Bytes)
    requires |frame| == |error| && BitsOf(error) == Zeros(8 * |error|)
    ensures Corrupted(frame, error) == frame
  {
    hide *;
    if frame != [] {
      var n := |error| - 1;
      BitsOfLast(error, n);
      NoErrorBits(frame[..n], error[..n]);
      ByteBitsZero();
      ByteBitsInjective(error[n], 0);
      AddZero(frame[n]);
      CorruptedLast(frame, error, n);
      assert Corrupted(frame, error)[..n] == frame[..n];
    }
  }

  lemma BitsOfLast(error: Bytes, n: nat)
    requires |error| == n + 1 && BitsOf(error) == Zeros(8 * |error|)
    ensures BitsOf(error[..n]) == Zeros(8 * n) && ByteBits(error[n]) == Zeros(8)
  {
    var front, last := BitsOf(error[..n]), ByteBits(error[n]);
    assert front == BitsOf(error)[..8 * n];
    assert last == BitsOf(error)[8 * n..];
  }

  lemma ByteBitsZero()
    ensures ByteBits(0) == Zeros(8)
  {
  }
}
