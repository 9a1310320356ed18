/** The text form of a MAC address that the server uses as database key: bytes in lower-case
    hexadecimal without padding, separated by colons. */
module MacText {
  import opened Crc8
  import opened Wrappers

  const MAC_ADDRESS_SIZE: nat := 18

  function HexDigit(n: bv8): char {
    if n == 0 then '0' else if n == 1 then '1' else if n == 2 then '2' else if n == 3 then '3'
    else if n == 4 then '4' else if n == 5 then '5' else if n == 6 then '6' else if n == 7 then '7'
    else if n == 8 then '8' else if n == 9 then '9' else if n == 10 then 'a' else if n == 11 then 'b'
    else if n == 12 then 'c' else if n == 13 then 'd' else if n == 14 then 'e' else 'f'
  }

  /** What "%x" prints for a byte. */
  function HexByte(b: bv8): (s: string)
    ensures 1 <= |s| <= 2 && ':' !in s && '\0' !in s
  {
    if b < 16 then [HexDigit(b)] else [HexDigit(b >> 4), HexDigit(b & 15)]
  }

  function Text(mac: Bytes): (s: string)
    requires mac != []
    ensures 2 * |mac| - 1 <= |s| <= 3 * |mac| - 1 && '\0' !in s
  {
    var n := |mac| - 1;
    if n == 0 then HexByte(mac[0]) else Text(mac[..n]) + ":" + HexByte(mac[n])
  }

  // ----- Reading the text back -----

  function DigitValue(c: char): Option<bv8> {
    match c
    case '0' => Some(0) case '1' => Some(1) case '2' => Some(2) case '3' => Some(3)
    case '4' => Some(4) case '5' => Some(5) case '6' => Some(6) case '7' => Some(7)
    case '8' => Some(8) case '9' => Some(9) case 'a' => Some(10) case 'b' => Some(11)
    case 'c' => Some(12) case 'd' => Some(13) case 'e' => Some(14) case 'f' => Some(15)
    case _ => None
  }

  function ParseByte(s: string): Option<bv8> {
    if |s| == 1 then DigitValue(s[0])
    else if |s| == 2 then
      match (DigitValue(s[0]), DigitValue(s[1]))
      case (Some(high), Some(low)) => Some((high << 4) | low)
      case _ => None
    else None
  }

  /** Where the last colon-separated field of `s` begins. */
  function LastField(s: string): (k: nat)
    ensures k <= |s| && ':' !in s[k..] && (k > 0 ==> s[k - 1] == ':')
  {
    if s == [] then 0
    else if s[|s| - 1] == ':' then |s|
    else LastField(s[..|s| - 1])
  }

  function Parse(s: string): Option<Bytes> {
    var k := LastField(s);
    match ParseByte(s[k..])
    case None => None
    case Some(b) =>
      if k == 0 then Some([b])
      else match Parse(s[..k - 1])
        case None => None
        case Some(front) => Some(front + [b])
  }

  lemma DigitRoundTrip(n: bv8)
    requires n < 16
    ensures DigitValue(HexDigit(n)) == Some(n)
  {
  }

  lemma Nibbles(b: bv8)
    ensures b >> 4 < 16 && b & 15 < 16 && ((b >> 4) << 4) | (b & 15) == b
  {
  }

  lemma ByteRoundTrip(b: bv8)
    ensures ParseByte(HexByte(b)) == Some(b)
  {
    Nibbles(b);
    if b < 16 {
      DigitRoundTrip(b);
    } else {
      DigitRoundTrip(b >> 4);
      DigitRoundTrip(b & 15);
    }
  }

  lemma {:induction false} LastFieldSplits(s: string, t: string)
    requires ':' !in t
    ensures LastField(s + ":" + t) == |s| + 1
    decreases |t|
  {
    var u := s + ":" + t;
    if t != [] {
      var n := |t| - 1;
      assert u[|u| - 1] == t[n];
      assert u[..|u| - 1] == s + ":" + t[..n];
      LastFieldSplits(s, t[..n]);
    }
  }

  lemma {:induction false} LastFieldAlone(t: string)
    requires ':' !in t
    ensures LastField(t) == 0
  {
    if t != [] {
      LastFieldAlone(t[..|t| - 1]);
    }
  }

  lemma ParseLastByte(s: string, t: string, front: Bytes, b: bv8)
    requires ':' !in t && ParseByte(t) == Some(b) && Parse(s) == Some(front)
    ensures Parse(s + ":" + t) == Some(front + [b])
  {
    hide ParseByte, LastField;
    LastFieldSplits(s, t);
    var u := s + ":" + t;
    assert u[|s| + 1..] == t && u[..|s|] == s;
  }

  /** The printed text of an address of any length parses back to its bytes. */
  lemma {:induction false} TextRoundTrip(mac: Bytes)
    requires mac != []
    ensures Parse(Text(mac)) == Some(mac)
  {
    hide ParseByte, HexByte, LastField;
    var n := |mac| - 1;
    var t := HexByte(mac[n]);
    ByteRoundTrip(mac[n]);
    if n == 0 {
      LastFieldAlone(t);
      assert t[0..] == t;
      assert mac == [mac[0]];
    } else {
      var s := Text(mac[..n]);
      TextRoundTrip(mac[..n]);
      ParseLastByte(s, t, mac[..n], mac[n]);
      assert mac == mac[..n] + [mac[n]];
    }
  }

  // ----- The text is what "%x:%x:...:%x" prints -----

  lemma DigitIs(n: bv8)
    requires n < 16
    ensures n as int < 16 && HexDigit(n) == "0123456789abcdef"[n as int]
    ensures HexDigit(n) == '0' <==> n == 0
  {
    if n < 8 {
      assert n == 0 || n == 1 || n == 2 || n == 3 || n == 4 || n == 5 || n == 6 || n == 7;
    } else {
      assert n == 8 || n == 9 || n == 10 || n == 11 || n == 12 || n == 13 || n == 14 || n == 15;
    }
  }

  /** A byte below 16 prints one digit, any other two, and only the byte 0 begins with '0'. */
  lemma HexByteIsUnpadded(b: bv8)
    ensures (b >> 4) as int < 16 && (b & 15) as int < 16
    ensures var s, high, low := HexByte(b), "0123456789abcdef"[(b >> 4) as int], "0123456789abcdef"[(b & 15) as int];
            && s == (if b < 16 then [low] else [high, low])
            && (s[0] == '0' <==> b == 0)
  {
    Nibbles(b);
    DigitIs(b >> 4);
    DigitIs(b & 15);
    SmallBytes(b);
  }

  lemma SmallBytes(b: bv8)
    ensures b < 16 ==> b & 15 == b
    ensures b >> 4 == 0 <==> b < 16
  {
  }

  /** Where field k of the text begins. */
  function FieldAt(mac: Bytes, k: nat): (p: nat)
    requires k <= |mac|
  {
    if k == 0 then 0 else FieldAt(mac, k - 1) + (if mac[k - 1] < 16 then 2 else 3)
  }

  lemma HexWidth(b: bv8)
    ensures |HexByte(b)| == (if b < 16 then 1 else 2) && (HexByte(b)[0] == '0' ==> |HexByte(b)| == 1)
  {
    HexByteIsUnpadded(b);
  }

  lemma {:induction false} TextLength(mac: Bytes)
    requires mac != []
    ensures |Text(mac)| == FieldAt(mac, |mac|) - 1
  {
    hide HexByte;
    var n := |mac| - 1;
    HexWidth(mac[n]);
    if n > 0 {
      TextLength(mac[..n]);
      FieldsOfPrefix(mac, n, n);
    }
  }

  /** A field of a text: hexadecimal without padding, up to a colon or the end. */
  predicate FieldIs(s: string, p: nat, q: nat, b: bv8, last: bool) {
    && p < q <= |s| && s[p..q] == HexByte(b) && (s[p] == '0' ==> q == p + 1)
    && if last then q == |s| else q < |s| && s[q] == ':'
  }

  lemma FieldStays(front: string, t: string, p: nat, q: nat, b: bv8, last: bool)
    requires FieldIs(front, p, q, b, last)
    ensures FieldIs(front + ":" + t, p, q, b, false)
  {
    hide HexByte;
    var s := front + ":" + t;
    assert s[..|front|] == front && s[p..q] == front[p..q];
  }

  lemma FieldAtEnd(front: string, b: bv8)
    ensures var s := front + HexByte(b); FieldIs(s, |front|, |s|, b, true)
  {
    HexWidth(b);
    hide HexByte;
    var s := front + HexByte(b);
    assert s[|front|..] == HexByte(b) && s[|front|] == HexByte(b)[0];
  }

  /** Field k of the text of an address is byte k in hexadecimal without padding, and a colon stands
      between it and the next. */
  lemma {:induction false} TextIsUnpadded(mac: Bytes, k: nat)
    requires k < |mac|
    ensures FieldIs(Text(mac), FieldAt(mac, k), FieldAt(mac, k + 1) - 1, mac[k], k == |mac| - 1)
  {
    hide HexByte, FieldAt, FieldIs;
    var n := |mac| - 1;
    FieldWidth(mac, k);
    TextLength(mac);
    FirstField(mac);
    if k < n {
      TextIsUnpadded(mac[..n], k);
      FieldsOfPrefix(mac, n, k);
      FieldsOfPrefix(mac, n, k + 1);
      FieldStays(Text(mac[..n]), HexByte(mac[n]), FieldAt(mac, k), FieldAt(mac, k + 1) - 1, mac[k], k == n - 1);
    } else if n > 0 {
      TextLength(mac[..n]);
      FieldsOfPrefix(mac, n, n);
      FieldAtEnd(Text(mac[..n]) + ":", mac[n]);
    } else {
      assert Text(mac) == [] + HexByte(mac[0]);
      FieldAtEnd([], mac[0]);
    }
  }

  lemma FieldWidth(mac: Bytes, k: nat)
    requires k < |mac|
    ensures FieldAt(mac, k + 1) == FieldAt(mac, k) + |HexByte(mac[k])| + 1
  {
    HexWidth(mac[k]);
  }

  lemma FirstField(mac: Bytes)
    ensures FieldAt(mac, 0) == 0
  {
  }

  lemma {:induction false} FieldsOfPrefix(mac: Bytes, n: nat, k: nat)
    requires k <= n <= |mac|
    ensures FieldAt(mac[..n], k) == FieldAt(mac, k)
  {
    if k > 0 {
      FieldsOfPrefix(mac, n, k - 1);
    }
  }

  /** Different addresses never share a database key, although the text is not padded. */
  lemma TextInjective(mac: Bytes, mac': Bytes)
    requires mac != [] && mac' != []
    ensures Text(mac) == Text(mac') <==> mac == mac'
  {
    TextRoundTrip(mac);
    TextRoundTrip(mac');
  }

  /** The key of a six-byte address and its terminator fit the 18-byte field. */
  lemma TextFits(mac: Bytes)
    requires |mac| == 6
    ensures 12 <= |Text(mac)| + 1 <= 18 == MAC_ADDRESS_SIZE
  {
  }
}
