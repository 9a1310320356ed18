/** The 10-byte meter frame: packed and sealed on the STM board, checked and unpacked on the server. */
module Frames {
  import opened Gf2
  import opened Crc8
  import opened CrcDetection
  import MacText

  const BUFFER_SIZE: nat := 10
  const PANGO_DATA_SIZE: nat := 9
  const CRC8_TEST_FAILED: bv8 := 255

  /** The record the STM board fills before it sends. */
  datatype StmData = StmData(status: bv8, mac: Bytes, x: bv8, y: bv8)

  predicate ValidStm(c: StmData) {
    |c.mac| == 6
  }

  function Payload(c: StmData): (p: Bytes)
    requires ValidStm(c)
    ensures |p| == PANGO_DATA_SIZE
  {
    [c.status] + c.mac + [c.x, c.y]
  }

  function Sealed(c: StmData): (f: Bytes)
    requires ValidStm(c)
    ensures |f| == BUFFER_SIZE
  {
    Payload(c) + [Crc(Payload(c))]
  }

  /** The pack loop of the STM board, in place. */
  method PackPangoBuffer(c: StmData, buffer: array<bv8>)
    requires ValidStm(c) && buffer.Length >= PANGO_DATA_SIZE
    modifies buffer
    ensures buffer[..PANGO_DATA_SIZE] == Payload(c)
    ensures buffer[PANGO_DATA_SIZE..] == old(buffer[PANGO_DATA_SIZE..])
  {
    var i := 0;
    while i < PANGO_DATA_SIZE - 1
      invariant i <= PANGO_DATA_SIZE - 1
      invariant buffer[..i] == Payload(c)[..i]
      invariant i == PANGO_DATA_SIZE - 1 ==> buffer[i] == c.y
      invariant buffer[PANGO_DATA_SIZE..] == old(buffer[PANGO_DATA_SIZE..])
    {
      if i == 0 {
        buffer[i] := c.status;
      } else if 0 < i < 7 {
        buffer[i] := c.mac[i - 1];
      } else {
        buffer[i] := c.x;
        buffer[i + 1] := c.y;
      }
      i := i + 1;
    }
    assert buffer[..PANGO_DATA_SIZE] == buffer[..i] + [buffer[i]];
  }

  /** What the STM main loop transmits for one request. */
  method BuildFrame(c: StmData, buffer: array<bv8>)
    requires ValidStm(c) && buffer.Length == 10
    modifies buffer
    ensures buffer[..] == Sealed(c) && Accepts(buffer[..])
    ensures buffer[0] == c.status && buffer[1..7] == c.mac && buffer[7] == c.x && buffer[8] == c.y
  {
    PackPangoBuffer(c, buffer);
    var crc := CalculateCrc8(buffer, PANGO_DATA_SIZE);
    buffer[BUFFER_SIZE - 1] := crc;
    assert buffer[..PANGO_DATA_SIZE] == Payload(c);
    assert buffer[..] == buffer[..PANGO_DATA_SIZE] + [crc];
  }

  // ----- The server side -----

  /** A received frame as the session sees it. */
  datatype Message = Corrupt | Intact(status: bv8, mac: string, x: bv8, y: bv8)

  function Decode(frame: Bytes): (msg: Message)
    requires |frame| == BUFFER_SIZE
    ensures msg.Intact? ==> msg.mac != ""
  {
    if !Accepts(frame) then Corrupt
    else Intact(frame[0], MacText.Text(frame[1..7]), frame[7], frame[8])
  }

  /** The server's checksum comparison on its receive buffer. */
  method ServerCrcCheck(buff: array<bv8>, status: bv8) returns (passed: bool, status': bv8)
    requires buff.Length == BUFFER_SIZE
    ensures passed <==> Decode(buff[..]) != Corrupt
    ensures status' == if passed then status else 255
  {
    var crc := CalculateCrc8(buff, PANGO_DATA_SIZE);
    assert buff[..][..BUFFER_SIZE - 1] == buff[..PANGO_DATA_SIZE];
    if buff[9] == crc {
      passed, status' := true, status;
    } else {
      passed, status' := false, CRC8_TEST_FAILED;
    }
  }

  /** The text in a C string buffer: everything before the first NUL. */
  function CString(a: seq<char>): (s: string)
    ensures '\0' !in s && s <= a
  {
    if a == [] || a[0] == '\0' then [] else [a[0]] + CString(a[1..])
  }

  lemma {:induction false} CStringOf(s: string, rest: seq<char>)
    requires '\0' !in s
    ensures CString(s + ['\0'] + rest) == s
  {
    var a := s + ['\0'] + rest;
    if s != [] {
      assert a[1..] == s[1..] + ['\0'] + rest;
      CStringOf(s[1..], rest);
    }
  }

  /** sprintf at an offset of a buffer: the text and a terminating NUL, which must fit. */
  method PrintAt(a: array<char>, offset: nat, text: string) returns (offset': nat)
    requires offset + |text| < a.Length
    modifies a
    ensures offset' == offset + |text|
    ensures a[..offset'] == old(a[..offset]) + text && a[offset'] == '\0'
  {
    var k := 0;
    while k < |text|
      invariant k <= |text|
      invariant forall j :: 0 <= j < offset ==> a[j] == old(a[j])
      invariant forall j :: 0 <= j < k ==> a[offset + j] == text[j]
    {
      a[offset + k] := text[k];
      k := k + 1;
    }
    offset' := offset + |text|;
    a[offset'] := '\0';
  }
}
