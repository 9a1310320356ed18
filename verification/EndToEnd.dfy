/** From the meter board over the BBB client to the server's client record. */
module EndToEnd {
  import opened BbbClient
  import opened BbbTheorems
  import opened Billing
  import opened BillingInvariant
  import BillingSteps
  import opened Crc8
  import opened CrcDetection
  import opened Frames
  import MacText
  import opened ParkingTable
  import Violations
  import opened Wrappers

  // ----- Packing and unpacking -----

  /** What the server should hold after a frame packed from `c`. */
  function Unpacked(c: StmData): Message
    requires ValidStm(c)
  {
    Intact(c.status, MacText.Text(c.mac), c.x, c.y)
  }

  /** The server recovers every field of a sealed frame, and its address text parses back to the six
      bytes packed; different records have different frames and different messages. */
  lemma UnpackingRecoversTheRecord(c: StmData)
    requires ValidStm(c)
    ensures Decode(Sealed(c)) == Unpacked(c)
    ensures MacText.Parse(Decode(Sealed(c)).mac) == Some(c.mac)
    ensures |MacText.Text(c.mac)| < MacText.MAC_ADDRESS_SIZE
  {
    hide Accepts, MacText.Text, MacText.Parse;
    SealedIsAccepted(c);
    assert Sealed(c)[1..7] == c.mac;
    MacText.TextRoundTrip(c.mac);
    MacText.TextFits(c.mac);
  }

  // ----- Two noisy hops -----

  /** Every answered press delivers a frame the meter sealed, weakly disturbed on the way. */
  ghost predicate FromMeter(ps: seq<Press>, cs: seq<StmData>, errors: seq<Bytes>) {
    && ValidHistory(ps) && |ps| == |cs| == |errors|
    && forall n :: 0 <= n < |ps| && ps[n].Answered? ==>
         && ValidStm(cs[n]) && |errors[n]| == BUFFER_SIZE && WeakError(errors[n])
         && ps[n].frame == Corrupted(Sealed(cs[n]), errors[n])
  }

  /** The client forwards nothing but frames exactly as the meter sealed them. */
  lemma ForwardedFramesAreTheMeters(location: string, ps: seq<Press>, cs: seq<StmData>, errors: seq<Bytes>,
                                    k: nat, f: Bytes) returns (n: nat)
    requires FromMeter(ps, cs, errors) && k < |After(Start(location), ps).sockets|
    requires f in After(Start(location), ps).sockets[k].sent
    ensures n < |cs| && ps[n].Answered? && ValidStm(cs[n]) && f == Sealed(cs[n])
  {
    hide Accepts, WeakError, After, Corrupted, Sealed;
    EveryFrameSentIsIntact(location, ps, k, f);
    n :| 0 <= n < |ps| && ps[n].Answered? && ps[n].frame == f;
    SealedIsAccepted(cs[n]);
    WeakErrorsAreNoticed(Sealed(cs[n]), errors[n]);
  }

  /** If each hop flips at most two bits, or bits within one burst of eight, then over every history
      of presses, whatever the network does, a frame that reaches the server leaves in the client
      record exactly what the meter had packed if the second hop disturbed nothing and the session
      still stores frames, and changes no record otherwise. */
  lemma {:induction false} StoredIsWhatTheMeterPacked(
      location: string, ps: seq<Press>, cs: seq<StmData>, errors: seq<Bytes>, k: nat, f: Bytes,
      error: Bytes, s: State, i: nat)
    requires FromMeter(ps, cs, errors) && k < |After(Start(location), ps).sockets|
    requires f in After(Start(location), ps).sockets[k].sent
    requires |f| == |error| == BUFFER_SIZE && WeakError(error) && At(s, i, Listening)
    ensures exists n :: 0 <= n < |cs| && ps[n].Answered? && ValidStm(cs[n])
              && f == Sealed(cs[n]) && MacText.Parse(MacText.Text(cs[n].mac)) == Some(cs[n].mac)
              && ReceiveStep(s, i, Decode(Corrupted(f, error))).slots[i] ==
                 if Corrupted(f, error) == f && s.sessions[i].status != CRC8_TEST_FAILED
                 then s.slots[i].(mac := MacText.Text(cs[n].mac), x := cs[n].x, y := cs[n].y)
                 else s.slots[i]
  {
    hide Accepts, WeakError, After, Corrupted, MacText.Text, MacText.Parse, Sealed;
    EveryFrameSentIsIntact(location, ps, k, f);
    WeakErrorsAreNoticed(f, error);
    var n := ForwardedFramesAreTheMeters(location, ps, cs, errors, k, f);
    UnpackingRecoversTheRecord(cs[n]);
  }

  // ----- One socket is one polite session -----

  /** Sealed by the meter with this address. */
  ghost predicate MadeBy(f: Bytes, mac: Bytes) {
    exists c: StmData :: ValidStm(c) && c.mac == mac && f == Sealed(c)
  }

  /** The client's frames on one socket are what billing assumes of a connection: where no other live
      session has the meter's address, the n-th frame of the socket is a polite event of the session
      that reads it, and leaves the meter's address in the record for the next one. */
  lemma SocketFramesArePolite(prompt: bool, w: World, i: nat, sent: seq<Bytes>, n: nat, mac: Bytes)
    requires Good(prompt, w) && At(w.s, i, Listening)
    requires OneSession(sent) && n < |sent| && |mac| == 6 && MadeBy(sent[n], mac)
    requires n == 0 ==>
               && w.s.slots[i].mac == ""
               && forall j :: 0 <= j < |w.s.slots| && Live(w.s, j) ==> w.s.slots[j].mac != MacText.Text(mac)
    requires n == 1 ==> w.s.slots[i].mac == MacText.Text(mac)
    requires w.s.sessions[i].status != CRC8_TEST_FAILED
    ensures Polite(w.s, Receive(i, Decode(sent[n])))
    ensures var s' := ReceiveStep(w.s, i, Decode(sent[n]));
            && s'.slots[i].mac == MacText.Text(mac)
            && s'.sessions[i].phase == (if n == 0 then Starting else Closing)
  {
    hide Accepts, MacText.Text, Sealed, Good, Find, TracksSlot, TracksMac, FreshSlot, Matches, Unique;
    var c :| ValidStm(c) && c.mac == mac && sent[n] == Sealed(c);
    UnpackingRecoversTheRecord(c);
    SealedIsAccepted(c);
    BillingSteps.SlotFacts(prompt, w, i);
    assert sent[n] in sent;
  }

  // ----- A lost START -----

  /** The client loses a START on a fresh connection, and its next clean OFF press sends a CLOSE as
      the first frame of that socket. Through any interleaving the session that reads it answers with a
      payment of 0 and leaves no row of the meter, whatever the meter owed for earlier parking. */
  lemma LostStartParksForFree(b: Bbb, p: Press, c: StmData, net: Net, prompt: bool, w: World, j: nat,
                              es1: seq<Event>, es2: seq<Event>, es3: seq<Event>)
    requires Ready(b) && b.running && ValidPress(p) && LostStart(b, p)
    requires ValidStm(c) && c.status == OFF && net.sends && ValidPress(Answered(Sealed(c), net))
    requires Good(prompt, w) && At(w.s, j, Listening) && w.s.slots[j].mac == ""
    requires w.s.sessions[j].status != CRC8_TEST_FAILED
    requires Violations.ClosesThrough(w.s, j, MacText.Text(c.mac), c.x, c.y, es1, es2, es3)
    ensures var sockets := After(b, [p, Answered(Sealed(c), net)]).sockets;
            && sockets != [] && sockets[|sockets| - 1].sent == [Sealed(c)]
            && Decode(Sealed(c)) == Intact(CLOSE_APP, MacText.Text(c.mac), c.x, c.y)
    ensures var mac := MacText.Text(c.mac);
            var closing := Violations.AtClose(w.s, j, mac, c.x, c.y, es1);
            var paying := Violations.AtPayment(w.s, j, mac, c.x, c.y, es1, es2);
            var removing := Violations.AtRemoval(w.s, j, mac, c.x, c.y, es1, es2, es3);
            && PayStep(paying, j).sent == paying.sent + [Payment(mac, 0.0, closing.now)]
            && Count(RemoveStep(removing, j).table, mac) == 0
  {
    hide Accepts, MacText.Text, MacText.Parse, Sealed, Good, Find, Count, Ready, LostStart, After, CString, Possible,
         Reached;
    UnpackingRecoversTheRecord(c);
    SealedIsAccepted(c);
    LostStartSendsBareClose(b, p, Answered(Sealed(c), net));
    Violations.CloseWithoutStartIsFree(prompt, w, j, MacText.Text(c.mac), c.x, c.y, es1, es2, es3);
  }

  // ----- Coordinates out of range -----

  /** A START with a coordinate above 127 is parked by the server but refused by the client: the
      location reply reads as the error message, so the client stays unconnected with its toggle on
      ON, and the next clean press opens a second session for the same address. */
  lemma OutOfRangeStartsTwice(b: Bbb, c: StmData, net: Net, rest: string)
    requires Ready(b) && b.running && !b.connected && b.status == ON && ValidStm(c)
    requires |CityName(CityOf(c.x, c.y))| + 1 + |rest| == LOCATION_NAME_MAX_LEN
    requires net == Net(true, true, Some(CityName(CityOf(c.x, c.y)) + ['\0'] + rest))
    ensures var p := CleanPress(b, c, net);
            && ValidPress(p)
            && var b1 := PressStep(b, p);
               && b1.running && b1.sockets == b.sockets + [Socket(true, [p.frame])]
               && (!b1.connected <==> c.x > 127 || c.y > 127)
               && var p' := CleanPress(b1, c, net);
                  && ValidPress(p')
                  && (PressStep(b1, p').sockets == b1.sockets + [Socket(true, [p.frame])] <==>
                        c.x > 127 || c.y > 127)
  {
    hide Accepts, CString, Sealed, CityOf, CityName;
    var p := CleanPress(b, c, net);
    var b1 := PressStep(b, p);
    SealedIsAccepted(c.(status := ON));
    LocationReplyIsReliable(b.location, c.x, c.y, rest);
    CleanTransmission(b.sockets, p.frame, net);
    assert |Received(b.location, net.reply)| == |b.location|;
    SealedIsAccepted(c.(status := b1.status));
    CleanTransmission(b1.sockets, p.frame, net);
  }
}
