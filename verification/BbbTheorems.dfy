/** What holds of every history of the BBB client, for arbitrary bytes from the STM and an arbitrary
    network. */
module BbbTheorems {
  import opened BbbClient
  import opened Crc8
  import opened Frames
  import opened ParkingTable
  import opened Wrappers

  // ----- Every frame on a socket -----

  ghost predicate ValidHistory(ps: seq<Press>) {
    forall p :: p in ps ==> ValidPress(p)
  }

  predicate Delivered(ps: seq<Press>, f: Bytes) {
    exists i :: 0 <= i < |ps| && ps[i].Answered? && ps[i].frame == f
  }

  /** Every frame ever sent came from the STM and passes the checksum; the status byte at the head of
      the loop is ON or OFF. */
  lemma EveryFrameSentIsIntact(location: string, ps: seq<Press>, k: nat, f: Bytes)
    requires ValidHistory(ps) && k < |After(Start(location), ps).sockets|
    requires f in After(Start(location), ps).sockets[k].sent
    ensures Accepts(f) && Delivered(ps, f)
  {
    hide Accepts;
    AfterForwards(Start(location), ps, k, f);
  }

  lemma {:induction false} AfterForwards(b: Bbb, ps: seq<Press>, k: nat, f: Bytes)
    requires ValidHistory(ps) && k < |After(b, ps).sockets| && f in After(b, ps).sockets[k].sent
    ensures (k < |b.sockets| && f in b.sockets[k].sent) || (Accepts(f) && Delivered(ps, f))
    decreases |ps|
  {
    hide Accepts, PressStep;
    if ps != [] && b.running {
      AfterForwards(PressStep(b, ps[0]), ps[1..], k, f);
      if Delivered(ps[1..], f) {
        var i :| 0 <= i < |ps[1..]| && ps[1..][i].Answered? && ps[1..][i].frame == f;
        assert ps[i + 1].frame == f;
      }
      if k < |PressStep(b, ps[0]).sockets| && f in PressStep(b, ps[0]).sockets[k].sent {
        PressForwards(b, ps[0], k, f);
      }
    }
  }

  lemma PressForwards(b: Bbb, p: Press, k: nat, f: Bytes)
    requires b.running && ValidPress(p)
    requires k < |PressStep(b, p).sockets| && f in PressStep(b, p).sockets[k].sent
    ensures (k < |b.sockets| && f in b.sockets[k].sent) || (Accepts(f) && p.Answered? && p.frame == f)
  {
    hide Accepts, CString, Received, Advanced;
  }

  lemma StatusAtLoopHead(location: string, ps: seq<Press>)
    requires ValidHistory(ps)
    ensures var b := After(Start(location), ps); b.running ==> b.status == ON || b.status == OFF
  {
    AfterStatus(Start(location), ps);
  }

  lemma {:induction false} AfterStatus(b: Bbb, ps: seq<Press>)
    requires ValidHistory(ps) && (b.running ==> b.status == ON || b.status == OFF)
    ensures var b' := After(b, ps); b'.running ==> b'.status == ON || b'.status == OFF
    decreases |ps|
  {
    hide Accepts, CString, Received, Transmitted, Delivers;
    if ps != [] && b.running {
      AfterStatus(PressStep(b, ps[0]), ps[1..]);
    }
  }

  // ----- One session per socket -----

  /** A single START, optionally followed by a single CLOSE, both intact. */
  ghost predicate OneSession(sent: seq<Bytes>) {
    && |sent| <= 2
    && (forall f :: f in sent ==> |f| == BUFFER_SIZE && Accepts(f))
    && (|sent| >= 1 ==> sent[0][0] == ON)
    && (|sent| == 2 ==> sent[1][0] == OFF)
  }

  /** A single CLOSE that no START preceded. */
  ghost predicate BareClose(sent: seq<Bytes>) {
    |sent| == 1 && |sent[0]| == BUFFER_SIZE && Accepts(sent[0]) && sent[0][0] == OFF
  }

  /** What the client relies on at the head of its loop. */
  predicate Ready(b: Bbb) {
    && |b.location| == LOCATION_NAME_MAX_LEN
    && (b.connected ==> b.sockets != [])
    && (b.running ==> b.status == ON || b.status == OFF)
  }

  /** Each socket carries one session or, if it is one of the `lost`, nothing or a bare CLOSE; while
      connected the current socket, unless it never connected, has carried just its START, or nothing
      if that was lost. */
  ghost predicate Tidy(b: Bbb, lost: set<nat>) {
    && (forall k :: k in lost ==> k < |b.sockets|)
    && (forall k :: 0 <= k < |b.sockets| ==> SocketOk(b.sockets[k].sent, k in lost))
    && (b.running && b.connected && b.sockets != [] && b.sockets[|b.sockets| - 1].established ==>
          |b.sockets[|b.sockets| - 1].sent| == if |b.sockets| - 1 in lost then 0 else 1)
  }

  ghost predicate SocketOk(sent: seq<Bytes>, lost: bool) {
    if lost then sent == [] || BareClose(sent) else OneSession(sent)
  }

  ghost predicate Orderly(b: Bbb, lost: set<nat>) {
    Ready(b) && Tidy(b, lost)
  }

  /** The START is not sent on a socket that connected, and the stale buffer hides it. */
  predicate LostStart(b: Bbb, p: Press)
    requires ValidPress(p)
  {
    && p.Answered? && Accepts(p.frame) && p.frame[0] == ON && !b.connected
    && p.net.connects && !p.net.sends && CString(b.location) != ERROR_MESSAGE
  }

  /** The sockets that lost their START, after one more press. */
  function LostAfter(b: Bbb, p: Press, lost: set<nat>): set<nat>
    requires ValidPress(p)
  {
    if LostStart(b, p) then lost + {|b.sockets|} else lost
  }

  lemma ConnectKeepsTidy(b: Bbb, frame: Bytes, net: Net, lost: set<nat>)
    requires Ready(b) && Tidy(b, lost) && b.running && !b.connected && ValidPress(Answered(frame, net))
    requires Accepts(frame) && frame[0] == ON
    ensures var b', last := ConnectStep(b, frame, net), |b.sockets|;
            if net.connects && !net.sends && CString(b.location) != ERROR_MESSAGE
            then Tidy(b', lost + {last}) && !Tidy(b', lost)
            else Tidy(b', lost)
  {
    hide Accepts, CString;
    var b', last := ConnectStep(b, frame, net), |b.sockets|;
    assert forall k :: 0 <= k < last ==> b'.sockets[k] == b.sockets[k];
    assert b'.sockets[last].sent == if net.connects && net.sends then [frame] else [];
  }

  lemma CloseKeepsTidy(b: Bbb, frame: Bytes, net: Net, lost: set<nat>)
    requires Ready(b) && Tidy(b, lost) && b.running && b.connected && ValidPress(Answered(frame, net))
    requires Accepts(frame) && frame[0] == OFF
    ensures Tidy(CloseStep(b, frame, net), lost)
  {
    hide Accepts;
    var b', last := CloseStep(b, frame, net), |b.sockets| - 1;
    assert forall k :: 0 <= k < last ==> b'.sockets[k] == b.sockets[k];
    if Delivers(b.sockets, net) {
      var sent := b.sockets[last].sent;
      assert SocketOk(sent, last in lost) && b'.sockets[last].sent == sent + [frame];
    }
  }

  lemma TidyIgnoresStatus(b: Bbb, status: bv8, lost: set<nat>)
    ensures Tidy(b.(status := status), lost) <==> Tidy(b, lost)
  {
  }

  lemma StaysReady(b: Bbb, p: Press)
    requires Ready(b) && b.running && ValidPress(p)
    ensures Ready(PressStep(b, p))
  {
    hide Accepts, CString, Advanced;
  }

  /** Any press keeps the sockets in order, with the socket of a START that is lost in this way as one
      more exception; without that exception it keeps order if and only if none is lost. */
  lemma OrderIsKeptUnlessStartIsLost(b: Bbb, p: Press, lost: set<nat>)
    requires Orderly(b, lost) && b.running && ValidPress(p)
    ensures Orderly(PressStep(b, p), LostAfter(b, p, lost))
    ensures Orderly(PressStep(b, p), lost) <==> !LostStart(b, p)
  {
    hide Accepts, CString, Advanced, Tidy, ConnectStep, CloseStep, Ready;
    StaysReady(b, p);
    if p.Answered? {
      var b1 := b.(status := Checked(p.frame));
      TidyIgnoresStatus(b, b1.status, lost);
      if b1.status == ON && !b.connected {
        var b2 := ConnectStep(b1, p.frame, p.net);
        ReadyWith(b, ON);
        ConnectKeepsTidy(b1, p.frame, p.net, lost);
        ConnectRunsOn(b1, p.frame, p.net);
        TidyIgnoresStatus(b2, Advanced(b2.status), lost);
        TidyIgnoresStatus(b2, Advanced(b2.status), lost + {|b.sockets|});
        ReadyStatus(b);
      } else if b1.status == OFF && b.connected {
        var b2 := CloseStep(b1, p.frame, p.net);
        ReadyWith(b, OFF);
        CloseKeepsTidy(b1, p.frame, p.net, lost);
        TidyIgnoresStatus(b2, Advanced(b2.status), lost);
        ReadyStatus(b);
      } else {
        TidyIgnoresStatus(b1, Advanced(b1.status), lost);
        ReadyStatus(b);
      }
    } else {
      SilenceKeepsTidy(b, p, lost);
    }
  }

  lemma ReadyWith(b: Bbb, status: bv8)
    requires Ready(b) && (status == ON || status == OFF)
    ensures Ready(b.(status := status))
  {
  }

  lemma ReadyStatus(b: Bbb)
    requires Ready(b) && b.running
    ensures b.status == ON || b.status == OFF
  {
  }

  /** A connect never ends the loop, and never falls through to a CLOSE in the same press. */
  lemma ConnectRunsOn(b: Bbb, frame: Bytes, net: Net)
    requires b.running && b.status == ON
    ensures var b' := ConnectStep(b, frame, net); b'.running && b'.status != OFF
  {
    hide CString;
  }

  lemma SilenceKeepsTidy(b: Bbb, p: Press, lost: set<nat>)
    requires Tidy(b, lost) && b.running && p.Unanswered?
    ensures Tidy(PressStep(b, p), lost)
  {
  }

  /** After a lost START the next CLOSE travels alone. */
  lemma LostStartSendsBareClose(b: Bbb, p: Press, q: Press)
    requires Ready(b) && b.running && ValidPress(p) && ValidPress(q) && LostStart(b, p)
    requires q.Answered? && Accepts(q.frame) && q.frame[0] == OFF && q.net.sends
    ensures var sockets := After(b, [p, q]).sockets;
            sockets != [] && sockets[|sockets| - 1].sent == [q.frame] && !OneSession([q.frame])
  {
    hide Accepts, CString;
    var b' := PressStep(b, p);
    assert After(b, [p, q]) == After(b', [q]) by { assert [p, q][1..] == [q]; }
    assert After(b', [q]) == PressStep(b', q) by { assert [q][1..] == []; }
    assert [q.frame][0][0] == OFF;
  }

  /** The sockets that lose their START over a history. */
  ghost function LostSockets(b: Bbb, ps: seq<Press>, lost: set<nat>): set<nat>
    requires ValidHistory(ps)
    decreases |ps|
  {
    if ps == [] || !b.running then lost
    else LostSockets(PressStep(b, ps[0]), ps[1..], LostAfter(b, ps[0], lost))
  }

  /** Over every history, each socket carries a single START optionally followed by a single CLOSE if and
      only if it has not lost its START, or has carried nothing; otherwise it has carried a bare CLOSE.
      What happens on one socket does not matter to another. */
  lemma SocketsCarryOneSession(location: string, ps: seq<Press>, k: nat)
    requires |location| == LOCATION_NAME_MAX_LEN && ValidHistory(ps)
    requires k < |After(Start(location), ps).sockets|
    ensures var sent, lost := After(Start(location), ps).sockets[k].sent, LostSockets(Start(location), ps, {});
            && (OneSession(sent) <==> k !in lost || sent == [])
            && (!OneSession(sent) <==> BareClose(sent))
  {
    hide LostSockets, After;
    AfterOrderly(Start(location), ps, {});
  }

  lemma {:induction false} AfterOrderly(b: Bbb, ps: seq<Press>, lost: set<nat>)
    requires ValidHistory(ps) && Orderly(b, lost)
    ensures Orderly(After(b, ps), LostSockets(b, ps, lost))
    decreases |ps|
  {
    hide PressStep, Orderly, LostAfter;
    if ps != [] && b.running {
      OrderIsKeptUnlessStartIsLost(b, ps[0], lost);
      AfterOrderly(PressStep(b, ps[0]), ps[1..], LostAfter(b, ps[0], lost));
    }
  }

  lemma {:induction false} AfterReady(b: Bbb, ps: seq<Press>)
    requires ValidHistory(ps) && Ready(b)
    ensures Ready(After(b, ps))
    decreases |ps|
  {
    hide PressStep, Ready;
    if ps != [] && b.running {
      StaysReady(b, ps[0]);
      AfterReady(PressStep(b, ps[0]), ps[1..]);
    }
  }

  // ----- The toggle -----

  /** A corrupted frame changes nothing but the toggle, and that only when corruption has turned an
      ON byte into something else or something else into ON. */
  lemma CorruptionAndToggle(b: Bbb, p: Press)
    requires b.running && (b.status == ON || b.status == OFF)
    requires ValidPress(p) && p.Answered? && !Accepts(p.frame)
    ensures var b' := PressStep(b, p);
            && b' == b.(status := b'.status)
            && (b'.status == b.status <==> (p.frame[0] == ON <==> b.status == ON))
  {
    hide Accepts;
  }

  /** However many corrupted frames arrive, as long as their status byte is the one sent, the client
      stays exactly where it was. */
  lemma {:induction false} IntactStatusNeverMovesToggle(b: Bbb, ps: seq<Press>)
    requires b.running && (b.status == ON || b.status == OFF) && ValidHistory(ps)
    requires forall p :: p in ps ==> p.Answered? && !Accepts(p.frame) && p.frame[0] == b.status
    ensures After(b, ps) == b
    decreases |ps|
  {
    hide Accepts, PressStep;
    if ps != [] {
      CorruptionAndToggle(b, ps[0]);
      IntactStatusNeverMovesToggle(b, ps[1..]);
    }
  }

  /** The answer of an undisturbed meter: it echoes the status it was sent. */
  function CleanPress(b: Bbb, c: StmData, net: Net): Press
    requires ValidStm(c)
  {
    Answered(Sealed(c.(status := b.status)), net)
  }

  /** The server is reachable and answers with something other than its error message. */
  predicate Responding(net: Net) {
    && net.connects && net.sends && net.reply.Some?
    && |net.reply.value| == LOCATION_NAME_MAX_LEN && CString(net.reply.value) != ERROR_MESSAGE
  }

  lemma SealedIsAccepted(c: StmData)
    requires ValidStm(c)
    ensures Accepts(Sealed(c)) && Sealed(c)[0] == c.status
  {
    assert Sealed(c)[..PANGO_DATA_SIZE] == Payload(c);
  }

  lemma CleanTransmission(sockets: seq<Socket>, frame: Bytes, net: Net)
    requires net.connects && net.sends
    ensures Transmitted(sockets + [Socket(net.connects, [])], frame, net) == sockets + [Socket(true, [frame])]
  {
    assert [] + [frame] == [frame];
  }

  /** One clean press with a responding server: a START or CLOSE goes out exactly when the toggle
      agrees with the connected flag; otherwise only the toggle moves. */
  lemma CleanPressStep(b: Bbb, c: StmData, net: Net)
    requires Ready(b) && b.running && ValidStm(c) && Responding(net)
    requires b.connected ==> b.sockets[|b.sockets| - 1].established
    ensures var p := CleanPress(b, c, net);
            && ValidPress(p)
            && var b' := PressStep(b, p);
               && Ready(b') && b'.running && b'.status == (if b.status == ON then OFF else ON)
               && (b'.connected ==> b'.sockets[|b'.sockets| - 1].established)
               && (if b.status == ON && !b.connected then
                     b'.connected && b'.sockets == b.sockets + [Socket(true, [p.frame])]
                   else if b.status == OFF && b.connected then
                     && !b'.connected
                     && b'.sockets == b.sockets[..|b.sockets| - 1] +
                                      [Socket(true, b.sockets[|b.sockets| - 1].sent + [p.frame])]
                   else b'.connected == b.connected && b'.sockets == b.sockets)
  {
    hide Accepts, CString, Sealed;
    var p := CleanPress(b, c, net);
    SealedIsAccepted(c.(status := b.status));
    assert net.reply.value + b.location[LOCATION_NAME_MAX_LEN..] == net.reply.value;
    StaysReady(b, p);
    CleanTransmission(b.sockets, p.frame, net);
  }

  /** The flag says connected, but the current socket never was: a connect that failed unnoticed. */
  predicate DeadSocket(b: Bbb) {
    b.connected && b.sockets != [] && !b.sockets[|b.sockets| - 1].established
  }

  /** On a dead socket nothing is ever sent, and the press that should send CLOSE ends the program. */
  lemma DeadSocketStops(b: Bbb, c: StmData, net: Net)
    requires Ready(b) && b.running && ValidStm(c) && Responding(net) && DeadSocket(b)
    ensures var p := CleanPress(b, c, net);
            && ValidPress(p)
            && var b' := PressStep(b, p);
               && b'.connected && b'.sockets == b.sockets && Ready(b')
               && (b'.running <==> b.status == ON) && (b'.running ==> b'.status == OFF)
  {
    hide Accepts, CString, Sealed;
    SealedIsAccepted(c.(status := b.status));
    StaysReady(b, CleanPress(b, c, net));
  }

  function PressOnce(b: Bbb, c: StmData, net: Net): Bbb
    requires ValidStm(c) && Responding(net)
  {
    if b.running then PressStep(b, CleanPress(b, c, net)) else b
  }

  lemma TwoPresses(b: Bbb, c: StmData, net: Net, c': StmData, net': Net)
    requires Ready(b) && b.running && ValidStm(c) && ValidStm(c') && Responding(net) && Responding(net')
    ensures var b1 := PressOnce(b, c, net);
            var b2 := PressOnce(b1, c', net');
            && (b1.connected != b.connected <==> (b.status == ON <==> !b.connected) && !DeadSocket(b))
            && (b1.connected != b.connected || b2.connected != b.connected <==> !DeadSocket(b))
  {
    hide PressStep, CString, Sealed, Accepts, Responding, CleanPress;
    var b1 := PressOnce(b, c, net);
    if DeadSocket(b) {
      DeadSocketStops(b, c, net);
      if b1.running {
        DeadSocketStops(b1, c', net');
      }
    } else {
      CleanPressStep(b, c, net);
      CleanPressStep(b1, c', net');
    }
  }

  /** From every loop head of every history two clean presses with a responding server send the pending
      START or CLOSE and turn the flag, except exactly when an earlier connect failed unnoticed; a
      single press suffices exactly when the toggle agrees with the flag. */
  lemma TwoCleanPressesSuffice(location: string, ps: seq<Press>, c: StmData, net: Net, c': StmData, net': Net)
    requires |location| == LOCATION_NAME_MAX_LEN && ValidHistory(ps) && After(Start(location), ps).running
    requires ValidStm(c) && ValidStm(c') && Responding(net) && Responding(net')
    ensures var b := After(Start(location), ps);
            var b1 := PressOnce(b, c, net);
            var b2 := PressOnce(b1, c', net');
            && (b1.connected != b.connected <==> (b.status == ON <==> !b.connected) && !DeadSocket(b))
            && (b1.connected != b.connected || b2.connected != b.connected <==> !DeadSocket(b))
  {
    hide After, PressOnce, Responding;
    AfterReady(Start(location), ps);
    TwoPresses(After(Start(location), ps), c, net, c', net');
  }

  /** Clean presses, all answered by a responding server. */
  ghost predicate Faultless(cs: seq<StmData>, nets: seq<Net>) {
    |cs| == |nets| && forall n :: 0 <= n < |cs| ==> ValidStm(cs[n]) && Responding(nets[n])
  }

  ghost function AfterClean(b: Bbb, cs: seq<StmData>, nets: seq<Net>): Bbb
    requires Faultless(cs, nets)
  {
    if cs == [] then b
    else
      var n := |cs| - 1;
      PressOnce(AfterClean(b, cs[..n], nets[..n]), cs[n], nets[n])
  }

  /** A life without faults: presses start and end parking in turn. Presses 2k and 2k + 1 are the START
      and the CLOSE of socket k, which carries nothing else. */
  lemma {:induction false} FaultlessLife(location: string, cs: seq<StmData>, nets: seq<Net>)
    requires |location| == LOCATION_NAME_MAX_LEN && Faultless(cs, nets)
    ensures var b, n := AfterClean(Start(location), cs, nets), |cs|;
            && Ready(b) && b.running && b.errors == 0
            && b.status == (if n % 2 == 0 then 1 else 2) && (b.connected <==> n % 2 == 1)
            && |b.sockets| == (n + 1) / 2
            && forall k :: 0 <= k < |b.sockets| ==> CarriesPresses(b.sockets[k], cs, k)
  {
    hide PressStep, Accepts, CString, Sealed, Responding;
    if cs != [] {
      hide Ready;
      var n := |cs| - 1;
      FaultlessLife(location, cs[..n], nets[..n]);
      var b := AfterClean(Start(location), cs[..n], nets[..n]);
      if n % 2 == 1 {
        assert CarriesPresses(b.sockets[|b.sockets| - 1], cs[..n], |b.sockets| - 1);
      }
      CleanPressStep(b, cs[n], nets[n]);
      NoSilence(b, CleanPress(b, cs[n], nets[n]));
      var b' := AfterClean(Start(location), cs, nets);
      forall k | 0 <= k < |b'.sockets| ensures CarriesPresses(b'.sockets[k], cs, k) {
        if k < |b.sockets| {
          assert CarriesPresses(b.sockets[k], cs[..n], k);
        }
      }
    }
  }

  /** The socket has carried the START of press 2k and, if there has been a press 2k + 1, its CLOSE. */
  ghost predicate CarriesPresses(socket: Socket, cs: seq<StmData>, k: nat) {
    && socket.established && 2 * k < |cs| && ValidStm(cs[2 * k])
    && if 2 * k + 1 == |cs| then socket.sent == [Sealed(cs[2 * k].(status := 1))]
       else
         && ValidStm(cs[2 * k + 1])
         && socket.sent == [Sealed(cs[2 * k].(status := 1)), Sealed(cs[2 * k + 1].(status := 2))]
  }

  lemma NoSilence(b: Bbb, p: Press)
    requires b.running && ValidPress(p) && p.Answered?
    ensures PressStep(b, p).errors == b.errors
  {
  }

  /** A CLOSE ends the program unless it is sent and the payment arrives. If only the payment fails to,
      the CLOSE has been sent all the same, and the flag stays. */
  lemma CloseNeedsThePayment(b: Bbb, p: Press)
    requires Ready(b) && b.running && b.connected && ValidPress(p)
    requires p.Answered? && Accepts(p.frame) && p.frame[0] == OFF
    ensures var b', last := PressStep(b, p), |b.sockets| - 1;
            var sent := b.sockets[last].established && p.net.sends;
            && (b'.running <==> sent && p.net.reply.Some?)
            && (b'.connected <==> !b'.running) && (b'.running ==> b'.status == 1)
            && b'.sockets == if sent then b.sockets[last := Socket(true, b.sockets[last].sent + [p.frame])]
                             else b.sockets
  {
    hide Accepts;
  }

  // ----- Silence -----

  /** The presses that were answered. */
  function Answers(ps: seq<Press>): (r: seq<Press>)
    ensures forall p :: p in r ==> p in ps && p.Answered?
  {
    if ps == [] then [] else (if ps[0].Answered? then [ps[0]] else []) + Answers(ps[1..])
  }

  /** Unanswered presses are stuttering steps: while the client runs, and in any case before the third of
      them, it is where the answered ones alone would have brought it, but for their count. */
  lemma SilenceStutters(location: string, ps: seq<Press>)
    requires ValidHistory(ps)
    ensures ValidHistory(Answers(ps))
    ensures var b, b' := After(Start(location), ps), After(Start(location), Answers(ps));
            && (b.running || Silences(ps) < 3 ==>
                  && b.status == b'.status && b.connected == b'.connected && b.running == b'.running
                  && b.location == b'.location && b.sockets == b'.sockets)
            && (b.running ==> b.errors == Silences(ps) < 3)
  {
    SilencesSkipped(Start(location), Start(location), ps);
  }

  lemma {:induction false} SilencesSkipped(b: Bbb, b': Bbb, ps: seq<Press>)
    requires ValidHistory(ps) && b.running && b.errors < 3 && b == b'.(errors := b.errors)
    ensures var c, c' := After(b, ps), After(b', Answers(ps));
            && (c.running || b.errors + Silences(ps) < 3 ==> c == c'.(errors := c.errors))
            && (c.running ==> c.errors == b.errors + Silences(ps) < 3)
    decreases |ps|
  {
    hide PressStep;
    if ps != [] {
      var p := ps[0];
      OnlyTheCount(b, b', p);
      if p.Answered? {
        assert Answers(ps)[1..] == Answers(ps[1..]);
      } else {
        assert Answers(ps) == Answers(ps[1..]);
      }
      var b1, b1' := PressStep(b, p), if p.Answered? then PressStep(b', p) else b';
      assert After(b, ps) == After(b1, ps[1..]);
      assert After(b', Answers(ps)) == After(b1', Answers(ps[1..]));
      if b1.running {
        SilencesSkipped(b1, b1', ps[1..]);
      }
    }
  }

  lemma OnlyTheCount(b: Bbb, b': Bbb, p: Press)
    requires b.running && b.errors < 3 && b == b'.(errors := b.errors) && ValidPress(p)
    ensures var c := PressStep(b, p);
            && (p.Unanswered? ==> c == b.(errors := b.errors + 1, running := b.errors < 2))
            && (p.Answered? ==> c == PressStep(b', p).(errors := b.errors))
  {
    hide Accepts, CString, Advanced, Received, Transmitted, Delivers;
  }

  function Silences(ps: seq<Press>): nat {
    if ps == [] then 0 else (if ps[0].Unanswered? then 1 else 0) + Silences(ps[1..])
  }

  predicate AlwaysResponding(ps: seq<Press>) {
    forall i :: 0 <= i < |ps| && ps[i].Answered? ==> Responding(ps[i].net)
  }

  /** The count of unanswered presses is never reset: with a responding server the client stops
      exactly at the third one of its whole life, however many answered presses lie between. */
  lemma StopsAtThirdSilence(location: string, ps: seq<Press>)
    requires |location| == LOCATION_NAME_MAX_LEN && ValidHistory(ps) && AlwaysResponding(ps)
    ensures After(Start(location), ps).running <==> Silences(ps) < 3
  {
    SilencesAdd(Start(location), ps);
  }

  ghost predicate Linked(b: Bbb) {
    Ready(b) && (b.running && b.connected ==> b.sockets[|b.sockets| - 1].established)
  }

  lemma {:induction false} SilencesAdd(b: Bbb, ps: seq<Press>)
    requires Linked(b) && b.running && b.errors < RESTART && ValidHistory(ps) && AlwaysResponding(ps)
    ensures After(b, ps).running <==> b.errors + Silences(ps) < RESTART
    decreases |ps|
  {
    hide PressStep, Linked, Responding;
    if ps != [] {
      LinkedStep(b, ps[0]);
      var b' := PressStep(b, ps[0]);
      if b'.running {
        SilencesAdd(b', ps[1..]);
      }
    }
  }

  lemma LinkedStep(b: Bbb, p: Press)
    requires Linked(b) && b.running && ValidPress(p) && (p.Answered? ==> Responding(p.net))
    ensures var b' := PressStep(b, p);
            && Linked(b')
            && b'.errors == (if p.Unanswered? then b.errors + 1 else b.errors)
            && (b'.running <==> b'.errors != RESTART || p.Answered?)
  {
    hide Accepts, CString;
    StaysReady(b, p);
  }

  // ----- What the client makes of a reply -----

  /** The client does not notice a failed connect or send: whether it believes to be connected
      depends on the buffer alone, so it can be wrong exactly when the stale buffer is not the error
      message. */
  lemma ConnectErrorsGoUnnoticed(b: Bbb, p: Press)
    requires Ready(b) && b.running && ValidPress(p)
    requires p.Answered? && Accepts(p.frame) && p.frame[0] == ON && !b.connected
    ensures var b' := PressStep(b, p);
            && b'.running && |b'.sockets| == |b.sockets| + 1
            && (b'.connected <==> CString(b'.location) != ERROR_MESSAGE)
            && (b'.connected && b'.sockets[|b.sockets|].sent == [] <==>
                  !(p.net.connects && p.net.sends) && CString(b.location) != ERROR_MESSAGE)
  {
    hide Accepts, CString, Advanced, Received;
  }

  /** The server's five-byte error message carries no NUL: it is recognised only when the byte after
      it happens to be one. */
  lemma ErrorReplyNeedsStaleNul(location: string)
    requires |location| == LOCATION_NAME_MAX_LEN
    ensures CString(Received(location, Some("ERROR"))) == "ERROR" <==> location[5] == '\0'
  {
    var buffer := Received(location, Some(ERROR_MESSAGE));
    assert buffer == ERROR_MESSAGE + location[5..];
    if location[5] == '\0' {
      assert buffer == ERROR_MESSAGE + ['\0'] + location[6..];
      CStringOf(ERROR_MESSAGE, location[6..]);
    } else {
      CStringSkips(ERROR_MESSAGE, location[5..]);
      assert CString(location[5..]) != [];
    }
  }

  lemma {:induction false} CStringSkips(s: string, rest: seq<char>)
    requires '\0' !in s
    ensures CString(s + rest) == s + CString(rest)
  {
    if s == [] {
      assert s + rest == rest;
    } else {
      assert (s + rest)[1..] == s[1..] + rest;
      CStringSkips(s[1..], rest);
    }
  }

  /** The text of a city in the server's location buffer. */
  function CityName(city: City): (name: string)
    ensures |name| < LOCATION_NAME_MAX_LEN && '\0' !in name
    ensures name == ERROR_MESSAGE <==> city == OutOfRange
  {
    match city
    case Unset => ""
    case Ashkelon => "Ashkelon"
    case Jerusalem => "Jerusalem"
    case PetahTikva => "Petah-Tikva"
    case Herzliya => "Herzliya"
    case OutOfRange => ERROR_MESSAGE
  }

  lemma Names(x: bv8, y: bv8)
    ensures var text := CityName(CityOf(x, y));
            && (text == "ERROR" <==> x > 127 || y > 127)
            && (text == "Ashkelon" <==> x <= 70 && y <= 70)
            && (text == "Jerusalem" <==> x <= 70 < y <= 127)
            && (text == "Petah-Tikva" <==> y <= 70 < x <= 127)
            && (text == "Herzliya" <==> 70 < x <= 127 && 70 < y <= 127)
  {
    assert |"ERROR"| == 5 && |"Ashkelon"| == 8 && |"Jerusalem"| == 9 && |"Petah-Tikva"| == 11 && |"Herzliya"| == 8;
    assert "Ashkelon"[0] != "Herzliya"[0];
  }

  /** The twelve-byte location reply is read back whole, whatever the buffer held; it is taken for an
      error exactly when the coordinates are out of range, and otherwise names their city. */
  lemma LocationReplyIsReliable(location: string, x: bv8, y: bv8, rest: string)
    requires |location| == LOCATION_NAME_MAX_LEN
    requires |CityName(CityOf(x, y))| + 1 + |rest| == LOCATION_NAME_MAX_LEN
    ensures var reply := CityName(CityOf(x, y)) + ['\0'] + rest;
            && CString(Received(location, Some(reply))) == CityName(CityOf(x, y))
            && (CString(Received(location, Some(reply))) == ERROR_MESSAGE <==> x > 127 || y > 127)
    ensures var text := CString(Received(location, Some(CityName(CityOf(x, y)) + ['\0'] + rest)));
            && (text == "ERROR" <==> x > 127 || y > 127)
            && (text == "Ashkelon" <==> x <= 70 && y <= 70)
            && (text == "Jerusalem" <==> x <= 70 < y <= 127)
            && (text == "Petah-Tikva" <==> y <= 70 < x <= 127)
            && (text == "Herzliya" <==> 70 < x <= 127 && 70 < y <= 127)
  {
    Names(x, y);
    hide CityName;
    var name := CityName(CityOf(x, y));
    CStringOf(name, rest);
    assert Received(location, Some(name + ['\0'] + rest)) == name + ['\0'] + rest;
  }
}
