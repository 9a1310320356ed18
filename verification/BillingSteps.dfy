/** Every allowed step keeps the invariant and the correspondence with the meter. */
module BillingSteps {
  import opened Billing
  import opened BillingInvariant
  import opened Frames
  import opened Meter
  import opened ParkingTable
  import opened Wrappers

  // ----- Steps of one session -----

  /** A step touches one slot and the row and meter of one address, which no other live session
      shares. */
  ghost predicate Local(w: World, w': World, i: nat) {
    && |w.s.slots| == |w.s.sessions| == |w'.s.slots| == |w'.s.sessions| && i < |w.s.slots|
    && w'.s == w.s.(slots := w'.s.slots, sessions := w'.s.sessions, table := w'.s.table, sent := w'.s.sent)
    && w'.polled == w.polled && w'.late == w.late && |w.late| == |w.s.slots|
    && (forall j :: 0 <= j < |w.s.slots| && j != i ==>
          w'.s.slots[j] == w.s.slots[j] && w'.s.sessions[j] == w.s.sessions[j])
    && var key := w'.s.slots[i].mac;
    && (w.s.slots[i].mac == key || w.s.slots[i].mac == "")
    && (forall j :: 0 <= j < |w.s.slots| && j != i && w.s.slots[j].mac == key ==> !Live(w.s, j))
    && (forall mac :: mac != key ==>
          && Find(w'.s.table, mac) == Find(w.s.table, mac)
          && (mac in w'.ledger.meters <==> mac in w.ledger.meters)
          && (mac in w.ledger.meters ==> w'.ledger.meters[mac] == w.ledger.meters[mac])
          && (mac in w.ledger.asked ==> mac in w'.ledger.asked && w'.ledger.asked[mac] == w.ledger.asked[mac])
          && (mac in w.ledger.sighted ==> mac in w'.ledger.sighted && w'.ledger.sighted[mac] == w.ledger.sighted[mac]))
  }

  /** The obligations of such a step on the slot and the address it touches. */
  ghost predicate LocalGood(prompt: bool, w: World, i: nat)
    requires |w.s.slots| == |w.s.sessions| == |w.late| && i < |w.s.slots|
  {
    var c, t := w.s.slots[i], w.s.sessions[i];
    && Unique(w.s.table) && Find(w.s.table, "").None?
    && SlotOk(w.s, c, t)
    && TracksSlot(prompt, w.ledger, c, t)
    && TracksMac(prompt, w.s, w.ledger, c.mac)
    && |w.s.sent| == |w.ledger.bills|
    && (forall k :: 0 <= k < |w.s.sent| ==> Matches(prompt, w.s.prices, w.s.sent[k], w.ledger.bills[k]))
    && (prompt ==> FreshSlot(w.s, w.polled, w.late[i], c, t))
  }

  lemma LocalInv(prompt: bool, w: World, w': World, i: nat)
    requires Good(prompt, w) && Local(w, w', i) && LocalGood(prompt, w', i)
    ensures Inv(w'.s)
  {
    hide LookupPrice, CityOf, Find, Unique, Tracks, TracksMac, TracksSlot, Fresh, FreshSlot;
    forall j | 0 <= j < |w'.s.slots| ensures SlotOk(w'.s, w'.s.slots[j], w'.s.sessions[j]) {
      if j != i {
        assert SlotOk(w.s, w.s.slots[j], w.s.sessions[j]);
      }
    }
  }

  lemma LocalTracks(prompt: bool, w: World, w': World, i: nat)
    requires Good(prompt, w) && Local(w, w', i) && LocalGood(prompt, w', i)
    ensures Tracks(prompt, w'.s, w'.ledger)
  {
    hide Find, Total;
    forall j | 0 <= j < |w'.s.slots|
      ensures TracksSlot(prompt, w'.ledger, w'.s.slots[j], w'.s.sessions[j])
    {
      if j != i {
        assert TracksSlot(prompt, w.ledger, w.s.slots[j], w.s.sessions[j]);
        assert SlotOk(w.s, w.s.slots[j], w.s.sessions[j]);
      }
    }
    forall mac ensures TracksMac(prompt, w'.s, w'.ledger, mac) {
      if mac != w'.s.slots[i].mac {
        OtherMac(prompt, w, w', i, mac);
      }
    }
  }

  lemma OtherMac(prompt: bool, w: World, w': World, i: nat, mac: string)
    requires Good(prompt, w) && Local(w, w', i) && mac != w'.s.slots[i].mac
    ensures TracksMac(prompt, w'.s, w'.ledger, mac)
  {
    hide Find, Total, Fresh, TracksSlot, SlotOk, Unique;
    assert TracksMac(prompt, w.s, w.ledger, mac);
    if mac != "" {
      assert Settling(w.s, mac) <==> Settling(w'.s, mac) by {
        if Settling(w.s, mac) {
          var j :| 0 <= j < |w.s.slots| && w.s.slots[j].mac == mac && w.s.sessions[j].phase == Removing;
          assert w'.s.slots[j].mac == mac && w'.s.sessions[j].phase == Removing;
        }
        if Settling(w'.s, mac) {
          var j :| 0 <= j < |w'.s.slots| && w'.s.slots[j].mac == mac && w'.s.sessions[j].phase == Removing;
          assert w.s.slots[j].mac == mac && w.s.sessions[j].phase == Removing;
        }
      }
      assert Idle(w'.s, mac) ==> Idle(w.s, mac) by {
        forall j | 0 <= j < |w.s.slots| && w.s.slots[j].mac == mac && Idle(w'.s, mac)
          ensures !Running(w.s.slots[j], w.s.sessions[j])
        {
          assert w'.s.slots[j].mac == mac;
        }
      }
    }
  }

  lemma LocalFresh(prompt: bool, w: World, w': World, i: nat)
    requires Good(prompt, w) && Local(w, w', i) && LocalGood(prompt, w', i) && prompt
    ensures Fresh(w'.s, w'.polled, w'.late)
  {
    hide Find;
    assert LagBound(w.s, w.polled) == LagBound(w'.s, w'.polled);
    forall j | 0 <= j < |w'.s.slots| ensures FreshSlot(w'.s, w'.polled, w'.late[j], w'.s.slots[j], w'.s.sessions[j]) {
      if j != i {
        assert FreshSlot(w.s, w.polled, w.late[j], w.s.slots[j], w.s.sessions[j]);
        assert SlotOk(w.s, w.s.slots[j], w.s.sessions[j]);
      }
    }
  }

  lemma LocalKeepsGood(prompt: bool, w: World, w': World, i: nat)
    requires Good(prompt, w) && Local(w, w', i) && LocalGood(prompt, w', i)
    ensures Good(prompt, w')
  {
    LocalInv(prompt, w, w', i);
    LocalTracks(prompt, w, w', i);
    if prompt { LocalFresh(prompt, w, w', i); }
  }

  // ----- One lemma per step -----

  /** Sole ownership of an address by a live session. */
  lemma SoleOwner(prompt: bool, w: World, i: nat)
    requires Good(prompt, w) && i < |w.s.slots| && (w.s.slots[i].mac == "" || Live(w.s, i))
    ensures forall j :: 0 <= j < |w.s.slots| && j != i && w.s.slots[j].mac == w.s.slots[i].mac ==> !Live(w.s, j)
    ensures w.s.slots[i].mac != "" ==>
              && (Idle(w.s, w.s.slots[i].mac) <==> !Running(w.s.slots[i], w.s.sessions[i]))
              && (Settling(w.s, w.s.slots[i].mac) <==> w.s.sessions[i].phase == Removing)
  {
    hide Tracks, Fresh, Find;
    var mac := w.s.slots[i].mac;
    forall j | 0 <= j < |w.s.slots| && j != i && w.s.slots[j].mac == mac ensures !Live(w.s, j) {
      if j < i { assert mac == "" || !Live(w.s, j); } else { assert i < j; }
    }
  }

  /** An address that no live session has is neither running nor settling. */
  lemma NoOwner(prompt: bool, w: World, mac: string)
    requires Good(prompt, w) && mac != ""
    requires forall j :: 0 <= j < |w.s.slots| == |w.s.sessions| && Live(w.s, j) ==> w.s.slots[j].mac != mac
    ensures Idle(w.s, mac) && !Settling(w.s, mac) && TracksMac(prompt, w.s, w.ledger, mac)
  {
    hide Fresh, Find;
  }

  /** What is known about the slot a step works on. */
  lemma SlotFacts(prompt: bool, w: World, i: nat)
    requires Good(prompt, w) && i < |w.s.slots|
    ensures |w.s.slots| == |w.s.sessions| == |w.late| && Unique(w.s.table) && Find(w.s.table, "").None?
    ensures |w.s.sent| == |w.ledger.bills|
    ensures forall k :: 0 <= k < |w.s.sent| ==> Matches(prompt, w.s.prices, w.s.sent[k], w.ledger.bills[k])
    ensures SlotOk(w.s, w.s.slots[i], w.s.sessions[i])
    ensures TracksSlot(prompt, w.ledger, w.s.slots[i], w.s.sessions[i])
    ensures TracksMac(prompt, w.s, w.ledger, w.s.slots[i].mac)
    ensures prompt ==> FreshSlot(w.s, w.polled, w.late[i], w.s.slots[i], w.s.sessions[i])
  {
    hide Find, Total;
  }

  /** The world after a session step that means `h` to the meter. */
  function After(w: World, s: State, h: Happening): World {
    World(s, Follow(w.ledger, h), w.polled, w.late)
  }

  /** Which sessions own their address. */
  lemma PhaseFacts(prompt: bool, w: World, i: nat)
    requires Good(prompt, w) && i < |w.s.slots|
    ensures w.s.slots[i].mac == "" || w.s.sessions[i].phase == Gone || Live(w.s, i)
    ensures w.s.slots[i].mac == "" ==> w.s.sessions[i].phase in {Unused, Listening, Dropping, Gone}
    ensures w.s.sessions[i].phase == Inserting ==> Find(w.s.table, w.s.slots[i].mac).None?
    ensures w.s.sessions[i].phase == Unused ==> w.s.slots[i].mac == ""
  {
    hide Find;
    SlotFacts(prompt, w, i);
  }

  /** Storing a frame makes no address settle or stop settling. */
  lemma SettlingUnchanged(s: State, s': State, i: nat, mac: string)
    requires |s.slots| == |s.sessions| == |s'.slots| == |s'.sessions| && i < |s.slots|
    requires s.sessions[i].phase != Removing && s'.sessions[i].phase != Removing
    requires forall j :: 0 <= j < |s.slots| && j != i ==> s'.slots[j] == s.slots[j] && s'.sessions[j] == s.sessions[j]
    ensures Settling(s, mac) <==> Settling(s', mac)
  {
    if j :| 0 <= j < |s.slots| && s.slots[j].mac == mac && s.sessions[j].phase == Removing {
      assert s'.slots[j].mac == mac && s'.sessions[j].phase == Removing;
    }
    if j :| 0 <= j < |s'.slots| && s'.slots[j].mac == mac && s'.sessions[j].phase == Removing {
      assert s.slots[j].mac == mac && s.sessions[j].phase == Removing;
    }
  }

  lemma NoRowNoMeter(prompt: bool, s: State, s': State, l: Ledger, mac: string)
    requires |s.slots| == |s.sessions| && |s'.slots| == |s'.sessions|
    requires TracksMac(prompt, s, l, mac) && Find(s.table, mac).None? && Find(s'.table, mac).None?
    ensures mac !in l.meters && TracksMac(prompt, s', l, mac)
  {
    hide Find, Idle, Settling;
  }

  lemma AcceptIsLocal(prompt: bool, w: World, i: nat)
    requires Good(prompt, w) && At(w.s, i, Unused)
    ensures Local(w, After(w, AcceptStep(w.s, i), Nothing), i)
  {
    hide Good, Find, Total, Unique, CityOf, LookupPrice, SlotOk, TracksSlot, TracksMac, FreshSlot, Matches;
    SlotFacts(prompt, w, i);
    PhaseFacts(prompt, w, i);
    SoleOwner(prompt, w, i);
  }

  lemma AcceptKeepsGood(prompt: bool, w: World, i: nat)
    requires Good(prompt, w) && At(w.s, i, Unused)
    ensures Good(prompt, After(w, AcceptStep(w.s, i), Nothing))
  {
    hide Good, Local, Find, Total, Unique, CityOf, LossOk;
    SlotFacts(prompt, w, i);
    AcceptIsLocal(prompt, w, i);
    var c, w' := w.s.slots[i], After(w, AcceptStep(w.s, i), Nothing);
    SettlingUnchanged(w.s, w'.s, i, c.mac);
    LocalKeepsGood(prompt, w, w', i);
  }

  /** The session ignores frames since it received status 255. */
  predicate Deaf(s: State, i: nat) {
    i < |s.sessions| && s.sessions[i].status == CRC8_TEST_FAILED
  }

  /** What a polite frame means to the meter: the first START of a connection says where it parks. */
  function Heard(s: State, i: nat, msg: Message): Happening
    requires At(s, i, Listening)
  {
    if msg.Intact? && msg.status == START_APP && !s.slots[i].connected && !Deaf(s, i)
    then Asked(msg.mac, Place(msg.x, msg.y)) else Nothing
  }

  lemma ReceiveIsLocal(prompt: bool, w: World, i: nat, msg: Message)
    requires Good(prompt, w) && Enabled(w.s, Receive(i, msg)) && Polite(w.s, Receive(i, msg))
    ensures Local(w, After(w, ReceiveStep(w.s, i, msg), Heard(w.s, i, msg)), i)
  {
    hide Good, Find, Total, Unique, CityOf, LookupPrice, SlotOk, TracksSlot, TracksMac, FreshSlot, Matches;
    SlotFacts(prompt, w, i);
    PhaseFacts(prompt, w, i);
    SoleOwner(prompt, w, i);
  }

  /** A step that moves no address and starts or ends no interval leaves the owners as they are. */
  lemma SameOwners(s: State, s': State, mac: string)
    requires |s.slots| == |s.sessions| == |s'.slots| == |s'.sessions|
    requires forall j :: 0 <= j < |s.slots| ==>
               && s'.slots[j].mac == s.slots[j].mac
               && Running(s'.slots[j], s'.sessions[j]) == Running(s.slots[j], s.sessions[j])
               && (s'.sessions[j].phase == Removing) == (s.sessions[j].phase == Removing)
    ensures Idle(s, mac) <==> Idle(s', mac)
    ensures Settling(s, mac) <==> Settling(s', mac)
  {
    hide Running;
    if j :| 0 <= j < |s.slots| && s.slots[j].mac == mac && s.sessions[j].phase == Removing {
      assert s'.slots[j].mac == mac;
    }
    if j :| 0 <= j < |s.slots| && s'.slots[j].mac == mac && s'.sessions[j].phase == Removing {
      assert s.slots[j].mac == mac;
    }
  }

  lemma ReceiveCorruptKeepsGood(prompt: bool, w: World, i: nat, msg: Message)
    requires Good(prompt, w) && Enabled(w.s, Receive(i, msg)) && Polite(w.s, Receive(i, msg))
    requires msg == Corrupt
    ensures Good(prompt, After(w, ReceiveStep(w.s, i, msg), Heard(w.s, i, msg)))
  {
    hide Good, Local, Find, Total, Unique, CityOf, LookupPrice, LossOk;
    SlotFacts(prompt, w, i);
    ReceiveIsLocal(prompt, w, i, msg);
    var w' := After(w, ReceiveStep(w.s, i, msg), Heard(w.s, i, msg));
    SoleOwner(prompt, w, i);
    SettlingUnchanged(w.s, w'.s, i, w'.s.slots[i].mac);
    LocalKeepsGood(prompt, w, w', i);
  }

  lemma ReceiveStartKeepsGood(prompt: bool, w: World, i: nat, msg: Message)
    requires Good(prompt, w) && Enabled(w.s, Receive(i, msg)) && Polite(w.s, Receive(i, msg))
    requires msg.Intact? && msg.status == START_APP && !Deaf(w.s, i) && w.s.slots[i].mac == ""
    ensures Good(prompt, After(w, ReceiveStep(w.s, i, msg), Heard(w.s, i, msg)))
  {
    hide Good, Local, Find, Total, Unique, CityOf, LookupPrice, LossOk;
    SlotFacts(prompt, w, i);
    ReceiveIsLocal(prompt, w, i, msg);
    var w' := After(w, ReceiveStep(w.s, i, msg), Heard(w.s, i, msg));
    NoOwner(prompt, w, msg.mac);
    SettlingUnchanged(w.s, w'.s, i, w'.s.slots[i].mac);
    LocalKeepsGood(prompt, w, w', i);
  }

  lemma ReceiveCloseKeepsGood(prompt: bool, w: World, i: nat, msg: Message)
    requires Good(prompt, w) && Enabled(w.s, Receive(i, msg)) && Polite(w.s, Receive(i, msg))
    requires msg.Intact? && msg.status == CLOSE_APP && !Deaf(w.s, i)
    ensures Good(prompt, After(w, ReceiveStep(w.s, i, msg), Heard(w.s, i, msg)))
  {
    hide Good, Local, Find, Total, Unique, CityOf, LookupPrice, LossOk, Matches, Idle, Settling;
    SlotFacts(prompt, w, i);
    ReceiveIsLocal(prompt, w, i, msg);
    var w' := After(w, ReceiveStep(w.s, i, msg), Heard(w.s, i, msg));
    SameOwners(w.s, w'.s, msg.mac);
    LocalKeepsGood(prompt, w, w', i);
  }

  /** A further START of a session that resumed an earlier parking. */
  lemma ReceiveRestartKeepsGood(prompt: bool, w: World, i: nat, msg: Message)
    requires Good(prompt, w) && Enabled(w.s, Receive(i, msg)) && Polite(w.s, Receive(i, msg))
    requires msg.Intact? && msg.status == START_APP && !Deaf(w.s, i) && w.s.slots[i].mac != ""
    ensures Good(prompt, After(w, ReceiveStep(w.s, i, msg), Heard(w.s, i, msg)))
  {
    hide Good, Local, Find, Total, Unique, CityOf, LookupPrice, LossOk, Matches, Idle, Settling;
    SlotFacts(prompt, w, i);
    ReceiveIsLocal(prompt, w, i, msg);
    var w' := After(w, ReceiveStep(w.s, i, msg), Heard(w.s, i, msg));
    SameOwners(w.s, w'.s, msg.mac);
    LocalKeepsGood(prompt, w, w', i);
  }

  lemma ReceiveOtherKeepsGood(prompt: bool, w: World, i: nat, msg: Message)
    requires Good(prompt, w) && Enabled(w.s, Receive(i, msg)) && Polite(w.s, Receive(i, msg))
    requires msg.Intact? && msg.status != START_APP && msg.status != CLOSE_APP && !Deaf(w.s, i)
    ensures Good(prompt, After(w, ReceiveStep(w.s, i, msg), Heard(w.s, i, msg)))
  {
    hide Good, Local, Find, Total, Unique, CityOf, LookupPrice, LossOk, Matches, Idle, Settling;
    SlotFacts(prompt, w, i);
    ReceiveIsLocal(prompt, w, i, msg);
    var w' := After(w, ReceiveStep(w.s, i, msg), Heard(w.s, i, msg));
    SameOwners(w.s, w'.s, msg.mac);
    LocalKeepsGood(prompt, w, w', i);
  }

  /** The address and time of a session that asks to park. */
  function Seen(s: State, i: nat): Happening
    requires i < |s.slots|
  {
    Sighted(s.slots[i].mac, s.now)
  }

  lemma LookupIsLocal(prompt: bool, w: World, i: nat)
    requires Good(prompt, w) && At(w.s, i, Starting)
    ensures Local(w, After(w, LookupStep(w.s, i), Seen(w.s, i)), i)
  {
    hide Good, Find, Total, Unique, CityOf, LookupPrice, SlotOk, TracksSlot, TracksMac, FreshSlot, Matches;
    SlotFacts(prompt, w, i);
    PhaseFacts(prompt, w, i);
    SoleOwner(prompt, w, i);
  }

  lemma LookupNewKeepsGood(prompt: bool, w: World, i: nat)
    requires Good(prompt, w) && At(w.s, i, Starting) && !w.s.sessions[i].checked
    requires Find(w.s.table, w.s.slots[i].mac).None?
    ensures Good(prompt, After(w, LookupStep(w.s, i), Seen(w.s, i)))
  {
    hide Good, Local, Find, Total, Unique, CityOf, LookupPrice, LossOk, Matches, Settling;
    SlotFacts(prompt, w, i);
    SoleOwner(prompt, w, i);
    LookupIsLocal(prompt, w, i);
    var c, w' := w.s.slots[i], After(w, LookupStep(w.s, i), Seen(w.s, i));
    SettlingUnchanged(w.s, w'.s, i, c.mac);
    LocalKeepsGood(prompt, w, w', i);
  }

  lemma LookupKnownKeepsGood(prompt: bool, w: World, i: nat)
    requires Good(prompt, w) && At(w.s, i, Starting) && !w.s.sessions[i].checked
    requires Find(w.s.table, w.s.slots[i].mac).Some?
    ensures Good(prompt, After(w, LookupStep(w.s, i), Seen(w.s, i)))
  {
    hide Good, Local, Find, Total, Unique, CityOf, LookupPrice, LossOk, Matches, Settling;
    SlotFacts(prompt, w, i);
    SoleOwner(prompt, w, i);
    LookupIsLocal(prompt, w, i);
    var c, w' := w.s.slots[i], After(w, LookupStep(w.s, i), Seen(w.s, i));
    SettlingUnchanged(w.s, w'.s, i, c.mac);
    LocalKeepsGood(prompt, w, w', i);
  }

  /** A further START of a session that resumed an earlier parking changes nothing. */
  lemma LookupAgainKeepsGood(prompt: bool, w: World, i: nat)
    requires Good(prompt, w) && At(w.s, i, Starting) && w.s.sessions[i].checked
    ensures Good(prompt, After(w, LookupStep(w.s, i), Seen(w.s, i)))
  {
    hide Good, Local, Find, Total, Unique, CityOf, LookupPrice, LossOk, Matches, Idle, Settling;
    SlotFacts(prompt, w, i);
    LookupIsLocal(prompt, w, i);
    var c, w' := w.s.slots[i], After(w, LookupStep(w.s, i), Seen(w.s, i));
    SameOwners(w.s, w'.s, c.mac);
    LocalKeepsGood(prompt, w, w', i);
  }

  lemma LookupKeepsGood(prompt: bool, w: World, i: nat)
    requires Good(prompt, w) && At(w.s, i, Starting)
    ensures Good(prompt, After(w, LookupStep(w.s, i), Seen(w.s, i)))
  {
    hide Good, LookupStep;
    SlotFacts(prompt, w, i);
    if w.s.sessions[i].checked {
      LookupAgainKeepsGood(prompt, w, i);
    } else if Find(w.s.table, w.s.slots[i].mac).None? {
      LookupNewKeepsGood(prompt, w, i);
    } else {
      LookupKnownKeepsGood(prompt, w, i);
    }
  }

  lemma SetConnectedIsLocal(prompt: bool, w: World, i: nat)
    requires Good(prompt, w) && At(w.s, i, Inserted)
    ensures Local(w, After(w, SetConnectedStep(w.s, i), Nothing), i)
  {
    hide Good, Find, Total, Unique, CityOf, LookupPrice, SlotOk, TracksSlot, TracksMac, FreshSlot, Matches;
    SlotFacts(prompt, w, i);
    PhaseFacts(prompt, w, i);
    SoleOwner(prompt, w, i);
  }

  lemma SetConnectedKeepsGood(prompt: bool, w: World, i: nat)
    requires Good(prompt, w) && At(w.s, i, Inserted)
    ensures Good(prompt, After(w, SetConnectedStep(w.s, i), Nothing))
  {
    hide Good, Local, Find, Total, Unique, CityOf, LookupPrice, LossOk, Matches, Idle, Settling;
    SlotFacts(prompt, w, i);
    SetConnectedIsLocal(prompt, w, i);
    var c, w' := w.s.slots[i], After(w, SetConnectedStep(w.s, i), Nothing);
    SameOwners(w.s, w'.s, c.mac);
    LocalKeepsGood(prompt, w, w', i);
  }

  lemma LoseIsLocal(prompt: bool, w: World, i: nat)
    requires Good(prompt, w) && At(w.s, i, Listening)
    ensures Local(w, After(w, LoseStep(w.s, i), Nothing), i)
  {
    hide Good, Find, Total, Unique, CityOf, LookupPrice, SlotOk, TracksSlot, TracksMac, FreshSlot, Matches;
    SlotFacts(prompt, w, i);
    PhaseFacts(prompt, w, i);
    SoleOwner(prompt, w, i);
  }

  lemma LoseKeepsGood(prompt: bool, w: World, i: nat)
    requires Good(prompt, w) && At(w.s, i, Listening)
    ensures Good(prompt, After(w, LoseStep(w.s, i), Nothing))
  {
    hide Good, Local, Find, Total, Unique, CityOf, LookupPrice, LossOk, Matches, Idle, Settling;
    SlotFacts(prompt, w, i);
    LoseIsLocal(prompt, w, i);
    var c, w' := w.s.slots[i], After(w, LoseStep(w.s, i), Nothing);
    SameOwners(w.s, w'.s, c.mac);
    LocalKeepsGood(prompt, w, w', i);
  }

  lemma ResumeIsLocal(prompt: bool, w: World, i: nat)
    requires Good(prompt, w) && At(w.s, i, Resuming)
    ensures Local(w, After(w, ResumeStep(w.s, i), Reopened(w.s.slots[i].mac, w.s.now)), i)
  {
    hide Good, Find, Total, Unique, CityOf, LookupPrice, SlotOk, TracksSlot, TracksMac, FreshSlot, Matches;
    SlotFacts(prompt, w, i);
    PhaseFacts(prompt, w, i);
    SoleOwner(prompt, w, i);
  }

  lemma ResumeKeepsGood(prompt: bool, w: World, i: nat)
    requires Good(prompt, w) && At(w.s, i, Resuming)
    ensures Good(prompt, After(w, ResumeStep(w.s, i), Reopened(w.s.slots[i].mac, w.s.now)))
  {
    hide Good, Local, Find, Total, Unique, CityOf;
    SlotFacts(prompt, w, i);
    SoleOwner(prompt, w, i);
    ResumeIsLocal(prompt, w, i);
    var c, w' := w.s.slots[i], After(w, ResumeStep(w.s, i), Reopened(w.s.slots[i].mac, w.s.now));
    SettlingUnchanged(w.s, w'.s, i, c.mac);
    assert !Idle(w'.s, c.mac) by { assert w'.s.slots[i].mac == c.mac; }
    LocalKeepsGood(prompt, w, w', i);
  }

  /** Inserting the row of an address that has none. */
  lemma AfterNewRow(t: Table, row: Row)
    requires Unique(t) && Find(t, "").None? && Find(t, row.mac).None? && row.mac != ""
    ensures var t' := Insert(t, row);
            && Unique(t') && Find(t', "").None? && Find(t', row.mac) == Some(row)
            && (forall mac :: mac != row.mac ==> Find(t', mac) == Find(t, mac))
  {
    hide Find, Count;
    FindIsCount(t, row.mac);
    forall mac
      ensures Count(Insert(t, row), mac) <= 1 && (mac != row.mac ==> Find(Insert(t, row), mac) == Find(t, mac))
    {
      AfterInsert(t, row, mac);
    }
    AfterInsert(t, row, row.mac);
  }

  /** Deleting the rows of an address. */
  lemma AfterRemoval(t: Table, key: string)
    requires Unique(t) && Find(t, "").None?
    ensures var t' := Delete(t, key);
            && Unique(t') && Find(t', "").None? && Find(t', key).None?
            && (forall mac :: mac != key ==> Find(t', mac) == Find(t, mac))
  {
    hide Find, Count;
    forall mac ensures Count(Delete(t, key), mac) <= 1 && (mac != key ==> Find(Delete(t, key), mac) == Find(t, mac)) {
      AfterDelete(t, key, mac);
    }
    AfterDelete(t, key, key);
  }

  lemma InsertRowIsLocal(prompt: bool, w: World, i: nat)
    requires Good(prompt, w) && At(w.s, i, Inserting)
    ensures Local(w, After(w, InsertRowStep(w.s, i), Opened(w.s.slots[i].mac)), i)
  {
    hide Good, Find, Total, Unique, CityOf, LookupPrice, SlotOk, TracksSlot, TracksMac, FreshSlot, Matches;
    SlotFacts(prompt, w, i);
    PhaseFacts(prompt, w, i);
    SoleOwner(prompt, w, i);
    AfterNewRow(w.s.table, Row(w.s.slots[i].mac, 0, w.s.slots[i].location));
  }

  lemma InsertRowKeepsGood(prompt: bool, w: World, i: nat)
    requires Good(prompt, w) && At(w.s, i, Inserting)
    ensures Good(prompt, After(w, InsertRowStep(w.s, i), Opened(w.s.slots[i].mac)))
  {
    hide Good, Local, Find, Unique;
    SlotFacts(prompt, w, i);
    SoleOwner(prompt, w, i);
    InsertRowIsLocal(prompt, w, i);
    var c, w' := w.s.slots[i], After(w, InsertRowStep(w.s, i), Opened(w.s.slots[i].mac));
    AfterNewRow(w.s.table, Row(w.s.slots[i].mac, 0, w.s.slots[i].location));
    SettlingUnchanged(w.s, w'.s, i, c.mac);
    assert !Idle(w'.s, c.mac) by { assert w'.s.slots[i].mac == c.mac; }
    LocalKeepsGood(prompt, w, w', i);
  }

  /** Writing the time used of one address. */
  lemma AfterWrite(t: Table, key: string, time: int)
    requires Unique(t) && Find(t, "").None?
    ensures var t' := Update(t, key, time);
            && Unique(t') && Find(t', "").None?
            && (forall mac :: mac != key ==> Find(t', mac) == Find(t, mac))
            && Find(t', key) == match Find(t, key)
                                case None => None
                                case Some(row) => Some(row.(timeUsed := time))
  {
    hide *;
    var t' := Update(t, key, time);
    forall mac ensures Count(t', mac) == Count(t, mac) {
      AfterUpdate(t, key, time, mac);
    }
    UniqueByCount(t, t');
    forall mac ensures mac != key ==> Find(t', mac) == Find(t, mac) {
      AfterUpdate(t, key, time, mac);
    }
    AfterUpdate(t, key, time, key);
    AfterUpdate(t, key, time, "");
  }

  lemma UniqueByCount(t: Table, t': Table)
    requires Unique(t) && forall mac :: Count(t', mac) <= Count(t, mac)
    ensures Unique(t')
  {
  }

  /** A state that differs in slot i and in the time used of its address, which is brought up to date. */
  function WriteState(s: State, i: nat, c: Slot, t: Session): State
    requires i < |s.slots| == |s.sessions|
  {
    Moved(s, i, c, t).(table := Update(s.table, s.slots[i].mac, s.now - s.slots[i].start))
  }

  /** The meter of the address whose closing time is written. */
  lemma WriteTracks(prompt: bool, w: World, i: nat, c': Slot, t': Session)
    requires Good(prompt, w) && i < |w.s.slots| && Running(w.s.slots[i], w.s.sessions[i])
    requires c'.mac == w.s.slots[i].mac && t'.phase in {Paying, Gone}
    ensures |w.s.slots| == |w.s.sessions|
    ensures var mac := w.s.slots[i].mac;
            var l' := Follow(w.ledger, Stopped(mac, w.s.now));
            && TracksMac(prompt, WriteState(w.s, i, c', t'), l', mac)
            && mac in l'.meters && l'.meters[mac].since.None?
  {
    hide Good, FreshSlot, Find, Update, Total, Unique, CityOf, LookupPrice, LossOk, Matches, Idle, Settling;
    SlotFacts(prompt, w, i);
    SoleOwner(prompt, w, i);
    var c, s' := w.s.slots[i], WriteState(w.s, i, c', t');
    AfterWrite(w.s.table, c.mac, w.s.now - c.start);
    SettlingUnchanged(w.s, s', i, c.mac);
    StopTotal(w.ledger.meters[c.mac], w.s.now);
  }

  lemma CloseIsLocal(prompt: bool, w: World, i: nat)
    requires Good(prompt, w) && At(w.s, i, Closing)
    ensures Local(w, After(w, CloseStep(w.s, i), Stopped(w.s.slots[i].mac, w.s.now)), i)
  {
    hide Good, Find, Update, LossOk, Total, Unique, CityOf, LookupPrice, SlotOk, TracksSlot, TracksMac, FreshSlot,
         Matches;
    SlotFacts(prompt, w, i);
    PhaseFacts(prompt, w, i);
    SoleOwner(prompt, w, i);
    AfterWrite(w.s.table, w.s.slots[i].mac, w.s.now - w.s.slots[i].start);
  }

  lemma CloseKeepsGood(prompt: bool, w: World, i: nat)
    requires Good(prompt, w) && At(w.s, i, Closing)
    ensures Good(prompt, After(w, CloseStep(w.s, i), Stopped(w.s.slots[i].mac, w.s.now)))
  {
    hide Good, Local, Find, Total, Unique, CityOf, LookupPrice, LossOk, TracksMac, Matches;
    SlotFacts(prompt, w, i);
    CloseIsLocal(prompt, w, i);
    var c, w' := w.s.slots[i], After(w, CloseStep(w.s, i), Stopped(w.s.slots[i].mac, w.s.now));
    AfterWrite(w.s.table, w.s.slots[i].mac, w.s.now - w.s.slots[i].start);
    WriteTracks(prompt, w, i, w'.s.slots[i], w'.s.sessions[i]);
    LocalKeepsGood(prompt, w, w', i);
  }

  lemma FinalWriteIsLocal(prompt: bool, w: World, i: nat)
    requires Good(prompt, w) && At(w.s, i, Dropping)
    ensures Local(w, After(w, FinalWriteStep(w.s, i), Stopped(w.s.slots[i].mac, w.s.now)), i)
  {
    hide Good, Find, Update, LossOk, Total, Unique, CityOf, LookupPrice, SlotOk, TracksSlot, TracksMac, FreshSlot,
         Matches;
    SlotFacts(prompt, w, i);
    PhaseFacts(prompt, w, i);
    SoleOwner(prompt, w, i);
    AfterWrite(w.s.table, w.s.slots[i].mac, w.s.now - w.s.slots[i].start);
  }

  lemma FinalWriteKeepsGood(prompt: bool, w: World, i: nat)
    requires Good(prompt, w) && At(w.s, i, Dropping)
    ensures Good(prompt, After(w, FinalWriteStep(w.s, i), Stopped(w.s.slots[i].mac, w.s.now)))
  {
    hide Good, Local, Find, Update, Total, Unique, CityOf, LookupPrice, LossOk, TracksMac, Matches;
    SlotFacts(prompt, w, i);
    FinalWriteIsLocal(prompt, w, i);
    var c, w' := w.s.slots[i], After(w, FinalWriteStep(w.s, i), Stopped(w.s.slots[i].mac, w.s.now));
    AfterWrite(w.s.table, w.s.slots[i].mac, w.s.now - w.s.slots[i].start);
    if c.mac != "" {
      WriteTracks(prompt, w, i, w'.s.slots[i], w'.s.sessions[i]);
    } else {
      NoRowNoMeter(prompt, w.s, w'.s, w.ledger, c.mac);
    }
    LocalKeepsGood(prompt, w, w', i);
  }

  /** The payment sent is the bill of the meter. */
  lemma PaymentMatches(prompt: bool, w: World, i: nat)
    requires Good(prompt, w) && At(w.s, i, Paying)
    ensures var w' := After(w, PayStep(w.s, i), Settled(w.s.slots[i].mac));
            && |w'.s.sent| == |w'.ledger.bills| == |w.s.sent| + 1
            && (forall k :: 0 <= k < |w'.s.sent| ==> Matches(prompt, w'.s.prices, w'.s.sent[k], w'.ledger.bills[k]))
  {
    hide Good, Local, Find, Total, Unique, CityOf, Idle, Settling, FreshSlot, LookupPrice;
    SlotFacts(prompt, w, i);
    SoleOwner(prompt, w, i);
  }

  lemma PayIsLocal(prompt: bool, w: World, i: nat)
    requires Good(prompt, w) && At(w.s, i, Paying)
    ensures Local(w, After(w, PayStep(w.s, i), Settled(w.s.slots[i].mac)), i)
  {
    hide Good, Find, Total, Unique, CityOf, LookupPrice, SlotOk, TracksSlot, TracksMac, FreshSlot, Matches;
    SlotFacts(prompt, w, i);
    PhaseFacts(prompt, w, i);
    SoleOwner(prompt, w, i);
  }

  lemma PayKeepsGood(prompt: bool, w: World, i: nat)
    requires Good(prompt, w) && At(w.s, i, Paying)
    ensures Good(prompt, After(w, PayStep(w.s, i), Settled(w.s.slots[i].mac)))
  {
    hide Good, Local, Find, Total, Unique, CityOf, LookupPrice, LossOk, Matches;
    SlotFacts(prompt, w, i);
    SoleOwner(prompt, w, i);
    PayIsLocal(prompt, w, i);
    var c, w' := w.s.slots[i], After(w, PayStep(w.s, i), Settled(w.s.slots[i].mac));
    PaymentMatches(prompt, w, i);
    assert w'.s.slots[i].mac == c.mac && w'.s.sessions[i].phase == Removing;
    LocalKeepsGood(prompt, w, w', i);
  }

  lemma RemoveIsLocal(prompt: bool, w: World, i: nat)
    requires Good(prompt, w) && At(w.s, i, Removing)
    ensures Local(w, After(w, RemoveStep(w.s, i), Nothing), i)
  {
    hide Good, Find, Total, Unique, CityOf, LookupPrice, SlotOk, TracksSlot, TracksMac, FreshSlot, Matches;
    SlotFacts(prompt, w, i);
    PhaseFacts(prompt, w, i);
    SoleOwner(prompt, w, i);
    AfterRemoval(w.s.table, w.s.slots[i].mac);
  }

  lemma RemoveKeepsGood(prompt: bool, w: World, i: nat)
    requires Good(prompt, w) && At(w.s, i, Removing)
    ensures Good(prompt, After(w, RemoveStep(w.s, i), Nothing))
  {
    hide Good, Local, Find, Total, Unique, CityOf, LookupPrice, LossOk, Matches;
    SlotFacts(prompt, w, i);
    SoleOwner(prompt, w, i);
    RemoveIsLocal(prompt, w, i);
    var c, w' := w.s.slots[i], After(w, RemoveStep(w.s, i), Nothing);
    AfterRemoval(w.s.table, c.mac);
    LocalKeepsGood(prompt, w, w', i);
  }

  lemma ReceiveKeepsGood(prompt: bool, w: World, i: nat, msg: Message)
    requires Good(prompt, w) && Enabled(w.s, Receive(i, msg)) && Polite(w.s, Receive(i, msg))
    ensures Good(prompt, After(w, ReceiveStep(w.s, i, msg), Heard(w.s, i, msg)))
  {
    hide Good, Polite;
    if msg == Corrupt {
      ReceiveCorruptKeepsGood(prompt, w, i, msg);
    } else if Deaf(w.s, i) {
      assert After(w, ReceiveStep(w.s, i, msg), Heard(w.s, i, msg)) == w;
    } else if msg.status == START_APP && w.s.slots[i].mac == "" {
      ReceiveStartKeepsGood(prompt, w, i, msg);
    } else if msg.status == START_APP {
      ReceiveRestartKeepsGood(prompt, w, i, msg);
    } else if msg.status == CLOSE_APP {
      ReceiveCloseKeepsGood(prompt, w, i, msg);
    } else {
      ReceiveOtherKeepsGood(prompt, w, i, msg);
    }
  }

  // ----- The clock -----

  /** A second without a missed backup lets the table lag by at most one second more. */
  lemma LagGrows(w: World)
    requires Prompt(w, Tick) && w.s.backupStart <= w.s.now
    ensures LagBound(w.s.(now := w.s.now + 1), false) >= LagBound(w.s, w.polled) + 1
  {
  }

  lemma TickKeepsGood(prompt: bool, w: World)
    requires Good(prompt, w) && Allowed(prompt, w, Tick)
    ensures Good(prompt, WorldStep(w, Tick))
  {
    hide Find, Total, CityOf, LookupPrice, Unique, LagBound;
    var w' := WorldStep(w, Tick);
    assert Inv(w'.s) by {
      forall i | 0 <= i < |w'.s.slots| ensures SlotOk(w'.s, w'.s.slots[i], w'.s.sessions[i]) {
        assert SlotOk(w.s, w.s.slots[i], w.s.sessions[i]);
      }
    }
    assert Tracks(prompt, w'.s, w'.ledger) by {
      forall mac ensures TracksMac(prompt, w'.s, w'.ledger, mac) {
        assert TracksMac(prompt, w.s, w.ledger, mac);
      }
    }
    if prompt {
      LagGrows(w);
      forall i | 0 <= i < |w'.s.slots| ensures FreshSlot(w'.s, w'.polled, w'.late[i], w'.s.slots[i], w'.s.sessions[i]) {
        assert FreshSlot(w.s, w.polled, w.late[i], w.s.slots[i], w.s.sessions[i]);
        assert SlotOk(w.s, w.s.slots[i], w.s.sessions[i]);
      }
    }
  }

  // ----- The updater -----

  /** The row of an address after a backup pass: brought up to date when a slot with that address is
      connected, otherwise untouched. */
  ghost predicate BackedUp(t: Table, t': Table, slots: seq<Slot>, now: int, delays: seq<nat>, mac: string)
    requires |slots| <= |delays|
  {
    && Count(t', mac) == Count(t, mac)
    && (Find(t, mac).None? <==> Find(t', mac).None?)
    && (Find(t, mac).Some? ==> Find(t', mac).value.location == Find(t, mac).value.location)
    && ((forall j :: 0 <= j < |slots| && slots[j].connected ==> slots[j].mac != mac) ==>
          Find(t', mac) == Find(t, mac))
    && (Find(t, mac).Some? ==>
          forall i :: 0 <= i < |slots| && slots[i].connected && slots[i].mac == mac ==>
            Find(t', mac).value.timeUsed == now + Elapsed(delays, i + 1) - slots[i].start)
  }

  ghost predicate DistinctConnected(slots: seq<Slot>) {
    forall i, j :: 0 <= i < j < |slots| && slots[i].connected && slots[j].connected ==>
                     slots[i].mac != slots[j].mac
  }

  lemma {:induction false} AfterPass(t: Table, slots: seq<Slot>, now: int, delays: seq<nat>, k: nat, mac: string)
    requires k <= |slots| == |delays| && DistinctConnected(slots)
    ensures BackedUp(t, BackupPass(t, slots, now, delays, k), slots[..k], now, delays, mac)
  {
    hide Find, Count, Elapsed;
    if k > 0 {
      AfterPass(t, slots, now, delays, k - 1, mac);
      var c, t1 := slots[k - 1], BackupPass(t, slots, now, delays, k - 1);
      assert slots[..k] == slots[..k - 1] + [c];
      if c.connected {
        AfterUpdate(t1, c.mac, now + Elapsed(delays, k) - c.start, mac);
      }
    }
  }

  /** A pass over the first k records, when one connected record holds the address. */
  lemma {:induction false} PassWritesSole(t: Table, slots: seq<Slot>, now: int, delays: seq<nat>, k: nat, i: nat)
    requires k <= |slots| == |delays| && i < |slots| && slots[i].connected && Find(t, slots[i].mac).Some?
    requires forall j :: 0 <= j < |slots| && j != i && slots[j].connected ==> slots[j].mac != slots[i].mac
    ensures var row := Find(BackupPass(t, slots, now, delays, k), slots[i].mac);
            && row.Some? && (k <= i ==> row == Find(t, slots[i].mac))
            && (i < k ==> row.value.timeUsed == now + Elapsed(delays, i + 1) - slots[i].start)
  {
    hide Find, Elapsed, Update;
    if k > 0 {
      PassWritesSole(t, slots, now, delays, k - 1, i);
      var t', c := BackupPass(t, slots, now, delays, k - 1), slots[k - 1];
      AfterUpdate(t', c.mac, now + Elapsed(delays, k) - c.start, slots[i].mac);
    }
  }

  /** The same, when none does. */
  lemma {:induction false} PassSkips(t: Table, slots: seq<Slot>, now: int, delays: seq<nat>, k: nat, mac: string)
    requires k <= |slots| == |delays|
    requires forall j :: 0 <= j < |slots| && slots[j].connected ==> slots[j].mac != mac
    ensures Find(BackupPass(t, slots, now, delays, k), mac) == Find(t, mac)
  {
    hide Find, Elapsed, Update;
    if k > 0 {
      PassSkips(t, slots, now, delays, k - 1, mac);
      var t', c := BackupPass(t, slots, now, delays, k - 1), slots[k - 1];
      AfterUpdate(t', c.mac, now + Elapsed(delays, k) - c.start, mac);
    }
  }

  function Passed(s: State, delays: seq<nat>): Table
    requires |delays| == |s.slots|
  {
    BackupPass(s.table, s.slots, s.now, delays, |delays|)
  }

  /** The pass on a server that satisfies the invariant. */
  lemma AfterBackup(prompt: bool, w: World, delays: seq<nat>, mac: string)
    requires Good(prompt, w) && |delays| == |w.s.slots|
    ensures BackedUp(w.s.table, Passed(w.s, delays), w.s.slots, w.s.now, delays, mac)
    ensures DistinctConnected(w.s.slots)
  {
    hide Find, Count, BackupPass, Tracks, Fresh, BackedUp;
    forall i, j | 0 <= i < j < |w.s.slots| && w.s.slots[i].connected && w.s.slots[j].connected
      ensures w.s.slots[i].mac != w.s.slots[j].mac
    {
      assert SlotOk(w.s, w.s.slots[i], w.s.sessions[i]) && SlotOk(w.s, w.s.slots[j], w.s.sessions[j]);
      assert Live(w.s, i) && Live(w.s, j);
    }
    AfterPass(w.s.table, w.s.slots, w.s.now, delays, |delays|, mac);
    assert w.s.slots[..|delays|] == w.s.slots;
  }

  /** No other session is connected with the address of a live one. */
  lemma OnlyOwnerConnected(prompt: bool, w: World, i: nat)
    requires Good(prompt, w) && i < |w.s.slots| && Live(w.s, i)
    ensures forall j :: 0 <= j < |w.s.slots| && j != i && w.s.slots[j].connected ==>
              w.s.slots[j].mac != w.s.slots[i].mac
  {
    hide Find, Tracks, Fresh, Unique;
    SoleOwner(prompt, w, i);
    forall j | 0 <= j < |w.s.slots| && j != i && w.s.slots[j].connected
      ensures w.s.slots[j].mac != w.s.slots[i].mac
    {
      assert SlotOk(w.s, w.s.slots[j], w.s.sessions[j]);
      assert Live(w.s, j);
    }
  }

  /** A backup does not touch the row of a live session that is not connected. */
  lemma BackupSkips(prompt: bool, w: World, delays: seq<nat>, i: nat)
    requires Good(prompt, w) && |delays| == |w.s.slots|
    requires i < |w.s.slots| && !w.s.slots[i].connected && Live(w.s, i)
    ensures Find(Passed(w.s, delays), w.s.slots[i].mac) == Find(w.s.table, w.s.slots[i].mac)
  {
    hide Find, Good, BackupPass;
    OnlyOwnerConnected(prompt, w, i);
    PassSkips(w.s.table, w.s.slots, w.s.now, delays, |delays|, w.s.slots[i].mac);
  }

  lemma {:induction false} ElapsedGrows(delays: seq<nat>, j: nat, k: nat)
    requires j <= k <= |delays|
    ensures Elapsed(delays, j) <= Elapsed(delays, k)
    decreases k
  {
    if j < k {
      ElapsedGrows(delays, j, k - 1);
    }
  }

  /** The row of slot i after a pass. */
  lemma RowAfterPass(prompt: bool, w: World, delays: seq<nat>, i: nat)
    requires Good(prompt, w) && |delays| == |w.s.slots| && i < |w.s.slots|
    ensures var c, row := w.s.slots[i], Find(w.s.table, w.s.slots[i].mac);
            var row' := Find(Passed(w.s, delays), c.mac);
            && row'.Some? == row.Some?
            && (row.Some? ==> row'.value.location == row.value.location)
            && (row.Some? && c.connected ==> row'.value.timeUsed == w.s.now + Elapsed(delays, i + 1) - c.start)
            && (!c.connected && Live(w.s, i) ==> row' == row)
  {
    hide Find, Count, Passed, Good, Elapsed;
    AfterBackup(prompt, w, delays, w.s.slots[i].mac);
    SlotFacts(prompt, w, i);
    if !w.s.slots[i].connected && Live(w.s, i) {
      BackupSkips(prompt, w, delays, i);
    }
  }

  lemma PassSlotOk(prompt: bool, w: World, e: Event, i: nat)
    requires Good(prompt, w) && i < |w.s.slots| && e.Backup? && Enabled(w.s, e) && BackupDue(w.s, e.finalFlush)
    ensures var w' := WorldStep(w, e);
            && SlotOk(w'.s, w'.s.slots[i], w'.s.sessions[i])
            && (prompt ==> FreshSlot(w'.s, true, w'.late[i], w'.s.slots[i], w'.s.sessions[i]))
  {
    hide Find, BackupPass, Good, CityOf, LookupPrice, Elapsed, BackupDue, Matches, TracksMac, TracksSlot, Unique;
    SlotFacts(prompt, w, i);
    RowAfterPass(prompt, w, e.delays, i);
    ElapsedGrows(e.delays, i + 1, |e.delays|);
  }

  lemma PassTracksMac(prompt: bool, w: World, finalFlush: bool, delays: seq<nat>, mac: string)
    requires Good(prompt, w) && |delays| == |w.s.slots| && BackupDue(w.s, finalFlush)
    ensures TracksMac(prompt, BackupStep(w.s, finalFlush, delays), w.ledger, mac)
  {
    hide Find, Count, BackupPass, Fresh, CityOf, LookupPrice, Total;
    var s' := BackupStep(w.s, finalFlush, delays);
    AfterBackup(prompt, w, delays, mac);
    assert TracksMac(prompt, w.s, w.ledger, mac);
    assert Settling(w.s, mac) <==> Settling(s', mac);
    assert Idle(s', mac) <==> Idle(w.s, mac);
    if Idle(w.s, mac) {
      forall j | 0 <= j < |w.s.slots| && w.s.slots[j].connected ensures w.s.slots[j].mac != mac {
        assert SlotOk(w.s, w.s.slots[j], w.s.sessions[j]);
      }
    }
  }

  lemma PassKeepsGood(prompt: bool, w: World, e: Event)
    requires Good(prompt, w) && e.Backup? && Allowed(prompt, w, e) && BackupDue(w.s, e.finalFlush)
    ensures Good(prompt, WorldStep(w, e))
  {
    hide Find, Count, BackupPass, SlotOk, FreshSlot, TracksMac, BackedUp, Elapsed, BackupDue;
    var w' := WorldStep(w, e);
    forall mac ensures Count(w'.s.table, mac) == Count(w.s.table, mac) {
      AfterBackup(prompt, w, e.delays, mac);
      CountBackedUp(w.s.table, w'.s.table, w.s.slots, w.s.now, e.delays, mac);
    }
    AfterBackup(prompt, w, e.delays, "");
    CountBackedUp(w.s.table, w'.s.table, w.s.slots, w.s.now, e.delays, "");
    forall i | 0 <= i < |w.s.slots|
      ensures SlotOk(w'.s, w'.s.slots[i], w'.s.sessions[i])
      ensures prompt ==> FreshSlot(w'.s, w'.polled, w'.late[i], w'.s.slots[i], w'.s.sessions[i])
    {
      PassSlotOk(prompt, w, e, i);
    }
    forall mac ensures TracksMac(prompt, w'.s, w'.ledger, mac) {
      PassTracksMac(prompt, w, e.finalFlush, e.delays, mac);
    }
  }

  lemma CountBackedUp(t: Table, t': Table, slots: seq<Slot>, now: int, delays: seq<nat>, mac: string)
    requires |slots| <= |delays| && BackedUp(t, t', slots, now, delays, mac)
    ensures Count(t', mac) == Count(t, mac) && (Find(t, mac).None? <==> Find(t', mac).None?)
  {
  }

  lemma BackupKeepsGood(prompt: bool, w: World, e: Event)
    requires Good(prompt, w) && e.Backup? && Allowed(prompt, w, e)
    ensures Good(prompt, WorldStep(w, e))
  {
    hide Find, Count, BackupPass, CityOf, LookupPrice, Total, Elapsed;
    if BackupDue(w.s, e.finalFlush) {
      PassKeepsGood(prompt, w, e);
    } else {
      var w' := WorldStep(w, e);
      assert w'.s == w.s.(updaterDone := e.finalFlush);
      assert LagBound(w'.s, true) == LagBound(w.s, w.polled);
      forall i | 0 <= i < |w.s.slots| ensures SlotOk(w'.s, w'.s.slots[i], w'.s.sessions[i]) {
        assert SlotOk(w.s, w.s.slots[i], w.s.sessions[i]);
      }
      forall mac ensures TracksMac(prompt, w'.s, w'.ledger, mac) {
        assert TracksMac(prompt, w.s, w.ledger, mac);
      }
    }
  }

  // ----- A crash -----

  /** A meter is open exactly while some session runs it. */
  lemma OpenIffRunning(prompt: bool, w: World, mac: string)
    requires Good(prompt, w) && mac in w.ledger.meters
    ensures w.ledger.meters[mac].since.None? <==> Idle(w.s, mac)
  {
    hide Find, Total, LossOk, Matches, SlotOk, Unique, Live, Fresh, Settling;
    assert TracksMac(prompt, w.s, w.ledger, mac);
    if w.ledger.meters[mac].since.None? {
      forall i | 0 <= i < |w.s.slots| && w.s.slots[i].mac == mac ensures !Running(w.s.slots[i], w.s.sessions[i]) {
        assert TracksSlot(prompt, w.ledger, w.s.slots[i], w.s.sessions[i]);
      }
    }
  }

  /** A meter cut off by a crash loses exactly the time the table then lagged behind. */
  lemma CrashTracksMac(prompt: bool, w: World, e: Event, mac: string)
    requires Good(prompt, w) && e.Crash? && Enabled(w.s, e) && !Settling(w.s, mac)
    ensures TracksMac(prompt, Step(w.s, e), Follow(w.ledger, Observed(w, e)), mac)
  {
    hide Find, CityOf, LookupPrice, SlotOk, Unique, Live, Fresh, Total, LossOk, Matches, LateOf, TracksSlot, BackupPass,
         Elapsed, LateAtCrash, Running;
    assert TracksMac(prompt, w.s, w.ledger, mac);
    assert !Settling(Step(w.s, e), mac);
    CrashRow(prompt, w, e, mac);
    if mac in w.ledger.meters {
      var m := w.ledger.meters[mac];
      StopTotal(m, w.s.now + Elapsed(e.delays, e.k));
      OpenIffRunning(prompt, w, mac);
      if m.since.Some? {
        var i :| 0 <= i < |w.s.slots| && w.s.slots[i].mac == mac && Running(w.s.slots[i], w.s.sessions[i]);
        CrashLoss(prompt, w, e, i);
        LateOfOwner(prompt, w, LateAtCrash(w, e.delays, e.k), i, |w.late|);
      }
    }
  }

  /** The row of an address after a crash, inside or outside a pass. */
  lemma CrashRow(prompt: bool, w: World, e: Event, mac: string)
    requires Good(prompt, w) && e.Crash? && Enabled(w.s, e)
    ensures var row, row' := Find(w.s.table, mac), Find(Step(w.s, e).table, mac);
            && row'.Some? == row.Some? && Count(Step(w.s, e).table, mac) == Count(w.s.table, mac)
            && (row.Some? ==> row'.value.location == row.value.location)
            && (Idle(w.s, mac) ==> row' == row)
  {
    hide Find, Count, BackupPass, Elapsed, Tracks, Fresh, Unique;
    AfterBackup(prompt, w, e.delays, mac);
    AfterPass(w.s.table, w.s.slots, w.s.now, e.delays, e.k, mac);
    if Idle(w.s, mac) {
      forall i | 0 <= i < e.k && w.s.slots[i].connected ensures w.s.slots[i].mac != mac {
        SlotFacts(prompt, w, i);
      }
    }
  }

  lemma {:induction false} LateOfOwner(prompt: bool, w: World, late: seq<int>, i: nat, n: nat)
    requires Good(prompt, w) && i < n <= |late| == |w.s.slots| == |w.s.sessions|
    requires Running(w.s.slots[i], w.s.sessions[i])
    ensures LateOf(w.s, late, w.s.slots[i].mac, n) == late[i]
  {
    hide Tracks, Fresh, SlotOk, Unique, Find;
    if n - 1 != i {
      LateOfOwner(prompt, w, late, i, n - 1);
      assert Live(w.s, i);
      assert Running(w.s.slots[n - 1], w.s.sessions[n - 1]) ==> Live(w.s, n - 1);
    }
  }

  lemma CrashLoss(prompt: bool, w: World, e: Event, i: nat)
    requires Good(prompt, w) && e.Crash? && Enabled(w.s, e)
    requires i < |w.s.slots| && Running(w.s.slots[i], w.s.sessions[i])
    ensures var c := w.s.slots[i];
            && c.mac in w.ledger.meters && w.ledger.meters[c.mac].since.Some?
            && Find(Step(w.s, e).table, c.mac).Some? && |w.late| == |w.s.slots|
            && var m, late := w.ledger.meters[c.mac], LateAtCrash(w, e.delays, e.k);
               LossOk(prompt, Cuts(m.crashes.count + 1, m.crashes.unseen + late[i]),
                      Total(m.past) + Step(w.s, e).now - m.since.value - Find(Step(w.s, e).table, c.mac).value.timeUsed)
  {
    hide Find, CityOf, LookupPrice, Total, Good, BackupPass, Elapsed, Count, Unique, Matches, TracksMac;
    SlotFacts(prompt, w, i);
    CrashedRow(prompt, w, e, i);
    if i < e.k {
      ElapsedGrows(e.delays, i + 1, e.k);
    }
  }

  /** The row of a running session after a crash: written if the pass had reached its record. */
  lemma CrashedRow(prompt: bool, w: World, e: Event, i: nat)
    requires Good(prompt, w) && e.Crash? && Enabled(w.s, e)
    requires i < |w.s.slots| && Running(w.s.slots[i], w.s.sessions[i])
    ensures var c, row := w.s.slots[i], Find(Step(w.s, e).table, w.s.slots[i].mac);
            && row.Some? && Find(w.s.table, c.mac).Some?
            && row.value.timeUsed == if i < e.k && c.connected then w.s.now + Elapsed(e.delays, i + 1) - c.start
                                     else Find(w.s.table, c.mac).value.timeUsed
  {
    hide Find, BackupPass, Elapsed, Good, Unique, Matches, TracksMac, TracksSlot, FreshSlot;
    SlotFacts(prompt, w, i);
    OnlyOwnerConnected(prompt, w, i);
    if w.s.slots[i].connected {
      PassWritesSole(w.s.table, w.s.slots, w.s.now, e.delays, e.k, i);
    } else {
      PassSkips(w.s.table, w.s.slots, w.s.now, e.delays, e.k, w.s.slots[i].mac);
    }
  }

  lemma CrashKeepsGood(prompt: bool, w: World, e: Event)
    requires Good(prompt, w) && e.Crash? && Allowed(prompt, w, e)
    ensures Good(prompt, WorldStep(w, e))
  {
    hide Find, Count, CityOf, Total, TracksMac, LateOf, BackupPass, Elapsed, Observed, LateAtCrash;
    var w' := WorldStep(w, e);
    forall mac ensures TracksMac(prompt, w'.s, w'.ledger, mac) && Count(w'.s.table, mac) == Count(w.s.table, mac) {
      assert !Settling(w.s, mac);
      CrashTracksMac(prompt, w, e, mac);
      CrashRow(prompt, w, e, mac);
    }
    CrashRow(prompt, w, e, "");
    CrashedBills(w, e);
  }

  lemma CrashedBills(w: World, e: Event)
    requires e.Crash? && Enabled(w.s, e)
    ensures Follow(w.ledger, Observed(w, e)).bills == w.ledger.bills
  {
  }

  // ----- All steps -----

  lemma PoliteFrameIsHeard(w: World, i: nat, msg: Message)
    requires Enabled(w.s, Receive(i, msg)) && Polite(w.s, Receive(i, msg))
    ensures Observed(w, Receive(i, msg)) == Heard(w.s, i, msg)
  {
  }

  lemma StepKeepsGood(prompt: bool, w: World, e: Event)
    requires Good(prompt, w) && Allowed(prompt, w, e)
    ensures Good(prompt, WorldStep(w, e))
  {
    hide Good, Polite, Prompt, Follow, ReceiveStep, LookupStep, ResumeStep, InsertRowStep, CloseStep, PayStep,
         FinalWriteStep, BackupStep, CrashStep, Moved, CityOf, UnseenAtCrash, Elapsed, BackupDue;
    match e
    case Tick => TickKeepsGood(prompt, w);
    case Accept(i) => AcceptKeepsGood(prompt, w, i);
    case Receive(i, msg) =>
      ReceiveKeepsGood(prompt, w, i, msg);
      PoliteFrameIsHeard(w, i, msg);
    case Lookup(i) => LookupKeepsGood(prompt, w, i);
    case Resume(i) => ResumeKeepsGood(prompt, w, i);
    case InsertRow(i) => InsertRowKeepsGood(prompt, w, i);
    case SetConnected(i) => SetConnectedKeepsGood(prompt, w, i);
    case Close(i) => CloseKeepsGood(prompt, w, i);
    case Pay(i) => PayKeepsGood(prompt, w, i);
    case Remove(i) => RemoveKeepsGood(prompt, w, i);
    case Lose(i) => LoseKeepsGood(prompt, w, i);
    case FinalWrite(i) => FinalWriteKeepsGood(prompt, w, i);
    case Backup(_, _) => BackupKeepsGood(prompt, w, e);
    case Crash(_, _) => CrashKeepsGood(prompt, w, e);
  }
}
