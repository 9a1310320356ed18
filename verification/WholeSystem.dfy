/** Meters, clients and server together: when every session of the server reads the frames of one
    client socket, the assumptions behind exact billing are met, and the bill is exact. */
module WholeSystem {
  import opened BbbClient
  import opened BbbTheorems
  import opened Billing
  import opened BillingInvariant
  import BillingSteps
  import opened BillingTheorems
  import opened Crc8
  import opened CrcDetection
  import opened EndToEnd
  import opened Frames
  import MacText
  import opened Meter
  import opened ParkingTable

  /** What slot i of the server is connected to: the frames of a client socket, made by the meter with
      this address, of which the first `used` have been received. */
  datatype Feed = Feed(sent: seq<Bytes>, mac: MacAddress, used: nat)

  /** The six bytes of a meter's address. */
  type MacAddress = m: Bytes | |m| == 6 witness [0, 0, 0, 0, 0, 0]

  ghost predicate ValidFeed(f: Feed) {
    && OneSession(f.sent) && f.used <= |f.sent|
    && forall k :: 0 <= k < |f.sent| ==> MadeBy(f.sent[k], f.mac)
  }

  /** The record holds the address of its feed from the first frame on, unless that was corrupted and
      has ended the session. */
  ghost predicate FedSlot(c: Slot, t: Session, f: Feed) {
    && ValidFeed(f)
    && (t.phase == Gone ||
          (t.status != CRC8_TEST_FAILED && c.mac == if f.used == 0 then "" else MacText.Text(f.mac)))
  }

  ghost predicate Fed(s: State, feeds: seq<Feed>) {
    && |feeds| == |s.slots| == |s.sessions|
    && forall i :: 0 <= i < |feeds| ==> FedSlot(s.slots[i], s.sessions[i], feeds[i])
  }

  /** The message of a frame that was weakly disturbed, or not at all, on its way to the server. */
  ghost predicate Arrives(frame: Bytes, msg: Message) {
    exists error: Bytes ::
      |error| == |frame| == BUFFER_SIZE && WeakError(error) && msg == Decode(Corrupted(frame, error))
  }

  /** An event of the running system: a session receives the next frame of its socket, weakly disturbed
      at most, and intact once the client is parking; and no meter opens a second session while it has
      a live one. Nothing is assumed about the order of events. */
  ghost predicate FedEvent(s: State, feeds: seq<Feed>, e: Event) {
    && Enabled(s, e) && !e.Crash?
    && (e.Receive? ==>
          && e.i < |feeds| && feeds[e.i].used < |feeds[e.i].sent|
          && Arrives(feeds[e.i].sent[feeds[e.i].used], e.msg)
          && (s.slots[e.i].connected ==> e.msg != Corrupt)
          && (feeds[e.i].used == 0 && e.msg != Corrupt ==>
                forall j :: 0 <= j < |s.slots| == |s.sessions| && Live(s, j) ==>
                  s.slots[j].mac != MacText.Text(feeds[e.i].mac)))
  }

  function Consumed(feeds: seq<Feed>, e: Event): seq<Feed> {
    if e.Receive? && e.i < |feeds| then feeds[e.i := feeds[e.i].(used := feeds[e.i].used + 1)] else feeds
  }

  /** Steps other than receiving move no address and never disable storing. */
  lemma AddressesStay(s: State, e: Event, j: nat)
    requires Enabled(s, e) && !e.Receive? && !e.Crash? && |s.slots| == |s.sessions| && j < |s.slots|
    ensures var s' := Step(s, e);
            && |s'.slots| == |s'.sessions| == |s.slots|
            && s'.slots[j].mac == s.slots[j].mac
            && s'.sessions[j].status in {s.sessions[j].status, CONNECTION_LOST}
            && (s.sessions[j].phase == Gone ==> s'.sessions[j].phase == Gone)
  {
    if Spares(e, j) {
      hide Step, Enabled;
      StepSpares(s, e, j);
      StepKeepsLength(s, e);
    } else {
      hide Find, Update, Delete, Insert, CityOf, LookupPrice, Amount;
    }
  }

  lemma FedEventIsPolite(prompt: bool, w: World, feeds: seq<Feed>, e: Event)
    requires Good(prompt, w) && Fed(w.s, feeds) && FedEvent(w.s, feeds, e)
    ensures Polite(w.s, e) && Fed(Step(w.s, e), Consumed(feeds, e))
  {
    hide Good, ReceiveStep, Decode, OneSession, MadeBy, MacText.Text, Polite;
    if e.Receive? {
      ReceivedFromFeed(prompt, w, feeds, e);
    } else {
      OtherEventsArePolite(w.s, e);
      hide Step;
      var s' := Step(w.s, e);
      assert |s'.slots| == |s'.sessions| == |w.s.slots| by { StepKeepsLength(w.s, e); }
      forall j | 0 <= j < |feeds| ensures FedSlot(s'.slots[j], s'.sessions[j], feeds[j]) {
        assert FedSlot(w.s.slots[j], w.s.sessions[j], feeds[j]);
        AddressesStay(w.s, e, j);
      }
    }
  }

  lemma OtherEventsArePolite(s: State, e: Event)
    requires Enabled(s, e) && !e.Receive? && !e.Crash?
    ensures Polite(s, e)
  {
  }

  lemma ReceivedFromFeed(prompt: bool, w: World, feeds: seq<Feed>, e: Event)
    requires Good(prompt, w) && Fed(w.s, feeds) && FedEvent(w.s, feeds, e) && e.Receive?
    ensures Polite(w.s, e) && Fed(Step(w.s, e), Consumed(feeds, e))
  {
    hide Good, Polite, Decode, MadeBy, MacText.Text, Accepts, Arrives;
    var f := feeds[e.i];
    assert FedSlot(w.s.slots[e.i], w.s.sessions[e.i], f);
    DecodedStatus(f.sent, f.used, f.mac);
    ArrivesIntactOrCorrupt(f.sent[f.used], e.msg);
    if e.msg == Corrupt {
      CorruptIsPolite(w.s, e);
      ReceivedCorrupt(w.s, e.i);
    } else {
      SocketFramesArePolite(prompt, w, e.i, f.sent, f.used, f.mac);
      ReceivedStatus(w.s, e.i, e.msg);
    }
  }

  lemma ArrivesIntactOrCorrupt(frame: Bytes, msg: Message)
    requires |frame| == BUFFER_SIZE && Accepts(frame) && Arrives(frame, msg)
    ensures msg == Corrupt || msg == Decode(frame)
  {
    hide Accepts, WeakError, Corrupted;
    var error: Bytes :| |error| == |frame| && WeakError(error) && msg == Decode(Corrupted(frame, error));
    WeakErrorsAreNoticed(frame, error);
  }

  lemma CorruptIsPolite(s: State, e: Event)
    requires e.Receive? && Enabled(s, e) && e.msg == Corrupt && !s.slots[e.i].connected
    ensures Polite(s, e)
  {
  }

  lemma ReceivedCorrupt(s: State, i: nat)
    requires At(s, i, Listening)
    ensures var s' := ReceiveStep(s, i, Corrupt);
            && |s'.slots| == |s'.sessions| == |s.slots| && s'.slots == s.slots && s'.sessions[i].phase == Gone
            && forall j :: 0 <= j < |s.slots| && j != i ==> s'.sessions[j] == s.sessions[j]
  {
  }

  lemma DecodedStatus(sent: seq<Bytes>, n: nat, mac: Bytes)
    requires OneSession(sent) && n < |sent| && MadeBy(sent[n], mac)
    ensures |sent[n]| == BUFFER_SIZE && Accepts(sent[n])
    ensures Decode(sent[n]).Intact? && Decode(sent[n]).status != CRC8_TEST_FAILED
  {
    hide Accepts, MacText.Text, Sealed, Decode;
    var c :| ValidStm(c) && c.mac == mac && sent[n] == Sealed(c);
    UnpackingRecoversTheRecord(c);
    SealedIsAccepted(c);
    assert sent[n] in sent;
  }

  lemma ReceivedStatus(s: State, i: nat, msg: Message)
    requires At(s, i, Listening) && msg.Intact? && msg.status != CRC8_TEST_FAILED
    requires s.sessions[i].status != CRC8_TEST_FAILED
    ensures var s' := ReceiveStep(s, i, msg);
            && |s'.slots| == |s'.sessions| == |s.slots|
            && s'.sessions[i].status != CRC8_TEST_FAILED
            && forall j :: 0 <= j < |s.slots| && j != i ==>
                 s'.slots[j] == s.slots[j] && s'.sessions[j] == s.sessions[j]
  {
  }

  // ----- Runs -----

  /** A run of the server. `lives` holds the feeds of its sessions and, after those, the feeds of its
      sessions after each crash to come. It does not crash between a payment and the deletion of its
      row, and if it is to be prompt, its updater is. */
  ghost predicate FedRun(prompt: bool, w: World, lives: seq<seq<Feed>>, es: seq<Event>)
    decreases |es|
  {
    es == [] ||
    (var e := es[0];
     lives != [] && Enabled(w.s, e) && (prompt ==> Prompt(w, e)) &&
     if e.Crash? then Polite(w.s, e) && |lives| > 1 && FedRun(prompt, WorldStep(w, e), lives[1..], es[1..])
     else FedEvent(w.s, lives[0], e)
          && FedRun(prompt, WorldStep(w, e), [Consumed(lives[0], e)] + lives[1..], es[1..]))
  }

  /** Feeds for n sessions of which nothing has been received. */
  ghost predicate FreshFeeds(feeds: seq<Feed>, n: nat) {
    |feeds| == n && forall i :: 0 <= i < n ==> ValidFeed(feeds[i]) && feeds[i].used == 0
  }

  ghost predicate FreshLives(lives: seq<seq<Feed>>, n: nat) {
    forall k :: 0 <= k < |lives| ==> FreshFeeds(lives[k], n)
  }

  lemma InitiallyFed(n: nat, prices: map<City, real>, now: int, feeds: seq<Feed>, s: State)
    requires FreshFeeds(feeds, n)
    requires s.slots == Initial(n, prices, now).slots && s.sessions == Initial(n, prices, now).sessions
    ensures Fed(s, feeds)
  {
    hide ValidFeed;
  }

  lemma {:induction false} FedRunIsAllowed(prompt: bool, w: World, lives: seq<seq<Feed>>, es: seq<Event>)
    requires Good(prompt, w) && lives != [] && Fed(w.s, lives[0]) && FreshLives(lives[1..], |w.s.slots|)
    requires FedRun(prompt, w, lives, es)
    ensures AllowedRun(prompt, w, es)
    decreases |es|
  {
    hide Good, Fed, FedEvent, Consumed, Step, Enabled, Polite, Observed, Follow, LateAfter, FreshFeeds, Prompt;
    if es != [] {
      var e, rest := es[0], lives[1..];
      GoodLength(prompt, w);
      StepKeepsLength(w.s, e);
      var w' := WorldStep(w, e);
      if e.Crash? {
        BillingSteps.StepKeepsGood(prompt, w, e);
        assert FreshFeeds(rest[0], |w.s.slots|);
        CrashedSessions(w.s, e);
        InitiallyFed(|w.s.slots|, w.s.prices, 0, rest[0], w'.s);
        assert rest[1..] == lives[2..] && lives[1..][0] == rest[0];
        FedRunIsAllowed(prompt, w', rest, es[1..]);
      } else {
        FedEventIsPolite(prompt, w, lives[0], e);
        BillingSteps.StepKeepsGood(prompt, w, e);
        var next := [Consumed(lives[0], e)] + rest;
        assert next[1..] == rest;
        FedRunIsAllowed(prompt, w', next, es[1..]);
      }
    }
  }

  lemma GoodLength(prompt: bool, w: World)
    requires Good(prompt, w)
    ensures |w.s.slots| == |w.s.sessions|
  {
  }

  lemma CrashedSessions(s: State, e: Event)
    requires e.Crash? && Enabled(s, e)
    ensures var s0 := Initial(|s.slots|, s.prices, 0);
            Step(s, e).slots == s0.slots && Step(s, e).sessions == s0.sessions
  {
    hide BackupPass, Elapsed;
  }

  ghost predicate Uncrashed(l: Ledger) {
    && (forall mac :: mac in l.meters ==> l.meters[mac].crashes.count == 0)
    && (forall k :: 0 <= k < |l.bills| ==> l.bills[k].crashes.count == 0)
  }

  lemma StaysUncrashed(w: World, e: Event)
    requires Enabled(w.s, e) && Uncrashed(w.ledger) && !e.Crash?
    ensures Uncrashed(WorldStep(w, e).ledger)
  {
    hide Step, CityOf, Total, LateAfter;
  }

  lemma {:induction false} RunStaysUncrashed(prompt: bool, w: World, es: seq<Event>)
    requires AllowedRun(prompt, w, es) && Uncrashed(w.ledger) && forall e :: e in es ==> !e.Crash?
    ensures Uncrashed(Run(prompt, w, es).ledger)
    decreases |es|
  {
    hide Enabled, Polite, Prompt, WorldStep, Uncrashed;
    if es != [] {
      StaysUncrashed(w, es[0]);
      RunStaysUncrashed(prompt, WorldStep(w, es[0]), es[1..]);
    }
  }

  /** Every payment sent is the price of a city times seconds that never exceed the meter's bill, are
      the meter's exactly where no crash cut parking off, and with a prompt updater fall short by at
      most five seconds for each crash and the seconds then unseen. */
  ghost predicate BilledFairly(prompt: bool, w: World, prices: map<City, real>) {
    && |w.s.sent| == |w.ledger.bills|
    && forall k :: 0 <= k < |w.s.sent| ==>
         var p, b := w.s.sent[k], w.ledger.bills[k];
         && p.mac == b.mac && Costs(prices, b.place, p.seconds, p.amount)
         && p.seconds <= b.seconds && (b.crashes.count == 0 ==> p.seconds == b.seconds)
         && (prompt ==> b.seconds - 5 * b.crashes.count - b.crashes.unseen <= p.seconds)
  }

  /** Every payment sent is the price of a city times exactly the seconds of the meter's bill. */
  ghost predicate BilledExactly(w: World, prices: map<City, real>) {
    && |w.s.sent| == |w.ledger.bills|
    && forall k :: 0 <= k < |w.s.sent| ==>
         && w.s.sent[k].mac == w.ledger.bills[k].mac
         && w.s.sent[k].seconds == w.ledger.bills[k].seconds
         && Costs(prices, w.ledger.bills[k].place, w.ledger.bills[k].seconds, w.s.sent[k].amount)
  }

  /** A server all of whose sessions read such feeds bills fairly, in every interleaving, with any number
      of drops, reconnections, backups and crashes. */
  lemma FeedsAreBilledFairly(prompt: bool, n: nat, prices: map<City, real>, now: int, lives: seq<seq<Feed>>,
                             es: seq<Event>)
    requires lives != [] && FreshLives(lives, n) && FedRun(prompt, InitialWorld(n, prices, now), lives, es)
    ensures var w0 := InitialWorld(n, prices, now);
            AllowedRun(prompt, w0, es) && BilledFairly(prompt, Run(prompt, w0, es), prices)
  {
    hide WorldStep, Allowed, FedRun, Fed, Good, FreshFeeds;
    var w0 := InitialWorld(n, prices, now);
    InitiallyGood(prompt, n, prices, now);
    assert FreshFeeds(lives[0], n);
    InitiallyFed(n, prices, now, lives[0], w0.s);
    assert FreshLives(lives[1..], n) by {
      forall k | 0 <= k < |lives[1..]| ensures FreshFeeds(lives[1..][k], n) { assert lives[1..][k] == lives[k + 1]; }
    }
    assert |w0.s.slots| == n;
    FedRunIsAllowed(prompt, w0, lives, es);
    PricesAreFixed(prompt, w0, es);
    RunKeepsGood(prompt, w0, es);
    var w := Run(prompt, w0, es);
    SameNumbers(prompt, w);
    forall k | 0 <= k < |w.s.sent|
      ensures var p, b := w.s.sent[k], w.ledger.bills[k];
              && p.mac == b.mac && Costs(prices, b.place, p.seconds, p.amount)
              && p.seconds <= b.seconds && (b.crashes.count == 0 ==> p.seconds == b.seconds)
              && (prompt ==> b.seconds - 5 * b.crashes.count - b.crashes.unseen <= p.seconds)
    {
      PaymentsAreTheMetersBills(prompt, n, prices, now, es, k);
    }
  }

  lemma SameNumbers(prompt: bool, w: World)
    requires Good(prompt, w)
    ensures |w.s.sent| == |w.ledger.bills|
  {
    hide Inv, Fresh;
  }

  lemma FairIsExact(prompt: bool, w: World, prices: map<City, real>)
    requires BilledFairly(prompt, w, prices) && Uncrashed(w.ledger)
    ensures BilledExactly(w, prices)
  {
  }

  // ----- Client histories -----

  /** One client from its start: the button presses of its life, the records its meter sealed for them
      and the disturbances of the serial line, and one of the sockets it opened. */
  datatype History = History(
    location: string, ps: seq<Press>, cs: seq<StmData>, errors: seq<Bytes>, socket: nat, mac: MacAddress)

  /** The meter has one address, the line disturbs weakly, and this socket, if it connected, has carried
      the START that opened it. The network and the replies of the server are otherwise arbitrary, and
      so is what happens on the other sockets of the client. */
  ghost predicate ValidClient(h: History) {
    && |h.location| == LOCATION_NAME_MAX_LEN
    && FromMeter(h.ps, h.cs, h.errors)
    && (forall n :: 0 <= n < |h.ps| && h.ps[n].Answered? ==> h.cs[n].mac == h.mac)
    && h.socket < |After(Start(h.location), h.ps).sockets|
    && h.socket !in LostSockets(Start(h.location), h.ps, {})
  }

  /** The frames on the socket, none of them received yet. */
  ghost function FeedOf(h: History): Feed
    requires ValidClient(h)
  {
    Feed(After(Start(h.location), h.ps).sockets[h.socket].sent, h.mac, 0)
  }

  ghost function FeedsOf(hs: seq<History>): seq<Feed>
    requires ValidClients(hs)
  {
    seq(|hs|, i requires 0 <= i < |hs| && ValidClient(hs[i]) => FeedOf(hs[i]))
  }

  /** What a client sends on a socket is what a session of the server needs. */
  lemma ClientsFeedSessions(h: History)
    requires ValidClient(h)
    ensures ValidFeed(FeedOf(h))
  {
    hide After, LostSockets, WeakError, OneSession, BareClose, Sealed;
    SocketsCarryOneSession(h.location, h.ps, h.socket);
    var sent := FeedOf(h).sent;
    forall k | 0 <= k < |sent| ensures MadeBy(sent[k], h.mac) {
      var n := ForwardedFramesAreTheMeters(h.location, h.ps, h.cs, h.errors, h.socket, sent[k]);
    }
  }

  /** One life of the server after another, each with its clients. */
  ghost function FeedLives(lives: seq<seq<History>>): (r: seq<seq<Feed>>)
    requires forall k :: 0 <= k < |lives| ==> ValidClients(lives[k])
    ensures |r| == |lives|
  {
    seq(|lives|, k requires 0 <= k < |lives| && ValidClients(lives[k]) => FeedsOf(lives[k]))
  }

  ghost predicate ValidClients(hs: seq<History>) {
    forall i :: 0 <= i < |hs| ==> ValidClient(hs[i])
  }

  lemma ClientsMakeFreshFeeds(hs: seq<History>)
    requires ValidClients(hs)
    ensures FreshFeeds(FeedsOf(hs), |hs|)
  {
    hide ValidClient, ValidFeed;
    forall i | 0 <= i < |hs| ensures ValidFeed(FeedsOf(hs)[i]) {
      ClientsFeedSessions(hs[i]);
    }
  }

  /** The three parts together. Any number of clients press buttons for any time, over lines that flip
      up to two bits or one burst of eight in each frame, between meter and client as between client
      and server, and networks that fail at will. Each session of the server reads a socket that has
      not lost its START; what reaches it once its client is parking arrives intact; and no meter has
      two live sessions at once. The server may crash at any moment but between a payment and its
      deletion, even in the middle of a backup, and starts anew with new sessions. Then in every
      interleaving nobody is overcharged, and every payment that no crash cut off is exactly the meter's
      bill. */
  lemma ClientsAreBilledFairly(prompt: bool, n: nat, prices: map<City, real>, now: int, lives: seq<seq<History>>,
                               es: seq<Event>)
    requires lives != [] && forall k :: 0 <= k < |lives| ==> |lives[k]| == n && ValidClients(lives[k])
    requires FedRun(prompt, InitialWorld(n, prices, now), FeedLives(lives), es)
    ensures var w0 := InitialWorld(n, prices, now);
            && AllowedRun(prompt, w0, es) && BilledFairly(prompt, Run(prompt, w0, es), prices)
            && ((forall e :: e in es ==> !e.Crash?) ==> BilledExactly(Run(prompt, w0, es), prices))
  {
    hide ValidClients, FedRun, BilledExactly, BilledFairly, AllowedRun, Run, FreshFeeds, FeedsOf;
    var feeds := FeedLives(lives);
    forall k | 0 <= k < |feeds| ensures FreshFeeds(feeds[k], n) {
      ClientsMakeFreshFeeds(lives[k]);
    }
    FeedsAreBilledFairly(prompt, n, prices, now, feeds, es);
    if forall e :: e in es ==> !e.Crash? {
      var w0 := InitialWorld(n, prices, now);
      RunStaysUncrashed(prompt, w0, es);
      FairIsExact(prompt, Run(prompt, w0, es), prices);
    }
  }
}
