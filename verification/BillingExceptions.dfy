/** Concrete runs on which the broken assumptions occur and cost something, and the run on which the
    table lags by more than the backup period. */
module BillingExceptions {
  import opened Billing
  import opened BillingInvariant
  import opened BillingSteps
  import opened BillingTheorems
  import opened Frames
  import opened ParkingTable
  import opened Wrappers

  const START: Message := Intact(START_APP, "m", 0, 0)
  const CLOSE: Message := Intact(CLOSE_APP, "m", 0, 0)
  const ROW: Row := Row("m", 0, Ashkelon)
  const PRICES: map<City, real> := map[Ashkelon := 1.0]
  const PARKED: Slot := Slot("m", 0, 0, Ashkelon, 1.0, 0, true)

  /** A server with two slots, the second slot unused. */
  function Server(now: int, slot: Slot, session: Session, table: Table, sent: seq<Payment>): State {
    State(now, [slot, EMPTY_SLOT], [session, NEW_SESSION], table, PRICES, 0, false, sent)
  }

  /** Client "m" asks to park in second 0, and has still not taken the lock in second `now`. */
  function Waiting(now: int): State {
    Server(now, EMPTY_SLOT.(mac := "m", location := Ashkelon), Session(Inserting, START_APP, false, 0), [], [])
  }

  /** Its row is inserted, its flag not yet set. */
  function Unflagged(now: int): State {
    Server(now, PARKED.(connected := false), Session(Inserted, START_APP, false, 0), [ROW], [])
  }

  const S0: State := Server(0, EMPTY_SLOT, NEW_SESSION, [], [])
  const S1: State := Server(0, EMPTY_SLOT, NEW_SESSION.(phase := Listening), [], [])
  const S2: State := Server(0, EMPTY_SLOT.(mac := "m"), Session(Starting, START_APP, false, 0), [], [])
  const S3: State := Waiting(0)
  const S4: State := Unflagged(0)
  const S5: State := Server(0, PARKED, Session(Listening, START_APP, false, 0), [ROW], [])
  const S6: State := Server(1, PARKED, Session(Listening, START_APP, false, 0), [ROW], [])
  const S7: State := Server(1, PARKED, Session(Closing, CLOSE_APP, false, 0), [ROW], [])
  const S8: State := Server(1, PARKED.(connected := false), Session(Paying, CLOSE_APP, false, 1), [SAVED], [])
  const S9: State := Server(1, PARKED.(connected := false), Session(Removing, CLOSE_APP, false, 1), [SAVED], [PAYMENT])
  const SAVED: Row := ROW.(timeUsed := 1)
  const PAYMENT: Payment := Payment("m", 1.0, 1)

  lemma ParkingSteps()
    ensures Enabled(S0, Accept(0)) && Step(S0, Accept(0)) == S1
    ensures Enabled(S1, Receive(0, START)) && Polite(S1, Receive(0, START)) && Step(S1, Receive(0, START)) == S2
    ensures Enabled(S2, Lookup(0)) && Step(S2, Lookup(0)) == S3
    ensures Enabled(S3, InsertRow(0)) && Step(S3, InsertRow(0)) == S4
    ensures Enabled(S4, SetConnected(0)) && Step(S4, SetConnected(0)) == S5
  {
  }

  lemma ClosingSteps()
    ensures Enabled(S5, Tick) && Step(S5, Tick) == S6
    ensures Enabled(S6, Receive(0, CLOSE)) && Polite(S6, Receive(0, CLOSE)) && Step(S6, Receive(0, CLOSE)) == S7
    ensures Enabled(S7, Close(0)) && Step(S7, Close(0)) == S8
    ensures Enabled(S8, Pay(0)) && Step(S8, Pay(0)) == S9
  {
  }

  /** Where a run has led: the state, and whether the updater has run in this second. */
  ghost predicate LeadsTo(prompt: bool, es: seq<Event>, s: State, polled: bool) {
    var w0 := InitialWorld(2, PRICES, 0);
    AllowedRun(prompt, w0, es) && Run(prompt, w0, es).s == s && Run(prompt, w0, es).polled == polled
  }

  lemma Begin(prompt: bool)
    ensures LeadsTo(prompt, [], S0, false)
  {
    var w0 := InitialWorld(2, PRICES, 0);
    assert w0.s.slots == S0.slots && w0.s.sessions == S0.sessions;
  }

  lemma Extend(prompt: bool, es: seq<Event>, s: State, polled: bool, e: Event)
    requires LeadsTo(prompt, es, s, polled) && Enabled(s, e) && Polite(s, e)
    requires prompt && e.Tick? ==> polled || !IsBackupTime(s) || s.now == s.backupStart
    ensures LeadsTo(prompt, es + [e], Step(s, e),
                    if e.Backup? then true else if e.Tick? || e.Crash? then false else polled)
  {
    hide Enabled, Polite, Step, AllowedRun, Run, Observed, LateAfter, InitialWorld;
    var w := Run(prompt, InitialWorld(2, PRICES, 0), es);
    OneEvent(prompt, w, e);
    RunsJoin(prompt, InitialWorld(2, PRICES, 0), es, [e]);
  }

  /** A polite run after which client "m" has been parked for one second without a backup. */
  lemma ParkedRun() returns (es: seq<Event>)
    ensures LeadsTo(false, es, S6, false)
  {
    Begin(false);
    ParkingSteps();
    ClosingSteps();
    hide Enabled, Step, LeadsTo, Polite;
    PoliteSteps();
    es := [];
    Extend(false, es, S0, false, Accept(0)); es := es + [Accept(0)];
    Extend(false, es, S1, false, Receive(0, START)); es := es + [Receive(0, START)];
    Extend(false, es, S2, false, Lookup(0)); es := es + [Lookup(0)];
    Extend(false, es, S3, false, InsertRow(0)); es := es + [InsertRow(0)];
    Extend(false, es, S4, false, SetConnected(0)); es := es + [SetConnected(0)];
    Extend(false, es, S5, false, Tick); es := es + [Tick];
  }

  /** Steps other than frames and crashes are polite. */
  lemma PoliteSteps()
    ensures forall s, e :: Enabled(s, e) && !e.Receive? && !e.Crash? ==> Polite(s, e)
  {
  }

  /** The same client after its CLOSE, its payment of one second sent, its row not yet deleted. */
  lemma PaidRun() returns (es: seq<Event>)
    ensures LeadsTo(false, es, S9, false)
  {
    es := ParkedRun();
    ClosingSteps();
    hide Enabled, Step, LeadsTo, Polite;
    PoliteSteps();
    Extend(false, es, S6, false, Receive(0, CLOSE)); es := es + [Receive(0, CLOSE)];
    Extend(false, es, S7, false, Close(0)); es := es + [Close(0)];
    Extend(false, es, S8, false, Pay(0)); es := es + [Pay(0)];
  }

  /** What a START frame leads to before anything else happens. */
  function ServeStart(s: State, i: nat, mac: string, x: bv8, y: bv8): State
    requires At(s, i, Listening) && !Deaf(s, i)
  {
    var looked := LookupStep(ReceiveStep(s, i, Intact(START_APP, mac, x, y)), i);
    if At(looked, i, Resuming) then ResumeStep(looked, i) else looked
  }

  /** A client that comes back on a new connection continues from its row. */
  lemma ReturningClient(s: State, j: nat, mac: string, x: bv8, y: bv8)
    requires At(s, j, Listening) && !s.sessions[j].checked && !Deaf(s, j) && Find(s.table, mac).Some?
    ensures var back := ServeStart(s, j, mac, x, y);
            && At(back, j, Listening) && back.slots[j].connected && back.now == s.now
            && back.now - back.slots[j].start == Find(s.table, mac).value.timeUsed
  {
    hide Find, LookupPrice, CityOf;
  }

  // ----- A second START -----

  /** It happens: parked for one second, a client that sends START again loses that second. */
  lemma RepeatedStartOccurs() returns (es: seq<Event>)
    ensures LeadsTo(false, es, S6, false)
    ensures var s := ServeStart(S6, 0, "m", 0, 0);
            |s.slots| == 2 && S6.now - S6.slots[0].start == 1 && s.now - s.slots[0].start == 0
  {
    es := ParkedRun();
    hide LeadsTo;
    assert Find([ROW], "m") == Some(ROW);
  }

  // ----- A corrupted frame -----

  /** Client "m" was cut off in second 1; its record is still connected. */
  function CutOff(now: int, row: Row): State {
    Server(now, PARKED, Session(Gone, CRC8_TEST_FAILED, false, 0), [row], [])
  }

  const FOUR_SECONDS: seq<Event> := [Tick, Tick, Tick, Tick, Backup(false, [0, 0])]

  lemma CutOffSteps(now: int)
    ensures Step(CutOff(now, ROW), Tick) == CutOff(now + 1, ROW)
    ensures Enabled(CutOff(5, ROW), Backup(false, [0, 0]))
    ensures Step(CutOff(5, ROW), Backup(false, [0, 0])) == CutOff(5, ROW.(timeUsed := 5))
  {
    var s := CutOff(5, ROW);
    assert Elapsed([0, 0], 1) == 0 && Elapsed([0, 0], 2) == 0;
    assert BackupPass(s.table, s.slots, 5, [0, 0], 1) == [ROW.(timeUsed := 5)];
    assert BackupPass(s.table, s.slots, 5, [0, 0], 2) == [ROW.(timeUsed := 5)];
  }

  /** It happens: the same client, cut off by a corrupted frame and back four seconds later, owes
      five seconds instead of one. */
  lemma CorruptExitOccurs() returns (es: seq<Event>)
    ensures LeadsTo(false, es, S6, false)
    ensures Possible(ReceiveStep(S6, 0, Corrupt), FOUR_SECONDS)
    ensures var s := Reached(ReceiveStep(S6, 0, Corrupt), FOUR_SECONDS);
            At(s, 1, Unused)
            && var back := ServeStart(AcceptStep(s, 1), 1, "m", 0, 0);
            |back.slots| == 2 && back.now - back.slots[1].start == 5
  {
    es := ParkedRun();
    CutOffReturns();
    hide LeadsTo, ServeStart, ReceiveStep, Possible, Reached, AcceptStep, At;
    FourSeconds();
  }

  lemma CutOffReturns()
    ensures ReceiveStep(S6, 0, Corrupt) == CutOff(1, ROW)
    ensures var s := CutOff(5, ROW.(timeUsed := 5));
            At(s, 1, Unused) && At(AcceptStep(s, 1), 1, Listening) && !Deaf(AcceptStep(s, 1), 1)
            && var back := ServeStart(AcceptStep(s, 1), 1, "m", 0, 0);
            |back.slots| == 2 && back.now - back.slots[1].start == 5
  {
    hide ServeStart, Find;
    var s := CutOff(5, ROW.(timeUsed := 5));
    FoundAlone(ROW.(timeUsed := 5));
    ReturningClient(AcceptStep(s, 1), 1, "m", 0, 0);
    ServedLength(AcceptStep(s, 1), 1, "m", 0, 0);
  }

  lemma ServedLength(s: State, i: nat, mac: string, x: bv8, y: bv8)
    requires At(s, i, Listening) && !Deaf(s, i)
    ensures |ServeStart(s, i, mac, x, y).slots| == |s.slots|
  {
    hide Find, CityOf, LookupPrice;
  }

  lemma FoundAlone(row: Row)
    ensures Find([row], row.mac) == Some(row)
  {
  }

  lemma FourSeconds()
    ensures Possible(CutOff(1, ROW), FOUR_SECONDS)
    ensures Reached(CutOff(1, ROW), FOUR_SECONDS) == CutOff(5, ROW.(timeUsed := 5))
  {
    var es := FOUR_SECONDS;
    forall now: int ensures Enabled(CutOff(now, ROW), Tick) {
    }
    CutOffSteps(4);
    CutOffSteps(3);
    CutOffSteps(2);
    CutOffSteps(1);
    hide Step, Enabled, CutOff;
    assert es[1..][1..][1..][1..] == [Backup(false, [0, 0])];
    assert [Backup(false, [0, 0])][1..] == [];
    LastEvent(CutOff(5, ROW), Backup(false, [0, 0]));
    FirstEvent(CutOff(4, ROW), es[3..]);
    FirstEvent(CutOff(3, ROW), es[2..]);
    FirstEvent(CutOff(2, ROW), es[1..]);
    FirstEvent(CutOff(1, ROW), es);
  }

  lemma LastEvent(s: State, e: Event)
    requires Enabled(s, e)
    ensures Possible(s, [e]) && Reached(s, [e]) == Step(s, e)
  {
    hide Enabled, Step;
    assert [e][1..] == [];
    assert Possible(Step(s, e), []);
  }

  lemma FirstEvent(s: State, es: seq<Event>)
    requires es != [] && Enabled(s, es[0]) && Possible(Step(s, es[0]), es[1..])
    ensures Possible(s, es) && Reached(s, es) == Reached(Step(s, es[0]), es[1..])
  {
  }

  // ----- A paid row -----

  /** It happens: a client that has paid for its second owes it again when it returns before the row
      is deleted, or after a crash at that point. */
  lemma DoublePaymentOccurs(crash: bool) returns (es: seq<Event>)
    ensures LeadsTo(false, es, S9, false) && |S9.sent| == 1 && S9.sent[0].seconds == 1
    ensures var restarted := if crash then CrashStep(S9, [0, 0], 0) else S9;
            At(restarted, 1, Unused)
            && var s := ServeStart(AcceptStep(restarted, 1), 1, "m", 0, 0);
            |s.slots| == 2 && s.now - s.slots[1].start == 1
  {
    es := PaidRun();
    hide LeadsTo, ServeStart;
    FoundAlone(SAVED);
    var s := AcceptStep(if crash then CrashStep(S9, [0, 0], 0) else S9, 1);
    ReturningClient(s, 1, "m", 0, 0);
    ServedLength(s, 1, "m", 0, 0);
  }

  // The deletion is faster than the returning client: it looks its row up, the row goes, it gets the lock.
  const P1: State := S9.(sessions := [S9.sessions[0], NEW_SESSION.(phase := Listening)])
  const P2: State := P1.(slots := [S9.slots[0], EMPTY_SLOT.(mac := "m")],
                         sessions := [S9.sessions[0], Session(Starting, START_APP, false, 0)])
  const P3: State := P2.(sessions := [S9.sessions[0], Session(Resuming, START_APP, false, 0)])
  const P4: State := P3.(sessions := [Session(Gone, CLOSE_APP, false, 1), Session(Resuming, START_APP, false, 0)],
                         table := [])
  const P5: State := P4.(slots := [S9.slots[0], Slot("m", 0, 0, Unset, 0.0, 1, true)],
                         sessions := [P4.sessions[0], Session(Listening, START_APP, true, 0)])
  const P6: State := P5.(now := 2)
  const P7: State := P6.(sessions := [P4.sessions[0], Session(Closing, CLOSE_APP, true, 0)])
  const P8: State := P7.(slots := [S9.slots[0], Slot("m", 0, 0, Unset, 0.0, 1, false)],
                         sessions := [P4.sessions[0], Session(Paying, CLOSE_APP, true, 2)])
  const P9: State := P8.(sessions := [P4.sessions[0], Session(Removing, CLOSE_APP, true, 2)],
                         sent := [PAYMENT, Payment("m", 0.0, 1)])

  lemma VanishingSteps()
    ensures Enabled(S9, Accept(1)) && Step(S9, Accept(1)) == P1
    ensures Enabled(P1, Receive(1, START)) && Step(P1, Receive(1, START)) == P2
    ensures Enabled(P2, Lookup(1)) && Step(P2, Lookup(1)) == P3
    ensures Enabled(P3, Remove(0)) && Step(P3, Remove(0)) == P4
    ensures Enabled(P4, Resume(1)) && Step(P4, Resume(1)) == P5
  {
    assert Delete([SAVED], "m") == [];
  }

  lemma FreeAgainSteps()
    ensures Enabled(P5, Tick) && Step(P5, Tick) == P6
    ensures Enabled(P6, Receive(1, CLOSE)) && Step(P6, Receive(1, CLOSE)) == P7
    ensures Enabled(P7, Close(1)) && Step(P7, Close(1)) == P8
    ensures Enabled(P8, Pay(1)) && Step(P8, Pay(1)) == P9
  {
  }

  const VANISHING: seq<Event> := [Accept(1), Receive(1, START), Lookup(1), Remove(0), Resume(1)]
  const FREE_AGAIN: seq<Event> := [Tick, Receive(1, CLOSE), Close(1), Pay(1)]

  /** It happens: a client that has paid returns, finds its row, and gets the lock only after the row
      has been deleted. It is connected without a row and without a price, and pays nothing for the
      second it then parks. */
  lemma PaidRowVanishesOccurs() returns (es: seq<Event>)
    ensures LeadsTo(false, es, S9, false)
    ensures Possible(S9, VANISHING) && Reached(S9, VANISHING) == P5
    ensures P5.slots[1].connected && P5.slots[1].location == Unset && P5.slots[1].start == P5.now && P5.table == []
    ensures Possible(P5, FREE_AGAIN) && Reached(P5, FREE_AGAIN).sent == S9.sent + [Payment("m", 0.0, 1)]
  {
    es := PaidRun();
    VanishingSteps();
    FreeAgainSteps();
    hide Enabled, Step, LeadsTo;
    var fs := VANISHING;
    assert fs[1..][1..] == fs[2..] && fs[2..][1..] == fs[3..] && fs[3..][1..] == fs[4..] && fs[4..] == [Resume(1)];
    LastEvent(P4, Resume(1));
    FirstEvent(P3, fs[3..]);
    FirstEvent(P2, fs[2..]);
    FirstEvent(P1, fs[1..]);
    FirstEvent(S9, fs);
    var gs := FREE_AGAIN;
    assert gs[1..][1..] == gs[2..] && gs[2..][1..] == gs[3..] && gs[3..] == [Pay(1)];
    LastEvent(P8, Pay(1));
    FirstEvent(P7, gs[2..]);
    FirstEvent(P6, gs[1..]);
    FirstEvent(P5, gs);
  }

  // ----- CLOSE without START -----

  const D1: State := Server(1, PARKED.(connected := false), Session(Dropping, CONNECTION_LOST, false, 0), [ROW], [])
  const D2: State := Server(1, PARKED.(connected := false), Session(Gone, CONNECTION_LOST, false, 1), [SAVED], [])
  const D3: State := D2.(sessions := [D2.sessions[0], NEW_SESSION.(phase := Listening)])

  lemma DroppingSteps()
    ensures Enabled(S6, Lose(0)) && Step(S6, Lose(0)) == D1
    ensures Enabled(D1, FinalWrite(0)) && Step(D1, FinalWrite(0)) == D2
    ensures Enabled(D2, Accept(1)) && Step(D2, Accept(1)) == D3
  {
  }

  const D4: State := Server(1, D2.slots[0], D2.sessions[0], [SAVED], [])
    .(slots := [D2.slots[0], EMPTY_SLOT.(mac := "m")],
      sessions := [D2.sessions[0], Session(Closing, CLOSE_APP, false, 0)])
  const D5: State := D4.(sessions := [D2.sessions[0], Session(Paying, CLOSE_APP, false, 1)])
  const D6: State := D5.(sessions := [D2.sessions[0], Session(Removing, CLOSE_APP, false, 1)],
                         sent := [Payment("m", 0.0, 1)])
  const D7: State := D6.(sessions := [D2.sessions[0], Session(Gone, CLOSE_APP, false, 1)], table := [])

  lemma FreeSteps()
    ensures Enabled(D3, Receive(1, CLOSE)) && !Polite(D3, Receive(1, CLOSE)) && Step(D3, Receive(1, CLOSE)) == D4
    ensures Enabled(D4, Close(1)) && Step(D4, Close(1)) == D5
    ensures Enabled(D5, Pay(1)) && Step(D5, Pay(1)) == D6
    ensures Enabled(D6, Remove(1)) && Step(D6, Remove(1)) == D7
  {
    assert Update([SAVED], "m", 1) == [SAVED];
    assert Delete([SAVED], "m") == [];
  }

  /** It happens: a client that owes one second loses its connection, comes back, and parks for free
      because its START is lost: its CLOSE is answered with a payment of 0 and its row is deleted. */
  lemma FreeParkingOccurs() returns (es: seq<Event>)
    ensures LeadsTo(false, es, D3, false)
    ensures D3.table == [Row("m", 1, Ashkelon)] && Amount(PriceOf(PRICES, Ashkelon), 1) == 1.0
    ensures Possible(D3, [Receive(1, CLOSE), Close(1), Pay(1), Remove(1)])
    ensures var s := Reached(D3, [Receive(1, CLOSE), Close(1), Pay(1), Remove(1)]);
            s.sent == [Payment("m", 0.0, 1)] && s.table == []
  {
    es := ParkedRun();
    DroppingSteps();
    FreeSteps();
    hide Enabled, Step, LeadsTo, Polite;
    PoliteSteps();
    Extend(false, es, S6, false, Lose(0)); es := es + [Lose(0)];
    Extend(false, es, D1, false, FinalWrite(0)); es := es + [FinalWrite(0)];
    Extend(false, es, D2, false, Accept(1)); es := es + [Accept(1)];
    var fs := [Receive(1, CLOSE), Close(1), Pay(1), Remove(1)];
    assert fs[1..] == [Close(1), Pay(1), Remove(1)] && fs[2..] == [Pay(1), Remove(1)] && fs[3..] == [Remove(1)];
    assert fs[1..][1..] == fs[2..] && fs[2..][1..] == fs[3..];
    LastEvent(D6, Remove(1));
    FirstEvent(D5, fs[2..]);
    FirstEvent(D4, fs[1..]);
    FirstEvent(D3, fs);
  }

  // ----- A lag above five seconds -----

  lemma WaitingSteps(now: int)
    ensures Enabled(Waiting(now), Tick) && Step(Waiting(now), Tick) == Waiting(now + 1)
    ensures IsBackupTime(Waiting(now)) <==> now % 5 == 0
    ensures Enabled(Waiting(5), Backup(false, [0, 0])) && Step(Waiting(5), Backup(false, [0, 0])) == Waiting(5)
    ensures Enabled(Waiting(now), InsertRow(0)) && Step(Waiting(now), InsertRow(0)) == Unflagged(now)
    ensures Enabled(Unflagged(now), SetConnected(0))
  {
    assert Elapsed([0, 0], 1) == 0 && Elapsed([0, 0], 2) == 0;
    assert BackupPass([], Waiting(5).slots, 5, [0, 0], 1) == [];
    assert BackupPass([], Waiting(5).slots, 5, [0, 0], 2) == [];
  }

  lemma WaitASecond(es: seq<Event>, now: int, polled: bool)
    requires LeadsTo(true, es, Waiting(now), polled) && (polled || now % 5 != 0 || now == 0)
    ensures LeadsTo(true, es + [Tick], Waiting(now + 1), false)
  {
    WaitingSteps(now);
    assert Waiting(now).backupStart == 0 && Waiting(now).now == now;
    hide Enabled, Step, LeadsTo, IsBackupTime, Waiting;
    Extend(true, es, Waiting(now), polled, Tick);
  }

  /** No backup is due before the fifth second. */
  lemma {:induction false} WaitingRun(now: nat) returns (es: seq<Event>)
    requires now <= 5
    ensures LeadsTo(true, es, Waiting(now), false)
  {
    if now == 0 {
      Begin(true);
      ParkingSteps();
      hide Enabled, Step, LeadsTo, Polite;
      PoliteSteps();
      es := [];
      Extend(true, es, S0, false, Accept(0)); es := es + [Accept(0)];
      Extend(true, es, S1, false, Receive(0, START)); es := es + [Receive(0, START)];
      Extend(true, es, S2, false, Lookup(0)); es := es + [Lookup(0)];
    } else {
      es := WaitingRun(now - 1);
      hide LeadsTo, Waiting;
      WaitASecond(es, now - 1, false); es := es + [Tick];
    }
  }

  lemma SixSeconds() returns (es: seq<Event>)
    ensures LeadsTo(true, es, Waiting(6), false)
  {
    es := WaitingRun(5);
    WaitingSteps(5);
    hide Enabled, Step, LeadsTo, Polite, Waiting;
    PoliteSteps();
    Extend(true, es, Waiting(5), false, Backup(false, [0, 0])); es := es + [Backup(false, [0, 0])];
    WaitASecond(es, 5, true); es := es + [Tick];
  }

  const LATE: State := Server(6, PARKED, Session(Listening, START_APP, false, 0), [ROW], [])

  lemma LateSteps()
    ensures Enabled(Waiting(6), InsertRow(0)) && Step(Waiting(6), InsertRow(0)) == Unflagged(6)
    ensures Enabled(Unflagged(6), SetConnected(0)) && Step(Unflagged(6), SetConnected(0)) == LATE
    ensures Find(LATE.table, "m") == Some(ROW)
  {
    WaitingSteps(6);
  }

  /** It happens with a prompt updater: a new client waits six seconds for the lock, and when its flag
      is set the table lags six seconds behind it. */
  lemma LagOfSixOccurs() returns (es: seq<Event>)
    ensures LeadsTo(true, es, LATE, false)
    ensures |LATE.slots| == 2 && LATE.slots[0].connected && Find(LATE.table, LATE.slots[0].mac).Some?
    ensures LATE.now - LATE.slots[0].start - Find(LATE.table, LATE.slots[0].mac).value.timeUsed == 6
  {
    es := SixSeconds();
    LateSteps();
    hide Enabled, Step, LeadsTo, Polite, Find, Waiting, Unflagged;
    PoliteSteps();
    Extend(true, es, Waiting(6), false, InsertRow(0)); es := es + [InsertRow(0)];
    Extend(true, es, Unflagged(6), false, SetConnected(0)); es := es + [SetConnected(0)];
  }
}
