/** The parking server as a state machine over its critical sections. Each step below is one stretch
    of server code that runs under the mutex, or one unlocked access to a client's own slot. */
module Billing {
  import opened Frames
  import opened ParkingTable

  const START_APP: bv8 := 1
  const CLOSE_APP: bv8 := 2
  const CONNECTION_LOST: bv8 := 3
  const STATUS_INITIAL_VALUE: bv8 := 2
  const SECONDS_BETWEEN_BACKUPS: nat := 5

  /** A client record, shared between its session thread and the updater thread. */
  datatype Slot = Slot(mac: string, x: bv8, y: bv8, location: City, price: real, start: int, connected: bool)

  /** Where a session thread stands. */
  datatype Phase =
    | Unused       // no connection has been accepted for this slot
    | Listening    // waiting for a frame
    | Starting     // START stored, table not yet consulted
    | Resuming     // known client, lock not yet taken
    | Inserting    // new client with its start time read, lock not yet taken
    | Inserted     // row inserted, connected flag not yet set
    | Closing      // CLOSE stored, lock not yet taken
    | Paying       // closing time written, payment not yet sent
    | Removing     // payment sent, row not yet deleted
    | Dropping     // connection lost and flag cleared, final time not yet written
    | Gone         // thread finished

  /** The local variables of a session thread. */
  datatype Session = Session(phase: Phase, status: bv8, checked: bool, endTime: int)

  datatype Payment = Payment(mac: string, amount: real, seconds: int)

  datatype State = State(
    now: int, slots: seq<Slot>, sessions: seq<Session>, table: Table, prices: map<City, real>,
    backupStart: int, updaterDone: bool, sent: seq<Payment>)

  datatype Event =
    | Tick
    | Accept(i: nat)
    | Receive(i: nat, msg: Message)
    | Lookup(i: nat)
    | Resume(i: nat)
    | InsertRow(i: nat)
    | SetConnected(i: nat)
    | Close(i: nat)
    | Pay(i: nat)
    | Remove(i: nat)
    | Lose(i: nat)
    | FinalWrite(i: nat)
    | Backup(finalFlush: bool, delays: seq<nat>)
    | Crash(delays: seq<nat>, k: nat)

  const EMPTY_SLOT: Slot := Slot("", 0, 0, Unset, 0.0, 0, false)
  const NEW_SESSION: Session := Session(Unused, STATUS_INITIAL_VALUE, false, 0)

  function Initial(n: nat, prices: map<City, real>, now: int): State {
    State(now, seq(n, _ => EMPTY_SLOT), seq(n, _ => NEW_SESSION), [], prices, now, false, [])
  }

  /** The price a slot holds after looking up its location: unchanged when the city has no row. */
  function LookupPrice(prices: map<City, real>, location: City, price: real): real {
    if location in prices then prices[location] else price
  }

  predicate At(s: State, i: nat, phase: Phase) {
    i < |s.slots| == |s.sessions| && s.sessions[i].phase == phase
  }

  predicate Enabled(s: State, e: Event) {
    match e
    case Tick => true
    case Accept(i) => At(s, i, Unused)
    case Receive(i, msg) => At(s, i, Listening) && (msg.Intact? ==> msg.mac != "")
    case Lookup(i) => At(s, i, Starting)
    case Resume(i) => At(s, i, Resuming)
    case InsertRow(i) => At(s, i, Inserting)
    case SetConnected(i) => At(s, i, Inserted)
    case Close(i) => At(s, i, Closing)
    case Pay(i) => At(s, i, Paying)
    case Remove(i) => At(s, i, Removing)
    case Lose(i) => At(s, i, Listening)
    case FinalWrite(i) => At(s, i, Dropping)
    case Backup(finalFlush, delays) =>
      !s.updaterDone && |delays| == |s.slots| && (!BackupDue(s, finalFlush) ==> Elapsed(delays, |delays|) == 0)
    case Crash(delays, k) => k <= |delays| == |s.slots| && (k > 0 ==> !s.updaterDone)
  }

  function Moved(s: State, i: nat, slot: Slot, session: Session): State
    requires i < |s.slots| == |s.sessions|
  {
    s.(slots := s.slots[i := slot], sessions := s.sessions[i := session])
  }

  function AcceptStep(s: State, i: nat): State
    requires At(s, i, Unused)
  {
    Moved(s, i, s.slots[i], s.sessions[i].(phase := Listening))
  }

  /** A frame arrives. A status byte of 255 disables storing for the rest of the session. */
  function ReceiveStep(s: State, i: nat, msg: Message): State
    requires At(s, i, Listening)
  {
    var c, t := s.slots[i], s.sessions[i];
    match msg
    case Corrupt => Moved(s, i, c, t.(status := CRC8_TEST_FAILED, phase := Gone))
    case Intact(status, mac, x, y) =>
      if t.status == CRC8_TEST_FAILED then s
      else Moved(s, i, c.(mac := mac, x := x, y := y), t.(status := status, phase :=
        if status == START_APP then Starting else if status == CLOSE_APP then Closing else Listening))
  }

  /** The existence check, and the start time and city of a client that is new. */
  function LookupStep(s: State, i: nat): State
    requires At(s, i, Starting)
  {
    var c, t := s.slots[i], s.sessions[i];
    if t.checked then Moved(s, i, c, t.(phase := Listening))
    else if Find(s.table, c.mac).Some? then Moved(s, i, c, t.(phase := Resuming))
    else Moved(s, i, c.(start := s.now, location := CityOf(c.x, c.y)), t.(phase := Inserting))
  }

  /** Re-encode the start time from the stored time used; restore city and price. */
  function ResumeStep(s: State, i: nat): State
    requires At(s, i, Resuming)
  {
    var c, t, row := s.slots[i], s.sessions[i], Find(s.table, s.slots[i].mac);
    var used := if row.Some? then row.value.timeUsed else c.start;
    var city := if row.Some? then row.value.location else c.location;
    Moved(s, i, c.(start := s.now - used, location := city, connected := true,
                   price := LookupPrice(s.prices, city, c.price)),
          t.(phase := Listening, checked := true))
  }

  function InsertRowStep(s: State, i: nat): State
    requires At(s, i, Inserting)
  {
    var c, t := s.slots[i], s.sessions[i];
    Moved(s, i, c.(price := LookupPrice(s.prices, c.location, c.price)), t.(phase := Inserted))
      .(table := Insert(s.table, Row(c.mac, 0, c.location)))
  }

  function SetConnectedStep(s: State, i: nat): State
    requires At(s, i, Inserted)
  {
    Moved(s, i, s.slots[i].(connected := true), s.sessions[i].(phase := Listening))
  }

  function CloseStep(s: State, i: nat): State
    requires At(s, i, Closing)
  {
    var c, t := s.slots[i], s.sessions[i];
    Moved(s, i, c.(connected := false), t.(phase := Paying, endTime := s.now))
      .(table := Update(s.table, c.mac, s.now - c.start))
  }

  /** What parking for this long costs. */
  function Amount(price: real, seconds: int): real {
    price * seconds as real
  }

  function PayStep(s: State, i: nat): State
    requires At(s, i, Paying)
  {
    var c, t := s.slots[i], s.sessions[i];
    var seconds := t.endTime - c.start;
    Moved(s, i, c, t.(phase := Removing))
      .(sent := s.sent + [Payment(c.mac, Amount(c.price, seconds), seconds)])
  }

  function RemoveStep(s: State, i: nat): State
    requires At(s, i, Removing)
  {
    Moved(s, i, s.slots[i], s.sessions[i].(phase := Gone)).(table := Delete(s.table, s.slots[i].mac))
  }

  /** recv returned 0: the flag is cleared first, the time is written in a later step. */
  function LoseStep(s: State, i: nat): State
    requires At(s, i, Listening)
  {
    Moved(s, i, s.slots[i].(connected := false), s.sessions[i].(phase := Dropping, status := CONNECTION_LOST))
  }

  function FinalWriteStep(s: State, i: nat): State
    requires At(s, i, Dropping)
  {
    var c, t := s.slots[i], s.sessions[i];
    Moved(s, i, c, t.(phase := Gone, endTime := s.now))
      .(table := Update(s.table, c.mac, s.now - c.start))
  }

  /** The seconds that pass while the updater reads the first k records. */
  function Elapsed(delays: seq<nat>, k: nat): nat
    requires k <= |delays|
  {
    if k == 0 then 0 else Elapsed(delays, k - 1) + delays[k - 1]
  }

  /** The backup pass over the first k slots. The clock is read anew for every record, `delays` seconds
      later each time. */
  function BackupPass(t: Table, slots: seq<Slot>, now: int, delays: seq<nat>, k: nat): Table
    requires k <= |slots| == |delays|
  {
    if k == 0 then t
    else
      var t' := BackupPass(t, slots, now, delays, k - 1);
      var c := slots[k - 1];
      if c.connected then Update(t', c.mac, now + Elapsed(delays, k) - c.start) else t'
  }

  predicate IsBackupTime(s: State) {
    (s.now - s.backupStart) % SECONDS_BETWEEN_BACKUPS == 0
  }

  /** Whether an iteration of the updater passes over the records. */
  predicate BackupDue(s: State, finalFlush: bool) {
    IsBackupTime(s) || finalFlush
  }

  /** One iteration of the updater loop; the last one flushes unconditionally. */
  function BackupStep(s: State, finalFlush: bool, delays: seq<nat>): State
    requires |delays| == |s.slots|
  {
    s.(now := s.now + Elapsed(delays, |delays|),
       table := if BackupDue(s, finalFlush) then BackupPass(s.table, s.slots, s.now, delays, |delays|) else s.table,
       updaterDone := finalFlush)
  }

  /** The process dies and is started again: only the tables survive. It may die during a backup pass,
      after k records. */
  function CrashStep(s: State, delays: seq<nat>, k: nat): State
    requires k <= |delays| == |s.slots|
  {
    Initial(|s.slots|, s.prices, s.now + Elapsed(delays, k))
      .(table := BackupPass(s.table, s.slots, s.now, delays, k), sent := s.sent)
  }

  function Step(s: State, e: Event): State
    requires Enabled(s, e)
  {
    match e
    case Tick => s.(now := s.now + 1)
    case Accept(i) => AcceptStep(s, i)
    case Receive(i, msg) => ReceiveStep(s, i, msg)
    case Lookup(i) => LookupStep(s, i)
    case Resume(i) => ResumeStep(s, i)
    case InsertRow(i) => InsertRowStep(s, i)
    case SetConnected(i) => SetConnectedStep(s, i)
    case Close(i) => CloseStep(s, i)
    case Pay(i) => PayStep(s, i)
    case Remove(i) => RemoveStep(s, i)
    case Lose(i) => LoseStep(s, i)
    case FinalWrite(i) => FinalWriteStep(s, i)
    case Backup(finalFlush, delays) => BackupStep(s, finalFlush, delays)
    case Crash(delays, k) => CrashStep(s, delays, k)
  }

  /** No step adds or removes a slot. */
  lemma StepKeepsLength(s: State, e: Event)
    requires Enabled(s, e) && |s.slots| == |s.sessions|
    ensures |Step(s, e).slots| == |Step(s, e).sessions| == |s.slots|
  {
    hide Find, Update, Delete, Insert, BackupPass, IsBackupTime, CityOf, LookupPrice, Amount;
  }

  // ----- Runs of any possible events -----

  ghost predicate Possible(s: State, es: seq<Event>)
    decreases |es|
  {
    es == [] || (Enabled(s, es[0]) && Possible(Step(s, es[0]), es[1..]))
  }

  ghost function Reached(s: State, es: seq<Event>): State
    requires Possible(s, es)
    decreases |es|
  {
    if es == [] then s else Reached(Step(s, es[0]), es[1..])
  }

  /** Not a step of session i, and no crash. */
  predicate Spares(e: Event, i: nat) {
    !e.Crash? && (e.Tick? || e.Backup? || e.i != i)
  }

  lemma StepSpares(s: State, e: Event, i: nat)
    requires Enabled(s, e) && |s.slots| == |s.sessions| && i < |s.slots| && Spares(e, i)
    ensures |Step(s, e).slots| == |Step(s, e).sessions| == |s.slots|
    ensures Step(s, e).slots[i] == s.slots[i] && Step(s, e).sessions[i] == s.sessions[i]
    ensures Step(s, e).now >= s.now
  {
    hide Find, Update, Delete, Insert, BackupPass, Elapsed, BackupDue, CityOf, LookupPrice, Amount;
  }

  /** What others do leaves a session and its record alone. */
  lemma {:induction false} RunSpares(s: State, es: seq<Event>, i: nat)
    requires Possible(s, es) && |s.slots| == |s.sessions| && i < |s.slots|
    requires forall e :: e in es ==> Spares(e, i)
    ensures var s' := Reached(s, es);
            && |s'.slots| == |s'.sessions| == |s.slots|
            && s'.slots[i] == s.slots[i] && s'.sessions[i] == s.sessions[i] && s'.now >= s.now
    decreases |es|
  {
    hide Step, Enabled;
    if es != [] {
      StepSpares(s, es[0], i);
      RunSpares(Step(s, es[0]), es[1..], i);
    }
  }
}
