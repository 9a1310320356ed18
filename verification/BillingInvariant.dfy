/** What every step of the server keeps, and how the server tracks the simple meter. */
module BillingInvariant {
  import opened Billing
  import opened Frames
  import opened Meter
  import opened ParkingTable

  // ----- Assumptions about the environment -----

  /** A session that has stored a frame and has not finished. */
  predicate Live(s: State, i: nat)
    requires i < |s.slots| == |s.sessions|
  {
    s.slots[i].mac != "" && s.sessions[i].phase != Gone
  }

  /** What the meter clients guarantee: on one connection a single START, or further ones once the
      session has resumed an earlier parking, then frames of the same address only, no corrupted
      frame once parking has started, at most one session per address at a time; and no crash between
      a payment and the deletion of its row. */
  predicate Polite(s: State, e: Event)
    requires Enabled(s, e)
  {
    match e
    case Receive(i, Corrupt) => !s.slots[i].connected
    case Receive(i, Intact(status, mac, _, _)) =>
      var c, t := s.slots[i], s.sessions[i];
      if t.status == CRC8_TEST_FAILED then true
      else if status == START_APP then
        || (c.connected && t.checked && c.mac == mac)
        || (c.mac == "" && forall j :: 0 <= j < |s.slots| == |s.sessions| && Live(s, j) ==> s.slots[j].mac != mac)
      else c.mac == mac && (status == CLOSE_APP ==> c.connected)
    case Crash(_, _) => forall j :: 0 <= j < |s.sessions| ==> s.sessions[j].phase != Removing
    case _ => true
  }

  // ----- The invariant of the server -----

  /** The session resumed an earlier parking and has just been sent a further START. */
  predicate Restarting(t: Session) {
    t.phase == Starting && t.checked
  }

  /** The session holds an open interval of its address. */
  predicate Running(c: Slot, t: Session) {
    c.mac != "" && (t.phase in {Listening, Inserted, Closing, Dropping} || Restarting(t))
  }

  /** The price of a city per second; without a row in the price list it is zero. */
  function PriceOf(prices: map<City, real>, city: City): real {
    if city in prices then prices[city] else 0.0
  }

  function CityAt(place: Place): City {
    CityOf(place.x, place.y)
  }

  ghost predicate SlotOk(s: State, c: Slot, t: Session) {
    var row := Find(s.table, c.mac);
    && (c.connected <==> c.mac != "" && (t.phase in {Listening, Closing} || Restarting(t)))
    && (c.mac == "" ==> c == EMPTY_SLOT && t.phase in {Unused, Listening, Dropping, Gone})
    && (t.phase == Unused ==> c.mac == "" && t.status != CRC8_TEST_FAILED)
    && (c.mac == "" || t.phase in {Resuming, Inserting} ==> !t.checked)
    && (t.phase in {Starting, Resuming, Inserting} && !t.checked ==> c.price == 0.0)
    && (t.phase == Resuming ==> row.Some?)
    && (t.phase == Inserting ==> row.None? && c.start <= s.now && c.location == CityOf(c.x, c.y))
    && (Running(c, t) || t.phase in {Paying, Removing} ==>
          && row.Some? && row.value.location == c.location
          && c.price == PriceOf(s.prices, c.location))
    && (Running(c, t) ==> row.value.timeUsed <= s.now - c.start)
    && (t.phase == Inserted ==> row.value.timeUsed == 0)
    && (t.phase in {Paying, Removing} ==> row.value.timeUsed == t.endTime - c.start)
  }

  ghost predicate Inv(s: State) {
    && |s.slots| == |s.sessions|
    && s.backupStart <= s.now
    && Unique(s.table) && Find(s.table, "").None?
    && (forall i :: 0 <= i < |s.slots| ==> SlotOk(s, s.slots[i], s.sessions[i]))
    && (forall i, j :: 0 <= i < j < |s.slots| && Live(s, i) && Live(s, j) ==> s.slots[i].mac != s.slots[j].mac)
  }

  // ----- Tracking the meter -----

  /** A loss of billed time that crashes may cause; with prompt backups at most the backup period for
      each, and the seconds the updater could not see. */
  predicate LossOk(prompt: bool, crashes: Cuts, loss: int) {
    && loss >= 0
    && (crashes.count == 0 ==> loss == 0)
    && (prompt ==> loss <= SECONDS_BETWEEN_BACKUPS * crashes.count + crashes.unseen)
  }

  /** No session holds an open interval of this address. */
  ghost predicate Idle(s: State, mac: string)
    requires |s.slots| == |s.sessions|
  {
    forall i :: 0 <= i < |s.slots| && s.slots[i].mac == mac ==> !Running(s.slots[i], s.sessions[i])
  }

  /** The payment of this address has been sent; its row only awaits deletion. */
  ghost predicate Settling(s: State, mac: string)
    requires |s.slots| == |s.sessions|
  {
    exists i :: 0 <= i < |s.slots| && s.slots[i].mac == mac && s.sessions[i].phase == Removing
  }

  ghost predicate TracksSlot(prompt: bool, l: Ledger, c: Slot, t: Session) {
    && (Running(c, t) ==>
          && c.mac in l.meters && l.meters[c.mac].since.Some?
          && LossOk(prompt, l.meters[c.mac].crashes,
                    Total(l.meters[c.mac].past) + c.start - l.meters[c.mac].since.value))
    && (t.phase == Paying ==> c.mac in l.meters && l.meters[c.mac].since.None?)
    && (t.phase == Starting && !t.checked ==> c.mac in l.asked && l.asked[c.mac] == Place(c.x, c.y))
    && (t.phase == Inserting ==> c.mac in l.sighted && l.sighted[c.mac] == Sighting(Place(c.x, c.y), c.start))
  }

  ghost predicate TracksMac(prompt: bool, s: State, l: Ledger, mac: string)
    requires |s.slots| == |s.sessions|
  {
    var row := Find(s.table, mac);
    && (mac in l.meters <==> row.Some? && !Settling(s, mac))
    && (mac in l.meters ==> CityAt(l.meters[mac].place) == row.value.location)
    && (mac in l.meters && Idle(s, mac) ==>
          && l.meters[mac].since.None?
          && LossOk(prompt, l.meters[mac].crashes, Total(l.meters[mac].past) - row.value.timeUsed))
  }

  /** A payment as the simple meter would bill it, less the losses of its crashes. */
  ghost predicate Matches(prompt: bool, prices: map<City, real>, p: Payment, b: Bill) {
    && p.mac == b.mac
    && p.amount == PriceOf(prices, CityAt(b.place)) * p.seconds as real
    && LossOk(prompt, b.crashes, b.seconds - p.seconds)
  }

  ghost predicate Tracks(prompt: bool, s: State, l: Ledger)
    requires |s.slots| == |s.sessions|
  {
    && (forall i :: 0 <= i < |s.slots| ==> TracksSlot(prompt, l, s.slots[i], s.sessions[i]))
    && (forall mac :: TracksMac(prompt, s, l, mac))
    && |s.sent| == |l.bills|
    && (forall k :: 0 <= k < |s.sent| ==> Matches(prompt, s.prices, s.sent[k], l.bills[k]))
  }

  // ----- Staleness of the table -----

  /** How far the table may lag behind a connected client, given whether the updater has run in the
      current second. */
  function LagBound(s: State, polled: bool): int {
    var p := (s.now - s.backupStart) % SECONDS_BETWEEN_BACKUPS;
    if polled || p != 0 || s.now == s.backupStart then p else SECONDS_BETWEEN_BACKUPS
  }

  /** The session is parking without being marked as connected: between reading the start time and
      setting the flag, or between clearing the flag and the final write. */
  predicate Unseen(t: Session) {
    t.phase in {Inserting, Inserted, Dropping}
  }

  /** `late` are the seconds this session has spent unseen since the updater last read its record. */
  ghost predicate FreshSlot(s: State, polled: bool, late: int, c: Slot, t: Session) {
    var row := Find(s.table, c.mac);
    && late >= 0
    && ((c.mac == "" && t.phase in {Unused, Listening}) || (t.phase in {Starting, Resuming} && !t.checked) ==>
          late == 0)
    && (t.phase in {Inserting, Inserted} ==> s.now - c.start == late)
    && (c.connected ==> row.Some? && s.now - c.start - row.value.timeUsed <= LagBound(s, polled) + late)
    && (t.phase == Dropping && c.mac != "" ==>
          row.Some? && s.now - c.start - row.value.timeUsed <= SECONDS_BETWEEN_BACKUPS + late)
  }

  ghost predicate Fresh(s: State, polled: bool, late: seq<int>)
    requires |s.slots| == |s.sessions| == |late|
  {
    forall i :: 0 <= i < |s.slots| ==> FreshSlot(s, polled, late[i], s.slots[i], s.sessions[i])
  }

  // ----- The whole: server and meter side by side -----

  /** `polled` tells whether the updater has run in the current second; `late` holds, for each slot,
      the seconds it has spent unseen since the updater last read its record. */
  datatype World = World(s: State, ledger: Ledger, polled: bool, late: seq<int>)

  /** The seconds unseen, out of `late`, of the session that runs this address. */
  function LateOf(s: State, late: seq<int>, mac: string, n: nat): int
    requires n <= |late| == |s.slots| == |s.sessions|
  {
    if n == 0 then 0
    else if s.slots[n - 1].mac == mac && Running(s.slots[n - 1], s.sessions[n - 1]) then late[n - 1]
    else LateOf(s, late, mac, n - 1)
  }

  /** The seconds unseen when the process dies after k records of a pass: the time since the pass read
      a record, or the time of the whole pass for a record it had not reached. */
  function LateAtCrash(w: World, delays: seq<nat>, k: nat): (late: seq<int>)
    requires k <= |delays| == |w.s.slots|
    ensures |late| == |w.late|
  {
    seq(|w.late|, i requires 0 <= i < |w.late| =>
      if i < k && w.s.slots[i].connected then Elapsed(delays, k) - Elapsed(delays, i + 1)
      else w.late[i] + Elapsed(delays, k))
  }

  /** What a step of the server means to the meter. It is told the address and coordinates on the first
      START of a connection, and the clock; it decides for itself what to bill. */
  function Observed(w: World, e: Event): Happening
    requires Enabled(w.s, e)
  {
    var s := w.s;
    match e
    case Receive(i, Corrupt) =>
      if s.slots[i].connected then Stopped(s.slots[i].mac, s.now) else Nothing
    case Receive(i, Intact(status, mac, x, y)) =>
      if status == START_APP && !s.slots[i].connected && s.sessions[i].status != CRC8_TEST_FAILED
      then Asked(mac, Place(x, y)) else Nothing
    case Lookup(i) => Sighted(s.slots[i].mac, s.now)
    case InsertRow(i) => Opened(s.slots[i].mac)
    case Resume(i) => Reopened(s.slots[i].mac, s.now)
    case Close(i) => Stopped(s.slots[i].mac, s.now)
    case FinalWrite(i) => Stopped(s.slots[i].mac, s.now)
    case Pay(i) => Settled(s.slots[i].mac)
    case Crash(delays, k) => Crashed(s.now + Elapsed(delays, k), UnseenAtCrash(w, delays, k))
    case _ => Nothing
  }

  function UnseenAtCrash(w: World, delays: seq<nat>, k: nat): map<string, int>
    requires k <= |delays| == |w.s.slots|
  {
    map mac | mac in w.ledger.meters && |w.late| == |w.s.slots| == |w.s.sessions| ::
      LateOf(w.s, LateAtCrash(w, delays, k), mac, |w.late|)
  }

  predicate UnseenAt(s: State, i: nat) {
    i < |s.sessions| && Unseen(s.sessions[i])
  }

  predicate ConnectedAt(s: State, i: nat) {
    i < |s.slots| && s.slots[i].connected
  }

  /** The seconds unseen after an event: a second adds one for every unseen session, a backup pass
      starts anew for every record it reads, a crash for all. */
  function LateAfter(w: World, e: Event): (late: seq<int>)
    requires Enabled(w.s, e)
    ensures |late| == |w.late|
  {
    match e
    case Tick => seq(|w.late|, i requires 0 <= i < |w.late| =>
      w.late[i] + (if UnseenAt(w.s, i) then 1 else 0))
    case Backup(finalFlush, delays) =>
      var total := Elapsed(delays, |delays|);
      if BackupDue(w.s, finalFlush) then
        seq(|w.late|, i requires 0 <= i < |w.late| =>
          if ConnectedAt(w.s, i) then total - Elapsed(delays, i + 1)
          else w.late[i] + (if UnseenAt(w.s, i) then total else 0))
      else w.late
    case Crash(_, _) => seq(|w.late|, _ => 0)
    case _ => w.late
  }

  function WorldStep(w: World, e: Event): World
    requires Enabled(w.s, e)
  {
    World(Step(w.s, e), Follow(w.ledger, Observed(w, e)),
          if e.Backup? then true else if e.Tick? || e.Crash? then false else w.polled,
          LateAfter(w, e))
  }

  /** The updater loop runs at least once in every backup second after the first. */
  predicate Prompt(w: World, e: Event) {
    e.Tick? ==> w.polled || !IsBackupTime(w.s) || w.s.now == w.s.backupStart
  }

  ghost predicate Good(prompt: bool, w: World) {
    && Inv(w.s)
    && |w.late| == |w.s.slots|
    && Tracks(prompt, w.s, w.ledger)
    && (prompt ==> Fresh(w.s, w.polled, w.late))
  }

  ghost predicate Allowed(prompt: bool, w: World, e: Event) {
    Enabled(w.s, e) && Polite(w.s, e) && (prompt ==> Prompt(w, e))
  }
}
