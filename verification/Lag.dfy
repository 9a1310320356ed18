/** Exactly how far the table lags behind a running client, at every moment of every run. */
module Lag {
  import opened Billing
  import opened BillingInvariant
  import opened BillingSteps
  import opened BillingTheorems
  import opened ParkingTable
  import opened RowFate

  /** For each slot, the clock for which the row of its address was last right: when the start time was
      read, when the row was resumed, or when the updater last read the record. */
  type Seen = seq<int>

  predicate Asks(s: State, i: nat) {
    At(s, i, Starting) && !s.sessions[i].checked && Find(s.table, s.slots[i].mac).None?
  }

  function SeenAfter(s: State, e: Event, seen: Seen): (seen': Seen)
    requires Enabled(s, e) && |seen| == |s.slots| == |s.sessions|
    ensures |seen'| == |seen|
  {
    match e
    case Lookup(i) => if Asks(s, i) then seen[i := s.now] else seen
    case Resume(i) => seen[i := s.now]
    case Backup(finalFlush, delays) =>
      if BackupDue(s, finalFlush) then
        seq(|seen|, i requires 0 <= i < |seen| =>
          if s.slots[i].connected then s.now + Elapsed(delays, i + 1) else seen[i])
      else seen
    case _ => seen
  }

  /** The lag of a session that is parking is the time since then. */
  ghost predicate DatedAt(s: State, seen: Seen, i: nat)
    requires i < |s.slots| == |s.sessions| == |seen|
  {
    var c, t, row := s.slots[i], s.sessions[i], Find(s.table, s.slots[i].mac);
    && (t.phase == Inserting ==> c.start == seen[i])
    && (Running(c, t) ==> row.Some? && s.now - c.start - row.value.timeUsed == s.now - seen[i])
  }

  ghost predicate Dated(s: State, seen: Seen) {
    |seen| == |s.slots| == |s.sessions| && forall i :: 0 <= i < |seen| ==> DatedAt(s, seen, i)
  }

  /** What other sessions do leaves the row of a live session alone. */
  lemma OthersLeaveRow(prompt: bool, w: World, e: Event, j: nat)
    requires Good(prompt, w) && Enabled(w.s, e) && j < |w.s.slots| && Live(w.s, j)
    requires Spares(e, j) && !e.Backup?
    ensures Find(Step(w.s, e).table, w.s.slots[j].mac) == Find(w.s.table, w.s.slots[j].mac)
  {
    hide Find, Step, Good, Enabled;
    if Writes(e) {
      AnotherAddress(prompt, w, e, j);
      WriteElsewhere(w.s, e, w.s.slots[j].mac);
    } else {
      OthersWriteNothing(w.s, e);
    }
  }

  lemma AnotherAddress(prompt: bool, w: World, e: Event, j: nat)
    requires Good(prompt, w) && Enabled(w.s, e) && j < |w.s.slots| && Live(w.s, j)
    requires Spares(e, j) && !e.Backup? && Writes(e)
    ensures w.s.slots[e.i].mac != w.s.slots[j].mac
  {
    hide Find, Good;
    SoleOwner(prompt, w, j);
  }

  lemma WriteElsewhere(s: State, e: Event, mac: string)
    requires Enabled(s, e) && Writes(e) && !e.Backup? && !e.Crash? && s.slots[e.i].mac != mac
    ensures Find(Step(s, e).table, mac) == Find(s.table, mac)
  {
    hide Find, Update, Delete, Insert, LookupPrice;
    var c := s.slots[e.i];
    if e.InsertRow? {
      AfterInsert(s.table, Row(c.mac, 0, c.location), mac);
    } else if e.Remove? {
      AfterDelete(s.table, c.mac, mac);
    } else {
      AfterUpdate(s.table, c.mac, s.now - c.start, mac);
    }
  }

  lemma OtherStaysDated(prompt: bool, w: World, e: Event, seen: Seen, j: nat)
    requires Good(prompt, w) && Enabled(w.s, e) && Dated(w.s, seen) && j < |w.s.slots|
    requires Spares(e, j) && !e.Backup?
    ensures |Step(w.s, e).slots| == |Step(w.s, e).sessions| == |seen|
    ensures DatedAt(Step(w.s, e), SeenAfter(w.s, e, seen), j)
  {
    hide Find, Step, Good, Enabled;
    StepSpares(w.s, e, j);
    assert DatedAt(w.s, seen, j);
    SlotFacts(prompt, w, j);
    if Live(w.s, j) {
      OthersLeaveRow(prompt, w, e, j);
    }
    assert SeenAfter(w.s, e, seen)[j] == seen[j];
  }

  lemma PassStaysDated(prompt: bool, w: World, e: Event, seen: Seen, j: nat)
    requires Good(prompt, w) && Enabled(w.s, e) && e.Backup? && Dated(w.s, seen) && j < |w.s.slots|
    ensures |Step(w.s, e).slots| == |Step(w.s, e).sessions| == |seen|
    ensures DatedAt(Step(w.s, e), SeenAfter(w.s, e, seen), j)
  {
    hide Find, Good, BackupPass, Elapsed, BackupDue;
    SlotFacts(prompt, w, j);
    assert DatedAt(w.s, seen, j);
    RowAfterPass(prompt, w, e.delays, j);
  }

  /** The step of the session itself. */
  lemma OwnStepDates(prompt: bool, w: World, e: Event, seen: Seen, j: nat)
    requires Good(prompt, w) && Allowed(prompt, w, e) && Dated(w.s, seen) && j < |w.s.slots|
    requires !e.Crash? && !Spares(e, j)
    ensures |Step(w.s, e).slots| == |Step(w.s, e).sessions| == |seen|
    ensures DatedAt(Step(w.s, e), SeenAfter(w.s, e, seen), j)
  {
    hide Find, Update, Delete, Insert, CityOf, LookupPrice, PriceOf, Amount, Good, Matches, TracksMac, TracksSlot,
         FreshSlot, Unique, Prompt;
    SlotFacts(prompt, w, j);
    assert DatedAt(w.s, seen, j);
    if e.InsertRow? {
      AfterInsert(w.s.table, Row(w.s.slots[j].mac, 0, w.s.slots[j].location), w.s.slots[j].mac);
    }
  }

  lemma StepDates(prompt: bool, w: World, e: Event, seen: Seen)
    requires Good(prompt, w) && Allowed(prompt, w, e) && Dated(w.s, seen)
    ensures Dated(Step(w.s, e), SeenAfter(w.s, e, seen))
  {
    hide Find, Good, Step, Enabled, Polite, Prompt, SeenAfter, DatedAt;
    StepKeepsLength(w.s, e);
    forall j | 0 <= j < |w.s.slots| ensures DatedAt(Step(w.s, e), SeenAfter(w.s, e, seen), j) {
      if e.Crash? {
        CrashIsDated(w.s, e, SeenAfter(w.s, e, seen), j);
      } else if e.Backup? {
        PassStaysDated(prompt, w, e, seen, j);
      } else if Spares(e, j) {
        OtherStaysDated(prompt, w, e, seen, j);
      } else {
        OwnStepDates(prompt, w, e, seen, j);
      }
    }
  }

  lemma CrashIsDated(s: State, e: Event, seen: Seen, j: nat)
    requires e.Crash? && Enabled(s, e) && j < |s.slots| == |seen|
    ensures j < |Step(s, e).slots| == |Step(s, e).sessions| == |seen| && DatedAt(Step(s, e), seen, j)
  {
    hide BackupPass, Elapsed, Find;
  }

  /** The clocks after a run. */
  ghost function SeenBy(prompt: bool, w: World, es: seq<Event>, seen: Seen): Seen
    requires AllowedRun(prompt, w, es) && |seen| == |w.s.slots| == |w.s.sessions|
    decreases |es|
  {
    if es == [] then seen
    else
      StepKeepsLength(w.s, es[0]);
      SeenBy(prompt, WorldStep(w, es[0]), es[1..], SeenAfter(w.s, es[0], seen))
  }

  lemma {:induction false} RunDates(prompt: bool, w: World, es: seq<Event>, seen: Seen)
    requires Good(prompt, w) && AllowedRun(prompt, w, es) && Dated(w.s, seen)
    ensures Dated(Run(prompt, w, es).s, SeenBy(prompt, w, es, seen))
    decreases |es|
  {
    hide Good, Dated, Enabled, Polite, Prompt, Step, Observed, LateAfter, SeenAfter;
    if es != [] {
      DatedLength(w.s, seen);
      StepDates(prompt, w, es[0], seen);
      StepKeepsGood(prompt, w, es[0]);
      RunDates(prompt, WorldStep(w, es[0]), es[1..], SeenAfter(w.s, es[0], seen));
    }
  }

  lemma DatedLength(s: State, seen: Seen)
    requires Dated(s, seen)
    ensures |seen| == |s.slots| == |s.sessions|
  {
  }

  /** In every reachable state the table lags behind a running client by exactly the time since its
      record was last read, whether or not the updater is prompt. */
  lemma LagIsTimeSinceSeen(prompt: bool, n: nat, prices: map<City, real>, now: int, es: seq<Event>, i: nat)
    requires AllowedRun(prompt, InitialWorld(n, prices, now), es)
    requires var s := Run(prompt, InitialWorld(n, prices, now), es).s;
             i < |s.slots| == |s.sessions| && Running(s.slots[i], s.sessions[i])
    ensures var s := Run(prompt, InitialWorld(n, prices, now), es).s;
            var seen := SeenBy(prompt, InitialWorld(n, prices, now), es, seq(n, _ => 0));
            var row := Find(s.table, s.slots[i].mac);
            && |seen| == |s.slots| && row.Some? && seen[i] <= s.now
            && s.now - s.slots[i].start - row.value.timeUsed == s.now - seen[i]
  {
    hide WorldStep, Allowed, Good, SeenBy;
    var w0 := InitialWorld(n, prices, now);
    InitiallyGood(prompt, n, prices, now);
    InitiallyDated(n, prices, now);
    RunDates(prompt, w0, es, seq(n, _ => 0));
    RunKeepsGood(prompt, w0, es);
    SlotFacts(prompt, Run(prompt, w0, es), i);
    assert DatedAt(Run(prompt, w0, es).s, SeenBy(prompt, w0, es, seq(n, _ => 0)), i);
  }

  lemma InitiallyDated(n: nat, prices: map<City, real>, now: int)
    ensures Dated(Initial(n, prices, now), seq(n, _ => 0))
  {
  }

  /** When a regular pass comes to a record, the table lags by at most the backup period if and only if
      no backup second lay strictly between the time the record was last read and this one: for a new
      client, if and only if none was missed between its lookup and its flag. */
  lemma LagAtPass(prompt: bool, n: nat, prices: map<City, real>, now: int, es: seq<Event>, i: nat)
    requires AllowedRun(prompt, InitialWorld(n, prices, now), es)
    requires var s := Run(prompt, InitialWorld(n, prices, now), es).s;
             i < |s.slots| == |s.sessions| && s.slots[i].connected && IsBackupTime(s)
    ensures var s := Run(prompt, InitialWorld(n, prices, now), es).s;
            var seen := SeenBy(prompt, InitialWorld(n, prices, now), es, seq(n, _ => 0));
            var row := Find(s.table, s.slots[i].mac);
            && |seen| == |s.slots| && row.Some?
            && (s.now - s.slots[i].start - row.value.timeUsed <= 5 <==>
                  forall b :: seen[i] < b < s.now ==> !BackupSecond(s, b))
  {
    hide WorldStep, Allowed, Good, SeenBy, AllowedRun, Run, Find;
    var w0 := InitialWorld(n, prices, now);
    var s := Run(prompt, w0, es).s;
    InitiallyGood(prompt, n, prices, now);
    RunKeepsGood(prompt, w0, es);
    SlotFacts(prompt, Run(prompt, w0, es), i);
    LagIsTimeSinceSeen(prompt, n, prices, now, es, i);
    var from := SeenBy(prompt, w0, es, seq(n, _ => 0))[i];
    if s.now - from > 5 {
      assert BackupSecond(s, s.now - 5);
    }
  }

  predicate BackupSecond(s: State, b: int) {
    (b - s.backupStart) % SECONDS_BETWEEN_BACKUPS == 0
  }
}
