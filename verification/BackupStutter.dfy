/** Backups are stuttering steps: replacing every one of them in a run by the seconds it took changes
    no bill, and no payment of a client whose parking no crash cut off. */
module BackupStutter {
  import opened Billing
  import opened BillingInvariant
  import opened BillingSteps
  import opened BillingTheorems
  import opened Frames
  import opened Meter
  import opened ParkingTable
  import opened Wrappers

  function Ticks(n: nat): seq<Event> {
    if n == 0 then [] else [Tick] + Ticks(n - 1)
  }

  /** Instead of each backup, and of each pass that a crash cuts short, only the seconds that pass while
      the updater reads the records. */
  function WithoutBackups(es: seq<Event>): seq<Event> {
    if es == [] then []
    else
      var e := es[0];
      (if e.Backup? then Ticks(Elapsed(e.delays, |e.delays|))
       else if e.Crash? && e.k <= |e.delays| then Ticks(Elapsed(e.delays, e.k)) + [Crash(e.delays, 0)]
       else [e]) + WithoutBackups(es[1..])
  }

  /** Rows that agree in everything but the time used. */
  predicate AlikeRows(r: Option<Row>, r': Option<Row>) {
    (r.None? <==> r'.None?) && (r.Some? ==> r.value.mac == r'.value.mac && r.value.location == r'.value.location)
  }

  /** Slots that agree in everything but an encoded start time; a start time just read from the clock
      must agree too. */
  predicate AlikeSlots(c: Slot, c': Slot, phase: Phase) {
    c' == c.(start := c'.start) && (phase == Inserting ==> c' == c)
  }

  /** Two servers that differ only in what backups write and what is computed from it. */
  ghost predicate Alike(s: State, s': State) {
    && s.now == s'.now && s.prices == s'.prices && s.sessions == s'.sessions
    && |s.slots| == |s'.slots| == |s.sessions|
    && (forall i :: 0 <= i < |s.slots| ==> AlikeSlots(s.slots[i], s'.slots[i], s.sessions[i].phase))
    && AlikeTables(s.table, s'.table)
  }

  ghost predicate AlikeTables(t: Table, t': Table) {
    forall mac: string :: AlikeRows(Find(t, mac), Find(t', mac))
  }

  /** Meters that agree in everything but the seconds unseen at crashes. */
  predicate AlikeMeters(m: Meter, m': Meter) {
    m' == m.(crashes := m'.crashes) && m'.crashes.count == m.crashes.count
  }

  predicate AlikeBills(b: Bill, b': Bill) {
    b' == b.(crashes := b'.crashes) && b'.crashes.count == b.crashes.count
  }

  ghost predicate AlikeLedgers(l: Ledger, l': Ledger) {
    && l.asked == l'.asked && l.sighted == l'.sighted
    && l.meters.Keys == l'.meters.Keys
    && (forall mac :: mac in l.meters ==> AlikeMeters(l.meters[mac], l'.meters[mac]))
    && |l.bills| == |l'.bills|
    && (forall k :: 0 <= k < |l.bills| ==> AlikeBills(l.bills[k], l'.bills[k]))
  }

  predicate AlikeHappenings(h: Happening, h': Happening) {
    h == h' || (h.Crashed? && h'.Crashed? && h.at == h'.at)
  }

  lemma FollowAlike(l: Ledger, l': Ledger, h: Happening, h': Happening)
    requires AlikeLedgers(l, l') && AlikeHappenings(h, h')
    ensures AlikeLedgers(Follow(l, h), Follow(l', h'))
  {
  }

  lemma SameTables(s: State, s': State, e: Event)
    requires Alike(s, s') && Enabled(s, e) && Enabled(s', e) && !e.Backup? && !e.Crash?
    ensures AlikeTables(Step(s, e).table, Step(s', e).table)
  {
    hide Find, CityOf, LookupPrice, Update, Insert, Delete, AlikeRows, BackupPass, Amount;
    match e
    case InsertRow(i) => SameInsert(s.table, s'.table, Row(s.slots[i].mac, 0, s.slots[i].location));
    case Close(i) => SameWrite(s, s', i);
    case FinalWrite(i) => SameWrite(s, s', i);
    case Remove(i) => SameDelete(s.table, s'.table, s.slots[i].mac);
    case _ =>
  }

  lemma SameInsert(t: Table, t': Table, row: Row)
    requires AlikeTables(t, t')
    ensures AlikeTables(Insert(t, row), Insert(t', row))
  {
    hide Find, Insert;
    forall mac ensures AlikeRows(Find(Insert(t, row), mac), Find(Insert(t', row), mac)) {
      AfterInsert(t, row, mac);
      AfterInsert(t', row, mac);
    }
  }

  lemma SameDelete(t: Table, t': Table, key: string)
    requires AlikeTables(t, t')
    ensures AlikeTables(Delete(t, key), Delete(t', key))
  {
    hide Find, Delete;
    forall mac ensures AlikeRows(Find(Delete(t, key), mac), Find(Delete(t', key), mac)) {
      AfterDelete(t, key, mac);
      AfterDelete(t', key, mac);
    }
  }

  /** Steps other than backups and crashes keep servers alike and mean the same to the meter. */
  lemma SameStep(w: World, w': World, e: Event)
    requires Alike(w.s, w'.s) && Enabled(w.s, e) && Polite(w.s, e) && !e.Backup? && !e.Crash?
    ensures Enabled(w'.s, e) && Polite(w'.s, e) && AlikeHappenings(Observed(w, e), Observed(w', e))
    ensures Alike(Step(w.s, e), Step(w'.s, e))
  {
    hide Find, CityOf, LookupPrice, Update, Insert, Delete, Polite, AlikeTables, Moved, ReceiveStep,
         LookupStep, ResumeStep, InsertRowStep, SetConnectedStep, CloseStep, PayStep, RemoveStep, LoseStep,
         FinalWriteStep, AcceptStep, Observed;
    var s, s' := w.s, w'.s;
    SameAddresses(w, w', e);
    SameTables(s, s', e);
    if e.Tick? {
    } else {
      SameSlot(s, s', e);
      OthersUnmoved(s, e);
      OthersUnmoved(s', e);
    }
  }

  lemma OthersUnmoved(s: State, e: Event)
    requires Enabled(s, e) && !e.Backup? && !e.Tick? && !e.Crash?
    requires |s.slots| == |s.sessions|
    ensures var s2 := Step(s, e);
            && |s2.slots| == |s2.sessions| == |s.slots| && s2.now == s.now && s2.prices == s.prices
            && forall j :: 0 <= j < |s.slots| && j != e.i ==>
                 s2.slots[j] == s.slots[j] && s2.sessions[j] == s.sessions[j]
  {
    hide Find, CityOf, LookupPrice, Update, Insert, Delete;
  }

  lemma SameSlot(s: State, s': State, e: Event)
    requires Alike(s, s') && Enabled(s, e) && Enabled(s', e) && !e.Backup? && !e.Tick? && !e.Crash?
    ensures e.i < |Step(s, e).slots| == |Step(s', e).slots| == |Step(s, e).sessions| == |Step(s', e).sessions|
    ensures Step(s, e).sessions[e.i] == Step(s', e).sessions[e.i]
    ensures AlikeSlots(Step(s, e).slots[e.i], Step(s', e).slots[e.i], Step(s, e).sessions[e.i].phase)
  {
    hide Find, CityOf, LookupPrice, Update, Insert, Delete, AlikeTables, ReceiveStep, LookupStep, ResumeStep;
    assert AlikeSlots(s.slots[e.i], s'.slots[e.i], s.sessions[e.i].phase);
    match e
    case Receive(i, msg) => SameReceive(s, s', i, msg);
    case Lookup(i) => SameLookup(s, s', i);
    case Resume(i) => SameResume(s, s', i);
    case _ =>
  }

  lemma SameReceive(s: State, s': State, i: nat, msg: Message)
    requires Alike(s, s') && At(s, i, Listening) && At(s', i, Listening)
    ensures var u, u' := ReceiveStep(s, i, msg), ReceiveStep(s', i, msg);
            && i < |u.slots| == |u'.slots| == |u.sessions| == |u'.sessions|
            && u.sessions[i] == u'.sessions[i] && AlikeSlots(u.slots[i], u'.slots[i], u.sessions[i].phase)
  {
    hide AlikeTables;
    assert AlikeSlots(s.slots[i], s'.slots[i], s.sessions[i].phase);
  }

  lemma SameLookup(s: State, s': State, i: nat)
    requires Alike(s, s') && At(s, i, Starting) && At(s', i, Starting)
    ensures var u, u' := LookupStep(s, i), LookupStep(s', i);
            && i < |u.slots| == |u'.slots| == |u.sessions| == |u'.sessions|
            && u.sessions[i] == u'.sessions[i] && AlikeSlots(u.slots[i], u'.slots[i], u.sessions[i].phase)
  {
    hide AlikeTables, Find, CityOf;
    RowsAlike(s, s', s.slots[i].mac);
    assert AlikeSlots(s.slots[i], s'.slots[i], s.sessions[i].phase);
  }

  lemma SameResume(s: State, s': State, i: nat)
    requires Alike(s, s') && At(s, i, Resuming) && At(s', i, Resuming)
    ensures var u, u' := ResumeStep(s, i), ResumeStep(s', i);
            && i < |u.slots| == |u'.slots| == |u.sessions| == |u'.sessions|
            && u.sessions[i] == u'.sessions[i] && AlikeSlots(u.slots[i], u'.slots[i], u.sessions[i].phase)
  {
    hide AlikeTables, Find, LookupPrice;
    RowsAlike(s, s', s.slots[i].mac);
    assert AlikeSlots(s.slots[i], s'.slots[i], s.sessions[i].phase);
  }

  lemma RowsAlike(s: State, s': State, mac: string)
    requires Alike(s, s')
    ensures AlikeRows(Find(s.table, mac), Find(s'.table, mac))
  {
    hide Find;
  }

  lemma SameAddresses(w: World, w': World, e: Event)
    requires Alike(w.s, w'.s) && Enabled(w.s, e) && Polite(w.s, e) && !e.Backup? && !e.Crash?
    ensures Enabled(w'.s, e) && Polite(w'.s, e) && AlikeHappenings(Observed(w, e), Observed(w', e))
  {
    hide Find, CityOf, LookupPrice, UnseenAtCrash;
    var s, s' := w.s, w'.s;
    assert forall j :: 0 <= j < |s.slots| ==> s'.slots[j].mac == s.slots[j].mac && (Live(s', j) <==> Live(s, j));
  }

  lemma SameWrite(s: State, s': State, i: nat)
    requires Alike(s, s') && i < |s.slots|
    ensures var key := s.slots[i].mac;
            AlikeTables(Update(s.table, key, s.now - s.slots[i].start),
                        Update(s'.table, key, s'.now - s'.slots[i].start))
  {
    hide Find, Update;
    var key := s.slots[i].mac;
    var u, u' := Update(s.table, key, s.now - s.slots[i].start), Update(s'.table, key, s'.now - s'.slots[i].start);
    forall mac ensures AlikeRows(Find(u, mac), Find(u', mac)) {
      AfterUpdate(s.table, key, s.now - s.slots[i].start, mac);
      AfterUpdate(s'.table, key, s'.now - s'.slots[i].start, mac);
    }
  }

  lemma RowsAfterPass(w: World, delays: seq<nat>, k: nat, mac: string)
    requires Good(false, w) && k <= |delays| == |w.s.slots|
    ensures AlikeRows(Find(BackupPass(w.s.table, w.s.slots, w.s.now, delays, k), mac), Find(w.s.table, mac))
  {
    hide Find, Count, BackupPass, Good, Elapsed;
    AfterBackup(false, w, delays, mac);
    AfterPass(w.s.table, w.s.slots, w.s.now, delays, k, mac);
    SameAddress(w.s.table, mac);
    SameAddress(BackupPass(w.s.table, w.s.slots, w.s.now, delays, k), mac);
  }

  lemma SameAddress(t: Table, mac: string)
    ensures Find(t, mac).Some? ==> Find(t, mac).value.mac == mac
  {
  }

  /** A backup is invisible to the meter, and up to alikeness only takes its time. */
  lemma BackupStutters(w: World, s': State, finalFlush: bool, delays: seq<nat>)
    requires Good(false, w) && Allowed(false, w, Backup(finalFlush, delays)) && Alike(w.s, s')
    ensures WorldStep(w, Backup(finalFlush, delays)).ledger == w.ledger
    ensures Alike(WorldStep(w, Backup(finalFlush, delays)).s, s'.(now := s'.now + Elapsed(delays, |delays|)))
  {
    hide Good, LateAfter, BackupStep, Alike, Polite, Prompt, Enabled, Elapsed, UnseenAtCrash;
    PassStutters(w, s', finalFlush, delays);
  }

  lemma PassStutters(w: World, s': State, finalFlush: bool, delays: seq<nat>)
    requires Good(false, w) && Enabled(w.s, Backup(finalFlush, delays)) && Alike(w.s, s')
    ensures Alike(BackupStep(w.s, finalFlush, delays), s'.(now := s'.now + Elapsed(delays, |delays|)))
  {
    hide BackupPass, Good, Elapsed, BackupDue, AlikeSlots, AlikeTables;
    TablesAfterPass(w, delays, |delays|, s'.table);
  }

  lemma TablesAfterPass(w: World, delays: seq<nat>, k: nat, t': Table)
    requires Good(false, w) && k <= |delays| == |w.s.slots| && AlikeTables(w.s.table, t')
    ensures AlikeTables(BackupPass(w.s.table, w.s.slots, w.s.now, delays, k), t')
  {
    hide Find, BackupPass, Good, AlikeRows;
    var t := BackupPass(w.s.table, w.s.slots, w.s.now, delays, k);
    forall mac ensures AlikeRows(Find(t, mac), Find(t', mac)) {
      RowsAfterPass(w, delays, k, mac);
      assert AlikeRows(Find(w.s.table, mac), Find(t', mac));
      AlikeRowsJoin(Find(t, mac), Find(w.s.table, mac), Find(t', mac));
    }
  }

  lemma AlikeRowsJoin(r: Option<Row>, r1: Option<Row>, r': Option<Row>)
    requires AlikeRows(r, r1) && AlikeRows(r1, r')
    ensures AlikeRows(r, r')
  {
  }

  /** A crash in the middle of a pass is alike to one after the seconds that the pass had taken. */
  lemma CrashStutters(w: World, w': World, delays: seq<nat>, k: nat)
    requires Good(false, w) && Allowed(false, w, Crash(delays, k))
    requires w'.s.now == w.s.now + Elapsed(delays, k) && Alike(w.s.(now := w'.s.now), w'.s)
    ensures Allowed(false, w', Crash(delays, 0))
    ensures AlikeHappenings(Observed(w, Crash(delays, k)), Observed(w', Crash(delays, 0)))
    ensures Alike(Step(w.s, Crash(delays, k)), Step(w'.s, Crash(delays, 0)))
  {
    hide BackupPass, Good, Elapsed, UnseenAtCrash, AlikeTables;
    NoPass(w'.s, delays);
    TablesAfterPass(w, delays, k, w'.s.table);
  }

  lemma NoPass(s: State, delays: seq<nat>)
    requires |delays| == |s.slots|
    ensures BackupPass(s.table, s.slots, s.now, delays, 0) == s.table && Elapsed(delays, 0) == 0
  {
  }

  /** Nothing but the clock moves while seconds pass. */
  lemma {:induction false} SecondsPass(w: World, n: nat)
    requires Good(false, w)
    ensures AllowedRun(false, w, Ticks(n))
    ensures var w' := Run(false, w, Ticks(n));
            Good(false, w') && w'.ledger == w.ledger && w'.s == w.s.(now := w.s.now + n)
    decreases n
  {
    hide Good;
    if n > 0 {
      StepKeepsGood(false, w, Tick);
      SecondsPass(WorldStep(w, Tick), n - 1);
      assert Ticks(n)[1..] == Ticks(n - 1);
    }
  }

  lemma CrashWithin(s: State, e: Event)
    requires e.Crash? && Enabled(s, e)
    ensures e.k <= |e.delays| == |s.slots|
  {
  }

  lemma SecondsAlike(s: State, s': State, now: int)
    requires Alike(s, s')
    ensures s.now == s'.now && Alike(s.(now := now), s'.(now := now))
  {
    hide AlikeTables;
  }

  lemma {:induction false} RunsAlike(w: World, w': World, es: seq<Event>)
    requires Good(false, w) && Good(false, w') && Alike(w.s, w'.s) && AlikeLedgers(w.ledger, w'.ledger)
    requires AllowedRun(false, w, es)
    ensures AllowedRun(false, w', WithoutBackups(es))
    ensures AlikeLedgers(Run(false, w, es).ledger, Run(false, w', WithoutBackups(es)).ledger)
    ensures Alike(Run(false, w, es).s, Run(false, w', WithoutBackups(es)).s)
    decreases |es|
  {
    hide Good, Alike, AlikeLedgers, Enabled, Polite, Prompt, Step, Observed, Follow, Ticks, Elapsed;
    if es != [] {
      var e := es[0];
      StepKeepsGood(false, w, e);
      if e.Backup? {
        var n := Elapsed(e.delays, |e.delays|);
        BackupStutters(w, w'.s, e.finalFlush, e.delays);
        SecondsPass(w', n);
        RunsAlike(WorldStep(w, e), Run(false, w', Ticks(n)), es[1..]);
        RunsJoin(false, w', Ticks(n), WithoutBackups(es[1..]));
      } else if e.Crash? {
        CrashWithin(w.s, e);
        var n := Elapsed(e.delays, e.k);
        SecondsPass(w', n);
        var w1 := Run(false, w', Ticks(n));
        SecondsAlike(w.s, w'.s, w1.s.now);
        CrashStutters(w, w1, e.delays, e.k);
        FollowAlike(w.ledger, w1.ledger, Observed(w, e), Observed(w1, Crash(e.delays, 0)));
        StepKeepsGood(false, w1, Crash(e.delays, 0));
        OneEvent(false, w1, Crash(e.delays, 0));
        RunsAlike(WorldStep(w, e), WorldStep(w1, Crash(e.delays, 0)), es[1..]);
        RunsJoin(false, w', Ticks(n), [Crash(e.delays, 0)]);
        RunsJoin(false, w', Ticks(n) + [Crash(e.delays, 0)], WithoutBackups(es[1..]));
      } else {
        SameStep(w, w', e);
        FollowAlike(w.ledger, w'.ledger, Observed(w, e), Observed(w', e));
        StepKeepsGood(false, w', e);
        RunsAlike(WorldStep(w, e), WorldStep(w', e), es[1..]);
        var es' := WithoutBackups(es);
        assert es' != [] && es'[0] == e && es'[1..] == WithoutBackups(es[1..]);
      }
    }
  }

  /** Replacing every backup of a run by the seconds it took leaves a possible run with the same
      bills, and the same payments for all parking that no crash cut off. */
  lemma BackupsChangeNoPayment(n: nat, prices: map<City, real>, now: int, es: seq<Event>)
    requires AllowedRun(false, InitialWorld(n, prices, now), es)
    ensures var w0 := InitialWorld(n, prices, now);
            && AllowedRun(false, w0, WithoutBackups(es))
            && var w, w' := Run(false, w0, es), Run(false, w0, WithoutBackups(es));
            && |w.s.sent| == |w'.s.sent| == |w.ledger.bills| == |w'.ledger.bills|
            && (forall k :: 0 <= k < |w.s.sent| ==> AlikeBills(w.ledger.bills[k], w'.ledger.bills[k]))
            && (forall k :: 0 <= k < |w.s.sent| && w.ledger.bills[k].crashes.count == 0 ==>
                  w'.s.sent[k] == w.s.sent[k])
  {
    hide Enabled, Polite, Prompt, WorldStep, Inv, Fresh;
    var w0 := InitialWorld(n, prices, now);
    InitiallyGood(false, n, prices, now);
    RunsAlike(w0, w0, es);
    var w, w' := Run(false, w0, es), Run(false, w0, WithoutBackups(es));
    RunKeepsGood(false, w0, es);
    RunKeepsGood(false, w0, WithoutBackups(es));
    assert w.s.prices == w'.s.prices;
    forall k | 0 <= k < |w.s.sent| && w.ledger.bills[k].crashes.count == 0 ensures w'.s.sent[k] == w.s.sent[k] {
      assert AlikeBills(w.ledger.bills[k], w'.ledger.bills[k]);
      assert Matches(false, w.s.prices, w.s.sent[k], w.ledger.bills[k]);
      assert Matches(false, w'.s.prices, w'.s.sent[k], w'.ledger.bills[k]);
    }
  }
}
