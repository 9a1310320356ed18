/** What holds of every run of the server. */
module BillingTheorems {
  import opened Billing
  import opened BillingInvariant
  import opened BillingSteps
  import opened Frames
  import opened Meter
  import opened ParkingTable

  // ----- Runs -----

  function InitialWorld(n: nat, prices: map<City, real>, now: int): World {
    World(Initial(n, prices, now), Ledger(map[], [], map[], map[]), false, seq(n, _ => 0))
  }

  /** Every event of the run is possible and allowed where it happens. */
  ghost predicate AllowedRun(prompt: bool, w: World, es: seq<Event>)
    decreases |es|
  {
    es == [] || (Allowed(prompt, w, es[0]) && AllowedRun(prompt, WorldStep(w, es[0]), es[1..]))
  }

  ghost function Run(prompt: bool, w: World, es: seq<Event>): World
    requires AllowedRun(prompt, w, es)
    decreases |es|
  {
    if es == [] then w else Run(prompt, WorldStep(w, es[0]), es[1..])
  }

  /** Runs follow one another. */
  lemma {:induction false} RunsJoin(prompt: bool, w: World, es: seq<Event>, fs: seq<Event>)
    requires AllowedRun(prompt, w, es) && AllowedRun(prompt, Run(prompt, w, es), fs)
    ensures AllowedRun(prompt, w, es + fs)
    ensures Run(prompt, w, es + fs) == Run(prompt, Run(prompt, w, es), fs)
    decreases |es|
  {
    hide WorldStep, Enabled, Polite, Prompt;
    if es == [] {
      assert es + fs == fs;
    } else {
      RunsJoin(prompt, WorldStep(w, es[0]), es[1..], fs);
      assert (es + fs)[1..] == es[1..] + fs;
    }
  }

  lemma OneEvent(prompt: bool, w: World, e: Event)
    requires Allowed(prompt, w, e)
    ensures AllowedRun(prompt, w, [e]) && Run(prompt, w, [e]) == WorldStep(w, e)
  {
    hide Enabled, Polite, WorldStep, Prompt;
    assert [e][1..] == [];
    assert AllowedRun(prompt, WorldStep(w, e), []);
  }

  lemma InitiallyGood(prompt: bool, n: nat, prices: map<City, real>, now: int)
    ensures Good(prompt, InitialWorld(n, prices, now))
  {
  }

  lemma {:induction false} RunKeepsGood(prompt: bool, w: World, es: seq<Event>)
    requires Good(prompt, w) && AllowedRun(prompt, w, es)
    ensures Good(prompt, Run(prompt, w, es))
    decreases |es|
  {
    hide Good, WorldStep, Enabled, Polite, Prompt;
    if es != [] {
      StepKeepsGood(prompt, w, es[0]);
      RunKeepsGood(prompt, WorldStep(w, es[0]), es[1..]);
    }
  }

  // ----- Billing -----

  /** In every interleaving of sessions, drops, resumes, backups and crashes, the k-th payment sent
      is the k-th bill of the simple meter: the price of the city in which the coordinates of the first
      START lie, times the summed length of the intervals, exactly when no crash cut one off. Crashes never lead to
      overcharging, and with prompt backups each loses at most five seconds and the seconds the
      session was unseen. */
  lemma PaymentsAreTheMetersBills(prompt: bool, n: nat, prices: map<City, real>, now: int, es: seq<Event>, k: nat)
    requires AllowedRun(prompt, InitialWorld(n, prices, now), es)
    requires k < |Run(prompt, InitialWorld(n, prices, now), es).s.sent|
    ensures var w := Run(prompt, InitialWorld(n, prices, now), es);
            && |w.ledger.bills| == |w.s.sent|
            && var p, b := w.s.sent[k], w.ledger.bills[k];
            && p.mac == b.mac
            && Costs(prices, b.place, p.seconds, p.amount)
            && (b.crashes.count == 0 ==> p.seconds == b.seconds)
            && p.seconds <= b.seconds
            && (prompt ==> b.seconds - 5 * b.crashes.count - b.crashes.unseen <= p.seconds)
  {
    hide WorldStep, Allowed, Inv, Fresh;
    InitiallyGood(prompt, n, prices, now);
    RunKeepsGood(prompt, InitialWorld(n, prices, now), es);
    PricesAreFixed(prompt, InitialWorld(n, prices, now), es);
    var w := Run(prompt, InitialWorld(n, prices, now), es);
    var p, b := w.s.sent[k], w.ledger.bills[k];
    assert Matches(prompt, w.s.prices, p, b);
    assert Within(b.place.x, b.place.y, CityAt(b.place));
  }

  /** A START at these coordinates, through any interleaving up to the lookup: a client without a row
      counts from the moment of the lookup, and its city is given by the bounds of the cities. */
  lemma NewClientIsLocated(s: State, i: nat, mac: string, x: bv8, y: bv8, es: seq<Event>)
    requires At(s, i, Listening) && !Deaf(s, i) && !s.sessions[i].checked
    requires forall e :: e in es ==> Spares(e, i)
    requires Possible(ReceiveStep(s, i, Intact(START_APP, mac, x, y)), es)
    requires Find(Reached(ReceiveStep(s, i, Intact(START_APP, mac, x, y)), es).table, mac).None?
    ensures var s' := Reached(ReceiveStep(s, i, Intact(START_APP, mac, x, y)), es);
            && At(s', i, Starting) && At(LookupStep(s', i), i, Inserting)
            && var c := LookupStep(s', i).slots[i];
               && c.mac == mac && c.start == s'.now
               && (c.location == Ashkelon <==> x <= 70 && y <= 70)
               && (c.location == Jerusalem <==> x <= 70 < y <= 127)
               && (c.location == PetahTikva <==> y <= 70 < x <= 127)
               && (c.location == Herzliya <==> 70 < x <= 127 && 70 < y <= 127)
               && (c.location == OutOfRange <==> x > 127 || y > 127)
  {
    hide Find, Possible, Reached;
    RunSpares(ReceiveStep(s, i, Intact(START_APP, mac, x, y)), es, i);
  }

  /** Only a frame of its own session changes the address and coordinates in a record. */
  lemma {:induction false} OnlyFramesChangeTheRecord(s: State, es: seq<Event>, i: nat)
    requires Possible(s, es) && i < |s.slots| == |s.sessions|
    requires forall e :: e in es ==> !e.Crash? && (e.Receive? ==> e.i != i)
    ensures var s' := Reached(s, es);
            && i < |s'.slots| && s'.slots[i].mac == s.slots[i].mac
            && s'.slots[i].x == s.slots[i].x && s'.slots[i].y == s.slots[i].y
    decreases |es|
  {
    if es != [] {
      StepKeepsLength(s, es[0]);
      StepKeepsPlace(s, es[0], i);
      hide Step, Enabled;
      OnlyFramesChangeTheRecord(Step(s, es[0]), es[1..], i);
    }
  }

  lemma StepKeepsPlace(s: State, e: Event, i: nat)
    requires Enabled(s, e) && i < |s.slots| == |s.sessions| && !e.Crash? && (e.Receive? ==> e.i != i)
    ensures i < |Step(s, e).slots| && Step(s, e).slots[i].mac == s.slots[i].mac
    ensures Step(s, e).slots[i].x == s.slots[i].x && Step(s, e).slots[i].y == s.slots[i].y
  {
    hide Find, Update, Delete, Insert, BackupPass, Elapsed, BackupDue, CityOf, LookupPrice, Amount;
  }

  /** The price list never changes. */
  lemma {:induction false} PricesAreFixed(prompt: bool, w: World, es: seq<Event>)
    requires AllowedRun(prompt, w, es)
    ensures Run(prompt, w, es).s.prices == w.s.prices
    decreases |es|
  {
    hide WorldStep, Enabled, Polite, Prompt;
    if es != [] {
      StepKeepsPrices(w, es[0]);
      PricesAreFixed(prompt, WorldStep(w, es[0]), es[1..]);
    }
  }

  lemma StepKeepsPrices(w: World, e: Event)
    requires Enabled(w.s, e)
    ensures WorldStep(w, e).s.prices == w.s.prices
  {
    hide Follow, LateAfter, UnseenAtCrash, Elapsed, BackupDue, Amount, BackupPass, Find, Update, Delete,
         Insert, LookupPrice, CityOf, Observed;
  }

  // ----- The invariant and the assumptions -----

  /** The invariant, including the correspondence with the meter, is kept by the polite events and by
      no others. */
  lemma OnlyPoliteEventsKeepGood(prompt: bool, w: World, e: Event)
    requires Good(prompt, w) && Enabled(w.s, e) && (prompt ==> Prompt(w, e))
    ensures Good(prompt, WorldStep(w, e)) <==> Polite(w.s, e)
  {
    hide Good, WorldStep, Polite, Prompt;
    if Polite(w.s, e) {
      StepKeepsGood(prompt, w, e);
    } else {
      ImpoliteEvents(w.s, e);
      if e.Crash? {
        ImpoliteCrash(prompt, w, e);
      } else {
        ImpoliteFrame(prompt, w, e.i, e.msg);
      }
    }
  }

  lemma ImpoliteEvents(s: State, e: Event)
    requires Enabled(s, e) && !Polite(s, e)
    ensures e.Crash? || e.Receive?
  {
  }

  lemma ImpoliteCrash(prompt: bool, w: World, e: Event)
    requires Good(prompt, w) && e.Crash? && Enabled(w.s, e) && !Polite(w.s, e)
    ensures !Good(prompt, WorldStep(w, e))
  {
    hide Find, Total, LossOk, Fresh, BackupPass, Elapsed, LateOf, LateAtCrash, Count;
    var i :| 0 <= i < |w.s.sessions| && w.s.sessions[i].phase == Removing;
    SlotFacts(prompt, w, i);
    var mac, w' := w.s.slots[i].mac, WorldStep(w, e);
    CrashRow(prompt, w, e, mac);
    assert Settling(w.s, mac);
    assert mac !in w'.ledger.meters;
    assert !Settling(w'.s, mac);
    assert !TracksMac(prompt, w'.s, w'.ledger, mac);
  }

  lemma ImpoliteFrame(prompt: bool, w: World, i: nat, msg: Message)
    requires Good(prompt, w) && Enabled(w.s, Receive(i, msg)) && !Polite(w.s, Receive(i, msg))
    ensures !Good(prompt, WorldStep(w, Receive(i, msg)))
  {
    hide Find, Total, LossOk, Fresh, CityOf, LookupPrice, Good, Tracks;
    var w' := WorldStep(w, Receive(i, msg));
    SlotFacts(prompt, w, i);
    if msg.Intact? && msg.status == START_APP && !w.s.slots[i].connected {
      SecondSession(prompt, w, w', i, msg.mac);
    } else if msg.Intact? && w.s.slots[i].connected && msg.mac != w.s.slots[i].mac
              && (msg.status != START_APP || w.s.sessions[i].checked) {
      ForeignAddress(prompt, w, w', i, msg.mac);
    } else {
      BrokenSlot(prompt, w', i);
    }
  }

  lemma BrokenSlot(prompt: bool, w: World, i: nat)
    requires |w.s.slots| == |w.s.sessions| && i < |w.s.slots|
    requires !SlotOk(w.s, w.s.slots[i], w.s.sessions[i])
    ensures !Good(prompt, w)
  {
    hide SlotOk, Tracks, Fresh;
  }

  lemma SecondSession(prompt: bool, w: World, w': World, i: nat, mac: string)
    requires Good(prompt, w) && |w.s.slots| == |w.s.sessions| == |w'.s.slots| == |w'.s.sessions|
    requires i < |w.s.slots| && !Live(w.s, i) && mac != ""
    requires exists j :: 0 <= j < |w.s.slots| && Live(w.s, j) && w.s.slots[j].mac == mac
    requires w'.s.slots[i].mac == mac && w'.s.sessions[i].phase != Gone
    requires forall j :: 0 <= j < |w.s.slots| && j != i ==>
               w'.s.slots[j] == w.s.slots[j] && w'.s.sessions[j] == w.s.sessions[j]
    ensures !Good(prompt, w')
  {
    hide SlotOk, Tracks, Fresh, Unique, Find;
    var j :| 0 <= j < |w.s.slots| && Live(w.s, j) && w.s.slots[j].mac == mac;
    assert Live(w'.s, i) && Live(w'.s, j);
  }

  /** A connected session cannot take over another address: the address is either run by another
      session or not running at all. */
  lemma ForeignAddress(prompt: bool, w: World, w': World, i: nat, mac: string)
    requires Good(prompt, w) && w'.ledger == w.ledger && i < |w.s.slots|
    requires |w.s.slots| == |w.s.sessions| == |w'.s.slots| == |w'.s.sessions|
    requires w.s.slots[i].mac != mac && w'.s.slots[i].mac == mac && w'.s.slots[i].connected
    requires Running(w'.s.slots[i], w'.s.sessions[i])
    requires forall j :: 0 <= j < |w.s.slots| && j != i ==>
               w'.s.slots[j] == w.s.slots[j] && w'.s.sessions[j] == w.s.sessions[j]
    ensures !Good(prompt, w')
  {
    hide Find, Total, LossOk, Fresh, CityOf, LookupPrice, Good;
    if Good(prompt, w') {
      SlotFacts(prompt, w', i);
      OpenIffRunning(prompt, w, mac);
      var j :| 0 <= j < |w.s.slots| && w.s.slots[j].mac == mac && Running(w.s.slots[j], w.s.sessions[j]);
      SoleOwner(prompt, w', i);
      assert false;
    }
  }

  // ----- The table -----

  /** In every reachable state no address has two rows, and a row exists exactly while the meter has
      the address or its paid row awaits deletion. */
  lemma RowsExactlyWhileParked(prompt: bool, n: nat, prices: map<City, real>, now: int, es: seq<Event>, mac: string)
    requires AllowedRun(prompt, InitialWorld(n, prices, now), es)
    ensures var w := Run(prompt, InitialWorld(n, prices, now), es);
            && |w.s.slots| == |w.s.sessions|
            && Count(w.s.table, mac) <= 1
            && (Count(w.s.table, mac) == 1 <==> mac in w.ledger.meters || Settling(w.s, mac))
            && !(mac in w.ledger.meters && Settling(w.s, mac))
  {
    hide WorldStep, Allowed, Fresh, Find, Count, SlotOk, TracksSlot, Settling;
    var w0 := InitialWorld(n, prices, now);
    InitiallyGood(prompt, n, prices, now);
    RunKeepsGood(prompt, w0, es);
    var w := Run(prompt, w0, es);
    FindIsCount(w.s.table, mac);
    assert TracksMac(prompt, w.s, w.ledger, mac);
    if Settling(w.s, mac) {
      SettlingHasRow(prompt, w, mac);
    }
  }

  lemma SettlingHasRow(prompt: bool, w: World, mac: string)
    requires Good(prompt, w) && |w.s.slots| == |w.s.sessions| && Settling(w.s, mac)
    ensures Find(w.s.table, mac).Some?
  {
    hide Find, Good;
    var i :| 0 <= i < |w.s.slots| && w.s.slots[i].mac == mac && w.s.sessions[i].phase == Removing;
    SlotFacts(prompt, w, i);
  }

  /** In every reachable state a connected slot has exactly one row, shares its address with no other
      connected slot, and belongs to a session that is listening, about to close, or looking at a
      further START. */
  lemma ConnectedSlots(prompt: bool, n: nat, prices: map<City, real>, now: int, es: seq<Event>, i: nat)
    requires AllowedRun(prompt, InitialWorld(n, prices, now), es)
    requires var s := Run(prompt, InitialWorld(n, prices, now), es).s; i < |s.slots| && s.slots[i].connected
    ensures var s := Run(prompt, InitialWorld(n, prices, now), es).s;
            && Count(s.table, s.slots[i].mac) == 1
            && (forall j :: 0 <= j < |s.slots| && j != i && s.slots[j].connected ==> s.slots[j].mac != s.slots[i].mac)
            && |s.sessions| == |s.slots|
            && (s.sessions[i].phase in {Listening, Closing} || Restarting(s.sessions[i]))
  {
    hide WorldStep, Allowed, Find, Count, Good;
    var w0 := InitialWorld(n, prices, now);
    InitiallyGood(prompt, n, prices, now);
    RunKeepsGood(prompt, w0, es);
    var w := Run(prompt, w0, es);
    SlotFacts(prompt, w, i);
    FindIsCount(w.s.table, w.s.slots[i].mac);
    AfterBackup(prompt, w, seq(|w.s.slots|, _ => 0), w.s.slots[i].mac);
    hide *;
    DistinctConnectedBoth(w.s.slots, i);
    AtMostOneRow(w.s.table, w.s.slots[i].mac);
  }

  lemma DistinctConnectedBoth(slots: seq<Slot>, i: nat)
    requires DistinctConnected(slots) && i < |slots| && slots[i].connected
    ensures forall j :: 0 <= j < |slots| && j != i && slots[j].connected ==> slots[j].mac != slots[i].mac
  {
  }

  lemma AtMostOneRow(t: Table, mac: string)
    requires Unique(t)
    ensures Count(t, mac) <= 1
  {
  }

  /** With a prompt updater the table never runs ahead of a connected client, and lags at most five
      seconds behind it, besides the seconds its session spent between reading its start time and
      setting its flag, which count until the next pass over its record. */
  lemma TableLagsAtMostFiveSeconds(n: nat, prices: map<City, real>, now: int, es: seq<Event>, i: nat)
    requires AllowedRun(true, InitialWorld(n, prices, now), es)
    requires var s := Run(true, InitialWorld(n, prices, now), es).s; i < |s.slots| && s.slots[i].connected
    ensures var w := Run(true, InitialWorld(n, prices, now), es);
            var row := Find(w.s.table, w.s.slots[i].mac);
            && |w.late| == |w.s.slots| && row.Some?
            && 0 <= w.s.now - w.s.slots[i].start - row.value.timeUsed <= 5 + w.late[i]
  {
    hide WorldStep, Allowed, Find, Good;
    InitiallyGood(true, n, prices, now);
    RunKeepsGood(true, InitialWorld(n, prices, now), es);
    SlotFacts(true, Run(true, InitialWorld(n, prices, now), es), i);
  }

  /** The bound is attained: when a new client's flag is set, the table lags by exactly the seconds
      since its start time was read, and `late` is what measures them. */
  lemma LagWhenFlagIsSet(n: nat, prices: map<City, real>, now: int, es: seq<Event>, i: nat)
    requires AllowedRun(true, InitialWorld(n, prices, now), es)
    requires At(Run(true, InitialWorld(n, prices, now), es).s, i, Inserted)
    ensures var w := Run(true, InitialWorld(n, prices, now), es);
            var s' := SetConnectedStep(w.s, i);
            var row := Find(s'.table, s'.slots[i].mac);
            && |w.late| == |w.s.slots| && row.Some? && s'.slots[i].connected
            && s'.now - s'.slots[i].start - row.value.timeUsed == w.late[i] == w.s.now - w.s.slots[i].start
  {
    hide WorldStep, Allowed, Find, Good;
    InitiallyGood(true, n, prices, now);
    RunKeepsGood(true, InitialWorld(n, prices, now), es);
    SlotFacts(true, Run(true, InitialWorld(n, prices, now), es), i);
  }

  /** A pass of the updater starts the count anew: what remains is the time since it read the record. */
  lemma PassMakesUpForDelay(prompt: bool, w: World, e: Event, i: nat)
    requires Good(prompt, w) && e.Backup? && Enabled(w.s, e) && BackupDue(w.s, e.finalFlush)
    requires i < |w.s.slots| && w.s.slots[i].connected
    ensures var w' := WorldStep(w, e);
            var row := Find(w'.s.table, w'.s.slots[i].mac);
            && |w'.late| == |w'.s.slots| && row.Some?
            && w'.s.now - w'.s.slots[i].start - row.value.timeUsed == w'.late[i]
            && (e.delays[i + 1..] == seq(|w.s.slots| - i - 1, _ => 0) ==> w'.late[i] == 0)
  {
    hide Find, Good, BackupPass, Elapsed, BackupDue, Matches, TracksMac, TracksSlot, Unique;
    SlotFacts(prompt, w, i);
    RowAfterPass(prompt, w, e.delays, i);
    if e.delays[i + 1..] == seq(|w.s.slots| - i - 1, _ => 0) {
      NothingElapses(e.delays, i + 1, |e.delays|);
    }
  }

  function Sum(delays: seq<nat>): nat {
    if delays == [] then 0 else delays[0] + Sum(delays[1..])
  }

  lemma {:induction false} SumSnoc(delays: seq<nat>, d: nat)
    ensures Sum(delays + [d]) == Sum(delays) + d
  {
    if delays == [] {
      assert [] + [d] == [d] && [d][1..] == [];
    } else {
      assert (delays + [d])[1..] == delays[1..] + [d];
      SumSnoc(delays[1..], d);
    }
  }

  lemma {:induction false} ElapsedIsSum(delays: seq<nat>, k: nat)
    requires k <= |delays|
    ensures Elapsed(delays, k) == Sum(delays[..k])
  {
    if k > 0 {
      ElapsedIsSum(delays, k - 1);
      SumSnoc(delays[..k - 1], delays[k - 1]);
      assert delays[..k] == delays[..k - 1] + [delays[k - 1]];
    }
  }

  /** What a pass leaves in the row of a client: the clock at which its record is read, minus its start. */
  ghost predicate Saved(s: State, t: Table, delays: seq<nat>, i: nat)
    requires i < |s.slots| == |delays|
  {
    var row := Find(t, s.slots[i].mac);
    row.Some? && row.value.timeUsed == s.now + Sum(delays[..i + 1]) - s.slots[i].start
  }

  lemma PassSaves(prompt: bool, w: World, delays: seq<nat>, i: nat)
    requires Good(prompt, w) && i < |w.s.slots| == |delays| && w.s.slots[i].connected
    ensures Saved(w.s, Passed(w.s, delays), delays, i)
  {
    hide Find, Good, BackupPass, Elapsed, Sum, Passed, TracksMac, TracksSlot, Matches, FreshSlot;
    SlotFacts(prompt, w, i);
    RowAfterPass(prompt, w, delays, i);
    ElapsedIsSum(delays, i + 1);
  }

  /** One iteration of the updater loop. The last one writes in any second whatever, the others exactly in
      every fifth second since the start: then the row of every connected client is brought up to date,
      and the iteration takes as long as reading all the records. Otherwise nothing is written. */
  lemma IterationWrites(prompt: bool, w: World, finalFlush: bool, delays: seq<nat>)
    requires Good(prompt, w) && Enabled(w.s, Backup(finalFlush, delays))
    ensures var s, s' := w.s, Step(w.s, Backup(finalFlush, delays));
            && |s.slots| == |delays| && (s'.updaterDone <==> finalFlush)
            && if finalFlush || (s.now - s.backupStart) % 5 == 0 then
                 && s'.now == s.now + Sum(delays)
                 && forall i :: 0 <= i < |s.slots| && s.slots[i].connected ==> Saved(s, s'.table, delays, i)
               else s'.table == s.table && s'.now == s.now
  {
    hide Good, BackupPass, Elapsed, Sum, Saved;
    ElapsedIsSum(delays, |delays|);
    assert delays[..|delays|] == delays;
    forall i | 0 <= i < |w.s.slots| && w.s.slots[i].connected ensures Saved(w.s, Passed(w.s, delays), delays, i) {
      PassSaves(prompt, w, delays, i);
    }
  }

  /** The updater counts its seconds from the start of the process. */
  lemma BackupSecondsCountFromStart(n: nat, prices: map<City, real>, now: int, es: seq<Event>)
    requires Possible(Initial(n, prices, now), es) && forall e :: e in es ==> !e.Crash?
    ensures Reached(Initial(n, prices, now), es).backupStart == now
  {
    hide Possible, Reached;
    UpdaterStartsAndStops(Initial(n, prices, now), es);
  }

  /** After a crash it counts from the restart. */
  lemma BackupSecondsCountFromRestart(s: State, delays: seq<nat>, k: nat, es: seq<Event>)
    requires Enabled(s, Crash(delays, k)) && Possible(Step(s, Crash(delays, k)), es)
    requires forall e :: e in es ==> !e.Crash?
    ensures Reached(Step(s, Crash(delays, k)), es).backupStart == s.now + Elapsed(delays, k)
  {
    hide Possible, Reached, Elapsed, BackupPass;
    UpdaterStartsAndStops(Step(s, Crash(delays, k)), es);
  }

  /** After its last iteration the updater does nothing more for the life of the process. */
  lemma {:induction false} UpdaterStartsAndStops(s: State, es: seq<Event>)
    requires Possible(s, es) && forall e :: e in es ==> !e.Crash?
    ensures Reached(s, es).backupStart == s.backupStart
    ensures s.updaterDone ==> Reached(s, es).updaterDone && forall e :: e in es ==> !e.Backup?
    decreases |es|
  {
    if es != [] {
      OneStepOfUpdater(s, es[0]);
      hide Step, Enabled;
      UpdaterStartsAndStops(Step(s, es[0]), es[1..]);
    }
  }

  lemma OneStepOfUpdater(s: State, e: Event)
    requires Enabled(s, e) && !e.Crash?
    ensures Step(s, e).backupStart == s.backupStart
    ensures s.updaterDone ==> Step(s, e).updaterDone && !e.Backup?
  {
    hide Find, Update, Delete, Insert, BackupPass, Elapsed, BackupDue, CityOf, LookupPrice, Amount;
  }

  lemma {:induction false} NothingElapses(delays: seq<nat>, j: nat, k: nat)
    requires j <= k <= |delays| && delays[j..] == seq(|delays| - j, _ => 0)
    ensures Elapsed(delays, k) == Elapsed(delays, j)
    decreases k
  {
    if j < k {
      NothingElapses(delays, j, k - 1);
      assert delays[k - 1] == delays[j..][k - 1 - j];
    }
  }

  /** The time used of a row never decreases while the row exists. */
  lemma TimeUsedNeverDecreases(prompt: bool, w: World, e: Event, mac: string)
    requires Good(prompt, w) && Allowed(prompt, w, e)
    requires Find(w.s.table, mac).Some? && Find(WorldStep(w, e).s.table, mac).Some?
    ensures Find(w.s.table, mac).value.timeUsed <= Find(WorldStep(w, e).s.table, mac).value.timeUsed
  {
    hide Good, Polite, Prompt, Find, Count, BackupPass, BackedUp, Follow, Update, Insert, Delete, CityOf, LookupPrice;
    match e
    case Close(i) => WriteNeverDecreases(prompt, w, i, mac);
    case FinalWrite(i) => WriteNeverDecreases(prompt, w, i, mac);
    case InsertRow(i) =>
      AfterInsert(w.s.table, Row(w.s.slots[i].mac, 0, w.s.slots[i].location), mac);
    case Remove(i) =>
      AfterDelete(w.s.table, w.s.slots[i].mac, mac);
    case Backup(_, delays) =>
      PassNeverDecreases(prompt, w, delays, |delays|, mac);
    case Crash(delays, k) =>
      PassNeverDecreases(prompt, w, delays, k, mac);
    case _ =>
  }

  lemma WriteNeverDecreases(prompt: bool, w: World, i: nat, mac: string)
    requires Good(prompt, w) && (At(w.s, i, Closing) || At(w.s, i, Dropping)) && Find(w.s.table, mac).Some?
    ensures var t' := Update(w.s.table, w.s.slots[i].mac, w.s.now - w.s.slots[i].start);
            Find(t', mac).Some? && Find(w.s.table, mac).value.timeUsed <= Find(t', mac).value.timeUsed
  {
    hide Find, Update, Good;
    SlotFacts(prompt, w, i);
    AfterUpdate(w.s.table, w.s.slots[i].mac, w.s.now - w.s.slots[i].start, mac);
  }

  lemma PassNeverDecreases(prompt: bool, w: World, delays: seq<nat>, k: nat, mac: string)
    requires Good(prompt, w) && Find(w.s.table, mac).Some? && k <= |delays| == |w.s.slots|
    ensures var t' := BackupPass(w.s.table, w.s.slots, w.s.now, delays, k);
            Find(t', mac).Some? && Find(w.s.table, mac).value.timeUsed <= Find(t', mac).value.timeUsed
  {
    hide Find, Count, BackupPass, Elapsed, Good;
    AfterBackup(prompt, w, delays, mac);
    AfterPass(w.s.table, w.s.slots, w.s.now, delays, k, mac);
    if i :| 0 <= i < k && w.s.slots[i].connected && w.s.slots[i].mac == mac {
      SlotFacts(prompt, w, i);
      assert w.s.slots[..k][i] == w.s.slots[i];
    }
  }

  // ----- The intervals billed -----

  /** In every reachable state the connected intervals of every meter are in order and disjoint, so
      that their summed length is the time the address was connected. */
  lemma {:induction false} IntervalsStayOrdered(prompt: bool, w: World, es: seq<Event>)
    requires Good(prompt, w) && LedgerOk(w.ledger, w.s.now) && AllowedRun(prompt, w, es)
    ensures var w' := Run(prompt, w, es); LedgerOk(w'.ledger, w'.s.now)
    decreases |es|
  {
    hide Good, WorldStep, Enabled, Polite, Prompt, LedgerOk;
    if es != [] {
      StepKeepsGood(prompt, w, es[0]);
      StepKeepsOrder(prompt, w, es[0]);
      IntervalsStayOrdered(prompt, WorldStep(w, es[0]), es[1..]);
    }
  }

  lemma StepKeepsOrder(prompt: bool, w: World, e: Event)
    requires Good(prompt, w) && LedgerOk(w.ledger, w.s.now) && Enabled(w.s, e)
    ensures var w' := WorldStep(w, e); LedgerOk(w'.ledger, w'.s.now)
  {
    hide Good, LedgerOk, Follow, Find, Update, Delete, Insert, BackupPass, CityOf, LookupPrice, UnseenAtCrash;
    var w' := WorldStep(w, e);
    assert w'.s.now >= w.s.now;
    if e.Crash? {
      LedgerAges(w.ledger, w.s.now, w'.s.now);
      FollowKeepsOrder(w.ledger, Observed(w, e), w'.s.now);
    } else {
      FollowKeepsOrder(w.ledger, Observed(w, e), w.s.now);
      LedgerAges(w'.ledger, w.s.now, w'.s.now);
    }
  }

  /** The row of the address exists in every state of the run. */
  ghost predicate RowStays(prompt: bool, w: World, es: seq<Event>, mac: string)
    requires AllowedRun(prompt, w, es)
    decreases |es|
  {
    Find(w.s.table, mac).Some? && (es == [] || RowStays(prompt, WorldStep(w, es[0]), es[1..], mac))
  }

  /** Over any stretch of a run during which a row exists, its time used only grows. */
  lemma {:induction false} TimeUsedGrows(prompt: bool, w: World, es: seq<Event>, mac: string)
    requires Good(prompt, w) && AllowedRun(prompt, w, es) && RowStays(prompt, w, es, mac)
    ensures var w' := Run(prompt, w, es);
            Find(w'.s.table, mac).Some?
            && Find(w.s.table, mac).value.timeUsed <= Find(w'.s.table, mac).value.timeUsed
    decreases |es|
  {
    hide Good, WorldStep, Enabled, Polite, Prompt, Find;
    if es != [] {
      StepKeepsGood(prompt, w, es[0]);
      TimeUsedGrows(prompt, WorldStep(w, es[0]), es[1..], mac);
      TimeUsedNeverDecreases(prompt, w, es[0], mac);
    }
  }
}
