/** What each broken assumption costs, for every state and any interleaving in between, and, where that
    can be nothing, exactly when. */
module Violations {
  import opened Billing
  import opened BillingInvariant
  import opened BillingSteps
  import opened Frames
  import opened ParkingTable
  import opened RowFate
  import opened Wrappers

  ghost predicate Sparing(es: seq<Event>, i: nat) {
    forall e :: e in es ==> Spares(e, i)
  }

  // ----- A second START on the connection of a new client -----

  /** From the second START on a connection, through whatever others do before the lookup (`es1`) and
      before the lock is taken (`es2`): a session that had resumed ignores the frame. One that had not
      forgets exactly the time its row lags when the lock is taken, so nothing is lost if and only if
      the row is current at that moment. */
  lemma RepeatedStart(s: State, i: nat, x: bv8, y: bv8, es1: seq<Event>, es2: seq<Event>)
    requires At(s, i, Listening) && !Deaf(s, i) && Sparing(es1, i) && Sparing(es2, i)
    requires var c, received := s.slots[i], ReceiveStep(s, i, Intact(START_APP, s.slots[i].mac, x, y));
             && Possible(received, es1)
             && (!s.sessions[i].checked ==>
                   && Find(Reached(received, es1).table, c.mac).Some?
                   && At(Reached(received, es1), i, Starting)
                   && Possible(LookupStep(Reached(received, es1), i), es2)
                   && Find(Reached(LookupStep(Reached(received, es1), i), es2).table, c.mac).Some?)
    ensures var c, asked := s.slots[i], Reached(ReceiveStep(s, i, Intact(START_APP, s.slots[i].mac, x, y)), es1);
            && At(asked, i, Starting)
            && var looked := LookupStep(asked, i);
               if s.sessions[i].checked then At(looked, i, Listening) && looked.slots[i] == c.(x := x, y := y)
               else
                 var s' := Reached(looked, es2);
                 && At(s', i, Resuming) && Find(s'.table, c.mac).Some?
                 && var lag := s'.now - c.start - Find(s'.table, c.mac).value.timeUsed;
                    && ResumeStep(s', i).slots[i].start == c.start + lag
                    && (ResumeStep(s', i).slots[i].start == c.start <==> lag == 0)
  {
    hide Find, LookupPrice, CityOf, Step, Enabled, Possible, Reached;
    var received := ReceiveStep(s, i, Intact(START_APP, s.slots[i].mac, x, y));
    RunSpares(received, es1, i);
    if !s.sessions[i].checked {
      RunSpares(LookupStep(Reached(received, es1), i), es2, i);
    }
  }

  // ----- Status 255 -----

  /** An intact frame with status 255 is stored, but none after it: whatever frames arrive, the session
      goes on listening with the record that frame left. */
  lemma StatusOf255Deafens(s: State, i: nat, mac: string, x: bv8, y: bv8, es: seq<Event>)
    requires At(s, i, Listening) && s.sessions[i].status != 255
    requires Possible(ReceiveStep(s, i, Intact(255, mac, x, y)), es)
    requires forall e :: e in es ==> Spares(e, i) || (e.Receive? && e.msg.Intact?)
    ensures var s' := Reached(ReceiveStep(s, i, Intact(255, mac, x, y)), es);
            At(s', i, Listening) && s'.slots[i] == s.slots[i].(mac := mac, x := x, y := y)
  {
    hide Possible, Reached;
    StaysDeaf(ReceiveStep(s, i, Intact(255, mac, x, y)), i, es);
  }

  lemma {:induction false} StaysDeaf(s: State, i: nat, es: seq<Event>)
    requires At(s, i, Listening) && Deaf(s, i) && Possible(s, es)
    requires forall e :: e in es ==> Spares(e, i) || (e.Receive? && e.msg.Intact?)
    ensures var s' := Reached(s, es); At(s', i, Listening) && s'.slots[i] == s.slots[i]
    decreases |es|
  {
    hide Find, Update, Delete, Insert, BackupPass, Elapsed, BackupDue, CityOf, LookupPrice, Amount;
    if es != [] {
      if Spares(es[0], i) {
        StepSpares(s, es[0], i);
      }
      StaysDeaf(Step(s, es[0]), i, es[1..]);
    }
  }

  // ----- Waiting for the lock -----

  /** A run over which only session `o` and the updater work on the row of the address, while session
      j, which has yet to send its first START or waits since then, comes to the lock. */
  ghost predicate ComesToTheLock(s: State, es: seq<Event>, o: nat, j: nat, mac: string) {
    && Possible(s, es) && Undisturbed(s, es, o, mac) && (forall e :: e in es ==> FirstStart(e, j, mac))
    && j < |s.slots| == |s.sessions| && Untouched(s.slots[j], s.sessions[j], mac)
    && At(Reached(s, es), j, Resuming)
  }

  /** What such a session then starts from. `used` is what its row holds; without a row it starts at
      zero, at no city, and leaves none. */
  ghost predicate StartsFrom(s': State, j: nat, mac: string, fate: Fate, location: City)
    requires At(s', j, Resuming)
  {
    var back := ResumeStep(s', j);
    && At(back, j, Listening) && back.slots[j].connected && back.slots[j].mac == mac && back.now == s'.now
    && match fate
       case Stored(used) =>
         && s'.now - back.slots[j].start == used && back.slots[j].location == location
         && back.slots[j].price == PriceOf(s'.prices, location)
         && Find(back.table, mac) == Some(Row(mac, used, location))
       case Deleted =>
         && s'.now == back.slots[j].start && back.slots[j].location == Unset
         && back.slots[j].price == PriceOf(s'.prices, Unset)
         && Find(back.table, mac).None?
  }

  lemma StartMeans(s': State, j: nat, mac: string, fate: Fate, location: City)
    requires At(s', j, Resuming) && StartsFrom(s', j, mac, fate, location)
    ensures j < |ResumeStep(s', j).slots|
    ensures Find(ResumeStep(s', j).table, mac).Some? <==> fate.Stored?
    ensures s'.now - ResumeStep(s', j).slots[j].start == if fate.Stored? then fate.used else 0
  {
    hide Find, ResumeStep, PriceOf;
  }

  lemma FirstLock(s: State, es: seq<Event>, o: nat, j: nat, mac: string, fate: Fate, location: City)
    requires Calm(s, o, mac) && Holds(s.table, mac, fate, location) && ComesToTheLock(s, es, o, j, mac)
    ensures StartsFrom(Reached(s, es), j, mac, FateAfter(s, es, o, mac, fate), location)
  {
    hide Find, Possible, Reached, Undisturbed, Calm, FateAfter, FirstStart, Holds;
    FreshAtTheLock(s, es, j, mac);
    ResumeAtTheLock(s, es, o, j, mac, fate, location);
  }

  /** In a good state a session with a row, running or being settled, is the only one to work on it. */
  lemma GoodIsCalm(prompt: bool, w: World, o: nat)
    requires Good(prompt, w) && o < |w.s.slots| == |w.s.sessions|
    requires Running(w.s.slots[o], w.s.sessions[o]) || w.s.sessions[o].phase in {Paying, Removing}
    ensures Calm(w.s, o, w.s.slots[o].mac)
    ensures var row := Find(w.s.table, w.s.slots[o].mac);
            row.Some? && Holds(w.s.table, w.s.slots[o].mac, Stored(row.value.timeUsed), row.value.location)
  {
    hide Find, Good;
    SlotFacts(prompt, w, o);
    SoleOwner(prompt, w, o);
    forall k | 0 <= k < |w.s.slots| ensures CalmAt(w.s, k, o, w.s.slots[o].mac) {
      SlotFacts(prompt, w, k);
    }
  }

  /** A session that does not have the address cannot work on its row. */
  lemma {:induction false} UnownedFate(s: State, es: seq<Event>, o: nat, mac: string, fate: Fate)
    requires Possible(s, es) && Undisturbed(s, es, o, mac) && o < |s.slots| == |s.sessions|
    requires s.slots[o].mac != mac && forall e :: e in es ==> !TakesBack(e, o, mac)
    ensures FateAfter(s, es, o, mac, fate) == fate
    decreases |es|
  {
    hide Disturbs, Enabled, Step;
    if es != [] {
      var e := es[0];
      StepKeepsLength(s, e);
      AddressKept(s, e, o, mac);
      UnownedFate(Step(s, e), es[1..], o, mac, fate);
    }
  }

  predicate TakesBack(e: Event, o: nat, mac: string) {
    e.Receive? && e.i == o && e.msg.Intact? && e.msg.mac == mac
  }

  lemma AddressKept(s: State, e: Event, o: nat, mac: string)
    requires Enabled(s, e) && o < |s.slots| == |s.sessions|
    requires s.slots[o].mac != mac && !TakesBack(e, o, mac) && !Disturbs(s, e, o, mac)
    ensures o < |Step(s, e).slots| && Step(s, e).slots[o].mac != mac
  {
    if Spares(e, o) {
      hide Step, Enabled;
      StepSpares(s, e, o);
    } else {
      hide Find, Update, Delete, Insert, CityOf, LookupPrice, Amount;
    }
  }

  // ----- A corrupted frame after START -----

  /** A finished session has no more steps: its record keeps whatever it held until the process ends. */
  lemma {:induction false} GoneForGood(s: State, es: seq<Event>, i: nat)
    requires |s.slots| == |s.sessions| && i < |s.slots| && s.sessions[i].phase == Gone
    requires Possible(s, es) && (forall e :: e in es ==> !e.Crash?)
    ensures Sparing(es, i)
    decreases |es|
  {
    hide Step;
    if es != [] {
      assert Spares(es[0], i);
      StepSpares(s, es[0], i);
      GoneForGood(Step(s, es[0]), es[1..], i);
      assert forall e :: e in es ==> e == es[0] || e in es[1..];
    }
  }

  lemma CorruptExit(s: State, i: nat)
    requires At(s, i, Listening)
    ensures var lost := ReceiveStep(s, i, Corrupt);
            && lost.slots == s.slots && |lost.sessions| == |s.sessions| && lost.sessions[i].phase == Gone
            && lost.now == s.now
  {
  }

  /** A corrupted frame ends a running session for good but leaves its record connected: whatever
      happens until the process ends, every backup that finds no other connected session of the
      address writes the time since the old start into its row, over anything a later session had
      left there. */
  lemma CorruptExitKeepsCounting(s: State, i: nat, es: seq<Event>, finalFlush: bool, delays: seq<nat>)
    requires At(s, i, Listening) && s.slots[i].connected
    requires Possible(ReceiveStep(s, i, Corrupt), es) && (forall e :: e in es ==> !e.Crash?)
    requires var s' := Reached(ReceiveStep(s, i, Corrupt), es);
             && Enabled(s', Backup(finalFlush, delays)) && BackupDue(s', finalFlush)
             && Find(s'.table, s.slots[i].mac).Some?
             && forall j :: 0 <= j < |s'.slots| && j != i && s'.slots[j].connected ==> s'.slots[j].mac != s.slots[i].mac
    ensures var s' := Reached(ReceiveStep(s, i, Corrupt), es);
            && i < |delays|
            && var row := Find(BackupStep(s', finalFlush, delays).table, s.slots[i].mac);
               row.Some? && row.value.timeUsed == s'.now + Elapsed(delays, i + 1) - s.slots[i].start
  {
    hide Find, Elapsed, BackupPass, Step, BackupDue, ReceiveStep, Possible, Reached;
    CorruptExit(s, i);
    var lost := ReceiveStep(s, i, Corrupt);
    GoneForGood(lost, es, i);
    RunSpares(lost, es, i);
    var s' := Reached(lost, es);
    PassWritesSole(s'.table, s'.slots, s'.now, delays, |delays|, i);
  }

  /** The clock that the updater last read for record i on a run, if it passed it at all. */
  ghost function LastSave(s: State, es: seq<Event>, i: nat, before: Option<int>): (saved: Option<int>)
    requires Possible(s, es) && i < |s.slots| == |s.sessions|
    ensures before.Some? ==> saved.Some?
    decreases |es|
  {
    if es == [] then before
    else
      StepKeepsLength(s, es[0]);
      LastSave(Step(s, es[0]), es[1..], i,
               if es[0].Backup? && BackupDue(s, es[0].finalFlush) then Some(s.now + Elapsed(es[0].delays, i + 1))
               else before)
  }

  /** Nobody but the updater writes the row of an orphaned record. */
  lemma {:induction false} OrphanFate(s: State, es: seq<Event>, i: nat, fate: Fate, before: Option<int>)
    requires Possible(s, es) && i < |s.slots| == |s.sessions|
    requires s.sessions[i].phase == Gone && s.slots[i].connected && forall e :: e in es ==> !e.Crash?
    requires fate.Stored? && (before.Some? ==> fate.used == before.value - s.slots[i].start)
    ensures FateAfter(s, es, i, s.slots[i].mac, fate) ==
            match LastSave(s, es, i, before)
            case None => fate
            case Some(at) => Stored(at - s.slots[i].start)
    decreases |es|
  {
    hide Step, Elapsed, BackupDue;
    if es != [] {
      var e := es[0];
      StepKeepsLength(s, e);
      assert Spares(e, i);
      StepSpares(s, e, i);
      if e.Backup? && BackupDue(s, e.finalFlush) {
        var at := s.now + Elapsed(e.delays, i + 1);
        OrphanFate(Step(s, e), es[1..], i, Stored(at - s.slots[i].start), Some(at));
      } else {
        OrphanFate(Step(s, e), es[1..], i, fate, before);
      }
    }
  }

  /** After a corrupted exit the client comes back on any session j, over any run without a crash in
      which no other session gets at its row. It resumes at the time the updater last saved, or at the
      stale row: that is the time it had been parked when it was cut off if and only if the last save
      was in that very second or, without a save, the row was current. */
  lemma CorruptExitResumes(prompt: bool, w: World, i: nat, es: seq<Event>, j: nat)
    requires Good(prompt, w) && At(w.s, i, Listening) && w.s.slots[i].connected
    requires ComesToTheLock(ReceiveStep(w.s, i, Corrupt), es, i, j, w.s.slots[i].mac)
    requires forall e :: e in es ==> !e.Crash?
    ensures var c, cut := w.s.slots[i], ReceiveStep(w.s, i, Corrupt);
            var s', row := Reached(cut, es), Find(w.s.table, w.s.slots[i].mac);
            && row.Some? && At(ResumeStep(s', j), j, Listening) && i < |cut.slots| == |cut.sessions|
            && var resumed := s'.now - ResumeStep(s', j).slots[j].start;
               resumed == w.s.now - c.start <==>
                 match LastSave(cut, es, i, None)
                 case None => row.value.timeUsed == w.s.now - c.start
                 case Some(at) => at == w.s.now
  {
    hide Find, Possible, Reached, Undisturbed, LastSave, FateAfter, Good, ResumeStep, Calm, ReceiveStep, Untouched,
         ComesToTheLock;
    SlotFacts(prompt, w, i);
    GoodIsCalm(prompt, w, i);
    var c, cut := w.s.slots[i], ReceiveStep(w.s, i, Corrupt);
    var row := Find(w.s.table, c.mac).value;
    CorruptExit(w.s, i);
    CalmAfterCut(w.s, i, c.mac);
    PossibleToTheLock(cut, es, i, j, c.mac);
    OrphanFate(cut, es, i, Stored(row.timeUsed), None);
    FirstLock(cut, es, i, j, c.mac, Stored(row.timeUsed), row.location);
  }

  lemma PossibleToTheLock(s: State, es: seq<Event>, o: nat, j: nat, mac: string)
    requires ComesToTheLock(s, es, o, j, mac)
    ensures Possible(s, es) && Undisturbed(s, es, o, mac) && At(Reached(s, es), j, Resuming)
  {
  }

  lemma CalmAfterCut(s: State, i: nat, mac: string)
    requires At(s, i, Listening) && Calm(s, i, mac)
    ensures Calm(ReceiveStep(s, i, Corrupt), i, mac)
    ensures ReceiveStep(s, i, Corrupt).table == s.table && ReceiveStep(s, i, Corrupt).prices == s.prices
  {
    StaysCalm(s, Receive(i, Corrupt), i, mac);
  }

  // ----- What any CLOSE does -----

  /** A CLOSE on session i, with anything of others before the lock (`es1`), before the payment (`es2`)
      and before the deletion (`es3`). */
  ghost predicate ClosesThrough(s: State, i: nat, mac: string, x: bv8, y: bv8,
                                es1: seq<Event>, es2: seq<Event>, es3: seq<Event>) {
    && At(s, i, Listening) && Sparing(es1, i) && Sparing(es2, i) && Sparing(es3, i)
    && Possible(ReceiveStep(s, i, Intact(CLOSE_APP, mac, x, y)), es1)
    && var s1 := Reached(ReceiveStep(s, i, Intact(CLOSE_APP, mac, x, y)), es1);
       && At(s1, i, Closing) && Possible(CloseStep(s1, i), es2)
       && var s2 := Reached(CloseStep(s1, i), es2);
          At(s2, i, Paying) && Possible(PayStep(s2, i), es3) && At(Reached(PayStep(s2, i), es3), i, Removing)
  }

  /** The server when the lock is taken, when the payment is sent, and when the row is deleted. */
  ghost function AtClose(s: State, i: nat, mac: string, x: bv8, y: bv8, es1: seq<Event>): State
    requires At(s, i, Listening) && Possible(ReceiveStep(s, i, Intact(CLOSE_APP, mac, x, y)), es1)
  {
    Reached(ReceiveStep(s, i, Intact(CLOSE_APP, mac, x, y)), es1)
  }

  ghost function AtPayment(s: State, i: nat, mac: string, x: bv8, y: bv8,
                           es1: seq<Event>, es2: seq<Event>): State
    requires At(s, i, Listening) && Possible(ReceiveStep(s, i, Intact(CLOSE_APP, mac, x, y)), es1)
    requires At(AtClose(s, i, mac, x, y, es1), i, Closing)
    requires Possible(CloseStep(AtClose(s, i, mac, x, y, es1), i), es2)
  {
    Reached(CloseStep(AtClose(s, i, mac, x, y, es1), i), es2)
  }

  ghost function AtRemoval(s: State, i: nat, mac: string, x: bv8, y: bv8,
                           es1: seq<Event>, es2: seq<Event>, es3: seq<Event>): State
    requires ClosesThrough(s, i, mac, x, y, es1, es2, es3)
  {
    Reached(PayStep(AtPayment(s, i, mac, x, y, es1, es2), i), es3)
  }

  /** Every session bills, in the name of the address of its CLOSE frame, its own price and the time
      from its own start to the lock, whatever the row holds and others do; then no row is left. */
  lemma CloseBills(s: State, i: nat, mac: string, x: bv8, y: bv8,
                   es1: seq<Event>, es2: seq<Event>, es3: seq<Event>)
    requires |s.slots| == |s.sessions| && !Deaf(s, i) && ClosesThrough(s, i, mac, x, y, es1, es2, es3)
    ensures var c, s1 := s.slots[i], AtClose(s, i, mac, x, y, es1);
            var s2, s3 := AtPayment(s, i, mac, x, y, es1, es2), AtRemoval(s, i, mac, x, y, es1, es2, es3);
            var seconds := s1.now - c.start;
            && At(s2, i, Paying) && At(s3, i, Removing) && s.now <= s1.now
            && PayStep(s2, i).sent == s2.sent + [Payment(mac, Amount(c.price, seconds), seconds)]
            && Count(RemoveStep(s3, i).table, mac) == 0
  {
    hide Find, Update, Delete, Count, Step, Enabled, Possible, Reached, Amount;
    var s0 := ReceiveStep(s, i, Intact(CLOSE_APP, mac, x, y));
    RunSpares(s0, es1, i);
    var s1 := Reached(s0, es1);
    RunSpares(CloseStep(s1, i), es2, i);
    var s2 := Reached(CloseStep(s1, i), es2);
    RunSpares(PayStep(s2, i), es3, i);
    AfterDelete(Reached(PayStep(s2, i), es3).table, mac, mac);
  }

  lemma NothingToPay(price: real, seconds: int)
    ensures Amount(price, seconds) == 0.0 <==> price == 0.0 || seconds == 0
  {
  }

  // ----- A foreign address on a running connection -----

  lemma ForeignIsCalm(prompt: bool, w: World, i: nat, msg: Message)
    requires Good(prompt, w) && At(w.s, i, Listening) && w.s.slots[i].connected && !Deaf(w.s, i)
    requires msg.Intact? && msg.mac != w.s.slots[i].mac && msg.mac != ""
    ensures var mac, s' := w.s.slots[i].mac, ReceiveStep(w.s, i, msg);
            && Calm(s', i, mac) && i < |s'.slots| == |s'.sessions| && s'.slots[i].mac == msg.mac
            && s'.table == w.s.table && s'.now == w.s.now
            && Find(w.s.table, mac).Some?
            && Find(w.s.table, mac).value.timeUsed <= w.s.now - w.s.slots[i].start
            && Holds(s'.table, mac, Stored(Find(w.s.table, mac).value.timeUsed), Find(w.s.table, mac).value.location)
  {
    hide Find, Good;
    SlotFacts(prompt, w, i);
    GoodIsCalm(prompt, w, i);
    StaysCalm(w.s, Receive(i, msg), i, w.s.slots[i].mac);
  }

  /** Once a frame of another address arrives on a running connection, the row of the old address is
      on its own: whatever happens, as long as no other session gets at it and the process lives, no
      backup and no write brings it up to date. */
  lemma ForeignFrameAbandonsRow(prompt: bool, w: World, i: nat, msg: Message, es: seq<Event>)
    requires Good(prompt, w) && At(w.s, i, Listening) && w.s.slots[i].connected && !Deaf(w.s, i)
    requires msg.Intact? && msg.mac != w.s.slots[i].mac && msg.mac != ""
    requires var mac, s0 := w.s.slots[i].mac, ReceiveStep(w.s, i, msg);
             Possible(s0, es) && Undisturbed(s0, es, i, mac) && forall e :: e in es ==> !TakesBack(e, i, mac)
    ensures Find(Reached(ReceiveStep(w.s, i, msg), es).table, w.s.slots[i].mac) == Find(w.s.table, w.s.slots[i].mac)
  {
    hide Find, Possible, Reached, Undisturbed, FateAfter, Good, Calm, ReceiveStep, Step;
    var mac, s0 := w.s.slots[i].mac, ReceiveStep(w.s, i, msg);
    ForeignIsCalm(prompt, w, i, msg);
    var row := Find(w.s.table, mac).value;
    CalmLength(s0, i, mac);
    RunHolds(s0, es, i, mac, Stored(row.timeUsed), row.location);
    UnownedFate(s0, es, i, mac, Stored(row.timeUsed));
  }

  lemma CalmLength(s: State, o: nat, mac: string)
    requires Calm(s, o, mac)
    ensures |s.slots| == |s.sessions|
  {
  }

  /** When the client of the old address comes back, over any such run, it resumes at what was stored
      before the frame: that is its time at the frame if and only if the row was then current. */
  lemma AbandonedClientResumesStale(prompt: bool, w: World, i: nat, msg: Message, es: seq<Event>, j: nat)
    requires Good(prompt, w) && At(w.s, i, Listening) && w.s.slots[i].connected && !Deaf(w.s, i)
    requires msg.Intact? && msg.mac != w.s.slots[i].mac && msg.mac != ""
    requires ComesToTheLock(ReceiveStep(w.s, i, msg), es, i, j, w.s.slots[i].mac)
    requires forall e :: e in es ==> !TakesBack(e, i, w.s.slots[i].mac)
    ensures var c, s' := w.s.slots[i], Reached(ReceiveStep(w.s, i, msg), es);
            && Find(w.s.table, c.mac).Some? && At(ResumeStep(s', j), j, Listening)
            && var resumed := s'.now - ResumeStep(s', j).slots[j].start;
               && resumed == Find(w.s.table, c.mac).value.timeUsed
               && (resumed == w.s.now - c.start <==> Find(w.s.table, c.mac).value.timeUsed == w.s.now - c.start)
  {
    hide Find, Possible, Reached, Undisturbed, FateAfter, Good, Calm, ReceiveStep, ResumeStep, ComesToTheLock;
    var mac, s0 := w.s.slots[i].mac, ReceiveStep(w.s, i, msg);
    ForeignIsCalm(prompt, w, i, msg);
    var row := Find(w.s.table, mac).value;
    CalmLength(s0, i, mac);
    PossibleToTheLock(s0, es, i, j, mac);
    UnownedFate(s0, es, i, mac, Stored(row.timeUsed));
    FirstLock(s0, es, i, j, mac, Stored(row.timeUsed), row.location);
  }

  /** The address that came in is charged with the parking of the other: a backup that finds no other
      connected session of it writes the time since the other's start into its row. */
  lemma ForeignFrameOverwritesRow(s: State, i: nat, msg: Message, finalFlush: bool, delays: seq<nat>)
    requires At(s, i, Listening) && s.slots[i].connected && !Deaf(s, i) && msg.Intact?
    requires |delays| == |s.slots| && BackupDue(s, finalFlush) && Find(s.table, msg.mac).Some?
    requires forall j :: 0 <= j < |s.slots| && j != i && s.slots[j].connected ==> s.slots[j].mac != msg.mac
    ensures var s' := ReceiveStep(s, i, msg);
            && |delays| == |s'.slots|
            && var row := Find(BackupStep(s', finalFlush, delays).table, msg.mac);
               && row.Some?
               && row.value.timeUsed == s.now + Elapsed(delays, i + 1) - s.slots[i].start
  {
    hide Find, BackupPass, Elapsed;
    var s' := ReceiveStep(s, i, msg);
    PassWritesSole(s'.table, s'.slots, s'.now, delays, |delays|, i);
  }

  /** A CLOSE of another address on a running session, through any interleaving: the parking of this
      session is billed in the foreign name, and the foreign row is deleted with all it held. The
      foreign client pays nothing for it if and only if the session's price or its time is nothing;
      what becomes of the session's own row, `ForeignFrameAbandonsRow` says. */
  lemma ForeignCloseBillsAnother(prompt: bool, w: World, i: nat, mac: string, x: bv8, y: bv8,
                                 es1: seq<Event>, es2: seq<Event>, es3: seq<Event>)
    requires Good(prompt, w) && At(w.s, i, Listening) && w.s.slots[i].connected && !Deaf(w.s, i)
    requires mac != w.s.slots[i].mac && ClosesThrough(w.s, i, mac, x, y, es1, es2, es3)
    ensures var c, s1 := w.s.slots[i], AtClose(w.s, i, mac, x, y, es1);
            var s2, s3 := AtPayment(w.s, i, mac, x, y, es1, es2), AtRemoval(w.s, i, mac, x, y, es1, es2, es3);
            var price, seconds := PriceOf(w.s.prices, c.location), s1.now - c.start;
            && PayStep(s2, i).sent == s2.sent + [Payment(mac, Amount(price, seconds), seconds)]
            && (Amount(price, seconds) == 0.0 <==> price == 0.0 || seconds == 0)
            && Count(RemoveStep(s3, i).table, mac) == 0
  {
    hide Find, Good, Amount, PriceOf, Count, PayStep, RemoveStep, AtClose, AtPayment, AtRemoval, Possible, Reached;
    SlotFacts(prompt, w, i);
    CloseBills(w.s, i, mac, x, y, es1, es2, es3);
    NothingToPay(PriceOf(w.s.prices, w.s.slots[i].location),
                 AtClose(w.s, i, mac, x, y, es1).now - w.s.slots[i].start);
  }

  // ----- Frames before the START -----

  /** CLOSE on a connection without a START, through whatever others do between its steps: the time
      since the epoch is paid at price zero, and the address has no row left. Whatever it owed for
      earlier parking is gone; nothing is lost if and only if that was worth nothing. */
  lemma CloseWithoutStartIsFree(prompt: bool, w: World, j: nat, mac: string, x: bv8, y: bv8,
                                es1: seq<Event>, es2: seq<Event>, es3: seq<Event>)
    requires Good(prompt, w) && At(w.s, j, Listening) && !Deaf(w.s, j) && w.s.slots[j].mac == "" && mac != ""
    requires ClosesThrough(w.s, j, mac, x, y, es1, es2, es3)
    ensures var s1, row := AtClose(w.s, j, mac, x, y, es1), Find(w.s.table, mac);
            var s2, s3 := AtPayment(w.s, j, mac, x, y, es1, es2), AtRemoval(w.s, j, mac, x, y, es1, es2, es3);
            && PayStep(s2, j).sent == s2.sent + [Payment(mac, 0.0, s1.now)]
            && Count(RemoveStep(s3, j).table, mac) == 0
            && (row.Some? ==>
                  var price := PriceOf(w.s.prices, row.value.location);
                  (PayStep(s2, j).sent[|s2.sent|].amount == Amount(price, row.value.timeUsed) <==>
                     price == 0.0 || row.value.timeUsed == 0))
  {
    hide Find, Good, Amount, PriceOf, Count, PayStep, RemoveStep, AtClose, AtPayment, AtRemoval, Possible, Reached;
    SlotFacts(prompt, w, j);
    CloseBills(w.s, j, mac, x, y, es1, es2, es3);
    NothingToPay(0.0, AtClose(w.s, j, mac, x, y, es1).now);
    if row :| Find(w.s.table, mac) == Some(row) {
      NothingToPay(PriceOf(w.s.prices, row.location), row.timeUsed);
    }
  }

  /** Any other frame before the START leaves an address in a record whose start time is still zero.
      When that connection is lost, the whole clock is written into the row of the address, which is
      unharmed if and only if it held just that. */
  lemma LostBeforeStart(prompt: bool, w: World, j: nat, status: bv8, mac: string, x: bv8, y: bv8,
                        es1: seq<Event>, es2: seq<Event>)
    requires Good(prompt, w) && At(w.s, j, Listening) && !Deaf(w.s, j) && w.s.slots[j].mac == ""
    requires status != START_APP && status != CLOSE_APP && Sparing(es1, j) && Sparing(es2, j)
    requires Possible(ReceiveStep(w.s, j, Intact(status, mac, x, y)), es1)
    requires var s1 := Reached(ReceiveStep(w.s, j, Intact(status, mac, x, y)), es1);
             && At(s1, j, Listening) && Possible(LoseStep(s1, j), es2)
             && Find(Reached(LoseStep(s1, j), es2).table, mac).Some?
    ensures var s1 := Reached(ReceiveStep(w.s, j, Intact(status, mac, x, y)), es1);
            var s2 := Reached(LoseStep(s1, j), es2);
            && At(s2, j, Dropping)
            && var row, row' := Find(s2.table, mac), Find(FinalWriteStep(s2, j).table, mac);
               && row.Some? && row'.Some? && row'.value.timeUsed == s2.now
               && (row' == row <==> row.value.timeUsed == s2.now)
  {
    hide Find, Update, Step, Enabled, Possible, Reached, Good;
    SlotFacts(prompt, w, j);
    var s0 := ReceiveStep(w.s, j, Intact(status, mac, x, y));
    RunSpares(s0, es1, j);
    var s1 := Reached(s0, es1);
    RunSpares(LoseStep(s1, j), es2, j);
    var s2 := Reached(LoseStep(s1, j), es2);
    AfterUpdate(s2.table, mac, s2.now - s2.slots[j].start, mac);
  }

  // ----- A second session of one address -----

  /** A session at its lock, while another is the only one to work on the row: it takes over what the
      row then holds. Both count from the same moment if and only if the row is current at the lock. If
      the row is gone by then, it starts at zero, at no city, without a row. */
  lemma ShareTheRow(s: State, o: nat, es: seq<Event>, j: nat, mac: string, used: int, location: City)
    requires Calm(s, o, mac) && o < |s.slots| && Holds(s.table, mac, Stored(used), location)
    requires ComesToTheLock(s, es, o, j, mac)
    ensures var s', fate := Reached(s, es), FateAfter(s, es, o, mac, Stored(used));
            && StartsFrom(s', j, mac, fate, location) && o < |s'.slots|
            && (fate.Stored? ==>
                  (ResumeStep(s', j).slots[j].start == s'.slots[o].start <==> fate.used == s'.now - s'.slots[o].start))
  {
    hide Find, Possible, Reached, Undisturbed, FateAfter, Calm, ResumeStep, ComesToTheLock, Holds, Step;
    PossibleToTheLock(s, es, o, j, mac);
    CalmLength(s, o, mac);
    ReachedLength(s, es);
    FirstLock(s, es, o, j, mac, Stored(used), location);
  }

  lemma {:induction false} ReachedLength(s: State, es: seq<Event>)
    requires Possible(s, es) && |s.slots| == |s.sessions|
    ensures |Reached(s, es).slots| == |Reached(s, es).sessions| == |s.slots|
    decreases |es|
  {
    hide Step, Enabled;
    if es != [] {
      StepKeepsLength(s, es[0]);
      ReachedLength(Step(s, es[0]), es[1..]);
    }
  }

  /** A second session of an address that is running, over any run in which no third one gets at the
      row. */
  lemma SecondSessionAtTheLock(prompt: bool, w: World, o: nat, es: seq<Event>, j: nat)
    requires Good(prompt, w) && o < |w.s.slots| == |w.s.sessions| && Running(w.s.slots[o], w.s.sessions[o])
    requires ComesToTheLock(w.s, es, o, j, w.s.slots[o].mac)
    ensures var mac, s' := w.s.slots[o].mac, Reached(w.s, es);
            var row := Find(w.s.table, mac);
            && row.Some? && o < |s'.slots|
            && var fate := FateAfter(w.s, es, o, mac, Stored(row.value.timeUsed));
               && StartsFrom(s', j, mac, fate, row.value.location)
               && (fate.Stored? ==>
                     (ResumeStep(s', j).slots[j].start == s'.slots[o].start <==>
                        fate.used == s'.now - s'.slots[o].start))
  {
    hide Find, Possible, Reached, Undisturbed, FateAfter, Good, Calm, ResumeStep, ComesToTheLock, Holds, Step;
    GoodIsCalm(prompt, w, o);
    var row := Find(w.s.table, w.s.slots[o].mac).value;
    ShareTheRow(w.s, o, es, j, w.s.slots[o].mac, row.timeUsed, row.location);
  }

  /** A session waits for an address, and others come to wait for it too. Until one of them gets its
      lock nothing touches the row. The first to get it, whether it was there from the beginning or came
      later, resumes what the row held from the beginning, or, if and only if there was no row, inserts
      one. From then on it is the only one to work on the row, and what another finds at its own lock,
      `ShareTheRow` says. */
  lemma FirstOfTwoAtTheLock(prompt: bool, w: World, o: nat, es: seq<Event>, f: nat, e: Event)
    requires Good(prompt, w) && o < |w.s.slots| == |w.s.sessions| && Waiting(w.s.sessions[o])
    requires Possible(w.s, es) && Undisturbed(w.s, es, |w.s.slots|, w.s.slots[o].mac)
    requires || f == o
             || (f < |w.s.slots| && NewHere(w.s, f) && forall g :: g in es ==> FirstStart(g, f, w.s.slots[o].mac))
    requires Enabled(Reached(w.s, es), e) && (e == Resume(f) || e == InsertRow(f))
    ensures var mac, row, s' := w.s.slots[o].mac, Find(w.s.table, w.s.slots[o].mac), Step(Reached(w.s, es), e);
            && Calm(s', f, mac) && f < |s'.slots| && s'.slots[f].mac == mac && (e.Resume? <==> row.Some?)
            && (if row.Some? then
                  && Holds(s'.table, mac, Stored(row.value.timeUsed), row.value.location)
                  && s'.now - s'.slots[f].start == row.value.timeUsed
                else Holds(s'.table, mac, Stored(0), s'.slots[f].location))
  {
    hide Find, Possible, Reached, Undisturbed, FateAfter, Good, Calm, LookupPrice, Insert, FirstStart;
    var mac, n, row := w.s.slots[o].mac, |w.s.slots|, Find(w.s.table, w.s.slots[o].mac);
    WaitingIsCalm(prompt, w, o);
    var fate := if row.Some? then Stored(row.value.timeUsed) else Deleted;
    var location := if row.Some? then row.value.location else Unset;
    RunHolds(w.s, es, n, mac, fate, location);
    NobodysFate(w.s, es, n, mac, fate);
    ReachedLength(w.s, es);
    WaitsAsFound(w.s, es, f, mac, fate, location);
    PastTheLock(Reached(w.s, es), n, f, mac, e);
    var c := Reached(w.s, es).slots[f];
    AfterInsert(Reached(w.s, es).table, Row(mac, 0, c.location), mac);
  }

  /** A session at the beginning of its connection, or before it. */
  predicate NewHere(s: State, k: nat)
    requires k < |s.slots|
  {
    && k < |s.sessions| && s.slots[k] == EMPTY_SLOT
    && s.sessions[k].phase in {Unused, Listening} && !s.sessions[k].checked
  }

  /** A waiting session that has looked its row up knows for good whether there is one. */
  predicate KnowsRow(s: State, o: nat, mac: string, found: bool) {
    && o < |s.slots| == |s.sessions| && s.slots[o].mac == mac && Waiting(s.sessions[o])
    && (s.sessions[o].phase == Resuming ==> found) && (s.sessions[o].phase == Inserting ==> !found)
  }

  lemma {:induction false} WaitsAsFound(s: State, es: seq<Event>, f: nat, mac: string, fate: Fate, location: City)
    requires Calm(s, |s.slots|, mac) && Possible(s, es) && Undisturbed(s, es, |s.slots|, mac) && f < |s.slots|
    requires Holds(s.table, mac, fate, location)
    requires || KnowsRow(s, f, mac, fate.Stored?)
             || (NewHere(s, f) && forall e :: e in es ==> FirstStart(e, f, mac))
    ensures var s' := Reached(s, es);
            f < |s'.slots| && (KnowsRow(s', f, mac, fate.Stored?) || NewHere(s', f))
    decreases |es|
  {
    hide Step, Enabled, Disturbs, Next, Holds, KnowsRow, NewHere, Calm, FirstStart;
    if es != [] {
      var e, n := es[0], |s.slots|;
      CalmLength(s, n, mac);
      StepKeepsLength(s, e);
      StaysCalm(s, e, n, mac);
      StepHolds(s, e, n, mac, fate, location);
      NobodysNext(s, e, n, mac, fate);
      if KnowsRow(s, f, mac, fate.Stored?) {
        OneMoreLookup(s, e, f, mac, fate, location);
      } else {
        FirstRequest(s, e, f, mac, fate);
      }
      WaitsAsFound(Step(s, e), es[1..], f, mac, fate, location);
    }
  }

  lemma FirstRequest(s: State, e: Event, f: nat, mac: string, fate: Fate)
    requires Enabled(s, e) && FirstStart(e, f, mac) && f < |s.slots| == |s.sessions| && NewHere(s, f)
    requires !Disturbs(s, e, |s.slots|, mac)
    ensures f < |Step(s, e).slots| && (KnowsRow(Step(s, e), f, mac, fate.Stored?) || NewHere(Step(s, e), f))
  {
    hide Find, CityOf;
    if Spares(e, f) {
      hide Step, Enabled;
      StepSpares(s, e, f);
    }
  }

  lemma NobodysNext(s: State, e: Event, o: nat, mac: string, fate: Fate)
    requires Enabled(s, e) && |s.slots| <= o
    ensures Next(s, e, o, mac, fate) == fate
  {
  }

  lemma OneMoreLookup(s: State, e: Event, o: nat, mac: string, fate: Fate, location: City)
    requires Enabled(s, e) && !Disturbs(s, e, |s.slots|, mac) && Holds(s.table, mac, fate, location)
    requires KnowsRow(s, o, mac, fate.Stored?)
    ensures KnowsRow(Step(s, e), o, mac, fate.Stored?)
  {
    hide Find, CityOf;
    if Spares(e, o) {
      hide Step, Enabled;
      StepSpares(s, e, o);
    }
  }

  lemma {:induction false} NobodysFate(s: State, es: seq<Event>, o: nat, mac: string, fate: Fate)
    requires Possible(s, es) && |s.slots| == |s.sessions| <= o
    ensures FateAfter(s, es, o, mac, fate) == fate
    decreases |es|
  {
    hide Step, Enabled;
    if es != [] {
      StepKeepsLength(s, es[0]);
      NobodysFate(Step(s, es[0]), es[1..], o, mac, fate);
    }
  }

  lemma WaitingIsCalm(prompt: bool, w: World, o: nat)
    requires Good(prompt, w) && o < |w.s.slots| == |w.s.sessions| && Waiting(w.s.sessions[o])
    ensures var mac, row := w.s.slots[o].mac, Find(w.s.table, w.s.slots[o].mac);
            && Calm(w.s, |w.s.slots|, mac) && KnowsRow(w.s, o, mac, row.Some?)
            && Holds(w.s.table, mac, if row.Some? then Stored(row.value.timeUsed) else Deleted,
                     if row.Some? then row.value.location else Unset)
  {
    hide Find, Good;
    SlotFacts(prompt, w, o);
    SoleOwner(prompt, w, o);
    forall k | 0 <= k < |w.s.slots| ensures CalmAt(w.s, k, |w.s.slots|, w.s.slots[o].mac) {
      SlotFacts(prompt, w, k);
    }
  }

  lemma PastTheLock(s: State, n: nat, o: nat, mac: string, e: Event)
    requires Calm(s, n, mac) && n == |s.slots| && o < n && s.slots[o].mac == mac && !s.sessions[o].checked
    requires (e == Resume(o) || e == InsertRow(o)) && Enabled(s, e)
    ensures Calm(Step(s, e), o, mac) && |Step(s, e).slots| == n
  {
    hide Find, LookupPrice, Insert;
    var s' := Step(s, e);
    forall k | 0 <= k < |s'.slots| ensures CalmAt(s', k, o, mac) {
      assert CalmAt(s, k, n, mac);
    }
  }

  /** The row of a session that is being settled stays as it is until the session deletes it. */
  lemma {:induction false} SettledFate(s: State, es: seq<Event>, o: nat, mac: string, fate: Fate)
    requires Possible(s, es) && Undisturbed(s, es, o, mac) && o < |s.slots| == |s.sessions|
    requires s.slots[o].mac == mac && !s.slots[o].connected && s.sessions[o].phase in {Paying, Removing, Gone}
    ensures FateAfter(s, es, o, mac, fate) == if Remove(o) in es then Deleted else fate
    ensures var s' := Reached(s, es);
            && o < |s'.slots| == |s'.sessions| && !s'.slots[o].connected
            && (Remove(o) in es || s.sessions[o].phase == Gone ==> s'.sessions[o].phase == Gone)
    decreases |es|
  {
    hide Elapsed, BackupPass, Find, Update, Delete, Insert, CityOf, LookupPrice, Amount;
    if es != [] {
      var e := es[0];
      StepKeepsLength(s, e);
      if Spares(e, o) {
        StepSpares(s, e, o);
      }
      SettledFate(Step(s, e), es[1..], o, mac, Next(s, e, o, mac, fate));
      assert Remove(o) in es <==> e == Remove(o) || Remove(o) in es[1..];
    }
  }

  /** A START that finds the row of a settled parking, over any run in which no third session gets at
      it. If the row is still there at the lock, the seconds of the payment are counted once more:
      none of them if and only if the payment was for none. If the deletion was faster, the client
      parks from now on, for the price of no city and without a row, so that nothing of it is ever
      stored (`WithoutRowNothingIsStored`). */
  lemma PaidRowAtTheLock(prompt: bool, w: World, o: nat, es: seq<Event>, j: nat)
    requires Good(prompt, w) && (At(w.s, o, Paying) || At(w.s, o, Removing))
    requires ComesToTheLock(w.s, es, o, j, w.s.slots[o].mac)
    ensures var mac, s', paid := w.s.slots[o].mac, Reached(w.s, es), w.s.sessions[o].endTime - w.s.slots[o].start;
            && StartsFrom(s', j, mac, if Remove(o) in es then Deleted else Stored(paid), w.s.slots[o].location)
            && (s'.now == ResumeStep(s', j).slots[j].start <==> Remove(o) in es || paid == 0)
            && (Find(ResumeStep(s', j).table, mac).None? <==> Remove(o) in es)
            && (Remove(o) in es ==> Calm(ResumeStep(s', j), j, mac))
  {
    hide Find, Possible, Reached, Undisturbed, FateAfter, Good, Calm, ResumeStep, ComesToTheLock, Step, PriceOf,
         StartsFrom, TracksMac, Matches;
    SlotFacts(prompt, w, o);
    GoodIsCalm(prompt, w, o);
    var mac := w.s.slots[o].mac;
    var row := Find(w.s.table, mac).value;
    PossibleToTheLock(w.s, es, o, j, mac);
    SettledFate(w.s, es, o, mac, Stored(row.timeUsed));
    RunHolds(w.s, es, o, mac, Stored(row.timeUsed), row.location);
    FirstLock(w.s, es, o, j, mac, Stored(row.timeUsed), row.location);
    StartMeans(Reached(w.s, es), j, mac, if Remove(o) in es then Deleted else Stored(row.timeUsed), row.location);
    if Remove(o) in es {
      NewOwner(Reached(w.s, es), o, j, mac);
    }
  }

  /** Once the owner has finished, the session that passes its lock works on the row alone. */
  lemma NewOwner(s: State, o: nat, j: nat, mac: string)
    requires Calm(s, o, mac) && o < |s.slots| && s.sessions[o].phase == Gone && !s.slots[o].connected
    requires At(s, j, Resuming)
    ensures Calm(ResumeStep(s, j), j, mac)
  {
    hide Find, LookupPrice;
    var back := ResumeStep(s, j);
    forall k | 0 <= k < |back.slots| ensures CalmAt(back, k, j, mac) {
      assert CalmAt(s, k, o, mac);
    }
  }

  lemma CrashKeepsPaidRow(prompt: bool, w: World, o: nat, delays: seq<nat>, k: nat, i: nat)
    requires Good(prompt, w) && (At(w.s, o, Paying) || At(w.s, o, Removing)) && Enabled(w.s, Crash(delays, k))
    requires i < |w.s.slots|
    ensures var c, t, s0 := w.s.slots[o], w.s.sessions[o], CrashStep(w.s, delays, k);
            && Calm(s0, i, c.mac) && i < |s0.slots| == |s0.sessions| && s0.slots[i].mac != c.mac
            && Holds(s0.table, c.mac, Stored(t.endTime - c.start), c.location)
  {
    hide Find, Good, BackupPass, Elapsed, TracksSlot, TracksMac, FreshSlot, Matches, Unique, PriceOf;
    SlotFacts(prompt, w, o);
    GoodIsCalm(prompt, w, o);
    OnlyOwnerConnected(prompt, w, o);
    PassSkips(w.s.table, w.s.slots, w.s.now, delays, k, w.s.slots[o].mac);
  }

  /** A crash before the deletion leaves the row of the settled parking to whoever comes next, even a
      crash in the middle of a backup pass. */
  lemma PaidRowSurvivesCrash(prompt: bool, w: World, o: nat, delays: seq<nat>, k: nat,
                             es: seq<Event>, i: nat, j: nat)
    requires Good(prompt, w) && (At(w.s, o, Paying) || At(w.s, o, Removing)) && Enabled(w.s, Crash(delays, k))
    requires i < |w.s.slots| && ComesToTheLock(CrashStep(w.s, delays, k), es, i, j, w.s.slots[o].mac)
    requires forall e :: e in es ==> !TakesBack(e, i, w.s.slots[o].mac)
    ensures var mac, s' := w.s.slots[o].mac, Reached(CrashStep(w.s, delays, k), es);
            var paid := w.s.sessions[o].endTime - w.s.slots[o].start;
            && StartsFrom(s', j, mac, Stored(paid), w.s.slots[o].location)
            && (s'.now == ResumeStep(s', j).slots[j].start <==> paid == 0)
  {
    hide Possible, Reached, Undisturbed, FateAfter, Good, ResumeStep, ComesToTheLock, Step, CrashStep, Calm, Holds;
    var mac, s0, paid := w.s.slots[o].mac, CrashStep(w.s, delays, k), w.s.sessions[o].endTime - w.s.slots[o].start;
    CrashKeepsPaidRow(prompt, w, o, delays, k, i);
    PossibleToTheLock(s0, es, i, j, mac);
    UnownedFate(s0, es, i, mac, Stored(paid));
    FirstLock(s0, es, i, j, mac, Stored(paid), w.s.slots[o].location);
  }

  // ----- A session without a row -----

  /** When a session deletes the row while a second one of the address is connected, the second one
      has none. */
  lemma CloseDeletesTheOthersRow(s: State, o: nat, j: nat)
    requires At(s, o, Removing) && j < |s.slots| && j != o && s.slots[j].mac == s.slots[o].mac != ""
    requires !s.slots[o].connected
    requires forall k :: 0 <= k < |s.slots| && k != o ==> CalmAt(s, k, j, s.slots[j].mac)
    ensures var s' := RemoveStep(s, o);
            Calm(s', j, s.slots[j].mac) && Find(s'.table, s.slots[j].mac).None?
  {
    hide Find, Delete;
    AfterDelete(s.table, s.slots[o].mac, s.slots[j].mac);
    var s' := RemoveStep(s, o);
    forall k | 0 <= k < |s'.slots| ensures CalmAt(s', k, j, s.slots[j].mac) {
      if k != o { assert CalmAt(s, k, j, s.slots[j].mac); }
    }
  }

  lemma {:induction false} NothingIsNothing(s: State, es: seq<Event>, o: nat, mac: string)
    requires Possible(s, es)
    ensures FateAfter(s, es, o, mac, Deleted) == Deleted
    decreases |es|
  {
    hide Step, Enabled;
    if es != [] {
      NothingIsNothing(Step(s, es[0]), es[1..], o, mac);
    }
  }

  /** A session without a row stores nothing, whatever it does: no backup and no final write after a
      lost connection makes a row. Whoever then asks for the address is new, and all its time is
      lost. (If it closes instead, `CloseBills` says what it pays.) */
  lemma WithoutRowNothingIsStored(s: State, j: nat, mac: string, es: seq<Event>, k: nat)
    requires Calm(s, j, mac) && Find(s.table, mac).None? && Possible(s, es) && Undisturbed(s, es, j, mac)
    ensures Find(Reached(s, es).table, mac).None?
    ensures var s' := Reached(s, es);
            At(s', k, Starting) && !s'.sessions[k].checked && s'.slots[k].mac == mac ==>
              At(LookupStep(s', k), k, Inserting) && LookupStep(s', k).slots[k].start == s'.now
  {
    hide Find, Possible, Reached, Undisturbed, FateAfter, Calm, CityOf;
    CalmLength(s, j, mac);
    NothingIsNothing(s, es, j, mac);
    RunHolds(s, es, j, mac, Deleted, Unset);
  }

  /** Two sessions of one address that both come to pay, over any run without a crash: both payments
      are sent, each for the whole time from the session's own start to its own CLOSE, however much of
      that time they share. */
  lemma TwoSessionsPayTwice(s: State, i: nat, j: nat, es: seq<Event>)
    requires At(s, i, Paying) && i != j && Possible(PayStep(s, i), es)
    requires At(Reached(PayStep(s, i), es), j, Paying)
    ensures var s' := Reached(PayStep(s, i), es);
            var first, second := s.sessions[i].endTime - s.slots[i].start, s'.sessions[j].endTime - s'.slots[j].start;
            && PayStep(s, i).sent == s.sent + [Payment(s.slots[i].mac, Amount(s.slots[i].price, first), first)]
            && PayStep(s, i).sent <= s'.sent
            && PayStep(s', j).sent ==
               s'.sent + [Payment(s'.slots[j].mac, Amount(s'.slots[j].price, second), second)]
  {
    hide Amount, Step, Enabled;
    PaymentsStay(PayStep(s, i), es);
  }

  lemma {:induction false} PaymentsStay(s: State, es: seq<Event>)
    requires Possible(s, es)
    ensures s.sent <= Reached(s, es).sent
    decreases |es|
  {
    hide Step, Enabled;
    if es != [] {
      PaymentStays(s, es[0]);
      PaymentsStay(Step(s, es[0]), es[1..]);
    }
  }

  lemma PaymentStays(s: State, e: Event)
    requires Enabled(s, e)
    ensures s.sent <= Step(s, e).sent
  {
    hide Find, Update, Delete, Insert, BackupPass, Elapsed, BackupDue, CityOf, LookupPrice, Amount;
  }

  // ----- These are all -----

  /** The ways to break the assumptions, each the situation of lemmas above. */
  predicate CutsOffRunning(s: State, e: Event) {
    e.Receive? && At(s, e.i, Listening) && e.msg == Corrupt && s.slots[e.i].connected
  }

  predicate RepeatsStart(s: State, e: Event) {
    && e.Receive? && At(s, e.i, Listening) && e.msg.Intact? && e.msg.status == START_APP
    && s.slots[e.i].connected && e.msg.mac == s.slots[e.i].mac && !s.sessions[e.i].checked
  }

  predicate BringsForeignAddress(s: State, e: Event) {
    && e.Receive? && At(s, e.i, Listening) && e.msg.Intact?
    && s.slots[e.i].connected && e.msg.mac != s.slots[e.i].mac
  }

  predicate StartsSecondSession(s: State, e: Event) {
    && e.Receive? && At(s, e.i, Listening) && e.msg.Intact? && e.msg.status == START_APP
    && s.slots[e.i].mac == ""
    && exists j :: 0 <= j < |s.slots| == |s.sessions| && Live(s, j) && s.slots[j].mac == e.msg.mac
  }

  predicate PrecedesStart(s: State, e: Event) {
    && e.Receive? && At(s, e.i, Listening) && e.msg.Intact? && e.msg.status != START_APP
    && s.slots[e.i].mac == ""
  }

  predicate CrashesBeforeRemoval(s: State, e: Event) {
    e.Crash? && exists j :: 0 <= j < |s.sessions| && s.sessions[j].phase == Removing
  }

  /** An event is impolite if and only if it is one of these, on a session that still stores frames. */
  lemma EveryViolationIsListed(prompt: bool, w: World, e: Event)
    requires Good(prompt, w) && Enabled(w.s, e)
    ensures !Polite(w.s, e) <==>
            || CutsOffRunning(w.s, e)
            || CrashesBeforeRemoval(w.s, e)
            || (e.Receive? && !Deaf(w.s, e.i) &&
                  (RepeatsStart(w.s, e) || BringsForeignAddress(w.s, e) || StartsSecondSession(w.s, e)
                   || PrecedesStart(w.s, e)))
  {
    hide Good, Find;
    if e.Receive? {
      SlotFacts(prompt, w, e.i);
    }
  }
}
