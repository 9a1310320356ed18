/** What becomes of the row of one address while others wait for it: the machinery behind the cost of
    sessions that meet at one row. */
module RowFate {
  import opened Billing
  import opened BillingSteps
  import opened Frames
  import opened ParkingTable
  import opened Wrappers

  /** The time a row holds, or that the row is gone. */
  datatype Fate = Stored(used: int) | Deleted

  /** The session has sent its first START and has not yet passed its lock. */
  predicate Waiting(t: Session) {
    t.phase in {Starting, Resuming, Inserting} && !t.checked
  }

  /** Of all sessions only session `o` may work on the row of the address: any other that has the
      address has finished and is not connected, or still waits. With `o` beyond the last session,
      nobody may. */
  ghost predicate Calm(s: State, o: nat, mac: string) {
    && |s.slots| == |s.sessions| && mac != ""
    && (forall k :: 0 <= k < |s.slots| ==> CalmAt(s, k, o, mac))
  }

  /** What this says of session k. */
  predicate CalmAt(s: State, k: nat, o: nat, mac: string)
    requires k < |s.slots| == |s.sessions|
  {
    var c, t := s.slots[k], s.sessions[k];
    c.mac == mac ==>
      if k == o then t.phase !in {Unused, Resuming, Inserting} && (t.phase == Starting ==> t.checked)
      else !c.connected && (t.phase == Gone || Waiting(t))
  }

  /** The event lets another session at the row, lets the owner start anew, or ends the process. */
  predicate Disturbs(s: State, e: Event, o: nat, mac: string)
    requires Enabled(s, e)
  {
    match e
    case Receive(k, Intact(status, m, _, _)) =>
      && m == mac
      && if k == o then status == START_APP
         else status != START_APP || s.slots[k].connected || s.sessions[k].checked
    case Resume(k) => k != o && s.slots[k].mac == mac
    case InsertRow(k) => k != o && s.slots[k].mac == mac
    case Crash(_, _) => true
    case _ => false
  }

  ghost predicate Undisturbed(s: State, es: seq<Event>, o: nat, mac: string)
    requires Possible(s, es)
    decreases |es|
  {
    es == [] || (!Disturbs(s, es[0], o, mac) && Undisturbed(Step(s, es[0]), es[1..], o, mac))
  }

  /** What an event of the owner or the updater makes of the row. */
  function Next(s: State, e: Event, o: nat, mac: string, fate: Fate): Fate
    requires Enabled(s, e)
  {
    if fate.Deleted? || o >= |s.slots| || s.slots[o].mac != mac then fate
    else match e
      case Backup(finalFlush, delays) =>
        if BackupDue(s, finalFlush) && s.slots[o].connected then
          Stored(s.now + Elapsed(delays, o + 1) - s.slots[o].start)
        else fate
      case Close(k) => if k == o then Stored(s.now - s.slots[o].start) else fate
      case FinalWrite(k) => if k == o then Stored(s.now - s.slots[o].start) else fate
      case Remove(k) => if k == o then Deleted else fate
      case _ => fate
  }

  ghost function FateAfter(s: State, es: seq<Event>, o: nat, mac: string, fate: Fate): Fate
    requires Possible(s, es)
    decreases |es|
  {
    if es == [] then fate
    else FateAfter(Step(s, es[0]), es[1..], o, mac, Next(s, es[0], o, mac, fate))
  }

  ghost predicate Holds(t: Table, mac: string, fate: Fate, location: City) {
    match fate
    case Stored(used) => Find(t, mac) == Some(Row(mac, used, location))
    case Deleted => Find(t, mac).None?
  }

  lemma StaysCalm(s: State, e: Event, o: nat, mac: string)
    requires Calm(s, o, mac) && Enabled(s, e) && !Disturbs(s, e, o, mac)
    ensures Calm(Step(s, e), o, mac)
  {
    hide Step, Enabled, CalmAt, Disturbs;
    StepKeepsLength(s, e);
    forall k | 0 <= k < |s.slots| ensures CalmAt(Step(s, e), k, o, mac) {
      OneStaysCalm(s, e, k, o, mac);
    }
  }

  lemma OneStaysCalm(s: State, e: Event, k: nat, o: nat, mac: string)
    requires |s.slots| == |s.sessions| && k < |s.slots| && mac != ""
    requires Enabled(s, e) && !Disturbs(s, e, o, mac) && CalmAt(s, k, o, mac)
    ensures k < |Step(s, e).slots| == |Step(s, e).sessions| && CalmAt(Step(s, e), k, o, mac)
  {
    if Spares(e, k) {
      hide Step, Enabled;
      StepSpares(s, e, k);
    } else if e.Receive? {
    } else if Ends(e) {
      EndStaysCalm(s, e, k, o, mac);
    } else {
      hide Find, Insert, CityOf, LookupPrice, ReceiveStep;
    }
  }

  /** A step on the way out of a session. */
  predicate Ends(e: Event) {
    e.Close? || e.Pay? || e.Remove? || e.Lose? || e.FinalWrite?
  }

  lemma EndStaysCalm(s: State, e: Event, k: nat, o: nat, mac: string)
    requires |s.slots| == |s.sessions| && k < |s.slots| && mac != ""
    requires Enabled(s, e) && Ends(e) && CalmAt(s, k, o, mac) && e.i == k
    ensures k < |Step(s, e).slots| == |Step(s, e).sessions| && CalmAt(Step(s, e), k, o, mac)
  {
    hide Find, Update, Delete, Amount;
  }

  /** The events that write the table. */
  predicate Writes(e: Event) {
    e.InsertRow? || e.Close? || e.FinalWrite? || e.Remove? || e.Backup? || e.Crash?
  }

  lemma OthersWriteNothing(s: State, e: Event)
    requires Enabled(s, e) && !Writes(e)
    ensures Step(s, e).table == s.table
  {
    hide Find, CityOf, LookupPrice, Amount;
  }

  lemma StepHolds(s: State, e: Event, o: nat, mac: string, fate: Fate, location: City)
    requires Calm(s, o, mac) && Enabled(s, e) && !Disturbs(s, e, o, mac) && Holds(s.table, mac, fate, location)
    ensures Holds(Step(s, e).table, mac, Next(s, e, o, mac, fate), location)
  {
    if e.Backup? {
      hide Find, Elapsed, BackupPass;
      PassHolds(s, e.delays, |e.delays|, o, mac, fate, location);
    } else if Writes(e) {
      WriteHolds(s, e, o, mac, fate, location);
    } else {
      hide Step, Holds;
      OthersWriteNothing(s, e);
    }
  }

  lemma WriteHolds(s: State, e: Event, o: nat, mac: string, fate: Fate, location: City)
    requires Calm(s, o, mac) && Enabled(s, e) && !Disturbs(s, e, o, mac) && Holds(s.table, mac, fate, location)
    requires Writes(e) && !e.Backup?
    ensures Holds(Step(s, e).table, mac, Next(s, e, o, mac, fate), location)
  {
    hide Find, Update, Delete, Insert, BackupPass, LookupPrice, Calm;
    var c := s.slots[e.i];
    CalmEverywhere(s, o, mac, e.i);
    if e.InsertRow? {
      AfterInsert(s.table, Row(c.mac, 0, c.location), mac);
    } else if e.Remove? {
      AfterDelete(s.table, c.mac, mac);
    } else {
      AfterUpdate(s.table, c.mac, s.now - c.start, mac);
    }
  }

  lemma CalmEverywhere(s: State, o: nat, mac: string, k: nat)
    requires Calm(s, o, mac) && k < |s.slots|
    ensures CalmAt(s, k, o, mac)
  {
  }

  lemma {:induction false} PassHolds(s: State, delays: seq<nat>, k: nat, o: nat, mac: string, fate: Fate,
                                     location: City)
    requires Calm(s, o, mac) && k <= |delays| == |s.slots| && Holds(s.table, mac, fate, location)
    ensures Holds(BackupPass(s.table, s.slots, s.now, delays, k), mac,
                  if fate.Stored? && o < k && s.slots[o].mac == mac && s.slots[o].connected
                  then Stored(s.now + Elapsed(delays, o + 1) - s.slots[o].start) else fate, location)
  {
    hide Find, Elapsed, Update;
    if k > 0 {
      PassHolds(s, delays, k - 1, o, mac, fate, location);
      var c := s.slots[k - 1];
      assert CalmAt(s, k - 1, o, mac);
      AfterUpdate(BackupPass(s.table, s.slots, s.now, delays, k - 1), c.mac, s.now + Elapsed(delays, k) - c.start, mac);
    }
  }

  /** Over any run that disturbs nothing the row is what its owner and the updater made of it. */
  lemma {:induction false} RunHolds(s: State, es: seq<Event>, o: nat, mac: string, fate: Fate, location: City)
    requires Calm(s, o, mac) && Possible(s, es) && Undisturbed(s, es, o, mac) && Holds(s.table, mac, fate, location)
    ensures var s' := Reached(s, es);
            Calm(s', o, mac) && Holds(s'.table, mac, FateAfter(s, es, o, mac, fate), location)
    decreases |es|
  {
    hide Step, Enabled, Disturbs, Next, Holds;
    if es != [] {
      StaysCalm(s, es[0], o, mac);
      StepHolds(s, es[0], o, mac, fate, location);
      RunHolds(Step(s, es[0]), es[1..], o, mac, Next(s, es[0], o, mac, fate), location);
    }
  }

  /** What a session finds when it gets the lock, however long it waited: it resumes the time, the city
      and the price of the row if the row is still there. If the row has gone in the meantime, it
      counts from its own stale start time, at its own stale city, and has no row. */
  lemma ResumeAtTheLock(s: State, es: seq<Event>, o: nat, j: nat, mac: string, fate: Fate, location: City)
    requires Calm(s, o, mac) && Possible(s, es) && Undisturbed(s, es, o, mac) && Holds(s.table, mac, fate, location)
    requires At(Reached(s, es), j, Resuming) && Reached(s, es).slots[j].mac == mac
    ensures var s' := Reached(s, es);
            var c, back := s'.slots[j], ResumeStep(s', j);
            && At(back, j, Listening) && back.slots[j].connected && back.slots[j].mac == mac
            && match FateAfter(s, es, o, mac, fate)
               case Stored(used) =>
                 && back.slots[j].start == s'.now - used && back.slots[j].location == location
                 && back.slots[j].price == LookupPrice(s'.prices, location, c.price)
                 && Find(back.table, mac) == Some(Row(mac, used, location))
               case Deleted =>
                 && back.slots[j].start == s'.now - c.start && back.slots[j].location == c.location
                 && back.slots[j].price == LookupPrice(s'.prices, c.location, c.price)
                 && Find(back.table, mac).None?
  {
    hide Find, LookupPrice, Possible, Reached, Undisturbed, Calm, FateAfter;
    RunHolds(s, es, o, mac, fate, location);
  }

  // ----- A session on its first START -----

  /** Session j does nothing but be accepted, receive START frames of the address and look it up. */
  predicate FirstStart(e: Event, j: nat, mac: string) {
    || Spares(e, j)
    || e == Accept(j)
    || e == Lookup(j)
    || (e.Receive? && e.msg.Intact? && e.msg.status == START_APP && e.msg.mac == mac)
  }

  /** The record of a session before its first lock: nothing but address and coordinates is set. */
  predicate Untouched(c: Slot, t: Session, mac: string) {
    && !t.checked
    && match t.phase
       case Unused => c == EMPTY_SLOT
       case Listening => c == EMPTY_SLOT
       case Starting => c == EMPTY_SLOT.(mac := mac, x := c.x, y := c.y)
       case Resuming => c == EMPTY_SLOT.(mac := mac, x := c.x, y := c.y)
       case Inserting => true
       case _ => false
  }

  lemma StaysUntouched(s: State, e: Event, j: nat, mac: string)
    requires |s.slots| == |s.sessions| && j < |s.slots| && Untouched(s.slots[j], s.sessions[j], mac)
    requires Enabled(s, e) && FirstStart(e, j, mac)
    ensures |Step(s, e).slots| == |Step(s, e).sessions| == |s.slots|
    ensures Untouched(Step(s, e).slots[j], Step(s, e).sessions[j], mac)
  {
    hide Find, CityOf;
    if Spares(e, j) {
      hide Untouched, Step, Enabled;
      StepSpares(s, e, j);
    }
  }

  lemma {:induction false} FreshAtTheLock(s: State, es: seq<Event>, j: nat, mac: string)
    requires |s.slots| == |s.sessions| && j < |s.slots| && Untouched(s.slots[j], s.sessions[j], mac)
    requires Possible(s, es) && forall e :: e in es ==> FirstStart(e, j, mac)
    ensures var s' := Reached(s, es);
            |s'.slots| == |s'.sessions| == |s.slots| && Untouched(s'.slots[j], s'.sessions[j], mac)
    decreases |es|
  {
    hide Step, Enabled, Untouched, FirstStart;
    if es != [] {
      StaysUntouched(s, es[0], j, mac);
      FreshAtTheLock(Step(s, es[0]), es[1..], j, mac);
    }
  }
}
