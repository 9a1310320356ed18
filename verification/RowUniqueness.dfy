/** How many rows an address can have, over every run of the server: repeated STARTs, corrupted
    frames, foreign addresses, several sessions per address and crashes included. The existence check
    is made outside the lock, and that is the one thing that can go wrong. */
module RowUniqueness {
  import opened Billing
  import opened ParkingTable

  /** No address has two rows, and whoever is about to insert a row is the only one and needs to. */
  ghost predicate RowsOk(s: State) {
    && |s.slots| == |s.sessions|
    && Unique(s.table)
    && (forall i: nat :: At(s, i, Inserting) ==> Find(s.table, s.slots[i].mac).None?)
    && (forall i: nat, j: nat :: At(s, i, Inserting) && At(s, j, Inserting) && i != j ==>
          s.slots[i].mac != s.slots[j].mac)
  }

  /** Session i finds no row although another session is already about to insert it. */
  ghost predicate Race(s: State, e: Event) {
    e.Lookup? && At(s, e.i, Starting) && !s.sessions[e.i].checked && Find(s.table, s.slots[e.i].mac).None? &&
    exists j: nat :: At(s, j, Inserting) && s.slots[j].mac == s.slots[e.i].mac
  }

  lemma {:induction false} PassKeepsRows(t: Table, slots: seq<Slot>, now: int, delays: seq<nat>, k: nat, mac: string)
    requires k <= |slots| == |delays|
    ensures var t' := BackupPass(t, slots, now, delays, k);
            Count(t', mac) == Count(t, mac) && Find(t', mac).Some? == Find(t, mac).Some?
  {
    hide Find, Count, Update, Elapsed;
    if k > 0 {
      var t', c := BackupPass(t, slots, now, delays, k - 1), slots[k - 1];
      PassKeepsRows(t, slots, now, delays, k - 1, mac);
      AfterUpdate(t', c.mac, now + Elapsed(delays, k) - c.start, mac);
    }
  }

  /** Steps that write the table but insert nothing leave the rows of every address as they were, or
      none. */
  ghost predicate NoNewRows(t: Table, t': Table) {
    forall mac: string :: Count(t', mac) <= Count(t, mac) && (Find(t, mac).None? ==> Find(t', mac).None?)
  }

  lemma OtherStepsAddNoRows(s: State, e: Event)
    requires Enabled(s, e) && !e.InsertRow?
    ensures NoNewRows(s.table, Step(s, e).table)
  {
    hide Find, Count, Update, Delete, BackupPass, CityOf, LookupPrice;
    forall mac: string
      ensures var t' := Step(s, e).table;
              Count(t', mac) <= Count(s.table, mac) && (Find(s.table, mac).None? ==> Find(t', mac).None?)
    {
      match e
      case Close(i) => AfterUpdate(s.table, s.slots[i].mac, s.now - s.slots[i].start, mac);
      case FinalWrite(i) => AfterUpdate(s.table, s.slots[i].mac, s.now - s.slots[i].start, mac);
      case Remove(i) => AfterDelete(s.table, s.slots[i].mac, mac);
      case Backup(_, delays) => PassKeepsRows(s.table, s.slots, s.now, delays, |delays|, mac);
      case Crash(delays, k) => PassKeepsRows(s.table, s.slots, s.now, delays, k, mac);
      case _ =>
    }
  }

  /** Every step except a lookup leaves the sessions that are about to insert among those that were. */
  lemma OnlyLookupsBeginInserting(s: State, e: Event, j: nat)
    requires Enabled(s, e) && |s.slots| == |s.sessions| && At(Step(s, e), j, Inserting)
    ensures Step(s, e).slots[j].mac == s.slots[j].mac
    ensures
      || (At(s, j, Inserting) && !(e.InsertRow? && e.i == j))
      || (e.Lookup? && e.i == j && !s.sessions[j].checked && Find(s.table, s.slots[j].mac).None?)
  {
    hide Find, Count, Update, Delete, Insert, BackupPass, CityOf, LookupPrice, Amount;
    if e.Lookup? {
    } else if e.Crash? || e.Tick? || e.Backup? {
    } else if e.i != j {
      StepSpares(s, e, j);
    } else {
    }
  }

  /** In any state in which rows are in order, any event keeps them so, unless it is this race. */
  lemma RowsStayOkUnlessRaced(s: State, e: Event)
    requires RowsOk(s) && Enabled(s, e)
    ensures RowsOk(Step(s, e)) <==> !Race(s, e)
  {
    hide Find, Count, Update, Delete, Insert, BackupPass, CityOf, LookupPrice, Step;
    if Race(s, e) {
      RacersCollide(s, e);
    } else {
      var s' := Step(s, e);
      StepKeepsLength(s, e);
      if e.InsertRow? {
        InsertKeepsRows(s, e.i);
      } else {
        OtherStepsAddNoRows(s, e);
        forall i: nat | At(s', i, Inserting) ensures Find(s'.table, s'.slots[i].mac).None? {
          OnlyLookupsBeginInserting(s, e, i);
        }
        forall mac: string ensures Count(s'.table, mac) <= 1 {
          assert Count(s.table, mac) <= 1;
        }
      }
      forall i: nat, j: nat | At(s', i, Inserting) && At(s', j, Inserting) && i != j
        ensures s'.slots[i].mac != s'.slots[j].mac
      {
        OnlyLookupsBeginInserting(s, e, i);
        OnlyLookupsBeginInserting(s, e, j);
      }
    }
  }

  lemma RacersCollide(s: State, e: Event)
    requires |s.slots| == |s.sessions| && Enabled(s, e) && Race(s, e)
    ensures !RowsOk(Step(s, e))
  {
    hide Find, Count, CityOf;
    var j: nat :| At(s, j, Inserting) && s.slots[j].mac == s.slots[e.i].mac;
    assert At(Step(s, e), j, Inserting) && At(Step(s, e), e.i, Inserting);
  }

  lemma InsertKeepsRows(s: State, i: nat)
    requires RowsOk(s) && At(s, i, Inserting)
    ensures var s' := Step(s, InsertRow(i));
            && Unique(s'.table)
            && forall j: nat :: At(s', j, Inserting) ==> Find(s'.table, s'.slots[j].mac).None?
  {
    hide Find, Count, Insert, CityOf, LookupPrice;
    var s', row := Step(s, InsertRow(i)), Row(s.slots[i].mac, 0, s.slots[i].location);
    forall mac: string ensures Count(s'.table, mac) <= 1 {
      AfterInsert(s.table, row, mac);
      FindIsCount(s.table, mac);
      assert Count(s.table, mac) <= 1;
    }
    forall j: nat | At(s', j, Inserting) ensures Find(s'.table, s'.slots[j].mac).None? {
      OnlyLookupsBeginInserting(s, InsertRow(i), j);
      AfterInsert(s.table, row, s.slots[j].mac);
    }
  }

  /** After the race both sessions insert, and the address has two rows. */
  lemma RaceDoublesTheRow(s: State, e: Event, j: nat)
    requires RowsOk(s) && Enabled(s, e) && Race(s, e)
    requires At(s, j, Inserting) && s.slots[j].mac == s.slots[e.i].mac
    ensures var s1 := Step(s, e);
            && Enabled(s1, InsertRow(j))
            && var s2 := Step(s1, InsertRow(j));
               Enabled(s2, InsertRow(e.i)) && Count(Step(s2, InsertRow(e.i)).table, s.slots[j].mac) == 2
  {
    hide Find, Count, Insert, CityOf, LookupPrice;
    var mac := s.slots[j].mac;
    FindIsCount(s.table, mac);
    var s1 := Step(s, e);
    var s2 := Step(s1, InsertRow(j));
    AfterInsert(s1.table, Row(mac, 0, s1.slots[j].location), mac);
    AfterInsert(s2.table, Row(mac, 0, s2.slots[e.i].location), mac);
  }

  /** Every event of the run is possible, and none of them is the race. */
  ghost predicate RaceFree(s: State, es: seq<Event>)
    decreases |es|
  {
    es == [] || (Enabled(s, es[0]) && !Race(s, es[0]) && RaceFree(Step(s, es[0]), es[1..]))
  }

  ghost function Final(s: State, es: seq<Event>): State
    requires RaceFree(s, es)
    decreases |es|
  {
    if es == [] then s else Final(Step(s, es[0]), es[1..])
  }

  /** Whatever clients send and however sessions interleave, no address ever has two rows as long as
      no two sessions race through the existence check. */
  lemma NoAddressHasTwoRows(n: nat, prices: map<City, real>, now: int, es: seq<Event>, mac: string)
    requires RaceFree(Initial(n, prices, now), es)
    ensures Count(Final(Initial(n, prices, now), es).table, mac) <= 1
  {
    FinalRowsOk(Initial(n, prices, now), es);
  }

  lemma {:induction false} FinalRowsOk(s: State, es: seq<Event>)
    requires RowsOk(s) && RaceFree(s, es)
    ensures RowsOk(Final(s, es))
    decreases |es|
  {
    hide RowsOk, Race, Step, Enabled;
    if es != [] {
      RowsStayOkUnlessRaced(s, es[0]);
      FinalRowsOk(Step(s, es[0]), es[1..]);
    }
  }
}
