/** The server's own form: client records updated in place by the critical sections of the session
    threads and of the updater thread. Every method is proved to be one step of the state machine in
    module Billing. */
module PangoServer {
  import opened Billing
  import opened Crc8
  import opened Frames
  import MacText
  import opened ParkingTable

  /** The client record that a session thread and the updater share. */
  class PangoData {
    const macAddress: array<char>
    var x: bv8
    var y: bv8
    var location: City
    var price: real
    var timeStartParking: int
    var connected: bool

    constructor ()
      ensures fresh(macAddress) && macAddress.Length == MacText.MAC_ADDRESS_SIZE
      ensures View() == EMPTY_SLOT
    {
      macAddress := new char[MacText.MAC_ADDRESS_SIZE](_ => '\0');
      x, y, location, price, timeStartParking, connected := 0, 0, Unset, 0.0, 0, false;
    }

    /** The record as a value. */
    function View(): Slot
      reads this, macAddress
    {
      Slot(CString(macAddress[..]), x, y, location, price, timeStartParking, connected)
    }

    /** Unpack a checked frame into the record: the status byte, the address as text printed field by
        field at a moving offset, and the coordinates. After a status of 255 nothing is stored. */
    method StoreClientData(status: bv8, buff: array<bv8>) returns (status': bv8)
      requires buff.Length == BUFFER_SIZE && macAddress.Length == MacText.MAC_ADDRESS_SIZE
      requires buff as object != macAddress
      modifies this, macAddress
      ensures buff[..] == old(buff[..])
      ensures status == 255 ==> status' == status && View() == old(View())
      ensures status != 255 ==>
                && status' == buff[0]
                && View() == old(View()).(mac := MacText.Text(buff[1..7]), x := buff[7], y := buff[8])
    {
      hide MacText.Text, MacText.HexByte, CString;
      status' := status;
      if status != CRC8_TEST_FAILED {
        var offset := 0;
        var i := 0;
        while i < 8
          invariant i <= 8
          invariant i <= 1 ==> offset == 0
          invariant i >= 1 ==> status' == buff[0]
          invariant buff[..] == old(buff[..])
          invariant 1 < i < 7 ==> 0 < offset <= 3 * (i - 1) && macAddress[..offset] == MacText.Text(buff[1..i]) + ":"
          invariant i >= 7 ==> Terminated(MacText.Text(buff[1..7]))
          invariant i == 8 ==> x == buff[7] && y == buff[8]
          invariant unchanged(this`location) && unchanged(this`price)
          invariant unchanged(this`timeStartParking) && unchanged(this`connected)
        {
          if i == 0 {
            status' := buff[0];
          }
          if 0 < i < 7 {
            MoreText(buff[1..i + 1], buff[1..i], buff[i]);
            if i == 6 {
              offset := PrintAt(macAddress, offset, MacText.HexByte(buff[i]));
            } else {
              offset := PrintAt(macAddress, offset, MacText.HexByte(buff[i]) + ":");
            }
          } else {
            x := buff[i];
            y := buff[i + 1];
          }
          i := i + 1;
        }
        CStringTerminated(MacText.Text(buff[1..7]));
      }
    }

    /** The address field holds this text, followed by a NUL. */
    predicate Terminated(s: string)
      reads macAddress
    {
      |s| < macAddress.Length && macAddress[..|s|] == s && macAddress[|s|] == '\0'
    }

    lemma CStringTerminated(s: string)
      requires Terminated(s) && '\0' !in s
      ensures CString(macAddress[..]) == s
    {
      assert macAddress[..] == s + ['\0'] + macAddress[|s| + 1..];
      CStringOf(s, macAddress[|s| + 1..]);
    }
  }

  lemma MoreText(mac: Bytes, front: Bytes, last: bv8)
    requires mac == front + [last]
    ensures MacText.Text(mac) == (if front == [] then "" else MacText.Text(front) + ":") + MacText.HexByte(last)
  {
    assert mac[..|mac| - 1] == front;
  }

  /** The server process: the client records, the local variables of the session threads, the clock
      and the tables. */
  class PangoServer {
    const clients: seq<PangoData>
    const threads: array<Session>
    const prices: map<City, real>
    var now: int
    var table: Table
    var backupStart: int
    var updaterDone: bool
    var sent: seq<Payment>

    /** Records and address fields are separate storage. */
    predicate Separate() {
      && threads.Length == |clients|
      && (forall i :: 0 <= i < |clients| ==> clients[i].macAddress.Length == MacText.MAC_ADDRESS_SIZE)
      && (forall i, j :: 0 <= i < j < |clients| ==>
            clients[i] != clients[j] && clients[i].macAddress != clients[j].macAddress)
    }

    function Storage(): set<object> {
      (set c | c in clients :: c as object) + (set c | c in clients :: c.macAddress as object)
    }

    function View(): State
      reads this, threads, Storage()
    {
      State(now, Records(|clients|), threads[..], table, prices, backupStart, updaterDone, sent)
    }

    function Records(k: nat): (r: seq<Slot>)
      requires k <= |clients|
      reads Storage()
      ensures |r| == k && forall i :: 0 <= i < k ==> r[i] == clients[i].View()
    {
      if k == 0 then []
      else
        assert clients[k - 1] in clients;
        Records(k - 1) + [clients[k - 1].View()]
    }

    constructor (n: nat, prices: map<City, real>, now: int)
      ensures Separate() && View() == Initial(n, prices, now)
    {
      var cs: seq<PangoData> := [];
      while |cs| < n
        invariant |cs| <= n
        invariant forall i :: 0 <= i < |cs| ==> fresh(cs[i]) && fresh(cs[i].macAddress)
        invariant forall i :: 0 <= i < |cs| ==> allocated(cs[i]) && cs[i].View() == EMPTY_SLOT
        invariant forall i :: 0 <= i < |cs| ==> cs[i].macAddress.Length == MacText.MAC_ADDRESS_SIZE
        invariant forall i, j :: 0 <= i < j < |cs| ==> cs[i] != cs[j] && cs[i].macAddress != cs[j].macAddress
      {
        var c := new PangoData();
        cs := cs + [c];
      }
      this.clients := cs;
      this.threads := new Session[n](_ => NEW_SESSION);
      this.prices := prices;
      this.now := now;
      this.backupStart := now;
      table, updaterDone, sent := [], false, [];
      new;
      assert View().slots == Initial(n, prices, now).slots;
      assert View().sessions == Initial(n, prices, now).sessions;
    }

    /** What a section that works on record i, thread i, the table and the payments leaves behind. */
    twostate lemma SectionView(i: nat)
      requires Separate() && i < |clients|
      requires forall j :: 0 <= j < |clients| && j != i ==>
                 unchanged(clients[j]) && unchanged(clients[j].macAddress)
      requires forall j :: 0 <= j < |clients| && j != i ==> threads[j] == old(threads[j])
      requires unchanged(`now) && unchanged(`backupStart) && unchanged(`updaterDone)
      ensures |old(View()).slots| == |old(View()).sessions| == |clients|
      ensures View() == Moved(old(View()), i, clients[i].View(), threads[i]).(table := table, sent := sent)
    {
      forall j | 0 <= j < |clients| && j != i ensures clients[j].View() == old(clients[j].View()) {
      }
      assert Records(|clients|) == old(Records(|clients|))[i := clients[i].View()];
      assert threads[..] == old(threads[..])[i := threads[i]];
    }

    // ----- Session threads -----

    /** A frame from the socket: receive it into a local buffer, check it, store it, and branch on the
        status byte. */
    method ReceiveFrame(i: nat, frame: Bytes)
      requires Separate() && At(View(), i, Listening) && |frame| == BUFFER_SIZE
      modifies threads, clients[i], clients[i].macAddress
      ensures View() == ReceiveStep(old(View()), i, Decode(frame))
    {
      hide Records, CString, Accepts, MacText.Text;
      var t := threads[i];
      var buff := new bv8[BUFFER_SIZE](k requires 0 <= k < BUFFER_SIZE => frame[k]);
      assert buff[..] == frame;
      assert buff[1..7] == frame[1..7];
      var passed, status := ServerCrcCheck(buff, t.status);
      if passed {
        status := clients[i].StoreClientData(status, buff);
      }
      var phase :=
        if !passed then Gone
        else if status == START_APP then Starting
        else if status == CLOSE_APP then Closing
        else Listening;
      threads[i] := t.(status := status, phase := phase);
      SectionView(i);
    }

    /** The connection of slot i is accepted. */
    method Accept(i: nat)
      requires Separate() && At(View(), i, Unused)
      modifies threads
      ensures View() == AcceptStep(old(View()), i)
    {
      hide Records, CString;
      threads[i] := threads[i].(phase := Listening);
      SectionView(i);
    }

    /** The existence check of a START, and for a client that is new its start time and city. */
    method Lookup(i: nat)
      requires Separate() && At(View(), i, Starting)
      modifies threads, clients[i]
      ensures View() == LookupStep(old(View()), i)
      ensures threads[i].phase == Inserting ==> Within(clients[i].x, clients[i].y, clients[i].location)
    {
      hide Records, CString;
      var t, client := threads[i], clients[i];
      var known := Find(table, CString(client.macAddress[..])).Some? && !t.checked;
      if known {
        threads[i] := t.(phase := Resuming);
      } else if !t.checked {
        client.timeStartParking := now;
        client.location := CityOf(client.x, client.y);
        threads[i] := t.(phase := Inserting);
      } else {
        threads[i] := t.(phase := Listening);
      }
      SectionView(i);
    }

    /** The price of the client's city, if the city has a row. */
    method RetrievePrice(client: PangoData)
      modifies client`price
      ensures client.location in prices ==> client.price == prices[client.location]
      ensures client.location !in prices ==> client.price == old(client.price)
    {
      if client.location in prices {
        client.price := prices[client.location];
      }
    }

    /** A client that already has a row: continue counting from its time used, at its own city. */
    method RetrieveClientData(i: nat)
      requires Separate() && At(View(), i, Resuming)
      modifies threads, clients[i]
      ensures View() == ResumeStep(old(View()), i)
    {
      hide Records, CString;
      var client := clients[i];
      var row := Find(table, CString(client.macAddress[..]));
      if row.Some? {
        client.timeStartParking := row.value.timeUsed;
      }
      client.timeStartParking := now - client.timeStartParking;
      client.connected := true;
      if row.Some? {
        client.location := row.value.location;
      }
      RetrievePrice(client);
      threads[i] := threads[i].(phase := Listening, checked := true);
      SectionView(i);
    }

    /** A client that is new: its price, and its row in the table. */
    method InsertClientData(i: nat)
      requires Separate() && At(View(), i, Inserting)
      modifies this`table, threads, clients[i]
      ensures View() == InsertRowStep(old(View()), i)
    {
      hide Records, CString;
      var client := clients[i];
      RetrievePrice(client);
      table := Insert(table, Row(CString(client.macAddress[..]), 0, client.location));
      threads[i] := threads[i].(phase := Inserted);
      SectionView(i);
    }

    /** The flag that lets the updater count a new client. */
    method SetConnected(i: nat)
      requires Separate() && At(View(), i, Inserted)
      modifies threads, clients[i]
      ensures View() == SetConnectedStep(old(View()), i)
    {
      hide Records, CString;
      clients[i].connected := true;
      threads[i] := threads[i].(phase := Listening);
      SectionView(i);
    }

    /** Read the clock and write the time used of this client. */
    method UpdateClientData(client: PangoData) returns (end: int)
      modifies this`table
      ensures end == now && table == Update(old(table), CString(client.macAddress[..]), now - client.timeStartParking)
    {
      end := now;
      table := Update(table, CString(client.macAddress[..]), end - client.timeStartParking);
    }

    /** CLOSE, under the lock: the closing time is written, then the flag is cleared. */
    method Close(i: nat)
      requires Separate() && At(View(), i, Closing)
      modifies this`table, threads, clients[i]
      ensures View() == CloseStep(old(View()), i)
    {
      hide Records, CString;
      var endTime := UpdateClientData(clients[i]);
      clients[i].connected := false;
      threads[i] := threads[i].(phase := Paying, endTime := endTime);
      SectionView(i);
    }

    /** The amount and the time parked are sent to the client. */
    method SendPayment(i: nat)
      requires Separate() && At(View(), i, Paying)
      modifies this`sent, threads
      ensures View() == PayStep(old(View()), i)
    {
      hide Records, CString, Amount;
      var client := clients[i];
      var seconds := threads[i].endTime - client.timeStartParking;
      sent := sent + [Payment(CString(client.macAddress[..]), Amount(client.price, seconds), seconds)];
      threads[i] := threads[i].(phase := Removing);
      SectionView(i);
    }

    method RemoveClientData(i: nat)
      requires Separate() && At(View(), i, Removing)
      modifies this`table, threads
      ensures View() == RemoveStep(old(View()), i)
    {
      hide Records, CString;
      table := Delete(table, CString(clients[i].macAddress[..]));
      threads[i] := threads[i].(phase := Gone);
      SectionView(i);
    }

    /** recv returned 0: only the flag changes under this lock. */
    method LoseConnection(i: nat)
      requires Separate() && At(View(), i, Listening)
      modifies threads, clients[i]
      ensures View() == LoseStep(old(View()), i) && threads[i].status == 3
    {
      hide Records, CString;
      clients[i].connected := false;
      threads[i] := threads[i].(status := CONNECTION_LOST, phase := Dropping);
      SectionView(i);
    }

    /** The final write of a lost client, under a second lock. */
    method FinalWrite(i: nat)
      requires Separate() && At(View(), i, Dropping)
      modifies this`table, threads
      ensures View() == FinalWriteStep(old(View()), i)
    {
      hide Records, CString;
      var endTime := UpdateClientData(clients[i]);
      threads[i] := threads[i].(phase := Gone, endTime := endTime);
      SectionView(i);
    }

    // ----- The updater thread -----

    /** The loop over all records: connected clients get their time used written, by a clock that is
        read anew for each of them while `delays` pass. */
    method UpdateClients(isBackupTime: bool, delays: seq<nat>)
      requires Separate() && |delays| == |clients|
      modifies this`table, this`now
      ensures table ==
              if isBackupTime then BackupPass(old(table), old(View()).slots, old(now), delays, |delays|) else old(table)
      ensures now == if isBackupTime then old(now) + Elapsed(delays, |delays|) else old(now)
    {
      if !isBackupTime {
        return;
      }
      ghost var slots := View().slots;
      var i := 0;
      while i < |clients|
        invariant i <= |clients|
        invariant View().slots == slots
        invariant now == old(now) + Elapsed(delays, i)
        invariant table == BackupPass(old(table), slots, old(now), delays, i)
      {
        var client := clients[i];
        now := now + delays[i];
        if client.connected {
          table := Update(table, CString(client.macAddress[..]), now - client.timeStartParking);
        }
        i := i + 1;
      }
    }

    /** One iteration of the updater loop. The last one flushes on its own and then skips the regular
        pass. */
    method BackupIteration(returnThread: bool, delays: seq<nat>)
      requires Separate() && Enabled(View(), Backup(returnThread, delays))
      modifies this`table, this`now, this`updaterDone
      ensures View() == BackupStep(old(View()), returnThread, delays) && updaterDone == returnThread
    {
      hide BackupPass, Elapsed, Records;
      ghost var s := View();
      var isBackupTime := (now - backupStart) % SECONDS_BETWEEN_BACKUPS == 0;
      assert isBackupTime == IsBackupTime(s);
      if returnThread {
        updaterDone := true;
        assert View().slots == s.slots;
        UpdateClients(true, delays);
        isBackupTime := false;
      }
      assert View().slots == s.slots;
      UpdateClients(isBackupTime, delays);
      assert View().slots == s.slots;
    }
  }
}
