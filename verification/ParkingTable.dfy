/** The SQLite tables: parked time per MAC address, as rows without a key constraint, and prices. */
module ParkingTable {
  import opened Wrappers

  /** The location names; `Unset` is the empty name of a slot that has not been located. */
  datatype City = Unset | Ashkelon | Jerusalem | PetahTikva | Herzliya | OutOfRange

  /** The map of the cities: each has its own bounds. */
  predicate Within(x: bv8, y: bv8, city: City) {
    match city
    case Unset => false
    case Ashkelon => x <= 70 && y <= 70
    case Jerusalem => x <= 70 < y <= 127
    case PetahTikva => y <= 70 < x <= 127
    case Herzliya => 70 < x <= 127 && 70 < y <= 127
    case OutOfRange => x > 127 || y > 127
  }

  /** No two cities share a place. */
  lemma OneCityAtMost(x: bv8, y: bv8, city: City, city': City)
    requires Within(x, y, city) && Within(x, y, city')
    ensures city == city'
  {
  }

  /** The city of a pair of coordinates; above 127 there is none. */
  function CityOf(x: bv8, y: bv8): (city: City)
    ensures Within(x, y, city)
  {
    if x > 127 || y > 127 then OutOfRange
    else if x <= 70 && y <= 70 then Ashkelon
    else if x <= 70 && y > 70 then Jerusalem
    else if x > 70 && y <= 70 then PetahTikva
    else Herzliya
  }

  datatype Row = Row(mac: string, timeUsed: int, location: City)

  type Table = seq<Row>

  /** SELECT ... WHERE MAC_ADR = mac: the first matching row, if any. */
  function Find(t: Table, mac: string): (r: Option<Row>)
    ensures r.Some? ==> r.value in t && r.value.mac == mac
    ensures r.None? ==> forall k :: 0 <= k < |t| ==> t[k].mac != mac
  {
    if t == [] then None
    else if t[0].mac == mac then Some(t[0])
    else Find(t[1..], mac)
  }

  /** INSERT INTO your_table. */
  function Insert(t: Table, row: Row): Table {
    t + [row]
  }

  /** UPDATE your_table SET TIME_USED = time WHERE MAC_ADR = mac: every matching row. */
  function Update(t: Table, mac: string, time: int): (t': Table)
    ensures |t'| == |t|
  {
    if t == [] then []
    else [if t[0].mac == mac then t[0].(timeUsed := time) else t[0]] + Update(t[1..], mac, time)
  }

  /** DELETE FROM your_table WHERE MAC_ADR = mac: every matching row. */
  function Delete(t: Table, mac: string): Table {
    if t == [] then []
    else if t[0].mac == mac then Delete(t[1..], mac)
    else [t[0]] + Delete(t[1..], mac)
  }

  /** How many rows a MAC address has. */
  function Count(t: Table, mac: string): nat {
    if t == [] then 0 else (if t[0].mac == mac then 1 else 0) + Count(t[1..], mac)
  }

  /** No address has two rows. */
  ghost predicate Unique(t: Table) {
    forall mac: string :: Count(t, mac) <= 1
  }

  lemma {:induction false} FindIsCount(t: Table, mac: string)
    ensures Find(t, mac).Some? <==> Count(t, mac) > 0
  {
    if t != [] {
      FindIsCount(t[1..], mac);
    }
  }

  lemma {:induction false} AfterInsert(t: Table, row: Row, mac: string)
    ensures Count(Insert(t, row), mac) == Count(t, mac) + (if mac == row.mac then 1 else 0)
    ensures Find(Insert(t, row), mac) ==
            if Find(t, mac).Some? then Find(t, mac)
            else if mac == row.mac then Some(row) else None
  {
    if t != [] {
      AfterInsert(t[1..], row, mac);
      assert Insert(t, row)[1..] == Insert(t[1..], row);
    }
  }

  lemma {:induction false} AfterUpdate(t: Table, key: string, time: int, mac: string)
    ensures Count(Update(t, key, time), mac) == Count(t, mac)
    ensures Find(Update(t, key, time), mac) ==
            match Find(t, mac)
            case None => None
            case Some(row) => Some(if mac == key then row.(timeUsed := time) else row)
  {
    if t != [] {
      AfterUpdate(t[1..], key, time, mac);
    }
  }

  lemma {:induction false} AfterDelete(t: Table, key: string, mac: string)
    ensures Count(Delete(t, key), mac) == if mac == key then 0 else Count(t, mac)
    ensures Find(Delete(t, key), mac) == if mac == key then None else Find(t, mac)
  {
    if t != [] {
      AfterDelete(t[1..], key, mac);
    }
  }

  // ----- Every row of an address -----

  /** All rows of an address, in order. */
  function RowsOf(t: Table, mac: string): seq<Row> {
    if t == [] then [] else (if t[0].mac == mac then [t[0]] else []) + RowsOf(t[1..], mac)
  }

  function Timed(rows: seq<Row>, time: int): (r: seq<Row>)
    ensures |r| == |rows| && forall k :: 0 <= k < |rows| ==> r[k] == rows[k].(timeUsed := time)
  {
    if rows == [] then [] else [rows[0].(timeUsed := time)] + Timed(rows[1..], time)
  }

  /** An update sets the time of every row of its address, duplicates included, and of no other. */
  lemma {:induction false} UpdateSetsEveryRow(t: Table, key: string, time: int, mac: string)
    ensures RowsOf(Update(t, key, time), mac) == if mac == key then Timed(RowsOf(t, mac), time) else RowsOf(t, mac)
  {
    if t != [] {
      UpdateSetsEveryRow(t[1..], key, time, mac);
      var u := Update(t, key, time);
      assert u[1..] == Update(t[1..], key, time);
      assert RowsOf(u, mac) == (if u[0].mac == mac then [u[0]] else []) + RowsOf(u[1..], mac);
      if t[0].mac == mac {
        assert RowsOf(t, mac)[1..] == RowsOf(t[1..], mac);
      }
    }
  }

  /** A deletion leaves no row of its address and every row of all others, in order. */
  lemma {:induction false} DeleteKeepsEveryOtherRow(t: Table, key: string, mac: string)
    ensures RowsOf(Delete(t, key), mac) == if mac == key then [] else RowsOf(t, mac)
  {
    if t != [] {
      DeleteKeepsEveryOtherRow(t[1..], key, mac);
      if t[0].mac != key {
        assert Delete(t, key)[1..] == Delete(t[1..], key);
      }
    }
  }

  /** Counting and finding are about these rows: Find yields the first of them. */
  lemma {:induction false} RowsAreWhatIsFound(t: Table, mac: string)
    ensures |RowsOf(t, mac)| == Count(t, mac)
    ensures Find(t, mac) == if RowsOf(t, mac) == [] then None else Some(RowsOf(t, mac)[0])
  {
    if t != [] {
      RowsAreWhatIsFound(t[1..], mac);
    }
  }
}
