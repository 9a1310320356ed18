/** The simple parking meter that the server is meant to implement: per MAC address the place where it
    asked to park, the intervals during which it was connected, and whether one is still open. There
    is no table, no slot, no stored start time and no backup in it. */
module Meter {
  import opened ParkingTable
  import opened Wrappers

  datatype Interval = Interval(from: int, to: int)

  /** The server crashes that cut off an open interval: how many, and the seconds that the updater
      could then not have saved, because the client was not yet, or no longer, marked as connected. */
  datatype Cuts = Cuts(count: nat, unseen: int)

  /** The coordinates on a START. */
  datatype Place = Place(x: bv8, y: bv8)

  datatype Meter = Meter(place: Place, past: seq<Interval>, since: Option<int>, crashes: Cuts)

  datatype Bill = Bill(mac: string, place: Place, seconds: int, crashes: Cuts)

  /** Where an address last asked to park, and when that was seen. */
  datatype Sighting = Sighting(place: Place, at: int)

  /** `asked` are the places on the STARTs that have arrived, `sighted` those that have been seen. */
  datatype Ledger = Ledger(
    meters: map<string, Meter>, bills: seq<Bill>, asked: map<string, Place>, sighted: map<string, Sighting>)

  datatype Happening =
    | Nothing
    | Asked(mac: string, place: Place)
    | Sighted(mac: string, at: int)
    | Opened(mac: string)
    | Reopened(mac: string, at: int)
    | Stopped(mac: string, at: int)
    | Settled(mac: string)
    | Crashed(at: int, unseen: map<string, int>)

  /** The summed length of the connected intervals. */
  function Total(past: seq<Interval>): int {
    if past == [] then 0
    else Total(past[..|past| - 1]) + past[|past| - 1].to - past[|past| - 1].from
  }

  function StopMeter(m: Meter, at: int): Meter {
    match m.since
    case None => m
    case Some(from) => m.(past := m.past + [Interval(from, at)], since := None)
  }

  function CrashMeter(m: Meter, at: int, unseen: int): Meter {
    StopMeter(m, at).(crashes :=
      if m.since.Some? then Cuts(m.crashes.count + 1, m.crashes.unseen + unseen) else m.crashes)
  }

  function Follow(l: Ledger, h: Happening): Ledger {
    match h
    case Nothing => l
    case Asked(mac, place) => l.(asked := l.asked[mac := place])
    case Sighted(mac, at) =>
      if mac in l.asked then l.(sighted := l.sighted[mac := Sighting(l.asked[mac], at)]) else l
    case Opened(mac) =>
      if mac in l.sighted then
        l.(meters := l.meters[mac := Meter(l.sighted[mac].place, [], Some(l.sighted[mac].at), Cuts(0, 0))])
      else l
    case Reopened(mac, at) =>
      if mac in l.meters && l.meters[mac].since.None? then
        l.(meters := l.meters[mac := l.meters[mac].(since := Some(at))])
      else l
    case Stopped(mac, at) =>
      if mac in l.meters then l.(meters := l.meters[mac := StopMeter(l.meters[mac], at)]) else l
    case Settled(mac) =>
      if mac in l.meters then
        var m := l.meters[mac];
        l.(meters := l.meters - {mac}, bills := l.bills + [Bill(mac, m.place, Total(m.past), m.crashes)])
      else l
    case Crashed(at, unseen) =>
      l.(meters := map mac | mac in l.meters ::
           CrashMeter(l.meters[mac], at, if mac in unseen then unseen[mac] else 0))
  }

  lemma StopTotal(m: Meter, at: int)
    ensures Total(StopMeter(m, at).past) ==
            Total(m.past) + (match m.since case None => 0 case Some(from) => at - from)
  {
    if m.since.Some? {
      var p := m.past + [Interval(m.since.value, at)];
      assert p[..|p| - 1] == m.past;
    }
  }

  /** What parking at a place costs: the price per second of the city it lies in, or nothing if that
      city has no price. */
  ghost predicate Costs(prices: map<City, real>, place: Place, seconds: int, amount: real) {
    exists city :: Within(place.x, place.y, city)
                && amount == if city in prices then prices[city] * seconds as real else 0.0
  }

  // ----- The intervals of a meter -----

  /** Intervals in order, none running backwards and no two overlapping, all over by `now`. */
  ghost predicate Ordered(past: seq<Interval>, now: int) {
    && (forall k :: 0 <= k < |past| ==> past[k].from <= past[k].to <= now)
    && (forall j, k :: 0 <= j < k < |past| ==> past[j].to <= past[k].from)
  }

  ghost predicate MeterOk(m: Meter, now: int) {
    Ordered(m.past, match m.since case None => now case Some(from) => from)
    && (m.since.Some? ==> m.since.value <= now)
  }

  ghost predicate LedgerOk(l: Ledger, now: int) {
    && (forall mac :: mac in l.meters ==> MeterOk(l.meters[mac], now))
    && (forall mac :: mac in l.sighted ==> l.sighted[mac].at <= now)
  }

  lemma StopKeepsOrder(m: Meter, at: int, now: int)
    requires MeterOk(m, at) && at <= now
    ensures MeterOk(StopMeter(m, at), now)
  {
  }

  /** Whatever happens at the current time keeps all intervals in order. */
  lemma FollowKeepsOrder(l: Ledger, h: Happening, now: int)
    requires LedgerOk(l, now)
    requires match h
             case Sighted(_, at) => at == now
             case Reopened(_, at) => at == now
             case Stopped(_, at) => at == now
             case Crashed(at, _) => at == now
             case _ => true
    ensures LedgerOk(Follow(l, h), now)
  {
    match h
    case Stopped(mac, _) => if mac in l.meters { StopKeepsOrder(l.meters[mac], now, now); }
    case Crashed(_, unseen) =>
      forall mac, lost | mac in l.meters ensures MeterOk(CrashMeter(l.meters[mac], now, lost), now) {
        StopKeepsOrder(l.meters[mac], now, now);
      }
    case _ =>
  }

  lemma LedgerAges(l: Ledger, now: int, later: int)
    requires LedgerOk(l, now) && now <= later
    ensures LedgerOk(l, later)
  {
  }
}
