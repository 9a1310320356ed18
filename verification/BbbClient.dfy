/** The BBB client: a status byte and a connected flag decide which meter frames reach the server. */
module BbbClient {
  import opened Crc8
  import opened Frames
  import opened Wrappers

  const ON: bv8 := 1
  const OFF: bv8 := 2
  const RESTART: nat := 3
  const STAY_ON: bv8 := 6
  const STAY_OFF: bv8 := 7
  const LOCATION_NAME_MAX_LEN: nat := 12
  const ERROR_MESSAGE := "ERROR"

  // ----- The environment of one button press -----

  /** How the network behaves: whether connect and send succeed, and what recv yields. */
  datatype Net = Net(connects: bool, sends: bool, reply: Option<string>)

  /** The STM either stays silent for a second or delivers ten bytes. */
  datatype Press = Unanswered | Answered(frame: Bytes, net: Net)

  predicate ValidPress(p: Press) {
    p.Answered? ==>
      && |p.frame| == BUFFER_SIZE
      && (p.net.reply.Some? ==> |p.net.reply.value| <= LOCATION_NAME_MAX_LEN)
  }

  // ----- The automaton -----

  /** A socket the client has opened and the frames it has carried. */
  datatype Socket = Socket(established: bool, sent: seq<Bytes>)

  /** The client at the head of its loop. `location` is the receive buffer, stale bytes included; the
      last socket is the current one. */
  datatype Bbb = Bbb(status: bv8, errors: nat, connected: bool, running: bool, location: string, sockets: seq<Socket>)

  function Start(location: string): Bbb {
    Bbb(ON, 0, false, true, location, [])
  }

  /** The status byte after checking a frame. */
  function Checked(frame: Bytes): bv8
    requires |frame| == BUFFER_SIZE
  {
    if Accepts(frame) then frame[0] else if frame[0] == ON then STAY_ON else STAY_OFF
  }

  /** The next status byte; the addition wraps at 256. */
  function Advanced(status: bv8): (r: bv8)
    ensures r == ON || r == OFF
  {
    if (status + 1) % 3 == 0 then ON else (status + 1) % 3
  }

  predicate Delivers(sockets: seq<Socket>, net: Net) {
    sockets != [] && sockets[|sockets| - 1].established && net.sends
  }

  function Transmitted(sockets: seq<Socket>, frame: Bytes, net: Net): seq<Socket> {
    if Delivers(sockets, net) then
      var last := |sockets| - 1;
      sockets[last := sockets[last].(sent := sockets[last].sent + [frame])]
    else sockets
  }

  /** recv into the location buffer: the reply replaces a prefix of what was there. */
  function Received(location: string, reply: Option<string>): string {
    if reply.Some? && |reply.value| <= |location| then reply.value + location[|reply.value|..] else location
  }

  /** Connect, send and judge the reply. The error results of connect and send are compared through an
      unsigned byte, so neither is ever noticed; only the buffer decides. */
  function ConnectStep(b: Bbb, frame: Bytes, net: Net): Bbb {
    var dialled := b.sockets + [Socket(net.connects, [])];
    var location := if Delivers(dialled, net) then Received(b.location, net.reply) else b.location;
    var failed := CString(location) == ERROR_MESSAGE;
    b.(sockets := Transmitted(dialled, frame, net), location := location, connected := !failed,
       status := if failed then STAY_ON else b.status)
  }

  /** Send CLOSE and wait for the payment; a failure of either ends the program. */
  function CloseStep(b: Bbb, frame: Bytes, net: Net): Bbb {
    var paid := Delivers(b.sockets, net) && net.reply.Some?;
    b.(sockets := Transmitted(b.sockets, frame, net), connected := b.connected && !paid, running := paid)
  }

  function PressStep(b: Bbb, p: Press): Bbb
    requires b.running && ValidPress(p)
  {
    match p
    case Unanswered => b.(errors := b.errors + 1, running := b.errors + 1 != RESTART)
    case Answered(frame, net) =>
      if b.status != ON && b.status != OFF then b.(status := Advanced(b.status))
      else
        var b1 := b.(status := Checked(frame));
        var b2 := if b1.status == ON && !b1.connected then ConnectStep(b1, frame, net) else b1;
        var b3 := if b2.status == OFF && b2.connected then CloseStep(b2, frame, net) else b2;
        if b3.running then b3.(status := Advanced(b3.status)) else b3
  }

  /** The client after a history of presses; it stops for good once its loop has quit. */
  function After(b: Bbb, ps: seq<Press>): Bbb
    requires forall p :: p in ps ==> ValidPress(p)
    decreases |ps|
  {
    if ps == [] || !b.running then b else After(PressStep(b, ps[0]), ps[1..])
  }

  // ----- The program -----

  /** The client's checksum comparison. */
  method Crc8Check(buff: array<bv8>, status: bv8) returns (status': bv8)
    requires buff.Length == BUFFER_SIZE
    ensures Accepts(buff[..]) ==> status' == status
    ensures !Accepts(buff[..]) ==> status' == if status == 1 then 6 else 7
  {
    var crc := CalculateCrc8(buff, PANGO_DATA_SIZE);
    assert buff[..][..BUFFER_SIZE - 1] == buff[..PANGO_DATA_SIZE];
    status' := status;
    if buff[9] != crc {
      if status == ON {
        status' := STAY_ON;
      } else {
        status' := STAY_OFF;
      }
    }
  }

  class Client {
    const dataBuff: array<bv8>
    const location: array<char>
    var status: bv8
    var stmDataReceiveError: nat
    var connected: bool
    var loop: bool
    var sockets: seq<Socket>

    predicate Valid() {
      && dataBuff.Length == BUFFER_SIZE && location.Length == LOCATION_NAME_MAX_LEN
      && dataBuff as object != location as object
    }

    function View(): Bbb
      reads this, location
    {
      Bbb(status, stmDataReceiveError, connected, loop, location[..], sockets)
    }

    /** The receive buffer is not initialised: it starts with whatever the stack held. */
    constructor (garbage: string)
      requires |garbage| == 12
      ensures Valid() && fresh(dataBuff) && fresh(location) && View() == Start(garbage)
      ensures status == 1 && stmDataReceiveError == 0 && !connected && loop && sockets == []
    {
      dataBuff := new bv8[BUFFER_SIZE];
      location := new char[LOCATION_NAME_MAX_LEN](i requires 0 <= i < |garbage| => garbage[i]);
      status, stmDataReceiveError, connected, loop, sockets := ON, 0, false, true, [];
    }

    method UpdateStatusValue()
      modifies this`status
      ensures status == Advanced(old(status))
    {
      status := status + 1;
      status := status % 3;
      if status == 0 {
        status := status + 1;
      }
    }

    method Send(frame: Bytes, net: Net) returns (ok: bool)
      modifies this`sockets
      ensures ok == Delivers(old(sockets), net) && sockets == Transmitted(old(sockets), frame, net)
    {
      var last := |sockets| - 1;
      ok := last >= 0 && sockets[last].established && net.sends;
      if ok {
        sockets := sockets[last := sockets[last].(sent := sockets[last].sent + [frame])];
      }
    }

    /** recv of a reply into the location buffer. */
    method ReceiveLocation(reply: string)
      requires Valid() && |reply| <= LOCATION_NAME_MAX_LEN
      modifies location
      ensures location[..] == Received(old(location[..]), Some(reply))
    {
      var i := 0;
      while i < |reply|
        invariant i <= |reply|
        invariant forall j :: 0 <= j < i ==> location[j] == reply[j]
        invariant forall j :: i <= j < location.Length ==> location[j] == old(location[j])
      {
        location[i] := reply[i];
        i := i + 1;
      }
    }

    /** Open a socket, send the frame and receive the location into the buffer. */
    method ConnectToServer(frame: Bytes, net: Net)
      requires Valid() && ValidPress(Answered(frame, net))
      modifies this`status, this`connected, this`sockets, location
      ensures View() == ConnectStep(old(View()), frame, net)
    {
      hide Delivers, Transmitted, CString;
      sockets := sockets + [Socket(net.connects, [])];
      var sent := Send(frame, net);
      if sent && net.reply.Some? {
        ReceiveLocation(net.reply.value);
      }
      assert Received(old(location[..]), None) == old(location[..]);
      Crc8ServerSideValue();
    }

    /** strcmp of the buffer with the server's error message. */
    method Crc8ServerSideValue()
      modifies this`status, this`connected
      ensures connected == (CString(location[..]) != "ERROR")
      ensures status == if connected then old(status) else 6
    {
      if CString(location[..]) != ERROR_MESSAGE {
        connected := true;
      } else {
        status := STAY_ON;
        connected := false;
      }
    }

    /** Send the quitting request and receive the payment; a failure of either quits the loop. */
    method CloseSession(frame: Bytes, net: Net)
      requires connected && loop
      modifies this`sockets, this`connected, this`loop
      ensures View() == CloseStep(old(View()), frame, net)
    {
      hide Delivers, Transmitted;
      var ok := Send(frame, net);
      if !ok || net.reply.None? {
        loop := false;
      } else {
        connected := false;
      }
    }

    /** Read the STM's bytes; the status byte tells whether they pass the checksum. */
    method ReadFrame(frame: Bytes)
      requires Valid() && |frame| == BUFFER_SIZE
      modifies this`status, dataBuff
      ensures dataBuff[..] == frame && View() == old(View()).(status := Checked(frame))
    {
      hide Accepts;
      forall i | 0 <= i < BUFFER_SIZE { dataBuff[i] := frame[i]; }
      assert dataBuff[..] == frame;
      status := dataBuff[0];
      status := Crc8Check(dataBuff, status);
      assert location[..] == old(location[..]);
    }

    /** One iteration of the main loop. */
    method HandlePress(p: Press)
      requires Valid() && loop && ValidPress(p)
      modifies this, dataBuff, location
      ensures View() == PressStep(old(View()), p)
      ensures p.Unanswered? ==> View() == old(View()).(errors := old(stmDataReceiveError) + 1,
                                                       running := old(stmDataReceiveError) + 1 != 3)
    {
      hide ConnectStep, CloseStep, Accepts, Advanced, Checked;
      if p.Unanswered? {
        stmDataReceiveError := stmDataReceiveError + 1;
        if stmDataReceiveError == RESTART {
          loop := false;
        }
        return;
      }
      if status == ON || status == OFF {
        ReadFrame(p.frame);
        if status == ON && !connected {
          ConnectToServer(p.frame, p.net);
        }
        if status == OFF && connected {
          CloseSession(p.frame, p.net);
          if !loop {
            return;
          }
        }
      }
      UpdateStatusValue();
    }

    /** The main loop, over a history of presses. */
    method HandlePresses(ps: seq<Press>)
      requires Valid() && forall p :: p in ps ==> ValidPress(p)
      modifies this, dataBuff, location
      ensures View() == After(old(View()), ps)
    {
      var i := 0;
      while i < |ps| && loop
        invariant i <= |ps|
        invariant After(View(), ps[i..]) == After(old(View()), ps)
      {
        assert ps[i..][1..] == ps[i + 1..];
        HandlePress(ps[i]);
        i := i + 1;
      }
    }
  }
}
