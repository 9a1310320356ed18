# PANNGO parking meter: model and proofs

PANNGO is a parking meter in three parts. An STM board builds a 10-byte frame (status, six MAC bytes,
two coordinates, CRC-8). A BBB client checks the frame and decides whether it reaches the server. A
multi-threaded server bills parked time with the help of an SQLite table. This project models the
three parts and proves what their combination is for: a corrupted frame is not billed, and a client
pays for the time it was connected, at the price of the city where it first parked.

`dafny verify dfyconfig.toml` checks everything.

## The model

**Frames.** `Crc8` is the bitwise loop (initial value 0xFF, polynomial 0x8D, most significant bit
first), written as the imperative method `CalculateCrc8` over an array and specified by `Crc`.
`Gf2` has polynomials over GF(2) as bit sequences, with multiplication by the generator
x^8+x^7+x^3+x^2+1. `CrcDetection` proves that the loop is division by that generator, and derives
what the checksum detects. `Frames` has the pack loop of the STM board and the check of the server,
both in place on arrays; `MacText` has the unpadded hexadecimal text that is the database key.

**Server.** `Billing` is the server as a state machine: one event for each stretch of code that runs
under the mutex, and for each unlocked access to a client's own record. Any interleaving of any number
of sessions, the updater thread, the clock and crashes of the process is a run. `PangoServer` is the
same server in its own form: records with mutable fields, the unpack loop writing through a moving
offset, critical sections as methods, and the updater's loop over the records. Every method is proved
to be exactly one step of the state machine. `ParkingTable` is the table as a sequence of rows without
a key constraint, because that is what the schema declares.

**The simple meter.** `Meter` is the reference: per MAC address the coordinates on its START, a list of
connected intervals, and whether an interval is open. It has no table, no slots, no cities, no stored start
time and no backups; what a bill costs is written out from the map of the cities (`Within`) and the price
list (`Costs`).
`BillingInvariant` states how the server tracks it, `BillingSteps` proves it step by step, and
`BillingTheorems` draws the conclusions for all runs. The meter is told addresses, coordinates and the
clock, and never reads a slot's start time. `BackupStutter` replaces all backups of a run by the seconds
they take and compares. `Lag` has the exact distance between the table and a running client.
`RowUniqueness` makes no assumption about clients at all. `RowFate` follows the row of one address while
sessions wait for its lock; `Violations` has what each broken assumption costs, and `BillingExceptions`
concrete runs on which that happens.

**Client.** `BbbClient` is the BBB main loop as a class and as an automaton over button presses, with
arbitrary bytes from the STM and an arbitrary network; `BbbTheorems` has its properties.

**Together.** `EndToEnd` follows a frame over two noisy hops. `WholeSystem` lets every session of the
server read a socket of some client's whole history of button presses, over two noisy hops, and shows that
the server's assumptions are then met and that bills are exact but for crashes. Four assumptions remain:
the socket has not lost its START (what happens on the client's other sockets does not matter), no frame
reaches a session corrupted once its client is parking, no meter has two live sessions at a time, and no
crash falls between a payment and the deletion of its row.

An interval of the meter begins when the clock is read for the client (at the existence check of a new
client, under the lock of a returning one) and ends with the time written at CLOSE or after a lost
connection. The seconds between clearing the flag and that last write are billed.

## Assumptions

The clock counts whole seconds and never runs backwards. Database calls succeed. The server's `recv`
yields a whole frame or 0; the client's UART read yields ten arbitrary bytes. Prices are real numbers.

The billing theorems need two more, both stated as predicates on single events:

- `Polite`: a START opens a connection, further ones are harmless only once the session has resumed an
  earlier parking; then frames of the same address; no corrupted frame once parking has started; at most
  one live session per address; no crash between a payment and the deletion of its row.
  `EveryViolationIsListed` splits the impolite events into six kinds, and `Violations` says for each what
  it costs through any interleaving and, where that can be nothing, exactly when. (Of two sessions that
  wait at one row, `FirstOfTwoAtTheLock` and then `ShareTheRow` say what each gets; two that both found
  none are the race of `RowUniqueness`.)
- `Prompt` (only for the bounds in seconds): the updater loop runs at least once in each backup second.
  The seconds a session spends unseen by the updater, because its flag is not yet or no longer set, are
  counted and appear in the bounds.

## Where the code does less than it promises

- A corrupted frame after START ends the session without clearing `connected`. The record counts on for
  the life of the process and overwrites the row at every backup (`CorruptExitKeepsCounting`).
- A second START on the connection of a new client re-reads the stored time and forgets what was not
  yet backed up (`RepeatedStart`).
- A START that finds the row of a settled parking resumes the paid time and is billed for it again, if it
  gets the lock before the deletion. If the deletion is faster, the client is connected without a row, at
  no city: it pays the price of no city, and a lost connection stores nothing (`PaidRowAtTheLock`,
  `WithoutRowNothingIsStored`, `PaidRowVanishesOccurs`).
- A second session of a running address takes over the stored time; both pay in full, and the first CLOSE
  takes the row away from the second session (`SecondSessionAtTheLock`, `TwoSessionsPayTwice`,
  `CloseDeletesTheOthersRow`).
- A CLOSE of another address on a running session is billed in the foreign name and deletes the foreign
  row (`ForeignCloseBillsAnother`).
- A CLOSE on a connection without a START is answered with a payment of 0 and deletes the row of the
  address with all it owed; a client whose START was lost sends exactly that (`CloseWithoutStartIsFree`,
  `LostStartParksForFree`).
- A connection lost after a frame other than START or CLOSE writes the whole clock into the row
  (`LostBeforeStart`).
- A new client may wait for the lock with its start time read and its flag not set; the table then lags
  behind it by more than the five seconds of the backup period (`LagWhenFlagIsSet`, `LagOfSixOccurs`).
- A frame with status byte 255 reads as a failed check from then on: the session keeps running but
  stores no further frame (`StatusOf255Deafens`).
- The existence check is made outside the lock; two sessions that race through it insert two rows,
  and nothing else can (`RowsStayOkUnlessRaced`).
- The client stores the error results of connect and send in unsigned bytes and compares them with -1
  (client/main_client.c:116, 127), so it never notices them (`ConnectErrorsGoUnnoticed`). A START lost
  this way makes the next CLOSE travel alone (`LostStartSendsBareClose`). A send on a socket that never
  connected raises SIGPIPE, so going on after an unnoticed failed connect presupposes that this signal is
  ignored.
- The server's 5-byte error message has no NUL; the client recognises it only if the next byte of its
  buffer happens to be one (`ErrorReplyNeedsStaleNul`).
- For coordinates above 127 the location text is itself "ERROR"; the server parks the client while the
  client believes it was refused and starts a second session (`OutOfRangeStartsTwice`). The shipped meter
  draws its coordinates below 128 (STM/PANGO_L/PNG/Src/random_number_generator.c:24-65), so this needs
  another source of coordinates.
- The count of unanswered presses is never reset (`StopsAtThirdSilence`).
- A CLOSE whose payment does not arrive ends the client with its flag still set, although the CLOSE was sent
  (`CloseNeedsThePayment`).
- The repository's README announces a backup every 10 seconds; the code uses 5, and so does the model.
- `*status = (++(*status)) % 3` modifies an object twice without a sequence point; the model takes the
  evident meaning.

## Model

| member | source | states |
|---|---|---|
| Crc8.CalculateCrc8 | server/client/client_thread_func.c:55-71 | The in-place loop over any prefix of an array returns the register specified by `Crc`. |
| Crc8.AcceptsIsZeroRegister | server/client/client_thread_func.c:85-98 | Comparing the last byte with the checksum of the bytes before it is the same as the checksum of the whole being zero, for any length. |
| Crc8.ChecksumByteUnique | server/client/client_thread_func.c:85-98 | For given data exactly one final byte is accepted, the checksum, and it makes the register zero. |
| Crc8.ByteStepBijective | client/client_func.c:45-65 | The register step for one byte is a bijection of the register, with an explicit inverse. |
| Crc8.RegisterIsBitSerial | server/client/client_thread_func.c:58-68 | Mixing in whole bytes and shifting eight times equals feeding the message bit by bit. |
| CrcDetection.CrcIsTheRemainder | STM/PANGO_L/PNG/Src/pango_functions.c:71-93 | A byte is the checksum of a message if and only if it is the remainder of x^(8n)(x^7 + ... + 1) + data x^8 modulo the generator: the register starts with all its bits set. |
| CrcDetection.CrcIsAffine | client/client_func.c:45-65 | crc(a+b+c) = crc(a)+crc(b)+crc(c) for equal lengths. |
| CrcDetection.AcceptanceDependsOnErrorOnly | server/client/client_thread_func.c:85-98 | Whether a corrupted frame is accepted depends on the flipped bits alone, never on the payload. |
| CrcDetection.UnnoticedIffMultiple | server/client/client_thread_func.c:55-98 | A corruption goes unnoticed if and only if its bits are a multiple of the generator. |
| CrcDetection.BurstsAreNoticed | server/client/client_thread_func.c:55-98 | Every burst within 8 bits is rejected anywhere in a message of any length; a 9-bit burst is accepted only when it is the generator itself. |
| CrcDetection.TwoFlipsUnnoticedIff255 | server/client/client_thread_func.c:55-98 | Two flipped bits go unnoticed if and only if their distance is a multiple of 255, for any length. |
| CrcDetection.OrderOfX | server/client/client_thread.h:37 | x has order exactly 255 modulo the polynomial of the code. |
| CrcDetection.WeakErrorsAreNoticed | server/client/client_thread_func.c:85-98 | On frames of up to 31 bytes any corruption of at most two bits or one 8-bit burst is rejected unless it changed nothing. |
| MacText.TextRoundTrip | server/client/client_thread_func.c:123-133 | The unpadded colon-separated text parses back to the bytes it was printed from. |
| MacText.TextIsUnpadded | server/client/client_thread_func.c:123-133 | Field k of the text is byte k in lower-case hexadecimal, one digit below 16, never with a leading zero, followed by a colon or the end. |
| MacText.HexByteIsUnpadded | server/client/client_thread_func.c:129-133 | A byte prints as one digit below 16 and as two otherwise, and begins with '0' only if it is 0. |
| MacText.TextInjective | server/client/client_thread_func.c:123-133 | Two addresses have the same database key if and only if they are equal. |
| MacText.TextFits | server/client/client_thread.h:31 | The key of six bytes and its NUL fit the 18-byte field. |
| Frames.PackPangoBuffer | STM/PANGO_L/PNG/Src/pango_functions.c:33-60 | The loop fills the first nine bytes with status, address and coordinates and leaves the rest alone. |
| Frames.BuildFrame | STM/PANGO_L/PNG/Src/PNG.c:60-69 | The transmitted buffer is the sealed frame, it is accepted, and each field is at its place. |
| Frames.ServerCrcCheck | server/client/client_thread_func.c:85-98 | The comparison passes exactly on frames that decode, and a failure sets status 255. |
| ParkingTable.AfterInsert | server/client/new_client/new_client.c:125-145 | An inserted row adds one to the count of its address only, and is found unless an older row is found first. |
| ParkingTable.AfterUpdate | server/client/client_thread_func.c:235-261 | An update changes no count, and what is found for an address changes only in the time of the updated one. |
| ParkingTable.AfterDelete | server/client/client_thread_func.c:298-318 | A deletion leaves no row of the address, and the count and the row found for every other. |
| ParkingTable.UpdateSetsEveryRow | server/client/client_thread_func.c:235-261 | An update sets the time of every row of the address, duplicates included, and of no other row. |
| ParkingTable.DeleteKeepsEveryOtherRow | server/client/client_thread_func.c:298-318 | A deletion removes every row of the address and keeps every other row in order. |
| ParkingTable.RowsAreWhatIsFound | server/client/existing_client/existing_client.c:59-96 | A selection yields the first of the rows of the address, if there is one, and their number is the count. |
| PangoServer.PangoData.StoreClientData | server/client/client_thread_func.c:111-142 | The unpack loop stores status, address text and coordinates, and nothing after a status of 255. |
| PangoServer.PangoServer.constructor | server/main_server.c:31-32 | The records start as separate, zeroed storage: the state Initial. |
| PangoServer.PangoServer.Accept | server/main_server.c:95-107 | A new connection occupies an unused slot and only makes its thread listen: the step AcceptStep. |
| PangoServer.PangoServer.ReceiveFrame | server/client/client_thread.c:45-72 | Receiving, checking, storing and branching on a frame is the step ReceiveStep; a failed check ends the session with the flag untouched. |
| PangoServer.PangoServer.Lookup | server/client/client_thread.c:73-90 | The existence check, with start time and city of a new client, is the step LookupStep; the city is the one whose bounds hold the coordinates. |
| PangoServer.PangoServer.RetrievePrice | server/client/new_client/new_client.c:85-115 | The price becomes exactly the number in the row of the city, and stays as it was when the city has no row. |
| PangoServer.PangoServer.RetrieveClientData | server/client/existing_client/existing_client.c:24-153 | Resuming re-encodes the start time as now minus the stored time and restores city and price: the step ResumeStep. |
| PangoServer.PangoServer.InsertClientData | server/client/new_client/new_client.c:32-51 | The locked part of a new client sets its price and inserts its row: the step InsertRowStep. |
| PangoServer.PangoServer.SetConnected | server/client/client_thread.c:91-96 | The flag is set in a step of its own, SetConnectedStep, after the row is inserted. |
| PangoServer.PangoServer.UpdateClientData | server/client/client_thread_func.c:235-261 | The time since the start is written to the rows of the address, and the clock value returned. |
| PangoServer.PangoServer.Close | server/client/client_thread.c:100-115 | Under one lock the closing time is written and the flag cleared: the step CloseStep. |
| PangoServer.PangoServer.SendPayment | server/client/client_thread_func.c:274-288 | Price times elapsed seconds is sent, computed from the closing time: the step PayStep. |
| PangoServer.PangoServer.RemoveClientData | server/client/client_thread.c:125-130 | The rows of the address are deleted after the payment: the step RemoveStep. |
| PangoServer.PangoServer.LoseConnection | server/client/client_thread_func.c:22-44 | A lost connection clears the flag only: the step LoseStep. |
| PangoServer.PangoServer.FinalWrite | server/client/client_thread.c:131-136 | The time of a lost client is written under a second lock: the step FinalWriteStep. |
| PangoServer.PangoServer.UpdateClients | server/database/parking_time_db/db_update_thread_func.c:58-91 | The loop over the records writes the clock, read anew for each, minus start for exactly the connected ones: BackupPass. |
| PangoServer.PangoServer.BackupIteration | server/database/parking_time_db/db_update_thread.c:24-36 | One iteration backs up in every fifth second; the last one flushes unconditionally, once: BackupStep. |
| BillingTheorems.NewClientIsLocated | server/client/new_client/new_client.c:181-199 | Through any interleaving, a START at x, y without a row parks in Jerusalem if and only if x <= 70 < y <= 127, and likewise for the other three cities and the error, counting from its lookup. |
| BillingTheorems.PaymentsAreTheMetersBills | server/client/client_thread.c:100-130 | In every run each payment is the simple meter's bill: the listed price (or nothing) of the city in whose bounds the coordinates of the first START lie, times the summed intervals; crashes, even in the middle of a backup pass, never overcharge, and with a prompt updater lose at most five seconds each and the seconds the session was unseen or a cut pass had not reached it. |
| BillingTheorems.OnlyFramesChangeTheRecord | server/client/client_thread_func.c:111-142 | Until a crash, the address and coordinates of a record change only when its own session receives a frame. |
| BillingTheorems.PricesAreFixed | server/client/new_client/new_client.c:85-115 | The price list is the same at the end of every run as at its start. |
| BillingTheorems.OnlyPoliteEventsKeepGood | server/client/client_thread.c:45-136 | The polite events, and no others, keep the server invariant and the correspondence with the meter. |
| BillingTheorems.IntervalsStayOrdered | server/client/existing_client/existing_client.c:110-124 | The intervals billed are in order and disjoint in every reachable state. |
| BillingTheorems.RowsExactlyWhileParked | server/client/client_thread.c:71-130 | An address has a row exactly from its insertion until its paid row is deleted, and never two. |
| BillingTheorems.ConnectedSlots | server/client/client_thread.c:91-136 | A connected slot has exactly one row and shares its address with no other connected slot; a session that closed or lost its connection, or has not yet been served its first START, is not connected. |
| BillingTheorems.TableLagsAtMostFiveSeconds | server/database/parking_time_db/db_update_thread_func.c:33-91 | With a prompt updater the stored time never runs ahead of a connected slot and lags at most 5 seconds and the seconds between its existence check and its flag, counted until the next pass over its record. |
| BillingTheorems.LagWhenFlagIsSet | server/client/new_client/new_client.c:27-51 | When the flag of a new client is set, the lag is exactly the seconds since its start time was read. |
| Lag.LagIsTimeSinceSeen | server/database/parking_time_db/db_update_thread_func.c:58-91 | In every reachable state, prompt or not, the table lags behind a running client by exactly the time since its start was read, its row resumed, or its record last passed. |
| Lag.LagAtPass | server/database/parking_time_db/db_update_thread_func.c:33-91 | When a regular pass comes, the lag is at most five seconds if and only if no backup second was missed since then. |
| BillingTheorems.PassMakesUpForDelay | server/database/parking_time_db/db_update_thread_func.c:58-91 | After a pass the lag is exactly the seconds since the pass read the record, none if the rest of the pass took none. |
| BillingTheorems.IterationWrites | server/database/parking_time_db/db_update_thread_func.c:33-112 | In every good state the last iteration of the updater writes in any second, the others exactly in every fifth one: each connected row gets the clock at which its record was read, minus its start; otherwise the table stays as it was. |
| BillingTheorems.UpdaterStartsAndStops | server/database/parking_time_db/db_update_thread.c:25-37 | After its last iteration the updater does nothing more in that process, and its start time never changes. |
| BillingTheorems.BackupSecondsCountFromStart | server/database/parking_time_db/db_update_thread.c:19 | Until a crash the backup seconds count from the start of the process. |
| BillingTheorems.BackupSecondsCountFromRestart | server/database/parking_time_db/db_update_thread.c:19 | After a crash they count from the restart. |
| BillingTheorems.TimeUsedGrows | server/database/parking_time_db/db_update_thread_func.c:58-91 | While a row exists its stored time never decreases. |
| BillingSteps.StepKeepsGood | server/client/client_thread.c:45-136 | Every allowed event keeps the server invariant and the correspondence with the simple meter. |
| BillingSteps.AfterBackup | server/database/parking_time_db/db_update_thread_func.c:58-91 | A backup sets the row of each connected address to the clock at its record minus start and leaves all other rows unchanged. |
| BackupStutter.BackupStutters | server/database/parking_time_db/db_update_thread.c:24-36 | A backup is invisible to the meter and changes nothing but stored times and, by the time it takes, the clock. |
| BackupStutter.BackupsChangeNoPayment | server/database/parking_time_db/db_update_thread.c:24-36 | Replacing all backups of a run, cut ones included, by the seconds they took leaves a possible run with the same bills, and the same payments where no crash cut parking off. |
| RowUniqueness.RowsStayOkUnlessRaced | server/client/client_thread.c:73-90 | Without any assumption on clients, an event can lead to a second row if and only if it is a lookup racing with an insertion of the same address. |
| RowUniqueness.RaceDoublesTheRow | server/client/client_thread.c:73-90 | After that race both sessions insert, and the address has two rows. |
| RowUniqueness.NoAddressHasTwoRows | server/client/client_thread.c:71-98 | In every run without that race no address ever has two rows, repeated STARTs included. |
| Violations.EveryViolationIsListed | server/client/client_thread.c:45-136 | An event is impolite if and only if it is one of six listed kinds. |
| Violations.RepeatedStart | server/client/client_thread.c:72-98 | Through any interleaving, a repeated START is ignored by a session that had resumed; otherwise it loses exactly the lag of the row when the lock is taken, nothing if and only if the row is then current. |
| Violations.StatusOf255Deafens | server/client/client_thread_func.c:111-142 | After an intact frame with status 255, whatever frames arrive through any interleaving, the session goes on listening with the record that frame left. |
| Violations.GoneForGood | server/client/client_thread.c:143-167 | A finished session never touches its record again, in any run without a crash. |
| Violations.CorruptExitKeepsCounting | server/client/client_thread.c:62-66 | After a corrupted frame and any run without a crash, every backup with no other connected session of the address writes the time since the old start into its row. |
| RowFate.RunHolds | server/client/client_thread_func.c:235-318 | Over any run in which no other session gets at it, the row of an address is what its owner and the updater made of it. |
| RowFate.ResumeAtTheLock | server/client/existing_client/existing_client.c:24-153 | A session that has waited for the lock resumes time, city and price of the row if it is still there; otherwise it counts from its stale start, at its stale city, without a row. |
| Violations.CorruptExitResumes | server/client/client_thread.c:137-143 | Over any crash-free run in which no other session takes the address, the client resumes at its time of the cut if and only if the last save was in that second or, without one, the row was current. |
| Violations.CloseBills | server/client/client_thread.c:100-130 | Through any interleaving a CLOSE bills its session's own price and the time from its own start to the lock, in the name on the frame, and leaves no row of that name. |
| Violations.ForeignFrameAbandonsRow | server/client/client_thread_func.c:111-142 | Over any crash-free run in which no other session takes the address, nothing touches the old row after a frame of another address. |
| Violations.AbandonedClientResumesStale | server/client/existing_client/existing_client.c:59-121 | Over any such run the client of the old address resumes at its time of the frame if and only if its row was then current. |
| Violations.ForeignFrameOverwritesRow | server/client/client_thread_func.c:111-142 | The row of the address that came in gets the other's parking time at the next pass. |
| Violations.ForeignCloseBillsAnother | server/client/client_thread.c:100-130 | Through any interleaving a CLOSE of another address bills the session's parking in the foreign name, nothing if and only if its price or time is nothing, and deletes the foreign row. |
| Violations.SecondSessionAtTheLock | server/client/existing_client/existing_client.c:24-121 | Over any run without a third session, a second session of a running address takes over the row at its lock, from the same moment as the first if and only if the row is then current; without a row it starts at zero, at no city. |
| Violations.ShareTheRow | server/client/existing_client/existing_client.c:24-121 | Whatever session works on a row, another that comes to its lock takes over what the row then holds, from the same moment as the first if and only if it is current; without a row it starts at zero. |
| Violations.FirstOfTwoAtTheLock | server/client/client_thread.c:73-90 | Of any number of sessions that come to wait at one address, whichever is first at its lock resumes exactly what the row held from the beginning, or inserts a row if and only if there was none, and is then the only one to work on it. |
| Violations.PaidRowAtTheLock | server/client/client_thread.c:71-75 | A START that finds a settled row counts the paid seconds again if it gets the lock before the deletion, none if and only if none were paid; if the deletion is faster it parks without a row and at the price of no city. |
| Violations.PaidRowSurvivesCrash | server/client/client_thread.c:125-130 | After a crash before the deletion the paid seconds are counted again, nothing if and only if none were paid. |
| Violations.CloseDeletesTheOthersRow | server/client/client_thread_func.c:298-318 | The session that closes first leaves a second one of its address without a row. |
| Violations.WithoutRowNothingIsStored | server/client/client_thread_func.c:235-261 | A session without a row stores nothing by backups or by losing its connection; whoever then asks for the address is new. |
| Violations.TwoSessionsPayTwice | server/client/client_thread_func.c:274-288 | Two sessions of one address that come to pay both send their payment, each for its own whole time. |
| Violations.CloseWithoutStartIsFree | server/client/client_thread.c:100-130 | Through any interleaving, a CLOSE without START pays 0 and leaves no row; that equals what the row was worth if and only if its price or its time was 0. |
| Violations.LostBeforeStart | server/client/client_thread.c:131-136 | A connection lost after another frame without START writes the clock into the row, unharmed if and only if it held that. |
| BillingExceptions.RepeatedStartOccurs | server/client/client_thread.c:72-98 | A concrete run on which a repeated START loses a second. |
| BillingExceptions.CorruptExitOccurs | server/client/client_thread.c:137-143 | A concrete run on which a corrupted frame makes one second into five. |
| BillingExceptions.DoublePaymentOccurs | server/client/client_thread.c:125-130 | A concrete run on which a paid second is owed again, with or without a crash. |
| BillingExceptions.PaidRowVanishesOccurs | server/client/client_thread.c:125-130 | A concrete run on which the deletion overtakes a returning client's lock, and it then parks for nothing. |
| BillingExceptions.FreeParkingOccurs | server/client/client_thread.c:100-130 | A concrete run on which a client that owes a second parks for free by a CLOSE without START. |
| BillingExceptions.LagOfSixOccurs | server/client/new_client/new_client.c:27-51 | A concrete run with a prompt updater on which the table lags six seconds behind a connected slot. |
| BbbClient.Crc8Check | client/client_func.c:77-91 | A failed check turns ON into STAY_ON and anything else into STAY_OFF; a passed one changes nothing. |
| BbbClient.Client.ReadFrame | client/main_client.c:99-107 | The status byte after reading and checking is the frame's own, or STAY_ON / STAY_OFF. |
| BbbClient.Client.ReceiveLocation | client/client_func.c:195-199 | A reply overwrites a prefix of the buffer and leaves the stale rest. |
| BbbClient.Client.ConnectToServer | client/main_client.c:110-137 | Connect, send, receive and judge the reply, with the two error checks that never fire, as the function ConnectStep. |
| BbbClient.Client.Crc8ServerSideValue | client/bbb/server/connection_check/server_connection_check_functions.c:56-78 | The flag is set unless the buffer reads as the error message; then the status becomes STAY_ON. |
| BbbClient.Client.CloseSession | client/main_client.c:147-170 | CLOSE is sent and the payment received, or the loop ends. |
| BbbClient.Client.UpdateStatusValue | client/client_func.c:157-170 | The status byte becomes ON or OFF from any byte, wrapping at 256. |
| BbbClient.Client.HandlePress | client/main_client.c:64-174 | One iteration of the main loop is one step of the automaton; without an answer it only counts, and stops at three. |
| BbbClient.Client.HandlePresses | client/main_client.c:64-174 | The loop over any history of presses reaches the state the automaton reaches. |
| BbbClient.Client.constructor | client/main_client.c:31-41 | The client starts with status ON, not connected, and an uninitialised location buffer. |
| BbbTheorems.EveryFrameSentIsIntact | client/main_client.c:99-155 | For arbitrary bytes and network, every frame ever sent came from the STM and passes the checksum. |
| BbbTheorems.StatusAtLoopHead | client/client_func.c:157-170 | The status byte at the loop head is ON or OFF over every history. |
| BbbTheorems.OrderIsKeptUnlessStartIsLost | client/main_client.c:108-170 | A press keeps one session per socket, with the sockets that lost a START behind a stale buffer as exceptions; it adds an exception if and only if it loses one. |
| BbbTheorems.LostStartSendsBareClose | client/main_client.c:124-131 | After a lost START a CLOSE is sent on a socket that carried no START. |
| BbbTheorems.SocketsCarryOneSession | client/bbb/server/connection_check/server_connection_check_functions.c:18-41 | Over every history and for each socket by itself: it carries one START optionally followed by one CLOSE if and only if it has not lost its START or has carried nothing; otherwise it carries a bare CLOSE. |
| BbbTheorems.CorruptionAndToggle | client/client_func.c:77-106 | A corrupted frame changes at most the toggle, and keeps it if and only if its status byte is ON exactly when ON was sent. |
| BbbTheorems.IntactStatusNeverMovesToggle | client/client_func.c:77-91 | Any number of corrupted frames with intact status byte leave the client exactly where it was. |
| BbbTheorems.CleanPressStep | client/main_client.c:97-173 | A clean press with a responding server sends START or CLOSE exactly when the toggle agrees with the flag, and which frame on which socket. |
| BbbTheorems.TwoCleanPressesSuffice | client/main_client.c:97-173 | At every loop head of every history, two clean presses perform the pending START or CLOSE unless an earlier connect failed unnoticed; one suffices exactly when toggle and flag agree. |
| BbbTheorems.FaultlessLife | client/main_client.c:64-174 | From the start, any number of clean presses with a responding server park and pay in turn: presses 2k and 2k+1 are the START and CLOSE of socket k, which carries nothing else. |
| BbbTheorems.CloseNeedsThePayment | client/main_client.c:147-170 | After a CLOSE the client goes on if and only if it was sent and the payment arrived; if only the payment did not, the CLOSE was sent and the flag stays. |
| BbbTheorems.SilenceStutters | client/main_client.c:85-96 | While the client runs, a history leads to the same status, flag, buffer and sockets as its answered presses alone; only the error count differs, by the number of silences. |
| BbbTheorems.DeadSocketStops | client/main_client.c:147-155 | On a socket that never connected nothing is sent and the CLOSE press ends the program. |
| BbbTheorems.StopsAtThirdSilence | client/main_client.c:85-98 | With a responding server the client runs if and only if fewer than three presses of its life went unanswered. |
| BbbTheorems.ConnectErrorsGoUnnoticed | client/main_client.c:116-131 | Whether the client believes to be connected depends on the buffer alone, and it is wrong exactly when nothing was sent and the stale buffer is not the error message. |
| BbbTheorems.ErrorReplyNeedsStaleNul | server/client/client_thread.c:137-143 | The 5-byte error message is recognised if and only if the stale byte after it is NUL. |
| BbbTheorems.LocationReplyIsReliable | server/client/new_client/new_client.c:155-199 | The 12-byte location reply is read back whole; it reads as an error if and only if a coordinate exceeds 127, and as the name of a city if and only if the coordinates lie within its bounds. |
| EndToEnd.UnpackingRecoversTheRecord | server/client/client_thread_func.c:111-142 | Decoding a sealed frame recovers status, coordinates and an address text that parses to the six bytes packed. |
| EndToEnd.ForwardedFramesAreTheMeters | client/main_client.c:100-155 | With weak errors on the first hop the client forwards only frames exactly as the meter sealed them. |
| EndToEnd.StoredIsWhatTheMeterPacked | server/client/client_thread.c:55-66 | With weak errors on both hops a frame stores exactly what the meter packed if the second hop left it intact and the session still stores frames, and changes no record otherwise. |
| EndToEnd.SocketFramesArePolite | client/main_client.c:108-170 | The frames of one client socket are polite events of the session that reads them, START then CLOSE of one address. |
| EndToEnd.LostStartParksForFree | client/main_client.c:110-155 | After a lost START the client's next CLOSE is the first frame of its socket, and through any interleaving the session that reads it takes a payment of 0 and leaves no row. |
| WholeSystem.ClientsFeedSessions | client/main_client.c:64-174 | Over every history of a client, each socket that has not lost its START carries one session's frames, as its own meter sealed them. |
| WholeSystem.FedEventIsPolite | server/client/client_thread.c:45-136 | If every session reads the frames of such a socket, weakly corrupted ones included until its client is parking, and no meter has two live sessions, every event but a crash is polite, and the sessions stay fed. |
| WholeSystem.ClientsAreBilledFairly | server/client/client_thread.c:45-136 | For sessions that read sockets of any client histories, each of which has not lost its START, with no corrupted frame once parking, every interleaving without two live sessions of one meter, and any crashes but between payment and deletion, no payment exceeds the meter's bill, and each is the listed price (or nothing) of the city in whose bounds the first START lies, times exactly the meter's seconds where no crash cut them; the crash bounds hold with a prompt updater. |
| EndToEnd.OutOfRangeStartsTwice | server/client/new_client/new_client.c:177-199 | The next clean press opens a second session if and only if a coordinate exceeds 127. |

## Left out

- BillingTheorems.OnlyPoliteEventsKeepGood: its "and no others" is about the invariant; what the other events cost in payments and resumed times is stated by the members of `Violations`.
- Sockets, UART setup, poll, tcflush, sleep, SIGPIPE and partial reads: inputs of the model are whole frames and the success of each call.
- SQLite itself, the SQL text and its failure paths (statuses 252 to 254): table operations succeed.
- The accept loop and its ten slots, whose bound runs one past the array: any number of slots, each used by one connection as in the code.
- Unlocked races on the bytes of a record: storing a frame is one step, and no unlocked step of a session falls inside a backup pass, although time does.
- Each session thread appears as the sequence of its steps, not as one loop; the loop's control flow is the `phase` of its session.
- 32-bit and unsigned arithmetic on times and sqlite3_column_int: times are unbounded integers.
- Floating-point rounding of prices, and the hour, minute and second display.
- The price database program: prices are an arbitrary map, and a city without a row leaves the price unchanged.
- The STM interrupt handshake, restart requests and random coordinates: coordinates are arbitrary bytes.
- The client's button thread, and the restart message and closing of files when its loop ends.
- The one-second sleep before the updater's first iteration: the first backup may happen in the start second.
