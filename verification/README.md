# Speedometer telemetry: a verified model

The repository simulates a speedometer. A server window writes five signals
(speed, temperature, battery level, two turn lights) into a three-byte buffer;
the buffer travels over TCP, or over UART, BLE and UART again, to a client
window that shows the signals and plays turn-signal sounds. This project models
that path from the server's sliders to the client's speaker and proves what the
path promises.

| file | what it models |
|---|---|
| `Arithmetic.dfy` | positions counted in blocks |
| `Bits.dfy` | fixed-width bit arithmetic over the naturals, little-endian words |
| `Setting.dfy` | the shared layout table and the assertion of `build_map` |
| `Layout.dfy` | what a buffer means: disjoint fields, histories of inserts, tilings |
| `ServerCom.dfy`, `ClientCom.dfy` | the packer (32-bit word) and the unpacker (64-bit window), each against the shared meaning |
| `TcpClient.dfy`, `TcpServer.dfy`, `UartClient.dfy`, `EspServer.dfy` | the worker loops as methods against scripted kernels and drivers |
| `Transport.dfy` | the TCP path as a system of concurrent steps: server GUI, server sender, network, client worker, client GUI, client destructor |
| `Shutdown.dfy`, `Freshness.dfy` | the invariants of that system and its main results |
| `Progress.dfy` | what the parties of that system are sure to do next |
| `Wire.dfy` | which bytes of a connection belong to which send |
| `Sound.dfy` | the turn-signal sound controller |
| `BleClient.dfy` | the BLE connection machine of the ESP32 client |
| `Relay.dfy` | the UART/BLE/UART path byte by byte |
| `ServerWindow.dfy` | the server window's sliders and check boxes |
| `EndToEnd.dfy` | the real table through the whole chain, the client's poll, a short send |

`dafny verify dfyconfig.toml` checks everything.

## Reading the results

The codec is stated for any layout of disjoint fields and any buffer length
the code supports, then instantiated with the real table: the server's 32-bit
word allows up to 4 bytes and fields of 1 to 30 bits, the client's window any
buffer and any field that does not run past the eighth byte of its window. Both
limits are the code's own; `ClientCom.AgreementExact` shows that the second one
is exact, and the first one keeps clear of shifts that C++ leaves undefined.

The TCP system takes one step per shared access, system call or mutex critical
section and quantifies over every sequence of such steps. The kernel decides
what every call returns, how many bytes a `read` hands out, which descriptor a
`socket` gets (a closed number may come back), and when a peer goes away.
History variables (`log`, `frames`, `wire`, `sent`, `pubs`, `blank`, `source`,
`obs`) record what happened; no behaviour depends on them. The relay marks every
byte with the frame and offset at which it was offered, and no step looks at the
marks.

Four promises hold only under a condition, and the exact condition is proved:

- The assertion of `build_map` computes its rounded sum in 32 bits. It agrees
  with "the field fits" exactly when `GuardExact` says so; `GuardWraps` is a
  one-bit field at bit 4294967288 that passes for every buffer length.
- A `send` that returns a positive count below `SBUFLEN` is treated as success
  (server tcpservice.cpp line 127). Every complete block of a connection is the
  frame of one send if and only if fewer than n - k bytes follow the first short
  send, of k bytes, on that connection (`Freshness.Framing`, `Wire.FramingExact`);
  the blocks the client published are so if and only if none of them lies behind
  the first short send (`Freshness.PublishedExact`). Freshness assumes the
  second condition, which the first implies; closing the connection on a short
  count establishes both (`Wire.ClosingSuffices`). `EndToEnd.ShortSendMixes` is
  one run, harmless right after a short send, and once the next frame follows a
  getter returns a temperature that was never set.
- The relay is a lossy channel of whole frames if and only if every block stored
  is clean (`Relay.LossyExact`): it begins at an offered frame, and if it spans
  two notifications these were read without a gap. Stage by stage, a notification
  is one offered frame if and only if the bytes that had left the ESP32 server's
  buffer were whole frames, and a stored block is one notification if and only if
  the same holds for the desktop client's buffer. It suffices that flushes, clears
  and short reads drop whole frames only (`Relay.LossyChannel`), which frames
  entering the buffers in one piece guarantee (`Relay.AtomicDropsWhole`).
  `Relay.SplitFrameMixes` is a run in which one flushed byte mixes two frames.
- Insert and read return the value reduced to the field; it is the value itself
  if and only if the field can represent it (`ClientCom.EndToEndRoundTrip`).

Assumptions about the environment: atomics are sequentially consistent; the host
is little-endian; `connect` and the retry sleep return; a connected peer's bytes
arrive in order; a serial line loses nothing but what the programs drop; GATT
results arrive only while connected and while the procedure that asks for them is
in progress; the BLE host is not reset after it has synchronised; a process start
or kill is seen by the program only through the events of the event loop and the
wait inside `stopSignalSound`; assertions are compiled in.

## Model

| member | source | states |
|---|---|---|
| Setting.GuardExact | shared/setting.h:54-60 | the assertion accepts an entry exactly when it fits the buffer, if and only if its rounded 32-bit sum does not wrap round to a number the buffer has room for |
| Setting.GuardWraps | shared/setting.h:54-60 | an entry far outside every buffer that the assertion accepts, whatever the buffer length |
| Setting.RoundedDown | shared/setting.h:58 | clearing the low three bits and shifting by three is division by eight |
| Setting.BuildMap | shared/setting.h:50-62 | succeeds exactly when every entry passes; the map then holds, for each key, the last entry with it; otherwise it reports the first entry that fails |
| Setting.Lookup | shared/setting.h:71-74 | a present key returns the entry stored under it, a missing key is an error |
| Layout.TableTiles | shared/setting.h:14-23 | the five fields use every bit of the three bytes exactly once; every value between a signal's min and max is representable in the type its getter uses; zero is inside every range |
| Layout.TableAccepted | shared/setting.h:54-60 | every entry of the real table passes the assertion |
| Layout.PutField | desktop/server/src/comservice.cpp:30-43 | an insert is seen by its own field and by no disjoint one |
| Layout.PutPut | desktop/server/src/comservice.cpp:30-43 | inserts into disjoint fields commute; a second insert into the same field hides the first |
| Layout.LastWriteWins | desktop/server/src/comservice.cpp:12-44 | after any history of inserts each field holds what was written to it last |
| Layout.SamePacking | desktop/server/src/comservice.cpp:51-86 | two histories give the same buffer if and only if they wrote the same bits last to every field |
| Layout.FieldsDetermine | shared/setting.h:17-23 | with a tiling layout the field values determine the buffer |
| Layout.Repacking | shared/setting.h:17-23 | for any tiling layout, decoding all signals and inserting the values, in any order, into any buffer restores the original |
| Layout.TableRepacking | shared/setting.h:14-23 | the same for the real table, in bytes |
| Layout.PatternOfValue | desktop/client/src/comservice.cpp:29-38 | a reading, signed or not, has the bit pattern it was read from |
| Layout.RoundTrip | desktop/server/src/comservice.cpp:30-43 | insert then decode gives a representable number congruent to the value modulo 2^length, and the value itself exactly when it is representable |
| ServerCom.COMService.constructor | desktop/server/include/comservice.h:60 | the buffer starts as the packing of no inserts |
| ServerCom.COMService.FillWord | desktop/server/src/comservice.cpp:20-28 | the loop from the top byte down collects the little-endian word |
| ServerCom.InsertBits | desktop/server/src/comservice.cpp:30-37 | clear and overlay in 32-bit arithmetic replaces the field and nothing else, for negative values too |
| ServerCom.COMService.StoreWord | desktop/server/src/comservice.cpp:39-43 | writing back byte by byte makes the buffer the little-endian form of the word |
| ServerCom.COMService.InsertHelper | desktop/server/src/comservice.cpp:12-44 | adds one write to the history the buffer packs; an unknown signal changes nothing and is an error |
| ServerCom.COMService.SetSpeed | desktop/server/src/comservice.cpp:51-54 | one write to speed, packed into the buffer |
| ServerCom.COMService.SetTemp | desktop/server/src/comservice.cpp:61-64 | one write to temperature, packed into the buffer |
| ServerCom.COMService.SetBattery | desktop/server/src/comservice.cpp:71-74 | one write to battery level, packed into the buffer |
| ServerCom.COMService.SetLightSignals | desktop/server/src/comservice.cpp:82-86 | two writes, left first |
| ServerCom.RealTableFits | shared/setting.h:54-60 | whatever map `build_map` makes of the real table, every entry fits the buffer and the 32-bit arithmetic |
| ClientCom.COMService.Extract64 | desktop/client/src/comservice.cpp:6-22 | both branches return the little-endian number of the next min(8, N - offset) bytes |
| ClientCom.COMService.Read | desktop/client/src/comservice.cpp:23-39 | window, mask, sign extension and cast give the field of the window as a value of the type |
| ClientCom.COMService.Get | desktop/client/src/comservice.cpp:41-62 | a getter returns the decoded field of the little-endian word; a missing key is an error |
| ClientCom.COMService.Publish | desktop/client/src/tcpservice.cpp:93-97 | the critical section makes the buffer the received frame |
| ClientCom.COMService.ClearBuffer | desktop/client/src/comservice.cpp:64-68 | every byte, and so the word, is zero |
| ClientCom.SignExtension | desktop/client/src/comservice.cpp:28-38 | for every length below the word width the xor/subtract trick gives the two's complement code of the signed value, and the narrowing cast loses nothing |
| ClientCom.WindowAgrees | desktop/client/src/comservice.cpp:6-29 | the bits the client masks out are the field of the whole little-endian word |
| ClientCom.AgreementExact | desktop/client/src/comservice.cpp:6-39 | for a field inside the buffer, the client's bits equal the server's field on all buffers if and only if (start mod 8) + length <= 64 |
| ClientCom.GuardSuffices | shared/setting.h:54-60 | an accepted entry whose sum does not wrap keeps every access of the reader inside the buffer and reads its field |
| ClientCom.ReadDecodes | desktop/client/src/comservice.cpp:23-39 | for fields no wider than the type, the reader returns the decoded signal |
| ClientCom.WideReads | desktop/client/src/comservice.cpp:28-38 | for fields wider than the type the cast leaves the low bits of the field, also at 64 bits where the sign step is skipped |
| ClientCom.EndToEndRoundTrip | desktop/client/src/comservice.cpp:24-39 | what the server inserts the client reads back, reduced to the field, and unchanged exactly when representable |
| TcpClient.TCPService.Fill | desktop/client/src/tcpservice.cpp:65-91 | for every chunking and every interrupted call, the temporary buffer holds exactly the next bytes of the stream; each `read` follows a load of `m_stop` that was false; it stops short only on failure, a true load, or the end of the script |
| TcpClient.TCPService.Open | desktop/client/src/tcpservice.cpp:43-63 | uses up exactly one answer of the peer per descriptor: an acceptance marks the connection, a refusal closes the descriptor and forgets it; a failed `socket` is the one reason to end |
| TcpClient.TCPService.Serve | desktop/client/src/tcpservice.cpp:65-104 | keeps the connection exactly when it published one more whole frame, and drops it only after a failed read or a true load of `m_stop` |
| TcpClient.TCPService.Run | desktop/client/src/tcpservice.cpp:41-105 | the connections are exactly the peers that accepted, in order, one `connect` per descriptor; on each, exactly the complete consecutive frames received are published, and the buffer shows the last one; a connection is given up only after a failed read or a stop; opens and closes pair up; no `socket` or `read` without a fresh false load of `m_stop`; it ends only by a true load, a failed `socket`, or a call the script does not answer |
| TcpClient.TCPService.CloseAfterJoin | desktop/client/src/tcpservice.cpp:24-27 | after the destructor every opened descriptor has been closed once |
| TcpClient.BlocksPrefix | desktop/client/src/tcpservice.cpp:65-97 | however far the worker got, it published a prefix of the peer's frames |
| TcpClient.BlocksExtend | desktop/client/src/tcpservice.cpp:93-97 | up to one frame of further bytes adds a frame exactly when they fill it |
| TcpServer.TCPService.SendLoop | desktop/server/src/tcpservice.cpp:105-133 | moves of each snapshot exactly the bytes `send` reports, up to the first failure; the status stays up exactly when none failed |
| TcpServer.TCPService.Run | desktop/server/src/tcpservice.cpp:91-149 | serves the accepted connections in turn, each with the bytes its own sends moved, and closes each; a failed accept ends the loop only after a stop |
| TcpServer.ServesUntilStop | desktop/server/src/tcpservice.cpp:91-148 | the connections served are exactly the accepted ones before the first `accept` that failed after the shutdown, in order; a failure while running ends nothing |
| TcpServer.DeliversPrefix | desktop/server/src/tcpservice.cpp:105-133 | a connection delivers the beginnings of its snapshots in order and gives up at the first failed send only; it delivers the snapshots themselves exactly when every count is the whole length |
| UartClient.UARTService.OneTurn | desktop/client/src/uartservice.cpp:32-69 | opens, waits, reads and keeps or closes the port; the status flag and the open port agree at the head and again after the turn |
| UartClient.UARTService.Run | desktop/client/src/uartservice.cpp:30-73 | the whole loop, turn by turn until the stop; the port is closed at the end |
| UartClient.ShowsLastWhole | desktop/client/src/uartservice.cpp:45-68 | the buffer always holds the last read that was a whole frame; the port stays open only after such a read |
| UartClient.TurnExactly | desktop/client/src/uartservice.cpp:32-69 | a turn opens exactly a closed port, waits exactly at an open one and reads exactly after a successful wait; the port is up afterwards exactly if the turn read a whole frame, which is then shown |
| UartClient.Loops | desktop/client/src/uartservice.cpp:30 | the turns made are the loads of `m_stop` before the first true one |
| Shutdown.NoHang | desktop/client/src/tcpservice.cpp:16-28 | in every interleaving, while the destructor waits in join the worker is not blocked in read and, unless it has ended, has a next step that is no interruption or error out of nothing |
| Shutdown.RankDecreases | desktop/client/src/tcpservice.cpp:41-105 | once `m_stop` is set every worker step lowers a rank, whatever the kernel answers |
| Shutdown.StopBoundsWorker | desktop/client/src/tcpservice.cpp:41-105 | after the store of `m_stop` a run holds at most eleven more worker steps |
| Shutdown.JoinReturns | desktop/client/src/tcpservice.cpp:16-28 | both together: after the join began at most eleven worker steps follow, and the worker always has the next one |
| Shutdown.StatusAtHead | desktop/client/src/tcpservice.cpp:43-62 | at every head of the worker's loop `m_status` holds exactly when `m_sockfd >= 0` |
| Shutdown.ClosedOnce | desktop/client/src/tcpservice.cpp:19-104 | in every interleaving no descriptor is closed twice or while not open, and after the destructor each one ever opened has been closed once |
| Shutdown.Always | desktop/client/src/tcpservice.cpp:16-106 | the control invariant holds after every run |
| Progress.BlockedWhy | desktop/server/src/tcpservice.cpp:94-137 | in every run a worker that waits in `read` waits for a server that has yet to accept its connection or is at it: the server's close always reaches the client |
| Progress.ServesAlways | desktop/server/src/tcpservice.cpp:94-137 | in every run the connection the server is at is the only one accepted and not closed |
| Progress.ServerMoves | desktop/server/src/tcpservice.cpp:91-138 | the server waits for nothing but a new connection |
| Progress.SendsCurrent | desktop/server/src/tcpservice.cpp:113-124 | a turn of the send loop appends the buffer of that moment to the connection |
| Progress.FinishedIsSilent | desktop/server/src/tcpservice.cpp:127-138 | nothing is ever sent on a connection the server gave up or closed, whatever follows |
| Progress.GivingUp | desktop/server/src/tcpservice.cpp:127-132 | a failed send or the end of service gives the connection up |
| Progress.WorkerMoves | desktop/client/src/tcpservice.cpp:41-105 | in every run the worker goes on by itself unless it has ended or waits in `read` |
| Progress.EndsExactly | desktop/client/src/tcpservice.cpp:34-50 | the worker ends exactly on a bad address, a stop at the head, or a failed `socket` |
| Progress.LostIsRedialled | desktop/client/src/tcpservice.cpp:78-104 | in every run a connection that ended or failed is shut, closed once and forgotten, and the worker dials again |
| Progress.RefusedIsRedialled | desktop/client/src/tcpservice.cpp:53-60 | a refused connection is closed once and forgotten, and dialled again after the nap |
| Progress.InterruptedIsRetried | desktop/client/src/tcpservice.cpp:74-77 | an interrupted `read` is made again with nothing lost |
| Progress.AcceptedIsRead | desktop/client/src/tcpservice.cpp:45-69 | a peer that accepts is marked as connected and read from, on the descriptor the kernel gave |
| Progress.FullIsPublished | desktop/client/src/tcpservice.cpp:93-97 | when the rest of a frame has arrived it is published as received, and the connection stands |
| Progress.LostIsCleared | desktop/client/src/window.cpp:56-59 | a poll that finds no connection leaves a zero buffer |
| Progress.PollReadsAll | desktop/client/src/window.cpp:29-55 | a poll that finds one reads every signal once, in order, from the buffer as it is |
| Progress.DestructorEnds | desktop/client/src/tcpservice.cpp:16-28 | with the worker at its end the destructor comes to its own and leaves no descriptor open |
| Freshness.FreshValues | desktop/client/src/tcpservice.cpp:41-105 | in every run that publishes nothing mixed, each getter result is zero if nothing was published since the start or the last clear, and otherwise exactly the value its signal had after some prefix of the inserts; the prefixes never go backwards, across reconnects too, and never lie in the future |
| Freshness.Framing | desktop/server/src/tcpservice.cpp:91-138 | in every run each byte of a connection is the byte of a past buffer that its send and offset name, newer and newer; every complete block is one send's buffer if and only if fewer bytes follow the first short send than complete its block |
| Freshness.PublishedExact | desktop/client/src/tcpservice.cpp:93-97 | in every run the blocks a connection published are one send's buffer each if and only if none lies behind its first short send |
| Freshness.FewFollowSuffices | desktop/server/src/tcpservice.cpp:122-132 | if on no connection enough bytes follow a short send to complete its block, nothing mixed is published |
| Freshness.SameBlocks | desktop/client/src/tcpservice.cpp:65-97 | what the concurrent worker is about to publish is the last complete block received on the connection, the same blocks that the sequential worker publishes |
| Freshness.PublishedFrame | desktop/client/src/tcpservice.cpp:93-97 | while nothing mixed was published the client's buffer is zero after a clear or the start, and otherwise the server's buffer after the inserts the newest frame reflects |
| Freshness.FullBlock | desktop/client/src/tcpservice.cpp:65-97 | a full temporary buffer is the connection's next block and begins in a send no older than what was published before |
| Freshness.WholeBlock | desktop/client/src/tcpservice.cpp:65-97 | a block before the first short send is the past buffer of its send |
| Freshness.UnmixedAlways | desktop/client/src/tcpservice.cpp:29-106 | while nothing mixed was published the client shows what it should and every getter result so far is explained |
| Freshness.InsertPacks | desktop/server/src/comservice.cpp:12-44 | every insert keeps each recorded frame the packing of its prefix of the inserts |
| Freshness.GetExplained | desktop/client/src/comservice.cpp:6-62 | what one getter returns is zero on a blank buffer and otherwise the value in the frame published last |
| Freshness.Always | desktop/client/src/tcpservice.cpp:29-106 | the data invariant holds after every run, short sends included |
| Wire.FramingExact | desktop/server/src/tcpservice.cpp:122-132 | every complete block of the wire is one send's frame if and only if fewer than n - k bytes follow the first short send, of k bytes |
| Wire.BlocksExact | desktop/server/src/tcpservice.cpp:122-132 | the first blocks are one send's frame each if and only if all lie before the first short send |
| Wire.MixedBlock | desktop/server/src/tcpservice.cpp:122-132 | the block begun by the first short send never is one send's frame |
| Wire.ClosingSuffices | desktop/server/src/tcpservice.cpp:127-132 | a connection on which nothing is sent after a short send keeps its framing |
| EndToEnd.ShortSendMixes | desktop/server/src/tcpservice.cpp:124-132 | a concrete run with a short send that mixes nothing yet, and its continuation with the next frame, in which a getter returns a temperature no prefix of the inserts explains |
| EndToEnd.RealConfig | shared/setting.h:14-23 | the real table with the getters' types is a valid configuration of the concurrent system |
| EndToEnd.ShownInRange | desktop/client/src/window.cpp:26-59 | in every run with inserts inside the declared ranges that publishes nothing mixed, every getter result is inside its signal's declared range |
| EndToEnd.Getters | desktop/client/src/comservice.cpp:41-62 | each of the five getters returns its field of the frame that its own critical section found |
| EndToEnd.Poll | desktop/client/src/window.cpp:26-59 | with the worker publishing before any of the five getters, a poll shows for each signal the value in the frame found by that getter, or clears display, lights and buffer without a connection; the player follows |
| EndToEnd.SettledDisplay | desktop/server/src/window.cpp:119-140 | at a settled server window the buffer decodes to the widgets, and the Warning sound is selected exactly when the warning box is checked |
| EndToEnd.UpToDate | desktop/client/src/tcpservice.cpp:93-97 | after any run of the transport whose newest published frame reflects all inserts, the client's buffer is the server window's buffer |
| EndToEnd.Mirror | desktop/client/src/window.cpp:26-59 | after such a run, one poll makes the canvas show the server's sliders and lights, and the player play the sound file that the boxes ask for, unless an earlier player that was killed has yet to exit; without a light nothing plays that was not killed |
| Sound.AlwaysSettled | desktop/client/src/canvas.cpp:129-171 | in every run of setters, late exits and failed starts the remembered sound is the selected one, and a player not already killed plays exactly that |
| Sound.LightsPlay | desktop/client/src/canvas.cpp:129-153 | in every run a poll with a light on starts the file of these lights if nothing ran, leaves a sound of the same lights alone, and otherwise kills the old one and starts the new file if the kill takes effect in time |
| Sound.LightsFrom | desktop/client/src/canvas.cpp:129-153 | the same from any settled state |
| Sound.SilencePlays | desktop/client/src/canvas.cpp:129-171 | a poll without lights and a lost connection do the same: they kill what plays; a connection that stands changes nothing |
| Sound.FailureWaits | desktop/client/src/canvas.cpp:196-213 | a start that failed leaves no player, and the next poll starts the sound again |
| Sound.NoCommandNoPlayer | desktop/client/src/canvas.cpp:196-202 | without a command nothing is ever started |
| Sound.ExitStartsCurrent | desktop/client/src/canvas.cpp:55-62 | an exit, however late, starts the file of the current lights, and nothing without a light |
| Sound.PollingIsIdle | desktop/client/src/canvas.cpp:129-153 | a poll with unchanged lights does not disturb a sound |
| Sound.DisconnectSilences | desktop/client/src/canvas.cpp:155-171 | after a lost connection, until a poll brings a light, no run of exits, failed starts and status changes starts a player, and the one that ran is gone or killed |
| Sound.Canvas.SetLightSignals | desktop/client/src/canvas.cpp:129-153 | the method has the specified effect on lights, active sound and player, and leaves the rest |
| Sound.Canvas.SetCommunicationStatus | desktop/client/src/canvas.cpp:155-171 | clears the display and stops the sound without a connection, changes nothing else with one |
| Sound.Canvas.StopSignalSound | desktop/client/src/canvas.cpp:180-194 | the player is gone, or killed and still running when the wait times out; the handler that fires inside starts nothing |
| Sound.Canvas.StartSignalSound | desktop/client/src/canvas.cpp:196-213 | starts the active sound only if nothing runs and command and path exist |
| Sound.Canvas.OnFinished | desktop/client/src/canvas.cpp:55-62 | restarts the active sound only outside a stop and with a light on |
| Sound.Canvas.Deliver | desktop/client/src/canvas.cpp:55-62 | an exit or failed start between calls has the specified effect |
| BleClient.PhaseExclusion | esp32/client/src/main.c:283-340 | never two of scanning, connecting, connected; without a connection the peer and both flags have their initial values |
| BleClient.IdleExactly | esp32/client/src/main.c:88-110 | an event leaves the client idle exactly when the scan or connect call it made failed, and then only a new synchronisation can follow |
| BleClient.RadioExactly | esp32/client/src/main.c:228-340 | after every possible run and event: connecting exactly if an offer of the service by the server was taken up and the host agreed, or it was before and the attempt has not ended; scanning, the connection and the peer address likewise |
| BleClient.PendingExactly | esp32/client/src/main.c:112-193 | each procedure of the host is begun by the one event whose answer starts it and goes on until its own end or that of the connection |
| BleClient.Subscribes | esp32/client/src/main.c:112-325 | with a host that agrees to everything, a server that offers the service is connected to, joined once with its own handles and subscribed to, whichever half completes first |
| BleClient.Rescans | esp32/client/src/main.c:326-340 | however a connection or an attempt ends, the client can scan again with nothing left of it |
| BleClient.Tracking | esp32/client/src/main.c:155-193 | flags and handles say what happened on this very connection; descriptor discovery and subscription are under way only after both halves |
| BleClient.JoinExact | esp32/client/src/main.c:215-226 | an event starts descriptor discovery exactly when it completes the pair of encryption and characteristic on this connection, with this connection's handles |
| BleClient.JoinOnce | esp32/client/src/main.c:155-226 | if each half happens at most once, discovery starts exactly once when both have, in either order, and not before |
| BleClient.GivesUpExactly | esp32/client/src/main.c:112-193 | the program asks to end the connection, once and for that connection, exactly when the host refused a call made for it or reported an error on it |
| BleClient.SubscribesAfterJoin | esp32/client/src/main.c:125-154 | notifications are switched on only on a connection on which encryption has succeeded and the characteristic was found |
| BleClient.Client.ShouldConnectTo | esp32/client/src/main.c:228-252 | true exactly for a connectable report of the server's address, not the current peer, that lists the service |
| BleClient.Client.ConnectIfInteresting | esp32/client/src/main.c:253-281 | the scan is cancelled before the connection is begun; a failed cancel changes nothing |
| BleClient.Client.TryStartDscDiscovery | esp32/client/src/main.c:215-226 | one attempt with the stored handles if both flags are set, none otherwise; a refused one asks to end the connection |
| BleClient.Client.OnServiceDiscovery | esp32/client/src/main.c:172-193 | a service stores the end handle and starts the characteristic discovery; a refusal or an error asks to end the connection, the regular end does nothing |
| BleClient.Client.OnCharacteristicDiscovery | esp32/client/src/main.c:155-171 | a characteristic stores the value handle, sets its flag and tries the join; an error asks to end the connection, the regular end does nothing |
| BleClient.Client.OnDescriptorDiscovery | esp32/client/src/main.c:125-154 | the configuration descriptor is written and the discovery stopped; a refused write or an error asks to end the connection |
| BleClient.Client.OnSubscription | esp32/client/src/main.c:112-124 | a failed subscription asks to end the connection |
| BleClient.Client.OnConnect | esp32/client/src/main.c:295-325 | lookup, security, peer address and service discovery in this order, each failure asking to end the connection and skipping the rest |
| BleClient.Client.OnDisconnect | esp32/client/src/main.c:335-340 | peer address and flags are reset and the scan resumes |
| BleClient.Client.GapEvent | esp32/client/src/main.c:283-353 | each case has the specified effect, requests to end the connection included, and keeps the phases apart |
| BleClient.Client.OnSync | esp32/client/src/main.c:198-213 | starts the first scan |
| EspServer.Board.AppMain | esp32/server/src/main.c:137-185 | the two nested loops notify exactly the frames the specification says, under the handle the events left |
| EspServer.Board.Forward | esp32/server/src/main.c:145-177 | one pass hands over a whole frame or nothing and leaves the buffer empty |
| EspServer.Board.GapEvent | esp32/server/src/main.c:345-383 | subscribing sets the handle, disconnecting clears it, nothing else touches it |
| EspServer.FromDistinctPasses | esp32/server/src/main.c:140-185 | each notification is the first bytes of one pass, in order and no pass twice; the passes are exactly those made while subscribed in which a whole frame had arrived and the host took it |
| EspServer.HandleIsLast | esp32/server/src/main.c:359-383 | after any events the handle is that of the last subscription, and none if a disconnection came after it |
| EspServer.HandleIsKept | esp32/server/src/main.c:347-357 | without either the handle is unchanged |
| EspServer.HandlesOfAll | esp32/server/src/main.c:143-144 | the handle of a pass is what all events before it leave |
| EspServer.PassRefines | esp32/server/src/main.c:145-177 | a pass of the inner loop is the two steps the relay system takes for it: the same bytes are notified, read at the same place, and the buffer is empty afterwards |
| Relay.LossyChannel | esp32/server/src/main.c:140-185 | if flushes, clears and short reads drop whole frames only, the frames the desktop client stores are offered frames, in order, none twice, in every run and however the bytes arrive |
| Relay.LossyExact | desktop/client/src/uartservice.cpp:30-70 | in every run what the desktop client stores is an in-order selection of the offered frames, none twice, if and only if every stored block is clean |
| Relay.Delivers | esp32/server/src/main.c:140-185 | in every run, a frame offered to a path that is quiet and loses nothing is stored as offered, and the path is quiet again |
| Relay.FlagsExactly | desktop/client/src/uartservice.cpp:32-69 | the port is open exactly from an open to a time-out or short read; flushes, clears and reads take out of the buffers exactly what they should |
| Relay.NotificationExact | esp32/server/src/main.c:145-177 | in every run a notification is one whole offered frame if and only if the bytes that had left the buffer when it was read were whole frames |
| Relay.BlockExact | desktop/client/src/uartservice.cpp:45-68 | in every run a stored block is one whole notification if and only if the bytes that had left the port's buffer when it was read were whole notifications |
| Relay.StoredExact | desktop/client/src/uartservice.cpp:45-68 | in every run a stored block is one whole offered frame if and only if it begins at a frame and, spanning two notifications, these were read without a gap |
| Relay.AtomicDropsWhole | esp32/server/src/main.c:140-185 | frames entering the buffers in one piece make every flush, clear and short read drop whole frames only |
| Relay.Always | esp32/client/src/main.c:355-369 | in every run both serial lines carry their frames in order, notifications pass unchanged if they have the right length, and what is read are stretches of the lines, one behind the other |
| Relay.SplitFrameMixes | esp32/server/src/main.c:140-185 | a concrete run without that in which a stored frame mixes two offered ones |
| ServerWindow.RangeSafety | desktop/server/src/window.cpp:81-110 | every snapshot of a history of declared values, also one in the middle of construction, decodes inside the declared ranges |
| ServerWindow.LatestDecodes | desktop/server/src/comservice.cpp:12-86 | decoding the packed buffer gives the value last written |
| ServerWindow.LatestStep | desktop/server/src/comservice.cpp:12-44 | a declared value is shown as written and only its own signal changes |
| ServerWindow.HalfUpdated | desktop/server/src/comservice.cpp:82-86 | a snapshot between the two light inserts holds the new left and the old right light |
| ServerWindow.Window.constructor | desktop/server/src/window.cpp:81-140 | construction inserts the three minima and the two lights in this order and ends settled |
| ServerWindow.Window.SetupSliders | desktop/server/src/window.cpp:81-110 | the sliders start at their minima, in the buffer too |
| ServerWindow.Window.UpdateLights | desktop/server/src/window.cpp:126-133 | the buffer's lights are the boxes with the warning box in both; no other signal changes |
| ServerWindow.Window.MoveSpeed | desktop/server/src/window.cpp:89-96 | a move is limited to the range and written only if it changes the slider |
| ServerWindow.Window.MoveTemp | desktop/server/src/window.cpp:89-96 | the same for temperature |
| ServerWindow.Window.MoveBattery | desktop/server/src/window.cpp:89-96 | the same for battery level |
| ServerWindow.Window.Toggle | desktop/server/src/window.cpp:119-137 | only enabled boxes react; left and right are never both checked; the buffer follows |

## Left out

- Painting, gauge geometry, colours, fonts, the blink timer and window layout: no state that the signals depend on.
- Real sockets, ports, processes, NimBLE, FreeRTOS, the LED strip and NVS: they appear as what each call may return and which events may come.
- ServerCom.COMService: fields outside 1 to 30 bits or buffers above 4 bytes, where the 32-bit shifts of the code are undefined or lose bytes.
- TcpServer.TCPService.Run: termination of the server's destructor, because `run` sets `m_is_running` to true after it has started and can overwrite the destructor's false; a failed `listen` is not modelled either.
- Freshness.FreshValues: assumes that nothing published lies behind a short send; the values of a mixed block can be right by coincidence, so no condition on the sends alone is necessary for them. Freshness is per getter call; a whole displayed record is not one snapshot, because each getter locks on its own and the two lights are inserted separately.
- Freshness.PublishedFrame: being connected does not mean that a real frame is shown, because the status is set before the first frame and a clear can follow a publish.
- Shutdown.JoinReturns: counts steps, not time; `connect` and the retry sleep are assumed to return.
- EndToEnd.Mirror: that the transport eventually brings the last insert to the client is its hypothesis; liveness of the network is not modelled.
- Relay.LossyChannel: bytes lost by an overflowing UART driver buffer; they would be drops inside a frame, which `Relay.SplitFrameMixes` covers in kind.
- EspServer.Board.AppMain: what arrives between the read and the flush of a pass is dropped with the pass; the ESP32 server's advertising and pairing events are not modelled.
- BleClient.Client.GapEvent: a reset of the host while scanning, connecting or connected; the program only logs it and keeps its flags.
- Sound.Canvas.Deliver: the destructor's stop of the player, which is `StopSignalSound` again.
- The desktop server's UART sender: it only writes the buffer periodically, which is the `Offer` step of the relay.
- Pairing keys, passkeys, allow lists, logging and build files.
