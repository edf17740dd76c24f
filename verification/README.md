# usbmuxd in Dafny

usbmuxd carries many client sockets over one USB pipe to each attached device. Towards a device it speaks a
small TCP-like protocol inside mux packets (section 3.1 of RFC 9293 for the header layout, section 3.4 for
the 32-bit sequence arithmetic); towards its clients it speaks length-prefixed messages until a Connect
command succeeds, after which the socket is a raw byte stream. This project models the two coupled state
machines of `src/device.c` and `src/client.c` and the messages of `src/usbmuxd-proto.h`, and proves what
holds after every run of the daemon.

## How it is organised

* **Values.** `Connection`, `Client` and `Device` give the three structures as records with one function per C
  function that updates them. The field `h` of each record is a history (bytes read and written, messages queued,
  segments built, how often the structure was freed); the daemon's code never reads it. `MuxPacket`,
  `Assembler`, `Ports`, `ClientMessage` and `CommandFraming` are the codecs, the gathering of USB transfers, port
  allocation and command framing.
* **The daemon.** `Daemon` is a transition system over three tables whose keys stand for pointers. One step is one
  event of the main loop (`src/main.c:318-394`): a client accepted, readable, writable or served, a device
  attached, announced or removed, a USB transfer, or the timer. `connection_teardown`, `client_close` and
  `device_abort_connect` are mutually recursive there as in the source, and terminate because the set of
  connections that still have a client shrinks. Results of `usb_send`, `send`, `recv` and the clock, and the answers to
  the queries whose contents are not modelled, are arbitrary and may differ from call to call (`Environment`, and the
  arguments of the events).
* **The invariant.** `Invariant` states what every reachable state satisfies; `Release`, `Serving`, `DeviceSteps`
  and `ClientSteps` show that every event keeps it, `Reachable` that every run does. `Projection` says what a step
  can do to one established connection. `Theorems`, `EndToEnd`, `Commands`, `Greeting`, `Traces`, `Timers`, `Peer`,
  `Window`, `Progress` and `Faults` are the main results.
* **The histories.** `Ledger` and `Journal` tie the histories to the events: what each of them holds after a run is
  computed from the transfers and the results of `recv` and `send` in that run, without the functions that update it.
  `EndToEnd` then speaks of the bytes that arrived and the bytes that sockets gave and took.
* **Objects.** `MuxConnection`, `MuxDevice` and `MuxClient` are classes with the fields and buffers of the C
  structures, updated in place with the loops of the source. `Multiplexer` holds three tables of such objects, no two
  of which share a buffer, and implements every event on them; `Multiplexer.Run` shows that after any possible run the
  objects hold exactly the state of the transition system, so that every theorem about runs is one about them. An
  object that is freed leaves its table and the footprint of later calls. `Shapes` takes the step functions apart
  into the single updates that the methods make.

## Assumptions

Allocation and plist conversion succeed. `recv` and `send` transfer between one byte and what was asked for, or fail.
`poll` reports only events that are in a client's mask. A Connect command that is obeyed does not name a device whose
version is still being negotiated (its connection list is only set up at `src/device.c:586`). The first transfer of a packet is
empty or holds at least the 8 bytes of the short header. A device is announced once, while it is listed and active;
`Theorems.AnnounceExact` says what happens otherwise. Several events of one pass of the main loop are taken one after
the other.

Wherever the source follows a pointer without looking it up first, the model counts a fault if the structure is not
there; a second free and a null pointer count too. Only `client_close`, `device_abort_connect` and the other functions
that search a list take a missing structure silently, as the source does. C says nothing about what follows a fault;
the model goes on as if the access had had no effect. `Faults.StepFaults` gives the exact condition under which a step
faults in a reachable state. The source has three places where a teardown or close is followed by a use: the one after
the handshake (`src/device.c:700-704`) is never reached, the one after an overflow (`src/device.c:713-716`) exactly when
a segment overflows the buffer, which a device that respects the window never causes, and the one after a command
(`src/client.c:953-954`) exactly when a message is complete while its client listens or waits for a device.

## Model

| member | source | states |
|---|---|---|
| Theorems.StatesCorrespond | src/device.c:302-404 | After every run, live connections and clients in the three connection states correspond one to one: CONNECTING with CONNECTING1, CONNECTED with CONNECTING2 or CONNECTED, on the same active device |
| Theorems.NotifyNeverFails | src/client.c:374-395 | After every run, the state checks of client_notify_connect pass for exactly the connections whose handshake is pending |
| EndToEnd.WhatArrivesIsDelivered | src/device.c:317-353 | After every run, with "what arrived" the payloads of the segments that came for a connection, carried ACK alone and found it established with room: a client in the stream phase has been sent its messages and then the first bytes that arrived, as many as its socket took; a client that is gone has been sent all that arrived, however the connection ended, unless a write of the last flush failed or took nothing more than 1000 ms after the last progress, and then exactly what the writes before took |
| EndToEnd.WhatIsWrittenIsSent | src/device.c:498-516 | After every run, the data segments that reached the device tile the sequence space and concatenate to what recv returned for the connection in the stream phase; all that recv ever returned for its client is its commands, what the command buffer held when the connection came up, and that; the device of a freed connection got a prefix of it |
| EndToEnd.WindowIsFilled | src/device.c:415-425 | After every run, an established connection may read n >= 1 bytes if and only if n <= 65536, 36 + n <= 49152, and the bytes sent but not acknowledged by the last header that arrived plus n are within the window of that header |
| EndToEnd.ReadsGoOut | src/device.c:498-516 | A read of that size goes out as one segment with exactly those bytes, the next sequence number and an acknowledgement of all that the client was given, if the device takes it |
| EndToEnd.TimerSendsWhenLate | src/device.c:981-998 | After every run, last_ack_time is the time of the last segment that went out; a check leaves a connection alone unless more than 30 ms have passed since then and bytes have been delivered since, modulo 2^32; otherwise it acknowledges all of them, or tears the connection down if a segment cannot be sent |
| EndToEnd.ArrivalsAreAcked | src/device.c:706-718 | After every run, a segment that an established connection survives is acknowledged in the same step, once, up to what the client was given |
| EndToEnd.EndsAreAnnounced | src/device.c:309-313 | After every run, a freed connection whose device is still attached was sent exactly one RST, or none if a segment with RST had come for it |
| EndToEnd.AcceptAdds | src/client.c:183-252 | After every run, a new client has a number that was never used, waits for a command and changes nobody else |
| EndToEnd.BrokenClientsGo | src/client.c:876-955 | After every run, a client that is not joined is closed, with its connection, if its socket fails, brings an impossible length or a command at the wrong time, and stays otherwise |
| Journal.HistoriesAreTrue | src/device.c:638-719 | After every run, and for live and freed connections, the bytes accepted are the payloads that arrived, the bytes taken are what recv returned, the last header, the number of the SYN/ACK and the reset flag are those that arrived, and as many bytes were delivered before the last flush as send reported; for every client, the bytes received are all that recv returned |
| Journal.StepBooks | src/device.c:278-300 | In every step from a reachable state, each history grows by exactly what the event brings, every segment that is added carries the time of the step, and a new connection or client starts empty |
| Ledger.TeardownSteady | src/device.c:302-353 | From any state, a teardown takes nothing from outside, adds only segments of this moment, and leaves behind a RST or a reset from the device unless the device is gone |
| Ledger.SegmentSteady | src/device.c:638-719 | From any state, a segment brings its connection its header, the number of a SYN/ACK it waited for, the payload of an ACK that fits, and nothing else |
| Ledger.ProcessSteady | src/device.c:468-519 | From any state, serving a client moves what its socket took and gave between the two histories and nothing else |
| Theorems.ClientsGetTheirStream | src/device.c:481-497 | After every run, a client's socket has received its messages, complete and ending with Result OK for its Connect before any raw byte, then the device's payloads in order; tx_ack and rx_recvd count those bytes modulo 2^32; a closed client that had joined received all its messages, the last of them Result OK for the Connect that was its last command, and exactly the bytes its connection delivered, which are all that it accepted unless the last flush had to give up; any other a prefix of its messages |
| Theorems.DevicesGetTheirStream | src/device.c:498-516 | After every run, data segments tile the sequence space from 1 modulo 2^32, each within the window last advertised and the packet size, and concatenate to what was read from the client, which is everything after its commands, the last of which is its Connect, and after what the command buffer held when the connection came up; every byte a closed client sent is accounted for in the same way |
| Theorems.EverythingIsFreedOnce | src/device.c:302-353 | After every run, each connection and client ever created is live or was freed exactly once; at most one RST was attempted per connection and none after one from the device; flushed bytes are a prefix of what the device sent |
| Theorems.SilentTeardown | src/device.c:309-313 | Tearing down a connection of a removed device builds no segment |
| Theorems.RemovalIsSilent | src/device.c:862-889 | Removing a device frees each of its connections without a RST |
| Theorems.RepliesKeepOrder | src/client.c:641-738 | After every run, each well-formed command has had exactly one reply, in command order, with its tag, in the form the client uses and with a body it may get, which the members of Commands determine; only a pending Connect is still owed one; the replies of a closed client are in order too, except that the last may be BADCOMMAND for a command at the wrong time |
| Theorems.ListIsExact | src/device.c:932-958 | The device list holds exactly the visible devices, once each, in the order of attachment, with their data |
| Theorems.CommandsAreTheMessagesSent | src/client.c:906-955 | After every run, the messages given to handle_command are a prefix of the messages the client sent, however recv split them |
| Theorems.RefusalReturnsClient | src/device.c:314-317 | Whatever a step has made of an unestablished connection, reset by the device or not, tearing it down tells its client so with the tag of its Connect, puts it back in COMMAND, and leaves no connection that refers to it |
| Theorems.SegmentRefuses | src/device.c:683-704 | For every segment, a waiting connection comes up if the segment is SYN/ACK and the ACK goes out, and otherwise is refused in that way, with RST, with any other answer or when the ACK cannot be sent |
| Theorems.ListenersAreUpToDate | src/client.c:987-1009 | After every run, the Attached and Detached messages of a listener add up to what device_get_list reports, and no device was announced twice |
| Theorems.AnnounceExact | src/client.c:987-997 | client_device_add keeps a listener's view exact if and only if the device is listed and active, and announces nothing twice if and only if it was not visible |
| Theorems.AnnounceTells | src/client.c:539-559 | In any state, announcing a device tells each listener so with exactly one message, with the device's number and data |
| Theorems.AnnounceShows | src/device.c:891-901 | In any state, announcing a device marks it visible and changes nothing else about any device; it is then reported if and only if it is listed and active |
| Theorems.DetachTells | src/client.c:999-1009 | In a state that satisfies the invariant, removing a device that had come up tells each listener so with exactly one message, and tells nobody otherwise |
| Commands.BadVersionIsRefused | src/client.c:654-658 | In any state, a message whose version is neither 0 nor 1 is answered with 6 and changes nothing else |
| Commands.UnknownIsRefused | src/client.c:838-844 | In any state, an unknown message type and a plist with an unknown command are answered with 1 and change nothing else |
| Commands.VagueConnectIsRefused | src/client.c:701-722 | In any state, a plist Connect without a device is answered with 2, and one without a port with 1 |
| Commands.MalformedIsIgnored | src/client.c:670-687 | In any state, a plist that cannot be read is not answered |
| Commands.QueryIsAnswered | src/client.c:745-837 | In any state, a query is answered with what it learns from outside; if a pair record was saved for a device that has come up, every listener is told with one message, and nobody otherwise |
| Commands.DevicesAreListed | src/client.c:413-438 | In any state, ListDevices is answered with one message with its tag that lists exactly the devices visible at that moment, in order and with their data |
| Commands.NoneIsMissing | src/device.c:932-958 | After every run, no visible device is missing from such a list |
| Commands.ListenIsObeyed | src/client.c:596-616 | In any state, a Listen in either form is answered with 0 and one notice for each visible device, in order and with its data, and makes the client a listener |
| Commands.UnattachedIsRefused | src/device.c:357-367 | In any state, a Connect in either form to a device that is not there, has 65535 connections, or whose first free port from the cursor on is 0, is answered with 2 |
| Commands.UnsentIsRefused | src/device.c:394-401 | In any state, a Connect in either form whose SYN the device does not take is answered with 3 |
| Commands.ConnectIsObeyed | src/device.c:355-404 | In any state, a Connect in either form otherwise starts one connection, from the first free port to the port it names on the device it names, with one SYN on the wire, for a client that waits with its tag and is told nothing yet |
| Theorems.PortsIdentifyConnections | src/device.c:652-658 | After every run, connections of a device have distinct non-zero source ports, so the search for a segment's connection finds the only candidate |
| Theorems.PacketsAreNumbered | src/device.c:221-230 | After every run, version-2 packets since SETUP carry consecutive numbers from 0 modulo 2^16, and tx_seq and rx_seq are set |
| Theorems.WireCarriesSegments | src/device.c:278-300 | In every state, also in the middle of a step and for either version, parsing the packet that send_tcp put on the wire gives the header and data recorded for the connection |
| Traces.WireCarriesRuns | src/device.c:186-241 | After every run, the TCP packets that a device was sent with a live connection's ports, since that connection was created, are exactly the segments recorded for it, in order; those for a freed connection begin with its segments |
| Traces.SendTraced | src/device.c:278-300 | send_tcp extends the trace of its own connection by one segment and no other connection's |
| Traces.TcpInputTraced | src/device.c:652-667 | The reset for a segment without a connection, and all that a segment causes, keep the traces |
| Traces.StartTraced | src/device.c:363-404 | The SYN goes out on a port that no connection of the device has and starts the trace of the new one |
| Theorems.NoLostWakeUps | src/device.c:413-444 | After every run, a joined client is polled for input iff the in-flight count is below the device's window and for output iff data waits, ACK_PENDING holds iff tx_acked differs from tx_ack, the mask waits in devents during CONNECTING2, and any other client is polled for output iff its queue is not empty |
| Window.WindowPreventsOverflow | src/device.c:538-549 | For every interleaving of daemon events with a device that keeps its unacknowledged bytes, in 32-bit arithmetic, within the last window it received over ordered channels, the input buffer holds at most 131072 bytes and the overflow arm is unreachable |
| Window.HandshakeStarts | src/device.c:690-704 | The composition starts at every completed handshake, with the device knowing only the SYN: its own SYN is still unacknowledged and the segment that acknowledges it is under way |
| Window.HostStepKeeps | src/device.c:481-518 | Every daemon event keeps the relation between the device's view of the window and the connection |
| Peer.MoveKeeps | src/device.c:669-671 | Every move of device or daemon keeps: what the device sent beyond the acknowledgement it saw is at most the window |
| Peer.BufferWithinWindow | src/device.c:538-549 | Buffered plus in-flight bytes never exceed the window |
| Peer.SmallDifference | src/device.c:415-420 | A difference of wrapped counters is the true difference while it is below 2^32 |
| Projection.StepMoves | src/device.c:638-719 | A step changes an established connection only when a segment for it arrives, its client is served or its acknowledgement is due, and then as the connection's own code says |
| Progress.ConnectStarts | src/client.c:854-866 | A Connect to an active device with a free port creates a CONNECTING connection for a CONNECTING1 client |
| Progress.SynAckArrives | src/device.c:689-705 | A SYN/ACK packet in one transfer connects the connection it names and moves its client to CONNECTING2 |
| Progress.HandshakeCompletes | src/client.c:890-900 | From every reachable state, Connect, SYN/ACK and one write of the reply are a possible run and end with the client joined to its own connection |
| Progress.NegotiationCompletes | src/device.c:562-594 | From every state, a device that takes the version packet and answers it in one transfer becomes active with an empty buffer and with the packets of its version sent |
| Greeting.AttachGreets | src/device.c:830-860 | In any state, a new device is sent one packet, which reads as a request for version 2, and is kept if and only if it takes it |
| Greeting.AnswersAreTaken | src/device.c:562-594 | In any state, an answer of 1 or 2 makes a starting device active with that version, and 2 alone is confirmed with a SETUP packet that holds a 7 and the number 0; any other answer drops the device, and an answer at any other time is ignored |
| Greeting.PointlessPacketsAreDropped | src/device.c:785-827 | In any state, a packet that is too short for its protocol, or of another protocol than version and TCP, only has its number noted |
| Greeting.StraysAreReset | src/device.c:660-667 | In any state, a segment for no connection of an active device is answered with one packet that reads as a RST with its ports swapped and its number acknowledged, a segment with RST with none |
| Progress.ConnectionsAreReached | src/client.c:854-900 | From the start of the daemon, for either protocol version and every tag and port, some possible run ends with a client joined to its connection, provided the first packets can be sent |
| Faults.StepFaults | src/client.c:953-954 | From every reachable state, a step follows a pointer to a freed or missing structure, and then once, if and only if an ACK segment overflows the buffer of its established connection, or a message is complete while its client may not give commands |
| Faults.RunFaults | src/device.c:706-718 | A whole run follows no such pointer if and only if none of its steps meets one of the two conditions |
| Faults.EstablishFaults | src/device.c:690-704 | The handshake arm, with the client that the invariant gives it, follows no such pointer and never updates a connection it has torn down |
| Faults.ListenersMessageFaults | src/client.c:646-652 | In every reachable state, whatever further message a listener completes, in whatever pieces, meets the second condition |
| Faults.ListeningTwiceFaults | src/client.c:641-652 | Some run, in which a client sends Listen twice, uses a freed client |
| Faults.FloodingFaults | src/device.c:538-549 | Some run, in which a device fills the buffer of a client that is not served, uses a freed connection, and that is its first fault |
| Faults.WindowPreventsFaults | src/device.c:713-716 | In any composition with a device that respects the window, no segment meets the first condition |
| Faults.TeardownFaults | src/device.c:302-353 | Whatever a step did to a pair before, the teardown, the close it makes and the abort that comes back from it follow no pointer to a structure that is not there, and the connection is gone after them |
| Faults.StaleTeardownFaults | src/device.c:314-317 | With its client freed, tearing down an unestablished connection does count a fault |
| Faults.CloseFaults | src/client.c:254-300 | Closing a client that is not joined, and tearing down its connection with it, follows no such pointer, and the client is gone after it |
| Reachable.StepKeeps | src/main.c:318-394 | Every event of the main loop keeps the invariant |
| Reachable.RunKeeps | src/main.c:318-394 | The invariant holds after every run |
| Timers.ReachableIsSane | src/device.c:960-979 | In every reachable state no acknowledgement lies in the future, as the computation of the timeout supposes |
| Timers.QuietUntilTimeout | src/device.c:981-998 | Up to the announced time a check changes nothing and sends nothing; the times it rests on are those of EndToEnd.TimerSendsWhenLate |
| Timers.DueAfterTimeout | src/device.c:976-978 | Right after the announced time a pending acknowledgement is overdue |
| Timers.NothingOverdueAfterCheck | src/device.c:981-998 | After a check no connection has an overdue acknowledgement |
| Timers.TicksExactly | src/device.c:981-998 | In a reachable state, a check acknowledges exactly the connections whose acknowledgement is overdue, tears down those of them to which nothing can be sent, and leaves all others as they are |
| Release.TeardownRefuses | src/device.c:302-317 | Tearing down an unestablished connection sends at most one RST, tells the client and frees the connection once |
| Release.TeardownReleases | src/device.c:317-353 | Tearing down an established connection sends at most one RST, flushes the buffer as far as Environment.FlushDrains says and frees connection and client once each |
| Release.BuriedCloses | src/client.c:254-300 | Closing the client of a dead connection frees the client and does not free the connection |
| Release.CloseAborts | src/device.c:551-560 | Closing a client that is not joined frees it and its connection once each |
| Release.TeardownKeeps | src/device.c:302-353 | Whatever a step did to a pair before, teardown restores the invariant, removes the connection and touches no other entry |
| Release.CloseKeeps | src/client.c:287-291 | Closing a client in mid-connect restores the invariant and touches no other entry |
| Release.FindConnIs | src/device.c:150-166 | get_mux_connection finds the connection of a client |
| Serving.UpdateCompletes | src/device.c:413-444 | update_connection brings the mask and flags of connection and client into agreement, and leaves the connection in the state in which EndToEnd.WindowIsFilled holds |
| Serving.AckKeeps | src/device.c:446-457 | send_tcp_ack acknowledges or tears down, and keeps the invariant |
| Serving.EstablishKeeps | src/device.c:689-705 | The SYN/ACK arm establishes the connection with its client in CONNECTING2, or refuses it |
| Serving.SegmentKeeps | src/device.c:638-719 | A segment changes only the connection it is for: payload accepted and acknowledged, established, or torn down |
| Serving.ProcessKeeps | src/device.c:468-519 | device_client_process serves the connection exactly as far as the socket allowed, or tears it down |
| DeviceSteps.CheckTimeoutsKeeps | src/device.c:981-998 | device_check_timeouts keeps the invariant |
| DeviceSteps.TeardownAllKeeps | src/device.c:870-872 | The loop of device_remove leaves no connection of the device and no listener misinformed |
| DeviceSteps.TellKeeps | src/client.c:992-995 | A notice to all listeners changes what each has seen by that notice, and nothing but the listeners |
| DeviceSteps.DeviceRemoveKeeps | src/device.c:862-889 | device_remove keeps the invariant and the listeners' view and takes the device off the list |
| DeviceSteps.AnnounceKeeps | src/client.c:987-997 | client_device_add keeps the invariant and the listeners' view |
| DeviceSteps.AttachKeeps | src/device.c:830-860 | device_add keeps the invariant |
| DeviceSteps.VersionInputKeeps | src/device.c:562-594 | device_version_input drops a starting device that has an unknown version and activates any other, changes nothing for a device that is not starting, and keeps the invariant |
| DeviceSteps.TcpInputKeeps | src/device.c:638-667 | device_tcp_input keeps the invariant, also for segments without a connection |
| DeviceSteps.DataInputKeeps | src/device.c:729-828 | device_data_input keeps the invariant for every transfer |
| ClientSteps.WritableKeeps | src/client.c:876-905 | output_buffer_process keeps the invariant |
| ClientSteps.SentPairs | src/client.c:890-900 | When the whole reply is out the client is joined with the mask kept for it |
| ClientSteps.AttachAllTells | src/client.c:596-616 | start_listen announces exactly the visible devices, once each |
| ClientSteps.ConnectKeeps | src/device.c:355-404 | device_start_connect links client and connection, or answers with the error, and keeps the invariant |
| ClientSteps.ObeyKeeps | src/client.c:654-873 | Each arm of handle_command keeps the invariant and settles the reply it owes; which arm a message takes is in the members of Commands |
| ClientSteps.HandleKeeps | src/client.c:641-652 | handle_command keeps the invariant; the client survives it if and only if it was in COMMAND, and a pending connection goes with its client |
| ClientSteps.ReadableKeeps | src/client.c:906-955 | input_buffer_process keeps the invariant |
| Connection.HandshakeEstablishes | src/device.c:690-698 | After SYN/ACK both counters stand at 1 and rx_recvd at the device's number |
| Connection.AcceptKeeps | src/device.c:538-549 | Accepting a payload that fits keeps the stream counters right; Ledger.SegmentSteady says that it is this payload |
| Connection.WroteKeeps | src/device.c:490-496 | A partial write keeps byte order and the stream counters right |
| Connection.DataFits | src/device.c:415-425 | For every acknowledgement number, sending up to sendable bytes keeps the in-flight count within the window and the packet within its size |
| Connection.DataSegmentKeeps | src/device.c:498-516 | A data segment continues the tiling of the sequence space |
| Connection.DataSegmentLost | src/device.c:510-514 | A data segment that could not be sent leaves a prefix of what was read |
| Connection.NoteKeeps | src/device.c:669-681 | Noting a header changes no stream; a reset marks the connection |
| Connection.DoomedReleases | src/device.c:309-345 | After at most one RST and a flush the history of a freed connection is sound |
| Connection.TiledAt | src/device.c:515-515 | Each data segment starts at one plus the number of data bytes before it, modulo 2^32 |
| Client.NotifyJoins | src/client.c:374-390 | Result OK is queued with the Connect tag and the client stops reading commands |
| Client.RefusedIsSingle | src/client.c:391-394 | A refusal is queued with the Connect tag and the client may give commands again |
| Client.SentKeeps | src/client.c:884-904 | Sent plus queued bytes stay the messages queued; the last byte of the Connect reply starts the stream phase |
| Client.EnqueueGrows | src/client.c:311-340 | Queueing appends exactly the encoding of one message |
| Client.NoticeKeeps | src/client.c:539-576 | A notice changes what the listener has seen and no reply |
| Client.CommandedOwes | src/client.c:641-873 | A command given to handle_command is the next one owed a reply |
| Client.ReplyClears | src/client.c:357-372 | The reply with the right tag, form and code settles the debt |
| Client.ConnectPends | src/client.c:861-865 | A started Connect leaves exactly its own reply owed |
| Client.BufferedKeeps | src/client.c:920-922 | A partial command stays in the buffer |
| Client.MayQuit | src/client.c:254-300 | A client that is not joined can be closed at any time with its replies in order and its bytes accounted for |
| Client.RebukeQuits | src/client.c:646-652 | So can one that has just been told that its command came at the wrong time |
| Device.SendKeepsNumbers | src/device.c:221-230 | Every packet built after SETUP takes the next number |
| Device.NegotiationStartsNumbers | src/device.c:578-586 | SETUP is packet 0 and sets both counters |
| MuxPacket.BuildFields | src/device.c:217-233 | Every field of a packet can be read back, under either header size: the protocol number 0, 1, 2 or 6, the length, and for version 2 the constant 0xfeedface and both numbers |
| MuxPacket.TcpHeaderRoundTrip | src/device.c:278-288 | Decoding an encoded TCP header gives it back; the offset byte is 0x50 and the last four bytes are 0 |
| MuxPacket.TcpRoundTrip | src/device.c:813-822 | Parsing a TCP packet built by send_packet gives its header and payload, for version below 2 and for version 2 |
| MuxPacket.VersionRoundTrip | src/device.c:801-806 | Parsing a version packet gives its major version, and its other two words are the minor version and 0 |
| Assembler.Gather | src/device.c:745-790 | A dispatched packet has the length its header announces, and a short transfer empties the buffer |
| Assembler.PacketsSurviveSplitting | src/device.c:756-783 | Any packets of 8 to 65536 bytes, split into transfers with or without trailing empty ones, are dispatched exactly and in order |
| Assembler.ShortTransferResynchronises | src/device.c:757-769 | After any history, one short transfer makes everything sent later arrive exactly |
| Assembler.DispatchedPacketsAreWhole | src/device.c:785-790 | For any history the buffer stays a multiple of 16384 and at most 65536, and dispatched packets have their announced length |
| Ports.FreeFrom | src/device.c:248-259 | The first free port at or after the cursor, cyclically |
| Ports.FindSport | src/device.c:243-260 | A non-zero result is free; at 65535 connections the result is 0 |
| Ports.RetryAfterWrap | src/device.c:363-367 | Below the limit a zero result only means the cursor wrapped: the next call gives a free non-zero port |
| ClientMessage.DecodeEncode | src/usbmuxd-proto.h:60-65 | Decoding an encoded message gives its version, type, tag and payload |
| ClientMessage.DecodeCut | src/usbmuxd-proto.h:60-65 | A message cut short is not taken for a complete one |
| ClientMessage.StreamDecodes | src/client.c:311-340 | A client that reads by header lengths decodes, from any prefix of the stream, a prefix of the messages queued, and all of them from all of it |
| ClientMessage.MessagesSayWhatTheyMean | src/client.c:357-372 | The header and payload of every message: in the binary form the type and, least significant byte first, the result code or device number it stands for, followed by the device's data for an attached device; otherwise type 8 and the plist of the body |
| Environment.FlushDrains | src/device.c:319-345 | The flush of a buffer writes all of it unless some call fails, or takes nothing more than 1000 ms after the last progress, before that much has been taken, and then exactly what the earlier calls took |
| Environment.OneWriteDrains | src/device.c:323-330 | If the first write takes everything, the flush writes everything |
| CommandFraming.Receive | src/client.c:906-955 | A command handed over has the length its header announces |
| CommandFraming.NeedIsTheRest | src/client.c:910-946 | While a message arrives, recv is asked for exactly the rest of its header, then for exactly the rest of the message, and that much completes it |
| CommandFraming.LengthsAreLimited | src/client.c:926-935 | A message is refused for its length if and only if its first word, least significant byte first, is below 16 or above 65536 |
| CommandFraming.FramingIgnoresChunking | src/client.c:906-955 | For every way recv may split the stream, handle_command sees exactly the messages sent, in order, and no byte past a message end is consumed |
| CommandFraming.FramingIsUnique | src/client.c:936-953 | A stream can be cut into whole messages in one way only |
| MuxConnections.MuxConnection.constructor | src/device.c:369-390 | The zeroed connection |
| MuxConnections.MuxConnection.SendTcp | src/device.c:278-300 | Builds the header and, on success, records the acknowledgement and its time; EndToEnd.TimerSendsWhenLate says what that record is worth |
| MuxConnections.MuxConnection.UpdateConnection | src/device.c:413-444 | The chain of tests sets sendable, mask and flag as the value model does, whose sendable EndToEnd.WindowIsFilled shows to be the largest that fits |
| MuxConnections.MuxConnection.DeviceInput | src/device.c:538-549 | Appends the payload in the buffer, in the order in which Journal.HistoriesAreTrue finds it there, or reports overflow and changes nothing |
| MuxConnections.MuxConnection.Wrote | src/device.c:490-496 | Moves the rest of the buffer to its front |
| MuxConnections.MuxConnection.NoteHeader | src/device.c:669-671 | Takes over the three header fields |
| MuxConnections.MuxConnection.Handshake | src/device.c:690-692 | Steps both counters over the SYN and takes over the device's number |
| MuxConnections.MuxConnection.Flush | src/device.c:319-345 | The flush loop ends on an advancing clock and writes exactly what the socket takes before an error or a second without progress, in order |
| MuxDevices.MuxDevice.constructor | src/device.c:836-845 | A device waiting for its version, with both counters unset |
| MuxDevices.MuxDevice.SendPacket | src/device.c:186-241 | Builds the packet with the current numbers and advances them, or refuses one larger than the MTU |
| MuxDevices.MuxDevice.SendSetup | src/device.c:219-230 | Starts the numbering with the SETUP packet |
| MuxDevices.MuxDevice.Negotiate | src/device.c:578-585 | Takes over the version, sends SETUP for version 2 and becomes active |
| MuxDevices.MuxDevice.Assemble | src/device.c:217-233 | Fills the packet buffer |
| MuxDevices.MuxDevice.DataInput | src/device.c:729-790 | Gathers a transfer in pktbuf |
| MuxClients.MuxClient.constructor | src/client.c:214-227 | A client waiting for commands |
| MuxClients.MuxClient.Reserve | src/client.c:320-333 | Growing the queue keeps its contents and makes room |
| MuxClients.GrowthFits | src/client.c:324-324 | The 32-bit capacity computed is the intended one if and only if the sum fits 32 bits, and too small otherwise |
| MuxClients.MuxClient.AddMessage | src/client.c:311-340 | Appends one encoded message and arms POLLOUT |
| MuxClients.MuxClient.OutputProcess | src/client.c:890-904 | Moves the unsent rest to the front, or joins the stream |
| MuxClients.MuxClient.SetEvents | src/client.c:162-172 | Stores the mask, and uses it at once when joined |
| MuxClients.MuxClient.NotifyConnect | src/client.c:374-395 | Queues the result and changes state, or fails and changes nothing |
| MuxClients.MuxClient.InputProcess | src/client.c:906-954 | Frames the bytes read in the command buffer: a partial message, a whole one, or an impossible length |
| Multiplexers.Multiplexer.constructor | src/device.c:1000-1006 | Empty tables, which show the start state |
| Multiplexers.Multiplexer.Run | src/main.c:318-394 | On any possible run, the objects end up holding exactly the state that the transition system reaches |
| Multiplexers.Multiplexer.Step | src/main.c:318-394 | So does each event, from any tables of objects that share no buffers |
| Multiplexers.Multiplexer.ConnPut | src/device.c:355-404 | Changing the parts of one connection changes no other object's value and keeps all buffers apart |
| Multiplexers.Multiplexer.ClientGrown | src/client.c:320-333 | The same for a client whose queue may have moved to a new buffer |
| Multiplexers.Multiplexer.ConnectionTeardown | src/device.c:302-353 | On objects, the recursive teardown has the effect whose closed forms are proved for the tables; the entries that are left are the objects they were, and nothing of the connection is left in the footprint |
| Multiplexers.Multiplexer.ClientClose | src/client.c:254-300 | On objects, the recursive close has the effect whose closed forms are proved for the tables; the entries that are left are the objects they were, and nothing of the client is left in the footprint |
| Multiplexers.Multiplexer.AbortConnect | src/device.c:551-560 | On objects, the connection found by the search loop is orphaned in place and torn down |
| Multiplexers.Multiplexer.FlushTo | src/device.c:319-345 | The loop in the connection's buffer writes as much as the table model says, which EndToEnd.WhatArrivesIsDelivered shows to be everything unless a write fails or stalls, and nothing unless the client is joined |
| Multiplexers.Multiplexer.FindConnection | src/device.c:150-166 | The loop finds the connection that the recursive search finds |
| Multiplexers.Multiplexer.FindPorts | src/device.c:652-658 | The loop finds the connection that the recursive search finds |
| Multiplexers.Multiplexer.FindSport | src/device.c:243-260 | The loops over the device's connections give the first port that none of them uses, and move the cursor past it |
| Multiplexers.Multiplexer.SearchPort | src/device.c:248-259 | The search ends, because the cursor comes nearer to a free port, at the first free one |
| Multiplexers.Multiplexer.SendTcp | src/device.c:278-300 | The packet is built by the device object and the acknowledgement noted by the connection object; nothing else changes |
| Multiplexers.Multiplexer.ClientProcess | src/device.c:468-519 | Serving a client on its connection's buffer has the effect proved for the tables, in both arms and on every failure |
| Multiplexers.Multiplexer.SegmentInput | src/device.c:669-718 | A segment has the effect proved for the tables, down to the use of a freed connection after an overflow |
| Multiplexers.Multiplexer.Establish | src/device.c:690-704 | So has the end of a handshake |
| Multiplexers.Multiplexer.DataInput | src/device.c:729-828 | So has a transfer, gathered in the device's buffer |
| Multiplexers.Multiplexer.DeviceAdd | src/device.c:830-860 | A new device joins the list only if its version packet could be sent |
| Multiplexers.Multiplexer.TellListeners | src/client.c:992-995 | The loop over the clients, in any order, tells each listener once |
| Multiplexers.Multiplexer.TeardownAll | src/device.c:870-872 | The loop tears down every connection of the device |
| Multiplexers.Multiplexer.DeviceRemove | src/device.c:862-889 | Nothing of the device is left in the footprint, and the tables are those proved silent and exact |
| Multiplexers.Multiplexer.CheckTimeouts | src/device.c:981-998 | The loop acknowledges exactly the overdue connections |
| Multiplexers.Multiplexer.GetTimeout | src/device.c:960-979 | The timeout that the loop over the objects returns is how long no pending acknowledgement is overdue, exactly; 100000 when none is pending |
| Multiplexers.Multiplexer.StartConnect | src/device.c:355-404 | The connection object joins the list only once its SYN has been sent; the code returned is the one proved for the tables |
| Multiplexers.Multiplexer.StartListen | src/client.c:596-616 | The loop announces each visible device once |
| Multiplexers.Multiplexer.ListDevices | src/device.c:932-958 | The loop builds the list proved exact |
| Multiplexers.Multiplexer.HandleCommand | src/client.c:641-873 | Every command has on the objects the effect that the members of Commands give for the tables |
| Multiplexers.Multiplexer.Readable | src/client.c:906-955 | So has input_buffer_process, down to the use of a freed client after a command |
| Multiplexers.Multiplexer.Writable | src/client.c:876-905 | So has output_buffer_process |

## Left out

- `src/usb.c` beyond the sizes of its transfers, and `src/preflight.c` beyond the one announcement per device.
- Threads and mutexes: every event and every announcement is one atomic step.
- ListListeners, ReadBUID and the pair-record commands: one reply each with arbitrary contents, and the Paired notices that a saved record may cause; what the answers say is not modelled.
- `device_control_input`, logging and process names: they have no effect on the state.
- `device_kill_connections`, `device_shutdown` and `client_shutdown`: the end of the daemon.
- Reads of header fields beyond the end of a short transfer or of a short version-2 packet.
- Wrap-around of device ids and client numbers: ids are unbounded here.
- Order of the FOREACH loops: connections and devices are visited by age, clients in any order.
- Passage of time within an event: all clock reads within one event give the same time, except in the flush loop.
- What a program does after it has used a freed structure or a null pointer.
- MuxClients.MuxClient.Reserve: does not model 32-bit wrap-around of the capacity, because the C code then writes past its buffer; GrowthFits gives the exact condition.
- MuxClients.MuxClient.InputProcess: shows the buffer of a client that is closed for an impossible length as empty; it is never read again.
