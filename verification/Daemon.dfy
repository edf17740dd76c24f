/** The daemon as a transition system. The three tables stand for the heap and their keys for pointers: a
    structure that has been freed has left its table, and only its history remains. Wherever the source follows a
    pointer without looking it up first, a key that is not in its table counts a fault, and so does a pointer that
    has been cleared; the access itself then has no effect. */
module Daemon {
  import opened Basics
  import opened MuxPacket
  import opened Assembler
  import opened ClientMessage
  import opened CommandFraming
  import opened Environment
  import Ports
  import C = Connection
  import L = Client
  import D = Device

  datatype World = World(
    clients: map<nat, L.Client>, conns: map<nat, C.Conn>, devices: map<nat, D.Device>,
    pastClients: map<nat, L.ClientHistory>, pastConns: map<nat, C.ConnHistory>,
    nextClient: nat, nextConn: nat, nextDevice: nat, clock: nat,
    faults: nat)                              // how often a freed structure or a null pointer was used

  const START := World(map[], map[], map[], map[], map[], 0, 0, 1, 0, 0)

  function Fault(w: World): World { w.(faults := w.faults + 1) }

  function SetConn(w: World, k: nat, kn: C.Conn): World { w.(conns := w.conns[k := kn]) }
  function SetClient(w: World, c: nat, cl: L.Client): World { w.(clients := w.clients[c := cl]) }
  function SetDevice(w: World, d: nat, dev: D.Device): World { w.(devices := w.devices[d := dev]) }

  // ---- Sending to a device ----

  predicate TcpOk(env: Env, w: World, k: nat, n: nat)
  {
    && k in w.conns && w.conns[k].dev in w.devices
    && D.SendOk(env, w.conns[k].dev, w.devices[w.conns[k].dev], 20, n)
  }

  /** send_tcp */
  function SendTcp(env: Env, w: World, k: nat, flags: byte, data: seq<byte>): World
  {
    if k !in w.conns || w.conns[k].dev !in w.devices then Fault(w)
    else
      var kn := w.conns[k];
      var sent := C.SendTcp(kn, flags, data, TcpOk(env, w, k, |data|), w.clock);
      var dev := D.SendPacket(w.devices[kn.dev], Tcp, TcpBytes(C.SegmentHeader(kn, flags)), data);
      SetDevice(SetConn(w, k, sent), kn.dev, dev)
  }

  // ---- Looking connections up ----

  /** get_mux_connection: the connection of device d that serves client c. */
  function FindConn(w: World, d: nat, c: nat, below: nat): (r: Option<nat>)
    ensures r.Some? ==> r.value in w.conns && w.conns[r.value].dev == d && w.conns[r.value].client == Some(c)
  {
    if below == 0 then None
    else
      var k := below - 1;
      if k in w.conns && w.conns[k].dev == d && w.conns[k].client == Some(c) then Some(k) else FindConn(w, d, c, k)
  }

  /** The search of device_tcp_input: the connection of device d with these ports. */
  function FindPorts(w: World, d: nat, sport: u16, dport: u16, below: nat): (r: Option<nat>)
    ensures r.Some? ==> r.value in w.conns && w.conns[r.value].dev == d
                        && w.conns[r.value].sport == sport && w.conns[r.value].dport == dport
  {
    if below == 0 then None
    else
      var k := below - 1;
      if k in w.conns && w.conns[k].dev == d && w.conns[k].sport == sport && w.conns[k].dport == dport then Some(k)
      else FindPorts(w, d, sport, dport, k)
  }

  // ---- Teardown and close, which call each other ----

  /** The connections that still have a client; the recursion shrinks this set. */
  function Owned(w: World): set<nat> { set k | k in w.conns && w.conns[k].client.Some? }

  predicate SameOwners(w: World, w': World)
  {
    w'.conns.Keys == w.conns.Keys && forall k :: k in w.conns ==> w'.conns[k].client == w.conns[k].client
  }

  /** A RST is attempted unless the device is gone or sent one itself. */
  predicate MayReset(w: World, kn: C.Conn)
  {
    && kn.dev in w.devices && !w.devices[kn.dev].state.Removed?
    && !kn.state.Dying? && !kn.state.Refused?
  }

  function Reset(env: Env, w: World, k: nat): (w': World)
    ensures SameOwners(w, w')
  {
    if k !in w.conns || w.conns[k].dev !in w.devices then Fault(w)
    else if MayReset(w, w.conns[k]) then SendTcp(env, w, k, RST, [])
    else w
  }

  /** The bytes the flush at teardown writes: a prefix of the buffer, and none unless the client is joined. */
  function FlushLength(env: Env, w: World, k: nat, c: nat): (n: nat)
    requires k in w.conns
    ensures n <= |w.conns[k].ib|
  {
    if w.conns[k].events.pollOut && c in w.clients && w.clients[c].state.Joined?
    then Flushable(env.flush(k), |w.conns[k].ib|, 0, 1, env.flush(k).clock(0)) else 0
  }

  /** Mark the connection dead and flush its buffer to the client. */
  function Bury(env: Env, w: World, k: nat, c: nat): (w': World)
    requires k in w.conns
    ensures SameOwners(w, w')
  {
    var n := FlushLength(env, w, k, c);
    var dead := SetConn(w, k, C.Flushed(w.conns[k], n).(state := C.Dead));
    if c in w.clients then SetClient(dead, c, L.RawSent(w.clients[c], w.conns[k].ib[..n]))
    else if w.conns[k].events.pollOut && w.conns[k].ib != [] then Fault(dead)
    else dead
  }

  function NotifyRefused(env: Env, w: World, c: nat): World
  {
    if c !in w.clients then Fault(w)
    else match L.Notify(env, w.clients[c], RESULT_CONNREFUSED)
      case None => w
      case Some(cl) => SetClient(w, c, cl)
  }

  function FreeConn(w: World, k: nat): World
  {
    if k in w.conns then
      var h := w.conns[k].h;
      w.(conns := w.conns - {k}, pastConns := w.pastConns[k := h.(frees := h.frees + 1)])
    else if k in w.pastConns then
      Fault(w.(pastConns := w.pastConns[k := w.pastConns[k].(frees := w.pastConns[k].frees + 1)]))
    else Fault(w)
  }

  function FreeClient(w: World, c: nat): World
  {
    if c in w.clients then
      var h := w.clients[c].h;
      w.(clients := w.clients - {c}, pastClients := w.pastClients[c := h.(frees := h.frees + 1)])
    else if c in w.pastClients then
      Fault(w.(pastClients := w.pastClients[c := w.pastClients[c].(frees := w.pastClients[c].frees + 1)]))
    else Fault(w)
  }

  /** connection_teardown */
  function Teardown(env: Env, w: World, k: nat): World
    decreases Owned(w), 3
  {
    if k !in w.conns then Fault(w)
    else if w.conns[k].state.Dead? then w
    else
      var kn := w.conns[k];
      var quiet := Reset(env, w, k);
      var told :=
        match kn.client
        case None => quiet
        case Some(c) =>
          if kn.state.Refused? || kn.state.Connecting? then NotifyRefused(env, quiet, c)
          else
            var dead := Bury(env, quiet, k, c);
            assert Owned(dead) == Owned(w);
            ClientClose(env, dead, c);
      FreeConn(told, k)
  }

  /** client_close, which looks its client up. */
  function ClientClose(env: Env, w: World, c: nat): World
    decreases Owned(w), 2
  {
    if c !in w.clients then w
    else
      var cl := w.clients[c];
      FreeClient(
        if cl.state.Connecting1? || cl.state.Connecting2?
        then AbortConnect(env, SetClient(w, c, cl.(state := L.Gone)), cl.connectDev, c)
        else w, c)
  }

  /** device_abort_connect */
  function AbortConnect(env: Env, w: World, d: nat, c: nat): World
    decreases Owned(w), 1
  {
    match FindConn(w, d, c, w.nextConn)
    case None => w
    case Some(k) =>
      var orphaned := SetConn(w, k, w.conns[k].(client := None));
      assert Owned(orphaned) == Owned(w) - {k};
      Teardown(env, orphaned, k)
  }

  // ---- Serving a connection ----

  /** update_connection */
  function UpdateConnection(w: World, k: nat): World
  {
    if k !in w.conns then Fault(w)
    else
      var kn := C.Update(w.conns[k]);
      var w' := SetConn(w, k, kn);
      if kn.client.Some? && kn.client.value in w.clients
      then SetClient(w', kn.client.value, L.SetEvents(w.clients[kn.client.value], kn.events)) else Fault(w')
  }

  /** send_tcp_ack */
  function SendTcpAck(env: Env, w: World, k: nat): World
  {
    if k !in w.conns then Fault(w)
    else
      var sent := SendTcp(env, w, k, ACK, []);
      if TcpOk(env, w, k, 0) then UpdateConnection(sent, k) else Teardown(env, sent, k)
  }

  /** The POLLOUT arm of device_client_process; `wrote` is what send returned. */
  function WriteArm(w: World, k: nat, c: nat, wrote: nat): World
    requires k in w.conns && wrote <= |w.conns[k].ib|
  {
    var kn := w.conns[k];
    var w' := SetConn(w, k, C.Wrote(kn, wrote));
    if c in w.clients then SetClient(w', c, L.RawSent(w.clients[c], kn.ib[..wrote])) else Fault(w')
  }

  function ReadArm(w: World, k: nat, c: nat, data: seq<byte>): World
    requires k in w.conns
  {
    var w' := SetConn(w, k, C.Took(w.conns[k], data));
    if c in w.clients then SetClient(w', c, L.RawReceived(w.clients[c], data)) else Fault(w')
  }

  function AdvanceArm(w: World, k: nat, n: nat): World
  {
    if k in w.conns then SetConn(w, k, C.Advance(w.conns[k], n)) else Fault(w)
  }

  /** What poll and the socket calls of device_client_process returned: None for an arm that poll did not
      select, a length or data of zero for an error, a closed socket or a refused write. */
  datatype SocketResults = SocketResults(write: Option<nat>, read: Option<seq<byte>>)

  /** device_client_process: the write arm. */
  function ProcessWrite(env: Env, w: World, k: nat, c: nat, io: SocketResults): World
    requires k in w.conns
  {
    if io.write.Some? && w.conns[k].ib != [] then
      if c !in w.clients then Teardown(env, Fault(w), k)
      else if !(0 < io.write.value <= |w.conns[k].ib|) || !w.clients[c].state.Joined? then Teardown(env, w, k)
      else ProcessRead(env, WriteArm(w, k, c, io.write.value), k, c, io)
    else ProcessRead(env, w, k, c, io)
  }

  /** device_client_process: the read arm, and the update both arms end with. */
  function ProcessRead(env: Env, w: World, k: nat, c: nat, io: SocketResults): World
    requires k in w.conns
  {
    if io.read.Some? && w.conns[k].sendable > 0 then
      var data := io.read.value;
      if c !in w.clients then Teardown(env, Fault(w), k)
      else if !(0 < |data| <= w.conns[k].sendable) || !w.clients[c].state.Joined? then Teardown(env, w, k)
      else
        var took := ReadArm(w, k, c, data);
        var sent := SendTcp(env, took, k, ACK, data);
        if TcpOk(env, took, k, |data|) then UpdateConnection(AdvanceArm(sent, k, |data|), k)
        else Teardown(env, sent, k)
    else UpdateConnection(w, k)
  }

  /** device_client_process */
  function ClientProcess(env: Env, w: World, d: nat, c: nat, io: SocketResults): World
  {
    match FindConn(w, d, c, w.nextConn)
    case None => w
    case Some(k) => ProcessWrite(env, w, k, c, io)
  }

  // ---- Input from a device ----

  /** The SYN/ACK arm of device_tcp_input. */
  function Establish(env: Env, w: World, k: nat): World
    requires k in w.conns
  {
    var shaken := SetConn(w, k, C.Handshake(w.conns[k]));
    var acked := SendTcp(env, shaken, k, ACK, []);
    if !TcpOk(env, shaken, k, 0) then Teardown(env, acked, k)
    else
      var up := acked.conns[k].(state := C.Connected);
      if up.client.None? || up.client.value !in w.clients then UpdateConnection(Fault(SetConn(acked, k, up)), k)
      else match L.Notify(env, w.clients[up.client.value], RESULT_OK)
        case None => UpdateConnection(Teardown(env, SetConn(acked, k, up.(client := None)), k), k)
        case Some(cl) => UpdateConnection(SetClient(SetConn(acked, k, up), up.client.value, cl), k)
  }

  /** connection_device_input */
  function DeviceInput(env: Env, w: World, k: nat, payload: seq<byte>): World
    requires k in w.conns
  {
    if C.Overflows(w.conns[k], payload) then Teardown(env, w, k)
    else UpdateConnection(SetConn(w, k, C.Accept(w.conns[k], payload)), k)
  }

  /** device_tcp_input for the connection that matched. */
  function Segment(env: Env, w: World, k: nat, th: TcpHeader, payload: seq<byte>): World
    requires k in w.conns
  {
    var noted := C.NoteHeader(w.conns[k], th);
    match noted.state
    case Connecting =>
      if th.flags != SYN_ACK
      then Teardown(env, SetConn(w, k, if HasRst(th.flags) then noted.(state := C.Refused) else noted), k)
      else Establish(env, SetConn(w, k, noted), k)
    case Connected =>
      if th.flags != ACK
      then Teardown(env, SetConn(w, k, if HasRst(th.flags) then noted.(state := C.Dying) else noted), k)
      else SendTcpAck(env, DeviceInput(env, SetConn(w, k, noted), k, payload), k)
    case _ => SetConn(w, k, noted)
  }

  /** device_tcp_input */
  function TcpInput(env: Env, w: World, d: nat, th: TcpHeader, payload: seq<byte>): World
  {
    if d !in w.devices || !w.devices[d].state.Active? then w
    else match FindPorts(w, d, th.dport, th.sport, w.nextConn)
      case Some(k) => Segment(env, w, k, th, payload)
      case None =>
        if HasRst(th.flags) then w
        else
          var reset := TcpHeader(th.dport, th.sport, 0, th.seqno, RST, 0);
          SetDevice(w, d, D.SendPacket(w.devices[d], Tcp, TcpBytes(reset), []))
  }

  /** device_version_input */
  function VersionInput(w: World, d: nat, major: nat): World
    requires d in w.devices
  {
    if !w.devices[d].state.Starting? then w
    else if major != 1 && major != 2 then w.(devices := w.devices - {d})
    else SetDevice(w, d, D.Negotiated(w.devices[d], major))
  }

  /** device_data_input after gathering. */
  function PacketInput(env: Env, w: World, d: nat, pkt: seq<byte>): World
    requires d in w.devices && |pkt| >= 8
  {
    var dev := w.devices[d];
    var seen := if dev.version >= 2 && |pkt| >= 16 then SetDevice(w, d, dev.(rxSeq := Some(SeenField(pkt)))) else w;
    match Parse(dev.version, pkt)
    case VersionIn(major) => VersionInput(seen, d, major)
    case TcpIn(th, payload) => TcpInput(env, seen, d, th, payload)
    case _ => seen
  }

  /** device_data_input */
  function DataInput(env: Env, w: World, d: nat, chunk: seq<byte>): World
  {
    if d !in w.devices then w
    else
      var g := Gather(w.devices[d].buf, chunk);
      var kept := SetDevice(w, d, w.devices[d].(buf := g.buf));
      match g.packet
      case None => kept
      case Some(pkt) => PacketInput(env, kept, d, pkt)
  }

  // ---- Devices come and go ----

  /** device_add */
  function DeviceAdd(env: Env, w: World, info: seq<byte>): World
  {
    var d, dev := w.nextDevice, D.NewDevice(info);
    var tried := D.SendPacket(dev, Version, VersionBytes(2, 0), []);
    var w' := w.(nextDevice := d + 1);
    if D.SendOk(env, d, dev, 12, 0) then SetDevice(w', d, tried) else w'
  }

  /** What device_get_list(0) reports. */
  predicate IsVisible(w: World, d: nat)
  {
    d in w.devices && w.devices[d].state.Active? && w.devices[d].visible
  }

  function VisibleDevices(w: World): set<nat> { set d | d in w.devices && IsVisible(w, d) }

  /** The list that device_get_list(0) builds, from the devices below d. */
  function ListDevices(w: World, d: nat): seq<Listed>
  {
    if d == 0 then []
    else ListDevices(w, d - 1) + if IsVisible(w, d - 1) then [Listed(d - 1, w.devices[d - 1].info)] else []
  }

  /** The loops of client_device_add and client_device_remove over the listening clients. */
  function TellListeners(env: Env, w: World, body: Body): World
  {
    w.(clients := map c | c in w.clients ::
         if w.clients[c].state.Listening? then L.Enqueue(env, w.clients[c], 0, body) else w.clients[c])
  }

  /** client_device_add, called once preflight is done with a device. */
  function Announce(env: Env, w: World, d: nat, info: seq<byte>): World
  {
    var shown := if d in w.devices then SetDevice(w, d, w.devices[d].(visible := true)) else w;
    TellListeners(env, shown, Attached(d, info))
  }

  /** The loop of device_remove over the connections of a device. */
  function TeardownAll(env: Env, w: World, d: nat, k: nat): World
    decreases k
  {
    if k == 0 then w
    else
      var w' := TeardownAll(env, w, d, k - 1);
      if k - 1 in w'.conns && w'.conns[k - 1].dev == d then Teardown(env, w', k - 1) else w'
  }

  /** device_remove */
  function DeviceRemove(env: Env, w: World, d: nat): World
  {
    if d !in w.devices then w
    else
      var clean :=
        if w.devices[d].state.Active? then
          var gone := SetDevice(w, d, w.devices[d].(state := D.Removed));
          TellListeners(env, TeardownAll(env, gone, d, w.nextConn), Detached(d))
        else w;
      clean.(devices := clean.devices - {d})
  }

  // ---- Timers ----

  const ACK_TIMEOUT := 30

  predicate Overdue(w: World, k: nat)
  {
    && k in w.conns && w.conns[k].dev in w.devices && w.devices[w.conns[k].dev].state.Active?
    && w.conns[k].state.Connected? && w.conns[k].ackPending && w.clock - w.conns[k].lastAck > ACK_TIMEOUT
  }

  /** device_check_timeouts over the connections below k. */
  function CheckTimeouts(env: Env, w: World, k: nat): World
    decreases k
  {
    if k == 0 then w
    else
      var w' := CheckTimeouts(env, w, k - 1);
      if Overdue(w', k - 1) then SendTcpAck(env, w', k - 1) else w'
  }

  // ---- Commands from clients ----

  /** start_listen after the state change: announce every visible device below d. */
  function AttachAll(env: Env, w: World, cl: L.Client, d: nat): L.Client
    decreases d
  {
    if d == 0 then cl
    else
      var cl' := AttachAll(env, w, cl, d - 1);
      if IsVisible(w, d - 1) then L.Enqueue(env, cl', 0, Attached(d - 1, w.devices[d - 1].info)) else cl'
  }

  function ConnsOf(w: World, d: nat): set<nat> { set k | k in w.conns && w.conns[k].dev == d }
  function PortsOf(w: World, d: nat): set<u16> { set k | k in ConnsOf(w, d) :: w.conns[k].sport }

  /** There are at most as many ports in use as connections. */
  lemma {:induction false} ImageSize(w: World, ks: set<nat>)
    requires ks <= w.conns.Keys
    ensures |set k | k in ks :: w.conns[k].sport| <= |ks|
    decreases |ks|
  {
    if ks != {} {
      var k :| k in ks;
      ImageSize(w, ks - {k});
      var image := set j | j in ks :: w.conns[j].sport;
      assert image == (set j | j in ks - {k} :: w.conns[j].sport) + {w.conns[k].sport};
    }
  }

  function FindSport(w: World, d: nat): Ports.Allocation
    requires d in w.devices
  {
    ImageSize(w, ConnsOf(w, d));
    Ports.FindSport(w.devices[d].nextSport, PortsOf(w, d), |ConnsOf(w, d)|)
  }

  /** The reasons for which device_start_connect fails. */
  function ConnectCode(env: Env, w: World, d: nat): u32
  {
    if d !in w.devices || FindSport(w, d).port == 0 then RESULT_BADDEV
    else if !D.SendOk(env, d, w.devices[d], 20, 0) then RESULT_CONNREFUSED
    else RESULT_OK
  }

  /** device_start_connect; the cursor and the device's counters move even when it fails. */
  function StartConnect(env: Env, w: World, d: nat, port: u16, c: nat): World
  {
    if d !in w.devices then w
    else
      var a := FindSport(w, d);
      var dev := w.devices[d].(nextSport := a.next);
      if a.port == 0 then SetDevice(w, d, dev)
      else
        var kn := C.NewConn(d, c, a.port, port, |dev.h.wire|);
        var sent := SetDevice(w, d, D.SendPacket(dev, Tcp, TcpBytes(C.SegmentHeader(kn, SYN)), []));
        if !D.SendOk(env, d, dev, 20, 0) then sent
        else SetConn(sent, w.nextConn, C.SendTcp(kn, SYN, [], true, w.clock)).(nextConn := w.nextConn + 1)
  }

  /** client_device_paired, called when a pair record has been saved for a device that is attached. */
  function TellPaired(env: Env, w: World, paired: Option<nat>): World
  {
    if paired.Some? && paired.value in w.devices && w.devices[paired.value].state.Active?
    then TellListeners(env, w, Body.Paired(paired.value)) else w
  }

  /** handle_command in the state CLIENT_COMMAND, for the message m of a client whose record is cl. */
  function Obey(env: Env, w: World, c: nat, cl: L.Client, m: Raw, o: Outside): World
  {
    match L.Interpret(env, m)
    case Silent => SetClient(w, c, cl)
    case Refuse(code) => SetClient(w, c, L.Enqueue(env, cl, m.tag, Result(code)))
    case Answer => SetClient(TellPaired(env, w, o.paired), c, L.Enqueue(env, cl, m.tag, o.answer))
    case ListDevices => SetClient(w, c, L.Enqueue(env, cl, m.tag, DeviceList(ListDevices(w, w.nextDevice))))
    case Listen =>
      var told := L.Enqueue(env, cl, m.tag, Result(RESULT_OK));
      SetClient(w, c, AttachAll(env, w, told.(state := L.Listening), w.nextDevice))
    case Connect =>
      var to := L.Named(env, m, o.stale);
      var code := ConnectCode(env, w, to.dev);
      var started := StartConnect(env, w, to.dev, to.port, c);
      if code != RESULT_OK then SetClient(started, c, L.Enqueue(env, cl, m.tag, Result(code)))
      else SetClient(started, c, cl.(connectTag := m.tag, connectDev := to.dev, state := L.Connecting1,
                                     h := cl.h.(conn := Some(w.nextConn))))
  }

  /** handle_command */
  function HandleCommand(env: Env, w: World, c: nat, cl: L.Client, m: Raw, o: Outside): World
  {
    if !cl.state.Commanding?
    then ClientClose(env, SetClient(w, c, L.Enqueue(env, cl, m.tag, Result(RESULT_BADCOMMAND))), c)
    else Obey(env, w, c, L.Spoken(cl, m), m, o)
  }

  /** input_buffer_process; an empty `got` stands for an error or the end of the stream. The buffer is emptied when
      a command is complete; the source does it after handle_command returns. */
  function Readable(env: Env, w: World, c: nat, got: seq<byte>, o: Outside): World
  {
    if c !in w.clients then w
    else if !(0 < |got| <= Need(w.clients[c].ib)) then ClientClose(env, w, c)
    else
      var cl := w.clients[c];
      match Receive(cl.ib, got)
      case Partial(ib) => SetClient(w, c, L.Buffered(cl, got, ib))
      case BadLength => ClientClose(env, SetClient(w, c, L.Spoilt(cl, got)), c)
      case Command(msg) =>
        var done := HandleCommand(env, w, c, L.Commanded(cl, got, msg), Decode(msg).value, o);
        if c in done.clients then done else Fault(done)
  }

  /** output_buffer_process; n is what send returned, 0 for a failure. */
  function Writable(env: Env, w: World, c: nat, n: nat): World
  {
    if c !in w.clients then w
    else
      var cl := w.clients[c];
      if cl.ob == [] then SetClient(w, c, cl.(events := cl.events.(pollOut := false)))
      else if !(0 < n <= |cl.ob|) then ClientClose(env, w, c)
      else SetClient(w, c, L.Sent(cl, n))
  }

  // ---- Steps and runs ----

  /** One event of the main loop. */
  datatype Event =
    | Accept                                          // client_accept
    | ClientReadable(c: nat, got: seq<byte>, o: Outside) // client_process, POLLIN, not joined
    | ClientWritable(c: nat, n: nat)                  // client_process, POLLOUT only, not joined
    | ClientServed(c: nat, io: SocketResults)         // client_process, joined
    | Attach(info: seq<byte>)                         // device_add
    | Transfer(d: nat, chunk: seq<byte>)              // device_data_input
    | Show(d: nat, info: seq<byte>)                   // client_device_add
    | Detach(d: nat)                                  // device_remove
    | Tick                                            // device_check_timeouts

  datatype Timed = Timed(now: nat, event: Event)

  function Act(env: Env, w: World, e: Event): World
  {
    match e
    case Accept => SetClient(w, w.nextClient, L.NEW_CLIENT).(nextClient := w.nextClient + 1)
    case ClientReadable(c, got, o) => Readable(env, w, c, got, o)
    case ClientWritable(c, n) => Writable(env, w, c, n)
    case ClientServed(c, io) => if c in w.clients then ClientProcess(env, w, w.clients[c].connectDev, c, io) else w
    case Attach(info) => DeviceAdd(env, w, info)
    case Transfer(d, chunk) => DataInput(env, w, d, chunk)
    case Show(d, info) => Announce(env, w, d, info)
    case Detach(d) => DeviceRemove(env, w, d)
    case Tick => CheckTimeouts(env, w, w.nextConn)
  }

  function Step(env: Env, w: World, t: Timed): World { Act(env, w.(clock := t.now), t.event) }

  /** What the surroundings guarantee: poll reports only what was asked for, and client_process only goes to a
      client in the right phase; a device asked for is not still starting; a device is announced once, while
      it is listed and active; a first transfer is long enough to hold a header. */
  predicate Enabled(env: Env, w: World, e: Event)
  {
    match e
    case Accept => true
    case ClientReadable(c, got, o) =>
      c in w.clients ==>
        && !w.clients[c].state.Joined? && w.clients[c].events.pollIn
        && (w.clients[c].state.Commanding? ==> ConnectsToActive(env, w, c, got, o.stale))
    case ClientWritable(c, n) => c in w.clients ==> !w.clients[c].state.Joined? && w.clients[c].events.pollOut
    case ClientServed(c, io) => c in w.clients ==> w.clients[c].state.Joined?
    case Attach(info) => true
    case Transfer(d, chunk) => d in w.devices && w.devices[d].buf == [] ==> chunk == [] || |chunk| >= 8
    case Show(d, info) => d in w.devices && w.devices[d].state.Active? && !w.devices[d].visible
    case Detach(d) => true
    case Tick => true
  }

  predicate ConnectsToActive(env: Env, w: World, c: nat, got: seq<byte>, stale: Leftover)
    requires c in w.clients
  {
    var ib := w.clients[c].ib;
    0 < |got| <= Need(ib) ==>
      match Receive(ib, got)
      case Command(msg) =>
        NamesActive(env, w, Decode(msg).value, stale)
      case _ => true
  }

  predicate NamesActive(env: Env, w: World, m: Raw, stale: Leftover)
  {
    var d := L.Named(env, m, stale).dev;
    L.Interpret(env, m).Connect? && d in w.devices ==> w.devices[d].state.Active?
  }

  predicate Possible(env: Env, w: World, t: Timed) { w.clock <= t.now && Enabled(env, w, t.event) }

  /** The state after a run of the daemon. */
  function Run(env: Env, ts: seq<Timed>): World
  {
    if ts == [] then START else Step(env, Run(env, ts[..|ts| - 1]), ts[|ts| - 1])
  }

  predicate PossibleRun(env: Env, ts: seq<Timed>)
  {
    ts == [] || (PossibleRun(env, ts[..|ts| - 1]) && Possible(env, Run(env, ts[..|ts| - 1]), ts[|ts| - 1]))
  }
}
