/** A Connect command that the device accepts leads to a joined client. */
module Progress {
  import opened Basics
  import opened MuxPacket
  import opened Assembler
  import opened ClientMessage
  import opened CommandFraming
  import opened Environment
  import opened Daemon
  import opened Invariant
  import opened Release
  import opened Serving
  import opened DeviceSteps
  import opened ClientSteps
  import opened Reachable
  import opened Projection
  import opened Theorems
  import C = Connection
  import L = Client
  import D = Device

  /** The last bytes of a Connect command arrive, and the connection can be started. */
  ghost predicate ConnectsNow(env: Env, w: World, c: nat, got: seq<byte>, o: Outside, d: nat, port: u16)
  {
    && c in w.clients && w.clients[c].state.Commanding? && 0 < |got| <= Need(w.clients[c].ib)
    && d in w.devices && w.devices[d].state.Active? && w.devices[d].buf == []
    && ConnectCode(env, w, d) == RESULT_OK
    && var r := Receive(w.clients[c].ib, got);
       && r.Command? && Decode(r.msg).Some?
       && L.Interpret(env, Decode(r.msg).value).Connect?
           && L.Named(env, Decode(r.msg).value, o.stale) == L.Target(d, port)
  }

  lemma ConnectStarts(env: Env, w: World, c: nat, got: seq<byte>, o: Outside, d: nat, port: u16)
    requires ConnectsNow(env, w, c, got, o, d, port)
    ensures
      var w', k := Readable(env, w, c, got, o), w.nextConn;
      && k in w'.conns && w'.nextConn == k + 1 && w'.conns[k].state.Connecting?
      && w'.conns[k].dev == d && w'.conns[k].client == Some(c)
      && w'.conns[k].sport == FindSport(w, d).port && w'.conns[k].dport == port
      && c in w'.clients && w'.clients[c].state.Connecting1?
      && d in w'.devices && w'.devices[d].state.Active? && w'.devices[d].buf == []
      && w'.devices[d].version == w.devices[d].version && |w'.devices[d].h.wire| == |w.devices[d].h.wire| + 1
      && w'.faults == w.faults
  {
    hide Need, Receive, Decode, L.Interpret, L.Named, FindSport, TcpBytes, Build, L.Enqueue;
  }

  /** A segment of the device, in one packet. */
  function Carried(dev: D.Device, th: TcpHeader, payload: seq<byte>, number: u16, seen: u16): seq<byte>
  {
    Build(dev.version, Tcp, TcpBytes(th), payload, number, seen)
  }

  /** A small packet arrives whole in one transfer and reads as what it was built from. */
  lemma CarriedReads(dev: D.Device, th: TcpHeader, payload: seq<byte>, number: u16, seen: u16)
    requires |payload| <= 1024
    ensures
      var pkt := Carried(dev, th, payload, number, seen);
      |pkt| >= 8 && Gather([], pkt) == Gathered([], Some(pkt)) && Parse(dev.version, pkt) == TcpIn(th, payload)
  {
    hide TcpBytes;
    BuildFields(dev.version, Tcp, TcpBytes(th), payload, number, seen);
    TcpRoundTrip(dev.version, th, payload, number, seen);
  }

  /** The state once the number of a packet has been noted. */
  function NotedBy(w: World, d: nat, pkt: seq<byte>): World
    requires d in w.devices
  {
    var dev := w.devices[d];
    if dev.version >= 2 && |pkt| >= 16 then SetDevice(w, d, dev.(rxSeq := Some(SeenField(pkt)))) else w
  }

  /** Connection k takes segments from its device, whose buffer holds nothing. */
  ghost predicate Takes(env: Env, w: World, k: nat, th: TcpHeader)
  {
    && Inv(env, w) && Settled(w) && k in w.conns && w.conns[k].dev in w.devices
    && w.devices[w.conns[k].dev].state.Active? && w.devices[w.conns[k].dev].buf == []
    && th.sport == w.conns[k].dport && th.dport == w.conns[k].sport
  }

  /** A segment for a connection gets to it. */
  lemma SegmentArrives(env: Env, w: World, k: nat, th: TcpHeader, payload: seq<byte>, number: u16, seen: u16)
    requires Takes(env, w, k, th) && |payload| <= 1024
    ensures
      var d := w.conns[k].dev;
      var pkt := Carried(w.devices[d], th, payload, number, seen);
      var w2 := NotedBy(w, d, pkt);
      && |pkt| >= 8 && Inv(env, w2) && Settled(w2) && k in w2.conns
      && DataInput(env, w, d, pkt) == Segment(env, w2, k, th, payload)
      && ArrivalOf(w, Transfer(d, pkt)) == Arrival(k, th, payload)
  {
    hide Inv, Settled, Segment, ConnOk, Carried, Parse, Gather, SeenField;
    var d, dev := w.conns[k].dev, w.devices[w.conns[k].dev];
    ConnFacts(env, w, k);
    CarriedReads(dev, th, payload, number, seen);
    var pkt := Carried(dev, th, payload, number, seen);
    assert SetDevice(w, d, dev.(buf := [])) == w;
    var w2 := NotedBy(w, d, pkt);
    if dev.version >= 2 && |pkt| >= 16 {
      DeviceNoted(env, w, d, dev.(rxSeq := Some(SeenField(pkt))));
    }
    InvPorts(env, w2);
    FindPortsIs(w2, k, w2.nextConn);
    FindPortsFrame(w, w2, d, th.dport, th.sport, w.nextConn);
    assert DataInput(env, w, d, pkt) == PacketInput(env, w, d, pkt);
  }

  /** The device's answer to the SYN of connection kn. */
  function SynAck(dev: D.Device, kn: C.Conn, win: u16, number: u16, seen: u16): seq<byte>
  {
    Carried(dev, TcpHeader(kn.dport, kn.sport, 0, 1, SYN_ACK, win), [], number, seen)
  }

  lemma SynAckArrives(env: Env, w: World, k: nat, win: u16, number: u16, seen: u16)
    requires Inv(env, w) && Settled(w) && k in w.conns && w.conns[k].state.Connecting? && w.conns[k].dev in w.devices
    requires var dev := w.devices[w.conns[k].dev];
             dev.state.Active? && dev.buf == [] && D.SendOk(env, w.conns[k].dev, dev, 20, 0)
    ensures w.conns[k].client.Some?
    ensures
      var d, c := w.conns[k].dev, w.conns[k].client.value;
      var pkt := SynAck(w.devices[d], w.conns[k], win, number, seen);
      var w' := DataInput(env, w, d, pkt);
      && |pkt| >= 8
      && k in w'.conns && c in w'.clients && w'.clients[c].state.Connecting2?
      && w'.conns[k].client == Some(c) && w'.conns[k].dev == d && NewlyUp(w'.conns[k])
      && w'.faults == w.faults && d in w'.devices && w'.devices[d].state.Active? && w'.devices[d].buf == []
  {
    hide Inv, Settled, Segment, Local, ConnOk, Carried, SeenField, DataInput, ArrivalOf;
    var kn, d := w.conns[k], w.conns[k].dev;
    ConnFacts(env, w, k);
    var th := TcpHeader(kn.dport, kn.sport, 0, 1, SYN_ACK, win);
    SegmentArrives(env, w, k, th, [], number, seen);
    var w2 := NotedBy(w, d, SynAck(w.devices[d], kn, win, number, seen));
    SegmentKeeps(env, w2, k, th, []);
    LocalKeeps(w2, Segment(env, w2, k, th, []), k, kn.client.value, d);
    LocalDevice(w2, Segment(env, w2, k, th, []), k, kn.client.value, d);
  }

  lemma LocalDevice(w: World, w': World, k: nat, c: nat, d: nat)
    requires Local(w, w', k, c, d)
    ensures d in w'.devices && w'.devices[d].state == w.devices[d].state && w'.devices[d].buf == w.devices[d].buf
    ensures w'.clock == w.clock
  {
  }

  lemma InvPorts(env: Env, w: World)
    requires Inv(env, w)
    ensures PortsDistinct(w)
  {
  }

  lemma ReplyJoins(env: Env, w: World, c: nat)
    requires Inv(env, w) && c in w.clients && w.clients[c].state.Connecting2?
    ensures
      var n := |w.clients[c].ob|;
      && Enabled(env, w, ClientWritable(c, n))
      && Writable(env, w, c, n) == w.(clients := Writable(env, w, c, n).clients)
      && c in Writable(env, w, c, n).clients && Writable(env, w, c, n).clients[c].state.Joined?
  {
    hide Inv, Stream, L.Answered, L.AllWhole, Concat, C.Established, ClientClose;
    LinkOf(env, w, c);
  }

  lemma MayRead(env: Env, w: World, c: nat, got: seq<byte>, o: Outside, d: nat, port: u16)
    requires Inv(env, w) && ConnectsNow(env, w, c, got, o, d, port)
    ensures Enabled(env, w, ClientReadable(c, got, o))
  {
    hide Inv, Need, Receive, Decode, L.Interpret, ConnectCode, Stream, L.Answered, L.AllWhole, Concat, AnnouncedOnce;
    hide Seen;
    LinkOf(env, w, c);
  }

  /** The three steps, each at the time the last one ended. */
  function Started(env: Env, w: World, c: nat, got: seq<byte>, o: Outside): World
  {
    Step(env, w, Timed(w.clock, ClientReadable(c, got, o)))
  }

  function Answered(env: Env, w: World, k: nat, win: u16, number: u16, seen: u16): World
    requires k in w.conns && w.conns[k].dev in w.devices
  {
    Step(env, w, Timed(w.clock,
        Transfer(w.conns[k].dev, SynAck(w.devices[w.conns[k].dev], w.conns[k], win, number, seen))))
  }

  function Told(env: Env, w: World, c: nat): World
    requires c in w.clients
  {
    Step(env, w, Timed(w.clock, ClientWritable(c, |w.clients[c].ob|)))
  }

  /** From any reachable state, a Connect command to an active device, the device's SYN/ACK and one write of the
      queued reply are a possible run, and it ends with the client joined to its own established connection. */
  lemma HandshakeCompletes(env: Env, w: World, c: nat, got: seq<byte>, o: Outside, d: nat, port: u16, win: u16,
      number: u16, seen: u16)
    requires Inv(env, w) && Settled(w) && ConnectsNow(env, w, c, got, o, d, port)
    requires env.usbOk(d, |w.devices[d].h.wire| + 1)
    ensures
      var k, w1 := w.nextConn, Started(env, w, c, got, o);
      && Possible(env, w, Timed(w.clock, ClientReadable(c, got, o)))
      && k in w1.conns && w1.conns[k].dev == d && d in w1.devices
      && Possible(env, w1, Timed(w1.clock, Transfer(d, SynAck(w1.devices[d], w1.conns[k], win, number, seen))))
      && var w2 := Answered(env, w1, k, win, number, seen);
         && c in w2.clients
         && Possible(env, w2, Timed(w2.clock, ClientWritable(c, |w2.clients[c].ob|)))
         && var w3 := Told(env, w2, c);
            && c in w3.clients && w3.clients[c].state.Joined?
            && k in w3.conns && w3.conns[k].state.Connected? && w3.conns[k].client == Some(c)
            && w3.conns[k].h.accepted == []
            && w3.conns[k].dev == d && d in w3.devices && w3.devices[d].buf == [] && w3.faults == w.faults
  {
    hide Inv, Settled, Readable, DataInput, Writable, ConnectsToActive, SynAck, Parse, Gather;
    var k := w.nextConn;
    MayRead(env, w, c, got, o, d, port);
    ConnectStarts(env, w, c, got, o, d, port);
    StepKeeps(env, w, Timed(w.clock, ClientReadable(c, got, o)));
    assert w.(clock := w.clock) == w;
    var w1 := Started(env, w, c, got, o);
    var pkt := SynAck(w1.devices[d], w1.conns[k], win, number, seen);
    assert w1.(clock := w1.clock) == w1;
    SynAckArrives(env, w1, k, win, number, seen);
    StepKeeps(env, w1, Timed(w1.clock, Transfer(d, pkt)));
    var w2 := Answered(env, w1, k, win, number, seen);
    assert w2.(clock := w2.clock) == w2;
    ReplyJoins(env, w2, c);
  }

  // ---- A first connection ----

  /** The device's answer to the version packet. */
  function VersionAnswer(major: u32, minor: u32): seq<byte>
  {
    Build(0, Version, VersionBytes(major, minor), [], 0, 0)
  }

  /** From any state, a device that takes the version packet and answers it in one transfer is active. */
  lemma NegotiationCompletes(env: Env, w: World, info: seq<byte>, major: u32, minor: u32)
    requires env.usbOk(w.nextDevice, 0) && 1 <= major <= 2
    ensures
      var d, w1 := w.nextDevice, Step(env, w, Timed(w.clock, Attach(info)));
      && Possible(env, w, Timed(w.clock, Attach(info)))
      && Possible(env, w1, Timed(w1.clock, Transfer(d, VersionAnswer(major, minor))))
      && var w2 := Step(env, w1, Timed(w1.clock, Transfer(d, VersionAnswer(major, minor))));
         && d in w2.devices && w2.devices[d].state.Active? && w2.devices[d].buf == []
         && w2.devices[d].version == major && |w2.devices[d].h.wire| == major && w2.devices[d].nextSport == 1
         && w2.conns == w.conns && w2.clients == w.clients
         && w2.nextConn == w.nextConn && w2.nextClient == w.nextClient && w2.clock == w1.clock == w.clock
         && w2.faults == w.faults
  {
    hide VersionAnswer, Build, Parse, Gather, TcpInput, VersionBytes;
    VersionReads(major, minor);
  }

  lemma VersionReads(major: u32, minor: u32)
    ensures
      var pkt := VersionAnswer(major, minor);
      |pkt| >= 8 && Gather([], pkt) == Gathered([], Some(pkt)) && Parse(0, pkt) == VersionIn(major)
  {
    VersionRoundTrip(0, major, minor, 0, 0);
    BuildFields(0, Version, VersionBytes(major, minor), [], 0, 0);
    hide Build, Parse;
  }

  /** A Connect command in the binary form. */
  function ConnectMessage(tag: u32, d: u32, port: u16): Raw
  {
    Raw(0, MESSAGE_CONNECT, tag, LE32(d) + BE16(port) + [0, 0])
  }

  lemma ConnectMessageMeans(env: Env, tag: u32, d: u32, port: u16, stale: Leftover)
    ensures L.Interpret(env, ConnectMessage(tag, d, port)).Connect?
    ensures L.Named(env, ConnectMessage(tag, d, port), stale) == L.Target(d, port)
  {
    var s := ConnectMessage(tag, d, port).payload + stale;
    assert s[0..4] == LE32(d) && s[4..6] == BE16(port);
    LE32RoundTrip(d);
    BE16RoundTrip(port);
  }

  /** A command arrives as its header and its payload. */
  lemma MessageReads(m: Raw)
    requires 0 < |m.payload| < 1024
    ensures
      var s := Encode(m);
      && |s| == 16 + |m.payload| && Need([]) == 16 && Receive([], s[..16]) == Partial(s[..16])
      && Need(s[..16]) == |m.payload| && Receive(s[..16], s[16..]) == Command(s)
      && Decode(s) == Some(m)
  {
    var s := Encode(m);
    DecodeEncode(m, []);
    assert s + [] == s;
    hide Encode, UnLE32, Decode;
    assert s[..16][0..4] == s[0..4];
    assert [] + s[..16] == s[..16] && s[..16] + s[16..] == s;
  }

  lemma ConnectMessageReads(env: Env, tag: u32, d: u32, port: u16, stale: Leftover)
    ensures
      var m := ConnectMessage(tag, d, port);
      var s := Encode(m);
      && |s| == 24 && Need([]) == 16 && Receive([], s[..16]) == Partial(s[..16])
      && Need(s[..16]) == 8 && Receive(s[..16], s[16..]) == Command(s)
      && Decode(s) == Some(m) && L.Interpret(env, m).Connect? && L.Named(env, m, stale) == L.Target(d, port)
  {
    hide Need, Receive, Decode, L.Interpret, L.Named, LE32, BE16;
    MessageReads(ConnectMessage(tag, d, port));
    ConnectMessageMeans(env, tag, d, port, stale);
  }

  /** The states that runs of the daemon end in. */
  ghost predicate Reaches(env: Env, w: World) { exists ts :: PossibleRun(env, ts) && Run(env, ts) == w }

  lemma ReachesNext(env: Env, w: World, t: Timed)
    requires Reaches(env, w) && Possible(env, w, t)
    ensures Reaches(env, Step(env, w, t))
  {
    hide Possible, Step;
    var ts :| PossibleRun(env, ts) && Run(env, ts) == w;
    assert (ts + [t])[..|ts|] == ts;
    assert PossibleRun(env, ts + [t]) && Run(env, ts + [t]) == Step(env, w, t);
  }

  lemma ReachesKeeps(env: Env, w: World)
    requires Reaches(env, w)
    ensures Inv(env, w) && Settled(w)
  {
    hide Inv, Settled, Run, PossibleRun;
    var ts :| PossibleRun(env, ts) && Run(env, ts) == w;
    RunKeeps(env, ts);
  }

  /** A device with no connection and a new client: after the header of its Connect command, the rest starts the
      connection. */
  lemma HeaderRead(env: Env, w: World, tag: u32, d: u32, port: u16, o: Outside)
    requires d in w.devices && w.devices[d].state.Active? && w.devices[d].buf == [] && w.devices[d].nextSport == 1
    requires w.conns == map[] && env.usbOk(d, |w.devices[d].h.wire|)
    ensures
      var c, m, w1 := w.nextClient, Encode(ConnectMessage(tag, d, port)), Step(env, w, Timed(w.clock, Accept));
      && |m| == 24 && Possible(env, w1, Timed(w.clock, ClientReadable(c, m[..16], o)))
      && var w2 := Step(env, w1, Timed(w.clock, ClientReadable(c, m[..16], o)));
         && ConnectsNow(env, w2, c, m[16..], o, d, port)
         && w2.devices == w.devices && w2.clock == w.clock && w2.nextConn == w.nextConn && w2.faults == w.faults
  {
    ConnectMessageReads(env, tag, d, port, o.stale);
    hide Encode, Need, Receive, Decode, L.Interpret, HandleCommand, ClientClose, FindSport;
    var c, m := w.nextClient, Encode(ConnectMessage(tag, d, port));
    var w1 := Step(env, w, Timed(w.clock, Accept));
    var w2 := Step(env, w1, Timed(w.clock, ClientReadable(c, m[..16], o)));
    FirstPort(w2, d);
  }

  lemma FirstPort(w: World, d: nat)
    requires d in w.devices && w.conns == map[] && w.devices[d].nextSport == 1
    ensures FindSport(w, d).port == 1
  {
    assert ConnsOf(w, d) == {} && PortsOf(w, d) == {};
  }

  ghost predicate JoinedTo(w: World, c: nat, k: nat)
  {
    && c in w.clients && w.clients[c].state.Joined?
    && k in w.conns && w.conns[k].state.Connected? && w.conns[k].client == Some(c)
    && w.conns[k].h.accepted == [] && w.conns[k].dev in w.devices && w.devices[w.conns[k].dev].buf == []
  }

  /** HandshakeCompletes on runs. */
  lemma JoinReached(env: Env, w: World, c: nat, got: seq<byte>, o: Outside, d: nat, port: u16)
    requires Reaches(env, w) && ConnectsNow(env, w, c, got, o, d, port) && env.usbOk(d, |w.devices[d].h.wire| + 1)
    ensures exists w' :: Reaches(env, w') && JoinedTo(w', c, w.nextConn) && w'.faults == w.faults
  {
    hide Step, Possible, Reaches, Inv, Settled, SynAck, ConnectCode, Need, Receive, Decode, L.Interpret;
    ReachesKeeps(env, w);
    HandshakeCompletes(env, w, c, got, o, d, port, 0, 0, 0);
    ReachesNext(env, w, Timed(w.clock, ClientReadable(c, got, o)));
    var k, w1 := w.nextConn, Started(env, w, c, got, o);
    ReachesNext(env, w1, Timed(w1.clock, Transfer(d, SynAck(w1.devices[d], w1.conns[k], 0, 0, 0))));
    var w2 := Answered(env, w1, k, 0, 0, 0);
    ReachesNext(env, w2, Timed(w2.clock, ClientWritable(c, |w2.clients[c].ob|)));
    assert JoinedTo(Told(env, w2, c), c, k);
  }

  lemma NothingReached(env: Env)
    ensures Reaches(env, START)
  {
    assert PossibleRun(env, []) && Run(env, []) == START;
  }

  /** Some run joins a client to a device of either version whenever the daemon's first packets can be sent. */
  lemma ConnectionsAreReached(env: Env, tag: u32, port: u16, o: Outside, info: seq<byte>, major: u32)
    requires 1 <= major <= 2 && env.usbOk(1, 0) && env.usbOk(1, major) && env.usbOk(1, major + 1)
    ensures exists w :: Reaches(env, w) && JoinedTo(w, 0, 0) && w.faults == 0
  {
    hide Step, Reaches, Encode, VersionAnswer, ConnectsNow, JoinedTo;
    NothingReached(env);
    NegotiationCompletes(env, START, info, major, 0);
    ReachesNext(env, START, Timed(0, Attach(info)));
    var w1 := Step(env, START, Timed(0, Attach(info)));
    ReachesNext(env, w1, Timed(0, Transfer(1, VersionAnswer(major, 0))));
    var w2 := Step(env, w1, Timed(0, Transfer(1, VersionAnswer(major, 0))));
    HeaderRead(env, w2, tag, 1, port, o);
    ReachesNext(env, w2, Timed(0, Accept));
    var m, w3 := Encode(ConnectMessage(tag, 1, port)), Step(env, w2, Timed(0, Accept));
    ReachesNext(env, w3, Timed(0, ClientReadable(0, m[..16], o)));
    var w4 := Step(env, w3, Timed(0, ClientReadable(0, m[..16], o)));
    JoinReached(env, w4, 0, m[16..], o, 1, port);
  }
}
