/** Steps that start at a device or at the timer keep the invariant. */
module DeviceSteps {
  import opened Basics
  import opened MuxPacket
  import opened Assembler
  import opened ClientMessage
  import opened Environment
  import opened Daemon
  import opened Invariant
  import opened Release
  import opened Serving
  import C = Connection
  import L = Client
  import D = Device

  // ---- What a local change leaves alone ----

  lemma LocalListeners(w: World, w': World, k: nat, c: nat, d: nat, seen: set<nat>)
    requires Local(w, w', k, c, d)
    requires ListenersSee(w, seen)
    ensures ListenersSee(w', seen) && VisibleDevices(w') == VisibleDevices(w)
    ensures w'.devices.Keys == w.devices.Keys
            && forall x :: x in w.devices ==> w'.devices[x].state == w.devices[x].state
  {
    hide Seen;
    forall x | x in w'.clients && w'.clients[x].state.Listening?
      ensures Seen(w'.clients[x].h.msgs) == seen
    {
      assert x in w'.clients - {c};
      assert x in w.clients - {c} && w.clients[x] == w'.clients[x];
    }
    forall x
      ensures x in w'.devices <==> x in w.devices
      ensures x in w.devices ==>
                w'.devices[x].state == w.devices[x].state && w'.devices[x].visible == w.devices[x].visible
    {
      if x != d {
        assert x in w'.devices <==> x in w'.devices - {d};
        assert x in w.devices <==> x in w.devices - {d};
      }
    }
  }

  lemma LocalSettled(w: World, w': World, k: nat, c: nat, d: nat)
    requires Local(w, w', k, c, d) && Settled(w)
    ensures Settled(w')
  {
    hide ListenersSee, VisibleDevices, Local;
    LocalListeners(w, w', k, c, d, VisibleDevices(w));
  }

  // ---- device_check_timeouts ----

  lemma TimeoutKeeps(env: Env, w: World, k: nat)
    requires Inv(env, w) && Overdue(w, k)
    ensures w.conns[k].client.Some?
    ensures
      var w' := SendTcpAck(env, w, k);
      && Inv(env, w') && Local(w, w', k, w.conns[k].client.value, w.conns[k].dev) && w'.faults == w.faults
      && (k in w'.conns ==> w'.conns[k] == C.Acknowledged(w.conns[k], w.clock))
      && (D.SendOk(env, w.conns[k].dev, w.devices[w.conns[k].dev], 20, 0) ==> k in w'.conns)
  {
    hide Inv, Local, SendTcpAck, Wired, PairOk, C.Doomed, Leaving, Nearly, D.SendOk;
    InvWires(env, w, k);
    var c := w.conns[k].client.value;
    PairMayLeave(env, w, k, c);
    PairIsNearly(env, w.conns[k], w.clients[c]);
    assert w == WithPair(w, k, c, w.conns[k], w.clients[c]);
    AckKeeps(env, w, k, c, w.conns[k], w.clients[c]);
  }

  lemma {:induction false} CheckTimeoutsKeeps(env: Env, w: World, n: nat)
    requires Inv(env, w) && Settled(w)
    ensures Inv(env, CheckTimeouts(env, w, n)) && Settled(CheckTimeouts(env, w, n))
    ensures CheckTimeouts(env, w, n).faults == w.faults
  {
    hide Inv, Settled, Local, SendTcpAck;
    if n > 0 {
      CheckTimeoutsKeeps(env, w, n - 1);
      var w' := CheckTimeouts(env, w, n - 1);
      if Overdue(w', n - 1) {
        TimeoutKeeps(env, w', n - 1);
        var c, d := w'.conns[n - 1].client.value, w'.conns[n - 1].dev;
        LocalSettled(w', SendTcpAck(env, w', n - 1), n - 1, c, d);
      }
    }
  }

  // ---- device_remove ----

  /** No connection of device d among the first n. */
  predicate Cleared(w: World, d: nat, n: nat)
  {
    forall k :: k in w.conns && k < n ==> w.conns[k].dev != d
  }

  lemma {:induction false} TeardownAllKeeps(env: Env, w: World, d: nat, n: nat, seen: set<nat>)
    requires Inv(env, w) && ListenersSee(w, seen)
    ensures
      var w' := TeardownAll(env, w, d, n);
      && Inv(env, w') && ListenersSee(w', seen) && VisibleDevices(w') == VisibleDevices(w)
      && Cleared(w', d, n) && w'.nextConn == w.nextConn && w'.faults == w.faults
      && w'.devices.Keys == w.devices.Keys && forall x :: x in w.devices ==> w'.devices[x].state == w.devices[x].state
    decreases n
  {
    hide Inv, ListenersSee, VisibleDevices, Teardown, Local;
    if n > 0 {
      TeardownAllKeeps(env, w, d, n - 1, seen);
      var w1 := TeardownAll(env, w, d, n - 1);
      var k := n - 1;
      if k in w1.conns && w1.conns[k].dev == d {
        TeardownAsIs(env, w1, k);
        var w2 := Teardown(env, w1, k);
        var c := w1.conns[k].client.value;
        LocalListeners(w1, w2, k, c, d, seen);
        StillCleared(w1, w2, k, c, d);
      }
    }
  }

  lemma StillCleared(w: World, w': World, k: nat, c: nat, d: nat)
    requires Local(w, w', k, c, d) && Cleared(w, d, k)
    ensures Cleared(w', d, k) && w'.nextConn == w.nextConn
  {
    forall j | j in w'.conns && j < k
      ensures w'.conns[j].dev != d
    {
      assert j in w'.conns - {k};
      assert j in w.conns - {k} && w.conns[j] == w'.conns[j];
    }
  }

  // ---- Notices to listeners ----

  lemma TellKeeps(env: Env, w: World, body: Body, seen: set<nat>)
    requires Inv(env, w) && ListenersSee(w, seen)
    requires body.Detached? || body.Paired? || (body.Attached? && body.id !in seen)
    ensures
      var w' := TellListeners(env, w, body);
      && Inv(env, w') && ListenersSee(w', Believe(seen, body))
      && w' == w.(clients := w'.clients) && w'.clients.Keys == w.clients.Keys
      && forall c :: c in w.clients && !w.clients[c].state.Listening? ==> w'.clients[c] == w.clients[c]
  {
    hide PairOk, L.Single, ConnOk, ClientOk, PortsDistinct, PastOk, DevicesOk, Accounted, L.Enqueue, Seen;
    var w' := TellListeners(env, w, body);
    forall c | c in w'.clients
      ensures ClientOk(env, w', c)
      ensures w'.clients[c].state.Listening? ==> Seen(w'.clients[c].h.msgs) == Believe(seen, body)
    {
      ClientFacts(env, w, c);
      if w.clients[c].state.Listening? {
        L.NoticeKeeps(env, w.clients[c], body);
        SingleIsOk(env, w', c);
      } else {
        ClientFrame(env, w, w', c);
      }
    }
    forall k | k in w'.conns
      ensures ConnOk(env, w', k)
    {
      ConnFacts(env, w, k);
      ConnFrame(env, w, w', k);
    }
    PortsKept(w, w');
    PastFrame(env, w, w');
    DevicesFrame(w, w');
    AccountFrame(w, w');
  }

  lemma DeviceRemoveKeeps(env: Env, w: World, d: nat)
    requires Inv(env, w) && Settled(w)
    ensures Inv(env, DeviceRemove(env, w, d)) && Settled(DeviceRemove(env, w, d))
    ensures d !in DeviceRemove(env, w, d).devices
  {
    hide Inv, TellListeners, TeardownAll, D.Consistent;
    if d in w.devices && w.devices[d].state.Active? {
      var seen := VisibleDevices(w);
      var dev := w.devices[d].(state := D.Removed);
      var gone := SetDevice(w, d, dev);
      ConsistentFrame(env, w, d, dev);
      DeviceUpdated(env, w, d, dev);
      assert ListenersSee(gone, seen);
      TeardownAllKeeps(env, gone, d, w.nextConn, seen);
      var torn := TeardownAll(env, gone, d, w.nextConn);
      TellKeeps(env, torn, Detached(d), seen);
      var told := TellListeners(env, torn, Detached(d));
      ToldFrame(env, torn, Detached(d));
      AllBelowNext(env, torn);
      DeviceDropped(env, told, d);
      assert VisibleDevices(gone) == seen - {d};
      assert VisibleDevices(told.(devices := told.devices - {d})) == VisibleDevices(torn) - {d} == seen - {d};
    } else if d in w.devices {
      StartingHasNoConns(env, w, d);
      DeviceDropped(env, w, d);
      assert VisibleDevices(w.(devices := w.devices - {d})) == VisibleDevices(w);
    }
  }

  lemma ToldFrame(env: Env, w: World, body: Body)
    ensures
      var w' := TellListeners(env, w, body);
      w'.devices == w.devices && w'.conns == w.conns && w'.nextConn == w.nextConn
  {
  }

  lemma ConsistentFrame(env: Env, w: World, d: nat, dev: D.Device)
    requires Inv(env, w) && d in w.devices
    requires dev.version == w.devices[d].version && dev.txSeq == w.devices[d].txSeq && dev.h == w.devices[d].h
    requires dev.rxSeq.Some? || dev.rxSeq == w.devices[d].rxSeq
    requires dev.state.Starting? ==> w.devices[d].state.Starting? && dev.visible == w.devices[d].visible
    ensures D.Consistent(dev)
  {
    hide ConnOk, ClientOk, PastOk, PortsDistinct;
  }

  lemma AllBelowNext(env: Env, w: World)
    requires Inv(env, w)
    ensures forall k :: k in w.conns ==> k < w.nextConn
  {
    hide PairOk, ClientOk, PastOk, PortsDistinct, DevicesOk;
    forall k | k in w.conns
      ensures k < w.nextConn
    {
      assert ConnOk(env, w, k);
    }
  }

  lemma StartingHasNoConns(env: Env, w: World, d: nat)
    requires Inv(env, w) && d in w.devices && w.devices[d].state.Starting?
    ensures forall k :: k in w.conns ==> w.conns[k].dev != d
  {
    hide PairOk, ClientOk, PastOk, PortsDistinct, DevicesOk;
    forall k | k in w.conns
      ensures w.conns[k].dev != d
    {
      assert ConnOk(env, w, k);
    }
  }

  lemma AnnounceKeeps(env: Env, w: World, d: nat, info: seq<byte>)
    requires Inv(env, w) && Settled(w)
    requires d in w.devices && w.devices[d].state.Active? && !w.devices[d].visible
    ensures Inv(env, Announce(env, w, d, info)) && Settled(Announce(env, w, d, info))
  {
    hide Inv, TellListeners, D.Consistent;
    var seen := VisibleDevices(w);
    var dev := w.devices[d].(visible := true);
    var shown := SetDevice(w, d, dev);
    ConsistentFrame(env, w, d, dev);
    DeviceUpdated(env, w, d, dev);
    assert ListenersSee(shown, seen);
    TellKeeps(env, shown, Attached(d, info), seen);
    ToldFrame(env, shown, Attached(d, info));
    var told := TellListeners(env, shown, Attached(d, info));
    assert VisibleDevices(told) == seen + {d};
  }

  lemma AttachKeeps(env: Env, w: World, info: seq<byte>)
    requires Inv(env, w) && Settled(w)
    ensures Inv(env, DeviceAdd(env, w, info)) && Settled(DeviceAdd(env, w, info))
  {
    hide Inv;
    var dev := D.NewDevice(info);
    var tried := D.SendPacket(dev, Version, VersionBytes(2, 0), []);
    var d := w.nextDevice;
    DeviceAdded(env, w, tried);
    NextDeviceIsFresh(env, w);
    var added := SetDevice(w, d, tried).(nextDevice := d + 1);
    assert VisibleDevices(added) == VisibleDevices(w);
    DeviceDropped(env, added, d);
    assert added.devices - {d} == w.devices;
  }

  lemma NextDeviceIsFresh(env: Env, w: World)
    requires Inv(env, w)
    ensures w.nextDevice !in w.devices
    ensures forall k :: k in w.conns ==> w.conns[k].dev != w.nextDevice
  {
    hide PairOk, ClientOk, PastOk, PortsDistinct, D.Consistent;
    forall k | k in w.conns
      ensures w.conns[k].dev != w.nextDevice
    {
      assert ConnOk(env, w, k);
    }
  }

  /** A device whose bookkeeping changed but not its standing. */
  lemma DeviceNoted(env: Env, w: World, d: nat, dev: D.Device)
    requires Inv(env, w) && Settled(w) && d in w.devices
    requires dev == w.devices[d].(buf := dev.buf, rxSeq := dev.rxSeq)
    requires dev.rxSeq.Some? || dev.rxSeq == w.devices[d].rxSeq
    ensures Inv(env, SetDevice(w, d, dev)) && Settled(SetDevice(w, d, dev))
  {
    hide Inv, D.Consistent;
    ConsistentFrame(env, w, d, dev);
    DeviceUpdated(env, w, d, dev);
    assert VisibleDevices(SetDevice(w, d, dev)) == VisibleDevices(w);
  }

  lemma TcpInputKeeps(env: Env, w: World, d: nat, th: TcpHeader, payload: seq<byte>)
    requires Inv(env, w) && Settled(w)
    ensures Inv(env, TcpInput(env, w, d, th, payload)) && Settled(TcpInput(env, w, d, th, payload))
  {
    hide Inv, Settled, Local, SameDevice, Segment, D.SendPacket, TcpBytes;
    if d in w.devices && w.devices[d].state.Active? {
      match FindPorts(w, d, th.dport, th.sport, w.nextConn)
      case Some(k) =>
        SegmentKeeps(env, w, k, th, payload);
        LocalSettled(w, Segment(env, w, k, th, payload), k, w.conns[k].client.value, d);
      case None =>
        if !HasRst(th.flags) {
          var reset := TcpHeader(th.dport, th.sport, 0, th.seqno, RST, 0);
          SendKeepsInv(env, w, d, Tcp, TcpBytes(reset), []);
          SentSettled(w, d, D.SendPacket(w.devices[d], Tcp, TcpBytes(reset), []));
        }
    }
  }

  lemma SentSettled(w: World, d: nat, dev: D.Device)
    requires Settled(w) && d in w.devices && SameDevice(w.devices[d], dev)
    ensures Settled(SetDevice(w, d, dev))
  {
    assert VisibleDevices(SetDevice(w, d, dev)) == VisibleDevices(w);
  }

  lemma VersionInputKeeps(env: Env, w: World, d: nat, major: nat)
    requires Inv(env, w) && Settled(w) && d in w.devices
    ensures
      var w' := VersionInput(w, d, major);
      && Inv(env, w') && Settled(w')
      && (d in w'.devices <==> w.devices[d].state.Starting? ==> 1 <= major <= 2)
      && (d in w'.devices && w.devices[d].state.Starting? ==>
            w'.devices[d].state.Active? && w'.devices[d].version == major)
      && (!w.devices[d].state.Starting? ==> w' == w)
      && w' == w.(devices := w'.devices) && w'.devices - {d} == w.devices - {d}
  {
    hide Inv, D.Consistent, Build;
    if w.devices[d].state.Starting? {
      StartingHasNoConns(env, w, d);
      if major != 1 && major != 2 {
        DeviceDropped(env, w, d);
        assert VisibleDevices(w.(devices := w.devices - {d})) == VisibleDevices(w);
      } else {
        var dev := D.Negotiated(w.devices[d], major);
        StartingIsHidden(env, w, d);
        D.NegotiationStartsNumbers(w.devices[d], major);
        DeviceUpdated(env, w, d, dev);
        assert VisibleDevices(SetDevice(w, d, dev)) == VisibleDevices(w);
      }
    }
  }

  lemma StartingIsHidden(env: Env, w: World, d: nat)
    requires Inv(env, w) && d in w.devices && w.devices[d].state.Starting?
    ensures !w.devices[d].visible
  {
    hide ConnOk, ClientOk, PastOk, PortsDistinct;
  }

  /** device_data_input */
  lemma DataInputKeeps(env: Env, w: World, d: nat, chunk: seq<byte>)
    requires Inv(env, w) && Settled(w)
    ensures Inv(env, DataInput(env, w, d, chunk)) && Settled(DataInput(env, w, d, chunk))
  {
    hide Inv, Settled, Gather, PacketInput;
    if d in w.devices {
      var g := Gather(w.devices[d].buf, chunk);
      DeviceNoted(env, w, d, w.devices[d].(buf := g.buf));
      var kept := SetDevice(w, d, w.devices[d].(buf := g.buf));
      if g.packet.Some? {
        PacketInputKeeps(env, kept, d, g.packet.value);
      }
    }
  }

  lemma PacketInputKeeps(env: Env, w: World, d: nat, pkt: seq<byte>)
    requires Inv(env, w) && Settled(w) && d in w.devices && |pkt| >= 8
    ensures Inv(env, PacketInput(env, w, d, pkt)) && Settled(PacketInput(env, w, d, pkt))
  {
    hide Inv, Settled, Parse, TcpInput, VersionInput, SeenField;
    var dev := w.devices[d];
    var seen := if dev.version >= 2 && |pkt| >= 16 then SetDevice(w, d, dev.(rxSeq := Some(SeenField(pkt)))) else w;
    if dev.version >= 2 && |pkt| >= 16 {
      DeviceNoted(env, w, d, dev.(rxSeq := Some(SeenField(pkt))));
    }
    match Parse(dev.version, pkt)
    case VersionIn(major) => VersionInputKeeps(env, seen, d, major);
    case TcpIn(th, payload) => TcpInputKeeps(env, seen, d, th, payload);
    case _ =>
  }
}
