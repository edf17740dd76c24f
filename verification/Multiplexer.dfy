/** The daemon as it updates its structures in place: three tables of objects, each with its own buffers. Every
    method is proved to do to the objects what the step function of the same name does to their values; an object
    that is freed leaves its table and the footprint, so that no later call could touch it. */
module Multiplexers {
  import opened Basics
  import opened MuxPacket
  import opened Assembler
  import opened ClientMessage
  import opened CommandFraming
  import opened Environment
  import opened MuxConnections
  import opened MuxDevices
  import opened MuxClients
  import opened Shapes
  import opened Timers
  import Ports
  import Daemon
  import C = Connection
  import L = Client
  import D = Device

  /** The entry of a table that a structure or a buffer belongs to. */
  datatype Owner = OfConn(k: nat) | OfClient(c: nat) | OfDevice(d: nat)

  class Multiplexer {
    var clients: map<nat, MuxClient>
    var conns: map<nat, MuxConnection>
    var devices: map<nat, MuxDevice>
    var nextClient: nat
    var nextConn: nat
    var nextDevice: nat
    var clock: nat
    ghost var owner: map<object, Owner>
    ghost var pastClients: map<nat, L.ClientHistory>
    ghost var pastConns: map<nat, C.ConnHistory>
    ghost var faults: nat

    /** The structures and buffers of an entry belong to it and to no other. */
    ghost predicate Owns(parts: set<object>, e: Owner)
      reads this`owner
    {
      forall o :: o in parts ==> o in owner && owner[o] == e
    }

    /** Nothing belongs to this entry. */
    ghost predicate Gone(e: Owner)
      reads this`owner
    {
      forall o :: o in owner ==> owner[o] != e
    }

    ghost predicate ConnsHere()
      reads this, owner.Keys
    {
      forall k :: k in conns ==> Owns(conns[k].Parts(), OfConn(k)) && conns[k].Valid()
    }

    ghost function Conns(): map<nat, C.Conn>
      requires ConnsHere()
      reads this, owner.Keys
    {
      map k | k in conns :: conns[k].View()
    }

    ghost predicate ClientsHere()
      reads this, owner.Keys
    {
      forall c :: c in clients ==> clients[c] in owner && Owns(clients[c].Parts(), OfClient(c)) && clients[c].Valid()
    }

    ghost function Clients(): map<nat, L.Client>
      requires ClientsHere()
      reads this, owner.Keys
    {
      map c | c in clients :: clients[c].View()
    }

    ghost predicate DevicesHere()
      reads this, owner.Keys
    {
      forall d :: d in devices ==> Owns(devices[d].Parts(), OfDevice(d)) && devices[d].Valid()
    }

    ghost function Devices(): map<nat, D.Device>
      requires DevicesHere()
      reads this, owner.Keys
    {
      map d | d in devices :: devices[d].View()
    }

    ghost predicate Valid()
      reads this, owner.Keys
    {
      this !in owner && ConnsHere() && ClientsHere() && DevicesHere()
    }

    ghost function View(): Daemon.World
      requires Valid()
      reads this, owner.Keys
    {
      Daemon.World(Clients(), Conns(), Devices(), pastClients, pastConns, nextClient, nextConn, nextDevice, clock,
          faults)
    }

    constructor ()
      ensures Valid() && View() == Daemon.START && owner == map[]
    {
      clients, conns, devices := map[], map[], map[];
      nextClient, nextConn, nextDevice, clock := 0, 0, 1, 0;
      owner, pastClients, pastConns, faults := map[], map[], map[], 0;
    }

    // ---- What a change to one entry leaves alone ----

    /** Everything that belongs to another entry is as it was. */
    twostate predicate Untouched(e: Owner)
      reads *
    {
      forall o :: o in old(owner) && old(owner)[o] != e ==> unchanged(o) && o in owner && owner[o] == old(owner)[o]
    }

    twostate lemma ConnsKept(e: Owner)
      requires old(ConnsHere()) && Untouched(e)
      ensures forall k :: k in conns && k in old(conns) && conns[k] == old(conns)[k] && e != OfConn(k) ==>
                && Owns(conns[k].Parts(), OfConn(k)) && conns[k].Valid()
                && conns[k].View() == old(conns[k].View())
    {
      forall k | k in conns && k in old(conns) && conns[k] == old(conns)[k] && e != OfConn(k)
        ensures Owns(conns[k].Parts(), OfConn(k)) && conns[k].Valid()
        ensures conns[k].View() == old(conns[k].View())
      {
        assert conns[k] in old(conns[k].Parts()) && conns[k].ibBuf in old(conns[k].Parts());
      }
    }

    twostate lemma ConnsSame(e: Owner)
      requires old(ConnsHere()) && Untouched(e) && !e.OfConn? && conns == old(conns)
      ensures ConnsHere() && Conns() == old(Conns())
    {
      hide Untouched, Owns, MuxConnection.View, MuxConnection.Parts, MuxConnection.Valid;
      ConnsKept(e);
    }

    twostate lemma ConnsPut(k: nat)
      requires old(ConnsHere()) && Untouched(OfConn(k)) && k in conns && conns == old(conns)[k := conns[k]]
      requires Owns(conns[k].Parts(), OfConn(k)) && conns[k].Valid()
      ensures ConnsHere() && Conns() == old(Conns())[k := conns[k].View()]
    {
      hide Untouched, Owns, MuxConnection.View, MuxConnection.Parts, MuxConnection.Valid;
      ConnsKept(OfConn(k));
    }

    twostate lemma ConnsDropped(k: nat)
      requires old(ConnsHere()) && Untouched(OfConn(k)) && conns == old(conns) - {k}
      ensures ConnsHere() && Conns() == old(Conns()) - {k}
    {
      hide Untouched, Owns, MuxConnection.View, MuxConnection.Parts, MuxConnection.Valid;
      ConnsKept(OfConn(k));
    }

    twostate lemma ClientsKept(e: Owner)
      requires old(ClientsHere()) && Untouched(e)
      ensures forall c :: c in clients && c in old(clients) && clients[c] == old(clients)[c] && e != OfClient(c) ==>
                && clients[c] in owner && Owns(clients[c].Parts(), OfClient(c)) && clients[c].Valid()
                && clients[c].View() == old(clients[c].View())
    {
      forall c | c in clients && c in old(clients) && clients[c] == old(clients)[c] && e != OfClient(c)
        ensures clients[c] in owner && Owns(clients[c].Parts(), OfClient(c)) && clients[c].Valid()
        ensures clients[c].View() == old(clients[c].View())
      {
        assert clients[c] in old(clients[c].Parts()) && clients[c].obBuf in old(clients[c].Parts())
               && clients[c].ibBuf in old(clients[c].Parts());
      }
    }

    twostate lemma ClientsSame(e: Owner)
      requires old(ClientsHere()) && Untouched(e) && !e.OfClient? && clients == old(clients)
      ensures ClientsHere() && Clients() == old(Clients())
    {
      hide Untouched, Owns, MuxClient.View, MuxClient.Parts, MuxClient.Valid;
      ClientsKept(e);
    }

    twostate lemma ClientsPut(c: nat)
      requires old(ClientsHere()) && Untouched(OfClient(c)) && c in clients && clients == old(clients)[c := clients[c]]
      requires clients[c] in owner && Owns(clients[c].Parts(), OfClient(c)) && clients[c].Valid()
      ensures ClientsHere() && Clients() == old(Clients())[c := clients[c].View()]
    {
      hide Untouched, Owns, MuxClient.View, MuxClient.Parts, MuxClient.Valid;
      ClientsKept(OfClient(c));
    }

    twostate lemma ClientsDropped(c: nat)
      requires old(ClientsHere()) && Untouched(OfClient(c)) && clients == old(clients) - {c}
      ensures ClientsHere() && Clients() == old(Clients()) - {c}
    {
      hide Untouched, Owns, MuxClient.View, MuxClient.Parts, MuxClient.Valid;
      ClientsKept(OfClient(c));
    }

    twostate lemma DevicesKept(e: Owner)
      requires old(DevicesHere()) && Untouched(e)
      ensures forall d :: d in devices && d in old(devices) && devices[d] == old(devices)[d] && e != OfDevice(d) ==>
                && Owns(devices[d].Parts(), OfDevice(d)) && devices[d].Valid()
                && devices[d].View() == old(devices[d].View())
    {
      forall d | d in devices && d in old(devices) && devices[d] == old(devices)[d] && e != OfDevice(d)
        ensures Owns(devices[d].Parts(), OfDevice(d)) && devices[d].Valid()
        ensures devices[d].View() == old(devices[d].View())
      {
        assert devices[d] in old(devices[d].Parts()) && devices[d].pktBuf in old(devices[d].Parts());
      }
    }

    twostate lemma DevicesSame(e: Owner)
      requires old(DevicesHere()) && Untouched(e) && !e.OfDevice? && devices == old(devices)
      ensures DevicesHere() && Devices() == old(Devices())
    {
      hide Untouched, Owns, MuxDevice.View, MuxDevice.Parts;
      DevicesKept(e);
    }

    twostate lemma DevicesPut(d: nat)
      requires old(DevicesHere()) && Untouched(OfDevice(d)) && d in devices && devices == old(devices)[d := devices[d]]
      requires Owns(devices[d].Parts(), OfDevice(d)) && devices[d].Valid()
      ensures DevicesHere() && Devices() == old(Devices())[d := devices[d].View()]
    {
      hide Untouched, Owns, MuxDevice.View, MuxDevice.Parts;
      DevicesKept(OfDevice(d));
    }

    twostate lemma DevicesDropped(d: nat)
      requires old(DevicesHere()) && Untouched(OfDevice(d)) && devices == old(devices) - {d}
      ensures DevicesHere() && Devices() == old(Devices()) - {d}
    {
      hide Untouched, Owns, MuxDevice.View, MuxDevice.Parts;
      DevicesKept(OfDevice(d));
    }

    /** One connection was changed or added. */
    twostate lemma ConnPut(k: nat)
      requires old(Valid()) && Untouched(OfConn(k)) && this !in owner && clients == old(clients)
               && devices == old(devices)
      requires k in conns && conns == old(conns)[k := conns[k]]
      requires Owns(conns[k].Parts(), OfConn(k)) && conns[k].Valid()
      ensures Valid() && Conns() == old(Conns())[k := conns[k].View()] && Clients() == old(Clients())
              && Devices() == old(Devices())
    {
      hide Untouched, Owns, ConnsHere, ClientsHere, DevicesHere, Conns, Clients, Devices;
      ConnsPut(k);
      ClientsSame(OfConn(k));
      DevicesSame(OfConn(k));
    }

    /** One client was changed or added. */
    twostate lemma ClientPut(c: nat)
      requires old(Valid()) && Untouched(OfClient(c)) && this !in owner && conns == old(conns)
               && devices == old(devices)
      requires c in clients && clients == old(clients)[c := clients[c]]
      requires clients[c] in owner && Owns(clients[c].Parts(), OfClient(c)) && clients[c].Valid()
      ensures Valid() && Clients() == old(Clients())[c := clients[c].View()] && Conns() == old(Conns())
              && Devices() == old(Devices())
    {
      hide Untouched, Owns, ConnsHere, ClientsHere, DevicesHere, Conns, Clients, Devices;
      ClientsPut(c);
      ConnsSame(OfClient(c));
      DevicesSame(OfClient(c));
    }

    /** One device was changed or added. */
    twostate lemma DevicePut(d: nat)
      requires old(Valid()) && Untouched(OfDevice(d)) && this !in owner && conns == old(conns)
               && clients == old(clients)
      requires d in devices && devices == old(devices)[d := devices[d]]
      requires Owns(devices[d].Parts(), OfDevice(d)) && devices[d].Valid()
      ensures Valid() && Devices() == old(Devices())[d := devices[d].View()] && Conns() == old(Conns())
              && Clients() == old(Clients())
    {
      hide Untouched, Owns, ConnsHere, ClientsHere, DevicesHere, Conns, Clients, Devices;
      DevicesPut(d);
      ConnsSame(OfDevice(d));
      ClientsSame(OfDevice(d));
    }

    /** One client was changed and may have a new queue. */
    twostate lemma ClientGrown(c: nat)
      requires old(Valid()) && c in clients && conns == old(conns) && clients == old(clients) && devices == old(devices)
      requires owner == old(owner)[clients[c].obBuf := OfClient(c)] && clients[c].Valid()
      requires clients[c].obBuf == old(clients[c].obBuf) || fresh(clients[c].obBuf)
      requires forall o :: o in old(owner) && o !in old(clients[c].Parts()) ==> unchanged(o)
      ensures Valid() && Clients() == old(Clients())[c := clients[c].View()]
      ensures Conns() == old(Conns()) && Devices() == old(Devices())
    {
      hide ConnsHere, DevicesHere, Conns, Devices, MuxClient.View, MuxClient.Valid;
      ClientPut(c);
    }

    /** The tables hold the objects they held. */
    twostate predicate SameObjects()
      reads this
    {
      conns == old(conns) && clients == old(clients) && devices == old(devices)
    }

    /** Entries may be gone, but those that are left are the objects they were. */
    twostate predicate Survivors()
      reads this
    {
      && (forall k :: k in conns ==> k in old(conns) && conns[k] == old(conns)[k])
      && (forall c :: c in clients ==> c in old(clients) && clients[c] == old(clients)[c])
      && devices == old(devices)
    }

    // ---- Operations on one connection ----

    method SendSegment(k: nat, flags: byte, data: seq<byte>, ok: bool)
      requires Valid() && k in conns
      modifies this, owner.Keys
      ensures Valid() && View() ==
              Daemon.SetConn(old(View()), k, C.SendTcp(old(View()).conns[k], flags, data, ok, old(clock)))
      ensures owner == old(owner) && SameObjects()
    {
      hide ClientsHere, DevicesHere, Clients, Devices, C.SendTcp;
      var th := conns[k].SendTcp(flags, data, ok, clock);
      ConnPut(k);
    }

    method RefreshConn(k: nat)
      requires Valid() && k in conns
      modifies this, owner.Keys
      ensures Valid() && View() == Daemon.SetConn(old(View()), k, C.Update(old(View()).conns[k]))
      ensures owner == old(owner) && SameObjects()
    {
      hide ClientsHere, DevicesHere, Clients, Devices, C.Update;
      conns[k].UpdateConnection();
      ConnPut(k);
    }

    method AcceptPayload(k: nat, payload: seq<byte>) returns (ok: bool)
      requires Valid() && k in conns
      modifies this, owner.Keys
      ensures ok == !C.Overflows(old(View()).conns[k], payload)
      ensures Valid() && View() ==
              Daemon.SetConn(old(View()), k, if ok then C.Accept(old(View()).conns[k], payload)
                  else old(View()).conns[k])
      ensures owner == old(owner) && SameObjects()
    {
      hide ClientsHere, DevicesHere, Clients, Devices, C.Accept, C.Overflows;
      ok := conns[k].DeviceInput(payload);
      ConnPut(k);
    }

    method NoteHeader(k: nat, th: TcpHeader)
      requires Valid() && k in conns
      modifies this, owner.Keys
      ensures Valid() && View() == Daemon.SetConn(old(View()), k, C.NoteHeader(old(View()).conns[k], th))
      ensures owner == old(owner) && SameObjects()
    {
      hide ClientsHere, DevicesHere, Clients, Devices, C.NoteHeader;
      conns[k].NoteHeader(th);
      ConnPut(k);
    }

    method Handshake(k: nat)
      requires Valid() && k in conns
      modifies this, owner.Keys
      ensures Valid() && View() == Daemon.SetConn(old(View()), k, C.Handshake(old(View()).conns[k]))
      ensures owner == old(owner) && SameObjects()
    {
      hide ClientsHere, DevicesHere, Clients, Devices, C.Handshake;
      conns[k].Handshake();
      ConnPut(k);
    }

    method Drain(k: nat, n: nat)
      requires Valid() && k in conns && n <= |View().conns[k].ib|
      modifies this, owner.Keys
      ensures Valid() && View() == Daemon.SetConn(old(View()), k, C.Wrote(old(View()).conns[k], n))
      ensures owner == old(owner) && SameObjects()
    {
      hide ClientsHere, DevicesHere, Clients, Devices, C.Wrote;
      conns[k].Wrote(n);
      ConnPut(k);
    }

    method TakeData(k: nat, ghost data: seq<byte>)
      requires Valid() && k in conns
      modifies this, owner.Keys
      ensures Valid() && View() == Daemon.SetConn(old(View()), k, C.Took(old(View()).conns[k], data))
      ensures owner == old(owner) && SameObjects()
    {
      hide ClientsHere, DevicesHere, Clients, Devices, C.Took;
      conns[k].Took(data);
      ConnPut(k);
    }

    method Advance(k: nat, n: nat)
      requires Valid() && k in conns
      modifies this, owner.Keys
      ensures Valid() && View() == Daemon.SetConn(old(View()), k, C.Advance(old(View()).conns[k], n))
      ensures owner == old(owner) && SameObjects()
    {
      hide ClientsHere, DevicesHere, Clients, Devices, C.Advance;
      conns[k].Advance(n);
      ConnPut(k);
    }

    method FlushConn(k: nat, s: FlushScript) returns (n: nat)
      requires Valid() && k in conns
      modifies this, owner.Keys
      ensures n == Flushable(s, |old(View()).conns[k].ib|, 0, 1, s.clock(0))
      ensures Valid() && View() == Daemon.SetConn(old(View()), k, C.Flushed(old(View()).conns[k], n))
      ensures owner == old(owner) && SameObjects()
    {
      hide ClientsHere, DevicesHere, Clients, Devices, C.Flushed, Flushable;
      n := conns[k].Flush(s);
      ConnPut(k);
    }

    method MarkConn(k: nat, state: C.ConnState)
      requires Valid() && k in conns
      modifies this, owner.Keys
      ensures Valid() && View() == Daemon.SetConn(old(View()), k, old(View()).conns[k].(state := state))
      ensures owner == old(owner) && SameObjects()
    {
      hide ClientsHere, DevicesHere, Clients, Devices;
      conns[k].state := state;
      ConnPut(k);
    }

    method OrphanConn(k: nat)
      requires Valid() && k in conns
      modifies this, owner.Keys
      ensures Valid() && View() == Daemon.SetConn(old(View()), k, old(View()).conns[k].(client := None))
      ensures owner == old(owner) && SameObjects()
    {
      hide ClientsHere, DevicesHere, Clients, Devices;
      conns[k].client := None;
      ConnPut(k);
    }

    // ---- Operations on one client ----

    method Say(c: nat, env: Env, tag: u32, body: Body)
      requires Valid() && c in clients
      modifies this, owner.Keys
      ensures Valid() && View() == Daemon.SetClient(old(View()), c, L.Enqueue(env, old(View()).clients[c], tag, body))
      ensures fresh(owner.Keys - old(owner.Keys)) && SameObjects()
    {
      hide ConnsHere, DevicesHere, Conns, Devices, L.Enqueue, MuxClient.View, MuxClient.Valid;
      clients[c].AddMessage(env, tag, body);
      owner := owner[clients[c].obBuf := OfClient(c)];
      ClientGrown(c);
    }

    method TryNotify(c: nat, env: Env, code: u32) returns (ok: bool)
      requires Valid() && c in clients
      modifies this, owner.Keys
      ensures ok == L.Notify(env, old(View()).clients[c], code).Some?
      ensures Valid() && View() ==
              Daemon.SetClient(old(View()), c, if ok then L.Notify(env, old(View()).clients[c], code).value
                  else old(View()).clients[c])
      ensures fresh(owner.Keys - old(owner.Keys)) && SameObjects()
    {
      hide ConnsHere, DevicesHere, Conns, Devices, L.Notify, Idle;
      ok := clients[c].NotifyConnect(env, code);
      owner := owner[clients[c].obBuf := OfClient(c)];
      ClientGrown(c);
    }

    /** client_notify_connect */
    method Notify(c: nat, env: Env, code: u32) returns (ok: bool)
      requires Valid() && c in clients
      modifies this, owner.Keys
      ensures ok == L.Notify(env, old(View()).clients[c], code).Some?
      ensures Valid() && fresh(owner.Keys - old(owner.Keys)) && SameObjects()
      ensures View() == if ok then Daemon.SetClient(old(View()), c, L.Notify(env, old(View()).clients[c], code).value)
                        else old(View())
    {
      hide ConnsHere, ClientsHere, DevicesHere, Conns, Clients, Devices, L.Notify, MuxClient.View, MuxClient.Valid;
      PeekClient(c);
      ghost var w := View();
      ok := TryNotify(c, env, code);
      assert w.clients[c := w.clients[c]] == w.clients;
    }

    method SetEvents(c: nat, mask: Mask)
      requires Valid() && c in clients
      modifies this, owner.Keys
      ensures Valid() && View() == Daemon.SetClient(old(View()), c, L.SetEvents(old(View()).clients[c], mask))
      ensures owner == old(owner) && SameObjects()
    {
      hide ConnsHere, DevicesHere, Conns, Devices, L.SetEvents, MuxClient.View, MuxClient.Valid;
      var ok := clients[c].SetEvents(mask);
      ClientPut(c);
    }

    method Output(c: nat, n: nat)
      requires Valid() && c in clients && 0 < n <= |View().clients[c].ob|
      modifies this, owner.Keys
      ensures Valid() && View() == Daemon.SetClient(old(View()), c, L.Sent(old(View()).clients[c], n))
      ensures owner == old(owner) && SameObjects()
    {
      hide ConnsHere, DevicesHere, Conns, Devices, L.Sent, Idle;
      clients[c].OutputProcess(n);
      ClientPut(c);
    }

    method Input(c: nat, got: seq<byte>) returns (r: Framed)
      requires Valid() && c in clients && 0 < |got| <= Need(View().clients[c].ib)
      modifies this, owner.Keys
      ensures r == Receive(old(View()).clients[c].ib, got)
      ensures Valid() && View() == Daemon.SetClient(old(View()), c, match r
        case Partial(ib) => L.Buffered(old(View()).clients[c], got, ib)
        case BadLength => L.Spoilt(old(View()).clients[c], got)
        case Command(msg) => L.Commanded(old(View()).clients[c], got, msg))
      ensures owner == old(owner) && SameObjects()
    {
      hide ConnsHere, DevicesHere, Conns, Devices, L.Buffered, L.Spoilt, L.Commanded, Receive, Need, Idle;
      r := clients[c].InputProcess(got);
      ClientPut(c);
    }

    method NoteSent(c: nat, ghost data: seq<byte>)
      requires Valid() && c in clients
      modifies this, owner.Keys
      ensures Valid() && View() == Daemon.SetClient(old(View()), c, L.RawSent(old(View()).clients[c], data))
      ensures owner == old(owner) && SameObjects()
    {
      hide ConnsHere, DevicesHere, Conns, Devices, Idle;
      clients[c].Wrote(data);
      ClientPut(c);
    }

    method NoteTaken(c: nat, ghost data: seq<byte>)
      requires Valid() && c in clients
      modifies this, owner.Keys
      ensures Valid() && View() == Daemon.SetClient(old(View()), c, L.RawReceived(old(View()).clients[c], data))
      ensures owner == old(owner) && SameObjects()
    {
      hide ConnsHere, DevicesHere, Conns, Devices, Idle;
      clients[c].Took(data);
      ClientPut(c);
    }

    method MarkClient(c: nat, state: L.ClientState)
      requires Valid() && c in clients
      modifies this, owner.Keys
      ensures Valid() && View() == Daemon.SetClient(old(View()), c, old(View()).clients[c].(state := state))
      ensures owner == old(owner) && SameObjects()
    {
      hide ConnsHere, DevicesHere, Conns, Devices, Idle;
      clients[c].state := state;
      ClientPut(c);
    }

    method SpeakPlist(c: nat)
      requires Valid() && c in clients
      modifies this, owner.Keys
      ensures Valid() && View() == Daemon.SetClient(old(View()), c, old(View()).clients[c].(proto := 1))
      ensures owner == old(owner) && SameObjects()
    {
      hide ConnsHere, DevicesHere, Conns, Devices, Idle;
      clients[c].proto := 1;
      ClientPut(c);
    }

    method BeginConnect(c: nat, tag: u32, d: nat, ghost k: nat)
      requires Valid() && c in clients
      modifies this, owner.Keys
      ensures Valid() && View() ==
              Daemon.SetClient(old(View()), c, old(View()).clients[c].(connectTag := tag, connectDev := d,
        state := L.Connecting1, h := old(View()).clients[c].h.(conn := Some(k))))
      ensures owner == old(owner) && SameObjects()
    {
      hide ConnsHere, DevicesHere, Conns, Devices, Idle;
      clients[c].BeginConnect(tag, d, k);
      ClientPut(c);
    }

    method StopOutput(c: nat)
      requires Valid() && c in clients
      modifies this, owner.Keys
      ensures Valid() && View() ==
              Daemon.SetClient(old(View()), c,
                  old(View()).clients[c].(events := old(View()).clients[c].events.(pollOut := false)))
      ensures owner == old(owner) && SameObjects()
    {
      hide ConnsHere, DevicesHere, Conns, Devices, Idle;
      clients[c].events := clients[c].events.(pollOut := false);
      ClientPut(c);
    }

    // ---- Operations on one device ----

    method GatherFor(d: nat, chunk: seq<byte>) returns (packet: Option<seq<byte>>)
      requires Valid() && d in devices && (View().devices[d].buf == [] ==> chunk == [] || |chunk| >= 8)
      modifies this, owner.Keys
      ensures packet == Gather(old(View()).devices[d].buf, chunk).packet
      ensures Valid() && View() ==
              Daemon.SetDevice(old(View()), d,
                  old(View()).devices[d].(buf := Gather(old(View()).devices[d].buf, chunk).buf))
      ensures owner == old(owner) && SameObjects()
    {
      hide ConnsHere, ClientsHere, Conns, Clients, Gather;
      packet := devices[d].DataInput(chunk);
      DevicePut(d);
    }

    method NoteSeen(d: nat, seen: u16)
      requires Valid() && d in devices && View().devices[d].version >= 2
      modifies this, owner.Keys
      ensures Valid() && View() == Daemon.SetDevice(old(View()), d, old(View()).devices[d].(rxSeq := Some(seen)))
      ensures owner == old(owner) && SameObjects()
    {
      hide ConnsHere, ClientsHere, Conns, Clients, D.SendPacket;
      devices[d].NoteSeen(seen);
      DevicePut(d);
    }

    method NegotiateWith(d: nat, major: nat)
      requires Valid() && d in devices && View().devices[d].state.Starting?
      modifies this, owner.Keys
      ensures Valid() && View() == Daemon.SetDevice(old(View()), d, D.Negotiated(old(View()).devices[d], major))
      ensures owner == old(owner) && SameObjects()
    {
      hide ConnsHere, ClientsHere, Conns, Clients, D.Negotiated;
      var packet := devices[d].Negotiate(major);
      DevicePut(d);
    }

    method MarkDevice(d: nat, state: D.DevState)
      requires Valid() && d in devices
      modifies this, owner.Keys
      ensures Valid() && View() == Daemon.SetDevice(old(View()), d, old(View()).devices[d].(state := state))
      ensures owner == old(owner) && SameObjects()
    {
      hide ConnsHere, ClientsHere, Conns, Clients;
      devices[d].state := state;
      DevicePut(d);
    }

    method ShowDevice(d: nat)
      requires Valid() && d in devices
      modifies this, owner.Keys
      ensures Valid() && View() == Daemon.SetDevice(old(View()), d, old(View()).devices[d].(visible := true))
      ensures owner == old(owner) && SameObjects()
    {
      hide ConnsHere, ClientsHere, Conns, Clients;
      devices[d].visible := true;
      DevicePut(d);
    }

    method MoveCursor(d: nat, next: u16)
      requires Valid() && d in devices
      modifies this, owner.Keys
      ensures Valid() && View() == Daemon.SetDevice(old(View()), d, old(View()).devices[d].(nextSport := next))
      ensures owner == old(owner) && SameObjects()
    {
      hide ConnsHere, ClientsHere, Conns, Clients;
      devices[d].nextSport := next;
      DevicePut(d);
    }

    /** send_packet */
    method SendTo(d: nat, env: Env, p: Proto, header: seq<byte>, data: seq<byte>) returns (ok: bool)
      requires Valid() && d in devices && p != Setup
      modifies this, owner.Keys
      ensures ok == D.SendOk(env, d, old(View()).devices[d], |header|, |data|)
      ensures Valid()
      ensures View() == Daemon.SetDevice(old(View()), d, D.SendPacket(old(View()).devices[d], p, header, data))
      ensures owner == old(owner) && SameObjects()
    {
      hide ConnsHere, ClientsHere, Conns, Clients, D.SendPacket, Build;
      var call := devices[d].sends;
      var packet := devices[d].SendPacket(p, header, data);
      ok := packet.Some? && env.usbOk(d, call);
      DevicePut(d);
    }

    // ---- Entries come and go ----

    /** Nothing belongs to this entry any more. */
    ghost method Disown(e: Owner)
      modifies this`owner
      ensures owner == map o | o in old(owner) && old(owner)[o] != e :: old(owner)[o]
    {
      owner := map o | o in owner && owner[o] != e :: owner[o];
    }

    /** A new entry: these structures and buffers belong to it, and nothing else does. */
    ghost method Adopt(parts: set<object>, e: Owner)
      requires parts !! owner.Keys
      modifies this`owner
      ensures Owns(parts, e) && owner.Keys <= old(owner.Keys) + parts
      ensures forall o :: o in old(owner) && old(owner)[o] != e ==> o in owner && owner[o] == old(owner)[o]
    {
      Disown(e);
      owner := owner + map o | o in parts :: e;
    }

    method RemoveConn(k: nat, ghost past: map<nat, C.ConnHistory>)
      requires Valid()
      modifies this`conns, this`pastConns, this`owner
      ensures Valid() && View() == old(View()).(conns := old(View()).conns - {k}, pastConns := past)
      ensures owner.Keys <= old(owner.Keys) && Gone(OfConn(k)) && conns == old(conns) - {k}
    {
      hide ClientsHere, DevicesHere, Clients, Devices, MuxConnection.View, MuxConnection.Valid;
      pastConns := past;
      conns := conns - {k};
      Disown(OfConn(k));
      ConnsDropped(k);
      ClientsSame(OfConn(k));
      DevicesSame(OfConn(k));
    }

    method RemoveClient(c: nat, ghost past: map<nat, L.ClientHistory>)
      requires Valid()
      modifies this`clients, this`pastClients, this`owner
      ensures Valid() && View() == old(View()).(clients := old(View()).clients - {c}, pastClients := past)
      ensures owner.Keys <= old(owner.Keys) && Gone(OfClient(c)) && clients == old(clients) - {c}
    {
      hide ConnsHere, DevicesHere, Conns, Devices, MuxClient.View, MuxClient.Valid;
      pastClients := past;
      clients := clients - {c};
      Disown(OfClient(c));
      ClientsDropped(c);
      ConnsSame(OfClient(c));
      DevicesSame(OfClient(c));
    }

    method RemoveDevice(d: nat)
      requires Valid()
      modifies this`devices, this`owner
      ensures Valid() && View() == old(View()).(devices := old(View()).devices - {d})
      ensures owner.Keys <= old(owner.Keys) && Gone(OfDevice(d))
    {
      hide ConnsHere, ClientsHere, Conns, Clients, MuxDevice.View, MuxDevice.Valid;
      devices := devices - {d};
      Disown(OfDevice(d));
      DevicesDropped(d);
      ConnsSame(OfDevice(d));
      ClientsSame(OfDevice(d));
    }

    method AddConn(kn: MuxConnection)
      requires Valid() && kn.Valid() && kn.Parts() !! owner.Keys + {this}
      modifies this`conns, this`nextConn, this`owner
      ensures Valid() && owner.Keys <= old(owner.Keys) + kn.Parts()
      ensures View() == Daemon.SetConn(old(View()), old(View()).nextConn,
              kn.View()).(nextConn := old(View()).nextConn + 1)
    {
      hide ConnsHere, ClientsHere, DevicesHere, Conns, Clients, Devices, MuxConnection.View, MuxConnection.Valid;
      var k := nextConn;
      Adopt(kn.Parts(), OfConn(k));
      conns, nextConn := conns[k := kn], k + 1;
      ConnPut(k);
    }

    /** client_accept */
    method Accept()
      requires Valid()
      modifies this`clients, this`nextClient, this`owner
      ensures Valid() && fresh(owner.Keys - old(owner.Keys))
      ensures View() == Daemon.SetClient(old(View()), old(View()).nextClient, L.NEW_CLIENT)
                        .(nextClient := old(View()).nextClient + 1)
    {
      hide ConnsHere, ClientsHere, DevicesHere, Conns, Clients, Devices, MuxClient.View, MuxClient.Valid;
      var c := nextClient;
      var cl := new MuxClient();
      Adopt(cl.Parts(), OfClient(c));
      clients, nextClient := clients[c := cl], c + 1;
      ClientPut(c);
    }

    method AddDevice(dev: MuxDevice)
      requires Valid() && dev.Valid() && dev.Parts() !! owner.Keys + {this}
      modifies this`devices, this`owner
      ensures Valid() && owner.Keys <= old(owner.Keys) + dev.Parts()
      ensures View() == Daemon.SetDevice(old(View()), nextDevice, dev.View())
    {
      hide ConnsHere, ClientsHere, DevicesHere, Conns, Clients, Devices, MuxDevice.View;
      var d := nextDevice;
      Adopt(dev.Parts(), OfDevice(d));
      devices := devices[d := dev];
      DevicePut(d);
    }

    // ---- What the tables show of an object ----

    lemma Keys()
      requires Valid()
      ensures clients.Keys == View().clients.Keys && conns.Keys == View().conns.Keys
      ensures nextConn == View().nextConn && nextDevice == View().nextDevice && clock == View().clock
    {
    }

    lemma PeekConn(k: nat)
      requires Valid()
      ensures k in conns <==> k in View().conns
      ensures k in conns ==>
        var kn, v := conns[k], View().conns[k];
        && kn.dev == v.dev && kn.client == v.client && kn.state == v.state && kn.sport == v.sport && kn.dport == v.dport
        && kn.txSeq == v.txSeq && kn.txAck == v.txAck && kn.ibSize == |v.ib| && kn.sendable == v.sendable
        && kn.events == v.events && kn.ackPending == v.ackPending && kn.lastAck == v.lastAck
    {
    }

    lemma PeekClient(c: nat)
      requires Valid()
      ensures c in clients <==> c in View().clients
      ensures c in clients ==>
        var cl, v := clients[c], View().clients[c];
        && cl.state == v.state && cl.connectDev == v.connectDev && cl.proto == v.proto && cl.events == v.events
        && cl.obSize == |v.ob| && cl.ibSize == |v.ib| && cl.ibBuf.Length == CMD_BUF_SIZE
            && cl.ibBuf[..cl.ibSize] == v.ib
    {
    }

    lemma PeekDevice(d: nat)
      requires Valid()
      ensures d in devices <==> d in View().devices
      ensures d in devices ==>
        var dev, v := devices[d], View().devices[d];
        && dev.state == v.state && dev.visible == v.visible && dev.nextSport == v.nextSport
        && dev.version == v.version && dev.info == v.info
    {
    }

    // ---- Teardown and close, which call each other ----

    /** A pointer to a structure that is not there is about to be followed. */
    ghost method CountFault()
      requires Valid()
      modifies this`faults
      ensures Valid() && View() == Daemon.Fault(old(View()))
    {
      hide ConnsHere, ClientsHere, DevicesHere, Conns, Clients, Devices;
      faults := faults + 1;
      ConnsSame(OfClient(0));
      ClientsSame(OfConn(0));
      DevicesSame(OfConn(0));
    }

    /** send_tcp */
    method SendTcp(env: Env, k: nat, flags: byte, data: seq<byte>) returns (ok: bool)
      requires Valid() && k in conns
      modifies this, owner.Keys
      ensures Valid() && fresh(owner.Keys - old(owner.Keys)) && SameObjects()
      ensures ok == Daemon.TcpOk(env, old(View()), k, |data|)
      ensures View() == Daemon.SendTcp(env, old(View()), k, flags, data)
    {
      hide Valid, View, C.SendTcp, D.SendPacket, TcpBytes, D.SendOk;
      Keys();
      PeekConn(k);
      var kn := conns[k];
      PeekDevice(kn.dev);
      ok := false;
      if kn.dev in devices {
        var th := TcpHeader(kn.sport, kn.dport, kn.txSeq, kn.txAck, flags, C.TX_WIN / 256);
        ok := SendTo(kn.dev, env, Tcp, TcpBytes(th), data);
        Keys();
        PeekConn(k);
        SendSegment(k, flags, data, ok);
      } else {
        CountFault();
      }
    }

    /** The RST of connection_teardown. */
    method SendReset(env: Env, k: nat)
      requires Valid() && k in conns
      modifies this, owner.Keys
      ensures Valid() && fresh(owner.Keys - old(owner.Keys)) && SameObjects()
      ensures View() == Daemon.Reset(env, old(View()), k)
    {
      hide Valid, View, Daemon.SendTcp;
      PeekConn(k);
      var kn := conns[k];
      PeekDevice(kn.dev);
      if kn.dev !in devices {
        CountFault();
      } else if !devices[kn.dev].state.Removed? && !kn.state.Dying? && !kn.state.Refused? {
        var ok := SendTcp(env, k, RST, []);
      }
    }

    /** connection_teardown */
    method ConnectionTeardown(env: Env, k: nat)
      requires Valid()
      modifies this, owner.Keys
      ensures Valid() && fresh(owner.Keys - old(owner.Keys))
      ensures View() == Daemon.Teardown(env, old(View()), k)
      ensures k in old(conns) && !old(conns[k].state.Dead?) ==> Gone(OfConn(k)) && k !in conns
      ensures Survivors()
      decreases Daemon.Owned(View()), 4
    {
      hide Valid, View, Daemon.Reset, Daemon.Bury, Daemon.NotifyRefused, Daemon.ClientClose, Daemon.FreeConn;
      hide Daemon.Owned;
      PeekConn(k);
      if k !in conns {
        CountFault();
        return;
      }
      if conns[k].state.Dead? {
        return;
      }
      var client, state := conns[k].client, conns[k].state;
      SendReset(env, k);
      if client.Some? {
        if state.Refused? || state.Connecting? {
          NotifyRefused(env, client.value);
        } else {
          PeekConn(k);
          SameOwned(old(View()), View());
          Release(env, k, client.value);
        }
      }
      FreeConnection(k);
    }

    /** The part of connection_teardown for a connection that was established. */
    method Release(env: Env, k: nat, c: nat)
      requires Valid() && k in conns && k in View().conns
      modifies this, owner.Keys
      ensures Valid() && fresh(owner.Keys - old(owner.Keys)) && Survivors()
      ensures View() == Daemon.ClientClose(env, Daemon.Bury(env, old(View()), k, c), c)
      decreases Daemon.Owned(View()), 3
    {
      hide Valid, View, Daemon.Bury, Daemon.ClientClose, Daemon.Owned;
      Bury(env, k, c);
      SameOwned(old(View()), View());
      ClientClose(env, c);
    }

    /** client_notify_connect for a connection that was refused. */
    method NotifyRefused(env: Env, c: nat)
      requires Valid()
      modifies this, owner.Keys
      ensures Valid() && fresh(owner.Keys - old(owner.Keys)) && SameObjects()
      ensures View() == Daemon.NotifyRefused(env, old(View()), c)
    {
      hide Valid, View, L.Notify;
      PeekClient(c);
      if c in clients {
        var ok := Notify(c, env, RESULT_CONNREFUSED);
      } else {
        CountFault();
      }
    }

    /** The flush of connection_teardown. */
    method FlushTo(env: Env, k: nat, c: nat) returns (n: nat)
      requires Valid() && k in conns
      modifies this, owner.Keys
      ensures n == Daemon.FlushLength(env, old(View()), k, c)
      ensures Valid() && View() == Daemon.SetConn(old(View()), k, C.Flushed(old(View()).conns[k], n))
      ensures owner == old(owner) && SameObjects()
    {
      hide Valid, View, C.Flushed;
      PeekConn(k);
      PeekClient(c);
      n := 0;
      C.FlushNothing(View().conns[k]);
      if conns[k].events.pollOut && conns[k].ibSize > 0 && c in clients && clients[c].state.Joined? {
        n := FlushConn(k, env.flush(k));
      }
    }

    /** Mark the connection dead and flush what the client takes. */
    method Bury(env: Env, k: nat, c: nat)
      requires Valid() && k in conns
      modifies this, owner.Keys
      ensures Valid() && fresh(owner.Keys - old(owner.Keys)) && SameObjects()
      ensures View() == Daemon.Bury(env, old(View()), k, c)
    {
      hide Valid, View, Daemon.FlushLength, C.Flushed, L.RawSent, Daemon.Bury;
      PeekConn(k);
      BuryIs(env, View(), k, c);
      ghost var kn := View().conns[k];
      var waiting := conns[k].events.pollOut && conns[k].ibSize > 0;
      var n := FlushTo(env, k, c);
      PeekConn(k);
      MarkConn(k, C.Dead);
      PeekClient(c);
      if c in clients {
        NoteSent(c, kn.ib[..n]);
      } else if waiting {
        CountFault();
      }
    }

    /** The end of connection_teardown. */
    method FreeConnection(k: nat)
      requires Valid()
      modifies this`conns, this`pastConns, this`owner, this`faults
      ensures Valid() && View() == Daemon.FreeConn(old(View()), k)
      ensures owner.Keys <= old(owner.Keys) && Gone(OfConn(k)) && conns == old(conns) - {k}
    {
      hide Valid, View;
      ghost var w := View();
      PeekConn(k);
      var here := k in conns;
      assert k !in w.conns ==> w.conns - {k} == w.conns;
      RemoveConn(k, Daemon.FreeConn(w, k).pastConns);
      if !here {
        CountFault();
      }
    }

    /** The end of client_close. */
    method FreeClient(c: nat)
      requires Valid()
      modifies this`clients, this`pastClients, this`owner, this`faults
      ensures Valid() && View() == Daemon.FreeClient(old(View()), c)
      ensures owner.Keys <= old(owner.Keys) && Gone(OfClient(c)) && clients == old(clients) - {c}
    {
      hide Valid, View;
      ghost var w := View();
      PeekClient(c);
      var here := c in clients;
      assert c !in w.clients ==> w.clients - {c} == w.clients;
      RemoveClient(c, Daemon.FreeClient(w, c).pastClients);
      if !here {
        CountFault();
      }
    }

    /** client_close */
    method ClientClose(env: Env, c: nat)
      requires Valid()
      modifies this, owner.Keys
      ensures Valid() && fresh(owner.Keys - old(owner.Keys))
      ensures View() == Daemon.ClientClose(env, old(View()), c)
      ensures c in old(clients) ==> Gone(OfClient(c)) && c !in clients
      ensures Survivors()
      decreases Daemon.Owned(View()), 2
    {
      hide Valid, View, Daemon.AbortConnect, Daemon.FreeClient;
      PeekClient(c);
      if c !in clients {
        return;
      }
      var state, dev := clients[c].state, clients[c].connectDev;
      if state.Connecting1? || state.Connecting2? {
        MarkClient(c, L.Gone);
        assert Daemon.Owned(View()) == Daemon.Owned(old(View()));
        AbortConnect(env, dev, c);
      }
      FreeClient(c);
    }

    /** device_abort_connect */
    method AbortConnect(env: Env, d: nat, c: nat)
      requires Valid()
      modifies this, owner.Keys
      ensures Valid() && fresh(owner.Keys - old(owner.Keys))
      ensures View() == Daemon.AbortConnect(env, old(View()), d, c) && Survivors()
      decreases Daemon.Owned(View()), 1
    {
      hide Valid, View, Daemon.Teardown;
      var found := FindConnection(d, c);
      if found.Some? {
        var k := found.value;
        PeekConn(k);
        OrphanConn(k);
        assert Daemon.Owned(View()) == Daemon.Owned(old(View())) - {k};
        ConnectionTeardown(env, k);
      }
    }

    /** get_mux_connection */
    method FindConnection(d: nat, c: nat) returns (r: Option<nat>)
      requires Valid()
      ensures r == Daemon.FindConn(View(), d, c, View().nextConn)
    {
      hide Valid, View;
      Keys();
      var k: nat := nextConn;
      while k > 0
        invariant k <= nextConn
        invariant Daemon.FindConn(View(), d, c, View().nextConn) == Daemon.FindConn(View(), d, c, k)
      {
        k := k - 1;
        PeekConn(k);
        if k in conns && conns[k].dev == d && conns[k].client == Some(c) {
          return Some(k);
        }
      }
      r := None;
    }

    // ---- Serving a connection ----

    /** update_connection */
    method UpdateConnection(k: nat)
      requires Valid()
      modifies this, owner.Keys
      ensures Valid() && fresh(owner.Keys - old(owner.Keys))
      ensures View() == Daemon.UpdateConnection(old(View()), k)
    {
      hide Valid, View, C.Update, L.SetEvents;
      PeekConn(k);
      if k !in conns {
        CountFault();
        return;
      }
      RefreshConn(k);
      PeekConn(k);
      var client, events := conns[k].client, conns[k].events;
      if client.Some? {
        PeekClient(client.value);
      }
      if client.Some? && client.value in clients {
        SetEvents(client.value, events);
      } else {
        CountFault();
      }
    }

    /** send_tcp_ack */
    method SendTcpAck(env: Env, k: nat)
      requires Valid()
      modifies this, owner.Keys
      ensures Valid() && fresh(owner.Keys - old(owner.Keys))
      ensures View() == Daemon.SendTcpAck(env, old(View()), k)
    {
      hide Valid, View, Daemon.SendTcp, Daemon.TcpOk, Daemon.Teardown, Daemon.UpdateConnection;
      PeekConn(k);
      if k !in conns {
        CountFault();
        return;
      }
      SendKeeps(env, View(), k, ACK, []);
      var ok := SendTcp(env, k, ACK, []);
      PeekConn(k);
      if !ok {
        ConnectionTeardown(env, k);
      } else {
        UpdateConnection(k);
      }
    }

    /** device_client_process: the POLLOUT arm once client_write has taken n bytes. */
    method WriteArm(k: nat, c: nat, n: nat)
      requires Valid() && k in conns && n <= |View().conns[k].ib|
      modifies this, owner.Keys
      ensures Valid() && fresh(owner.Keys - old(owner.Keys))
      ensures View() == Daemon.WriteArm(old(View()), k, c, n)
    {
      hide Valid, View, C.Wrote, L.RawSent;
      PeekConn(k);
      ghost var data := View().conns[k].ib[..n];
      Drain(k, n);
      PeekClient(c);
      if c in clients {
        NoteSent(c, data);
      } else {
        CountFault();
      }
    }

    /** device_client_process: the POLLIN arm once client_read has returned data. */
    method ReadArm(k: nat, c: nat, data: seq<byte>)
      requires Valid() && k in conns
      modifies this, owner.Keys
      ensures Valid() && fresh(owner.Keys - old(owner.Keys))
      ensures View() == Daemon.ReadArm(old(View()), k, c, data)
    {
      hide Valid, View, C.Took, L.RawReceived;
      PeekConn(k);
      TakeData(k, data);
      PeekClient(c);
      if c in clients {
        NoteTaken(c, data);
      } else {
        CountFault();
      }
    }

    /** device_client_process from the POLLIN arm on. */
    method ProcessRead(env: Env, k: nat, c: nat, io: Daemon.SocketResults)
      requires Valid() && k in conns
      modifies this, owner.Keys
      ensures Valid() && fresh(owner.Keys - old(owner.Keys))
      ensures View() == Daemon.ProcessRead(env, old(View()), k, c, io)
    {
      hide Valid, View, Daemon.Teardown, Daemon.UpdateConnection, Daemon.ReadArm, Daemon.SendTcp, Daemon.TcpOk;
      hide C.Advance;
      PeekConn(k);
      PeekClient(c);
      if io.read.Some? && conns[k].sendable > 0 {
        var data := io.read.value;
        if c !in clients {
          CountFault();
          ConnectionTeardown(env, k);
          return;
        }
        if !(0 < |data| <= conns[k].sendable) || !clients[c].state.Joined? {
          ConnectionTeardown(env, k);
          return;
        }
        ReadArm(k, c, data);
        ReadArmKeys(old(View()), k, c, data);
        PeekConn(k);
        SendData(env, k, data);
      } else {
        UpdateConnection(k);
      }
    }

    /** Send what was read, count it, and update the connection. */
    method SendData(env: Env, k: nat, data: seq<byte>)
      requires Valid() && k in conns
      modifies this, owner.Keys
      ensures Valid() && fresh(owner.Keys - old(owner.Keys))
      ensures
        var w := old(View());
        var sent := Daemon.SendTcp(env, w, k, ACK, data);
        View() == if Daemon.TcpOk(env, w, k, |data|)
                  then Daemon.UpdateConnection(Daemon.AdvanceArm(sent, k, |data|), k) else Daemon.Teardown(env, sent, k)
    {
      hide Valid, View, Daemon.Teardown, Daemon.UpdateConnection, Daemon.SendTcp, Daemon.TcpOk, C.Advance;
      PeekConn(k);
      SendKeeps(env, View(), k, ACK, data);
      var ok := SendTcp(env, k, ACK, data);
      PeekConn(k);
      if !ok {
        ConnectionTeardown(env, k);
      } else {
        Advance(k, |data|);
        PeekConn(k);
        UpdateConnection(k);
      }
    }

    /** device_client_process; `io` is what poll selected and the socket calls returned. */
    method ClientProcess(env: Env, d: nat, c: nat, io: Daemon.SocketResults)
      requires Valid()
      modifies this, owner.Keys
      ensures Valid() && fresh(owner.Keys - old(owner.Keys))
      ensures View() == Daemon.ClientProcess(env, old(View()), d, c, io)
    {
      hide Valid, View, Daemon.Teardown, Daemon.ProcessRead, Daemon.WriteArm;
      var found := FindConnection(d, c);
      if found.None? {
        return;
      }
      var k := found.value;
      PeekConn(k);
      PeekClient(c);
      if io.write.Some? && conns[k].ibSize > 0 {
        var n := io.write.value;
        if c !in clients {
          CountFault();
          ConnectionTeardown(env, k);
          return;
        }
        if !(0 < n <= conns[k].ibSize) || !clients[c].state.Joined? {
          ConnectionTeardown(env, k);
          return;
        }
        WriteArm(k, c, n);
        WriteArmKeys(old(View()), k, c, n);
        PeekConn(k);
      }
      ProcessRead(env, k, c, io);
    }

    // ---- Segments from a device ----

    /** The SYN/ACK arm of device_tcp_input. */
    method Establish(env: Env, k: nat)
      requires Valid() && k in conns
      modifies this, owner.Keys
      ensures Valid() && fresh(owner.Keys - old(owner.Keys))
      ensures View() == Daemon.Establish(env, old(View()), k)
    {
      hide Valid, View, Daemon.Teardown, Daemon.SendTcp, Daemon.TcpOk, C.Handshake, Daemon.Establish, ComesUp;
      PeekConn(k);
      EstablishIs(env, View(), k);
      Handshake(k);
      PeekConn(k);
      SendKeeps(env, View(), k, ACK, []);
      var ok := SendTcp(env, k, ACK, []);
      PeekConn(k);
      if !ok {
        ConnectionTeardown(env, k);
      } else {
        ComeUp(env, k);
      }
    }

    /** The connection is up and its client is told. */
    method Raise(env: Env, k: nat) returns (told: bool)
      requires Valid() && k in conns
      modifies this, owner.Keys
      ensures Valid() && fresh(owner.Keys - old(owner.Keys)) && k in old(View()).conns
      ensures View() == Raised(env, old(View()), k) && told == !Unheard(env, old(View()), k)
    {
      hide Valid, View, L.Notify;
      PeekConn(k);
      var client := conns[k].client;
      told := true;
      MarkConn(k, C.Connected);
      if client.Some? {
        PeekClient(client.value);
      }
      if client.None? || client.value !in clients {
        CountFault();
      } else {
        told := Notify(client.value, env, RESULT_OK);
      }
    }

    /** The end of the handshake. */
    method ComeUp(env: Env, k: nat)
      requires Valid() && k in conns
      modifies this, owner.Keys
      ensures Valid() && fresh(owner.Keys - old(owner.Keys)) && k in old(View()).conns
      ensures View() == ComesUp(env, old(View()), k)
    {
      hide Valid, View, Daemon.Teardown, Daemon.UpdateConnection, Raised, Unheard;
      var told := Raise(env, k);
      PeekConn(k);
      if !told {
        GiveUp(env, k);
      }
      UpdateConnection(k);
    }

    /** The client could not be told. */
    method GiveUp(env: Env, k: nat)
      requires Valid() && k in conns
      modifies this, owner.Keys
      ensures Valid() && fresh(owner.Keys - old(owner.Keys)) && k in old(View()).conns
      ensures View() == Daemon.Teardown(env, Daemon.SetConn(old(View()), k, old(View()).conns[k].(client := None)), k)
    {
      hide Valid, View, Daemon.Teardown;
      PeekConn(k);
      OrphanConn(k);
      ConnectionTeardown(env, k);
    }

    /** connection_device_input */
    method DeviceInput(env: Env, k: nat, payload: seq<byte>)
      requires Valid() && k in conns
      modifies this, owner.Keys
      ensures Valid() && fresh(owner.Keys - old(owner.Keys))
      ensures View() == Daemon.DeviceInput(env, old(View()), k, payload)
    {
      hide Valid, View, Daemon.Teardown, Daemon.UpdateConnection, C.Accept, C.Overflows;
      PeekConn(k);
      var ok := AcceptPayload(k, payload);
      PeekConn(k);
      if !ok {
        assert View().conns == old(View()).conns;
        ConnectionTeardown(env, k);
      } else {
        UpdateConnection(k);
      }
    }

    /** device_tcp_input on the connection that matched. */
    method SegmentInput(env: Env, k: nat, th: TcpHeader, payload: seq<byte>)
      requires Valid() && k in conns
      modifies this, owner.Keys
      ensures Valid() && fresh(owner.Keys - old(owner.Keys))
      ensures View() == Daemon.Segment(env, old(View()), k, th, payload)
    {
      hide Valid, View, Daemon.Teardown, Daemon.Establish, Daemon.SendTcpAck, Daemon.DeviceInput;
      PeekConn(k);
      ghost var w, noted := View(), C.NoteHeader(View().conns[k], th);
      NoteHeader(k, th);
      PeekConn(k);
      var state := conns[k].state;
      if state.Connecting? && th.flags == SYN_ACK {
        Establish(env, k);
      } else if state.Connected? && th.flags == ACK {
        DeviceInput(env, k, payload);
        SendTcpAck(env, k);
      } else if state.Connecting? || state.Connected? {
        if HasRst(th.flags) {
          MarkConn(k, if state.Connecting? then C.Refused else C.Dying);
          assert w.conns[k := noted][k := View().conns[k]] == w.conns[k := View().conns[k]];
        }
        ConnectionTeardown(env, k);
      }
    }

    /** The search of device_tcp_input. */
    method FindPorts(d: nat, sport: u16, dport: u16) returns (r: Option<nat>)
      requires Valid()
      ensures r == Daemon.FindPorts(View(), d, sport, dport, View().nextConn)
    {
      hide Valid, View;
      Keys();
      var k: nat := nextConn;
      while k > 0
        invariant k <= nextConn
        invariant Daemon.FindPorts(View(), d, sport, dport, View().nextConn) ==
                  Daemon.FindPorts(View(), d, sport, dport, k)
      {
        k := k - 1;
        PeekConn(k);
        if k in conns && conns[k].dev == d && conns[k].sport == sport && conns[k].dport == dport {
          return Some(k);
        }
      }
      r := None;
    }

    /** device_tcp_input */
    method TcpInput(env: Env, d: nat, th: TcpHeader, payload: seq<byte>)
      requires Valid()
      modifies this, owner.Keys
      ensures Valid() && fresh(owner.Keys - old(owner.Keys))
      ensures View() == Daemon.TcpInput(env, old(View()), d, th, payload)
    {
      hide Valid, View, Daemon.Segment, D.SendPacket, TcpBytes;
      PeekDevice(d);
      if d !in devices || !devices[d].state.Active? {
        return;
      }
      var found := FindPorts(d, th.dport, th.sport);
      if found.Some? {
        PeekConn(found.value);
        SegmentInput(env, found.value, th, payload);
      } else if !HasRst(th.flags) {
        var reset := TcpHeader(th.dport, th.sport, 0, th.seqno, RST, 0);
        var ok := SendTo(d, env, Tcp, TcpBytes(reset), []);
      }
    }

    /** device_version_input */
    method VersionInput(d: nat, major: nat)
      requires Valid() && d in devices
      modifies this, owner.Keys
      ensures Valid() && fresh(owner.Keys - old(owner.Keys))
      ensures View() == Daemon.VersionInput(old(View()), d, major)
    {
      hide Valid, View, D.Negotiated;
      PeekDevice(d);
      if !devices[d].state.Starting? {
        return;
      }
      if major != 1 && major != 2 {
        RemoveDevice(d);
      } else {
        NegotiateWith(d, major);
      }
    }

    /** device_data_input once a packet is complete. */
    method PacketInput(env: Env, d: nat, pkt: seq<byte>)
      requires Valid() && d in devices && |pkt| >= 8
      modifies this, owner.Keys
      ensures Valid() && fresh(owner.Keys - old(owner.Keys))
      ensures View() == Daemon.PacketInput(env, old(View()), d, pkt)
    {
      hide Valid, View, Parse, Daemon.TcpInput, Daemon.VersionInput, SeenField;
      PeekDevice(d);
      var version := devices[d].version;
      if version >= 2 && |pkt| >= 16 {
        NoteSeen(d, SeenField(pkt));
        PeekDevice(d);
      }
      match Parse(version, pkt) {
        case VersionIn(major) => VersionInput(d, major);
        case TcpIn(th, payload) => TcpInput(env, d, th, payload);
        case _ =>
      }
    }

    /** device_data_input */
    method DataInput(env: Env, d: nat, chunk: seq<byte>)
      requires Valid() && (d in View().devices && View().devices[d].buf == [] ==> chunk == [] || |chunk| >= 8)
      modifies this, owner.Keys
      ensures Valid() && fresh(owner.Keys - old(owner.Keys))
      ensures View() == Daemon.DataInput(env, old(View()), d, chunk)
    {
      hide Valid, View, Gather, Daemon.PacketInput;
      PeekDevice(d);
      if d in devices {
        var packet := GatherFor(d, chunk);
        PeekDevice(d);
        if packet.Some? {
          PacketInput(env, d, packet.value);
        }
      }
    }

    // ---- Devices come and go ----

    method SetCounters(next: nat, now: nat)
      requires Valid()
      modifies this`nextDevice, this`clock
      ensures Valid() && View() == old(View()).(nextDevice := next, clock := now)
    {
      hide ConnsHere, ClientsHere, DevicesHere, Conns, Clients, Devices;
      nextDevice, clock := next, now;
      ConnsSame(OfClient(0));
      ClientsSame(OfConn(0));
      DevicesSame(OfConn(0));
    }

    /** device_add */
    method DeviceAdd(env: Env, info: seq<byte>)
      requires Valid()
      modifies this, owner.Keys
      ensures Valid() && fresh(owner.Keys - old(owner.Keys))
      ensures View() == Daemon.DeviceAdd(env, old(View()), info)
    {
      hide Valid, View, D.SendPacket, VersionBytes;
      Keys();
      var dev := new MuxDevice(info);
      var packet := dev.SendPacket(Version, VersionBytes(2, 0), []);
      if packet.Some? && env.usbOk(nextDevice, 0) {
        AddDevice(dev);
        Keys();
      }
      SetCounters(nextDevice + 1, clock);
    }

    /** The loops of client_device_add, client_device_remove and client_device_paired over the listening clients. */
    method TellListeners(env: Env, body: Body)
      requires Valid()
      modifies this, owner.Keys
      ensures Valid() && fresh(owner.Keys - old(owner.Keys))
      ensures View() == Daemon.TellListeners(env, old(View()), body)
    {
      hide Valid, View, L.Enqueue, TellSome, Daemon.TellListeners;
      ghost var w := View();
      var todo := clients.Keys;
      Keys();
      TellAll(env, w, body);
      while todo != {}
        invariant Valid() && fresh(owner.Keys - old(owner.Keys))
        invariant todo <= w.clients.Keys && View() == TellSome(env, w, body, todo)
        decreases todo
      {
        var c :| c in todo;
        TellOne(env, w, body, todo, c);
        PeekClient(c);
        if clients[c].state.Listening? {
          Say(c, env, 0, body);
        }
        todo := todo - {c};
      }
      TellNone(env, w, body);
    }

    /** client_device_add */
    method Announce(env: Env, d: nat, info: seq<byte>)
      requires Valid()
      modifies this, owner.Keys
      ensures Valid() && fresh(owner.Keys - old(owner.Keys))
      ensures View() == Daemon.Announce(env, old(View()), d, info)
    {
      hide Valid, View, Daemon.TellListeners;
      PeekDevice(d);
      if d in devices {
        ShowDevice(d);
      }
      TellListeners(env, Attached(d, info));
    }

    /** The loop of device_remove over the connections of a device. */
    method TeardownAll(env: Env, d: nat)
      requires Valid()
      modifies this, owner.Keys
      ensures Valid() && fresh(owner.Keys - old(owner.Keys))
      ensures View() == Daemon.TeardownAll(env, old(View()), d, old(View()).nextConn)
    {
      hide Valid, View, Daemon.Teardown;
      Keys();
      ghost var w := View();
      var k, n := 0, nextConn;
      while k < n
        invariant k <= n
        invariant Valid() && fresh(owner.Keys - old(owner.Keys))
        invariant View() == Daemon.TeardownAll(env, w, d, k)
      {
        PeekConn(k);
        if k in conns && conns[k].dev == d {
          ConnectionTeardown(env, k);
        }
        k := k + 1;
      }
    }

    /** device_remove */
    method DeviceRemove(env: Env, d: nat)
      requires Valid()
      modifies this, owner.Keys
      ensures Valid() && fresh(owner.Keys - old(owner.Keys))
      ensures View() == Daemon.DeviceRemove(env, old(View()), d)
      ensures d in old(devices) ==> Gone(OfDevice(d))
    {
      hide Valid, View, Daemon.TeardownAll, Daemon.TellListeners;
      PeekDevice(d);
      if d !in devices {
        return;
      }
      if devices[d].state.Active? {
        MarkDevice(d, D.Removed);
        TeardownAll(env, d);
        TellListeners(env, Detached(d));
      }
      RemoveDevice(d);
    }

    // ---- Timers ----

    /** device_get_timeout */
    method GetTimeout() returns (d: nat)
      requires Valid() && ClockSane(View()) && forall k :: k in View().conns ==> k < View().nextConn
      ensures Announces(View(), d)
    {
      hide Valid, View;
      Keys();
      ghost var w := View();
      var oldest := NEVER;
      ghost var first := 0;
      var k: nat := 0;
      while k < nextConn
        invariant k <= nextConn
        invariant oldest == NEVER ==> forall j: nat :: j < k ==> !AckDue(w, j)
        invariant oldest != NEVER ==> AckDue(w, first) && w.conns[first].lastAck == oldest
        invariant forall j: nat :: j < k && AckDue(w, j) ==> oldest <= w.conns[j].lastAck
      {
        PeekConn(k);
        if k in conns {
          PeekDevice(conns[k].dev);
          if conns[k].dev in devices && devices[conns[k].dev].state.Active? && conns[k].state.Connected?
             && conns[k].ackPending && conns[k].lastAck < oldest {
            oldest, first := conns[k].lastAck, k;
          }
        }
        k := k + 1;
      }
      if oldest == NEVER {
        d := IDLE_TIMEOUT;
      } else if clock - oldest > Daemon.ACK_TIMEOUT {
        d := 0;
      } else {
        d := Daemon.ACK_TIMEOUT - (clock - oldest);
      }
    }

    /** device_check_timeouts */
    method CheckTimeouts(env: Env)
      requires Valid()
      modifies this, owner.Keys
      ensures Valid() && fresh(owner.Keys - old(owner.Keys))
      ensures View() == Daemon.CheckTimeouts(env, old(View()), old(View()).nextConn)
    {
      hide Valid, View, Daemon.SendTcpAck;
      Keys();
      ghost var w := View();
      var k, n := 0, nextConn;
      while k < n
        invariant k <= n
        invariant Valid() && fresh(owner.Keys - old(owner.Keys))
        invariant View() == Daemon.CheckTimeouts(env, w, k)
      {
        PeekConn(k);
        if k in conns {
          PeekDevice(conns[k].dev);
          Keys();
          if conns[k].dev in devices && devices[conns[k].dev].state.Active? && conns[k].state.Connected?
             && conns[k].ackPending && clock - conns[k].lastAck > Daemon.ACK_TIMEOUT {
            SendTcpAck(env, k);
          }
        }
        k := k + 1;
      }
    }

    // ---- Commands from clients ----

    /** collection_count of a device's connections. */
    method CountConns(d: nat) returns (n: nat)
      requires Valid()
      ensures n == |Daemon.ConnsOf(View(), d)|
    {
      hide Valid, View, Daemon.ConnsOf;
      Keys();
      n := 0;
      var todo := conns.Keys;
      ghost var all := Daemon.ConnsOf(View(), d);
      NoneCounted(View(), d);
      while todo != {}
        invariant todo <= conns.Keys && n == |all - todo|
        decreases todo
      {
        var k :| k in todo;
        PeekConn(k);
        InConnsOf(View(), d, k);
        OneLess(all, todo, k);
        if conns[k].dev == d {
          n := n + 1;
        }
        todo := todo - {k};
      }
      assert all - {} == all;
    }

    /** The inner loop of find_sport. */
    method PortTaken(d: nat, p: u16) returns (taken: bool)
      requires Valid()
      ensures taken <==> p in Daemon.PortsOf(View(), d)
    {
      hide Valid, View;
      Keys();
      taken := false;
      var todo := conns.Keys;
      while todo != {} && !taken
        invariant todo <= conns.Keys
        invariant taken ==> p in Daemon.PortsOf(View(), d)
        invariant forall k :: k in Daemon.ConnsOf(View(), d) && k !in todo ==> taken || View().conns[k].sport != p
        decreases todo
      {
        var k :| k in todo;
        PeekConn(k);
        if conns[k].dev == d && conns[k].sport == p {
          assert k in Daemon.ConnsOf(View(), d);
          taken := true;
        }
        todo := todo - {k};
      }
    }

    /** The outer loop of find_sport: it ends because the cursor comes nearer to a free port with every turn. */
    method SearchPort(d: nat, start: u16) returns (next: u16)
      requires Valid() && |Daemon.PortsOf(View(), d)| < Ports.MAX_CONNECTIONS
      ensures next == Ports.FreeFrom(start, Daemon.PortsOf(View(), d), Ports.SomeFree(Daemon.PortsOf(View(), d), 0))
    {
      hide Valid, View, Daemon.PortsOf;
      next := start;
      ghost var used := Daemon.PortsOf(View(), d);
      ghost var free := Ports.SomeFree(used, 0);
      var taken := PortTaken(d, next);
      while taken
        invariant taken <==> next in used
        invariant Ports.FreeFrom(next, used, free) == Ports.FreeFrom(start, used, free)
        decreases Ports.Distance(next, free)
      {
        next := Ports.Next(next);
        taken := PortTaken(d, next);
      }
    }

    /** find_sport */
    method FindSport(d: nat) returns (p: u16)
      requires Valid() && d in devices
      modifies this, owner.Keys
      ensures Valid() && fresh(owner.Keys - old(owner.Keys))
      ensures owner == old(owner) && d in old(View()).devices
      ensures
        var a := Daemon.FindSport(old(View()), d);
        p == a.port && View() == Daemon.SetDevice(old(View()), d, old(View()).devices[d].(nextSport := a.next))
    {
      hide Valid, View, Daemon.PortsOf, Daemon.ConnsOf;
      PeekDevice(d);
      var next := devices[d].nextSport;
      var count := CountConns(d);
      PortsBound(View(), d);
      if count >= Ports.MAX_CONNECTIONS {
        p := 0;
      } else {
        p := SearchPort(d, next);
        next := Ports.Next(p);
      }
      MoveCursor(d, next);
    }

    /** device_start_connect */
    method StartConnect(env: Env, d: nat, port: u16, c: nat) returns (code: u32)
      requires Valid()
      modifies this, owner.Keys
      ensures Valid() && fresh(owner.Keys - old(owner.Keys))
      ensures code == Daemon.ConnectCode(env, old(View()), d)
      ensures View() == Daemon.StartConnect(env, old(View()), d, port, c)
    {
      hide Valid, View, Daemon.FindSport, D.SendPacket, D.SendOk, TcpBytes, C.SendTcp, C.NewConn, Daemon.StartConnect;
      PeekDevice(d);
      StartIs(env, View(), d, port, c);
      if d !in devices {
        return RESULT_BADDEV;
      }
      var sport := FindSport(d);
      if sport == 0 {
        return RESULT_BADDEV;
      }
      PeekDevice(d);
      var ok := OpenConn(env, d, c, sport, port);
      code := if ok then RESULT_OK else RESULT_CONNREFUSED;
    }

    /** A new connection, which joins the list once its SYN has been sent. */
    method OpenConn(env: Env, d: nat, c: nat, sport: u16, dport: u16) returns (ok: bool)
      requires Valid() && d in devices
      modifies this, owner.Keys
      ensures Valid() && fresh(owner.Keys - old(owner.Keys))
      ensures d in old(View()).devices && ok == D.SendOk(env, d, old(View()).devices[d], 20, 0)
      ensures
        var w, kn := old(View()), C.NewConn(d, c, sport, dport, |old(View()).devices[d].h.wire|);
        var th := TcpHeader(sport, dport, 0, 0, SYN, C.TX_WIN / 256);
        var sent := Daemon.SetDevice(w, d, D.SendPacket(w.devices[d], Tcp, TcpBytes(th), []));
        View() ==
          if ok then Daemon.SetConn(sent, w.nextConn,
              C.SendTcp(kn, SYN, [], true, w.clock)).(nextConn := w.nextConn + 1)
          else sent
    {
      hide Valid, View, D.SendPacket, D.SendOk, TcpBytes, C.SendTcp, C.NewConn, MuxConnection.Valid;
      PeekDevice(d);
      var kn := new MuxConnection(d, c, sport, dport, |View().devices[d].h.wire|);
      var th := TcpHeader(sport, dport, 0, 0, SYN, C.TX_WIN / 256);
      ok := SendTo(d, env, Tcp, TcpBytes(th), []);
      Keys();
      if ok {
        var sent := kn.SendTcp(SYN, [], true, clock);
        AddConn(kn);
      }
    }

    /** device_get_list(0) */
    method ListDevices() returns (list: seq<Listed>)
      requires Valid()
      ensures list == Daemon.ListDevices(View(), View().nextDevice)
    {
      hide Valid, View;
      Keys();
      list := [];
      var d: nat := 0;
      while d < nextDevice
        invariant d <= nextDevice && list == Daemon.ListDevices(View(), d)
      {
        PeekDevice(d);
        if d in devices && devices[d].state.Active? && devices[d].visible {
          list := list + [Listed(d, devices[d].info)];
        }
        d := d + 1;
      }
    }

    /** The loop of start_listen. */
    method StartListen(env: Env, c: nat)
      requires Valid() && c in clients
      modifies this, owner.Keys
      ensures Valid() && fresh(owner.Keys - old(owner.Keys))
      ensures c in old(View()).clients
      ensures
        var w := old(View());
        View() == Daemon.SetClient(w, c, Daemon.AttachAll(env, w, w.clients[c].(state := L.Listening), w.nextDevice))
    {
      hide Valid, View, L.Enqueue, Daemon.IsVisible;
      Keys();
      PeekClient(c);
      ghost var w, cl := View(), View().clients[c].(state := L.Listening);
      var d, n := 0, nextDevice;
      MarkClient(c, L.Listening);
      while d < n
        invariant d <= n
        invariant Valid() && fresh(owner.Keys - old(owner.Keys))
        invariant View() == Daemon.SetClient(w, c, Daemon.AttachAll(env, w, cl, d))
      {
        PeekClient(c);
        var seen := IsVisible(d);
        SameVisible(w, View(), d);
        if seen {
          PeekDevice(d);
          VisibleIsListed(w, d);
          Say(c, env, 0, Attached(d, devices[d].info));
          Twice(w, c, Daemon.AttachAll(env, w, cl, d), Daemon.AttachAll(env, w, cl, d + 1));
        }
        d := d + 1;
      }
    }

    method IsVisible(d: nat) returns (b: bool)
      requires Valid()
      ensures b == Daemon.IsVisible(View(), d)
    {
      hide Valid, View;
      PeekDevice(d);
      b := d in devices && devices[d].state.Active? && devices[d].visible;
    }

    /** client_device_paired, for a pair record that was saved. */
    method TellPaired(env: Env, paired: Option<nat>)
      requires Valid()
      modifies this, owner.Keys
      ensures Valid() && fresh(owner.Keys - old(owner.Keys))
      ensures View() == Daemon.TellPaired(env, old(View()), paired)
    {
      hide Valid, View, Daemon.TellListeners;
      if paired.Some? {
        PeekDevice(paired.value);
        if paired.value in devices && devices[paired.value].state.Active? {
          TellListeners(env, Body.Paired(paired.value));
        }
      }
    }

    /** handle_command in the state CLIENT_COMMAND. */
    method Obey(env: Env, c: nat, m: Raw, o: Outside)
      requires Valid() && c in clients && c in View().clients && View().clients[c].state.Commanding?
      modifies this, owner.Keys
      ensures Valid() && fresh(owner.Keys - old(owner.Keys))
      ensures View() == Daemon.Obey(env, old(View()), c, old(View()).clients[c], m, o)
    {
      hide Valid, View, L.Interpret, L.Named, L.Enqueue, Daemon.StartConnect, Daemon.ConnectCode, Daemon.AttachAll;
      hide Daemon.ListDevices, Daemon.TellPaired;
      ghost var w := View();
      match L.Interpret(env, m) {
        case Silent => Twice(w, c, w.clients[c], w.clients[c]);
        case Refuse(code) => Say(c, env, m.tag, Result(code));
        case Answer => Answer(env, c, m.tag, o);
        case ListDevices =>
          var list := ListDevices();
          Say(c, env, m.tag, DeviceList(list));
        case Listen => Listen(env, c, m.tag);
        case Connect => Connect(env, c, m, o.stale);
      }
    }

    /** The commands that are answered with a document or a code. */
    method Answer(env: Env, c: nat, tag: u32, o: Outside)
      requires Valid() && c in clients && c in View().clients && !View().clients[c].state.Listening?
      modifies this, owner.Keys
      ensures Valid() && fresh(owner.Keys - old(owner.Keys))
      ensures
        var w := old(View());
        View() == Daemon.SetClient(Daemon.TellPaired(env, w, o.paired), c, L.Enqueue(env, w.clients[c], tag, o.answer))
    {
      hide Valid, View, L.Enqueue, Daemon.TellPaired;
      PairedFrame(env, View(), o.paired, c);
      TellPaired(env, o.paired);
      PeekClient(c);
      Say(c, env, tag, o.answer);
    }

    /** The Listen command. */
    method Listen(env: Env, c: nat, tag: u32)
      requires Valid() && c in clients
      modifies this, owner.Keys
      ensures Valid() && fresh(owner.Keys - old(owner.Keys))
      ensures c in old(View()).clients
      ensures
        var w := old(View());
        var told := L.Enqueue(env, w.clients[c], tag, Result(RESULT_OK));
        View() == Daemon.SetClient(w, c, Daemon.AttachAll(env, w, told.(state := L.Listening), w.nextDevice))
    {
      hide Valid, View, L.Enqueue, Daemon.AttachAll;
      ghost var w := View();
      PeekClient(c);
      Say(c, env, tag, Result(RESULT_OK));
      ListenFrame(env, w, c, L.Enqueue(env, w.clients[c], tag, Result(RESULT_OK)));
      PeekClient(c);
      StartListen(env, c);
    }

    /** The Connect command. */
    method Connect(env: Env, c: nat, m: Raw, stale: Leftover)
      requires Valid() && c in clients && L.Interpret(env, m).Connect?
      modifies this, owner.Keys
      ensures Valid() && fresh(owner.Keys - old(owner.Keys))
      ensures
        c in old(View()).clients &&
        forall o: Outside :: o.stale == stale ==>
            View() == Daemon.Obey(env, old(View()), c, old(View()).clients[c], m, o)
    {
      hide Valid, View, L.Interpret, L.Named, L.Enqueue, Daemon.StartConnect, Daemon.ConnectCode;
      ghost var w := View();
      PeekClient(c);
      var to := L.Named(env, m, stale);
      StartFrame(env, w, to.dev, to.port, c);
      var code := StartConnect(env, to.dev, to.port, c);
      PeekClient(c);
      if code != RESULT_OK {
        Say(c, env, m.tag, Result(code));
      } else {
        BeginConnect(c, m.tag, to.dev, w.nextConn);
      }
    }

    /** handle_command */
    method HandleCommand(env: Env, c: nat, m: Raw, o: Outside)
      requires Valid() && c in clients
      modifies this, owner.Keys
      ensures Valid() && fresh(owner.Keys - old(owner.Keys))
      ensures c in old(View()).clients
      ensures View() == Daemon.HandleCommand(env, old(View()), c, old(View()).clients[c], m, o)
    {
      hide Valid, View, L.Enqueue, Daemon.Obey, Daemon.ClientClose;
      ghost var w := View();
      PeekClient(c);
      if !clients[c].state.Commanding? {
        Say(c, env, m.tag, Result(RESULT_BADCOMMAND));
        ClientClose(env, c);
      } else {
        ObeyFrame(env, w, c, L.Spoken(w.clients[c], m), m, o);
        if L.IsPlist(m) {
          SpeakPlist(c);
        } else {
          Twice(w, c, w.clients[c], w.clients[c]);
        }
        PeekClient(c);
        Obey(env, c, m, o);
      }
    }

    /** input_buffer_process */
    method Readable(env: Env, c: nat, got: seq<byte>, o: Outside)
      requires Valid()
      modifies this, owner.Keys
      ensures Valid() && fresh(owner.Keys - old(owner.Keys))
      ensures View() == Daemon.Readable(env, old(View()), c, got, o)
    {
      hide Valid, View, Daemon.HandleCommand, Daemon.ClientClose, Need, Receive, Decode, L.Commanded, L.Buffered;
      hide L.Spoilt;
      ghost var w := View();
      PeekClient(c);
      if c !in clients {
        return;
      }
      if !(0 < |got| <= Need(clients[c].ibBuf[..clients[c].ibSize])) {
        ClientClose(env, c);
        return;
      }
      var r := Input(c, got);
      PeekClient(c);
      match r {
        case Partial(ib) =>
        case BadLength => ClientClose(env, c);
        case Command(msg) =>
          WholeDecodes(msg);
          HandleFrame(env, w, c, L.Commanded(w.clients[c], got, msg), Decode(msg).value, o);
          HandleCommand(env, c, Decode(msg).value, o);
          PeekClient(c);
          if c !in clients {
            CountFault();
          }
      }
    }

    /** output_buffer_process */
    method Writable(env: Env, c: nat, n: nat)
      requires Valid()
      modifies this, owner.Keys
      ensures Valid() && fresh(owner.Keys - old(owner.Keys))
      ensures View() == Daemon.Writable(env, old(View()), c, n)
    {
      hide Valid, View, Daemon.ClientClose, L.Sent;
      PeekClient(c);
      if c !in clients {
        return;
      }
      if clients[c].obSize == 0 {
        StopOutput(c);
      } else if !(0 < n <= clients[c].obSize) {
        ClientClose(env, c);
      } else {
        Output(c, n);
      }
    }

    // ---- The main loop ----

    /** One event. */
    method Step(env: Env, t: Daemon.Timed)
      requires Valid() && Daemon.Possible(env, View(), t)
      modifies this, owner.Keys
      ensures Valid() && fresh(owner.Keys - old(owner.Keys))
      ensures View() == Daemon.Step(env, old(View()), t)
    {
      hide Valid, View, Daemon.Readable, Daemon.Writable, Daemon.ClientProcess, Daemon.DeviceAdd, Daemon.DataInput;
      hide Daemon.Announce, Daemon.DeviceRemove, Daemon.CheckTimeouts, Daemon.ConnectsToActive, L.NEW_CLIENT;
      Keys();
      SetCounters(nextDevice, t.now);
      match t.event {
        case Accept => Accept();
        case ClientReadable(c, got, o) => Readable(env, c, got, o);
        case ClientWritable(c, n) => Writable(env, c, n);
        case ClientServed(c, io) =>
          PeekClient(c);
          if c in clients {
            ClientProcess(env, clients[c].connectDev, c, io);
          }
        case Attach(info) => DeviceAdd(env, info);
        case Transfer(d, chunk) => DataInput(env, d, chunk);
        case Show(d, info) => Announce(env, d, info);
        case Detach(d) => DeviceRemove(env, d);
        case Tick => CheckTimeouts(env);
      }
    }

    /** The main loop on a new daemon: the objects show the state that the run ends in. */
    method Run(env: Env, ts: seq<Daemon.Timed>)
      requires Valid() && View() == Daemon.START && Daemon.PossibleRun(env, ts)
      modifies this, owner.Keys
      ensures Valid() && fresh(owner.Keys - old(owner.Keys))
      ensures View() == Daemon.Run(env, ts)
    {
      hide Valid, View, Daemon.Step, Daemon.Possible;
      var i := 0;
      while i < |ts|
        invariant i <= |ts|
        invariant Valid() && fresh(owner.Keys - old(owner.Keys))
        invariant View() == Daemon.Run(env, ts[..i])
      {
        PrefixPossible(env, ts, i + 1);
        assert ts[..i + 1][..i] == ts[..i];
        Step(env, ts[i]);
        i := i + 1;
      }
      assert ts[..i] == ts;
    }
  }
}
