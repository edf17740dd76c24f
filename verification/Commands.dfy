/** What each command of a client does (handle_command, src/client.c:641-873), told from the message itself. */
module Commands {
  import opened Basics
  import opened MuxPacket
  import opened ClientMessage
  import opened CommandFraming
  import opened Environment
  import opened Daemon
  import opened Invariant
  import opened ClientSteps
  import opened Reachable
  import opened Theorems
  import Ports
  import Shapes
  import L = Client
  import D = Device

  /** These bytes complete message m of client c, which is waiting for a command. */
  predicate Completes(w: World, c: nat, got: seq<byte>, m: Raw)
  {
    && c in w.clients && w.clients[c].state.Commanding? && 0 < |got| <= Need(w.clients[c].ib)
    && Receive(w.clients[c].ib, got).Command? && Decode(Receive(w.clients[c].ib, got).msg) == Some(m)
  }

  predicate Understood(m: Raw) { m.version == 0 || m.version == 1 }

  /** A plist command of this meaning. */
  predicate Asks(env: Env, m: Raw, r: Request) { Understood(m) && m.kind == 8 && env.plist(m.payload) == r }

  function After(env: Env, w: World, now: nat, c: nat, got: seq<byte>, o: Outside): World
  {
    Step(env, w, Timed(now, ClientReadable(c, got, o)))
  }

  /** The form of the replies from this command on: plists once the client has sent one. */
  function Form(cl: L.Client, m: Raw): u32 { if Understood(m) && m.kind == 8 then 1 else cl.proto }

  /** Nothing but this client's record and the devices' counters can have changed. */
  predicate OnlyClient(w: World, w': World, c: nat)
  {
    && c in w.clients && c in w'.clients && w'.clients - {c} == w.clients - {c}
    && w'.conns == w.conns && w'.nextConn == w.nextConn && w'.devices.Keys == w.devices.Keys
  }

  /** The command is answered with this one message and the client may send the next. */
  predicate AnsweredWith(w: World, w': World, c: nat, m: Raw, body: Body)
  {
    && OnlyClient(w, w', c) && w'.clients[c].state.Commanding?
    && w'.clients[c].h.msgs == w.clients[c].h.msgs + [Msg(Form(w.clients[c], m), m.tag, body)]
  }

  /** The step hands the message to handle_command, which finds this record of the client. */
  lemma IsObeyed(env: Env, w: World, now: nat, c: nat, got: seq<byte>, o: Outside, m: Raw) returns (cl: L.Client)
    requires Completes(w, c, got, m)
    ensures c in w.clients && cl.h == w.clients[c].h.(received := cl.h.received, cmds := cl.h.cmds)
    ensures cl == w.clients[c].(ib := [], proto := Form(w.clients[c], m), h := cl.h) && cl.state.Commanding?
    ensures After(env, w, now, c, got, o) == Obey(env, w.(clock := now), c, cl, m, o)
  {
    hide Need, Receive, Decode, Obey;
    var w1 := w.(clock := now);
    cl := L.Spoken(L.Commanded(w.clients[c], got, Receive(w.clients[c].ib, got).msg), m);
    ClientStays(env, w1, c, cl, m, o);
  }

  /** The record is all that changes. */
  lemma RecordOnly(w: World, now: nat, c: nat, cl: L.Client)
    requires c in w.clients
    ensures OnlyClient(w, SetClient(w.(clock := now), c, cl), c)
  {
    assert w.clients[c := cl] - {c} == w.clients - {c};
  }

  lemma ClientStays(env: Env, w: World, c: nat, cl: L.Client, m: Raw, o: Outside)
    ensures c in Obey(env, w, c, cl, m, o).clients
  {
    hide AttachAll, StartConnect, ConnectCode, L.Interpret, L.Named, ListDevices, TellPaired, L.Enqueue;
  }

  // ---- Refusals ----

  lemma BadVersionIsRefused(env: Env, w: World, now: nat, c: nat, got: seq<byte>, o: Outside, m: Raw)
    requires Completes(w, c, got, m) && m.version != 0 && m.version != 1
    ensures AnsweredWith(w, After(env, w, now, c, got, o), c, m, Result(6))
  {
    hide Completes, After, Encode, Wire;
    var cl := IsObeyed(env, w, now, c, got, o, m);
    RecordOnly(w, now, c, L.Enqueue(env, cl, m.tag, Result(6)));
  }

  /** An unknown type of message, and a plist that names no known command. */
  lemma UnknownIsRefused(env: Env, w: World, now: nat, c: nat, got: seq<byte>, o: Outside, m: Raw)
    requires Completes(w, c, got, m) && Understood(m)
    requires (m.kind != 2 && m.kind != 3 && m.kind != 8) || Asks(env, m, UnknownRequest)
    ensures AnsweredWith(w, After(env, w, now, c, got, o), c, m, Result(1))
  {
    hide Completes, After, Encode, Wire;
    var cl := IsObeyed(env, w, now, c, got, o, m);
    RecordOnly(w, now, c, L.Enqueue(env, cl, m.tag, Result(1)));
  }

  /** A plist Connect that does not say which device, or which port. */
  lemma VagueConnectIsRefused(env: Env, w: World, now: nat, c: nat, got: seq<byte>, o: Outside, m: Raw,
                              dev: Option<u32>, port: Option<u16>)
    requires Completes(w, c, got, m) && Asks(env, m, ConnectRequest(dev, port)) && (dev.None? || port.None?)
    ensures AnsweredWith(w, After(env, w, now, c, got, o), c, m, Result(if dev.None? then 2 else 1))
  {
    hide Completes, After, Encode, Wire;
    var cl := IsObeyed(env, w, now, c, got, o, m);
    RecordOnly(w, now, c, L.Enqueue(env, cl, m.tag, Result(if dev.None? then 2 else 1)));
  }

  /** A plist that cannot be parsed is not answered. */
  lemma MalformedIsIgnored(env: Env, w: World, now: nat, c: nat, got: seq<byte>, o: Outside, m: Raw)
    requires Completes(w, c, got, m) && Asks(env, m, Malformed)
    ensures
      var w' := After(env, w, now, c, got, o);
      && OnlyClient(w, w', c) && w'.clients[c].state.Commanding?
      && w'.clients[c].h.msgs == w.clients[c].h.msgs && w'.clients[c].ob == w.clients[c].ob
  {
    hide Completes, After;
    var cl := IsObeyed(env, w, now, c, got, o, m);
    RecordOnly(w, now, c, cl);
  }

  // ---- Questions ----

  /** A query is answered with what it is told from outside. If a pair record was saved for a device that has come up,
      every listener hears of it, and nobody hears anything otherwise. */
  lemma QueryIsAnswered(env: Env, w: World, now: nat, c: nat, got: seq<byte>, o: Outside, m: Raw)
    requires Completes(w, c, got, m) && Asks(env, m, Query)
    ensures
      var w' := After(env, w, now, c, got, o);
      && c in w'.clients && w'.clients[c].state.Commanding? && w'.conns == w.conns && w'.devices == w.devices
      && w'.clients[c].h.msgs == w.clients[c].h.msgs + [Msg(1, m.tag, o.answer)]
      && forall x :: x in w.clients && x != c ==>
           && x in w'.clients && w'.clients[x].state == w.clients[x].state
           && w'.clients[x].h.msgs == w.clients[x].h.msgs +
                (if w.clients[x].state.Listening? && o.paired.Some? && o.paired.value in w.devices
                    && w.devices[o.paired.value].state.Active?
                 then [Msg(w.clients[x].proto, 0, Body.Paired(o.paired.value))] else [])
  {
    hide Completes, After, Encode, Wire;
    var cl := IsObeyed(env, w, now, c, got, o, m);
  }

  lemma DevicesAreListed(env: Env, w: World, now: nat, c: nat, got: seq<byte>, o: Outside, m: Raw)
    returns (l: seq<Listed>)
    requires Completes(w, c, got, m) && Asks(env, m, DeviceListRequest)
    ensures Lists(w, l, w.nextDevice) && AnsweredWith(w, After(env, w, now, c, got, o), c, m, DeviceList(l))
  {
    hide Completes, After, Encode, Wire, ListDevices, Lists;
    var cl := IsObeyed(env, w, now, c, got, o, m);
    l := ListDevices(w, w.nextDevice);
    ListIsExact(w, w.nextDevice);
    Shapes.ListAfter(w, w.(clock := now), w.nextDevice);
    RecordOnly(w, now, c, L.Enqueue(env, cl, m.tag, DeviceList(l)));
  }

  /** In a reachable state no visible device is missing from such a list. */
  lemma NoneIsMissing(env: Env, ts: seq<Timed>, l: seq<Listed>)
    requires PossibleRun(env, ts) && Lists(Run(env, ts), l, Run(env, ts).nextDevice)
    ensures forall d :: d in VisibleDevices(Run(env, ts)) ==> exists i :: 0 <= i < |l| && l[i].id == d
  {
    hide Run, PossibleRun, Inv, Settled;
    RunKeeps(env, ts);
    VisibleBelowNext(env, Run(env, ts));
  }

  // ---- Listen ----

  /** The notices for a list of devices. */
  function Notices(version: u32, l: seq<Listed>): (ms: seq<Msg>)
    ensures |ms| == |l| && forall i :: 0 <= i < |l| ==> ms[i] == Msg(version, 0, Attached(l[i].id, l[i].info))
  {
    seq(|l|, i requires 0 <= i < |l| => Msg(version, 0, Attached(l[i].id, l[i].info)))
  }

  lemma {:induction false} AttachAllNotifies(env: Env, w: World, cl: L.Client, d: nat)
    ensures
      var cl' := AttachAll(env, w, cl, d);
      && cl'.h.msgs == cl.h.msgs + Notices(cl.proto, ListDevices(w, d))
      && cl'.proto == cl.proto && cl'.state == cl.state
    decreases d
  {
    hide Encode, Wire;
    if d > 0 {
      AttachAllNotifies(env, w, cl, d - 1);
      var before := ListDevices(w, d - 1);
      if IsVisible(w, d - 1) {
        var entry := Listed(d - 1, w.devices[d - 1].info);
        assert Notices(cl.proto, before + [entry]) ==
               Notices(cl.proto, before) + [Msg(cl.proto, 0, Attached(entry.id, entry.info))];
      }
    }
  }

  /** A client that asks to listen, in either form, is told OK and then of exactly the devices that are visible, each
      with its data, in the order they were attached. */
  lemma ListenIsObeyed(env: Env, w: World, now: nat, c: nat, got: seq<byte>, o: Outside, m: Raw)
    returns (l: seq<Listed>)
    requires Completes(w, c, got, m) && Understood(m) && (m.kind == 3 || Asks(env, m, ListenRequest))
    ensures
      var w' := After(env, w, now, c, got, o);
      var v := Form(w.clients[c], m);
      && OnlyClient(w, w', c) && w'.clients[c].state.Listening? && Lists(w, l, w.nextDevice)
      && w'.clients[c].h.msgs == w.clients[c].h.msgs + [Msg(v, m.tag, Result(0))] + Notices(v, l)
  {
    hide Completes, After, Encode, Wire, ListDevices, Lists, AttachAll;
    var cl := IsObeyed(env, w, now, c, got, o, m);
    var w1 := w.(clock := now);
    l := ListDevices(w, w.nextDevice);
    ListIsExact(w, w.nextDevice);
    Shapes.ListAfter(w, w1, w.nextDevice);
    var told := L.Enqueue(env, cl, m.tag, Result(0)).(state := L.Listening);
    AttachAllNotifies(env, w1, told, w.nextDevice);
    RecordOnly(w, now, c, AttachAll(env, w1, told, w.nextDevice));
  }

  // ---- Connect ----

  /** The device and port that a Connect names: the entries of a plist, or the first six bytes of the binary form,
      which are those that an earlier command left behind where the message is too short. */
  predicate ConnectsTo(env: Env, m: Raw, stale: Leftover, d: u32, port: u16)
  {
    Understood(m) &&
    if m.kind == 8 then env.plist(m.payload) == ConnectRequest(Some(d), Some(port))
    else m.kind == 2 && d == UnLE32((m.payload + stale)[0..4]) && port == UnBE16((m.payload + stale)[4..6])
  }

  /** The first source port, cyclically from the device's cursor, that none of its connections uses. */
  ghost predicate FirstFree(w: World, d: nat, p: u16)
    requires d in w.devices
  {
    && (forall k :: k in w.conns && w.conns[k].dev == d ==> w.conns[k].sport != p)
    && (forall q: u16 :: Ports.Distance(w.devices[d].nextSport, q) < Ports.Distance(w.devices[d].nextSport, p) ==>
          exists k :: k in w.conns && w.conns[k].dev == d && w.conns[k].sport == q)
  }

  lemma FirstFreeIsFound(w: World, d: nat, p: u16)
    requires d in w.devices && FirstFree(w, d, p) && |ConnsOf(w, d)| < 65535
    ensures FindSport(w, d).port == p
  {
    ImageSize(w, ConnsOf(w, d));
    forall q: u16 | Ports.Distance(w.devices[d].nextSport, q) < Ports.Distance(w.devices[d].nextSport, p)
      ensures q in PortsOf(w, d)
    {
      var k :| k in w.conns && w.conns[k].dev == d && w.conns[k].sport == q;
      assert k in ConnsOf(w, d);
    }
    assert p !in PortsOf(w, d);
  }

  /** handle_command takes it for a Connect to that device and port. */
  lemma IsConnect(env: Env, m: Raw, stale: Leftover, d: u32, port: u16)
    requires ConnectsTo(env, m, stale, d, port)
    ensures L.Interpret(env, m).Connect? && L.Named(env, m, stale) == L.Target(d, port)
  {
  }

  lemma NoPort(w: World, d: nat)
    requires d in w.devices && (|ConnsOf(w, d)| >= 65535 || FirstFree(w, d, 0))
    ensures FindSport(w, d).port == 0
  {
    if |ConnsOf(w, d)| < 65535 {
      FirstFreeIsFound(w, d, 0);
    }
  }

  /** A Connect that fails is answered with the code that says why. */
  lemma Declined(env: Env, w: World, now: nat, c: nat, got: seq<byte>, o: Outside, m: Raw, d: u32, port: u16, code: u32)
    requires Completes(w, c, got, m) && ConnectsTo(env, m, o.stale, d, port)
    requires code == ConnectCode(env, w.(clock := now), d) && code != 0
    ensures AnsweredWith(w, After(env, w, now, c, got, o), c, m, Result(code))
  {
    hide Completes, After, ConnectsTo, Encode, Wire, StartConnect, ConnectCode;
    var cl := IsObeyed(env, w, now, c, got, o, m);
    IsConnect(env, m, o.stale, d, port);
    var started, told := StartConnect(env, w.(clock := now), d, port, c), L.Enqueue(env, cl, m.tag, Result(code));
    NotStarted(env, w.(clock := now), d, port, c);
    assert started.clients[c := told] - {c} == w.clients - {c};
  }

  lemma NotStarted(env: Env, w: World, d: nat, port: u16, c: nat)
    requires ConnectCode(env, w, d) != 0
    ensures
      var w' := StartConnect(env, w, d, port, c);
      w'.clients == w.clients && w'.conns == w.conns && w'.nextConn == w.nextConn && w'.devices.Keys == w.devices.Keys
  {
    hide FindSport, D.SendPacket, TcpBytes;
  }

  /** There is no such device, or no source port for it: 65535 connections, or a cursor that wraps around to 0. */
  lemma UnattachedIsRefused(env: Env, w: World, now: nat, c: nat, got: seq<byte>, o: Outside, m: Raw, d: u32, port: u16)
    requires Completes(w, c, got, m) && ConnectsTo(env, m, o.stale, d, port)
    requires d !in w.devices || |ConnsOf(w, d)| >= 65535 || FirstFree(w, d, 0)
    ensures AnsweredWith(w, After(env, w, now, c, got, o), c, m, Result(2))
  {
    hide Completes, After, ConnectsTo, FindSport, FirstFree, AnsweredWith;
    if d in w.devices {
      NoPort(w, d);
    }
    SamePort(w, now, d);
    Declined(env, w, now, c, got, o, m, d, port, 2);
  }

  lemma SamePort(w: World, now: nat, d: nat)
    ensures d in w.devices ==> FindSport(w.(clock := now), d) == FindSport(w, d)
  {
    if d in w.devices {
      assert ConnsOf(w.(clock := now), d) == ConnsOf(w, d);
      assert PortsOf(w.(clock := now), d) == PortsOf(w, d);
    }
  }

  /** With a port to use, the request goes to the device; if it cannot be sent, the connection is refused. */
  lemma UnsentIsRefused(env: Env, w: World, now: nat, c: nat, got: seq<byte>, o: Outside, m: Raw, d: u32, port: u16,
                        p: u16)
    requires Completes(w, c, got, m) && ConnectsTo(env, m, o.stale, d, port)
    requires d in w.devices && |ConnsOf(w, d)| < 65535 && FirstFree(w, d, p) && p != 0
    requires !env.usbOk(d, |w.devices[d].h.wire|)
    ensures AnsweredWith(w, After(env, w, now, c, got, o), c, m, Result(3))
  {
    hide Completes, After, ConnectsTo, FindSport, FirstFree, AnsweredWith;
    FirstFreeIsFound(w, d, p);
    SamePort(w, now, d);
    Declined(env, w, now, c, got, o, m, d, port, 3);
  }

  /** Connection k has just been started for client c: it waits for the answer to its SYN. */
  predicate Started(w: World, k: nat, c: nat, d: nat, sport: u16, dport: u16)
  {
    && k in w.conns
    && var kn := w.conns[k];
       && kn.dev == d && kn.client == Some(c) && kn.sport == sport && kn.dport == dport && kn.state.Connecting?
       && |kn.h.tx| == 1
       && var s := kn.h.tx[0];
          s.ok && s.data == [] && s.at == w.clock && s.th == TcpHeader(sport, dport, 0, 0, SYN, 512)
  }

  lemma StartsOne(env: Env, w: World, d: nat, port: u16, c: nat)
    requires ConnectCode(env, w, d) == 0
    ensures
      var w' := StartConnect(env, w, d, port, c);
      && Started(w', w.nextConn, c, d, FindSport(w, d).port, port) && w'.nextConn == w.nextConn + 1
      && w'.conns == w.conns[w.nextConn := w'.conns[w.nextConn]] && w'.clients == w.clients
  {
    hide FindSport, D.SendPacket, TcpBytes;
  }

  /** If it can, a connection to that port of that device is started for the client, which is told nothing yet. */
  lemma ConnectIsObeyed(env: Env, w: World, now: nat, c: nat, got: seq<byte>, o: Outside, m: Raw, d: u32, port: u16,
                        p: u16)
    requires Completes(w, c, got, m) && ConnectsTo(env, m, o.stale, d, port)
    requires d in w.devices && |ConnsOf(w, d)| < 65535 && FirstFree(w, d, p) && p != 0
    requires env.usbOk(d, |w.devices[d].h.wire|)
    ensures
      var w' := After(env, w, now, c, got, o);
      && Started(w', w.nextConn, c, d, p, port) && w'.nextConn == w.nextConn + 1
      && w'.conns == w.conns[w.nextConn := w'.conns[w.nextConn]]
      && c in w'.clients && w'.clients - {c} == w.clients - {c}
      && w'.clients[c].state.Connecting1? && w'.clients[c].h.conn == Some(w.nextConn)
      && w'.clients[c].connectTag == m.tag && w'.clients[c].connectDev == d
      && w'.clients[c].h.msgs == w.clients[c].h.msgs
  {
    hide Completes, After, ConnectsTo, Encode, Wire, FindSport, FirstFree, StartConnect, UnLE32, UnBE16;
    var cl := IsObeyed(env, w, now, c, got, o, m);
    IsConnect(env, m, o.stale, d, port);
    FirstFreeIsFound(w, d, p);
    SamePort(w, now, d);
    var w1 := w.(clock := now);
    StartsOne(env, w1, d, port, c);
    var waits := cl.(connectTag := m.tag, connectDev := d, state := L.Connecting1,
                     h := cl.h.(conn := Some(w.nextConn)));
    assert w.clients[c := waits] - {c} == w.clients - {c};
  }
}
