/** The daemon composed with a device that respects the window of one connection: the input buffer of that
    connection never overflows. */
module Window {
  import opened Basics
  import opened MuxPacket
  import opened Environment
  import opened Daemon
  import opened Invariant
  import opened Serving
  import opened Reachable
  import opened Projection
  import opened Peer
  import C = Connection

  /** The device's end of the connection and the payloads it has sent that have not arrived. */
  datatype Side = Side(queue: seq<seq<byte>>, seen: nat, nxt: u32, una: u32, wnd: nat)

  datatype System = System(w: World, s: Side)

  function LinkAt(y: System, k: nat): Link
    requires k in y.w.conns
  {
    Link(y.w.conns[k], y.s.queue, y.s.seen, y.s.nxt, y.s.una, y.s.wnd)
  }

  /** Any event of the daemon, or a move of the device. */
  datatype Action = Host(t: Timed) | Emit(payload: seq<byte>) | Absorb

  /** A data segment for the connection arrives in this event. */
  predicate Arrives(w: World, e: Event, k: nat)
  {
    var a := ArrivalOf(w, e);
    a.Arrival? && a.k == k && a.th.flags == ACK
  }

  /** The channel delivers in order, and the device keeps to the window it has been told. */
  predicate Conforms(env: Env, k: nat, y: System, a: Action)
  {
    && k in y.w.conns
    && match a
       case Host(t) =>
         && Possible(env, y.w, t)
         && (Arrives(y.w, t.event, k) ==> y.s.queue != [] && ArrivalOf(y.w, t.event).payload == y.s.queue[0])
       case Emit(p) => Allowed(LinkAt(y, k), DeviceSends(p))
       case Absorb => Allowed(LinkAt(y, k), DeviceReceives)
  }

  function Next(env: Env, k: nat, y: System, a: Action): System
    requires Conforms(env, k, y, a)
  {
    match a
    case Host(t) =>
      System(Step(env, y.w, t), if Arrives(y.w, t.event, k) then y.s.(queue := y.s.queue[1..]) else y.s)
    case Emit(p) => System(y.w, y.s.(queue := y.s.queue + [p], nxt := Add32(y.s.nxt, |p|)))
    case Absorb =>
      var seg := y.w.conns[k].h.tx[y.s.seen];
      System(y.w, y.s.(seen := y.s.seen + 1, una := seg.th.ackno, wnd := seg.th.win * 256))
  }

  predicate Composed(env: Env, k: nat, y: System, acts: seq<Action>)
    decreases |acts|, 0
  {
    acts == [] ||
    (Composed(env, k, y, acts[..|acts| - 1])
        && Conforms(env, k, Compose(env, k, y, acts[..|acts| - 1]), acts[|acts| - 1]))
  }

  function Compose(env: Env, k: nat, y: System, acts: seq<Action>): System
    requires Composed(env, k, y, acts)
    decreases |acts|, 1
  {
    if acts == [] then y else Next(env, k, Compose(env, k, y, acts[..|acts| - 1]), acts[|acts| - 1])
  }

  ghost predicate SystemOk(env: Env, k: nat, y: System, base: nat)
  {
    && Inv(env, y.w) && Settled(y.w)
    && (k in y.w.conns ==> y.w.conns[k].state.Connected? && LinkOk(LinkAt(y, k), base))
  }

  lemma HostStepKeeps(env: Env, k: nat, y: System, t: Timed, base: nat)
    requires SystemOk(env, k, y, base) && Conforms(env, k, y, Host(t))
    ensures SystemOk(env, k, Next(env, k, y, Host(t)), base)
  {
    hide Inv, Settled, Step, Possible, LinkOk, ArrivalOf, C.Received, C.Served, C.Acknowledged, C.Overflows;
    StepKeeps(env, y.w, t);
    var w' := Step(env, y.w, t);
    var l := LinkAt(y, k);
    if k in w'.conns {
      StepMoves(env, y.w, t, k);
      var kn, kn', a := y.w.conns[k], w'.conns[k], ArrivalOf(y.w, t.event);
      if a.Arrival? && a.k == k {
        MoveKeeps(l, HostReceives(a.th), t.now, base);
      } else if kn' != kn {
        if t.event.Tick? {
          MoveKeeps(l, HostAcknowledges, t.now, base);
        } else {
          MoveKeeps(l, HostServes(Written(kn, t.event.io), Taken(kn, t.event.io)), t.now, base);
        }
      }
    }
  }

  lemma {:induction false} ComposeKeeps(env: Env, k: nat, y: System, acts: seq<Action>)
    requires Inv(env, y.w) && Settled(y.w) && k in y.w.conns && Fresh(LinkAt(y, k)) && Composed(env, k, y, acts)
    ensures SystemOk(env, k, Compose(env, k, y, acts), 1)
    decreases |acts|
  {
    if acts == [] {
      FreshIsOk(LinkAt(y, k));
    } else {
      hide Inv, Settled, Fresh, SystemOk, Next, Conforms;
      ComposeKeeps(env, k, y, acts[..|acts| - 1]);
      ActionKeeps(env, k, Compose(env, k, y, acts[..|acts| - 1]), acts[|acts| - 1], 1);
    }
  }

  lemma ActionKeeps(env: Env, k: nat, y: System, a: Action, base: nat)
    requires SystemOk(env, k, y, base) && Conforms(env, k, y, a)
    ensures SystemOk(env, k, Next(env, k, y, a), base)
  {
    hide Inv, Settled, Step, Possible, LinkOk, ArrivalOf;
    match a
    case Host(t) => HostStepKeeps(env, k, y, t, base);
    case Emit(p) => MoveKeeps(LinkAt(y, k), DeviceSends(p), 0, base);
    case Absorb => MoveKeeps(LinkAt(y, k), DeviceReceives, 0, base);
  }

  /** As long as the device keeps its unacknowledged bytes, counted in 32-bit arithmetic, within the window it
      was last told, the input buffer never holds more than that window and the overflow arm cannot be reached:
      for unbounded traffic, across wrap-around, and whatever else the daemon does meanwhile. */
  lemma WindowPreventsOverflow(env: Env, k: nat, y: System, acts: seq<Action>)
    requires Inv(env, y.w) && Settled(y.w) && k in y.w.conns && Fresh(LinkAt(y, k)) && Composed(env, k, y, acts)
    ensures
      var z := Compose(env, k, y, acts);
      k in z.w.conns ==>
        && |z.w.conns[k].ib| <= C.TX_WIN
        && (z.s.queue != [] ==> !C.Overflows(z.w.conns[k], z.s.queue[0]))
  {
    hide Inv, Settled, Fresh, Compose, Composed, LinkOk;
    ComposeKeeps(env, k, y, acts);
    var z := Compose(env, k, y, acts);
    if k in z.w.conns {
      var l := LinkAt(z, k);
      BufferWithinWindow(l, 1);
      if l.queue != [] {
        assert l.queue == [l.queue[0]] + l.queue[1..];
        ConcatCons(l.queue[0], l.queue[1..]);
      }
    }
  }

  /** Such a composition starts whenever a handshake completes: the device has the window of the SYN, nothing it
      sent has been acknowledged, and the acknowledgement of its own SYN is still under way. */
  lemma HandshakeStarts(env: Env, w: World, t: Timed, k: nat)
    requires Inv(env, w) && Settled(w) && Possible(env, w, t)
    requires k in w.conns && w.conns[k].state.Connecting?
    requires k in Step(env, w, t).conns && Step(env, w, t).conns[k].state.Connected?
    ensures
      var w' := Step(env, w, t);
      Fresh(LinkAt(System(w', Side([], 1, 1, 0, C.TX_WIN)), k))
  {
    hide Settled, Step, Possible, PastOk, DevicesOk, PortsDistinct, ClientOk;
    StepMoves(env, w, t, k);
    StepKeeps(env, w, t);
    var w' := Step(env, w, t);
    assert ConnOk(env, w', k);
    hide C.Streams;
  }
}
