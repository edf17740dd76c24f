/** Every state the daemon can reach satisfies the invariant. */
module Reachable {
  import opened Basics
  import opened Environment
  import opened Daemon
  import opened Invariant
  import opened Release
  import opened Serving
  import opened DeviceSteps
  import opened ClientSteps
  import L = Client

  lemma ServedKeeps(env: Env, w: World, c: nat, io: SocketResults)
    requires Inv(env, w) && Settled(w) && c in w.clients && w.clients[c].state.Joined?
    ensures
      var w' := ClientProcess(env, w, w.clients[c].connectDev, c, io);
      Inv(env, w') && Settled(w')
  {
    hide Inv, Settled, ProcessWrite, Local, PairOk, L.Single;
    LinkOf(env, w, c);
    var k := w.clients[c].h.conn.value;
    InvWires(env, w, k);
    FindConnIs(w, k, c, w.nextConn);
    ProcessKeeps(env, w, k, c, io);
    LocalSettled(w, ProcessWrite(env, w, k, c, io), k, c, w.conns[k].dev);
  }

  lemma AcceptKeeps(env: Env, w: World)
    requires Inv(env, w) && Settled(w)
    ensures Inv(env, Act(env, w, Event.Accept)) && Settled(Act(env, w, Event.Accept))
  {
    hide Inv;
    ClientAdded(env, w);
    assert VisibleDevices(Act(env, w, Event.Accept)) == VisibleDevices(w);
  }

  lemma StepKeeps(env: Env, w: World, t: Timed)
    requires Inv(env, w) && Settled(w) && Possible(env, w, t)
    ensures Inv(env, Step(env, w, t)) && Settled(Step(env, w, t))
  {
    hide Inv, Settled, ConnectsToActive, Readable, Writable, ClientProcess, DeviceAdd, DataInput, Announce;
    hide DeviceRemove, CheckTimeouts;
    var w1 := w.(clock := t.now);
    ClockAdvanced(env, w, t.now);
    ClockSettled(w, t.now);
    match t.event
    case Accept => AcceptKeeps(env, w1);
    case ClientReadable(c, got, o) =>
      if c in w.clients {
        ActiveFrame(env, w, t.now, c, got, o.stale);
      }
      ReadableKeeps(env, w1, c, got, o);
    case ClientWritable(c, n) => WritableKeeps(env, w1, c, n);
    case ClientServed(c, io) =>
      if c in w.clients {
        ServedKeeps(env, w1, c, io);
      }
    case Attach(info) => AttachKeeps(env, w1, info);
    case Transfer(d, chunk) => DataInputKeeps(env, w1, d, chunk);
    case Show(d, info) => AnnounceKeeps(env, w1, d, info);
    case Detach(d) => DeviceRemoveKeeps(env, w1, d);
    case Tick => CheckTimeoutsKeeps(env, w1, w1.nextConn);
  }

  lemma ClockSettled(w: World, now: nat)
    requires Settled(w)
    ensures Settled(w.(clock := now))
  {
    assert VisibleDevices(w.(clock := now)) == VisibleDevices(w);
  }

  lemma ActiveFrame(env: Env, w: World, now: nat, c: nat, got: seq<byte>, stale: Leftover)
    requires c in w.clients
    ensures ConnectsToActive(env, w.(clock := now), c, got, stale) == ConnectsToActive(env, w, c, got, stale)
  {
  }

  lemma {:induction false} RunKeeps(env: Env, ts: seq<Timed>)
    requires PossibleRun(env, ts)
    ensures Inv(env, Run(env, ts)) && Settled(Run(env, ts))
    decreases |ts|
  {
    if ts != [] {
      hide Inv, Settled, Step, Possible;
      RunKeeps(env, ts[..|ts| - 1]);
      StepKeeps(env, Run(env, ts[..|ts| - 1]), ts[|ts| - 1]);
    } else {
      assert VisibleDevices(START) == {};
    }
  }
}
