/** Delayed acknowledgements: the poll timeout and the check that follows it agree (src/device.c:960-998). */
module Timers {
  import opened Environment
  import opened Daemon
  import opened Invariant
  import opened Release
  import opened DeviceSteps
  import opened Projection
  import C = Connection

  const NEVER := 0xFFFF_FFFF_FFFF_FFFF
  const IDLE_TIMEOUT := 100000

  /** A connection the timer has to look after. */
  predicate AckDue(w: World, k: nat)
  {
    && k in w.conns && w.conns[k].dev in w.devices && w.devices[w.conns[k].dev].state.Active?
    && w.conns[k].state.Connected? && w.conns[k].ackPending
  }

  /** The clock has not reached the value that stands for no time at all, and no stamp lies in the future. */
  predicate ClockSane(w: World)
  {
    w.clock < NEVER && forall k :: k in w.conns ==> w.conns[k].lastAck <= w.clock
  }

  /** What a poll timeout of d promises: nothing is overdue before it ends, something is right after it. */
  ghost predicate Announces(w: World, d: nat)
  {
    if exists k :: AckDue(w, k) then
      && (forall k :: AckDue(w, k) && d > 0 ==> w.clock + d <= w.conns[k].lastAck + 30)
      && (exists k :: AckDue(w, k) && w.conns[k].lastAck + 30 <= w.clock + d)
    else d == 100000
  }

  /** In a reachable state both hold as long as the clock has not reached that value. */
  lemma ReachableIsSane(env: Env, w: World)
    requires Inv(env, w) && w.clock < NEVER
    ensures ClockSane(w) && forall k :: k in w.conns ==> k < w.nextConn
  {
    hide PairOk, ClientsOk, PastOk, PortsDistinct, DevicesOk, Accounted;
    forall k | k in w.conns
      ensures k < w.nextConn && w.conns[k].lastAck <= w.clock
    {
      assert ConnOk(env, w, k);
    }
  }

  /** Until the announced time has passed, a check sends nothing and changes nothing. */
  lemma {:induction false} QuietUntilTimeout(env: Env, w: World, d: nat, later: nat, n: nat)
    requires Announces(w, d) && 0 < d && w.clock <= later <= w.clock + d
    ensures CheckTimeouts(env, w.(clock := later), n) == w.(clock := later)
    decreases n
  {
    hide SendTcpAck;
    if n > 0 {
      QuietUntilTimeout(env, w, d, later, n - 1);
      var w1 := w.(clock := later);
      assert Overdue(w1, n - 1) ==> AckDue(w, n - 1);
    }
  }

  /** Once it has passed, a pending acknowledgement is overdue. */
  lemma DueAfterTimeout(w: World, d: nat)
    requires Announces(w, d) && exists k :: AckDue(w, k)
    ensures
      var late := w.(clock := w.clock + d + 1);
      exists k :: Overdue(late, k)
  {
    var k :| AckDue(w, k) && w.conns[k].lastAck + 30 <= w.clock + d;
    assert Overdue(w.(clock := w.clock + d + 1), k);
  }

  /** After a check nothing is overdue: every late acknowledgement was sent, or its connection torn down. */
  lemma {:induction false} NothingOverdueAfterCheck(env: Env, w: World, n: nat)
    requires Inv(env, w) && Settled(w)
    ensures forall k: nat :: k < n ==> !Overdue(CheckTimeouts(env, w, n), k)
    decreases n
  {
    hide Inv, Settled, Local, SendTcpAck, C.Acknowledged;
    if n > 0 {
      NothingOverdueAfterCheck(env, w, n - 1);
      CheckTimeoutsKeeps(env, w, n - 1);
      var w1 := CheckTimeouts(env, w, n - 1);
      if Overdue(w1, n - 1) {
        TimeoutKeeps(env, w1, n - 1);
        var w2 := SendTcpAck(env, w1, n - 1);
        var c, d := w1.conns[n - 1].client.value, w1.conns[n - 1].dev;
        LocalKeeps(w1, w2, n - 1, c, d);
        LocalClock(w1, w2, n - 1, c, d);
        SettledListeners(w1);
        LocalListeners(w1, w2, n - 1, c, d, VisibleDevices(w1));
        NotPending(w1.conns[n - 1], w1.clock);
        forall k: nat | k < n
          ensures !Overdue(w2, k)
        {
          assert k < n - 1 ==> !Overdue(w1, k);
        }
      }
    }
  }

  lemma NotPending(kn: C.Conn, now: nat)
    ensures !C.Acknowledged(kn, now).ackPending
  {
  }

  lemma SettledListeners(w: World)
    requires Settled(w)
    ensures ListenersSee(w, VisibleDevices(w))
  {
  }

  /** What a check of the connections below n does to one of them: it is left alone unless its acknowledgement is
      overdue; if it is, an ACK goes out or, if the device cannot be sent one, the connection is torn down. */
  ghost predicate TickExact(env: Env, w: World, w': World, k: nat, n: nat)
  {
    k in w.conns ==>
      && (k >= n || !Overdue(w, k) ==> k in w'.conns && w'.conns[k] == w.conns[k])
      && (k < n && Overdue(w, k) && k in w'.conns ==> w'.conns[k] == C.Acknowledged(w.conns[k], w.clock))
      && (k < n && Overdue(w, k) && (forall i: nat :: env.usbOk(w.conns[k].dev, i)) ==> k in w'.conns)
  }

  lemma {:induction false} TicksExactly(env: Env, w: World, n: nat, k: nat)
    requires Inv(env, w) && Settled(w)
    ensures TickExact(env, w, CheckTimeouts(env, w, n), k, n)
    decreases n
  {
    hide Inv, Settled, Local, SendTcpAck, C.Acknowledged;
    if n > 0 {
      TicksExactly(env, w, n - 1, k);
      CheckTimeoutsKeeps(env, w, n - 1);
      TickMoves(env, w, n - 1);
      var w1 := CheckTimeouts(env, w, n - 1);
      TickDevices(env, w, n - 1);
      if Overdue(w1, n - 1) {
        TimeoutKeeps(env, w1, n - 1);
        LocalKeeps(w1, SendTcpAck(env, w1, n - 1), n - 1, w1.conns[n - 1].client.value, w1.conns[n - 1].dev);
      }
    }
  }

  /** Acknowledging changes no device's state. */
  lemma {:induction false} TickDevices(env: Env, w: World, n: nat)
    requires Inv(env, w) && Settled(w)
    ensures
      var w' := CheckTimeouts(env, w, n);
      forall d :: (d in w.devices <==> d in w'.devices) &&
                  (d in w.devices ==> w'.devices[d].state == w.devices[d].state)
    decreases n
  {
    hide Inv, Settled, Local, SendTcpAck, C.Acknowledged;
    if n > 0 {
      TickDevices(env, w, n - 1);
      CheckTimeoutsKeeps(env, w, n - 1);
      var w1 := CheckTimeouts(env, w, n - 1);
      if Overdue(w1, n - 1) {
        TimeoutKeeps(env, w1, n - 1);
        LocalDevices(w1, SendTcpAck(env, w1, n - 1), n - 1, w1.conns[n - 1].client.value, w1.conns[n - 1].dev);
      }
    }
  }

  lemma LocalDevices(w: World, w': World, k: nat, c: nat, d: nat)
    requires Local(w, w', k, c, d)
    ensures forall x :: (x in w.devices <==> x in w'.devices) &&
                        (x in w.devices ==> w'.devices[x].state == w.devices[x].state)
  {
    forall x
      ensures (x in w.devices <==> x in w'.devices) && (x in w.devices ==> w'.devices[x].state == w.devices[x].state)
    {
      assert x != d ==> (x in w.devices <==> x in w.devices - {d}) && (x in w'.devices <==> x in w'.devices - {d});
    }
  }
}
