/** client/core/device.go: what a caller of connectToEndpoint and a close handler end with
    when nobody interferes, case by case. */
module DialOutcomes {

  import opened ConnectionPool
  import opened Wrappers

  /** A caller that loads a mapped wrapper and gets its free semaphore. */
  lemma LoadsAndAcquires(s: State, t: Tid, w: W, unused: W)
    requires PcOf(s, t) == Idle && s.lock == None && InMap(s, w) && s.wrappers[w].holder == None
    requires unused !in s.wrappers
    ensures var run := [Load(t, s.wrappers[w].addr, unused), Acquire(t)];
            Exec(s, run) == Some(s.(wrappers := s.wrappers[w := s.wrappers[w].(holder := Some(t))],
                                    pcs := s.pcs[t := Holding(w)]))
  {
    var addr := s.wrappers[w].addr;
    var s1 := Do(s, Load(t, addr, unused));
    var s2 := Do(s1, Acquire(t));
    ExecCons(s1, Acquire(t), []);
    ExecCons(s, Load(t, addr, unused), [Acquire(t)]);
    assert [Acquire(t)] + [] == [Acquire(t)];
    assert [Load(t, addr, unused)] + [Acquire(t)] == [Load(t, addr, unused), Acquire(t)];
    assert s2.pcs == s.pcs[t := Holding(w)];
  }

  lemma ExecTwo(s: State, r1: seq<Action>, r2: seq<Action>, s1: State, s2: State)
    requires Exec(s, r1) == Some(s1) && Exec(s1, r2) == Some(s2)
    ensures Exec(s, r1 + r2) == Some(s2)
  {
    ExecAppend(s, r1, r2);
  }

  /** A live connection is reused: the caller returns, and nothing has changed. */
  lemma ReusesALiveConnection(s: State, t: Tid, w: W, unused: W)
    requires PcOf(s, t) == Idle && s.lock == None && InMap(s, w) && s.wrappers[w].holder == None
    requires Live(s, w) && unused !in s.wrappers
    ensures Exec(s, [Load(t, s.wrappers[w].addr, unused), Acquire(t), Check(t)]) == Some(s.(pcs := s.pcs[t := Idle]))
  {
    LoadsAndAcquires(s, t, w, unused);
    var s1 := s.(wrappers := s.wrappers[w := s.wrappers[w].(holder := Some(t))], pcs := s.pcs[t := Holding(w)]);
    ExecCons(s1, Check(t), []);
    assert [Check(t)] + [] == [Check(t)];
    assert Do(s1, Check(t)).wrappers == s.wrappers;
    assert Do(s1, Check(t)).pcs == s.pcs[t := Idle];
    ExecTwo(s, [Load(t, s.wrappers[w].addr, unused), Acquire(t)], [Check(t)], s1, Do(s1, Check(t)));
  }

  /** A dead connection is dialed again on the same wrapper, which stays in the map. */
  lemma RedialsADeadConnection(s: State, t: Tid, w: W, unused: W)
    requires PcOf(s, t) == Idle && s.lock == None && InMap(s, w) && s.wrappers[w].holder == None
    requires !Live(s, w) && !s.wrappers[w].failed && unused !in s.wrappers
    ensures var run, c := [Load(t, s.wrappers[w].addr, unused), Acquire(t), Check(t), DialSucceeds(t)], s.dialed + 1;
            Exec(s, run) == Some(s.(wrappers := s.wrappers[w := s.wrappers[w].(client := Some(c))],
                                    pcs := s.pcs[t := Registering(w, c)], dialed := c, alive := s.alive + {c}))
  {
    LoadsAndAcquires(s, t, w, unused);
    var s1 := s.(wrappers := s.wrappers[w := s.wrappers[w].(holder := Some(t))], pcs := s.pcs[t := Holding(w)]);
    var s2 := Do(s1, Check(t));
    var s3 := Do(s2, DialSucceeds(t));
    ExecCons(s2, DialSucceeds(t), []);
    ExecCons(s1, Check(t), [DialSucceeds(t)]);
    assert [DialSucceeds(t)] + [] == [DialSucceeds(t)];
    assert [Check(t)] + [DialSucceeds(t)] == [Check(t), DialSucceeds(t)];
    assert s3.wrappers == s.wrappers[w := s.wrappers[w].(client := Some(s.dialed + 1))];
    assert s3.pcs == s.pcs[t := Registering(w, s.dialed + 1)];
    ExecTwo(s, [Load(t, s.wrappers[w].addr, unused), Acquire(t)], [Check(t), DialSucceeds(t)], s1, s3);
    assert [Load(t, s.wrappers[w].addr, unused), Acquire(t)] + [Check(t), DialSucceeds(t)] ==
           [Load(t, s.wrappers[w].addr, unused), Acquire(t), Check(t), DialSucceeds(t)];
  }

  /** Over an earlier error a caller dials nothing and goes on to remove the wrapper. */
  lemma GetsTheEarlierError(s: State, t: Tid, w: W, unused: W)
    requires PcOf(s, t) == Idle && s.lock == None && InMap(s, w) && s.wrappers[w].holder == None
    requires !Live(s, w) && s.wrappers[w].failed && unused !in s.wrappers
    ensures Exec(s, [Load(t, s.wrappers[w].addr, unused), Acquire(t), Check(t)]) ==
            Some(s.(pcs := s.pcs[t := MustRemove(w)]))
  {
    LoadsAndAcquires(s, t, w, unused);
    var s1 := s.(wrappers := s.wrappers[w := s.wrappers[w].(holder := Some(t))], pcs := s.pcs[t := Holding(w)]);
    ExecCons(s1, Check(t), []);
    assert [Check(t)] + [] == [Check(t)];
    assert Do(s1, Check(t)).wrappers == s.wrappers;
    assert Do(s1, Check(t)).pcs == s.pcs[t := MustRemove(w)];
    ExecTwo(s, [Load(t, s.wrappers[w].addr, unused), Acquire(t)], [Check(t)], s1, Do(s1, Check(t)));
  }

  /** A failed dial is remembered, its caller has to remove the wrapper, and nothing else
      changes. */
  lemma FailedDialIsRemembered(s: State, t: Tid, w: W)
    requires Inv(s) && PcOf(s, t) == Dialing(w)
    ensures var failed := Wrapper(Get(s, w).addr, None, Get(s, w).client, true);
            Do(s, DialFails(t)) == s.(wrappers := s.wrappers[w := failed], pcs := s.pcs[t := MustRemove(w)])
  {
    assert GoroutineOk(s, t);
  }

  /** removeConn takes a wrapper out exactly if it is the mapped one, its semaphore is free
      and it was connected or failed before; otherwise only the caller has moved. */
  lemma RemovesExactlyItself(s: State, t: Tid, w: W)
    requires Inv(s) && PcOf(s, t) == MustRemove(w) && s.lock == None
    ensures var addr, s1 := Get(s, w).addr, Do(s, LockForRemove(t));
            if addr !in s.conn || Get(s, s.conn[addr]).holder.Some? then s1 == s.(pcs := s.pcs[t := Idle])
            else
              var goes := s.conn[addr] == w && (Get(s, w).client.Some? || Get(s, w).failed);
              && s1.lock == Some(t) && Can(s1, Remove(t))
              && Do(s1, Remove(t)) == s.(conn := if goes then s.conn - {addr} else s.conn, pcs := s.pcs[t := Idle])
  {
    assert GoroutineOk(s, t);
    var addr, s1 := s.wrappers[w].addr, Do(s, LockForRemove(t));
    if addr in s.conn && Get(s, s.conn[addr]).holder == None {
      var m := s.conn[addr];
      var s2 := Do(s1, Remove(t));
      assert s2.wrappers == s.wrappers;
      assert s2.pcs == s.pcs[t := Idle];
    }
  }

  /** Dying and closing: only the liveness goes, and the handler of each connection runs
      for the wrapper it was registered with. */
  lemma ConnectionsDie(s: State, t: Tid, c: Client, w: W)
    ensures c in s.alive ==> Can(s, Die(c)) && Do(s, Die(c)) == s.(alive := s.alive - {c})
    ensures PcOf(s, t) == Idle && c !in s.alive && (c, w) in s.closeHandlers ==>
              Can(s, CloseCallback(t, c, w)) &&
              Do(s, CloseCallback(t, c, w)) == s.(pcs := s.pcs[t := MustRemove(w)])
    ensures PcOf(s, t) == Registering(w, c) ==>
              Can(s, Register(t)) &&
              Do(s, Register(t)) == s.(closeHandlers := s.closeHandlers + {(c, w)}, pcs := s.pcs[t := Idle])
    ensures PcOf(s, t) == Idle && s.lock == None ==>
              Can(s, PopAll(t)) && Do(s, PopAll(t)) == s.(conn := map[])
  {
  }
}
