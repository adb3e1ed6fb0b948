/** client/core/device.go: when an address has at most one live connection.

    removeConn may take a wrapper out of the map that still has a live connection, or
    whose connection is dead but which a caller of Dial has loaded already and will dial
    again. The next caller for the address then makes a second wrapper and connects
    beside the first. Nothing else leads to two live connections. */
module OneConnection {

  import opened ConnectionPool
  import opened Wrappers

  /** Inside Dial, and not through with it. */
  predicate Dials(pc: Pc, w: W) {
    pc == Acquiring(w) || pc == Holding(w) || pc == Dialing(w)
  }

  /** The wrapper has a live connection, or a caller who may still make one. */
  ghost predicate Used(s: State, w: W) {
    w in s.wrappers && (Live(s, w) || (!s.wrappers[w].failed && exists t :: Dials(PcOf(s, t), w)))
  }

  ghost predicate AllMapped(s: State) {
    forall w | Used(s, w) :: InMap(s, w)
  }

  ghost predicate OneLive(s: State) {
    forall v, w | Live(s, v) && Live(s, w) && s.wrappers[v].addr == s.wrappers[w].addr :: v == w
  }

  /** The step takes a wrapper out of the map that is still used. */
  ghost predicate Orphans(s: State, a: Action)
    requires Can(s, a)
  {
    match a
    case Remove(t) => Deletes(s, PcOf(s, t).w, PcOf(s, t).m) && Used(s, PcOf(s, t).m)
    case PopAll(_) => exists w :: InMap(s, w) && Used(s, w)
    case _ => false
  }

  lemma MappedMeansOneLive(s: State)
    requires AllMapped(s)
    ensures OneLive(s)
  {
    forall v, w | Live(s, v) && Live(s, w) && s.wrappers[v].addr == s.wrappers[w].addr ensures v == w {
      assert Used(s, v) && Used(s, w);
    }
  }

  // ------------------------------------------------------------- what a step does

  lemma NewlyLive(s: State, a: Action, w: W)
    requires Inv(s) && Can(s, a) && Live(Do(s, a), w)
    ensures Used(s, w)
  {
    if a.DialSucceeds? {
      assert GoroutineOk(s, a.t) && Dials(PcOf(s, a.t), PcOf(s, a.t).w);
    }
  }

  lemma LoadedIsMapped(s: State, t: Tid, addr: Addr, v: W)
    requires Inv(s) && Can(s, Load(t, addr, v))
    ensures var s' := Do(s, Load(t, addr, v)); PcOf(s', t).Acquiring? && InMap(s', PcOf(s', t).w)
  {
  }

  lemma NewlyDialing(s: State, a: Action, t: Tid, w: W)
    requires Inv(s) && Can(s, a) && Dials(PcOf(Do(s, a), t), w)
    ensures Dials(PcOf(s, t), w) || InMap(Do(s, a), w)
  {
    match a
    case Load(u, addr, v) => LoadedIsMapped(s, u, addr, v);
    case _ =>
  }

  /** A wrapper that gets used by a step is in the map after it. */
  lemma NewlyUsed(s: State, a: Action, w: W)
    requires Inv(s) && Can(s, a) && Used(Do(s, a), w)
    ensures Used(s, w) || InMap(Do(s, a), w)
  {
    var s' := Do(s, a);
    if Live(s', w) {
      NewlyLive(s, a, w);
    } else {
      var t :| Dials(PcOf(s', t), w);
      NewlyDialing(s, a, t, w);
      assert GoroutineOk(s, t);
      if w in s.wrappers && s.wrappers[w].failed {
        FailedStays(s, a, w);
      }
    }
  }

  predicate Removal(a: Action) {
    a.Remove? || a.PopAll?
  }

  lemma AddressesStay(s: State, a: Action, w: W)
    requires Inv(s) && Can(s, a) && w in s.wrappers
    ensures w in Do(s, a).wrappers && Do(s, a).wrappers[w].addr == s.wrappers[w].addr
  {
    if a.Remove? { assert GoroutineOk(s, a.t); }
  }

  lemma OthersOnlyAdd(s: State, a: Action, addr: Addr)
    requires Can(s, a) && !Removal(a) && addr in s.conn
    ensures addr in Do(s, a).conn && Do(s, a).conn[addr] == s.conn[addr]
  {
  }

  lemma OthersKeepTheMap(s: State, a: Action, w: W)
    requires Inv(s) && Can(s, a) && !Removal(a) && InMap(s, w)
    ensures InMap(Do(s, a), w)
  {
    AddressesStay(s, a, w);
    OthersOnlyAdd(s, a, s.wrappers[w].addr);
  }

  /** Removing changes nobody's use of a wrapper. */
  lemma RemovalKeepsUse(s: State, a: Action, w: W)
    requires Inv(s) && Can(s, a) && Removal(a)
    ensures Used(Do(s, a), w) <==> Used(s, w)
  {
    var s' := Do(s, a);
    if a.Remove? {
      assert GoroutineOk(s, a.t);
      assert HoldsSemaphore(PcOf(s, a.t), PcOf(s, a.t).m);
    }
    assert forall t :: Dials(PcOf(s', t), w) <==> Dials(PcOf(s, t), w);
  }

  lemma RemoveUnmaps(s: State, t: Tid, w: W)
    requires Inv(s) && Can(s, Remove(t)) && InMap(s, w)
    ensures InMap(Do(s, Remove(t)), w) <==> !(Deletes(s, PcOf(s, t).w, PcOf(s, t).m) && w == PcOf(s, t).m)
  {
    assert GoroutineOk(s, t);
    assert HoldsSemaphore(PcOf(s, t), PcOf(s, t).m);
  }

  lemma RemovedIsMapped(s: State, t: Tid)
    requires Inv(s) && Can(s, Remove(t))
    ensures InMap(s, PcOf(s, t).m) && Get(s, PcOf(s, t).m).addr == Get(s, PcOf(s, t).w).addr
  {
    assert GoroutineOk(s, t);
    assert HoldsSemaphore(PcOf(s, t), PcOf(s, t).m);
  }

  lemma RemoveKeepsMappedExactlyIf(s: State, t: Tid)
    requires Inv(s) && Can(s, Remove(t)) && AllMapped(s)
    ensures AllMapped(Do(s, Remove(t))) <==> !Orphans(s, Remove(t))
  {
    var s', m := Do(s, Remove(t)), PcOf(s, t).m;
    forall w ensures Used(s', w) <==> Used(s, w) { RemovalKeepsUse(s, Remove(t), w); }
    forall w | InMap(s, w) ensures InMap(s', w) <==> !(Deletes(s, PcOf(s, t).w, m) && w == m) {
      RemoveUnmaps(s, t, w);
    }
    RemovedIsMapped(s, t);
  }

  lemma PopAllKeepsMappedExactlyIf(s: State, t: Tid)
    requires Inv(s) && Can(s, PopAll(t)) && AllMapped(s)
    ensures AllMapped(Do(s, PopAll(t))) <==> !Orphans(s, PopAll(t))
  {
    forall w ensures Used(Do(s, PopAll(t)), w) <==> Used(s, w) { RemovalKeepsUse(s, PopAll(t), w); }
  }

  /** Every used wrapper stays in the map exactly over the steps that orphan none. */
  lemma StepKeepsMappedExactlyIf(s: State, a: Action)
    requires Inv(s) && Can(s, a) && AllMapped(s)
    ensures AllMapped(Do(s, a)) <==> !Orphans(s, a)
  {
    if a.Remove? {
      RemoveKeepsMappedExactlyIf(s, a.t);
    } else if a.PopAll? {
      PopAllKeepsMappedExactlyIf(s, a.t);
    } else {
      forall w | Used(Do(s, a), w) ensures InMap(Do(s, a), w) {
        NewlyUsed(s, a, w);
        if InMap(s, w) { OthersKeepTheMap(s, a, w); }
      }
    }
  }

  // -------------------------------------------------------------------------- runs

  ghost predicate AlwaysMapped(s: State, run: seq<Action>)
    requires Exec(s, run).Some?
    decreases run
  {
    AllMapped(s) && (run == [] || AlwaysMapped(Do(s, run[0]), run[1..]))
  }

  ghost predicate NeverOrphans(s: State, run: seq<Action>)
    requires Exec(s, run).Some?
    decreases run
  {
    run == [] || (!Orphans(s, run[0]) && NeverOrphans(Do(s, run[0]), run[1..]))
  }

  /** Over a run, every used wrapper is always in the map exactly if no step orphans one. */
  lemma {:induction false} AlwaysMappedExactlyIf(s: State, run: seq<Action>)
    requires Inv(s) && AllMapped(s) && Exec(s, run).Some?
    ensures AlwaysMapped(s, run) <==> NeverOrphans(s, run)
    ensures NeverOrphans(s, run) ==> AllMapped(Exec(s, run).value)
    decreases run
  {
    if run != [] {
      var s' := Do(s, run[0]);
      StepKeeps(s, run[0]);
      StepKeepsMappedExactlyIf(s, run[0]);
      if AllMapped(s') {
        AlwaysMappedExactlyIf(s', run[1..]);
      }
    }
  }

  /** Without such a step an address has at most one live connection. */
  lemma OneConnectionUnlessOrphaned(run: seq<Action>)
    requires Exec(INIT, run).Some? && NeverOrphans(INIT, run)
    ensures OneLive(Exec(INIT, run).value)
  {
    AlwaysMappedExactlyIf(INIT, run);
    MappedMeansOneLive(Exec(INIT, run).value);
  }

  // --------------------------------------------------- and each such step is enough

  ghost predicate Quiet(run: seq<Action>) {
    forall a | a in run :: !Removal(a)
  }

  lemma {:induction false} QuietNeverOrphans(s: State, run: seq<Action>)
    requires Exec(s, run).Some? && Quiet(run)
    ensures NeverOrphans(s, run)
    decreases run
  {
    if run != [] {
      assert run[0] in run && forall a | a in run[1..] :: a in run;
      QuietNeverOrphans(Do(s, run[0]), run[1..]);
    }
  }

  /** A used wrapper gets connected, whatever it waits for, when nobody is in removeConn. */
  lemma GetsConnected(s: State, w: W) returns (run: seq<Action>)
    requires Inv(s) && s.lock == None && Used(s, w)
    ensures Quiet(run) && Exec(s, run).Some?
    ensures var s' := Exec(s, run).value;
            && Live(s', w) && s'.lock == None && s'.conn == s.conn && w in s'.wrappers
            && s'.wrappers[w].addr == s.wrappers[w].addr
  {
    if Live(s, w) {
      return [];
    }
    var t :| Dials(PcOf(s, t), w);
    assert GoroutineOk(s, t) && WrapperOk(s, w);
    if s.wrappers[w].holder.Some? {
      t := s.wrappers[w].holder.value;
      assert GoroutineOk(s, t);
    }
    match PcOf(s, t)
    case Dialing(_) => run := DialsThrough(s, t, w);
    case Holding(_) => run := ChecksThrough(s, t, w);
    case Acquiring(_) =>
      StepKeeps(s, Acquire(t));
      run := ChecksThrough(Do(s, Acquire(t)), t, w);
      run := [Acquire(t)] + run;
    case _ => assert false;
  }

  lemma DialsThrough(s: State, t: Tid, w: W) returns (run: seq<Action>)
    requires PcOf(s, t) == Dialing(w) && w in s.wrappers
    ensures run == [DialSucceeds(t)] && Exec(s, run).Some?
    ensures var s' := Exec(s, run).value;
            && Live(s', w) && s'.lock == s.lock && s'.conn == s.conn && w in s'.wrappers
            && s'.wrappers[w].addr == s.wrappers[w].addr
  {
    run := [DialSucceeds(t)];
    assert run[1..] == [];
    assert Exec(s, run) == Exec(Do(s, DialSucceeds(t)), []);
  }

  lemma ChecksThrough(s: State, t: Tid, w: W) returns (run: seq<Action>)
    requires PcOf(s, t) == Holding(w) && w in s.wrappers && !Live(s, w) && !s.wrappers[w].failed
    ensures run == [Check(t), DialSucceeds(t)] && Exec(s, run).Some?
    ensures var s' := Exec(s, run).value;
            && Live(s', w) && s'.lock == s.lock && s'.conn == s.conn && w in s'.wrappers
            && s'.wrappers[w].addr == s.wrappers[w].addr
  {
    var more := DialsThrough(Do(s, Check(t)), t, w);
    run := [Check(t)] + more;
    assert run[1..] == more;
  }

  /** A used wrapper whose address has left the map: without any further removal two
      connections to the address can be alive at once. */
  lemma OrphanGetsASibling(s: State, w: W) returns (run: seq<Action>)
    requires Inv(s) && s.lock == None && Used(s, w) && s.wrappers[w].addr !in s.conn
    ensures Quiet(run) && Exec(s, run).Some? && !OneLive(Exec(s, run).value)
  {
    var r1 := GetsConnected(s, w);
    var s1 := Exec(s, r1).value;
    var t := Above(s1.pcs.Keys);
    var v := Above(s1.wrappers.Keys);
    var r2 := Connects(s1, t, s.wrappers[w].addr, v);
    var s2 := Exec(s1, r2).value;
    ExecAppend(s, r1, r2);
    run := r1 + r2;
    assert Live(s2, w) && Live(s2, v) && v != w;
  }

  /** After a step that orphans a wrapper, two live connections are possible without any
      further removal; after any other step of a run without such steps they are not. */
  lemma TwoArePossibleExactlyIf(s: State, a: Action)
    requires Inv(s) && Can(s, a) && AllMapped(s)
    ensures Orphans(s, a) <==>
            exists run :: Quiet(run) && Exec(Do(s, a), run).Some? && !OneLive(Exec(Do(s, a), run).value)
  {
    var s' := Do(s, a);
    StepKeeps(s, a);
    StepKeepsMappedExactlyIf(s, a);
    if Orphans(s, a) {
      var w :| Used(s', w) && !InMap(s', w);
      OrphanIsUnmapped(s, a, w);
      var run := OrphanGetsASibling(s', w);
    } else {
      forall run | Quiet(run) && Exec(s', run).Some? ensures OneLive(Exec(s', run).value) {
        QuietNeverOrphans(s', run);
        AlwaysMappedExactlyIf(s', run);
        MappedMeansOneLive(Exec(s', run).value);
      }
    }
  }

  lemma OrphanIsUnmapped(s: State, a: Action, w: W)
    requires Inv(s) && Can(s, a) && AllMapped(s) && Orphans(s, a) && Used(Do(s, a), w) && !InMap(Do(s, a), w)
    ensures Do(s, a).lock == None && Do(s, a).wrappers[w].addr !in Do(s, a).conn
  {
    RemovalKeepsUse(s, a, w);
    if a.Remove? {
      RemovedIsMapped(s, a.t);
      RemoveUnmaps(s, a.t, w);
    }
  }

  // ------------------------------------------------------------- the second cause

  /** No step of the run takes a wrapper with a live connection out of the map. */
  ghost predicate DropsNoLive(s: State, run: seq<Action>)
    requires Exec(s, run).Some?
    decreases run
  {
    run == [] ||
    ((forall w | InMap(s, w) && Live(s, w) :: InMap(Do(s, run[0]), w)) && DropsNoLive(Do(s, run[0]), run[1..]))
  }

  lemma {:induction false} QuietDropsNoLive(s: State, run: seq<Action>)
    requires Inv(s) && Exec(s, run).Some? && Quiet(run)
    ensures DropsNoLive(s, run)
    decreases run
  {
    if run != [] {
      assert run[0] in run && forall a | a in run[1..] :: a in run;
      forall w | InMap(s, w) ensures InMap(Do(s, run[0]), w) { OthersKeepTheMap(s, run[0], w); }
      StepKeeps(s, run[0]);
      QuietDropsNoLive(Do(s, run[0]), run[1..]);
    }
  }

  lemma {:induction false} DropsNoLiveAppend(s: State, r1: seq<Action>, r2: seq<Action>)
    requires Exec(s, r1 + r2).Some? && Exec(s, r1).Some? && Exec(Exec(s, r1).value, r2).Some?
    requires DropsNoLive(s, r1) && DropsNoLive(Exec(s, r1).value, r2)
    ensures DropsNoLive(s, r1 + r2)
    decreases r1
  {
    if r1 == [] {
      assert r1 + r2 == r2;
    } else {
      assert (r1 + r2)[1..] == r1[1..] + r2;
      DropsNoLiveAppend(Do(s, r1[0]), r1[1..], r2);
    }
  }

  /** The connection of a mapped wrapper dies, and its close handler is about to take the
      dead wrapper out of the map. */
  lemma DeadOneIsBeingRemoved(s: State, t: Tid, c: Client, w: W) returns (run: seq<Action>)
    requires PcOf(s, t) == Idle && s.lock == None && InMap(s, w) && s.wrappers[w].holder == None
    requires s.wrappers[w].client == Some(c) && c in s.alive && (c, w) in s.closeHandlers
    ensures run == [Die(c), CloseCallback(t, c, w), LockForRemove(t)] && Exec(s, run).Some?
    ensures var s' := Exec(s, run).value;
            && s'.pcs == s.pcs[t := Removing(w, w)] && w in s'.wrappers && !Live(s', w)
            && s'.wrappers[w] == s.wrappers[w].(holder := Some(t))
  {
    var s1 := Do(s, Die(c));
    var s2 := Do(s1, CloseCallback(t, c, w));
    ExecCons(s2, LockForRemove(t), []);
    ExecCons(s1, CloseCallback(t, c, w), [LockForRemove(t)]);
    ExecCons(s, Die(c), [CloseCallback(t, c, w), LockForRemove(t)]);
    run := [Die(c), CloseCallback(t, c, w), LockForRemove(t)];
    assert [Die(c)] + ([CloseCallback(t, c, w)] + ([LockForRemove(t)] + [])) == run;
  }

  /** One caller has connected, and a second one has loaded the wrapper. */
  lemma SecondCallerWaits() returns (run: seq<Action>)
    ensures Quiet(run) && Exec(INIT, run).Some?
    ensures var s := Exec(INIT, run).value;
            && PcOf(s, 1) == Acquiring(1) && PcOf(s, 2) == Idle && s.lock == None && InMap(s, 1)
            && s.wrappers[1] == Wrapper("coap://a", None, Some(1), false)
            && s.alive == {1} && (1, 1) in s.closeHandlers
  {
    run := Connects(INIT, 0, "coap://a", 1);
    ExecOne(INIT, run, Register(0));
    run := run + [Register(0)];
    ExecOne(INIT, run, Load(1, "coap://a", 2));
    run := run + [Load(1, "coap://a", 2)];
  }

  /** A caller has loaded a wrapper and not acquired it yet when the dead wrapper is
      removed. */
  lemma DeadWrapperIsOrphaned() returns (run: seq<Action>)
    ensures Quiet(run) && Exec(INIT, run).Some?
    ensures var s := Exec(INIT, run).value;
            && PcOf(s, 2) == Removing(1, 1) && PcOf(s, 1) == Acquiring(1) && 1 in s.wrappers
            && !Live(s, 1) && !s.wrappers[1].failed && s.wrappers[1].client == Some(1)
  {
    var r1 := SecondCallerWaits();
    var r2 := DeadOneIsBeingRemoved(Exec(INIT, r1).value, 2, 1, 1);
    ExecAppend(INIT, r1, r2);
    run := r1 + r2;
  }

  /** So two connections to one address can be alive although no live one was ever taken
      out of the map: the waiting caller dials again, beside the next one. */
  lemma TwoLiveWithoutDroppingOne() returns (run: seq<Action>)
    ensures Exec(INIT, run).Some? && DropsNoLive(INIT, run) && !OneLive(Exec(INIT, run).value)
  {
    var r1 := DeadWrapperIsOrphaned();
    var s1 := Exec(INIT, r1).value;
    RunKeeps(INIT, r1);
    QuietDropsNoLive(INIT, r1);
    var s2 := Do(s1, Remove(2));
    StepKeeps(s1, Remove(2));
    assert Dials(PcOf(s1, 1), 1);
    assert Used(s1, 1);
    RemovedIsMapped(s1, 2);
    RemoveUnmaps(s1, 2, 1);
    RemovalKeepsUse(s1, Remove(2), 1);
    var r3 := OrphanGetsASibling(s2, 1);
    QuietDropsNoLive(s2, r3);
    forall w | InMap(s1, w) && Live(s1, w) ensures InMap(s2, w) { RemoveUnmaps(s1, 2, w); }
    var r2 := [Remove(2)] + r3;
    assert r2[1..] == r3;
    ExecAppend(INIT, r1, r2);
    DropsNoLiveAppend(INIT, r1, r2);
    run := r1 + r2;
  }
}
