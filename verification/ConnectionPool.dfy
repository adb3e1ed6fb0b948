/** client/core/device.go: the per-address connection pool of a device.

    Any number of goroutines connect to endpoints; connections die and their
    close handlers run at any moment. A step is one critical section of the
    device's lock, one operation of a wrapper's weight-1 semaphore, one dial
    result or one atomic access of a wrapper's connection.

    Assumed of the foreign parts: the semaphore is granted to one holder,
    Acquire may fail with the context's error whether the semaphore is held or
    free, TryAcquire fails exactly when the semaphore is held, every successful dial makes a new
    connection, and a dead connection stays dead. */
module ConnectionPool {

  import opened Wrappers

  type Tid = nat
  type Addr = string
  type W = nat      // a wrapper: one `*conn`
  type Client = nat // a connection: one `*coap.ClientCloseHandler`

  /** `c` and `err` of a wrapper, and who holds its semaphore. */
  datatype Wrapper = Wrapper(addr: Addr, holder: Option<Tid>, client: Option<Client>, failed: bool)

  datatype Pc =
    | Idle
    | Acquiring(w: W)            // in Dial, before the semaphore is granted
    | Holding(w: W)              // in Dial, semaphore held, before the checks
    | Dialing(w: W)              // the dial is in flight, semaphore held
    | Registering(w: W, c: Client)  // dialed, before RegisterCloseHandler
    | MustRemove(w: W)           // about to call removeConn(addr, w)
    | Removing(w: W, m: W)       // in removeConn, holding the lock and the semaphore of m, the mapped wrapper

  datatype State = State(
    conn: map<Addr, W>,
    wrappers: map<W, Wrapper>,
    lock: Option<Tid>,
    pcs: map<Tid, Pc>,
    dialed: nat,                        // connections made so far: 1..dialed
    alive: set<Client>,
    closeHandlers: set<(Client, W)>)

  const INIT := State(map[], map[], None, map[], 0, {}, {})

  datatype Action =
    | Load(t: Tid, addr: Addr, w: W)    // connectToEndpoint: loadORCreate (w is used if one is created)
    | AcquireFails(t: Tid) | Acquire(t: Tid) | Check(t: Tid)
    | DialFails(t: Tid) | DialSucceeds(t: Tid) | Register(t: Tid)
    | LockForRemove(t: Tid) | Remove(t: Tid)
    | Die(c: Client) | CloseCallback(t: Tid, c: Client, w: W)
    | PopAll(t: Tid)                    // Close: popConnections; their connections are closed later (Die)

  function PcOf(s: State, t: Tid): Pc {
    if t in s.pcs then s.pcs[t] else Idle
  }

  function Get(s: State, w: W): Wrapper {
    if w in s.wrappers then s.wrappers[w] else Wrapper("", None, None, false)
  }

  predicate Live(s: State, w: W) {
    Get(s, w).client.Some? && Get(s, w).client.value in s.alive
  }

  predicate Can(s: State, a: Action) {
    match a
    case Load(t, addr, w) => PcOf(s, t) == Idle && s.lock == None && w !in s.wrappers
    case AcquireFails(t) => PcOf(s, t).Acquiring?
    case Acquire(t) => PcOf(s, t).Acquiring? && Get(s, PcOf(s, t).w).holder == None
    case Check(t) => PcOf(s, t).Holding?
    case DialFails(t) => PcOf(s, t).Dialing?
    case DialSucceeds(t) => PcOf(s, t).Dialing?
    case Register(t) => PcOf(s, t).Registering?
    case LockForRemove(t) => PcOf(s, t).MustRemove? && s.lock == None
    case Remove(t) => PcOf(s, t).Removing?
    case Die(c) => c in s.alive
    case CloseCallback(t, c, w) => PcOf(s, t) == Idle && c !in s.alive && (c, w) in s.closeHandlers
    case PopAll(t) => PcOf(s, t) == Idle && s.lock == None
  }

  function Move(s: State, t: Tid, pc: Pc): State {
    s.(pcs := s.pcs[t := pc])
  }

  function Put(s: State, w: W, x: Wrapper): State {
    s.(wrappers := s.wrappers[w := x])
  }

  function DoLoad(s: State, t: Tid, addr: Addr, w: W): State {
    if addr in s.conn then Move(s, t, Acquiring(s.conn[addr]))
    else Move(Put(s, w, Wrapper(addr, None, None, false)).(conn := s.conn[addr := w]), t, Acquiring(w))
  }

  function DoAcquire(s: State, t: Tid): State
    requires PcOf(s, t).Acquiring?
  {
    var w := PcOf(s, t).w;
    Move(Put(s, w, Get(s, w).(holder := Some(t))), t, Holding(w))
  }

  /** Dial after the semaphore was granted: return the live connection, or the
      sticky error, or go on to dial. */
  function DoCheck(s: State, t: Tid): State
    requires PcOf(s, t).Holding?
  {
    var w := PcOf(s, t).w;
    var released := Put(s, w, Get(s, w).(holder := None));
    if Live(s, w) then Move(released, t, Idle)
    else if Get(s, w).failed then Move(released, t, MustRemove(w))
    else Move(s, t, Dialing(w))
  }

  function DoDialFails(s: State, t: Tid): State
    requires PcOf(s, t).Dialing?
  {
    var w := PcOf(s, t).w;
    Move(Put(s, w, Get(s, w).(holder := None, failed := true)), t, MustRemove(w))
  }

  function DoDialSucceeds(s: State, t: Tid): State
    requires PcOf(s, t).Dialing?
  {
    var w, c := PcOf(s, t).w, s.dialed + 1;
    Move(Put(s, w, Get(s, w).(holder := None, client := Some(c))), t, Registering(w, c))
      .(dialed := c, alive := s.alive + {c})
  }

  function DoRegister(s: State, t: Tid): State
    requires PcOf(s, t).Registering?
  {
    Move(s, t, Idle).(closeHandlers := s.closeHandlers + {(PcOf(s, t).c, PcOf(s, t).w)})
  }

  /** removeConn up to TryAcquire. */
  function DoLockForRemove(s: State, t: Tid): State
    requires PcOf(s, t).MustRemove?
  {
    var w := PcOf(s, t).w;
    var addr := Get(s, w).addr;
    if addr !in s.conn then Move(s, t, Idle)
    else
      var m := s.conn[addr];
      if Get(s, m).holder.Some? then Move(s, t, Idle)
      else Move(Put(s, m, Get(s, m).(holder := Some(t))), t, Removing(w, m)).(lock := Some(t))
  }

  /** What removeConn(addr, w) decides once it holds the semaphore of the mapped wrapper m. */
  predicate Deletes(s: State, w: W, m: W) {
    var clientConn := Get(s, w).client;
    if clientConn == None && !Get(s, m).failed then false
    else if clientConn != None && Get(s, m).client == clientConn then true
    else m == w && Get(s, m).failed
  }

  function DoRemove(s: State, t: Tid): State
    requires PcOf(s, t).Removing?
  {
    var w, m := PcOf(s, t).w, PcOf(s, t).m;
    var conn := if Deletes(s, w, m) then s.conn - {Get(s, w).addr} else s.conn;
    Move(Put(s, m, Get(s, m).(holder := None)), t, Idle).(conn := conn, lock := None)
  }

  function Do(s: State, a: Action): State
    requires Can(s, a)
  {
    match a
    case Load(t, addr, w) => DoLoad(s, t, addr, w)
    case AcquireFails(t) => Move(s, t, MustRemove(PcOf(s, t).w))
    case Acquire(t) => DoAcquire(s, t)
    case Check(t) => DoCheck(s, t)
    case DialFails(t) => DoDialFails(s, t)
    case DialSucceeds(t) => DoDialSucceeds(s, t)
    case Register(t) => DoRegister(s, t)
    case LockForRemove(t) => DoLockForRemove(s, t)
    case Remove(t) => DoRemove(s, t)
    case Die(c) => s.(alive := s.alive - {c})
    case CloseCallback(t, _, w) => Move(s, t, MustRemove(w))
    case PopAll(t) => s.(conn := map[])
  }

  function Exec(s: State, run: seq<Action>): Option<State>
    decreases run
  {
    if run == [] then Some(s)
    else if Can(s, run[0]) then Exec(Do(s, run[0]), run[1..])
    else None
  }

  // ----------------------------------------------------------------- invariants

  predicate HoldsSemaphore(pc: Pc, w: W) {
    pc == Holding(w) || pc == Dialing(w) || (pc.Removing? && pc.m == w)
  }

  /** A goroutine holds what it believes to hold, and dials only over a dead
      connection of a wrapper whose dial never failed. */
  ghost predicate GoroutineOk(s: State, t: Tid) {
    var pc := PcOf(s, t);
    && (pc != Idle ==> pc.w in s.wrappers)
    && (forall w | HoldsSemaphore(pc, w) :: w in s.wrappers && s.wrappers[w].holder == Some(t))
    && (pc.Dialing? ==> !Live(s, pc.w) && !Get(s, pc.w).failed)
    && (pc.Removing? ==> s.lock == Some(t) && Get(s, pc.w).addr in s.conn && s.conn[Get(s, pc.w).addr] == pc.m)
  }

  /** A held semaphore has its holder; a failed wrapper has no live connection. */
  ghost predicate WrapperOk(s: State, w: W) {
    var x := Get(s, w);
    && (x.holder.Some? ==> HoldsSemaphore(PcOf(s, x.holder.value), w))
    && (x.client.Some? ==> x.client.value <= s.dialed)
    && (x.failed ==> !Live(s, w))
  }

  ghost predicate MapOk(s: State) {
    && (forall a | a in s.conn :: s.conn[a] in s.wrappers && s.wrappers[s.conn[a]].addr == a)
    && (forall h | h in s.closeHandlers :: h.1 in s.wrappers)
    && (s.lock.Some? ==> PcOf(s, s.lock.value).Removing?)
  }

  ghost predicate OwnConnections(s: State) {
    forall v, w | v in s.wrappers && w in s.wrappers && s.wrappers[v].client.Some? &&
                  s.wrappers[v].client == s.wrappers[w].client :: v == w
  }

  /** Goroutines inside Dial of `w` or on the way to removeConn for it. */
  predicate Concerned(pc: Pc, w: W) {
    (pc.Acquiring? || pc.Holding? || pc.MustRemove? || pc.Removing?) && pc.w == w
  }

  ghost predicate SomeoneCleans(s: State, w: W) {
    exists t :: Concerned(PcOf(s, t), w)
  }

  predicate InMap(s: State, w: W) {
    w in s.wrappers && s.wrappers[w].addr in s.conn && s.conn[s.wrappers[w].addr] == w
  }

  ghost predicate FailedIsCleaned(s: State) {
    forall w | InMap(s, w) && s.wrappers[w].failed :: SomeoneCleans(s, w)
  }

  ghost predicate Inv(s: State) {
    && (forall t :: GoroutineOk(s, t))
    && (forall w | w in s.wrappers :: WrapperOk(s, w))
    && MapOk(s) && OwnConnections(s) && FailedIsCleaned(s)
  }

  // -------------------------------------------- what a step of one goroutine may do

  /** Goroutine `t` changes at most the wrapper `w0`, whose semaphore nobody else
      holds, and the map only if nobody else holds the lock. */
  ghost predicate Guarantee(s: State, s': State, t: Tid, w0: W) {
    && (forall u | u != t :: PcOf(s', u) == PcOf(s, u))
    && (forall w | w in s.wrappers :: w in s'.wrappers && s'.wrappers[w].addr == s.wrappers[w].addr)
    && (forall w | w in s.wrappers && w != w0 :: s'.wrappers[w] == s.wrappers[w])
    && (forall w | w in s'.wrappers && w != w0 :: w in s.wrappers)
    && (Get(s, w0).holder.Some? ==> Get(s, w0).holder == Some(t))
    && (Get(s', w0).client == Get(s, w0).client || (Get(s', w0).client.Some? && Get(s', w0).client.value > s.dialed))
    && s.dialed <= s'.dialed
    && (forall c | c in s'.alive :: c in s.alive || c > s.dialed)
    && (s.lock.Some? && s.lock != Some(t) ==> s'.lock == s.lock && s'.conn == s.conn)
    && (forall w | w != w0 && HoldsSemaphore(PcOf(s, t), w) :: HoldsSemaphore(PcOf(s', t), w))
  }

  lemma OtherGoroutines(s: State, s': State, t: Tid, w0: W, u: Tid)
    requires Inv(s) && Guarantee(s, s', t, w0) && u != t
    ensures GoroutineOk(s', u)
  {
    assert GoroutineOk(s, u);
    var pc := PcOf(s, u);
    assert PcOf(s', u) == pc;
    if pc.Dialing? { assert HoldsSemaphore(pc, pc.w) && WrapperOk(s, pc.w); }
  }

  lemma OtherWrappers(s: State, s': State, t: Tid, w0: W, w: W)
    requires Inv(s) && Guarantee(s, s', t, w0) && w != w0 && w in s'.wrappers
    ensures WrapperOk(s', w)
  {
    assert WrapperOk(s, w);
  }

  lemma OwnConnectionsStay(s: State, s': State, t: Tid, w0: W)
    requires Inv(s) && Guarantee(s, s', t, w0)
    ensures OwnConnections(s')
  {
    forall v, w | v in s'.wrappers && w in s'.wrappers && s'.wrappers[v].client.Some? &&
                  s'.wrappers[v].client == s'.wrappers[w].client
      ensures v == w
    {
      assert v in s.wrappers ==> WrapperOk(s, v);
      assert w in s.wrappers ==> WrapperOk(s, w);
    }
  }

  /** The goroutine leaves no failed wrapper behind: the one it made fail is its
      own concern, and it gives up no concern for a wrapper that stays in the map. */
  ghost predicate CleansUp(s: State, s': State, t: Tid, w0: W) {
    && (forall w | InMap(s', w) && s'.wrappers[w].failed :: InMap(s, w))
    && (InMap(s', w0) && s'.wrappers[w0].failed && !Get(s, w0).failed ==> Concerned(PcOf(s', t), w0))
    && (forall w | Concerned(PcOf(s, t), w) && InMap(s', w) && s'.wrappers[w].failed :: SomeoneCleans(s', w))
  }

  lemma StillCleaned(s: State, s': State, t: Tid, w0: W)
    requires FailedIsCleaned(s) && Guarantee(s, s', t, w0) && CleansUp(s, s', t, w0)
    ensures FailedIsCleaned(s')
  {
    forall w | InMap(s', w) && s'.wrappers[w].failed ensures SomeoneCleans(s', w) {
      if s.wrappers[w].failed {
        assert SomeoneCleans(s, w);
        var u :| Concerned(PcOf(s, u), w);
        if u != t { assert Concerned(PcOf(s', u), w); }
      }
    }
  }

  lemma Preserved(s: State, s': State, t: Tid, w0: W)
    requires Inv(s) && Guarantee(s, s', t, w0) && CleansUp(s, s', t, w0)
    requires GoroutineOk(s', t) && MapOk(s') && (w0 in s'.wrappers ==> WrapperOk(s', w0))
    ensures Inv(s')
  {
    forall u ensures GoroutineOk(s', u) { if u != t { OtherGoroutines(s, s', t, w0, u); } }
    forall w | w in s'.wrappers ensures WrapperOk(s', w) { if w != w0 { OtherWrappers(s, s', t, w0, w); } }
    OwnConnectionsStay(s, s', t, w0);
    StillCleaned(s, s', t, w0);
  }

  // ---------------------------------------------------------- one lemma per step

  lemma Above(ws: set<W>) returns (w: W)
    ensures forall x | x in ws :: x < w
  {
    if ws == {} {
      return 0;
    }
    var x :| x in ws;
    w := Above(ws - {x});
    assert forall y | y in ws :: y == x || y in ws - {x};
    if w <= x { w := x + 1; }
  }

  /** A step that only moves the goroutine and holds no semaphore before or after. */
  lemma MoveKeeps(s: State, t: Tid, pc: Pc)
    requires Inv(s)
    requires forall w :: !HoldsSemaphore(PcOf(s, t), w) && !HoldsSemaphore(pc, w)
    requires !pc.Removing? && (pc != Idle ==> pc.w in s.wrappers)
    requires forall w | Concerned(PcOf(s, t), w) && InMap(s, w) && s.wrappers[w].failed ::
               SomeoneCleans(Move(s, t, pc), w)
    ensures Inv(Move(s, t, pc))
  {
    assert GoroutineOk(s, t);
    assert !PcOf(s, t).Removing? by { if PcOf(s, t).Removing? { assert HoldsSemaphore(PcOf(s, t), PcOf(s, t).m); } }
    var none := Above(s.wrappers.Keys);
    Preserved(s, Move(s, t, pc), t, none);
  }

  /** The usual shape of a step: one goroutine moves and one wrapper changes. */
  ghost predicate Touches(s: State, s': State, t: Tid, w: W, x: Wrapper, pc: Pc) {
    && s'.wrappers == s.wrappers[w := x] && s'.pcs == s.pcs[t := pc]
    && s'.closeHandlers == s.closeHandlers
    && (w in s.wrappers ==> x.addr == s.wrappers[w].addr)
  }

  lemma TouchGuarantee(s: State, s': State, t: Tid, w: W, x: Wrapper, pc: Pc)
    requires Touches(s, s', t, w, x, pc)
    requires Get(s, w).holder.Some? ==> Get(s, w).holder == Some(t)
    requires x.client == Get(s, w).client || (x.client.Some? && x.client.value > s.dialed)
    requires s.dialed <= s'.dialed && forall c | c in s'.alive :: c in s.alive || c > s.dialed
    requires s.lock.Some? && s.lock != Some(t) ==> s'.lock == s.lock && s'.conn == s.conn
    requires forall v | v != w :: !HoldsSemaphore(PcOf(s, t), v)
    ensures Guarantee(s, s', t, w)
  {
  }

  lemma TouchMap(s: State, s': State, t: Tid, w: W, x: Wrapper, pc: Pc)
    requires MapOk(s) && Touches(s, s', t, w, x, pc)
    requires forall a | a in s'.conn :: (a in s.conn && s'.conn[a] == s.conn[a]) || (s'.conn[a] == w && x.addr == a)
    requires if pc.Removing? then s'.lock == Some(t) else s'.lock == (if s.lock == Some(t) then None else s.lock)
    ensures MapOk(s')
  {
  }

  lemma TouchCleans(s: State, s': State, t: Tid, w: W, x: Wrapper, pc: Pc)
    requires Touches(s, s', t, w, x, pc)
    requires forall v | InMap(s', v) && s'.wrappers[v].failed :: InMap(s, v)
    requires forall v | InMap(s', v) && s'.wrappers[v].failed && Concerned(PcOf(s, t), v) :: Concerned(pc, v)
    requires x.failed && !Get(s, w).failed ==> Concerned(pc, w)
    ensures CleansUp(s, s', t, w)
  {
    assert PcOf(s', t) == pc;
  }

  lemma TouchPreserves(s: State, s': State, t: Tid, w: W, x: Wrapper, pc: Pc)
    requires Inv(s) && Touches(s, s', t, w, x, pc) && Guarantee(s, s', t, w) && MapOk(s') && CleansUp(s, s', t, w)
    requires pc != Idle ==> pc.w in s'.wrappers
    requires forall v :: HoldsSemaphore(pc, v) <==> v == w && x.holder.Some?
    requires x.holder.Some? ==> x.holder == Some(t)
    requires pc.Dialing? ==> !Live(s', pc.w) && !Get(s', pc.w).failed
    requires pc.Removing? ==> s'.lock == Some(t) && Get(s', pc.w).addr in s'.conn && s'.conn[Get(s', pc.w).addr] == pc.m
    requires (x.client.Some? ==> x.client.value <= s'.dialed) && (x.failed ==> !Live(s', w))
    ensures Inv(s')
  {
    assert PcOf(s', t) == pc && Get(s', w) == x;
    assert GoroutineOk(s', t) && WrapperOk(s', w);
    Preserved(s, s', t, w);
  }

  /** A step inside Dial that changes the goroutine's wrapper but not its connection. */
  lemma TouchKeeps(s: State, t: Tid, w: W, x: Wrapper, pc: Pc)
    requires Inv(s) && w in s.wrappers && x.addr == s.wrappers[w].addr && x.client == s.wrappers[w].client
    requires PcOf(s, t) == Holding(w) || PcOf(s, t) == Dialing(w) ||
             (PcOf(s, t) == Acquiring(w) && s.wrappers[w].holder == None)
    requires pc == Idle || pc == Holding(w) || pc == Dialing(w) || pc == MustRemove(w)
    requires x.holder == if pc == Holding(w) || pc == Dialing(w) then Some(t) else None
    requires x.failed ==> !Live(s, w) && Concerned(pc, w)
    requires pc.Dialing? ==> !Live(s, w) && !x.failed
    ensures Inv(Move(Put(s, w, x), t, pc))
  {
    assert GoroutineOk(s, t) && WrapperOk(s, w);
    assert PcOf(s, t) != Acquiring(w) ==> HoldsSemaphore(PcOf(s, t), w);
    var s' := Move(Put(s, w, x), t, pc);
    NotTheLock(s, t);
    TouchGuarantee(s, s', t, w, x, pc);
    TouchMap(s, s', t, w, x, pc);
    TouchCleans(s, s', t, w, x, pc);
    TouchPreserves(s, s', t, w, x, pc);
  }

  lemma NotTheLock(s: State, t: Tid)
    requires Inv(s) && !PcOf(s, t).Removing?
    ensures s.lock != Some(t)
  {
  }

  lemma LoadKeeps(s: State, t: Tid, addr: Addr, w: W)
    requires Inv(s) && Can(s, Load(t, addr, w))
    ensures Inv(DoLoad(s, t, addr, w))
  {
    if addr in s.conn { MoveKeeps(s, t, Acquiring(s.conn[addr])); } else { CreateKeeps(s, t, addr, w); }
  }

  lemma CreateKeeps(s: State, t: Tid, addr: Addr, w: W)
    requires Inv(s) && Can(s, Load(t, addr, w)) && addr !in s.conn
    ensures Inv(DoLoad(s, t, addr, w))
  {
    var s', x := DoLoad(s, t, addr, w), Wrapper(addr, None, None, false);
    TouchGuarantee(s, s', t, w, x, Acquiring(w));
    TouchMap(s, s', t, w, x, Acquiring(w));
    TouchCleans(s, s', t, w, x, Acquiring(w));
    TouchPreserves(s, s', t, w, x, Acquiring(w));
  }

  /** Going on to removeConn, from Dial or from a close handler. */
  lemma ToRemoveKeeps(s: State, t: Tid, w: W)
    requires Inv(s) && w in s.wrappers && (PcOf(s, t) == Idle || PcOf(s, t) == Acquiring(w))
    ensures Inv(Move(s, t, MustRemove(w)))
  {
    assert Concerned(PcOf(Move(s, t, MustRemove(w)), t), w);
    MoveKeeps(s, t, MustRemove(w));
  }

  lemma AcquireKeeps(s: State, t: Tid)
    requires Inv(s) && Can(s, Acquire(t))
    ensures Inv(DoAcquire(s, t))
  {
    var w := PcOf(s, t).w;
    assert GoroutineOk(s, t) && WrapperOk(s, w);
    TouchKeeps(s, t, w, Get(s, w).(holder := Some(t)), Holding(w));
  }

  lemma CheckKeeps(s: State, t: Tid)
    requires Inv(s) && PcOf(s, t).Holding?
    ensures Inv(DoCheck(s, t))
  {
    var w := PcOf(s, t).w;
    assert GoroutineOk(s, t) && HoldsSemaphore(PcOf(s, t), w) && WrapperOk(s, w);
    var x := Get(s, w);
    if Live(s, w) {
      TouchKeeps(s, t, w, x.(holder := None), Idle);
    } else if x.failed {
      TouchKeeps(s, t, w, x.(holder := None), MustRemove(w));
    } else {
      TouchKeeps(s, t, w, x, Dialing(w));
      assert Put(s, w, x) == s;
    }
  }

  lemma DialFailsKeeps(s: State, t: Tid)
    requires Inv(s) && PcOf(s, t).Dialing?
    ensures Inv(DoDialFails(s, t))
  {
    var w := PcOf(s, t).w;
    assert GoroutineOk(s, t) && HoldsSemaphore(PcOf(s, t), w);
    TouchKeeps(s, t, w, Get(s, w).(holder := None, failed := true), MustRemove(w));
  }

  lemma DialSucceedsKeeps(s: State, t: Tid)
    requires Inv(s) && PcOf(s, t).Dialing?
    ensures Inv(DoDialSucceeds(s, t))
  {
    var w, s' := PcOf(s, t).w, DoDialSucceeds(s, t);
    assert GoroutineOk(s, t) && HoldsSemaphore(PcOf(s, t), w);
    NotTheLock(s, t);
    var x, pc := Get(s', w), PcOf(s', t);
    TouchGuarantee(s, s', t, w, x, pc);
    TouchMap(s, s', t, w, x, pc);
    TouchCleans(s, s', t, w, x, pc);
    TouchPreserves(s, s', t, w, x, pc);
  }

  lemma RegisterKeeps(s: State, t: Tid)
    requires Inv(s) && PcOf(s, t).Registering?
    ensures Inv(DoRegister(s, t))
  {
    assert GoroutineOk(s, t);
    MoveKeeps(s, t, Idle);
    HandlersKeep(Move(s, t, Idle), s.closeHandlers + {(PcOf(s, t).c, PcOf(s, t).w)});
  }

  lemma HandlersKeep(s: State, handlers: set<(Client, W)>)
    requires Inv(s) && forall h | h in handlers :: h.1 in s.wrappers
    ensures Inv(s.(closeHandlers := handlers))
  {
    var s' := s.(closeHandlers := handlers);
    forall u ensures GoroutineOk(s', u) { assert GoroutineOk(s, u); }
    forall w | w in s'.wrappers ensures WrapperOk(s', w) { assert WrapperOk(s, w); }
    forall w | InMap(s', w) && s'.wrappers[w].failed ensures SomeoneCleans(s', w) {
      assert InMap(s, w) && SomeoneCleans(s, w);
      var u :| Concerned(PcOf(s, u), w);
      assert Concerned(PcOf(s', u), w);
    }
  }

  /** removeConn gives up only when the wrapper is not mapped, or when somebody
      inside Dial holds it, who will find the sticky error and clean up. */
  lemma LockForRemoveKeeps(s: State, t: Tid)
    requires Inv(s) && PcOf(s, t).MustRemove? && s.lock == None
    ensures Inv(DoLockForRemove(s, t))
  {
    var w := PcOf(s, t).w;
    assert GoroutineOk(s, t);
    var addr := Get(s, w).addr;
    if addr !in s.conn {
      MoveKeeps(s, t, Idle);
    } else {
      var m := s.conn[addr];
      assert WrapperOk(s, m);
      if Get(s, m).holder.Some? { GiveUpKeeps(s, t, m); } else { GrantedKeeps(s, t, m); }
    }
  }

  lemma GiveUpKeeps(s: State, t: Tid, m: W)
    requires Inv(s) && PcOf(s, t).MustRemove? && s.lock == None
    requires m in s.wrappers && s.wrappers[m].holder.Some?
    requires InMap(s, PcOf(s, t).w) ==> PcOf(s, t).w == m
    ensures Inv(Move(s, t, Idle))
  {
    var u := s.wrappers[m].holder.value;
    assert WrapperOk(s, m) && GoroutineOk(s, u);
    assert PcOf(Move(s, t, Idle), u) == PcOf(s, u);
    assert s.wrappers[m].failed ==> Concerned(PcOf(Move(s, t, Idle), u), m);
    MoveKeeps(s, t, Idle);
  }

  lemma GrantedKeeps(s: State, t: Tid, m: W)
    requires Inv(s) && PcOf(s, t).MustRemove? && s.lock == None
    requires Get(s, PcOf(s, t).w).addr in s.conn && m == s.conn[Get(s, PcOf(s, t).w).addr] && Get(s, m).holder == None
    ensures Inv(DoLockForRemove(s, t))
  {
    var w, s' := PcOf(s, t).w, DoLockForRemove(s, t);
    assert GoroutineOk(s, t) && WrapperOk(s, m);
    var x := Get(s, m).(holder := Some(t));
    TouchGuarantee(s, s', t, m, x, Removing(w, m));
    TouchMap(s, s', t, m, x, Removing(w, m));
    TouchCleans(s, s', t, m, x, Removing(w, m));
    TouchPreserves(s, s', t, m, x, Removing(w, m));
  }

  lemma RemoveKeeps(s: State, t: Tid)
    requires Inv(s) && PcOf(s, t).Removing?
    ensures Inv(DoRemove(s, t))
  {
    var m, s' := PcOf(s, t).m, DoRemove(s, t);
    assert GoroutineOk(s, t) && HoldsSemaphore(PcOf(s, t), m) && WrapperOk(s, m);
    var x := Get(s, m).(holder := None);
    TouchGuarantee(s, s', t, m, x, Idle);
    TouchMap(s, s', t, m, x, Idle);
    TouchCleans(s, s', t, m, x, Idle);
    TouchPreserves(s, s', t, m, x, Idle);
  }

  lemma EnvironmentKeeps(s: State, s': State)
    requires Inv(s) && (s' == s.(alive := s'.alive) || (s.lock == None && s' == s.(conn := map[])))
    requires forall c | c in s'.alive :: c in s.alive
    ensures Inv(s')
  {
    forall t ensures GoroutineOk(s', t) { assert GoroutineOk(s, t); }
    forall w | w in s'.wrappers ensures WrapperOk(s', w) { assert WrapperOk(s, w); }
    forall w | InMap(s', w) && s'.wrappers[w].failed ensures SomeoneCleans(s', w) {
      assert SomeoneCleans(s, w);
      var u :| Concerned(PcOf(s, u), w);
      assert Concerned(PcOf(s', u), w);
    }
  }

  lemma StepKeeps(s: State, a: Action)
    requires Inv(s) && Can(s, a)
    ensures Inv(Do(s, a))
  {
    match a
    case Load(t, addr, w) => LoadKeeps(s, t, addr, w);
    case AcquireFails(t) => assert GoroutineOk(s, t); ToRemoveKeeps(s, t, PcOf(s, t).w);
    case Acquire(t) => AcquireKeeps(s, t);
    case Check(t) => CheckKeeps(s, t);
    case DialFails(t) => DialFailsKeeps(s, t);
    case DialSucceeds(t) => DialSucceedsKeeps(s, t);
    case Register(t) => RegisterKeeps(s, t);
    case LockForRemove(t) => LockForRemoveKeeps(s, t);
    case Remove(t) => RemoveKeeps(s, t);
    case Die(c) => EnvironmentKeeps(s, Do(s, a));
    case CloseCallback(t, c, w) => assert (c, w).1 in s.wrappers; ToRemoveKeeps(s, t, w);
    case PopAll(t) => EnvironmentKeeps(s, Do(s, a));
  }

  lemma {:induction false} RunKeeps(s: State, run: seq<Action>)
    requires Inv(s) && Exec(s, run).Some?
    ensures Inv(Exec(s, run).value)
    decreases run
  {
    if run != [] {
      StepKeeps(s, run[0]);
      RunKeeps(Do(s, run[0]), run[1..]);
    }
  }

  // ---------------------------------------------------------------- main results

  ghost predicate Reachable(s: State) {
    exists run :: Exec(INIT, run) == Some(s)
  }

  lemma ReachableInv(s: State)
    requires Reachable(s)
    ensures Inv(s)
  {
    var run :| Exec(INIT, run) == Some(s);
    RunKeeps(INIT, run);
  }

  /** A wrapper has at most one dial in flight, and dials only while it has no
      live connection and no dial of it has failed. */
  lemma OneDialAtATime(s: State, t: Tid, u: Tid, w: W)
    requires Reachable(s) && PcOf(s, t) == Dialing(w) && PcOf(s, u) == Dialing(w)
    ensures t == u && !Live(s, w) && !Get(s, w).failed
  {
    ReachableInv(s);
    assert GoroutineOk(s, t) && GoroutineOk(s, u);
    assert HoldsSemaphore(PcOf(s, t), w) && HoldsSemaphore(PcOf(s, u), w);
  }

  lemma FailedStays(s: State, a: Action, w: W)
    requires Inv(s) && Can(s, a) && w in s.wrappers && s.wrappers[w].failed
    ensures Get(Do(s, a), w).failed && Get(Do(s, a), w).client == s.wrappers[w].client
  {
    if a.DialSucceeds? {
      assert GoroutineOk(s, a.t);
    }
  }

  /** A dial error is final: whatever happens later, the wrapper keeps its error,
      never gets another connection and never has a live one. */
  lemma {:induction false} FailedForever(s: State, run: seq<Action>, w: W)
    requires Inv(s) && Exec(s, run).Some? && w in s.wrappers && s.wrappers[w].failed
    ensures var s' := Exec(s, run).value;
            w in s'.wrappers && s'.wrappers[w].failed && s'.wrappers[w].client == s.wrappers[w].client && !Live(s', w)
    decreases run
  {
    if run == [] {
      assert WrapperOk(s, w);
    } else {
      StepKeeps(s, run[0]);
      FailedStays(s, run[0], w);
      FailedForever(Do(s, run[0]), run[1..], w);
    }
  }

  /** A wrapper whose dial failed never stays behind: while it is in the map some
      goroutine is inside Dial for it or on its way to removeConn for it, so
      none is left once all of them have finished. */
  lemma NoFailedWrapperStaysBehind(s: State, addr: Addr)
    requires Reachable(s) && addr in s.conn && Get(s, s.conn[addr]).failed
    ensures exists t :: Concerned(PcOf(s, t), s.conn[addr])
  {
    ReachableInv(s);
    assert InMap(s, s.conn[addr]);
    assert SomeoneCleans(s, s.conn[addr]);
  }

  predicate Steps(a: Action, u: Tid) {
    match a
    case Acquire(t) => t == u
    case Check(t) => t == u
    case DialFails(t) => t == u
    case Register(t) => t == u
    case LockForRemove(t) => t == u
    case Remove(t) => t == u
    case _ => false
  }

  /** Semaphores and lock never deadlock: while a goroutine is not finished, it can go
      on, or the holder of the semaphore or of the lock it waits for can. */
  lemma NoDeadlock(s: State, t: Tid) returns (u: Tid, a: Action)
    requires Reachable(s) && PcOf(s, t) != Idle
    ensures Can(s, a) && Steps(a, u)
    ensures u == t
         || (PcOf(s, t).Acquiring? && Get(s, PcOf(s, t).w).holder == Some(u))
         || (PcOf(s, t).MustRemove? && s.lock == Some(u))
  {
    ReachableInv(s);
    assert GoroutineOk(s, t) && WrapperOk(s, PcOf(s, t).w);
    match PcOf(s, t)
    case Acquiring(w) =>
      if s.wrappers[w].holder == None { return t, Acquire(t); }
      u := s.wrappers[w].holder.value;
      assert GoroutineOk(s, u);
      a := match PcOf(s, u) case Holding(_) => Check(u) case Dialing(_) => DialFails(u) case _ => Remove(u);
    case Holding(_) => return t, Check(t);
    case Dialing(_) => return t, DialFails(t);
    case Registering(_, _) => return t, Register(t);
    case MustRemove(_) =>
      if s.lock.Some? { return s.lock.value, Remove(s.lock.value); }
      return t, LockForRemove(t);
    case Removing(_, _) => return t, Remove(t);
  }

  /** What removeConn does to healthy connections: it takes a wrapper with a live
      connection out of the map exactly when the wrapper it was called for is the
      mapped one and is connected, which it never checks. */
  lemma RemoveDropsALiveConnection(s: State, t: Tid)
    requires Reachable(s) && PcOf(s, t).Removing?
    ensures (exists v :: InMap(s, v) && Live(s, v) && !InMap(DoRemove(s, t), v)) <==>
            PcOf(s, t).m == PcOf(s, t).w && Live(s, PcOf(s, t).w)
  {
    ReachableInv(s);
    assert GoroutineOk(s, t);
    var w, m, s' := PcOf(s, t).w, PcOf(s, t).m, DoRemove(s, t);
    assert HoldsSemaphore(PcOf(s, t), m) && WrapperOk(s, m);
    assert forall v | v in s.wrappers :: Live(s', v) == Live(s, v);
    if m == w && Live(s, w) {
      assert InMap(s, w) && Deletes(s, w, m) && !InMap(s', w);
    } else if v :| InMap(s, v) && Live(s, v) && !InMap(s', v) {
      assert v == m;
    }
  }

  lemma {:induction false} ExecAppend(s: State, r1: seq<Action>, r2: seq<Action>)
    requires Exec(s, r1).Some?
    ensures Exec(s, r1 + r2) == Exec(Exec(s, r1).value, r2)
    decreases r1
  {
    if r1 == [] {
      assert r1 + r2 == r2;
    } else {
      ExecAppend(Do(s, r1[0]), r1[1..], r2);
      assert (r1 + r2)[1..] == r1[1..] + r2;
    }
  }

  lemma ExecOne(s: State, run: seq<Action>, a: Action)
    requires Exec(s, run).Some? && Can(Exec(s, run).value, a)
    ensures Exec(s, run + [a]) == Some(Do(Exec(s, run).value, a))
  {
    ExecAppend(s, run, [a]);
    assert [a][1..] == [];
  }

  lemma ExecCons(s: State, a: Action, run: seq<Action>)
    requires Can(s, a)
    ensures Exec(s, [a] + run) == Exec(Do(s, a), run)
  {
    assert ([a] + run)[1..] == run;
  }

  /** A first caller for an address connects. */
  lemma Connects(s: State, t: Tid, addr: Addr, w: W) returns (run: seq<Action>)
    requires PcOf(s, t) == Idle && s.lock == None && addr !in s.conn && w !in s.wrappers
    ensures Exec(s, run).Some?
    ensures var s', c := Exec(s, run).value, s.dialed + 1;
            && s'.conn == s.conn[addr := w] && s'.lock == None && s'.alive == s.alive + {c}
            && s'.wrappers == s.wrappers[w := Wrapper(addr, None, Some(c), false)]
            && s'.pcs == s.pcs[t := Registering(w, c)] && s'.dialed == c
    ensures forall a | a in run :: !a.Remove? && !a.PopAll?
  {
    var s1 := Do(s, Load(t, addr, w));
    var s2 := Do(s1, Acquire(t));
    var s3 := Do(s2, Check(t));
    ExecCons(s3, DialSucceeds(t), []);
    ExecCons(s2, Check(t), [DialSucceeds(t)]);
    ExecCons(s1, Acquire(t), [Check(t), DialSucceeds(t)]);
    ExecCons(s, Load(t, addr, w), [Acquire(t), Check(t), DialSucceeds(t)]);
    run := [Load(t, addr, w)] + [Acquire(t), Check(t), DialSucceeds(t)];
    assert [Acquire(t)] + [Check(t), DialSucceeds(t)] == [Acquire(t), Check(t), DialSucceeds(t)];
    assert [Check(t)] + [DialSucceeds(t)] == [Check(t), DialSucceeds(t)];
    assert [DialSucceeds(t)] + [] == [DialSucceeds(t)];
  }

  /** A caller whose context has ended is refused by the semaphore of a connected wrapper,
      which nobody holds, and takes the wrapper out of the map; the connection stays alive. */
  lemma GivesUpAtOnce(s: State, t: Tid, w: W, unused: W) returns (run: seq<Action>)
    requires PcOf(s, t) == Idle && s.lock == None && InMap(s, w) && Live(s, w)
    requires s.wrappers[w].holder == None && unused !in s.wrappers
    ensures Exec(s, run).Some?
    ensures Exec(s, run).value == s.(conn := s.conn - {s.wrappers[w].addr}, pcs := s.pcs[t := Idle])
  {
    var addr := s.wrappers[w].addr;
    ExecOne(s, [], Load(t, addr, unused));
    run := [] + [Load(t, addr, unused)];
    ExecOne(s, run, AcquireFails(t));
    run := run + [AcquireFails(t)];
    ExecOne(s, run, LockForRemove(t));
    run := run + [LockForRemove(t)];
    var s3 := Exec(s, run).value;
    assert s3.wrappers[w := s.wrappers[w]] == s.wrappers;
    ExecOne(s, run, Remove(t));
    run := run + [Remove(t)];
  }

  /** So "at most one live connection for an address" does not hold: one caller
      connects, a second gives up, a third connects once more. Module OneConnection says
      exactly which steps lead there. */
  lemma TwoLiveConnectionsToOneAddress() returns (run: seq<Action>)
    ensures Exec(INIT, run).Some?
    ensures var s := Exec(INIT, run).value;
            Live(s, 1) && Live(s, 2) && s.wrappers[1].addr == s.wrappers[2].addr && InMap(s, 2) && !InMap(s, 1)
  {
    var r1 := Connects(INIT, 0, "coap://a", 1);
    var s1 := Exec(INIT, r1).value;
    var r2 := GivesUpAtOnce(s1, 1, 1, 2);
    var s2 := Exec(s1, r2).value;
    var r3 := Connects(s2, 2, "coap://a", 2);
    ExecAppend(s1, r2, r3);
    ExecAppend(INIT, r1, r2 + r3);
    run := r1 + (r2 + r3);
  }
}
