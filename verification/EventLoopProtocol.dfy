/** pkg/eventloop/eventloop.go, the concurrent part: any number of goroutines in
    Add and RemoveByChannels against one goroutine in Run.

    Each atomic operation is one step: loading the handlers pointer, the
    compare-and-swap, the non-blocking send on the one-slot wake channel, one
    select. A pointer is an address in `heap`; 0 is nil. A handler list is never
    changed after it was built, and building one takes an unused address.

    Assumed of reflect.Select: it takes one ready case, any of them. */
module EventLoopProtocol {
  import opened EventLoop
  import opened Wrappers

  type Tid = nat
  type Ptr = nat

  datatype Op = Add(hs: seq<Handler>) | Remove(chs: set<Chan>)

  datatype Who = Goroutine(t: Tid) | Runner

  /** One successful compare-and-swap. */
  datatype Entry = Entry(who: Who, op: Op)

  datatype Pc =
    | Idle
    | Trying(op: Op)                          // before Load
    | Built(op: Op, orig: Ptr, made: Ptr)     // before CompareAndSwap
    | MustWake                                // swapped, before Wake

  datatype Run =
    | NotStarted
    | Ready(last: Ptr, cases: seq<Case>)                  // before the loop's getCases
    | Blocked(last: Ptr, cases: seq<Case>)                // in reflect.Select
    | Closing(last: Ptr, cases: seq<Case>, i: nat, ch: Chan)   // removing a closed channel, before Load
    | Swapping(last: Ptr, cases: seq<Case>, i: nat, ch: Chan, orig: Ptr, made: Ptr)
    | InHandler(last: Ptr, cases: seq<Case>, i: nat, closed: bool)
    | Returned
    | Panicked

  datatype State = State(
    heap: map<Ptr, seq<Handler>>,
    handlers: Ptr,
    wake: bool,
    pcs: map<Tid, Pc>,
    run: Run,
    // history: the swaps so far, the operations each goroutine called, how many
    // swaps the runner's snapshot has seen, and when the runner removed a channel
    log: seq<Entry>,
    called: map<Tid, seq<Op>>,
    seen: nat,
    closedAt: map<Chan, nat>)

  const INIT := State(map[], 0, false, map[], NotStarted, [], map[], 0, map[])

  datatype Action =
    | Call(t: Tid, op: Op) | Build(t: Tid, made: Ptr) | Swap(t: Tid) | Signal(t: Tid)
    | Start | GetCases | SelectStop | SelectWake | SelectRecv(idx: nat, ok: bool)
    | RunnerBuild(made: Ptr) | RunnerSwap | Return

  function PcOf(s: State, t: Tid): Pc {
    if t in s.pcs then s.pcs[t] else Idle
  }

  function At(heap: map<Ptr, seq<Handler>>, p: Ptr): seq<Handler> {
    if p in heap then heap[p] else []
  }

  /** What an attempt computes from the list it loaded (BuildWith and RemoveAttempt). */
  function Result(op: Op, hs: seq<Handler>): seq<Handler> {
    match op
    case Add(more) => hs + more
    case Remove(chs) => Without(hs, chs)
  }

  /** The operations replayed one after the other. */
  function Replay(log: seq<Entry>): seq<Handler> {
    if log == [] then [] else Result(log[|log|-1].op, Replay(log[..|log|-1]))
  }

  function Called(s: State, t: Tid): seq<Op> {
    if t in s.called then s.called[t] else []
  }

  predicate Unused(s: State, p: Ptr) {
    p != 0 && p !in s.heap
  }

  predicate Can(s: State, a: Action) {
    match a
    case Call(t, _) => PcOf(s, t) == Idle
    case Build(t, made) => PcOf(s, t).Trying? && Unused(s, made)
    case Swap(t) => PcOf(s, t).Built?
    case Signal(t) => PcOf(s, t) == MustWake
    case Start => s.run == NotStarted
    case GetCases => s.run.Ready?
    case SelectStop => s.run.Blocked?
    case SelectWake => s.run.Blocked? && s.wake
    case SelectRecv(idx, _) => s.run.Blocked? && 2 <= idx < |s.run.cases|
    case RunnerBuild(made) => s.run.Closing? && Unused(s, made)
    case RunnerSwap => s.run.Swapping?
    case Return => s.run.InHandler?
  }

  /** getCases: the new snapshot and its cases, None where it dereferences nil. */
  function Cases(s: State, last: Ptr, cases: seq<Case>): Option<(Ptr, seq<Case>)> {
    if s.handlers == last then Some((last, cases))
    else if s.handlers == 0 then None
    else Some((s.handlers, CasesOf(At(s.heap, s.handlers))))
  }

  function DoCall(s: State, t: Tid, op: Op): State {
    s.(pcs := s.pcs[t := Trying(op)], called := s.called[t := Called(s, t) + [op]])
  }

  function DoBuild(s: State, t: Tid, made: Ptr): State
    requires PcOf(s, t).Trying?
  {
    var op := PcOf(s, t).op;
    s.(heap := s.heap[made := Result(op, At(s.heap, s.handlers))],
       pcs := s.pcs[t := Built(op, s.handlers, made)])
  }

  function DoSwap(s: State, t: Tid): State
    requires PcOf(s, t).Built?
  {
    var pc := PcOf(s, t);
    if s.handlers == pc.orig
    then s.(handlers := pc.made, log := s.log + [Entry(Goroutine(t), pc.op)], pcs := s.pcs[t := MustWake])
    else s.(pcs := s.pcs[t := Trying(pc.op)])
  }

  function DoSignal(s: State, t: Tid): State {
    s.(wake := true, pcs := s.pcs[t := Idle])
  }

  function DoStart(s: State): State {
    match Cases(s, 0, [Stop, Wake])
    case None => s.(run := Panicked)
    case Some((last, cases)) => s.(run := Ready(last, cases))
  }

  function DoGetCases(s: State): State
    requires s.run.Ready?
  {
    match Cases(s, s.run.last, s.run.cases)
    case None => s.(run := Panicked)
    case Some((last, cases)) => s.(run := Blocked(last, cases), seen := |s.log|)
  }

  function DoSelectRecv(s: State, idx: nat, ok: bool): State
    requires s.run.Blocked? && idx >= 2
  {
    var i, hs := idx - 2, At(s.heap, s.run.last);
    if s.run.last == 0 || i >= |hs| then s.(run := Panicked)
    else if ok then s.(run := InHandler(s.run.last, s.run.cases, i, false))
    else s.(run := Closing(s.run.last, s.run.cases, i, hs[i].ch))
  }

  function DoRunnerBuild(s: State, made: Ptr): State
    requires s.run.Closing?
  {
    s.(heap := s.heap[made := Without(At(s.heap, s.handlers), {s.run.ch})],
       run := Swapping(s.run.last, s.run.cases, s.run.i, s.run.ch, s.handlers, made))
  }

  function DoRunnerSwap(s: State): State
    requires s.run.Swapping?
  {
    if s.handlers == s.run.orig
    then s.(handlers := s.run.made,
            log := s.log + [Entry(Runner, Remove({s.run.ch}))],
            closedAt := s.closedAt[s.run.ch := |s.log| + 1],
            run := InHandler(s.run.last, s.run.cases, s.run.i, true))
    else s.(run := Closing(s.run.last, s.run.cases, s.run.i, s.run.ch))
  }

  function Do(s: State, a: Action): State
    requires Can(s, a)
  {
    match a
    case Call(t, op) => DoCall(s, t, op)
    case Build(t, made) => DoBuild(s, t, made)
    case Swap(t) => DoSwap(s, t)
    case Signal(t) => DoSignal(s, t)
    case Start => DoStart(s)
    case GetCases => DoGetCases(s)
    case SelectStop => s.(run := Returned)
    case SelectWake => s.(run := Ready(s.run.last, s.run.cases), wake := false)
    case SelectRecv(idx, ok) => DoSelectRecv(s, idx, ok)
    case RunnerBuild(made) => DoRunnerBuild(s, made)
    case RunnerSwap => DoRunnerSwap(s)
    case Return => s.(run := Ready(s.run.last, s.run.cases))
  }

  function Exec(s: State, run: seq<Action>): Option<State>
    decreases run
  {
    if run == [] then Some(s)
    else if Can(s, run[0]) then Exec(Do(s, run[0]), run[1..])
    else None
  }

  // ----------------------------------------------------------------- invariants

  predicate Known(heap: map<Ptr, seq<Handler>>, p: Ptr) {
    p == 0 || p in heap
  }

  /** The published list is the replay of the log, and nil only before the first swap. */
  ghost predicate ListIsReplay(s: State) {
    && 0 !in s.heap && Known(s.heap, s.handlers)
    && (s.handlers == 0 <==> s.log == [])
    && At(s.heap, s.handlers) == Replay(s.log)
  }

  /** A list that waits for its swap was computed from the list at `orig`. */
  ghost predicate Prepared(heap: map<Ptr, seq<Handler>>, op: Op, orig: Ptr, made: Ptr) {
    Known(heap, orig) && made in heap && heap[made] == Result(op, At(heap, orig))
  }

  ghost predicate AllPrepared(s: State) {
    && (forall t | t in s.pcs && s.pcs[t].Built? :: Prepared(s.heap, s.pcs[t].op, s.pcs[t].orig, s.pcs[t].made))
    && (s.run.Swapping? ==> Prepared(s.heap, Remove({s.run.ch}), s.run.orig, s.run.made))
  }

  /** The runner's cases are those of its snapshot, which is a list that was
      published, and the index it works on is one of the snapshot. */
  ghost predicate RunnerAligned(s: State) {
    match s.run
    case NotStarted | Returned => true
    case Panicked => false
    case Ready(last, cases) => Snapshot(s, last, cases)
    case Blocked(last, cases) => Snapshot(s, last, cases) && SeenIs(s, last)
    case Closing(last, cases, i, ch) => Snapshot(s, last, cases) && WorksOn(s, last, i, ch)
    case Swapping(last, cases, i, ch, _, _) => Snapshot(s, last, cases) && WorksOn(s, last, i, ch)
    case InHandler(last, cases, i, closed) =>
      Snapshot(s, last, cases) && Works(s, last, i) && (closed ==> At(s.heap, last)[i].ch in s.closedAt)
  }

  ghost predicate Snapshot(s: State, last: Ptr, cases: seq<Case>) {
    Known(s.heap, last) && cases == CasesOf(At(s.heap, last)) && (s.handlers == 0 ==> last == 0)
  }

  ghost predicate Works(s: State, last: Ptr, i: nat) {
    i < |At(s.heap, last)|
  }

  ghost predicate WorksOn(s: State, last: Ptr, i: nat, ch: Chan) {
    Works(s, last, i) && At(s.heap, last)[i].ch == ch
  }

  /** The snapshot is what the first `seen` swaps made. */
  ghost predicate SeenIs(s: State, last: Ptr) {
    s.seen <= |s.log| && At(s.heap, last) == Replay(s.log[..s.seen])
  }

  /** No lost wakeup. */
  ghost predicate WillBeWoken(s: State) {
    s.wake || exists t :: t in s.pcs && s.pcs[t] == MustWake
  }

  ghost predicate NoLostWakeup(s: State) {
    s.run.Blocked? && s.run.last != s.handlers ==> WillBeWoken(s)
  }

  ghost predicate RemovedAt(log: seq<Entry>, k: nat, c: Chan) {
    0 < k <= |log| && log[k-1].op.Remove? && c in log[k-1].op.chs
  }

  /** The runner's own removals are in the log, and a blocked runner has seen them. */
  ghost predicate ClosedAreRemoved(s: State) {
    forall c | c in s.closedAt :: RemovedAt(s.log, s.closedAt[c], c) && (s.run.Blocked? ==> s.closedAt[c] <= s.seen)
  }

  /** The operations of one goroutine in the order of their swaps. */
  function By(log: seq<Entry>, t: Tid): seq<Op> {
    if log == [] then []
    else
      var last := log[|log|-1];
      By(log[..|log|-1], t) + if last.who == Goroutine(t) then [last.op] else []
  }

  function Pending(pc: Pc): seq<Op> {
    if pc.Trying? || pc.Built? then [pc.op] else []
  }

  /** Every call takes effect exactly once, in the caller's order, before it returns. */
  ghost predicate InProgramOrder(s: State) {
    forall t: Tid :: Called(s, t) == By(s.log, t) + Pending(PcOf(s, t))
  }

  ghost predicate Inv(s: State) {
    && ListIsReplay(s) && AllPrepared(s) && RunnerAligned(s)
    && NoLostWakeup(s) && ClosedAreRemoved(s) && InProgramOrder(s)
  }

  // ---------------------------------------------------------- one lemma per step

  lemma ReplayAppend(log: seq<Entry>, e: Entry)
    ensures Replay(log + [e]) == Result(e.op, Replay(log))
  {
    assert (log + [e])[..|log|] == log;
  }

  lemma ByAppend(log: seq<Entry>, e: Entry, t: Tid)
    ensures By(log + [e], t) == By(log, t) + if e.who == Goroutine(t) then [e.op] else []
  {
    assert (log + [e])[..|log|] == log;
  }

  /** A goroutine that has to wake the runner still has to, unless it is the one that moved. */
  lemma StillWakes(s: State, s': State, t: Tid, pc: Pc)
    requires NoLostWakeup(s) && PcOf(s, t) != MustWake
    requires s'.run == s.run && s'.wake == s.wake && s'.handlers == s.handlers && s'.pcs == s.pcs[t := pc]
    ensures NoLostWakeup(s')
  {
    if u :| u in s.pcs && s.pcs[u] == MustWake { assert s'.pcs[u] == MustWake; }
  }

  lemma CallsInOrder(s: State, t: Tid, op: Op)
    requires InProgramOrder(s) && PcOf(s, t) == Idle
    ensures InProgramOrder(DoCall(s, t, op))
  {
    assert Called(s, t) == By(s.log, t) + Pending(PcOf(s, t));
  }

  lemma CallKeeps(s: State, t: Tid, op: Op)
    requires Inv(s) && PcOf(s, t) == Idle
    ensures Inv(DoCall(s, t, op))
  {
    StillWakes(s, DoCall(s, t, op), t, Trying(op));
    CallsInOrder(s, t, op);
  }

  lemma SignalKeeps(s: State, t: Tid)
    requires Inv(s) && PcOf(s, t) == MustWake
    ensures Inv(DoSignal(s, t))
  {
  }

  /** Building a list at an unused address leaves every list that exists as it is. */
  lemma HeapGrows(s: State, s': State, made: Ptr, hs: seq<Handler>)
    requires Inv(s) && Unused(s, made) && s'.heap == s.heap[made := hs]
    requires s'.handlers == s.handlers && s'.log == s.log && s'.seen == s.seen && s'.closedAt == s.closedAt
    ensures ListIsReplay(s')
    ensures forall op, orig, m | Prepared(s.heap, op, orig, m) :: Prepared(s'.heap, op, orig, m)
    ensures s'.run == s.run ==> RunnerAligned(s')
  {
  }

  lemma BuildKeeps(s: State, t: Tid, made: Ptr)
    requires Inv(s) && PcOf(s, t).Trying? && Unused(s, made)
    ensures Inv(DoBuild(s, t, made))
  {
    var s' := DoBuild(s, t, made);
    HeapGrows(s, s', made, s'.heap[made]);
    StillWakes(s, s', t, s'.pcs[t]);
  }

  /** A swap that succeeds publishes the operation's effect on the list it replaces. */
  lemma Published(s: State, s': State, made: Ptr, e: Entry)
    requires ListIsReplay(s) && Prepared(s.heap, e.op, s.handlers, made)
    requires s'.heap == s.heap && s'.handlers == made && s'.log == s.log + [e]
    ensures ListIsReplay(s')
  {
    ReplayAppend(s.log, e);
  }

  /** What the runner has seen and removed stays true when the log grows. */
  lemma LogGrows(s: State, s': State, e: Entry)
    requires RunnerAligned(s) && ClosedAreRemoved(s) && s'.heap == s.heap && s'.log == s.log + [e]
    requires s'.handlers != 0 && s'.seen == s.seen && forall c | c in s.closedAt :: c in s'.closedAt
    ensures s'.run == s.run ==> RunnerAligned(s')
    ensures forall c | c in s.closedAt :: RemovedAt(s'.log, s.closedAt[c], c)
  {
    if s.seen <= |s.log| { assert s'.log[..s.seen] == s.log[..s.seen]; }
  }

  /** A swap ends what the operation's caller was waiting for, and nobody else's. */
  lemma SwapsInOrder(s: State, s': State, e: Entry)
    requires InProgramOrder(s) && s'.called == s.called && s'.log == s.log + [e]
    requires if e.who.Goroutine? then s'.pcs == s.pcs[e.who.t := MustWake] && Pending(PcOf(s, e.who.t)) == [e.op]
             else s'.pcs == s.pcs
    ensures InProgramOrder(s')
  {
    forall u: Tid ensures Called(s', u) == By(s'.log, u) + Pending(PcOf(s', u)) {
      ByAppend(s.log, e, u);
    }
  }

  lemma SwapSucceeds(s: State, t: Tid)
    requires Inv(s) && PcOf(s, t).Built? && s.handlers == PcOf(s, t).orig
    ensures Inv(DoSwap(s, t))
  {
    var s', pc := DoSwap(s, t), PcOf(s, t);
    var e := Entry(Goroutine(t), pc.op);
    Published(s, s', pc.made, e);
    LogGrows(s, s', e);
    SwapsInOrder(s, s', e);
    assert s'.pcs[t] == MustWake;
  }

  lemma SwapFails(s: State, t: Tid)
    requires Inv(s) && PcOf(s, t).Built? && s.handlers != PcOf(s, t).orig
    ensures Inv(DoSwap(s, t)) && DoSwap(s, t) == s.(pcs := s.pcs[t := Trying(PcOf(s, t).op)])
  {
    StillWakes(s, DoSwap(s, t), t, Trying(PcOf(s, t).op));
  }

  /** getCases always finds a list to make cases of, because the pointer never returns to nil. */
  lemma CasesAligned(s: State, last: Ptr, cases: seq<Case>)
    requires ListIsReplay(s) && Snapshot(s, last, cases)
    ensures Cases(s, last, cases).Some?
    ensures var (last', cases') := Cases(s, last, cases).value;
            last' == s.handlers && Snapshot(s, last', cases')
  {
  }

  lemma StartKeeps(s: State)
    requires Inv(s) && s.run == NotStarted
    ensures Inv(DoStart(s))
  {
    assert CasesOf([]) == [Stop, Wake];
    CasesAligned(s, 0, [Stop, Wake]);
  }

  lemma GetCasesKeeps(s: State)
    requires Inv(s) && s.run.Ready?
    ensures Inv(DoGetCases(s)) && DoGetCases(s).run.Blocked? && DoGetCases(s).run.last == s.handlers
  {
    CasesAligned(s, s.run.last, s.run.cases);
    assert s.log[..|s.log|] == s.log;
  }

  lemma SelectRecvKeeps(s: State, idx: nat, ok: bool)
    requires Inv(s) && s.run.Blocked? && 2 <= idx < |s.run.cases|
    ensures Inv(DoSelectRecv(s, idx, ok))
  {
  }

  lemma RunnerBuildKeeps(s: State, made: Ptr)
    requires Inv(s) && s.run.Closing? && Unused(s, made)
    ensures Inv(DoRunnerBuild(s, made))
  {
    var s' := DoRunnerBuild(s, made);
    HeapGrows(s, s', made, s'.heap[made]);
  }

  lemma RunnerSwapSucceeds(s: State)
    requires Inv(s) && s.run.Swapping? && s.handlers == s.run.orig
    ensures Inv(DoRunnerSwap(s))
  {
    var s' := DoRunnerSwap(s);
    var e := Entry(Runner, Remove({s.run.ch}));
    Published(s, s', s.run.made, e);
    LogGrows(s, s', e);
    SwapsInOrder(s, s', e);
    assert RemovedAt(s'.log, |s.log| + 1, s.run.ch);
  }

  /** The runner tries again, for the same channel and the same handler. */
  lemma RunnerSwapFails(s: State)
    requires Inv(s) && s.run.Swapping? && s.handlers != s.run.orig
    ensures Inv(DoRunnerSwap(s))
    ensures DoRunnerSwap(s) == s.(run := Closing(s.run.last, s.run.cases, s.run.i, s.run.ch))
  {
  }

  lemma StepKeeps(s: State, a: Action)
    requires Inv(s) && Can(s, a)
    ensures Inv(Do(s, a))
  {
    match a
    case Call(t, op) => CallKeeps(s, t, op);
    case Build(t, made) => BuildKeeps(s, t, made);
    case Swap(t) => if s.handlers == PcOf(s, t).orig { SwapSucceeds(s, t); } else { SwapFails(s, t); }
    case Signal(t) => SignalKeeps(s, t);
    case Start => StartKeeps(s);
    case GetCases => GetCasesKeeps(s);
    case SelectRecv(idx, ok) => SelectRecvKeeps(s, idx, ok);
    case RunnerBuild(made) => RunnerBuildKeeps(s, made);
    case RunnerSwap => if s.handlers == s.run.orig { RunnerSwapSucceeds(s); } else { RunnerSwapFails(s); }
    case SelectStop | SelectWake | Return => RunnerMoves(s, Do(s, a));
  }

  /** Steps of the runner that only change where it is, and leave the select. */
  lemma RunnerMoves(s: State, s': State)
    requires Inv(s) && (s.run.Blocked? || s.run.InHandler?)
    requires s' == s.(run := s'.run, wake := s'.wake)
    requires s'.run == Returned || s'.run == Ready(s.run.last, s.run.cases)
    ensures Inv(s')
  {
  }

  lemma {:induction false} RunKeeps(s: State, run: seq<Action>)
    requires Inv(s) && Exec(s, run).Some?
    ensures Inv(Exec(s, run).value)
    decreases run
  {
    if run != [] {
      StepKeeps(s, run[0]);
      RunKeeps(Do(s, run[0]), run[1..]);
    }
  }

  // ---------------------------------------------------------------- main results

  ghost predicate Reachable(s: State) {
    exists run :: Exec(INIT, run) == Some(s)
  }

  lemma ReachableInv(s: State)
    requires Reachable(s)
    ensures Inv(s)
  {
    var run :| Exec(INIT, run) == Some(s);
    RunKeeps(INIT, run);
  }

  /** Linearizability. In every interleaving the published list is what the
      operations make one after the other in the order of their swaps, and each
      goroutine's calls are in that order exactly once each, except that a call
      still under way may not be in it yet. */
  lemma Linearizable(s: State, t: Tid)
    requires Reachable(s)
    ensures At(s.heap, s.handlers) == Replay(s.log)
    ensures Called(s, t) == By(s.log, t) + Pending(PcOf(s, t))
  {
    ReachableInv(s);
  }

  /** The panic for an index out of range and the dereferences of a nil list are unreachable,
      and at every select case i + 2 is the channel of handler i of the snapshot. */
  lemma DispatchIsAligned(s: State)
    requires Reachable(s)
    ensures s.run != Panicked
    ensures s.run.Blocked? ==>
              var hs := At(s.heap, s.run.last);
              |s.run.cases| == |hs| + 2 && forall i | 0 <= i < |hs| :: s.run.cases[i + 2] == On(hs[i].ch)
    ensures s.handlers == 0 <==> s.log == []
  {
    ReachableInv(s);
  }

  /** The handler that a selected case leads to. */
  ghost predicate Serves(s: State, s': State, idx: nat)
    requires s.run.Blocked? && idx < |s.run.cases|
  {
    && (s'.run.InHandler? || s'.run.Closing?) && s'.run.i + 2 == idx
    && s'.run.last == s.run.last && s'.run.i < |At(s.heap, s.run.last)|
    && s.run.cases[idx] == On(At(s.heap, s.run.last)[s'.run.i].ch)
  }

  /** Every case can be selected. A received value goes to the very handler whose case was selected, and nothing else
      changes; a closed channel is first taken on for removal. */
  lemma ServesTheSelectedCase(s: State, idx: nat, ok: bool)
    requires Reachable(s) && s.run.Blocked? && 2 <= idx < |s.run.cases|
    ensures Can(s, SelectRecv(idx, ok))
    ensures var s' := Do(s, SelectRecv(idx, ok));
            && s' == s.(run := s'.run) && Serves(s, s', idx)
            && (if ok then s'.run.InHandler? && !s'.run.closed
                else s'.run.Closing? && s.run.cases[idx] == On(s'.run.ch))
  {
    ReachableInv(s);
  }

  /** Undisturbed, the two steps after that remove exactly the closed channel, record it,
      and run the handler of the selected case with `closed`. */
  lemma ClosedChannelIsRemoved(s: State, idx: nat, made: Ptr) returns (run: seq<Action>)
    requires Reachable(s) && s.run.Blocked? && 2 <= idx < |s.run.cases| && Unused(s, made)
    ensures run == [SelectRecv(idx, false), RunnerBuild(made), RunnerSwap] && Exec(s, run).Some?
    ensures var s', i := Exec(s, run).value, (idx - 2) as nat;
            i < |At(s.heap, s.run.last)| &&
            var ch := At(s.heap, s.run.last)[i].ch;
            && s.run.cases[idx] == On(ch)
            && s'.run == InHandler(s.run.last, s.run.cases, i, true)
            && At(s'.heap, s'.handlers) == Without(At(s.heap, s.handlers), {ch})
            && s'.log == s.log + [Entry(Runner, Remove({ch}))]
            && s'.closedAt == s.closedAt[ch := |s'.log|]
            && s'.pcs == s.pcs && s'.called == s.called && s'.wake == s.wake
  {
    ServesTheSelectedCase(s, idx, false);
    var s1 := Do(s, SelectRecv(idx, false));
    var s2 := Do(s1, RunnerBuild(made));
    ExecCons(s2, RunnerSwap, []);
    ExecCons(s1, RunnerBuild(made), [RunnerSwap]);
    ExecCons(s, SelectRecv(idx, false), [RunnerBuild(made), RunnerSwap]);
    run := [SelectRecv(idx, false), RunnerBuild(made), RunnerSwap];
    assert [RunnerSwap] + [] == [RunnerSwap];
    assert [RunnerBuild(made)] + [RunnerSwap] == [RunnerBuild(made), RunnerSwap];
    assert [SelectRecv(idx, false)] + [RunnerBuild(made), RunnerSwap] == run;
  }

  lemma ExecCons(s: State, a: Action, run: seq<Action>)
    requires Can(s, a)
    ensures Exec(s, [a] + run) == Exec(Do(s, a), run)
  {
    assert ([a] + run)[1..] == run;
  }

  /** An undisturbed call takes effect on the published list, fills the wake slot and
      returns, and touches nothing of the runner's. */
  lemma CallCompletes(s: State, t: Tid, op: Op, made: Ptr) returns (run: seq<Action>)
    requires PcOf(s, t) == Idle && Unused(s, made)
    ensures run == [Call(t, op), Build(t, made), Swap(t), Signal(t)] && Exec(s, run).Some?
    ensures var s' := Exec(s, run).value;
            && At(s'.heap, s'.handlers) == (if op.Add? then At(s.heap, s.handlers) + op.hs
                                            else Without(At(s.heap, s.handlers), op.chs))
            && s'.handlers == made
            && PcOf(s', t) == Idle && s'.wake && s'.log == s.log + [Entry(Goroutine(t), op)]
            && s'.run == s.run && s'.seen == s.seen && s'.closedAt == s.closedAt
            && forall u | u != t :: PcOf(s', u) == PcOf(s, u)
  {
    var s1 := Do(s, Call(t, op));
    var s2 := Do(s1, Build(t, made));
    var s3 := Do(s2, Swap(t));
    ExecCons(s3, Signal(t), []);
    ExecCons(s2, Swap(t), [Signal(t)]);
    ExecCons(s1, Build(t, made), [Swap(t), Signal(t)]);
    ExecCons(s, Call(t, op), [Build(t, made), Swap(t), Signal(t)]);
    run := [Call(t, op), Build(t, made), Swap(t), Signal(t)];
    assert [Signal(t)] + [] == [Signal(t)];
    assert [Swap(t)] + [Signal(t)] == [Swap(t), Signal(t)];
    assert [Build(t, made)] + [Swap(t), Signal(t)] == [Build(t, made), Swap(t), Signal(t)];
    assert [Call(t, op)] + [Build(t, made), Swap(t), Signal(t)] == run;
  }

  /** The runner starts with the published list, and every turn of the loop loads it. A
      token is used up by one turn, a handler that is through leads to the next turn, and
      nothing else changes. */
  lemma TurnsTheLoop(s: State)
    requires Reachable(s)
    ensures s.run == NotStarted ==>
              Can(s, Start) && Do(s, Start) == s.(run := Ready(s.handlers, CasesOf(Replay(s.log))))
    ensures s.run.Ready? ==>
              Can(s, GetCases) &&
              Do(s, GetCases) == s.(run := Blocked(s.handlers, CasesOf(Replay(s.log))), seen := |s.log|)
    ensures s.run.Blocked? && s.wake ==>
              Can(s, SelectWake) && Do(s, SelectWake) == s.(wake := false, run := Ready(s.run.last, s.run.cases))
    ensures s.run.InHandler? ==> Can(s, Return) && Do(s, Return) == s.(run := Ready(s.run.last, s.run.cases))
    ensures s.run.Blocked? ==> Can(s, SelectStop) && Do(s, SelectStop) == s.(run := Returned)
  {
    ReachableInv(s);
    assert CasesOf([]) == [Stop, Wake];
  }

  /** At first nobody is in a call, nothing is registered and no token waits. */
  lemma StartsEmpty(t: Tid)
    ensures PcOf(INIT, t) == Idle && Called(INIT, t) == [] && At(INIT.heap, INIT.handlers) == [] && !INIT.wake
    ensures Reachable(INIT) && Can(INIT, Start) && Do(INIT, Start).run == Ready(0, [Stop, Wake])
  {
    assert Exec(INIT, []) == Some(INIT);
  }

  /** The runner leaves the loop exactly over the stop case. */
  lemma LeavesExactlyWhenStopped(s: State, a: Action)
    requires Can(s, a) && s.run != Returned
    ensures Do(s, a).run == Returned <==> a == SelectStop
  {
    match a
    case Call(t, op) =>
    case Build(t, made) =>
    case Swap(t) =>
    case Signal(t) =>
    case _ =>
  }

  /** No lost wakeup. A runner that is blocked on a stale snapshot is woken up
      without any further call: the wake slot is full, or a goroutine is between
      its swap and its Wake; and two or three steps later the runner is blocked on
      the list that is published then. */
  lemma StaleRunnerIsWoken(s: State) returns (more: seq<Action>)
    requires Reachable(s) && s.run.Blocked? && s.run.last != s.handlers
    ensures WillBeWoken(s)
    ensures more == [SelectWake, GetCases] || exists t: Tid :: more == [Signal(t), SelectWake, GetCases]
    ensures Exec(s, more).Some?
    ensures var s' := Exec(s, more).value;
            s'.run.Blocked? && s'.run.last == s'.handlers == s.handlers && s'.run.cases == CasesOf(Replay(s.log))
  {
    ReachableInv(s);
    if s.wake {
      more := [SelectWake, GetCases];
      WakeAndLoad(s, more);
    } else {
      var t :| t in s.pcs && s.pcs[t] == MustWake;
      more := [Signal(t), SelectWake, GetCases];
      SignalKeeps(s, t);
      WakeAndLoad(DoSignal(s, t), more[1..]);
    }
  }

  lemma WakeAndLoad(s: State, more: seq<Action>)
    requires Inv(s) && s.run.Blocked? && s.wake && more == [SelectWake, GetCases]
    ensures Exec(s, more).Some?
    ensures var s' := Exec(s, more).value;
            s'.run.Blocked? && s'.run.last == s'.handlers == s.handlers && s'.run.cases == CasesOf(Replay(s.log))
  {
    var s1 := Do(s, SelectWake);
    StepKeeps(s, SelectWake);
    GetCasesKeeps(s1);
    assert Exec(s, more) == Exec(s1, more[1..]);
    assert more[1..] == [GetCases] && more[1..][1..] == [];
    assert Exec(s1, [GetCases]) == Exec(DoGetCases(s1), []);
  }

  /** At rest the runner waits on exactly the handlers that are registered. */
  lemma QuietRunnerIsUpToDate(s: State)
    requires Reachable(s) && s.run.Blocked? && !s.wake
    requires forall t | t in s.pcs :: s.pcs[t] == Idle
    ensures s.run.cases == CasesOf(Replay(s.log))
  {
    ReachableInv(s);
  }

  ghost predicate Adds(op: Op, c: Chan) {
    op.Add? && exists h | h in op.hs :: h.ch == c
  }

  ghost predicate OnChan(hs: seq<Handler>, c: Chan) {
    exists h | h in hs :: h.ch == c
  }

  lemma {:induction false} WithoutIsOff(hs: seq<Handler>, chs: set<Chan>, c: Chan)
    ensures OnChan(Without(hs, chs), c) ==> OnChan(hs, c) && c !in chs
  {
    if hs != [] {
      WithoutIsOff(hs[..|hs|-1], chs, c);
      assert hs == hs[..|hs|-1] + [hs[|hs|-1]];
    }
  }

  /** A channel that was removed by the k-th swap is back only if a later swap added it. */
  lemma {:induction false} BackOnlyIfAdded(log: seq<Entry>, k: nat, c: Chan) returns (j: nat)
    requires RemovedAt(log, k, c) && OnChan(Replay(log), c)
    ensures k <= j < |log| && Adds(log[j].op, c)
  {
    var last, before := log[|log|-1].op, log[..|log|-1];
    if last.Remove? {
      WithoutIsOff(Replay(before), last.chs, c);
    } else if Adds(last, c) {
      return |log| - 1;
    }
    j := BackOnlyIfAdded(before, k, c);
  }

  /** After the closed callback of a channel no handler on it is dispatched until
      the channel is added again: whenever the select can pick a channel the runner
      has removed, some Add of it was swapped in after that removal. */
  lemma ClosedChannelStaysSilent(s: State, idx: nat) returns (j: nat)
    requires Reachable(s) && s.run.Blocked? && 2 <= idx < |s.run.cases|
    requires s.run.cases[idx].On? && s.run.cases[idx].ch in s.closedAt
    ensures s.closedAt[s.run.cases[idx].ch] <= j < |s.log| && Adds(s.log[j].op, s.run.cases[idx].ch)
  {
    ReachableInv(s);
    var c, hs := s.run.cases[idx].ch, At(s.heap, s.run.last);
    var prefix := s.log[..s.seen];
    assert hs[idx - 2] in hs && hs[idx - 2].ch == c;
    assert RemovedAt(prefix, s.closedAt[c], c);
    j := BackOnlyIfAdded(prefix, s.closedAt[c], c);
  }
}
