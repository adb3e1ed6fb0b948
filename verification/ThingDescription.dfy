/** bridge/device/thingDescription/manager.go: the thing-description notifier.

    Any number of goroutines call NotifySubscriptions and the event loop runs
    subscriptionHandler; every atomic operation is one step. The address of the
    k-th description ever stored is `k`, so a fresh store never reuses the
    address of an earlier one.

    Assumed of the foreign parts: a one-slot channel drops a send when full,
    and Range calls the callback for every subscription that stays in the map
    from its start to its end, and at most once for each. */
module ThingDescription {

  import opened Wrappers

  type Tid = nat
  type SubId = nat

  /** Where subscriptionHandler is. */
  datatype Handler =
    | Waiting                                                  // blocked in the event loop
    | Called                                                   // took the token, before lastTD.Load
    | Ranging(td: nat, todo: set<SubId>, visited: set<SubId>)  // inside subscriptions.Range
    | Clearing(td: nat)                                        // before lastTD.CompareAndSwap

  datatype State = State(
    stores: nat,                  // how many descriptions were stored so far
    lastTD: Option<nat>,
    subChan: bool,                // the channel's slot holds a token
    notifying: set<Tid>,          // goroutines between Store and the send
    handler: Handler,
    lastSubscription: nat,
    registering: set<SubId>,      // ids taken, before subscriptions.Store
    subscriptions: map<SubId, nat>,      // value: `stores` at registration
    received: map<SubId, seq<nat>>)      // what each subscriber was called with

  datatype Action =
    | Store(t: Tid) | Send(t: Tid)
    | Receive | Load | Visit(sub: SubId) | EndRange | Clear
    | TakeId | Register(sub: SubId) | Unregister(sub: SubId)

  const INIT := State(0, None, false, {}, Waiting, 0, {}, map[], map[])

  predicate Can(s: State, a: Action) {
    match a
    case Store(t) => t !in s.notifying
    case Send(t) => t in s.notifying
    case Receive => s.handler == Waiting && s.subChan
    case Load => s.handler == Called
    case Visit(sub) => s.handler.Ranging? && sub in s.subscriptions && sub !in s.handler.visited
    case EndRange =>
      s.handler.Ranging? && forall sub | sub in s.handler.todo && sub in s.subscriptions :: sub in s.handler.visited
    case Clear => s.handler.Clearing?
    case TakeId => true
    case Register(sub) => sub in s.registering
    case Unregister(sub) => sub in s.subscriptions
  }

  function Do(s: State, a: Action): State
    requires Can(s, a)
  {
    match a
    case Store(t) => s.(stores := s.stores + 1, lastTD := Some(s.stores + 1), notifying := s.notifying + {t})
    case Send(t) => s.(subChan := true, notifying := s.notifying - {t})
    case Receive => s.(subChan := false, handler := Called)
    case Load =>
      if s.lastTD == None then s.(handler := Waiting)
      else s.(handler := Ranging(s.lastTD.value, s.subscriptions.Keys, {}))
    case Visit(sub) =>
      var was := if sub in s.received then s.received[sub] else [];
      s.(received := s.received[sub := was + [s.handler.td]],
         handler := s.handler.(visited := s.handler.visited + {sub}))
    case EndRange => s.(handler := Clearing(s.handler.td))
    case Clear =>
      s.(lastTD := if s.lastTD == Some(s.handler.td) then None else s.lastTD, handler := Waiting)
    case TakeId =>
      s.(lastSubscription := s.lastSubscription + 1, registering := s.registering + {s.lastSubscription + 1})
    case Register(sub) =>
      s.(registering := s.registering - {sub}, subscriptions := s.subscriptions[sub := s.stores])
    case Unregister(sub) => s.(subscriptions := s.subscriptions - {sub})
  }

  /** The state after a run, if every step of it can be taken. */
  function Exec(s: State, run: seq<Action>): Option<State>
    decreases run
  {
    if run == [] then Some(s)
    else if Can(s, run[0]) then Exec(Do(s, run[0]), run[1..])
    else None
  }

  // ----------------------------------------------------------------- invariants

  /** Someone will still look at lastTD. */
  ghost predicate WillLook(s: State) {
    s.subChan || s.notifying != {} || s.handler == Called
  }

  /** The handler has loaded `v` and not cleared it yet. */
  ghost predicate Handles(s: State, v: nat) {
    (s.handler.Ranging? || s.handler.Clearing?) && s.handler.td == v
  }

  ghost predicate NotLost(s: State) {
    match s.lastTD
    case Some(v) => v == s.stores && v > 0 && (WillLook(s) || Handles(s, v))
    case None => true
  }

  function Received(s: State, sub: SubId): seq<nat> {
    if sub in s.received then s.received[sub] else []
  }

  ghost predicate Got(s: State, sub: SubId, v: nat) {
    v in Received(s, sub)
  }

  /** The subscribers that were registered before the last store and still are. */
  ghost predicate Entitled(s: State, sub: SubId) {
    sub in s.subscriptions && s.subscriptions[sub] < s.stores
  }

  /** While the last description is being handed out, and after it was cleared. */
  ghost predicate Delivered(s: State) {
    && (s.stores > 0 && s.lastTD == None ==> forall sub | Entitled(s, sub) :: Got(s, sub, s.stores))
    && (s.handler.Clearing? && s.handler.td == s.stores ==> forall sub | Entitled(s, sub) :: Got(s, sub, s.stores))
    && (s.handler.Ranging? ==>
          && (forall sub | sub in s.handler.visited :: Got(s, sub, s.handler.td))
          && (s.handler.td == s.stores ==> forall sub | Entitled(s, sub) :: sub in s.handler.todo))
  }

  ghost predicate Increasing(xs: seq<nat>) {
    forall i, j | 0 <= i < j < |xs| :: xs[i] < xs[j]
  }

  /** Upper bound for what a subscriber has got so far. */
  function Bound(s: State, sub: SubId): nat {
    match s.handler
    case Ranging(td, _, visited) => if sub in visited || td == 0 then td else td - 1
    case Clearing(td) => td
    case _ => if s.lastTD == None || s.stores == 0 then s.stores else s.stores - 1
  }

  /** Nobody is called twice with one description or with an older one after a newer. */
  ghost predicate InOrder(s: State) {
    && (s.handler.Ranging? || s.handler.Clearing? ==> 0 < s.handler.td <= s.stores)
    && (forall sub | sub in s.received :: Increasing(s.received[sub]))
    && (forall sub, v | sub in s.received && v in s.received[sub] :: 0 < v <= Bound(s, sub))
    && (forall sub | sub in s.registering :: sub <= s.lastSubscription && sub !in s.subscriptions)
    && (forall sub | sub in s.subscriptions :: sub <= s.lastSubscription && s.subscriptions[sub] <= s.stores)
  }

  ghost predicate Inv(s: State) {
    NotLost(s) && Delivered(s) && InOrder(s)
  }

  lemma NotLostStep(s: State, a: Action)
    requires NotLost(s) && Can(s, a)
    ensures NotLost(Do(s, a))
  {
    if a.Store? { assert a.t in Do(s, a).notifying; }
  }

  lemma InOrderStep(s: State, a: Action)
    requires NotLost(s) && InOrder(s) && Can(s, a)
    ensures InOrder(Do(s, a))
  {
    match a
    case Visit(sub) => VisitInOrder(s, sub);
    case Clear => ClearInOrder(s);
    case Store(t) => StoreInOrder(s, t);
    case Load => LoadInOrder(s);
    case Register(sub) => RegisterInOrder(s, sub);
    case TakeId => TakeIdInOrder(s);
    case Unregister(sub) => UnregisterInOrder(s, sub);
    case EndRange => EndRangeInOrder(s);
    case Send(t) => SendInOrder(s, t);
    case Receive => ReceiveInOrder(s);
  }

  lemma VisitInOrder(s: State, sub: SubId)
    requires InOrder(s) && Can(s, Visit(sub))
    ensures InOrder(Do(s, Visit(sub)))
  {
    var was := Received(s, sub);
    assert forall v | v in was :: v < s.handler.td;
    AppendIncreasing(was, s.handler.td);
  }

  lemma ClearInOrder(s: State)
    requires NotLost(s) && InOrder(s) && Can(s, Clear)
    ensures InOrder(Do(s, Clear))
  {
  }

  lemma LoadInOrder(s: State)
    requires NotLost(s) && InOrder(s) && Can(s, Load)
    ensures InOrder(Do(s, Load))
  {
  }

  lemma RegisterInOrder(s: State, sub: SubId)
    requires InOrder(s) && Can(s, Register(sub))
    ensures InOrder(Do(s, Register(sub)))
  {
  }

  lemma TakeIdInOrder(s: State)
    requires InOrder(s) && Can(s, TakeId)
    ensures InOrder(Do(s, TakeId))
  {
  }

  lemma UnregisterInOrder(s: State, sub: SubId)
    requires InOrder(s) && Can(s, Unregister(sub))
    ensures InOrder(Do(s, Unregister(sub)))
  {
  }

  lemma EndRangeInOrder(s: State)
    requires InOrder(s) && Can(s, EndRange)
    ensures InOrder(Do(s, EndRange))
  {
  }

  lemma SendInOrder(s: State, t: Tid)
    requires InOrder(s) && Can(s, Send(t))
    ensures InOrder(Do(s, Send(t)))
  {
  }

  lemma ReceiveInOrder(s: State)
    requires InOrder(s) && Can(s, Receive)
    ensures InOrder(Do(s, Receive))
  {
  }

  lemma StoreInOrder(s: State, t: Tid)
    requires InOrder(s) && Can(s, Store(t))
    ensures InOrder(Do(s, Store(t)))
  {
  }

  lemma AppendIncreasing(xs: seq<nat>, v: nat)
    requires Increasing(xs) && forall x | x in xs :: x < v
    ensures Increasing(xs + [v])
  {
    assert forall i | 0 <= i < |xs| :: xs[i] in xs;
  }

  /** No step takes a description back from a subscriber. */
  lemma GotStays(s: State, a: Action, sub: SubId, v: nat)
    requires Can(s, a) && Got(s, sub, v)
    ensures Got(Do(s, a), sub, v)
  {
  }

  lemma DeliveredStep(s: State, a: Action)
    requires Inv(s) && Can(s, a)
    ensures Delivered(Do(s, a))
  {
    var s' := Do(s, a);
    forall sub, v | Got(s, sub, v) ensures Got(s', sub, v) { GotStays(s, a, sub, v); }
    assert !a.Store? ==> forall sub | Entitled(s', sub) :: Entitled(s, sub);
    match a
    case Visit(sub) =>
      assert Got(s', sub, s.handler.td);
    case EndRange =>
      forall sub | Entitled(s', sub) && s.handler.td == s.stores ensures Got(s', sub, s.stores) {
        assert sub in s.handler.todo && sub in s.handler.visited && Got(s, sub, s.handler.td);
      }
    case _ =>
  }

  lemma {:induction false} RunKeepsInv(s: State, run: seq<Action>)
    requires Inv(s) && Exec(s, run).Some?
    ensures Inv(Exec(s, run).value)
    decreases run
  {
    if run != [] {
      NotLostStep(s, run[0]);
      InOrderStep(s, run[0]);
      DeliveredStep(s, run[0]);
      RunKeepsInv(Do(s, run[0]), run[1..]);
    }
  }

  // ---------------------------------------------------------------- main results

  /** No lost thing description, in every interleaving: a stored description that
      is still pending is the latest one, and a token, a goroutine that has still
      to send, a handler that has still to load, or a handler that loaded this very
      description will deal with it. */
  lemma NoLostThingDescription(run: seq<Action>)
    requires Exec(INIT, run).Some?
    ensures NotLost(Exec(INIT, run).value)
  {
    RunKeepsInv(INIT, run);
  }

  predicate Quiescent(s: State) {
    !s.subChan && s.notifying == {} && s.handler == Waiting
  }

  /** At quiescence the latest description has been handed to every subscriber
      that was registered before it was stored and has not unregistered. */
  lemma QuiescentMeansDelivered(run: seq<Action>)
    requires Exec(INIT, run).Some? && Quiescent(Exec(INIT, run).value)
    ensures var s := Exec(INIT, run).value;
            s.lastTD == None && forall sub | Entitled(s, sub) :: s.stores > 0 && Got(s, sub, s.stores)
  {
    RunKeepsInv(INIT, run);
  }

  /** No subscriber ever goes back to an older description or sees one twice. */
  lemma DeliveriesIncrease(run: seq<Action>, sub: SubId)
    requires Exec(INIT, run).Some?
    ensures Increasing(Received(Exec(INIT, run).value, sub))
    ensures forall v | v in Received(Exec(INIT, run).value, sub) :: 0 < v <= Exec(INIT, run).value.stores
  {
    RunKeepsInv(INIT, run);
  }

  /** Had its ID once, and is not subscribed or about to be. */
  predicate Gone(s: State, sub: SubId) {
    sub <= s.lastSubscription && sub !in s.registering && sub !in s.subscriptions
  }

  lemma {:induction false} GoneStaysSilent(s: State, run: seq<Action>, sub: SubId)
    requires Gone(s, sub) && Exec(s, run).Some?
    ensures Gone(Exec(s, run).value, sub) && Received(Exec(s, run).value, sub) == Received(s, sub)
    decreases run
  {
    if run != [] {
      GoneStaysSilent(Do(s, run[0]), run[1..], sub);
    }
  }

  /** A subscriber that unregisters gets nothing more, in every interleaving. */
  lemma UnregisteredStaysSilent(run: seq<Action>, sub: SubId, more: seq<Action>)
    requires Exec(INIT, run + [Unregister(sub)] + more).Some? && Exec(INIT, run).Some?
    ensures Received(Exec(INIT, run + [Unregister(sub)] + more).value, sub) == Received(Exec(INIT, run).value, sub)
  {
    var s := Exec(INIT, run).value;
    assert run + [Unregister(sub)] + more == run + ([Unregister(sub)] + more);
    ExecAppend(INIT, run, [Unregister(sub)] + more);
    assert ([Unregister(sub)] + more)[1..] == more;
    RunKeepsInv(INIT, run);
    GoneStaysSilent(Do(s, Unregister(sub)), more, sub);
  }

  /** At first nothing is pending, and the first description of all is the first one sent. */
  lemma StartsQuiescent(t: Tid)
    ensures Quiescent(INIT) && INIT.lastTD == None && INIT.subscriptions == map[] && INIT.lastSubscription == 0
    ensures Can(INIT, Store(t)) && Do(INIT, Store(t)).lastTD == Some(1)
  {
  }

  /** Only its own Unregister ends a subscription. */
  lemma {:induction false} SubscriptionStays(s: State, run: seq<Action>, sub: SubId)
    requires sub in s.subscriptions && sub !in s.registering && sub <= s.lastSubscription
    requires Exec(s, run).Some? && Unregister(sub) !in run
    ensures var s' := Exec(s, run).value;
            sub in s'.subscriptions && s'.subscriptions[sub] == s.subscriptions[sub] && sub !in s'.registering
    decreases run
  {
    if run != [] {
      assert run[0] in run && forall a | a in run[1..] :: a in run;
      SubscriptionStays(Do(s, run[0]), run[1..], sub);
    }
  }

  /** Whoever registers, with the next ID, is owed the next description and all after it. */
  lemma RegisteringEntitles(s: State, t: Tid)
    requires InOrder(s) && t !in s.notifying
    ensures var sub := s.lastSubscription + 1;
            && Exec(s, [TakeId, Register(sub)]).Some?
            && !Entitled(Exec(s, [TakeId, Register(sub)]).value, sub)
            && Exec(s, [TakeId, Register(sub)]).value.lastSubscription == sub
            && Exec(s, [TakeId, Register(sub), Store(t)]).Some?
            && Entitled(Exec(s, [TakeId, Register(sub), Store(t)]).value, sub)
  {
    var sub := s.lastSubscription + 1;
    var s1 := Do(s, TakeId);
    var s2 := Do(s1, Register(sub));
    assert [TakeId, Register(sub), Store(t)][1..] == [Register(sub), Store(t)];
    assert [Register(sub), Store(t)][1..] == [Store(t)] && [Store(t)][1..] == [];
    assert [TakeId, Register(sub)][1..] == [Register(sub)] && [Register(sub)][1..] == [];
    assert Exec(s2, [Store(t)]) == Some(Do(s2, Store(t)));
    assert Exec(s2, []) == Some(s2);
    assert Exec(s1, [Register(sub)]) == Exec(s2, []);
    assert Exec(s1, [Register(sub), Store(t)]) == Exec(s2, [Store(t)]);
  }

  /** Steps of the handler and sends only: no new store, no registration. */
  predicate Drains(a: Action) {
    a.Send? || a.Receive? || a.Load? || a.Visit? || a.EndRange? || a.Clear?
  }

  /** How far the handler is from its end, and how many callbacks Range still owes. */
  function Phase(h: Handler): nat {
    match h case Waiting => 0 case Clearing(_) => 1 case Ranging(_, _, _) => 2 case Called => 3
  }

  function Owed(s: State): nat {
    if s.handler.Ranging? then |s.subscriptions.Keys - s.handler.visited| else 0
  }

  lemma NeverStuck(s: State) returns (a: Action)
    requires !Quiescent(s)
    ensures Drains(a) && Can(s, a)
  {
    if s.notifying != {} {
      var t :| t in s.notifying;
      return Send(t);
    }
    match s.handler
    case Waiting => return Receive;
    case Called => return Load;
    case Clearing(_) => return Clear;
    case Ranging(_, _, visited) =>
      if sub :| sub in s.subscriptions && sub !in visited { return Visit(sub); }
      return EndRange;
  }

  lemma SmallerWithout(xs: set<nat>, x: nat)
    requires x in xs
    ensures |xs - {x}| < |xs|
  {
  }

  /** One number for all of it: a send outweighs a token, a token a whole call of the handler. */
  function Work(s: State): nat {
    (|s.notifying| * 2 + if s.subChan then 1 else 0) * 4 + Phase(s.handler)
  }

  lemma SendDecreases(s: State, t: Tid)
    requires Can(s, Send(t))
    ensures Work(Do(s, Send(t))) < Work(s)
  {
    SmallerWithout(s.notifying, t);
  }

  lemma VisitDecreases(s: State, sub: SubId)
    requires Can(s, Visit(sub))
    ensures Work(Do(s, Visit(sub))) == Work(s) && Owed(Do(s, Visit(sub))) < Owed(s)
  {
    var visited := s.handler.visited;
    SmallerWithout(s.subscriptions.Keys - visited, sub);
    assert s.subscriptions.Keys - (visited + {sub}) == (s.subscriptions.Keys - visited) - {sub};
  }

  lemma DrainDecreases(s: State, a: Action)
    requires Drains(a) && Can(s, a)
    ensures Work(Do(s, a)) < Work(s) || (Work(Do(s, a)) == Work(s) && Owed(Do(s, a)) < Owed(s))
  {
    match a
    case Send(t) => SendDecreases(s, t);
    case Visit(sub) => VisitDecreases(s, sub);
    case _ =>
  }

  /** Nothing gets stuck: from every state the goroutines that have to send and
      the handler can run on by themselves until everything is quiescent, and
      since every one of their steps decreases the same measure they cannot
      do otherwise. */
  lemma {:induction false} Drain(s: State) returns (run: seq<Action>)
    ensures Exec(s, run).Some? && Quiescent(Exec(s, run).value)
    ensures forall a | a in run :: Drains(a)
    decreases Work(s), Owed(s)
  {
    if Quiescent(s) {
      return [];
    }
    var a := NeverStuck(s);
    DrainDecreases(s, a);
    var rest := Drain(Do(s, a));
    run := [a] + rest;
  }

  /** So whatever happened before, once no new description is stored the latest
      one reaches every entitled subscriber. */
  lemma LatestIsEventuallyDelivered(run: seq<Action>) returns (more: seq<Action>)
    requires Exec(INIT, run).Some?
    ensures forall a | a in more :: Drains(a)
    ensures Exec(INIT, run + more).Some?
    ensures var s, s' := Exec(INIT, run).value, Exec(INIT, run + more).value;
            s'.stores == s.stores && s'.subscriptions == s.subscriptions &&
            forall sub | Entitled(s, sub) :: Got(s', sub, s.stores)
  {
    more := Drain(Exec(INIT, run).value);
    ExecAppend(INIT, run, more);
    DrainKeeps(Exec(INIT, run).value, more);
    QuiescentMeansDelivered(run + more);
  }

  lemma {:induction false} ExecAppend(s: State, r1: seq<Action>, r2: seq<Action>)
    requires Exec(s, r1).Some?
    ensures Exec(s, r1 + r2) == Exec(Exec(s, r1).value, r2)
    decreases r1
  {
    if r1 == [] {
      assert r1 + r2 == r2;
    } else {
      ExecAppend(Do(s, r1[0]), r1[1..], r2);
      assert (r1 + r2)[1..] == r1[1..] + r2;
    }
  }

  lemma {:induction false} DrainKeeps(s: State, run: seq<Action>)
    requires Exec(s, run).Some? && forall a | a in run :: Drains(a)
    ensures Exec(s, run).value.stores == s.stores
    ensures Exec(s, run).value.subscriptions == s.subscriptions
    decreases run
  {
    if run != [] {
      assert run[0] in run && forall a | a in run[1..] :: a in run;
      DrainKeeps(Do(s, run[0]), run[1..]);
    }
  }
}
