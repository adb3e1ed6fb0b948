/** client/observeDevices.go: the presence observer.

    The source counts, for every online device, how many polls in a row missed
    it. The specification keeps no counters: a device is online exactly when
    one of the last `threshold` polls saw it. */
module DevicesObserver {

  newtype uint8 = x: int | 0 <= x < 256

  datatype Event = Event(deviceID: string, online: bool)

  // ------------------------------------------------- sliding-window specification

  /** How many of the latest polls in `history` missed the device. */
  function Misses(history: seq<set<string>>, d: string): (n: nat)
    ensures n <= |history|
  {
    if history == [] || d in history[|history|-1] then 0
    else 1 + Misses(history[..|history|-1], d)
  }

  /** The devices seen by at least one of the last `t` polls. */
  function Window(history: seq<set<string>>, t: nat): set<string> {
    if t == 0 || history == [] then {}
    else history[|history|-1] + Window(history[..|history|-1], t - 1)
  }

  /** The two formulations agree: in the window iff missed fewer than `t` times and ever seen. */
  lemma {:induction false} WindowIsFewMisses(history: seq<set<string>>, t: nat, d: string)
    ensures d in Window(history, t) <==> Misses(history, d) < t && Misses(history, d) < |history|
  {
    if t > 0 && history != [] {
      WindowIsFewMisses(history[..|history|-1], t - 1, d);
    }
  }

  /** A poll moves the window: a device already known stays unless it used up its misses. */
  lemma WindowStep(history: seq<set<string>>, t: nat, seen: set<string>, d: string)
    requires t > 0
    ensures d in Window(history + [seen], t) <==>
            d in seen || (d in Window(history, t) && Misses(history, d) + 1 < t)
    ensures Misses(history + [seen], d) == if d in seen then 0 else Misses(history, d) + 1
  {
    assert (history + [seen])[..|history|] == history;
    WindowIsFewMisses(history, t, d);
    WindowIsFewMisses(history + [seen], t, d);
  }

  /** The counters the observer must hold after the polls in `history`. */
  ghost predicate Tracks(online: map<string, uint8>, history: seq<set<string>>, t: nat) {
    && online.Keys == Window(history, t)
    && forall d | d in online :: online[d] as int == Misses(history, d)
  }

  /** Every counter is below the threshold. */
  ghost predicate Below(online: map<string, uint8>, threshold: uint8) {
    forall d | d in online :: online[d] < threshold
  }

  lemma TracksStep(online: map<string, uint8>, history: seq<set<string>>, t: nat,
                   seen: set<string>, current: map<string, uint8>)
    requires t > 0 && Tracks(online, history, t)
    requires forall d :: d in current <==> d in seen || (d in online && online[d] as int < t - 1)
    requires forall d | d in current :: current[d] as int == if d in seen then 0 else online[d] as int + 1
    ensures Tracks(current, history + [seen], t)
  {
    forall d ensures d in current <==> d in Window(history + [seen], t) {
      WindowStep(history, t, seen, d);
    }
    forall d | d in current ensures current[d] as int == Misses(history + [seen], d) {
      WindowStep(history, t, seen, d);
    }
  }

  // -------------------------------------------------------------------- events

  function Members(ds: seq<string>): set<string> {
    if ds == [] then {} else Members(ds[..|ds|-1]) + {ds[|ds|-1]}
  }

  lemma {:induction false} MembersIn(ds: seq<string>, d: string)
    ensures d in Members(ds) <==> d in ds
  {
    if ds != [] {
      MembersIn(ds[..|ds|-1], d);
      assert ds == ds[..|ds|-1] + [ds[|ds|-1]];
    }
  }

  lemma MembersStep(ds: seq<string>, i: nat)
    requires i < |ds| && forall j, k | 0 <= j < k < |ds| :: ds[j] != ds[k]
    ensures Members(ds[..i+1]) == Members(ds[..i]) + {ds[i]} && ds[i] !in Members(ds[..i]) && ds[i] in Members(ds)
  {
    assert ds[..i+1][..i] == ds[..i];
    MembersIn(ds[..i], ds[i]);
    MembersIn(ds, ds[i]);
  }

  /** The events delivered so far, the newest one last. */
  datatype Events = Nothing | Then(before: Events, last: Event)

  /** The event kinds delivered for one device, in order. */
  function Of(events: Events, d: string): seq<bool> {
    match events
    case Nothing => []
    case Then(before, last) => Of(before, d) + if last.deviceID == d then [last.online] else []
  }

  ghost predicate Alternates(kinds: seq<bool>) {
    forall i | 0 <= i < |kinds| :: kinds[i] == (i % 2 == 0)
  }

  /** What a listener who was told `events` believes to be online. */
  function Told(events: Events): set<string> {
    match events
    case Nothing => {}
    case Then(before, last) => After(Told(before), last)
  }

  function After(on: set<string>, e: Event): set<string> {
    if e.online then on + {e.deviceID} else on - {e.deviceID}
  }

  /** The event tells the listener something new. */
  predicate IsNew(events: Events, e: Event) {
    e.online <==> e.deviceID !in Told(events)
  }

  predicate News(events: Events) {
    events.Then? ==> IsNew(events.before, events.last) && News(events.before)
  }

  /** So every device's events alternate and start with ONLINE. */
  lemma {:induction false} NewsAlternates(events: Events, d: string)
    requires News(events)
    ensures Alternates(Of(events, d))
    ensures |Of(events, d)| % 2 == 1 <==> d in Told(events)
  {
    if events.Then? {
      NewsAlternates(events.before, d);
    }
  }

  predicate Extends(events: Events, more: Events) {
    more == events || (more.Then? && Extends(events, more.before))
  }

  lemma {:induction false} ExtendsFurther(e0: Events, e1: Events, e2: Events)
    requires Extends(e0, e1) && Extends(e1, e2)
    ensures Extends(e0, e2)
  {
    if e2 != e1 {
      ExtendsFurther(e0, e1, e2.before);
    }
  }

  /** Between `from` and `to` there is exactly one event for each device of `ds`, all of
      one kind. */
  ghost predicate Emitted(from: Events, to: Events, ds: set<string>, online: bool) {
    if ds == {} then to == from
    else
      && to.Then? && to.last.online == online && to.last.deviceID in ds
      && Emitted(from, to.before, ds - {to.last.deviceID}, online)
  }

  lemma EmittedStep(from: Events, to: Events, ds: set<string>, online: bool, d: string)
    requires Emitted(from, to, ds, online) && d !in ds
    ensures Emitted(from, Then(to, Event(d, online)), ds + {d}, online)
  {
    assert (ds + {d}) - {d} == ds;
  }

  // ------------------------------------------------------------------ the observer

  /** The answer of one poll's discovery: an error, or the set of devices seen. */
  datatype Discovery = Failed | Seen(devices: set<string>)

  class Observer {
    const threshold: uint8
    var onlineDeviceIDs: map<string, uint8>
    /** devicesObservationHandler.isClosed */
    var isClosed: bool
    /** the observation's context was cancelled */
    var cancelled: bool
    /** cleared when poll returns false */
    var polling: bool
    /** the seen-sets of the successful polls and the events the user's handler accepted */
    ghost var history: seq<set<string>>
    ghost var events: Events
    /** how many events the user's handler has answered with an error */
    ghost var refused: nat

    ghost predicate Valid()
      reads this
    {
      && threshold > 0
      && (cancelled ==> isClosed)
      && News(events)
      && (polling ==> Tracks(onlineDeviceIDs, history, threshold as int) && Below(onlineDeviceIDs, threshold))
      && (polling && !isClosed ==> Told(events) == onlineDeviceIDs.Keys)
    }

    /** WithObserverConfig replaces a threshold of 0 by 3. */
    constructor (failureThreshold: uint8)
      ensures Valid() && polling && !isClosed && history == [] && events == Nothing
      ensures !cancelled && refused == 0
      ensures threshold == if failureThreshold == 0 then 3 else failureThreshold
    {
      threshold := if failureThreshold == 0 then 3 else failureThreshold;
      onlineDeviceIDs, isClosed, cancelled, polling := map[], false, false, true;
      history, events, refused := [], Nothing, 0;
    }

    /** The second loop of processDevices. */
    method Added(current: map<string, uint8>) returns (added: set<string>)
      ensures added == current.Keys - onlineDeviceIDs.Keys
    {
      added := {};
      var todo := current.Keys;
      while todo != {}
        invariant todo <= current.Keys && added == (current.Keys - todo) - onlineDeviceIDs.Keys
      {
        var deviceID :| deviceID in todo;
        if deviceID !in onlineDeviceIDs {
          added := added + {deviceID};
        }
        todo := todo - {deviceID};
      }
    }

    method ProcessDevices(devices: set<string>)
      returns (added: set<string>, removed: seq<string>, current: map<string, uint8>)
      requires Valid() && polling
      ensures Tracks(current, history + [devices], threshold as int) && Below(current, threshold)
      ensures added == Window(history + [devices], threshold as int) - Window(history, threshold as int)
      ensures Members(removed) == Window(history, threshold as int) - Window(history + [devices], threshold as int)
      ensures forall i, j | 0 <= i < j < |removed| :: removed[i] != removed[j]
    {
      current := map d | d in devices :: 0;
      removed := [];
      var todo := onlineDeviceIDs.Keys;
      while todo != {}
        invariant todo <= onlineDeviceIDs.Keys
        invariant forall d :: d in current <==>
                              d in devices ||
                              (d in onlineDeviceIDs && d !in todo && onlineDeviceIDs[d] < threshold - 1)
        invariant forall d | d in current ::
                    current[d] as int == if d in devices then 0 else onlineDeviceIDs[d] as int + 1
        invariant forall d :: d in removed <==> d in onlineDeviceIDs && d !in todo && d !in current
        invariant forall i, j | 0 <= i < j < |removed| :: removed[i] != removed[j]
      {
        var deviceID :| deviceID in todo;
        var failures := onlineDeviceIDs[deviceID];
        if deviceID !in current {
          var maxFailures := threshold - 1;
          if failures < maxFailures {
            current := current[deviceID := failures + 1];
          } else {
            removed := removed + [deviceID];
          }
        }
        todo := todo - {deviceID};
      }
      TracksStep(onlineDeviceIDs, history, threshold as int, devices, current);
      added := Added(current);
      forall d ensures d in Members(removed) <==> d in onlineDeviceIDs && d !in current {
        MembersIn(removed, d);
      }
    }

    /** The user may stop the observation at any moment, from another goroutine: Cancel
        closes the handler first and cancels the context later. */
    method MaybeCancel()
      modifies this`isClosed, this`cancelled
      ensures (old(isClosed) ==> isClosed) && (old(cancelled) ==> cancelled)
      ensures cancelled ==> isClosed || old(cancelled)
    {
      if * { isClosed := true; }
      if * { cancelled := cancelled || isClosed; }
    }

    /** devicesObservationHandler.Handle: nothing is delivered once the observation is closed. */
    method Handle(e: Event) returns (ok: bool)
      requires News(events) && (cancelled ==> isClosed)
      requires !isClosed ==> IsNew(events, e)
      modifies this`isClosed, this`cancelled, this`events, this`refused
      ensures News(events) && (cancelled ==> isClosed)
      ensures old(isClosed) ==> isClosed && ok && events == old(events)
      ensures events == old(events) || events == Then(old(events), e)
      ensures !isClosed || !ok ==> events == Then(old(events), e)
      ensures if ok then refused == old(refused) else refused == old(refused) + 1
    {
      MaybeCancel();
      if isClosed {
        return true;
      }
      events := Then(events, e);
      ok := *;
      if !ok { refused := refused + 1; }
      MaybeCancel();
    }

    /** The first emitting loop of observe, over the map of added devices. */
    method EmitAdded(added: set<string>) returns (ok: bool)
      requires News(events) && (cancelled ==> isClosed)
      requires !isClosed ==> Told(events) !! added
      modifies this`isClosed, this`cancelled, this`events, this`refused
      ensures News(events) && (cancelled ==> isClosed) && Extends(old(events), events)
      ensures old(isClosed) ==> isClosed && events == old(events)
      ensures old(refused) <= refused && (ok <==> refused == old(refused))
      ensures ok && !isClosed ==> Told(events) == old(Told(events)) + added && Emitted(old(events), events, added, true)
    {
      ghost var done := {};
      var todo := added;
      while todo != {}
        invariant done !! todo && done + todo == added
        invariant News(events) && (cancelled ==> isClosed) && Extends(old(events), events)
        invariant old(isClosed) ==> isClosed && events == old(events)
        invariant refused == old(refused)
        invariant !isClosed ==> Told(events) == old(Told(events)) + done && Emitted(old(events), events, done, true)
      {
        var deviceID :| deviceID in todo;
        ghost var before := events;
        var handled := Handle(Event(deviceID, true));
        if !handled {
          return false;
        }
        if !isClosed {
          EmittedStep(old(events), before, done, true, deviceID);
        }
        done, todo := done + {deviceID}, todo - {deviceID};
      }
      return true;
    }

    /** The second emitting loop of observe, over the slice of removed devices. */
    method EmitRemoved(removed: seq<string>) returns (ok: bool)
      requires News(events) && (cancelled ==> isClosed)
      requires forall i, j | 0 <= i < j < |removed| :: removed[i] != removed[j]
      requires !isClosed ==> Members(removed) <= Told(events)
      modifies this`isClosed, this`cancelled, this`events, this`refused
      ensures News(events) && (cancelled ==> isClosed) && Extends(old(events), events)
      ensures old(isClosed) ==> isClosed && events == old(events)
      ensures old(refused) <= refused && (ok <==> refused == old(refused))
      ensures ok && !isClosed ==>
                Told(events) == old(Told(events)) - Members(removed) &&
                Emitted(old(events), events, Members(removed), false)
    {
      ghost var done := {};
      for i := 0 to |removed|
        invariant done == Members(removed[..i])
        invariant News(events) && (cancelled ==> isClosed) && Extends(old(events), events)
        invariant old(isClosed) ==> isClosed && events == old(events)
        invariant refused == old(refused)
        invariant !isClosed ==> Told(events) == old(Told(events)) - done && Emitted(old(events), events, done, false)
      {
        var deviceID := removed[i];
        MembersStep(removed, i);
        ghost var before := events;
        var handled := Handle(Event(deviceID, false));
        if !handled {
          return false;
        }
        if !isClosed {
          EmittedStep(old(events), before, done, false, deviceID);
        }
        done := done + {deviceID};
      }
      assert removed[..|removed|] == removed;
      return true;
    }

    /** The part of observe after discovery; `between` is what was delivered when the
        second loop started. */
    method Observe(devices: set<string>) returns (ok: bool, current: map<string, uint8>, ghost between: Events)
      requires Valid() && polling
      modifies this`isClosed, this`cancelled, this`events, this`refused
      ensures News(events) && (cancelled ==> isClosed) && Extends(old(events), events)
      ensures old(isClosed) ==> isClosed && events == old(events)
      ensures Tracks(current, history + [devices], threshold as int) && Below(current, threshold)
      ensures old(refused) <= refused && (ok <==> refused == old(refused))
      ensures ok && !isClosed ==>
                && Told(events) == current.Keys
                && Emitted(old(events), between, current.Keys - onlineDeviceIDs.Keys, true)
                && Emitted(between, events, onlineDeviceIDs.Keys - current.Keys, false)
    {
      var added, removed;
      added, removed, current := ProcessDevices(devices);
      ok := EmitAdded(added);
      between := events;
      if ok {
        ok := EmitRemoved(removed);
        ExtendsFurther(old(events), between, events);
      }
    }

    /** One poll. With a successful discovery and an observation that stays
        open, the online set moves to the next window and the events are one
        ONLINE for each device that entered the window and then one OFFLINE for
        each device that left it. The observer goes on exactly if the discovery
        succeeded, no event was answered with an error and nobody has cancelled. */
    method Poll(discovery: Discovery) returns (again: bool, ghost between: Events)
      requires Valid() && polling
      modifies this
      ensures Valid() && polling == again && Extends(old(events), events)
      ensures again <==> discovery.Seen? && refused == old(refused) && !cancelled
      ensures !again ==> isClosed && history == old(history)
      ensures old(isClosed) ==> isClosed && events == old(events)
      ensures again ==> discovery.Seen? && history == old(history) + [discovery.devices]
      ensures again ==> onlineDeviceIDs.Keys == Window(history, threshold as int)
      ensures again && !isClosed ==>
                var was, now := Window(old(history), threshold as int), Window(history, threshold as int);
                Emitted(old(events), between, now - was, true) && Emitted(between, events, was - now, false)
    {
      between := events;
      var ok, current := false, map[];
      if discovery.Seen? {
        ok, current, between := Observe(discovery.devices);
      }
      MaybeCancel();
      if cancelled {
        // handler.OnClose: Cancel has closed it already
        polling := false;
        return false, between;
      }
      if !ok {
        // handler.Error
        isClosed, polling := true, false;
        return false, between;
      }
      onlineDeviceIDs := current;
      history := history + [discovery.devices];
      return true, between;
    }
  }

  /** Any run of the observer's goroutine: whatever the discoveries answer,
      whenever the user cancels and whatever the user's handler returns, the
      events of every device alternate and start with ONLINE. */
  method AnyRun(failureThreshold: uint8, discoveries: seq<Discovery>) returns (o: Observer)
    ensures o.Valid() && forall d: string :: Alternates(Of(o.events, d))
    ensures o.polling && !o.isClosed ==> forall d: string :: |Of(o.events, d)| % 2 == 1 <==> d in o.onlineDeviceIDs
    ensures o.polling ==> |o.history| == |discoveries| &&
                          forall i | 0 <= i < |discoveries| :: discoveries[i] == Seen(o.history[i])
    ensures o.polling ==> o.onlineDeviceIDs.Keys == Window(o.history, o.threshold as int)
    ensures o.polling <==> (forall d | d in discoveries :: d.Seen?) && o.refused == 0 && !o.cancelled
  {
    o := new Observer(failureThreshold);
    for i := 0 to |discoveries|
      invariant fresh(o) && o.Valid() && o.polling && |o.history| == i
      invariant o.refused == 0 && !o.cancelled
      invariant forall j | 0 <= j < i :: discoveries[j] == Seen(o.history[j])
    {
      var again, between := o.Poll(discoveries[i]);
      if !again {
        break;
      }
    }
    forall d: string ensures Alternates(Of(o.events, d)) && (|Of(o.events, d)| % 2 == 1 <==> d in Told(o.events)) {
      NewsAlternates(o.events, d);
    }
  }
}
