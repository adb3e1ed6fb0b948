/** client/deviceCache.go: the cache of found devices, and the moves of an entry to a
    new device ID in client/ownDevice.go and client/getDevice.go.

    Devices are objects: an entry holds a reference, and two entries may hold the same
    one. The cache below (cache.Cache of go-coap) is assumed to behave as follows: an
    element without an expiry time never expires; Load and LoadOrStore take an expired
    element for an absent one; CheckExpirations removes the expired ones. */
module DeviceCache {

  import opened Wrappers

  type Ref = nat

  datatype Device = Device(id: string, foundByIP: string)

  /** `validUntil` 0 is Go's zero time: no expiry. */
  datatype Element = Element(ref: Ref, validUntil: nat)

  datatype State = State(devices: map<Ref, Device>, entries: map<string, Element>)

  predicate IsExpired(e: Element, now: nat) {
    e.validUntil != 0 && now > e.validUntil
  }

  predicate Live(s: State, key: string, now: nat) {
    key in s.entries && !IsExpired(s.entries[key], now)
  }

  ghost predicate Valid(s: State) {
    forall k | k in s.entries :: s.entries[k].ref in s.devices
  }

  /** Every entry is under the ID of its device. */
  ghost predicate KeysAreIds(s: State) {
    forall k | k in s.entries :: s.entries[k].ref in s.devices && s.devices[s.entries[k].ref].id == k
  }

  /** An entry without expiry, for a device found by its IP. */
  predicate Permanent(s: State, key: string) {
    key in s.entries && s.entries[key].validUntil == 0 &&
    s.entries[key].ref in s.devices && s.devices[s.entries[key].ref].foundByIP != ""
  }

  function NextExpiration(expiration: int, now: nat): nat {
    if expiration <= 0 then 0 else now + expiration
  }

  // ------------------------------------------------------- what the operations compute

  function Got(s: State, expiration: int, now: nat, id: string): State {
    if Live(s, id, now) && s.entries[id].validUntil != 0
    then s.(entries := s.entries[id := s.entries[id].(validUntil := NextExpiration(expiration, now))])
    else s
  }

  /** UpdateBy: an address is overwritten only by an address. */
  function Updated(devices: map<Ref, Device>, d: Ref, v: Ref): map<Ref, Device>
    requires d in devices && v in devices
  {
    if d == v then devices
    else
      var address := if devices[v].foundByIP != "" then devices[v].foundByIP else devices[d].foundByIP;
      devices[d := Device(devices[v].id, address)]
  }

  function Stored(s: State, now: nat, d: Ref, validUntil: nat): State
    requires Valid(s) && d in s.devices
  {
    var id := s.devices[d].id;
    if Live(s, id, now) then
      var e := s.entries[id];
      State(Updated(s.devices, e.ref, d),
            if e.validUntil != 0 then s.entries[id := e.(validUntil := validUntil)] else s.entries)
    else s.(entries := s.entries[id := Element(d, validUntil)])
  }

  function Tried(s: State, expiration: int, now: nat, id: string): State
    requires Valid(s)
  {
    if Live(s, id, now) && s.devices[s.entries[id].ref].foundByIP == ""
    then s.(entries := s.entries[id := s.entries[id].(validUntil := NextExpiration(expiration, now))])
    else s
  }

  function Swept(s: State, now: nat): State {
    s.(entries := map k | k in s.entries && !IsExpired(s.entries[k], now) :: s.entries[k])
  }

  function Deleted(s: State, ids: set<string>): State {
    s.(entries := s.entries - ids)
  }

  function Renamed(s: State, d: Ref, id: string): State
    requires d in s.devices
  {
    s.(devices := s.devices[d := s.devices[d].(id := id)])
  }

  /** SetDeviceID and then updateCache. */
  function Rekeyed(s: State, expiration: int, now: nat, d: Ref, id: string): State
    requires Valid(s) && d in s.devices
  {
    var key := s.devices[d].id;
    var renamed := Renamed(s, d, id);
    if id == key then renamed
    else
      var permanent := Live(s, key, now) && s.entries[key].validUntil == 0;
      Deleted(Stored(renamed, now, d, if permanent then 0 else NextExpiration(expiration, now)), {key})
  }

  /** checkAndUpdateCacheByLinks, when the links give this ID. */
  function Relinked(s: State, expiration: int, now: nat, d: Ref, id: string): State
    requires Valid(s) && d in s.devices
  {
    var key := s.devices[d].id;
    if id != key && key in s.entries then
      var found := s.entries[key].ref;
      Stored(Renamed(Deleted(s, {key}), found, id), now, found, NextExpiration(expiration, now))
    else s
  }

  // ------------------------------------------------------------------------ the cache

  class Cache {
    const deviceExpiration: int
    var devices: map<Ref, Device>
    var entries: map<string, Element>

    ghost function Value(): State
      reads this
    {
      State(devices, entries)
    }

    constructor (deviceExpiration: int)
      ensures this.deviceExpiration == deviceExpiration && Value() == State(map[], map[])
    {
      this.deviceExpiration := deviceExpiration;
      devices, entries := map[], map[];
    }

    /** cache.Load. */
    method Load(now: nat, id: string) returns (e: Option<Element>)
      ensures e == if Live(Value(), id, now) then Some(entries[id]) else None
    {
      if id in entries && !IsExpired(entries[id], now) {
        return Some(entries[id]);
      }
      return None;
    }

    method GetDevice(now: nat, id: string) returns (d: Option<Ref>)
      modifies this`entries
      ensures Value() == Got(old(Value()), deviceExpiration, now, id)
      ensures d == if Live(old(Value()), id, now) then Some(old(entries)[id].ref) else None
      ensures d.Some? && old(entries)[id].validUntil != 0 && deviceExpiration > 0 ==>
                forall n: nat :: Live(Value(), id, n) <==> n <= now + deviceExpiration
    {
      var e := Load(now, id);
      if e == None {
        return None;
      }
      if e.value.validUntil != 0 {
        entries := entries[id := e.value.(validUntil := NextExpiration(deviceExpiration, now))];
      }
      return Some(e.value.ref);
    }

    method GetDeviceExpiration(now: nat, id: string) returns (validUntil: Option<nat>)
      ensures validUntil == if Live(Value(), id, now) then Some(entries[id].validUntil) else None
    {
      var e := Load(now, id);
      if e == None {
        return None;
      }
      return Some(e.value.validUntil);
    }

    /** Device.UpdateBy. */
    method UpdateBy(d: Ref, v: Ref)
      requires d in devices && v in devices
      modifies this`devices
      ensures devices == Updated(old(devices), d, v)
    {
      if d == v {
        return;
      }
      var update := devices[v];
      devices := devices[d := devices[d].(id := update.id)];
      if update.foundByIP != "" {
        devices := devices[d := devices[d].(foundByIP := update.foundByIP)];
      }
    }

    method UpdateOrStore(now: nat, d: Ref, expiration: nat) returns (dev: Ref, updated: bool)
      requires Valid(Value()) && d in devices
      modifies this
      ensures Value() == Stored(old(Value()), now, d, expiration)
      ensures updated == Live(old(Value()), old(devices)[d].id, now)
      ensures dev == if updated then old(entries)[old(devices)[d].id].ref else d
      ensures var id := old(devices)[d].id;
              !updated || old(entries)[id].validUntil != 0 ==>
                forall n: nat :: Live(Value(), id, n) <==> expiration == 0 || n <= expiration
    {
      var id := devices[d].id;
      var loaded := Load(now, id);
      if loaded == None {
        entries := entries[id := Element(d, expiration)];
        return d, false;
      }
      dev := loaded.value.ref;
      UpdateBy(dev, d);
      if loaded.value.validUntil != 0 {
        entries := entries[id := loaded.value.(validUntil := expiration)];
      }
      return dev, true;
    }

    method TryToChangeDeviceExpirationToDefault(now: nat, id: string) returns (changed: bool)
      requires Valid(Value())
      modifies this`entries
      ensures Value() == Tried(old(Value()), deviceExpiration, now, id)
      ensures changed <==> Live(old(Value()), id, now) && devices[old(entries)[id].ref].foundByIP == ""
      ensures changed && deviceExpiration > 0 ==>
                forall n: nat :: Live(Value(), id, n) <==> n <= now + deviceExpiration
    {
      var e := Load(now, id);
      if e == None {
        return false;
      }
      if devices[e.value.ref].foundByIP == "" {
        entries := entries[id := e.value.(validUntil := NextExpiration(deviceExpiration, now))];
        return true;
      }
      return false;
    }

    method LoadAndDeleteAll() returns (found: seq<Ref>)
      modifies this`entries
      ensures entries == map[]
      ensures forall d | d in found :: exists id :: id in old(entries) && old(entries)[id].ref == d
      ensures forall id | id in old(entries) :: old(entries)[id].ref in found
    {
      var keys := entries.Keys;
      found := [];
      while keys != {}
        invariant keys <= entries.Keys
        invariant forall d | d in found :: exists id :: id in entries && entries[id].ref == d
        invariant forall id | id in entries && id !in keys :: entries[id].ref in found
        decreases |keys|
      {
        var id :| id in keys;
        found := found + [entries[id].ref];
        keys := keys - {id};
      }
      entries := map[];
    }

    /** Without a filter, everything. */
    method LoadAndDeleteDevices(filter: seq<string>) returns (found: seq<Ref>)
      modifies this`entries
      ensures Value() == Deleted(old(Value()), if filter == [] then old(entries).Keys else set id | id in filter)
      ensures forall d | d in found ::
                exists id :: id in old(entries) && (filter == [] || id in filter) && old(entries)[id].ref == d
      ensures forall id | id in old(entries) && (filter == [] || id in filter) :: old(entries)[id].ref in found
    {
      ghost var before := entries;
      if filter == [] {
        found := LoadAndDeleteAll();
        assert before - before.Keys == map[];
        return;
      }
      found := [];
      for i := 0 to |filter|
        invariant entries == before - set id | id in filter[..i]
        invariant forall d | d in found :: exists id :: id in before && id in filter && before[id].ref == d
        invariant forall id | id in before && id in filter[..i] :: before[id].ref in found
      {
        assert filter[..i+1] == filter[..i] + [filter[i]];
        if filter[i] in entries {
          found := found + [entries[filter[i]].ref];
          entries := entries - {filter[i]};
        }
      }
      assert filter[..|filter|] == filter;
    }

    method CheckExpirations(now: nat)
      modifies this`entries
      ensures Value() == Swept(old(Value()), now)
    {
      entries := map k | k in entries && !IsExpired(entries[k], now) :: entries[k];
    }

    /** A sweep that stops at the first device with the address. */
    method GetDeviceByFoundIP(now: nat, ip: string) returns (found: seq<Ref>)
      requires Valid(Value())
      ensures |found| <= 1
      ensures forall d | d in found ::
                exists id :: Live(Value(), id, now) && entries[id].ref == d && devices[d].foundByIP == ip
      ensures found == [] ==> forall id | Live(Value(), id, now) :: devices[entries[id].ref].foundByIP != ip
    {
      var keys := entries.Keys;
      found := [];
      while keys != {} && found == []
        invariant keys <= entries.Keys && |found| <= 1
        invariant forall d | d in found ::
                    exists id :: Live(Value(), id, now) && entries[id].ref == d && devices[d].foundByIP == ip
        invariant found == [] ==>
                    forall id | Live(Value(), id, now) && id !in keys :: devices[entries[id].ref].foundByIP != ip
        decreases |keys|
      {
        var id :| id in keys;
        keys := keys - {id};
        if !IsExpired(entries[id], now) && devices[entries[id].ref].foundByIP == ip {
          assert Live(Value(), id, now);
          found := [entries[id].ref];
        }
      }
    }

    /** The addresses by device ID: with entries under their IDs, exactly the live
        entries found by IP. */
    method GetDevicesFoundByIP(now: nat) returns (found: map<string, string>)
      requires KeysAreIds(Value())
      ensures forall id :: id in found <==> Live(Value(), id, now) && devices[entries[id].ref].foundByIP != ""
      ensures forall id | id in found && id in entries :: found[id] == devices[entries[id].ref].foundByIP
    {
      var keys := entries.Keys;
      found := map[];
      while keys != {}
        invariant keys <= entries.Keys
        invariant forall id :: id in found <==>
                               Live(Value(), id, now) && id !in keys && devices[entries[id].ref].foundByIP != ""
        invariant forall id | id in found :: found[id] == devices[entries[id].ref].foundByIP
        decreases |keys|
      {
        var id :| id in keys;
        keys := keys - {id};
        if !IsExpired(entries[id], now) {
          var d := devices[entries[id].ref];
          if d.foundByIP != "" {
            found := found[d.id := d.foundByIP];
          }
        }
      }
    }

    /** The device gets its new ID, then updateCache. */
    method Rekey(now: nat, d: Ref, id: string)
      requires Valid(Value()) && d in devices
      modifies this
      ensures Value() == Rekeyed(old(Value()), deviceExpiration, now, d, id)
    {
      var oldDeviceID := devices[d].id;
      devices := devices[d := devices[d].(id := id)];
      UpdateCache(now, d, oldDeviceID);
    }

    method UpdateCache(now: nat, d: Ref, oldDeviceID: string)
      requires Valid(Value()) && d in devices
      modifies this
      ensures Value() ==
              if old(devices)[d].id == oldDeviceID then old(Value())
              else
                var permanent := Live(old(Value()), oldDeviceID, now) && old(entries)[oldDeviceID].validUntil == 0;
                var expiration := if permanent then 0 else NextExpiration(deviceExpiration, now);
                Deleted(Stored(old(Value()), now, d, expiration), {oldDeviceID})
    {
      if devices[d].id == oldDeviceID {
        return;
      }
      var expiration := GetDeviceExpiration(now, oldDeviceID);
      if expiration == Some(0) {
        var _, _ := UpdateOrStore(now, d, 0);
      } else {
        var _, _ := UpdateOrStore(now, d, NextExpiration(deviceExpiration, now));
      }
      var _ := LoadAndDeleteDevices([oldDeviceID]);
      assert (set id | id in [oldDeviceID]) == {oldDeviceID};
    }

    method Relink(now: nat, d: Ref, id: string)
      requires Valid(Value()) && d in devices
      modifies this
      ensures Value() == Relinked(old(Value()), deviceExpiration, now, d, id)
    {
      var oldDeviceID := devices[d].id;
      if id != oldDeviceID && oldDeviceID in entries {
        var found := entries[oldDeviceID].ref;
        entries := entries - {oldDeviceID};
        devices := devices[found := devices[found].(id := id)];
        var _, _ := UpdateOrStore(now, found, NextExpiration(deviceExpiration, now));
      }
    }
  }

  // ---------------------------------------------------------------------------- runs

  datatype Op =
    | Get(now: nat, id: string)
    | Store(now: nat, d: Ref)
    | StoreWithExpiration(now: nat, d: Ref)
    | TryDefault(now: nat, id: string)
    | Sweep(now: nat)
    | Delete(ids: set<string>)
    | Rekey(now: nat, d: Ref, id: string)
    | Relink(now: nat, d: Ref, id: string)
    | Discover(d: Ref, device: Device)

  /** Operations on objects that do not exist do nothing, and a new object is new. */
  ghost function Performed(s: State, expiration: int, op: Op): State
    requires Valid(s)
  {
    match op
    case Get(now, id) => Got(s, expiration, now, id)
    case Store(now, d) => if d in s.devices then Stored(s, now, d, 0) else s
    case StoreWithExpiration(now, d) => if d in s.devices then Stored(s, now, d, NextExpiration(expiration, now)) else s
    case TryDefault(now, id) => Tried(s, expiration, now, id)
    case Sweep(now) => Swept(s, now)
    case Delete(ids) => Deleted(s, ids)
    case Rekey(now, d, id) => if d in s.devices then Rekeyed(s, expiration, now, d, id) else s
    case Relink(now, d, id) => if d in s.devices then Relinked(s, expiration, now, d, id) else s
    case Discover(d, device) => if d in s.devices then s else s.(devices := s.devices[d := device])
  }

  lemma PerformedIsValid(s: State, expiration: int, op: Op)
    requires Valid(s)
    ensures Valid(Performed(s, expiration, op))
  {
  }

  ghost function Run(s: State, expiration: int, ops: seq<Op>): (s': State)
    requires Valid(s)
    ensures Valid(s')
    decreases |ops|
  {
    if ops == [] then s
    else
      PerformedIsValid(s, expiration, ops[0]);
      Run(Performed(s, expiration, ops[0]), expiration, ops[1..])
  }

  lemma RunOfTwo(s: State, expiration: int, op1: Op, op2: Op)
    requires Valid(s)
    ensures Valid(Performed(s, expiration, op1))
    ensures Run(s, expiration, [op1, op2]) == Performed(Performed(s, expiration, op1), expiration, op2)
  {
    var s1 := Performed(s, expiration, op1);
    PerformedIsValid(s, expiration, op1);
    PerformedIsValid(s1, expiration, op2);
    assert [op1, op2][1..] == [op2] && [op2][1..] == [];
    assert Run(s1, expiration, [op2]) == Run(Performed(s1, expiration, op2), expiration, []);
  }

  /** A device under an ID that is not in use is found from then on: for good when it is
      stored without expiry, and otherwise for the default time. */
  lemma StoredIsFound(s: State, expiration: int, now: nat, d: Ref, device: Device, n: nat)
    requires Valid(s) && d !in s.devices && device.id !in s.entries
    ensures var s' := Run(s, expiration, [Discover(d, device), Store(now, d)]);
            s'.devices == s.devices[d := device] && s'.entries == s.entries[device.id := Element(d, 0)]
    ensures var s' := Run(s, expiration, [Discover(d, device), StoreWithExpiration(now, d)]);
            && s'.devices == s.devices[d := device] && device.id in s'.entries && s'.entries[device.id].ref == d
            && (Live(s', device.id, n) <==> expiration <= 0 || n <= now + expiration)
  {
    RunOfTwo(s, expiration, Discover(d, device), Store(now, d));
    RunOfTwo(s, expiration, Discover(d, device), StoreWithExpiration(now, d));
  }

  /** Deletes the entry under `key`, or moves it to another ID. */
  predicate Removes(s: State, op: Op, key: string) {
    match op
    case Delete(ids) => key in ids
    case Rekey(_, d, id) => d in s.devices && s.devices[d].id == key != id
    case Relink(_, d, id) => d in s.devices && s.devices[d].id == key != id
    case _ => false
  }

  predicate NeverExpires(s: State, key: string) {
    key in s.entries && s.entries[key].validUntil == 0
  }

  /** An entry without expiry keeps its object and stays without expiry, unless it is
      deleted or moved, or set to a real default while its device has no address. */
  lemma StaysExactlyUnless(s: State, expiration: int, op: Op, key: string)
    requires Valid(s) && NeverExpires(s, key)
    ensures NeverExpires(Performed(s, expiration, op), key) <==>
            !Removes(s, op, key) &&
            !(op.TryDefault? && op.id == key && expiration > 0 && s.devices[s.entries[key].ref].foundByIP == "")
    ensures NeverExpires(Performed(s, expiration, op), key) ==>
              Performed(s, expiration, op).entries[key].ref == s.entries[key].ref
  {
  }

  /** An address is never lost. */
  lemma AddressesStay(s: State, expiration: int, op: Op, d: Ref)
    requires Valid(s) && d in s.devices && s.devices[d].foundByIP != ""
    ensures d in Performed(s, expiration, op).devices && Performed(s, expiration, op).devices[d].foundByIP != ""
  {
  }

  ghost predicate NeverRemoves(s: State, expiration: int, ops: seq<Op>, key: string)
    requires Valid(s)
    decreases |ops|
  {
    ops == [] ||
    (!Removes(s, ops[0], key) &&
     (PerformedIsValid(s, expiration, ops[0]);
      NeverRemoves(Performed(s, expiration, ops[0]), expiration, ops[1..], key)))
  }

  /** A permanent entry survives every run that does not delete or move it. */
  lemma {:induction false} PermanentSurvives(s: State, expiration: int, ops: seq<Op>, key: string)
    requires Valid(s) && Permanent(s, key) && NeverRemoves(s, expiration, ops, key)
    ensures Permanent(Run(s, expiration, ops), key)
    ensures Run(s, expiration, ops).entries[key].ref == s.entries[key].ref
    decreases |ops|
  {
    if ops != [] {
      StaysExactlyUnless(s, expiration, ops[0], key);
      AddressesStay(s, expiration, ops[0], s.entries[key].ref);
      PerformedIsValid(s, expiration, ops[0]);
      PermanentSurvives(Performed(s, expiration, ops[0]), expiration, ops[1..], key);
    }
  }

  // -------------------------------------------------------------------- expiration

  /** Not expired until `until`, at least. */
  predicate LivesUntil(s: State, key: string, until: nat) {
    key in s.entries && (s.entries[key].validUntil == 0 || s.entries[key].validUntil >= until)
  }

  /** The operation falls into this time. */
  predicate Between(op: Op, from: nat, until: nat) {
    op.Delete? || op.Discover? || from <= op.now <= until
  }

  lemma LivesOn(s: State, expiration: int, op: Op, key: string, from: nat, until: nat)
    requires Valid(s) && LivesUntil(s, key, until) && !Removes(s, op, key) && Between(op, from, until)
    requires expiration <= 0 || until <= from + expiration
    ensures LivesUntil(Performed(s, expiration, op), key, until)
  {
  }

  /** An entry that was used at `from` is found until `from + expiration`, whatever is
      done with the cache, unless it is deleted or moved. */
  lemma {:induction false} UsedStays(s: State, expiration: int, ops: seq<Op>, key: string, from: nat, until: nat)
    requires Valid(s) && LivesUntil(s, key, until) && NeverRemoves(s, expiration, ops, key)
    requires forall op | op in ops :: Between(op, from, until)
    requires expiration <= 0 || until <= from + expiration
    ensures Live(Run(s, expiration, ops), key, until)
    decreases |ops|
  {
    if ops != [] {
      LivesOn(s, expiration, ops[0], key, from, until);
      PerformedIsValid(s, expiration, ops[0]);
      UsedStays(Performed(s, expiration, ops[0]), expiration, ops[1..], key, from, until);
    }
  }

  /** Looks the key up to use it, or stores under it. */
  predicate Uses(s: State, op: Op, key: string) {
    match op
    case Get(_, id) => id == key
    case TryDefault(_, id) => id == key
    case Store(_, d) => d in s.devices && s.devices[d].id == key
    case StoreWithExpiration(_, d) => d in s.devices && s.devices[d].id == key
    case Rekey(_, _, id) => id == key
    case Relink(_, _, id) => id == key
    case _ => false
  }

  ghost predicate NeverUses(s: State, expiration: int, ops: seq<Op>, key: string)
    requires Valid(s)
    decreases |ops|
  {
    ops == [] ||
    (!Uses(s, ops[0], key) &&
     (PerformedIsValid(s, expiration, ops[0]);
      NeverUses(Performed(s, expiration, ops[0]), expiration, ops[1..], key)))
  }

  lemma UnusedIsKept(s: State, expiration: int, op: Op, key: string)
    requires Valid(s) && !Uses(s, op, key)
    ensures key in Performed(s, expiration, op).entries ==>
              key in s.entries && Performed(s, expiration, op).entries[key] == s.entries[key]
  {
  }

  /** An entry that can expire is not found later than that, unless it is used again. */
  lemma {:induction false} UnusedExpires(s: State, expiration: int, ops: seq<Op>, key: string, now: nat)
    requires Valid(s) && !Live(s, key, now) && NeverUses(s, expiration, ops, key)
    ensures !Live(Run(s, expiration, ops), key, now)
    decreases |ops|
  {
    if ops != [] {
      UnusedIsKept(s, expiration, ops[0], key);
      PerformedIsValid(s, expiration, ops[0]);
      UnusedExpires(Performed(s, expiration, ops[0]), expiration, ops[1..], key, now);
    }
  }

  ghost predicate KeysAreIdsExcept(s: State, key: string) {
    && Valid(s)
    && forall k | k in s.entries && k != key :: s.devices[s.entries[k].ref].id == k
  }

  lemma StoredKeepsIds(s: State, now: nat, d: Ref, validUntil: nat, key: string)
    requires KeysAreIdsExcept(s, key) && d in s.devices && s.devices[d].id != key
    ensures KeysAreIdsExcept(Deleted(Stored(s, now, d, validUntil), {key}), key)
    ensures KeysAreIds(Deleted(Stored(s, now, d, validUntil), {key}))
  {
  }

  lemma RekeyedKeepsIds(s: State, expiration: int, now: nat, d: Ref, id: string)
    requires KeysAreIds(s) && d in s.devices
    ensures KeysAreIds(Rekeyed(s, expiration, now, d, id))
  {
    var key := s.devices[d].id;
    if id != key {
      var permanent := Live(s, key, now) && s.entries[key].validUntil == 0;
      StoredKeepsIds(Renamed(s, d, id), now, d, if permanent then 0 else NextExpiration(expiration, now), key);
    }
  }

  lemma RelinkedKeepsIds(s: State, expiration: int, now: nat, d: Ref, id: string)
    requires KeysAreIds(s) && d in s.devices
    ensures KeysAreIds(Relinked(s, expiration, now, d, id))
  {
  }

  /** Renaming a device breaks `KeysAreIds` for one key at most, and updateCache mends it. */
  lemma PerformedKeepsIds(s: State, expiration: int, op: Op)
    requires KeysAreIds(s)
    ensures Valid(s) && KeysAreIds(Performed(s, expiration, op))
  {
    match op
    case Rekey(now, d, id) => if d in s.devices { RekeyedKeepsIds(s, expiration, now, d, id); }
    case Relink(now, d, id) => if d in s.devices { RelinkedKeepsIds(s, expiration, now, d, id); }
    case _ =>
  }

  lemma {:induction false} KeysStayIds(s: State, expiration: int, ops: seq<Op>)
    requires KeysAreIds(s)
    ensures Valid(s) && KeysAreIds(Run(s, expiration, ops))
    decreases |ops|
  {
    if ops != [] {
      PerformedKeepsIds(s, expiration, ops[0]);
      KeysStayIds(Performed(s, expiration, ops[0]), expiration, ops[1..]);
    }
  }

  /** updateCache moves the entry: nothing stays under the old ID, a permanent device is
      permanent under the new one, and no other entry changes. */
  lemma RekeyMoves(s: State, expiration: int, now: nat, d: Ref, id: string)
    requires KeysAreIds(s) && d in s.devices && s.devices[d].id != id
    ensures Valid(s)
    ensures var s', key := Rekeyed(s, expiration, now, d, id), s.devices[d].id;
            && key !in s'.entries && id in s'.entries
            && (!Live(s, id, now) ==> s'.entries[id].ref == d)
            && (NeverExpires(s, key) ==> NeverExpires(s', id))
            && (Permanent(s, key) && s.entries[key].ref == d ==> Permanent(s', id))
            && forall k | k != id && k != key ::
                 (k in s'.entries <==> k in s.entries) && (k in s.entries ==> s'.entries[k] == s.entries[k])
  {
  }

  /** checkAndUpdateCacheByLinks does not keep a permanent device permanent: the moved
      entry never expires only where one that never expires was already, or where
      nothing expires. */
  lemma RelinkKeepsPermanenceExactlyIf(s: State, expiration: int, now: nat, d: Ref, id: string)
    requires KeysAreIds(s) && d in s.devices && s.devices[d].id != id && Permanent(s, s.devices[d].id)
    ensures Valid(s)
    ensures Permanent(Relinked(s, expiration, now, d, id), id) <==> expiration <= 0 || NeverExpires(s, id)
  {
  }
}
