/** bridge/device/credential/manager.go: the credential store.

    The order in which a map is ranged over is arbitrary. */
module Credentials {

  import opened Wrappers

  const MAX_INT: int := 0x7fff_ffff_ffff_ffff
  const MIN_INT: int := -0x8000_0000_0000_0000

  /** Go's int on the 64-bit platforms. */
  type Int = x: int | MIN_INT <= x <= MAX_INT

  /** Addition of Go's ints. */
  function Increment(x: Int): Int {
    if x == MAX_INT then MIN_INT else x + 1
  }

  const EMPTY: nat := 0

  /** `other` is everything the store never looks at. */
  datatype Credential = Credential(id: Int, typ: nat, subject: string, privateData: Option<string>, other: string)

  type Store = map<Int, Credential>

  /** Each credential is under its own ID, and has a type. */
  ghost predicate Good(s: Store) {
    forall k | k in s :: s[k].id == k && s[k].typ != EMPTY
  }

  // --------------------------------------------------------------- the next free ID

  /** The largest of the keys and 0. */
  predicate IsTop(keys: set<Int>, top: Int) {
    top >= 0 && (top == 0 || top in keys) && forall k | k in keys :: k <= top
  }

  ghost function Top(keys: set<Int>): (top: Int)
    ensures IsTop(keys, top)
    decreases |keys|
  {
    if keys == {} then 0
    else
      var k :| k in keys;
      var rest := Top(keys - {k});
      assert forall j | j in keys :: j == k || j in keys - {k};
      if k > rest then k else rest
  }

  ghost function NextID(s: Store): Int {
    Increment(Top(s.Keys))
  }

  /** The next ID is free, unless it has wrapped around and is taken as well. */
  lemma NextIDIsFreeExactlyUnless(s: Store)
    ensures NextID(s) !in s <==> !(MAX_INT in s && MIN_INT in s)
  {
    var top := Top(s.Keys);
    assert MAX_INT in s.Keys ==> top == MAX_INT;
    assert Increment(top) in s.Keys ==> Increment(top) <= top;
  }

  // ------------------------------------------------------- what the operations compute

  /** AddOrReplaceCredential; None when it never returns. */
  ghost function AddedOrReplaced(s: Store, c: Credential): Option<Store> {
    if c.typ == EMPTY then Some(s)
    else if c.id != 0 then Some(s[c.id := c])
    else if 0 !in s then Some(s[0 := c])
    else if NextID(s) !in s then Some(s[NextID(s) := c.(id := NextID(s))])
    else None
  }

  ghost function AllAddedOrReplaced(s: Store, cs: seq<Credential>): Option<Store> {
    if cs == [] then Some(s)
    else
      var before := AllAddedOrReplaced(s, cs[..|cs|-1]);
      if before == None then None else AddedOrReplaced(before.value, cs[|cs|-1])
  }

  function WithoutSubjects(s: Store, subjects: seq<string>): Store {
    map k | k in s && s[k].subject !in subjects :: s[k]
  }

  function Shown(c: Credential, privateData: bool): Credential {
    if privateData then c else c.(privateData := None)
  }

  /** The values of the map, each once. */
  ghost predicate Enumerates(cs: seq<Credential>, s: Store, privateData: bool) {
    && |cs| == |s|
    && (forall i | 0 <= i < |cs| :: cs[i].id in s && cs[i] == Shown(s[cs[i].id], privateData))
    && (forall i, j | 0 <= i < j < |cs| :: cs[i].id != cs[j].id)
  }

  // ------------------------------------------------------------------------- the store

  class Manager {
    var credentials: Store

    constructor ()
      ensures credentials == map[]
    {
      credentials := map[];
    }

    /** The largest key so far is kept while ranging over the map. */
    method GetNextID() returns (next: Int)
      ensures next == NextID(credentials)
    {
      var keys := credentials.Keys;
      var id: Int := 0;
      while keys != {}
        invariant keys <= credentials.Keys && IsTop(credentials.Keys - keys, id)
        decreases |keys|
      {
        var key :| key in keys;
        assert forall k | k in credentials.Keys - (keys - {key}) :: k == key || k in credentials.Keys - keys;
        keys := keys - {key};
        if key > id {
          id := key;
        }
      }
      assert credentials.Keys - keys == credentials.Keys;
      return Increment(id);
    }

    /** add, for at most `rounds` rounds of its loop. */
    method Add(credential: Credential, rounds: nat) returns (stored: bool)
      requires credential.typ != EMPTY && credential.id == 0
      modifies this
      ensures stored ==> Some(credentials) == AddedOrReplaced(old(credentials), credential)
      ensures !stored ==> credentials == old(credentials)
      ensures rounds >= 2 ==> (stored <==> AddedOrReplaced(old(credentials), credential) != None)
      ensures stored ==> AddedOrReplaced(old(credentials), credential) != None
    {
      var c := credential;
      for i := 0 to rounds
        invariant credentials == old(credentials) && c == credential.(id := if i == 0 then 0 else NextID(credentials))
        invariant i > 0 ==> 0 in credentials
        invariant i > 1 ==> NextID(credentials) in credentials
      {
        // LoadOrStore
        if c.id !in credentials {
          credentials := credentials[c.id := c];
          return true;
        }
        var next := GetNextID();
        c := c.(id := next);
      }
      return false;
    }

    /** False when the source's method never returns; two rounds of add tell. */
    method AddOrReplaceCredential(c: Credential) returns (returned: bool)
      modifies this
      ensures returned <==> AddedOrReplaced(old(credentials), c) != None
      ensures if returned then Some(credentials) == AddedOrReplaced(old(credentials), c)
              else credentials == old(credentials)
      ensures c.typ == EMPTY ==> credentials == old(credentials)
      ensures c.typ != EMPTY && c.id != 0 ==> credentials == old(credentials)[c.id := c]
      ensures c.typ != EMPTY && c.id == 0 && returned ==>
                exists id: Int :: id !in old(credentials) && credentials == old(credentials)[id := c.(id := id)]
      ensures !returned <==> c.typ != EMPTY && c.id == 0 && {0, MAX_INT, MIN_INT} <= old(credentials).Keys
    {
      NeverReturnsExactlyIf(credentials, c);

      if c.typ == EMPTY {
        return true;
      }
      if c.id != 0 {
        credentials := credentials[c.id := c];
        return true;
      }
      if AddedOrReplaced(credentials, c) != None {
        AddOverwritesNothing(credentials, c);
      }
      returned := Add(c, 2);
    }

    method AddOrReplaceCredentials(cs: seq<Credential>) returns (returned: bool)
      modifies this
      ensures returned <==> AllAddedOrReplaced(old(credentials), cs) != None
      ensures returned ==> Some(credentials) == AllAddedOrReplaced(old(credentials), cs)
    {
      for i := 0 to |cs|
        invariant AllAddedOrReplaced(old(credentials), cs[..i]) == Some(credentials)
      {
        AllStep(old(credentials), cs, i);
        returned := AddOrReplaceCredential(cs[i]);
        if !returned {
          NoneAfterNone(old(credentials), cs, i + 1);
          return false;
        }
      }
      assert cs[..|cs|] == cs;
      return true;
    }

    method RemoveCredentials(ids: seq<Int>)
      modifies this
      ensures credentials == old(credentials) - set id | id in ids
    {
      for i := 0 to |ids|
        invariant credentials == old(credentials) - set id | id in ids[..i]
      {
        assert ids[..i+1] == ids[..i] + [ids[i]];
        credentials := credentials - {ids[i]};
      }
      assert ids[..|ids|] == ids;
    }

    method RemoveCredentialsBySubjects(subjects: seq<string>)
      modifies this
      ensures credentials == WithoutSubjects(old(credentials), subjects)
      ensures forall k :: k in credentials <==> k in old(credentials) && old(credentials)[k].subject !in subjects
      ensures forall k | k in credentials :: credentials[k] == old(credentials)[k]
    {
      var keys := credentials.Keys;
      ghost var s := credentials;
      while keys != {}
        invariant keys <= s.Keys
        invariant forall k :: k in credentials <==> k in s && (k in keys || s[k].subject !in subjects)
        invariant forall k | k in credentials :: credentials[k] == s[k]
        decreases |keys|
      {
        var key :| key in keys;
        keys := keys - {key};
        var value := credentials[key];
        for i := 0 to |subjects|
          invariant credentials == if value.subject in subjects[..i] then credentials - {key} else credentials
          invariant keys <= s.Keys && key in s && key !in keys && value == s[key]
          invariant forall k | k != key :: k in credentials <==> k in s && (k in keys || s[k].subject !in subjects)
          invariant key in credentials <==> value.subject !in subjects[..i]
          invariant forall k | k in credentials :: credentials[k] == s[k]
        {
          assert subjects[..i+1] == subjects[..i] + [subjects[i]];
          if value.subject == subjects[i] {
            credentials := credentials - {key};
          }
        }
        assert subjects[..|subjects|] == subjects;
      }
    }

    method ClearCredentials()
      modifies this
      ensures credentials == map[]
    {
      credentials := map[];
    }

    /** getRep: the credentials in some order. */
    method GetRep(privateData: bool) returns (cs: seq<Credential>)
      requires Good(credentials)
      ensures Enumerates(cs, credentials, privateData)
      ensures forall i | 0 <= i < |cs| ::
                var c := credentials[cs[i].id];
                && cs[i].privateData == (if privateData then c.privateData else None)
                && (cs[i].typ, cs[i].subject, cs[i].other) == (c.typ, c.subject, c.other)
    {
      var keys := credentials.Keys;
      cs := [];
      while keys != {}
        invariant keys <= credentials.Keys && |cs| + |keys| == |credentials|
        invariant forall i | 0 <= i < |cs| :: cs[i].id in credentials && cs[i].id !in keys
        invariant forall i | 0 <= i < |cs| ::
                    cs[i].id in credentials && cs[i] == Shown(credentials[cs[i].id], privateData)
        invariant forall i, j | 0 <= i < j < |cs| :: cs[i].id != cs[j].id
        decreases |keys|
      {
        var key :| key in keys;
        keys := keys - {key};
        cs := cs + [Shown(credentials[key], privateData)];
      }
    }
  }

  lemma AllStep(s: Store, cs: seq<Credential>, i: nat)
    requires i < |cs|
    ensures AllAddedOrReplaced(s, cs[..i+1]) ==
            (var before := AllAddedOrReplaced(s, cs[..i]);
             if before == None then None else AddedOrReplaced(before.value, cs[i]))
  {
    assert cs[..i+1][..i] == cs[..i];
  }

  lemma {:induction false} NoneAfterNone(s: Store, cs: seq<Credential>, i: nat)
    requires i <= |cs| && AllAddedOrReplaced(s, cs[..i]) == None
    ensures AllAddedOrReplaced(s, cs) == None
    decreases |cs| - i
  {
    if i == |cs| {
      assert cs[..i] == cs;
    } else {
      AllStep(s, cs, i);
      NoneAfterNone(s, cs, i + 1);
    }
  }

  // ------------------------------------------------------------------------ properties

  /** Adding never returns exactly when 0, the largest and the smallest int are taken. */
  lemma NeverReturnsExactlyIf(s: Store, c: Credential)
    ensures AddedOrReplaced(s, c) == None <==>
            c.typ != EMPTY && c.id == 0 && 0 in s && MAX_INT in s && MIN_INT in s
  {
    NextIDIsFreeExactlyUnless(s);
  }

  /** An add overwrites nothing and takes one new key. */
  lemma AddOverwritesNothing(s: Store, c: Credential)
    requires c.typ != EMPTY && c.id == 0 && AddedOrReplaced(s, c) != None
    ensures exists id: Int :: id !in s && AddedOrReplaced(s, c) == Some(s[id := c.(id := id)])
  {
    if 0 !in s {
      assert c.(id := 0) == c;
      assert AddedOrReplaced(s, c) == Some(s[0 := c.(id := 0)]);
    } else {
      assert AddedOrReplaced(s, c) == Some(s[NextID(s) := c.(id := NextID(s))]);
    }
  }

  /** What is stored under an ID in the end is the last credential of the list with it. */
  lemma {:induction false} TheLastOneStays(s: Store, cs: seq<Credential>, i: nat)
    requires AllAddedOrReplaced(s, cs) != None && i < |cs| && cs[i].typ != EMPTY && cs[i].id != 0
    requires forall j | i < j < |cs| :: cs[j].id != cs[i].id
    ensures var after := AllAddedOrReplaced(s, cs).value; cs[i].id in after && after[cs[i].id] == cs[i]
  {
    if i < |cs| - 1 {
      TheLastOneStays(s, cs[..|cs|-1], i);
    }
  }

  lemma {:induction false} StaysGood(s: Store, cs: seq<Credential>)
    requires Good(s) && AllAddedOrReplaced(s, cs) != None
    ensures Good(AllAddedOrReplaced(s, cs).value)
  {
    if cs != [] {
      StaysGood(s, cs[..|cs|-1]);
    }
  }

  datatype Op =
    | AddOrReplace(cs: seq<Credential>)
    | Remove(ids: set<Int>)
    | RemoveBySubjects(subjects: seq<string>)
    | Clear

  /** What a run leaves; None when a call never returns. */
  ghost function Run(ops: seq<Op>): Option<Store> {
    if ops == [] then Some(map[])
    else
      var before := Run(ops[..|ops|-1]);
      if before == None then None
      else
        match ops[|ops|-1]
        case AddOrReplace(cs) => AllAddedOrReplaced(before.value, cs)
        case Remove(ids) => Some(before.value - ids)
        case RemoveBySubjects(subjects) => Some(WithoutSubjects(before.value, subjects))
        case Clear => Some(map[])
  }

  /** In every reachable state each credential is under its own ID and has a type. */
  lemma {:induction false} EveryRunIsGood(ops: seq<Op>)
    ensures Run(ops) != None ==> Good(Run(ops).value)
  {
    if ops != [] {
      EveryRunIsGood(ops[..|ops|-1]);
      var before, op := Run(ops[..|ops|-1]), ops[|ops|-1];
      if before != None && op.AddOrReplace? && AllAddedOrReplaced(before.value, op.cs) != None {
        StaysGood(before.value, op.cs);
      }
    }
  }

  /** Neither removes nor replaces what is stored under `k` as `c`. */
  predicate Spares(op: Op, k: Int, c: Credential) {
    match op
    case AddOrReplace(cs) => k == 0 || forall a | a in cs :: a.id != k
    case Remove(ids) => k !in ids
    case RemoveBySubjects(subjects) => c.subject !in subjects
    case Clear => false
  }

  lemma {:induction false} SparedByAdding(s: Store, cs: seq<Credential>, k: Int)
    requires k in s && (k == 0 || forall a | a in cs :: a.id != k) && AllAddedOrReplaced(s, cs) != None
    ensures var after := AllAddedOrReplaced(s, cs).value; k in after && after[k] == s[k]
  {
    if cs != [] {
      var init := cs[..|cs|-1];
      assert forall a | a in init :: a in cs;
      SparedByAdding(s, init, k);
      assert cs[|cs|-1] in cs;
    }
  }

  /** A credential stays as it is in every run that does not remove or replace it; the IDs
      chosen for others never are its own. */
  lemma {:induction false} SparedStays(ops: seq<Op>, more: seq<Op>, k: Int)
    requires Run(ops) != None && k in Run(ops).value && Run(ops + more) != None
    requires forall op | op in more :: Spares(op, k, Run(ops).value[k])
    ensures k in Run(ops + more).value && Run(ops + more).value[k] == Run(ops).value[k]
  {
    if more == [] {
      assert ops + more == ops;
    } else {
      var init, last := more[..|more|-1], more[|more|-1];
      assert (ops + more)[..|ops + more|-1] == ops + init;
      assert last in more && forall op | op in init :: op in more;
      SparedStays(ops, init, k);
      if last.AddOrReplace? {
        SparedByAdding(Run(ops + init).value, last.cs, k);
      }
    }
  }

  /** Importing an export gives the same store, in whatever order it was written. */
  lemma ImportOfExport(s: Store, cs: seq<Credential>)
    requires Good(s) && Enumerates(cs, s, true)
    ensures AllAddedOrReplaced(map[], cs) == Some(s) && Run([AddOrReplace(cs)]) == Some(s)
  {
    assert [AddOrReplace(cs)][..0] == [];
    ImportsPrefix(s, cs, |cs|);
    assert cs[..|cs|] == cs;
    EveryKey(s, cs);
    assert Restricted(s, cs, |cs|) == s;
  }

  ghost function Ids(cs: seq<Credential>): set<Int> {
    set c | c in cs :: c.id
  }

  ghost function Restricted(s: Store, cs: seq<Credential>, n: nat): Store
    requires n <= |cs|
  {
    map k | k in s && k in Ids(cs[..n]) :: s[k]
  }

  lemma {:induction false} ImportsPrefix(s: Store, cs: seq<Credential>, n: nat)
    requires Good(s) && Enumerates(cs, s, true) && n <= |cs|
    ensures AllAddedOrReplaced(map[], cs[..n]) == Some(Restricted(s, cs, n))
  {
    if n > 0 {
      ImportsPrefix(s, cs, n - 1);
      AllStep(map[], cs, n - 1);
      RestrictedStep(s, cs, n);
      AddOfANewID(Restricted(s, cs, n - 1), cs[n-1]);
    }
  }

  lemma AddOfANewID(s: Store, c: Credential)
    requires c.typ != EMPTY && c.id !in s
    ensures AddedOrReplaced(s, c) == Some(s[c.id := c])
  {
  }

  lemma RestrictedStep(s: Store, cs: seq<Credential>, n: nat)
    requires Good(s) && Enumerates(cs, s, true) && 0 < n <= |cs|
    ensures cs[n-1].id !in Restricted(s, cs, n - 1) && cs[n-1].typ != EMPTY
    ensures Restricted(s, cs, n) == Restricted(s, cs, n - 1)[cs[n-1].id := cs[n-1]]
  {
    var c := cs[n-1];
    assert cs[..n] == cs[..n-1] + [c];
    assert Ids(cs[..n]) == Ids(cs[..n-1]) + {c.id};
  }

  lemma EveryKey(s: Store, cs: seq<Credential>)
    requires Enumerates(cs, s, true)
    ensures s.Keys == Ids(cs)
  {
    IdsSize(cs);
    assert Ids(cs) <= s.Keys;
    SubsetOfSameSize(Ids(cs), s.Keys);
  }

  lemma {:induction false} IdsSize(cs: seq<Credential>)
    requires forall i, j | 0 <= i < j < |cs| :: cs[i].id != cs[j].id
    ensures |Ids(cs)| == |cs|
  {
    if cs != [] {
      var init, last := cs[..|cs|-1], cs[|cs|-1];
      IdsSize(init);
      assert cs == init + [last];
      assert Ids(cs) == Ids(init) + {last.id};
    }
  }

  lemma SubsetOfSameSize(a: set<Int>, b: set<Int>)
    requires a <= b && |a| == |b|
    ensures a == b
  {
    assert |b - a| == |b| - |a|;
  }
}
