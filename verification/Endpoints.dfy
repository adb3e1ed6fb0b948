/** client/getDevices.go: merging the endpoints of a device.

    The lists are sorted by URI and then, stably, by priority; a pass over the result
    drops an endpoint with the URI of the one before. `SortStable` stands for
    sort.SliceStable. */
module Endpoints {

  import Runs

  datatype Endpoint = Endpoint(uri: string, priority: nat)

  type LessFunction = (Endpoint, Endpoint) -> bool

  /** The order of Go's strings. */
  predicate Le(s: string, t: string) {
    s == "" || (t != "" && (s[0] < t[0] || (s[0] == t[0] && Le(s[1..], t[1..]))))
  }

  /** A prefix comes first, and otherwise the first character in which two strings differ
      decides, the smaller one coming first. */
  lemma {:induction false} LeIsLexicographic(s: string, t: string)
    ensures Le(s, t) <==>
            s <= t || exists k :: 0 <= k < |s| && k < |t| && s[..k] == t[..k] && s[k] < t[k]
  {
    if s != "" && t != "" && s[0] == t[0] {
      LeIsLexicographic(s[1..], t[1..]);
      assert s == [s[0]] + s[1..] && t == [t[0]] + t[1..];
      if k :| 0 <= k < |s| - 1 && k < |t| - 1 && s[1..][..k] == t[1..][..k] && s[1..][k] < t[1..][k] {
        assert s[..k+1] == [s[0]] + s[1..][..k] && t[..k+1] == [t[0]] + t[1..][..k];
      }
      if k :| 0 <= k < |s| && k < |t| && s[..k] == t[..k] && s[k] < t[k] {
        assert k > 0;
        assert s[1..][..k-1] == s[..k][1..] && t[1..][..k-1] == t[..k][1..];
        assert s[1..][k-1] < t[1..][k-1];
      }
    } else if s != "" && t != "" {
      assert s[0] < t[0] ==> s[..0] == t[..0];
      forall k | 0 < k < |s| && k < |t| ensures s[..k] != t[..k] {
        assert s[..k][0] != t[..k][0];
      }
    }
  }

  lemma {:induction false} LeTotal(s: string, t: string)
    ensures Le(s, t) || Le(t, s)
  {
    if s != "" && t != "" {
      LeTotal(s[1..], t[1..]);
    }
  }

  lemma {:induction false} LeAntisymmetric(s: string, t: string)
    requires Le(s, t) && Le(t, s)
    ensures s == t
  {
    if s != "" {
      LeAntisymmetric(s[1..], t[1..]);
      assert s == [s[0]] + s[1..] && t == [t[0]] + t[1..];
    }
  }

  lemma {:induction false} LeTransitive(s: string, t: string, u: string)
    requires Le(s, t) && Le(t, u)
    ensures Le(s, u)
  {
    if s != "" && s[0] == t[0] == u[0] {
      LeTransitive(s[1..], t[1..], u[1..]);
    }
  }

  predicate UriLess(e: Endpoint, f: Endpoint) {
    !Le(f.uri, e.uri)
  }

  predicate PriorityLess(e: Endpoint, f: Endpoint) {
    e.priority < f.priority
  }

  /** Lexicographic in priority and URI. */
  predicate Before(e: Endpoint, f: Endpoint) {
    e.priority < f.priority || (e.priority == f.priority && Le(e.uri, f.uri))
  }

  lemma BeforeTransitive(e: Endpoint, f: Endpoint, g: Endpoint)
    requires Before(e, f) && Before(f, g)
    ensures Before(e, g)
  {
    if e.priority == f.priority == g.priority {
      LeTransitive(e.uri, f.uri, g.uri);
    }
  }

  ghost predicate Sorted(s: seq<Endpoint>) {
    forall i, j | 0 <= i < j < |s| :: Before(s[i], s[j])
  }

  ghost predicate UriSorted(s: seq<Endpoint>) {
    forall i, j | 0 <= i < j < |s| :: Le(s[i].uri, s[j].uri)
  }

  // ------------------------------------------------------------------ stable sorting

  /** `e` behind everything it is not less than. */
  function Insert(less: LessFunction, s: seq<Endpoint>, e: Endpoint): seq<Endpoint> {
    if s == [] || !less(e, s[|s|-1]) then s + [e]
    else Insert(less, s[..|s|-1], e) + [s[|s|-1]]
  }

  function SortBy(less: LessFunction, s: seq<Endpoint>): seq<Endpoint> {
    if s == [] then [] else Insert(less, SortBy(less, s[..|s|-1]), s[|s|-1])
  }

  lemma LastApart(s: seq<Endpoint>)
    requires s != []
    ensures multiset(s) == multiset(s[..|s|-1]) + multiset{s[|s|-1]}
  {
    assert s == s[..|s|-1] + [s[|s|-1]];
  }

  lemma {:induction false} InsertPermutes(less: LessFunction, s: seq<Endpoint>, e: Endpoint)
    ensures multiset(Insert(less, s, e)) == multiset(s) + multiset{e}
  {
    if !(s == [] || !less(e, s[|s|-1])) {
      InsertPermutes(less, s[..|s|-1], e);
      LastApart(s);
    }
  }

  lemma {:induction false} SortPermutes(less: LessFunction, s: seq<Endpoint>)
    ensures multiset(SortBy(less, s)) == multiset(s)
  {
    if s != [] {
      SortPermutes(less, s[..|s|-1]);
      InsertPermutes(less, SortBy(less, s[..|s|-1]), s[|s|-1]);
      LastApart(s);
    }
  }

  lemma SortLength(less: LessFunction, s: seq<Endpoint>)
    ensures |SortBy(less, s)| == |s|
  {
    SortPermutes(less, s);
    assert |multiset(SortBy(less, s))| == |multiset(s)|;
  }

  lemma InsertElements(less: LessFunction, s: seq<Endpoint>, e: Endpoint, x: Endpoint)
    requires x in Insert(less, s, e)
    ensures x in s || x == e
  {
    InsertPermutes(less, s, e);
    assert x in multiset(Insert(less, s, e));
  }

  lemma SortElements(less: LessFunction, s: seq<Endpoint>, x: Endpoint)
    requires x in SortBy(less, s)
    ensures x in s
  {
    SortPermutes(less, s);
    assert x in multiset(SortBy(less, s));
  }

  lemma {:induction false} InsertAt(less: LessFunction, s: seq<Endpoint>, e: Endpoint, j: nat)
    requires j <= |s| && (forall k | j <= k < |s| :: less(e, s[k])) && (j == 0 || !less(e, s[j-1]))
    ensures Insert(less, s, e) == s[..j] + [e] + s[j..]
  {
    if j < |s| {
      var init := s[..|s|-1];
      InsertAt(less, init, e, j);
      assert init[..j] == s[..j] && init[j..] + [s[|s|-1]] == s[j..];
    }
  }

  /** s[i] moved to j, and what it passed moved up by one. */
  function Moved(s: seq<Endpoint>, i: nat, j: nat): seq<Endpoint>
    requires j <= i < |s|
  {
    s[..j] + [s[i]] + s[j..i] + s[i+1..]
  }

  lemma MovedStep(s: seq<Endpoint>, i: nat, j: nat)
    requires 0 < j <= i < |s|
    ensures Moved(s, i, j)[j-1 := s[i]][j := s[j-1]] == Moved(s, i, j - 1)
  {
  }

  /** Insertion of a[i] into a[..i], in place. */
  method InsertInPlace(less: LessFunction, a: array<Endpoint>, i: nat)
    requires i < a.Length
    modifies a
    ensures a[..] == Insert(less, old(a[..i]), old(a[i])) + old(a[i+1..])
  {
    ghost var s := a[..];
    assert s == Moved(s, i, i);
    var j := i;
    while j > 0 && less(a[j], a[j-1])
      invariant 0 <= j <= i && a[..] == Moved(s, i, j)
      invariant forall k | j <= k < i :: less(s[i], s[k])
    {
      assert a[..][j] == s[i] && a[..][j-1] == s[j-1];
      MovedStep(s, i, j);
      a[j-1], a[j] := a[j], a[j-1];
      j := j - 1;
    }
    assert a[..][j] == s[i] && (j > 0 ==> a[..][j-1] == s[j-1]);
    InsertAt(less, s[..i], s[i], j);
    assert s[..i][..j] == s[..j] && s[..i][j..] == s[j..i];
  }

  method SortStable(less: LessFunction, a: array<Endpoint>)
    modifies a
    ensures a[..] == SortBy(less, old(a[..]))
  {
    ghost var s := a[..];
    for i := 0 to a.Length
      invariant a[..i] == SortBy(less, s[..i]) && a[i..] == s[i..]
    {
      SortStep(less, s, i);
      assert a[i] == a[i..][0] == s[i] && a[i+1..] == a[i..][1..] && s[i+1..] == s[i..][1..];
      ghost var sorted := SortBy(less, s[..i+1]);
      SortLength(less, s[..i+1]);
      InsertInPlace(less, a, i);
      assert a[..] == sorted + s[i+1..];
      assert a[..i+1] == a[..][..i+1] == sorted && a[i+1..] == a[..][i+1..] == s[i+1..];
    }
    assert a[..a.Length] == a[..] && s[..a.Length] == s;
  }

  lemma SortStep(less: LessFunction, s: seq<Endpoint>, i: nat)
    requires i < |s|
    ensures SortBy(less, s[..i+1]) == Insert(less, SortBy(less, s[..i]), s[i])
  {
    assert s[..i+1][..i] == s[..i];
  }

  lemma {:induction false} InsertByUri(s: seq<Endpoint>, e: Endpoint)
    requires UriSorted(s)
    ensures UriSorted(Insert(UriLess, s, e))
  {
    if s == [] {
    } else if !UriLess(e, s[|s|-1]) {
      forall i | 0 <= i < |s| ensures Le(s[i].uri, e.uri) {
        if i < |s| - 1 { LeTransitive(s[i].uri, s[|s|-1].uri, e.uri); }
      }
    } else {
      var init, last := s[..|s|-1], s[|s|-1];
      InsertByUri(init, e);
      LeTotal(e.uri, last.uri);
      var r := Insert(UriLess, init, e);
      forall i | 0 <= i < |r| ensures Le(r[i].uri, last.uri) {
        InsertElements(UriLess, init, e, r[i]);
      }
    }
  }

  lemma {:induction false} SortByUri(s: seq<Endpoint>)
    ensures UriSorted(SortBy(UriLess, s))
  {
    if s != [] {
      SortByUri(s[..|s|-1]);
      InsertByUri(SortBy(UriLess, s[..|s|-1]), s[|s|-1]);
    }
  }

  /** Stability: among equal priorities the later URI goes behind. */
  lemma {:induction false} InsertByPriority(s: seq<Endpoint>, e: Endpoint)
    requires Sorted(s) && forall x | x in s :: Le(x.uri, e.uri)
    ensures Sorted(Insert(PriorityLess, s, e))
  {
    if s == [] {
    } else if !PriorityLess(e, s[|s|-1]) {
      forall i | 0 <= i < |s| ensures Before(s[i], e) {
        assert s[i] in s && s[|s|-1] in s;
        if i < |s| - 1 { BeforeTransitive(s[i], s[|s|-1], e); }
      }
    } else {
      var init, last := s[..|s|-1], s[|s|-1];
      InsertByPriority(init, e);
      var r := Insert(PriorityLess, init, e);
      forall i | 0 <= i < |r| ensures Before(r[i], last) {
        InsertElements(PriorityLess, init, e, r[i]);
      }
    }
  }

  lemma {:induction false} SortByPriority(s: seq<Endpoint>)
    requires UriSorted(s)
    ensures Sorted(SortBy(PriorityLess, s))
  {
    if s != [] {
      var init, last := s[..|s|-1], s[|s|-1];
      SortByPriority(init);
      forall x | x in SortBy(PriorityLess, init) ensures Le(x.uri, last.uri) {
        SortElements(PriorityLess, init, x);
      }
      InsertByPriority(SortBy(PriorityLess, init), last);
    }
  }

  /** Both sorts, one after the other. */
  function SortBoth(s: seq<Endpoint>): seq<Endpoint> {
    SortBy(PriorityLess, SortBy(UriLess, s))
  }

  /** The two stable sorts give the lexicographic order. */
  lemma SortBothIsSorted(s: seq<Endpoint>)
    ensures Sorted(SortBoth(s)) && multiset(SortBoth(s)) == multiset(s)
  {
    SortPermutes(UriLess, s);
    SortPermutes(PriorityLess, SortBy(UriLess, s));
    SortByUri(s);
    SortByPriority(SortBy(UriLess, s));
  }

  /** A multiset has one sorted sequence. */
  lemma {:induction false} SortedIsUnique(s: seq<Endpoint>, t: seq<Endpoint>)
    requires Sorted(s) && Sorted(t) && multiset(s) == multiset(t)
    ensures s == t
    decreases |s|
  {
    SameLength(s, t);
    if s != [] {
      SameLast(s, t);
      WithoutLast(s);
      WithoutLast(t);
      SortedIsUnique(s[..|s|-1], t[..|t|-1]);
      SameEnds(s, t);
    }
  }

  lemma SameEnds(s: seq<Endpoint>, t: seq<Endpoint>)
    requires |s| == |t| > 0 && s[..|s|-1] == t[..|t|-1] && s[|s|-1] == t[|t|-1]
    ensures s == t
  {
    assert s == s[..|s|-1] + [s[|s|-1]] && t == t[..|t|-1] + [t[|t|-1]];
  }

  lemma SameLength(s: seq<Endpoint>, t: seq<Endpoint>)
    requires multiset(s) == multiset(t)
    ensures |s| == |t|
  {
    assert |multiset(s)| == |multiset(t)|;
  }

  lemma WithoutLast(s: seq<Endpoint>)
    requires s != [] && Sorted(s)
    ensures Sorted(s[..|s|-1]) && multiset(s[..|s|-1]) == multiset(s) - multiset{s[|s|-1]}
  {
    LastApart(s);
  }

  lemma SameLast(s: seq<Endpoint>, t: seq<Endpoint>)
    requires Sorted(s) && Sorted(t) && multiset(s) == multiset(t) && s != [] && t != []
    ensures s[|s|-1] == t[|t|-1]
  {
    var x, y := s[|s|-1], t[|t|-1];
    assert x in multiset(s) && y in multiset(t);
    var i :| 0 <= i < |t| && t[i] == x;
    var j :| 0 <= j < |s| && s[j] == y;
    if x != y {
      assert Before(x, y) && Before(y, x);
      LeAntisymmetric(x.uri, y.uri);
    }
  }

  // ------------------------------------------------------------------------- merging

  /** The pass that drops an endpoint with the URI of the one before. */
  function Dedup(s: seq<Endpoint>, last: string): seq<Endpoint> {
    if s == [] then []
    else (if s[0].uri != last then [s[0]] else []) + Dedup(s[1..], s[0].uri)
  }

  lemma DedupCons(e: Endpoint, s: seq<Endpoint>, last: string)
    ensures Dedup([e] + s, last) == (if e.uri != last then [e] else []) + Dedup(s, e.uri)
  {
    assert ([e] + s)[1..] == s;
  }

  function Merge(a: seq<Endpoint>, b: seq<Endpoint>): seq<Endpoint> {
    Dedup(SortBoth(a + b), "")
  }

  lemma DedupStep(out: seq<Endpoint>, s: seq<Endpoint>, i: nat, last: string)
    requires i < |s|
    ensures out + Dedup(s[i..], last) == (if s[i].uri != last then out + [s[i]] else out) + Dedup(s[i+1..], s[i].uri)
  {
    assert s[i..] == [s[i]] + s[i+1..];
    DedupCons(s[i], s[i+1..], last);
  }

  /** The loop of mergeEndpoints. */
  method DropRepeats(eps: array<Endpoint>) returns (out: seq<Endpoint>)
    ensures out == Dedup(eps[..], "")
  {
    out := [];
    var last := "";
    for i := 0 to eps.Length
      invariant out + Dedup(eps[..][i..], last) == Dedup(eps[..], "")
    {
      DedupStep(out, eps[..], i, last);
      if last != eps[i].uri {
        out := out + [eps[i]];
      }
      last := eps[i].uri;
    }
  }

  method MergeEndpoints(a: seq<Endpoint>, b: seq<Endpoint>) returns (out: seq<Endpoint>)
    ensures out == Merge(a, b)
  {
    var both := a + b;
    var eps := new Endpoint[|both|](i requires 0 <= i < |both| => both[i]);
    assert eps[..] == both;
    SortStable(UriLess, eps);
    SortStable(PriorityLess, eps);
    out := DropRepeats(eps);
  }

  /** No URI stands next to itself, and `last` is not the first. */
  ghost predicate NoRepeats(s: seq<Endpoint>, last: string) {
    && (s != [] ==> s[0].uri != last)
    && forall i | 0 < i < |s| :: s[i].uri != s[i-1].uri
  }

  lemma {:induction false} DedupKeepsOrder(s: seq<Endpoint>, last: string)
    requires Sorted(s)
    ensures Sorted(Dedup(s, last)) && forall e | e in Dedup(s, last) :: e in s
  {
    if s != [] {
      DedupKeepsOrder(s[1..], s[0].uri);
      var rest := Dedup(s[1..], s[0].uri);
      forall i | 0 <= i < |rest| ensures Before(s[0], rest[i]) {
        assert rest[i] in s[1..];
      }
    }
  }

  lemma {:induction false} DedupLeavesNoRepeats(s: seq<Endpoint>, last: string)
    ensures NoRepeats(Dedup(s, last), last)
  {
    if s != [] {
      DedupLeavesNoRepeats(s[1..], s[0].uri);
    }
  }

  lemma {:induction false} DedupKeepsUris(s: seq<Endpoint>, last: string, e: Endpoint) returns (f: Endpoint)
    requires Sorted(s) && e in s && e.uri != last
    ensures f in Dedup(s, last) && f.uri == e.uri && f.priority <= e.priority
  {
    if s[0].uri == e.uri {
      f := s[0];
    } else {
      f := DedupKeepsUris(s[1..], s[0].uri, e);
    }
  }

  /** The result is in (priority, URI) order without adjacent repeats, and holds
      only endpoints that went in. */
  lemma MergeIsOrdered(a: seq<Endpoint>, b: seq<Endpoint>)
    ensures Sorted(Merge(a, b)) && NoRepeats(Merge(a, b), "")
    ensures forall e | e in Merge(a, b) :: e in a || e in b
  {
    var s := SortBoth(a + b);
    SortBothIsSorted(a + b);
    DedupKeepsOrder(s, "");
    DedupLeavesNoRepeats(s, "");
    forall e | e in Merge(a, b) ensures e in a || e in b {
      assert e in multiset(s);
      assert e in a + b;
    }
  }

  /** Every URI but the empty one survives, at its smallest priority. */
  lemma MergeKeepsUris(a: seq<Endpoint>, b: seq<Endpoint>, e: Endpoint)
    requires (e in a || e in b) && e.uri != ""
    requires forall f | (f in a || f in b) && f.uri == e.uri :: e.priority <= f.priority
    ensures e in Merge(a, b)
  {
    SortBothIsSorted(a + b);
    assert e in a + b;
    assert e in multiset(SortBoth(a + b));
    var f := DedupKeepsUris(SortBoth(a + b), "", e);
    MergeIsOrdered(a, b);
    assert f == e;
  }

  lemma MergeCommutes(a: seq<Endpoint>, b: seq<Endpoint>)
    ensures Merge(a, b) == Merge(b, a)
  {
    SortBothIsSorted(a + b);
    SortBothIsSorted(b + a);
    SortedIsUnique(SortBoth(a + b), SortBoth(b + a));
  }

  /** Every endpoint twice in a row. */
  function Twice(s: seq<Endpoint>): seq<Endpoint> {
    if s == [] then [] else [s[0]] + ([s[0]] + Twice(s[1..]))
  }

  lemma {:induction false} TwicePermutes(s: seq<Endpoint>)
    ensures multiset(Twice(s)) == multiset(s + s)
  {
    if s != [] {
      TwicePermutes(s[1..]);
      assert s == [s[0]] + s[1..];
    }
  }

  lemma {:induction false} TwiceIsSorted(s: seq<Endpoint>)
    requires Sorted(s)
    ensures Sorted(Twice(s)) && forall x | x in Twice(s) :: x in s
  {
    if s != [] {
      TwiceIsSorted(s[1..]);
      var rest := Twice(s[1..]);
      LeTotal(s[0].uri, s[0].uri);
      forall i | 0 <= i < |rest| ensures Before(s[0], rest[i]) {
        assert rest[i] in s[1..];
      }
    }
  }

  lemma {:induction false} DedupOfTwice(s: seq<Endpoint>, last: string)
    requires NoRepeats(s, last)
    ensures Dedup(Twice(s), last) == s
  {
    if s != [] {
      var rest := Twice(s[1..]);
      DedupOfTwice(s[1..], s[0].uri);
      DedupCons(s[0], [s[0]] + rest, last);
      DedupCons(s[0], rest, s[0].uri);
      assert [s[0]] + ([] + s[1..]) == s;
    }
  }

  /** Merging a result with itself changes nothing. */
  lemma MergeIsIdempotent(a: seq<Endpoint>, b: seq<Endpoint>)
    ensures Merge(Merge(a, b), Merge(a, b)) == Merge(a, b)
  {
    var m := Merge(a, b);
    MergeIsOrdered(a, b);
    TwiceIsSorted(m);
    TwicePermutes(m);
    SortBothIsSorted(m + m);
    SortedIsUnique(SortBoth(m + m), Twice(m));
    DedupOfTwice(m, "");
  }

  // ------------------------------------------------- what a merge holds, and grouping

  predicate Strictly(e: Endpoint, f: Endpoint) {
    Before(e, f) && e != f
  }

  function Uri(e: Endpoint): string {
    e.uri
  }

  function Set(s: seq<Endpoint>): set<Endpoint> {
    set e | e in s
  }

  lemma IsLinear(xs: set<Endpoint>)
    ensures Runs.Linear(Strictly, xs)
  {
    forall x, y | Strictly(x, y) ensures !Strictly(y, x) {
      BeforeAntisymmetric(x, y);
    }
    forall x: Endpoint, y ensures x == y || Strictly(x, y) || Strictly(y, x) {
      LeTotal(x.uri, y.uri);
    }
    forall x, y, z | Strictly(x, y) && Strictly(y, z) ensures Strictly(x, z) {
      BeforeTransitive(x, y, z);
      BeforeAntisymmetric(x, y);
    }
  }

  lemma BeforeAntisymmetric(e: Endpoint, f: Endpoint)
    requires Before(e, f)
    ensures Before(f, e) ==> e == f
  {
    if Before(f, e) {
      LeAntisymmetric(e.uri, f.uri);
    }
  }

  /** The endpoint at `i` has another URI than the one before it, or than `last`. */
  predicate Stands(s: seq<Endpoint>, last: string, i: nat)
    requires i < |s|
  {
    s[i].uri != if i == 0 then last else s[i-1].uri
  }

  lemma {:induction false} DedupHolds(s: seq<Endpoint>, last: string, e: Endpoint)
    ensures e in Dedup(s, last) <==> exists i: nat :: i < |s| && s[i] == e && Stands(s, last, i)
  {
    if s != [] {
      var rest := s[1..];
      DedupHolds(rest, s[0].uri, e);
      assert forall i: nat | 0 < i < |s| :: s[i] == rest[i-1] && Stands(s, last, i) == Stands(rest, s[0].uri, i - 1);
      if i: nat :| i < |rest| && rest[i] == e && Stands(rest, s[0].uri, i) {
        assert s[i+1] == e && Stands(s, last, i + 1);
      }
    }
  }

  /** In a sorted list, standing does not depend on the place, only on the set of endpoints. */
  lemma StandsExactlyIf(s: seq<Endpoint>, i: nat)
    requires Sorted(s) && i < |s| && (i == 0 || s[i-1] != s[i])
    ensures Stands(s, "", i) <==> !Runs.Repeats(Strictly, Uri, Set(s), s[i])
  {
    var xs, e := Set(s), s[i];
    IsLinear(xs);
    forall z | z in xs && Strictly(z, e) ensures i > 0 && (z == s[i-1] || Strictly(z, s[i-1])) {
      var k :| 0 <= k < |s| && s[k] == z;
      if k >= i {
        assert k != i && Before(e, z);
        BeforeAntisymmetric(z, e);
      }
    }
    if i > 0 {
      assert Before(s[i-1], e);
      assert Runs.Next(Strictly, xs, s[i-1], e);
      assert !Runs.IsFirst(Strictly, xs, e);
    }
  }

  /** A merge holds exactly the endpoints that do not have the URI of the one before them
      in the (priority, URI) order of all, and not a first one without a URI. */
  lemma MergeHolds(a: seq<Endpoint>, b: seq<Endpoint>)
    ensures Set(Merge(a, b)) == Runs.Kept(Strictly, Uri, Set(a) + Set(b))
  {
    var s := SortBoth(a + b);
    SortBothIsSorted(a + b);
    assert Set(s) == Set(a) + Set(b) by {
      forall e ensures e in s <==> e in a + b {
        assert e in multiset(s) <==> e in multiset(a + b);
      }
    }
    forall e ensures e in Merge(a, b) <==> e in Runs.Kept(Strictly, Uri, Set(s)) {
      DedupHolds(s, "", e);
      if e in s {
        FirstPlace(s, e);
      }
    }
  }

  /** Only the first of equal endpoints can stand. */
  lemma FirstPlace(s: seq<Endpoint>, e: Endpoint)
    requires Sorted(s) && e in s
    ensures (exists i: nat :: i < |s| && s[i] == e && Stands(s, "", i)) <==> !Runs.Repeats(Strictly, Uri, Set(s), e)
  {
    var i := 0;
    while s[i] != e
      invariant i < |s| && e !in s[..i]
      invariant e in s[i..]
      decreases |s| - i
    {
      i := i + 1;
    }
    assert i > 0 ==> s[i-1] in s[..i];
    StandsExactlyIf(s, i);
    forall j: nat | i < j < |s| && s[j] == e ensures !Stands(s, "", j) {
      if j - 1 > i {
        BeforeAntisymmetric(s[i], s[j-1]);
      }
    }
  }

  /** A result is determined by the set of its endpoints. */
  lemma SameSetSameResult(s: seq<Endpoint>, t: seq<Endpoint>)
    requires Sorted(s) && NoRepeats(s, "") && Sorted(t) && NoRepeats(t, "") && Set(s) == Set(t)
    ensures s == t
  {
    NoRepeatsMeansDistinct(s);
    NoRepeatsMeansDistinct(t);
    EachOnce(s);
    EachOnce(t);
    SortedIsUnique(s, t);
  }

  ghost predicate Distinct(s: seq<Endpoint>) {
    forall i, j | 0 <= i < j < |s| :: s[i] != s[j]
  }

  lemma NoRepeatsMeansDistinct(s: seq<Endpoint>)
    requires Sorted(s) && NoRepeats(s, "")
    ensures Distinct(s)
  {
    forall i, j | 0 <= i < j < |s| ensures s[i] != s[j] {
      if i < j - 1 && s[i] == s[j] {
        BeforeAntisymmetric(s[j], s[i+1]);
      }
    }
  }

  lemma {:induction false} EachOnce(s: seq<Endpoint>)
    requires Distinct(s)
    ensures multiset(s) == multiset(Set(s))
  {
    if s != [] {
      EachOnce(s[..|s|-1]);
      LastApart(s);
      SetOfLast(s);
    }
  }

  lemma SetOfLast(s: seq<Endpoint>)
    requires s != [] && Distinct(s)
    ensures multiset(Set(s)) == multiset(Set(s[..|s|-1])) + multiset{s[|s|-1]}
  {
    var init, last := s[..|s|-1], s[|s|-1];
    assert s == init + [last];
    assert Set(s) == Set(init) + {last};
  }

  /** `e` has the URI of the endpoint before it, or is the first one and has none. */
  ghost predicate Repeats(e: Endpoint, s: seq<Endpoint>) {
    Runs.Repeats(Strictly, Uri, Set(s), e)
  }

  /** What repeats in `s` and is not in `t` still repeats when `t` is added. */
  ghost predicate NothingBetween(s: seq<Endpoint>, t: seq<Endpoint>) {
    forall e | e in s && e !in t && Repeats(e, s) :: Repeats(e, s + t)
  }

  /** Grouping does not matter exactly if no endpoint of the third list comes between two
      neighbours of the first two that have one URI, as the last one before the second
      of them, nor any of the first list between two of the last two. */
  lemma MergeAssociatesExactlyIf(a: seq<Endpoint>, b: seq<Endpoint>, c: seq<Endpoint>)
    ensures Merge(Merge(a, b), c) == Merge(a, Merge(b, c)) <==> NothingBetween(a + b, c) && NothingBetween(b + c, a)
  {
    var left, right := Merge(Merge(a, b), c), Merge(a, Merge(b, c));
    MergeHolds(a, b);
    MergeHolds(b, c);
    MergeHolds(Merge(a, b), c);
    MergeHolds(a, Merge(b, c));
    IsLinear(Set(a) + Set(b) + Set(c));
    Runs.AssociatesExactlyIf(Strictly, Uri, Set(a), Set(b), Set(c));
    HarmlessIs(a + b, c);
    HarmlessIs(b + c, a);
    assert Set(a + b) == Set(a) + Set(b) && Set(b + c) == Set(b) + Set(c);
    MergeIsOrdered(Merge(a, b), c);
    MergeIsOrdered(a, Merge(b, c));
    if Set(left) == Set(right) {
      SameSetSameResult(left, right);
    }
  }

  lemma HarmlessIs(s: seq<Endpoint>, t: seq<Endpoint>)
    ensures NothingBetween(s, t) <==> Runs.Harmless(Strictly, Uri, Set(s), Set(t))
  {
    assert Set(s + t) == Set(s) + Set(t);
  }

  /** So it does not matter when every URI has one priority and no URI is empty. */
  lemma MergeAssociatesWithOnePriority(a: seq<Endpoint>, b: seq<Endpoint>, c: seq<Endpoint>)
    requires forall e | e in a + b + c :: e.uri != ""
    requires forall e, f | e in a + b + c && f in a + b + c && e.uri == f.uri :: e.priority == f.priority
    ensures Merge(Merge(a, b), c) == Merge(a, Merge(b, c))
  {
    NothingRepeats(a + b, a + b + c);
    NothingRepeats(b + c, a + b + c);
    MergeAssociatesExactlyIf(a, b, c);
  }

  lemma NothingRepeats(s: seq<Endpoint>, all: seq<Endpoint>)
    requires forall e | e in s :: e in all && e.uri != ""
    requires forall e, f | e in all && f in all && e.uri == f.uri :: e.priority == f.priority
    ensures forall e | e in s :: !Repeats(e, s)
  {
  }

  /** It does matter for an endpoint that ends up between two others with one URI: it
      keeps both, unless the two met before. */
  lemma MergeIsNotAssociative(e: Endpoint, f: Endpoint, g: Endpoint)
    requires e.uri == g.uri != f.uri && e.uri != "" && f.uri != "" && e.priority < f.priority < g.priority
    ensures Merge(Merge([e], [g]), [f]) == [e, f]
    ensures Merge([e], Merge([g], [f])) == [e, f, g]
  {
    MergePair(e, g);
    MergePair(e, f);
    MergePair(f, g);
    MergeCommutes([f], [g]);
    MergeTriple(e, f, g);
  }

  lemma MergeTriple(e: Endpoint, f: Endpoint, g: Endpoint)
    requires e.uri != f.uri && f.uri != g.uri && e.uri != "" && e.priority < f.priority < g.priority
    ensures Merge([e], [f, g]) == [e, f, g]
  {
    assert [e, f, g] == [e] + [f, g];
    SortedMerge([e], [f, g], [e, f, g]);
    DedupCons(e, [f, g], "");
    DedupPair(f, g, e.uri);
  }

  lemma MergePair(e: Endpoint, f: Endpoint)
    requires e.uri != "" && e.priority < f.priority
    ensures Merge([e], [f]) == if f.uri == e.uri then [e] else [e, f]
  {
    SortedMerge([e], [f], [e, f]);
    DedupPair(e, f, "");
  }

  lemma DedupPair(e: Endpoint, f: Endpoint, last: string)
    requires e.uri != last
    ensures Dedup([e, f], last) == if f.uri == e.uri then [e] else [e, f]
  {
    assert [e, f] == [e] + ([f] + []);
    DedupCons(e, [f] + [], last);
    DedupCons(f, [], e.uri);
  }

  lemma SortedMerge(a: seq<Endpoint>, b: seq<Endpoint>, s: seq<Endpoint>)
    requires Sorted(s) && multiset(s) == multiset(a + b)
    ensures Merge(a, b) == Dedup(s, "")
  {
    SortBothIsSorted(a + b);
    SortedIsUnique(SortBoth(a + b), s);
  }
}
