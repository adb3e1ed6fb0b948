/** pkg/eventloop/eventloop.go, the sequential parts: filtering a handler list by
    channels (sort, then binary search) and building the select cases. */
module EventLoop {

  /** A channel is its address (`ch.Pointer()`); a handler function is an identity. */
  type Chan = nat

  datatype Handler = Handler(ch: Chan, h: nat)

  /** reflect.SelectCase: what a case waits on. */
  datatype Case = Stop | Wake | On(ch: Chan)

  /** The handlers that are not on one of the channels, in their order. */
  function Without(hs: seq<Handler>, chs: set<Chan>): seq<Handler> {
    if hs == [] then []
    else
      var last := hs[|hs|-1];
      Without(hs[..|hs|-1], chs) + if last.ch in chs then [] else [last]
  }

  /** A handler goes exactly if its channel is among them. */
  lemma WithoutOne(h: Handler, chs: set<Chan>)
    ensures Without([h], chs) == if h.ch in chs then [] else [h]
  {
    assert [h][..0] == [];
  }

  /** The others stay, in their order: the filter of a list is that of its parts. */
  lemma {:induction false} WithoutAppend(hs: seq<Handler>, more: seq<Handler>, chs: set<Chan>)
    ensures Without(hs + more, chs) == Without(hs, chs) + Without(more, chs)
  {
    if more == [] {
      assert hs + more == hs;
    } else {
      WithoutAppend(hs, more[..|more|-1], chs);
      assert (hs + more)[..|hs + more|-1] == hs + more[..|more|-1];
    }
  }

  function CasesOf(hs: seq<Handler>): (cases: seq<Case>)
    ensures |cases| == |hs| + 2 && cases[0] == Stop && cases[1] == Wake
    ensures forall i | 0 <= i < |hs| :: cases[i + 2] == On(hs[i].ch)
  {
    [Stop, Wake] + seq(|hs|, i requires 0 <= i < |hs| => On(hs[i].ch))
  }

  function Channels(xs: seq<Chan>): set<Chan> {
    set c | c in xs
  }

  ghost predicate Sorted(xs: seq<Chan>) {
    forall i, j | 0 <= i < j < |xs| :: xs[i] <= xs[j]
  }

  /** Sorted, except that the element at `j` may be too small for its place. */
  ghost predicate SortedBut(xs: seq<Chan>, j: nat) {
    forall a, b | 0 <= a < b < |xs| && b != j :: xs[a] <= xs[b]
  }

  method Insert(ch: array<Chan>, i: nat)
    requires i < ch.Length && Sorted(ch[..i])
    modifies ch
    ensures Sorted(ch[..i + 1]) && multiset(ch[..]) == multiset(old(ch[..]))
  {
    var j: nat := i;
    while j > 0 && ch[j - 1] > ch[j]
      invariant j <= i && SortedBut(ch[..i + 1], j)
      invariant multiset(ch[..]) == multiset(old(ch[..]))
    {
      ch[j - 1], ch[j] := ch[j], ch[j - 1];
      j := j - 1;
    }
  }

  /** sort.Slice on the caller's slice, by address. */
  method SortByPointer(ch: array<Chan>)
    modifies ch
    ensures Sorted(ch[..]) && multiset(ch[..]) == multiset(old(ch[..]))
  {
    for i := 0 to ch.Length
      invariant Sorted(ch[..i]) && multiset(ch[..]) == multiset(old(ch[..]))
    {
      Insert(ch, i);
    }
    assert ch[..ch.Length] == ch[..];
  }

  /** sort.Search for the first address that is at least `p`. */
  method Search(ch: array<Chan>, p: Chan) returns (i: nat)
    requires Sorted(ch[..])
    ensures i <= ch.Length
    ensures forall k | 0 <= k < i :: ch[k] < p
    ensures forall k | i <= k < ch.Length :: ch[k] >= p
  {
    var j := ch.Length;
    i := 0;
    while i < j
      invariant i <= j <= ch.Length
      invariant forall k | 0 <= k < i :: ch[k] < p
      invariant forall k | j <= k < ch.Length :: ch[k] >= p
    {
      var h := (i + j) / 2;
      assert forall k | 0 <= k < h :: ch[..][k] <= ch[..][h];
      assert forall k | h < k < ch.Length :: ch[..][h] <= ch[..][k];
      if ch[h] < p { i := h + 1; } else { j := h; }
    }
  }

  /** The list one attempt of removeByChannels builds from the list it loaded. */
  method BuildWithout(origHandlers: seq<Handler>, ch: array<Chan>) returns (handlers: seq<Handler>)
    requires Sorted(ch[..])
    ensures handlers == Without(origHandlers, Channels(ch[..]))
  {
    handlers := [];
    for k := 0 to |origHandlers|
      invariant handlers == Without(origHandlers[..k], Channels(ch[..]))
    {
      var h := origHandlers[k];
      assert origHandlers[..k + 1][..k] == origHandlers[..k];
      var i := Search(ch, h.ch);
      if i < ch.Length && ch[i] == h.ch {
        assert h.ch in ch[..];
        continue;
      }
      assert h.ch !in ch[..];
      handlers := handlers + [h];
    }
    assert origHandlers[..|origHandlers|] == origHandlers;
  }

  /** Sorting the argument once and then filtering by binary search removes
      exactly the handlers whose channel is among the arguments. */
  method RemoveAttempt(origHandlers: seq<Handler>, ch: array<Chan>) returns (handlers: seq<Handler>)
    modifies ch
    ensures handlers == Without(origHandlers, Channels(old(ch[..])))
  {
    ghost var was := ch[..];
    assert forall c :: c in was <==> c in multiset(was);
    SortByPointer(ch);
    handlers := BuildWithout(origHandlers, ch);
    assert forall c :: c in ch[..] <==> c in multiset(ch[..]);
    assert Channels(ch[..]) == Channels(old(ch[..]));
  }

  /** The list one attempt of Add builds. */
  method BuildWith(origHandlers: seq<Handler>, h: seq<Handler>) returns (handlers: array<Handler>)
    ensures fresh(handlers) && handlers[..] == origHandlers + h
  {
    handlers := new Handler[|origHandlers| + |h|](_ => Handler(0, 0));
    for i := 0 to |origHandlers|
      invariant forall k | 0 <= k < i :: handlers[k] == origHandlers[k]
    {
      handlers[i] := origHandlers[i];
    }
    for i := 0 to |h|
      invariant forall k | 0 <= k < |origHandlers| :: handlers[k] == origHandlers[k]
      invariant forall k | 0 <= k < i :: handlers[|origHandlers| + k] == h[k]
    {
      handlers[|origHandlers| + i] := h[i];
    }
    assert forall k | |origHandlers| <= k < handlers.Length :: handlers[k] == h[k - |origHandlers|] by {
      forall k | |origHandlers| <= k < handlers.Length ensures handlers[k] == h[k - |origHandlers|] {
        assert handlers[|origHandlers| + (k - |origHandlers|)] == h[k - |origHandlers|];
      }
    }
  }

  /** The cases getCases builds for a handler list. */
  method BuildCases(handlers: seq<Handler>) returns (cases: array<Case>)
    ensures fresh(cases) && cases[..] == CasesOf(handlers)
  {
    cases := new Case[|handlers| + 2](_ => Stop);
    cases[0] := Stop;
    cases[1] := Wake;
    for i := 0 to |handlers|
      invariant cases[0] == Stop && cases[1] == Wake
      invariant forall k | 0 <= k < i :: cases[k + 2] == On(handlers[k].ch)
    {
      cases[i + 2] := On(handlers[i].ch);
    }
    assert forall k | 2 <= k < cases.Length :: cases[k] == CasesOf(handlers)[k] by {
      forall k | 2 <= k < cases.Length ensures cases[k] == CasesOf(handlers)[k] {
        assert cases[(k - 2) + 2] == On(handlers[k - 2].ch);
      }
    }
  }
}
