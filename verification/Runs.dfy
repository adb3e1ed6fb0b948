/** Runs of equal marks in a finite linear order.

    Of every run only the first element is kept, and nothing of a run with the empty
    mark at the very beginning. This is what a pass over a sorted list does that drops
    an element marked like the one before, starting with the empty mark. */
module Runs {

  type Less<!T> = (T, T) -> bool
  type Mark<!T> = T -> string

  ghost predicate Linear<T(!new)>(less: Less<T>, xs: set<T>) {
    && (forall x, y | x in xs && y in xs :: less(x, y) ==> !less(y, x))
    && (forall x, y | x in xs && y in xs :: x == y || less(x, y) || less(y, x))
    && (forall x, y, z | x in xs && y in xs && z in xs :: less(x, y) && less(y, z) ==> less(x, z))
  }

  /** `w` stands right before `x`. */
  ghost predicate Next<T(!new)>(less: Less<T>, xs: set<T>, w: T, x: T) {
    w in xs && less(w, x) && forall z | z in xs && less(z, x) :: z == w || less(z, w)
  }

  ghost predicate IsFirst<T(!new)>(less: Less<T>, xs: set<T>, x: T) {
    forall z | z in xs :: !less(z, x)
  }

  /** `x` has the mark of the element before it, or is the first one without a mark. */
  ghost predicate Repeats<T(!new)>(less: Less<T>, mark: Mark<T>, xs: set<T>, x: T) {
    || (exists w :: Next(less, xs, w, x) && mark(w) == mark(x))
    || (mark(x) == "" && IsFirst(less, xs, x))
  }

  ghost function Kept<T(!new)>(less: Less<T>, mark: Mark<T>, xs: set<T>): set<T> {
    set x | x in xs && !Repeats(less, mark, xs, x)
  }

  ghost function Below<T(!new)>(less: Less<T>, xs: set<T>, x: T): set<T> {
    set z | z in xs && less(z, x)
  }

  lemma {:induction false} Largest<T(!new)>(less: Less<T>, xs: set<T>) returns (w: T)
    requires Linear(less, xs) && xs != {}
    ensures w in xs && forall z | z in xs :: z == w || less(z, w)
    decreases |xs|
  {
    w :| w in xs;
    var rest := xs - {w};
    if rest != {} {
      var v := Largest(less, rest);
      if less(w, v) {
        return v;
      }
    }
    assert forall z | z in xs :: z == w || z in rest;
  }

  lemma Predecessor<T(!new)>(less: Less<T>, xs: set<T>, x: T) returns (w: T)
    requires Linear(less, xs) && !IsFirst(less, xs, x)
    ensures Next(less, xs, w, x)
  {
    var below := Below(less, xs, x);
    var z :| z in xs && less(z, x);
    assert z in below;
    w := Largest(less, below);
  }

  lemma BelowIsSmaller<T(!new)>(less: Less<T>, xs: set<T>, w: T, x: T)
    requires Linear(less, xs) && w in xs && x in xs && less(w, x)
    ensures |Below(less, xs, w)| < |Below(less, xs, x)|
  {
    var bw, bx := Below(less, xs, w), Below(less, xs, x);
    assert w in bx && w !in bw && bw <= bx;
    assert |bx| == |bw| + |bx - bw|;
    assert w in bx - bw;
  }

  /** From `f` to `x` everything has one mark. */
  ghost predicate Run<T(!new)>(less: Less<T>, mark: Mark<T>, xs: set<T>, f: T, x: T) {
    && (f == x || less(f, x))
    && forall z | z in xs && (f == z || less(f, z)) && (z == x || less(z, x)) :: mark(z) == mark(x)
  }

  /** Up to `x` nothing has a mark. */
  ghost predicate Blank<T(!new)>(less: Less<T>, mark: Mark<T>, xs: set<T>, x: T) {
    forall z | z in xs && (z == x || less(z, x)) :: mark(z) == ""
  }

  /** Every element is in the run of one that is kept, unless nothing up to it has a mark. */
  lemma {:induction false} RunStart<T(!new)>(less: Less<T>, mark: Mark<T>, xs: set<T>, x: T) returns (blank: bool, f: T)
    requires Linear(less, xs) && x in xs
    ensures blank ==> Blank(less, mark, xs, x)
    ensures !blank ==> f in Kept(less, mark, xs) && Run(less, mark, xs, f, x)
    decreases |Below(less, xs, x)|
  {
    if !Repeats(less, mark, xs, x) {
      return false, x;
    }
    if IsFirst(less, xs, x) {
      return true, x;
    }
    var w :| Next(less, xs, w, x) && mark(w) == mark(x);
    BelowIsSmaller(less, xs, w, x);
    blank, f := RunStart(less, mark, xs, w);
  }

  /** An element that is kept of `xs` is kept of a subset that holds everything kept before it. */
  lemma StaysKept<T(!new)>(less: Less<T>, mark: Mark<T>, xs: set<T>, ys: set<T>, y: T)
    requires Linear(less, xs) && ys <= xs && y in ys && y in Kept(less, mark, xs)
    requires forall f | f in Kept(less, mark, xs) && less(f, y) :: f in ys
    ensures y in Kept(less, mark, ys)
  {
    if Repeats(less, mark, ys, y) {
      assert !IsFirst(less, xs, y);
      var p := Predecessor(less, xs, y);
      var blank, f := RunStart(less, mark, xs, p);
    }
  }

  /** Leaving out elements that are not kept changes nothing. */
  lemma KeptAgain<T(!new)>(less: Less<T>, mark: Mark<T>, xs: set<T>, ys: set<T>)
    requires Linear(less, xs) && Kept(less, mark, xs) <= ys <= xs
    ensures Kept(less, mark, ys) == Kept(less, mark, xs)
  {
    forall y | y in ys ensures y in Kept(less, mark, xs) <==> y in Kept(less, mark, ys) {
      if y in Kept(less, mark, xs) {
        StaysKept(less, mark, xs, ys, y);
      } else {
        var blank, f := RunStart(less, mark, xs, y);
        if !IsFirst(less, ys, y) {
          var w := Predecessor(less, ys, y);
        }
      }
    }
  }

  /** What is kept of the whole is not lost on both sides. */
  lemma KeptOnOneSide<T(!new)>(less: Less<T>, mark: Mark<T>, a: set<T>, b: set<T>, c: set<T>, y: T)
    requires Linear(less, a + b + c) && y in Kept(less, mark, a + b + c)
    ensures y in Kept(less, mark, a + b) + c || y in a + Kept(less, mark, b + c)
  {
    if y !in a && y !in c && Repeats(less, mark, a + b, y) && Repeats(less, mark, b + c, y) {
      if !IsFirst(less, a + b + c, y) {
        var p := Predecessor(less, a + b + c, y);
      }
    }
  }

  lemma {:induction false} KeptOnBothSides<T(!new)>(less: Less<T>, mark: Mark<T>, a: set<T>, b: set<T>, c: set<T>, y: T)
    requires Linear(less, a + b + c) && y in Kept(less, mark, a + b + c)
    requires Kept(less, mark, Kept(less, mark, a + b) + c) == Kept(less, mark, a + Kept(less, mark, b + c))
    ensures y in Kept(less, mark, Kept(less, mark, a + b) + c)
    decreases |Below(less, a + b + c, y)|
  {
    var xs, left, right := a + b + c, Kept(less, mark, a + b) + c, a + Kept(less, mark, b + c);
    forall f | f in Kept(less, mark, xs) && less(f, y) ensures f in left && f in right {
      BelowIsSmaller(less, xs, f, y);
      KeptOnBothSides(less, mark, a, b, c, f);
    }
    KeptOnOneSide(less, mark, a, b, c, y);
    if y in left {
      StaysKept(less, mark, xs, left, y);
    } else {
      StaysKept(less, mark, xs, right, y);
    }
  }

  /** What repeats in `xs` and is not in `more` still repeats with `more` added. */
  ghost predicate Harmless<T(!new)>(less: Less<T>, mark: Mark<T>, xs: set<T>, more: set<T>) {
    forall y | y in xs && y !in more && Repeats(less, mark, xs, y) :: Repeats(less, mark, xs + more, y)
  }

  lemma HarmlessMeansHeld<T(!new)>(less: Less<T>, mark: Mark<T>, xs: set<T>, more: set<T>)
    ensures Harmless(less, mark, xs, more) <==> Kept(less, mark, xs + more) <= Kept(less, mark, xs) + more
  {
    if Kept(less, mark, xs + more) <= Kept(less, mark, xs) + more {
      forall y | y in xs && y !in more && Repeats(less, mark, xs, y) ensures Repeats(less, mark, xs + more, y) {
        assert y !in Kept(less, mark, xs) + more;
        assert y !in Kept(less, mark, xs + more);
      }
    }
  }

  /** Keeping is associative exactly if neither inner step drops an element that would
      stand in the whole. */
  lemma AssociatesExactlyIf<T(!new)>(less: Less<T>, mark: Mark<T>, a: set<T>, b: set<T>, c: set<T>)
    requires Linear(less, a + b + c)
    ensures Kept(less, mark, Kept(less, mark, a + b) + c) == Kept(less, mark, a + Kept(less, mark, b + c)) <==>
            Harmless(less, mark, a + b, c) && Harmless(less, mark, b + c, a)
  {
    var xs, left, right := a + b + c, Kept(less, mark, a + b) + c, a + Kept(less, mark, b + c);
    HarmlessMeansHeld(less, mark, a + b, c);
    HarmlessMeansHeld(less, mark, b + c, a);
    assert xs == (b + c) + a && right == Kept(less, mark, b + c) + a;
    if Kept(less, mark, left) == Kept(less, mark, right) {
      forall y | y in Kept(less, mark, xs) ensures y in left && y in right {
        KeptOnBothSides(less, mark, a, b, c, y);
      }
    } else if Kept(less, mark, xs) <= left && Kept(less, mark, xs) <= right {
      KeptAgain(less, mark, xs, left);
      KeptAgain(less, mark, xs, right);
      assert false;
    }
  }
}
