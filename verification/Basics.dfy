/** Vocabulary shared by every module: identifiers, times, safe integers and finite sums. */
module Basics {

  /** A row identifier. Only equality and the order of `localeCompare` matter, so an identifier
      is its rank in that order; rank 0 is the empty string. */
  type Id = nat
  const EMPTY_ID: Id := 0

  /** Milliseconds since the epoch. */
  type Time = int

  /** `Number.MAX_SAFE_INTEGER`. */
  const MAX_SAFE_INTEGER: int := 9007199254740991

  predicate IsSafeInteger(n: int) {
    -MAX_SAFE_INTEGER <= n <= MAX_SAFE_INTEGER
  }

  datatype Option<+T> = None | Some(value: T)

  datatype Result<+T, +E> = Ok(value: T) | Err(error: E) {
    predicate IsFailure() {
      Err?
    }

    function PropagateFailure<U>(): Result<U, E>
      requires Err?
    {
      Err(error)
    }

    function Extract(): T
      requires Ok?
    {
      value
    }
  }

  /** The sum of `f` over a finite set. */
  ghost function SumOver<A>(s: set<A>, f: A -> int): int {
    if s == {} then 0
    else
      var x :| x in s;
      f(x) + SumOver(s - {x}, f)
  }

  /** The element a sum starts with does not matter. */
  lemma {:induction false} SumOverRemove<A>(s: set<A>, f: A -> int, y: A)
    requires y in s
    ensures SumOver(s, f) == f(y) + SumOver(s - {y}, f)
    decreases |s|
  {
    var x :| x in s && SumOver(s, f) == f(x) + SumOver(s - {x}, f);
    if x != y {
      SumOverRemove(s - {x}, f, y);
      SumOverRemove(s - {y}, f, x);
      assert s - {x} - {y} == s - {y} - {x};
    }
  }

  lemma SumOverAdd<A>(s: set<A>, f: A -> int, y: A)
    requires y !in s
    ensures SumOver(s + {y}, f) == f(y) + SumOver(s, f)
  {
    SumOverRemove(s + {y}, f, y);
    assert s + {y} - {y} == s;
  }

  lemma {:induction false} SumOverSame<A>(s: set<A>, f: A -> int, g: A -> int)
    requires forall x | x in s :: f(x) == g(x)
    ensures SumOver(s, f) == SumOver(s, g)
    decreases |s|
  {
    if s != {} {
      var x :| x in s;
      SumOverRemove(s, f, x);
      SumOverRemove(s, g, x);
      SumOverSame(s - {x}, f, g);
    }
  }

  lemma {:induction false} SumOverPlus<A>(s: set<A>, f: A -> int, g: A -> int, h: A -> int)
    requires forall x | x in s :: h(x) == f(x) + g(x)
    ensures SumOver(s, h) == SumOver(s, f) + SumOver(s, g)
    decreases |s|
  {
    if s != {} {
      var x :| x in s;
      SumOverRemove(s, f, x);
      SumOverRemove(s, g, x);
      SumOverRemove(s, h, x);
      SumOverPlus(s - {x}, f, g, h);
    }
  }

  lemma {:induction false} SumOverConstant<A>(s: set<A>, f: A -> int, c: int)
    requires forall x | x in s :: f(x) == c
    ensures SumOver(s, f) == |s| * c
    decreases |s|
  {
    if s != {} {
      var x :| x in s;
      SumOverRemove(s, f, x);
      SumOverConstant(s - {x}, f, c);
      assert |s| * c == (|s| - 1) * c + c;
    }
  }

  /** A sum may be split along any subset. */
  lemma {:induction false} SumOverSplit<A>(s: set<A>, t: set<A>, f: A -> int)
    requires t <= s
    ensures SumOver(s, f) == SumOver(t, f) + SumOver(s - t, f)
    decreases |t|
  {
    if t == {} {
      assert s - t == s;
    } else {
      var x :| x in t;
      SumOverRemove(s, f, x);
      SumOverRemove(t, f, x);
      SumOverSplit(s - {x}, t - {x}, f);
      assert s - {x} - (t - {x}) == s - t;
    }
  }

  lemma {:induction false} SumOverNonNegative<A>(s: set<A>, f: A -> int)
    requires forall x | x in s :: f(x) >= 0
    ensures SumOver(s, f) >= 0
    decreases |s|
  {
    if s != {} {
      var x :| x in s;
      SumOverRemove(s, f, x);
      SumOverNonNegative(s - {x}, f);
    }
  }

  /** With non-negative terms no single term exceeds the sum. */
  lemma SumOverBoundsTerm<A>(s: set<A>, f: A -> int, y: A)
    requires y in s
    requires forall x | x in s :: f(x) >= 0
    ensures 0 <= f(y) <= SumOver(s, f)
  {
    SumOverRemove(s, f, y);
    SumOverNonNegative(s - {y}, f);
  }

  ghost function Image<A(!new), B(!new)>(s: set<A>, f: A -> B): set<B> {
    set x | x in s :: f(x)
  }

  /** Relabelling a set without merging elements keeps its size. */
  lemma {:induction false} ImageSize<A(!new), B(!new)>(s: set<A>, f: A -> B)
    requires forall x, y | x in s && y in s && x != y :: f(x) != f(y)
    ensures |Image(s, f)| == |s|
    decreases |s|
  {
    if s == {} {
      assert Image(s, f) == {};
    } else {
      var y :| y in s;
      ImageSize(s - {y}, f);
      assert Image(s, f) == Image(s - {y}, f) + {f(y)};
    }
  }

  /** A sum over relabelled elements. */
  lemma {:induction false} SumOverImage<A(!new), B(!new)>(s: set<A>, f: A -> B, g: B -> int, h: A -> int)
    requires forall x, y | x in s && y in s && x != y :: f(x) != f(y)
    requires forall x | x in s :: h(x) == g(f(x))
    ensures SumOver(Image(s, f), g) == SumOver(s, h)
    decreases |s|
  {
    if s == {} {
      assert Image(s, f) == {};
    } else {
      var y :| y in s;
      SumOverImage(s - {y}, f, g, h);
      assert Image(s, f) == Image(s - {y}, f) + {f(y)};
      SumOverAdd(Image(s - {y}, f), g, f(y));
      SumOverRemove(s, h, y);
    }
  }
}
