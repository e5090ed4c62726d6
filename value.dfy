/** `Value[T]` of internal/value/value.go: a sink whose transforms see only the
    incoming item, never the sink's state. */
module Values {
  import opened Publishers
  import SimpleValues

  /** A transform of this sink: `input -> output`. */
  type Transform<!T> = T -> T

  /** The transforms `ts`, in registration order, applied to item `x`. */
  function Pipe<T>(ts: seq<Transform<T>>, x: T): T
    decreases |ts|
  {
    if ts == [] then x else ts[|ts| - 1](Pipe(ts[..|ts| - 1], x))
  }

  /** Running `a + b` is running `a` and feeding its output to `b`. */
  lemma {:induction false} PipeAppend<T>(a: seq<Transform<T>>, b: seq<Transform<T>>, x: T)
    ensures Pipe(a + b, x) == Pipe(b, Pipe(a, x))
    decreases |b|
  {
    if b == [] {
      assert a + b == a;
    } else {
      var b' := b[..|b| - 1];
      assert (a + b)[..|a + b| - 1] == a + b';
      assert (a + b)[|a + b| - 1] == b[|b| - 1];
      PipeAppend(a, b', x);
    }
  }

  /** A state-taking chain whose steps ignore the state is this sink's pipe: `Value` is
      `SimpleValue` with transforms that never call `GetState`. */
  lemma {:induction false} PipeIsStateBlindChain<T>(ts: seq<Transform<T>>, ls: seq<SimpleValues.Transform<T>>, x: T, s: T)
    requires |ls| == |ts|
    requires forall k, y :: 0 <= k < |ts| ==> ls[k](y, s) == ts[k](y)
    ensures SimpleValues.Chain(ls, x, s) == Pipe(ts, x)
    decreases |ts|
  {
    if ts != [] {
      var n := |ts| - 1;
      assert forall k, y :: 0 <= k < n ==> ls[..n][k](y, s) == ts[..n][k](y);
      PipeIsStateBlindChain(ts[..n], ls[..n], x, s);
      assert ls[n](Pipe(ts[..n], x), s) == ts[n](Pipe(ts[..n], x));
    }
  }

  /** The state after the consumer loop has committed each of `items`, in arrival order,
      starting from state `s`. */
  function Replay<T>(ts: seq<Transform<T>>, items: seq<T>, s: T): T
    decreases |items|
  {
    if items == [] then s else Replay(ts, items[1..], Pipe(ts, items[0]))
  }

  /** After at least one delivery the state is the pipe applied to the last item. */
  lemma {:induction false} ReplayIsLastItem<T>(ts: seq<Transform<T>>, items: seq<T>, s: T)
    requires items != []
    ensures Replay(ts, items, s) == Pipe(ts, items[|items| - 1])
    decreases |items|
  {
    if |items| > 1 {
      ReplayIsLastItem(ts, items[1..], Pipe(ts, items[0]));
    }
  }

  /** Delivering `a` and then `b` is delivering `a + b`. */
  lemma {:induction false} ReplayAppend<T>(ts: seq<Transform<T>>, a: seq<T>, b: seq<T>, s: T)
    ensures Replay(ts, a + b, s) == Replay(ts, b, Replay(ts, a, s))
    decreases |a|
  {
    if a == [] {
      assert a + b == b;
    } else {
      assert (a + b)[1..] == a[1..] + b;
      ReplayAppend(ts, a[1..], b, Pipe(ts, a[0]));
    }
  }

  /** Once an item has been delivered the prior state no longer matters. */
  lemma {:induction false} ReplayForgetsPrior<T>(ts: seq<Transform<T>>, items: seq<T>, s1: T, s2: T)
    requires items != []
    ensures Replay(ts, items, s1) == Replay(ts, items, s2)
  {
  }

  class Value<T> {
    const source: Publisher
    const transforms: seq<Transform<T>>
    /** Go's zero value of `T`, which a new sink holds until its first update. */
    const zero: T
    var current: T

    /** `New`: a sink on `src` with transforms `ts` in registration order, holding the zero value. */
    constructor New(src: Publisher, ts: seq<Transform<T>>, zero: T)
      ensures source == src && transforms == ts && this.zero == zero
      ensures current == zero
    {
      source := src;
      transforms := ts;
      this.zero := zero;
      current := zero;
    }

    /** The body of the consumer loop for one delivered `item`: run the transforms, then
        commit the result. The prior state plays no part. */
    method Update(item: T)
      modifies this
      ensures current == Pipe(transforms, item)
      ensures transforms == [] ==> current == item
    {
      var transformed := item;
      var i := 0;
      while i < |transforms|
        invariant 0 <= i <= |transforms|
        invariant transformed == Pipe(transforms[..i], item)
      {
        assert transforms[..i + 1][..i] == transforms[..i];
        transformed := transforms[i](transformed);
        i := i + 1;
      }
      assert transforms[..i] == transforms;
      current := transformed;
    }

    /** The consumer loop over every item the subscription delivers, in arrival order. */
    method Run(items: seq<T>)
      modifies this
      ensures current == Replay(transforms, items, old(current))
      ensures items == [] ==> current == old(current)
      ensures items != [] ==> current == Pipe(transforms, items[|items| - 1])
    {
      var i := 0;
      while i < |items|
        invariant 0 <= i <= |items|
        invariant current == Replay(transforms, items[..i], old(current))
      {
        ReplayAppend(transforms, items[..i], [items[i]], old(current));
        assert items[..i] + [items[i]] == items[..i + 1];
        Update(items[i]);
        i := i + 1;
      }
      assert items[..i] == items;
      if items != [] {
        ReplayIsLastItem(transforms, items, old(current));
      }
    }

    /** `Value`: the committed state. */
    method Value() returns (r: T)
      ensures r == current
    {
      r := current;
    }
  }
}
