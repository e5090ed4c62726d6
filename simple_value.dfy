/** `SimpleValue[T]` of internal/value/simple.go: a sink that threads every incoming
    item through its transforms, each of which may read the sink's state, and commits
    the result as the new state. */
module SimpleValues {
  import opened Publishers

  /** A transform: `(input, state) -> output`, where `state` is what the transform
      reads through `GetState` on the sink it is handed. */
  type Transform<!T> = (T, T) -> T

  /** One invocation of a transform during an update: what it was given and what it returned. */
  datatype Call<T> = Call(input: T, state: T, output: T)

  /** The chain `ts`, in registration order, applied to item `x`, every step reading state `s`. */
  function Chain<T>(ts: seq<Transform<T>>, x: T, s: T): T
    decreases |ts|
  {
    if ts == [] then x else ts[|ts| - 1](Chain(ts[..|ts| - 1], x, s), s)
  }

  /** Reference definition: a left fold that gives the item to the first transform and
      each transform's output to the next one. */
  function FoldLeft<T>(ts: seq<Transform<T>>, x: T, s: T): T
    decreases |ts|
  {
    if ts == [] then x else FoldLeft(ts[1..], ts[0](x, s), s)
  }

  /** Running the chain `a + b` is running `a` and handing its output to `b`. */
  lemma {:induction false} ChainAppend<T>(a: seq<Transform<T>>, b: seq<Transform<T>>, x: T, s: T)
    ensures Chain(a + b, x, s) == Chain(b, Chain(a, x, s), s)
    decreases |b|
  {
    if b == [] {
      assert a + b == a;
    } else {
      var b' := b[..|b| - 1];
      assert (a + b)[..|a + b| - 1] == a + b';
      assert (a + b)[|a + b| - 1] == b[|b| - 1];
      ChainAppend(a, b', x, s);
    }
  }

  /** The committed chain is the left-to-right fold over the transforms in registration order. */
  lemma {:induction false} ChainIsFoldLeft<T>(ts: seq<Transform<T>>, x: T, s: T)
    ensures Chain(ts, x, s) == FoldLeft(ts, x, s)
    decreases |ts|
  {
    if ts != [] {
      assert ts == [ts[0]] + ts[1..];
      ChainAppend([ts[0]], ts[1..], x, s);
      assert [ts[0]][..0] == [];
      ChainIsFoldLeft(ts[1..], ts[0](x, s), s);
    }
  }

  /** The state after the consumer loop has committed each of `items`, in arrival order,
      starting from state `s`: every update's transforms read the state the previous
      update committed. */
  function Replay<T>(ts: seq<Transform<T>>, items: seq<T>, s: T): T
    decreases |items|
  {
    if items == [] then s else Chain(ts, items[|items| - 1], Replay(ts, items[..|items| - 1], s))
  }

  /** Delivering `a` and then `b` is delivering `a + b`: updates compose in arrival order. */
  lemma {:induction false} ReplayAppend<T>(ts: seq<Transform<T>>, a: seq<T>, b: seq<T>, s: T)
    ensures Replay(ts, a + b, s) == Replay(ts, b, Replay(ts, a, s))
    decreases |b|
  {
    if b == [] {
      assert a + b == a;
    } else {
      var b' := b[..|b| - 1];
      assert (a + b)[..|a + b| - 1] == a + b';
      assert (a + b)[|a + b| - 1] == b[|b| - 1];
      ReplayAppend(ts, a, b', s);
    }
  }

  /** With no transforms every update commits the incoming item itself, so the state is
      the last item delivered. */
  lemma {:induction false} ReplayWithoutTransforms<T>(items: seq<T>, s: T)
    requires items != []
    ensures Replay([], items, s) == items[|items| - 1]
  {
  }

  class SimpleValue<T> {
    const source: Publisher
    const transforms: seq<Transform<T>>
    /** Go's zero value of `T`, which a new sink holds until its first update. */
    const zero: T
    var current: T

    /** `New`: a sink on `src` with transforms `ts` in registration order, holding the zero value. */
    constructor New(src: Publisher, ts: seq<Transform<T>>, zero: T)
      ensures source == src && transforms == ts && this.zero == zero
      ensures current == zero
    {
      source := src;
      transforms := ts;
      this.zero := zero;
      current := zero;
    }

    /** The state a transform reads while an update is in progress. */
    method GetState() returns (s: T)
      ensures s == current
    {
      s := current;
    }

    /** The body of the consumer loop for one delivered `item`: run the chain, then commit.
        `calls` records what each transform was given: the previous output (the item for the
        first one) and, through `GetState`, the state from before the update. */
    method Update(item: T) returns (ghost calls: seq<Call<T>>)
      modifies this
      ensures current == Chain(transforms, item, old(current))
      ensures transforms == [] ==> current == item
      ensures |calls| == |transforms|
      ensures forall k :: 0 <= k < |calls| ==>
        calls[k].state == old(current) && calls[k].output == transforms[k](calls[k].input, calls[k].state)
      ensures calls != [] ==> calls[0].input == item && calls[|calls| - 1].output == current
      ensures forall k :: 0 <= k < |calls| - 1 ==> calls[k + 1].input == calls[k].output
    {
      var transformed := item;
      calls := [];
      var i := 0;
      while i < |transforms|
        invariant 0 <= i <= |transforms|
        invariant current == old(current)
        invariant transformed == Chain(transforms[..i], item, current)
        invariant |calls| == i
        invariant forall k :: 0 <= k < i ==>
          calls[k].state == current && calls[k].output == transforms[k](calls[k].input, calls[k].state)
        invariant i > 0 ==> calls[0].input == item && calls[i - 1].output == transformed
        invariant forall k :: 0 <= k < i - 1 ==> calls[k + 1].input == calls[k].output
      {
        var state := GetState();
        var output := transforms[i](transformed, state);
        assert transforms[..i + 1][..i] == transforms[..i];
        calls := calls + [Call(transformed, state, output)];
        transformed := output;
        i := i + 1;
      }
      assert transforms[..i] == transforms;
      current := transformed;
    }

    /** The consumer loop over every item the subscription delivers, in arrival order. */
    method Run(items: seq<T>)
      modifies this
      ensures current == Replay(transforms, items, old(current))
    {
      var i := 0;
      while i < |items|
        invariant 0 <= i <= |items|
        invariant current == Replay(transforms, items[..i], old(current))
      {
        ghost var calls := Update(items[i]);
        assert items[..i + 1][..i] == items[..i];
        i := i + 1;
      }
      assert items[..i] == items;
    }

    /** `Value`: the committed state. */
    method Value() returns (r: T)
      ensures r == current
    {
      r := current;
    }

    /** `SetState`: overwrite the state without running any transform. */
    method SetState(state: T)
      modifies this
      ensures current == state
    {
      current := state;
    }

    /** `Clone`: a new sink on the same publisher with the same transforms, holding the zero value. */
    method Clone() returns (c: SimpleValue<T>)
      ensures fresh(c)
      ensures c.source == source && c.transforms == transforms && c.zero == zero
      ensures c.current == zero
    {
      c := new SimpleValue.New(source, transforms, zero);
    }
  }

  /** A clone's state is its own: its first update reads the zero value, not the original's
      state, and the original is left as it was. */
  method UpdateClone<T>(v: SimpleValue<T>, item: T) returns (c: SimpleValue<T>)
    ensures fresh(c) && c.transforms == v.transforms
    ensures c.current == Chain(v.transforms, item, v.zero)
    ensures v.current == old(v.current)
  {
    c := v.Clone();
    ghost var calls := c.Update(item);
  }
}
