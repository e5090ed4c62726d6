/** The process-wide deterministic seed registry of seed/seed.go, as an object. */
module Seed {
  import opened Panics

  /** Go's `uint64`. */
  newtype Uint64 = x: int | 0 <= x < 0x1_0000_0000_0000_0000

  const Modulus: int := 0x1_0000_0000_0000_0000

  const InitTwice := "seed.Init called multiple times"
  const NewRandBeforeInit := "seed.NewRand called before seed.Init - call seed.Init() at program start"
  const CurrentBeforeInit := "seed.Current called before seed.Init - call seed.Init() at program start"

  /** The two seeds a new PCG generator is built from: the master seed and a stream number. */
  datatype SeedPair = SeedPair(seed1: Uint64, seed2: Uint64)

  /** `nextStream++` on a `uint64`: one more, wrapping to 0 after the largest value. */
  function Increment(n: Uint64): (r: Uint64)
    ensures r as int == (n as int + 1) % Modulus
    ensures n as int < Modulus - 1 ==> r as int == n as int + 1
  {
    if n as int == Modulus - 1 then 0 else n + 1
  }

  /** The stream number the `k`-th call of `NewRand` (counting from 0) receives. */
  function StreamAt(k: nat): Uint64
  {
    (k % Modulus) as Uint64
  }

  /** The pairs handed out after `Init(master)` are `(master, 0)`, `(master, 1)`, ... in call order. */
  ghost predicate IssuedInOrder(master: Uint64, issued: seq<SeedPair>)
  {
    forall k :: 0 <= k < |issued| ==> issued[k] == SeedPair(master, StreamAt(k))
  }

  /** Until the counter wraps, no two `NewRand` calls share a stream. */
  lemma IssuedStreamsDistinct(master: Uint64, issued: seq<SeedPair>)
    requires IssuedInOrder(master, issued)
    requires |issued| <= Modulus
    ensures forall i, j :: 0 <= i < j < |issued| ==> issued[i].seed2 != issued[j].seed2
  {
  }

  /** Stream numbers wrap: call number 2^64 gets stream 0 again. */
  lemma StreamsWrap(k: nat)
    ensures StreamAt(k + Modulus) == StreamAt(k)
  {
  }

  class Registry {
    /** Whether `Init` has run (in Go: `globalRegistry != nil`). */
    var initialized: bool
    var masterSeed: Uint64
    var nextStream: Uint64
    /** Every pair `NewRand` has handed out, in call order. */
    ghost var issued: seq<SeedPair>

    ghost predicate Valid()
      reads this
    {
      && (!initialized ==> masterSeed == 0 && nextStream == 0 && issued == [])
      && IssuedInOrder(masterSeed, issued)
      && nextStream == StreamAt(|issued|)
    }

    /** The registry before `Init`. */
    constructor ()
      ensures Valid() && !initialized && issued == []
    {
      initialized := false;
      masterSeed := 0;
      nextStream := 0;
      issued := [];
    }

    /** `Init`: the first call records `master` and starts the streams at 0; every later
        call panics and changes nothing. */
    method Init(master: Uint64) returns (r: Result<()>)
      requires Valid()
      modifies this
      ensures Valid()
      ensures old(initialized) ==> r == Panic(InitTwice) && unchanged(this)
      ensures !old(initialized) ==>
        (r == Ok(()) && initialized && masterSeed == master && nextStream == 0 && issued == [])
    {
      if initialized {
        return Panic(InitTwice);
      }
      initialized := true;
      masterSeed := master;
      nextStream := 0;
      r := Ok(());
    }

    /** `NewRand`, returning the seed pair of the new generator: `(masterSeed, nextStream)`,
        after which `nextStream` is one more. Panics before `Init`. */
    method NewRand() returns (r: Result<SeedPair>)
      requires Valid()
      modifies this
      ensures Valid()
      ensures !old(initialized) ==> r == Panic(NewRandBeforeInit) && unchanged(this)
      ensures old(initialized) ==>
        (&& r == Ok(SeedPair(old(masterSeed), old(nextStream)))
         && initialized && masterSeed == old(masterSeed)
         && nextStream == Increment(old(nextStream))
         && issued == old(issued) + [r.value])
    {
      if !initialized {
        return Panic(NewRandBeforeInit);
      }
      var pair := NextPair();
      r := Ok(pair);
    }

    /** `newRand` under the registry's lock: take the current stream and advance it. */
    method NextPair() returns (pair: SeedPair)
      requires Valid() && initialized
      modifies this
      ensures Valid() && initialized
      ensures pair == SeedPair(old(masterSeed), old(nextStream))
      ensures masterSeed == old(masterSeed) && nextStream == Increment(old(nextStream))
      ensures issued == old(issued) + [pair]
    {
      pair := SeedPair(masterSeed, nextStream);
      nextStream := Increment(nextStream);
      issued := issued + [pair];
    }

    /** `Current`: the master seed and the stream counter, which is the number of
        `NewRand` calls so far (modulo 2^64). Panics before `Init`; reads only. */
    method Current() returns (r: Result<(Uint64, Uint64)>)
      requires Valid()
      ensures !initialized ==> r == Panic(CurrentBeforeInit)
      ensures initialized ==> r == Ok((masterSeed, StreamAt(|issued|)))
    {
      if !initialized {
        return Panic(CurrentBeforeInit);
      }
      r := Ok((masterSeed, nextStream));
    }
  }
}
