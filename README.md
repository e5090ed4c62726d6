# simv value pipeline: a Dafny model

This project models the sequential core of simv, a Go library that produces synthetic,
time-varying values for testing observability pipelines. It covers four pieces:

- **`SimpleValue[T]`** (`internal/value/simple.go`) is a sink. For every item its
  subscription delivers, it threads the item through its transforms in registration order.
  Each transform gets the previous output and the sink itself, and reads the sink's state
  through `GetState`. The sink then commits the result as `current`. It also offers
  `Value`, `SetState` (which bypasses the transforms) and `Clone` (same publisher and
  transforms, fresh state).
- **`Value[T]`** (`internal/value/value.go`) is the same sink, except that its transforms
  see only the item.
- **The seed registry** (`seed/seed.go`) is initialised once. `NewRand` hands out
  `(masterSeed, stream)` pairs with stream numbers 0, 1, 2, … `Current` reports the master
  seed and the stream counter. Calling `Init` twice panics, and so does calling `NewRand`
  or `Current` before `Init`.
- **`Counter`** (`internal/counter/counter.go`) starts at 0 and adds one on every tick
  until `Stop` closes its stop channel.

Each Go type is a Dafny class. Its fields follow the Go struct, with these changes:

- The locks (`mu`) are dropped, and each critical section becomes one method that runs
  in a single step.
- Counter's `stop chan struct{}` becomes a flag `stopped`, meaning the channel has been
  closed.
- Both sinks gain a constant `zero`, Go's zero value of `T`, which the constructors take
  as an argument.
- `Registry` gains an `initialized` flag that stands for `globalRegistry != nil`.

A Go panic is a `Panics.Result` value `Panic(message)` carrying the message Go uses, and
the panicking call changes nothing.

The consumer loop (`run`) of each of the two sinks is a `Run` method. It loops over the
delivered items and calls `Update`, the loop body. Each `Run` is proved against a
specification function: `Chain`/`Replay` for `SimpleValue`, and `Pipe`/`Replay` for
`Value`. Lemmas then relate those functions to a reference definition (a left fold) and
to each other, and show how they compose.

The counter's `run` loop is split into its two branches: the `Tick` method for a tick and
the `Stop` method for the closing of the stop channel. A ghost history of the events the
counter has been handed lets its invariant say that `value` is the number of ticks
received before the stop.

Go's `uint64` stream counter in the seed registry wraps explicitly (`Seed.Increment`).

Two facts about the Go code shape the model:

- In `internal/value/value.go` the transforms get only the input, not the prior state.
- Neither sink in `internal/value` has an update counter, reset-on-read, hooks or a
  start/stop lifecycle.

## Model

| member | source | states |
|---|---|---|
| `SimpleValues.SimpleValue.New` | internal/value/simple.go:21-32 | the new sink has the given publisher and transforms and holds the zero value of T until its first update |
| `SimpleValues.SimpleValue.GetState` | internal/value/simple.go:54-56 | returns exactly `current` and changes nothing |
| `SimpleValues.SimpleValue.Update` | internal/value/simple.go:38-47 | commits the transform chain applied to the item. Every transform's recorded call got the previous output (the item for the first) and the state from before the update. The last output is the committed state. With no transforms the item itself is committed |
| `SimpleValues.SimpleValue.Run` | internal/value/simple.go:34-49 | after the loop over the delivered items, `current` is `Replay` of the items in arrival order, each update reading the state the previous one committed |
| `SimpleValues.ChainAppend` | internal/value/simple.go:41-43 | running transforms `a + b` equals running `a` and handing its output to `b` under the same prior state |
| `SimpleValues.ChainIsFoldLeft` | internal/value/simple.go:40-43 | the chain loop computes the left-to-right fold of the transforms over the item, in registration order |
| `SimpleValues.ReplayAppend` | internal/value/simple.go:37-48 | delivering `a` then `b` leaves the same state as delivering `a + b`, so updates compose in arrival order |
| `SimpleValues.ReplayWithoutTransforms` | internal/value/simple.go:40-45 | with no transforms the state after a non-empty delivery is its last item |
| `SimpleValues.SimpleValue.Value` | internal/value/simple.go:59-63 | returns `current` and changes nothing |
| `SimpleValues.SimpleValue.SetState` | internal/value/simple.go:71-75 | sets `current` to the argument without running any transform; publisher and transforms are constants and stay as they were |
| `SimpleValues.SimpleValue.Clone` | internal/value/simple.go:66-68 | the result is a new object with the same publisher and transform sequence, holding the zero value regardless of the original's state |
| `SimpleValues.UpdateClone` | internal/value/simple.go:65-68 | a clone's first update reads the zero value, not the original's state, and leaves the original's state untouched |
| `Values.Value.New` | internal/value/value.go:26-37 | the new sink has the given publisher and transforms and holds the zero value of T |
| `Values.Value.Update` | internal/value/value.go:43-52 | commits the transforms applied in registration order to the item, each taking only the previous output. The result does not mention the prior state. With no transforms the raw item is stored |
| `Values.Value.Run` | internal/value/value.go:39-54 | after the loop, `current` is the `Replay` of the delivered items. With no items it is unchanged; otherwise it is the pipe applied to the last item |
| `Values.PipeAppend` | internal/value/value.go:44-47 | applying transforms `a + b` equals applying `a` and then `b` to its output |
| `Values.PipeIsStateBlindChain` | internal/value/value.go:44-47 | a `SimpleValue` chain whose transforms ignore the state computes exactly this sink's pipe |
| `Values.ReplayIsLastItem` | internal/value/value.go:42-53 | after a non-empty delivery the state is the pipe applied to the last item |
| `Values.ReplayAppend` | internal/value/value.go:42-53 | delivering `a` then `b` equals delivering `a + b` |
| `Values.ReplayForgetsPrior` | internal/value/value.go:46-51 | after a non-empty delivery the state does not depend on the state before it |
| `Values.Value.Value` | internal/value/value.go:57-61 | returns `current` and changes nothing |
| `Seed.Increment` | seed/seed.go:82 | `nextStream++` on a uint64 yields the successor modulo 2^64, which is the plain successor below the largest value |
| `Seed.StreamsWrap` | seed/seed.go:17 | stream numbers repeat with period 2^64 because the counter is a uint64 |
| `Seed.IssuedStreamsDistinct` | seed/seed.go:63-64 | pairs handed out in call order carry pairwise distinct stream numbers for up to 2^64 calls |
| `Seed.Registry.constructor` | seed/seed.go:8-11 | before `Init` the registry is uninitialised and has handed out nothing |
| `Seed.Registry.Init` | seed/seed.go:31-44 | the first call sets the master seed to its argument and the stream counter to 0. A later call panics with "seed.Init called multiple times" and leaves the registry unchanged |
| `Seed.Registry.NewRand` | seed/seed.go:49-54 | before `Init` it panics and changes nothing. Otherwise it returns `(masterSeed, nextStream)`, advances `nextStream` by one (wrapping) and appends the pair to the history. The invariant keeps pair k equal to `(masterSeed, k)` |
| `Seed.Registry.NextPair` | seed/seed.go:76-85 | returns the current master seed and stream number and increments the stream number by exactly one, modulo 2^64 |
| `Seed.Registry.Current` | seed/seed.go:65-74 | before `Init` it panics. Otherwise it returns the `Init` seed and the number of `NewRand` calls so far (modulo 2^64). It modifies nothing |
| `Counters.Counter.New` | internal/counter/counter.go:15-25 | a new counter is running, at value 0, with the given interval |
| `Counters.Counter.Tick` | internal/counter/counter.go:33-36 | a tick adds exactly one while the counter runs and nothing after `Stop`. The invariant keeps `value` equal to the number of ticks received before the stop |
| `Counters.Counter.Value` | internal/counter/counter.go:44-48 | returns `value` and changes nothing |
| `Counters.Counter.Stop` | internal/counter/counter.go:50-52 | the first call ends the run loop without changing `value`. A second close panics with "close of closed channel" and changes nothing |
| `Counters.TickAfter` | internal/counter/counter.go:31-38 | a tick appended to the history is counted exactly when no stop came before it |
| `Counters.StopAfter` | internal/counter/counter.go:37-38 | receiving the stop does not change the count |
| `Counters.FrozenAfterStop` | internal/counter/counter.go:37-38 | once the stop is in the history, nothing that arrives later changes the count |

## Left out

- Goroutines, channels, `sync.RWMutex`, `sync.Mutex` and `sync.Once` are not modelled. Each locked section is one atomic method, and each `run` loop is a method over the items delivered in arrival order.
- `Publisher.Subscribe` and channel delivery are not modelled. A publisher is only an identity, and the sequence of delivered items is an argument of `Run`.
- The transforms' own code is not part of this model. Transforms are pure total functions, so a transform that keeps its own memory is not captured. An example is an accumulating total, whose instance is shared by a `SimpleValue` and its clone because `Clone` passes the same transforms.
- SimpleValues.SimpleValue.Clone: in Go the clone also starts its own consumer goroutine on a new subscription to the same publisher. The model only builds the object.
- Counters.Counter.Tick: Go's `int` is 64 bits wide and the model's `value` is unbounded, so overflow after 2^63-1 ticks is not modelled.
- Counters.Counter.New: `time.NewTicker` is a foreign call and is not modelled. Its panic on a non-positive interval is therefore missing.
- Counters.Counter.Stop: Go's `select` may still handle a pending tick after the stop channel is closed. In the model the stop takes effect at once.
- Seed.Registry.constructor: the process-wide singleton (`globalRegistry` behind `sync.Once`) is not modelled. The model has a caller-owned `Registry` object, so any number of registries can exist, and each enforces the once-only `Init` on its own.
- `rand.New(rand.NewPCG(...))` is a foreign library call. `NewRand` returns the seed pair that would seed the generator.
- Reset-on-read, update hooks, `Start`/`Stop` of sinks, `Stats` and `AddTransform` are not part of this model, because their implementation is not among the modelled files.
- The clock package is not modelled. It consists only of a ticker, a `select` and closing a channel.
