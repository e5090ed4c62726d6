/** The upstream publisher a value sink subscribes to. */
module Publishers {

  /** The identity of a `Publisher[T]`. Subscribing and channel delivery are not
      modelled: the items a subscription delivers are handed to the sinks' `Run`
      methods as a sequence, in arrival order. */
  datatype Publisher = Publisher(id: nat)
}
