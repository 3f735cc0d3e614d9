/**
 * The stream primitives the core is built on. The reactive runtime itself
 * (demand, scheduling, multicast) is not part of this model; only the values
 * that pass between publishers, subjects and subscribers are.
 */
module Streams {

  /** How a stream terminates: normally, or with a failure value. */
  datatype Completion<F> = Finished | Failure(error: F)

  /** An opaque subscription handle, identified by a number. */
  datatype Subscription = Subscription(id: nat)

  /** An opaque downstream subscriber, identified by a number. */
  datatype Subscriber = Subscriber(id: nat)
}
