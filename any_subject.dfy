/**
 * Type erasure for subjects: an `AnySubject` handle owns one box, the box owns
 * one concrete subject, and every subject operation is forwarded handle -> box
 * -> concrete subject without change.
 *
 * The concrete subject is a recording subject whose only state is the list of
 * calls it has received, so that "forwarded unchanged" can be stated as "the
 * wrapped subject's record grew by exactly this call".
 */
module SubjectErasure {
  import opened Streams

  /** One call made on a subject, with its argument. */
  datatype Call<O, F> =
    | SendValue(value: O)
    | SendCompletion(completion: Completion<F>)
    | SendSubscription(subscription: Subscription)
    | ReceiveSubscriber(subscriber: Subscriber)

  /** A concrete subject that remembers, in order, every call made on it. */
  class RecordingSubject<O, F> {
    var calls: seq<Call<O, F>>

    constructor ()
      ensures calls == []
    {
      calls := [];
    }

    method Send(value: O)
      modifies this
      ensures calls == old(calls) + [SendValue(value)]
    {
      calls := calls + [SendValue(value)];
    }

    method SendCompletion(completion: Completion<F>)
      modifies this
      ensures calls == old(calls) + [Call.SendCompletion(completion)]
    {
      calls := calls + [Call.SendCompletion(completion)];
    }

    method SendSubscription(subscription: Subscription)
      modifies this
      ensures calls == old(calls) + [Call.SendSubscription(subscription)]
    {
      calls := calls + [Call.SendSubscription(subscription)];
    }

    method Receive(subscriber: Subscriber)
      modifies this
      ensures calls == old(calls) + [ReceiveSubscriber(subscriber)]
    {
      calls := calls + [ReceiveSubscriber(subscriber)];
    }
  }

  /**
   * A value of some type that conforms to the subject protocol, as seen by the
   * erasing initializer: either it already is an `AnySubject` (the dynamic
   * cast succeeds) or it is some other, concrete subject.
   */
  datatype SubjectValue<O, F> =
    | Erased(handle: AnySubject<O, F>)
    | Concrete(subject: RecordingSubject<O, F>)

  /**
   * The box that owns the concrete subject. Its `base` is fixed at
   * construction, and since it has the type of a concrete subject, a box never
   * wraps another erased handle.
   */
  class SubjectBox<O, F> {
    const base: RecordingSubject<O, F>

    constructor (base: RecordingSubject<O, F>)
      ensures this.base == base
    {
      this.base := base;
    }

    method Receive(subscriber: Subscriber)
      modifies base
      ensures base.calls == old(base.calls) + [ReceiveSubscriber(subscriber)]
    {
      base.Receive(subscriber);
    }

    method Send(value: O)
      modifies base
      ensures base.calls == old(base.calls) + [SendValue(value)]
    {
      base.Send(value);
    }

    method SendCompletion(completion: Completion<F>)
      modifies base
      ensures base.calls == old(base.calls) + [Call.SendCompletion(completion)]
    {
      base.SendCompletion(completion);
    }

    method SendSubscription(subscription: Subscription)
      modifies base
      ensures base.calls == old(base.calls) + [Call.SendSubscription(subscription)]
    {
      base.SendSubscription(subscription);
    }
  }

  /** The type-erasing handle. Its `box` is bound once, at construction. */
  class AnySubject<O, F> {
    const box: SubjectBox<O, F>

    /**
     * Wrapping an erased handle reuses its box; wrapping anything else
     * allocates a new box that owns the argument.
     */
    constructor (subject: SubjectValue<O, F>)
      ensures subject.Erased? ==> box == subject.handle.box
      ensures subject.Concrete? ==> fresh(box) && box.base == subject.subject
    {
      match subject
      case Erased(erased) =>
        box := erased.box;
      case Concrete(s) =>
        box := new SubjectBox(s);
    }

    /** The textual description, whatever subject is wrapped. */
    function Description(): (d: string)
      ensures d == "AnySubject"
    {
      "AnySubject"
    }

    method Receive(subscriber: Subscriber)
      modifies box.base
      ensures box.base.calls == old(box.base.calls) + [ReceiveSubscriber(subscriber)]
    {
      box.Receive(subscriber);
    }

    method Send(value: O)
      modifies box.base
      ensures box.base.calls == old(box.base.calls) + [SendValue(value)]
    {
      box.Send(value);
    }

    method SendCompletion(completion: Completion<F>)
      modifies box.base
      ensures box.base.calls == old(box.base.calls) + [Call.SendCompletion(completion)]
    {
      box.SendCompletion(completion);
    }

    method SendSubscription(subscription: Subscription)
      modifies box.base
      ensures box.base.calls == old(box.base.calls) + [Call.SendSubscription(subscription)]
    {
      box.SendSubscription(subscription);
    }
  }

  /** The protocol extension `eraseToAnySubject()`: a new handle over `subject`. */
  method EraseToAnySubject<O, F>(subject: SubjectValue<O, F>) returns (erased: AnySubject<O, F>)
    ensures fresh(erased)
    ensures subject.Erased? ==> erased.box == subject.handle.box
    ensures subject.Concrete? ==> fresh(erased.box) && erased.box.base == subject.subject
  {
    erased := new AnySubject(subject);
  }

  /**
   * Erasing twice gives two distinct handles that share one box over the
   * original subject, and a value sent through the outer handle reaches that
   * subject exactly once.
   */
  method EraseTwiceThenSend<O, F>(subject: RecordingSubject<O, F>, value: O)
    returns (once: AnySubject<O, F>, twice: AnySubject<O, F>)
    modifies subject
    ensures fresh(once) && fresh(twice) && once != twice
    ensures once.box == twice.box && once.box.base == subject
    ensures subject.calls == old(subject.calls) + [SendValue(value)]
  {
    once := EraseToAnySubject(Concrete(subject));
    twice := EraseToAnySubject(Erased(once));
    twice.Send(value);
  }
}
