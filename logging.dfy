/**
 * The lifecycle logging decorators `log(to:prefix:_:)` and
 * `logOutput(to:_:)`, as transformers of a finite trace of stream events.
 *
 * Combine's `handleEvents` is modelled only by what it does to one
 * subscription's trace: every event is passed downstream unchanged, and the
 * hook installed for that kind of event, if any, runs once for it. A hook's
 * side effect is a log record.
 */
module Logging {
  import opened Wrappers
  import opened Streams

  /** The lifecycle events one subscriber sees, named after the `handleEvents` hooks. */
  datatype Event<V, F> =
    | ReceiveSubscription(subscription: Subscription)
    | ReceiveOutput(value: V)
    | ReceiveCompletion(completion: Completion<F>)
    | ReceiveCancel

  /** The severity of a log message, as `OSLogType`. */
  datatype Level = Default | Info | Debug | Error | Fault

  /** An opaque logging sink. */
  datatype Logger = Logger(subsystem: string, category: string)

  /**
   * An effect on the log: a built-in message at a level, or one call of the
   * caller's `logCommand` closure with the logger and a value.
   */
  datatype Record<V> =
    | Message(level: Level, text: string)
    | Command(logger: Logger, value: V)

  /** What a subscriber and the log observe. */
  datatype Observed<V, F> = Observed(downstream: seq<Event<V, F>>, records: seq<Record<V>>)

  /** The hooks of one `handleEvents` call: the record, if any, each event causes. */
  type Hook<!V, !F> = Event<V, F> -> Option<Record<V>>

  /** `handleEvents()` with every hook left out. */
  function NoHooks<V, F>(e: Event<V, F>): Option<Record<V>>
  {
    None
  }

  /**
   * `handleEvents` over one subscription's trace: each event goes downstream,
   * and its hook's record, if any, is logged at that point.
   */
  function HandleEvents<V, F>(upstream: seq<Event<V, F>>, hook: Hook<V, F>): (o: Observed<V, F>)
    ensures o.downstream == upstream
    ensures |o.records| <= |upstream|
    decreases |upstream|
  {
    if upstream == [] then Observed([], [])
    else
      var rest := HandleEvents(upstream[1..], hook);
      var fired := match hook(upstream[0]) case Some(r) => [r] case None => [];
      Observed([upstream[0]] + rest.downstream, fired + rest.records)
  }

  /** When no hook fires on any event of the trace, nothing is logged. */
  lemma {:induction false} HandleEventsSilent<V, F>(upstream: seq<Event<V, F>>, hook: Hook<V, F>)
    requires forall i :: 0 <= i < |upstream| ==> hook(upstream[i]).None?
    ensures HandleEvents(upstream, hook).records == []
    decreases |upstream|
  {
    if upstream != [] {
      assert hook(upstream[0]).None?;
      HandleEventsSilent(upstream[1..], hook);
    }
  }

  /** When a hook fires on every event, the i-th record is the i-th event's. */
  lemma {:induction false} HandleEventsEveryEvent<V, F>(upstream: seq<Event<V, F>>, hook: Hook<V, F>)
    requires forall i :: 0 <= i < |upstream| ==> hook(upstream[i]).Some?
    ensures |HandleEvents(upstream, hook).records| == |upstream|
    ensures forall i :: 0 <= i < |upstream| ==> HandleEvents(upstream, hook).records[i] == hook(upstream[i]).value
    decreases |upstream|
  {
    if upstream != [] {
      assert hook(upstream[0]).Some?;
      HandleEventsEveryEvent(upstream[1..], hook);
      var rest := HandleEvents(upstream[1..], hook).records;
      assert HandleEvents(upstream, hook).records == [hook(upstream[0]).value] + rest;
      forall i | 1 <= i < |upstream|
        ensures HandleEvents(upstream, hook).records[i] == hook(upstream[i]).value
      {
        assert upstream[1..][i - 1] == upstream[i];
      }
    }
  }

  /** Processing a trace in two pieces logs the two pieces' records in order. */
  lemma {:induction false} HandleEventsAppend<V, F>(a: seq<Event<V, F>>, b: seq<Event<V, F>>, hook: Hook<V, F>)
    ensures HandleEvents(a + b, hook).records == HandleEvents(a, hook).records + HandleEvents(b, hook).records
    decreases |a|
  {
    if a == [] {
      assert a + b == b;
    } else {
      assert (a + b)[1..] == a[1..] + b;
      HandleEventsAppend(a[1..], b, hook);
    }
  }

  /** The four lifecycle hooks installed by `log(to:prefix:_:)` when a logger is given. */
  function LifecycleHook<V, F>(logger: Logger, prefix: string, localizedDescription: F -> string, e: Event<V, F>): Option<Record<V>>
  {
    match e
    case ReceiveSubscription(_) => Some(Message(Default, prefix + " started"))
    case ReceiveOutput(v) => Some(Command(logger, v))
    case ReceiveCompletion(Failure(error)) =>
      Some(Message(Error, prefix + " error: " + localizedDescription(error)))
    case ReceiveCompletion(Finished) => Some(Message(Default, prefix + " finished"))
    case ReceiveCancel => Some(Message(Default, prefix + " cancelled"))
  }

  /**
   * `Publisher.log(to:prefix:_:)`. The error's `localizedDescription` is a
   * parameter. Every event gives exactly one record, at the event's position.
   */
  function Log<V, F>(upstream: seq<Event<V, F>>, logger: Option<Logger>, prefix: string, localizedDescription: F -> string): (o: Observed<V, F>)
    ensures o.downstream == upstream
    ensures logger.None? ==> o.records == []
    ensures logger.Some? ==> |o.records| == |upstream|
    ensures logger.Some? ==> forall i :: 0 <= i < |upstream| && upstream[i].ReceiveSubscription? ==>
      o.records[i] == Message(Default, prefix + " started")
    ensures logger.Some? ==> forall i :: 0 <= i < |upstream| && upstream[i].ReceiveOutput? ==>
      o.records[i] == Command(logger.value, upstream[i].value)
    ensures logger.Some? ==> forall i :: 0 <= i < |upstream| && upstream[i] == ReceiveCompletion(Finished) ==>
      o.records[i] == Message(Default, prefix + " finished")
    ensures logger.Some? ==> forall i :: 0 <= i < |upstream| && upstream[i].ReceiveCompletion? && upstream[i].completion.Failure? ==>
      o.records[i] == Message(Error, prefix + " error: " + localizedDescription(upstream[i].completion.error))
    ensures logger.Some? ==> forall i :: 0 <= i < |upstream| && upstream[i].ReceiveCancel? ==>
      o.records[i] == Message(Default, prefix + " cancelled")
  {
    match logger
    case None =>
      HandleEventsSilent(upstream, NoHooks);
      HandleEvents(upstream, NoHooks)
    case Some(l) =>
      var hook := e => LifecycleHook(l, prefix, localizedDescription, e);
      HandleEventsEveryEvent(upstream, hook);
      HandleEvents(upstream, hook)
  }

  /** The hook installed by `logOutput(to:_:)`: values only. */
  function OutputHook<V, F>(logger: Option<Logger>, e: Event<V, F>): Option<Record<V>>
  {
    match (logger, e)
    case (Some(l), ReceiveOutput(v)) => Some(Command(l, v))
    case _ => None
  }

  /** The values of a trace, in order. */
  function Outputs<V, F>(trace: seq<Event<V, F>>): seq<V>
  {
    if trace == [] then []
    else (if trace[0].ReceiveOutput? then [trace[0].value] else []) + Outputs(trace[1..])
  }

  /** The `logCommand` calls among some records, in order. */
  function Commands<V>(records: seq<Record<V>>): seq<Record<V>>
  {
    if records == [] then []
    else (if records[0].Command? then [records[0]] else []) + Commands(records[1..])
  }

  /** One `logCommand(logger, v)` call for each of `values`, in order. */
  function CommandsFor<V>(logger: Logger, values: seq<V>): (r: seq<Record<V>>)
    ensures |r| == |values|
    ensures forall i :: 0 <= i < |values| ==> r[i] == Command(logger, values[i])
  {
    seq(|values|, i requires 0 <= i < |values| => Command(logger, values[i]))
  }

  /** Under the value-only hook, the records are one command per value, in order. */
  lemma {:induction false} OutputHookRecords<V, F>(upstream: seq<Event<V, F>>, logger: Logger)
    ensures HandleEvents(upstream, e => OutputHook(Some(logger), e)).records
         == CommandsFor(logger, Outputs(upstream))
    decreases |upstream|
  {
    if upstream != [] {
      OutputHookRecords(upstream[1..], logger);
      var vs := Outputs(upstream[1..]);
      if upstream[0].ReceiveOutput? {
        assert CommandsFor(logger, [upstream[0].value] + vs)
            == [Command(logger, upstream[0].value)] + CommandsFor(logger, vs);
      } else {
        assert [] + vs == vs;
      }
    }
  }

  /**
   * `Publisher.logOutput(to:_:)`: the trace passes unchanged, and the only
   * records are one `logCommand` call per value, in order; without a logger
   * there are none.
   */
  function LogOutput<V, F>(upstream: seq<Event<V, F>>, logger: Option<Logger>): (o: Observed<V, F>)
    ensures o.downstream == upstream
    ensures logger.None? ==> o.records == []
    ensures logger.Some? ==> o.records == CommandsFor(logger.value, Outputs(upstream))
    ensures logger.Some? ==> |o.records| == |Outputs(upstream)|
  {
    var hook := e => OutputHook(logger, e);
    match logger
    case None =>
      HandleEventsSilent(upstream, hook);
      HandleEvents(upstream, hook)
    case Some(l) =>
      OutputHookRecords(upstream, l);
      HandleEvents(upstream, hook)
  }

  /** `log` makes exactly the `logCommand` calls that `logOutput` makes, in the same order. */
  lemma {:induction false} LogCommandsAreLogOutput<V, F>(upstream: seq<Event<V, F>>, logger: Option<Logger>, prefix: string, localizedDescription: F -> string)
    ensures Commands(Log(upstream, logger, prefix, localizedDescription).records) == LogOutput(upstream, logger).records
    decreases |upstream|
  {
    if upstream != [] && logger.Some? {
      var rest := upstream[1..];
      LogCommandsAreLogOutput(rest, logger, prefix, localizedDescription);
      var all := Log(upstream, logger, prefix, localizedDescription).records;
      var tail := Log(rest, logger, prefix, localizedDescription).records;
      assert all == [all[0]] + tail;
      if upstream[0].ReceiveOutput? {
        assert Outputs(upstream) == [upstream[0].value] + Outputs(rest);
      } else {
        assert Outputs(upstream) == Outputs(rest);
      }
    }
  }

  /**
   * The documented example: `[1, 2, 3]` published and finished under the
   * prefix "Counter" logs "Counter started", the three values' commands in
   * order, then "Counter finished".
   */
  lemma CounterExample(logger: Logger, localizedDescription: int -> string, s: Subscription)
    ensures Log([ReceiveSubscription(s), ReceiveOutput(1), ReceiveOutput(2), ReceiveOutput(3), ReceiveCompletion(Finished)],
                Some(logger), "Counter", localizedDescription).records
         == [Message(Default, "Counter started"), Command(logger, 1), Command(logger, 2), Command(logger, 3),
             Message(Default, "Counter finished")]
  {
    var trace := [ReceiveSubscription(s), ReceiveOutput(1), ReceiveOutput(2), ReceiveOutput(3), ReceiveCompletion(Finished)];
    var records := Log(trace, Some(logger), "Counter", localizedDescription).records;
    assert trace[0].ReceiveSubscription? && trace[1].ReceiveOutput? && trace[2].ReceiveOutput?;
    assert trace[3].ReceiveOutput? && trace[4] == ReceiveCompletion(Finished);
    assert |records| == 5;
    assert records[0] == Message(Default, "Counter started");
    assert records[1] == Command(logger, 1) && records[2] == Command(logger, 2) && records[3] == Command(logger, 3);
    assert records[4] == Message(Default, "Counter finished");
  }

  /** The same values under `logOutput`: three commands and nothing else. */
  lemma CounterOutputExample(logger: Logger, s: Subscription)
    ensures LogOutput<int, string>([ReceiveSubscription(s), ReceiveOutput(1), ReceiveOutput(2), ReceiveOutput(3), ReceiveCompletion(Finished)],
                                   Some(logger)).records
         == [Command(logger, 1), Command(logger, 2), Command(logger, 3)]
  {
    var trace: seq<Event<int, string>> := [ReceiveSubscription(s), ReceiveOutput(1), ReceiveOutput(2), ReceiveOutput(3), ReceiveCompletion(Finished)];
    assert Outputs(trace[4..]) == [];
    assert Outputs(trace[3..]) == [3];
    assert Outputs(trace[2..]) == [2, 3];
    assert Outputs(trace[1..]) == [1, 2, 3];
    assert Outputs(trace) == [1, 2, 3];
    var records := LogOutput(trace, Some(logger)).records;
    assert records == CommandsFor(logger, [1, 2, 3]);
    assert |records| == 3;
    assert records[0] == Command(logger, 1) && records[1] == Command(logger, 2) && records[2] == Command(logger, 3);
  }

  /**
   * A failure after one value logs "X started", the value's command and
   * "X error: <description>" at error level, and no "X finished".
   */
  lemma FailureExample<F>(logger: Logger, localizedDescription: F -> string, s: Subscription, error: F)
    ensures Log([ReceiveSubscription(s), ReceiveOutput(1), ReceiveCompletion(Failure(error))],
                Some(logger), "X", localizedDescription).records
         == [Message(Default, "X started"), Command(logger, 1),
             Message(Error, "X error: " + localizedDescription(error))]
  {
    var trace := [ReceiveSubscription(s), ReceiveOutput(1), ReceiveCompletion(Failure(error))];
    var records := Log(trace, Some(logger), "X", localizedDescription).records;
    assert trace[0].ReceiveSubscription? && trace[1].ReceiveOutput? && trace[2].completion.Failure?;
    assert records[0] == Message(Default, "X started") && records[1] == Command(logger, 1);
    assert records[2] == Message(Error, "X error: " + localizedDescription(error));
  }

  /**
   * A cancellation after one value logs "X started", the value's command and
   * "X cancelled", and no finished or error record.
   */
  lemma CancelExample(logger: Logger, localizedDescription: string -> string, s: Subscription)
    ensures Log([ReceiveSubscription(s), ReceiveOutput(1), ReceiveCancel],
                Some(logger), "X", localizedDescription).records
         == [Message(Default, "X started"), Command(logger, 1), Message(Default, "X cancelled")]
  {
    var trace := [ReceiveSubscription(s), ReceiveOutput(1), ReceiveCancel];
    var records := Log(trace, Some(logger), "X", localizedDescription).records;
    assert trace[0].ReceiveSubscription? && trace[1].ReceiveOutput? && trace[2].ReceiveCancel?;
    assert records[0] == Message(Default, "X started") && records[1] == Command(logger, 1);
    assert records[2] == Message(Default, "X cancelled");
  }
}
