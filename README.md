# CombineExtras core, modelled in Dafny

This project models four small pieces of the CombineExtras Swift package:

- **Subject type erasure.** An `AnySubject` handle holds one box that is fixed at construction. Wrapping a value that already is an `AnySubject` reuses that value's box. Wrapping any other subject allocates a new `SubjectBox` that owns it. The four subject operations (`send(_:)`, `send(completion:)`, `send(subscription:)`, `receive(subscriber:)`) are forwarded from the handle to the box, and from the box to the wrapped subject. The wrapped subject here is a recording subject: its only state is the list of calls it has received. So "forwarded unchanged" reads as "the wrapped subject's list grew by exactly this call, and nothing else changed".
- **Lifecycle logging decorators.** `log(to:prefix:_:)` and `logOutput(to:_:)` are modelled as functions over one subscription's finite trace of events: subscription, value, completion (finished or failure), cancel. Each returns the trace that reaches the downstream subscriber, together with the log records made along the way. A record is either a built-in message with a level, or one call of the caller's `logCommand` closure.
- **Truncation.** `String.truncated(limit:position:leader:)` cuts at the head, in the middle or at the tail, and `Dictionary.truncated` truncates every value of a string-valued dictionary.
- **Request one-liner.** `RequestOneLinerLogger.description` renders a request as its method, URL, truncated header fields and body, each present part followed by one space.

Files: `wrappers.dfy` (Option), `streams.dfy` (completion, subscription and subscriber values), `any_subject.dfy` (module `SubjectErasure`), `logging.dfy` (module `Logging`), `truncation.dfy` (module `Truncation`), `one_liner.dfy` (module `RequestOneLiner`).

Boundary choices:
- Swift's "any type conforming to `Subject`" becomes the datatype `SubjectValue`. It is either `Erased(handle)`, when the initializer's dynamic cast to `AnySubject` succeeds, or `Concrete(subject)`.
- `SubjectBox.base` has the type of a concrete subject. So no box ever wraps an erased handle, and erasing twice never nests. This holds by typing.
- `box` and `base` are `const` fields, so neither can be re-bound after construction.
- Combine's `handleEvents` is library code. `Logging.HandleEvents` stands in for it by what it does to one subscription's trace: each event is passed downstream, and the hook for that kind of event, if one is installed, runs once at that point.
- The logger is a value, `Option<Logger>`. Foundation's `error.localizedDescription`, the textual description of a `Dictionary`, and `String(data:encoding: .utf8)` are function-valued parameters.
- A Swift `Character` is one element of a `seq<char>`.
- Taking a `prefix` or `suffix` of negative length is a fatal error in Swift. It is modelled as the precondition `CanTruncate`: head and tail need `limit >= 0`, and middle needs `limit >= |leader|`. Both apply only when the string is longer than the limit.
- The Float ceiling and floor of half of `limit` minus the leader's length become `(x + 1) / 2` and `x / 2` on integers, with `x` that difference. Dafny's division by 2 rounds down, so these agree with ceiling and floor for negative `x` as well.

## Model

| member | source | states |
|---|---|---|
| SubjectErasure.AnySubject.constructor | Sources/CombineExtras/AnySubject.swift:75-84 | wrapping an `Erased` value reuses that handle's box (the very same reference); wrapping a concrete subject allocates a fresh box whose base is exactly that subject |
| SubjectErasure.EraseToAnySubject | Sources/CombineExtras/AnySubject.swift:53-55 | returns a fresh handle; its box is the argument's box when the argument is already erased, otherwise a fresh box over the argument |
| SubjectErasure.EraseTwiceThenSend | Sources/CombineExtras/AnySubject.swift:78-83 | erasing twice gives two distinct handles that share one box over the original subject; a value sent through the outer handle is recorded exactly once by that subject |
| SubjectErasure.AnySubject.Description | Sources/CombineExtras/AnySubject.swift:86-88 | the description is "AnySubject" whatever subject is wrapped |
| SubjectErasure.AnySubject.Receive | Sources/CombineExtras/AnySubject.swift:104-108 | the wrapped subject records exactly one `receive(subscriber:)` with the same subscriber; only the wrapped subject may change |
| SubjectErasure.AnySubject.Send | Sources/CombineExtras/AnySubject.swift:111-113 | the wrapped subject records exactly one `send` with the same value; only the wrapped subject may change |
| SubjectErasure.AnySubject.SendCompletion | Sources/CombineExtras/AnySubject.swift:116-118 | the completion, failure included, reaches the wrapped subject unchanged, exactly once |
| SubjectErasure.AnySubject.SendSubscription | Sources/CombineExtras/AnySubject.swift:121-123 | the subscription reaches the wrapped subject unchanged, exactly once |
| SubjectErasure.SubjectBox.constructor | Sources/CombineExtras/AnySubject.swift:157-161 | the box's base is the given subject |
| SubjectErasure.SubjectBox.Receive | Sources/CombineExtras/AnySubject.swift:164-168 | the base records exactly this `receive(subscriber:)` call |
| SubjectErasure.SubjectBox.Send | Sources/CombineExtras/AnySubject.swift:171-173 | the base records exactly this `send` call |
| SubjectErasure.SubjectBox.SendCompletion | Sources/CombineExtras/AnySubject.swift:176-178 | the base records exactly this `send(completion:)` call |
| SubjectErasure.SubjectBox.SendSubscription | Sources/CombineExtras/AnySubject.swift:181-183 | the base records exactly this `send(subscription:)` call |
| Logging.HandleEvents | Sources/CombineExtras/Logging.swift:74-80 | the downstream trace equals the upstream trace, and there is at most one record per event |
| Logging.HandleEventsSilent | Sources/CombineExtras/Logging.swift:48 | with no hook firing on the trace, as in the logger-absent `handleEvents()`, nothing is logged |
| Logging.HandleEventsEveryEvent | Sources/CombineExtras/Logging.swift:74-80 | when a hook fires on every event, there is one record per event, and the i-th record is the hook's record for the i-th event, so records follow event order |
| Logging.HandleEventsAppend | Sources/CombineExtras/Logging.swift:74-80 | the records of a trace split in two are the records of the first part followed by those of the second |
| Logging.Log | Sources/CombineExtras/Logging.swift:43-81 | the trace passes unchanged; with no logger there are no records; with a logger there is one record per event at the event's position: "<prefix> started" at the default level for a subscription, one `logCommand(logger, value)` for a value, "<prefix> finished" for a normal completion, "<prefix> error: <description>" at error level for a failure, and "<prefix> cancelled" for a cancel |
| Logging.OutputHookRecords | Sources/CombineExtras/Logging.swift:107-108 | with the value-only hook, the records are exactly one command per value of the trace, in order |
| Logging.LogOutput | Sources/CombineExtras/Logging.swift:103-112 | the trace passes unchanged; with no logger there are no records; with a logger the records are exactly one `logCommand(logger, v)` per value `v`, in order, so their count is the number of values and there is no start, finish, error or cancel record |
| Logging.LogCommandsAreLogOutput | Sources/CombineExtras/Logging.swift:66-68 | the `logCommand` calls made by `log` are exactly those made by `logOutput` on the same trace, in the same order |
| Logging.CounterExample | Sources/CombineExtras/Logging.swift:26-37 | for `[1, 2, 3]` then finished, under prefix "Counter", the records are: started, the commands for 1, 2 and 3 in order, finished |
| Logging.CounterOutputExample | Tests/CombineExtrasTests/LoggingTests.swift:44-57 | under `logOutput`, the same trace gives only the three commands |
| Logging.FailureExample | Sources/CombineExtras/Logging.swift:54-60 | a failure after one value gives started, the command, then the error message at error level, and no finished record |
| Logging.CancelExample | Sources/CombineExtras/Logging.swift:70-72 | a cancel after one value gives started, the command, then cancelled, and no finished or error record |
| Truncation.Truncated | Sources/CombineExtras/Utils/Truncation.swift:17-32 | a string within the limit is returned unchanged; tail gives the first `limit` characters then the leader (length `limit` plus the leader's length); head gives the leader then the last `limit` characters (length `limit` plus the leader's length); middle gives the first `HalfUp(d)` (ceiling of `d / 2`) characters, the leader, then the last `HalfDown(d)` (floor of `d / 2`) characters, where `d` is `limit` minus the leader's length (length exactly `limit`) |
| Truncation.HalfUp | Sources/CombineExtras/Utils/Truncation.swift:24 | the head count is the ceiling of half its argument: twice the result is the argument or one more |
| Truncation.HalfDown | Sources/CombineExtras/Utils/Truncation.swift:26 | the tail count is the floor of half its argument: twice the result is the argument or one less |
| Truncation.TruncatedIdempotent | Sources/CombineExtras/Utils/Truncation.swift:17-32 | truncating a truncated string again with the same arguments is allowed and changes nothing |
| Truncation.TruncatedDefaults | Sources/CombineExtras/Utils/Truncation.swift:17 | the default position is tail and the default leader is "...", so a too-long string becomes its first `limit` characters followed by "..." |
| Truncation.DictionaryTruncated | Sources/CombineExtras/Utils/Truncation.swift:36-42 | the loop over the keys returns a dictionary with exactly the same keys, each value the `String.truncated` of the original value with the same arguments, equal to the map comprehension `TruncatedValues` |
| RequestOneLiner.Description | Sources/CombineExtras/Logging/Models/URLRequestOneLinerLogger.swift:19-26 | the rendering is empty if and only if the request has no method, URL, header fields or body; otherwise it ends with a space |
| RequestOneLiner.SingleFieldDescriptions | Sources/CombineExtras/Logging/Models/URLRequestOneLinerLogger.swift:20-23 | a request with only one field renders as that field's part alone, with absent parts contributing nothing |
| RequestOneLiner.DescriptionInOrder | Sources/CombineExtras/Logging/Models/URLRequestOneLinerLogger.swift:25 | the rendering is the concatenation of the method, URL, headers and body renderings, in that order |
| RequestOneLiner.DescriptionOfOnePart | Sources/CombineExtras/Logging/Models/URLRequestOneLinerLogger.swift:20-23 | each present part is its text followed by exactly one space; the headers part is the description of the truncated header fields |
| RequestOneLiner.UndecodableBodyIsOneSpace | Sources/CombineExtras/Logging/Models/URLRequestOneLinerLogger.swift:23 | a body that is present but not valid UTF-8 contributes a single space |
| RequestOneLiner.ShownHeaderValues | Sources/CombineExtras/Logging/Models/URLRequestOneLinerLogger.swift:22 | the header fields handed to the description keep their keys; values of at most 20 characters are unchanged, and longer ones become their first 20 characters followed by "..." |
| RequestOneLiner.PostExample | Sources/CombineExtras/Logging/Models/URLRequestOneLinerLogger.swift:20-25 | a POST with a URL, header fields and a decodable body renders as "POST <url> <headers> <body> " |

## Left out

- The Combine runtime: subscription, demand and backpressure, the internals of `handleEvents`, and multicast to several subscribers. The logging decorators are modelled on one subscription's trace, given as input. Whether a trace is well formed (one subscription first, at most one terminal event) is up to the upstream publisher and is not checked.
- `SubjectBoxBase`: its no-op `send` defaults and its `receive`, which calls `abstractMethod()` (a `fatalError`). Every box the initializer creates is a `SubjectBox`, which overrides all four operations. So the base class's own bodies are never reached and are not modelled. Utils/Placeholders.swift is not part of this model.
- `playgroundDescription`, which only returns `description`.
- The test's check that an erased subject cannot be cast back to its concrete type. In the model this holds by typing: `AnySubject` and the concrete subject are distinct classes.
- The `os.log` `Logger`: the real sink, the privacy annotations, and the `logCommand` closure's own messages. A record is a value, and a `logCommand` call is recorded with its logger and value.
- Foundation's `localizedDescription`, `Dictionary` description and UTF-8 decoding. They are parameters, not definitions.
- Truncation.Truncated: does not model `Float` rounding in middle truncation, which is exact only while `limit` minus the leader's length is below 2^24 in absolute value.
- Swift's grapheme-cluster counting. A character is one sequence element.
- Sources/CombineExtras/Logging/LoggingDataTask.swift and LoggedDataTask.swift, the URLSession plumbing. Their only logic is one `logOutput` call and one eager log call at construction.
- Concurrency: none is introduced by this code.
