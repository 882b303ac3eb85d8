# YoutubeEngine: the JSON request signal

This project models `Manager.signalForJSON` and `SignalProducerType.retainWhileWorking`.
Both are in `YoutubeEngine/Classes/Helpers/Alamofire+ReactiveCocoa.swift`.
Calling `signalForJSON` returns a cold ReactiveCocoa `SignalProducer`. Each start of the producer does four things:

- It issues one Alamofire request, URL-encoded for `GET` and JSON-encoded for every other method.
- It logs the request.
- It turns the `responseJSON` callback into events for its observer: a value and completion, a failure, or an interruption.
- It cancels the request when its disposable is disposed.

`retainWhileWorking` keeps the manager alive in a variable captured by the producer. The first start that terminates clears that variable.

The files:

- `wrappers.dfy`: `Option`.
- `foundation.dfy`: `NSError` as `Error`, the cancellation test, and the HTTP response.
- `signal.dfy`: ReactiveCocoa events, and facts about event streams that obey the signal grammar. In that grammar, values come before one terminal event and nothing comes after it.
- `signal_for_json.dfy`: the two pure parts of the source.
  - `EncodingFor` is the choice of encoding.
  - `Classify` is the `switch` on the response's result; it gives the events the observer is sent.
- `lifecycle.dfy`: the producer as a state machine. It has:
  - the shared hold;
  - one `Run` per start, holding its events, whether the transport has called back, whether its disposable has run, and how often `request.cancel()` ran;
  - the logger's calls.

  There is one pure function per step (start, event sent, callback, disposal). `Inv` is proved of every state that some sequence of starts, callbacks and disposals reaches (`ReplayInv`).
- `producer.dfy`: the class `JSONSignalProducer`. Its methods update `held`, `runs` and `log` in place. `Start`, `OnResponse` and `Dispose` are proved to take the object to the state of the matching step function and to keep `Inv`. `Send` and `Deliver` are the helpers they use. Those two are proved only to match `AfterSend` and `AfterSendAll`, so each alone need not keep `Inv`: for example, sending a value without its completion breaks it.

Each decision below follows the code:

- Only `GET` is URL-encoded. `HEAD`, `OPTIONS` and `DELETE` are JSON-encoded.
- The hold is taken when `retainWhileWorking` is called, which is when `signalForJSON` builds the producer, not at each start. All starts of the producer share it.
- The response is logged only when an HTTP response exists, whatever the result.
- The request is logged after it has been issued.

## Model

| member | source | states |
|---|---|---|
| Foundation.IsCancellation | YoutubeEngine/Classes/Helpers/Alamofire+ReactiveCocoa.swift:41 | the cancellation test: an error is a cancellation only when both its domain is NSURLErrorDomain and its code is NSURLErrorCancelled. Its consequences are stated by `SignalForJSON.CancellationInterrupts`, `SignalForJSON.TransportErrorPassesThrough` and `SignalForJSON.InterruptedIffCancelled` |
| SignalForJSON.EncodingFor | YoutubeEngine/Classes/Helpers/Alamofire+ReactiveCocoa.swift:15 | the encoding is URL exactly when the method is GET, and JSON exactly when it is not |
| SignalForJSON.BodilessMethodsUseJSON | YoutubeEngine/Classes/Helpers/Alamofire+ReactiveCocoa.swift:15 | HEAD, OPTIONS and DELETE requests are JSON-encoded, like every method other than GET |
| SignalForJSON.Classify | YoutubeEngine/Classes/Helpers/Alamofire+ReactiveCocoa.swift:27-46 | whatever the result, the observer gets one or two events; only the last is terminal, and a value is always followed by completion |
| SignalForJSON.ClassifyOneTerminal | YoutubeEngine/Classes/Helpers/Alamofire+ReactiveCocoa.swift:27-46 | every callback sends exactly one terminal event |
| SignalForJSON.CancellationInterrupts | YoutubeEngine/Classes/Helpers/Alamofire+ReactiveCocoa.swift:40-42 | a transport error in NSURLErrorDomain with code NSURLErrorCancelled gives exactly an interruption, and never a failure |
| SignalForJSON.TransportErrorPassesThrough | YoutubeEngine/Classes/Helpers/Alamofire+ReactiveCocoa.swift:40-45 | any other transport error gives a failure with that same error, and nothing else |
| SignalForJSON.UnparsableBodyIsDecodeError | YoutubeEngine/Classes/Helpers/Alamofire+ReactiveCocoa.swift:28-31 | a body that does not parse as JSON gives exactly a failure with domain YoutubeErrorDomain, code 1 and no user info, and no value; this does not depend on the body or on the error extractor |
| SignalForJSON.EmbeddedErrorFails | YoutubeEngine/Classes/Helpers/Alamofire+ReactiveCocoa.swift:34-35 | parsed JSON that carries an error gives exactly a failure with that error, and no value |
| SignalForJSON.CleanJSONIsSent | YoutubeEngine/Classes/Helpers/Alamofire+ReactiveCocoa.swift:36-38 | parsed JSON without an error gives exactly that JSON as a value, then completion |
| SignalForJSON.InterruptedIffCancelled | YoutubeEngine/Classes/Helpers/Alamofire+ReactiveCocoa.swift:40-42 | the stream the observer gets contains an interruption if and only if the transport failed with the cancellation error |
| SignalForJSON.NextIffCleanJSON | YoutubeEngine/Classes/Helpers/Alamofire+ReactiveCocoa.swift:28-39 | the stream the observer gets contains a value if and only if the body parses and carries no error, and every value sent is the parsed JSON |
| SignalForJSON.FailsIff | YoutubeEngine/Classes/Helpers/Alamofire+ReactiveCocoa.swift:27-46 | the signal fails with an error if and only if it is the decode error for an unparsable body, the embedded error, or a transport error that is not a cancellation |
| Lifecycle.Created | YoutubeEngine/Classes/Helpers/Alamofire+ReactiveCocoa.swift:61-62 | a new producer holds the manager, has no start and has logged nothing |
| Lifecycle.AfterStart | YoutubeEngine/Classes/Helpers/Alamofire+ReactiveCocoa.swift:13-18 | the start step: it appends one new start, whose request uses the method's encoding and which has no events, no callback, no disposal and no cancellation. The method, the logger and the hold are unchanged, earlier starts are unchanged, and the log is only extended. `Lifecycle.StartKeepsInv` states that it keeps the invariant and logs the request once |
| Lifecycle.AfterSend | YoutubeEngine/Classes/Helpers/Alamofire+ReactiveCocoa.swift:52-65 | sending one event to start i: the number of starts, the method and the logger are unchanged. What it records is stated by `Lifecycle.SendAllToLive` (an ending stream sent to a live start) and `Lifecycle.DisposalInterrupts` |
| Lifecycle.AfterResponse | YoutubeEngine/Classes/Helpers/Alamofire+ReactiveCocoa.swift:20-47 | the callback step: the start is marked as called back and afterwards has a terminal event; if it was live, its disposable has run and the hold is cleared. The method, the logger and the number of starts are unchanged. Its promises are stated by `Lifecycle.RespondKeepsInv`, `Lifecycle.ResponseEndsLiveStart`, `Lifecycle.ResponseAfterDisposal`, `Lifecycle.ResponseLogging` and `Lifecycle.CallbackSendsClassified` |
| Lifecycle.AfterDispose | YoutubeEngine/Classes/Helpers/Alamofire+ReactiveCocoa.swift:48-50 | the disposal step: only start i changes, and it is disposed with its callback flag unchanged. The log is unchanged, and the hold is cleared if the start was live. `Lifecycle.DisposeCancelsOnce` and `Lifecycle.DisposeKeepsInv` state the rest |
| Lifecycle.Step | YoutubeEngine/Classes/Helpers/Alamofire+ReactiveCocoa.swift:13-65 | one action (a start, a callback or a disposal): the method and the logger are unchanged, the number of starts grows by one exactly when the action is a start and is unchanged otherwise, and the log is only extended. `Lifecycle.StepKeepsInv` and `Lifecycle.StepKeepsReleased` state what every step keeps |
| Lifecycle.Replay | YoutubeEngine/Classes/Helpers/Alamofire+ReactiveCocoa.swift:13-65 | the state a sequence of actions reaches from a new producer: it has the given method and logger, and one start per start action in the sequence. `Lifecycle.ReplayInv` and `Lifecycle.ReleasedForever` state what holds of every such state |
| Lifecycle.CreatedInv | YoutubeEngine/Classes/Helpers/Alamofire+ReactiveCocoa.swift:61-62 | a new producer satisfies the invariant |
| Lifecycle.StartKeepsInv | YoutubeEngine/Classes/Helpers/Alamofire+ReactiveCocoa.swift:13-18 | a start keeps the invariant: its request uses the method's encoding, and with a logger it is logged once, in order of starts |
| Lifecycle.RespondKeepsInv | YoutubeEngine/Classes/Helpers/Alamofire+ReactiveCocoa.swift:20-47 | the first callback of a start keeps the invariant |
| Lifecycle.DisposeKeepsInv | YoutubeEngine/Classes/Helpers/Alamofire+ReactiveCocoa.swift:48-50 | disposing a start keeps the invariant |
| Lifecycle.StepKeepsInv | YoutubeEngine/Classes/Helpers/Alamofire+ReactiveCocoa.swift:13-65 | a start, a callback or a disposal keeps the invariant |
| Lifecycle.ReplayInv | YoutubeEngine/Classes/Helpers/Alamofire+ReactiveCocoa.swift:13-65 | every sequence of starts, callbacks and disposals reaches a state where the invariant holds. Here a callback is one step, with no disposal inside it (see "## Left out"). So each start has at most one terminal event, and values only right before completion. Each start cancels its request once, when it ends. The hold is kept exactly while no start has ended. Each request is logged once. A response is logged at most once, and only after its callback. An error is logged exactly when a signal fails with it, and at most once per start. So the logger is called at most three times per start |
| Lifecycle.CallbackSendsClassified | YoutubeEngine/Classes/Helpers/Alamofire+ReactiveCocoa.swift:20-46 | logging the response and then sending the classified events one at a time gives the callback step |
| Lifecycle.SendAllToLive | YoutubeEngine/Classes/Helpers/Alamofire+ReactiveCocoa.swift:52-65 | sending an ending stream to a live start records exactly that stream and clears the hold. The start's disposable runs, cancelling the request once. A failure is logged together with its error. No other start changes |
| Lifecycle.DisposalInterrupts | YoutubeEngine/Classes/Helpers/Alamofire+ReactiveCocoa.swift:48-50 | disposing a live start is sending it an interruption |
| Lifecycle.OneTerminalPerStart | YoutubeEngine/Classes/Helpers/Alamofire+ReactiveCocoa.swift:27-50 | in every reachable state the number of terminal events a start received equals the number of times it cancelled its request. That number is 1 once its disposable has run and 0 before |
| Lifecycle.InterruptionNotLogged | YoutubeEngine/Classes/Helpers/Alamofire+ReactiveCocoa.swift:52-55 | an interrupted start never has an error logged |
| Lifecycle.ResponseEndsLiveStart | YoutubeEngine/Classes/Helpers/Alamofire+ReactiveCocoa.swift:20-50 | the callback of a live start sends it exactly the classified events, with one terminal event. It cancels the request once, clears the hold, and leaves every other start unchanged |
| Lifecycle.ResponseAfterDisposal | YoutubeEngine/Classes/Helpers/Alamofire+ReactiveCocoa.swift:20-47 | the callback of an already disposed start sends nothing and leaves the hold and its cancellations unchanged. It marks the start as called back, leaves every other start unchanged, and logs only the response, when there is one |
| Lifecycle.ResponseLogging | YoutubeEngine/Classes/Helpers/Alamofire+ReactiveCocoa.swift:23-55 | the callback only appends to the log, and only entries about its own start. It first logs the response, exactly when a logger is given and an HTTP response exists. It logs an error only when it ends a live start with a failure, and it logs that failure's error |
| Lifecycle.DisposeCancelsOnce | YoutubeEngine/Classes/Helpers/Alamofire+ReactiveCocoa.swift:48-50 | disposal ends the start, interrupting it if it was live, and cancels its request once. It clears the hold, logs nothing and leaves other starts unchanged. Disposing again changes nothing |
| Lifecycle.StepKeepsReleased | YoutubeEngine/Classes/Helpers/Alamofire+ReactiveCocoa.swift:63-65 | no step takes the hold again once it is cleared |
| Lifecycle.ReleasedForever | YoutubeEngine/Classes/Helpers/Alamofire+ReactiveCocoa.swift:61-65 | once the variable holding the manager is nil, it stays nil whatever happens next |
| Lifecycle.HoldSharedByStarts | YoutubeEngine/Classes/Helpers/Alamofire+ReactiveCocoa.swift:56-65 | in every reachable state, disposing any start and then starting again gives a new live start, while the manager is still not held: the hold belongs to the producer and is shared by all its starts, not taken per start |
| Producer.JSONSignalProducer.constructor | YoutubeEngine/Classes/Helpers/Alamofire+ReactiveCocoa.swift:56-62 | the new object is the new producer of `Created`, holding the manager, and is valid |
| Producer.JSONSignalProducer.Start | YoutubeEngine/Classes/Helpers/Alamofire+ReactiveCocoa.swift:13-18 | the object moves to the start step's state, stays valid, and returns the new start's index |
| Producer.JSONSignalProducer.Send | YoutubeEngine/Classes/Helpers/Alamofire+ReactiveCocoa.swift:52-65 | the object moves to the state of sending one event: nothing after a terminal event. A failure's error is logged, and a terminal event clears the hold and cancels the request once |
| Producer.JSONSignalProducer.Deliver | YoutubeEngine/Classes/Helpers/Alamofire+ReactiveCocoa.swift:27-46 | the events the `switch` sends, one at a time, are exactly `Classify`'s |
| Producer.JSONSignalProducer.OnResponse | YoutubeEngine/Classes/Helpers/Alamofire+ReactiveCocoa.swift:20-47 | the object moves to the callback step's state and stays valid |
| Producer.JSONSignalProducer.Dispose | YoutubeEngine/Classes/Helpers/Alamofire+ReactiveCocoa.swift:48-50 | the object moves to the disposal step's state and stays valid |

## Left out

- The Alamofire request itself is not modelled: URL, parameters, headers and the network. A start is recorded with the encoding it would use.
- Only the `URL` and `JSON` cases of `ParameterEncoding` are modelled, because the source uses only those.
- `JSON(rawValue:)` and `NSError.errorWithJSON` are passed to `Classify` as the functions `parse` and `extract`. The SwiftyJSON and YoutubeEngine code behind them is not part of this model.
- The value of `YoutubeErrorDomain` comes from a file that is not part of this model. Here it is the string "YoutubeErrorDomain". The model depends only on it being a fixed domain.
- `NSURLErrorDomain` and `NSURLErrorCancelled` take their Foundation values, "NSURLErrorDomain" and -999.
- The logger is modelled only as the sequence of calls it receives. Its formatting and output are left out, and so is the `parameters` argument of `logRequest`.
- The force unwrap `request.request!` is assumed to succeed. Alamofire always builds the URL request before it returns.
- ReactiveCocoa's own behaviour is taken as given, not modelled from its code:
  - a signal drops events sent after its terminal event;
  - a terminal event disposes the start's disposable;
  - disposing a start sends `Interrupted` first;
  - a disposable runs its actions only the first time it is disposed.
- Threading is not modelled: the callback queue, and a callback racing a disposal. Steps are taken one at a time.
- A disposal made from inside the subscriber's value handler is not modelled. `observer.sendNext(json)` (line 37) runs the subscriber's code synchronously. If that code disposes the start, for example through a downstream `take(1)`, the start is interrupted and its request cancelled. The `sendCompleted()` at line 38 is then dropped, so the observer gets a value followed by `Interrupted`. The model takes each callback as one step with no disposal inside it. It therefore cannot reach that stream. `RunOk`, and the `ReplayInv` claim that a value is always followed by completion, hold only under this restriction.
- The transport is assumed to call back at most once per start. A repeated callback changes nothing in `Step`, and `OnResponse` requires that the start has not called back.
- Reference counting is reduced to the flag `held`. When the manager is deallocated is not modelled.
