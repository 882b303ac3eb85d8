/** The producer `signalForJSON` returns, as an object updated in place.
    `Start`, `OnResponse` and `Dispose` are proved to follow the
    corresponding step of `Lifecycle` and to keep its invariant; `Send` and
    `Deliver`, the helpers they use, are proved only to follow `AfterSend`
    and `AfterSendAll`, and alone need not keep the invariant. */
module Producer {
  import opened Wrappers
  import opened Foundation
  import opened Signal
  import opened SignalForJSON
  import opened Lifecycle

  /** `held` is the variable `retainedObject` that `retainWhileWorking`
      captures, shared by every start; each start has its own entry in
      `runs`; `log` is the logger's calls. */
  class JSONSignalProducer<J> {
    const httpMethod: Method
    const logging: bool
    var held: bool
    var runs: seq<Run<J>>
    var log: seq<LogCall>

    /** The object's fields as a `State`. */
    function Snapshot(): (s: State<J>)
      reads this
      ensures s.held == held && s.runs == runs && s.log == log
    {
      State(httpMethod, logging, held, runs, log)
    }

    ghost predicate Valid()
      reads this
    {
      Inv(Snapshot())
    }

    /** `signalForJSON(method, ...)` with a logger or without: nothing is
        requested yet, and the manager is held from here on. */
    constructor (m: Method, withLogger: bool)
      ensures Valid() && Snapshot() == Created(m, withLogger)
    {
      httpMethod, logging := m, withLogger;
      held, runs, log := true, [], [];
      new;
      CreatedInv<J>(m, withLogger);
    }

    /** One start: choose the encoding, issue the request, log it. */
    method Start() returns (id: nat)
      requires Valid()
      modifies this
      ensures Valid() && Snapshot() == AfterStart(old(Snapshot()))
      ensures id == old(|runs|)
    {
      id := |runs|;
      var encoding := EncodingFor(httpMethod);
      runs := runs + [Run(encoding, [], false, false, 0)];
      if logging {
        log := log + [RequestLogged(id, encoding)];
      }
      StartKeepsInv(old(Snapshot()));
    }

    /** `observer.sendX` for start `id`, through `on(failed:)` and
        `on(terminated:)`. */
    method Send(id: nat, e: Event<J>)
      requires id < |runs|
      modifies this
      ensures Snapshot() == AfterSend(old(Snapshot()), id, e)
    {
      var r := runs[id];
      if !Terminated(r.events) {
        if logging && e.Failed? {
          log := log + [ErrorLogged(id, e.error)];
        }
        if IsTerminal(e) {
          held := false;
          var cancels := if r.disposed then r.cancels else r.cancels + 1;
          runs := runs[id := r.(events := r.events + [e], disposed := true, cancels := cancels)];
        } else {
          runs := runs[id := r.(events := r.events + [e])];
        }
      }
    }

    /** The `switch` on the response's result: the events sent to start
        `id`'s observer are those `Classify` gives. */
    method Deliver<V>(id: nat, result: TransportResult<V>, parse: V -> Option<J>, extract: J -> Option<Error>)
      requires id < |runs|
      modifies this
      ensures Snapshot() == AfterSendAll(old(Snapshot()), id, Classify(result, parse, extract))
    {
      ghost var sent: seq<Event<J>>;
      match result {
        case Success(value) =>
          var json := parse(value);
          if json.None? {
            Send(id, Failed(DecodeError));
            sent := [Failed(DecodeError)];
          } else {
            var error := extract(json.value);
            if error.Some? {
              Send(id, Failed(error.value));
              sent := [Failed(error.value)];
            } else {
              Send(id, Next(json.value));
              Send(id, Completed);
              sent := [Next(json.value), Completed];
            }
          }
        case Failure(error) =>
          if IsCancellation(error) {
            Send(id, Interrupted);
            sent := [Interrupted];
          } else {
            Send(id, Failed(error));
            sent := [Failed(error)];
          }
      }
      assert sent == Classify(result, parse, extract);
      SendAllShort(old(Snapshot()), id, sent);
    }

    /** The `responseJSON` completion of start `id`: log the response, then
        send the classified events. */
    method OnResponse<V>(id: nat, response: Response<V>, parse: V -> Option<J>, extract: J -> Option<Error>)
      requires Valid() && id < |runs| && !runs[id].responded
      modifies this
      ensures Valid() && Snapshot() == AfterResponse(old(Snapshot()), id, response, parse, extract)
    {
      ghost var s0 := Snapshot();
      if logging && response.http.Some? {
        log := log + [ResponseLogged(id, response.http.value, response.data)];
      }
      runs := runs[id := runs[id].(responded := true)];
      assert Snapshot() == Marked(s0, id, response);
      Deliver(id, response.result, parse, extract);
      CallbackSendsClassified(s0, id, response, parse, extract);
      RespondKeepsInv(s0, id, response, parse, extract);
    }

    /** Disposing start `id`: its disposable interrupts the signal and runs
        `request.cancel()`, the first time only. */
    method Dispose(id: nat)
      requires Valid() && id < |runs|
      modifies this
      ensures Valid() && Snapshot() == AfterDispose(old(Snapshot()), id)
    {
      if !runs[id].disposed {
        Send(id, Interrupted);
        DisposalInterrupts(old(Snapshot()), id);
      }
      DisposeKeepsInv(old(Snapshot()), id);
    }
  }
}
