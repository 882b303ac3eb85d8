/** `Manager.signalForJSON` together with `SignalProducerType.retainWhileWorking`,
    as a state machine: the producer's shared hold on the manager, what each
    start does (issue and log the request, register its cancellation), what
    the completion handler sends to the start's observer, and how disposal
    cancels the request. One pure function per step; the invariant every
    reachable state satisfies; and what each step promises. */
module Lifecycle {
  import opened Wrappers
  import opened Foundation
  import opened Signal
  import opened SignalForJSON

  /** One start of the producer: the encoding its request used, the events
      its observer has received, whether the transport has called back,
      whether its disposable has been disposed, and how many times
      `request.cancel()` has run. */
  datatype Run<J> = Run(encoding: Encoding, events: seq<Event<J>>, responded: bool, disposed: bool, cancels: nat)

  /** One call into the logger, tagged with the start it belongs to. */
  datatype LogCall =
    | RequestLogged(start: nat, encoding: Encoding)
    | ResponseLogged(start: nat, response: HttpResponse, body: Option<seq<bv8>>)
    | ErrorLogged(start: nat, error: Error)

  /** The producer returned by one call of `signalForJSON`: its method,
      whether a logger was given, the variable `retainedObject` that
      `retainWhileWorking` captures (`held` is "not nil"), every start so
      far, and the logger's calls in order. */
  datatype State<J> = State(httpMethod: Method, logging: bool, held: bool, runs: seq<Run<J>>, log: seq<LogCall>)

  // ---------------------------------------------------------------------
  // Steps

  /** `signalForJSON(...)`: nothing is requested yet (the producer is cold),
      but `retainWhileWorking` already holds the manager. */
  function Created<J>(m: Method, logging: bool): (s: State<J>)
    ensures s.held && s.runs == [] && s.log == []
  {
    State(m, logging, true, [], [])
  }

  /** One start: the request is issued with the method's encoding and then
      logged. The hold is left as it is. */
  function AfterStart<J>(s: State<J>): (t: State<J>)
    ensures t.httpMethod == s.httpMethod && t.logging == s.logging && t.held == s.held
    ensures |t.runs| == |s.runs| + 1 && t.runs[..|s.runs|] == s.runs
    ensures var r := t.runs[|s.runs|];
      r.encoding == EncodingFor(s.httpMethod) && r.events == [] && !r.responded && !r.disposed && r.cancels == 0
    ensures |s.log| <= |t.log| && t.log[..|s.log|] == s.log
  {
    var enc := EncodingFor(s.httpMethod);
    s.(runs := s.runs + [Run(enc, [], false, false, 0)],
       log := if s.logging then s.log + [RequestLogged(|s.runs|, enc)] else s.log)
  }

  /** One event sent to start `i`'s observer. A signal that has already
      ended ignores it. Otherwise it is recorded; a failure is logged
      (`on(failed:)`); a terminal event clears the shared hold
      (`on(terminated:)`) and disposes the start's disposable, which runs
      `request.cancel()` unless it has been disposed already. */
  function AfterSend<J>(s: State<J>, i: nat, e: Event<J>): (t: State<J>)
    requires i < |s.runs|
    ensures |t.runs| == |s.runs| && t.httpMethod == s.httpMethod && t.logging == s.logging
  {
    var r := s.runs[i];
    if Terminated(r.events) then s
    else
      var log := if s.logging && e.Failed? then s.log + [ErrorLogged(i, e.error)] else s.log;
      if IsTerminal(e) then
        s.(held := false,
           runs := s.runs[i := r.(events := r.events + [e], disposed := true,
                                  cancels := if r.disposed then r.cancels else r.cancels + 1)],
           log := log)
      else
        s.(runs := s.runs[i := r.(events := r.events + [e])], log := log)
  }

  /** Several events sent to start `i`'s observer, in order. */
  function AfterSendAll<J>(s: State<J>, i: nat, evs: seq<Event<J>>): (t: State<J>)
    requires i < |s.runs|
    ensures |t.runs| == |s.runs| && t.httpMethod == s.httpMethod && t.logging == s.logging
    decreases |evs|
  {
    if evs == [] then s else AfterSendAll(AfterSend(s, i, evs[0]), i, evs[1..])
  }

  /** The response is logged only when an HTTP response exists, whatever the result. */
  function ResponseLog<V, J>(s: State<J>, i: nat, resp: Response<V>): seq<LogCall> {
    if s.logging && resp.http.Some? then [ResponseLogged(i, resp.http.value, resp.data)] else []
  }

  /** The error log of a stream that ends in a failure. */
  function ErrorLog<J>(s: State<J>, i: nat, evs: seq<Event<J>>): seq<LogCall> {
    if s.logging && |evs| > 0 && evs[|evs| - 1].Failed? then [ErrorLogged(i, evs[|evs| - 1].error)] else []
  }

  /** The callback of a start whose signal has already ended: it is recorded,
      and `extra` is logged. */
  function Ended<J>(s: State<J>, i: nat, extra: seq<LogCall>): State<J>
    requires i < |s.runs|
  {
    s.(runs := s.runs[i := s.runs[i].(responded := true)], log := s.log + extra)
  }

  /** The callback of a live start that sends it the ending stream `evs`:
      the stream is recorded, the hold is cleared, the disposable runs
      (cancelling the request), and `extra` is logged. */
  function Delivered<J>(s: State<J>, i: nat, evs: seq<Event<J>>, extra: seq<LogCall>): State<J>
    requires i < |s.runs|
  {
    var r := s.runs[i];
    s.(held := false,
       runs := s.runs[i := r.(events := r.events + evs, responded := true, disposed := true,
                              cancels := if r.disposed then r.cancels else r.cancels + 1)],
       log := s.log + extra)
  }

  /** The `responseJSON` completion of start `i`: the response is logged;
      then, unless the signal has already ended, the classified events are
      sent and a failure among them is logged. */
  function AfterResponse<V, J>(s: State<J>, i: nat, resp: Response<V>, parse: V -> Option<J>, extract: J -> Option<Error>): (t: State<J>)
    requires i < |s.runs|
    ensures t.httpMethod == s.httpMethod && t.logging == s.logging && |t.runs| == |s.runs|
    ensures t.runs[i].responded && Terminated(t.runs[i].events) && (!Terminated(s.runs[i].events) ==> t.runs[i].disposed && !t.held)
  {
    var evs := Classify(resp.result, parse, extract);
    if Terminated(s.runs[i].events) then Ended(s, i, ResponseLog(s, i, resp))
    else Delivered(s, i, evs, ResponseLog(s, i, resp) + ErrorLog(s, i, evs))
  }

  /** A live start interrupted by its disposal: the hold is cleared and the
      request cancelled. */
  function Interrupt<J>(s: State<J>, i: nat): State<J>
    requires i < |s.runs|
  {
    var r := s.runs[i];
    s.(held := false, runs := s.runs[i := r.(events := r.events + [Interrupted], disposed := true, cancels := r.cancels + 1)])
  }

  /** Disposing start `i`: its disposable runs once, the first time. */
  function AfterDispose<J>(s: State<J>, i: nat): (t: State<J>)
    requires i < |s.runs|
    ensures t.httpMethod == s.httpMethod && t.logging == s.logging && t.log == s.log
    ensures |t.runs| == |s.runs| && forall j :: 0 <= j < |s.runs| && j != i ==> t.runs[j] == s.runs[j]
    ensures t.runs[i].disposed && t.runs[i].responded == s.runs[i].responded
    ensures !s.runs[i].disposed ==> !t.held
  {
    if s.runs[i].disposed then s else Interrupt(s, i)
  }

  // ---------------------------------------------------------------------
  // The steps, event by event

  /** A signal that has ended ignores whatever is sent to it. */
  lemma {:induction false} SendAllToEnded<J>(s: State<J>, i: nat, evs: seq<Event<J>>)
    requires i < |s.runs| && Terminated(s.runs[i].events)
    ensures AfterSendAll(s, i, evs) == s
    decreases |evs|
  {
    if evs != [] {
      SendAllToEnded(AfterSend(s, i, evs[0]), i, evs[1..]);
    }
  }

  /** Sending a lawful, ending stream to a live start that has called back,
      event by event, records exactly that stream, disposes the start,
      clears the hold, logs the failure if the stream fails, and touches no
      other start. */
  lemma {:induction false} SendAllToLive<J>(s: State<J>, i: nat, evs: seq<Event<J>>)
    requires i < |s.runs| && !Terminated(s.runs[i].events) && s.runs[i].responded
    requires Lawful(evs) && Terminated(evs)
    ensures AfterSendAll(s, i, evs) == Delivered(s, i, evs, ErrorLog(s, i, evs))
    decreases |evs|
  {
    var s1 := AfterSend(s, i, evs[0]);
    if |evs| == 1 {
      assert evs[1..] == [];
      assert IsTerminal(evs[0]);
      assert s.log + [] == s.log;
      assert s.runs[i].events + [evs[0]] == s.runs[i].events + evs;
    } else {
      assert evs[0].Next?;
      assert Lawful(evs[1..]);
      assert evs[1..][|evs[1..]| - 1] == evs[|evs| - 1];
      assert s1.runs[i].events == s.runs[i].events + [evs[0]];
      SendAllToLive(s1, i, evs[1..]);
      assert s.runs[i].events + [evs[0]] + evs[1..] == s.runs[i].events + evs;
    }
  }

  /** Sending one or two events is sending each in turn. */
  lemma SendAllShort<J>(s: State<J>, i: nat, evs: seq<Event<J>>)
    requires i < |s.runs| && 1 <= |evs| <= 2
    ensures AfterSendAll(s, i, evs) ==
      if |evs| == 1 then AfterSend(s, i, evs[0]) else AfterSend(AfterSend(s, i, evs[0]), i, evs[1])
  {
    var s1 := AfterSend(s, i, evs[0]);
    if |evs| == 1 {
      assert evs[1..] == [];
    } else {
      assert evs[1..][1..] == [];
      assert AfterSendAll(s1, i, evs[1..]) == AfterSendAll(AfterSend(s1, i, evs[1]), i, []);
    }
  }

  /** The start of the completion handler: the response is logged and the
      callback recorded, before any event is sent. */
  function Marked<V, J>(s: State<J>, i: nat, resp: Response<V>): State<J>
    requires i < |s.runs|
  {
    s.(runs := s.runs[i := s.runs[i].(responded := true)], log := s.log + ResponseLog(s, i, resp))
  }

  /** The completion handler, event by event: log the response, record the
      callback, send the classified events one at a time. That is the
      response step. */
  lemma CallbackSendsClassified<V, J>(s: State<J>, i: nat, resp: Response<V>, parse: V -> Option<J>, extract: J -> Option<Error>)
    requires i < |s.runs|
    ensures AfterSendAll(Marked(s, i, resp), i, Classify(resp.result, parse, extract)) == AfterResponse(s, i, resp, parse, extract)
  {
    var marked := Marked(s, i, resp);
    var evs := Classify(resp.result, parse, extract);
    if Terminated(s.runs[i].events) {
      SendAllToEnded(marked, i, evs);
    } else {
      SendAllToLive(marked, i, evs);
      assert ErrorLog(marked, i, evs) == ErrorLog(s, i, evs);
      assert s.log + ResponseLog(s, i, resp) + ErrorLog(s, i, evs) == s.log + (ResponseLog(s, i, resp) + ErrorLog(s, i, evs));
    }
  }

  /** Disposal, event by event: a live start is sent `Interrupted`. */
  lemma DisposalInterrupts<J>(s: State<J>, i: nat)
    requires i < |s.runs| && !Terminated(s.runs[i].events) && !s.runs[i].disposed
    ensures AfterSend(s, i, Interrupted) == AfterDispose(s, i)
  {
  }

  // ---------------------------------------------------------------------
  // The invariant

  /** The life of one start: no events before its end; then either one
      terminal event or a value and completion; the disposable is disposed
      exactly when the signal has ended, and the request was then cancelled
      once; the callback always ends a live signal; a start that ended
      before the callback was interrupted. */
  ghost predicate RunOk<J>(r: Run<J>) {
    && Lawful(r.events) && SingleShot(r.events) && |r.events| <= 2
    && (Terminated(r.events) || |r.events| == 0)
    && (r.disposed <==> Terminated(r.events))
    && r.cancels == (if r.disposed then 1 else 0)
    && (r.responded ==> Terminated(r.events))
    && (!r.responded && Terminated(r.events) ==> |r.events| == 1 && r.events[0].Interrupted?)
  }

  /** The starts, in order, whose request the log records. */
  function RequestStarts(log: seq<LogCall>): seq<nat> {
    if log == [] then []
    else RequestStarts(log[..|log| - 1]) + (if log[|log| - 1].RequestLogged? then [log[|log| - 1].start] else [])
  }

  /** 0, 1, ..., n - 1. */
  function Upto(n: nat): seq<nat> {
    if n == 0 then [] else Upto(n - 1) + [n - 1]
  }

  /** Every start is well formed and used the method's encoding. */
  ghost predicate RunsOk<J>(s: State<J>) {
    forall i :: 0 <= i < |s.runs| ==> RunOk(s.runs[i]) && s.runs[i].encoding == EncodingFor(s.httpMethod)
  }

  /** `retainedObject` is not nil exactly as long as no start has ended. */
  ghost predicate HoldOk<J>(s: State<J>) {
    s.held <==> forall i :: 0 <= i < |s.runs| ==> !Terminated(s.runs[i].events)
  }

  /** Without a logger nothing is logged, and every log call belongs to a start. */
  ghost predicate LogBounded<J>(s: State<J>) {
    && (!s.logging ==> s.log == [])
    && (forall k :: 0 <= k < |s.log| ==> s.log[k].start < |s.runs|)
  }

  /** With a logger, each start's request is logged once, in the order of
      the starts, with the method's encoding. */
  ghost predicate RequestsOk<J>(s: State<J>) {
    && (forall k :: 0 <= k < |s.log| && s.log[k].RequestLogged? ==> s.log[k].encoding == EncodingFor(s.httpMethod))
    && RequestStarts(s.log) == if s.logging then Upto(|s.runs|) else []
  }

  /** A response is logged only for a start that has called back, and at
      most once per start. */
  ghost predicate ResponsesOk<J>(s: State<J>) {
    && (forall k :: 0 <= k < |s.log| && s.log[k].ResponseLogged? ==>
          s.log[k].start < |s.runs| && s.runs[s.log[k].start].responded)
    && (forall k, k' :: 0 <= k < k' < |s.log| && s.log[k].ResponseLogged? && s.log[k'].ResponseLogged? ==>
          s.log[k].start != s.log[k'].start)
  }

  /** An error is logged for a start exactly when its signal failed with it;
      interruptions are never logged. */
  ghost predicate ErrorsOk<J>(s: State<J>) {
    forall i, e :: 0 <= i < |s.runs| ==>
      (ErrorLogged(i, e) in s.log <==> s.logging && FailsWith(s.runs[i].events, e))
  }

  /** An error is logged at most once per start. */
  ghost predicate ErrorsOnce<J>(s: State<J>) {
    forall k, k' :: 0 <= k < k' < |s.log| && s.log[k].ErrorLogged? && s.log[k'].ErrorLogged? ==>
      s.log[k].start != s.log[k'].start
  }

  ghost predicate Inv<J>(s: State<J>) {
    RunsOk(s) && HoldOk(s) && LogBounded(s) && RequestsOk(s) && ResponsesOk(s) && ErrorsOk(s) && ErrorsOnce(s)
  }

  // ---------------------------------------------------------------------
  // Facts used to keep the invariant

  lemma {:induction false} RequestStartsAppend(a: seq<LogCall>, b: seq<LogCall>)
    ensures RequestStarts(a + b) == RequestStarts(a) + RequestStarts(b)
    decreases |b|
  {
    if b == [] {
      assert a + b == a;
    } else {
      var b' := b[..|b| - 1];
      assert (a + b)[..|a + b| - 1] == a + b';
      RequestStartsAppend(a, b');
    }
  }

  lemma {:induction false} NoRequestStarts(extra: seq<LogCall>)
    requires forall k :: 0 <= k < |extra| ==> !extra[k].RequestLogged?
    ensures RequestStarts(extra) == []
    decreases |extra|
  {
    if extra != [] {
      NoRequestStarts(extra[..|extra| - 1]);
    }
  }

  /** In a lawful stream only the last event can be a failure. */
  lemma LawfulFailsWith<J>(evs: seq<Event<J>>, e: Error)
    requires Lawful(evs) && |evs| > 0
    ensures FailsWith(evs, e) <==> evs[|evs| - 1].Failed? && evs[|evs| - 1].error == e
  {
    if FailsWith(evs, e) {
      var k :| 0 <= k < |evs| && evs[k].Failed? && evs[k].error == e;
      assert k == |evs| - 1;
    }
  }

  /** `t` differs from `s` at most in start `i` and in the log calls `extra`
      appended to the log, all of them about start `i` and none a request. */
  ghost predicate Touches<J>(s: State<J>, t: State<J>, i: nat, extra: seq<LogCall>) {
    && t.httpMethod == s.httpMethod && t.logging == s.logging
    && i < |s.runs| && |t.runs| == |s.runs|
    && (forall j :: 0 <= j < |s.runs| && j != i ==> t.runs[j] == s.runs[j])
    && t.log == s.log + extra
    && AboutStart(s, i, extra)
  }

  /** Log calls a step may add for start `i`: none without a logger, and
      never a request. */
  ghost predicate AboutStart<J>(s: State<J>, i: nat, extra: seq<LogCall>) {
    && (forall k :: 0 <= k < |extra| ==> extra[k].start == i && !extra[k].RequestLogged?)
    && (!s.logging ==> extra == [])
  }

  lemma InterruptTouches<J>(s: State<J>, i: nat)
    requires i < |s.runs|
    ensures Touches(s, Interrupt(s, i), i, [])
  {
    assert s.log + [] == s.log;
  }

  lemma EndedTouches<J>(s: State<J>, i: nat, extra: seq<LogCall>)
    requires i < |s.runs| && AboutStart(s, i, extra)
    ensures Touches(s, Ended(s, i, extra), i, extra)
  {
  }

  lemma DeliveredTouches<J>(s: State<J>, i: nat, evs: seq<Event<J>>, extra: seq<LogCall>)
    requires i < |s.runs| && AboutStart(s, i, extra)
    ensures Touches(s, Delivered(s, i, evs, extra), i, extra)
  {
  }

  lemma TouchKeepsLogBounded<J>(s: State<J>, t: State<J>, i: nat, extra: seq<LogCall>)
    requires LogBounded(s) && Touches(s, t, i, extra)
    ensures LogBounded(t)
  {
    assert forall k :: |s.log| <= k < |t.log| ==> t.log[k] == extra[k - |s.log|];
  }

  /** Appending log calls that are not requests leaves the logged requests as they were. */
  lemma AppendKeepsRequestStarts(log: seq<LogCall>, extra: seq<LogCall>)
    requires forall k :: 0 <= k < |extra| ==> !extra[k].RequestLogged?
    ensures RequestStarts(log + extra) == RequestStarts(log)
  {
    RequestStartsAppend(log, extra);
    NoRequestStarts(extra);
    assert RequestStarts(log) + [] == RequestStarts(log);
  }

  /** Appending log calls that are not requests keeps every logged request's encoding. */
  lemma AppendKeepsRequestEncodings(log: seq<LogCall>, extra: seq<LogCall>, enc: Encoding)
    requires forall k :: 0 <= k < |log| && log[k].RequestLogged? ==> log[k].encoding == enc
    requires forall k :: 0 <= k < |extra| ==> !extra[k].RequestLogged?
    ensures forall k :: 0 <= k < |log + extra| && (log + extra)[k].RequestLogged? ==> (log + extra)[k].encoding == enc
  {
    forall k | 0 <= k < |log + extra| && (log + extra)[k].RequestLogged?
      ensures (log + extra)[k].encoding == enc
    {
      assert k < |log|;
      assert (log + extra)[k] == log[k];
    }
  }

  lemma TouchKeepsRequests<J>(s: State<J>, t: State<J>, i: nat, extra: seq<LogCall>)
    requires RequestsOk(s) && Touches(s, t, i, extra)
    ensures RequestsOk(t)
  {
    assert forall k :: 0 <= k < |extra| ==> !extra[k].RequestLogged?;
    AppendKeepsRequestStarts(s.log, extra);
    AppendKeepsRequestEncodings(s.log, extra, EncodingFor(s.httpMethod));
  }

  lemma TouchKeepsResponses<J>(s: State<J>, t: State<J>, i: nat, extra: seq<LogCall>)
    requires ResponsesOk(s) && LogBounded(s) && Touches(s, t, i, extra)
    requires s.runs[i].responded ==> t.runs[i].responded
    requires forall k :: 0 <= k < |extra| && extra[k].ResponseLogged? ==> t.runs[i].responded && !s.runs[i].responded
    requires forall k, k' :: 0 <= k < k' < |extra| ==> !(extra[k].ResponseLogged? && extra[k'].ResponseLogged?)
    ensures ResponsesOk(t)
  {
    var n := |s.log|;
    assert forall k :: n <= k < |t.log| ==> t.log[k] == extra[k - n];
    forall k, k' | 0 <= k < k' < |t.log| && t.log[k].ResponseLogged? && t.log[k'].ResponseLogged?
      ensures t.log[k].start != t.log[k'].start
    {
      if k' >= n {
        assert k < n;
        assert s.runs[s.log[k].start].responded;
      }
    }
  }

  lemma TouchKeepsErrors<J>(s: State<J>, t: State<J>, i: nat, extra: seq<LogCall>)
    requires ErrorsOk(s) && Touches(s, t, i, extra)
    requires forall e :: ErrorLogged(i, e) in t.log <==> t.logging && FailsWith(t.runs[i].events, e)
    ensures ErrorsOk(t)
  {
    forall j, e | 0 <= j < |t.runs| && j != i
      ensures ErrorLogged(j, e) in t.log <==> t.logging && FailsWith(t.runs[j].events, e)
    {
      assert ErrorLogged(j, e) !in extra;
      assert ErrorLogged(j, e) in t.log <==> ErrorLogged(j, e) in s.log;
    }
  }

  // ---------------------------------------------------------------------
  // Each step keeps the invariant

  lemma TouchKeepsErrorsOnce<J>(s: State<J>, t: State<J>, i: nat, extra: seq<LogCall>)
    requires ErrorsOnce(s) && Touches(s, t, i, extra)
    requires forall k :: 0 <= k < |extra| && extra[k].ErrorLogged? ==> k == |extra| - 1
    requires forall k, k' :: 0 <= k < |s.log| && 0 <= k' < |extra| && s.log[k].ErrorLogged? && extra[k'].ErrorLogged? ==>
      s.log[k].start != i
    ensures ErrorsOnce(t)
  {
    var n := |s.log|;
    assert forall k :: n <= k < |t.log| ==> t.log[k] == extra[k - n];
    forall k, k' | 0 <= k < k' < |t.log| && t.log[k].ErrorLogged? && t.log[k'].ErrorLogged?
      ensures t.log[k].start != t.log[k'].start
    {
      if k < n <= k' {
        assert extra[k' - n].start == i;
      }
    }
  }

  /** A start that has received no event has no error logged. */
  lemma NoErrorYet<J>(s: State<J>, i: nat)
    requires LogBounded(s) && ErrorsOk(s) && i < |s.runs| && |s.runs[i].events| == 0
    ensures forall k :: 0 <= k < |s.log| && s.log[k].ErrorLogged? ==> s.log[k].start != i
  {
    forall k | 0 <= k < |s.log| && s.log[k].ErrorLogged?
      ensures s.log[k].start != i
    {
      var j := s.log[k].start;
      assert s.log[k] == ErrorLogged(j, s.log[k].error);
      assert ErrorLogged(j, s.log[k].error) in s.log;
      assert FailsWith(s.runs[j].events, s.log[k].error);
    }
  }

  lemma CreatedInv<J>(m: Method, logging: bool)
    ensures Inv(Created<J>(m, logging))
  {
  }

  lemma StartKeepsRuns<J>(s: State<J>)
    requires RunsOk(s) && HoldOk(s)
    ensures RunsOk(AfterStart(s)) && HoldOk(AfterStart(s))
  {
    var t := AfterStart(s);
    assert forall j :: 0 <= j < |s.runs| ==> t.runs[j] == s.runs[j];
  }

  lemma StartKeepsLogBounded<J>(s: State<J>)
    requires LogBounded(s)
    ensures LogBounded(AfterStart(s))
  {
    var t := AfterStart(s);
    assert forall k :: 0 <= k < |s.log| ==> t.log[k] == s.log[k];
  }

  lemma StartKeepsRequests<J>(s: State<J>)
    requires RequestsOk(s)
    ensures RequestsOk(AfterStart(s))
  {
    var t := AfterStart(s);
    var n := |s.runs|;
    var enc := EncodingFor(s.httpMethod);
    if s.logging {
      assert t.log == s.log + [RequestLogged(n, enc)];
      RequestStartsAppend(s.log, [RequestLogged(n, enc)]);
      assert RequestStarts([RequestLogged(n, enc)]) == [n] by {
        assert [RequestLogged(n, enc)][..0] == [];
      }
    } else {
      assert t.log == s.log;
    }
  }

  lemma StartKeepsResponses<J>(s: State<J>)
    requires ResponsesOk(s)
    ensures ResponsesOk(AfterStart(s))
  {
    var t := AfterStart(s);
    assert forall j :: 0 <= j < |s.runs| ==> t.runs[j] == s.runs[j];
    assert forall k :: 0 <= k < |s.log| ==> t.log[k] == s.log[k];
  }

  lemma StartKeepsErrors<J>(s: State<J>)
    requires LogBounded(s) && ErrorsOk(s)
    ensures ErrorsOk(AfterStart(s))
  {
    var t := AfterStart(s);
    var n := |s.runs|;
    assert forall j :: 0 <= j < n ==> t.runs[j] == s.runs[j];
    assert forall e, k :: 0 <= k < |t.log| ==> t.log[k] != ErrorLogged(n, e);
  }

  lemma StartKeepsInv<J>(s: State<J>)
    requires Inv(s)
    ensures Inv(AfterStart(s))
  {
    StartKeepsRuns(s);
    StartKeepsLogBounded(s);
    StartKeepsRequests(s);
    StartKeepsResponses(s);
    StartKeepsErrors(s);
    StartKeepsErrorsOnce(s);
  }

  lemma StartKeepsErrorsOnce<J>(s: State<J>)
    requires ErrorsOnce(s)
    ensures ErrorsOnce(AfterStart(s))
  {
    var t := AfterStart(s);
    assert forall k :: 0 <= k < |s.log| ==> t.log[k] == s.log[k];
  }

  lemma InterruptKeepsRuns<J>(s: State<J>, i: nat)
    requires RunsOk(s) && HoldOk(s) && i < |s.runs| && !s.runs[i].disposed
    ensures RunsOk(Interrupt(s, i)) && HoldOk(Interrupt(s, i))
  {
    var t := Interrupt(s, i);
    assert |s.runs[i].events| == 0;
    assert t.runs[i].events == [Interrupted];
    assert forall j :: 0 <= j < |s.runs| && j != i ==> t.runs[j] == s.runs[j];
  }

  lemma InterruptKeepsLog<J>(s: State<J>, i: nat)
    requires LogBounded(s) && RequestsOk(s) && ResponsesOk(s)
    requires i < |s.runs|
    ensures var t := Interrupt(s, i);
      LogBounded(t) && RequestsOk(t) && ResponsesOk(t)
  {
    var t := Interrupt(s, i);
    InterruptTouches(s, i);
    assert t.runs[i].responded == s.runs[i].responded;
    TouchKeepsLogBounded(s, t, i, []);
    TouchKeepsRequests(s, t, i, []);
    TouchKeepsResponses(s, t, i, []);
  }

  lemma InterruptKeepsErrors<J>(s: State<J>, i: nat)
    requires ErrorsOk(s)
    requires i < |s.runs| && |s.runs[i].events| == 0
    ensures ErrorsOk(Interrupt(s, i))
  {
    var t := Interrupt(s, i);
    InterruptTouches(s, i);
    forall e ensures ErrorLogged(i, e) in t.log <==> t.logging && FailsWith(t.runs[i].events, e) {
      assert !FailsWith(s.runs[i].events, e);
      assert t.runs[i].events == [Interrupted];
      assert !FailsWith(t.runs[i].events, e);
    }
    TouchKeepsErrors(s, t, i, []);
  }

  lemma DisposeKeepsInv<J>(s: State<J>, i: nat)
    requires Inv(s) && i < |s.runs|
    ensures Inv(AfterDispose(s, i))
  {
    if !s.runs[i].disposed {
      assert |s.runs[i].events| == 0;
      InterruptKeepsRuns(s, i);
      InterruptKeepsLog(s, i);
      InterruptKeepsErrors(s, i);
      InterruptTouches(s, i);
      TouchKeepsErrorsOnce(s, Interrupt(s, i), i, []);
    }
  }

  lemma EndedKeepsRuns<J>(s: State<J>, i: nat, extra: seq<LogCall>)
    requires RunsOk(s) && HoldOk(s) && i < |s.runs| && Terminated(s.runs[i].events)
    ensures RunsOk(Ended(s, i, extra)) && HoldOk(Ended(s, i, extra))
  {
    var t := Ended(s, i, extra);
    assert forall j :: 0 <= j < |s.runs| ==> t.runs[j].events == s.runs[j].events;
  }

  /** `extra` is what the callback of start `i` logs. */
  ghost predicate CallbackLog<J>(s: State<J>, i: nat, extra: seq<LogCall>) {
    && AboutStart(s, i, extra)
    && (forall k :: 0 <= k < |extra| && extra[k].ResponseLogged? ==> k == 0)
    && (forall k :: 0 <= k < |extra| && extra[k].ErrorLogged? ==> k == |extra| - 1)
  }

  lemma EndedKeepsLog<J>(s: State<J>, i: nat, extra: seq<LogCall>)
    requires LogBounded(s) && RequestsOk(s) && ResponsesOk(s)
    requires i < |s.runs| && !s.runs[i].responded && CallbackLog(s, i, extra)
    ensures var t := Ended(s, i, extra);
      LogBounded(t) && RequestsOk(t) && ResponsesOk(t)
  {
    var t := Ended(s, i, extra);
    EndedTouches(s, i, extra);
    TouchKeepsLogBounded(s, t, i, extra);
    TouchKeepsRequests(s, t, i, extra);
    TouchKeepsResponses(s, t, i, extra);
  }

  lemma EndedKeepsErrors<J>(s: State<J>, i: nat, extra: seq<LogCall>)
    requires ErrorsOk(s)
    requires i < |s.runs| && AboutStart(s, i, extra) && forall e :: ErrorLogged(i, e) !in extra
    ensures ErrorsOk(Ended(s, i, extra))
  {
    var t := Ended(s, i, extra);
    EndedTouches(s, i, extra);
    TouchKeepsErrors(s, t, i, extra);
  }

  lemma DeliveredKeepsRuns<J>(s: State<J>, i: nat, evs: seq<Event<J>>, extra: seq<LogCall>)
    requires RunsOk(s) && i < |s.runs| && !s.runs[i].disposed
    requires Lawful(evs) && Terminated(evs) && SingleShot(evs) && |evs| <= 2
    ensures RunsOk(Delivered(s, i, evs, extra)) && HoldOk(Delivered(s, i, evs, extra))
  {
    var t := Delivered(s, i, evs, extra);
    assert |s.runs[i].events| == 0 && s.runs[i].cancels == 0;
    assert t.runs[i].events == evs;
    assert forall j :: 0 <= j < |s.runs| && j != i ==> t.runs[j] == s.runs[j];
  }

  lemma DeliveredKeepsLog<J>(s: State<J>, i: nat, evs: seq<Event<J>>, extra: seq<LogCall>)
    requires LogBounded(s) && RequestsOk(s) && ResponsesOk(s)
    requires i < |s.runs| && !s.runs[i].responded && CallbackLog(s, i, extra)
    ensures var t := Delivered(s, i, evs, extra);
      LogBounded(t) && RequestsOk(t) && ResponsesOk(t)
  {
    var t := Delivered(s, i, evs, extra);
    DeliveredTouches(s, i, evs, extra);
    TouchKeepsLogBounded(s, t, i, extra);
    TouchKeepsRequests(s, t, i, extra);
    TouchKeepsResponses(s, t, i, extra);
  }

  lemma DeliveredKeepsErrors<J>(s: State<J>, i: nat, evs: seq<Event<J>>, extra: seq<LogCall>)
    requires ErrorsOk(s)
    requires i < |s.runs| && |s.runs[i].events| == 0 && AboutStart(s, i, extra)
    requires forall e :: ErrorLogged(i, e) in extra <==> s.logging && FailsWith(evs, e)
    ensures ErrorsOk(Delivered(s, i, evs, extra))
  {
    var t := Delivered(s, i, evs, extra);
    assert t.runs[i].events == evs;
    DeliveredTouches(s, i, evs, extra);
    forall e ensures ErrorLogged(i, e) in t.log <==> t.logging && FailsWith(t.runs[i].events, e) {
      assert !FailsWith(s.runs[i].events, e);
    }
    TouchKeepsErrors(s, t, i, extra);
  }

  /** The callback of an ended start logs at most its response. */
  lemma EndedCallbackLog<V, J>(s: State<J>, i: nat, resp: Response<V>)
    ensures CallbackLog(s, i, ResponseLog(s, i, resp))
    ensures forall e :: ErrorLogged(i, e) !in ResponseLog(s, i, resp)
  {
  }

  /** The callback of a live start logs at most its response, then the
      error its stream fails with, if any. */
  lemma LiveCallbackLog<V, J>(s: State<J>, i: nat, resp: Response<V>, evs: seq<Event<J>>)
    requires Lawful(evs) && |evs| > 0
    ensures var extra := ResponseLog(s, i, resp) + ErrorLog(s, i, evs);
      && CallbackLog(s, i, extra)
      && forall e :: ErrorLogged(i, e) in extra <==> s.logging && FailsWith(evs, e)
  {
    var head := ResponseLog(s, i, resp);
    var extra := head + ErrorLog(s, i, evs);
    forall e ensures ErrorLogged(i, e) in extra <==> s.logging && FailsWith(evs, e) {
      LawfulFailsWith(evs, e);
      assert ErrorLogged(i, e) !in head;
    }
  }

  lemma EndedKeepsErrorLog<J>(s: State<J>, i: nat, extra: seq<LogCall>)
    requires ErrorsOk(s) && ErrorsOnce(s) && i < |s.runs|
    requires CallbackLog(s, i, extra) && forall e :: ErrorLogged(i, e) !in extra
    ensures ErrorsOk(Ended(s, i, extra)) && ErrorsOnce(Ended(s, i, extra))
  {
    EndedKeepsErrors(s, i, extra);
    EndedTouches(s, i, extra);
    TouchKeepsErrorsOnce(s, Ended(s, i, extra), i, extra);
  }

  lemma EndedKeepsInv<J>(s: State<J>, i: nat, extra: seq<LogCall>)
    requires Inv(s) && i < |s.runs| && !s.runs[i].responded && Terminated(s.runs[i].events)
    requires CallbackLog(s, i, extra) && forall e :: ErrorLogged(i, e) !in extra
    ensures Inv(Ended(s, i, extra))
  {
    EndedKeepsRuns(s, i, extra);
    EndedKeepsLog(s, i, extra);
    EndedKeepsErrorLog(s, i, extra);
  }

  lemma DeliveredKeepsErrorLog<J>(s: State<J>, i: nat, evs: seq<Event<J>>, extra: seq<LogCall>)
    requires LogBounded(s) && ErrorsOk(s) && ErrorsOnce(s)
    requires i < |s.runs| && |s.runs[i].events| == 0 && CallbackLog(s, i, extra)
    requires forall e :: ErrorLogged(i, e) in extra <==> s.logging && FailsWith(evs, e)
    ensures ErrorsOk(Delivered(s, i, evs, extra)) && ErrorsOnce(Delivered(s, i, evs, extra))
  {
    DeliveredKeepsErrors(s, i, evs, extra);
    DeliveredKeepsErrorsOnce(s, i, evs, extra);
  }

  lemma DeliveredKeepsInv<J>(s: State<J>, i: nat, evs: seq<Event<J>>, extra: seq<LogCall>)
    requires Inv(s) && i < |s.runs| && !s.runs[i].responded && !Terminated(s.runs[i].events)
    requires Lawful(evs) && Terminated(evs) && SingleShot(evs) && |evs| <= 2
    requires CallbackLog(s, i, extra) && forall e :: ErrorLogged(i, e) in extra <==> s.logging && FailsWith(evs, e)
    ensures Inv(Delivered(s, i, evs, extra))
  {
    assert RunOk(s.runs[i]);
    assert |s.runs[i].events| == 0 && !s.runs[i].disposed;
    DeliveredKeepsRuns(s, i, evs, extra);
    DeliveredKeepsLog(s, i, evs, extra);
    DeliveredKeepsErrorLog(s, i, evs, extra);
  }

  lemma DeliveredKeepsErrorsOnce<J>(s: State<J>, i: nat, evs: seq<Event<J>>, extra: seq<LogCall>)
    requires LogBounded(s) && ErrorsOk(s) && ErrorsOnce(s)
    requires i < |s.runs| && |s.runs[i].events| == 0 && CallbackLog(s, i, extra)
    ensures ErrorsOnce(Delivered(s, i, evs, extra))
  {
    NoErrorYet(s, i);
    DeliveredTouches(s, i, evs, extra);
    TouchKeepsErrorsOnce(s, Delivered(s, i, evs, extra), i, extra);
  }

  lemma RespondKeepsInv<V, J>(s: State<J>, i: nat, resp: Response<V>, parse: V -> Option<J>, extract: J -> Option<Error>)
    requires Inv(s) && i < |s.runs| && !s.runs[i].responded
    ensures Inv(AfterResponse(s, i, resp, parse, extract))
  {
    var head := ResponseLog(s, i, resp);
    if Terminated(s.runs[i].events) {
      EndedCallbackLog(s, i, resp);
      EndedKeepsInv(s, i, head);
    } else {
      var evs := Classify(resp.result, parse, extract);
      LiveCallbackLog(s, i, resp, evs);
      DeliveredKeepsInv(s, i, evs, head + ErrorLog(s, i, evs));
    }
  }

  // ---------------------------------------------------------------------
  // What the steps promise

  /** Every start ends with at most one terminal event, and has one exactly
      once its disposable has run; it cancelled its request exactly as often. */
  lemma OneTerminalPerStart<J>(s: State<J>, i: nat)
    requires Inv(s) && i < |s.runs|
    ensures TerminalCount(s.runs[i].events) == s.runs[i].cancels
    ensures s.runs[i].cancels == (if s.runs[i].disposed then 1 else 0)
  {
    LawfulTerminalCount(s.runs[i].events);
  }

  /** An interrupted start never reaches the error log. */
  lemma InterruptionNotLogged<J>(s: State<J>, i: nat, e: Error)
    requires Inv(s) && i < |s.runs| && |s.runs[i].events| > 0 && s.runs[i].events[|s.runs[i].events| - 1].Interrupted?
    ensures ErrorLogged(i, e) !in s.log
  {
    LawfulFailsWith(s.runs[i].events, e);
  }

  /** The callback of a live start delivers exactly the classified events,
      which end its signal with one terminal event; its request is cancelled
      once (by the disposal that follows termination); the shared hold is
      cleared; no other start changes. */
  lemma ResponseEndsLiveStart<V, J>(s: State<J>, i: nat, resp: Response<V>, parse: V -> Option<J>, extract: J -> Option<Error>)
    requires Inv(s) && i < |s.runs| && !s.runs[i].responded && !s.runs[i].disposed
    ensures var t := AfterResponse(s, i, resp, parse, extract);
      && t.runs[i].events == Classify(resp.result, parse, extract)
      && TerminalCount(t.runs[i].events) == 1
      && t.runs[i].cancels == 1
      && !t.held
      && |t.runs| == |s.runs| && (forall j :: 0 <= j < |s.runs| && j != i ==> t.runs[j] == s.runs[j])
  {
    ClassifyOneTerminal(resp.result, parse, extract);
    assert |s.runs[i].events| == 0;
    assert [] + Classify(resp.result, parse, extract) == Classify(resp.result, parse, extract);
  }

  /** The callback of a start that was already disposed sends nothing:
      neither its events, nor the hold, nor its cancellations change; at
      most its response is logged. */
  lemma ResponseAfterDisposal<V, J>(s: State<J>, i: nat, resp: Response<V>, parse: V -> Option<J>, extract: J -> Option<Error>)
    requires Inv(s) && i < |s.runs| && !s.runs[i].responded && s.runs[i].disposed
    ensures var t := AfterResponse(s, i, resp, parse, extract);
      && t.runs[i].events == s.runs[i].events && t.runs[i].cancels == s.runs[i].cancels
      && t.runs[i].responded
      && |t.runs| == |s.runs| && (forall j :: 0 <= j < |s.runs| && j != i ==> t.runs[j] == s.runs[j])
      && t.held == s.held
      && t.log == s.log + (if s.logging && resp.http.Some? then [ResponseLogged(i, resp.http.value, resp.data)] else [])
  {
  }

  /** Whatever the result, the callback only appends to the log, and what it
      appends is about this start: first the response, once and only when an
      HTTP response exists; then an error only when the live signal fails,
      and it is the error the signal fails with. */
  lemma ResponseLogging<V, J>(s: State<J>, i: nat, resp: Response<V>, parse: V -> Option<J>, extract: J -> Option<Error>)
    requires i < |s.runs| && RunOk(s.runs[i])
    ensures var t := AfterResponse(s, i, resp, parse, extract);
      && |s.log| <= |t.log| && t.log[..|s.log|] == s.log
      && var added := t.log[|s.log|..];
      && (forall k :: 0 <= k < |added| ==> added[k].start == i)
      && (|added| > 0 && added[0].ResponseLogged? <==> s.logging && resp.http.Some?)
      && (forall k :: 0 <= k < |added| && added[k].ResponseLogged? ==>
            k == 0 && resp.http.Some? && added[k] == ResponseLogged(i, resp.http.value, resp.data))
      && (forall e :: ErrorLogged(i, e) in added <==>
            s.logging && !s.runs[i].disposed && FailsWith(Classify(resp.result, parse, extract), e))
  {
    var evs := Classify(resp.result, parse, extract);
    var t := AfterResponse(s, i, resp, parse, extract);
    var head := ResponseLog(s, i, resp);
    var added := if Terminated(s.runs[i].events) then head else head + ErrorLog(s, i, evs);
    assert t.log == s.log + added;
    assert t.log[|s.log|..] == added;
    forall e ensures FailsWith(evs, e) <==> evs[|evs| - 1].Failed? && evs[|evs| - 1].error == e {
      LawfulFailsWith(evs, e);
    }
  }

  /** Disposing a start cancels its request exactly once: it ends the signal
      (interrupting it if it was live, logging nothing), clears the hold, and
      disposing again changes nothing. */
  lemma DisposeCancelsOnce<J>(s: State<J>, i: nat)
    requires Inv(s) && i < |s.runs|
    ensures var t := AfterDispose(s, i);
      && t.runs[i].cancels == 1 && Terminated(t.runs[i].events) && !t.held
      && t.log == s.log
      && (!s.runs[i].disposed ==> t.runs[i].events == [Interrupted])
      && (forall j :: 0 <= j < |s.runs| && j != i ==> t.runs[j] == s.runs[j])
      && AfterDispose(t, i) == t
  {
    if !s.runs[i].disposed {
      assert |s.runs[i].events| == 0;
    }
  }

  // ---------------------------------------------------------------------
  // Any sequence of starts, callbacks and disposals

  /** What can happen to the producer: a new start, the transport's callback
      for a start, or the disposal of a start. */
  datatype Action<V> = Subscribe | Callback(start: nat, response: Response<V>) | Unsubscribe(start: nat)

  /** One action. The transport calls back at most once per start, so a
      repeated callback, like an action on a start that does not exist, is
      not part of any run and changes nothing. */
  function Step<V, J>(s: State<J>, a: Action<V>, parse: V -> Option<J>, extract: J -> Option<Error>): (t: State<J>)
    ensures t.httpMethod == s.httpMethod && t.logging == s.logging
    ensures |s.runs| <= |t.runs| <= |s.runs| + 1 && (a.Subscribe? <==> |t.runs| == |s.runs| + 1)
    ensures |s.log| <= |t.log| && t.log[..|s.log|] == s.log
  {
    match a
    case Subscribe => AfterStart(s)
    case Callback(i, resp) =>
      if i < |s.runs| && !s.runs[i].responded then AfterResponse(s, i, resp, parse, extract) else s
    case Unsubscribe(i) => if i < |s.runs| then AfterDispose(s, i) else s
  }

  /** How many of `actions` start the producer. */
  function Subscriptions<V>(actions: seq<Action<V>>): nat {
    if actions == [] then 0
    else Subscriptions(actions[..|actions| - 1]) + (if actions[|actions| - 1].Subscribe? then 1 else 0)
  }

  /** The producer after `actions`, from the call of `signalForJSON` on:
      it has one run per `Subscribe` among them. */
  function Replay<V, J>(m: Method, logging: bool, actions: seq<Action<V>>, parse: V -> Option<J>, extract: J -> Option<Error>): (t: State<J>)
    ensures t.httpMethod == m && t.logging == logging
    ensures |t.runs| == Subscriptions(actions)
    decreases |actions|
  {
    if actions == [] then Created(m, logging)
    else Step(Replay(m, logging, actions[..|actions| - 1], parse, extract), actions[|actions| - 1], parse, extract)
  }

  lemma StepKeepsInv<V, J>(s: State<J>, a: Action<V>, parse: V -> Option<J>, extract: J -> Option<Error>)
    requires Inv(s)
    ensures Inv(Step(s, a, parse, extract))
  {
    match a
    case Subscribe =>
      StartKeepsInv(s);
      assert Step(s, a, parse, extract) == AfterStart(s);
    case Callback(i, resp) =>
      if i < |s.runs| && !s.runs[i].responded {
        RespondKeepsInv(s, i, resp, parse, extract);
        assert Step(s, a, parse, extract) == AfterResponse(s, i, resp, parse, extract);
      } else {
        assert Step(s, a, parse, extract) == s;
      }
    case Unsubscribe(i) =>
      if i < |s.runs| {
        DisposeKeepsInv(s, i);
        assert Step(s, a, parse, extract) == AfterDispose(s, i);
      } else {
        assert Step(s, a, parse, extract) == s;
      }
  }

  /** Every reachable state satisfies the invariant. */
  lemma {:induction false} ReplayInv<V, J>(m: Method, logging: bool, actions: seq<Action<V>>, parse: V -> Option<J>, extract: J -> Option<Error>)
    ensures Inv(Replay(m, logging, actions, parse, extract))
    decreases |actions|
  {
    if actions == [] {
      CreatedInv<J>(m, logging);
    } else {
      ReplayInv(m, logging, actions[..|actions| - 1], parse, extract);
      StepKeepsInv(Replay(m, logging, actions[..|actions| - 1], parse, extract), actions[|actions| - 1], parse, extract);
    }
  }

  /** No step takes the hold again once it has been cleared. */
  lemma StepKeepsReleased<V, J>(s: State<J>, a: Action<V>, parse: V -> Option<J>, extract: J -> Option<Error>)
    requires !s.held
    ensures !Step(s, a, parse, extract).held
  {
  }

  /** Once `retainedObject` is nil it stays nil, whatever happens next. */
  lemma {:induction false} ReleasedForever<V, J>(m: Method, logging: bool, actions: seq<Action<V>>, more: seq<Action<V>>,
                                                 parse: V -> Option<J>, extract: J -> Option<Error>)
    requires !Replay(m, logging, actions, parse, extract).held
    ensures !Replay(m, logging, actions + more, parse, extract).held
    decreases |more|
  {
    if more == [] {
      assert actions + more == actions;
    } else {
      var front := more[..|more| - 1];
      assert (actions + more)[..|actions + more| - 1] == actions + front;
      ReleasedForever(m, logging, actions, front, parse, extract);
      StepKeepsReleased(Replay(m, logging, actions + front, parse, extract), more[|more| - 1], parse, extract);
    }
  }

  /** The hold is shared by all starts of one producer: once any start has
      been disposed, every later start runs while the manager is no longer
      held. */
  lemma HoldSharedByStarts<J>(s: State<J>, i: nat)
    requires Inv(s) && i < |s.runs|
    ensures var t := AfterStart(AfterDispose(s, i));
      |t.runs| == |s.runs| + 1 && !Terminated(t.runs[|s.runs|].events) && !t.held
  {
    DisposeCancelsOnce(s, i);
  }
}
