/** `Manager.signalForJSON`, pure part: the choice of parameter encoding and
    the classification of the transport's one terminal outcome into the
    events the returned signal emits. */
module SignalForJSON {
  import opened Wrappers
  import opened Foundation
  import opened Signal

  /** `Alamofire.Method`. */
  datatype Method = OPTIONS | GET | HEAD | POST | PUT | PATCH | DELETE | TRACE | CONNECT

  /** The two cases of Alamofire's `ParameterEncoding` this adapter uses. */
  datatype Encoding = URL | JSON

  /** Alamofire's `Result<AnyObject, NSError>` for a JSON response. */
  datatype TransportResult<V> = Success(value: V) | Failure(error: Error)

  /** What `responseJSON` hands to its completion: the HTTP response if one
      arrived, the raw body, and the result. */
  datatype Response<V> = Response(http: Option<HttpResponse>, data: Option<seq<bv8>>, result: TransportResult<V>)

  /** The error domain of YoutubeEngine. */
  const YoutubeErrorDomain: string := "YoutubeErrorDomain"

  /** The fixed error for a body that is not JSON: domain YoutubeErrorDomain,
      code 1, no user info. */
  const DecodeError: Error := Error(YoutubeErrorDomain, 1, None)

  /** Only GET sends its parameters in the URL; every other method sends them
      as a JSON body. */
  function EncodingFor(m: Method): (e: Encoding)
    ensures e == URL <==> m == GET
    ensures e == JSON <==> m != GET
  {
    if m == GET then URL else JSON
  }

  /** HEAD, OPTIONS and DELETE carry no body by convention, yet they are given
      the JSON body encoding: the ternary checks only for GET. */
  lemma BodilessMethodsUseJSON()
    ensures EncodingFor(HEAD) == JSON && EncodingFor(OPTIONS) == JSON && EncodingFor(DELETE) == JSON
  {
  }

  /** The events the completion handler sends for one transport outcome.
      `parse` is SwiftyJSON's `JSON(rawValue:)` and `extract` is
      `NSError.errorWithJSON`, both foreign. Every outcome yields a lawful
      stream that ends, in one or two events, with a value only directly
      before `Completed`. */
  function Classify<V, J>(result: TransportResult<V>, parse: V -> Option<J>, extract: J -> Option<Error>): (r: seq<Event<J>>)
    ensures Lawful(r) && Terminated(r) && SingleShot(r)
    ensures 1 <= |r| <= 2
  {
    match result
    case Success(value) =>
      (match parse(value)
       case None => [Failed(DecodeError)]
       case Some(json) =>
         (match extract(json)
          case Some(error) => [Failed(error)]
          case None => [Next(json), Completed]))
    case Failure(error) =>
      if IsCancellation(error) then [Interrupted] else [Failed(error)]
  }

  /** Exactly one terminal event per outcome. */
  lemma ClassifyOneTerminal<V, J>(result: TransportResult<V>, parse: V -> Option<J>, extract: J -> Option<Error>)
    ensures TerminalCount(Classify(result, parse, extract)) == 1
  {
    LawfulTerminalCount(Classify(result, parse, extract));
  }

  /** A cancelled request interrupts the signal and never fails it. */
  lemma CancellationInterrupts<V, J>(error: Error, parse: V -> Option<J>, extract: J -> Option<Error>)
    requires IsCancellation(error)
    ensures Classify(Failure(error), parse, extract) == [Interrupted]
    ensures forall e :: !FailsWith(Classify(Failure(error), parse, extract), e)
  {
  }

  /** Any other transport failure fails the signal with that very error. */
  lemma TransportErrorPassesThrough<V, J>(error: Error, parse: V -> Option<J>, extract: J -> Option<Error>)
    requires !IsCancellation(error)
    ensures Classify(Failure(error), parse, extract) == [Failed(error)]
  {
  }

  /** A body that is not JSON fails with the fixed DecodeError, whatever the
      body was and whatever `extract` would say; no value is sent. */
  lemma UnparsableBodyIsDecodeError<V, J>(body: V, parse: V -> Option<J>, extract: J -> Option<Error>)
    requires parse(body).None?
    ensures Classify(Success(body), parse, extract) == [Failed(DecodeError)]
    ensures forall other: V, extract': J -> Option<Error> | parse(other).None? ::
      Classify(Success(other), parse, extract') == Classify(Success(body), parse, extract)
  {
  }

  /** JSON carrying an API error fails with the extracted error; no value is sent. */
  lemma EmbeddedErrorFails<V, J>(body: V, parse: V -> Option<J>, extract: J -> Option<Error>)
    requires parse(body).Some? && extract(parse(body).value).Some?
    ensures Classify(Success(body), parse, extract) == [Failed(extract(parse(body).value).value)]
  {
  }

  /** JSON with no API error is sent as the one value, then completion. */
  lemma CleanJSONIsSent<V, J>(body: V, parse: V -> Option<J>, extract: J -> Option<Error>)
    requires parse(body).Some? && extract(parse(body).value).None?
    ensures Classify(Success(body), parse, extract) == [Next(parse(body).value), Completed]
  {
  }

  /** The signal is interrupted exactly when the transport reports the
      cancellation error. */
  lemma InterruptedIffCancelled<V, J>(result: TransportResult<V>, parse: V -> Option<J>, extract: J -> Option<Error>)
    ensures Interrupted in Classify(result, parse, extract) <==> result.Failure? && IsCancellation(result.error)
  {
    var r := Classify(result, parse, extract);
    if !(result.Failure? && IsCancellation(result.error)) {
      forall k | 0 <= k < |r| ensures r[k] != Interrupted {
        assert k == |r| - 1 || r[k].Next?;
      }
    }
  }

  /** A value is sent exactly when the body parses and carries no API error,
      and every value sent is the parsed JSON. */
  lemma NextIffCleanJSON<V, J>(result: TransportResult<V>, parse: V -> Option<J>, extract: J -> Option<Error>)
    ensures (exists k :: 0 <= k < |Classify(result, parse, extract)| && Classify(result, parse, extract)[k].Next?) <==>
      result.Success? && parse(result.value).Some? && extract(parse(result.value).value).None?
    ensures forall k :: 0 <= k < |Classify(result, parse, extract)| && Classify(result, parse, extract)[k].Next? ==>
      Classify(result, parse, extract)[k].value == parse(result.value).value
  {
    var r := Classify(result, parse, extract);
    if result.Success? && parse(result.value).Some? && extract(parse(result.value).value).None? {
      assert r[0].Next?;
    }
  }

  /** The signal fails with `e` exactly in the three failing cases, each with
      its own error. */
  lemma FailsIff<V, J>(result: TransportResult<V>, parse: V -> Option<J>, extract: J -> Option<Error>, e: Error)
    ensures FailsWith(Classify(result, parse, extract), e) <==>
      match result
      case Failure(error) => !IsCancellation(error) && e == error
      case Success(body) =>
        (match parse(body)
         case None => e == DecodeError
         case Some(json) => extract(json) == Some(e))
  {
    var r := Classify(result, parse, extract);
    if FailsWith(r, e) {
      var k :| 0 <= k < |r| && r[k].Failed? && r[k].error == e;
      assert k == 0;
    } else {
      assert !(r[0].Failed? && r[0].error == e);
    }
  }
}
