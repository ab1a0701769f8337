/** The HTTP error interceptor (`errorInterceptor`, `handleError`,
    `logValidationErrors`): it classifies a failed HTTP response, records the
    `logError` calls it makes, in order, as a trace, and passes the original
    error on unchanged. */
module ErrorInterceptor {
  import opened Strings
  import opened ErrorLogging

  /** `error.error.errors` of a server-side error body. */
  datatype ErrorsField =
    | NoErrors                   // absent or falsy
    | NotAnArray                 // truthy, but not an array
    | Items(items: seq<string>)  // an array of messages

  /** `error.error`: a client-side `ErrorEvent` or a server body. */
  datatype Payload = ClientEvent(eventMessage: string) | ServerBody(errors: ErrorsField)

  /** The fields of an `HttpErrorResponse` that the interceptor reads. */
  datatype HttpError = HttpError(url: Option<string>, status: nat, statusText: string,
                                 message: string, error: Payload)

  /** `errorDetails`; `timestamp` is the time of handling as ISO text. */
  datatype Details = Details(url: Option<string>, status: nat, statusText: string, timestamp: string)

  /** One `errorLoggingService.logError(level, message, details)` call. */
  datatype LogCall = LogCall(level: Level, message: string, details: Details)

  /** The outcome of the intercepted request. */
  datatype Response<T> = Delivered(value: T) | Failed(error: HttpError)

  /** The level of a server-side error: warnings for 4xx, errors otherwise. */
  function ServerLevel(status: nat): (level: Level)
    ensures level == Warn <==> 400 <= status < 500
    ensures level != Warn ==> level == Error
  {
    var level := Error;
    if status >= 500 then Error
    else if status >= 400 then Warn
    else level
  }

  /** The message of a server-side error: the response's own message, or a
      text built from the status when that message is empty. */
  function ServerMessage(e: HttpError): (m: string)
    ensures e.message != "" ==> m == e.message
    ensures e.message == "" ==> m == "HTTP Error " + NatToString(e.status) + ": " + e.statusText
  {
    if e.message != "" then e.message
    else "HTTP Error " + NatToString(e.status) + ": " + e.statusText
  }

  function DetailsOf(e: HttpError, now: string): Details {
    Details(e.url, e.status, e.statusText, now)
  }

  /** The messages `logValidationErrors` logs one by one: only an array yields any. */
  function ValidationItems(p: Payload): (items: seq<string>)
    ensures items != [] ==> p.ServerBody? && p.errors.Items?
    ensures p.ServerBody? && p.errors.Items? ==> items == p.errors.items
  {
    if p.ServerBody? && p.errors.Items? then p.errors.items else []
  }

  /** The log calls `handleError` makes. A client-side error is logged once at
      level error. A server-side error is logged, then each validation message
      at the same level, then the main error once more. */
  method HandleError(e: HttpError, now: string) returns (calls: seq<LogCall>)
    ensures e.error.ClientEvent? ==> calls == [LogCall(Error, e.error.eventMessage, DetailsOf(e, now))]
    ensures e.error.ServerBody? ==>
      var main := LogCall(ServerLevel(e.status), ServerMessage(e), DetailsOf(e, now));
      var items := ValidationItems(e.error);
      && |calls| == 2 + |items|
      && calls[0] == main && calls[|calls| - 1] == main
      && forall k :: 0 <= k < |items| ==> calls[1 + k] == LogCall(main.level, items[k], main.details)
  {
    var message := "An unknown error occurred";
    var level := Error;
    var details := DetailsOf(e, now);
    calls := [];
    if e.error.ClientEvent? {
      message := e.error.eventMessage;
      level := Error;
    } else {
      message := ServerMessage(e);
      if e.status >= 500 {
        level := Error;
      } else if e.status >= 400 {
        level := Warn;
      }
      calls := calls + [LogCall(level, message, details)];
      if !e.error.errors.NoErrors? {
        calls := LogValidationErrors(e.error.errors, level, details, calls);
      }
    }
    calls := calls + [LogCall(level, message, details)];
  }

  /** `logValidationErrors`: appends one call per message of an array. */
  method LogValidationErrors(errors: ErrorsField, level: Level, details: Details, before: seq<LogCall>)
    returns (calls: seq<LogCall>)
    ensures !errors.Items? ==> calls == before
    ensures errors.Items? ==>
      && |calls| == |before| + |errors.items|
      && calls[..|before|] == before
      && forall k :: 0 <= k < |errors.items| ==> calls[|before| + k] == LogCall(level, errors.items[k], details)
  {
    calls := before;
    if errors.Items? {
      var items := errors.items;
      var k := 0;
      while k < |items|
        invariant 0 <= k <= |items|
        invariant |calls| == |before| + k
        invariant calls[..|before|] == before
        invariant forall j :: 0 <= j < k ==> calls[|before| + j] == LogCall(level, items[j], details)
      {
        calls := calls + [LogCall(level, items[k], details)];
        k := k + 1;
      }
    }
  }

  /** `errorInterceptor`: a delivered response passes untouched with no log
      call; a failure is handled and the same error is re-thrown. */
  method Intercept<T>(response: Response<T>, now: string) returns (result: Response<T>, calls: seq<LogCall>)
    ensures result == response
    ensures response.Delivered? ==> calls == []
    ensures response.Failed? && response.error.error.ClientEvent? ==>
      calls == [LogCall(Error, response.error.error.eventMessage, DetailsOf(response.error, now))]
    ensures response.Failed? && response.error.error.ServerBody? ==>
      var e := response.error;
      var main := LogCall(ServerLevel(e.status), ServerMessage(e), DetailsOf(e, now));
      var items := ValidationItems(e.error);
      && |calls| == 2 + |items|
      && calls[0] == main && calls[|calls| - 1] == main
      && forall k :: 0 <= k < |items| ==> calls[1 + k] == LogCall(main.level, items[k], main.details)
  {
    calls := [];
    if response.Failed? {
      calls := HandleError(response.error, now);
    }
    result := response;
  }
}
