/** What goes over the wire: a request, the response it gets, and the send boundary. */
module Wire {
  import opened Outcomes
  import opened Values

  /** One HTTP call: target URL, the `requests.Session` method name and the JSON body. */
  datatype Request = Request(url: string, verb: string, body: Value)

  /**
   * A response: status code, raw body text, and what `json.loads` makes of that text
   * (`None` when it raises `ValueError`).
   */
  datatype Response = Response(status: int, content: string, json: Option<Value>)

  /** What the network send does: return a response, or raise (the text of the exception). */
  datatype SendOutcome = Received(res: Response) | Raised(cause: string)

  const StatusOk := 200
  const StatusNotFound := 404
  const StatusTooMany := 429
  const StatusServiceUnavailable := 503
}

/** The exception classes of boompy/errors.py, and the Python built-ins the library can raise. */
module Errors {
  import opened Outcomes
  import opened Values
  import opened Wire

  datatype Exception =
    | BoomiError(detail: string)
    | UnauthorizedError(detail: string)
    | InterfaceError(arg: string)
    | APIRequestError(message: string)
    | NotFoundError(message: string)
    | RateLimitError(message: string)
    | APIMethodNotAllowedError(verb: string)
    | NameError(name: string)
    | AttributeError(message: string)
    | ValueError(message: string)
    | TypeError(message: string)

  datatype ErrorClass =
    | ExceptionClass
    | BoomiErrorClass
    | UnauthorizedErrorClass
    | InterfaceErrorClass
    | APIRequestErrorClass
    | NotFoundErrorClass
    | RateLimitErrorClass
    | APIMethodNotAllowedErrorClass
    | NameErrorClass
    | AttributeErrorClass
    | ValueErrorClass
    | TypeErrorClass

  /** The declared base class of each class. */
  function Parent(c: ErrorClass): Option<ErrorClass> {
    match c
    case ExceptionClass => None
    case BoomiErrorClass => Some(ExceptionClass)
    case UnauthorizedErrorClass => Some(BoomiErrorClass)
    case InterfaceErrorClass => Some(BoomiErrorClass)
    case APIRequestErrorClass => Some(BoomiErrorClass)
    case NotFoundErrorClass => Some(APIRequestErrorClass)
    case RateLimitErrorClass => Some(APIRequestErrorClass)
    case APIMethodNotAllowedErrorClass => Some(BoomiErrorClass)
    case NameErrorClass => Some(ExceptionClass)
    case AttributeErrorClass => Some(ExceptionClass)
    case ValueErrorClass => Some(ExceptionClass)
    case TypeErrorClass => Some(ExceptionClass)
  }

  /** Distance from the root of the hierarchy. */
  function Depth(c: ErrorClass): nat {
    match c
    case ExceptionClass => 0
    case BoomiErrorClass | NameErrorClass | AttributeErrorClass | ValueErrorClass | TypeErrorClass => 1
    case NotFoundErrorClass | RateLimitErrorClass => 3
    case _ => 2
  }

  /** Python's `issubclass(c, d)`: `d` is `c` or one of its ancestors. */
  predicate IsSubclass(c: ErrorClass, d: ErrorClass)
    decreases Depth(c)
  {
    c == d || (Parent(c).Some? && IsSubclass(Parent(c).value, d))
  }

  function ClassOf(e: Exception): ErrorClass {
    match e
    case BoomiError(_) => BoomiErrorClass
    case UnauthorizedError(_) => UnauthorizedErrorClass
    case InterfaceError(_) => InterfaceErrorClass
    case APIRequestError(_) => APIRequestErrorClass
    case NotFoundError(_) => NotFoundErrorClass
    case RateLimitError(_) => RateLimitErrorClass
    case APIMethodNotAllowedError(_) => APIMethodNotAllowedErrorClass
    case NameError(_) => NameErrorClass
    case AttributeError(_) => AttributeErrorClass
    case ValueError(_) => ValueErrorClass
    case TypeError(_) => TypeErrorClass
  }

  /** Python's `isinstance(e, c)`, which is what an `except c:` clause tests. */
  predicate IsInstance(e: Exception, c: ErrorClass) {
    IsSubclass(ClassOf(e), c)
  }

  /** `issubclass` is transitive. */
  lemma {:induction false} SubclassTransitive(a: ErrorClass, b: ErrorClass, c: ErrorClass)
    requires IsSubclass(a, b) && IsSubclass(b, c)
    ensures IsSubclass(a, c)
    decreases Depth(a)
  {
    if a != b {
      SubclassTransitive(Parent(a).value, b, c);
    }
  }

  /** The library's own exceptions are exactly the instances of BoomiError. */
  lemma LibraryErrorsAreBoomiErrors(e: Exception)
    ensures IsInstance(e, BoomiErrorClass)
        <==> !(e.NameError? || e.AttributeError? || e.ValueError? || e.TypeError?)
  {
  }

  /** NotFoundError and RateLimitError are the only proper subclasses of APIRequestError. */
  lemma RequestErrorFamily(e: Exception)
    ensures IsInstance(e, APIRequestErrorClass)
        <==> e.APIRequestError? || e.NotFoundError? || e.RateLimitError?
  {
  }

  const InterfaceSuffix := " is not allowed for this method on this object type"
  const NotAllowedPrefix := "Sorry, "
  const NotAllowedSuffix := " is not allowed on this type"

  /** The exception's `message` attribute. */
  function Message(e: Exception): string {
    match e
    case BoomiError(d) => d
    case UnauthorizedError(d) => d
    case InterfaceError(arg) => arg + InterfaceSuffix
    case APIRequestError(m) => m
    case NotFoundError(m) => m
    case RateLimitError(m) => m
    case APIMethodNotAllowedError(verb) => NotAllowedPrefix + verb + NotAllowedSuffix
    case NameError(name) => "global name '" + name + "' is not defined"
    case AttributeError(m) => m
    case ValueError(m) => m
    case TypeError(m) => m
  }

  /** The method-not-allowed message names the attempted method, and determines it. */
  lemma NotAllowedMessageNamesMethod(m1: string, m2: string)
    ensures var msg := Message(APIMethodNotAllowedError(m1));
      |msg| == |m1| + 35 && msg[7..7 + |m1|] == m1
    ensures Message(APIMethodNotAllowedError(m1)) == Message(APIMethodNotAllowedError(m2)) ==> m1 == m2
  {
    var a, b := Message(APIMethodNotAllowedError(m1)), Message(APIMethodNotAllowedError(m2));
    assert a[7..7 + |m1|] == m1;
    if a == b {
      assert |m1| == |m2|;
      assert b[7..7 + |m2|] == m2;
    }
  }

  /** The interface-error message starts with the rejected argument, and determines it. */
  lemma InterfaceMessageNamesArgument(a1: string, a2: string)
    ensures var msg := Message(InterfaceError(a1));
      |msg| == |a1| + |InterfaceSuffix| && msg[..|a1|] == a1
    ensures Message(InterfaceError(a1)) == Message(InterfaceError(a2)) ==> a1 == a2
  {
    var a, b := Message(InterfaceError(a1)), Message(InterfaceError(a2));
    assert a[..|a1|] == a1;
    if a == b {
      assert |a1| == |a2|;
      assert b[..|a2|] == a2;
    }
  }

  /**
   * The message an `APIRequestError(res)` is built with: `"<status>: <message>"`, where
   * `<message>` is the body's `message` field when the body is JSON, else the raw body.
   * A JSON body that is not an object makes `.get` raise AttributeError instead.
   */
  function RequestMessage(res: Response): (r: Result<string, Exception>)
    ensures res.json.None? ==> r == Ok(IntToString(res.status) + ": " + res.content)
    ensures res.json.Some? && res.json.value.Object?
      ==> r == Ok(IntToString(res.status) + ": " + Render(Get(res.json.value.fields, "message")))
    ensures r.Err? <==> res.json.Some? && !res.json.value.Object?
  {
    match res.json
    case None => Ok(IntToString(res.status) + ": " + res.content)
    case Some(v) =>
      if v.Object? then Ok(IntToString(res.status) + ": " + Render(Get(v.fields, "message")))
      else Err(AttributeError("'" + TypeName(v) + "' object has no attribute 'get'"))
  }

  /** The classes built from a response: APIRequestError and its two subclasses. */
  predicate IsRequestErrorClass(c: ErrorClass) {
    c == APIRequestErrorClass || c == NotFoundErrorClass || c == RateLimitErrorClass
  }

  /** `raise C(res)` for one of the request-error classes: what actually propagates. */
  function RaiseFromResponse(c: ErrorClass, res: Response): (e: Exception)
    requires IsRequestErrorClass(c)
    ensures RequestMessage(res).Ok? ==> ClassOf(e) == c && Message(e) == RequestMessage(res).value
    ensures RequestMessage(res).Err? ==> e == RequestMessage(res).error
  {
    match RequestMessage(res)
    case Err(failure) => failure
    case Ok(m) =>
      if c == NotFoundErrorClass then NotFoundError(m)
      else if c == RateLimitErrorClass then RateLimitError(m)
      else APIRequestError(m)
  }

  /** A body in Python's dict notation rather than JSON. */
  const DictNotationBody := "{'message': 'testing'}"

  /** That body is not JSON, so a 404 carrying it reports the raw body after the status. */
  lemma NonJsonBodyIsReportedRaw()
    ensures RaiseFromResponse(NotFoundErrorClass, Response(404, DictNotationBody, None))
         == NotFoundError("404: " + DictNotationBody)
  {
    StatusText404();
    assert "404" + ": " == "404: ";
  }

  lemma StatusText404()
    ensures IntToString(404) == "404"
  {
    assert NatToString(4) == "4";
    assert NatToString(40) == "4" + "0";
    assert NatToString(404) == "40" + "4";
  }
}
