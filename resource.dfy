/**
 * Resource instances and the requests they make (boompy/resource.py): construction,
 * `serialize`, `url`, applying a response, and `get`, `query`, `save` and `delete`.
 */
module Resource {
  import opened Outcomes
  import opened Values
  import opened Wire
  import opened Errors
  import opened Transport
  import opened Filters
  import opened ResourceTypes
  import opened Gateway

  /** An instance's attributes: exactly one value per declared attribute. */
  predicate Complete(t: ResourceType, attrs: map<string, Value>) {
    attrs.Keys == Declared(t)
  }

  /** `Resource.__init__(**kwargs)`: declared attributes take the supplied value, or None. */
  function InitialAttrs(t: ResourceType, kwargs: map<string, Value>): (attrs: map<string, Value>)
    ensures Complete(t, attrs)
    ensures forall a :: a in Declared(t) && a in kwargs ==> attrs[a] == kwargs[a]
    ensures forall a :: a in Declared(t) && a !in kwargs ==> attrs[a] == Null
  {
    map a | a in Declared(t) :: Values.Get(kwargs, a)
  }

  /** Undeclared keyword arguments are ignored. */
  lemma UndeclaredKeysIgnored(t: ResourceType, kwargs: map<string, Value>, k: string, v: Value)
    requires k !in Declared(t)
    ensures InitialAttrs(t, kwargs[k := v]) == InitialAttrs(t, kwargs)
  {
    var a, b := InitialAttrs(t, kwargs[k := v]), InitialAttrs(t, kwargs);
    assert forall x :: x in a ==> a[x] == b[x];
  }

  /** `serialize()`: the declared attributes whose value is not None. */
  function SerializeAttrs(t: ResourceType, attrs: map<string, Value>): (m: map<string, Value>)
    ensures m.Keys <= Declared(t)
    ensures forall a :: a in m ==> a in attrs && m[a] == attrs[a] && m[a] != Null
    ensures forall a :: a in Declared(t) && a in attrs && attrs[a] != Null ==> a in m
  {
    map a | a in Declared(t) && a in attrs && attrs[a] != Null :: attrs[a]
  }

  /** A fresh instance serialises to exactly the declared, non-None keyword arguments. */
  lemma SerializeFresh(t: ResourceType, kwargs: map<string, Value>)
    ensures SerializeAttrs(t, InitialAttrs(t, kwargs))
         == map a | a in kwargs && a in Declared(t) && kwargs[a] != Null :: kwargs[a]
  {
    var lhs := SerializeAttrs(t, InitialAttrs(t, kwargs));
    var rhs := map a | a in kwargs && a in Declared(t) && kwargs[a] != Null :: kwargs[a];
    assert lhs.Keys == rhs.Keys;
  }

  /**
   * Reading a payload into the declared attributes: `payload.get(attr)` for each, so a
   * missing key becomes None. A payload that is not an object has no `get`.
   */
  function PayloadAttrs(t: ResourceType, v: Value): (r: Result<map<string, Value>, Exception>)
    ensures r.Ok? <==> v.Object? || t.attributes == []
    ensures r.Ok? ==> Complete(t, r.value)
    ensures v.Object? ==> forall a :: a in Declared(t) ==> r.value[a] == Values.Get(v.fields, a)
    ensures r.Err? ==> r.error == AttributeError("'" + TypeName(v) + "' object has no attribute 'get'")
  {
    if v.Object? then Ok(map a | a in Declared(t) :: Values.Get(v.fields, a))
    else if t.attributes == [] then Ok(map[])
    else Err(AttributeError("'" + TypeName(v) + "' object has no attribute 'get'"))
  }

  /** A payload echoing `serialize()` gives the instance back its attributes: the round trip. */
  lemma SerializeRoundTrip(t: ResourceType, attrs: map<string, Value>)
    requires Complete(t, attrs)
    ensures PayloadAttrs(t, Object(SerializeAttrs(t, attrs))) == Ok(attrs)
  {
    var sent := SerializeAttrs(t, attrs);
    var back := PayloadAttrs(t, Object(sent)).value;
    forall a | a in back
      ensures back[a] == attrs[a]
    {
      if attrs[a] == Null {
        assert a !in sent;
      }
    }
    assert back.Keys == attrs.Keys;
    assert back == attrs;
  }

  /** `__update_attrs_from_response`: decode the body (ValueError if it is not JSON), then read it. */
  function ResponseAttrs(t: ResourceType, res: Response): (r: Result<map<string, Value>, Exception>)
    ensures res.json.None? ==> r == Err(ValueError("No JSON object could be decoded"))
    ensures res.json.Some? ==> r == PayloadAttrs(t, res.json.value)
  {
    if res.json.None? then Err(ValueError("No JSON object could be decoded")) else PayloadAttrs(t, res.json.value)
  }

  /** `getattr(self, self._id_attr)`. */
  function Identity(t: ResourceType, attrs: map<string, Value>): (r: Result<Value, Exception>)
    ensures Complete(t, attrs) && t.idAttr in t.attributes ==> r == Ok(attrs[t.idAttr])
  {
    if t.idAttr in attrs then Ok(attrs[t.idAttr])
    else Err(AttributeError("'" + t.name + "' object has no attribute '" + t.idAttr + "'"))
  }

  /** `__base_url()` (and, with `partner`, Account's variant): `<base>/<uri>`. */
  function CollectionUrl(t: ResourceType, gs: GatewayState, partner: bool): (r: Result<string, Exception>)
    ensures GatewayBaseUrl(gs, partner).Ok? <==> r.Ok?
    ensures r.Ok? ==> r.value == GatewayBaseUrl(gs, partner).value + "/" + t.uri
  {
    match GatewayBaseUrl(gs, partner)
    case Err(e) => Err(e)
    case Ok(base) => Ok(base + "/" + t.uri)
  }

  /**
   * `url(boomi_id)`: with no identity and no explicit id, the collection URL (for Account,
   * under the partner base); otherwise `<base>/<uri>/<id>`, the explicit id winning.
   */
  function UrlOf(t: ResourceType, attrs: map<string, Value>, gs: GatewayState, boomiId: Value): (r: Result<string, Exception>)
  {
    match Identity(t, attrs)
    case Err(e) => Err(e)
    case Ok(own) =>
      if own == Null && boomiId == Null then CollectionUrl(t, gs, t.urlRule == PartnerCollectionWhenNew)
      else
        match CollectionUrl(t, gs, false)
        case Err(e) => Err(e)
        case Ok(collection) => Ok(collection + "/" + Render(if boomiId == Null then own else boomiId))
  }

  /** The two URL shapes: collection when nothing identifies the instance, item URL otherwise. */
  lemma UrlShapes(t: ResourceType, attrs: map<string, Value>, gs: GatewayState, boomiId: Value)
    requires Complete(t, attrs) && t.idAttr in t.attributes && GatewayBaseUrl(gs, false).Ok?
    ensures var base := GatewayBaseUrl(gs, false).value;
      (attrs[t.idAttr] == Null && boomiId == Null && t.urlRule == StandardUrl)
        ==> UrlOf(t, attrs, gs, boomiId) == Ok(base + "/" + t.uri)
    ensures var base := GatewayBaseUrl(gs, false).value;
      boomiId != Null ==> UrlOf(t, attrs, gs, boomiId) == Ok(base + "/" + t.uri + "/" + Render(boomiId))
    ensures var base := GatewayBaseUrl(gs, false).value;
      (attrs[t.idAttr] != Null && boomiId == Null)
        ==> UrlOf(t, attrs, gs, boomiId) == Ok(base + "/" + t.uri + "/" + Render(attrs[t.idAttr]))
  {
  }

  /** Account: a new instance with no explicit id is addressed under the partner base. */
  lemma NewAccountUsesPartnerBase(t: ResourceType, attrs: map<string, Value>, gs: GatewayState)
    requires t.urlRule == PartnerCollectionWhenNew && Complete(t, attrs) && t.idAttr in t.attributes
    requires attrs[t.idAttr] == Null && GatewayBaseUrl(gs, true).Ok?
    ensures UrlOf(t, attrs, gs, Null).Ok?
    ensures IsPartnerUrl(UrlOf(t, attrs, gs, Null).value)
    ensures UrlOf(t, attrs, gs, Null).value == GatewayBaseUrl(gs, true).value + "/" + t.uri
  {
    var base := GatewayBaseUrl(gs, true).value;
    assert base <= base + "/" + t.uri;
  }

  /** `__https_request` behind `perm_check`: refused without sending, or passed to the gateway. */
  function Dispatch(t: ResourceType, gs: GatewayState, url: string, verb: string, data: Value, send: Request -> SendOutcome)
    : (out: (Result<Response, Exception>, seq<Request>))
    ensures PermCheck(t, url, verb).Some? ==> out == (Err(APIMethodNotAllowedError(verb)), [])
    ensures PermCheck(t, url, verb).None? ==> out == GatewayExchange(gs, url, verb, data, send)
  {
    match PermCheck(t, url, verb)
    case Some(e) => (Err(e), [])
    case None => GatewayExchange(gs, url, verb, data, send)
  }

  /**
   * `cls.get(boomi_id)`: the new instance's attributes (or what was raised) and what was
   * sent. A fresh instance's `url(boomi_id)` is asked for with an empty body; when
   * `perm_check` lets it through, the gateway's answer is read into the attributes.
   */
  function GetOutcome(t: ResourceType, gs: GatewayState, boomiId: Value, send: Request -> SendOutcome)
    : (out: (Result<map<string, Value>, Exception>, seq<Request>))
    ensures UrlOf(t, InitialAttrs(t, map[]), gs, boomiId).Err?
      ==> out == (Err(UrlOf(t, InitialAttrs(t, map[]), gs, boomiId).error), [])
    ensures UrlOf(t, InitialAttrs(t, map[]), gs, boomiId).Ok?
      && PermCheck(t, UrlOf(t, InitialAttrs(t, map[]), gs, boomiId).value, "get").Some?
      ==> out == (Err(APIMethodNotAllowedError("get")), [])
    ensures out.0.Ok? ==> Complete(t, out.0.value)
  {
    match UrlOf(t, InitialAttrs(t, map[]), gs, boomiId)
    case Err(e) => (Err(e), [])
    case Ok(url) =>
      var (res, sent) := Dispatch(t, gs, url, "get", Object(map[]), send);
      match res
      case Err(e) => (Err(e), sent)
      case Ok(response) => (ResponseAttrs(t, response), sent)
  }

  /**
   * A permitted `get` makes exactly the gateway's exchange for `url(boomi_id)` with the
   * body `{}`: it fails as the exchange fails, and otherwise the instance's attributes are
   * what the reply's JSON gives.
   */
  lemma GetSendsAndReads(t: ResourceType, gs: GatewayState, boomiId: Value, send: Request -> SendOutcome)
    requires UrlOf(t, InitialAttrs(t, map[]), gs, boomiId).Ok?
    requires PermCheck(t, UrlOf(t, InitialAttrs(t, map[]), gs, boomiId).value, "get").None?
    ensures var x := GatewayExchange(gs, UrlOf(t, InitialAttrs(t, map[]), gs, boomiId).value, "get", Object(map[]), send);
      var out := GetOutcome(t, gs, boomiId, send);
      out.1 == x.1
      && (x.0.Err? ==> out.0 == Err(x.0.error))
      && (x.0.Ok? ==> out.0 == ResponseAttrs(t, x.0.value))
  {
  }

  /** A type that does not permit `get` refuses before sending, whatever the id. */
  lemma GetRefusedWithoutPermission(t: ResourceType, gs: GatewayState, boomiId: Value, send: Request -> SendOutcome)
    requires !Permits(t.supported, "get")
    requires UrlOf(t, InitialAttrs(t, map[]), gs, boomiId).Ok?
    requires var u := UrlOf(t, InitialAttrs(t, map[]), gs, boomiId).value;
      !Contains(u, "update") && !Contains(u, "query")
    ensures GetOutcome(t, gs, boomiId, send) == (Err(APIMethodNotAllowedError("get")), [])
  {
  }

  /** Each payload of a query result read into a new instance's attributes; the first failure propagates. */
  function PayloadsAttrs(t: ResourceType, payloads: seq<Value>): (r: Result<seq<map<string, Value>>, Exception>)
    ensures r.Ok? ==> |r.value| == |payloads|
    ensures r.Ok? ==> forall i :: 0 <= i < |payloads| ==> PayloadAttrs(t, payloads[i]) == Ok(r.value[i])
    ensures r.Ok? <==> forall i :: 0 <= i < |payloads| ==> PayloadAttrs(t, payloads[i]).Ok?
  {
    if payloads == [] then Ok([])
    else
      match PayloadsAttrs(t, payloads[..|payloads| - 1])
      case Err(e) => Err(e)
      case Ok(done) =>
        match PayloadAttrs(t, payloads[|payloads| - 1])
        case Err(e) => Err(e)
        case Ok(last) => Ok(done + [last])
  }

  /** Once a prefix of the payloads fails, reading all of them fails the same way. */
  lemma {:induction false} PayloadsFailureSticks(t: ResourceType, payloads: seq<Value>, n: nat)
    requires n <= |payloads| && PayloadsAttrs(t, payloads[..n]).Err?
    ensures PayloadsAttrs(t, payloads) == PayloadsAttrs(t, payloads[..n])
    decreases |payloads| - n
  {
    if n < |payloads| {
      assert payloads[..n + 1][..n] == payloads[..n];
      PayloadsFailureSticks(t, payloads, n + 1);
    } else {
      assert payloads[..n] == payloads;
    }
  }

  /**
   * The payload list of a query response: the body's `result` field, or `[]` when absent.
   * A body that is not JSON, not an object, or whose `result` is not a list fails.
   */
  function ResultPayloads(res: Response): (r: Result<seq<Value>, Exception>)
    ensures r.Ok? <==> res.json.Some? && res.json.value.Object?
                       && (("result" in res.json.value.fields) ==> res.json.value.fields["result"].List?)
    ensures r.Ok? && "result" !in res.json.value.fields ==> r.value == []
    ensures r.Ok? && "result" in res.json.value.fields ==> r.value == res.json.value.fields["result"].items
    ensures res.json.None? ==> r == Err(ValueError("No JSON object could be decoded"))
    ensures res.json.Some? && !res.json.value.Object? ==> r.Err? && r.error.AttributeError?
    ensures res.json.Some? && res.json.value.Object? && "result" in res.json.value.fields
            && !res.json.value.fields["result"].List?
      ==> r.Err? && r.error.TypeError?
  {
    match res.json
    case None => Err(ValueError("No JSON object could be decoded"))
    case Some(v) =>
      if !v.Object? then Err(AttributeError("'" + TypeName(v) + "' object has no attribute 'get'"))
      else
        var result := if "result" in v.fields then v.fields["result"] else List([]);
        if result.List? then Ok(result.items)
        else Err(TypeError("'" + TypeName(result) + "' object is not iterable"))
  }

  /**
   * The first half of `cls.query(join, **kwargs)`: the payload list of the reply (or what
   * was raised before any instance is built) and what was sent. The filter body is posted
   * to `<collection>/query` behind `perm_check`.
   */
  function QueryPayloads(t: ResourceType, gs: GatewayState, join: string, kwargs: seq<(string, Value)>, send: Request -> SendOutcome)
    : (out: (Result<seq<Value>, Exception>, seq<Request>))
    ensures QueryBody(join, kwargs).Err? ==> out == (Err(QueryBody(join, kwargs).error), [])
    ensures QueryBody(join, kwargs).Ok? && CollectionUrl(t, gs, false).Err?
      ==> out == (Err(CollectionUrl(t, gs, false).error), [])
    ensures out.1 != [] ==> QueryBody(join, kwargs).Ok? && CollectionUrl(t, gs, false).Ok?
  {
    match QueryBody(join, kwargs)
    case Err(e) => (Err(e), [])
    case Ok(q) =>
      match CollectionUrl(t, gs, false)
      case Err(e) => (Err(e), [])
      case Ok(collection) =>
        var (res, sent) := Dispatch(t, gs, collection + "/query", "post", q, send);
        match res
        case Err(e) => (Err(e), sent)
        case Ok(response) => (ResultPayloads(response), sent)
  }

  /**
   * `cls.query(join, **kwargs)`: the attributes of the instances returned (or what was
   * raised) and what was sent: one instance per payload of the reply, in order.
   */
  function QueryOutcome(t: ResourceType, gs: GatewayState, join: string, kwargs: seq<(string, Value)>, send: Request -> SendOutcome)
    : (out: (Result<seq<map<string, Value>>, Exception>, seq<Request>))
    ensures QueryBody(join, kwargs).Err? ==> out == (Err(QueryBody(join, kwargs).error), [])
    ensures out.1 == QueryPayloads(t, gs, join, kwargs, send).1
    ensures QueryPayloads(t, gs, join, kwargs, send).0.Err? ==> out.0 == Err(QueryPayloads(t, gs, join, kwargs, send).0.error)
    ensures out.0.Ok? ==> var payloads := QueryPayloads(t, gs, join, kwargs, send).0;
      payloads.Ok? && |out.0.value| == |payloads.value|
      && forall i :: 0 <= i < |payloads.value| ==> PayloadAttrs(t, payloads.value[i]) == Ok(out.0.value[i])
    ensures QueryPayloads(t, gs, join, kwargs, send).0.Ok? ==> var payloads := QueryPayloads(t, gs, join, kwargs, send).0.value;
      (out.0.Ok? <==> forall i :: 0 <= i < |payloads| ==> PayloadAttrs(t, payloads[i]).Ok?)
    ensures out.0.Ok? ==> forall i :: 0 <= i < |out.0.value| ==> Complete(t, out.0.value[i])
  {
    var (payloads, sent) := QueryPayloads(t, gs, join, kwargs, send);
    match payloads
    case Err(e) => (Err(e), sent)
    case Ok(items) => (PayloadsAttrs(t, items), sent)
  }

  /**
   * A permitted query whose exchange succeeds builds one instance per item of the reply's
   * `result` list (none when it is absent), each read from its own payload.
   */
  lemma QueryReadsEveryPayload(t: ResourceType, gs: GatewayState, join: string, kwargs: seq<(string, Value)>,
                               send: Request -> SendOutcome)
    requires QueryBody(join, kwargs).Ok? && CollectionUrl(t, gs, false).Ok?
    requires PermCheck(t, CollectionUrl(t, gs, false).value + "/query", "post").None?
    requires GatewayExchange(gs, CollectionUrl(t, gs, false).value + "/query", "post", QueryBody(join, kwargs).value, send).0.Ok?
    requires ResultPayloads(GatewayExchange(gs, CollectionUrl(t, gs, false).value + "/query", "post", QueryBody(join, kwargs).value, send).0.value).Ok?
    ensures var reply := GatewayExchange(gs, CollectionUrl(t, gs, false).value + "/query", "post", QueryBody(join, kwargs).value, send).0.value;
      QueryOutcome(t, gs, join, kwargs, send).0 == PayloadsAttrs(t, ResultPayloads(reply).value)
  {
  }

  /**
   * A query is checked as `query` although it is sent as a post: with the capability and a
   * base URL free of "update", exactly one post with the filter body goes to `<collection>/query`.
   */
  lemma QuerySendsOnePost(t: ResourceType, gs: GatewayState, join: string, kwargs: seq<(string, Value)>, send: Request -> SendOutcome)
    requires QueryBody(join, kwargs).Ok? && CollectionUrl(t, gs, false).Ok?
    requires !Contains(CollectionUrl(t, gs, false).value + "/query", "update")
    ensures var url := CollectionUrl(t, gs, false).value + "/query";
      Permits(t.supported, "query") ==>
        QueryOutcome(t, gs, join, kwargs, send).1 == GatewayExchange(gs, url, "post", QueryBody(join, kwargs).value, send).1
    ensures !Permits(t.supported, "query") ==>
      QueryOutcome(t, gs, join, kwargs, send) == (Err(APIMethodNotAllowedError("post")), [])
  {
    QueryUrlIsCheckedAsQuery(CollectionUrl(t, gs, false).value, "post");
  }

  /**
   * Through a client, a permitted query whose post the server answers with a status other
   * than 200 and a body that is not JSON raises an APIRequestError after one request.
   */
  lemma QueryOnServerError(t: ResourceType, gs: GatewayState, join: string, kwargs: seq<(string, Value)>, send: Request -> SendOutcome)
    requires gs.ClientSnapshot? && QueryBody(join, kwargs).Ok? && Permits(t.supported, "query")
    requires !Contains(CollectionUrl(t, gs, false).value + "/query", "update")
    requires var url := CollectionUrl(t, gs, false).value + "/query";
      var reply := send(Request(WithOverride(url, gs.c.partnerAccount), "post", QueryBody(join, kwargs).value));
      reply.Received? && reply.res.status != StatusOk && reply.res.json.None?
    ensures var out := QueryOutcome(t, gs, join, kwargs, send);
      out.0.Err? && IsInstance(out.0.error, APIRequestErrorClass) && |out.1| == 1
  {
    var url := CollectionUrl(t, gs, false).value + "/query";
    QueryUrlIsCheckedAsQuery(CollectionUrl(t, gs, false).value, "post");
    Client.ClientPostOnServerError(gs.c, url, QueryBody(join, kwargs).value, send);
  }

  /** Where `save` posts, as written: the post passes `self.url()`, so "/update" is never used. */
  function SaveTargetAsWritten(t: ResourceType, attrs: map<string, Value>, gs: GatewayState): (r: Result<string, Exception>)
    ensures r == UrlOf(t, attrs, gs, Null)
  {
    match UrlOf(t, attrs, gs, Null)
    case Err(e) => Err(e)
    case Ok(url) => Ok(url)
  }

  /** Where `save` posts, as intended: `<url>/update` once the instance has an identity. */
  function SaveTarget(t: ResourceType, attrs: map<string, Value>, gs: GatewayState): (r: Result<string, Exception>)
    ensures r.Ok? <==> UrlOf(t, attrs, gs, Null).Ok?
    ensures r.Ok? && Identity(t, attrs) != Ok(Null) ==> r.value == UrlOf(t, attrs, gs, Null).value + "/update"
    ensures r.Ok? && Identity(t, attrs) == Ok(Null) ==> r.value == UrlOf(t, attrs, gs, Null).value
  {
    match UrlOf(t, attrs, gs, Null)
    case Err(e) => Err(e)
    case Ok(url) => if Identity(t, attrs) == Ok(Null) then Ok(url) else Ok(url + "/update")
  }

  /** An update of a persisted instance is checked as `put`, whatever its URL. */
  lemma SaveOfPersistedIsCheckedAsPut(t: ResourceType, attrs: map<string, Value>, gs: GatewayState)
    requires SaveTarget(t, attrs, gs).Ok? && Identity(t, attrs) != Ok(Null)
    ensures EffectiveMethod(SaveTarget(t, attrs, gs).value, "post") == "put"
  {
    UpdateUrlIsCheckedAsPut(UrlOf(t, attrs, gs, Null).value, "post");
  }

  /** `save()` given where it posts: post the serialised attributes, then read the response back. */
  function SaveVia(t: ResourceType, attrs: map<string, Value>, gs: GatewayState, target: Result<string, Exception>,
                   send: Request -> SendOutcome)
    : (out: (Result<map<string, Value>, Exception>, seq<Request>))
    ensures target.Err? ==> out == (Err(target.error), [])
    ensures target.Ok? && PermCheck(t, target.value, "post").Some? ==> out == (Err(APIMethodNotAllowedError("post")), [])
    ensures target.Ok? && PermCheck(t, target.value, "post").None? ==>
      var x := GatewayExchange(gs, target.value, "post", Object(SerializeAttrs(t, attrs)), send);
      out.1 == x.1
      && (x.0.Err? ==> out.0 == Err(x.0.error))
      && (x.0.Ok? ==> out.0 == ResponseAttrs(t, x.0.value))
    ensures out.0.Ok? ==> Complete(t, out.0.value)
  {
    match target
    case Err(e) => (Err(e), [])
    case Ok(url) =>
      var (res, sent) := Dispatch(t, gs, url, "post", Object(SerializeAttrs(t, attrs)), send);
      match res
      case Err(e) => (Err(e), sent)
      case Ok(response) => (ResponseAttrs(t, response), sent)
  }

  /**
   * `save()` as written: the serialised attributes go to `url()` itself, and `perm_check`
   * judges that URL as a post, so a persisted instance is never checked as an update.
   */
  function SaveOutcomeAsWritten(t: ResourceType, attrs: map<string, Value>, gs: GatewayState, send: Request -> SendOutcome)
    : (out: (Result<map<string, Value>, Exception>, seq<Request>))
    ensures UrlOf(t, attrs, gs, Null).Err? ==> out == (Err(UrlOf(t, attrs, gs, Null).error), [])
    ensures UrlOf(t, attrs, gs, Null).Ok? && PermCheck(t, UrlOf(t, attrs, gs, Null).value, "post").Some?
      ==> out == (Err(APIMethodNotAllowedError("post")), [])
    ensures UrlOf(t, attrs, gs, Null).Ok? && PermCheck(t, UrlOf(t, attrs, gs, Null).value, "post").None?
      ==> out.1 == GatewayExchange(gs, UrlOf(t, attrs, gs, Null).value, "post", Object(SerializeAttrs(t, attrs)), send).1
  {
    SaveVia(t, attrs, gs, SaveTargetAsWritten(t, attrs, gs), send)
  }

  /**
   * `save()` as intended: a new instance is saved exactly as written, while a persisted one
   * is posted to `<url>/update` and so needs the `put` capability.
   */
  function SaveOutcome(t: ResourceType, attrs: map<string, Value>, gs: GatewayState, send: Request -> SendOutcome)
    : (out: (Result<map<string, Value>, Exception>, seq<Request>))
    ensures UrlOf(t, attrs, gs, Null).Err? ==> out == (Err(UrlOf(t, attrs, gs, Null).error), [])
    ensures Identity(t, attrs) == Ok(Null) ==> out == SaveOutcomeAsWritten(t, attrs, gs, send)
    ensures UrlOf(t, attrs, gs, Null).Ok? && Identity(t, attrs) != Ok(Null) && !Permits(t.supported, "put")
      ==> out == (Err(APIMethodNotAllowedError("post")), [])
    ensures UrlOf(t, attrs, gs, Null).Ok? && Identity(t, attrs) != Ok(Null) && Permits(t.supported, "put")
      ==> out.1 == GatewayExchange(gs, UrlOf(t, attrs, gs, Null).value + "/update", "post", Object(SerializeAttrs(t, attrs)), send).1
  {
    if UrlOf(t, attrs, gs, Null).Ok? then
      UpdateUrlIsCheckedAsPut(UrlOf(t, attrs, gs, Null).value, "post");
      SaveVia(t, attrs, gs, SaveTarget(t, attrs, gs), send)
    else SaveVia(t, attrs, gs, SaveTarget(t, attrs, gs), send)
  }

  /** When the server echoes the posted attributes, a successful save leaves them unchanged. */
  lemma SaveEchoKeepsAttributes(t: ResourceType, attrs: map<string, Value>, gs: GatewayState, send: Request -> SendOutcome)
    requires Complete(t, attrs)
    requires forall q: Request :: send(q) == Received(Response(StatusOk, "", Some(q.body)))
    requires SaveOutcome(t, attrs, gs, send).0.Ok?
    ensures SaveOutcome(t, attrs, gs, send).0.value == attrs
  {
    SerializeRoundTrip(t, attrs);
  }

  /**
   * A persisted instance of a type that may be posted but not updated: as written the save
   * goes through as a post to the item URL; as intended it is refused as an update.
   */
  lemma SaveAsWrittenBypassesUpdateCheck(t: ResourceType, attrs: map<string, Value>, gs: GatewayState, send: Request -> SendOutcome)
    requires Identity(t, attrs).Ok? && Identity(t, attrs).value != Null
    requires UrlOf(t, attrs, gs, Null).Ok?
    requires var u := UrlOf(t, attrs, gs, Null).value; !Contains(u, "update") && !Contains(u, "query")
    requires Permits(t.supported, "post") && !Permits(t.supported, "put")
    ensures SaveOutcome(t, attrs, gs, send) == (Err(APIMethodNotAllowedError("post")), [])
    ensures SaveOutcomeAsWritten(t, attrs, gs, send).1
         == GatewayExchange(gs, UrlOf(t, attrs, gs, Null).value, "post", Object(SerializeAttrs(t, attrs)), send).1
  {
    SaveOfPersistedIsCheckedAsPut(t, attrs, gs);
  }

  /** Through a client with no partner account, a permitted save sends one post of the serialised attributes to its target. */
  lemma SaveViaSendsTo(t: ResourceType, attrs: map<string, Value>, c: Client.ClientState, url: string, send: Request -> SendOutcome)
    requires !Truthy(c.partnerAccount) && PermCheck(t, url, "post").None?
    ensures SaveVia(t, attrs, ClientSnapshot(c), Ok(url), send).1 == [Request(url, "post", Object(SerializeAttrs(t, attrs)))]
  {
  }

  /** The example of the finding: an Environment instance `e1`, reached through a client for account `acme`. */
  const ExampleType := CreateResource("Environment", ["id", "name"], "id", map[])
  const ExampleAttrs: map<string, Value> := map["id" := Str("e1"), "name" := Str("prod")]
  const ExampleClient := Client.ClientState(Str("acme"), Str("u"), Str("p"), Null)
  const ExampleUrl := "https://api.boomi.com/api/rest/v1/acme/Environment/e1"

  /** The example's item URL. */
  lemma ExampleUrlOf()
    ensures Identity(ExampleType, ExampleAttrs) == Ok(Str("e1"))
    ensures UrlOf(ExampleType, ExampleAttrs, ClientSnapshot(ExampleClient), Null) == Ok(ExampleUrl)
  {
    var base := "https://api.boomi.com/api/rest/v1/acme";
    assert Transport.BaseUrl + "/" + Render(Str("acme")) == base;
    assert GatewayBaseUrl(ClientSnapshot(ExampleClient), false) == Ok(base);
    assert base + "/" + "Environment" + "/" + "e1" == ExampleUrl;
  }

  /** The example's body: all its attributes, none of them None. */
  lemma ExampleBody()
    ensures SerializeAttrs(ExampleType, ExampleAttrs) == ExampleAttrs
  {
    var m := SerializeAttrs(ExampleType, ExampleAttrs);
    assert "id" in Declared(ExampleType) && "name" in Declared(ExampleType);
    assert m.Keys == ExampleAttrs.Keys;
  }

  /** Where the two versions of `save` post the example, and the body they post. */
  lemma ExampleTargets()
    ensures SaveTargetAsWritten(ExampleType, ExampleAttrs, ClientSnapshot(ExampleClient)) == Ok(ExampleUrl)
    ensures SaveTarget(ExampleType, ExampleAttrs, ClientSnapshot(ExampleClient)) == Ok(ExampleUrl + "/update")
    ensures SerializeAttrs(ExampleType, ExampleAttrs) == ExampleAttrs
  {
    ExampleUrlOf();
    ExampleBody();
  }

  /** The example's type permits every method, so no URL of it is refused a post. */
  lemma ExamplePostPermitted(url: string)
    ensures PermCheck(ExampleType, url, "post").None?
  {
    assert forall m :: m in {"put", "query", "post"} ==> Permits(ExampleType.supported, m);
  }

  /** As written, the example's save posts its body to the item URL. */
  lemma ExampleSaveAsWritten(send: Request -> SendOutcome)
    ensures SaveOutcomeAsWritten(ExampleType, ExampleAttrs, ClientSnapshot(ExampleClient), send).1
      == [Request(ExampleUrl, "post", Object(SerializeAttrs(ExampleType, ExampleAttrs)))]
  {
    ExampleTargets();
    ExamplePostPermitted(ExampleUrl);
    SaveViaSendsTo(ExampleType, ExampleAttrs, ExampleClient, ExampleUrl, send);
  }

  /** As intended, the example's save posts its body to the "/update" URL. */
  lemma ExampleSave(send: Request -> SendOutcome)
    ensures SaveOutcome(ExampleType, ExampleAttrs, ClientSnapshot(ExampleClient), send).1
      == [Request(ExampleUrl + "/update", "post", Object(SerializeAttrs(ExampleType, ExampleAttrs)))]
  {
    ExampleTargets();
    ExamplePostPermitted(ExampleUrl + "/update");
    SaveViaSendsTo(ExampleType, ExampleAttrs, ExampleClient, ExampleUrl + "/update", send);
  }

  /**
   * For the example, whatever the server answers, the save as written posts to the item
   * URL, and as intended to its "/update" URL.
   */
  lemma SaveAsWrittenMissesUpdateUrl(send: Request -> SendOutcome)
    ensures var body := Object(ExampleAttrs);
      SaveOutcomeAsWritten(ExampleType, ExampleAttrs, ClientSnapshot(ExampleClient), send).1
        == [Request(ExampleUrl, "post", body)]
      && SaveOutcome(ExampleType, ExampleAttrs, ClientSnapshot(ExampleClient), send).1
        == [Request(ExampleUrl + "/update", "post", body)]
  {
    ExampleBody();
    ExampleSaveAsWritten(send);
    ExampleSave(send);
  }

  /** A resource object: its class and the values of its declared attributes. */
  class Instance {
    const rtype: ResourceType
    var attrs: map<string, Value>

    ghost predicate Valid()
      reads this
    {
      Complete(rtype, attrs)
    }

    /** `cls(**kwargs)`: every declared attribute set to None, then the declared keywords applied. */
    constructor(t: ResourceType, kwargs: map<string, Value>)
      ensures rtype == t && Valid()
      ensures attrs == InitialAttrs(t, kwargs)
    {
      var m: map<string, Value> := map[];
      var i := 0;
      while i < |t.attributes|
        invariant 0 <= i <= |t.attributes|
        invariant m.Keys == set a | a in t.attributes[..i]
        invariant forall a :: a in m ==> m[a] == Null
      {
        assert t.attributes[..i + 1] == t.attributes[..i] + [t.attributes[i]];
        m := m[t.attributes[i] := Null];
        i := i + 1;
      }
      assert t.attributes[..i] == t.attributes;
      var pending := kwargs.Keys;
      while pending != {}
        invariant pending <= kwargs.Keys
        invariant m.Keys == Declared(t)
        invariant forall a :: a in m ==> m[a] == if a in kwargs && a !in pending then kwargs[a] else Null
        decreases pending
      {
        var k :| k in pending;
        if k in t.attributes {
          m := m[k := kwargs[k]];
        }
        pending := pending - {k};
      }
      rtype := t;
      attrs := m;
    }

    /** The attribute loop shared by response handling and query results: `setattr(self, a, payload.get(a))`. */
    method Populate(v: Value) returns (err: Option<Exception>)
      requires Valid()
      modifies this
      ensures Valid()
      ensures PayloadAttrs(rtype, v).Ok? ==> err == None && attrs == PayloadAttrs(rtype, v).value
      ensures PayloadAttrs(rtype, v).Err? ==> err == Some(PayloadAttrs(rtype, v).error) && attrs == old(attrs)
    {
      if !v.Object? {
        if rtype.attributes == [] {
          return None;
        }
        return Some(AttributeError("'" + TypeName(v) + "' object has no attribute 'get'"));
      }
      var i := 0;
      while i < |rtype.attributes|
        invariant 0 <= i <= |rtype.attributes|
        invariant Valid()
        invariant forall a :: a in attrs ==> attrs[a] == if a in rtype.attributes[..i] then Values.Get(v.fields, a) else old(attrs)[a]
      {
        var a := rtype.attributes[i];
        assert rtype.attributes[..i + 1] == rtype.attributes[..i] + [a];
        attrs := attrs[a := Values.Get(v.fields, a)];
        i := i + 1;
      }
      assert rtype.attributes[..i] == rtype.attributes;
      err := None;
    }

    /** `__update_attrs_from_response(res)`. */
    method ApplyResponse(res: Response) returns (err: Option<Exception>)
      requires Valid()
      modifies this
      ensures Valid()
      ensures ResponseAttrs(rtype, res).Ok? ==> err == None && attrs == ResponseAttrs(rtype, res).value
      ensures ResponseAttrs(rtype, res).Err? ==> err == Some(ResponseAttrs(rtype, res).error) && attrs == old(attrs)
    {
      if res.json.None? {
        return Some(ValueError("No JSON object could be decoded"));
      }
      err := Populate(res.json.value);
    }

    /** `url(boomi_id)`. */
    method Url(gw: Channel, boomiId: Value) returns (r: Result<string, Exception>)
      ensures r == UrlOf(rtype, attrs, Snapshot(gw), boomiId)
    {
      if rtype.idAttr !in attrs {
        return Err(AttributeError("'" + rtype.name + "' object has no attribute '" + rtype.idAttr + "'"));
      }
      var own := attrs[rtype.idAttr];
      var partner := own == Null && boomiId == Null && rtype.urlRule == PartnerCollectionWhenNew;
      var base := Gateway.BaseUrl(gw, partner);
      if base.Err? {
        return Err(base.error);
      }
      if own == Null && boomiId == Null {
        return Ok(base.value + "/" + rtype.uri);
      }
      var id := if boomiId == Null then own else boomiId;
      r := Ok(base.value + "/" + rtype.uri + "/" + Render(id));
    }

    /** `save()`: post the serialised attributes to `<url>/update` (or the collection when new), then apply the response. */
    method Save(gw: Channel, send: Request -> SendOutcome) returns (err: Option<Exception>, sent: seq<Request>)
      requires Valid()
      modifies this
      ensures Valid()
      ensures var (out, wire) := SaveOutcome(rtype, old(attrs), Snapshot(gw), send);
        sent == wire && (err.None? <==> out.Ok?)
        && (out.Ok? ==> attrs == out.value)
        && (out.Err? ==> err == Some(out.error) && attrs == old(attrs))
    {
      var url := Url(gw, Null);
      if url.Err? {
        return Some(url.error), [];
      }
      var target := if attrs[rtype.idAttr] != Null then url.value + "/update" else url.value;
      var res;
      res, sent := Send(rtype, gw, target, "post", Object(SerializeAttrs(rtype, attrs)), send);
      if res.Err? {
        return Some(res.error), sent;
      }
      err := ApplyResponse(res.value);
    }

    /** `delete()`: does nothing, and in particular sends nothing. */
    method Delete() returns (sent: seq<Request>)
      ensures sent == []
    {
      sent := [];
    }
  }

  /** `cls.__https_request(url, method, data)`. */
  method Send(t: ResourceType, gw: Channel, url: string, verb: string, data: Value, send: Request -> SendOutcome)
    returns (r: Result<Response, Exception>, sent: seq<Request>)
    ensures (r, sent) == Dispatch(t, Snapshot(gw), url, verb, data, send)
  {
    var denied := PermCheck(t, url, verb);
    if denied.Some? {
      return Err(denied.value), [];
    }
    r, sent := Gateway.HttpsRequest(gw, url, verb, data, send);
  }

  /** `cls.get(boomi_id)`. */
  method Get(t: ResourceType, gw: Channel, boomiId: Value, send: Request -> SendOutcome)
    returns (r: Result<Instance, Exception>, sent: seq<Request>)
    ensures var (out, wire) := GetOutcome(t, Snapshot(gw), boomiId, send);
      sent == wire && (r.Ok? <==> out.Ok?)
      && (r.Ok? ==> fresh(r.value) && r.value.rtype == t && r.value.Valid() && r.value.attrs == out.value)
      && (r.Err? ==> r.error == out.error)
  {
    var resource := new Instance(t, map[]);
    var url := resource.Url(gw, boomiId);
    if url.Err? {
      return Err(url.error), [];
    }
    var res;
    res, sent := Send(t, gw, url.value, "get", Object(map[]), send);
    if res.Err? {
      return Err(res.error), sent;
    }
    var err := resource.ApplyResponse(res.value);
    if err.Some? {
      return Err(err.value), sent;
    }
    r := Ok(resource);
  }

  /** `cls.query(join, **kwargs)`: build the filter, post it to `<collection>/query`, one new instance per payload. */
  method Query(t: ResourceType, gw: Channel, join: string, kwargs: seq<(string, Value)>, send: Request -> SendOutcome)
    returns (r: Result<seq<Instance>, Exception>, sent: seq<Request>)
    ensures var (out, wire) := QueryOutcome(t, Snapshot(gw), join, kwargs, send);
      sent == wire && (r.Ok? <==> out.Ok?)
      && (r.Err? ==> r.error == out.error)
      && (r.Ok? ==> |r.value| == |out.value|
                    && forall i :: 0 <= i < |r.value| ==>
                         fresh(r.value[i]) && r.value[i].rtype == t && r.value[i].attrs == out.value[i])
    ensures var payloads := QueryPayloads(t, Snapshot(gw), join, kwargs, send).0;
      r.Ok? ==> payloads.Ok? && |r.value| == |payloads.value|
                && forall i :: 0 <= i < |r.value| ==> Ok(r.value[i].attrs) == PayloadAttrs(t, payloads.value[i])
  {
    var q := BuildQueryBody(join, kwargs);
    if q.Err? {
      return Err(q.error), [];
    }
    var collection := Gateway.BaseUrl(gw, false);
    if collection.Err? {
      return Err(collection.error), [];
    }
    var res;
    res, sent := Send(t, gw, collection.value + "/" + t.uri + "/query", "post", q.value, send);
    if res.Err? {
      return Err(res.error), sent;
    }
    var payloads := ResultPayloads(res.value);
    if payloads.Err? {
      return Err(payloads.error), sent;
    }
    r := Instantiate(t, payloads.value);
  }

  /** The query-result loop: a new instance per payload, each read from its payload. */
  method Instantiate(t: ResourceType, items: seq<Value>) returns (r: Result<seq<Instance>, Exception>)
    ensures r.Ok? <==> PayloadsAttrs(t, items).Ok?
    ensures r.Err? ==> r.error == PayloadsAttrs(t, items).error
    ensures r.Ok? ==> |r.value| == |items| && forall i :: 0 <= i < |items| ==>
      fresh(r.value[i]) && r.value[i].rtype == t && r.value[i].Valid() && r.value[i].attrs == PayloadsAttrs(t, items).value[i]
  {
    var response: seq<Instance> := [];
    ghost var expected: seq<map<string, Value>> := [];
    var i := 0;
    while i < |items|
      invariant 0 <= i <= |items|
      invariant PayloadsAttrs(t, items[..i]) == Ok(expected)
      invariant |response| == i
      invariant forall j :: 0 <= j < i ==>
        fresh(response[j]) && response[j].rtype == t && response[j].Valid() && response[j].attrs == expected[j]
    {
      assert items[..i + 1][..i] == items[..i];
      var entity := new Instance(t, map[]);
      var err := entity.Populate(items[i]);
      if err.Some? {
        PayloadsFailureSticks(t, items, i + 1);
        return Err(err.value);
      }
      response := response + [entity];
      expected := expected + [entity.attrs];
      i := i + 1;
    }
    assert items[..i] == items;
    r := Ok(response);
  }
}
