/**
 * The request plumbing shared by both transport classes (boompy/base_api.py and
 * boompy/boompy.py): base URLs, the sub-account override suffix, and the send itself.
 */
module Transport {
  import opened Outcomes
  import opened Values
  import opened Wire
  import opened Errors

  const BaseUrl := "https://api.boomi.com/api/rest/v1"
  const PartnerBaseUrl := "https://api.boomi.com/partner/api/rest/v1"
  const OverrideMarker := "?overrideAccount="

  /** The URL `API.https_request` sends to, with `?overrideAccount=<id>` when a partner account is set. */
  function WithOverride(url: string, partnerAccount: Value): (r: string)
    ensures url <= r
    ensures r == url <==> !Truthy(partnerAccount)
    ensures Truthy(partnerAccount) ==> r[|url|..] == OverrideMarker + Render(partnerAccount)
  {
    if Truthy(partnerAccount) then url + OverrideMarker + Render(partnerAccount) else url
  }

  /** `"%s/%s" % (PARTNER_BASE_URL if (partner or partner_account) else BASE_URL, account_id)`. */
  function AccountBaseUrl(partner: bool, partnerAccount: Value, accountId: Value): (r: string)
    ensures IsPartnerUrl(r) <==> partner || Truthy(partnerAccount)
    ensures r == (if IsPartnerUrl(r) then PartnerBaseUrl else BaseUrl) + "/" + Render(accountId)
  {
    var base := if partner || Truthy(partnerAccount) then PartnerBaseUrl else BaseUrl;
    assert (base + "/" + Render(accountId))[22] == base[22];
    base + "/" + Render(accountId)
  }

  /** The URL is built on the partner API: it starts with the partner base. */
  predicate IsPartnerUrl(url: string) {
    PartnerBaseUrl + "/" <= url
  }

  /** The request methods a `requests` session has, which `getattr(session, method)` finds. */
  predicate IsSessionMethod(verb: string) {
    verb in {"get", "post", "put", "delete", "head", "options", "patch"}
  }

  /**
   * Look the method up on the session, then send once; whatever the send raises is
   * re-raised as a BoomiError. An unknown method fails the lookup and sends nothing.
   */
  function Deliver(url: string, verb: string, data: Value, send: Request -> SendOutcome)
    : (out: (Result<Response, Exception>, seq<Request>))
    ensures !IsSessionMethod(verb) ==> out == (Err(AttributeError("'Session' object has no attribute '" + verb + "'")), [])
    ensures IsSessionMethod(verb) ==> out.1 == [Request(url, verb, data)]
    ensures IsSessionMethod(verb) ==> (out.0.Err? <==> send(Request(url, verb, data)).Raised?)
    ensures IsSessionMethod(verb) && out.0.Err? ==> out.0.error == BoomiError(send(Request(url, verb, data)).cause)
    ensures IsSessionMethod(verb) && out.0.Ok? ==> out.0.value == send(Request(url, verb, data)).res
  {
    if !IsSessionMethod(verb) then (Err(AttributeError("'Session' object has no attribute '" + verb + "'")), [])
    else
      var req := Request(url, verb, data);
      match send(req)
      case Raised(cause) => (Err(BoomiError(cause)), [req])
      case Received(res) => (Ok(res), [req])
  }

  /** One call made inside a `with` block: URL, method name and body. */
  datatype Call = Call(url: string, verb: string, data: Value)

  /**
   * The calls of a `with` block run in order through one exchange; the first exception
   * ends the block and propagates. Returns the responses (or that exception) and every
   * request sent.
   */
  function RunCalls(exchange: Call -> (Result<Response, Exception>, seq<Request>), calls: seq<Call>)
    : (out: (Result<seq<Response>, Exception>, seq<Request>))
    ensures out.0.Ok? ==> |out.0.value| == |calls|
  {
    if calls == [] then (Ok([]), [])
    else
      var (done, sent) := RunCalls(exchange, calls[..|calls| - 1]);
      if done.Err? then (done, sent)
      else
        var (last, more) := exchange(calls[|calls| - 1]);
        if last.Err? then (Err(last.error), sent + more)
        else (Ok(done.value + [last.value]), sent + more)
  }

  /** Once a prefix of the calls fails, the block's outcome is that failure. */
  lemma {:induction false} RunFailureSticks(exchange: Call -> (Result<Response, Exception>, seq<Request>), calls: seq<Call>, n: nat)
    requires n <= |calls| && RunCalls(exchange, calls[..n]).0.Err?
    ensures RunCalls(exchange, calls) == RunCalls(exchange, calls[..n])
    decreases |calls| - n
  {
    if n == |calls| {
      assert calls[..n] == calls;
    } else {
      assert calls[..n + 1][..n] == calls[..n];
      RunFailureSticks(exchange, calls, n + 1);
    }
  }

  /** If each single exchange sends only requests satisfying `p`, the whole block does too. */
  lemma {:induction false} RunCallsSendOnly(exchange: Call -> (Result<Response, Exception>, seq<Request>), calls: seq<Call>, p: Request -> bool)
    requires forall c, q :: q in exchange(c).1 ==> p(q)
    ensures forall q :: q in RunCalls(exchange, calls).1 ==> p(q)
  {
    if calls != [] {
      RunCallsSendOnly(exchange, calls[..|calls| - 1], p);
    }
  }
}
