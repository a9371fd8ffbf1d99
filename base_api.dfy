/**
 * The `API` transport object (boompy/base_api.py): credentials set by `_set_auth`,
 * the partner override, credential checks, base URLs and the two-way status test.
 */
module BaseApi {
  import opened Outcomes
  import opened Values
  import opened Wire
  import opened Errors
  import opened Transport

  /**
   * What an `API` object holds. `authSet` records whether `_set_auth` has run, i.e.
   * whether the credential attributes exist at all; `partnerAccount` is `partner_account`.
   */
  datatype ApiState = ApiState(authSet: bool, accountId: Value, username: Value, password: Value, partnerAccount: Value)

  const AccountIdMissing := "Boomi account id not provied"
  const UsernameMissing := "Boomi username not provied"

  /**
   * A missing credential as the module actually raises it: `UnauthorizedError` is never
   * imported by base_api.py, so evaluating the `raise` fails with a NameError, which no
   * handler for the library's own errors catches.
   */
  function MissingCredentialAsWritten(reason: string): (e: Exception)
    ensures e == NameError("UnauthorizedError")
    ensures !IsInstance(e, BoomiErrorClass)
  {
    NameError("UnauthorizedError")
  }

  /** A missing credential as intended: an UnauthorizedError carrying the reason. */
  function MissingCredential(reason: string): (e: Exception)
    ensures IsInstance(e, UnauthorizedErrorClass) && IsInstance(e, BoomiErrorClass)
    ensures Message(e) == reason
  {
    UnauthorizedError(reason)
  }

  /** The same call site yields a library error as intended and escapes every library handler as written. */
  lemma MissingCredentialDiffers(reason: string)
    ensures IsInstance(MissingCredential(reason), BoomiErrorClass)
    ensures !IsInstance(MissingCredentialAsWritten(reason), BoomiErrorClass)
    ensures MissingCredential(reason) != MissingCredentialAsWritten(reason)
  {
  }

  /** Reading an attribute that `_set_auth` has not created yet. */
  function NoAttribute(name: string): Exception {
    AttributeError("'API' object has no attribute '" + name + "'")
  }

  /** `base_url(partner)`: needs an account id; the partner base when asked for or when a partner account is set. */
  function ApiBaseUrl(s: ApiState, partner: bool): (r: Result<string, Exception>)
    ensures r.Ok? <==> s.authSet && s.accountId != Null
    ensures !s.authSet ==> r == Err(NoAttribute("account_id"))
    ensures s.authSet && s.accountId == Null ==> r == Err(MissingCredential(AccountIdMissing))
    ensures r.Ok? ==> r.value == AccountBaseUrl(partner, s.partnerAccount, s.accountId)
    ensures r.Ok? ==> (IsPartnerUrl(r.value) <==> partner || Truthy(s.partnerAccount))
  {
    if !s.authSet then Err(NoAttribute("account_id"))
    else if s.accountId == Null then Err(MissingCredential(AccountIdMissing))
    else Ok(AccountBaseUrl(partner, s.partnerAccount, s.accountId))
  }

  /** The checks in `session_with_headers`: username first, then password (with the username message). */
  function SessionCheck(s: ApiState): (r: Option<Exception>)
    ensures r.None? <==> s.authSet && s.username != Null && s.password != Null
    ensures s.authSet && r.Some? ==> r.value == MissingCredential(UsernameMissing)
  {
    if !s.authSet then Some(NoAttribute("username"))
    else if s.username == Null then Some(MissingCredential(UsernameMissing))
    else if s.password == Null then Some(MissingCredential(UsernameMissing))
    else None
  }

  /** The status test of `https_request`: 200 returns the response, anything else raises APIRequestError. */
  function StatusCheck(res: Response): (r: Result<Response, Exception>)
    ensures r.Ok? <==> res.status == StatusOk
    ensures r.Ok? ==> r.value == res
    ensures r.Err? && RequestMessage(res).Ok? ==> r.error == APIRequestError(RequestMessage(res).value)
    ensures r.Err? && RequestMessage(res).Err? ==> r.error == RequestMessage(res).error
  {
    if res.status == StatusOk then Ok(res) else Err(RaiseFromResponse(APIRequestErrorClass, res))
  }

  /** `https_request(url, method, data)` on a given state: what it returns or raises, and what it sends. */
  function Exchange(s: ApiState, url: string, verb: string, data: Value, send: Request -> SendOutcome)
    : (out: (Result<Response, Exception>, seq<Request>))
    ensures SessionCheck(s).Some? ==> out == (Err(SessionCheck(s).value), [])
    ensures SessionCheck(s).None? ==> out.1 == Deliver(WithOverride(url, s.partnerAccount), verb, data, send).1
    ensures out.0.Ok? ==> out.0.value.status == StatusOk
    ensures SessionCheck(s).None? && !IsSessionMethod(verb)
      ==> out.0 == Deliver(WithOverride(url, s.partnerAccount), verb, data, send).0
    ensures var req := Request(WithOverride(url, s.partnerAccount), verb, data);
      SessionCheck(s).None? && IsSessionMethod(verb) && send(req).Received? ==> out.0 == StatusCheck(send(req).res)
    ensures var req := Request(WithOverride(url, s.partnerAccount), verb, data);
      SessionCheck(s).None? && IsSessionMethod(verb) && send(req).Raised? ==> out.0 == Err(BoomiError(send(req).cause))
  {
    if SessionCheck(s).Some? then (Err(SessionCheck(s).value), [])
    else
      var (res, sent) := Deliver(WithOverride(url, s.partnerAccount), verb, data, send);
      if res.Err? then (res, sent) else (StatusCheck(res.value), sent)
  }

  /**
   * `base_url(partner)` as written: a missing account id raises the NameError of
   * `MissingCredentialAsWritten`; every other outcome is the intended one.
   */
  function ApiBaseUrlAsWritten(s: ApiState, partner: bool): (r: Result<string, Exception>)
    ensures s.authSet && s.accountId == Null ==> r == Err(MissingCredentialAsWritten(AccountIdMissing))
    ensures !(s.authSet && s.accountId == Null) ==> r == ApiBaseUrl(s, partner)
  {
    if !s.authSet then Err(NoAttribute("account_id"))
    else if s.accountId == Null then Err(MissingCredentialAsWritten(AccountIdMissing))
    else Ok(AccountBaseUrl(partner, s.partnerAccount, s.accountId))
  }

  /** The checks of `session_with_headers` as written: each missing credential raises the NameError. */
  function SessionCheckAsWritten(s: ApiState): (r: Option<Exception>)
    ensures s.authSet && SessionCheck(s).Some? ==> r == Some(MissingCredentialAsWritten(UsernameMissing))
    ensures !(s.authSet && SessionCheck(s).Some?) ==> r == SessionCheck(s)
  {
    if !s.authSet then Some(NoAttribute("username"))
    else if s.username == Null then Some(MissingCredentialAsWritten(UsernameMissing))
    else if s.password == Null then Some(MissingCredentialAsWritten(UsernameMissing))
    else None
  }

  /**
   * After `_set_auth(None, username, password)`, `base_url()` as written escapes every
   * library handler with a NameError, where the intended code raises UnauthorizedError.
   */
  lemma MissingAccountIdAsWritten(username: Value, password: Value, partnerAccount: Value, partner: bool)
    ensures var s := ApiState(true, Null, username, password, partnerAccount);
      ApiBaseUrlAsWritten(s, partner).Err?
      && ApiBaseUrlAsWritten(s, partner).error == NameError("UnauthorizedError")
      && !IsInstance(ApiBaseUrlAsWritten(s, partner).error, BoomiErrorClass)
    ensures var s := ApiState(true, Null, username, password, partnerAccount);
      ApiBaseUrl(s, partner).Err? && IsInstance(ApiBaseUrl(s, partner).error, UnauthorizedErrorClass)
  {
  }

  /**
   * After `_set_auth(account, None, password)`, the session check as written raises the
   * NameError, where the intended code raises UnauthorizedError; so does a missing password.
   */
  lemma MissingUserAsWritten(accountId: Value, username: Value, password: Value, partnerAccount: Value)
    requires username == Null || password == Null
    ensures var s := ApiState(true, accountId, username, password, partnerAccount);
      SessionCheckAsWritten(s) == Some(NameError("UnauthorizedError"))
      && !IsInstance(SessionCheckAsWritten(s).value, BoomiErrorClass)
    ensures var s := ApiState(true, accountId, username, password, partnerAccount);
      SessionCheck(s).Some? && IsInstance(SessionCheck(s).value, UnauthorizedErrorClass)
  {
  }

  /** A request goes out only with both credentials present, and goes to the overridden URL. */
  lemma ExchangeSendsAtMostOnce(s: ApiState, url: string, verb: string, data: Value, send: Request -> SendOutcome)
    ensures var sent := Exchange(s, url, verb, data, send).1;
      sent != [] <==> SessionCheck(s).None? && IsSessionMethod(verb)
    ensures var sent := Exchange(s, url, verb, data, send).1;
      sent != [] ==> sent == [Request(WithOverride(url, s.partnerAccount), verb, data)]
  {
  }

  /** An `API` object. */
  class Api {
    var authSet: bool
    var accountId: Value
    var username: Value
    var password: Value
    var partnerAccount: Value

    function State(): ApiState
      reads this
    {
      ApiState(authSet, accountId, username, password, partnerAccount)
    }

    /** A fresh object: `partner_account` is None and no credential attribute exists yet. */
    constructor()
      ensures State() == ApiState(false, Null, Null, Null, Null)
    {
      authSet, accountId, username, password, partnerAccount := false, Null, Null, Null, Null;
    }

    /** `_set_auth`: stores exactly the given credentials; the partner account is untouched. */
    method SetAuth(accountId': Value, username': Value, password': Value)
      modifies this
      ensures State() == ApiState(true, accountId', username', password', old(partnerAccount))
    {
      authSet := true;
      accountId, username, password := accountId', username', password';
    }

    /** `base_url(partner)`. */
    method BaseUrl(partner: bool) returns (r: Result<string, Exception>)
      ensures r == ApiBaseUrl(State(), partner)
    {
      if !authSet {
        return Err(NoAttribute("account_id"));
      }
      if accountId == Null {
        return Err(MissingCredential(AccountIdMissing));
      }
      var base := if partner || Truthy(partnerAccount) then PartnerBaseUrl else Transport.BaseUrl;
      r := Ok(base + "/" + Render(accountId));
    }

    /** `https_request`: rebinds the URL with the override, checks the session, sends, tests the status. */
    method HttpsRequest(url: string, verb: string, data: Value, send: Request -> SendOutcome)
      returns (r: Result<Response, Exception>, sent: seq<Request>)
      ensures (r, sent) == Exchange(State(), url, verb, data, send)
    {
      var target := url;
      if Truthy(partnerAccount) {
        target := target + OverrideMarker + Render(partnerAccount);
      }
      var check := SessionCheck(State());
      if check.Some? {
        return Err(check.value), [];
      }
      var delivered := Deliver(target, verb, data, send);
      var res := delivered.0;
      sent := delivered.1;
      if res.Err? {
        return res, sent;
      }
      if res.value.status == StatusOk {
        r := res;
      } else {
        r := Err(RaiseFromResponse(APIRequestErrorClass, res.value));
      }
    }
  }
}
