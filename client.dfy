/**
 * The `Boompy` client object (boompy/boompy.py): validated construction, the four-way
 * status classification, base URLs, the sub-account scope and the resources it registers.
 */
module Client {
  import opened Outcomes
  import opened Values
  import opened Wire
  import opened Errors
  import opened Transport
  import opened ResourceTypes
  import opened Catalogue
  import BaseApi

  /** What a `Boompy` object holds besides its session and registered resources. */
  datatype ClientState = ClientState(accountId: Value, username: Value, password: Value, partnerAccount: Value)

  const AccountIdMissing := "Boomi account id not provied"
  const UsernameMissing := "Boomi username not provied"

  /** The constructor's checks, in order: username, password (with the username message), account id. */
  function CredentialCheck(accountId: Value, username: Value, password: Value): (r: Option<Exception>)
    ensures r.None? <==> accountId != Null && username != Null && password != Null
    ensures r.Some? ==> IsInstance(r.value, UnauthorizedErrorClass)
    ensures r.Some? ==> (Message(r.value) == AccountIdMissing <==> username != Null && password != Null)
  {
    if username == Null then Some(UnauthorizedError(UsernameMissing))
    else if password == Null then Some(UnauthorizedError(UsernameMissing))
    else if accountId == Null then Some(UnauthorizedError(AccountIdMissing))
    else None
  }

  /** The status test of `Boompy.https_request`: 200 returns; 503 or 429 is a rate limit; 404 is not-found; anything else a request error. */
  function ClientStatus(res: Response): (r: Result<Response, Exception>)
    ensures r.Ok? <==> res.status == StatusOk
    ensures r.Ok? ==> r.value == res
    ensures r.Err? && RequestMessage(res).Ok? ==>
      r.error == (if res.status == StatusServiceUnavailable || res.status == StatusTooMany then RateLimitError(RequestMessage(res).value)
                  else if res.status == StatusNotFound then NotFoundError(RequestMessage(res).value)
                  else APIRequestError(RequestMessage(res).value))
    ensures r.Err? && RequestMessage(res).Err? ==> r.error == RequestMessage(res).error
  {
    if res.status == StatusOk then Ok(res)
    else if res.status == StatusServiceUnavailable || res.status == StatusTooMany then Err(RaiseFromResponse(RateLimitErrorClass, res))
    else if res.status == StatusNotFound then Err(RaiseFromResponse(NotFoundErrorClass, res))
    else Err(RaiseFromResponse(APIRequestErrorClass, res))
  }

  /**
   * The four-way classification refines the two-way one of the `API` object: both accept
   * exactly status 200, and every failure of this one is caught by `except APIRequestError`
   * exactly when the two-way one's is.
   */
  lemma ClassificationRefinesTwoWay(res: Response)
    ensures ClientStatus(res).Ok? <==> BaseApi.StatusCheck(res).Ok?
    ensures ClientStatus(res).Err? ==>
      (IsInstance(ClientStatus(res).error, APIRequestErrorClass) <==> IsInstance(BaseApi.StatusCheck(res).error, APIRequestErrorClass))
    ensures ClientStatus(res).Err? ==> Message(ClientStatus(res).error) == Message(BaseApi.StatusCheck(res).error)
  {
  }

  /** `base_url(partner)`: the partner base when asked for or when a partner account is set, then the account id. */
  function ClientBaseUrl(s: ClientState, partner: bool): (r: string)
    ensures IsPartnerUrl(r) <==> partner || Truthy(s.partnerAccount)
    ensures r == AccountBaseUrl(partner, s.partnerAccount, s.accountId)
  {
    AccountBaseUrl(partner, s.partnerAccount, s.accountId)
  }

  /** `https_request(url, method, data)` on a given state: what it returns or raises, and what it sends. */
  function ClientExchange(s: ClientState, url: string, verb: string, data: Value, send: Request -> SendOutcome)
    : (out: (Result<Response, Exception>, seq<Request>))
    ensures out.1 == Deliver(WithOverride(url, s.partnerAccount), verb, data, send).1
    ensures out.0.Ok? ==> out.0.value.status == StatusOk
    ensures !IsSessionMethod(verb) ==> out.0 == Deliver(WithOverride(url, s.partnerAccount), verb, data, send).0
    ensures var req := Request(WithOverride(url, s.partnerAccount), verb, data);
      IsSessionMethod(verb) && send(req).Received? ==> out.0 == ClientStatus(send(req).res)
    ensures var req := Request(WithOverride(url, s.partnerAccount), verb, data);
      IsSessionMethod(verb) && send(req).Raised? ==> out.0 == Err(BoomiError(send(req).cause))
  {
    var (res, sent) := Deliver(WithOverride(url, s.partnerAccount), verb, data, send);
    if res.Err? then (res, sent) else (ClientStatus(res.value), sent)
  }

  /**
   * A post the server answers with any status but 200 and a body that is not JSON raises
   * something `except APIRequestError` catches, after exactly one request.
   */
  lemma ClientPostOnServerError(s: ClientState, url: string, data: Value, send: Request -> SendOutcome)
    requires var reply := send(Request(WithOverride(url, s.partnerAccount), "post", data));
      reply.Received? && reply.res.status != StatusOk && reply.res.json.None?
    ensures var out := ClientExchange(s, url, "post", data, send);
      out.0.Err? && IsInstance(out.0.error, APIRequestErrorClass) && |out.1| == 1
  {
    var req := Request(WithOverride(url, s.partnerAccount), "post", data);
    assert IsSessionMethod("post");
    assert ClientStatus(send(req).res).Err?;
  }

  /** One call made through the client with its partner account set to `acct`. */
  function ScopedExchange(s: ClientState, acct: Value, send: Request -> SendOutcome)
    : Call -> (Result<Response, Exception>, seq<Request>)
  {
    (c: Call) => ClientExchange(s.(partnerAccount := acct), c.url, c.verb, c.data, send)
  }

  /** The calls of a sub-account scope, all made with the partner account set to `acct`. */
  function ScopedCalls(s: ClientState, acct: Value, calls: seq<Call>, send: Request -> SendOutcome)
    : (out: (Result<seq<Response>, Exception>, seq<Request>))
  {
    RunCalls(ScopedExchange(s, acct, send), calls)
  }

  /** Inside a scope for a truthy account, every request sent carries that account's override. */
  lemma ScopedRequestsCarryOverride(s: ClientState, acct: Value, calls: seq<Call>, send: Request -> SendOutcome)
    requires Truthy(acct)
    ensures forall q :: q in ScopedCalls(s, acct, calls, send).1 ==> HasOverride(q, acct)
  {
    var exchange := ScopedExchange(s, acct, send);
    forall c: Call, q | q in exchange(c).1 ensures HasOverride(q, acct) {
      var u := WithOverride(c.url, acct);
      assert q.url == u;
      assert u[|c.url|..] == OverrideMarker + Render(acct);
    }
    RunCallsSendOnly(exchange, calls, q => HasOverride(q, acct));
  }

  /** The request's URL ends with `?overrideAccount=<acct>`. */
  predicate HasOverride(q: Request, acct: Value) {
    var suffix := OverrideMarker + Render(acct);
    |suffix| <= |q.url| && q.url[|q.url| - |suffix|..] == suffix
  }

  /** A `Boompy` object. */
  class Boompy {
    var accountId: Value
    var username: Value
    var password: Value
    var partnerAccount: Value
    /** The resource classes set as attributes on the object, by name. */
    var resources: map<string, ResourceType>

    function State(): ClientState
      reads this
    {
      ClientState(accountId, username, password, partnerAccount)
    }

    /**
     * The assignments `__init__` makes once its checks pass (`Connect` performs the
     * checks): the credentials, then the factory table, then Account and Role.
     */
    constructor(accountId': Value, username': Value, password': Value)
      ensures State() == ClientState(accountId', username', password', Null)
      ensures resources == Registry(ClientEntities)["Account" := AccountType]["Role" := RoleType]
    {
      accountId, username, password := accountId', username', password';
      partnerAccount := Null;
      resources := map[];
      new;
      InitResourcesFromFactory();
      InitResourcesFromInheritance();
    }

    /** `init_resources_from_factory`: one resource class per table row, set under its name. */
    method InitResourcesFromFactory()
      modifies this
      ensures State() == old(State())
      ensures resources == old(resources) + Registry(ClientEntities)
    {
      TablesAreWellFormed();
      RegisterTable(ClientEntities);
    }

    /** The factory loop over a table: each row's type set under the row's name, in order. */
    method RegisterTable(table: seq<Entry>)
      requires forall i :: 0 <= i < |table| ==> WellFormed(table[i])
      modifies this
      ensures State() == old(State())
      ensures resources == old(resources) + Registry(table)
    {
      var i := 0;
      while i < |table|
        invariant 0 <= i <= |table|
        invariant State() == old(State())
        invariant resources == old(resources) + Registry(table[..i])
      {
        var e := table[i];
        TableStep(table, i, old(resources), []);
        resources := resources[e.name := FactoryType(e)];
        i := i + 1;
      }
      assert table[..i] == table;
    }

    /** `init_resources_from_inheritance`: the hand-written Account and Role classes. */
    method InitResourcesFromInheritance()
      modifies this
      ensures State() == old(State())
      ensures resources == old(resources)["Account" := AccountType]["Role" := RoleType]
    {
      resources := resources["Account" := AccountType];
      resources := resources["Role" := RoleType];
    }

    /** `base_url(partner)`. */
    method BaseUrl(partner: bool) returns (r: string)
      ensures r == ClientBaseUrl(State(), partner)
    {
      var base := if partner || Truthy(partnerAccount) then PartnerBaseUrl else Transport.BaseUrl;
      r := base + "/" + Render(accountId);
    }

    /** `https_request`: rebinds the URL with the override, sends, classifies the status. */
    method HttpsRequest(url: string, verb: string, data: Value, send: Request -> SendOutcome)
      returns (r: Result<Response, Exception>, sent: seq<Request>)
      ensures (r, sent) == ClientExchange(State(), url, verb, data, send)
    {
      var target := url;
      if Truthy(partnerAccount) {
        target := target + OverrideMarker + Render(partnerAccount);
      }
      var delivered := Deliver(target, verb, data, send);
      sent := delivered.1;
      if delivered.0.Err? {
        return delivered.0, sent;
      }
      var res := delivered.0.value;
      if res.status == StatusOk {
        r := Ok(res);
      } else if res.status in {StatusServiceUnavailable, StatusTooMany} {
        r := Err(RaiseFromResponse(RateLimitErrorClass, res));
      } else if res.status == StatusNotFound {
        r := Err(RaiseFromResponse(NotFoundErrorClass, res));
      } else {
        r := Err(RaiseFromResponse(APIRequestErrorClass, res));
      }
    }

    /**
     * `with client.sub_account(acct): <calls>` as written: entering the block reads
     * `self.api`, which the object never has, so nothing changes and nothing is sent.
     */
    method SubAccountAsWritten(acct: Value, calls: seq<Call>, send: Request -> SendOutcome)
      returns (r: Result<seq<Response>, Exception>, sent: seq<Request>)
      ensures r == Err(AttributeError("'Boompy' object has no attribute 'api'")) && sent == []
    {
      r, sent := Err(AttributeError("'Boompy' object has no attribute 'api'")), [];
    }

    /**
     * `with client.sub_account(acct): <calls>` as intended: the calls run with the partner
     * account set to `acct`, and the previous value is restored on every exit, including
     * when a call raises.
     */
    method SubAccount(acct: Value, calls: seq<Call>, send: Request -> SendOutcome)
      returns (r: Result<seq<Response>, Exception>, sent: seq<Request>)
      modifies this
      ensures State() == old(State()) && resources == old(resources)
      ensures (r, sent) == ScopedCalls(old(State()), acct, calls, send)
    {
      var previous := partnerAccount;
      partnerAccount := acct;
      ghost var exchange := ScopedExchange(old(State()), acct, send);
      var done: seq<Response> := [];
      sent := [];
      r := Ok([]);
      var i := 0;
      while i < |calls|
        invariant 0 <= i <= |calls|
        invariant State() == old(State()).(partnerAccount := acct) && resources == old(resources)
        invariant RunCalls(exchange, calls[..i]) == (Ok(done), sent)
        invariant r == Ok(done)
      {
        assert calls[..i + 1][..i] == calls[..i];
        var res, more := HttpsRequest(calls[i].url, calls[i].verb, calls[i].data, send);
        sent := sent + more;
        if res.Err? {
          r := Err(res.error);
          RunFailureSticks(exchange, calls, i + 1);
          break;
        }
        done := done + [res.value];
        r := Ok(done);
        i := i + 1;
      }
      if r.Ok? {
        assert calls[..i] == calls;
      }
      partnerAccount := previous;
    }
  }

  /**
   * `Boompy(account_id, username, password)`: raises UnauthorizedError before anything is
   * set up when a credential is missing; otherwise a new client with every resource class.
   */
  method Connect(accountId: Value, username: Value, password: Value) returns (r: Result<Boompy, Exception>)
    ensures r.Err? <==> CredentialCheck(accountId, username, password).Some?
    ensures r.Err? ==> r.error == CredentialCheck(accountId, username, password).value
    ensures r.Ok? ==> fresh(r.value) && r.value.State() == ClientState(accountId, username, password, Null)
    ensures r.Ok? ==> r.value.resources == Registry(ClientEntities)["Account" := AccountType]["Role" := RoleType]
  {
    var check := CredentialCheck(accountId, username, password);
    if check.Some? {
      return Err(check.value);
    }
    var client := new Boompy(accountId, username, password);
    r := Ok(client);
  }

  /** Every registered name maps to its table row's type, except that Account and Role are the hand-written classes. */
  lemma ClientResources(i: nat)
    requires i < |ClientEntities|
    ensures var rs := Registry(ClientEntities)["Account" := AccountType]["Role" := RoleType];
      ClientEntities[i].name in rs && rs[ClientEntities[i].name] == FactoryType(ClientEntities[i])
  {
    TablesAreWellFormed();
    RegistryHoldsEveryEntry(ClientEntities);
  }
}
