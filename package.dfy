/**
 * The package's own entry points (boompy/__init__.py): the sub-account scope on the `API`
 * object, the Role and AccountUserRole query overrides, and the factory loop that
 * defines and exports the table's types.
 */
module Package {
  import opened Outcomes
  import opened Values
  import opened Wire
  import opened Errors
  import opened Transport
  import opened Filters
  import opened ResourceTypes
  import opened Catalogue
  import opened BaseApi
  import opened Gateway
  import opened Resource

  /** One call made through an `API` object with its partner account set to `acct`. */
  function ApiScopedExchange(s: ApiState, acct: Value, send: Request -> SendOutcome)
    : Call -> (Result<Response, Exception>, seq<Request>)
  {
    (c: Call) => Exchange(s.(partnerAccount := acct), c.url, c.verb, c.data, send)
  }

  /**
   * `with sub_account(acct): <calls>`: the calls run with `partner_account` set to `acct`;
   * the previous value is restored on every exit, including when a call raises.
   */
  method SubAccount(api: Api, acct: Value, calls: seq<Call>, send: Request -> SendOutcome)
    returns (r: Result<seq<Response>, Exception>, sent: seq<Request>)
    modifies api
    ensures api.State() == old(api.State())
    ensures (r, sent) == RunCalls(ApiScopedExchange(old(api.State()), acct, send), calls)
  {
    var previous := api.partnerAccount;
    api.partnerAccount := acct;
    ghost var exchange := ApiScopedExchange(old(api.State()), acct, send);
    var done: seq<Response> := [];
    sent := [];
    r := Ok([]);
    var i := 0;
    while i < |calls|
      invariant 0 <= i <= |calls|
      invariant api.State() == old(api.State()).(partnerAccount := acct)
      invariant RunCalls(exchange, calls[..i]) == (Ok(done), sent)
      invariant r == Ok(done)
    {
      assert calls[..i + 1][..i] == calls[..i];
      var res, more := api.HttpsRequest(calls[i].url, calls[i].verb, calls[i].data, send);
      sent := sent + more;
      if res.Err? {
        r := Err(res.error);
        RunFailureSticks(exchange, calls, i + 1);
        break;
      }
      done := done + [res.value];
      r := Ok(done);
      i := i + 1;
    }
    if r.Ok? {
      assert calls[..i] == calls;
    }
    api.partnerAccount := previous;
  }

  /** Inside the scope every request goes to the partner base's override, as long as `acct` is set. */
  lemma ApiScopedRequestsCarryOverride(s: ApiState, acct: Value, calls: seq<Call>, send: Request -> SendOutcome)
    requires Truthy(acct)
    ensures forall q :: q in RunCalls(ApiScopedExchange(s, acct, send), calls).1 ==> Client.HasOverride(q, acct)
  {
    var exchange := ApiScopedExchange(s, acct, send);
    forall c: Call, q | q in exchange(c).1 ensures Client.HasOverride(q, acct) {
      var u := WithOverride(c.url, acct);
      assert q.url == u;
      assert u[|c.url|..] == OverrideMarker + Render(acct);
    }
    RunCallsSendOnly(exchange, calls, q => Client.HasOverride(q, acct));
  }

  /** `Role.query(**kwargs)`: any keyword at all is refused; otherwise an unfiltered query joined by "and". */
  function RoleQueryOutcome(gs: GatewayState, kwargs: seq<(string, Value)>, send: Request -> SendOutcome)
    : (out: (Result<seq<map<string, Value>>, Exception>, seq<Request>))
    ensures kwargs != [] ==> out == (Err(InterfaceError("A keyword arg")), [])
    ensures kwargs == [] ==> out == QueryOutcome(RoleType, gs, DefaultJoin, [], send)
  {
    if kwargs != [] then (Err(InterfaceError("A keyword arg")), [])
    else QueryOutcome(RoleType, gs, DefaultJoin, [], send)
  }

  /** A Role query without keywords posts the empty filter `{}`; with one it sends nothing. */
  lemma RoleQueryBody(gs: GatewayState, kwargs: seq<(string, Value)>, send: Request -> SendOutcome)
    ensures QueryBody(DefaultJoin, []) == Ok(Object(map[]))
    ensures kwargs != [] ==>
      RoleQueryOutcome(gs, kwargs, send).1 == [] && Message(RoleQueryOutcome(gs, kwargs, send).0.error) == "A keyword arg" + InterfaceSuffix
  {
    AllNoneMeansNoFilter(DefaultJoin, []);
  }

  /** `Role.query(**kwargs)`. */
  method RoleQuery(gw: Channel, kwargs: seq<(string, Value)>, send: Request -> SendOutcome)
    returns (r: Result<seq<Instance>, Exception>, sent: seq<Request>)
    ensures var (out, wire) := RoleQueryOutcome(Snapshot(gw), kwargs, send);
      sent == wire && (r.Ok? <==> out.Ok?)
      && (r.Err? ==> r.error == out.error)
      && (r.Ok? ==> |r.value| == |out.value|
                    && forall i :: 0 <= i < |r.value| ==>
                         fresh(r.value[i]) && r.value[i].rtype == RoleType && r.value[i].attrs == out.value[i])
  {
    if kwargs != [] {
      return Err(InterfaceError("A keyword arg")), [];
    }
    r, sent := Query(RoleType, gw, DefaultJoin, [], send);
  }

  /**
   * `AccountUserRole.query(**kwargs)` as written: its body names `self` in a classmethod,
   * so every call raises NameError before a request is built.
   */
  function AccountUserRoleQueryAsWritten(gs: GatewayState, join: string, kwargs: seq<(string, Value)>, send: Request -> SendOutcome)
    : (out: (Result<seq<map<string, Value>>, Exception>, seq<Request>))
    ensures out.0.Err? && out.1 == []
    ensures !IsInstance(out.0.error, BoomiErrorClass)
  {
    (Err(NameError("self")), [])
  }

  /** `AccountUserRole.query(**kwargs)` as intended: the query's result, with a request error answered by `[]`. */
  function AccountUserRoleQueryOutcome(gs: GatewayState, join: string, kwargs: seq<(string, Value)>, send: Request -> SendOutcome)
    : (out: (Result<seq<map<string, Value>>, Exception>, seq<Request>))
    ensures out.1 == QueryOutcome(AccountUserRoleType, gs, join, kwargs, send).1
    ensures out.0.Err? ==> !IsInstance(out.0.error, APIRequestErrorClass)
    ensures out.0.Err? ==> out.0 == QueryOutcome(AccountUserRoleType, gs, join, kwargs, send).0
  {
    var (r, sent) := QueryOutcome(AccountUserRoleType, gs, join, kwargs, send);
    if r.Err? && IsInstance(r.error, APIRequestErrorClass) then (Ok([]), sent) else (r, sent)
  }

  /**
   * The server's 500 for a missing AccountUserRole: as intended the query answers `[]`
   * after sending its request; as written it raises NameError, a non-library error, and
   * sends nothing.
   */
  lemma AccountUserRoleQueryOnServerError(gs: GatewayState, join: string, kwargs: seq<(string, Value)>, send: Request -> SendOutcome)
    requires gs.ClientSnapshot? && QueryBody(join, kwargs).Ok?
    requires !Contains(CollectionUrl(AccountUserRoleType, gs, false).value + "/query", "update")
    requires forall q: Request :: send(q) == Received(Response(500, "Internal Server Error", None))
    ensures AccountUserRoleQueryOutcome(gs, join, kwargs, send).0 == Ok([])
    ensures |AccountUserRoleQueryOutcome(gs, join, kwargs, send).1| == 1
    ensures AccountUserRoleQueryAsWritten(gs, join, kwargs, send) == (Err(NameError("self")), [])
  {
    assert Permits(AccountUserRoleType.supported, "query");
    QueryOnServerError(AccountUserRoleType, gs, join, kwargs, send);
  }

  /** `AccountUserRole.query(**kwargs)` as intended. */
  method AccountUserRoleQuery(gw: Channel, join: string, kwargs: seq<(string, Value)>, send: Request -> SendOutcome)
    returns (r: Result<seq<Instance>, Exception>, sent: seq<Request>)
    ensures var (out, wire) := AccountUserRoleQueryOutcome(Snapshot(gw), join, kwargs, send);
      sent == wire && (r.Ok? <==> out.Ok?)
      && (r.Err? ==> r.error == out.error)
      && (r.Ok? ==> |r.value| == |out.value|
                    && forall i :: 0 <= i < |r.value| ==>
                         fresh(r.value[i]) && r.value[i].rtype == AccountUserRoleType && r.value[i].attrs == out.value[i])
  {
    r, sent := Query(AccountUserRoleType, gw, join, kwargs, send);
    if r.Err? && IsInstance(r.error, APIRequestErrorClass) {
      r := Ok([]);
    }
  }

  /** The classes the module defines by hand before the factory loop runs. */
  const HandWritten: map<string, ResourceType> :=
    map["Account" := AccountType, "Role" := RoleType, "AccountUserRole" := AccountUserRoleType]

  /** `__all__` as first written. */
  const InitiallyExported: seq<string> := ["Account", "Role"]

  /** The factory loop over a table: append each name to `__all__` and define the type under it. */
  method DefineTable(table: seq<Entry>, registry0: map<string, ResourceType>, exported0: seq<string>)
    returns (registry: map<string, ResourceType>, exported: seq<string>)
    requires forall i :: 0 <= i < |table| ==> WellFormed(table[i])
    ensures exported == exported0 + Names(table)
    ensures registry == registry0 + Registry(table)
  {
    registry, exported := registry0, exported0;
    var i := 0;
    while i < |table|
      invariant 0 <= i <= |table|
      invariant exported == exported0 + Names(table[..i])
      invariant registry == registry0 + Registry(table[..i])
    {
      var e := table[i];
      TableStep(table, i, registry0, exported0);
      exported := exported + [e.name];
      registry := registry[e.name := FactoryType(e)];
      i := i + 1;
    }
    assert table[..i] == table;
  }

  /** Importing the package: the hand-written classes, then the factory loop over its table. */
  method DefineEntities() returns (registry: map<string, ResourceType>, exported: seq<string>)
    ensures exported == InitiallyExported + Names(PackageEntities)
    ensures registry == HandWritten + Registry(PackageEntities)
  {
    TablesAreWellFormed();
    registry, exported := DefineTable(PackageEntities, HandWritten, InitiallyExported);
  }

  /** With distinct names, every row ends up exported and defined as its own type, whatever was there before. */
  lemma DefinedAndExported(table: seq<Entry>, registry0: map<string, ResourceType>, exported0: seq<string>)
    requires forall i :: 0 <= i < |table| ==> WellFormed(table[i])
    requires forall i, j :: 0 <= i < j < |table| ==> table[i].name != table[j].name
    ensures forall i :: 0 <= i < |table| ==> table[i].name in exported0 + Names(table)
    ensures forall i :: 0 <= i < |table| ==> table[i].name in registry0 + Registry(table)
    ensures forall i :: 0 <= i < |table| ==> (registry0 + Registry(table))[table[i].name] == FactoryType(table[i])
  {
    RegistryHoldsEveryEntry(table);
    forall i | 0 <= i < |table| ensures table[i].name in exported0 + Names(table) {
      assert (exported0 + Names(table))[|exported0| + i] == table[i].name;
    }
  }

  /** After import, AccountUserRole is defined (by hand) but not exported. */
  lemma AccountUserRoleNotExported()
    ensures "AccountUserRole" in HandWritten + Registry(PackageEntities)
    ensures "AccountUserRole" !in InitiallyExported + Names(PackageEntities)
  {
    TablesAreWellFormed();
    assert forall i :: 0 <= i < |PackageEntities| ==> PackageEntities[i].name != "AccountUserRole";
    NameNotInNames(PackageEntities, "AccountUserRole");
  }

  /** A name no row carries is not among the table's names. */
  lemma NameNotInNames(table: seq<Entry>, n: string)
    requires forall i :: 0 <= i < |table| ==> table[i].name != n
    ensures n !in Names(table)
  {
    var names := Names(table);
    assert forall i :: 0 <= i < |names| ==> names[i] == table[i].name;
  }
}
