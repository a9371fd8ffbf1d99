# boompy in Dafny

A model of the core of boompy, a small Python client for the Boomi AtomSphere REST API.
The model covers:

- the resource layer (`Resource`: construction, `serialize`, `get`, `query`, `save`,
  `delete`, `url`, the `perm_check` capability guard and the query-filter builder);
- the two transport objects: the package-level `API` class and the `Boompy` client
  object (credentials, base URLs, the `?overrideAccount=` partner override, the status
  classification and the sub-account scope);
- the package module (the hand-written `Account`, `Role` and `AccountUserRole` classes, the
  factory loop that defines the other resource classes and fills `__all__`);
- the exception hierarchy.

Python values are `Values.Value`, where `Null` is `None`. Truthiness (`Truthy`) and `%s`
formatting (`Render`) are written out.

The network is a function parameter `send: Request -> SendOutcome`. Every operation that
talks to the server also returns the requests it sent, so "nothing is sent" is `sent == []`.

Each behaviour is specified twice. A pure function works on a snapshot of the state:
`QueryOutcome`, `SaveOutcome`, `Exchange`, `ClientExchange`. Beside it sits the imperative
member that performs it: a class method or a method with a loop. Each such method's
`ensures` ties its result and its new state to the function. The lemmas state what the
library promises about those functions.

Modules, one per file:

- values.dfy: `Outcomes`, `Values`
- errors.dfy: `Wire`, `Errors`
- query.dfy: `Filters`
- transport.dfy: `Transport`
- types.dfy: `ResourceTypes`
- catalogue.dfy: `Catalogue`
- base_api.dfy: `BaseApi`
- client.dfy: `Client`
- gateway.dfy: `Gateway`
- resource.dfy: `Resource`
- package.dfy: `Package`

## Model

| member | source | states |
|---|---|---|
| Errors.SubclassTransitive | boompy/errors.py:3-55 | `issubclass` over the declared hierarchy is transitive |
| Errors.LibraryErrorsAreBoomiErrors | boompy/errors.py:3-55 | an exception is a BoomiError exactly when it is one of the library's own classes, not a Python built-in |
| Errors.RequestErrorFamily | boompy/errors.py:20-42 | `except APIRequestError` catches exactly APIRequestError, NotFoundError and RateLimitError |
| Errors.NotAllowedMessageNamesMethod | boompy/errors.py:44-55 | the method-not-allowed message has the attempted method at a fixed place, so the message determines the method |
| Errors.InterfaceMessageNamesArgument | boompy/errors.py:13-17 | the interface-error message starts with the rejected argument and determines it |
| Errors.RequestMessage | boompy/errors.py:20-30 | the message is `"<status>: <message field>"` for a JSON object body, `"<status>: <raw body>"` when the body is not JSON, and an AttributeError for JSON that is not an object |
| Errors.RaiseFromResponse | boompy/errors.py:20-42 | raising a request-error class yields that class with the message above, or the AttributeError that escapes its constructor |
| Errors.NonJsonBodyIsReportedRaw | tests/boompy_tests.py:50-58 | the body `{'message': 'testing'}` is not JSON, so a 404 carrying it is reported as `NotFoundError("404: {'message': 'testing'}")` |
| Filters.ParseKey | boompy/resource.py:17 | a match yields a non-empty `\w+` property; a recognised suffix is one of the table's operators, and the key is then `property__suffix` |
| Filters.OperatorShapes | boompy/resource.py:17-31 | every operator suffix is a non-empty word that neither starts with `_` nor contains `__` |
| Filters.SuffixedKey | boompy/resource.py:17 | the lazy `\w+?` stops at the first split: `prop__op` with a known `op` parses to `(prop, op)` |
| Filters.PlainKey | boompy/resource.py:17 | a word key with no `__op` split parses to the whole key with no operator |
| Filters.NonWordKeyFails | boompy/resource.py:17 | a key holding a character outside `\w` does not match, so `.groups()` fails |
| Filters.LeafFor | boompy/resource.py:126-139 | a leaf exists exactly when the key matches; its property is the matched property, its argument is the value wrapped in a list unless it already is one, and its operator is the table's entry for the suffix, or EQUALS without one |
| Filters.LeavesFromNonNull | boompy/resource.py:125-139 | the loop succeeds exactly when every non-None constraint's key matches, and then yields one leaf per non-None constraint, in order |
| Filters.Combine | boompy/resource.py:141-147 | no leaves give no filter, one leaf is used bare, several are nested under the join operator |
| Filters.QueryBodyShape | boompy/resource.py:141-152 | the request body is `{}`, `{"QueryFilter": {"expression": leaf}}` or the nested join, according to the number of leaves |
| Filters.AllNoneMeansNoFilter | boompy/resource.py:125-152 | when every constraint is None the query is sent with the empty body `{}` |
| Filters.SingleEqualityConstraint | boompy/resource.py:125-150 | one plain constraint `name=v` gives the bare leaf `{argument: [v], operator: EQUALS, property: name}` |
| Filters.LeavesFailureSticks | boompy/resource.py:125-139 | once a prefix of the constraints fails to parse, the whole query fails the same way |
| Filters.BuildQueryBody | boompy/resource.py:122-152 | the loop computes exactly `QueryBody(join, kwargs)` |
| Transport.WithOverride | boompy/base_api.py:24-25 | the URL is unchanged exactly when no partner account is set; otherwise `?overrideAccount=<account>` is appended |
| Transport.AccountBaseUrl | boompy/base_api.py:10-44 | the partner base is used exactly when asked for or when a partner account is set, followed by `/<account id>` |
| Transport.Deliver | boompy/base_api.py:28-32 | an unknown method name fails with AttributeError and sends nothing; otherwise exactly one request is sent, and a failure of the send is wrapped in BoomiError |
| Transport.RunFailureSticks | boompy/__init__.py:17-27 | inside a `with` block the first exception ends the block and is what the block raises |
| Transport.RunCallsSendOnly | boompy/__init__.py:17-27 | a property of every request of one call holds of every request of the block |
| ResourceTypes.CreateResource | boompy/resource.py:76-89 | the new class is named and addressed by the type name, keeps the attributes and identity attribute, and has the default capabilities overridden by the keyword arguments |
| ResourceTypes.EffectiveMethod | boompy/resource.py:36-43 | a URL containing "update" is checked as `put`; else one containing "query" as `query`; else the requested method |
| ResourceTypes.PermCheck | boompy/resource.py:45-47 | the call goes through exactly when the effective capability is truthy; otherwise APIMethodNotAllowedError names the requested method |
| ResourceTypes.UpdateUrlIsCheckedAsPut | boompy/resource.py:40-41 | whatever method is requested, a URL ending in "/update" is checked as `put` |
| ResourceTypes.QueryUrlIsCheckedAsQuery | boompy/resource.py:42-43 | a URL ending in "/query" that does not mention "update" is checked as `query` |
| Catalogue.FactoryType | boompy/__init__.py:113-115 | a table row becomes `create_resource(name, attrs, **kwargs)`; an `id_attr` keyword sets the identity and is not a capability |
| Catalogue.RegistryKeys | boompy/boompy.py:121-124 | the factory loop registers exactly the table's names |
| Catalogue.TableStep | boompy/boompy.py:121-124 | one more row appends its name and defines its type under that name |
| Catalogue.RegistryHoldsEveryEntry | boompy/boompy.py:121-124 | with distinct names, each name is bound to its own row's type |
| Catalogue.TablesAreWellFormed | boompy/boompy.py:104-119 | both factory tables are well formed and name each type once |
| Catalogue.EventTypesOnlyQuery | boompy/__init__.py:98-103 | the Event (and client Events) type is identified by `eventId` and permits only `query` |
| Catalogue.IntegrationPackInstanceAllButPut | boompy/__init__.py:106-107 | IntegrationPackInstance permits every capability except `put` |
| Catalogue.RoleOnlyQuery | boompy/__init__.py:55-61 | Role permits exactly `query` |
| Catalogue.AccountCapabilities | boompy/__init__.py:35-41 | Account permits get, post and query, and not put or delete |
| BaseApi.MissingCredentialAsWritten | boompy/base_api.py:8-42 | as written, a missing credential raises NameError("UnauthorizedError"), which is not a BoomiError |
| BaseApi.MissingCredential | boompy/base_api.py:40-51 | as intended, a missing credential raises UnauthorizedError carrying the reason |
| BaseApi.MissingCredentialDiffers | boompy/base_api.py:8-42 | the intended error is a BoomiError and the raised one is not |
| BaseApi.ApiBaseUrl | boompy/base_api.py:40-44 | as intended: succeeds exactly when the credentials are set and the account id is not None, with the account base URL; a None account id raises UnauthorizedError |
| BaseApi.SessionCheck | boompy/base_api.py:46-51 | as intended: passes exactly when username and password are both set; either missing is reported as UnauthorizedError with the username message |
| BaseApi.ApiBaseUrlAsWritten | boompy/base_api.py:40-44 | as written, a None account id raises the NameError of the unimported name; every other outcome is the intended `ApiBaseUrl`'s |
| BaseApi.SessionCheckAsWritten | boompy/base_api.py:46-51 | as written, a missing username or password raises the NameError; every other outcome is the intended `SessionCheck`'s |
| BaseApi.MissingAccountIdAsWritten | boompy/base_api.py:40-42 | after `_set_auth(None, u, p)`, `base_url()` as written raises a NameError that is not a BoomiError, where the intended code raises UnauthorizedError |
| BaseApi.MissingUserAsWritten | boompy/base_api.py:46-51 | with the username or the password None, the session check as written raises the NameError, where the intended one raises UnauthorizedError |
| BaseApi.StatusCheck | boompy/base_api.py:34-37 | status 200 returns the response; any other raises APIRequestError built from it |
| BaseApi.Exchange | boompy/base_api.py:23-37 | as intended (the session check raises UnauthorizedError): a failed session check sends nothing; otherwise one request goes to the overridden URL; an unknown method is the AttributeError of delivery, a failed send is `BoomiError(cause)`, and a received response is `StatusCheck`'s result: returned when it is a 200, else the APIRequestError built from it |
| BaseApi.ExchangeSendsAtMostOnce | boompy/base_api.py:23-32 | a request is sent exactly when both credentials are set and the method exists, and it goes to the overridden URL |
| BaseApi.Api.constructor | boompy/base_api.py:15 | a fresh object has no partner account and no credential attributes |
| BaseApi.Api.SetAuth | boompy/base_api.py:17-21 | stores exactly the given credentials and leaves the partner account alone |
| BaseApi.Api.BaseUrl | boompy/base_api.py:40-44 | returns `ApiBaseUrl` of the object's state |
| BaseApi.Api.HttpsRequest | boompy/base_api.py:23-37 | returns and sends exactly what `Exchange` of the object's state does |
| Client.CredentialCheck | boompy/boompy.py:32-40 | passes exactly when all three credentials are set; each failure is an UnauthorizedError, with the account-id message only when username and password are present |
| Client.ClientStatus | boompy/boompy.py:71-78 | 200 returns; 503 or 429 raise RateLimitError; 404 raises NotFoundError; any other status raises APIRequestError |
| Client.ClassificationRefinesTwoWay | boompy/boompy.py:71-78 | both objects accept exactly status 200, and `except APIRequestError` catches every failure of either with the same message |
| Client.ClientBaseUrl | boompy/boompy.py:81-82 | the partner base exactly when asked for or when a partner account is set |
| Client.ClientExchange | boompy/boompy.py:60-78 | no session check: sends exactly what delivering to the overridden URL sends; an unknown method is the AttributeError of delivery, a failed send is `BoomiError(cause)`, and a received response is `ClientStatus`'s four-way result |
| Client.ClientPostOnServerError | boompy/boompy.py:60-78 | a post answered with any status but 200 and a body that is not JSON raises something `except APIRequestError` catches, after one request |
| Client.ScopedRequestsCarryOverride | boompy/boompy.py:50-58 | inside a sub-account scope for a truthy account, every request sent carries that account's override |
| Client.Boompy.constructor | boompy/boompy.py:42-47 | stores the credentials with no partner account, then registers the factory table and the hand-written Account and Role |
| Client.Boompy.InitResourcesFromFactory | boompy/boompy.py:103-124 | adds exactly the client table's registry, leaving the credentials alone |
| Client.Boompy.RegisterTable | boompy/boompy.py:121-124 | the loop adds exactly `Registry(table)` to the registered resources |
| Client.Boompy.InitResourcesFromInheritance | boompy/boompy.py:126-172 | sets Account and then Role to the hand-written classes |
| Client.Boompy.BaseUrl | boompy/boompy.py:81-82 | returns `ClientBaseUrl` of the object's state |
| Client.Boompy.HttpsRequest | boompy/boompy.py:60-78 | returns and sends exactly what `ClientExchange` of the object's state does |
| Client.Boompy.SubAccountAsWritten | boompy/boompy.py:52-53 | as written, entering the scope raises AttributeError for `api` and runs nothing |
| Client.Boompy.SubAccount | boompy/boompy.py:50-58 | the block's calls run with the partner account set to the given account; afterwards the old state is restored, whether or not a call raised |
| Client.Connect | boompy/boompy.py:32-47 | fails exactly when a credential check fails, with that error; otherwise a fresh object holding the credentials and the full registry |
| Client.ClientResources | boompy/boompy.py:103-148 | after Account and Role are added, every row of the client table is still registered under its name as its own type |
| Gateway.GatewayBaseUrl | boompy/resource.py:182-194 | `boompy.api.base_url()` through either transport object; the partner base exactly when asked for or when a partner account is set |
| Gateway.GatewayExchange | boompy/resource.py:98 | through either transport object, only a 200 comes back, and at most one request goes to the overridden URL |
| Gateway.BaseUrl | boompy/resource.py:182-194 | returns `GatewayBaseUrl` of the gateway's state |
| Gateway.HttpsRequest | boompy/resource.py:98 | returns and sends exactly what `GatewayExchange` of the gateway's state does |
| Resource.InitialAttrs | boompy/resource.py:67-73 | every declared attribute is present; a declared keyword sets it, and otherwise it is None |
| Resource.UndeclaredKeysIgnored | boompy/resource.py:71-73 | an undeclared keyword argument changes nothing |
| Resource.SerializeAttrs | boompy/resource.py:107-108 | exactly the declared attributes whose value is not None, with their values |
| Resource.SerializeFresh | boompy/resource.py:67-108 | a fresh instance serialises to exactly its declared, non-None keyword arguments |
| Resource.PayloadAttrs | boompy/resource.py:101-104 | reading a payload sets every declared attribute to `payload.get(attr)`; a non-object payload fails with AttributeError unless there are no attributes |
| Resource.SerializeRoundTrip | boompy/resource.py:101-108 | reading back an echo of `serialize()` restores every attribute, the None ones included |
| Resource.ResponseAttrs | boompy/resource.py:101-104 | a non-JSON body raises ValueError; otherwise the payload is read as above |
| Resource.CollectionUrl | boompy/resource.py:182-185 | `<base>/<uri>` whenever the base URL can be built |
| Resource.UrlShapes | boompy/resource.py:188-194 | with neither an identity nor an explicit id, the collection URL; otherwise `<base>/<uri>/<id>`, the explicit id winning |
| Resource.NewAccountUsesPartnerBase | boompy/__init__.py:44-47 | a new Account with no explicit id is addressed under the partner base |
| Resource.Dispatch | boompy/resource.py:33-98 | a refused capability raises before anything is sent; otherwise the gateway's request is made |
| Resource.GetOutcome | boompy/resource.py:111-118 | a failing `url(boomi_id)` raises before anything is sent; a refused `get` sends nothing; a successful `get` yields a complete set of attributes |
| Resource.GetSendsAndReads | boompy/resource.py:111-118 | a permitted `get` makes exactly the gateway's exchange of `{}` with `url(boomi_id)`, fails as it fails, and otherwise takes its attributes from the reply's JSON |
| Resource.GetRefusedWithoutPermission | boompy/resource.py:111-118 | a type that does not permit `get` refuses without sending, whatever the id |
| Resource.PayloadsAttrs | boompy/resource.py:157-161 | one attribute map per payload, in order, each read from its payload; it fails exactly when some payload cannot be read |
| Resource.PayloadsFailureSticks | boompy/resource.py:157-161 | once a prefix of the payloads fails, the whole result fails the same way |
| Resource.ResultPayloads | boompy/resource.py:155-157 | succeeds exactly when the body is a JSON object whose `result`, if present, is a list; the payloads are that list's items, or none when `result` is absent; a non-JSON body raises ValueError, a non-object AttributeError, a non-list `result` TypeError |
| Resource.QueryOutcome | boompy/resource.py:121-163 | a malformed constraint fails before anything is sent; it sends what `QueryPayloads` sends; on success there is one complete attribute map per payload of the reply, each read from its own payload, and it fails exactly when some payload cannot be read |
| Resource.QueryPayloads | boompy/resource.py:121-157 | a malformed constraint or a failing base URL raises before anything is sent, and a request goes out only when both succeed |
| Resource.QueryReadsEveryPayload | boompy/resource.py:154-163 | a permitted query whose exchange succeeds returns exactly the instances read from the reply's `result` items, one per item |
| Resource.QuerySendsOnePost | boompy/resource.py:154 | a permitted query sends one post of the filter body to `<collection>/query`; one without the `query` capability sends nothing |
| Resource.QueryOnServerError | boompy/resource.py:154 | through a client, a permitted query whose post is answered with a status other than 200 and a non-JSON body raises APIRequestError after one request |
| Resource.SaveTargetAsWritten | boompy/resource.py:169-174 | as written, `save` posts to `url()` whether or not the instance has an identity |
| Resource.SaveTarget | boompy/resource.py:169-172 | as intended, `save` posts to `<url>/update` once the instance has an identity, and to `url()` otherwise |
| Resource.SaveOfPersistedIsCheckedAsPut | boompy/resource.py:166-175 | as intended, saving a persisted instance is checked as `put` |
| Resource.SaveVia | boompy/resource.py:174-175 | a failed target or a refused capability sends nothing; otherwise, for every gateway, it makes exactly the gateway's post of `serialize()` to the target, fails as that fails, and otherwise takes its attributes from the reply's JSON |
| Resource.SaveOutcomeAsWritten | boompy/resource.py:169-175 | as written, `save` posts `serialize()` to `url()` itself and `perm_check` judges that URL as a post |
| Resource.SaveOutcome | boompy/resource.py:169-175 | as intended, a new instance is saved exactly as written, and a persisted one is posted to `<url>/update`, refused without the `put` capability |
| Resource.SaveEchoKeepsAttributes | boompy/resource.py:166-175 | when the server echoes the posted body, a successful save leaves the attributes unchanged |
| Resource.SaveAsWrittenBypassesUpdateCheck | boompy/resource.py:171-174 | for a type that permits post but not put, the intended save is refused, while the save as written posts to the item URL |
| Resource.SaveAsWrittenMissesUpdateUrl | boompy/resource.py:166-175 | for the Environment `e1` of account `acme`, the save as written posts to `.../acme/Environment/e1`, and the intended save posts to `.../e1/update` |
| Resource.Instance.constructor | boompy/resource.py:67-73 | the two loops produce exactly `InitialAttrs` |
| Resource.Instance.Populate | boompy/resource.py:101-104 | the attribute loop produces exactly `PayloadAttrs`, or reports its error and leaves the attributes unchanged |
| Resource.Instance.ApplyResponse | boompy/resource.py:101-104 | produces exactly `ResponseAttrs`, or reports its error and leaves the attributes unchanged |
| Resource.Instance.Url | boompy/resource.py:188-194 | returns `UrlOf` of the instance and the gateway's state |
| Resource.Instance.Save | boompy/resource.py:166-175 | sends what `SaveOutcome` sends; on success the attributes become its result, and on failure they are unchanged |
| Resource.Instance.Delete | boompy/resource.py:178-179 | does nothing and sends nothing |
| Resource.Send | boompy/resource.py:92-98 | returns and sends exactly what `Dispatch` does |
| Resource.Get | boompy/resource.py:111-118 | a fresh instance whose attributes are `GetOutcome`'s result, with the same requests sent |
| Resource.Query | boompy/resource.py:121-163 | one fresh instance per payload of the reply's `result` list, each holding the attributes read from its payload, in order, with the same requests sent as `QueryOutcome` |
| Resource.Instantiate | boompy/resource.py:156-163 | the result loop builds one fresh instance per payload, or fails exactly as `PayloadsAttrs` does |
| Package.SubAccount | boompy/__init__.py:17-27 | the block's calls run through the `API` object with its partner account set; afterwards its state is restored |
| Package.ApiScopedRequestsCarryOverride | boompy/__init__.py:17-27 | inside the scope every request carries the account's override |
| Package.RoleQueryOutcome | boompy/__init__.py:64-68 | any keyword raises InterfaceError and sends nothing; with none, an unfiltered query |
| Package.RoleQueryBody | boompy/__init__.py:64-68 | the keyword-less Role query posts the empty filter `{}` |
| Package.RoleQuery | boompy/__init__.py:64-68 | returns and sends exactly what `RoleQueryOutcome` does |
| Package.AccountUserRoleQueryAsWritten | boompy/__init__.py:87-92 | as written, the query raises NameError for `self`, which is not a BoomiError, and sends nothing |
| Package.AccountUserRoleQueryOutcome | boompy/__init__.py:85-92 | as intended, the query's own result, with any request error answered by `[]` and every other error passed on |
| Package.AccountUserRoleQueryOnServerError | boompy/__init__.py:85-92 | for the server's 500, the intended query answers `[]` after one request, and the query as written raises NameError |
| Package.AccountUserRoleQuery | boompy/__init__.py:87-92 | returns and sends exactly what `AccountUserRoleQueryOutcome` does, as fresh instances |
| Package.DefineTable | boompy/__init__.py:112-115 | the loop appends exactly the table's names to `__all__` and defines exactly its registry |
| Package.DefineEntities | boompy/__init__.py:10-115 | after import, `__all__` is `["Account", "Role"]` plus the table's names, and the module defines the hand-written classes plus the table's registry |
| Package.DefinedAndExported | boompy/__init__.py:112-115 | with distinct names, every row ends up exported and defined as its own type, whatever was there before |
| Package.AccountUserRoleNotExported | boompy/__init__.py:10-115 | AccountUserRole is defined after import but is not in `__all__` |

## Left out

- JSON encoding and decoding are not modelled. A response carries what `json.loads` makes of its body, or nothing when that raises ValueError. The request body is the value before `json.dumps`.
- The `requests` session is not modelled: its creation, the basic-auth tuple and the `Content-Type`/`Accept` headers. The session is reduced to the set of method names it has and the send function. Transport.Deliver reports any other verb as AttributeError with nothing sent. A Session attribute that is not an HTTP method (`close`, `request`) would instead fail inside the `try` with a TypeError, wrapped in BoomiError. No caller passes such a verb.
- `%s` of a list or a dict is rendered as a placeholder. Floating-point values are not modelled.
- boompy/actions.py and `Boompy.getAssignableRoles` are not part of this model.
- setup.py and the tests are not part of this model. One test's input appears as the example of `Errors.NonJsonBodyIsReportedRaw`.
- `API()` in the package module builds a new object at every call. The model gives resources one transport object, `Gateway.Channel`, and `boompy.api` is that parameter. The source's own wiring is not modelled, and nothing in the package ever binds `boompy.api`.
- Package.SubAccount: sets and restores `partner_account` on the one transport object of the model. In the source, `sub_account` sets it on a fresh `API()` that no request uses, so the scope has no effect.
- Package.ApiScopedRequestsCarryOverride: holds only under the one-object model. In the source, the resources' requests go through other `API()` objects, which never carry the override.
- Resource.NewAccountUsesPartnerBase: holds only under the one-object model. In the source, `Account.url` for a new Account calls `base_url` on a fresh `API()` with no `account_id`, which raises AttributeError.
- `set_auth` simply calls `_set_auth`, modelled as `BaseApi.Api.SetAuth`.
- Keyword arguments are an ordered sequence of pairs. Python 2's `iteritems` order is whatever the dict gives.
- `Resource.ResultPayloads`: a `result` field that is not a list is reported as a TypeError. Python would iterate a string's characters or a dict's keys instead.
- `Package.AccountUserRoleQueryOutcome` takes `join` as an explicit parameter. The Python override passes only `**kwargs`, so `join` would arrive as an ordinary keyword.
- The messages of Python built-in errors (NameError, AttributeError, ValueError, TypeError) follow CPython 2's wording only approximately.
- The `__name__` class property and the `_name` attribute have no effect on behaviour and are not modelled.

## Findings

| source | as written | input that shows it | evidently intended | confidence | as-written member | corrected member |
|---|---|---|---|---|---|---|
| boompy/resource.py:169-174 | `save` computes `url + "/update"` for a persisted instance, then posts to `self.url()` | an Environment with `id = "e1"`, saved through the client of account `acme`: the post goes to `.../acme/Environment/e1` | post to `.../acme/Environment/e1/update`, checked as `put` | not executed | Resource.SaveTargetAsWritten, Resource.SaveOutcomeAsWritten, Resource.SaveAsWrittenMissesUpdateUrl | Resource.SaveTarget, Resource.SaveOutcome, Resource.Instance.Save |
| boompy/base_api.py:8-51 | raises `UnauthorizedError`, which the module never imports | `base_url()` after `set_auth(None, "u", "p")` raises NameError, and `except BoomiError` does not catch it | raise UnauthorizedError with the reason | not executed | BaseApi.ApiBaseUrlAsWritten, BaseApi.MissingAccountIdAsWritten, BaseApi.SessionCheckAsWritten | BaseApi.ApiBaseUrl, BaseApi.SessionCheck |
| boompy/__init__.py:87-92 | `AccountUserRole.query` calls `super(AccountUserRole, self)` inside a classmethod whose first parameter is `cls`, and drops the result | any call: NameError for `self`, raised before any request, which `except APIRequestError` does not catch | `super(AccountUserRole, cls).query(**kwargs)`, returning its result, with a request error answered by `[]` | not executed | Package.AccountUserRoleQueryAsWritten, Package.AccountUserRoleQueryOnServerError | Package.AccountUserRoleQueryOutcome, Package.AccountUserRoleQuery |
| boompy/boompy.py:50-58 | `sub_account` reads and writes `self.api.partner_account`, but a `Boompy` object has no `api` attribute | `with client.sub_account("X"): ...` raises AttributeError on entry | save, set and restore `self.partner_account`, which `https_request` and `base_url` read | not executed | Client.Boompy.SubAccountAsWritten | Client.Boompy.SubAccount |
