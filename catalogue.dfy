/**
 * The declared resource types: the two factory tables (boompy/__init__.py and
 * boompy/boompy.py) and the hand-written classes Account, Role and AccountUserRole.
 */
module Catalogue {
  import opened Values
  import opened ResourceTypes

  /** One row of a factory table: type name, attributes, and the keyword arguments given to `create_resource`. */
  datatype Entry = Entry(name: string, attributes: seq<string>, kwargs: map<string, Value>)

  const IdAttrKey := "id_attr"

  /** An `id_attr` keyword, when present, names the identity attribute. */
  predicate WellFormed(e: Entry) {
    IdAttrKey in e.kwargs ==> e.kwargs[IdAttrKey].Str?
  }

  /**
   * `Resource.create_resource(name, attrs, **kwargs)`: the `id_attr` keyword binds to the
   * identity parameter (default "id"); every other keyword overrides a capability.
   */
  function FactoryType(e: Entry): (t: ResourceType)
    requires WellFormed(e)
    ensures IdAttrKey !in t.supported
    ensures t.idAttr == (if IdAttrKey in e.kwargs then e.kwargs[IdAttrKey].s else "id")
    ensures t.name == e.name && t.uri == e.name && t.attributes == e.attributes
    ensures forall m :: m in e.kwargs && m != IdAttrKey ==> m in t.supported && t.supported[m] == e.kwargs[m]
    ensures forall m :: m in Capabilities && m !in e.kwargs ==> Permits(t.supported, m)
  {
    var idAttr := if IdAttrKey in e.kwargs then e.kwargs[IdAttrKey].s else "id";
    CreateResource(e.name, e.attributes, idAttr, e.kwargs - {IdAttrKey})
  }

  /** The name each type is registered under, as a sequence in table order. */
  function Names(table: seq<Entry>): (r: seq<string>)
    ensures |r| == |table|
    ensures forall i :: 0 <= i < |table| ==> r[i] == table[i].name
  {
    if table == [] then [] else Names(table[..|table| - 1]) + [table[|table| - 1].name]
  }

  /** The factory loop: every entry registered under its name (a later entry replacing an earlier one). */
  function Registry(table: seq<Entry>): map<string, ResourceType>
    requires forall i :: 0 <= i < |table| ==> WellFormed(table[i])
  {
    if table == [] then map[]
    else
      var last := table[|table| - 1];
      Registry(table[..|table| - 1])[last.name := FactoryType(last)]
  }

  /** Exactly the table's names are registered. */
  lemma {:induction false} RegistryKeys(table: seq<Entry>)
    requires forall i :: 0 <= i < |table| ==> WellFormed(table[i])
    ensures forall k :: k in Registry(table) <==> k in Names(table)
  {
    if table != [] {
      var init := table[..|table| - 1];
      RegistryKeys(init);
      assert Names(table) == Names(init) + [table[|table| - 1].name];
    }
  }

  /** One more row of the table: its name is appended and its type defined. */
  lemma TableStep(table: seq<Entry>, i: nat, registry0: map<string, ResourceType>, exported0: seq<string>)
    requires i < |table| && forall j :: 0 <= j < |table| ==> WellFormed(table[j])
    ensures exported0 + Names(table[..i + 1]) == (exported0 + Names(table[..i])) + [table[i].name]
    ensures registry0 + Registry(table[..i + 1]) == (registry0 + Registry(table[..i]))[table[i].name := FactoryType(table[i])]
  {
    assert table[..i + 1][..i] == table[..i];
  }

  /** With distinct names, each entry's name maps to that entry's own type. */
  lemma {:induction false} RegistryHoldsEveryEntry(table: seq<Entry>)
    requires forall i :: 0 <= i < |table| ==> WellFormed(table[i])
    requires forall i, j :: 0 <= i < j < |table| ==> table[i].name != table[j].name
    ensures forall i :: 0 <= i < |table| ==> table[i].name in Registry(table)
    ensures forall i :: 0 <= i < |table| ==> Registry(table)[table[i].name] == FactoryType(table[i])
  {
    if table != [] {
      var init := table[..|table| - 1];
      RegistryHoldsEveryEntry(init);
      forall i | 0 <= i < |table|
        ensures table[i].name in Registry(table) && Registry(table)[table[i].name] == FactoryType(table[i])
      {
        if i < |init| {
          assert init[i] == table[i];
        }
      }
    }
  }

  const EventAttributes: seq<string> := [
    "eventId", "accountId", "atomId", "atomName", "eventLevel", "eventDate",
    "status", "eventType", "executionId", "title", "startTime",
    "errorDocumentCount", "inboundDocumentCount", "outboundDocumentCount",
    "processName", "recordDate", "error", "environment", "classification",
    "errorType", "erroredStepLabel", "erroredStepType"]

  /** Events permit nothing but `query` and are identified by `eventId`. */
  const EventOverrides: map<string, Value> :=
    map["put" := Bool(false), "get" := Bool(false), "delete" := Bool(false),
        "post" := Bool(false), IdAttrKey := Str("eventId")]

  /** The factory table of the package (boompy/__init__.py). */
  const PackageEntities: seq<Entry> := [
    Entry("AccountGroup", ["id", "defaultGroup", "name", "accountId"], map["delete" := Bool(false)]),
    Entry("AccountGroupAccount", ["id", "accountId", "accountGroupId"], map["put" := Bool(false)]),
    Entry("Environment", ["id", "name", "classification"], map[]),
    Entry("Event", EventAttributes, EventOverrides),
    Entry("IntegrationPack", ["id", "name", "Description", "installationType"],
      map["put" := Bool(false), "post" := Bool(false), "delete" := Bool(false)]),
    Entry("IntegrationPackInstance", ["id", "integrationPackOverrideName", "integrationPackId"],
      map["put" := Bool(false), "get" := Bool(true), "query" := Bool(true),
          "post" := Bool(true), "delete" := Bool(true)]),
    Entry("IntegrationPackEnvironmentAttachment", ["id", "environmentId", "integrationPackInstanceId"],
      map["put" := Bool(false), "get" := Bool(false)])
  ]

  /** The factory table of the client object (boompy/boompy.py). */
  const ClientEntities: seq<Entry> := [
    Entry("AccountGroup", ["id", "defaultGroup", "name", "accountId"], map["delete" := Bool(false)]),
    Entry("AccountGroupAccount", ["id", "accountId", "accountGroupId"], map["put" := Bool(false)]),
    Entry("AccountUserRole", ["id", "accountId", "userId", "roleId", "notifyUser"], map["put" := Bool(false)]),
    Entry("Environment", ["id", "name", "classification"], map[]),
    Entry("Events", EventAttributes, EventOverrides),
    Entry("IntegrationPack", ["id", "name", "Description", "installationType"],
      map["put" := Bool(false), "post" := Bool(false), "delete" := Bool(false)]),
    Entry("IntegrationPackEnvironmentAttachment", ["id", "environmentId", "integrationPackInstanceId"],
      map["put" := Bool(false), "get" := Bool(false)])
  ]

  /** Both tables are well formed and register each name once. */
  lemma TablesAreWellFormed()
    ensures forall i :: 0 <= i < |PackageEntities| ==> WellFormed(PackageEntities[i])
    ensures forall i :: 0 <= i < |ClientEntities| ==> WellFormed(ClientEntities[i])
    ensures forall i, j :: 0 <= i < j < |PackageEntities| ==> PackageEntities[i].name != PackageEntities[j].name
    ensures forall i, j :: 0 <= i < j < |ClientEntities| ==> ClientEntities[i].name != ClientEntities[j].name
  {
  }

  /** The Event type (either table): identity `eventId`, and `query` is the only permitted capability. */
  lemma EventTypesOnlyQuery(e: Entry)
    requires e == PackageEntities[3] || e == ClientEntities[4]
    ensures WellFormed(e)
    ensures FactoryType(e).idAttr == "eventId"
    ensures forall m :: m in Capabilities ==> (Permits(FactoryType(e).supported, m) <==> m == "query")
  {
    var t := FactoryType(e);
    assert e.kwargs == EventOverrides;
    assert t.supported == DefaultSupported + (EventOverrides - {IdAttrKey});
  }

  /** IntegrationPackInstance permits every capability except `put`. */
  lemma IntegrationPackInstanceAllButPut()
    ensures WellFormed(PackageEntities[5])
    ensures forall m :: m in Capabilities ==> (Permits(FactoryType(PackageEntities[5]).supported, m) <==> m != "put")
  {
  }

  /** `Account`: identity `accountId`; new instances live under the partner base. */
  const AccountType := ResourceType(
    "Account", "Account",
    ["accountId", "name", "expirationDate", "status", "dateCreated"],
    "accountId",
    map["get" := Bool(true), "put" := Bool(false), "post" := Bool(true),
        "delete" := Bool(false), "query" := Bool(true)],
    PartnerCollectionWhenNew)

  /** `Role`: read-only, and only through `query`. */
  const RoleType := ResourceType(
    "Role", "Role",
    ["id", "parentId", "accountId", "name"],
    "id",
    map["get" := Bool(false), "put" := Bool(false), "post" := Bool(false),
        "query" := Bool(true), "delete" := Bool(false)],
    StandardUrl)

  /** `AccountUserRole` as the package declares it (the client's table builds its own). */
  const AccountUserRoleType := ResourceType(
    "AccountUserRole", "AccountUserRole",
    ["id", "accountId", "userId", "roleId", "notifyUser"],
    "id",
    map["get" := Bool(false), "put" := Bool(false), "post" := Bool(true),
        "query" := Bool(true), "delete" := Bool(true)],
    StandardUrl)

  /** Role permits exactly `query`. */
  lemma RoleOnlyQuery()
    ensures forall m :: m in Capabilities ==> (Permits(RoleType.supported, m) <==> m == "query")
  {
  }

  /** Account cannot be updated or deleted; it can be read, created and queried. */
  lemma AccountCapabilities()
    ensures forall m :: m in Capabilities ==> (Permits(AccountType.supported, m) <==> m != "put" && m != "delete")
  {
  }
}
