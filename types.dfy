/**
 * Resource types (boompy/resource.py): the capability map every type starts from,
 * `create_resource`, and the capability check that gates every request.
 */
module ResourceTypes {
  import opened Outcomes
  import opened Values
  import opened Errors

  /** The five capability names a `supported` map is consulted with. */
  const Capabilities: seq<string> := ["get", "query", "put", "post", "delete"]

  /** Every capability enabled. */
  const DefaultSupported: map<string, Value> :=
    map["get" := Bool(true), "query" := Bool(true), "put" := Bool(true),
        "post" := Bool(true), "delete" := Bool(true)]

  /**
   * How an instance without identity (and no explicit id) builds its URL: the plain
   * collection URL, or (Account) the collection under the partner base.
   */
  datatype UrlRule = StandardUrl | PartnerCollectionWhenNew

  /** A resource class: its name and URI segment, declared attributes, identity attribute and capabilities. */
  datatype ResourceType = ResourceType(
    name: string,
    uri: string,
    attributes: seq<string>,
    idAttr: string,
    supported: map<string, Value>,
    urlRule: UrlRule)

  /** The declared attributes as a set. */
  function Declared(t: ResourceType): set<string> {
    set a | a in t.attributes
  }

  /**
   * `Resource.create_resource(type_, attributes, id_attr, **supported_methods)`: a fresh
   * type whose capabilities are the defaults overlaid with the overrides.
   */
  function CreateResource(typeName: string, attributes: seq<string>, idAttr: string,
                          overrides: map<string, Value>): (t: ResourceType)
    ensures t.name == typeName && t.uri == typeName
    ensures t.attributes == attributes && t.idAttr == idAttr && t.urlRule == StandardUrl
    ensures t.supported.Keys == DefaultSupported.Keys + overrides.Keys
    ensures forall m :: m in overrides ==> t.supported[m] == overrides[m]
    ensures forall m :: m in DefaultSupported && m !in overrides ==> t.supported[m] == Bool(true)
  {
    ResourceType(typeName, typeName, attributes, idAttr, DefaultSupported + overrides, StandardUrl)
  }

  /** `resource.supported.get(m)` is truthy. */
  predicate Permits(supported: map<string, Value>, m: string) {
    m in supported && Truthy(supported[m])
  }

  /**
   * The capability a request is checked against: `put` when the URL contains "update",
   * else `query` when it contains "query", else the method itself.
   */
  function EffectiveMethod(url: string, verb: string): (m: string)
    ensures Contains(url, "update") ==> m == "put"
    ensures !Contains(url, "update") && Contains(url, "query") ==> m == "query"
    ensures !Contains(url, "update") && !Contains(url, "query") ==> m == verb
  {
    if Contains(url, "update") then "put"
    else if Contains(url, "query") then "query"
    else verb
  }

  /**
   * `perm_check`: `None` when the call may go ahead, otherwise the exception raised in
   * its place, which names the method as requested.
   */
  function PermCheck(t: ResourceType, url: string, verb: string): (r: Option<Exception>)
    ensures r.None? <==> Permits(t.supported, EffectiveMethod(url, verb))
    ensures r.Some? ==> r.value == APIMethodNotAllowedError(verb)
    ensures r.Some? ==> Message(r.value) == NotAllowedPrefix + verb + NotAllowedSuffix
  {
    if Permits(t.supported, EffectiveMethod(url, verb)) then None
    else Some(APIMethodNotAllowedError(verb))
  }

  /** Whatever method is requested, a URL ending in "/update" is checked as `put`. */
  lemma UpdateUrlIsCheckedAsPut(url: string, verb: string)
    ensures EffectiveMethod(url + "/update", verb) == "put"
    ensures PermCheck(DefaultSupportedType(), url + "/update", verb).None?
  {
    ContainsDropFirst("/update", "update");
    ContainsTransfer(url, "/update", "update");
  }

  /** A type with nothing overridden: every capability permitted. */
  function DefaultSupportedType(): (t: ResourceType)
    ensures forall m :: m in Capabilities ==> Permits(t.supported, m)
  {
    CreateResource("Resource", [], "id", map[])
  }

  /** A URL ending in "/query" and not mentioning "update" is checked as `query`. */
  lemma QueryUrlIsCheckedAsQuery(base: string, verb: string)
    requires !Contains(base + "/query", "update")
    ensures EffectiveMethod(base + "/query", verb) == "query"
  {
    ContainsDropFirst("/query", "query");
    ContainsTransfer(base, "/query", "query");
  }
}
