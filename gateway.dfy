/**
 * The transport object resources talk to (`boompy.api` in boompy/resource.py, `API()` in
 * boompy/__init__.py, `_api` in boompy/boompy.py): either an `API` or a `Boompy` object.
 */
module Gateway {
  import opened Outcomes
  import opened Values
  import opened Wire
  import opened Errors
  import opened Transport
  import opened BaseApi
  import opened Client

  datatype Channel = ViaApi(api: Api) | ViaClient(client: Boompy)

  /** The gateway's state at one moment. */
  datatype GatewayState = ApiSnapshot(a: ApiState) | ClientSnapshot(c: ClientState)

  /** The object a gateway reads. */
  function Target(gw: Channel): object {
    if gw.ViaApi? then gw.api else gw.client
  }

  function Snapshot(gw: Channel): GatewayState
    reads Target(gw)
  {
    if gw.ViaApi? then ApiSnapshot(gw.api.State()) else ClientSnapshot(gw.client.State())
  }

  function PartnerOf(gs: GatewayState): Value {
    if gs.ApiSnapshot? then gs.a.partnerAccount else gs.c.partnerAccount
  }

  /** `base_url(partner)` of whichever object is behind the gateway. */
  function GatewayBaseUrl(gs: GatewayState, partner: bool): (r: Result<string, Exception>)
    ensures gs.ClientSnapshot? ==> r.Ok?
    ensures r.Ok? ==> (IsPartnerUrl(r.value) <==> partner || Truthy(PartnerOf(gs)))
  {
    if gs.ApiSnapshot? then ApiBaseUrl(gs.a, partner) else Ok(ClientBaseUrl(gs.c, partner))
  }

  /** `https_request(url, method, data)` of whichever object is behind the gateway. */
  function GatewayExchange(gs: GatewayState, url: string, verb: string, data: Value, send: Request -> SendOutcome)
    : (out: (Result<Response, Exception>, seq<Request>))
    ensures out.0.Ok? ==> out.0.value.status == StatusOk
    ensures out.1 == [] || out.1 == [Request(WithOverride(url, PartnerOf(gs)), verb, data)]
  {
    if gs.ApiSnapshot? then Exchange(gs.a, url, verb, data, send)
    else ClientExchange(gs.c, url, verb, data, send)
  }

  method BaseUrl(gw: Channel, partner: bool) returns (r: Result<string, Exception>)
    ensures r == GatewayBaseUrl(Snapshot(gw), partner)
  {
    if gw.ViaApi? {
      r := gw.api.BaseUrl(partner);
    } else {
      var u := gw.client.BaseUrl(partner);
      r := Ok(u);
    }
  }

  method HttpsRequest(gw: Channel, url: string, verb: string, data: Value, send: Request -> SendOutcome)
    returns (r: Result<Response, Exception>, sent: seq<Request>)
    ensures (r, sent) == GatewayExchange(Snapshot(gw), url, verb, data, send)
  {
    if gw.ViaApi? {
      r, sent := gw.api.HttpsRequest(url, verb, data, send);
    } else {
      r, sent := gw.client.HttpsRequest(url, verb, data, send);
    }
  }
}
