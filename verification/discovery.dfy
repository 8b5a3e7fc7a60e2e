/** Service discovery: the static document that tells Terraform where the
    provider and module protocols live. The same handler serves both the
    root path and "/.well-known/terraform.json", and it reads nothing from
    the request. */
module Discovery {
  import opened Wrappers
  import opened Json
  import opened Http
  import opened Config

  /** The paths the discovery handler is registered at. */
  const DiscoveryRoutes: set<string> := {"/", "/.well-known/terraform.json"}

  /** `httpGetServiceDiscovery`: a JSON document with exactly the keys
      "providers.v1" and "modules.v1", which reads back as the two base
      paths "/providers" and "/modules". */
  function HandleServiceDiscovery(): (resp: Response)
    ensures resp.status == StatusOK
    ensures resp.headers == map["Content-Type" := "application/json"]
    ensures resp.body.JsonBody? && resp.body.json.Obj?
    ensures resp.body.json.fields.Keys == {"providers.v1", "modules.v1"}
    ensures DecodeDiscovery(resp.body.json) == Some(ServiceDiscoveryResp("/providers", "/modules"))
  {
    var doc := ServiceDiscoveryResp(ProviderBasePath, ModuleBasePath);
    DiscoveryRoundTrip(doc);
    JsonResponse(DiscoveryJson(doc))
  }

  /** What a GET of a path answers, as far as discovery goes: the discovery
      document at its two routes, nothing here for any other path. */
  function ServeDiscovery(path: string): (resp: Option<Response>)
    ensures resp.Some? <==> path == "/" || path == "/.well-known/terraform.json"
    ensures resp.Some? ==>
              && resp.value.status == StatusOK
              && resp.value.body.JsonBody?
              && DecodeDiscovery(resp.value.body.json) == Some(ServiceDiscoveryResp(ProviderBasePath, ModuleBasePath))
  {
    if path in DiscoveryRoutes then Some(HandleServiceDiscovery()) else None
  }

  /** Both routes give the same document. */
  lemma DiscoveryRoutesAgree()
    ensures ServeDiscovery("/").Some?
    ensures ServeDiscovery("/") == ServeDiscovery("/.well-known/terraform.json")
  {
    assert "/" in DiscoveryRoutes;
    assert "/.well-known/terraform.json" in DiscoveryRoutes;
  }
}
