/** Requests of the catalog API. */
module Catalog {
  import opened Paths
  import opened Context
  import opened Client

  /** `request`: POST the catalog request to `catalog/request`, in the plain
      context. */
  function Request(c: ClientConfig, request: Entity): (r: Client.Request)
    ensures r.verb == POST && r.reply == JsonReply && r.headers == []
    ensures r.url == BaseUrl(c) + "/" + "catalog" + "/" + "request"
    ensures r.body == JsonBody(WithContext(PlainContext(c), Document(request)))
  {
    Route2(c, "catalog", "request");
    PostRequest(PathFor(c, ["catalog", "request"]), JsonBody(ContextFor(c, Document(request))))
  }

  /** `dataset`: POST the dataset request to `catalog/dataset/request`, in
      the plain context. */
  function Dataset(c: ClientConfig, request: Entity): (r: Client.Request)
    ensures r.verb == POST && r.reply == JsonReply && r.headers == []
    ensures r.url == BaseUrl(c) + "/" + "catalog" + "/" + "dataset" + "/" + "request"
    ensures r.body == JsonBody(WithContext(PlainContext(c), Document(request)))
  {
    Route3(c, "catalog", "dataset", "request");
    PostRequest(PathFor(c, ["catalog", "dataset", "request"]), JsonBody(ContextFor(c, Document(request))))
  }

  /** Catalog bodies never carry the ODRL context. */
  lemma NeverOdrl(c: ClientConfig, request: Entity)
    ensures Request(c, request).body.json.context != OdrlContextJson
    ensures Dataset(c, request).body.json.context != OdrlContextJson
  {
    ContextsDistinct();
  }
}
