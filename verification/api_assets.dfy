/** Requests of the asset API. */
module Assets {
  import opened Paths
  import opened Context
  import opened Queries
  import opened Client

  /** `create`: POST to `assets`, the asset in the plain context. */
  function Create(c: ClientConfig, asset: Entity): (r: Request)
    ensures r.verb == POST && r.reply == JsonReply && r.headers == []
    ensures r.url == BaseUrl(c) + "/" + "assets"
    ensures r.body == JsonBody(WithContext(PlainContext(c), Document(asset)))
  {
    Route1(c, "assets");
    PostRequest(PathFor(c, ["assets"]), JsonBody(ContextFor(c, Document(asset))))
  }

  /** `get`: GET `assets/{id}`. */
  function Get(c: ClientConfig, id: string): (r: Request)
    ensures r.verb == GET && r.reply == JsonReply && r.body == NoBody && r.headers == []
    ensures r.url == BaseUrl(c) + "/" + "assets" + "/" + id
  {
    Route2(c, "assets", id);
    GetRequest(PathFor(c, ["assets", id]))
  }

  /** `update`: PUT to `assets`, with no id segment. */
  function Update(c: ClientConfig, asset: Entity): (r: Request)
    ensures r.verb == PUT && r.reply == EmptyReply && r.headers == []
    ensures r.url == BaseUrl(c) + "/" + "assets"
    ensures r.body == JsonBody(WithContext(PlainContext(c), Document(asset)))
  {
    Route1(c, "assets");
    PutRequest(PathFor(c, ["assets"]), JsonBody(ContextFor(c, Document(asset))))
  }

  /** `query`: POST the query to `assets/request`. */
  function Query(c: ClientConfig, q: Queries.Query): (r: Request)
    ensures r.verb == POST && r.reply == JsonReply && r.headers == []
    ensures r.url == BaseUrl(c) + "/" + "assets" + "/" + "request"
    ensures r.body == JsonBody(WithContext(PlainContext(c), QueryPayload(q)))
  {
    Route2(c, "assets", "request");
    PostRequest(PathFor(c, ["assets", "request"]), JsonBody(ContextFor(c, QueryPayload(q))))
  }

  /** `delete`: DELETE `assets/{id}`. */
  function Delete(c: ClientConfig, id: string): (r: Request)
    ensures r.verb == DELETE && r.reply == EmptyReply && r.body == NoBody && r.headers == []
    ensures r.url == BaseUrl(c) + "/" + "assets" + "/" + id
  {
    Route2(c, "assets", id);
    DeleteRequest(PathFor(c, ["assets", id]))
  }

  /** One URL per asset: reading and deleting address the same resource,
      creating and updating address the collection, and the collection URL is
      a prefix of every other asset URL. */
  lemma RouteRelations(c: ClientConfig, asset: Entity, id: string, q: Queries.Query)
    ensures Get(c, id).url == Delete(c, id).url
    ensures Create(c, asset).url == Update(c, asset).url
    ensures Get(c, id).url == Create(c, asset).url + "/" + id
    ensures Query(c, q).url == Create(c, asset).url + "/" + "request"
  {
  }
}
