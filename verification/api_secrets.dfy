/** Requests of the secrets API. */
module Secrets {
  import opened Paths
  import opened Context
  import opened Client

  /** `create`: POST to `secrets`, in the plain context. */
  function Create(c: ClientConfig, secret: Entity): (r: Request)
    ensures r.verb == POST && r.reply == JsonReply && r.headers == []
    ensures r.url == BaseUrl(c) + "/" + "secrets"
    ensures r.body == JsonBody(WithContext(PlainContext(c), Document(secret)))
  {
    Route1(c, "secrets");
    PostRequest(PathFor(c, ["secrets"]), JsonBody(ContextFor(c, Document(secret))))
  }

  /** `get`: GET `secrets/{id}`. */
  function Get(c: ClientConfig, id: string): (r: Request)
    ensures r.verb == GET && r.reply == JsonReply && r.body == NoBody && r.headers == []
    ensures r.url == BaseUrl(c) + "/" + "secrets" + "/" + id
  {
    Route2(c, "secrets", id);
    GetRequest(PathFor(c, ["secrets", id]))
  }

  /** `update`: PUT to `secrets`, with no id segment. */
  function Update(c: ClientConfig, secret: Entity): (r: Request)
    ensures r.verb == PUT && r.reply == EmptyReply && r.headers == []
    ensures r.url == BaseUrl(c) + "/" + "secrets"
    ensures r.body == JsonBody(WithContext(PlainContext(c), Document(secret)))
  {
    Route1(c, "secrets");
    PutRequest(PathFor(c, ["secrets"]), JsonBody(ContextFor(c, Document(secret))))
  }

  /** `delete`: DELETE `secrets/{id}`. */
  function Delete(c: ClientConfig, id: string): (r: Request)
    ensures r.verb == DELETE && r.reply == EmptyReply && r.body == NoBody && r.headers == []
    ensures r.url == BaseUrl(c) + "/" + "secrets" + "/" + id
  {
    Route2(c, "secrets", id);
    DeleteRequest(PathFor(c, ["secrets", id]))
  }

  /** Reading and deleting address the same secret; creating and updating
      address the collection. */
  lemma RouteRelations(c: ClientConfig, secret: Entity, id: string)
    ensures Get(c, id).url == Delete(c, id).url
    ensures Create(c, secret).url == Update(c, secret).url
    ensures Get(c, id).url == Create(c, secret).url + "/" + id
  {
  }
}
