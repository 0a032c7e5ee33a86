/** Requests of the contract definition API. */
module ContractDefinitions {
  import opened Paths
  import opened Context
  import opened Queries
  import opened Client

  /** `create`: POST to `contractdefinitions`, in the plain context. */
  function Create(c: ClientConfig, definition: Entity): (r: Request)
    ensures r.verb == POST && r.reply == JsonReply && r.headers == []
    ensures r.url == BaseUrl(c) + "/" + "contractdefinitions"
    ensures r.body == JsonBody(WithContext(PlainContext(c), Document(definition)))
  {
    Route1(c, "contractdefinitions");
    PostRequest(PathFor(c, ["contractdefinitions"]), JsonBody(ContextFor(c, Document(definition))))
  }

  /** `get`: GET `contractdefinitions/{id}`. */
  function Get(c: ClientConfig, id: string): (r: Request)
    ensures r.verb == GET && r.reply == JsonReply && r.body == NoBody && r.headers == []
    ensures r.url == BaseUrl(c) + "/" + "contractdefinitions" + "/" + id
  {
    Route2(c, "contractdefinitions", id);
    GetRequest(PathFor(c, ["contractdefinitions", id]))
  }

  /** `update`: PUT to `contractdefinitions`, with no id segment. */
  function Update(c: ClientConfig, definition: Entity): (r: Request)
    ensures r.verb == PUT && r.reply == EmptyReply && r.headers == []
    ensures r.url == BaseUrl(c) + "/" + "contractdefinitions"
    ensures r.body == JsonBody(WithContext(PlainContext(c), Document(definition)))
  {
    Route1(c, "contractdefinitions");
    PutRequest(PathFor(c, ["contractdefinitions"]), JsonBody(ContextFor(c, Document(definition))))
  }

  /** `query`: POST the query to `contractdefinitions/request`. */
  function Query(c: ClientConfig, q: Queries.Query): (r: Request)
    ensures r.verb == POST && r.reply == JsonReply && r.headers == []
    ensures r.url == BaseUrl(c) + "/" + "contractdefinitions" + "/" + "request"
    ensures r.body == JsonBody(WithContext(PlainContext(c), QueryPayload(q)))
  {
    Route2(c, "contractdefinitions", "request");
    PostRequest(PathFor(c, ["contractdefinitions", "request"]), JsonBody(ContextFor(c, QueryPayload(q))))
  }

  /** `delete`: DELETE `contractdefinitions/{id}`. */
  function Delete(c: ClientConfig, id: string): (r: Request)
    ensures r.verb == DELETE && r.reply == EmptyReply && r.body == NoBody && r.headers == []
    ensures r.url == BaseUrl(c) + "/" + "contractdefinitions" + "/" + id
  {
    Route2(c, "contractdefinitions", id);
    DeleteRequest(PathFor(c, ["contractdefinitions", id]))
  }

  /** Reading and deleting address the same resource; creating and updating
      address the collection, which prefixes every other URL. */
  lemma RouteRelations(c: ClientConfig, definition: Entity, id: string, q: Queries.Query)
    ensures Get(c, id).url == Delete(c, id).url
    ensures Create(c, definition).url == Update(c, definition).url
    ensures Get(c, id).url == Create(c, definition).url + "/" + id
    ensures Query(c, q).url == Create(c, definition).url + "/" + "request"
  {
  }
}
