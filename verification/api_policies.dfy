/** Requests of the policy definition API. Bodies that carry a policy use the
    ODRL-flagged context. */
module Policies {
  import opened Paths
  import opened Context
  import opened Queries
  import opened Client

  /** `create`: POST to `policydefinitions`, in the ODRL-flagged context. */
  function Create(c: ClientConfig, definition: Entity): (r: Request)
    ensures r.verb == POST && r.reply == JsonReply && r.headers == []
    ensures r.url == BaseUrl(c) + "/" + "policydefinitions"
    ensures r.body == JsonBody(WithContext(OdrlFlaggedContext(c), Document(definition)))
  {
    Route1(c, "policydefinitions");
    PostRequest(PathFor(c, ["policydefinitions"]), JsonBody(ContextForWithOpts(c, Document(definition), true)))
  }

  /** `get`: GET `policydefinitions/{id}`. */
  function Get(c: ClientConfig, id: string): (r: Request)
    ensures r.verb == GET && r.reply == JsonReply && r.body == NoBody && r.headers == []
    ensures r.url == BaseUrl(c) + "/" + "policydefinitions" + "/" + id
  {
    Route2(c, "policydefinitions", id);
    GetRequest(PathFor(c, ["policydefinitions", id]))
  }

  /** `update`: PUT to `policydefinitions/{definition's own id}`, in the
      ODRL-flagged context. */
  function Update(c: ClientConfig, definition: Entity): (r: Request)
    ensures r.verb == PUT && r.reply == EmptyReply && r.headers == []
    ensures r.url == BaseUrl(c) + "/" + "policydefinitions" + "/" + definition.id
    ensures r.body == JsonBody(WithContext(OdrlFlaggedContext(c), Document(definition)))
  {
    Route2(c, "policydefinitions", definition.id);
    PutRequest(PathFor(c, ["policydefinitions", definition.id]), JsonBody(ContextForWithOpts(c, Document(definition), true)))
  }

  /** `query`: POST the query to `policydefinitions/request`, in the plain
      context. */
  function Query(c: ClientConfig, q: Queries.Query): (r: Request)
    ensures r.verb == POST && r.reply == JsonReply && r.headers == []
    ensures r.url == BaseUrl(c) + "/" + "policydefinitions" + "/" + "request"
    ensures r.body == JsonBody(WithContext(PlainContext(c), QueryPayload(q)))
  {
    Route2(c, "policydefinitions", "request");
    PostRequest(PathFor(c, ["policydefinitions", "request"]), JsonBody(ContextFor(c, QueryPayload(q))))
  }

  /** `delete`: DELETE `policydefinitions/{id}`. */
  function Delete(c: ClientConfig, id: string): (r: Request)
    ensures r.verb == DELETE && r.reply == EmptyReply && r.body == NoBody && r.headers == []
    ensures r.url == BaseUrl(c) + "/" + "policydefinitions" + "/" + id
  {
    Route2(c, "policydefinitions", id);
    DeleteRequest(PathFor(c, ["policydefinitions", id]))
  }

  /** Updating a definition addresses the same URL as reading or deleting it
      by its id; under V3 policy bodies carry the ODRL context and queries
      never do. */
  lemma RouteRelations(c: ClientConfig, definition: Entity, q: Queries.Query)
    ensures Update(c, definition).url == Get(c, definition.id).url == Delete(c, definition.id).url
    ensures c.version == V3 ==> Create(c, definition).body.json.context == OdrlContextJson
    ensures Query(c, q).body.json.context != OdrlContextJson
  {
    ContextsDistinct();
  }
}
