/** Requests of the contract agreement API. */
module ContractAgreements {
  import opened Paths
  import opened Context
  import opened Queries
  import opened Client

  /** `get`: GET `contractagreements/{id}`. */
  function Get(c: ClientConfig, id: string): (r: Request)
    ensures r.verb == GET && r.reply == JsonReply && r.body == NoBody && r.headers == []
    ensures r.url == BaseUrl(c) + "/" + "contractagreements" + "/" + id
  {
    Route2(c, "contractagreements", id);
    GetRequest(PathFor(c, ["contractagreements", id]))
  }

  /** `query`: POST the query to `contractagreements/request`, in the plain
      context. */
  function Query(c: ClientConfig, q: Queries.Query): (r: Request)
    ensures r.verb == POST && r.reply == JsonReply && r.headers == []
    ensures r.url == BaseUrl(c) + "/" + "contractagreements" + "/" + "request"
    ensures r.body == JsonBody(WithContext(PlainContext(c), QueryPayload(q)))
  {
    Route2(c, "contractagreements", "request");
    PostRequest(PathFor(c, ["contractagreements", "request"]), JsonBody(ContextFor(c, QueryPayload(q))))
  }

  /** The query route shadows one agreement id: an agreement's URL is the
      query URL exactly when its id is `request`. Even then the two requests
      differ, by method. */
  lemma {:induction false} RouteRelations(c: ClientConfig, id: string, q: Queries.Query)
    ensures Get(c, id).url == Query(c, q).url <==> id == "request"
    ensures Get(c, id) != Query(c, q)
  {
    var prefix := BaseUrl(c) + "/" + "contractagreements" + "/";
    if Get(c, id).url == Query(c, q).url {
      assert (prefix + id)[|prefix|..] == id;
      assert (prefix + "request")[|prefix|..] == "request";
    }
  }
}
