/** Requests of the contract negotiation API. */
module ContractNegotiations {
  import opened Wrappers
  import opened Errors
  import opened Paths
  import opened Context
  import opened Queries
  import opened Client

  /** `initiate`: POST the contract request to `contractnegotiations`, in the
      ODRL-flagged context. */
  function Initiate(c: ClientConfig, contractRequest: Entity): (r: Request)
    ensures r.verb == POST && r.reply == JsonReply && r.headers == []
    ensures r.url == BaseUrl(c) + "/" + "contractnegotiations"
    ensures r.body == JsonBody(WithContext(OdrlFlaggedContext(c), Document(contractRequest)))
  {
    Route1(c, "contractnegotiations");
    PostRequest(PathFor(c, ["contractnegotiations"]), JsonBody(ContextForWithOpts(c, Document(contractRequest), true)))
  }

  /** `get`: GET `contractnegotiations/{id}`. */
  function Get(c: ClientConfig, id: string): (r: Request)
    ensures r.verb == GET && r.reply == JsonReply && r.body == NoBody && r.headers == []
    ensures r.url == BaseUrl(c) + "/" + "contractnegotiations" + "/" + id
  {
    Route2(c, "contractnegotiations", id);
    GetRequest(PathFor(c, ["contractnegotiations", id]))
  }

  /** `get_state`: the same GET as `get`; only the state of the reply is
      kept. */
  function GetState(c: ClientConfig, id: string): (r: Request)
    ensures r.verb == GET && r.reply == JsonReply && r.body == NoBody && r.headers == []
    ensures r.url == BaseUrl(c) + "/" + "contractnegotiations" + "/" + id
  {
    Route2(c, "contractnegotiations", id);
    GetRequest(PathFor(c, ["contractnegotiations", id]))
  }

  /** `terminate`: POST `{id, reason}` to `contractnegotiations/{id}/terminate`
      in the plain context, ignoring the reply. */
  function Terminate(c: ClientConfig, id: string, reason: string): (r: Request)
    ensures r.verb == POST && r.reply == EmptyReply && r.headers == []
    ensures r.url == BaseUrl(c) + "/" + "contractnegotiations" + "/" + id + "/" + "terminate"
    ensures r.body == JsonBody(WithContext(PlainContext(c), TerminatePayload(id, reason)))
  {
    Route3(c, "contractnegotiations", id, "terminate");
    PostNoResponse(PathFor(c, ["contractnegotiations", id, "terminate"]), JsonBody(ContextFor(c, TerminatePayload(id, reason))))
  }

  /** `query`: POST the query to `contractnegotiations/request`. */
  function Query(c: ClientConfig, q: Queries.Query): (r: Request)
    ensures r.verb == POST && r.reply == JsonReply && r.headers == []
    ensures r.url == BaseUrl(c) + "/" + "contractnegotiations" + "/" + "request"
    ensures r.body == JsonBody(WithContext(PlainContext(c), QueryPayload(q)))
  {
    Route2(c, "contractnegotiations", "request");
    PostRequest(PathFor(c, ["contractnegotiations", "request"]), JsonBody(ContextFor(c, QueryPayload(q))))
  }

  /** `get` and `get_state` send the identical request; terminating extends
      the negotiation's URL by one segment. */
  lemma RouteRelations(c: ClientConfig, id: string, reason: string)
    ensures Get(c, id) == GetState(c, id)
    ensures Terminate(c, id, reason).url == Get(c, id).url + "/" + "terminate"
  {
  }
}
