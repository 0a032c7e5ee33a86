/** Requests of the transfer process API. Its URLs are always
    `{management url}/v3/transferprocesses/...`, whatever the client's
    version or participant context, and its bodies always use the default
    context. */
module TransferProcesses {
  import opened Wrappers
  import opened Errors
  import opened Paths
  import opened Context
  import opened Queries
  import opened Client

  /** `get_endpoint`: the fixed `v3/transferprocesses` base, then the
      segments. */
  function Endpoint(c: ClientConfig, paths: seq<string>): (r: string)
    ensures r == c.managementUrl + "/" + "v3" + "/" + "transferprocesses" + SlashEach(paths)
  {
    var base := [c.managementUrl, "v3", "transferprocesses"];
    JoinAppend(base, paths);
    JoinIsHeadThenSlashEach(base);
    assert base[1..] == ["v3", "transferprocesses"];
    SlashTwo(c.managementUrl, "v3", "transferprocesses");
    Join(base + paths)
  }

  /** `initiate`: POST the transfer request to the base endpoint. */
  function Initiate(c: ClientConfig, transferRequest: Entity): (r: Request)
    ensures r.verb == POST && r.reply == JsonReply && r.headers == []
    ensures r.url == c.managementUrl + "/" + "v3" + "/" + "transferprocesses"
    ensures r.body == JsonBody(WithContext(DefaultContextJson, Document(transferRequest)))
  {
    SlashNone(c.managementUrl + "/" + "v3" + "/" + "transferprocesses");
    PostRequest(Endpoint(c, []), JsonBody(DefaultContext(Document(transferRequest))))
  }

  /** `get`: GET `transferprocesses/{id}`. */
  function Get(c: ClientConfig, id: string): (r: Request)
    ensures r.verb == GET && r.reply == JsonReply && r.body == NoBody && r.headers == []
    ensures r.url == c.managementUrl + "/" + "v3" + "/" + "transferprocesses" + "/" + id
  {
    SlashOne(c.managementUrl + "/" + "v3" + "/" + "transferprocesses", id);
    GetRequest(Endpoint(c, [id]))
  }

  /** `get_state`: the same GET as `get`; only the state of the reply is
      kept. */
  function GetState(c: ClientConfig, id: string): (r: Request)
    ensures r.verb == GET && r.reply == JsonReply && r.body == NoBody && r.headers == []
    ensures r.url == c.managementUrl + "/" + "v3" + "/" + "transferprocesses" + "/" + id
  {
    SlashOne(c.managementUrl + "/" + "v3" + "/" + "transferprocesses", id);
    GetRequest(Endpoint(c, [id]))
  }

  /** `query`: POST the query to `transferprocesses/request`. */
  function Query(c: ClientConfig, q: Queries.Query): (r: Request)
    ensures r.verb == POST && r.reply == JsonReply && r.headers == []
    ensures r.url == c.managementUrl + "/" + "v3" + "/" + "transferprocesses" + "/" + "request"
    ensures r.body == JsonBody(WithContext(DefaultContextJson, QueryPayload(q)))
  {
    SlashOne(c.managementUrl + "/" + "v3" + "/" + "transferprocesses", "request");
    PostRequest(Endpoint(c, ["request"]), JsonBody(DefaultContext(QueryPayload(q))))
  }

  /** `terminate`: POST `{id, reason}` to `transferprocesses/{id}/terminate`,
      ignoring the reply. */
  function Terminate(c: ClientConfig, id: string, reason: string): (r: Request)
    ensures r.verb == POST && r.reply == EmptyReply && r.headers == []
    ensures r.url == c.managementUrl + "/" + "v3" + "/" + "transferprocesses" + "/" + id + "/" + "terminate"
    ensures r.body == JsonBody(WithContext(DefaultContextJson, TerminatePayload(id, reason)))
  {
    SlashTwo(c.managementUrl + "/" + "v3" + "/" + "transferprocesses", id, "terminate");
    PostNoResponse(Endpoint(c, [id, "terminate"]), JsonBody(DefaultContext(TerminatePayload(id, reason))))
  }

  /** `suspend`: POST `{id, reason}` to `transferprocesses/{id}/suspend`,
      ignoring the reply. */
  function Suspend(c: ClientConfig, id: string, reason: string): (r: Request)
    ensures r.verb == POST && r.reply == EmptyReply && r.headers == []
    ensures r.url == c.managementUrl + "/" + "v3" + "/" + "transferprocesses" + "/" + id + "/" + "suspend"
    ensures r.body == JsonBody(WithContext(DefaultContextJson, SuspendPayload(id, reason)))
  {
    SlashTwo(c.managementUrl + "/" + "v3" + "/" + "transferprocesses", id, "suspend");
    PostNoResponse(Endpoint(c, [id, "suspend"]), JsonBody(DefaultContext(SuspendPayload(id, reason))))
  }

  /** `resume`: POST a JSON `null` to `transferprocesses/{id}/resume`,
      ignoring the reply. */
  function Resume(c: ClientConfig, id: string): (r: Request)
    ensures r.verb == POST && r.reply == EmptyReply && r.body == NullBody && r.headers == []
    ensures r.url == c.managementUrl + "/" + "v3" + "/" + "transferprocesses" + "/" + id + "/" + "resume"
  {
    SlashTwo(c.managementUrl + "/" + "v3" + "/" + "transferprocesses", id, "resume");
    PostNoResponse(Endpoint(c, [id, "resume"]), NullBody)
  }

  /** Transfer URLs ignore the configured version and participant context,
      and no transfer body carries the ODRL or the v4 context. */
  lemma IndependentOfConfiguration(c: ClientConfig, v: ApiVersion, pc: Option<string>, paths: seq<string>,
                                   id: string, reason: string, t: Entity, q: Queries.Query)
    ensures Endpoint(c.(version := v, participantContext := pc), paths) == Endpoint(c, paths)
    ensures Initiate(c.(version := v, participantContext := pc), t) == Initiate(c, t)
    ensures Get(c.(version := v, participantContext := pc), id) == Get(c, id)
    ensures GetState(c.(version := v, participantContext := pc), id) == GetState(c, id)
    ensures Query(c.(version := v, participantContext := pc), q) == Query(c, q)
    ensures Terminate(c.(version := v, participantContext := pc), id, reason) == Terminate(c, id, reason)
    ensures Suspend(c.(version := v, participantContext := pc), id, reason) == Suspend(c, id, reason)
    ensures Resume(c.(version := v, participantContext := pc), id) == Resume(c, id)
    ensures Initiate(c, t).body.json.context != OdrlContextJson && Initiate(c, t).body.json.context != EdcV4ContextJson
    ensures Query(c, q).body.json.context != OdrlContextJson && Query(c, q).body.json.context != EdcV4ContextJson
    ensures Terminate(c, id, reason).body.json.context != OdrlContextJson
         && Terminate(c, id, reason).body.json.context != EdcV4ContextJson
    ensures Suspend(c, id, reason).body.json.context != OdrlContextJson
         && Suspend(c, id, reason).body.json.context != EdcV4ContextJson
  {
    ContextsDistinct();
  }

  /** `get` and `get_state` send the identical request; the actions on a
      process extend its URL by one segment. */
  lemma RouteRelations(c: ClientConfig, id: string, reason: string)
    ensures Get(c, id) == GetState(c, id)
    ensures Terminate(c, id, reason).url == Get(c, id).url + "/" + "terminate"
    ensures Suspend(c, id, reason).url == Get(c, id).url + "/" + "suspend"
    ensures Resume(c, id).url == Get(c, id).url + "/" + "resume"
    ensures Get(c, id).url == Initiate(c, Entity(id)).url + "/" + id
  {
  }
}
