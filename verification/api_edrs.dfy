/** Requests of the endpoint data reference (EDR) API. Its URLs are always
    `{management url}/v3/edrs/...`, whatever the client's version or
    participant context. */
module Edrs {
  import opened Wrappers
  import opened Errors
  import opened Paths
  import opened Context
  import opened Queries
  import opened Client

  /** `get_endpoint`: the fixed `v3/edrs` base, then the segments. */
  function Endpoint(c: ClientConfig, paths: seq<string>): (r: string)
    ensures r == c.managementUrl + "/" + "v3" + "/" + "edrs" + SlashEach(paths)
  {
    var base := [c.managementUrl, "v3", "edrs"];
    JoinAppend(base, paths);
    JoinIsHeadThenSlashEach(base);
    assert base[1..] == ["v3", "edrs"];
    SlashTwo(c.managementUrl, "v3", "edrs");
    Join(base + paths)
  }

  /** `get_data_address`: GET `edrs/{id}/dataaddress`. */
  function GetDataAddress(c: ClientConfig, id: string): (r: Request)
    ensures r.verb == GET && r.reply == JsonReply && r.body == NoBody && r.headers == []
    ensures r.url == c.managementUrl + "/" + "v3" + "/" + "edrs" + "/" + id + "/" + "dataaddress"
  {
    SlashTwo(c.managementUrl + "/" + "v3" + "/" + "edrs", id, "dataaddress");
    GetRequest(Endpoint(c, [id, "dataaddress"]))
  }

  /** `query`: POST the query to `edrs/request`, always in the default
      context. */
  function Query(c: ClientConfig, q: Queries.Query): (r: Request)
    ensures r.verb == POST && r.reply == JsonReply && r.headers == []
    ensures r.url == c.managementUrl + "/" + "v3" + "/" + "edrs" + "/" + "request"
    ensures r.body == JsonBody(WithContext(DefaultContextJson, QueryPayload(q)))
  {
    SlashOne(c.managementUrl + "/" + "v3" + "/" + "edrs", "request");
    PostRequest(Endpoint(c, ["request"]), JsonBody(DefaultContext(QueryPayload(q))))
  }

  /** `delete`: DELETE `edrs/{id}`. */
  function Delete(c: ClientConfig, id: string): (r: Request)
    ensures r.verb == DELETE && r.reply == EmptyReply && r.body == NoBody && r.headers == []
    ensures r.url == c.managementUrl + "/" + "v3" + "/" + "edrs" + "/" + id
  {
    SlashOne(c.managementUrl + "/" + "v3" + "/" + "edrs", id);
    DeleteRequest(Endpoint(c, [id]))
  }

  /** The query `get_entry` sends: the default page whose only criterion is
      `transferProcessId = id`. */
  function EntryQuery(id: string): (q: Queries.Query)
    ensures q.offset == 0 && q.limit == 50 && q.sort == None
    ensures q.filterExpression == [Criterion("transferProcessId", "=", JString(id))]
  {
    Builder().Filter("transferProcessId", "=", JString(id)).Build()
  }

  /** The request `get_entry` sends. */
  function GetEntryRequest(c: ClientConfig, id: string): (r: Request)
    ensures r.verb == POST && r.url == c.managementUrl + "/" + "v3" + "/" + "edrs" + "/" + "request"
    ensures r.body.JsonBody? && r.body.json.context == DefaultContextJson
    ensures r.body.json.inner == QueryPayload(EntryQuery(id))
  {
    Query(c, EntryQuery(id))
  }

  /** The error `get_entry` reports when nothing matches. */
  function NotFoundError(id: string): Error {
    ManagementApi(NotFound, Raw("EDR entry with id " + id + " not found"))
  }

  /** `get_entry`'s decision on the query's outcome: the first entry found,
      a NOT_FOUND error with a raw message naming the id when none is, and a
      query failure passed on unchanged. */
  function GetEntry<E>(id: string, queried: Result<seq<E>, Error>): (r: Result<E, Error>)
    ensures queried.Err? ==> r == Err(queried.error)
    ensures queried.Ok? && |queried.value| > 0 ==> r == Ok(queried.value[0])
    ensures queried.Ok? && |queried.value| == 0 ==>
      r == Err(ManagementApi(404, Raw("EDR entry with id " + id + " not found")))
  {
    match queried
    case Err(e) => Err(e)
    case Ok(entries) => if |entries| > 0 then Ok(entries[0]) else Err(NotFoundError(id))
  }

  /** `get_entry` succeeds exactly when the query found something, and then
      returns an entry the query returned; it reports NOT_FOUND exactly when
      the query succeeded empty (as after deleting the entry). */
  lemma GetEntryIff<E>(id: string, queried: Result<seq<E>, Error>)
    ensures GetEntry(id, queried).Ok? <==> queried.Ok? && |queried.value| > 0
    ensures GetEntry(id, queried).Ok? ==> GetEntry(id, queried).value in queried.value
    ensures queried.Ok? ==>
      (GetEntry(id, queried) == Err(NotFoundError(id)) <==> |queried.value| == 0)
  {
  }

  /** `query`'s decoding (and so `get_entry`'s input): the entries of a
      successful reply, unwrapped, with count and order kept. */
  function QueryResult<E>(reply: Result<seq<WithContext<E>>, Error>): (r: Result<seq<E>, Error>)
    ensures reply.Err? ==> r == Err(reply.error)
    ensures reply.Ok? ==> r.Ok? && |r.value| == |reply.value|
    ensures reply.Ok? ==> forall i :: 0 <= i < |reply.value| ==> r.value[i] == reply.value[i].inner
  {
    UnwrappedAll(reply)
  }

  /** EDR URLs ignore the configured version and participant context. */
  lemma EndpointIgnoresVersionAndContext(c: ClientConfig, v: ApiVersion, pc: Option<string>, paths: seq<string>)
    ensures Endpoint(c.(version := v, participantContext := pc), paths) == Endpoint(c, paths)
  {
  }
}
