/** The management API client's request construction: API versions and
    targets, URL assembly, JSON-LD context choice, authentication headers,
    classification of failed responses, and the client builder. Requests are
    descriptions (method, URL, body, headers, reply handling); sending them is
    not modelled. */
module Client {
  import opened Wrappers
  import opened Errors
  import opened Paths
  import opened Context
  import opened Queries
  import OAuth

  datatype ApiVersion = V3 | V4 {

    /** `EdcConnectorApiVersion::as_str`: the version's path segment. */
    function AsStr(): (s: string)
      ensures V3? ==> s == "v3"
      ensures V4? ==> s == "v4beta"
    {
      match this
      case V3 => "v3"
      case V4 => "v4beta"
    }
  }

  /** Whose resources a URL addresses when a participant context is set. */
  datatype ApiTarget = Participant | Admin

  /** How requests authenticate. The OAuth2 variant carries the shared token
      cache, whose state a request may advance. */
  datatype Auth =
    | NoAuth
    | ApiToken(token: string)
    | OAuth2(oauth: OAuth.OAuth2Client)

  /** `EdcConnectorClientInternal` without its HTTP client. */
  datatype ClientConfig = ClientConfig(
    managementUrl: string,
    auth: Auth,
    version: ApiVersion,
    participantContext: Option<string>)

  /** The version segment used whenever a participant context is set. */
  const ParticipantApiVersion: string := "v4alpha"

  /** The segments that precede a route's own segments. */
  function BaseSegments(c: ClientConfig, target: ApiTarget): seq<string> {
    match c.participantContext
    case Some(pc) =>
      (match target
       case Participant => [c.managementUrl, ParticipantApiVersion, "participants", pc]
       case Admin => [c.managementUrl, ParticipantApiVersion])
    case None => [c.managementUrl, c.version.AsStr()]
  }

  /** `path_for_target`: the management URL, then the version (or, under a
      participant context, `v4alpha` and for participant routes the context),
      then the route's segments, joined by slashes. */
  function PathForTarget(c: ClientConfig, target: ApiTarget, paths: seq<string>): (r: string)
    ensures c.participantContext.None? ==>
      r == c.managementUrl + "/" + c.version.AsStr() + SlashEach(paths)
    ensures c.participantContext.Some? && target == Participant ==>
      r == c.managementUrl + "/v4alpha/participants/" + c.participantContext.value + SlashEach(paths)
    ensures c.participantContext.Some? && target == Admin ==>
      r == c.managementUrl + "/v4alpha" + SlashEach(paths)
  {
    var base := BaseSegments(c, target);
    JoinAppend(base, paths);
    JoinBase(c, target);
    Join(base + paths)
  }

  /** The base segments, joined, read as the text they stand for. */
  lemma JoinBase(c: ClientConfig, target: ApiTarget)
    ensures c.participantContext.None? ==>
      Join(BaseSegments(c, target)) == c.managementUrl + "/" + c.version.AsStr()
    ensures c.participantContext.Some? && target == Participant ==>
      Join(BaseSegments(c, target)) == c.managementUrl + "/v4alpha/participants/" + c.participantContext.value
    ensures c.participantContext.Some? && target == Admin ==>
      Join(BaseSegments(c, target)) == c.managementUrl + "/v4alpha"
  {
    var b := BaseSegments(c, target);
    if c.participantContext.Some? && target == Participant {
      JoinParticipantBase(c.managementUrl, c.participantContext.value);
    } else if c.participantContext.Some? {
      assert b == [c.managementUrl, "v4alpha"];
      assert b[1..] == ["v4alpha"];
    } else {
      assert b[1..] == [c.version.AsStr()];
    }
  }

  lemma JoinParticipantBase(url: string, pc: string)
    ensures Join([url, ParticipantApiVersion, "participants", pc]) == url + "/v4alpha/participants/" + pc
  {
    var b := [url, ParticipantApiVersion, "participants", pc];
    assert b[1..] == ["v4alpha", "participants", pc];
    assert b[1..][1..] == ["participants", pc];
    assert b[1..][1..][1..] == [pc];
    var lit := "/" + "v4alpha" + "/" + "participants" + "/";
    assert lit == "/v4alpha/participants/";
    calc {
      Join(b);
      url + "/" + Join(b[1..]);
      url + "/" + ("v4alpha" + "/" + Join(b[1..][1..]));
      url + "/" + ("v4alpha" + "/" + ("participants" + "/" + pc));
      { assert "/" + ("v4alpha" + "/" + ("participants" + "/" + pc)) == lit + pc; }
      url + (lit + pc);
      url + lit + pc;
    }
  }

  /** The URL is the management URL followed by the remaining base segments
      and the route's segments, each after a slash. */
  lemma PathIsUrlThenSlashed(c: ClientConfig, target: ApiTarget, paths: seq<string>)
    ensures PathForTarget(c, target, paths) == c.managementUrl + SlashEach(BaseSegments(c, target)[1..] + paths)
  {
    var base := BaseSegments(c, target);
    JoinIsHeadThenSlashed(base, paths);
    assert base[0] == c.managementUrl;
  }

  /** `path_for`: a participant route. Without a participant context it sits
      under the configured version; with one, under that context's
      `v4alpha/participants/<context>` prefix, whatever the version. */
  function PathFor(c: ClientConfig, paths: seq<string>): (r: string)
    ensures c.participantContext.None? ==>
      r == c.managementUrl + "/" + c.version.AsStr() + SlashEach(paths)
    ensures c.participantContext.Some? ==>
      r == c.managementUrl + "/v4alpha/participants/" + c.participantContext.value + SlashEach(paths)
  {
    PathForTarget(c, Participant, paths)
  }

  /** The URL's slash-separated pieces are those of the management URL, the
      version segments, and the route's segments, in that order. */
  lemma PathSegments(c: ClientConfig, target: ApiTarget, paths: seq<string>)
    requires Segments(paths)
    requires c.participantContext.Some? && target == Participant ==> Segment(c.participantContext.value)
    ensures c.participantContext.None? ==>
      Split(PathForTarget(c, target, paths)) == Split(c.managementUrl) + [c.version.AsStr()] + paths
    ensures c.participantContext.Some? && target == Participant ==>
      Split(PathForTarget(c, target, paths)) == Split(c.managementUrl) + ["v4alpha", "participants", c.participantContext.value] + paths
    ensures c.participantContext.Some? && target == Admin ==>
      Split(PathForTarget(c, target, paths)) == Split(c.managementUrl) + ["v4alpha"] + paths
  {
    var rest := BaseSegments(c, target)[1..];
    assert Segments(rest) by {
      if c.participantContext.None? {
        assert rest == [c.version.AsStr()];
      } else if target == Participant {
        assert rest == [ParticipantApiVersion, "participants", c.participantContext.value];
      } else {
        assert rest == [ParticipantApiVersion];
      }
    }
    var all := rest + paths;
    assert Segments(all) by {
      forall i | 0 <= i < |all| ensures Segment(all[i]) {
        if i >= |rest| { assert all[i] == paths[i - |rest|]; }
      }
    }
    PathIsUrlThenSlashed(c, target, paths);
    SplitSlashEach(c.managementUrl, all);
  }

  /** Appending segments to a route appends them to its URL. */
  lemma PathExtends(c: ClientConfig, target: ApiTarget, a: seq<string>, b: seq<string>)
    ensures PathForTarget(c, target, a + b) == PathForTarget(c, target, a) + SlashEach(b)
  {
    SlashEachAppend(a, b);
  }

  /** Under a participant context the configured version plays no part, and
      admin routes are the same whatever the participant context. */
  lemma ParticipantContextOverridesVersion(c: ClientConfig, v: ApiVersion, other: string, paths: seq<string>)
    requires c.participantContext.Some?
    ensures PathForTarget(c.(version := v), Participant, paths) == PathForTarget(c, Participant, paths)
    ensures PathForTarget(c.(version := v), Admin, paths) == PathForTarget(c, Admin, paths)
    ensures PathForTarget(c.(participantContext := Some(other)), Admin, paths) == PathForTarget(c, Admin, paths)
  {
  }

  /** The version segment identifies the version, and no configured version
      can be mistaken for the participant-context segment. */
  lemma VersionSegmentsDistinct(v: ApiVersion, w: ApiVersion)
    ensures v.AsStr() == w.AsStr() <==> v == w
    ensures v.AsStr() != ParticipantApiVersion
  {
    assert "v3" != "v4beta" by { assert |"v3"| != |"v4beta"|; }
    assert "v3" != ParticipantApiVersion by { assert |"v3"| != |ParticipantApiVersion|; }
    assert "v4beta" != ParticipantApiVersion by { assert "v4beta"[2] != ParticipantApiVersion[2]; }
  }

  /** `context_for_with_opts`: under V3 the ODRL flag picks the ODRL or the
      default context; under V4 the v4 context is used whatever the flag. */
  function ContextForWithOpts<T>(c: ClientConfig, body: T, includeOdrl: bool): (r: WithContext<T>)
    ensures r.inner == body
    ensures c.version == V3 && includeOdrl ==> r.context == OdrlContextJson
    ensures c.version == V3 && !includeOdrl ==> r.context == DefaultContextJson
    ensures c.version == V4 ==> r.context == EdcV4ContextJson
  {
    match c.version
    case V3 => if includeOdrl then OdrlContextOf(body) else DefaultContext(body)
    case V4 => EdcV4ContextOf(body)
  }

  /** `context_for`: the ODRL flag off. */
  function ContextFor<T>(c: ClientConfig, body: T): (r: WithContext<T>)
    ensures r.inner == body
    ensures r.context == (if c.version == V3 then DefaultContextJson else EdcV4ContextJson)
  {
    ContextForWithOpts(c, body, false)
  }

  /** The ODRL context appears exactly for V3 requests that ask for it. */
  lemma OdrlContextIff<T>(c: ClientConfig, body: T, includeOdrl: bool)
    ensures ContextForWithOpts(c, body, includeOdrl).context == OdrlContextJson <==> (c.version == V3 && includeOdrl)
  {
    ContextsDistinct();
  }

  datatype Method = GET | POST | PUT | DELETE

  /** What a request body is about. Entities the API creates or updates
      (assets, policy definitions, …) are opaque documents. */
  datatype Payload =
    | QueryPayload(query: Query)
    | TerminatePayload(id: string, reason: string)
    | SuspendPayload(id: string, reason: string)
    | Document(entity: Entity)

  /** A resource sent to or received from the API (asset, policy
      definition, transfer request, …). Its serde shape is not modelled; it
      is identified by its `@id`. */
  datatype Entity = Entity(id: string)

  datatype Body =
    | NoBody
    /** The JSON `null` of `Option::<()>::None`. */
    | NullBody
    | JsonBody(json: WithContext<Payload>)

  /** How a successful reply is treated: decoded as JSON (`as_json`) or
      ignored (`empty`). */
  datatype Reply = JsonReply | EmptyReply

  type Header = (string, string)

  /** A request as the client hands it to the HTTP layer. `headers` holds only
      the headers the client adds itself (authentication); the
      `Content-Type: application/json` header that goes with a JSON body is
      implied by `JsonBody`, so `headers == []` does not mean the request
      carries no headers at all. */
  datatype Request = Request(verb: Method, url: string, body: Body, reply: Reply, headers: seq<Header>)

  /** `get`: a GET whose reply is decoded. */
  function GetRequest(url: string): Request {
    Request(GET, url, NoBody, JsonReply, [])
  }

  /** `post`: a POST whose reply is decoded. */
  function PostRequest(url: string, body: Body): Request {
    Request(POST, url, body, JsonReply, [])
  }

  /** `post_no_response`: a POST whose reply is ignored. */
  function PostNoResponse(url: string, body: Body): Request {
    Request(POST, url, body, EmptyReply, [])
  }

  /** `put` and `put_no_response`: a PUT whose reply is ignored. */
  function PutRequest(url: string, body: Body): Request {
    Request(PUT, url, body, EmptyReply, [])
  }

  /** `del`: a DELETE whose reply is ignored. */
  function DeleteRequest(url: string): Request {
    Request(DELETE, url, NoBody, EmptyReply, [])
  }

  /** The context `context_for` attaches: the default one under V3, the v4
      one under V4. */
  function PlainContext(c: ClientConfig): Json {
    if c.version == V3 then DefaultContextJson else EdcV4ContextJson
  }

  /** The context `context_for_with_opts(_, true)` attaches: ODRL under V3,
      the v4 one under V4. */
  function OdrlFlaggedContext(c: ClientConfig): Json {
    if c.version == V3 then OdrlContextJson else EdcV4ContextJson
  }

  /** The URL every participant route of `c` starts with. */
  function BaseUrl(c: ClientConfig): (r: string)
    ensures c.participantContext.None? ==> r == c.managementUrl + "/" + c.version.AsStr()
    ensures c.participantContext.Some? ==>
      r == c.managementUrl + "/v4alpha/participants/" + c.participantContext.value
  {
    PathFor(c, [])
  }

  /** A participant route is the base URL followed by its segments. */
  lemma PathForIsBaseThenSegments(c: ClientConfig, paths: seq<string>)
    ensures PathFor(c, paths) == BaseUrl(c) + SlashEach(paths)
  {
  }

  /** A participant route of one segment, as text. */
  lemma Route1(c: ClientConfig, a: string)
    ensures PathFor(c, [a]) == BaseUrl(c) + "/" + a
  {
    PathForIsBaseThenSegments(c, [a]);
    SlashOne(BaseUrl(c), a);
  }

  /** A participant route of two segments, as text. */
  lemma Route2(c: ClientConfig, a: string, b: string)
    ensures PathFor(c, [a, b]) == BaseUrl(c) + "/" + a + "/" + b
  {
    PathForIsBaseThenSegments(c, [a, b]);
    SlashTwo(BaseUrl(c), a, b);
  }

  /** A participant route of three segments, as text. */
  lemma Route3(c: ClientConfig, a: string, b: string, d: string)
    ensures PathFor(c, [a, b, d]) == BaseUrl(c) + "/" + a + "/" + b + "/" + d
  {
    PathForIsBaseThenSegments(c, [a, b, d]);
    SlashThree(BaseUrl(c), a, b, d);
  }

  /** An admin route of one segment, as text. */
  lemma AdminRoute1(c: ClientConfig, a: string)
    ensures PathForTarget(c, Admin, [a]) == AdminUrl(c) + "/" + a
  {
    PathExtends(c, Admin, [], [a]);
    SlashOne(AdminUrl(c), a);
  }

  /** An admin route of three segments, as text. */
  lemma AdminRoute3(c: ClientConfig, a: string, b: string, d: string)
    ensures PathForTarget(c, Admin, [a, b, d]) == AdminUrl(c) + "/" + a + "/" + b + "/" + d
  {
    PathExtends(c, Admin, [], [a, b, d]);
    SlashThree(AdminUrl(c), a, b, d);
  }

  /** The URL every admin route of `c` starts with. */
  function AdminUrl(c: ClientConfig): (r: string)
    ensures c.participantContext.None? ==> r == c.managementUrl + "/" + c.version.AsStr()
    ensures c.participantContext.Some? ==> r == c.managementUrl + "/v4alpha"
  {
    PathForTarget(c, Admin, [])
  }

  /** The payload of a successful reply (`.map(|ctx| ctx.inner)`); errors pass
      through. */
  function Unwrapped<T>(reply: Result<WithContext<T>, Error>): (r: Result<T, Error>)
    ensures reply.Ok? ==> r == Ok(reply.value.inner)
    ensures reply.Err? ==> r == Err(reply.error)
  {
    match reply
    case Ok(w) => Ok(w.inner)
    case Err(e) => Err(e)
  }

  /** The payloads of a successful list reply, in count and order; errors
      pass through. */
  function UnwrappedAll<T>(reply: Result<seq<WithContext<T>>, Error>): (r: Result<seq<T>, Error>)
    ensures reply.Err? ==> r == Err(reply.error)
    ensures reply.Ok? ==> r.Ok? && |r.value| == |reply.value|
    ensures reply.Ok? ==> forall i :: 0 <= i < |reply.value| ==> r.value[i] == reply.value[i].inner
  {
    match reply
    case Ok(ws) => Ok(Inners(ws))
    case Err(e) => Err(e)
  }

  /** A reply that carries a resource's state (`TransferState`,
      `NegotiationState`). */
  datatype StateReply<S> = StateReply(state: S)

  /** `get_state`'s decoding: the state of a successful reply. */
  function StateOf<S>(reply: Result<WithContext<StateReply<S>>, Error>): (r: Result<S, Error>)
    ensures reply.Ok? ==> r == Ok(reply.value.inner.state)
    ensures reply.Err? ==> r == Err(reply.error)
  {
    match reply
    case Ok(w) => Ok(w.inner.state)
    case Err(e) => Err(e)
  }

  /** A response as the client sees it: the status, the body text, and what
      parsing that text as a list of error details yields. */
  datatype HttpResponse = HttpResponse(status: int, body: string, errorDetails: Option<seq<ErrorDetail>>)

  /** `handle_response`: a 2xx status goes to the handler; any other status
      becomes a management API error with that status, whose detail is the
      parsed error list when the body parses as one and the raw text
      otherwise. */
  function HandleResponse<R>(resp: HttpResponse, handler: HttpResponse -> Result<R, Error>): (r: Result<R, Error>)
    ensures IsSuccess(resp.status) ==> r == handler(resp)
    ensures !IsSuccess(resp.status) ==> r.Err? && r.error.ManagementApi? && r.error.statusCode == resp.status
    ensures !IsSuccess(resp.status) ==>
      (r.error.detail.Parsed? <==> resp.errorDetails.Some?)
    ensures !IsSuccess(resp.status) && resp.errorDetails.Some? ==> r.error.detail == Parsed(resp.errorDetails.value)
    ensures !IsSuccess(resp.status) && resp.errorDetails.None? ==> r.error.detail == Raw(resp.body)
  {
    if IsSuccess(resp.status) then
      handler(resp)
    else
      var detail := match resp.errorDetails
        case Some(parsed) => Parsed(parsed)
        case None => Raw(resp.body);
      Err(ManagementApi(resp.status, detail))
  }

  /** The `empty` handler: it never fails and ignores the response. */
  function EmptyHandler(resp: HttpResponse): (r: Result<(), Error>)
    ensures r.Ok?
  {
    Ok(())
  }

  /** A response is never both handed to the handler and turned into a
      management API error: the handler's own errors are the only other
      failures. */
  lemma EmptyReplyFailsIffNotSuccess(resp: HttpResponse)
    ensures HandleResponse(resp, EmptyHandler).Ok? <==> IsSuccess(resp.status)
  {
  }

  /** `BuilderExt::authenticated`: no header for `NoAuth`, `X-Api-Key` for an
      API token, and a bearer token from the OAuth2 cache — whose failure
      fails the request. Returns the authentication state as it stands
      afterwards, with the outcome; `now` and `done` are the clock readings
      of the token cache. */
  function Authenticated(req: Request, auth: Auth, now: int, done: int, endpoint: OAuth.TokenEndpoint): (r: (Auth, Result<Request, Error>))
    ensures auth.NoAuth? ==> r == (auth, Ok(req))
    ensures auth.ApiToken? ==> r == (auth, Ok(req.(headers := req.headers + [("X-Api-Key", auth.token)])))
    ensures auth.OAuth2? ==>
      var (cache, token) := OAuth.Token(auth.oauth, now, done, endpoint);
      && r.0 == OAuth2(cache)
      && (token.Ok? ==> r.1 == Ok(req.(headers := req.headers + [("Authorization", "Bearer " + token.value)])))
      && (token.Err? ==> r.1 == Err(token.error))
  {
    match auth
    case NoAuth => (auth, Ok(req))
    case ApiToken(token) => (auth, Ok(req.(headers := req.headers + [("X-Api-Key", token)])))
    case OAuth2(cache) =>
      var (cache', token) := OAuth.Token(cache, now, done, endpoint);
      match token
      case Ok(t) => (OAuth2(cache'), Ok(req.(headers := req.headers + [("Authorization", "Bearer " + t)])))
      case Err(e) => (OAuth2(cache'), Err(e))
  }

  /** Authentication only ever adds one header: method, URL, body and reply
      handling are untouched, and earlier headers stay in front. */
  lemma AuthenticatedOnlyAddsHeader(req: Request, auth: Auth, now: int, done: int, endpoint: OAuth.TokenEndpoint)
    requires Authenticated(req, auth, now, done, endpoint).1.Ok?
    ensures var out := Authenticated(req, auth, now, done, endpoint).1.value;
      && out.verb == req.verb && out.url == req.url && out.body == req.body && out.reply == req.reply
      && |out.headers| <= |req.headers| + 1
      && out.headers[..|req.headers|] == req.headers
  {
  }

  /** `EdcClientConnectorBuilder`. */
  datatype ClientBuilder = ClientBuilder(
    managementUrl: Option<string>,
    auth: Auth,
    version: ApiVersion,
    participantContext: Option<string>)
  {
    function ManagementUrl(url: string): (b: ClientBuilder)
      ensures b.managementUrl == Some(url)
      ensures b.auth == auth && b.version == version && b.participantContext == participantContext
    {
      this.(managementUrl := Some(url))
    }

    function WithAuth(a: Auth): (b: ClientBuilder)
      ensures b.auth == a
      ensures b.managementUrl == managementUrl && b.version == version && b.participantContext == participantContext
    {
      this.(auth := a)
    }

    function Version(v: ApiVersion): (b: ClientBuilder)
      ensures b.version == v
      ensures b.managementUrl == managementUrl && b.auth == auth && b.participantContext == participantContext
    {
      this.(version := v)
    }

    function ParticipantContext(pc: string): (b: ClientBuilder)
      ensures b.participantContext == Some(pc)
      ensures b.managementUrl == managementUrl && b.auth == auth && b.version == version
    {
      this.(participantContext := Some(pc))
    }

    /** `maybe_participant_context`: `None` clears an earlier context. */
    function MaybeParticipantContext(pc: Option<string>): (b: ClientBuilder)
      ensures b.participantContext == pc
      ensures b.managementUrl == managementUrl && b.auth == auth && b.version == version
    {
      this.(participantContext := pc)
    }

    /** `build`: fails naming `management_url` exactly when no URL was set;
        otherwise the client carries the builder's settings unchanged. */
    function Build(): (r: Result<ClientConfig, BuilderError>)
      ensures r.Err? <==> managementUrl.None?
      ensures r.Err? ==> r.error == MissingProperty("management_url")
      ensures r.Ok? ==> r.value == ClientConfig(managementUrl.value, auth, version, participantContext)
    {
      match managementUrl
      case None => Err(MissingProperty("management_url"))
      case Some(url) => Ok(ClientConfig(url, auth, version, participantContext))
    }
  }

  /** `EdcClientConnectorBuilder::default`: no URL, no authentication, V3, no
      participant context. */
  function DefaultBuilder(): (b: ClientBuilder)
    ensures b.managementUrl.None? && b.auth == NoAuth && b.version == V3 && b.participantContext.None?
  {
    ClientBuilder(None, NoAuth, V3, None)
  }

  /** Every setter is last-write-wins. */
  lemma BuilderLastWriteWins(b: ClientBuilder, u1: string, u2: string, a1: Auth, a2: Auth, v1: ApiVersion, v2: ApiVersion,
                             p1: string, p3: string, q1: Option<string>, p2: Option<string>)
    ensures b.ManagementUrl(u1).ManagementUrl(u2) == b.ManagementUrl(u2)
    ensures b.WithAuth(a1).WithAuth(a2) == b.WithAuth(a2)
    ensures b.Version(v1).Version(v2) == b.Version(v2)
    ensures b.ParticipantContext(p1).ParticipantContext(p3) == b.ParticipantContext(p3)
    ensures b.MaybeParticipantContext(q1).MaybeParticipantContext(p2) == b.MaybeParticipantContext(p2)
    ensures b.ParticipantContext(p1).MaybeParticipantContext(p2) == b.MaybeParticipantContext(p2)
    ensures b.ParticipantContext(p1).MaybeParticipantContext(None).participantContext.None?
  {
  }

  /** A client built from the defaults and a URL addresses `url/v3/...`
      and sends no authentication header. */
  lemma DefaultClientPaths(url: string, paths: seq<string>)
    ensures DefaultBuilder().ManagementUrl(url).Build().Ok?
    ensures PathFor(DefaultBuilder().ManagementUrl(url).Build().value, paths) == url + "/v3" + SlashEach(paths)
    ensures DefaultBuilder().ManagementUrl(url).Build().value.auth == NoAuth
  {
  }
}
