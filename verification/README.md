# EDC connector client and TUI core, modelled in Dafny

This project models three sequential cores of the `edc-rs` workspace, a Rust
client and terminal UI for the Eclipse Dataspace Components (EDC) connector
management API.

1. **The TUI component runtime** (`edc-connector-tui/src/components.rs`).
   - `ComponentMsg<T>` is the message envelope.
   - `ComponentReturn<T>` is the effect bundle: immediate messages, deferred
     commands and actions.
   - `map` lifts a child's bundle into a parent's message type.
   - The `forward_*` helpers drive a child component.
   - The `Notification` constructors build banners.
   - A command (a boxed future) becomes a deferred function from the state of
     the outside world to `Result<seq<ComponentMsg<T>>, Failure>`. The laws of
     `map` are then lemmas about every world:
     - relabelling is pointwise, keeping count and order;
     - failures pass through;
     - actions are untouched;
     - identity and composition laws hold.
   - A component's `&mut self` becomes explicit state: each operation returns
     the new state with its result.
2. **Management API request construction** (`edc-connector-client`).
   - URL assembly (`path_for_target`):
     - the version base path;
     - the participant-context base path;
     - the admin base path;
     - the fixed `v3` endpoints of transfer processes and EDRs.
   - JSON-LD context choice by API version and ODRL flag.
   - Classification of failed responses into `Parsed`/`Raw` errors.
   - The authentication header.
   - The client builder and the query builder.
   - The route table of every API module. Each route is a `Request` value:
     method, URL, body with its context, reply handling and headers.
   - EDR `get_entry`'s choice between the first match and a synthesised
     NOT_FOUND error.
   - Splitting is proved to be the inverse of the `join("/")` the client uses,
     so URL shapes are also stated as segment lists.
3. **The OAuth2 token-session cache** (`edc-connector-client/src/auth/oauth.rs`).
   - A state machine over no session, a valid session and an expired session.
   - Sessions expire with a 30-second margin.
   - The lifetime defaults to 3600 s when the token response gives none.
   - A refresh carries over the old refresh token.
   - A session without a refresh token falls back to client credentials.
   - The clock is an `int` (seconds). The token endpoint is an oracle
     parameter that maps each request to a response or an error.
   - A `token` call sees two clock readings: `now`, against which the cached
     session is checked, and `done`, taken once the exchange has completed,
     from which a new session's expiry is counted.

Modules:
- `Wrappers`: `Option`, `Result`.
- `Errors`: the client's error type, `NOT_FOUND`, success statuses.
- `Paths`: join, split and their round trip.
- `Context`: JSON values and `@context` wrappers.
- `Queries`: the query builder.
- `OAuth`: the token cache.
- `Client`: versions, paths, contexts, requests, responses, authentication, builder.
- `Components`: the TUI runtime.
- One module per API file: `Assets`, `ContractDefinitions`, `Secrets`,
  `Policies`, `ContractNegotiations`, `ContractAgreements`, `Catalog`,
  `Participants`, `Edrs`, `TransferProcesses`.

## Model

| member | source | states |
|---|---|---|
| `Components.ComponentMsg.Map` | edc-connector-tui/src/components.rs:194-199 | the mapped envelope holds `f` applied to the original payload |
| `Components.ComponentMsg.ToOwned` | edc-connector-tui/src/components.rs:190-192 | the payload taken out of an envelope rebuilds that same envelope: the envelope holds nothing else |
| `Components.FromValue` | edc-connector-tui/src/components.rs:259-263 | `to_owned` of an envelope built from `x` gives back `x` |
| `Components.ErrorNotification` | edc-connector-tui/src/components.rs:154-160 | an error banner keeps the text and has the 5-second timeout |
| `Components.InfoNotification` | edc-connector-tui/src/components.rs:162-168 | an info banner keeps the text and has the 5-second timeout |
| `Components.NotificationsDifferOnlyInKind` | edc-connector-tui/src/components.rs:154-168 | both constructors are injective in the text, never build the same banner, and agree on everything but the kind |
| `Components.Empty` | edc-connector-tui/src/components.rs:211-217 | no messages, no commands, no actions |
| `Components.FromCommand` | edc-connector-tui/src/components.rs:203-209 | exactly one command, which resolves like the given one in every world; no messages or actions |
| `Components.FromAction` | edc-connector-tui/src/components.rs:219-225 | exactly the one action; no messages or commands |
| `Components.FromMsg` | edc-connector-tui/src/components.rs:265-273 | exactly the one message; no commands or actions |
| `Components.MapMsgs` | edc-connector-tui/src/components.rs:231 | relabelling a message list keeps its length and maps each position by `f` |
| `Components.MapReturn` | edc-connector-tui/src/components.rs:227-256 | messages relabelled pointwise in order; same number of commands, each failing with the original's error or yielding its messages relabelled, in every world; actions unchanged |
| `Components.MapMsgsIdentity` | edc-connector-tui/src/components.rs:231 | relabelling with the identity returns the same list |
| `Components.MapMsgsCompose` | edc-connector-tui/src/components.rs:242-245 | relabelling by `f` then `g` equals relabelling once by their composition |
| `Components.MapMsgsAppend` | edc-connector-tui/src/components.rs:240-245 | relabelling distributes over concatenation, so order across batches is kept |
| `Components.MapReturnIdentity` | edc-connector-tui/src/components.rs:227-256 | mapping by the identity keeps messages and actions, and every command resolves as before in every world |
| `Components.MapReturnCompose` | edc-connector-tui/src/components.rs:227-256 | mapping twice is observationally mapping once by the composition, for messages, actions and every command in every world |
| `Components.MapRunCommute` | edc-connector-tui/src/components.rs:237-248 | a mapped command that succeeds yields as many messages as the original, each the relabelling of the original at the same position |
| `Components.MapReturnSingletons` | edc-connector-tui/src/components.rs:202-256 | mapping the empty or a singleton bundle keeps its shape: the empty bundle stays empty, and a one-message, one-action or one-command bundle keeps exactly that one item (the message relabelled, the action unchanged) with the other two lists empty |
| `Components.DefaultInit` | edc-connector-tui/src/components.rs:30-32 | the default `init` leaves the state and returns an empty bundle |
| `Components.DefaultUpdate` | edc-connector-tui/src/components.rs:36-41 | the default `update` leaves the state and returns an empty bundle |
| `Components.DefaultHandleEvent` | edc-connector-tui/src/components.rs:43-48 | the default `handle_event` leaves the state and returns no messages |
| `Components.LiftStep` | edc-connector-tui/src/components.rs:59 | the child's new state is kept, a child error is passed on unchanged, a child bundle is lifted as `map` does |
| `Components.ForwardUpdate` | edc-connector-tui/src/components.rs:50-60 | the child's `update` result, lifted by the mapper, or the child's error unchanged |
| `Components.ForwardInit` | edc-connector-tui/src/components.rs:62-72 | the child's `init` result, lifted by the mapper, or the child's error unchanged |
| `Components.ForwardEvent` | edc-connector-tui/src/components.rs:74-88 | success exactly when the child succeeds; the child's messages relabelled pointwise in order, or the child's error |
| `Components.ForwardToDefaultsOnly` | edc-connector-tui/src/components.rs:30-88 | forwarding to a component with only the default operations yields empty results and leaves its state alone |
| `Paths.JoinAppend` | edc-connector-client/src/client.rs:216-220 | joining a longer segment list extends the join of its prefix by the slashed extra segments |
| `Paths.SplitJoin` | edc-connector-client/src/client.rs:216-220 | splitting a join of slash-free segments at "/" gives back the segments |
| `Client.ApiVersion.AsStr` | edc-connector-client/src/client.rs:34-41 | V3 is "v3", V4 is "v4beta" |
| `Client.VersionSegmentsDistinct` | edc-connector-client/src/client.rs:34-41 | the two version segments differ from each other and from "v4alpha" |
| `Client.PathForTarget` | edc-connector-client/src/client.rs:202-221 | without a participant context: url/version/segments; with context pc: url/v4alpha/participants/pc/segments for participant routes and url/v4alpha/segments for admin routes |
| `Client.PathIsUrlThenSlashed` | edc-connector-client/src/client.rs:202-221 | the URL is the management URL followed by the remaining base segments and the route's segments, each after a slash |
| `Client.PathFor` | edc-connector-client/src/client.rs:198-221 | a participant route is the management URL, then the configured version when no participant context is set, or `v4alpha/participants/<context>` when one is (ignoring the version), then each route segment after a slash |
| `Client.PathSegments` | edc-connector-client/src/client.rs:202-221 | for slash-free segments, the URL splits into the management URL's pieces, the base segments and the route's segments, in order |
| `Client.PathExtends` | edc-connector-client/src/client.rs:216-220 | appending segments to a route appends them to its URL |
| `Client.ParticipantContextOverridesVersion` | edc-connector-client/src/client.rs:203-215 | under a participant context the version plays no part, and admin routes do not depend on which context is set |
| `Client.BaseUrl` | edc-connector-client/src/client.rs:203-215 | the text every participant route starts with, for both configurations |
| `Client.AdminUrl` | edc-connector-client/src/client.rs:211-214 | the text every admin route starts with, for both configurations |
| `Client.ContextForWithOpts` | edc-connector-client/src/client.rs:227-242 | the body is kept; V3 with the flag gives the ODRL context, V3 without it the default context, V4 the v4 context whatever the flag |
| `Client.ContextFor` | edc-connector-client/src/client.rs:223-225 | the flag is off: the default context under V3, the v4 context under V4 |
| `Client.OdrlContextIff` | edc-connector-client/src/client.rs:227-242 | the ODRL context appears if and only if the version is V3 and the flag is set |
| `Client.Unwrapped` | edc-connector-client/src/api/assets.rs:24 | a successful reply yields its inner payload; an error passes through |
| `Client.UnwrappedAll` | edc-connector-client/src/api/assets.rs:45 | a successful list reply yields the inner payloads with count and order kept; an error passes through |
| `Client.StateOf` | edc-connector-client/src/api/contract_negotiations.rs:44-50 | `get_state` yields the state of the decoded reply; an error passes through |
| `Client.HandleResponse` | edc-connector-client/src/client.rs:175-196 | a 2xx status gives the handler's result; any other status gives a management API error with that status whose detail is `Parsed` if and only if the body parses as error details, else `Raw(body)` |
| `Client.EmptyHandler` | edc-connector-client/src/client.rs:249-251 | the `empty` handler never fails, whatever the response |
| `Client.EmptyReplyFailsIffNotSuccess` | edc-connector-client/src/client.rs:180-195 | with the `empty` handler a response fails exactly when its status is not 2xx |
| `Client.Authenticated` | edc-connector-client/src/client.rs:397-405 | NoAuth leaves the request as it is; an API token adds `X-Api-Key`; OAuth2 adds `Authorization: Bearer <token>` or fails with the token error, and the cache advances as `token` says |
| `Client.AuthenticatedOnlyAddsHeader` | edc-connector-client/src/client.rs:397-405 | an authenticated request keeps method, URL, body, reply handling and earlier headers, adding at most one header |
| `Client.ClientBuilder.ManagementUrl` | edc-connector-client/src/client.rs:335-338 | sets the URL and nothing else |
| `Client.ClientBuilder.WithAuth` | edc-connector-client/src/client.rs:340-343 | sets the authentication and nothing else |
| `Client.ClientBuilder.Version` | edc-connector-client/src/client.rs:345-348 | sets the version and nothing else |
| `Client.ClientBuilder.ParticipantContext` | edc-connector-client/src/client.rs:350-353 | sets the participant context and nothing else |
| `Client.ClientBuilder.MaybeParticipantContext` | edc-connector-client/src/client.rs:355-361 | sets or clears the participant context and nothing else |
| `Client.ClientBuilder.Build` | edc-connector-client/src/client.rs:363-376 | fails with missing "management_url" if and only if no URL was set; otherwise the client carries the settings unchanged |
| `Client.DefaultBuilder` | edc-connector-client/src/client.rs:379-388 | no URL, NoAuth, V3, no participant context |
| `Client.BuilderLastWriteWins` | edc-connector-client/src/client.rs:335-361 | each setter's last call wins, including repeated `participant_context` and `maybe_participant_context` calls and the two mixed; `maybe_participant_context(None)` clears an earlier context |
| `Client.DefaultClientPaths` | edc-connector-client/src/client.rs:363-388 | a default builder with a URL builds, sends no authentication and addresses url/v3/segments |
| `Context.New` | edc-connector-client/src/types/context.rs:35-37 | the context and the payload are stored unchanged |
| `Context.DefaultContext` | edc-connector-client/src/types/context.rs:39-41 | the payload with the object {"@vocab": EDC namespace} |
| `Context.OdrlContextOf` | edc-connector-client/src/types/context.rs:47-49 | the payload with the two-element array [ODRL context, vocabulary object], in that order |
| `Context.EdcV4ContextOf` | edc-connector-client/src/types/context.rs:43-45 | the payload with the one-element array [EDC v4 context] |
| `Context.ContextsDistinct` | edc-connector-client/src/types/context.rs:11-15 | the default, ODRL and v4 contexts differ pairwise |
| `Context.Inners` | edc-connector-client/src/api/contract_agreement.rs:27 | unwrapping a list keeps its count, and each position holds the inner payload of the same position |
| `Queries.DefaultQuery` | edc-connector-client/src/types/query.rs:95-104 | offset 0, limit 50, no sort, no filters |
| `Queries.NewCriterion` | edc-connector-client/src/types/query.rs:85-93 | the operands and operator are stored as given |
| `Queries.QueryBuilder.Filter` | edc-connector-client/src/types/query.rs:24-34 | appends exactly one criterion after the earlier ones, changing no other field |
| `Queries.QueryBuilder.SortBy` | edc-connector-client/src/types/query.rs:36-39 | replaces the sort and changes nothing else |
| `Queries.QueryBuilder.Limit` | edc-connector-client/src/types/query.rs:41-44 | overwrites the limit and nothing else |
| `Queries.QueryBuilder.Offset` | edc-connector-client/src/types/query.rs:46-49 | overwrites the offset and nothing else |
| `Queries.QueryBuilder.Build` | edc-connector-client/src/types/query.rs:50-52 | the built query is exactly the one the setters accumulated, so wrapping it again gives back the same builder |
| `Queries.Builder` | edc-connector-client/src/types/query.rs:15-19 | a fresh builder builds the default query |
| `Queries.FilterAll` | edc-connector-client/src/types/query.rs:24-34 | filter calls one after another append exactly their criteria, in call order, and change nothing else |
| `Queries.SettersLastWriteWins` | edc-connector-client/src/types/query.rs:36-49 | sort, limit and offset are last-write-wins, and limit and offset commute |
| `OAuth.ConfigWithDefaultScopes` | edc-connector-client/src/auth/oauth.rs:86-87 | the default scopes are management-api:read and management-api:write |
| `OAuth.Init` | edc-connector-client/src/auth/oauth.rs:91-103 | a new client keeps the configured scopes and has no session |
| `OAuth.IsExpired` | edc-connector-client/src/auth/oauth.rs:73-75 | a session is expired exactly when at most `ExpiryMargin` (30) seconds remain before `expiresAt` |
| `OAuth.ExpiryIsMonotone` | edc-connector-client/src/auth/oauth.rs:73-75 | once expired a session stays expired as the clock advances; it is valid one second before `expiresAt - 30` and expired from that instant on |
| `OAuth.ExpiresAt` | edc-connector-client/src/auth/oauth.rs:148-151 | the instant the exchange completed plus expires_in, or plus 3600 when the response gives none |
| `OAuth.NewSession` | edc-connector-client/src/auth/oauth.rs:133-158 | a client-credentials exchange for the scopes; its failure becomes an auth error; on success the session holds the response's tokens and an expiry counted from the clock reading taken after the exchange |
| `OAuth.RefreshSession` | edc-connector-client/src/auth/oauth.rs:160-187 | without a refresh token, a new session; otherwise a refresh exchange whose failure is an auth error, and whose session keeps the old refresh token if the response has none |
| `OAuth.Token` | edc-connector-client/src/auth/oauth.rs:111-131 | validity is checked against the clock reading taken before any exchange; a valid session's token is returned with the cache unchanged; otherwise the refreshed (expired) or new (absent) session is stored and its token returned; on failure the cache is unchanged |
| `OAuth.CachedUntilMargin` | edc-connector-client/src/auth/oauth.rs:73-75 | a token handed out by a call is returned again, with no change to the cache and no exchange, by every later call until 30 s before its expiry |
| `OAuth.FreshSessionValidIff` | edc-connector-client/src/auth/oauth.rs:148-151 | a fresh session is valid the moment its exchange completes if and only if its lifetime exceeds the 30-second margin |
| `OAuth.RefreshKeepsRefreshToken` | edc-connector-client/src/auth/oauth.rs:174-177 | a session that had a refresh token still has one after a successful `token` call |
| `OAuth.RefreshFailureIsFinal` | edc-connector-client/src/auth/oauth.rs:160-167 | with a refresh token, a failed refresh is reported as is; no client-credentials fallback happens and the cache is unchanged |
| `Assets.Create` | edc-connector-client/src/api/assets.rs:19-25 | POST to base/assets with the plain context, reply decoded |
| `Assets.Get` | edc-connector-client/src/api/assets.rs:27-33 | GET base/assets/id, no body |
| `Assets.Update` | edc-connector-client/src/api/assets.rs:35-38 | PUT to base/assets, with no id segment and with the plain context, reply ignored |
| `Assets.Query` | edc-connector-client/src/api/assets.rs:40-46 | POST the query to base/assets/request with the plain context |
| `Assets.Delete` | edc-connector-client/src/api/assets.rs:48-51 | DELETE base/assets/id, reply ignored |
| `Assets.RouteRelations` | edc-connector-client/src/api/assets.rs:19-51 | get and delete address the same URL; create and update the collection; the item URL is the collection URL plus "/id" |
| `ContractDefinitions.Create` | edc-connector-client/src/api/contract_definitions.rs:19-31 | POST to base/contractdefinitions with the plain context |
| `ContractDefinitions.Get` | edc-connector-client/src/api/contract_definitions.rs:33-39 | GET base/contractdefinitions/id |
| `ContractDefinitions.Update` | edc-connector-client/src/api/contract_definitions.rs:41-46 | PUT to base/contractdefinitions, with no id segment |
| `ContractDefinitions.Query` | edc-connector-client/src/api/contract_definitions.rs:48-54 | POST the query to base/contractdefinitions/request |
| `ContractDefinitions.Delete` | edc-connector-client/src/api/contract_definitions.rs:56-59 | DELETE base/contractdefinitions/id |
| `ContractDefinitions.RouteRelations` | edc-connector-client/src/api/contract_definitions.rs:19-59 | get and delete share a URL; create and update share the collection URL, which the others extend |
| `Secrets.Create` | edc-connector-client/src/api/secrets.rs:18-24 | POST to base/secrets with the plain context |
| `Secrets.Get` | edc-connector-client/src/api/secrets.rs:26-32 | GET base/secrets/id |
| `Secrets.Update` | edc-connector-client/src/api/secrets.rs:34-37 | PUT to base/secrets, with no id segment |
| `Secrets.Delete` | edc-connector-client/src/api/secrets.rs:39-42 | DELETE base/secrets/id |
| `Secrets.RouteRelations` | edc-connector-client/src/api/secrets.rs:18-42 | get and delete share a URL; the item URL extends the collection URL |
| `Policies.Create` | edc-connector-client/src/api/policies.rs:19-31 | POST to base/policydefinitions with the ODRL-flagged context |
| `Policies.Get` | edc-connector-client/src/api/policies.rs:33-39 | GET base/policydefinitions/id |
| `Policies.Update` | edc-connector-client/src/api/policies.rs:41-48 | PUT to base/policydefinitions/<the definition's own id> with the ODRL-flagged context |
| `Policies.Query` | edc-connector-client/src/api/policies.rs:50-56 | POST the query to base/policydefinitions/request with the plain context |
| `Policies.Delete` | edc-connector-client/src/api/policies.rs:58-61 | DELETE base/policydefinitions/id |
| `Policies.RouteRelations` | edc-connector-client/src/api/policies.rs:19-61 | update addresses the definition's own URL, which get and delete share; V3 creation carries the ODRL context, a query never does |
| `ContractNegotiations.Initiate` | edc-connector-client/src/api/contract_negotiations.rs:22-34 | POST to base/contractnegotiations with the ODRL-flagged context |
| `ContractNegotiations.Get` | edc-connector-client/src/api/contract_negotiations.rs:36-42 | GET base/contractnegotiations/id |
| `ContractNegotiations.GetState` | edc-connector-client/src/api/contract_negotiations.rs:44-50 | the same GET as `get` |
| `ContractNegotiations.Terminate` | edc-connector-client/src/api/contract_negotiations.rs:52-62 | POST {id, reason} to base/contractnegotiations/id/terminate with the plain context, reply ignored |
| `ContractNegotiations.Query` | edc-connector-client/src/api/contract_negotiations.rs:64-70 | POST the query to base/contractnegotiations/request |
| `ContractNegotiations.RouteRelations` | edc-connector-client/src/api/contract_negotiations.rs:36-62 | get and get_state send the identical request; terminate extends its URL by "/terminate" |
| `ContractAgreements.Get` | edc-connector-client/src/api/contract_agreement.rs:14-20 | GET base/contractagreements/id |
| `ContractAgreements.Query` | edc-connector-client/src/api/contract_agreement.rs:22-28 | POST the query to base/contractagreements/request with the plain context |
| `ContractAgreements.RouteRelations` | edc-connector-client/src/api/contract_agreement.rs:14-28 | an agreement's URL equals the query URL exactly when the id is `request`, and even then the two requests differ by method |
| `Catalog.Request` | edc-connector-client/src/api/catalog.rs:17-24 | POST to base/catalog/request with the plain context |
| `Catalog.Dataset` | edc-connector-client/src/api/catalog.rs:26-32 | POST to base/catalog/dataset/request with the plain context |
| `Catalog.NeverOdrl` | edc-connector-client/src/api/catalog.rs:17-32 | neither catalog body carries the ODRL context |
| `Participants.Create` | edc-connector-client/src/api/participants.rs:18-24 | POST to admin/participants with the plain context |
| `Participants.Save` | edc-connector-client/src/api/participants.rs:34-44 | PUT to admin/participants/id/config with the plain context, reply ignored |
| `Participants.AdminRoutesIgnoreContext` | edc-connector-client/src/api/participants.rs:18-44 | once a participant context is set, admin URLs do not depend on which one, and `save`'s URL splits into url pieces, v4alpha, participants, id, config |
| `Participants.AdminRoutesWithoutContext` | edc-connector-client/src/client.rs:202-221 | without a participant context the admin URLs sit under the configured version (url pieces, version, participants, id, config), so setting a context always changes them |
| `Edrs.Endpoint` | edc-connector-client/src/api/edrs.rs:63-69 | management URL, then /v3/edrs, then the segments |
| `Edrs.GetDataAddress` | edc-connector-client/src/api/edrs.rs:39-45 | GET url/v3/edrs/id/dataaddress |
| `Edrs.Query` | edc-connector-client/src/api/edrs.rs:47-56 | POST the query to url/v3/edrs/request, always in the default context |
| `Edrs.Delete` | edc-connector-client/src/api/edrs.rs:58-61 | DELETE url/v3/edrs/id |
| `Edrs.EntryQuery` | edc-connector-client/src/api/edrs.rs:22-24 | the default page whose only criterion is transferProcessId = id |
| `Edrs.GetEntryRequest` | edc-connector-client/src/api/edrs.rs:21-26 | `get_entry` posts that query to url/v3/edrs/request in the default context |
| `Edrs.GetEntry` | edc-connector-client/src/api/edrs.rs:26-36 | the first entry found; a 404 with a raw message naming the id when none is; a query error passed on unchanged |
| `Edrs.GetEntryIff` | edc-connector-client/src/api/edrs.rs:21-37 | success exactly when the query found entries, and then an entry the query returned; NOT_FOUND exactly when the query succeeded empty |
| `Edrs.QueryResult` | edc-connector-client/src/api/edrs.rs:55 | a successful reply yields its entries unwrapped with count and order kept; an error passes through |
| `Edrs.EndpointIgnoresVersionAndContext` | edc-connector-client/src/api/edrs.rs:63-69 | EDR URLs do not depend on the version or the participant context |
| `TransferProcesses.Endpoint` | edc-connector-client/src/api/transfer_process.rs:97-103 | management URL, then /v3/transferprocesses, then the segments |
| `TransferProcesses.Initiate` | edc-connector-client/src/api/transfer_process.rs:22-34 | POST to the base endpoint with no extra segment, in the default context |
| `TransferProcesses.Get` | edc-connector-client/src/api/transfer_process.rs:36-42 | GET url/v3/transferprocesses/id |
| `TransferProcesses.GetState` | edc-connector-client/src/api/transfer_process.rs:44-50 | the same GET as `get` |
| `TransferProcesses.Query` | edc-connector-client/src/api/transfer_process.rs:52-61 | POST the query to url/v3/transferprocesses/request in the default context |
| `TransferProcesses.Terminate` | edc-connector-client/src/api/transfer_process.rs:63-74 | POST {id, reason} to url/v3/transferprocesses/id/terminate in the default context, reply ignored |
| `TransferProcesses.Suspend` | edc-connector-client/src/api/transfer_process.rs:76-87 | POST {id, reason} to url/v3/transferprocesses/id/suspend in the default context, reply ignored |
| `TransferProcesses.Resume` | edc-connector-client/src/api/transfer_process.rs:89-95 | POST a JSON null to url/v3/transferprocesses/id/resume, reply ignored |
| `TransferProcesses.IndependentOfConfiguration` | edc-connector-client/src/api/transfer_process.rs:22-103 | the endpoint URL for any segments, and every transfer request (initiate, get, get_state, query, terminate, suspend, resume), do not depend on the version or the participant context; no JSON body (initiate, query, terminate, suspend) carries the ODRL or the v4 context |
| `TransferProcesses.RouteRelations` | edc-connector-client/src/api/transfer_process.rs:36-95 | get and get_state are identical; terminate, suspend and resume extend the process URL by one segment, which extends the base endpoint by the id |

## Left out

- Sending HTTP requests is not modelled (reqwest, and `get`/`put`/`del`/`post`/`internal_*` in `client.rs` beyond the request they describe). A request is a value: method, URL, body, reply handling, headers.
- serde (de)serialisation is not modelled. Entities are opaque documents identified by an id. A response is a status, a body text and the outcome of parsing that text as error details.
- `as_json` decoding failures are not modelled: a decoded reply is an input.
- Client.HandleResponse: does not model a failure to read the body text (`response.text().await?`), which is a transport error.
- Concurrency is not modelled: the tokio `Mutex` around the session, `Arc`, `async_trait` and futures. Each `token` call runs alone.
- OAuth.ExpiresAt: `Instant` is an unbounded integer count of seconds, so the panic of `Instant + Duration` on overflow is not modelled.
- Context.Json: JSON numbers are integers, so a floating-point value (a fractional filter operand in a query, say) cannot be represented; no operation of the model inspects numbers.
- The oauth2 crate's HTTP exchange is the `TokenEndpoint` oracle. Its error becomes `Auth` with the error's text.
- `OAuth2::init`'s client-id, secret and URL parsing (`AuthUrl::new(..).unwrap()`, `TokenUrl::new(..).unwrap()`) is not modelled; only the scopes and the empty cache are.
- `Action::Spawn`'s future is an opaque tag. `Nav` is a name, because its type is defined outside the modelled files.
- The app driver that interprets actions is not part of this model: navigation, timers and notification display.
- Rendering and input are not modelled: `view`, `StatelessComponent`, ratatui `Frame`/`Rect`, crossterm events (an event is an opaque code). `ActionHandler` and the `Debug` impls are left out too.
- `EDC_NAMESPACE` is defined in the crate root, which is not part of this model. Its value is written as a constant, and no property depends on its text.
- `edc-connector-tui/src/config.rs` and `edc-connector-tui/src/app/fetch.rs` are not modelled. They cover file reading and TOML parsing, and thin network calls.
- `edc-connector-client/src/api/dataplanes.rs` is not modelled: a single fixed GET route.
- `edc-connector-client/src/auth.rs` declares only two variants. `Auth` follows the three variants `authenticated` matches on.
