# netease-mcp, modelled in Dafny

netease-mcp is a protocol adapter. It exposes a music-streaming web API as
eight MCP tools (`search`, `get_song_detail`, `get_song_url`,
`get_unblocked_url`, `get_lyric`, `get_playlist`, `get_album`, `get_artist`).
These are served over an SSE transport, one MCP server per connection. Each
connection is a session, and the API client's cookie is chosen per session.

The model covers the four parts of the adapter that have logic of their own:

- **Api.dfy** (`src/api.ts`). The cookie store is a class with a
  session-to-cookie map and a global fallback cookie. It has setters, the
  anonymous-registration guard and the resolution rule: a truthy explicit
  cookie first, then the session's cookie, then the global one. The facade
  operations become the client requests they build. The external client is a
  function from requests to responses, passed in as a parameter.
- **Tools.dfy** (`src/tools.ts`). The tool table and its object schemas.
  Validation is required fields, type checks, enum membership and defaults,
  with unknown keys dropped. Each handler turns its validated arguments into
  facade calls. `parseInt` is applied to the search type and `join(',')` to
  the song ids. A handler awaits its calls one after another; the first
  rejection propagates. The content returned is the merged result. Module
  `ToolProperties` proves the per-tool properties.
- **Server.dfy** (`src/server.ts`). `createServer`, the `tools/list`
  projection and the `tools/call` dispatcher: look up, fail with "not found",
  validate, then call the handler with the server's fixed session id.
- **Gateway.dfy** (`src/index.ts`). The start-up choice between the
  environment cookie and anonymous registration, and Bearer-header parsing.
  The transport registry is the `Sessions` class: add on connect, remove on
  close, and routing of posted messages (400, 404 or deliver).

Js.dfy (truthiness, JSON values, Option/Result) and Text.dfy (decimal
rendering, decimal `parseInt`, `join` and `split`) supply the JavaScript
semantics these rely on.

Closing a session removes only its transport and keeps its cookie entry:
`src/index.ts:50-54` never touches the cookie map, so a cookie set for a
session still resolves for that id after close (`Gateway.SessionLifecycle`).

## Model

| member | source | states |
|---|---|---|
| Text.ParseIntOfRender | src/tools.ts:35 | `parseInt` of the decimal rendering `join` gives a number yields that number back, negatives included |
| Text.SplitOfJoin | src/tools.ts:35 | splitting a comma-join at the comma gives back the parts, provided no part contains a comma |
| Api.EndpointOf | src/api.ts:68-100 | each facade operation calls its own client operation, except that `getSongUrl` and `getUnblockedUrl` both call `song_url_v1`: for each of the nine client operations, exactly which facade operations reach it |
| Api.Arguments | src/api.ts:60-101 | no facade operation puts a `cookie` in the options it builds |
| Api.AnonymousCookie | src/api.ts:36-44 | a cookie comes out only from a resolved registration whose body is an object with a non-empty string `cookie`, and it is that `cookie` value; a thrown error yields none |
| Api.CookieStore.constructor | src/api.ts:16-18 | the store starts with no session cookies and an empty global cookie |
| Api.CookieStore.GetCookie | src/api.ts:24-29 | a non-empty session id that has an entry resolves to that entry; an absent, empty or unknown id resolves to the global cookie |
| Api.CookieStore.SetGlobalCookie | src/api.ts:20-22 | only the global cookie changes; sessions with an entry still resolve to it, all others resolve to the new cookie |
| Api.CookieStore.SetSessionCookie | src/api.ts:31-33 | the entry is overwritten (last write wins); the session then resolves to the new cookie; the global cookie and every other session's resolution are unchanged |
| Api.CookieStore.InitAnonymousCookie | src/api.ts:35-45 | the global cookie is replaced exactly when the registration yields a cookie, and then becomes the registration body's `cookie`; otherwise nothing changes; session cookies never change |
| Api.CookieStore.WithCookie | src/api.ts:53-58 | every option field is kept and `cookie` is added; a truthy explicit cookie wins, otherwise the resolved cookie is used |
| Api.CookieStore.Request | src/api.ts:60-101 | each facade operation calls its own client endpoint with its arguments unchanged plus the session's resolved cookie |
| Api.UnblockedUrlExtendsSongUrl | src/api.ts:73-78 | `getUnblockedUrl` sends exactly what `getSongUrl` sends, to the same endpoint, plus `unblock: true` |
| Tools.Issues | src/server.ts:37 | validation reports no issue exactly when every field has a value (accepted or defaulted); a key is reported iff its field is supplied with a rejected value or missing without a default |
| Tools.Shaped | src/server.ts:37 | the validated object has exactly the schema's keys, each holding the supplied or the default value |
| Tools.Parse | src/server.ts:37 | validation succeeds iff arguments are present and every field is accepted or has a default; the result conforms to the schema and keeps supplied values; with arguments present, a failure names exactly the failing fields (at least one) |
| Tools.Definition | src/tools.ts:4-168 | the table entry of each tool; `get_song_url` and `get_unblocked_url` are exactly the two tools that share the song-url schema |
| Tools.LookupOfDefinition | src/tools.ts:4-168 | each table entry's name is its own key: looking up a tool's name finds that tool |
| Tools.Lookup | src/server.ts:30-34 | a found tool has the requested name; no tool has a name that is not found |
| Tools.DefinitionsWellFormed | src/tools.ts:4-168 | every schema of the table has distinct keys and defaults that its own checks accept |
| Tools.SearchSchemaWellFormed | src/tools.ts:8-19 | the `search` schema is well formed (its default type `'1'` is one of the codes) |
| Tools.SongUrlSchemaWellFormed | src/tools.ts:45-62 | the song-url schema is well formed (its default level `'standard'` is a listed level) |
| Tools.PlaylistSchemaWellFormed | src/tools.ts:114-118 | the `get_playlist` schema is well formed |
| Tools.Validate | src/server.ts:37 | validation by a table schema is well defined and an accepted result conforms to the schema |
| Tools.SearchTypeNumber | src/tools.ts:21 | each listed search code is a decimal numeral, and the number passed on is what `parseInt` makes of it |
| Tools.IdsParam | src/tools.ts:35 | an empty id list becomes the empty string |
| Tools.IdsParamRoundTrip | src/tools.ts:35 | the joined id string splits into exactly one piece per id, and piece i parses back to id i |
| Tools.Calls | src/tools.ts:20-167 | `get_playlist` and `get_artist` make two facade calls, every other tool makes one |
| Tools.Requests | src/tools.ts:20-167 | a handler has one client request per facade call |
| Tools.RequestsFollowCalls | src/tools.ts:20-167 | request i is what facade call i sends with the session id the handler was given, so each carries that session's resolved cookie |
| Tools.RunInOrder | src/tools.ts:121-123 | requests are awaited in order: the issued ones are a prefix; success iff all were issued and resolved, with their bodies in order; a failure is the rejection of the last issued request, after all earlier ones resolved |
| Tools.Respond | src/tools.ts:119-133 | awaiting a handler's requests in order: a non-empty prefix is issued; success iff all were issued and resolved, answering one text content with the merged bodies; otherwise the rejection of the last issued request, after all earlier ones resolved |
| Tools.Merge | src/tools.ts:125-161 | `get_playlist` returns exactly `{playlist, tracks}` and `get_artist` exactly `{artist, topSongs}` from the two bodies in call order; every other tool returns its one body |
| Tools.Handle | src/tools.ts:20-167 | a handler issues a non-empty prefix of its requests, in call order; every request before the last one resolved; it succeeds iff all were issued and resolved, returning one text content with the merged bodies; otherwise it throws the rejection of the last issued request |
| ToolProperties.SearchDefaults | src/tools.ts:10-18 | `search` with only keywords validates, with type `'1'`, limit 30 and offset 0 |
| ToolProperties.SearchFieldDefaults | src/tools.ts:10-18 | for any accepted `search` input, an absent type, limit or offset becomes `'1'`, 30 or 0, and supplied values are kept |
| ToolProperties.SearchDefaultCall | src/tools.ts:21-22 | with those defaults the facade search is for type 1, limit 30, offset 0 |
| ToolProperties.SearchRejectsUnlistedType | src/tools.ts:10-13 | a `type` outside the eleven codes fails validation |
| ToolProperties.SearchArguments | src/tools.ts:20-22 | `search` passes on keywords, limit and offset unchanged, and the integer that `parseInt` gives for the type code |
| ToolProperties.SongDetailArguments | src/tools.ts:32-36 | `get_song_detail` passes the ids as one comma-separated string whose pieces parse back to the ids, in order; no ids give "" |
| ToolProperties.SongUrlRejectsNonNumericId | src/tools.ts:46 | a non-numeric `id` fails validation for the song-url schema |
| ToolProperties.SongUrlLevels | src/tools.ts:47-61 | a validated level is one of the nine listed, and `'standard'` when none is given |
| ToolProperties.PassThroughArguments | src/tools.ts:63-146 | `get_song_url` and `get_unblocked_url` hand on the validated id and level unchanged, `get_lyric` and `get_album` the validated id, in one call each |
| ToolProperties.UnblockedUrlAddsUnblock | src/tools.ts:91-92 | on the same arguments, `get_unblocked_url` makes `get_song_url`'s request plus `unblock: true` |
| ToolProperties.PlaylistDefaults | src/tools.ts:114-118 | `get_playlist` with only an id validates, with limit 1000 and offset 0 |
| ToolProperties.PlaylistFieldDefaults | src/tools.ts:116-117 | for any accepted `get_playlist` input, an absent limit becomes 1000 and an absent offset 0; supplied values are kept |
| ToolProperties.PlaylistHandler | src/tools.ts:119-133 | `get_playlist` requests the detail first; a rejected detail stops there and fails; once it resolves, the tracks are requested with its id, limit and offset; success returns `{playlist, tracks}` from the two bodies |
| ToolProperties.ArtistHandler | src/tools.ts:154-166 | `get_artist` requests the detail, then the top songs; a rejected detail stops there and fails; success iff both resolve, returning `{artist, topSongs}` |
| Server.CreateServer | src/server.ts:5-16 | the server is bound to the session id it was created with |
| Server.ListTools | src/server.ts:18-26 | one entry per table entry, in table order, each with that tool's name, description and schema |
| Server.ListedNamesDispatch | src/server.ts:18-34 | every tool is listed, and each listed name dispatches to the tool it was listed for |
| Server.CallTool | src/server.ts:28-41 | an unknown name fails with "Tool <name> not found" and issues nothing; failed validation issues nothing; otherwise the handler runs with the server's session id |
| Server.CallToolCookies | src/server.ts:39-40 | every request a tool call makes carries the cookie resolved for the server's own session id, never a per-request one |
| Server.PropertyAsWritten | src/server.ts:30 | the property access yields a tool exactly for the table's names, and an inherited member exactly for the other `Object.prototype` names |
| Server.CallToolAsWritten | src/server.ts:28-41 | for an inherited member's name the dispatcher as written throws a TypeError before any request; otherwise it behaves like `CallTool` |
| Server.InheritedNameEscapesNotFound | src/server.ts:30-37 | a call to "toString" is not reported as not found by the code as written, but is by `CallTool` |
| Gateway.Initialize | src/index.ts:16-24 | a truthy environment cookie becomes the global cookie and no registration runs; otherwise registration runs and, only if it yields a cookie, sets the global cookie to the registration body's `cookie` |
| Gateway.BearerCookie | src/index.ts:38-41 | a cookie is extracted iff the header starts with "Bearer " and has more after it; the cookie is the rest of the header |
| Gateway.BearerCookieOfHeader | src/index.ts:38-41 | the header "Bearer " + c yields exactly c for a non-empty c |
| Gateway.Sessions.constructor | src/index.ts:27 | the registry starts empty |
| Gateway.Sessions.Connect | src/index.ts:29-57 | the transport is filed under its session id; the session cookie is set iff a bearer cookie was extracted; the global cookie is unchanged; the session's server then resolves to that cookie |
| Gateway.Sessions.Close | src/index.ts:50-54 | only that session's transport is removed; every other entry and the cookie store are untouched |
| Gateway.Sessions.PostMessage | src/index.ts:59-73 | 400 iff the session id is missing or empty; 404 iff it has no transport; otherwise delivery to that session's transport and server |
| Gateway.SessionLifecycle | src/index.ts:29-73 | connect with a bearer cookie, post, close, post: the first post is delivered, the second gets 404, and the cookie still resolves for the session |

## Left out

- The external music client (`cloudsearch`, `song_detail`, ..., `register_anonimous`) is foreign code. It is a `Client` parameter (requests to responses), plus the registration's outcome as a parameter of `Initialize`.
- Zod internals. Validation is modelled as required fields, type checks, enum membership, defaults and dropping unknown keys. The error reports only the failing keys, not zod's issue objects and messages.
- `JSON.stringify(…, null, 2)`. A text content carries the JSON value it serialises.
- Floating-point numbers. JSON numbers are integers, so `z.number()` checks for an integer and NaN and Infinity do not arise.
- `parseInt` beyond decimal numerals: only the eleven enum codes reach it.
- `async`/`await` scheduling, concurrent sessions and the race between start-up registration and later cookie writes. Calls are sequential, so `Initialize` runs registration to completion.
- Express, CORS, the SSE stream, the MCP SDK's `Server` and the transport's own message handling. `server.connect(transport)` is the server stored with the transport; a delivered message ends at `Deliver`.
- The transport's session id comes from the SDK and is a parameter of `Connect`; a query `sessionId` is an optional string (arrays are not modelled).
- Logging, the `/health` endpoint, the port and dotenv loading.
- Key order of JavaScript objects: option records and results are maps.
- Api.AnonymousCookie: a truthy non-string `body.cookie` would be stored by the source through a type cast; the model installs only string cookies.
- Tools.Calls: its own contract states only the number of calls; what each call carries is stated per tool by `ToolProperties.SearchArguments`, `SongDetailArguments`, `PassThroughArguments`, `PlaylistHandler` and `ArtistHandler`.
- Text.Render: renders every integer in plain decimal. JavaScript's `String(n)` switches to exponent form at magnitude 1e21 (for example "1e+21") and numbers beyond 2^53 are not exact, so `Tools.IdsParamRoundTrip` and `ToolProperties.SongDetailArguments` describe the source only for ids of magnitude below 2^53.

## Findings

| source | as written | input that shows it | evidently intended | confidence | as-written member | corrected member |
|---|---|---|---|---|---|---|
| src/server.ts:30-37 | `TOOLS[toolName]` also finds members inherited from `Object.prototype`. They pass the `!tool` guard, and `tool.inputSchema.parse` then throws a TypeError. | a `tools/call` for the name "toString" (or "constructor", "valueOf", "__proto__", ...) | such a name is reported as "Tool toString not found", like every other name outside the table | high (not executed) | Server.CallToolAsWritten, Server.InheritedNameEscapesNotFound | Server.CallTool |
