/** The tool table and its handlers (src/tools.ts): each tool's input schema,
    how a handler shapes its validated arguments into facade calls, the order
    in which it awaits them, and the content it returns. */
module Tools {
  import opened Js
  import opened Text
  import opened Api

  // ---------------------------------------------------------------------------
  // Input schemas and their validation

  /** What a schema field accepts (`z.string()`, `z.number()`,
      `z.array(z.number())`, `z.enum([...])`). */
  datatype Check = IsString | IsNumber | IsNumberArray | IsOneOf(options: seq<string>)

  /** One field of an object schema; a default makes it optional. */
  datatype Field = Field(key: string, check: Check, default: Option<Json>, description: string)

  type Schema = seq<Field>

  predicate Accepts(check: Check, v: Json)
  {
    match check
    case IsString => v.JStr?
    case IsNumber => v.JNum?
    case IsNumberArray => v.JArr? && forall i :: 0 <= i < |v.items| ==> v.items[i].JNum?
    case IsOneOf(options) => v.JStr? && v.s in options
  }

  function KeysOf(schema: Schema): (keys: set<string>)
    ensures forall i :: 0 <= i < |schema| ==> schema[i].key in keys
    ensures forall k :: k in keys ==> exists i :: 0 <= i < |schema| && schema[i].key == k
  {
    if schema == [] then {} else {schema[0].key} + KeysOf(schema[1..])
  }

  predicate DistinctKeys(schema: Schema)
  {
    forall i, j :: 0 <= i < j < |schema| ==> schema[i].key != schema[j].key
  }

  /** An object schema as it can be written: each key once, and every default
      a value its field accepts. */
  predicate WellFormed(schema: Schema)
  {
    && DistinctKeys(schema)
    && forall i :: 0 <= i < |schema| && schema[i].default.Some? ==>
         Accepts(schema[i].check, schema[i].default.value)
  }

  /** The arguments supply every field with a value it accepts. */
  predicate Conforms(schema: Schema, args: map<string, Json>)
  {
    forall i :: 0 <= i < |schema| ==> schema[i].key in args && Accepts(schema[i].check, args[schema[i].key])
  }

  /** The value validation gives a field: the supplied value if it is
      accepted, else nothing; the default when the field is absent. */
  function FieldValue(f: Field, input: map<string, Json>): Option<Json>
  {
    if f.key in input then
      if Accepts(f.check, input[f.key]) then Some(input[f.key]) else None
    else f.default
  }

  /** The keys of the fields that fail validation, in schema order. */
  function Issues(schema: Schema, input: map<string, Json>): (keys: seq<string>)
    ensures keys == [] <==> forall i :: 0 <= i < |schema| ==> FieldValue(schema[i], input).Some?
    ensures forall j :: 0 <= j < |keys| ==>
              exists i :: 0 <= i < |schema| && schema[i].key == keys[j] && FieldValue(schema[i], input).None?
    ensures forall i :: 0 <= i < |schema| && FieldValue(schema[i], input).None? ==> schema[i].key in keys
  {
    if schema == [] then []
    else
      var rest := Issues(schema[1..], input);
      assert forall i :: 1 <= i < |schema| ==> schema[i] == schema[1..][i - 1];
      if FieldValue(schema[0], input).None? then [schema[0].key] + rest else rest
  }

  /** The validated object: exactly the schema's keys; unknown keys are dropped. */
  function Shaped(schema: Schema, input: map<string, Json>): (out: map<string, Json>)
    requires DistinctKeys(schema)
    requires forall i :: 0 <= i < |schema| ==> FieldValue(schema[i], input).Some?
    ensures out.Keys == KeysOf(schema)
    ensures forall i :: 0 <= i < |schema| ==> out[schema[i].key] == FieldValue(schema[i], input).value
  {
    if schema == [] then map[]
    else
      var rest := Shaped(schema[1..], input);
      assert forall i :: 1 <= i < |schema| ==> schema[i] == schema[1..][i - 1];
      rest[schema[0].key := FieldValue(schema[0], input).value]
  }

  datatype ValidationError =
    | MissingArguments
    | InvalidFields(keys: seq<string>)

  /** Schema validation of a tool's arguments (`inputSchema.parse`). */
  function Parse(schema: Schema, arguments: Option<map<string, Json>>): (r: Result<map<string, Json>, ValidationError>)
    requires WellFormed(schema)
    ensures r.Ok? <==>
      arguments.Some? &&
      forall i :: 0 <= i < |schema| ==>
        if schema[i].key in arguments.value then Accepts(schema[i].check, arguments.value[schema[i].key])
        else schema[i].default.Some?
    ensures r.Ok? ==> Conforms(schema, r.value) && r.value.Keys == KeysOf(schema)
    ensures r.Ok? ==> forall i :: 0 <= i < |schema| ==>
      r.value[schema[i].key] ==
        if schema[i].key in arguments.value then arguments.value[schema[i].key] else schema[i].default.value
    ensures r.Err? && arguments.Some? ==> r.error == InvalidFields(Issues(schema, arguments.value)) && r.error.keys != []
  {
    match arguments
    case None => Err(MissingArguments)
    case Some(input) =>
      var issues := Issues(schema, input);
      if issues == [] then Ok(Shaped(schema, input)) else Err(InvalidFields(issues))
  }

  // ---------------------------------------------------------------------------
  // The tool table

  datatype ToolId =
    | SearchTool
    | SongDetailTool
    | SongUrlTool
    | UnblockedUrlTool
    | LyricTool
    | PlaylistTool
    | AlbumTool
    | ArtistTool

  datatype ToolDef = ToolDef(name: string, description: string, inputSchema: Schema)

  /** The tools in the order the table declares them. */
  const TOOL_ORDER: seq<ToolId> :=
    [SearchTool, SongDetailTool, SongUrlTool, UnblockedUrlTool, LyricTool, PlaylistTool, AlbumTool, ArtistTool]

  const SEARCH_TYPES: seq<string> :=
    ["1", "10", "100", "1000", "1002", "1004", "1006", "1009", "1014", "1018", "2000"]

  const LEVELS: seq<string> :=
    ["standard", "higher", "exhigh", "lossless", "hires", "jyeffect", "sky", "dolby", "jymaster"]

  const SEARCH_SCHEMA: Schema := [
    Field("keywords", IsString, None, "The search keywords"),
    Field("type", IsOneOf(SEARCH_TYPES), Some(JStr("1")),
          "Search type: 1: Song, 10: Album, 100: Artist, 1000: Playlist, 1002: User, 1004: MV, 1006: Lyric, 1009: DJ, 1014: Video, 1018: Composite, 2000: Voice"),
    Field("limit", IsNumber, Some(JNum(30)), "Limit the number of results"),
    Field("offset", IsNumber, Some(JNum(0)), "Offset for pagination")
  ]

  const SONG_DETAIL_SCHEMA: Schema := [Field("ids", IsNumberArray, None, "Array of song IDs")]

  const SONG_URL_SCHEMA: Schema := [
    Field("id", IsNumber, None, "The song ID"),
    Field("level", IsOneOf(LEVELS), Some(JStr("standard")), "Sound quality level")
  ]

  const LYRIC_SCHEMA: Schema := [Field("id", IsNumber, None, "The song ID")]

  const PLAYLIST_SCHEMA: Schema := [
    Field("id", IsNumber, None, "The playlist ID"),
    Field("limit", IsNumber, Some(JNum(1000)), "Limit tracks"),
    Field("offset", IsNumber, Some(JNum(0)), "Offset tracks")
  ]

  const ALBUM_SCHEMA: Schema := [Field("id", IsNumber, None, "The album ID")]

  const ARTIST_SCHEMA: Schema := [Field("id", IsNumber, None, "The artist ID")]

  function Definition(tool: ToolId): (def: ToolDef)
    ensures tool == SongUrlTool || tool == UnblockedUrlTool <==> def.inputSchema == SONG_URL_SCHEMA
  {
    match tool
    case SearchTool => ToolDef("search", "Search for songs, artists, albums, playlists, etc.", SEARCH_SCHEMA)
    case SongDetailTool => ToolDef("get_song_detail", "Get details for one or more songs", SONG_DETAIL_SCHEMA)
    case SongUrlTool => ToolDef("get_song_url", "Get the playback URL for a song", SONG_URL_SCHEMA)
    case UnblockedUrlTool =>
      ToolDef("get_unblocked_url", "Get the playback URL for a song, attempting to unblock it if necessary", SONG_URL_SCHEMA)
    case LyricTool => ToolDef("get_lyric", "Get lyrics for a song", LYRIC_SCHEMA)
    case PlaylistTool => ToolDef("get_playlist", "Get playlist details and tracks", PLAYLIST_SCHEMA)
    case AlbumTool => ToolDef("get_album", "Get album details and songs", ALBUM_SCHEMA)
    case ArtistTool => ToolDef("get_artist", "Get artist details and top songs", ARTIST_SCHEMA)
  }

  /** The table's own entry for a name (`TOOLS[name]` restricted to the
      table's own keys). */
  function Lookup(name: string): (tool: Option<ToolId>)
    ensures tool.Some? ==> Definition(tool.value).name == name
    ensures tool.None? ==> forall t :: Definition(t).name != name
  {
    if name == "search" then Some(SearchTool)
    else if name == "get_song_detail" then Some(SongDetailTool)
    else if name == "get_song_url" then Some(SongUrlTool)
    else if name == "get_unblocked_url" then Some(UnblockedUrlTool)
    else if name == "get_lyric" then Some(LyricTool)
    else if name == "get_playlist" then Some(PlaylistTool)
    else if name == "get_album" then Some(AlbumTool)
    else if name == "get_artist" then Some(ArtistTool)
    else None
  }

  /** Each tool's own name finds it. */
  lemma LookupOfDefinition(tool: ToolId)
    ensures Lookup(Definition(tool).name) == Some(tool)
  {
  }

  lemma DefinitionsWellFormed(tool: ToolId)
    ensures WellFormed(Definition(tool).inputSchema)
  {
    match tool
    case SearchTool => SearchSchemaWellFormed();
    case SongDetailTool => assert WellFormed(SONG_DETAIL_SCHEMA);
    case SongUrlTool => SongUrlSchemaWellFormed();
    case UnblockedUrlTool => SongUrlSchemaWellFormed();
    case LyricTool => assert WellFormed(LYRIC_SCHEMA);
    case PlaylistTool => PlaylistSchemaWellFormed();
    case AlbumTool => assert WellFormed(ALBUM_SCHEMA);
    case ArtistTool => assert WellFormed(ARTIST_SCHEMA);
  }

  lemma SearchSchemaWellFormed()
    ensures WellFormed(SEARCH_SCHEMA)
  {
    assert JStr("1").s in SEARCH_TYPES;
  }

  lemma SongUrlSchemaWellFormed()
    ensures WellFormed(SONG_URL_SCHEMA)
  {
    assert JStr("standard").s in LEVELS;
  }

  lemma PlaylistSchemaWellFormed()
    ensures WellFormed(PLAYLIST_SCHEMA)
  {
  }

  /** `tool.inputSchema.parse(arguments)` for a tool of the table. */
  function Validate(tool: ToolId, arguments: Option<map<string, Json>>): (r: Result<map<string, Json>, ValidationError>)
    ensures r.Ok? ==> Conforms(Definition(tool).inputSchema, r.value)
    ensures WellFormed(Definition(tool).inputSchema) && r == Parse(Definition(tool).inputSchema, arguments)
  {
    DefinitionsWellFormed(tool);
    Parse(Definition(tool).inputSchema, arguments)
  }

  // ---------------------------------------------------------------------------
  // Argument shaping: from validated arguments to facade calls

  /** `parseInt(type, 10)` on the codes the schema lets through: each is a
      plain decimal numeral. */
  function SearchTypeNumber(code: string): (n: int)
    requires code in SEARCH_TYPES
    ensures ParseInt(code) == Some(n)
  {
    assert AllDigits(code);
    DigitsValue(code)
  }

  /** The decimal renderings of the ids joined by commas (`ids.join(',')`). */
  function IdsParam(ids: seq<int>): (param: string)
    ensures ids == [] ==> param == ""
  {
    Join(seq(|ids|, i requires 0 <= i < |ids| => Render(ids[i])), ",")
  }

  /** The id list handed to the facade names the given ids, in order: split
      at the commas, piece i parses back to id i. */
  lemma IdsParamRoundTrip(ids: seq<int>)
    requires ids != []
    ensures |Split(IdsParam(ids), ',')| == |ids|
    ensures forall i :: 0 <= i < |ids| ==> ParseInt(Split(IdsParam(ids), ',')[i]) == Some(ids[i])
  {
    var parts := seq(|ids|, i requires 0 <= i < |ids| => Render(ids[i]));
    SplitOfJoin(parts, ',');
    forall i | 0 <= i < |ids| ensures ParseInt(parts[i]) == Some(ids[i]) {
      ParseIntOfRender(ids[i]);
    }
  }

  /** How many facade calls a tool's handler awaits. */
  function CallCount(tool: ToolId): nat
  {
    if tool == PlaylistTool || tool == ArtistTool then 2 else 1
  }

  /** The `search` handler's call: the search type code as its integer. */
  function SearchCall(args: map<string, Json>): ApiCall
    requires Conforms(SEARCH_SCHEMA, args)
  {
    assert SEARCH_SCHEMA[0].key == "keywords" && SEARCH_SCHEMA[1].key == "type";
    assert SEARCH_SCHEMA[2].key == "limit" && SEARCH_SCHEMA[3].key == "offset";
    assert Accepts(SEARCH_SCHEMA[1].check, args["type"]);
    var code := if Truthy(args["type"]) then args["type"].s else "1";
    Search(args["keywords"].s, SearchTypeNumber(code), args["limit"].n, args["offset"].n)
  }

  /** The `get_song_detail` handler's call: the ids joined by commas. */
  function SongDetailCall(args: map<string, Json>): ApiCall
    requires Conforms(SONG_DETAIL_SCHEMA, args)
  {
    assert Accepts(SONG_DETAIL_SCHEMA[0].check, args[SONG_DETAIL_SCHEMA[0].key]);
    var items := args["ids"].items;
    GetSongDetail(IdsParam(seq(|items|, i requires 0 <= i < |items| => items[i].n)))
  }

  /** The validated quality level of a song-url request. */
  function SongLevel(args: map<string, Json>): string
    requires Conforms(SONG_URL_SCHEMA, args)
  {
    assert SONG_URL_SCHEMA[1].key == "level";
    args["level"].s
  }

  /** The `get_playlist` handler's second call. */
  function PlaylistTracksCall(args: map<string, Json>): ApiCall
    requires Conforms(PLAYLIST_SCHEMA, args)
  {
    assert PLAYLIST_SCHEMA[0].key == "id" && PLAYLIST_SCHEMA[1].key == "limit" && PLAYLIST_SCHEMA[2].key == "offset";
    GetPlaylistTracks(args["id"], args["limit"].n, args["offset"].n)
  }

  /** The facade calls each handler awaits, in order. */
  function Calls(tool: ToolId, args: map<string, Json>): (calls: seq<ApiCall>)
    requires Conforms(Definition(tool).inputSchema, args)
    ensures |calls| == CallCount(tool)
  {
    match tool
    case SearchTool => [SearchCall(args)]
    case SongDetailTool => [SongDetailCall(args)]
    case SongUrlTool =>
      assert SONG_URL_SCHEMA[0].key == "id";
      [GetSongUrl(args["id"], SongLevel(args))]
    case UnblockedUrlTool =>
      assert SONG_URL_SCHEMA[0].key == "id";
      [GetUnblockedUrl(args["id"], SongLevel(args))]
    case LyricTool =>
      assert LYRIC_SCHEMA[0].key == "id";
      [GetLyric(args["id"])]
    case PlaylistTool =>
      assert PLAYLIST_SCHEMA[0].key == "id";
      [GetPlaylistDetail(args["id"]), PlaylistTracksCall(args)]
    case AlbumTool =>
      assert ALBUM_SCHEMA[0].key == "id";
      [GetAlbum(args["id"])]
    case ArtistTool =>
      assert ARTIST_SCHEMA[0].key == "id";
      [GetArtistDetail(args["id"]), GetArtistTopSongs(args["id"])]
  }


  // ---------------------------------------------------------------------------
  // Running a handler

  /** Awaiting client requests one after another: the first rejection is
      thrown on, and no later request is made. */
  datatype Run = Run(issued: seq<ClientRequest>, result: Result<seq<Json>, Json>)

  /** The bodies of requests that all resolved, in order. */
  function Bodies(requests: seq<ClientRequest>, client: Client): (bodies: seq<Json>)
    requires forall i :: 0 <= i < |requests| ==> client(requests[i]).Resolved?
  {
    seq(|requests|, i requires 0 <= i < |requests| => client(requests[i]).body)
  }

  /** Issuing the first request in front of a prefix of the rest gives a
      prefix of the whole. */
  lemma IssuedPrefix(requests: seq<ClientRequest>, issued: seq<ClientRequest>)
    requires requests != [] && |issued| <= |requests| - 1
    requires issued == requests[1..][..|issued|]
    ensures [requests[0]] + issued == requests[..|issued| + 1]
  {
    assert requests[..|issued| + 1] == [requests[0]] + requests[1..][..|issued|];
  }

  /** The bodies of all requests are the first body followed by the rest's. */
  lemma BodiesOfHead(requests: seq<ClientRequest>, client: Client, rest: seq<Json>)
    requires requests != [] && client(requests[0]).Resolved?
    requires forall i :: 1 <= i < |requests| ==> client(requests[i]).Resolved?
    requires rest == Bodies(requests[1..], client)
    ensures [client(requests[0]).body] + rest == Bodies(requests, client)
  {
    forall i | 1 <= i < |requests|
      ensures ([client(requests[0]).body] + rest)[i] == client(requests[i]).body
    {
      assert requests[i] == requests[1..][i - 1];
    }
  }

  function RunInOrder(requests: seq<ClientRequest>, client: Client): (run: Run)
    ensures |run.issued| <= |requests|
    ensures requests != [] ==> run.issued != []
    ensures run.issued == requests[..|run.issued|]
    ensures run.result.Ok? <==>
      run.issued == requests && forall i :: 0 <= i < |requests| ==> client(requests[i]).Resolved?
    ensures run.result.Ok? ==> run.result.value == Bodies(requests, client)
    ensures run.result.Err? ==>
      run.issued != [] &&
      client(run.issued[|run.issued| - 1]) == Rejected(run.result.error) &&
      forall i :: 0 <= i < |run.issued| - 1 ==> client(run.issued[i]).Resolved?
  {
    if requests == [] then Run([], Ok([]))
    else
      match client(requests[0])
      case Rejected(reason) => Run([requests[0]], Err(reason))
      case Resolved(body) =>
        var rest := RunInOrder(requests[1..], client);
        var issued := [requests[0]] + rest.issued;
        IssuedPrefix(requests, rest.issued);
        if rest.result.Ok? then
          var bodies := [body] + rest.result.value;
          BodiesOfHead(requests, client, rest.result.value);
          Run(issued, Ok(bodies))
        else
          assert forall i :: 1 <= i < |issued| ==> issued[i] == rest.issued[i - 1];
          Run(issued, Err(rest.result.error))
  }

  /** One content element of a tool result: `{ type: 'text', text }`, where
      the text is the pretty-printed JSON of `value`. */
  datatype Content = TextContent(value: Json)

  datatype ToolError =
    | ToolNotFound(message: string)
    | InvalidArguments(error: ValidationError)
    | ClientFailure(reason: Json)
    | TypeFailure(message: string)

  /** What answering a tool request did: the client requests made, in order,
      and the content returned or the error thrown. */
  datatype Outcome = Outcome(issued: seq<ClientRequest>, result: Result<seq<Content>, ToolError>)

  /** The object a handler serialises from its response bodies. */
  function Merge(tool: ToolId, bodies: seq<Json>): (merged: Json)
    requires |bodies| == CallCount(tool)
    ensures tool == PlaylistTool ==>
      merged.JObj? && "playlist" in merged.fields && "tracks" in merged.fields && |merged.fields| == 2 &&
      merged.fields["playlist"] == bodies[0] && merged.fields["tracks"] == bodies[1]
    ensures tool == ArtistTool ==>
      merged.JObj? && "artist" in merged.fields && "topSongs" in merged.fields && |merged.fields| == 2 &&
      merged.fields["artist"] == bodies[0] && merged.fields["topSongs"] == bodies[1]
    ensures tool != PlaylistTool && tool != ArtistTool ==> merged == bodies[0]
  {
    match tool
    case PlaylistTool => JObj(map["playlist" := bodies[0], "tracks" := bodies[1]])
    case ArtistTool => JObj(map["artist" := bodies[0], "topSongs" := bodies[1]])
    case _ => bodies[0]
  }

  /** The client requests behind a handler's facade calls, in order. */
  function Requests(store: CookieStore, tool: ToolId, args: map<string, Json>, sessionId: Option<string>): (requests: seq<ClientRequest>)
    requires Conforms(Definition(tool).inputSchema, args)
    reads store
    ensures |requests| == |Calls(tool, args)|
  {
    var calls := Calls(tool, args);
    seq(|calls|, i requires 0 <= i < |calls| reads store => store.Request(calls[i], sessionId))
  }

  /** Request i is what facade call i sends, and every one of them carries
      the cookie resolved for the session. */
  lemma RequestsFollowCalls(store: CookieStore, tool: ToolId, args: map<string, Json>, sessionId: Option<string>)
    requires Conforms(Definition(tool).inputSchema, args)
    ensures var requests := Requests(store, tool, args, sessionId);
      forall i :: 0 <= i < |requests| ==> requests[i] == store.Request(Calls(tool, args)[i], sessionId)
    ensures var requests := Requests(store, tool, args, sessionId);
      forall i :: 0 <= i < |requests| ==>
        "cookie" in requests[i].options && requests[i].options["cookie"] == JStr(store.GetCookie(sessionId))
  {
  }

  /** Awaiting a handler's requests in order and answering with the merged
      bodies, or throwing the first rejection. */
  function Respond(tool: ToolId, requests: seq<ClientRequest>, client: Client): (o: Outcome)
    requires |requests| == CallCount(tool)
    ensures 0 < |o.issued| <= |requests|
    ensures o.issued == requests[..|o.issued|]
    ensures o.result.Ok? <==>
      |o.issued| == |requests| && forall i :: 0 <= i < |o.issued| ==> client(o.issued[i]).Resolved?
    ensures o.result.Ok? ==> o.result.value == [TextContent(Merge(tool, Bodies(o.issued, client)))]
    ensures forall i :: 0 <= i < |o.issued| - 1 ==> client(o.issued[i]).Resolved?
    ensures o.result.Err? ==>
      client(o.issued[|o.issued| - 1]).Rejected? &&
      o.result.error == ClientFailure(client(o.issued[|o.issued| - 1]).reason)
  {
    var run := RunInOrder(requests, client);
    match run.result
    case Err(reason) => Outcome(run.issued, Err(ClientFailure(reason)))
    case Ok(bodies) => Outcome(run.issued, Ok([TextContent(Merge(tool, bodies))]))
  }

  /** A tool's handler, called with validated arguments and a session id. */
  function Handle(store: CookieStore, tool: ToolId, args: map<string, Json>, sessionId: Option<string>, client: Client): (o: Outcome)
    requires Conforms(Definition(tool).inputSchema, args)
    reads store
    ensures 0 < |o.issued| <= |Calls(tool, args)|
    ensures o.issued == Requests(store, tool, args, sessionId)[..|o.issued|]
    ensures o.result.Ok? <==>
      |o.issued| == |Calls(tool, args)| && forall i :: 0 <= i < |o.issued| ==> client(o.issued[i]).Resolved?
    ensures o.result.Ok? ==> o.result.value == [TextContent(Merge(tool, Bodies(o.issued, client)))]
    ensures forall i :: 0 <= i < |o.issued| - 1 ==> client(o.issued[i]).Resolved?
    ensures o.result.Err? ==>
      client(o.issued[|o.issued| - 1]).Rejected? &&
      o.result.error == ClientFailure(client(o.issued[|o.issued| - 1]).reason)
  {
    Respond(tool, Requests(store, tool, args, sessionId), client)
  }

}

/** Properties of the individual tools: validation and defaults of their
    schemas, the arguments their handlers hand on, and the order and merging
    of the two-call handlers. */
module ToolProperties {
  import opened Js
  import opened Text
  import opened Api
  import opened Tools

  /** `search` given only keywords fills in type '1', limit 30 and offset 0. */
  lemma SearchDefaults(input: map<string, Json>)
    requires input.Keys == {"keywords"} && input["keywords"].JStr?
    ensures WellFormed(SEARCH_SCHEMA) && Parse(SEARCH_SCHEMA, Some(input)).Ok?
    ensures var args := Parse(SEARCH_SCHEMA, Some(input)).value;
      && "keywords" in args && "type" in args && "limit" in args && "offset" in args
      && args["keywords"] == input["keywords"] && args["type"] == JStr("1")
      && args["limit"] == JNum(30) && args["offset"] == JNum(0)
  {
    SearchSchemaWellFormed();
    assert SEARCH_SCHEMA[0].key == "keywords" && SEARCH_SCHEMA[1].key == "type";
    assert SEARCH_SCHEMA[2].key == "limit" && SEARCH_SCHEMA[3].key == "offset";
    assert "type" !in input && "limit" !in input && "offset" !in input;
    assert forall i :: 0 <= i < |SEARCH_SCHEMA| ==>
      if SEARCH_SCHEMA[i].key in input then Accepts(SEARCH_SCHEMA[i].check, input[SEARCH_SCHEMA[i].key])
      else SEARCH_SCHEMA[i].default.Some?;
    SearchFieldDefaults(input);
  }

  /** For any input `search` accepts: each absent optional field takes its
      default, and each supplied field keeps its value. */
  lemma SearchFieldDefaults(input: map<string, Json>)
    requires WellFormed(SEARCH_SCHEMA) && Parse(SEARCH_SCHEMA, Some(input)).Ok?
    ensures var args := Parse(SEARCH_SCHEMA, Some(input)).value;
      && "keywords" in input && "keywords" in args && args["keywords"] == input["keywords"]
      && "type" in args && "limit" in args && "offset" in args
      && ("type" !in input ==> args["type"] == JStr("1"))
      && ("type" in input ==> args["type"] == input["type"])
      && ("limit" !in input ==> args["limit"] == JNum(30))
      && ("limit" in input ==> args["limit"] == input["limit"])
      && ("offset" !in input ==> args["offset"] == JNum(0))
      && ("offset" in input ==> args["offset"] == input["offset"])
  {
    assert SEARCH_SCHEMA[0].key == "keywords" && SEARCH_SCHEMA[0].default.None? && SEARCH_SCHEMA[1].key == "type";
    assert SEARCH_SCHEMA[2].key == "limit" && SEARCH_SCHEMA[3].key == "offset";
  }

  /** For any input `get_playlist` accepts: an absent limit is 1000 and an
      absent offset 0; supplied values are kept. */
  lemma PlaylistFieldDefaults(input: map<string, Json>)
    requires WellFormed(PLAYLIST_SCHEMA) && Parse(PLAYLIST_SCHEMA, Some(input)).Ok?
    ensures var args := Parse(PLAYLIST_SCHEMA, Some(input)).value;
      && "id" in input && "id" in args && args["id"] == input["id"]
      && "limit" in args && "offset" in args
      && ("limit" !in input ==> args["limit"] == JNum(1000))
      && ("limit" in input ==> args["limit"] == input["limit"])
      && ("offset" !in input ==> args["offset"] == JNum(0))
      && ("offset" in input ==> args["offset"] == input["offset"])
  {
    assert PLAYLIST_SCHEMA[0].key == "id" && PLAYLIST_SCHEMA[0].default.None?;
    assert PLAYLIST_SCHEMA[1].key == "limit" && PLAYLIST_SCHEMA[2].key == "offset";
  }

  /** With those defaults, `search` asks for songs (type 1), 30 at offset 0. */
  lemma SearchDefaultCall(keywords: string)
    ensures Calls(SearchTool, map["keywords" := JStr(keywords), "type" := JStr("1"), "limit" := JNum(30), "offset" := JNum(0)]) ==
            [Search(keywords, 1, 30, 0)]
  {
  }

  /** A search type outside the eleven listed codes is rejected. */
  lemma SearchRejectsUnlistedType(input: map<string, Json>)
    requires "type" in input && !(input["type"].JStr? && input["type"].s in SEARCH_TYPES)
    ensures WellFormed(SEARCH_SCHEMA) && Parse(SEARCH_SCHEMA, Some(input)).Err?
  {
  }

  /** `search` hands on the keywords, limit and offset it was given, and the
      search type as the integer its code denotes. */
  lemma SearchArguments(args: map<string, Json>)
    requires Conforms(SEARCH_SCHEMA, args)
    ensures "keywords" in args && "type" in args && "limit" in args && "offset" in args
    ensures args["type"].JStr? && args["type"].s in SEARCH_TYPES
    ensures var call := Calls(SearchTool, args)[0];
      && call.Search?
      && JStr(call.keywords) == args["keywords"]
      && ParseInt(args["type"].s) == Some(call.searchType)
      && JNum(call.limit) == args["limit"] && JNum(call.offset) == args["offset"]
  {
    assert SEARCH_SCHEMA[0] in SEARCH_SCHEMA;
    assert SEARCH_SCHEMA[1].key == "type" && SEARCH_SCHEMA[2].key == "limit" && SEARCH_SCHEMA[3].key == "offset";
    assert args["type"].s in SEARCH_TYPES;
  }

  /** `get_song_detail` sends the ids, in the order given, as one
      comma-separated string of decimal numerals. */
  lemma SongDetailArguments(args: map<string, Json>)
    requires Conforms(SONG_DETAIL_SCHEMA, args)
    ensures "ids" in args && args["ids"].JArr?
    ensures var call := Calls(SongDetailTool, args)[0];
      var items := args["ids"].items;
      && call.GetSongDetail?
      && (items == [] ==> call.ids == "")
      && (items != [] ==>
            var parts := Split(call.ids, ',');
            |parts| == |items| && forall i :: 0 <= i < |items| ==> ParseInt(parts[i]).Some? && JNum(ParseInt(parts[i]).value) == items[i])
  {
    assert SONG_DETAIL_SCHEMA[0] in SONG_DETAIL_SCHEMA;
    var items := args["ids"].items;
    var ids := seq(|items|, i requires 0 <= i < |items| => items[i].n);
    if items != [] {
      IdsParamRoundTrip(ids);
    }
  }

  /** `get_song_url` (and `get_unblocked_url`, which shares the schema)
      rejects an id that is not a number. */
  lemma SongUrlRejectsNonNumericId(input: map<string, Json>)
    requires "id" in input && !input["id"].JNum?
    ensures WellFormed(SONG_URL_SCHEMA) && Parse(SONG_URL_SCHEMA, Some(input)).Err?
  {
  }

  /** The quality level is one of the nine listed levels, 'standard' when
      it is not given. */
  lemma SongUrlLevels(input: map<string, Json>)
    requires WellFormed(SONG_URL_SCHEMA) && Parse(SONG_URL_SCHEMA, Some(input)).Ok?
    ensures var args := Parse(SONG_URL_SCHEMA, Some(input)).value;
      && "level" in args && args["level"].JStr? && args["level"].s in LEVELS
      && ("level" !in input ==> args["level"] == JStr("standard"))
  {
  }

  /** `get_unblocked_url` asks the client what `get_song_url` asks, plus
      `unblock: true`. */
  lemma UnblockedUrlAddsUnblock(store: CookieStore, args: map<string, Json>, sessionId: Option<string>)
    requires Conforms(SONG_URL_SCHEMA, args)
    ensures "id" in args && "level" in args && args["level"].JStr?
    ensures var plain := store.Request(Calls(SongUrlTool, args)[0], sessionId);
      store.Request(Calls(UnblockedUrlTool, args)[0], sessionId) ==
      ClientRequest(plain.endpoint, plain.options["unblock" := JBool(true)])
  {
    assert SONG_URL_SCHEMA[0] in SONG_URL_SCHEMA && SONG_URL_SCHEMA[1].key == "level";
    UnblockedUrlExtendsSongUrl(store, args["id"], args["level"].s, sessionId);
  }

  /** `get_song_url`, `get_lyric` and `get_album` hand their validated id
      (and level) on unchanged, in one call. */
  lemma PassThroughArguments(args: map<string, Json>)
    ensures Conforms(SONG_URL_SCHEMA, args) ==>
      "id" in args && "level" in args && args["level"].JStr? && args["level"].s in LEVELS &&
      Calls(SongUrlTool, args) == [GetSongUrl(args["id"], args["level"].s)] &&
      Calls(UnblockedUrlTool, args) == [GetUnblockedUrl(args["id"], args["level"].s)]
    ensures Conforms(LYRIC_SCHEMA, args) ==> "id" in args && Calls(LyricTool, args) == [GetLyric(args["id"])]
    ensures Conforms(ALBUM_SCHEMA, args) ==> "id" in args && Calls(AlbumTool, args) == [GetAlbum(args["id"])]
  {
    assert SONG_URL_SCHEMA[0] in SONG_URL_SCHEMA && SONG_URL_SCHEMA[1].key == "level";
    assert LYRIC_SCHEMA[0] in LYRIC_SCHEMA && ALBUM_SCHEMA[0] in ALBUM_SCHEMA;
  }

  /** `get_playlist` given only an id fills in limit 1000 and offset 0. */
  lemma PlaylistDefaults(input: map<string, Json>)
    requires input.Keys == {"id"} && input["id"].JNum?
    ensures WellFormed(PLAYLIST_SCHEMA) && Parse(PLAYLIST_SCHEMA, Some(input)).Ok?
    ensures var args := Parse(PLAYLIST_SCHEMA, Some(input)).value;
      && "id" in args && "limit" in args && "offset" in args
      && args["id"] == input["id"] && args["limit"] == JNum(1000) && args["offset"] == JNum(0)
  {
  }

  /** `get_playlist` asks for the detail, then for the tracks, once each, and
      returns both bodies under `playlist` and `tracks`. */
  lemma PlaylistHandler(store: CookieStore, args: map<string, Json>, sessionId: Option<string>, client: Client)
    requires Conforms(PLAYLIST_SCHEMA, args)
    ensures "id" in args && "limit" in args && "offset" in args && args["limit"].JNum? && args["offset"].JNum?
    ensures var o := Handle(store, PlaylistTool, args, sessionId, client);
      && o.issued[0] == store.Request(GetPlaylistDetail(args["id"]), sessionId)
      && (client(o.issued[0]).Rejected? ==>
            o.issued == [o.issued[0]] && o.result == Err(ClientFailure(client(o.issued[0]).reason)))
      && (client(o.issued[0]).Resolved? ==>
            |o.issued| == 2 &&
            o.issued[1] == store.Request(GetPlaylistTracks(args["id"], args["limit"].n, args["offset"].n), sessionId))
      && (o.result.Ok? ==>
            o.result.value == [TextContent(JObj(map["playlist" := client(o.issued[0]).body, "tracks" := client(o.issued[1]).body]))])
  {
    assert PLAYLIST_SCHEMA[0] in PLAYLIST_SCHEMA;
    assert PLAYLIST_SCHEMA[1].key == "limit" && PLAYLIST_SCHEMA[2].key == "offset";
    var detail := GetPlaylistDetail(args["id"]);
    var tracks := GetPlaylistTracks(args["id"], args["limit"].n, args["offset"].n);
    assert Calls(PlaylistTool, args) == [detail, tracks];
    RequestsFollowCalls(store, PlaylistTool, args, sessionId);
  }

  /** `get_artist` asks for the detail, then for the top songs; a failure of
      either call fails the tool, and only both bodies together make a result. */
  lemma ArtistHandler(store: CookieStore, args: map<string, Json>, sessionId: Option<string>, client: Client)
    requires Conforms(ARTIST_SCHEMA, args)
    ensures "id" in args
    ensures var o := Handle(store, ArtistTool, args, sessionId, client);
      var detail := store.Request(GetArtistDetail(args["id"]), sessionId);
      var top := store.Request(GetArtistTopSongs(args["id"]), sessionId);
      && o.issued[0] == detail
      && (client(detail).Rejected? ==> o.issued == [detail] && o.result == Err(ClientFailure(client(detail).reason)))
      && (client(detail).Resolved? ==> o.issued == [detail, top])
      && (o.result.Ok? <==> client(detail).Resolved? && client(top).Resolved?)
      && (o.result.Ok? ==>
            o.result.value == [TextContent(JObj(map["artist" := client(detail).body, "topSongs" := client(top).body]))])
  {
    assert ARTIST_SCHEMA[0] in ARTIST_SCHEMA;
  }
}
