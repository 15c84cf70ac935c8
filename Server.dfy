/** The per-session MCP server (src/server.ts): listing the tool table and
    dispatching a tool call to its handler under the session id the server
    was created for. */
module Server {
  import opened Js
  import opened Api
  import opened Tools

  /** A server created for one session; its id is fixed at creation. */
  datatype McpServer = McpServer(name: string, version: string, sessionId: string)

  function CreateServer(sessionId: string): (server: McpServer)
    ensures server.sessionId == sessionId
  {
    McpServer("netease-mcp", "1.0.0", sessionId)
  }

  /** One entry of the `tools/list` answer. */
  datatype ToolInfo = ToolInfo(name: string, description: string, inputSchema: Schema)

  /** `tools/list`: one entry per table entry, in table order, each carrying
      that entry's name, description and input schema. */
  function ListTools(): (tools: seq<ToolInfo>)
    ensures |tools| == |TOOL_ORDER|
    ensures forall i :: 0 <= i < |tools| ==>
      tools[i] == ToolInfo(Definition(TOOL_ORDER[i]).name, Definition(TOOL_ORDER[i]).description, Definition(TOOL_ORDER[i]).inputSchema)
  {
    seq(|TOOL_ORDER|, i requires 0 <= i < |TOOL_ORDER| =>
      ToolInfo(Definition(TOOL_ORDER[i]).name, Definition(TOOL_ORDER[i]).description, Definition(TOOL_ORDER[i]).inputSchema))
  }

  /** Where a tool sits in the table's order. */
  function OrderIndex(tool: ToolId): (i: nat)
    ensures i < |TOOL_ORDER| && TOOL_ORDER[i] == tool
  {
    match tool
    case SearchTool => 0
    case SongDetailTool => 1
    case SongUrlTool => 2
    case UnblockedUrlTool => 3
    case LyricTool => 4
    case PlaylistTool => 5
    case AlbumTool => 6
    case ArtistTool => 7
  }

  /** Every tool is listed, and every listed name dispatches to the tool it
      was listed for. */
  lemma ListedNamesDispatch()
    ensures forall i :: 0 <= i < |ListTools()| ==> Lookup(ListTools()[i].name) == Some(TOOL_ORDER[i])
    ensures forall tool :: ListTools()[OrderIndex(tool)].name == Definition(tool).name
  {
    var tools := ListTools();
    forall i | 0 <= i < |tools|
      ensures Lookup(tools[i].name) == Some(TOOL_ORDER[i])
    {
      LookupOfDefinition(TOOL_ORDER[i]);
    }
  }

  function NotFoundMessage(name: string): string
  {
    "Tool " + name + " not found"
  }

  /** `tools/call`: an unknown name fails before anything runs; arguments
      that fail validation fail before the handler runs; otherwise the handler
      runs with the server's own session id. */
  function CallTool(server: McpServer, store: CookieStore, name: string, arguments: Option<map<string, Json>>, client: Client): (o: Outcome)
    reads store
    ensures Lookup(name).None? ==> o == Outcome([], Err(ToolNotFound(NotFoundMessage(name))))
    ensures Lookup(name).Some? && Validate(Lookup(name).value, arguments).Err? ==>
      o == Outcome([], Err(InvalidArguments(Validate(Lookup(name).value, arguments).error)))
    ensures Lookup(name).Some? && Validate(Lookup(name).value, arguments).Ok? ==>
      o == Handle(store, Lookup(name).value, Validate(Lookup(name).value, arguments).value, Some(server.sessionId), client)
    ensures (o.result.Err? && o.result.error.ToolNotFound?) <==> Lookup(name).None?
  {
    match Lookup(name)
    case None => Outcome([], Err(ToolNotFound(NotFoundMessage(name))))
    case Some(tool) =>
      match Validate(tool, arguments)
      case Err(e) => Outcome([], Err(InvalidArguments(e)))
      case Ok(args) => Handle(store, tool, args, Some(server.sessionId), client)
  }

  /** Every client request a tool call makes carries the cookie resolved for
      the server's own session. */
  lemma CallToolCookies(server: McpServer, store: CookieStore, name: string, arguments: Option<map<string, Json>>, client: Client)
    ensures var o := CallTool(server, store, name, arguments, client);
      forall i :: 0 <= i < |o.issued| ==>
        "cookie" in o.issued[i].options && o.issued[i].options["cookie"] == JStr(store.GetCookie(Some(server.sessionId)))
  {
    if Lookup(name).Some? && Validate(Lookup(name).value, arguments).Ok? {
      var tool := Lookup(name).value;
      var args := Validate(tool, arguments).value;
      var requests := Requests(store, tool, args, Some(server.sessionId));
      RequestsFollowCalls(store, tool, args, Some(server.sessionId));
      var o := CallTool(server, store, name, arguments, client);
      assert o.issued == requests[..|o.issued|];
    }
  }

  // ---------------------------------------------------------------------------
  // The lookup as written: `TOOLS[name]` on a plain object literal also finds
  // the members every object inherits.

  /** The members a plain object inherits from `Object.prototype`. */
  const OBJECT_PROTOTYPE_MEMBERS: set<string> := {
    "constructor", "hasOwnProperty", "isPrototypeOf", "propertyIsEnumerable",
    "toLocaleString", "toString", "valueOf", "__proto__",
    "__defineGetter__", "__defineSetter__", "__lookupGetter__", "__lookupSetter__"
  }

  /** What `TOOLS[name]` evaluates to: a tool, an inherited member (truthy,
      but without an `inputSchema`), or `undefined`. */
  datatype Property = OwnTool(tool: ToolId) | InheritedMember | Undefined

  function PropertyAsWritten(name: string): (p: Property)
    ensures p.OwnTool? <==> Lookup(name).Some?
    ensures p.InheritedMember? <==> Lookup(name).None? && name in OBJECT_PROTOTYPE_MEMBERS
  {
    match Lookup(name)
    case Some(tool) => OwnTool(tool)
    case None => if name in OBJECT_PROTOTYPE_MEMBERS then InheritedMember else Undefined
  }

  /** The dispatcher as written: an inherited member passes the `!tool`
      guard, and reading `inputSchema.parse` from it throws a TypeError. */
  function CallToolAsWritten(server: McpServer, store: CookieStore, name: string, arguments: Option<map<string, Json>>, client: Client): (o: Outcome)
    reads store
    ensures PropertyAsWritten(name).OwnTool? || PropertyAsWritten(name).Undefined? ==>
      o == CallTool(server, store, name, arguments, client)
    ensures PropertyAsWritten(name).InheritedMember? ==> o.issued == [] && o.result.Err? && o.result.error.TypeFailure?
  {
    match PropertyAsWritten(name)
    case InheritedMember => Outcome([], Err(TypeFailure("Cannot read properties of undefined (reading 'parse')")))
    case _ => CallTool(server, store, name, arguments, client)
  }

  /** Calling a tool named "toString": the code as written throws a
      TypeError instead of reporting the tool as not found; the dispatcher
      with an own-key lookup reports "Tool toString not found". Neither runs
      a handler. */
  lemma InheritedNameEscapesNotFound(server: McpServer, store: CookieStore, arguments: Option<map<string, Json>>, client: Client)
    ensures CallToolAsWritten(server, store, "toString", arguments, client).result.Err?
    ensures !CallToolAsWritten(server, store, "toString", arguments, client).result.error.ToolNotFound?
    ensures CallTool(server, store, "toString", arguments, client) ==
            Outcome([], Err(ToolNotFound("Tool toString not found")))
  {
    assert "toString" in OBJECT_PROTOTYPE_MEMBERS;
    assert Lookup("toString") == None;
    assert NotFoundMessage("toString") == "Tool toString not found";
  }
}
