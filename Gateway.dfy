/** The HTTP entry point (src/index.ts): start-up cookie initialisation, the
    SSE connection that opens a session, and the POST route that hands a
    message to the session's transport. Express, the SSE stream itself and
    the transport's message handling are not modelled; the transport's
    session id, the request's headers and query, and the outcome of the
    anonymous registration are parameters. */
module Gateway {
  import opened Js
  import opened Text
  import opened Api
  import opened Server

  /** Start-up: a truthy `NETEASE_COOKIE` becomes the global cookie;
      otherwise the anonymous registration runs, with the given outcome.
      `bootstrapped` tells which branch was taken. */
  method Initialize(store: CookieStore, envCookie: Option<string>, registration: ClientResponse)
    returns (bootstrapped: bool)
    modifies store`globalCookie
    ensures bootstrapped <==> !TruthyString(envCookie)
    ensures store.sessionCookies == old(store.sessionCookies)
    ensures TruthyString(envCookie) ==> store.globalCookie == envCookie.value
    ensures !TruthyString(envCookie) && AnonymousCookie(registration).Some? ==>
              store.globalCookie == AnonymousCookie(registration).value
    ensures !TruthyString(envCookie) && AnonymousCookie(registration).None? ==>
              store.globalCookie == old(store.globalCookie)
    ensures !TruthyString(envCookie) && AnonymousCookie(registration).Some? ==>
              JStr(store.globalCookie) == registration.body.fields["cookie"]
  {
    if TruthyString(envCookie) {
      store.SetGlobalCookie(envCookie.value);
      bootstrapped := false;
    } else {
      store.InitAnonymousCookie(registration);
      bootstrapped := true;
    }
  }

  const BEARER: string := "Bearer "

  /** The cookie an `Authorization` header carries: the header must start
      with "Bearer " and have something after it. */
  function BearerCookie(header: Option<string>): (cookie: Option<string>)
    ensures cookie.Some? <==> header.Some? && |header.value| > |BEARER| && StartsWith(header.value, BEARER)
    ensures cookie.Some? ==> cookie.value != "" && header.value == BEARER + cookie.value
  {
    if TruthyString(header) && StartsWith(header.value, BEARER) then
      var rest := header.value[|BEARER|..];
      assert header.value == header.value[..|BEARER|] + rest;
      if rest != "" then Some(rest) else None
    else None
  }

  /** The header a client sends for a cookie yields exactly that cookie. */
  lemma BearerCookieOfHeader(cookie: string)
    requires cookie != ""
    ensures BearerCookie(Some(BEARER + cookie)) == Some(cookie)
  {
  }

  /** An open SSE transport, connected to the server created for its session. */
  datatype Transport = Transport(sessionId: string, server: McpServer)

  /** What `POST /messages` does with a request. */
  datatype Route = Reject(status: int, message: string) | Deliver(transport: Transport)

  /** The open transports, and the cookie store they share. */
  class Sessions {
    const store: CookieStore
    var transports: map<string, Transport>

    /** Every open transport is filed under its own session id and is
        connected to that session's server. */
    predicate Valid()
      reads this
    {
      forall s :: s in transports ==> transports[s] == Transport(s, CreateServer(s))
    }

    constructor(store: CookieStore)
      ensures this.store == store && transports == map[] && Valid()
    {
      this.store := store;
      transports := map[];
    }

    /** `GET /sse`: the transport is filed under its session id; a bearer
        cookie, when there is one, becomes the session's cookie; the server
        created for the session is returned. */
    method Connect(sessionId: string, authorization: Option<string>) returns (server: McpServer)
      requires Valid()
      modifies this`transports, store`sessionCookies
      ensures Valid()
      ensures server == CreateServer(sessionId)
      ensures transports == old(transports)[sessionId := Transport(sessionId, server)]
      ensures BearerCookie(authorization).Some? ==>
                store.sessionCookies == old(store.sessionCookies)[sessionId := BearerCookie(authorization).value]
      ensures BearerCookie(authorization).None? ==> store.sessionCookies == old(store.sessionCookies)
      ensures store.globalCookie == old(store.globalCookie)
      ensures BearerCookie(authorization).Some? && sessionId != "" ==>
                store.GetCookie(Some(server.sessionId)) == BearerCookie(authorization).value
    {
      var created := CreateServer(sessionId);
      transports := transports[sessionId := Transport(sessionId, created)];
      var cookie := BearerCookie(authorization);
      if cookie.Some? {
        store.SetSessionCookie(sessionId, cookie.value);
      }
      server := created;
    }

    /** The transport's `onclose`: only that session's transport is dropped;
        its cookie stays in the store. */
    method Close(sessionId: string)
      requires Valid()
      modifies this`transports
      ensures Valid()
      ensures transports == map s | s in old(transports) && s != sessionId :: old(transports)[s]
      ensures sessionId !in transports
    {
      transports := map s | s in transports && s != sessionId :: transports[s];
    }

    /** `POST /messages?sessionId=...`: a falsy id is a 400, an id without an
        open transport is a 404, otherwise the message goes to that transport. */
    method PostMessage(sessionId: Option<string>) returns (route: Route)
      requires Valid()
      ensures route == Reject(400, "Missing sessionId") <==> !TruthyString(sessionId)
      ensures route == Reject(404, "Session not found") <==>
                TruthyString(sessionId) && sessionId.value !in transports
      ensures route.Deliver? <==> TruthyString(sessionId) && sessionId.value in transports
      ensures route.Deliver? ==>
                route.transport == transports[sessionId.value] &&
                route.transport.server == CreateServer(sessionId.value)
    {
      if !TruthyString(sessionId) {
        return Reject(400, "Missing sessionId");
      }
      if sessionId.value !in transports {
        return Reject(404, "Session not found");
      }
      route := Deliver(transports[sessionId.value]);
    }
  }

  /** A session's life: connecting with a bearer cookie makes that cookie the
      one the session's tool calls use and posts reach the session's server;
      after the transport closes, posts for the session are refused with 404,
      and the cookie is still filed under the session id. */
  method SessionLifecycle(sessions: Sessions, sessionId: string, cookie: string)
    returns (server: McpServer, beforeClose: Route, afterClose: Route)
    requires sessions.Valid() && sessionId != "" && cookie != ""
    modifies sessions, sessions.store
    ensures sessions.Valid()
    ensures server.sessionId == sessionId
    ensures beforeClose == Deliver(Transport(sessionId, server))
    ensures afterClose == Reject(404, "Session not found")
    ensures sessions.store.GetCookie(Some(sessionId)) == cookie
  {
    BearerCookieOfHeader(cookie);
    server := sessions.Connect(sessionId, Some(BEARER + cookie));
    beforeClose := sessions.PostMessage(Some(sessionId));
    sessions.Close(sessionId);
    afterClose := sessions.PostMessage(Some(sessionId));
  }
}
