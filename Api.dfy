/** The cookie store and the API facade over the external music client
    (src/api.ts). The client itself is foreign: a request to it is a value
    (`ClientRequest`), and what it answers is supplied by the caller as a
    function from requests to responses (`Client`). */
module Api {
  import opened Js

  /** The client operations the facade forwards to. */
  datatype Endpoint =
    | Cloudsearch
    | SongDetail
    | SongUrlV1
    | LyricNew
    | PlaylistDetail
    | PlaylistTrackAll
    | Album
    | ArtistDetail
    | ArtistTopSong

  /** One call into the external client: which operation, with which options. */
  datatype ClientRequest = ClientRequest(endpoint: Endpoint, options: map<string, Json>)

  /** What a client call settles to: a response body, or a thrown error. */
  datatype ClientResponse = Resolved(body: Json) | Rejected(reason: Json)

  type Client = ClientRequest -> ClientResponse

  /** The facade operations (`api.search`, `api.getSongDetail`, ...), with
      the arguments each takes apart from the session id. */
  datatype ApiCall =
    | Search(keywords: string, searchType: int, limit: int, offset: int)
    | GetSongDetail(ids: string)
    | GetSongUrl(id: Json, level: string)
    | GetUnblockedUrl(id: Json, level: string)
    | GetLyric(id: Json)
    | GetPlaylistDetail(id: Json)
    | GetPlaylistTracks(id: Json, limit: int, offset: int)
    | GetAlbum(id: Json)
    | GetArtistDetail(id: Json)
    | GetArtistTopSongs(id: Json)

  /** The client operation each facade operation forwards to. */
  function EndpointOf(call: ApiCall): (endpoint: Endpoint)
    ensures endpoint == SongUrlV1 <==> call.GetSongUrl? || call.GetUnblockedUrl?
    ensures endpoint == Cloudsearch <==> call.Search?
    ensures endpoint == PlaylistTrackAll <==> call.GetPlaylistTracks?
    ensures endpoint == SongDetail <==> call.GetSongDetail?
    ensures endpoint == LyricNew <==> call.GetLyric?
    ensures endpoint == PlaylistDetail <==> call.GetPlaylistDetail?
    ensures endpoint == Album <==> call.GetAlbum?
    ensures endpoint == ArtistDetail <==> call.GetArtistDetail?
    ensures endpoint == ArtistTopSong <==> call.GetArtistTopSongs?
  {
    match call
    case Search(_, _, _, _) => Cloudsearch
    case GetSongDetail(_) => SongDetail
    case GetSongUrl(_, _) => SongUrlV1
    case GetUnblockedUrl(_, _) => SongUrlV1
    case GetLyric(_) => LyricNew
    case GetPlaylistDetail(_) => PlaylistDetail
    case GetPlaylistTracks(_, _, _) => PlaylistTrackAll
    case GetAlbum(_) => Album
    case GetArtistDetail(_) => ArtistDetail
    case GetArtistTopSongs(_) => ArtistTopSong
  }

  /** The options object each facade operation builds before the cookie is
      merged in. None of them sets `cookie` itself. */
  function Arguments(call: ApiCall): (options: map<string, Json>)
    ensures "cookie" !in options
  {
    match call
    case Search(keywords, searchType, limit, offset) =>
      map["keywords" := JStr(keywords), "type" := JNum(searchType), "limit" := JNum(limit), "offset" := JNum(offset)]
    case GetSongDetail(ids) => map["ids" := JStr(ids)]
    case GetSongUrl(id, level) => map["id" := id, "level" := JStr(level)]
    case GetUnblockedUrl(id, level) => map["id" := id, "level" := JStr(level), "unblock" := JBool(true)]
    case GetLyric(id) => map["id" := id]
    case GetPlaylistDetail(id) => map["id" := id]
    case GetPlaylistTracks(id, limit, offset) => map["id" := id, "limit" := JNum(limit), "offset" := JNum(offset)]
    case GetAlbum(id) => map["id" := id]
    case GetArtistDetail(id) => map["id" := id]
    case GetArtistTopSongs(id) => map["id" := id]
  }

  /** The cookie carried by a successful anonymous registration: only a
      truthy body with a truthy string `cookie` field yields one. */
  function AnonymousCookie(response: ClientResponse): (cookie: Option<string>)
    ensures response.Rejected? ==> cookie == None
    ensures cookie.Some? ==> cookie.value != ""
    ensures cookie.Some? <==>
      response.Resolved? && response.body.JObj? && "cookie" in response.body.fields &&
      response.body.fields["cookie"].JStr? && response.body.fields["cookie"].s != ""
    ensures cookie.Some? ==>
      response.Resolved? && response.body.JObj? && "cookie" in response.body.fields &&
      response.body.fields["cookie"] == JStr(cookie.value)
  {
    match response
    case Rejected(_) => None
    case Resolved(body) =>
      if Truthy(body) && body.JObj? && "cookie" in body.fields && Truthy(body.fields["cookie"])
         && body.fields["cookie"].JStr?
      then Some(body.fields["cookie"].s)
      else None
  }

  /** The process-wide cookie store: one cookie per session id, and one global
      fallback cookie. */
  class CookieStore {
    var sessionCookies: map<string, string>
    var globalCookie: string

    constructor()
      ensures sessionCookies == map[] && globalCookie == ""
    {
      sessionCookies := map[];
      globalCookie := "";
    }

    /** The session id is truthy and has an entry of its own. */
    predicate HasOwnCookie(sessionId: Option<string>)
      reads this
    {
      TruthyString(sessionId) && sessionId.value in sessionCookies
    }

    /** `getCookie`: the session's own cookie, else the global one. */
    function GetCookie(sessionId: Option<string>): (cookie: string)
      reads this
      ensures TruthyString(sessionId) && sessionId.value in sessionCookies ==>
                cookie == sessionCookies[sessionId.value]
      ensures sessionId == None || sessionId == Some("") || sessionId.value !in sessionCookies ==>
                cookie == globalCookie
    {
      if HasOwnCookie(sessionId) then sessionCookies[sessionId.value] else globalCookie
    }

    method SetGlobalCookie(cookie: string)
      modifies this`globalCookie
      ensures globalCookie == cookie && sessionCookies == old(sessionCookies)
      ensures forall s :: HasOwnCookie(s) ==> GetCookie(s) == old(GetCookie(s))
      ensures forall s :: !HasOwnCookie(s) ==> GetCookie(s) == cookie
    {
      globalCookie := cookie;
    }

    /** Last write wins, and only the given session's resolution changes. */
    method SetSessionCookie(sessionId: string, cookie: string)
      modifies this`sessionCookies
      ensures sessionCookies == old(sessionCookies)[sessionId := cookie]
      ensures globalCookie == old(globalCookie)
      ensures sessionId != "" ==> GetCookie(Some(sessionId)) == cookie
      ensures GetCookie(None) == old(GetCookie(None))
      ensures forall s: string :: s != sessionId ==> GetCookie(Some(s)) == old(GetCookie(Some(s)))
    {
      sessionCookies := sessionCookies[sessionId := cookie];
    }

    /** `initAnonymousCookie`, given what the registration call settled to. A
        thrown error, or a response without a usable cookie, changes nothing. */
    method InitAnonymousCookie(registration: ClientResponse)
      modifies this`globalCookie
      ensures sessionCookies == old(sessionCookies)
      ensures AnonymousCookie(registration).Some? ==> globalCookie == AnonymousCookie(registration).value
      ensures AnonymousCookie(registration).None? ==> globalCookie == old(globalCookie)
      ensures AnonymousCookie(registration).Some? ==> JStr(globalCookie) == registration.body.fields["cookie"]
    {
      var cookie := AnonymousCookie(registration);
      if cookie.Some? {
        globalCookie := cookie.value;
      }
    }

    /** `withCookie`: every field of `options` is kept, and `cookie` becomes the
        explicit cookie when that is truthy, else the resolved one. */
    function WithCookie(options: map<string, Json>, sessionId: Option<string>): (merged: map<string, Json>)
      reads this
      ensures forall k :: k in merged <==> k in options || k == "cookie"
      ensures forall k :: k in options && k != "cookie" ==> merged[k] == options[k]
      ensures "cookie" in options && Truthy(options["cookie"]) ==> merged["cookie"] == options["cookie"]
      ensures !("cookie" in options && Truthy(options["cookie"])) ==>
                merged["cookie"] == JStr(GetCookie(sessionId))
    {
      var explicit := if "cookie" in options then options["cookie"] else JNull;
      options["cookie" := if Truthy(explicit) then explicit else JStr(GetCookie(sessionId))]
    }

    /** The client request a facade operation makes: its own arguments,
        unchanged, plus the cookie resolved for the session. */
    function Request(call: ApiCall, sessionId: Option<string>): (request: ClientRequest)
      reads this
      ensures request.endpoint == EndpointOf(call)
      ensures forall k :: k in request.options <==> k in Arguments(call) || k == "cookie"
      ensures "cookie" in request.options
      ensures forall k :: k in Arguments(call) ==> request.options[k] == Arguments(call)[k]
      ensures request.options["cookie"] == JStr(GetCookie(sessionId))
    {
      ClientRequest(EndpointOf(call), WithCookie(Arguments(call), sessionId))
    }
  }

  /** `getUnblockedUrl` sends what `getSongUrl` sends, to the same client
      operation, plus `unblock: true`. */
  lemma UnblockedUrlExtendsSongUrl(store: CookieStore, id: Json, level: string, sessionId: Option<string>)
    ensures store.Request(GetUnblockedUrl(id, level), sessionId) ==
            ClientRequest(SongUrlV1, store.Request(GetSongUrl(id, level), sessionId).options["unblock" := JBool(true)])
  {
    var plain := store.Request(GetSongUrl(id, level), sessionId).options;
    var unblocked := store.Request(GetUnblockedUrl(id, level), sessionId).options;
    assert unblocked == plain["unblock" := JBool(true)];
  }
}
