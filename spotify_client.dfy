/** `SpotifyClient` itself: an object whose fields `rpcApi`,
    `authenticationApi` and `clientTokens`, and whose token file, its methods
    update in place. Every method is proved to do what the function of the
    same name in `SpotifySession` does to the session those fields form: the
    same new fields, the same result, and the same calls out of the process,
    which the ghost field `log` records in order. */
module Client {
  import opened Wrappers
  import Spotify
  import Seqs
  import SpotifySession

  class SpotifyClient {
    /** The token endpoint the client id and secret of the configuration
        give access to. */
    const auth: SpotifySession.AuthServer
    var rpcApi: Option<SpotifySession.RpcApi>
    var authenticationApi: Option<SpotifySession.AuthApi>
    /** The contents of the token file; `None` when there is no file. */
    var tokenFile: Option<string>
    /** The pending CSRF states, each mapped to the path to return to. */
    var clientTokens: map<string, string>
    /** Every call out of the process so far. */
    ghost var log: seq<SpotifySession.Call>

    function Session(): SpotifySession.Session
      reads this
    {
      SpotifySession.Session(rpcApi, authenticationApi, tokenFile, clientTokens)
    }

    predicate Valid()
      reads this
    {
      SpotifySession.Valid(Session())
    }

    constructor(auth: SpotifySession.AuthServer, tokenFile: Option<string>)
      ensures this.auth == auth
      ensures Session() == SpotifySession.Session(None, None, tokenFile, map[])
      ensures log == []
      ensures Valid()
    {
      this.auth := auth;
      rpcApi := None;
      authenticationApi := None;
      this.tokenFile := tokenFile;
      clientTokens := map[];
      log := [];
    }

    // -------------------------------------------------------------------
    // Tokens
    // -------------------------------------------------------------------

    method WriteToken(token: string) returns (r: Result<(), SpotifySession.ApiError>)
      modifies this
      ensures var f := SpotifySession.WriteToken(old(Session()), token);
        Session() == f.session && r == f.result && log == old(log) + f.trace
    {
      if token == "" {
        return Failure(SpotifySession.EMPTY_TOKEN_ERROR);
      }
      tokenFile := Some(token);
      log := log + [SpotifySession.TokenWrite(token)];
      return Success(());
    }

    method InitRpcApi(accessToken: string) returns (api: SpotifySession.RpcApi)
      modifies this
      ensures var f := SpotifySession.InitRpcApi(old(Session()), accessToken);
        Session() == f.session && Success(api) == f.result && log == old(log) + f.trace
    {
      rpcApi := Some(SpotifySession.RpcApi(accessToken));
      api := rpcApi.value;
      Seqs.AppendEmpty(log);
    }

    /** `handleAuthenticationResponse`, with the refresh token set on
        `authenticationApi` only when that exists. */
    method HandleAuthenticationResponse(resp: SpotifySession.TokenResponse)
      returns (r: Result<SpotifySession.RpcApi, SpotifySession.ApiError>)
      modifies this
      ensures var f := SpotifySession.HandleAuthenticationResponse(old(Session()), resp);
        Session() == f.session && r == f.result && log == old(log) + f.trace
    {
      var written: Result<(), SpotifySession.ApiError> := Success(());
      if resp.refreshToken != "" {
        authenticationApi := SpotifySession.SetRefreshToken(authenticationApi, resp.refreshToken);
        written := WriteToken(resp.refreshToken);
        Seqs.AppendEmpty([SpotifySession.TokenWrite(resp.refreshToken)]);
      }
      match written
      case Failure(e) =>
        r := Failure(e);
      case Success(_) =>
        var api := InitRpcApi(resp.accessToken);
        r := Success(api);
    }

    /** `getRefreshToken`: reads the fields, changes nothing. */
    method GetRefreshToken() returns (r: Result<string, SpotifySession.ApiError>)
      ensures r == SpotifySession.GetRefreshToken(Session())
    {
      match authenticationApi
      case Some(api) =>
        r := Success(api.refreshToken);
      case None =>
        match tokenFile
        case Some(token) => r := Success(token);
        case None => r := Failure(SpotifySession.TOKEN_FILE_ERROR);
    }

    // -------------------------------------------------------------------
    // Access
    // -------------------------------------------------------------------

    method RefreshAccess() returns (r: Result<SpotifySession.RpcApi, SpotifySession.ApiError>)
      requires Valid()
      modifies this
      ensures var f := SpotifySession.RefreshAccess(old(Session()), auth);
        Session() == f.session && r == f.result && log == old(log) + f.trace
      ensures Valid()
    {
      var refreshToken := GetRefreshToken();
      match refreshToken
      case Failure(e) =>
        r := Failure(e);
      case Success(token) =>
        log := log + [SpotifySession.RefreshGrant(token)];
        match auth.refreshGrant(token)
        case Failure(e) =>
          r := Failure(e);
        case Success(resp) =>
          r := HandleAuthenticationResponse(resp);
          Seqs.AppendAssociative(old(log), [SpotifySession.RefreshGrant(token)],
            SpotifySession.HandleAuthenticationResponse(old(Session()), resp).trace);
    }

    method GetRpcApi() returns (r: Result<SpotifySession.RpcApi, SpotifySession.ApiError>)
      requires Valid()
      modifies this
      ensures var f := SpotifySession.GetRpcApi(old(Session()), auth);
        Session() == f.session && r == f.result && log == old(log) + f.trace
      ensures Valid()
    {
      if rpcApi.None? {
        var renewed := RefreshAccess();
        match renewed
        case Failure(e) =>
          return Failure(e);
        case Success(api) =>
          rpcApi := Some(api);
      } else {
        Seqs.AppendEmpty(log);
      }
      return Success(rpcApi.value);
    }

    method IsUserLoginRequired() returns (required: bool)
      requires Valid()
      modifies this
      ensures var f := SpotifySession.GetRpcApi(old(Session()), auth);
        Session() == f.session && log == old(log) + f.trace
      ensures required == SpotifySession.IsUserLoginRequired(old(Session()), auth)
      ensures Valid()
    {
      var api := GetRpcApi();
      required := api.Failure?;
    }

    // -------------------------------------------------------------------
    // Authenticated calls
    // -------------------------------------------------------------------

    /** The `try` block of `apiCall`. */
    method Attempt<T>(ep: SpotifySession.Endpoint<T>, name: string, args: SpotifySession.Args)
      returns (r: Result<T, SpotifySession.ApiError>)
      requires Valid()
      modifies this
      ensures var f := SpotifySession.Attempt(old(Session()), ep, auth, name, args);
        Session() == f.session && r == f.result && log == old(log) + f.trace
      ensures Valid()
    {
      var api := GetRpcApi();
      match api
      case Failure(e) =>
        r := Failure(e);
      case Success(handle) =>
        if name !in ep.methods {
          r := Failure(SpotifySession.MethodNotFound(name));
        } else {
          ghost var g := SpotifySession.GetRpcApi(old(Session()), auth).trace;
          log := log + [SpotifySession.Invoke(name, args, handle.accessToken)];
          r := ep.invoke(name, args, handle.accessToken);
          Seqs.AppendAssociative(old(log), g, [SpotifySession.Invoke(name, args, handle.accessToken)]);
        }
    }

    /** `apiCall(method, args, attempt)`. */
    method ApiCall<T>(ep: SpotifySession.Endpoint<T>, name: string, args: SpotifySession.Args, attempt: nat)
      returns (r: Result<T, SpotifySession.ApiError>)
      requires Valid()
      modifies this
      ensures var f := SpotifySession.ApiCall(old(Session()), ep, auth, name, args, attempt);
        Session() == f.session && r == f.result && log == old(log) + f.trace
      ensures Valid()
      decreases if attempt == 0 then 1 else 0
    {
      ghost var a := SpotifySession.Attempt(old(Session()), ep, auth, name, args);
      r := Attempt(ep, name, args);
      match r
      case Success(_) =>
      case Failure(e) =>
        if SpotifySession.IsUnauthorized(e) {
          if attempt == 0 {
            ghost var f := SpotifySession.RefreshAccess(a.session, auth);
            var renewed := RefreshAccess();
            Seqs.AppendAssociative(old(log), a.trace, f.trace);
            match renewed
            case Failure(e2) =>
              r := Failure(e2);
            case Success(_) =>
              ghost var b := SpotifySession.ApiCall(f.session, ep, auth, name, args, attempt + 1);
              r := ApiCall(ep, name, args, attempt + 1);
              Seqs.AppendAssociative(old(log), a.trace + f.trace, b.trace);
          } else {
            r := Failure(e.(message := SpotifySession.RENEW_FAILED_PREFIX + e.message));
          }
        }
    }

    method GetTrack(ep: SpotifySession.Endpoint<Spotify.Track>, trackId: string)
      returns (r: Result<Spotify.Track, SpotifySession.ApiError>)
      requires Valid()
      modifies this
      ensures var f := SpotifySession.ApiCall(old(Session()), ep, auth, "getTrack", SpotifySession.TrackId(trackId), 0);
        Session() == f.session && r == f.result && log == old(log) + f.trace
      ensures Valid()
    {
      r := ApiCall(ep, "getTrack", SpotifySession.TrackId(trackId), 0);
    }

    /** `searchAlbums`: the query is rendered to text, then sent. */
    method SearchAlbums(ep: SpotifySession.Endpoint<Spotify.Paging<Spotify.Album>>, query: seq<SpotifySession.QueryField>)
      returns (r: Result<Spotify.Paging<Spotify.Album>, SpotifySession.ApiError>)
      requires Valid()
      modifies this
      ensures var f := SpotifySession.ApiCall(old(Session()), ep, auth, "searchAlbums",
          SpotifySession.SearchText(SpotifySession.SearchQueryText(query)), 0);
        Session() == f.session && r == f.result && log == old(log) + f.trace
      ensures Valid()
    {
      var textQuery := SpotifySession.SearchQueryText(query);
      r := ApiCall(ep, "searchAlbums", SpotifySession.SearchText(textQuery), 0);
    }

    // -------------------------------------------------------------------
    // Pagination
    // -------------------------------------------------------------------

    /** The `while` loop of `getRemainingTracks`: one request per missing
        page, appending its items. */
    method RemainingPages(ep: SpotifySession.Endpoint<Spotify.Paging<Spotify.Track>>, albumId: string,
                          first: Spotify.Paging<Spotify.Track>)
      returns (r: Result<Spotify.Paging<Spotify.Track>, SpotifySession.ApiError>)
      requires SpotifySession.NonEmptyBelow(ep, albumId, first.total)
      requires Valid()
      modifies this
      ensures var f := SpotifySession.RemainingPages(old(Session()), ep, auth, albumId, first);
        Session() == f.session && r == f.result && log == old(log) + f.trace
      ensures Valid()
    {
      ghost var goal := SpotifySession.RemainingPages(Session(), ep, auth, albumId, first);
      ghost var done: seq<SpotifySession.Call> := [];
      var page := first;
      Seqs.AppendEmpty(log);
      while page.offset + |page.items| < page.total
        invariant Valid()
        invariant page.total == first.total
        invariant log == old(log) + done
        invariant var rest := SpotifySession.RemainingPages(Session(), ep, auth, albumId, page);
          goal == SpotifySession.Step(rest.session, rest.result, done + rest.trace)
        decreases page.total - (page.offset + |page.items|)
      {
        ghost var c := SpotifySession.ApiCall(Session(), ep, auth, "getAlbumTracks",
          SpotifySession.AlbumTracks(albumId, Some(page.offset + |page.items|)), 0);
        SpotifySession.PageRequestNonEmpty(Session(), ep, auth, albumId, page.offset + |page.items|, page.total);
        SpotifySession.RemainingPagesTurn(Session(), ep, auth, albumId, page, c);
        var next := ApiCall(ep, "getAlbumTracks", SpotifySession.AlbumTracks(albumId, Some(page.offset + |page.items|)), 0);
        Seqs.AppendAssociative(old(log), done, c.trace);
        match next
        case Failure(e) =>
          return Failure(e);
        case Success(more) =>
          ghost var rest := SpotifySession.RemainingPages(Session(), ep, auth, albumId, page.(items := page.items + more.items));
          Seqs.AppendAssociative(done, c.trace, rest.trace);
          page := page.(items := page.items + more.items);
          done := done + c.trace;
      }
      Seqs.AppendEmpty(done);
      return Success(page);
    }

    /** `getRemainingTracks`: the first page when `tracks` is absent, then
        the missing pages. */
    method GetRemainingTracks(ep: SpotifySession.Endpoint<Spotify.Paging<Spotify.Track>>, album: Spotify.Album)
      returns (r: Result<Spotify.Album, SpotifySession.ApiError>)
      requires SpotifySession.TracksNonEmpty(ep, album)
      requires Valid()
      modifies this
      ensures var f := SpotifySession.RemainingTracks(old(Session()), ep, auth, album);
        Session() == f.session && r == f.result && log == old(log) + f.trace
      ensures Valid()
    {
      var page: Spotify.Paging<Spotify.Track>;
      ghost var pre: seq<SpotifySession.Call> := [];
      match album.tracks {
        case Some(p) =>
          page := p;
          Seqs.AppendEmpty(old(log));
        case None =>
          pre := SpotifySession.ApiCall(old(Session()), ep, auth, "getAlbumTracks", SpotifySession.AlbumTracks(album.id, None), 0).trace;
          SpotifySession.FirstPageNonEmpty(old(Session()), ep, auth, album);
          var first := ApiCall(ep, "getAlbumTracks", SpotifySession.AlbumTracks(album.id, None), 0);
          match first {
            case Failure(e) =>
              return Failure(e);
            case Success(p) =>
              page := p;
          }
      }
      ghost var rest := SpotifySession.RemainingPages(Session(), ep, auth, album.id, page);
      var complete := RemainingPages(ep, album.id, page);
      Seqs.AppendEmpty(rest.trace);
      Seqs.AppendAssociative(old(log), pre, rest.trace);
      match complete
      case Failure(e) =>
        r := Failure(e);
      case Success(p) =>
        r := Success(album.(tracks := Some(p)));
    }

    /** `getAlbum`: the album request, then `getRemainingTracks`. */
    method GetAlbum(albums: SpotifySession.Endpoint<Spotify.Album>, tracks: SpotifySession.Endpoint<Spotify.Paging<Spotify.Track>>,
                    albumId: string)
      returns (r: Result<Spotify.Album, SpotifySession.ApiError>)
      requires SpotifySession.AlbumTracksNonEmpty(albums, tracks, albumId)
      requires Valid()
      modifies this
      ensures var f := SpotifySession.GetAlbum(old(Session()), albums, tracks, auth, albumId);
        Session() == f.session && r == f.result && log == old(log) + f.trace
      ensures Valid()
    {
      ghost var first := SpotifySession.ApiCall(old(Session()), albums, auth, "getAlbum", SpotifySession.AlbumId(albumId), 0);
      SpotifySession.AnsweredAlbumNonEmpty(old(Session()), albums, tracks, auth, albumId);
      var album := ApiCall(albums, "getAlbum", SpotifySession.AlbumId(albumId), 0);
      match album
      case Failure(e) =>
        r := Failure(e);
      case Success(a) =>
        ghost var rest := SpotifySession.RemainingTracks(first.session, tracks, auth, a);
        r := GetRemainingTracks(tracks, a);
        Seqs.AppendAssociative(old(log), first.trace, rest.trace);
    }

    // -------------------------------------------------------------------
    // The authorization-code flow
    // -------------------------------------------------------------------

    /** `createAuthorizeURL`: the random state is any non-empty token that
        is not pending already. */
    method CreateAuthorizeURL(redirectUri: string, redirectPath: string)
      returns (request: SpotifySession.AuthorizeRequest)
      modifies this
      ensures request.state != "" && request.state !in old(clientTokens)
      ensures var (s, req) := SpotifySession.CreateAuthorizeURL(old(Session()), redirectUri, redirectPath, request.state);
        Session() == s && request == req && log == old(log)
      ensures Valid()
    {
      ghost var longer := LongerThanAll(clientTokens.Keys);
      var token :| token != "" && token !in clientTokens;
      clientTokens := clientTokens[token := redirectPath];
      authenticationApi := Some(SpotifySession.AuthApi(redirectUri, ""));
      request := SpotifySession.AuthorizeRequest(redirectUri, SpotifySession.SCOPES, token);
    }

    method AuthorizeUserCallback(code: string, state: string) returns (r: Result<string, SpotifySession.ApiError>)
      requires Valid()
      modifies this
      ensures var f := SpotifySession.AuthorizeUserCallback(old(Session()), auth, code, state);
        Session() == f.session && r == f.result && log == old(log) + f.trace
      ensures Valid()
    {
      if code == "" {
        return Failure(SpotifySession.CODE_MISSING);
      } else if state == "" {
        return Failure(SpotifySession.STATE_MISSING);
      }
      var redirectPath := if state in clientTokens then clientTokens[state] else "";
      if redirectPath == "" {
        return Failure(SpotifySession.STATE_MISMATCH);
      }
      clientTokens := clientTokens - {state};
      match authenticationApi
      case None =>
        r := Failure(SpotifySession.NO_AUTHENTICATION_API);
      case Some(api) =>
        log := log + [SpotifySession.CodeGrant(code, api.redirectUri)];
        match auth.codeGrant(code, api.redirectUri)
        case Failure(e) =>
          r := Failure(e);
        case Success(resp) =>
          ghost var h := SpotifySession.HandleAuthenticationResponse(Session(), resp);
          var handled := HandleAuthenticationResponse(resp);
          Seqs.AppendAssociative(old(log), [SpotifySession.CodeGrant(code, api.redirectUri)], h.trace);
          r := Success(redirectPath);
    }
  }

  /** A finite set of strings leaves room for a fresh one: some non-empty
      string is longer than each of them. */
  lemma {:induction false} LongerThanAll(keys: set<string>) returns (longer: string)
    ensures longer != ""
    ensures forall t :: t in keys ==> |t| < |longer|
    decreases |keys|
  {
    if keys == {} {
      longer := "0";
    } else {
      var x :| x in keys;
      var shorter := LongerThanAll(keys - {x});
      longer := shorter + x + "0";
    }
  }
}
