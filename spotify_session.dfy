/** The session layer of `SpotifyClient.ts` as functions of an explicit
    session value: lazy access-token creation, reactive renewal with at most
    one retry, the single-use CSRF `state` of the authorization-code grant,
    pagination, and the album search text. The class `Client.SpotifyClient`
    runs these steps on its fields; this module states and proves what they
    do.

    The Spotify Web API SDK is an `Endpoint` (what a call returns for given
    arguments and access token) and an `AuthServer` (the token endpoint);
    the token file is the `tokenFile` field of the session. */
module SpotifySession {
  import opened Wrappers
  import opened Text
  import Spotify
  import Seqs

  // ---------------------------------------------------------------------
  // Errors, upstream services, session state
  // ---------------------------------------------------------------------

  /** A rejected promise: `statusCode` is the HTTP status the SDK attaches,
      absent for errors raised locally. */
  datatype ApiError = ApiError(statusCode: Option<int>, message: string)

  const UNAUTHORIZED: int := 401
  const RENEW_FAILED_PREFIX: string := "Failed to renew access-token: "
  const EMPTY_TOKEN_ERROR: ApiError := ApiError(None, "Cannot write an empty token")
  /** The error of reading a token file that does not exist. */
  const TOKEN_FILE_ERROR: ApiError := ApiError(None, "ENOENT: no such file or directory")
  /** The `TypeError` of calling a method on an unset `authenticationApi`. */
  const NO_AUTHENTICATION_API: ApiError := ApiError(None, "Cannot read property of undefined (authenticationApi)")
  const CODE_MISSING: ApiError := ApiError(None, "Authorization code missing")
  const STATE_MISSING: ApiError := ApiError(None, "Authorization state missing")
  const STATE_MISMATCH: ApiError := ApiError(None, "CSRF Token (State) mismatch")

  function MethodNotFound(name: string): ApiError {
    ApiError(None, "Method '" + name + "' not found")
  }

  /** The arguments `apiCall` passes on to the SDK. */
  datatype Args =
    | AlbumId(albumId: string)
    | AlbumTracks(albumId: string, offset: Option<nat>)
    | TrackId(trackId: string)
    | SearchText(query: string)

  /** The SDK calls that return a `T`: the method names the SDK object has,
      and what a call answers for given arguments and access token. */
  datatype Endpoint<T> = Endpoint(methods: set<string>, invoke: (string, Args, string) -> Result<T, ApiError>)

  /** The body of a token response (section 5.1 of RFC 6749). The empty
      string stands for an absent field. */
  datatype TokenResponse = TokenResponse(accessToken: string, refreshToken: string)

  /** The token endpoint: the refresh-token grant (section 6 of RFC 6749)
      and the authorization-code grant (section 4.1.3 of RFC 6749), which
      also receives the redirect URI the authorization request used. */
  datatype AuthServer = AuthServer(
    refreshGrant: string -> Result<TokenResponse, ApiError>,
    codeGrant: (string, string) -> Result<TokenResponse, ApiError>)

  /** `authenticationApi`: the SDK object of the authorization flow, with
      its redirect URI and the refresh token set on it ("" when none). */
  datatype AuthApi = AuthApi(redirectUri: string, refreshToken: string)

  /** `rpcApi`: the SDK object that carries the access token. */
  datatype RpcApi = RpcApi(accessToken: string)

  /** The fields of a `SpotifyClient`, and the token file. */
  datatype Session = Session(
    rpcApi: Option<RpcApi>,
    authenticationApi: Option<AuthApi>,
    tokenFile: Option<string>,
    clientTokens: map<string, string>)

  /** A call out of the process, in the order it happens. */
  datatype Call =
    | Invoke(name: string, args: Args, accessToken: string)
    | RefreshGrant(refreshToken: string)
    | CodeGrant(code: string, redirectUri: string)
    | TokenWrite(token: string)

  /** The outcome of one operation: the new session, the result and the
      calls it made. */
  datatype Step<T> = Step(session: Session, result: Result<T, ApiError>, trace: seq<Call>)

  /** A pending authorization request implies an authorization-flow handle:
      `createAuthorizeURL` sets both, and nothing unsets the handle. */
  predicate Valid(s: Session) {
    s.clientTokens != map[] ==> s.authenticationApi.Some?
  }

  /** `t` has the pending requests of `s`, and keeps its handle. */
  predicate Keeps(s: Session, t: Session) {
    t.clientTokens == s.clientTokens && (s.authenticationApi.Some? ==> t.authenticationApi.Some?)
  }

  /** The number of refresh-token grants in a trace. */
  function Refreshes(trace: seq<Call>): nat {
    if trace == [] then 0
    else (if trace[0].RefreshGrant? then 1 else 0) + Refreshes(trace[1..])
  }

  /** The number of SDK method invocations in a trace. */
  function Invocations(trace: seq<Call>): nat {
    if trace == [] then 0
    else (if trace[0].Invoke? then 1 else 0) + Invocations(trace[1..])
  }

  lemma {:induction false} CountsAppend(a: seq<Call>, b: seq<Call>)
    ensures Refreshes(a + b) == Refreshes(a) + Refreshes(b)
    ensures Invocations(a + b) == Invocations(a) + Invocations(b)
    decreases |a|
  {
    if a == [] {
      assert a + b == b;
    } else {
      CountsAppend(a[1..], b);
      assert (a + b)[1..] == a[1..] + b;
    }
  }

  // ---------------------------------------------------------------------
  // Tokens
  // ---------------------------------------------------------------------

  /** `writeToken`: an empty token is rejected, any other is persisted. */
  function WriteToken(s: Session, token: string): (r: Step<()>)
    ensures r.result.Success? <==> token != ""
    ensures r.result.Success? ==> r.session == s.(tokenFile := Some(token))
    ensures r.result.Failure? ==> r.session == s
  {
    if token == "" then Step(s, Failure(EMPTY_TOKEN_ERROR), [])
    else Step(s.(tokenFile := Some(token)), Success(()), [TokenWrite(token)])
  }

  /** `initRpcApi`: a new handle for the access token replaces the old one. */
  function InitRpcApi(s: Session, accessToken: string): Step<RpcApi> {
    Step(s.(rpcApi := Some(RpcApi(accessToken))), Success(RpcApi(accessToken)), [])
  }

  /** `handleAuthenticationResponse` as written: a refresh token in the
      response is set on `authenticationApi` and persisted, then the access
      token replaces `rpcApi`. When `authenticationApi` is unset, setting the
      refresh token on it throws, and nothing is persisted or replaced. */
  function HandleAuthenticationResponseAsWritten(s: Session, resp: TokenResponse): (r: Step<RpcApi>)
    ensures r.result.Failure? <==> resp.refreshToken != "" && s.authenticationApi.None?
    ensures r.result.Failure? ==> r.session == s && r.trace == []
    ensures r.result.Success? ==>
      && r.result == Success(RpcApi(resp.accessToken))
      && r.session.rpcApi == Some(RpcApi(resp.accessToken))
      && r.session.tokenFile == (if resp.refreshToken != "" then Some(resp.refreshToken) else s.tokenFile)
  {
    if resp.refreshToken != "" then
      match s.authenticationApi
      case None => Step(s, Failure(NO_AUTHENTICATION_API), [])
      case Some(api) =>
        var w := WriteToken(s.(authenticationApi := Some(api.(refreshToken := resp.refreshToken))), resp.refreshToken);
        match w.result
        case Failure(e) => Step(w.session, Failure(e), w.trace)
        case Success(_) =>
          var i := InitRpcApi(w.session, resp.accessToken);
          Step(i.session, i.result, w.trace + i.trace)
    else
      InitRpcApi(s, resp.accessToken)
  }

  /** The refresh token set on `authenticationApi` when one exists. */
  function SetRefreshToken(authenticationApi: Option<AuthApi>, refreshToken: string): Option<AuthApi> {
    match authenticationApi
    case None => None
    case Some(api) => Some(api.(refreshToken := refreshToken))
  }

  /** `handleAuthenticationResponse` as the model uses it: as written, except
      that a missing `authenticationApi` is skipped instead of throwing. It
      persists a refresh token exactly when the response has one, and always
      replaces `rpcApi` with a handle for the new access token. */
  function HandleAuthenticationResponse(s: Session, resp: TokenResponse): (r: Step<RpcApi>)
    ensures r.result == Success(RpcApi(resp.accessToken))
    ensures r.session.rpcApi == Some(RpcApi(resp.accessToken))
    ensures r.session.tokenFile == if resp.refreshToken != "" then Some(resp.refreshToken) else s.tokenFile
    ensures r.session.authenticationApi ==
      if resp.refreshToken != "" then SetRefreshToken(s.authenticationApi, resp.refreshToken) else s.authenticationApi
    ensures r.session.clientTokens == s.clientTokens
    ensures Refreshes(r.trace) == 0 && Invocations(r.trace) == 0
  {
    if resp.refreshToken != "" then
      var w := WriteToken(s.(authenticationApi := SetRefreshToken(s.authenticationApi, resp.refreshToken)), resp.refreshToken);
      match w.result
      case Failure(e) => Step(w.session, Failure(e), w.trace)
      case Success(_) =>
        var i := InitRpcApi(w.session, resp.accessToken);
        Step(i.session, i.result, w.trace + i.trace)
    else
      InitRpcApi(s, resp.accessToken)
  }

  /** A refresh response that rotates the refresh token (section 6 of
      RFC 6749 allows it) before any authorization flow has run: the code as
      written throws and loses the new token; the model persists it. */
  lemma RotatedRefreshTokenWithoutAuthorizationApi()
    ensures var s := Session(None, None, Some("stored-refresh-token"), map[]);
      var resp := TokenResponse("new-access-token", "rotated-refresh-token");
      && HandleAuthenticationResponseAsWritten(s, resp).result == Failure(NO_AUTHENTICATION_API)
      && HandleAuthenticationResponseAsWritten(s, resp).session.tokenFile == Some("stored-refresh-token")
      && HandleAuthenticationResponse(s, resp).session.tokenFile == Some("rotated-refresh-token")
      && HandleAuthenticationResponse(s, resp).session.rpcApi == Some(RpcApi("new-access-token"))
  {
  }

  /** Where both versions agree: whenever `authenticationApi` is set or the
      response carries no refresh token. */
  lemma HandleAuthenticationResponseAgrees(s: Session, resp: TokenResponse)
    requires s.authenticationApi.Some? || resp.refreshToken == ""
    ensures HandleAuthenticationResponseAsWritten(s, resp) == HandleAuthenticationResponse(s, resp)
  {
  }

  /** `getRefreshToken`: the token set on `authenticationApi` when that
      exists, else the token file. */
  function GetRefreshToken(s: Session): Result<string, ApiError> {
    match s.authenticationApi
    case Some(api) => Success(api.refreshToken)
    case None =>
      match s.tokenFile
      case Some(token) => Success(token)
      case None => Failure(TOKEN_FILE_ERROR)
  }

  /** `refreshAccess`: one refresh-token grant, whose response is handled. */
  function RefreshAccess(s: Session, auth: AuthServer): (r: Step<RpcApi>)
    ensures r.result.Success? ==> r.session.rpcApi == Some(r.result.value)
    ensures Keeps(s, r.session)
    ensures Refreshes(r.trace) <= 1 && Invocations(r.trace) == 0
  {
    match GetRefreshToken(s)
    case Failure(e) => Step(s, Failure(e), [])
    case Success(refreshToken) =>
      match auth.refreshGrant(refreshToken)
      case Failure(e) => Step(s, Failure(e), [RefreshGrant(refreshToken)])
      case Success(resp) =>
        var h := HandleAuthenticationResponse(s, resp);
        CountsAppend([RefreshGrant(refreshToken)], h.trace);
        Step(h.session, h.result, [RefreshGrant(refreshToken)] + h.trace)
  }

  /** `getRpcApi`: the cached handle when there is one, else a refresh. */
  function GetRpcApi(s: Session, auth: AuthServer): (r: Step<RpcApi>)
    ensures s.rpcApi.Some? ==> r == Step(s, Success(s.rpcApi.value), [])
    ensures s.rpcApi.None? ==> r == RefreshAccess(s, auth)
  {
    match s.rpcApi
    case Some(api) => Step(s, Success(api), [])
    case None => RefreshAccess(s, auth)
  }

  /** After `getRpcApi` succeeds the handle it returned is cached, and a
      refresh happened only if nothing was cached before. */
  lemma GetRpcApiCaches(s: Session, auth: AuthServer)
    ensures var r := GetRpcApi(s, auth);
      && (r.result.Success? ==> r.session.rpcApi == Some(r.result.value))
      && Refreshes(r.trace) <= (if s.rpcApi.Some? then 0 else 1)
      && Invocations(r.trace) == 0
      && Keeps(s, r.session)
  {
  }

  /** `isUserLoginRequired`: true when no handle can be had. */
  function IsUserLoginRequired(s: Session, auth: AuthServer): bool {
    GetRpcApi(s, auth).result.Failure?
  }

  // ---------------------------------------------------------------------
  // Authenticated calls
  // ---------------------------------------------------------------------

  /** One pass through the `try` block of `apiCall`: get the handle, check
      that the SDK has the method, invoke it. */
  function Attempt<T>(s: Session, ep: Endpoint<T>, auth: AuthServer, name: string, args: Args): (r: Step<T>)
    ensures r.result.Success? ==>
      r.session.rpcApi.Some? && ep.invoke(name, args, r.session.rpcApi.value.accessToken) == r.result
    ensures Invocations(r.trace) <= 1
    ensures Refreshes(r.trace) <= (if s.rpcApi.Some? then 0 else 1)
    ensures Keeps(s, r.session)
  {
    var g := GetRpcApi(s, auth);
    GetRpcApiCaches(s, auth);
    match g.result
    case Failure(e) => Step(g.session, Failure(e), g.trace)
    case Success(api) =>
      if name !in ep.methods then Step(g.session, Failure(MethodNotFound(name)), g.trace)
      else
        CountsAppend(g.trace, [Invoke(name, args, api.accessToken)]);
        Step(g.session, ep.invoke(name, args, api.accessToken), g.trace + [Invoke(name, args, api.accessToken)])
  }

  predicate IsUnauthorized(e: ApiError) {
    e.statusCode == Some(UNAUTHORIZED)
  }

  /** `apiCall(method, args, attempt)`: a 401 at attempt 0 renews the access
      token once and retries at attempt 1; a 401 at a later attempt is
      rethrown with a prefixed message; every other error is rethrown as is.
      A success is exactly what the SDK answered for the access token the
      session then holds; the SDK is invoked at most twice, and at most once
      from a retry; the refresh token is used at most once more than the
      lazy creation of the handle needs. */
  function ApiCall<T>(s: Session, ep: Endpoint<T>, auth: AuthServer, name: string, args: Args, attempt: nat): (r: Step<T>)
    ensures r.result.Success? ==>
      r.session.rpcApi.Some? && ep.invoke(name, args, r.session.rpcApi.value.accessToken) == r.result
    ensures Invocations(r.trace) <= (if attempt == 0 then 2 else 1)
    ensures Refreshes(r.trace) <= (if s.rpcApi.Some? then 0 else 1) + (if attempt == 0 then 1 else 0)
    ensures Keeps(s, r.session)
    decreases if attempt == 0 then 1 else 0
  {
    var a := Attempt(s, ep, auth, name, args);
    match a.result
    case Success(_) => a
    case Failure(e) =>
      if IsUnauthorized(e) then
        if attempt == 0 then
          var f := RefreshAccess(a.session, auth);
          match f.result
          case Failure(e2) =>
            CountsAppend(a.trace, f.trace);
            Step(f.session, Failure(e2), a.trace + f.trace)
          case Success(_) =>
            var b := ApiCall(f.session, ep, auth, name, args, attempt + 1);
            CountsAppend(a.trace, f.trace);
            CountsAppend(a.trace + f.trace, b.trace);
            Step(b.session, b.result, a.trace + f.trace + b.trace)
        else
          Step(a.session, Failure(e.(message := RENEW_FAILED_PREFIX + e.message)), a.trace)
      else
        a
  }

  /** A 401 at attempt 0 renews once and the retry runs at attempt 1, which
      renews nothing itself. */
  lemma UnauthorizedRenewsOnce<T>(s: Session, ep: Endpoint<T>, auth: AuthServer, name: string, args: Args)
    requires Attempt(s, ep, auth, name, args).result.Failure?
    requires IsUnauthorized(Attempt(s, ep, auth, name, args).result.error)
    ensures var a := Attempt(s, ep, auth, name, args);
      var f := RefreshAccess(a.session, auth);
      var r := ApiCall(s, ep, auth, name, args, 0);
      && r.trace[..|a.trace|] == a.trace
      && r.trace[|a.trace|..|a.trace| + |f.trace|] == f.trace
      && (f.result.Failure? ==> r.result == Failure(f.result.error) && |r.trace| == |a.trace| + |f.trace|)
      && (f.result.Success? ==>
            var b := ApiCall(f.session, ep, auth, name, args, 1);
            && r.result == b.result
            && r.trace[|a.trace| + |f.trace|..] == b.trace
            && Refreshes(b.trace) == 0
            && Invocations(b.trace) <= 1)
  {
    var a := Attempt(s, ep, auth, name, args);
    var f := RefreshAccess(a.session, auth);
    var r := ApiCall(s, ep, auth, name, args, 0);
    if f.result.Success? {
      var b := ApiCall(f.session, ep, auth, name, args, 1);
      assert r.trace == a.trace + f.trace + b.trace;
      Seqs.ConcatSlices(a.trace, f.trace, b.trace);
    } else {
      assert r.trace == a.trace + f.trace + [];
      Seqs.ConcatSlices(a.trace, f.trace, []);
    }
  }

  /** A 401 at attempt 1 or later ends the call: the error is rethrown with
      its message prefixed, and nothing is renewed or retried. */
  lemma UnauthorizedRetryIsFinal<T>(s: Session, ep: Endpoint<T>, auth: AuthServer, name: string, args: Args, attempt: nat)
    requires attempt >= 1
    requires Attempt(s, ep, auth, name, args).result.Failure?
    requires IsUnauthorized(Attempt(s, ep, auth, name, args).result.error)
    ensures var a := Attempt(s, ep, auth, name, args);
      var r := ApiCall(s, ep, auth, name, args, attempt);
      && r.result == Failure(ApiError(Some(UNAUTHORIZED), RENEW_FAILED_PREFIX + a.result.error.message))
      && r.trace == a.trace
      && r.session == a.session
  {
  }

  /** Any other error is rethrown unchanged, without renewal or retry. */
  lemma OtherErrorsPropagate<T>(s: Session, ep: Endpoint<T>, auth: AuthServer, name: string, args: Args, attempt: nat)
    requires Attempt(s, ep, auth, name, args).result.Failure?
    requires !IsUnauthorized(Attempt(s, ep, auth, name, args).result.error)
    ensures ApiCall(s, ep, auth, name, args, attempt) == Attempt(s, ep, auth, name, args)
  {
  }

  /** A method the SDK does not have fails without any invocation, and is
      not retried. */
  lemma MissingMethodIsNotRetried<T>(s: Session, ep: Endpoint<T>, auth: AuthServer, name: string, args: Args, attempt: nat)
    requires name !in ep.methods
    requires GetRpcApi(s, auth).result.Success?
    ensures var r := ApiCall(s, ep, auth, name, args, attempt);
      && r.result == Failure(MethodNotFound(name))
      && Invocations(r.trace) == 0
      && r.trace == GetRpcApi(s, auth).trace
  {
    var g := GetRpcApi(s, auth);
    GetRpcApiCaches(s, auth);
    assert Attempt(s, ep, auth, name, args) == Step(g.session, Failure(MethodNotFound(name)), g.trace);
  }

  // ---------------------------------------------------------------------
  // Pagination
  // ---------------------------------------------------------------------

  /** A page of `albumId` requested at an offset below `total` is never
      empty. Past the end the endpoint may answer anything. */
  ghost predicate NonEmptyBelow(ep: Endpoint<Spotify.Paging<Spotify.Track>>, albumId: string, total: int) {
    forall name, offset: nat, token ::
      offset < total && ep.invoke(name, AlbumTracks(albumId, Some(offset)), token).Success? ==>
        |ep.invoke(name, AlbumTracks(albumId, Some(offset)), token).value.items| > 0
  }

  /** The pages `getRemainingTracks` can request for `album` are never
      empty: those below the total of the page it carries, or, without one,
      below the total of whatever first page the endpoint answers. */
  ghost predicate TracksNonEmpty(ep: Endpoint<Spotify.Paging<Spotify.Track>>, album: Spotify.Album) {
    match album.tracks
    case Some(page) => NonEmptyBelow(ep, album.id, page.total)
    case None =>
      forall name, token :: ep.invoke(name, AlbumTracks(album.id, None), token).Success? ==>
        NonEmptyBelow(ep, album.id, ep.invoke(name, AlbumTracks(album.id, None), token).value.total)
  }

  /** Every album the album endpoint answers for `albumId` satisfies
      `TracksNonEmpty`. */
  ghost predicate AlbumTracksNonEmpty(albums: Endpoint<Spotify.Album>, tracks: Endpoint<Spotify.Paging<Spotify.Track>>,
                                      albumId: string) {
    forall name, token :: albums.invoke(name, AlbumId(albumId), token).Success? ==>
      TracksNonEmpty(tracks, albums.invoke(name, AlbumId(albumId), token).value)
  }

  /** The loop condition of `getRemainingTracks` is false. */
  predicate Complete<T>(page: Spotify.Paging<T>) {
    page.offset + |page.items| >= page.total
  }

  // ---------------------------------------------------------------------
  // What pagination fetches, and where it asks for it
  // ---------------------------------------------------------------------

  /** The items a call brought back: those of a page request the endpoint
      answered, nothing for any other call. */
  function ItemsOf<T>(ep: Endpoint<Spotify.Paging<T>>, call: Call): seq<T> {
    if call.Invoke? && ep.invoke(call.name, call.args, call.accessToken).Success?
    then ep.invoke(call.name, call.args, call.accessToken).value.items
    else []
  }

  /** The items of every answered request in a trace, in arrival order. */
  function Fetched<T>(ep: Endpoint<Spotify.Paging<T>>, trace: seq<Call>): seq<T> {
    if trace == [] then [] else ItemsOf(ep, trace[0]) + Fetched(ep, trace[1..])
  }

  /** Every request in `trace` asks for the tracks of `albumId` at `start`
      plus the number of items fetched before it. */
  predicate RequestedFrom<T>(ep: Endpoint<Spotify.Paging<T>>, albumId: string, start: nat, trace: seq<Call>)
    decreases |trace|
  {
    trace != [] ==>
      && (trace[0].Invoke? ==> trace[0].name == "getAlbumTracks" && trace[0].args == AlbumTracks(albumId, Some(start)))
      && RequestedFrom(ep, albumId, start + |ItemsOf(ep, trace[0])|, trace[1..])
  }

  lemma {:induction false} FetchedAppend<T>(ep: Endpoint<Spotify.Paging<T>>, a: seq<Call>, b: seq<Call>)
    ensures Fetched(ep, a + b) == Fetched(ep, a) + Fetched(ep, b)
    decreases |a|
  {
    if a == [] {
      Seqs.AppendEmpty(b);
      Seqs.AppendEmpty(Fetched(ep, b));
    } else {
      Seqs.DropFirstAppend(a, b);
      FetchedAppend(ep, a[1..], b);
      Seqs.AppendAssociative(ItemsOf(ep, a[0]), Fetched(ep, a[1..]), Fetched(ep, b));
    }
  }

  lemma {:induction false} RequestedFromAppend<T>(ep: Endpoint<Spotify.Paging<T>>, albumId: string, start: nat,
                                                  a: seq<Call>, b: seq<Call>)
    requires RequestedFrom(ep, albumId, start, a)
    requires RequestedFrom(ep, albumId, start + |Fetched(ep, a)|, b)
    ensures RequestedFrom(ep, albumId, start, a + b)
    decreases |a|
  {
    if a == [] {
      Seqs.AppendEmpty(b);
    } else {
      Seqs.DropFirstAppend(a, b);
      RequestedFromAppend(ep, albumId, start + |ItemsOf(ep, a[0])|, a[1..], b);
    }
  }

  /** A trace without SDK invocations fetches nothing and requests nothing. */
  lemma {:induction false} NoInvocationsFetchNothing<T>(ep: Endpoint<Spotify.Paging<T>>, albumId: string, start: nat,
                                                        trace: seq<Call>)
    requires Invocations(trace) == 0
    ensures Fetched(ep, trace) == []
    ensures RequestedFrom(ep, albumId, start, trace)
    decreases |trace|
  {
    if trace != [] {
      NoInvocationsFetchNothing(ep, albumId, start, trace[1..]);
    }
  }

  /** `RequestedFrom` read position by position: the request at index `k`
      asks for the offset `start + |Fetched(ep, trace[..k])|`. */
  lemma {:induction false} RequestedFromAt<T>(ep: Endpoint<Spotify.Paging<T>>, albumId: string, start: nat,
                                              trace: seq<Call>, k: nat)
    requires RequestedFrom(ep, albumId, start, trace)
    requires k < |trace| && trace[k].Invoke?
    ensures trace[k].name == "getAlbumTracks"
    ensures trace[k].args == AlbumTracks(albumId, Some(start + |Fetched(ep, trace[..k])|))
    decreases k
  {
    if k > 0 {
      RequestedFromAt(ep, albumId, start + |ItemsOf(ep, trace[0])|, trace[1..], k - 1);
      assert trace[..k] == [trace[0]] + trace[1..][..k - 1];
      assert Fetched(ep, trace[..k]) == ItemsOf(ep, trace[0]) + Fetched(ep, trace[1..][..k - 1]);
    }
  }

  /** One attempt fetches the page it answers, and nothing when it fails. */
  lemma AttemptFetches<T>(s: Session, ep: Endpoint<Spotify.Paging<T>>, auth: AuthServer, name: string, args: Args)
    ensures var a := Attempt(s, ep, auth, name, args);
      Fetched(ep, a.trace) == (if a.result.Success? then a.result.value.items else [])
  {
    var g := GetRpcApi(s, auth);
    GetRpcApiCaches(s, auth);
    NoInvocationsFetchNothing(ep, "", 0, g.trace);
    if g.result.Success? && name in ep.methods {
      var call := Invoke(name, args, g.result.value.accessToken);
      assert Attempt(s, ep, auth, name, args) == Step(g.session, ep.invoke(name, args, call.accessToken), g.trace + [call]);
      FetchedAppend(ep, g.trace, [call]);
      assert Fetched(ep, [call]) == ItemsOf(ep, call) + Fetched(ep, []);
      Seqs.AppendEmpty(ItemsOf(ep, call));
    }
  }

  /** An attempt at a page request asks for the page's offset. */
  lemma AttemptRequests<T>(s: Session, ep: Endpoint<Spotify.Paging<T>>, auth: AuthServer, albumId: string, start: nat)
    ensures RequestedFrom(ep, albumId, start, Attempt(s, ep, auth, "getAlbumTracks", AlbumTracks(albumId, Some(start))).trace)
  {
    var args := AlbumTracks(albumId, Some(start));
    var g := GetRpcApi(s, auth);
    GetRpcApiCaches(s, auth);
    NoInvocationsFetchNothing(ep, albumId, start, g.trace);
    if g.result.Success? && "getAlbumTracks" in ep.methods {
      var call := Invoke("getAlbumTracks", args, g.result.value.accessToken);
      assert Attempt(s, ep, auth, "getAlbumTracks", args).trace == g.trace + [call];
      assert RequestedFrom(ep, albumId, start, [call]) by {
        assert [call][1..] == [];
      }
      RequestedFromAppend(ep, albumId, start, g.trace, [call]);
    }
  }

  /** `apiCall` fetches exactly the page it returns: a failed first try
      brings nothing back. */
  lemma {:induction false} ApiCallFetches<T>(s: Session, ep: Endpoint<Spotify.Paging<T>>, auth: AuthServer, name: string,
                                             args: Args, attempt: nat)
    ensures var r := ApiCall(s, ep, auth, name, args, attempt);
      Fetched(ep, r.trace) == if r.result.Success? then r.result.value.items else []
    decreases if attempt == 0 then 1 else 0
  {
    var a := Attempt(s, ep, auth, name, args);
    AttemptFetches(s, ep, auth, name, args);
    if a.result.Failure? && IsUnauthorized(a.result.error) && attempt == 0 {
      var f := RefreshAccess(a.session, auth);
      NoInvocationsFetchNothing(ep, "", 0, f.trace);
      FetchedAppend(ep, a.trace, f.trace);
      if f.result.Success? {
        var b := ApiCall(f.session, ep, auth, name, args, attempt + 1);
        ApiCallFetches(f.session, ep, auth, name, args, attempt + 1);
        FetchedAppend(ep, a.trace + f.trace, b.trace);
        assert ApiCall(s, ep, auth, name, args, attempt).trace == a.trace + f.trace + b.trace;
        assert ApiCall(s, ep, auth, name, args, attempt).result == b.result;
      } else {
        assert ApiCall(s, ep, auth, name, args, attempt).trace == a.trace + f.trace;
      }
    }
  }

  /** Three traces in a row, the first two fetching nothing, request from
      the same offset when each does. */
  lemma RequestedFromThree<T>(ep: Endpoint<Spotify.Paging<T>>, albumId: string, start: nat,
                              x: seq<Call>, y: seq<Call>, z: seq<Call>)
    requires RequestedFrom(ep, albumId, start, x) && Fetched(ep, x) == []
    requires RequestedFrom(ep, albumId, start, y) && Fetched(ep, y) == []
    requires RequestedFrom(ep, albumId, start, z)
    ensures RequestedFrom(ep, albumId, start, x + y + z)
  {
    RequestedFromAppend(ep, albumId, start, x, y);
    FetchedAppend(ep, x, y);
    RequestedFromAppend(ep, albumId, start, x + y, z);
  }

  /** Every try of a page request asks for the same offset. */
  lemma {:induction false} ApiCallRequests<T>(s: Session, ep: Endpoint<Spotify.Paging<T>>, auth: AuthServer,
                                              attempt: nat, albumId: string, start: nat)
    ensures var r := ApiCall(s, ep, auth, "getAlbumTracks", AlbumTracks(albumId, Some(start)), attempt);
      RequestedFrom(ep, albumId, start, r.trace)
    decreases if attempt == 0 then 1 else 0
  {
    var args := AlbumTracks(albumId, Some(start));
    var a := Attempt(s, ep, auth, "getAlbumTracks", args);
    AttemptRequests(s, ep, auth, albumId, start);
    AttemptFetches(s, ep, auth, "getAlbumTracks", args);
    if a.result.Failure? && IsUnauthorized(a.result.error) && attempt == 0 {
      var f := RefreshAccess(a.session, auth);
      NoInvocationsFetchNothing(ep, albumId, start, f.trace);
      if f.result.Success? {
        var b := ApiCall(f.session, ep, auth, "getAlbumTracks", args, attempt + 1);
        ApiCallRequests(f.session, ep, auth, attempt + 1, albumId, start);
        RequestedFromThree(ep, albumId, start, a.trace, f.trace, b.trace);
        assert ApiCall(s, ep, auth, "getAlbumTracks", args, attempt).trace == a.trace + f.trace + b.trace;
      } else {
        Seqs.AppendEmpty(f.trace);
        RequestedFromThree(ep, albumId, start, a.trace, f.trace, []);
        assert ApiCall(s, ep, auth, "getAlbumTracks", args, attempt).trace == a.trace + f.trace + [];
      }
    }
  }

  /** One turn of the pagination loop, when its request asked for `start`
      and fetched `more`: the turn and the rest of the loop together ask for
      the right offsets, and append what the request fetched, then what the
      rest fetches. */
  lemma NextPageFetches(ep: Endpoint<Spotify.Paging<Spotify.Track>>, albumId: string, start: nat,
                        items: seq<Spotify.Track>, first: seq<Call>, more: seq<Spotify.Track>, rest: seq<Call>)
    requires RequestedFrom(ep, albumId, start + |more|, rest)
    ensures RequestedFrom(ep, albumId, start, first) && Fetched(ep, first) == more ==>
      && RequestedFrom(ep, albumId, start, first + rest)
      && items + more + Fetched(ep, rest) == items + Fetched(ep, first + rest)
  {
    if RequestedFrom(ep, albumId, start, first) && Fetched(ep, first) == more {
      RequestedFromAppend(ep, albumId, start, first, rest);
      FetchedAppend(ep, first, rest);
      Seqs.AppendAssociative(items, more, Fetched(ep, rest));
    }
  }

  /** `c` is what the request for a page did: it kept the session's
      tokens and, on success, answered a non-empty page. */
  ghost predicate PageAnswer(s: Session, c: Step<Spotify.Paging<Spotify.Track>>) {
    Keeps(s, c.session) && (c.result.Success? ==> c.result.value.items != [])
  }

  /** `c` asked only for the page at `start`, and what it fetched is the
      page it answered. */
  ghost predicate FetchedAt(ep: Endpoint<Spotify.Paging<Spotify.Track>>, albumId: string, start: nat,
                            c: Step<Spotify.Paging<Spotify.Track>>) {
    RequestedFrom(ep, albumId, start, c.trace) && (c.result.Success? ==> Fetched(ep, c.trace) == c.result.value.items)
  }

  /** The request for the page at `start`: it asks for that offset, and on
      success it answers a non-empty page whose items are what it fetched. */
  lemma PageRequest(s: Session, ep: Endpoint<Spotify.Paging<Spotify.Track>>, auth: AuthServer,
                    albumId: string, start: nat, total: int)
    requires NonEmptyBelow(ep, albumId, total)
    requires start < total
    ensures var c := ApiCall(s, ep, auth, "getAlbumTracks", AlbumTracks(albumId, Some(start)), 0);
      PageAnswer(s, c) && FetchedAt(ep, albumId, start, c)
  {
    var c := ApiCall(s, ep, auth, "getAlbumTracks", AlbumTracks(albumId, Some(start)), 0);
    ApiCallFetches(s, ep, auth, "getAlbumTracks", AlbumTracks(albumId, Some(start)), 0);
    ApiCallRequests(s, ep, auth, 0, albumId, start);
    if c.result.Success? {
      assert ep.invoke("getAlbumTracks", AlbumTracks(albumId, Some(start)), c.session.rpcApi.value.accessToken) == c.result;
    }
  }

  /** The `while` loop of `getRemainingTracks`: while `offset + items.length
      < total`, request the page at `offset + items.length` and append its
      items. On success the page is complete, keeps its offset and total,
      and its items are those it had followed by every item fetched, in
      arrival order. Every request asks for the offset after the items held
      at that point. */
  function RemainingPages(s: Session, ep: Endpoint<Spotify.Paging<Spotify.Track>>, auth: AuthServer,
                          albumId: string, page: Spotify.Paging<Spotify.Track>): (r: Step<Spotify.Paging<Spotify.Track>>)
    requires NonEmptyBelow(ep, albumId, page.total)
    ensures r.result.Success? ==>
      && Complete(r.result.value)
      && r.result.value.offset == page.offset
      && r.result.value.total == page.total
      && page.items <= r.result.value.items
    ensures r.result.Success? ==> r.result.value == page.(items := page.items + Fetched(ep, r.trace))
    ensures RequestedFrom(ep, albumId, page.offset + |page.items|, r.trace)
    ensures Keeps(s, r.session)
    decreases page.total - (page.offset + |page.items|), 1
  {
    if Complete(page) then
      Seqs.AppendEmpty(page.items);
      NoInvocationsFetchNothing(ep, albumId, page.offset + |page.items|, []);
      Step(s, Success(page), [])
    else
      var start := page.offset + |page.items|;
      var c := ApiCall(s, ep, auth, "getAlbumTracks", AlbumTracks(albumId, Some(start)), 0);
      assert PageAnswer(s, c) && FetchedAt(ep, albumId, start, c) by { PageRequest(s, ep, auth, albumId, start, page.total); }
      NextPage(s, ep, auth, albumId, page, c)
  }

  /** The rest of one turn of the pagination loop, once the request `c`
      for the page at `offset + items.length` has answered: stop on a
      failure, otherwise append the page's items and go on. */
  function NextPage(s: Session, ep: Endpoint<Spotify.Paging<Spotify.Track>>, auth: AuthServer,
                    albumId: string, page: Spotify.Paging<Spotify.Track>,
                    c: Step<Spotify.Paging<Spotify.Track>>): (r: Step<Spotify.Paging<Spotify.Track>>)
    requires NonEmptyBelow(ep, albumId, page.total)
    requires !Complete(page)
    requires PageAnswer(s, c)
    ensures r.result.Success? ==>
      && Complete(r.result.value)
      && r.result.value.offset == page.offset
      && r.result.value.total == page.total
      && page.items <= r.result.value.items
    ensures FetchedAt(ep, albumId, page.offset + |page.items|, c) ==>
      && (r.result.Success? ==> r.result.value == page.(items := page.items + Fetched(ep, r.trace)))
      && RequestedFrom(ep, albumId, page.offset + |page.items|, r.trace)
    ensures Keeps(s, r.session)
    decreases page.total - (page.offset + |page.items|), 0
  {
    match c.result
    case Failure(e) => Step(c.session, Failure(e), c.trace)
    case Success(next) =>
      var longer := page.(items := page.items + next.items);
      var rest := RemainingPages(c.session, ep, auth, albumId, longer);
      NextPageFetches(ep, albumId, page.offset + |page.items|, page.items, c.trace, next.items, rest.trace);
      Step(rest.session, rest.result, c.trace + rest.trace)
  }

  /** The request for a page below the total keeps the session's tokens
      and answers a non-empty page. */
  lemma PageRequestNonEmpty(s: Session, ep: Endpoint<Spotify.Paging<Spotify.Track>>, auth: AuthServer,
                            albumId: string, start: nat, total: int)
    requires NonEmptyBelow(ep, albumId, total)
    requires start < total
    ensures PageAnswer(s, ApiCall(s, ep, auth, "getAlbumTracks", AlbumTracks(albumId, Some(start)), 0))
  {
    var c := ApiCall(s, ep, auth, "getAlbumTracks", AlbumTracks(albumId, Some(start)), 0);
    if c.result.Success? {
      assert ep.invoke("getAlbumTracks", AlbumTracks(albumId, Some(start)), c.session.rpcApi.value.accessToken) == c.result;
    }
  }

  /** One turn of the pagination loop on an incomplete page, once the
      request `c` for the page at `offset + items.length` has answered: a
      failure ends the loop with that error, a page is appended and the
      loop goes on from the longer page. */
  lemma RemainingPagesTurn(s: Session, ep: Endpoint<Spotify.Paging<Spotify.Track>>, auth: AuthServer,
                           albumId: string, page: Spotify.Paging<Spotify.Track>,
                           c: Step<Spotify.Paging<Spotify.Track>>)
    requires NonEmptyBelow(ep, albumId, page.total)
    requires !Complete(page)
    requires c == ApiCall(s, ep, auth, "getAlbumTracks", AlbumTracks(albumId, Some(page.offset + |page.items|)), 0)
    requires PageAnswer(s, c)
    ensures c.result.Failure? ==> RemainingPages(s, ep, auth, albumId, page) == Step(c.session, Failure(c.result.error), c.trace)
    ensures c.result.Success? ==>
      var rest := RemainingPages(c.session, ep, auth, albumId, page.(items := page.items + c.result.value.items));
      RemainingPages(s, ep, auth, albumId, page) == Step(rest.session, rest.result, c.trace + rest.trace)
  {
    var r := RemainingPages(s, ep, auth, albumId, page);
    assert r == NextPage(s, ep, auth, albumId, page, c);
    if c.result.Success? {
      var rest := RemainingPages(c.session, ep, auth, albumId, page.(items := page.items + c.result.value.items));
      assert r == Step(rest.session, rest.result, c.trace + rest.trace);
    }
  }

  /** Without a first page, the first page the endpoint answers has no
      empty page below its total. */
  lemma FirstPageNonEmpty(s: Session, ep: Endpoint<Spotify.Paging<Spotify.Track>>, auth: AuthServer,
                          album: Spotify.Album)
    requires TracksNonEmpty(ep, album)
    requires album.tracks.None?
    ensures var c := ApiCall(s, ep, auth, "getAlbumTracks", AlbumTracks(album.id, None), 0);
      c.result.Success? ==> NonEmptyBelow(ep, album.id, c.result.value.total)
  {
    var c := ApiCall(s, ep, auth, "getAlbumTracks", AlbumTracks(album.id, None), 0);
    if c.result.Success? {
      assert ep.invoke("getAlbumTracks", AlbumTracks(album.id, None), c.session.rpcApi.value.accessToken) == c.result;
    }
  }

  /** The album the album endpoint answers satisfies `TracksNonEmpty`. */
  lemma AnsweredAlbumNonEmpty(s: Session, albums: Endpoint<Spotify.Album>, tracks: Endpoint<Spotify.Paging<Spotify.Track>>,
                              auth: AuthServer, albumId: string)
    requires AlbumTracksNonEmpty(albums, tracks, albumId)
    ensures var a := ApiCall(s, albums, auth, "getAlbum", AlbumId(albumId), 0);
      a.result.Success? ==> TracksNonEmpty(tracks, a.result.value)
  {
    var a := ApiCall(s, albums, auth, "getAlbum", AlbumId(albumId), 0);
    if a.result.Success? {
      assert albums.invoke("getAlbum", AlbumId(albumId), a.session.rpcApi.value.accessToken) == a.result;
    }
  }

  /** `getRemainingTracks`: fetch the first page when `tracks` is absent,
      then complete it. */
  function RemainingTracks(s: Session, ep: Endpoint<Spotify.Paging<Spotify.Track>>, auth: AuthServer,
                           album: Spotify.Album): (r: Step<Spotify.Album>)
    requires TracksNonEmpty(ep, album)
    ensures r.result.Success? ==>
      && r.result.value.id == album.id
      && r.result.value.totalTracks == album.totalTracks
      && r.result.value.tracks.Some?
      && Complete(r.result.value.tracks.value)
      && (album.tracks.Some? ==> album.tracks.value.items <= r.result.value.tracks.value.items)
    ensures album.tracks.Some? ==>
      var page := album.tracks.value;
      && RequestedFrom(ep, album.id, page.offset + |page.items|, r.trace)
      && (r.result.Success? ==>
            r.result.value == album.(tracks := Some(page.(items := page.items + Fetched(ep, r.trace)))))
    ensures Keeps(s, r.session)
  {
    match album.tracks
    case Some(page) =>
      var p := RemainingPages(s, ep, auth, album.id, page);
      Step(p.session, match p.result case Failure(e) => Failure(e) case Success(v) => Success(album.(tracks := Some(v))), p.trace)
    case None =>
      var c := ApiCall(s, ep, auth, "getAlbumTracks", AlbumTracks(album.id, None), 0);
      FirstPageNonEmpty(s, ep, auth, album);
      match c.result
      case Failure(e) => Step(c.session, Failure(e), c.trace)
      case Success(first) =>
        var p := RemainingPages(c.session, ep, auth, album.id, first);
        Step(p.session, match p.result case Failure(e) => Failure(e) case Success(v) => Success(album.(tracks := Some(v))), c.trace + p.trace)
  }

  /** `getAlbum`: the album request, then `getRemainingTracks` on the
      album it answers. On success the album's tracks are complete. */
  function GetAlbum(s: Session, albums: Endpoint<Spotify.Album>, tracks: Endpoint<Spotify.Paging<Spotify.Track>>,
                    auth: AuthServer, albumId: string): (r: Step<Spotify.Album>)
    requires AlbumTracksNonEmpty(albums, tracks, albumId)
    ensures r.result.Success? ==> r.result.value.tracks.Some? && Complete(r.result.value.tracks.value)
    ensures Keeps(s, r.session)
  {
    var a := ApiCall(s, albums, auth, "getAlbum", AlbumId(albumId), 0);
    match a.result
    case Failure(e) => a
    case Success(album) =>
      AnsweredAlbumNonEmpty(s, albums, tracks, auth, albumId);
      var t := RemainingTracks(a.session, tracks, auth, album);
      Step(t.session, t.result, a.trace + t.trace)
  }

  /** `getRemainingTracks` on an album without a first page: the first page
      is requested with no offset, and the loop continues from its answer. */
  lemma RemainingTracksWithoutPage(s: Session, ep: Endpoint<Spotify.Paging<Spotify.Track>>, auth: AuthServer,
                                   album: Spotify.Album)
    requires TracksNonEmpty(ep, album)
    requires album.tracks.None?
    ensures var r := RemainingTracks(s, ep, auth, album);
      var c := ApiCall(s, ep, auth, "getAlbumTracks", AlbumTracks(album.id, None), 0);
      && c.trace <= r.trace
      && (c.result.Success? ==>
            var first := c.result.value;
            RequestedFrom(ep, album.id, first.offset + |first.items|, r.trace[|c.trace|..]))
  {
    var c := ApiCall(s, ep, auth, "getAlbumTracks", AlbumTracks(album.id, None), 0);
    if c.result.Success? {
      var p := RemainingPages(c.session, ep, auth, album.id, c.result.value);
      assert RemainingTracks(s, ep, auth, album).trace == c.trace + p.trace;
      assert (c.trace + p.trace)[|c.trace|..] == p.trace;
    }
  }

  /** Without a first page, the tracks `getRemainingTracks` ends with are
      every item fetched, in arrival order. */
  lemma RemainingTracksWithoutPageFetches(s: Session, ep: Endpoint<Spotify.Paging<Spotify.Track>>, auth: AuthServer,
                                          album: Spotify.Album)
    requires TracksNonEmpty(ep, album)
    requires album.tracks.None?
    ensures var r := RemainingTracks(s, ep, auth, album);
      r.result.Success? ==>
        && r.result.value.tracks.Some?
        && r.result.value.tracks.value.items == Fetched(ep, r.trace)
  {
    var c := ApiCall(s, ep, auth, "getAlbumTracks", AlbumTracks(album.id, None), 0);
    ApiCallFetches(s, ep, auth, "getAlbumTracks", AlbumTracks(album.id, None), 0);
    if c.result.Success? {
      var first := c.result.value;
      var p := RemainingPages(c.session, ep, auth, album.id, first);
      assert RemainingTracks(s, ep, auth, album).trace == c.trace + p.trace;
      FetchedAppend(ep, c.trace, p.trace);
      Seqs.AppendEmpty(first.items);
    }
  }

  /** A successful attempt ends with the invocation that answered it. */
  lemma AttemptLastInvoke<T>(s: Session, ep: Endpoint<T>, auth: AuthServer, name: string, args: Args)
    ensures var a := Attempt(s, ep, auth, name, args);
      a.result.Success? ==>
        a.trace != [] && a.trace[|a.trace| - 1] == Invoke(name, args, a.session.rpcApi.value.accessToken)
  {
    var g := GetRpcApi(s, auth);
    GetRpcApiCaches(s, auth);
    if g.result.Success? && name in ep.methods {
      Seqs.LastAppend(g.trace, [Invoke(name, args, g.result.value.accessToken)]);
    }
  }

  /** A successful `apiCall` ends with the invocation that answered it. */
  lemma {:induction false} ApiCallLastInvoke<T>(s: Session, ep: Endpoint<T>, auth: AuthServer, name: string,
                                                args: Args, attempt: nat)
    ensures var r := ApiCall(s, ep, auth, name, args, attempt);
      r.result.Success? ==>
        r.trace != [] && r.trace[|r.trace| - 1] == Invoke(name, args, r.session.rpcApi.value.accessToken)
    decreases if attempt == 0 then 1 else 0
  {
    var a := Attempt(s, ep, auth, name, args);
    AttemptLastInvoke(s, ep, auth, name, args);
    if a.result.Failure? && IsUnauthorized(a.result.error) && attempt == 0 {
      var f := RefreshAccess(a.session, auth);
      if f.result.Success? {
        var b := ApiCall(f.session, ep, auth, name, args, attempt + 1);
        ApiCallLastInvoke(f.session, ep, auth, name, args, attempt + 1);
        if b.result.Success? {
          Seqs.LastAppend(a.trace + f.trace, b.trace);
        }
      }
    }
  }

  /** `getAlbum` answers the album the endpoint returned for the id, with
      only its tracks completed: those it came with, followed by every item
      fetched after the album request. */
  lemma GetAlbumAnswers(s: Session, albums: Endpoint<Spotify.Album>, tracks: Endpoint<Spotify.Paging<Spotify.Track>>,
                        auth: AuthServer, albumId: string)
    requires AlbumTracksNonEmpty(albums, tracks, albumId)
    ensures var r := GetAlbum(s, albums, tracks, auth, albumId);
      r.result.Success? ==>
        exists k, token, album ::
          && 0 <= k < |r.trace|
          && r.trace[k] == Invoke("getAlbum", AlbumId(albumId), token)
          && albums.invoke("getAlbum", AlbumId(albumId), token) == Success(album)
          && r.result.value == album.(tracks := r.result.value.tracks)
          && (album.tracks.Some? ==>
                r.result.value.tracks.value.items == album.tracks.value.items + Fetched(tracks, r.trace[k + 1..]))
          && (album.tracks.None? ==>
                r.result.value.tracks.value.items == Fetched(tracks, r.trace[k + 1..]))
  {
    var r := GetAlbum(s, albums, tracks, auth, albumId);
    var a := ApiCall(s, albums, auth, "getAlbum", AlbumId(albumId), 0);
    if r.result.Success? {
      var album := a.result.value;
      ApiCallLastInvoke(s, albums, auth, "getAlbum", AlbumId(albumId), 0);
      var t := RemainingTracks(a.session, tracks, auth, album);
      if album.tracks.None? {
        RemainingTracksWithoutPageFetches(a.session, tracks, auth, album);
      }
      var k := |a.trace| - 1;
      assert r.trace[k] == a.trace[k];
      assert r.trace[k + 1..] == t.trace;
    }
  }

  // ---------------------------------------------------------------------
  // The album search text
  // ---------------------------------------------------------------------

  /** One key of an `IAlbumSearchQuery`, in insertion order; an undefined
      value is the empty string. */
  datatype QueryField = QueryField(key: string, value: string)

  /** `${key}:"${value}"`. */
  function RenderField(field: QueryField): string {
    field.key + ":\"" + field.value + "\""
  }

  /** The fields whose value is truthy, in order. */
  function FilledFields(fields: seq<QueryField>): (r: seq<QueryField>)
    ensures forall k :: 0 <= k < |r| ==> r[k].value != ""
    ensures |r| <= |fields|
  {
    if fields == [] then []
    else (if fields[0].value != "" then [fields[0]] else []) + FilledFields(fields[1..])
  }

  function RenderFields(fields: seq<QueryField>): (r: seq<string>)
    ensures |r| == |fields|
    ensures forall k :: 0 <= k < |r| ==> r[k] == RenderField(fields[k])
  {
    seq(|fields|, k requires 0 <= k < |fields| => RenderField(fields[k]))
  }

  /** The query text `searchAlbums` sends. */
  function SearchQueryText(fields: seq<QueryField>): (r: string)
    ensures r == "" <==> FilledFields(fields) == []
    ensures FilledFields(fields) != [] ==> RenderField(FilledFields(fields)[0]) <= r
  {
    var parts := RenderFields(FilledFields(fields));
    if parts != [] then JoinStartsWithFirst(parts, " "); Join(parts, " ")
    else Join(parts, " ")
  }

  lemma {:induction false} FilledFieldsAppend(a: seq<QueryField>, b: seq<QueryField>)
    ensures FilledFields(a + b) == FilledFields(a) + FilledFields(b)
    decreases |a|
  {
    if a == [] {
      Seqs.AppendEmpty(b);
    } else {
      FilledFieldsAppend(a[1..], b);
      Seqs.DropFirstAppend(a, b);
      var head := if a[0].value != "" then [a[0]] else [];
      Seqs.AppendAssociative(head, FilledFields(a[1..]), FilledFields(b));
    }
  }

  lemma {:induction false} FilledFieldsEmpty(fields: seq<QueryField>)
    ensures FilledFields(fields) == [] <==> forall k :: 0 <= k < |fields| ==> fields[k].value == ""
    decreases |fields|
  {
    if fields != [] {
      FilledFieldsEmpty(fields[1..]);
      assert forall k :: 1 <= k < |fields| ==> fields[k] == fields[1..][k - 1];
    }
  }

  /** The query text is empty exactly when every value is undefined or
      empty. */
  lemma SearchQueryTextEmpty(fields: seq<QueryField>)
    ensures SearchQueryText(fields) == "" <==> forall k :: 0 <= k < |fields| ==> fields[k].value == ""
  {
    FilledFieldsEmpty(fields);
    var parts := RenderFields(FilledFields(fields));
    if parts != [] {
      JoinStartsWithFirst(parts, " ");
      assert |parts[0]| > 0;
    }
  }

  /** A field whose value is undefined or empty leaves the text as it is. */
  lemma EmptyFieldIgnored(before: seq<QueryField>, key: string, after: seq<QueryField>)
    ensures SearchQueryText(before + [QueryField(key, "")] + after) == SearchQueryText(before + after)
  {
    var empty := [QueryField(key, "")];
    assert empty[1..] == [];
    assert FilledFields(empty) == [];
    FilledFieldsAppend(before + empty, after);
    FilledFieldsAppend(before, empty);
    FilledFieldsAppend(before, after);
    assert FilledFields(before + empty) == FilledFields(before);
    assert FilledFields(before + empty + after) == FilledFields(before + after);
  }

  /** One filled field renders as its `key:"value"` pair alone. */
  lemma SearchQueryTextOneField(field: QueryField)
    requires field.value != ""
    ensures SearchQueryText([field]) == RenderField(field)
  {
    assert [field][1..] == [];
    assert FilledFields([field]) == [field];
  }

  /** Two filled fields are rendered in order, separated by one space. */
  lemma SearchQueryTextTwoFields(first: QueryField, second: QueryField)
    requires first.value != "" && second.value != ""
    ensures SearchQueryText([first, second]) == RenderField(first) + " " + RenderField(second)
  {
    var fields := [first, second];
    assert FilledFields(fields[1..]) == [second] by {
      assert fields[1..][1..] == [];
    }
    assert FilledFields(fields) == fields;
    var parts := RenderFields(fields);
    assert |parts[1..]| == 1 && parts[1..][0] == RenderField(second);
    assert Join(parts, " ") == RenderField(first) + " " + Join(parts[1..], " ");
  }

  // ---------------------------------------------------------------------
  // The authorization-code flow
  // ---------------------------------------------------------------------

  /** The scopes the authorization request asks for. */
  const SCOPES: seq<string> := ["playlist-read-private", "user-read-private", "user-read-email",
    "playlist-read-collaborative", "user-follow-modify", "user-library-read", "user-read-recently-played"]

  /** The authorization request of section 4.1.1 of RFC 6749, before the
      SDK renders it as a URL. */
  datatype AuthorizeRequest = AuthorizeRequest(redirectUri: string, scopes: seq<string>, state: string)

  /** `createAuthorizeURL` with `token` as the random state: the state is
      mapped to the path to return to, and a new authorization-flow handle
      for the redirect URI replaces the old one. */
  function CreateAuthorizeURL(s: Session, redirectUri: string, redirectPath: string, token: string): (r: (Session, AuthorizeRequest))
    ensures r.0.clientTokens == s.clientTokens[token := redirectPath]
    ensures r.0.authenticationApi == Some(AuthApi(redirectUri, ""))
    ensures r.0.rpcApi == s.rpcApi && r.0.tokenFile == s.tokenFile
    ensures r.1 == AuthorizeRequest(redirectUri, SCOPES, token)
    ensures Valid(r.0)
  {
    (s.(clientTokens := s.clientTokens[token := redirectPath], authenticationApi := Some(AuthApi(redirectUri, ""))),
     AuthorizeRequest(redirectUri, SCOPES, token))
  }

  /** The state names a pending request with a path to return to. */
  predicate Pending(s: Session, state: string) {
    state in s.clientTokens && s.clientTokens[state] != ""
  }

  /** `authorizeUserCallback`: the code and the state must be present and
      the state pending; the state is consumed before the code is exchanged
      with the redirect URI of the current authorization-flow handle, and
      the path it was mapped to is returned once the tokens are handled. */
  function AuthorizeUserCallback(s: Session, auth: AuthServer, code: string, state: string): (r: Step<string>)
    ensures r.result.Success? ==> Pending(s, state) && r.result.value == s.clientTokens[state]
    ensures r.session.clientTokens ==
      if code != "" && state != "" && Pending(s, state) then s.clientTokens - {state} else s.clientTokens
    ensures !(code != "" && state != "" && Pending(s, state)) ==> r.session == s && r.trace == []
    ensures s.authenticationApi.Some? ==> r.session.authenticationApi.Some?
    ensures Valid(s) ==> Valid(r.session)
    ensures Refreshes(r.trace) == 0 && Invocations(r.trace) == 0
  {
    if code == "" then Step(s, Failure(CODE_MISSING), [])
    else if state == "" then Step(s, Failure(STATE_MISSING), [])
    else if !Pending(s, state) then Step(s, Failure(STATE_MISMATCH), [])
    else
      var redirectPath := s.clientTokens[state];
      var consumed := s.(clientTokens := s.clientTokens - {state});
      match consumed.authenticationApi
      case None => Step(consumed, Failure(NO_AUTHENTICATION_API), [])
      case Some(api) =>
        var grant := CodeGrant(code, api.redirectUri);
        match auth.codeGrant(code, api.redirectUri)
        case Failure(e) => Step(consumed, Failure(e), [grant])
        case Success(resp) =>
          var h := HandleAuthenticationResponse(consumed, resp);
          CountsAppend([grant], h.trace);
          Step(h.session, Success(redirectPath), [grant] + h.trace)
  }

  /** A state cannot be used twice: whatever the first callback did, the
      second one is rejected as a mismatch and changes nothing. */
  lemma StateIsSingleUse(s: Session, auth: AuthServer, code: string, state: string, code2: string)
    requires code != "" && state != "" && code2 != ""
    ensures var first := AuthorizeUserCallback(s, auth, code, state);
      var second := AuthorizeUserCallback(first.session, auth, code2, state);
      && second.result == Failure(STATE_MISMATCH)
      && second.session == first.session
      && second.trace == []
  {
  }

  /** Completing a request made by `createAuthorizeURL`: on a valid session
      the code is exchanged with that request's redirect URI, the state is
      consumed, and on success the stored path comes back and the new
      access token is in use. */
  lemma AuthorizeThenCallback(s: Session, auth: AuthServer, redirectUri: string, redirectPath: string,
                              token: string, code: string)
    requires token != "" && redirectPath != "" && code != ""
    ensures var (s1, request) := CreateAuthorizeURL(s, redirectUri, redirectPath, token);
      var r := AuthorizeUserCallback(s1, auth, code, request.state);
      && r.trace != [] && r.trace[0] == CodeGrant(code, redirectUri)
      && token !in r.session.clientTokens
      && (auth.codeGrant(code, redirectUri).Success? ==>
            && r.result == Success(redirectPath)
            && r.session.rpcApi == Some(RpcApi(auth.codeGrant(code, redirectUri).value.accessToken)))
      && (auth.codeGrant(code, redirectUri).Failure? ==> r.result == Failure(auth.codeGrant(code, redirectUri).error))
  {
  }

  /** On a valid session a pending state always reaches the token
      endpoint: the unset-handle branch cannot be taken. */
  lemma PendingStateReachesGrant(s: Session, auth: AuthServer, code: string, state: string)
    requires Valid(s)
    requires code != "" && state != "" && Pending(s, state)
    ensures AuthorizeUserCallback(s, auth, code, state).trace == [CodeGrant(code, s.authenticationApi.value.redirectUri)]
      + (match auth.codeGrant(code, s.authenticationApi.value.redirectUri)
         case Failure(_) => []
         case Success(resp) => HandleAuthenticationResponse(s.(clientTokens := s.clientTokens - {state}), resp).trace)
  {
    assert s.clientTokens != map[];
  }
}
