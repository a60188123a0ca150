# musicbrainz-augmentation: the Spotify matcher and session, in Dafny

This project models the core of musicbrainz-augmentation, a tool that
enriches MusicBrainz releases with data from Spotify: ISRCs (International
Standard Recording Codes) and links from recordings to Spotify tracks. The
project proves properties of the model.

The model has two parts.

- `src/AugmentFromSpotify.ts` decides whether a MusicBrainz release and a
  Spotify album are the same physical release (`isSameRelease` and its
  helpers). It finds the Spotify albums that match a release: the release's
  own Spotify album links, optionally validated, and otherwise a search. It
  then adds each matched Spotify track's normalized ISRC to the recording
  unless that code is already there.
- `src/spotify/SpotifyClient.ts` is the client's session. It covers:
  - the lazily created access-token handle (`rpcApi`);
  - reactive renewal after a 401, with at most one retry (`apiCall`);
  - the refresh and authorization-code grants of RFC 6749, with the
    single-use CSRF `state` map (`clientTokens`);
  - the pagination loop of `getRemainingTracks`;
  - the query text of `searchAlbums`.

Files:

| file | module | what it holds |
|---|---|---|
| `wrappers.dfy` | `Wrappers` | `Option`, `Result` |
| `seqs.dfy` | `Seqs` | generic sequence lemmas (associativity, slices) |
| `text.dfy` | `Text` | the JavaScript string operations the core uses: `trim`, `toUpperCase`, `replace` with a string and with `/-/g`, `startsWith`, `substring`, `join` |
| `spotify.dfy` | `Spotify` | Spotify records: `Paging` (`ILimitedResult`), `Track`, `Album` |
| `musicbrainz.dfy` | `MusicBrainz` | MusicBrainz records; `Recording` is a class because its `isrcs` list is changed in place |
| `release_matcher.dfy` | `ReleaseMatcher` | `isSameRelease`, `countMbReleaseTracks`, `getSpotifyTrack`, `normalizeTrackName` |
| `augment.dfy` | `AugmentFromSpotify` | id extraction and validation, `normalizeSpotifyIsrc`, the ISRC-append rule, `addIsrcsToRelease`, `augmentReleaseWithSpotifyAlbum`, `augmentRelease` |
| `spotify_session.dfy` | `SpotifySession` | each client operation as a function from a session value to `Step(new session, result, calls made)`, plus the lemmas about them |
| `spotify_client.dfy` | `Client` | class `SpotifyClient`, whose fields are updated in place. Each method is proved equal to its `SpotifySession` function |

Services outside the core are parameters whose behaviour is unknown: they
are fields of arrow type. Two promises about them are assumed rather than
proved, and "## Left out" lists both:
`AugmentFromSpotify.HandsOutTracks` and `SpotifySession.NonEmptyBelow`.

- `similarity` and `removeBrackets` from `./StringUtils` are
  `ReleaseMatcher.StringUtils`.
- The Spotify Web API SDK appears in two forms.
  - For the client it is an `Endpoint` (the method names it has, and what a
    call answers for given arguments and access token) and an `AuthServer`
    (the token endpoint).
  - For the augmentation it is `AugmentFromSpotify.SpotifyApi`.
- The token file is the field `tokenFile`. Every call out of the process is
  recorded in the ghost field `log`.
- `crypto.randomBytes` becomes a nondeterministic choice: any non-empty
  token that is not already pending.
- MusicBrainz web-service calls are left out. The release is a parameter,
  and the link requests and ISRC submission entries are results.

JavaScript falsiness is written out. An absent or empty string is `""`. A
`null` recording length counts as 0 in the duration subtraction. `find`
returning `""` counts as not found.

What the code does, in places where a reader might expect more:

- The duration check compares `duration_ms` with `recording.length` only.
  There is no fallback to the track's own length.
- The title check has no alias probing and no prefix or suffix comparison.
  It rejects at once when the score is below 0.15.
- The search sends one query: the first artist credit, if any, and the
  release title. There are no candidate sets of artists and titles.
- Pagination stops when `offset + items.length >= total`, not when the item
  count equals `total`.
- `augmentReleaseWithSpotifyAlbum` takes the album from the client's
  `getAlbum`, which already fetches every page.

## Model

| member | source | states |
|---|---|---|
| ReleaseMatcher.CountMbReleaseTracks | src/AugmentFromSpotify.ts:92-96 | the count is the sum of `tracks.length` over all media (`TotalTracks`) |
| ReleaseMatcher.PlacementsCount | src/AugmentFromSpotify.ts:42-43 | the nested loops over media and tracks visit exactly as many tracks as `countMbReleaseTracks` counts |
| ReleaseMatcher.FindTrackAt | src/AugmentFromSpotify.ts:107-113 | the first item whose `disc_number` and `track_number` equal the key is the one returned |
| ReleaseMatcher.FindTrackSpec | src/AugmentFromSpotify.ts:107-113 | the search finds nothing exactly when no item carries the key; what it finds is the first item that does |
| ReleaseMatcher.GetSpotifyTrack | src/AugmentFromSpotify.ts:107-113 | the linear search loop returns nothing exactly when no item matches (disc, track), else the first matching item |
| ReleaseMatcher.FindTrackIgnoresLaterItems | src/AugmentFromSpotify.ts:108-111 | items after the first match of a key are never consulted |
| ReleaseMatcher.NormalizeTrackName | src/AugmentFromSpotify.ts:88-90 | the name comes back unchanged exactly when it holds no "- Live"; otherwise it is exactly one "- Live" shorter |
| ReleaseMatcher.NormalizeTrackNameRemovesFirstLiveTag | src/AugmentFromSpotify.ts:88-90 | only the first occurrence of "- Live" is cut out; a name without it is unchanged |
| ReleaseMatcher.IsSameRelease | src/AugmentFromSpotify.ts:34-86 | the nested loops with early returns decide exactly `SameRelease`: the track counts agree, and every MusicBrainz track has an aligned Spotify track that passes the hidden-track, title and duration checks |
| ReleaseMatcher.CountMismatchRejects | src/AugmentFromSpotify.ts:36-40 | a track-count mismatch rejects, whatever the tracks hold |
| ReleaseMatcher.MissingKeyRejects | src/AugmentFromSpotify.ts:47-51 | one MusicBrainz track without a Spotify track of the same key rejects the whole release |
| ReleaseMatcher.HiddenTrackPair | src/AugmentFromSpotify.ts:52-58 | a "Hidden Track" pair is accepted exactly when the MusicBrainz title is "[untitled]", with no title or duration check |
| ReleaseMatcher.TitleCheckStages | src/AugmentFromSpotify.ts:60-74 | a normalized-name score of at least 0.5 accepts; a score below 0.15 rejects; in between, the pair is accepted exactly when the bracket-stripped raw names score at least 0.5 |
| ReleaseMatcher.DurationTolerance | src/AugmentFromSpotify.ts:13-16 | rejected exactly when `duration_ms - length > 5000`; shorter, equal and up to 5000 ms longer pass; a null length counts as 0 |
| ReleaseMatcher.SameReleaseIgnoresTrailingItems | src/AugmentFromSpotify.ts:42-51 | when every key is found, extra Spotify items appended later do not change the decision |
| AugmentFromSpotify.SpotifyAlbumIdsMembership | src/AugmentFromSpotify.ts:140-144 | an id is extracted exactly when some relation of target type "url" has the resource `https://open.spotify.com/album/` followed by that id |
| AugmentFromSpotify.SpotifyAlbumUrlLength | src/AugmentFromSpotify.ts:143-144 | the 31 characters cut off are exactly the album URL prefix |
| AugmentFromSpotify.SpotifyAlbumIdsAppend | src/AugmentFromSpotify.ts:141-144 | extraction keeps the order of the relations |
| AugmentFromSpotify.SpotifyAlbumIds | src/AugmentFromSpotify.ts:141-144 | the `filter`/`filter`/`map` chain yields at most one id per relation; which ids, `SpotifyAlbumIdsMembership` states |
| AugmentFromSpotify.ValidatedIdsMembership | src/AugmentFromSpotify.ts:146-159 | an id survives validation exactly when it was linked and `isSameRelease` accepts its album |
| AugmentFromSpotify.MatchingAlbumIdsMembership | src/AugmentFromSpotify.ts:173-179 | a searched id is kept exactly when some searched album with that id is the same release |
| AugmentFromSpotify.AlbumSearchQuery | src/AugmentFromSpotify.ts:162-169 | the query holds an `artist` field with the first artist credit's name only when the release has one, and always ends with the `album` field holding the release title |
| AugmentFromSpotify.AlbumSearchQueryText | src/AugmentFromSpotify.ts:162-169 | with a non-empty title (and artist name), the text sent is `artist:"<name>" album:"<title>"`, or `album:"<title>"` without an artist credit |
| AugmentFromSpotify.SearchSpotifyAlbums | src/AugmentFromSpotify.ts:135-187 | the ids are the linked ids, validated in order when validation is on, and the matching searched ids only when none are left (`FoundIds`) |
| AugmentFromSpotify.FoundIdsAreSameRelease | src/AugmentFromSpotify.ts:146-179 | with validation on, every id found names an album that is the same release |
| AugmentFromSpotify.UnvalidatedLinksAreTrusted | src/AugmentFromSpotify.ts:140-162 | without validation, a release with a Spotify album link gets its linked ids and no search |
| AugmentFromSpotify.NormalizeSpotifyIsrcShape | src/AugmentFromSpotify.ts:103-105 | a normalized code holds no '-' and no lower-case letter |
| AugmentFromSpotify.NormalizeSpotifyIsrc | src/AugmentFromSpotify.ts:103-105 | the result is no longer than the input, holds no '-', and every character of it comes from the trimmed, upper-cased input |
| AugmentFromSpotify.NormalizeLowerCaseExample | src/AugmentFromSpotify.ts:99 | 'ushm91328810' becomes 'USHM91328810' |
| AugmentFromSpotify.NormalizeHyphenatedExample | src/AugmentFromSpotify.ts:100 | 'NL-Z07-08-00012' becomes 'NLZ070800012' |
| AugmentFromSpotify.NormalizeHyphenGroups | src/AugmentFromSpotify.ts:103-105 | upper-case groups joined by hyphens normalize to the groups run together |
| AugmentFromSpotify.IsrcToAddSpec | src/AugmentFromSpotify.ts:259-268 | a code is pushed exactly when Spotify has one and it is not skipped as already present; what is pushed is the normalized code |
| AugmentFromSpotify.WithIsrcIdempotent | src/AugmentFromSpotify.ts:263-267 | with `skipFilledIsrcs`, running the rule twice adds a non-empty code only once |
| AugmentFromSpotify.EmptyNormalizedIsrcIsPushedTwice | src/AugmentFromSpotify.ts:263-267 | a code that normalizes to "" is not found by `find` and is pushed again on every run |
| AugmentFromSpotify.WithIsrcKeepsNoRepeatedCodes | src/AugmentFromSpotify.ts:263-267 | with `skipFilledIsrcs`, a list without repeated non-empty codes keeps that property |
| AugmentFromSpotify.LinksAreAligned | src/AugmentFromSpotify.ts:204-223 | every link request names a placed recording and the track `getTrack` returned for its aligned Spotify track |
| AugmentFromSpotify.TrackEdits | src/AugmentFromSpotify.ts:200-227 | one track of `addIsrcsToRelease` yields the ISRC entry of the append rule, checked against the recording's codes, and a link when a track is aligned |
| AugmentFromSpotify.MediumEdits | src/AugmentFromSpotify.ts:200-228 | the track loop yields the entries and links of the medium's placements, in order |
| AugmentFromSpotify.AddIsrcsToRelease | src/AugmentFromSpotify.ts:189-239 | the entries and links of all placements, media first then tracks, each entry checked against the codes the recording holds; the recordings are left as they are |
| AugmentFromSpotify.AugmentedIsrcsExtend | src/AugmentFromSpotify.ts:267 | codes are only appended: each recording's old list is a prefix of its new one |
| AugmentFromSpotify.AugmentedIsrcsNoRepeatedCodes | src/AugmentFromSpotify.ts:263-267 | with `skipFilledIsrcs`, no recording ends up with a repeated non-empty code |
| AugmentFromSpotify.Untouched | src/AugmentFromSpotify.ts:249-279 | a recording that no track places keeps its codes |
| AugmentFromSpotify.AugmentedIsrcsDistinct | src/AugmentFromSpotify.ts:259-268 | when no recording is placed twice, each recording gains exactly the code its own track lets through, which is the entry `addIsrcsToRelease` submits for it |
| AugmentFromSpotify.AugmentTrack | src/AugmentFromSpotify.ts:250-277 | the track body pushes the code the append rule gives onto the recording in place, and requests the link |
| AugmentFromSpotify.AugmentMedium | src/AugmentFromSpotify.ts:250-278 | after the track loop of one medium, every recording holds the codes of the placements worked through so far |
| AugmentFromSpotify.AugmentReleaseWithSpotifyAlbum | src/AugmentFromSpotify.ts:241-280 | every placed recording ends with the codes `AugmentedIsrcs` computes from the codes it had, and the links are those `addIsrcsToRelease` requests |
| AugmentFromSpotify.AugmentRelease | src/AugmentFromSpotify.ts:290-297 | with no album found nothing changes; otherwise the release is augmented with the first album found |
| Text.IndexOfSpec | src/AugmentFromSpotify.ts:89 | `indexOf` finds the first occurrence, and none exactly when there is none |
| Text.ReplaceFirstAtIndexOf | src/AugmentFromSpotify.ts:89 | `replace` with a string pattern replaces the first occurrence only |
| Text.TrimStartSpec | src/AugmentFromSpotify.ts:104 | `trim` drops leading white space up to the first other character |
| Text.TrimEndSpec | src/AugmentFromSpotify.ts:104 | `trim` drops trailing white space after the last other character |
| Text.ToUpperHasNoLower | src/AugmentFromSpotify.ts:104 | `toUpperCase` leaves no lower-case ASCII letter |
| Text.RemoveAllSpec | src/AugmentFromSpotify.ts:104 | `replace(/-/g, '')` leaves no '-', adds nothing, and changes nothing without a '-' |
| SpotifySession.WriteToken | src/spotify/SpotifyClient.ts:269-274 | an empty token is rejected and nothing is written; any other token is persisted |
| SpotifySession.HandleAuthenticationResponse | src/spotify/SpotifyClient.ts:247-267 | a refresh token is persisted exactly when the response has one; `rpcApi` is always replaced by a handle for the new access token |
| SpotifySession.HandleAuthenticationResponseAsWritten | src/spotify/SpotifyClient.ts:247-258 | the handler as written fails exactly when the response has a refresh token and `authenticationApi` is unset, and then changes nothing and makes no call; on success `rpcApi` holds the new access token and the token file the new refresh token, if any |
| SpotifySession.RotatedRefreshTokenWithoutAuthorizationApi | src/spotify/SpotifyClient.ts:249-250 | as written, a rotated refresh token on the refresh path throws and is lost; the corrected version persists it |
| SpotifySession.HandleAuthenticationResponseAgrees | src/spotify/SpotifyClient.ts:247-258 | both versions agree whenever `authenticationApi` is set or no refresh token comes back |
| SpotifySession.RefreshAccess | src/spotify/SpotifyClient.ts:174-185 | a success caches the handle it returns; at most one refresh grant and no SDK call; pending states are kept |
| SpotifySession.GetRpcApi | src/spotify/SpotifyClient.ts:133-138 | a cached handle is returned unchanged with no call; otherwise the result is that of `refreshAccess` |
| SpotifySession.GetRpcApiCaches | src/spotify/SpotifyClient.ts:133-138 | after a success the returned handle is cached; a refresh happens only when nothing was cached |
| SpotifySession.Attempt | src/spotify/SpotifyClient.ts:220-225 | a success is what the SDK answered for the access token the session holds; at most one SDK invocation |
| SpotifySession.ApiCall | src/spotify/SpotifyClient.ts:217-240 | a success is the SDK's answer for the current token; at most two invocations at attempt 0 and one later; at most one refresh beyond the lazy creation |
| SpotifySession.UnauthorizedRenewsOnce | src/spotify/SpotifyClient.ts:227-232 | a 401 at attempt 0 renews once; the retry at attempt 1 renews nothing and invokes at most once; a failed renewal ends the call with its error |
| SpotifySession.UnauthorizedRetryIsFinal | src/spotify/SpotifyClient.ts:233-236 | a 401 at attempt 1 or later is rethrown with "Failed to renew access-token: " prefixed, with no renewal |
| SpotifySession.OtherErrorsPropagate | src/spotify/SpotifyClient.ts:226-239 | any other error is rethrown unchanged, without renewal or retry |
| SpotifySession.MissingMethodIsNotRetried | src/spotify/SpotifyClient.ts:221-223 | a method the SDK lacks fails with "Method '…' not found" and is never invoked or retried |
| SpotifySession.CountsAppend | src/spotify/SpotifyClient.ts:217-240 | refresh and invocation counts add up over consecutive calls |
| SpotifySession.AttemptFetches | src/spotify/SpotifyClient.ts:220-225 | one attempt fetches the items of the page it answers, and nothing when it fails |
| SpotifySession.AttemptRequests | src/spotify/SpotifyClient.ts:220-224 | an attempt at a page request invokes `getAlbumTracks` with exactly the offset it was given |
| SpotifySession.ApiCallFetches | src/spotify/SpotifyClient.ts:217-240 | `apiCall` fetches exactly the items of the page it returns; a failed first try brings nothing back |
| SpotifySession.ApiCallRequests | src/spotify/SpotifyClient.ts:217-240 | the first try and the retry of a page request both ask for the same offset |
| SpotifySession.ApiCallLastInvoke | src/spotify/SpotifyClient.ts:217-240 | a successful `apiCall` ends with the invocation that answered it, made with the access token the session then holds |
| SpotifySession.RequestedFromAt | src/spotify/SpotifyClient.ts:200-202 | the k-th invocation of the pagination loop is `getAlbumTracks` for the album at the start offset plus the number of items fetched before it |
| SpotifySession.PageRequest | src/spotify/SpotifyClient.ts:201 | the request for a page at an offset below `total` asks for that offset, keeps the session's tokens, and on success answers a non-empty page whose items are what it fetched |
| SpotifySession.PageRequestNonEmpty | src/spotify/SpotifyClient.ts:199-201 | a request for a page below `total` keeps the session's tokens and, on success, answers a non-empty page |
| SpotifySession.RemainingPages | src/spotify/SpotifyClient.ts:199-202 | on success the page is complete (`offset + items.length >= total`), keeps its offset and total, and its items are those it had followed by every item fetched, in arrival order; every request asks for the offset after the items held at that point |
| SpotifySession.NextPage | src/spotify/SpotifyClient.ts:200-202 | after a page request that answered a non-empty page or failed, the rest of the loop is complete on success and keeps offset, total and the items held as a prefix; when that request asked for `offset + items.length` and fetched the page it answered, the items are in arrival order and the offsets are counted from the items held |
| SpotifySession.RemainingPagesTurn | src/spotify/SpotifyClient.ts:199-202 | one turn of the loop on an incomplete page: a failed request ends the loop with its error and its calls; an answered page is appended and the loop goes on from the longer page, its calls after the request's |
| SpotifySession.RemainingTracks | src/spotify/SpotifyClient.ts:196-205 | absent tracks are fetched first; on success the album keeps its id and count, has complete tracks, and keeps the items it had as a prefix; with a first page, every request asks for the offset after the items held, and the result is the album with only its items extended by what was fetched |
| SpotifySession.RemainingTracksWithoutPage | src/spotify/SpotifyClient.ts:197-201 | without a first page, the first request asks for no offset and the loop continues from the offset after the first page's items |
| SpotifySession.RemainingTracksWithoutPageFetches | src/spotify/SpotifyClient.ts:197-202 | without a first page, the tracks are every item fetched, in arrival order |
| SpotifySession.GetAlbum | src/spotify/SpotifyClient.ts:187-190 | a fetched album has complete tracks |
| SpotifySession.GetAlbumAnswers | src/spotify/SpotifyClient.ts:187-190 | on success the result is the album the `getAlbum` invocation answered, with only its tracks changed: the items it carried followed by the items fetched after that invocation |
| SpotifySession.FilledFields | src/spotify/SpotifyClient.ts:212 | only fields with a truthy value are kept |
| SpotifySession.FilledFieldsAppend | src/spotify/SpotifyClient.ts:212 | filtering keeps key insertion order |
| SpotifySession.FilledFieldsEmpty | src/spotify/SpotifyClient.ts:212 | no field is kept exactly when every value is empty |
| SpotifySession.SearchQueryTextEmpty | src/spotify/SpotifyClient.ts:212 | the query text is empty exactly when every value is empty |
| SpotifySession.EmptyFieldIgnored | src/spotify/SpotifyClient.ts:212 | an empty field anywhere leaves the query text unchanged |
| SpotifySession.SearchQueryTextTwoFields | src/spotify/SpotifyClient.ts:212 | two filled fields are rendered in order, separated by one space |
| SpotifySession.SearchQueryText | src/spotify/SpotifyClient.ts:212 | the text is empty exactly when no field is filled; otherwise it starts with the first filled field's `key:"value"` |
| SpotifySession.SearchQueryTextOneField | src/spotify/SpotifyClient.ts:212 | one filled field is rendered as its `key:"value"` pair alone |
| SpotifySession.CreateAuthorizeURL | src/spotify/SpotifyClient.ts:119-131 | the state is bound to the path to return to; a new authorization handle for the redirect URI replaces the old one; the request asks for the fixed scopes |
| SpotifySession.AuthorizeUserCallback | src/spotify/SpotifyClient.ts:145-168 | success only for a present code and a pending state, returning its path; the state is deleted exactly when the checks pass; a rejected callback changes nothing and calls nothing |
| SpotifySession.StateIsSingleUse | src/spotify/SpotifyClient.ts:152-156 | a second callback with the same state is rejected as a mismatch and changes nothing |
| SpotifySession.AuthorizeThenCallback | src/spotify/SpotifyClient.ts:119-168 | after `createAuthorizeURL`, the callback exchanges the code with that redirect URI, consumes the state, and on success returns the stored path and uses the new access token |
| SpotifySession.PendingStateReachesGrant | src/spotify/SpotifyClient.ts:152-160 | on a valid session, a pending state always reaches the token endpoint |
| Client.SpotifyClient.constructor | src/spotify/SpotifyClient.ts:99-103 | a new client has no handles and no pending states, and reads the given token file |
| Client.SpotifyClient.WriteToken | src/spotify/SpotifyClient.ts:269-274 | fields, result and calls are those of `SpotifySession.WriteToken` |
| Client.SpotifyClient.InitRpcApi | src/spotify/SpotifyClient.ts:260-267 | `rpcApi` becomes the handle for the access token, which is returned |
| Client.SpotifyClient.HandleAuthenticationResponse | src/spotify/SpotifyClient.ts:247-258 | fields, result and calls are those of `SpotifySession.HandleAuthenticationResponse` |
| Client.SpotifyClient.GetRefreshToken | src/spotify/SpotifyClient.ts:280-285 | the refresh token of `authenticationApi` when that is set, else the token file |
| Client.SpotifyClient.RefreshAccess | src/spotify/SpotifyClient.ts:174-185 | fields, result and calls are those of `SpotifySession.RefreshAccess` |
| Client.SpotifyClient.GetRpcApi | src/spotify/SpotifyClient.ts:133-138 | fields, result and calls are those of `SpotifySession.GetRpcApi` |
| Client.SpotifyClient.IsUserLoginRequired | src/spotify/SpotifyClient.ts:105-111 | true exactly when no handle can be had |
| Client.SpotifyClient.Attempt | src/spotify/SpotifyClient.ts:220-225 | fields, result and calls are those of `SpotifySession.Attempt` |
| Client.SpotifyClient.ApiCall | src/spotify/SpotifyClient.ts:217-240 | fields, result and calls are those of `SpotifySession.ApiCall` |
| Client.SpotifyClient.GetTrack | src/spotify/SpotifyClient.ts:192-194 | one `apiCall` of `getTrack` with the track id |
| Client.SpotifyClient.SearchAlbums | src/spotify/SpotifyClient.ts:211-215 | one `apiCall` of `searchAlbums` with the query text |
| Client.SpotifyClient.RemainingPages | src/spotify/SpotifyClient.ts:199-202 | the `while` loop logs exactly the calls of `SpotifySession.RemainingPages` and returns its result, so each page is requested at `offset + items.length` and its items are appended in arrival order |
| Client.SpotifyClient.GetRemainingTracks | src/spotify/SpotifyClient.ts:196-205 | fields, result and logged calls are those of `SpotifySession.RemainingTracks`, so the offsets and the item order proved there hold for it |
| Client.SpotifyClient.GetAlbum | src/spotify/SpotifyClient.ts:187-190 | fields, result and logged calls are those of `SpotifySession.GetAlbum`, so `SpotifySession.GetAlbumAnswers` holds for it |
| Client.SpotifyClient.CreateAuthorizeURL | src/spotify/SpotifyClient.ts:119-131 | a fresh non-empty state not already pending is bound to the path, as `SpotifySession.CreateAuthorizeURL` states |
| Client.SpotifyClient.AuthorizeUserCallback | src/spotify/SpotifyClient.ts:145-168 | fields, result and calls are those of `SpotifySession.AuthorizeUserCallback` |
| Client.LongerThanAll | src/spotify/SpotifyClient.ts:122 | a fresh token always exists: some non-empty string is longer than every pending one |

## Left out

- The network, the file system and the MusicBrainz web service.
  `getRelease`, `getArtist`, `post`, `addSpotifyIdToRecording` and
  `XmlMetadata` are not modelled. `addIsrcsToRelease` returns its entries and
  links instead of posting them. The caught failure of
  `addSpotifyIdToRecording` has no effect on the model.
- `getSpotifyAlbum`, `augmentArtist` and `getMusicBrainzRelease` are plain
  I/O and are not modelled. The albums `getSpotifyAlbum` yields appear as
  `AugmentFromSpotify.SpotifyAlbum`.
- Concurrency. `Promise.all` over the searched albums is sequential here.
  The un-awaited `augmentRelease` calls of `augmentArtist` are left out.
- `AugmentFromSpotify.AugmentReleaseWithSpotifyAlbum` fetches the release and
  album through I/O in the source. In the model they are parameters, so a
  release changed by another process in between is not captured.
- `getTrack` and `getAlbum` failures inside `augmentReleaseWithSpotifyAlbum`
  and `addIsrcsToRelease` are not modelled. `SpotifyApi` answers every
  request.
- `similarity` and `removeBrackets` are opaque parameters. Nothing is assumed
  about their range or symmetry. The score is a `real`, so a NaN score
  cannot occur in the model. In the source a NaN score makes the `<` test
  at src/AugmentFromSpotify.ts:62 false, so the title check passes with no
  bracket-stripped retry.
- `debug` logging, the edit notes, the include list, the singleton
  `SpotifyClient.instance`, the configuration and the resolution of the token
  path.
- `Text.ToUpper` upper-cases ASCII letters only. JavaScript's
  `toUpperCase` also maps other scripts, and ISRCs are ASCII.
- Text.TrimStartSpec: JavaScript white space is the set that `Text.IsWhiteSpace`
  lists (ECMAScript WhiteSpace and LineTerminator). This holds for the
  Unicode version the list is taken from.
- Client.SpotifyClient.GetRemainingTracks: returns the completed album as a
  new value. The source pushes onto `album.tracks.items` of the caller's
  object in place, so aliasing between albums is not captured.
- Client.SpotifyClient.CreateAuthorizeURL: the token is any non-empty string
  that is not pending. The source uses 64 random bytes in hexadecimal and
  does not check for collisions. The rendered URL is the `AuthorizeRequest`
  value, not a string.
- AugmentFromSpotify.HandsOutTracks: the augmentation assumes that every
  album `getAlbum` and `getRemainingTracks` hand out carries its tracks.
  `SearchSpotifyAlbums`, `AddIsrcsToRelease`,
  `AugmentReleaseWithSpotifyAlbum` and `AugmentRelease` require it. The
  client proves this promise in `SpotifySession.GetAlbum` and
  `SpotifySession.RemainingTracks`. The model does not link the two, so
  `SpotifyApi` stays an arbitrary service that is assumed to keep it.
- SpotifySession.NonEmptyBelow: a page of the album requested at an offset
  below the album's `total` is assumed to hold at least one item. Pages at
  or past `total` may be empty, but the loop never requests them.
  - `SpotifySession.RemainingPages`, `SpotifySession.NextPage`,
    `SpotifySession.PageRequest` and `Client.SpotifyClient.RemainingPages`
    require it for the `total` of the page they continue.
  - `SpotifySession.RemainingTracks` and `Client.SpotifyClient.GetRemainingTracks`
    require `SpotifySession.TracksNonEmpty`: it holds for the `total` of the
    page the album carries or, without one, of the first page the endpoint
    answers.
  - `SpotifySession.GetAlbum` and `Client.SpotifyClient.GetAlbum` require
    `SpotifySession.AlbumTracksNonEmpty`: `TracksNonEmpty` for every album the
    album endpoint answers.
- Client.SpotifyClient.RemainingPages: terminates because every page it
  requests lies below `total` and is non-empty (`SpotifySession.NonEmptyBelow`),
  which is a precondition. The source loops forever if Spotify answers an
  empty page before the total is reached.
- SpotifySession.RefreshAccess: the whole session chain runs the corrected
  `handleAuthenticationResponse`, not the one as written (see "## Findings").
  `SpotifySession.RefreshAccess`, `SpotifySession.GetRpcApi`,
  `SpotifySession.ApiCall`, `SpotifySession.GetAlbum`,
  `Client.SpotifyClient.HandleAuthenticationResponse`,
  `Client.SpotifyClient.RefreshAccess`, `Client.SpotifyClient.GetRpcApi`,
  `Client.SpotifyClient.IsUserLoginRequired` and `Client.SpotifyClient.ApiCall`
  inherit this. Take a client with no `authenticationApi` and the token file
  "t", whose refresh grant for "t" answers access token "a" and refresh
  token "t2". In the source, line 250 throws a `TypeError`, `rpcApi` stays
  unset, `apiCall` rethrows and `isUserLoginRequired` is true. In the model,
  "t2" is persisted, the call succeeds and `IsUserLoginRequired` is false.
- `clientTokens` keys that collide with `Object.prototype` members
  (`constructor`, `toString`, …) are not modelled; the map holds only what
  was stored.
- Error messages of the SDK and of the file system are opaque values. The
  `TypeError` of calling a method on an undefined `authenticationApi` is the
  constant `NO_AUTHENTICATION_API`.
- `expires_in` is not used by the source, so the model ignores it.
- After `createAuthorizeURL`, `getRefreshToken` returns the new
  authorization handle's empty refresh token instead of the token file, as
  the source does. The model keeps this behaviour.

## Findings

| source | as written | input that shows it | evidently intended | confidence | as-written member | corrected member |
|---|---|---|---|---|---|---|
| src/spotify/SpotifyClient.ts:249-250 | `handleAuthenticationResponse` calls `this.authenticationApi.setRefreshToken` whenever the response has a refresh token, but `authenticationApi` is set only by `createAuthorizeURL` | a client started from a stored token file, whose refresh grant returns a rotated refresh token (section 6 of RFC 6749 allows this): a `TypeError` is thrown, and the new token is neither persisted nor put into use | set the refresh token on `authenticationApi` only when it exists, and persist it in any case | not executed | SpotifySession.RotatedRefreshTokenWithoutAuthorizationApi | SpotifySession.HandleAuthenticationResponse |
