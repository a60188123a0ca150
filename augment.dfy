/** The orchestration of `AugmentFromSpotify.ts`: which Spotify albums a
    MusicBrainz release is matched with (its own Spotify links, optionally
    validated, else a search), and what the match adds to the release's
    recordings (normalized ISRCs, Spotify track links).

    The Spotify client is the `SpotifyApi` value of functions; the
    MusicBrainz web service is left out, the release is a parameter and
    the edits it would receive are results. */
module AugmentFromSpotify {
  import opened Wrappers
  import opened Text
  import Spotify
  import MusicBrainz
  import opened ReleaseMatcher
  import SpotifySession
  import Seqs

  /** The Spotify calls the augmentation makes. `getAlbum` is the client's
      `getAlbum`, which already fetches every page of tracks; `searchAlbums`
      answers `None` when the response has no `albums`. */
  datatype SpotifyApi = SpotifyApi(
    getAlbum: string -> Spotify.Album,
    getTrack: string -> Spotify.Track,
    getRemainingTracks: Spotify.Album -> Spotify.Album,
    searchAlbums: string -> Option<seq<Spotify.Album>>)

  /** What the client promises: albums it hands out carry their tracks. */
  ghost predicate HandsOutTracks(api: SpotifyApi) {
    && (forall id :: api.getAlbum(id).tracks.Some?)
    && (forall album :: api.getRemainingTracks(album).tracks.Some?)
  }

  // ---------------------------------------------------------------------
  // Spotify album ids from the release's URL relations
  // ---------------------------------------------------------------------

  const SPOTIFY_ALBUM_URL: string := "https://open.spotify.com/album/"

  /** A URL relation whose resource starts with the Spotify album URL. */
  predicate IsSpotifyAlbumLink(rel: MusicBrainz.Relation) {
    rel.targetType == "url" && SPOTIFY_ALBUM_URL <= rel.resource
  }

  /** The `filter`/`filter`/`map` chain: each Spotify album link, in order,
      with its first 31 characters cut off. */
  function SpotifyAlbumIds(relations: seq<MusicBrainz.Relation>): (ids: seq<string>)
    ensures |ids| <= |relations|
  {
    if relations == [] then []
    else
      (if IsSpotifyAlbumLink(relations[0]) then [Substring(relations[0].resource, 31)] else [])
      + SpotifyAlbumIds(relations[1..])
  }

  /** The prefix cut off is exactly the Spotify album URL. */
  lemma SpotifyAlbumUrlLength()
    ensures |SPOTIFY_ALBUM_URL| == 31
  {
  }

  /** An id is extracted exactly when some Spotify album link is the album
      URL followed by that id. */
  lemma {:induction false} SpotifyAlbumIdsMembership(relations: seq<MusicBrainz.Relation>, id: string)
    ensures id in SpotifyAlbumIds(relations) <==>
      exists k :: 0 <= k < |relations| && IsSpotifyAlbumLink(relations[k]) && relations[k].resource == SPOTIFY_ALBUM_URL + id
    decreases |relations|
  {
    SpotifyAlbumUrlLength();
    if relations != [] {
      SpotifyAlbumIdsMembership(relations[1..], id);
      var rel := relations[0];
      if IsSpotifyAlbumLink(rel) {
        assert rel.resource == SPOTIFY_ALBUM_URL + Substring(rel.resource, 31);
      }
      if rel.resource == SPOTIFY_ALBUM_URL + id {
        assert Substring(rel.resource, 31) == id;
      }
      if exists k :: 0 <= k < |relations| && IsSpotifyAlbumLink(relations[k]) && relations[k].resource == SPOTIFY_ALBUM_URL + id {
        var k :| 0 <= k < |relations| && IsSpotifyAlbumLink(relations[k]) && relations[k].resource == SPOTIFY_ALBUM_URL + id;
        if k > 0 {
          assert relations[1..][k - 1] == relations[k];
        }
      }
      if exists k :: 0 <= k < |relations[1..]| && IsSpotifyAlbumLink(relations[1..][k]) && relations[1..][k].resource == SPOTIFY_ALBUM_URL + id {
        var k :| 0 <= k < |relations[1..]| && IsSpotifyAlbumLink(relations[1..][k]) && relations[1..][k].resource == SPOTIFY_ALBUM_URL + id;
        assert relations[k + 1] == relations[1..][k];
      }
    }
  }

  /** Extraction keeps the order of the relations. */
  lemma {:induction false} SpotifyAlbumIdsAppend(a: seq<MusicBrainz.Relation>, b: seq<MusicBrainz.Relation>)
    ensures SpotifyAlbumIds(a + b) == SpotifyAlbumIds(a) + SpotifyAlbumIds(b)
    decreases |a|
  {
    if a == [] {
      Seqs.AppendEmpty(b);
    } else {
      SpotifyAlbumIdsAppend(a[1..], b);
      Seqs.DropFirstAppend(a, b);
      var head := if IsSpotifyAlbumLink(a[0]) then [Substring(a[0].resource, 31)] else [];
      Seqs.AppendAssociative(head, SpotifyAlbumIds(a[1..]), SpotifyAlbumIds(b));
    }
  }

  // ---------------------------------------------------------------------
  // Validation and search
  // ---------------------------------------------------------------------

  /** `getSpotifyAlbum`: the album, with its remaining tracks fetched. */
  function SpotifyAlbum(api: SpotifyApi, albumId: string): Spotify.Album {
    api.getRemainingTracks(api.getAlbum(albumId))
  }

  /** The ids, in order, whose album `isSameRelease` accepts. */
  function ValidatedIds(utils: StringUtils, release: MusicBrainz.Release, api: SpotifyApi, ids: seq<string>): (r: seq<string>)
    requires HandsOutTracks(api)
    ensures |r| <= |ids|
  {
    if ids == [] then []
    else
      var id := ids[|ids| - 1];
      ValidatedIds(utils, release, api, ids[..|ids| - 1])
      + (if SameRelease(utils, release, SpotifyAlbum(api, id)) then [id] else [])
  }

  /** An id survives validation exactly when it was linked and its album
      is the same release. */
  lemma {:induction false} ValidatedIdsMembership(utils: StringUtils, release: MusicBrainz.Release, api: SpotifyApi,
                                                  ids: seq<string>, id: string)
    requires HandsOutTracks(api)
    ensures id in ValidatedIds(utils, release, api, ids) <==>
      id in ids && SameRelease(utils, release, SpotifyAlbum(api, id))
    decreases |ids|
  {
    if ids != [] {
      var init := ids[..|ids| - 1];
      ValidatedIdsMembership(utils, release, api, init, id);
      assert ids == init + [ids[|ids| - 1]];
    }
  }

  /** The search: an artist field when the release has an artist credit
      (only the first one counts), then the album title. */
  function AlbumSearchQuery(release: MusicBrainz.Release): (q: seq<SpotifySession.QueryField>)
    ensures |q| == if |release.artistCredit| >= 1 then 2 else 1
    ensures |release.artistCredit| >= 1 ==> q[0] == SpotifySession.QueryField("artist", release.artistCredit[0].name)
    ensures q[|q| - 1] == SpotifySession.QueryField("album", release.title)
  {
    (if |release.artistCredit| >= 1 then [SpotifySession.QueryField("artist", release.artistCredit[0].name)] else [])
    + [SpotifySession.QueryField("album", release.title)]
  }

  /** The text `searchAlbums` sends for a release: the first artist credit
      and the title as `key:"value"` pairs, joined by one space. */
  lemma AlbumSearchQueryText(release: MusicBrainz.Release)
    requires release.title != ""
    requires |release.artistCredit| >= 1 ==> release.artistCredit[0].name != ""
    ensures |release.artistCredit| >= 1 ==>
      SpotifySession.SearchQueryText(AlbumSearchQuery(release))
        == "artist:\"" + release.artistCredit[0].name + "\" album:\"" + release.title + "\""
    ensures |release.artistCredit| == 0 ==>
      SpotifySession.SearchQueryText(AlbumSearchQuery(release)) == "album:\"" + release.title + "\""
  {
    var album := SpotifySession.QueryField("album", release.title);
    if |release.artistCredit| >= 1 {
      var artist := SpotifySession.QueryField("artist", release.artistCredit[0].name);
      assert AlbumSearchQuery(release) == [artist, album];
      SpotifySession.SearchQueryTextTwoFields(artist, album);
    } else {
      assert AlbumSearchQuery(release) == [album];
      SpotifySession.SearchQueryTextOneField(album);
    }
  }

  /** The ids, in order, of the albums `isSameRelease` accepts. */
  function MatchingAlbumIds(utils: StringUtils, release: MusicBrainz.Release, albums: seq<Spotify.Album>): seq<string>
    requires forall k :: 0 <= k < |albums| ==> albums[k].tracks.Some?
  {
    if albums == [] then []
    else
      (if SameRelease(utils, release, albums[0]) then [albums[0].id] else [])
      + MatchingAlbumIds(utils, release, albums[1..])
  }

  lemma {:induction false} MatchingAlbumIdsMembership(utils: StringUtils, release: MusicBrainz.Release,
                                                      albums: seq<Spotify.Album>, id: string)
    requires forall k :: 0 <= k < |albums| ==> albums[k].tracks.Some?
    ensures id in MatchingAlbumIds(utils, release, albums) <==>
      exists k :: 0 <= k < |albums| && albums[k].id == id && SameRelease(utils, release, albums[k])
    decreases |albums|
  {
    if albums != [] {
      var rest := albums[1..];
      MatchingAlbumIdsMembership(utils, release, rest, id);
      if exists k :: 0 <= k < |albums| && albums[k].id == id && SameRelease(utils, release, albums[k]) {
        var k :| 0 <= k < |albums| && albums[k].id == id && SameRelease(utils, release, albums[k]);
        if k > 0 {
          assert rest[k - 1] == albums[k];
        }
      }
      if exists k :: 0 <= k < |rest| && rest[k].id == id && SameRelease(utils, release, rest[k]) {
        var k :| 0 <= k < |rest| && rest[k].id == id && SameRelease(utils, release, rest[k]);
        assert albums[k + 1] == rest[k];
      }
    }
  }

  /** The ids the Spotify links of the release give, validated or not. */
  function LinkedIds(utils: StringUtils, release: MusicBrainz.Release, api: SpotifyApi, validateSpotifyLink: bool): seq<string>
    requires HandsOutTracks(api)
  {
    var linked := SpotifyAlbumIds(release.relations);
    if validateSpotifyLink then ValidatedIds(utils, release, api, linked) else linked
  }

  /** The searched albums, with their remaining tracks fetched. */
  function SearchedAlbums(release: MusicBrainz.Release, api: SpotifyApi): (albums: seq<Spotify.Album>)
    requires HandsOutTracks(api)
    ensures forall k :: 0 <= k < |albums| ==> albums[k].tracks.Some?
  {
    match api.searchAlbums(SpotifySession.SearchQueryText(AlbumSearchQuery(release)))
    case None => []
    case Some(found) => seq(|found|, k requires 0 <= k < |found| => api.getRemainingTracks(found[k]))
  }

  /** The result of `searchSpotifyAlbums`: the linked ids when there are
      any left, else the ids of the searched albums that match. */
  function FoundIds(utils: StringUtils, release: MusicBrainz.Release, api: SpotifyApi, validateSpotifyLink: bool): seq<string>
    requires HandsOutTracks(api)
  {
    var linked := LinkedIds(utils, release, api, validateSpotifyLink);
    if linked != [] then linked else MatchingAlbumIds(utils, release, SearchedAlbums(release, api))
  }

  /** With validation on, every id found names an album that is the same
      release: a linked album, or a searched one with that id. */
  lemma FoundIdsAreSameRelease(utils: StringUtils, release: MusicBrainz.Release, api: SpotifyApi, id: string)
    requires HandsOutTracks(api)
    requires id in FoundIds(utils, release, api, true)
    ensures || (id in SpotifyAlbumIds(release.relations) && SameRelease(utils, release, SpotifyAlbum(api, id)))
            || (exists album :: album in SearchedAlbums(release, api) && album.id == id && SameRelease(utils, release, album))
  {
    var linked := LinkedIds(utils, release, api, true);
    if linked != [] {
      ValidatedIdsMembership(utils, release, api, SpotifyAlbumIds(release.relations), id);
    } else {
      var albums := SearchedAlbums(release, api);
      MatchingAlbumIdsMembership(utils, release, albums, id);
      var k :| 0 <= k < |albums| && albums[k].id == id && SameRelease(utils, release, albums[k]);
      assert albums[k] in albums;
    }
  }

  /** Without validation the release's own links are trusted: when it has
      any, they are the result and no search happens. */
  lemma UnvalidatedLinksAreTrusted(utils: StringUtils, release: MusicBrainz.Release, api: SpotifyApi, id: string)
    requires HandsOutTracks(api)
    requires exists k :: 0 <= k < |release.relations| && IsSpotifyAlbumLink(release.relations[k])
                         && release.relations[k].resource == SPOTIFY_ALBUM_URL + id
    ensures FoundIds(utils, release, api, false) == SpotifyAlbumIds(release.relations)
    ensures id in FoundIds(utils, release, api, false)
  {
    SpotifyAlbumIdsMembership(release.relations, id);
  }

  /** `searchSpotifyAlbums`, for a release already fetched. */
  method SearchSpotifyAlbums(utils: StringUtils, release: MusicBrainz.Release, api: SpotifyApi, validateSpotifyLink: bool)
    returns (spotifyIds: seq<string>)
    requires HandsOutTracks(api)
    ensures spotifyIds == FoundIds(utils, release, api, validateSpotifyLink)
  {
    spotifyIds := SpotifyAlbumIds(release.relations);
    if validateSpotifyLink {
      var validatedIds := [];
      for k := 0 to |spotifyIds|
        invariant validatedIds == ValidatedIds(utils, release, api, spotifyIds[..k])
      {
        var spotifyId := spotifyIds[k];
        var album := SpotifyAlbum(api, spotifyId);
        var same := IsSameRelease(release, album, utils);
        if same {
          validatedIds := validatedIds + [spotifyId];
        }
        assert spotifyIds[..k + 1][..k] == spotifyIds[..k];
      }
      assert spotifyIds[..|spotifyIds|] == spotifyIds;
      spotifyIds := validatedIds;
    }
    if |spotifyIds| == 0 {
      var text := SpotifySession.SearchQueryText(AlbumSearchQuery(release));
      var searchResult := api.searchAlbums(text);
      if searchResult.Some? {
        var albums := SearchedAlbums(release, api);
        spotifyIds := MatchingAlbumIds(utils, release, albums);
      }
    }
  }

  // ---------------------------------------------------------------------
  // ISRCs
  // ---------------------------------------------------------------------

  /** `normalizeSpotifyIsrc`: trimmed, upper-cased, hyphens removed. */
  function NormalizeSpotifyIsrc(isrc: string): (r: string)
    ensures |r| <= |isrc|
    ensures '-' !in r
    ensures forall c :: c in r ==> c in ToUpper(Trim(isrc))
  {
    RemoveAllSpec(ToUpper(Trim(isrc)), '-');
    RemoveAll(ToUpper(Trim(isrc)), '-')
  }

  /** A normalized code holds no hyphen and no lower-case letter. */
  lemma NormalizeSpotifyIsrcShape(isrc: string)
    ensures '-' !in NormalizeSpotifyIsrc(isrc)
    ensures forall c :: c in NormalizeSpotifyIsrc(isrc) ==> !IsAsciiLower(c)
  {
    var upper := ToUpper(Trim(isrc));
    ToUpperHasNoLower(Trim(isrc));
    RemoveAllSpec(upper, '-');
  }

  /** The first case the source documents: a lower-case code is
      upper-cased. */
  lemma NormalizeLowerCaseExample()
    ensures NormalizeSpotifyIsrc("ushm91328810") == "USHM91328810"
  {
    var raw := "ushm91328810";
    TrimUnchanged(raw);
    var upper := ToUpper(raw);
    assert upper == "USHM91328810" by {
      assert forall i :: 0 <= i < 12 ==> upper[i] == "USHM91328810"[i];
    }
    RemoveAllSpec(upper, '-');
  }

  /** The second case the source documents: the hyphens are removed. */
  lemma NormalizeHyphenatedExample()
    ensures NormalizeSpotifyIsrc("NL-Z07-08-00012") == "NLZ070800012"
  {
    var p1, p2, p3, p4 := "NL", "Z07", "08", "00012";
    assert p1 + "-" + p2 + "-" + p3 + "-" + p4 == "NL-Z07-08-00012";
    assert p1 + p2 + p3 + p4 == "NLZ070800012";
    NormalizeHyphenGroups(p1, p2, p3, p4);
  }

  /** A group of an ISRC as written: no hyphen and no lower-case letter. */
  predicate IsCodeGroup(p: string) {
    forall c :: c in p ==> c != '-' && !IsAsciiLower(c)
  }

  /** Upper-case groups joined by hyphens, with no white space around them,
      normalize to the groups run together. */
  lemma NormalizeHyphenGroups(p1: string, p2: string, p3: string, p4: string)
    requires p1 != [] && !IsWhiteSpace(p1[0])
    requires p4 != [] && !IsWhiteSpace(p4[|p4| - 1])
    requires IsCodeGroup(p1) && IsCodeGroup(p2) && IsCodeGroup(p3) && IsCodeGroup(p4)
    ensures NormalizeSpotifyIsrc(p1 + "-" + p2 + "-" + p3 + "-" + p4) == p1 + p2 + p3 + p4
  {
    var s := p1 + "-" + p2 + "-" + p3 + "-" + p4;
    assert s[0] == p1[0] && s[|s| - 1] == p4[|p4| - 1];
    TrimUnchanged(s);
    ToUpperUnchanged(s);
    RemoveAllSpec(p1, '-');
    RemoveAllSpec(p2, '-');
    RemoveAllSpec(p3, '-');
    RemoveAllSpec(p4, '-');
    RemoveAllAround(p1, p2, '-');
    RemoveAllAround(p1 + "-" + p2, p3, '-');
    RemoveAllAround(p1 + "-" + p2 + "-" + p3, p4, '-');
  }

  /** The code a Spotify track adds to a recording's `isrcs`, if any: none
      when Spotify has no code; else the normalized code, unless filled
      codes are skipped and `find` returns it, which it does only for a
      code that is present and not empty (`find` returns the element, and
      the empty string is falsy). */
  function IsrcToAdd(isrcs: seq<string>, spotifyIsrc: string, skipFilledIsrcs: bool): Option<string> {
    if spotifyIsrc == "" then None
    else
      var isrc := NormalizeSpotifyIsrc(spotifyIsrc);
      if skipFilledIsrcs && isrc in isrcs && isrc != "" then None else Some(isrc)
  }

  /** A code is added exactly when Spotify has one and it is not skipped as
      already filled; what is added is the normalized code. */
  lemma IsrcToAddSpec(isrcs: seq<string>, spotifyIsrc: string, skipFilledIsrcs: bool)
    ensures var r := IsrcToAdd(isrcs, spotifyIsrc, skipFilledIsrcs);
      && (r.Some? ==> spotifyIsrc != "" && r.value == NormalizeSpotifyIsrc(spotifyIsrc))
      && (r.None? <==>
            spotifyIsrc == "" || (skipFilledIsrcs && NormalizeSpotifyIsrc(spotifyIsrc) != "" && NormalizeSpotifyIsrc(spotifyIsrc) in isrcs))
  {
  }

  /** A recording's `isrcs` after the code is pushed, if it is. */
  function WithIsrc(isrcs: seq<string>, spotifyIsrc: string, skipFilledIsrcs: bool): seq<string> {
    match IsrcToAdd(isrcs, spotifyIsrc, skipFilledIsrcs)
    case None => isrcs
    case Some(isrc) => isrcs + [isrc]
  }

  /** With filled codes skipped, a code that normalizes to a non-empty
      string is added at most once. */
  lemma WithIsrcIdempotent(isrcs: seq<string>, spotifyIsrc: string)
    requires NormalizeSpotifyIsrc(spotifyIsrc) != ""
    ensures WithIsrc(WithIsrc(isrcs, spotifyIsrc, true), spotifyIsrc, true) == WithIsrc(isrcs, spotifyIsrc, true)
  {
  }

  /** A code that normalizes to the empty string is not found by `find`,
      so it is pushed again on every run. */
  lemma EmptyNormalizedIsrcIsPushedTwice()
    ensures WithIsrc(WithIsrc([], "-", true), "-", true) == ["", ""]
  {
    assert NormalizeSpotifyIsrc("-") == "" by {
      TrimUnchanged("-");
      assert ToUpper("-") == "-";
      assert RemoveAll("-", '-') == "";
    }
  }

  /** Non-empty codes occur at most once. */
  predicate NoRepeatedCodes(isrcs: seq<string>) {
    forall i, j :: 0 <= i < j < |isrcs| && isrcs[i] != "" ==> isrcs[i] != isrcs[j]
  }

  /** Skipping filled codes keeps a list free of repeated codes. */
  lemma WithIsrcKeepsNoRepeatedCodes(isrcs: seq<string>, spotifyIsrc: string)
    requires NoRepeatedCodes(isrcs)
    ensures NoRepeatedCodes(WithIsrc(isrcs, spotifyIsrc, true))
  {
    var r := WithIsrc(isrcs, spotifyIsrc, true);
    if r != isrcs {
      var c := NormalizeSpotifyIsrc(spotifyIsrc);
      assert r == isrcs + [c];
      forall i, j | 0 <= i < j < |r| && r[i] != ""
        ensures r[i] != r[j]
      {
        if j == |isrcs| {
          assert r[i] in isrcs;
        }
      }
    }
  }

  // ---------------------------------------------------------------------
  // Per-track edits
  // ---------------------------------------------------------------------

  /** The detailed Spotify track aligned with a placement: the first track
      of the album with the same disc and track number, fetched again for
      its ISRC. */
  function AlignedTrack(album: Spotify.Album, api: SpotifyApi, p: Placement): Option<Spotify.Track>
    requires album.tracks.Some?
  {
    match FindTrack(album.tracks.value.items, p.discNr, p.track.position)
    case None => None
    case Some(spotifyTrack) => Some(api.getTrack(spotifyTrack.id))
  }

  /** The ISRC Spotify reports for the placement ("" when none or when no
      track is aligned). */
  function SpotifyIsrc(album: Spotify.Album, api: SpotifyApi, p: Placement): string
    requires album.tracks.Some?
  {
    match AlignedTrack(album, api, p)
    case None => ""
    case Some(t) => t.isrc
  }

  /** A request to link a recording with a Spotify track. */
  datatype SpotifyLink = SpotifyLink(recordingId: string, spotifyTrackId: string)

  /** A recording entry of the ISRC submission. */
  datatype IsrcSubmission = IsrcSubmission(recordingId: string, isrc: string)

  /** The link request of one placement: one when a track is aligned. */
  function LinkOf(album: Spotify.Album, api: SpotifyApi, p: Placement): seq<SpotifyLink>
    requires album.tracks.Some?
  {
    match AlignedTrack(album, api, p)
    case None => []
    case Some(t) => [SpotifyLink(p.track.recording.id, t.id)]
  }

  /** The link requests of the placements, in order. */
  function Links(album: Spotify.Album, api: SpotifyApi, ps: seq<Placement>): seq<SpotifyLink>
    requires album.tracks.Some?
  {
    if ps == [] then []
    else Links(album, api, ps[..|ps| - 1]) + LinkOf(album, api, ps[|ps| - 1])
  }

  /** Every link request names a recording that is placed, and a track
      that `getTrack` returned for an aligned track. */
  lemma {:induction false} LinksAreAligned(album: Spotify.Album, api: SpotifyApi, ps: seq<Placement>, link: SpotifyLink)
    requires album.tracks.Some?
    requires link in Links(album, api, ps)
    ensures exists k :: 0 <= k < |ps| && link.recordingId == ps[k].track.recording.id
                        && AlignedTrack(album, api, ps[k]).Some? && link.spotifyTrackId == AlignedTrack(album, api, ps[k]).value.id
    decreases |ps|
  {
    var init := ps[..|ps| - 1];
    if link in Links(album, api, init) {
      LinksAreAligned(album, api, init, link);
      var k :| 0 <= k < |init| && link.recordingId == init[k].track.recording.id
        && AlignedTrack(album, api, init[k]).Some? && link.spotifyTrackId == AlignedTrack(album, api, init[k]).value.id;
      assert init[k] == ps[k];
    } else {
      assert link in LinkOf(album, api, ps[|ps| - 1]);
    }
  }

  /** Each recording's codes. */
  type IsrcTable = map<MusicBrainz.Recording, seq<string>>

  /** The codes of a recording in the table, none when it has no entry. */
  function Lookup(table: IsrcTable, r: MusicBrainz.Recording): seq<string> {
    if r in table then table[r] else []
  }

  /** The recordings the placements place. */
  function Recordings(ps: seq<Placement>): set<MusicBrainz.Recording> {
    set p | p in ps :: p.track.recording
  }

  /** The codes the placed recordings hold now. */
  function IsrcsOf(ps: seq<Placement>): (table: IsrcTable)
    reads Recordings(ps)
    ensures forall k :: 0 <= k < |ps| ==> Lookup(table, ps[k].track.recording) == ps[k].track.recording.isrcs
  {
    var table := map r | r in Recordings(ps) :: r.isrcs;
    assert forall k :: 0 <= k < |ps| ==> ps[k] in ps;
    table
  }

  /** The submission entry of one placement, checked against `isrcs`, the
      codes its recording holds. */
  function SubmissionOf(isrcs: seq<string>, album: Spotify.Album, api: SpotifyApi, skipFilledIsrcs: bool, p: Placement): seq<IsrcSubmission>
    requires album.tracks.Some?
  {
    match IsrcToAdd(isrcs, SpotifyIsrc(album, api, p), skipFilledIsrcs)
    case None => []
    case Some(isrc) => [IsrcSubmission(p.track.recording.id, isrc)]
  }

  /** The submission entries of the placements, in order, each checked
      against the codes in `table`, which the submission does not change. */
  function Submissions(table: IsrcTable, album: Spotify.Album, api: SpotifyApi, skipFilledIsrcs: bool, ps: seq<Placement>): seq<IsrcSubmission>
    requires album.tracks.Some?
  {
    if ps == [] then []
    else
      var p := ps[|ps| - 1];
      Submissions(table, album, api, skipFilledIsrcs, ps[..|ps| - 1])
      + SubmissionOf(Lookup(table, p.track.recording), album, api, skipFilledIsrcs, p)
  }

  /** The body of the track loop of `addIsrcsToRelease`: the entry to
      submit and the link to request for one track of a medium. */
  method TrackEdits(album: Spotify.Album, api: SpotifyApi, skipFilledIsrcs: bool, discNr: int, track: MusicBrainz.Track)
    returns (submission: seq<IsrcSubmission>, link: seq<SpotifyLink>)
    requires album.tracks.Some?
    ensures submission == SubmissionOf(track.recording.isrcs, album, api, skipFilledIsrcs, Placement(discNr, track))
    ensures link == LinkOf(album, api, Placement(discNr, track))
  {
    submission, link := [], [];
    var recording := track.recording;
    var spotifyTrack := GetSpotifyTrack(album, discNr, track.position);
    if spotifyTrack.Some? {
      var detail := api.getTrack(spotifyTrack.value.id);
      if detail.isrc != "" {
        var spotifyIsrc := NormalizeSpotifyIsrc(detail.isrc);
        if skipFilledIsrcs && spotifyIsrc in recording.isrcs && spotifyIsrc != "" {
        } else {
          submission := [IsrcSubmission(recording.id, spotifyIsrc)];
        }
      }
      link := [SpotifyLink(recording.id, detail.id)];
    }
  }

  /** The placements of one more medium. */
  lemma PlacementsSnocMedium(media: seq<MusicBrainz.Medium>, i: nat)
    requires i < |media|
    ensures Placements(media[..i + 1]) == Placements(media[..i]) + MediumPlacements(media[i])
    ensures Placements(media[..i]) + MediumPlacements(media[i])[..0] == Placements(media[..i])
    ensures MediumPlacements(media[i])[..|media[i].tracks|] == MediumPlacements(media[i])
  {
    assert media[..i + 1][..i] == media[..i];
  }

  lemma {:induction false} LinksAppend(album: Spotify.Album, api: SpotifyApi, a: seq<Placement>, b: seq<Placement>)
    requires album.tracks.Some?
    ensures Links(album, api, a + b) == Links(album, api, a) + Links(album, api, b)
    decreases |b|
  {
    if b == [] {
      Seqs.AppendEmpty(a);
    } else {
      var init, last := b[..|b| - 1], b[|b| - 1];
      Seqs.SplitLast(b);
      LinksAppend(album, api, a, init);
      Seqs.AppendAssociative(a, init, [last]);
      LinksSnoc(album, api, a + init, last);
      LinksSnoc(album, api, init, last);
      Seqs.AppendAssociative(Links(album, api, a), Links(album, api, init), LinkOf(album, api, last));
    }
  }

  lemma {:induction false} SubmissionsAppend(table: IsrcTable, album: Spotify.Album, api: SpotifyApi, skipFilledIsrcs: bool,
                                             a: seq<Placement>, b: seq<Placement>)
    requires album.tracks.Some?
    ensures Submissions(table, album, api, skipFilledIsrcs, a + b)
      == Submissions(table, album, api, skipFilledIsrcs, a) + Submissions(table, album, api, skipFilledIsrcs, b)
    decreases |b|
  {
    if b == [] {
      Seqs.AppendEmpty(a);
    } else {
      var init, last := b[..|b| - 1], b[|b| - 1];
      Seqs.SplitLast(b);
      SubmissionsAppend(table, album, api, skipFilledIsrcs, a, init);
      SubmissionsAppendStep(table, album, api, skipFilledIsrcs, a, init, last);
    }
  }

  /** The inductive step of `SubmissionsAppend`. */
  lemma SubmissionsAppendStep(table: IsrcTable, album: Spotify.Album, api: SpotifyApi, skipFilledIsrcs: bool,
                              a: seq<Placement>, init: seq<Placement>, last: Placement)
    requires album.tracks.Some?
    requires Submissions(table, album, api, skipFilledIsrcs, a + init)
      == Submissions(table, album, api, skipFilledIsrcs, a) + Submissions(table, album, api, skipFilledIsrcs, init)
    ensures Submissions(table, album, api, skipFilledIsrcs, a + (init + [last]))
      == Submissions(table, album, api, skipFilledIsrcs, a) + Submissions(table, album, api, skipFilledIsrcs, init + [last])
  {
    Seqs.AppendAssociative(a, init, [last]);
    SubmissionsSnoc(table, album, api, skipFilledIsrcs, a + init, last);
    SubmissionsSnoc(table, album, api, skipFilledIsrcs, init, last);
    Seqs.AppendAssociative(Submissions(table, album, api, skipFilledIsrcs, a), Submissions(table, album, api, skipFilledIsrcs, init),
                      SubmissionOf(Lookup(table, last.track.recording), album, api, skipFilledIsrcs, last));
  }

  /** Working through one more placement appends its link request. */
  lemma LinksSnoc(album: Spotify.Album, api: SpotifyApi, ps: seq<Placement>, p: Placement)
    requires album.tracks.Some?
    ensures Links(album, api, ps + [p]) == Links(album, api, ps) + LinkOf(album, api, p)
  {
    Seqs.TakeSnoc(ps, p);
  }

  /** Working through one more placement appends its entry. */
  lemma SubmissionsSnoc(table: IsrcTable, album: Spotify.Album, api: SpotifyApi, skipFilledIsrcs: bool,
                        ps: seq<Placement>, p: Placement)
    requires album.tracks.Some?
    ensures Submissions(table, album, api, skipFilledIsrcs, ps + [p])
      == Submissions(table, album, api, skipFilledIsrcs, ps) + SubmissionOf(Lookup(table, p.track.recording), album, api, skipFilledIsrcs, p)
  {
    Seqs.TakeSnoc(ps, p);
  }

  /** The codes in the table are those the placed recordings hold. */
  predicate Current(table: IsrcTable, ps: seq<Placement>)
    reads set k | 0 <= k < |ps| :: ps[k].track.recording
  {
    forall k :: 0 <= k < |ps| ==> Lookup(table, ps[k].track.recording) == ps[k].track.recording.isrcs
  }

  /** The track loop of `addIsrcsToRelease`, over the tracks of one
      medium. */
  method MediumEdits(album: Spotify.Album, api: SpotifyApi, skipFilledIsrcs: bool, ghost table: IsrcTable, medium: MusicBrainz.Medium)
    returns (submissions: seq<IsrcSubmission>, links: seq<SpotifyLink>)
    requires album.tracks.Some?
    requires Current(table, MediumPlacements(medium))
    ensures submissions == Submissions(table, album, api, skipFilledIsrcs, MediumPlacements(medium))
    ensures links == Links(album, api, MediumPlacements(medium))
  {
    ghost var ms := MediumPlacements(medium);
    submissions, links := [], [];
    for j := 0 to |medium.tracks|
      invariant submissions == Submissions(table, album, api, skipFilledIsrcs, ms[..j])
      invariant links == Links(album, api, ms[..j])
    {
      ghost var p := ms[j];
      Seqs.TakeNext(ms, j);
      var submission, link := TrackEdits(album, api, skipFilledIsrcs, medium.position, medium.tracks[j]);
      SubmissionsSnoc(table, album, api, skipFilledIsrcs, ms[..j], p);
      LinksSnoc(album, api, ms[..j], p);
      submissions, links := submissions + submission, links + link;
    }
    assert ms[..|medium.tracks|] == ms;
  }

  /** Every placement of a medium is a placement of the release. */
  lemma MediumInRelease(media: seq<MusicBrainz.Medium>, i: nat)
    requires i < |media|
    ensures var ms := MediumPlacements(media[i]);
      forall k :: 0 <= k < |ms| ==> ms[k] in Placements(media)
  {
    var ms := MediumPlacements(media[i]);
    PlacementsSnocMedium(media, i);
    PlacementsPrefix(media, i + 1);
    var before := Placements(media[..i]);
    forall k | 0 <= k < |ms| ensures ms[k] in Placements(media) {
      assert ms[k] == (before + ms)[|before| + k];
    }
  }

  /** A table of the codes placed recordings hold is current for any of
      those placements. */
  lemma IsrcsOfCurrent(ps: seq<Placement>, qs: seq<Placement>)
    requires forall k :: 0 <= k < |qs| ==> qs[k] in ps
    ensures Current(IsrcsOf(ps), qs)
  {
  }

  /** `addIsrcsToRelease`, for a release and an album already fetched: the
      link requests it makes, and the ISRC entries it would submit. The
      recordings are left as they are. */
  method AddIsrcsToRelease(release: MusicBrainz.Release, album: Spotify.Album, api: SpotifyApi, skipFilledIsrcs: bool)
    returns (submissions: seq<IsrcSubmission>, links: seq<SpotifyLink>)
    requires album.tracks.Some?
    ensures submissions == Submissions(IsrcsOf(Placements(release.media)), album, api, skipFilledIsrcs, Placements(release.media))
    ensures links == Links(album, api, Placements(release.media))
  {
    ghost var table := IsrcsOf(Placements(release.media));
    submissions, links := [], [];
    var media := release.media;
    for i := 0 to |media|
      invariant submissions == Submissions(table, album, api, skipFilledIsrcs, Placements(media[..i]))
      invariant links == Links(album, api, Placements(media[..i]))
    {
      MediumInRelease(media, i);
      IsrcsOfCurrent(Placements(media), MediumPlacements(media[i]));
      var mediumSubmissions, mediumLinks := MediumEdits(album, api, skipFilledIsrcs, table, media[i]);
      PlacementsSnocMedium(media, i);
      SubmissionsAppend(table, album, api, skipFilledIsrcs, Placements(media[..i]), MediumPlacements(media[i]));
      LinksAppend(album, api, Placements(media[..i]), MediumPlacements(media[i]));
      submissions, links := submissions + mediumSubmissions, links + mediumLinks;
    }
    assert media[..|media|] == media;
  }

  // ---------------------------------------------------------------------
  // Pushing the codes into the recordings
  // ---------------------------------------------------------------------

  /** The codes after the placements are worked through in order, each
      pushing its code onto its recording's list. A recording placed twice
      has its second placement checked against the list the first one
      left. */
  function AugmentedIsrcs(table: IsrcTable, album: Spotify.Album, api: SpotifyApi, skipFilledIsrcs: bool,
                          ps: seq<Placement>): IsrcTable
    requires album.tracks.Some?
  {
    if ps == [] then table
    else
      var p := ps[|ps| - 1];
      var t := AugmentedIsrcs(table, album, api, skipFilledIsrcs, ps[..|ps| - 1]);
      t[p.track.recording := WithIsrc(Lookup(t, p.track.recording), SpotifyIsrc(album, api, p), skipFilledIsrcs)]
  }

  /** Codes are only ever appended: each recording's list keeps its old
      codes as a prefix. */
  lemma {:induction false} AugmentedIsrcsExtend(table: IsrcTable, album: Spotify.Album, api: SpotifyApi, skipFilledIsrcs: bool,
                                                ps: seq<Placement>, r: MusicBrainz.Recording)
    requires album.tracks.Some?
    ensures Lookup(table, r) <= Lookup(AugmentedIsrcs(table, album, api, skipFilledIsrcs, ps), r)
    decreases |ps|
  {
    if ps != [] {
      AugmentedIsrcsExtend(table, album, api, skipFilledIsrcs, ps[..|ps| - 1], r);
    }
  }

  /** Skipping filled codes keeps every list free of repeated codes. */
  lemma {:induction false} AugmentedIsrcsNoRepeatedCodes(table: IsrcTable, album: Spotify.Album, api: SpotifyApi,
                                                         ps: seq<Placement>, r: MusicBrainz.Recording)
    requires album.tracks.Some?
    requires forall q :: q in table ==> NoRepeatedCodes(table[q])
    ensures NoRepeatedCodes(Lookup(AugmentedIsrcs(table, album, api, true, ps), r))
    decreases |ps|
  {
    if ps != [] {
      var p := ps[|ps| - 1];
      var t := AugmentedIsrcs(table, album, api, true, ps[..|ps| - 1]);
      AugmentedIsrcsNoRepeatedCodes(table, album, api, ps[..|ps| - 1], r);
      if r == p.track.recording {
        WithIsrcKeepsNoRepeatedCodes(Lookup(t, r), SpotifyIsrc(album, api, p));
      }
    }
  }

  /** A recording no placement places keeps its codes. */
  lemma {:induction false} Untouched(table: IsrcTable, album: Spotify.Album, api: SpotifyApi, skipFilledIsrcs: bool,
                                     ps: seq<Placement>, r: MusicBrainz.Recording)
    requires album.tracks.Some?
    requires forall k :: 0 <= k < |ps| ==> ps[k].track.recording != r
    ensures Lookup(AugmentedIsrcs(table, album, api, skipFilledIsrcs, ps), r) == Lookup(table, r)
    decreases |ps|
  {
    if ps != [] {
      Untouched(table, album, api, skipFilledIsrcs, ps[..|ps| - 1], r);
    }
  }

  /** When no recording is placed twice, each recording gets exactly the
      code its own placement lets through, which is also the entry
      `addIsrcsToRelease` submits for it. */
  lemma {:induction false} AugmentedIsrcsDistinct(table: IsrcTable, album: Spotify.Album, api: SpotifyApi,
                                                  skipFilledIsrcs: bool, ps: seq<Placement>, k: nat)
    requires album.tracks.Some?
    requires forall a, b :: 0 <= a < b < |ps| ==> ps[a].track.recording != ps[b].track.recording
    requires k < |ps|
    ensures var r := ps[k].track.recording;
      && Lookup(AugmentedIsrcs(table, album, api, skipFilledIsrcs, ps), r)
           == WithIsrc(Lookup(table, r), SpotifyIsrc(album, api, ps[k]), skipFilledIsrcs)
      && Lookup(AugmentedIsrcs(table, album, api, skipFilledIsrcs, ps), r)
           == Lookup(table, r) + SubmittedCodes(SubmissionOf(Lookup(table, r), album, api, skipFilledIsrcs, ps[k]))
    decreases |ps|
  {
    var r := ps[k].track.recording;
    var init := ps[..|ps| - 1];
    if k == |ps| - 1 {
      Untouched(table, album, api, skipFilledIsrcs, init, r);
    } else {
      assert init[k] == ps[k];
      AugmentedIsrcsDistinct(table, album, api, skipFilledIsrcs, init, k);
    }
    WithIsrcIsSubmitted(Lookup(table, r), album, api, skipFilledIsrcs, ps[k]);
  }

  /** The code pushed onto a list is the code of the submission entry. */
  lemma WithIsrcIsSubmitted(isrcs: seq<string>, album: Spotify.Album, api: SpotifyApi, skipFilledIsrcs: bool, p: Placement)
    requires album.tracks.Some?
    ensures WithIsrc(isrcs, SpotifyIsrc(album, api, p), skipFilledIsrcs)
      == isrcs + SubmittedCodes(SubmissionOf(isrcs, album, api, skipFilledIsrcs, p))
  {
    Seqs.AppendEmpty(isrcs);
  }

  /** The codes of submission entries. */
  function SubmittedCodes(submissions: seq<IsrcSubmission>): seq<string> {
    seq(|submissions|, k requires 0 <= k < |submissions| => submissions[k].isrc)
  }

  /** The body of the track loop of `augmentReleaseWithSpotifyAlbum`: the
      recording of one track gets its code, and the link is requested. */
  method AugmentTrack(album: Spotify.Album, api: SpotifyApi, skipFilledIsrcs: bool, discNr: int, track: MusicBrainz.Track)
    returns (link: seq<SpotifyLink>)
    requires album.tracks.Some?
    modifies track.recording
    ensures track.recording.isrcs ==
      WithIsrc(old(track.recording.isrcs), SpotifyIsrc(album, api, Placement(discNr, track)), skipFilledIsrcs)
    ensures link == LinkOf(album, api, Placement(discNr, track))
  {
    link := [];
    var recording := track.recording;
    var spotifyTrack := GetSpotifyTrack(album, discNr, track.position);
    if spotifyTrack.Some? {
      var detail := api.getTrack(spotifyTrack.value.id);
      if detail.isrc != "" {
        var spotifyIsrc := NormalizeSpotifyIsrc(detail.isrc);
        if skipFilledIsrcs && spotifyIsrc in recording.isrcs && spotifyIsrc != "" {
        } else {
          recording.isrcs := recording.isrcs + [spotifyIsrc];
        }
      }
      link := [SpotifyLink(recording.id, detail.id)];
    }
  }

  /** The track loop of `augmentReleaseWithSpotifyAlbum`, over the tracks
      of one medium: the placements `before` it are already worked
      through, and afterwards so are the medium's. */
  method AugmentMedium(album: Spotify.Album, api: SpotifyApi, skipFilledIsrcs: bool, medium: MusicBrainz.Medium,
                       ghost table: IsrcTable, ghost ps: seq<Placement>, ghost before: seq<Placement>)
    returns (links: seq<SpotifyLink>)
    requires album.tracks.Some?
    requires before + MediumPlacements(medium) <= ps
    requires forall r :: r in Recordings(ps) ==>
      r.isrcs == Lookup(AugmentedIsrcs(table, album, api, skipFilledIsrcs, before), r)
    modifies Recordings(ps)
    ensures links == Links(album, api, MediumPlacements(medium))
    ensures forall r :: r in Recordings(ps) ==>
      r.isrcs == Lookup(AugmentedIsrcs(table, album, api, skipFilledIsrcs, before + MediumPlacements(medium)), r)
  {
    ghost var ms := MediumPlacements(medium);
    links := [];
    Seqs.AppendEmpty(before);
    for j := 0 to |medium.tracks|
      invariant links == Links(album, api, ms[..j])
      invariant forall r :: r in Recordings(ps) ==>
        r.isrcs == Lookup(AugmentedIsrcs(table, album, api, skipFilledIsrcs, before + ms[..j]), r)
    {
      ghost var done := before + ms[..j];
      ghost var p := ms[j];
      Seqs.TakeNext(ms, j);
      Seqs.AppendAssociative(before, ms[..j], [p]);
      Seqs.PrefixMember(before + ms, ps, |before| + j);
      assert p.track.recording in Recordings(ps);
      ghost var t := AugmentedIsrcs(table, album, api, skipFilledIsrcs, done);
      var link := AugmentTrack(album, api, skipFilledIsrcs, medium.position, medium.tracks[j]);
      forall r | r in Recordings(ps)
        ensures r.isrcs == Lookup(AugmentedIsrcs(table, album, api, skipFilledIsrcs, done + [p]), r)
      {
        AugmentedIsrcsSnoc(table, album, api, skipFilledIsrcs, done, p, r);
      }
      LinksSnoc(album, api, ms[..j], p);
      links := links + link;
    }
    assert ms[..|medium.tracks|] == ms;
  }

  /** Working through one more placement changes the codes of its
      recording only. */
  lemma AugmentedIsrcsSnoc(table: IsrcTable, album: Spotify.Album, api: SpotifyApi, skipFilledIsrcs: bool,
                           ps: seq<Placement>, p: Placement, r: MusicBrainz.Recording)
    requires album.tracks.Some?
    ensures var t := AugmentedIsrcs(table, album, api, skipFilledIsrcs, ps);
      Lookup(AugmentedIsrcs(table, album, api, skipFilledIsrcs, ps + [p]), r)
        == if r == p.track.recording then WithIsrc(Lookup(t, r), SpotifyIsrc(album, api, p), skipFilledIsrcs) else Lookup(t, r)
  {
    Seqs.TakeSnoc(ps, p);
  }

  /** `augmentReleaseWithSpotifyAlbum`, for a release and an album already
      fetched: every placed recording ends up with the codes
      `AugmentedIsrcs` computes from the codes it had, and the link requests
      are those of `addIsrcsToRelease`. */
  method AugmentReleaseWithSpotifyAlbum(release: MusicBrainz.Release, album: Spotify.Album, api: SpotifyApi, skipFilledIsrcs: bool)
    returns (links: seq<SpotifyLink>)
    requires album.tracks.Some?
    modifies Recordings(Placements(release.media))
    ensures links == Links(album, api, Placements(release.media))
    ensures forall r :: r in Recordings(Placements(release.media)) ==>
      r.isrcs == Lookup(AugmentedIsrcs(old(IsrcsOf(Placements(release.media))), album, api, skipFilledIsrcs, Placements(release.media)), r)
  {
    ghost var ps := Placements(release.media);
    ghost var table := IsrcsOf(ps);
    links := [];
    var media := release.media;
    for i := 0 to |media|
      invariant links == Links(album, api, Placements(media[..i]))
      invariant forall r :: r in Recordings(ps) ==>
        r.isrcs == Lookup(AugmentedIsrcs(table, album, api, skipFilledIsrcs, Placements(media[..i])), r)
    {
      PlacementsSnocMedium(media, i);
      PlacementsPrefix(media, i + 1);
      var mediumLinks := AugmentMedium(album, api, skipFilledIsrcs, media[i], table, ps, Placements(media[..i]));
      LinksAppend(album, api, Placements(media[..i]), MediumPlacements(media[i]));
      links := links + mediumLinks;
    }
    assert media[..|media|] == media;
  }

  /** `augmentRelease`: match the release, then augment it with the first
      album found; nothing happens when no album is found. */
  method AugmentRelease(utils: StringUtils, release: MusicBrainz.Release, api: SpotifyApi, validateSpotifyLink: bool,
                        skipFilledIsrcs: bool)
    returns (links: seq<SpotifyLink>)
    requires HandsOutTracks(api)
    modifies Recordings(Placements(release.media))
    ensures FoundIds(utils, release, api, validateSpotifyLink) == [] ==>
      && links == []
      && forall r :: r in Recordings(Placements(release.media)) ==> r.isrcs == old(r.isrcs)
    ensures FoundIds(utils, release, api, validateSpotifyLink) != [] ==>
      var album := api.getAlbum(FoundIds(utils, release, api, validateSpotifyLink)[0]);
      && links == Links(album, api, Placements(release.media))
      && forall r :: r in Recordings(Placements(release.media)) ==>
           r.isrcs == Lookup(AugmentedIsrcs(old(IsrcsOf(Placements(release.media))), album, api, skipFilledIsrcs,
                                            Placements(release.media)), r)
  {
    ghost var ps := Placements(release.media);
    ghost var table := IsrcsOf(ps);
    var spotAlbumIds := SearchSpotifyAlbums(utils, release, api, validateSpotifyLink);
    assert forall r :: r in Recordings(ps) ==> r.isrcs == old(r.isrcs);
    assert IsrcsOf(ps) == table;
    links := [];
    if |spotAlbumIds| > 0 {
      var album := api.getAlbum(spotAlbumIds[0]);
      links := AugmentReleaseWithSpotifyAlbum(release, album, api, skipFilledIsrcs);
    }
  }
}
