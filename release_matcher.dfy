/** The release matcher of `AugmentFromSpotify.ts`: whether a MusicBrainz
    release and a Spotify album describe the same physical release.
    `similarity` and `removeBrackets` belong to a string module outside this
    model; they are fields of `StringUtils` and nothing is assumed of them. */
module ReleaseMatcher {
  import opened Wrappers
  import opened Text
  import Spotify
  import MusicBrainz

  /** `releaseDeltaSettings.maxDeltaTrackDuration`, in milliseconds. */
  const MAX_DELTA_TRACK_DURATION: int := 5000
  /** `releaseDeltaSettings.minTrackSimilarity`. */
  const MIN_TRACK_SIMILARITY: real := 0.5
  /** Below this score on the normalised names a pair is rejected at once. */
  const REJECT_SIMILARITY: real := 0.15
  const HIDDEN_TRACK: string := "Hidden Track"
  const UNTITLED: string := "[untitled]"
  const LIVE_TAG: string := "- Live"

  /** The string metrics the matcher is given: `similarity(a, b)` and
      `removeBrackets(s)`. */
  datatype StringUtils = StringUtils(similarity: (string, string) -> real, removeBrackets: string -> string)

  // ---------------------------------------------------------------------
  // Counting and enumerating the tracks of a release
  // ---------------------------------------------------------------------

  /** The number of tracks over all media. */
  function TotalTracks(media: seq<MusicBrainz.Medium>): nat {
    if media == [] then 0
    else TotalTracks(media[..|media| - 1]) + |media[|media| - 1].tracks|
  }

  /** `countMbReleaseTracks`: adds up `tracks.length` medium by medium. */
  method CountMbReleaseTracks(release: MusicBrainz.Release) returns (trackCount: nat)
    ensures trackCount == TotalTracks(release.media)
  {
    trackCount := 0;
    for i := 0 to |release.media|
      invariant trackCount == TotalTracks(release.media[..i])
    {
      assert release.media[..i + 1][..i] == release.media[..i];
      trackCount := trackCount + |release.media[i].tracks|;
    }
    assert release.media[..|release.media|] == release.media;
  }

  /** A track together with the position of its medium: what the nested
      loops over `media` and `medium.tracks` visit. */
  datatype Placement = Placement(discNr: int, track: MusicBrainz.Track)

  function MediumPlacements(medium: MusicBrainz.Medium): (ps: seq<Placement>)
    ensures |ps| == |medium.tracks|
    ensures forall j :: 0 <= j < |ps| ==> ps[j] == Placement(medium.position, medium.tracks[j])
  {
    seq(|medium.tracks|, j requires 0 <= j < |medium.tracks| => Placement(medium.position, medium.tracks[j]))
  }

  /** Every track of the release with its medium's position, in the order
      the loops visit them: media in order, then tracks in order. */
  function Placements(media: seq<MusicBrainz.Medium>): seq<Placement> {
    if media == [] then []
    else Placements(media[..|media| - 1]) + MediumPlacements(media[|media| - 1])
  }

  /** The loops visit exactly as many tracks as `countMbReleaseTracks` counts. */
  lemma {:induction false} PlacementsCount(media: seq<MusicBrainz.Medium>)
    ensures |Placements(media)| == TotalTracks(media)
    decreases |media|
  {
    if media != [] {
      PlacementsCount(media[..|media| - 1]);
    }
  }

  /** The tracks of the first `i` media are visited before all others. */
  lemma {:induction false} PlacementsPrefix(media: seq<MusicBrainz.Medium>, i: nat)
    requires i <= |media|
    ensures Placements(media[..i]) <= Placements(media)
    decreases |media| - i
  {
    if i < |media| {
      PlacementsPrefix(media, i + 1);
      assert media[..i + 1][..i] == media[..i];
    } else {
      assert media[..i] == media;
    }
  }

  // ---------------------------------------------------------------------
  // Aligning a MusicBrainz track with a Spotify track
  // ---------------------------------------------------------------------

  /** The alignment key: (`disc_number`, `track_number`). */
  predicate HasKey(t: Spotify.Track, discNr: int, trackNr: int) {
    t.discNumber == discNr && t.trackNumber == trackNr
  }

  /** `items[k]` carries the key and no earlier item does. */
  predicate IsFirstMatch(items: seq<Spotify.Track>, discNr: int, trackNr: int, k: int) {
    && 0 <= k < |items|
    && HasKey(items[k], discNr, trackNr)
    && forall j :: 0 <= j < k ==> !HasKey(items[j], discNr, trackNr)
  }

  /** The Spotify track aligned with (`discNr`, `trackNr`): the first item
      carrying that key, or nothing. */
  function FindTrack(items: seq<Spotify.Track>, discNr: int, trackNr: int): Option<Spotify.Track> {
    if items == [] then None
    else if HasKey(items[0], discNr, trackNr) then Some(items[0])
    else FindTrack(items[1..], discNr, trackNr)
  }

  /** `FindTrack` returns the item at the first match. */
  lemma {:induction false} FindTrackAt(items: seq<Spotify.Track>, discNr: int, trackNr: int, k: int)
    requires IsFirstMatch(items, discNr, trackNr, k)
    ensures FindTrack(items, discNr, trackNr) == Some(items[k])
    decreases k
  {
    if k > 0 {
      assert !HasKey(items[0], discNr, trackNr);
      assert IsFirstMatch(items[1..], discNr, trackNr, k - 1) by {
        forall j | 0 <= j < k - 1
          ensures !HasKey(items[1..][j], discNr, trackNr)
        {
          assert items[1..][j] == items[j + 1];
        }
      }
      FindTrackAt(items[1..], discNr, trackNr, k - 1);
    }
  }

  /** `FindTrack` finds nothing exactly when no item carries the key, and
      what it finds is the item at the first match. */
  lemma {:induction false} FindTrackSpec(items: seq<Spotify.Track>, discNr: int, trackNr: int)
    ensures FindTrack(items, discNr, trackNr).None? <==> forall k :: 0 <= k < |items| ==> !HasKey(items[k], discNr, trackNr)
    ensures FindTrack(items, discNr, trackNr).Some? ==>
      exists k :: IsFirstMatch(items, discNr, trackNr, k) && FindTrack(items, discNr, trackNr).value == items[k]
    decreases |items|
  {
    if items != [] && !HasKey(items[0], discNr, trackNr) {
      var rest := items[1..];
      FindTrackSpec(rest, discNr, trackNr);
      assert forall k :: 0 < k < |items| ==> items[k] == rest[k - 1];
      if FindTrack(rest, discNr, trackNr).Some? {
        var k :| IsFirstMatch(rest, discNr, trackNr, k) && FindTrack(rest, discNr, trackNr).value == rest[k];
        assert IsFirstMatch(items, discNr, trackNr, k + 1);
      }
    } else if items != [] {
      assert IsFirstMatch(items, discNr, trackNr, 0);
    }
  }

  /** `getSpotifyTrack`: a linear search of the album's items. */
  method GetSpotifyTrack(album: Spotify.Album, discNr: int, trackNr: int) returns (track: Option<Spotify.Track>)
    requires album.tracks.Some?
    ensures track.None? <==> forall k :: 0 <= k < |album.tracks.value.items| ==> !HasKey(album.tracks.value.items[k], discNr, trackNr)
    ensures track.Some? ==> exists k :: IsFirstMatch(album.tracks.value.items, discNr, trackNr, k) && track.value == album.tracks.value.items[k]
    ensures track == FindTrack(album.tracks.value.items, discNr, trackNr)
  {
    var items := album.tracks.value.items;
    for k := 0 to |items|
      invariant forall j :: 0 <= j < k ==> !HasKey(items[j], discNr, trackNr)
    {
      if items[k].discNumber == discNr && items[k].trackNumber == trackNr {
        assert IsFirstMatch(items, discNr, trackNr, k);
        FindTrackAt(items, discNr, trackNr, k);
        return Some(items[k]);
      }
    }
    FindTrackSpec(items, discNr, trackNr);
    return None;
  }

  /** Items after the first match of a key are never consulted. */
  lemma FindTrackIgnoresLaterItems(items: seq<Spotify.Track>, extra: seq<Spotify.Track>, discNr: int, trackNr: int)
    requires FindTrack(items, discNr, trackNr).Some?
    ensures FindTrack(items + extra, discNr, trackNr) == FindTrack(items, discNr, trackNr)
  {
    FindTrackSpec(items, discNr, trackNr);
    var k :| IsFirstMatch(items, discNr, trackNr, k) && FindTrack(items, discNr, trackNr).value == items[k];
    assert IsFirstMatch(items + extra, discNr, trackNr, k);
    FindTrackAt(items + extra, discNr, trackNr, k);
  }

  // ---------------------------------------------------------------------
  // Comparing one aligned pair
  // ---------------------------------------------------------------------

  /** `normalizeTrackName`: `trackName.replace('- Live', '')`. */
  function NormalizeTrackName(trackName: string): (r: string)
    ensures r == trackName <==> IndexOf(trackName, LIVE_TAG).None?
    ensures IndexOf(trackName, LIVE_TAG).Some? ==> |r| + |LIVE_TAG| == |trackName|
  {
    ReplaceFirstAtIndexOf(trackName, LIVE_TAG, "");
    ReplaceFirst(trackName, LIVE_TAG, "")
  }

  /** Only the first "- Live" is removed, and a name without it is kept. */
  lemma NormalizeTrackNameRemovesFirstLiveTag(trackName: string)
    ensures IndexOf(trackName, LIVE_TAG).None? ==> NormalizeTrackName(trackName) == trackName
    ensures IndexOf(trackName, LIVE_TAG).Some? ==>
      var i := IndexOf(trackName, LIVE_TAG).value;
      NormalizeTrackName(trackName) == trackName[..i] + trackName[i + 6..]
  {
    ReplaceFirstAtIndexOf(trackName, LIVE_TAG, "");
  }

  /** The duration that `duration_ms - recording.length` subtracts: a `null`
      length counts as 0 in JavaScript arithmetic. */
  function LengthMs(length: Option<int>): int {
    match length
    case None => 0
    case Some(ms) => ms
  }

  /** The duration check, one-sided: only a Spotify track more than 5000 ms
      longer than the recording is rejected. */
  predicate DurationAccepted(durationMs: int, length: Option<int>) {
    durationMs - LengthMs(length) <= MAX_DELTA_TRACK_DURATION
  }

  /** The two-stage title check: the score of the normalised names, and
      only when that lies in [0.15, 0.5) the score of the bracket-stripped
      raw names. */
  predicate TitleAccepted(utils: StringUtils, spotifyName: string, mbTitle: string) {
    var score := utils.similarity(NormalizeTrackName(spotifyName), NormalizeTrackName(mbTitle));
    || MIN_TRACK_SIMILARITY <= score
    || (&& REJECT_SIMILARITY <= score
        && MIN_TRACK_SIMILARITY <= utils.similarity(utils.removeBrackets(spotifyName), utils.removeBrackets(mbTitle)))
  }

  /** One aligned pair: a Spotify "Hidden Track" matches exactly an
      "[untitled]" MusicBrainz track and skips the other checks; every other
      pair must pass the title check and the duration check. */
  predicate PairAccepted(utils: StringUtils, spotifyTrack: Spotify.Track, track: MusicBrainz.Track) {
    if spotifyTrack.name == HIDDEN_TRACK then track.title == UNTITLED
    else
      && TitleAccepted(utils, spotifyTrack.name, track.title)
      && DurationAccepted(spotifyTrack.durationMs, track.recording.length)
  }

  /** A MusicBrainz track on medium `discNr` is accepted when a Spotify track
      carries its key and the pair passes. */
  predicate TrackAccepted(utils: StringUtils, items: seq<Spotify.Track>, discNr: int, track: MusicBrainz.Track) {
    match FindTrack(items, discNr, track.position)
    case None => false
    case Some(spotifyTrack) => PairAccepted(utils, spotifyTrack, track)
  }

  /** Same release: the track counts agree and every track of every medium
      is accepted. There is no partial match. */
  predicate SameRelease(utils: StringUtils, release: MusicBrainz.Release, album: Spotify.Album)
    requires album.tracks.Some?
  {
    && TotalTracks(release.media) == album.totalTracks
    && forall i, j :: 0 <= i < |release.media| && 0 <= j < |release.media[i].tracks| ==>
         TrackAccepted(utils, album.tracks.value.items, release.media[i].position, release.media[i].tracks[j])
  }

  /** `isSameRelease`: the count check first, then nested loops over media
      and tracks that return false at the first rejected track. */
  method IsSameRelease(release: MusicBrainz.Release, album: Spotify.Album, utils: StringUtils) returns (same: bool)
    requires album.tracks.Some?
    ensures same == SameRelease(utils, release, album)
  {
    var mbTotalTracks := CountMbReleaseTracks(release);
    if mbTotalTracks != album.totalTracks {
      return false;
    }
    var items := album.tracks.value.items;
    var media := release.media;
    for i := 0 to |media|
      invariant forall i', j :: 0 <= i' < i && 0 <= j < |media[i'].tracks| ==>
                  TrackAccepted(utils, items, media[i'].position, media[i'].tracks[j])
    {
      var medium := media[i];
      for j := 0 to |medium.tracks|
        invariant forall i', j' :: 0 <= i' < i && 0 <= j' < |media[i'].tracks| ==>
                    TrackAccepted(utils, items, media[i'].position, media[i'].tracks[j'])
        invariant forall j' :: 0 <= j' < j ==> TrackAccepted(utils, items, medium.position, medium.tracks[j'])
      {
        var track := medium.tracks[j];
        var spotifyTrack := GetSpotifyTrack(album, medium.position, track.position);
        if spotifyTrack.None? {
          assert !TrackAccepted(utils, items, medium.position, track);
          return false;
        }
        var st := spotifyTrack.value;
        if st.name == HIDDEN_TRACK {
          if track.title == UNTITLED {
            continue;
          }
          assert !TrackAccepted(utils, items, medium.position, track);
          return false;
        }
        var score := utils.similarity(NormalizeTrackName(st.name), NormalizeTrackName(track.title));
        if score < MIN_TRACK_SIMILARITY {
          if score < REJECT_SIMILARITY {
            assert !TrackAccepted(utils, items, medium.position, track);
            return false;
          }
          var spName := utils.removeBrackets(st.name);
          var mbName := utils.removeBrackets(track.title);
          score := utils.similarity(spName, mbName);
          if score < MIN_TRACK_SIMILARITY {
            assert !TrackAccepted(utils, items, medium.position, track);
            return false;
          }
        }
        var delta := st.durationMs - LengthMs(track.recording.length);
        if delta > MAX_DELTA_TRACK_DURATION {
          assert !TrackAccepted(utils, items, medium.position, track);
          return false;
        }
      }
    }
    return true;
  }

  // ---------------------------------------------------------------------
  // Properties of the decision
  // ---------------------------------------------------------------------

  /** A track-count mismatch rejects, whatever the tracks hold. */
  lemma CountMismatchRejects(utils: StringUtils, release: MusicBrainz.Release, album: Spotify.Album)
    requires album.tracks.Some?
    requires TotalTracks(release.media) != album.totalTracks
    ensures !SameRelease(utils, release, album)
  {
  }

  /** A single MusicBrainz track without a Spotify track of the same key
      rejects the whole release. */
  lemma MissingKeyRejects(utils: StringUtils, release: MusicBrainz.Release, album: Spotify.Album, i: nat, j: nat)
    requires album.tracks.Some?
    requires i < |release.media| && j < |release.media[i].tracks|
    requires FindTrack(album.tracks.value.items, release.media[i].position, release.media[i].tracks[j].position).None?
    ensures !SameRelease(utils, release, album)
  {
    assert !TrackAccepted(utils, album.tracks.value.items, release.media[i].position, release.media[i].tracks[j]);
  }

  /** A pair whose Spotify name is "Hidden Track" is accepted exactly when
      the MusicBrainz title is "[untitled]", whatever the titles' scores and
      the durations. */
  lemma HiddenTrackPair(utils: StringUtils, spotifyTrack: Spotify.Track, track: MusicBrainz.Track)
    requires spotifyTrack.name == HIDDEN_TRACK
    ensures PairAccepted(utils, spotifyTrack, track) <==> track.title == UNTITLED
  {
  }

  /** The three outcomes of the title check. */
  lemma TitleCheckStages(utils: StringUtils, spotifyName: string, mbTitle: string)
    ensures var score := utils.similarity(NormalizeTrackName(spotifyName), NormalizeTrackName(mbTitle));
      && (MIN_TRACK_SIMILARITY <= score ==> TitleAccepted(utils, spotifyName, mbTitle))
      && (score < REJECT_SIMILARITY ==> !TitleAccepted(utils, spotifyName, mbTitle))
      && (REJECT_SIMILARITY <= score < MIN_TRACK_SIMILARITY ==>
            (TitleAccepted(utils, spotifyName, mbTitle) <==>
             MIN_TRACK_SIMILARITY <= utils.similarity(utils.removeBrackets(spotifyName), utils.removeBrackets(mbTitle))))
  {
  }

  /** The duration tolerance is one-sided and inclusive: a Spotify track
      that is shorter, equally long or at most 5000 ms longer passes. */
  lemma DurationTolerance(durationMs: int, lengthMs: int)
    ensures DurationAccepted(durationMs, Some(lengthMs)) <==> durationMs - lengthMs <= 5000
    ensures durationMs <= lengthMs + 5000 ==> DurationAccepted(durationMs, Some(lengthMs))
    ensures DurationAccepted(durationMs, None) <==> durationMs <= 5000
  {
  }

  /** Spotify items that follow the matched ones do not change the
      decision: the alignment takes the first item of each key. */
  lemma SameReleaseIgnoresTrailingItems(utils: StringUtils, release: MusicBrainz.Release, album: Spotify.Album, extra: seq<Spotify.Track>)
    requires album.tracks.Some?
    requires forall i, j :: 0 <= i < |release.media| && 0 <= j < |release.media[i].tracks| ==>
      FindTrack(album.tracks.value.items, release.media[i].position, release.media[i].tracks[j].position).Some?
    ensures var page := album.tracks.value;
      var longer := album.(tracks := Some(page.(items := page.items + extra)));
      SameRelease(utils, release, longer) == SameRelease(utils, release, album)
  {
    var page := album.tracks.value;
    var longer := album.(tracks := Some(page.(items := page.items + extra)));
    forall i, j | 0 <= i < |release.media| && 0 <= j < |release.media[i].tracks|
      ensures TrackAccepted(utils, page.items + extra, release.media[i].position, release.media[i].tracks[j])
          == TrackAccepted(utils, page.items, release.media[i].position, release.media[i].tracks[j])
    {
      FindTrackIgnoresLaterItems(page.items, extra, release.media[i].position, release.media[i].tracks[j].position);
    }
  }
}
