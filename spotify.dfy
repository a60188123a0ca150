/** The Spotify Web API records the core reads (`spotify.types.ts`),
    reduced to the fields the core uses. */
module Spotify {
  import opened Wrappers

  /** `ILimitedResult<T>`: one page of a paged collection. `offset` is the
      index of `items[0]` in the whole collection, `total` its declared size. */
  datatype Paging<T> = Paging(items: seq<T>, offset: nat, total: int)

  /** `ITrack`. `isrc` is `external_ids.isrc`, only filled in by a detailed
      track request; the empty string stands for an absent code. */
  datatype Track = Track(
    id: string,
    discNumber: int,
    trackNumber: int,
    name: string,
    durationMs: int,
    isrc: string)

  /** `IAlbum`. `tracks` is absent until the album's tracks are fetched. */
  datatype Album = Album(id: string, totalTracks: int, tracks: Option<Paging<Track>>)
}
