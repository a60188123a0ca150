/** The MusicBrainz release records the core reads, as the MusicBrainz web
    service delivers them (`mb.IRelease` and the records it holds), reduced
    to the fields the core uses. */
module MusicBrainz {
  import opened Wrappers

  /** A recording. Its list of ISRCs is changed in place when codes are
      added to it; the other fields never change. `length` is `None` when
      the web service reports `null`. */
  class Recording {
    const id: string
    const title: string
    const length: Option<int>
    var isrcs: seq<string>

    constructor (id: string, title: string, length: Option<int>, isrcs: seq<string>)
      ensures this.id == id && this.title == title && this.length == length
      ensures this.isrcs == isrcs
    {
      this.id := id;
      this.title := title;
      this.length := length;
      this.isrcs := isrcs;
    }
  }

  /** A track: its 1-based `position` on its medium, its title and the
      recording it places there. */
  datatype Track = Track(id: string, position: int, title: string, recording: Recording)

  /** A medium (disc): its 1-based `position` in the release and its tracks. */
  datatype Medium = Medium(position: int, tracks: seq<Track>)

  /** A relation of the release: its `target-type` and, for URL relations,
      `url.resource`. */
  datatype Relation = Relation(targetType: string, resource: string)

  datatype ArtistCredit = ArtistCredit(name: string)

  /** A release, with its media, URL relations and artist credits. A release
      without relations has `relations == []`. */
  datatype Release = Release(
    id: string,
    title: string,
    media: seq<Medium>,
    relations: seq<Relation>,
    artistCredit: seq<ArtistCredit>)
}
