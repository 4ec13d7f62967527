/** The closed enumeration of tag types. `NumOfItemTypes` is the sentinel
    that is not a real type: it requests "unsorted" and terminates the
    sort-value fallback chain. */
module TagTypes {

  datatype TagType =
    | Artist | ArtistSort
    | Album | AlbumSort
    | AlbumArtist | AlbumArtistSort
    | Title | Track | Name | Genre | Date | Composer | Performer | Comment | Disc
    | MusicBrainzArtistId | MusicBrainzAlbumId | MusicBrainzAlbumArtistId
    | MusicBrainzTrackId | MusicBrainzReleaseTrackId
    | NumOfItemTypes
  {
    /** Every type but the sentinel may appear in a tag item. */
    predicate IsItemType() {
      !NumOfItemTypes?
    }
  }
}
