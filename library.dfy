/** The library tree abstraction the query core consumes: light views of
    directories, songs and playlists, the selection that scopes a query,
    the visitor protocol and the database that drives it. */
module Library {
  import opened Optional
  import opened TagTypes
  import opened Tags
  import opened Paths

  /** LightDirectory: a borrowed view of a directory. Its uri is relative
      to the library root; the root itself has the empty uri. */
  datatype LightDirectory = LightDirectory(uri: string, mtime: int) {
    predicate IsRoot() {
      uri == ""
    }

    function GetPath(): string {
      uri
    }
  }

  /** LightSong: a borrowed view of a song. `uri` is relative to
      `directory` when that is present and to the library root otherwise. */
  datatype LightSong = LightSong(uri: string, directory: Option<string>, tag: Tag, mtime: int) {
    /** The song's path relative to the library root. */
    function GetURI(): string {
      if directory.Some? then directory.value + [Separator] + uri else uri
    }
  }

  datatype PlaylistInfo = PlaylistInfo(name: string, mtime: int)

  /** A song filter is evaluated by the database only; it is carried here
      as an opaque expression. */
  datatype SongFilter = SongFilter(expression: string)

  /** DatabaseSelection: root uri, recursion flag and optional filter. */
  datatype Selection = Selection(uri: string, recursive: bool, filter: Option<SongFilter>)

  /** One callback of a traversal: a directory, a song, or a playlist
      together with the directory that holds it. */
  datatype Entity =
    | DirectoryEntity(directory: LightDirectory)
    | SongEntity(song: LightSong)
    | PlaylistEntity(playlist: PlaylistInfo, parent: LightDirectory)

  /** The three optional visitors. A visitor returns what it appends to
      the caller's output; an absent visitor means "do not report this
      kind of entity". */
  datatype Visitors<R> = Visitors(
    directory: Option<LightDirectory -> seq<R>>,
    song: Option<LightSong -> seq<R>>,
    playlist: Option<(PlaylistInfo, LightDirectory) -> seq<R>>)

  /** A database: the entities a traversal of a selection reports, in the
      database's own order, and the representative tags of a unique-tag
      query (one per distinct value of the grouped type). */
  datatype Database = Database(
    visit: Selection -> seq<Entity>,
    visitUniqueTags: (Selection, TagType, set<TagType>) -> seq<Tag>)

  /** What one entity produces when it is offered to the visitors. */
  function VisitOne<R>(e: Entity, v: Visitors<R>): seq<R> {
    match e
    case DirectoryEntity(d) => if v.directory.Some? then v.directory.value(d) else []
    case SongEntity(s) => if v.song.Some? then v.song.value(s) else []
    case PlaylistEntity(p, d) => if v.playlist.Some? then v.playlist.value(p, d) else []
  }

  /** Database::Visit: each entity of the traversal is offered once, in
      traversal order, to the visitor of its kind. */
  function Visit<R>(traversal: seq<Entity>, v: Visitors<R>): seq<R> {
    if traversal == [] then []
    else VisitOne(traversal[0], v) + Visit(traversal[1..], v)
  }
}
