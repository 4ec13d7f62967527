/** Mounting a database under a base path: every directory, song and
    playlist a sub-database reports is rewritten, on a fresh copy of its
    view, so that its path starts with the mount point. */
module Mount {
  import opened Optional
  import opened Paths
  import opened Library

  /** PrefixedLightDirectory: a copy of the view whose uri is the mount
      point for the root and the mount point joined with the uri otherwise. */
  function PrefixDirectory(directory: LightDirectory, base: string): (r: LightDirectory)
    ensures r.mtime == directory.mtime
    ensures directory.IsRoot() ==> r.uri == base
    ensures base != "" && !directory.IsRoot() ==> r.uri == base + [Separator] + directory.uri
  {
    directory.(uri := if directory.IsRoot() then base else Build(base, directory.uri))
  }

  /** PrefixedLightSong: a copy of the view whose full uri is joined to
      the mount point and which no longer refers to a directory. */
  function PrefixSong(song: LightSong, base: string): (r: LightSong)
    ensures r.tag == song.tag && r.mtime == song.mtime
    ensures r.directory.None?
    ensures r.GetURI() == Build(base, song.GetURI())
  {
    song.(uri := Build(base, song.GetURI()), directory := None)
  }

  /** The rewrite one entity gets: the playlist itself passes through,
      only the directory that holds it is prefixed. */
  function PrefixEntity(e: Entity, base: string): Entity {
    match e
    case DirectoryEntity(d) => DirectoryEntity(PrefixDirectory(d, base))
    case SongEntity(s) => SongEntity(PrefixSong(s, base))
    case PlaylistEntity(p, d) => PlaylistEntity(p, PrefixDirectory(d, base))
  }

  /** The traversal as the caller of a mounted database sees it. */
  function PrefixAll(traversal: seq<Entity>, base: string): (r: seq<Entity>)
    ensures |r| == |traversal|
    ensures forall i :: 0 <= i < |r| ==> r[i] == PrefixEntity(traversal[i], base)
  {
    seq(|traversal|, i requires 0 <= i < |traversal| => PrefixEntity(traversal[i], base))
  }

  /** PrefixVisitDirectory: the caller's visitor sees a copy with the same
      mtime whose path leads back to the original below the mount point. */
  function PrefixVisitDirectory<R>(base: string, visitDirectory: LightDirectory -> seq<R>,
                                   directory: LightDirectory): (r: seq<R>)
    ensures exists d :: (r == visitDirectory(d) && d.mtime == directory.mtime &&
                         (base != "" ==> StripBase(base, d.uri) == Some(directory.uri)))
  {
    var d := PrefixDirectory(directory, base);
    assert base != "" ==> StripBase(base, d.uri) == Some(directory.uri) by {
      if base != "" {
        PrefixDirectoryRoundTrip(directory, base);
      }
    }
    visitDirectory(d)
  }

  /** PrefixVisitSong: the caller's visitor sees a copy with the same tag
      and mtime, no directory, and a full path that leads back to the
      original below the mount point. */
  function PrefixVisitSong<R>(base: string, visitSong: LightSong -> seq<R>, song: LightSong): (r: seq<R>)
    ensures exists t :: (r == visitSong(t) && t.tag == song.tag && t.mtime == song.mtime &&
                         t.directory.None? && (base != "" ==> StripBase(base, t.GetURI()) == Some(song.GetURI())))
  {
    var t := PrefixSong(song, base);
    assert base != "" ==> StripBase(base, t.GetURI()) == Some(song.GetURI()) by {
      if base != "" {
        PrefixSongRoundTrip(song, base);
      }
    }
    visitSong(t)
  }

  /** PrefixVisitPlaylist: the playlist itself is passed on unchanged; its
      directory is prefixed as PrefixVisitDirectory prefixes one. */
  function PrefixVisitPlaylist<R>(base: string, visitPlaylist: (PlaylistInfo, LightDirectory) -> seq<R>,
                                  playlist: PlaylistInfo, directory: LightDirectory): (r: seq<R>)
    ensures exists d :: (r == visitPlaylist(playlist, d) && d.mtime == directory.mtime &&
                         (base != "" ==> StripBase(base, d.uri) == Some(directory.uri)))
  {
    var d := PrefixDirectory(directory, base);
    assert base != "" ==> StripBase(base, d.uri) == Some(directory.uri) by {
      if base != "" {
        PrefixDirectoryRoundTrip(directory, base);
      }
    }
    visitPlaylist(playlist, d)
  }

  /** The visitors WalkMount hands to the sub-database: each present
      visitor is wrapped, each absent one stays absent. */
  function WrapVisitors<R>(base: string, v: Visitors<R>): (w: Visitors<R>)
    ensures w.directory.Some? <==> v.directory.Some?
    ensures w.song.Some? <==> v.song.Some?
    ensures w.playlist.Some? <==> v.playlist.Some?
  {
    Visitors(
      if v.directory.Some? then
        Some((d: LightDirectory) => PrefixVisitDirectory(base, v.directory.value, d))
      else None,
      if v.song.Some? then
        Some((s: LightSong) => PrefixVisitSong(base, v.song.value, s))
      else None,
      if v.playlist.Some? then
        Some((p: PlaylistInfo, d: LightDirectory) => PrefixVisitPlaylist(base, v.playlist.value, p, d))
      else None)
  }

  /** WalkMount: the sub-database is always traversed from its root, with
      the caller's recursion flag and filter, and the caller receives that
      traversal prefixed, through its own visitors. */
  function WalkMount<R>(base: string, db: Database, recursive: bool, filter: Option<SongFilter>,
                        v: Visitors<R>): (r: seq<R>)
    ensures r == Visit(PrefixAll(db.visit(Selection("", recursive, filter)), base), v)
  {
    var traversal := db.visit(Selection("", recursive, filter));
    WrappedVisitIsPrefixedVisit(base, traversal, v);
    Visit(traversal, WrapVisitors(base, v))
  }

  /** Offering an entity to the wrapped visitors is offering its prefixed
      copy to the caller's visitors. */
  lemma VisitOneWrapped<R>(base: string, e: Entity, v: Visitors<R>)
    ensures VisitOne(e, WrapVisitors(base, v)) == VisitOne(PrefixEntity(e, base), v)
  {
  }

  /** Every entity is prefixed exactly once, in traversal order, before the
      caller's visitor sees it; nothing else about the traversal changes. */
  lemma {:induction false} WrappedVisitIsPrefixedVisit<R>(base: string, traversal: seq<Entity>, v: Visitors<R>)
    ensures Visit(traversal, WrapVisitors(base, v)) == Visit(PrefixAll(traversal, base), v)
  {
    if traversal != [] {
      VisitOneWrapped(base, traversal[0], v);
      assert PrefixAll(traversal, base)[1..] == PrefixAll(traversal[1..], base);
      WrappedVisitIsPrefixedVisit(base, traversal[1..], v);
    }
  }

  /** The path below the mount point that `path` names, if any. */
  function StripBase(base: string, path: string): Option<string> {
    if path == base then Some("")
    else if |path| > |base| && path[..|base| + 1] == base + [Separator] then Some(path[|base| + 1..])
    else None
  }

  /** A prefixed directory path leads back to the original path. */
  lemma PrefixDirectoryRoundTrip(directory: LightDirectory, base: string)
    requires base != ""
    ensures StripBase(base, PrefixDirectory(directory, base).uri) == Some(directory.uri)
  {
    var p := PrefixDirectory(directory, base).uri;
    if !directory.IsRoot() {
      assert p[..|base| + 1] == base + [Separator];
      assert p[|base| + 1..] == directory.uri;
    }
  }

  /** A prefixed song path leads back to the song's original full path. */
  lemma PrefixSongRoundTrip(song: LightSong, base: string)
    requires base != ""
    ensures StripBase(base, PrefixSong(song, base).GetURI()) == Some(song.GetURI())
  {
    var u := song.GetURI();
    var p := PrefixSong(song, base).GetURI();
    if u != "" {
      assert p == base + [Separator] + u;
      assert p[..|base| + 1] == base + [Separator];
      assert p[|base| + 1..] == u;
    }
  }

  /** Mounting at the empty path changes no directory. */
  lemma PrefixEmptyBase(directory: LightDirectory)
    ensures PrefixDirectory(directory, "") == directory
  {
  }

  /** Mounted at "foo", the root reads "foo" and the song "song.mp3" in
      directory "bar" reads "foo/bar/song.mp3". */
  lemma MountExample(root: LightDirectory, song: LightSong)
    requires root.IsRoot()
    requires song.directory == Some("bar") && song.uri == "song.mp3"
    ensures PrefixDirectory(root, "foo").uri == "foo"
    ensures PrefixSong(song, "foo").GetURI() == "foo/bar/song.mp3"
  {
  }
}
