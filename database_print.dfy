/** What a query writes to the client: the response lines for directories,
    songs and playlists, and the visitors that write them. The response is
    an appended sequence of records; how a record is rendered as text is
    not part of this model. */
module DatabasePrint {
  import opened Optional
  import opened TagTypes
  import opened Tags
  import opened Paths
  import opened Library

  /** One response entry. SongLine stands for the song block written by
      song_print_uri (brief) or song_print_info (full); SongUriLine for
      song_print_uri without the base flag; TagLine for tag_print. */
  datatype Record =
    | DirectoryLine(path: string)
    | LastModified(mtime: int)
    | PlaylistLine(path: string)
    | SongLine(song: LightSong, full: bool, base: bool)
    | SongUriLine(song: LightSong)
    | TagLine(kind: TagType, value: string)

  /** The outcome of a query: the records written, or the error
      GetDatabaseOrThrow raises when no database is configured. */
  datatype Outcome = Printed(records: seq<Record>) | DatabaseDisabled

  /** ApplyBaseFlag: in base mode only the last path component is shown. */
  function ApplyBaseFlag(uri: string, base: bool): (r: string)
    ensures !base ==> r == uri
    ensures base ==> Separator !in r && |r| <= |uri| && uri[|uri| - |r|..] == r
    ensures base ==> (|r| == |uri| || uri[|uri| - |r| - 1] == Separator)
  {
    if base then GetBase(uri) else uri
  }

  /** Base mode shows the same name for `directory/name` as for `name`. */
  lemma ApplyBaseFlagOfJoin(directory: string, name: string)
    ensures ApplyBaseFlag(directory + [Separator] + name, true) == ApplyBaseFlag(name, true)
  {
    GetBaseOfJoin(directory, name);
  }

  /** PrintDirectoryURI: one directory line, holding the directory's path
      or, in base mode, its last component. */
  function PrintDirectoryURI(base: bool, directory: LightDirectory): (r: seq<Record>)
    ensures |r| == 1 && r[0].DirectoryLine?
    ensures !base ==> r[0].path == directory.uri
    ensures base ==> Separator !in r[0].path && |r[0].path| <= |directory.uri| &&
                     directory.uri[|directory.uri| - |r[0].path|..] == r[0].path
    ensures base ==> (|r[0].path| == |directory.uri| ||
                      directory.uri[|directory.uri| - |r[0].path| - 1] == Separator)
  {
    [DirectoryLine(ApplyBaseFlag(directory.GetPath(), base))]
  }

  /** PrintDirectoryBrief: the root is never printed. */
  function PrintDirectoryBrief(base: bool, directory: LightDirectory): (r: seq<Record>)
    ensures directory.IsRoot() <==> r == []
    ensures !directory.IsRoot() ==> r == [DirectoryLine(ApplyBaseFlag(directory.uri, base))]
  {
    if !directory.IsRoot() then PrintDirectoryURI(base, directory) else []
  }

  /** PrintDirectoryFull: the root is never printed, and Last-Modified only
      follows a known modification time. */
  function PrintDirectoryFull(base: bool, directory: LightDirectory): (r: seq<Record>)
    ensures directory.IsRoot() <==> r == []
    ensures r != [] ==> r[0] == DirectoryLine(ApplyBaseFlag(directory.uri, base))
    ensures LastModified(directory.mtime) in r <==> !directory.IsRoot() && directory.mtime > 0
    ensures forall i :: 1 <= i < |r| ==> r[i] == LastModified(directory.mtime)
  {
    if !directory.IsRoot() then
      PrintDirectoryURI(base, directory) +
      (if directory.mtime > 0 then [LastModified(directory.mtime)] else [])
    else []
  }

  /** The full listing of a directory is the brief one, plus at most the
      Last-Modified line. */
  lemma BriefIsPrefixOfFull(base: bool, directory: LightDirectory)
    ensures var brief := PrintDirectoryBrief(base, directory);
      var full := PrintDirectoryFull(base, directory);
      |brief| <= |full| <= |brief| + 1 && full[..|brief|] == brief &&
      (|full| > |brief| ==> full[|brief|] == LastModified(directory.mtime))
  {
  }

  /** print_playlist_in_directory, the overload that takes the directory's
      path (a song's parent, absent for songs in the root). */
  function PlaylistInPath(base: bool, directory: Option<string>, name: string): (r: string)
    ensures base ==> Separator !in r && |r| <= |name| && name[|name| - |r|..] == r
    ensures base ==> (|r| == |name| || name[|name| - |r| - 1] == Separator)
    ensures !base && directory.None? ==> r == name
    ensures !base && directory.Some? ==>
      |r| == |directory.value| + 1 + |name| && r[..|directory.value|] == directory.value &&
      r[|directory.value|] == Separator && r[|directory.value| + 1..] == name
  {
    if base || directory.None? then ApplyBaseFlag(name, base)
    else directory.value + [Separator] + name
  }

  /** print_playlist_in_directory, the overload that takes the directory
      itself: no directory or the root directory prints the bare name, and
      so does base mode, without applying the base flag to it. */
  function PlaylistInDirectory(base: bool, directory: Option<LightDirectory>, name: string): (r: string)
    ensures base ==> r == name
    ensures !base && name != "" ==>
      r == Build(if directory.Some? then directory.value.GetPath() else "", name)
    ensures !base && name == "" && directory.Some? && !directory.value.IsRoot() ==>
      r == directory.value.GetPath() + [Separator]
  {
    if base || directory.None? || directory.value.IsRoot() then name
    else directory.value.GetPath() + [Separator] + name
  }

  /** The embedded playlist of a song is printed under the song's full
      path, or under that path's base name in base mode. */
  lemma EmbeddedPlaylistPath(base: bool, song: LightSong)
    ensures PlaylistInPath(base, song.directory, song.uri) == ApplyBaseFlag(song.GetURI(), base)
  {
    if base && song.directory.Some? {
      ApplyBaseFlagOfJoin(song.directory.value, song.uri);
    }
  }

  /** PrintSongBrief and PrintSongFull: the song block, then the song's
      embedded CUE sheet as a playlist when it has one. */
  function PrintSong(full: bool, base: bool, song: LightSong): (r: seq<Record>)
    ensures 1 <= |r| && r[0] == SongLine(song, full, base)
    ensures |r| == 2 <==> song.tag.hasPlaylist
    ensures |r| <= 2
    ensures |r| == 2 ==> r[1] == PlaylistLine(ApplyBaseFlag(song.GetURI(), base))
  {
    EmbeddedPlaylistPath(base, song);
    [SongLine(song, full, base)] +
    (if song.tag.hasPlaylist then [PlaylistLine(PlaylistInPath(base, song.directory, song.uri))] else [])
  }

  /** PrintPlaylistBrief and PrintPlaylistFull. */
  function PrintPlaylist(full: bool, base: bool, playlist: PlaylistInfo, directory: LightDirectory): (r: seq<Record>)
    ensures 1 <= |r| <= 2 && r[0] == PlaylistLine(PlaylistInDirectory(base, Some(directory), playlist.name))
    ensures |r| == 2 <==> full && playlist.mtime > 0
    ensures |r| == 2 ==> r[1] == LastModified(playlist.mtime)
  {
    [PlaylistLine(PlaylistInDirectory(base, Some(directory), playlist.name))] +
    (if full && playlist.mtime > 0 then [LastModified(playlist.mtime)] else [])
  }

  /** The visitors of db_selection_print: a filtered query has no
      directory and no playlist visitor. */
  function PrintVisitors(filtered: bool, full: bool, base: bool): (v: Visitors<Record>)
    ensures v.directory.None? <==> filtered
    ensures v.playlist.None? <==> filtered
    ensures v.song.Some?
    ensures forall s :: v.song.value(s) == PrintSong(full, base, s)
    ensures v.directory.Some? ==> forall d :: v.directory.value(d) ==
                                               if full then PrintDirectoryFull(base, d) else PrintDirectoryBrief(base, d)
    ensures v.playlist.Some? ==> forall p, d :: v.playlist.value(p, d) == PrintPlaylist(full, base, p, d)
  {
    Visitors(
      if filtered then None
      else Some((d: LightDirectory) => if full then PrintDirectoryFull(base, d) else PrintDirectoryBrief(base, d)),
      Some((s: LightSong) => PrintSong(full, base, s)),
      if filtered then None
      else Some((p: PlaylistInfo, d: LightDirectory) => PrintPlaylist(full, base, p, d)))
  }

  /** The songs whose blocks a response holds, in response order. */
  function PrintedSongs(records: seq<Record>): seq<LightSong> {
    if records == [] then []
    else
      var last := records[|records| - 1];
      PrintedSongs(records[..|records| - 1]) + (if last.SongLine? then [last.song] else [])
  }

  lemma {:induction false} PrintedSongsAppend(a: seq<Record>, b: seq<Record>)
    ensures PrintedSongs(a + b) == PrintedSongs(a) + PrintedSongs(b)
  {
    if b == [] {
      assert a + b == a;
    } else {
      assert (a + b)[..|a + b| - 1] == a + b[..|b| - 1];
      PrintedSongsAppend(a, b[..|b| - 1]);
    }
  }

  /** The songs a traversal reports, in traversal order. */
  function SongsIn(traversal: seq<Entity>): (r: seq<LightSong>)
    ensures |r| <= |traversal|
    ensures forall s :: s in r <==> SongEntity(s) in traversal
  {
    if traversal == [] then []
    else
      var last := traversal[|traversal| - 1];
      assert traversal == traversal[..|traversal| - 1] + [last];
      SongsIn(traversal[..|traversal| - 1]) + (if last.SongEntity? then [last.song] else [])
  }

  lemma {:induction false} SongsInAppend(a: seq<Entity>, b: seq<Entity>)
    ensures SongsIn(a + b) == SongsIn(a) + SongsIn(b)
  {
    if b == [] {
      assert a + b == a;
    } else {
      assert (a + b)[..|a + b| - 1] == a + b[..|b| - 1];
      SongsInAppend(a, b[..|b| - 1]);
    }
  }

  /** Visit of a concatenation is the concatenation of the visits. */
  lemma {:induction false} VisitAppend<R>(a: seq<Entity>, b: seq<Entity>, v: Visitors<R>)
    ensures Visit(a + b, v) == Visit(a, v) + Visit(b, v)
  {
    if a == [] {
      assert a + b == b;
    } else {
      assert (a + b)[1..] == a[1..] + b;
      VisitAppend(a[1..], b, v);
    }
  }

  /** The print visitors, or the print visitors without the song visitor
      (the sorted mode prints songs after the traversal). */
  function Printers(filtered: bool, full: bool, base: bool, withSongs: bool): Visitors<Record> {
    var v := PrintVisitors(filtered, full, base);
    if withSongs then v else v.(song := None)
  }

  /** Records without a song block name no song. */
  lemma {:induction false} PrintedSongsNone(records: seq<Record>)
    requires forall i :: 0 <= i < |records| ==> !records[i].SongLine?
    ensures PrintedSongs(records) == []
  {
    if records != [] {
      PrintedSongsNone(records[..|records| - 1]);
    }
  }

  /** A song block names its song, and no other. */
  lemma PrintedSongsOfBlock(full: bool, base: bool, song: LightSong)
    ensures PrintedSongs(PrintSong(full, base, song)) == [song]
  {
    var block := PrintSong(full, base, song);
    assert block == [block[0]] + block[1..];
    PrintedSongsAppend([block[0]], block[1..]);
    assert [block[0]][..0] == [];
    PrintedSongsNone(block[1..]);
  }

  /** The records one entity produces name the entity's song, if it is
      one and songs are printed, and no other. */
  lemma PrintedSongsOfEntity(e: Entity, filtered: bool, full: bool, base: bool, withSongs: bool)
    ensures PrintedSongs(VisitOne(e, Printers(filtered, full, base, withSongs))) ==
      if withSongs && e.SongEntity? then [e.song] else []
  {
    var out := VisitOne(e, Printers(filtered, full, base, withSongs));
    if withSongs && e.SongEntity? {
      PrintedSongsOfBlock(full, base, e.song);
    } else {
      PrintedSongsNone(out);
    }
  }

  /** With the print visitors, the songs printed are exactly the songs
      traversed, once each and in traversal order, whether or not the query
      is filtered; without the song visitor no song is printed. */
  lemma {:induction false} PrintVisitorsPrintEverySong(traversal: seq<Entity>, filtered: bool, full: bool, base: bool,
                                                       withSongs: bool)
    ensures PrintedSongs(Visit(traversal, Printers(filtered, full, base, withSongs))) ==
      if withSongs then SongsIn(traversal) else []
  {
    var v := Printers(filtered, full, base, withSongs);
    if traversal != [] {
      var init, last := traversal[..|traversal| - 1], traversal[|traversal| - 1];
      var a, b := Visit(init, v), VisitOne(last, v);
      assert Visit(traversal, v) == a + b by {
        assert traversal == init + [last];
        VisitAppend(init, [last], v);
        assert Visit([last], v) == b + Visit([], v);
      }
      PrintedSongsAppend(a, b);
      PrintVisitorsPrintEverySong(init, filtered, full, base, withSongs);
      PrintedSongsOfEntity(last, filtered, full, base, withSongs);
    }
  }
}
