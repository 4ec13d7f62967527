/** db_selection_print: a query over a selection, either streamed in the
    database's own order with a counting window on the songs, or buffered,
    stably sorted by one tag type and then sliced to the window. */
module SelectionPrint {
  import opened Optional
  import opened TagTypes
  import opened Tags
  import opened Library
  import opened StableSort
  import opened DatabaseSort
  import opened DatabasePrint

  /** std::numeric_limits<int>::max(): the "no end" window bound. */
  const IntMax: nat := 0x7FFF_FFFF

  /** The window [start, end) of `s`, clamped to its length. */
  function Window<T>(s: seq<T>, start: nat, end: nat): (r: seq<T>)
    ensures |r| == if start < end && start < |s| then (if end < |s| then end else |s|) - start else 0
    ensures forall k :: 0 <= k < |r| ==> r[k] == s[start + k]
  {
    var hi := if end < |s| then end else |s|;
    if start >= hi then [] else s[start..hi]
  }

  /** Streaming mode wraps the song visitor only for a window narrower than
      [0, IntMax). */
  predicate Wrapped(start: nat, end: nat) {
    start > 0 || end < IntMax
  }

  /** The traversal as the wrapped song visitor passes it on: the song at
      song index i (counting every song) is kept iff start <= i < end;
      directories and playlists are not counted and always kept. */
  function Windowed(traversal: seq<Entity>, start: nat, end: nat): (r: seq<Entity>)
    ensures |r| <= |traversal|
  {
    if traversal == [] then []
    else
      var init, last := traversal[..|traversal| - 1], traversal[|traversal| - 1];
      var i := |SongsIn(init)|;
      Windowed(init, start, end) + (if last.SongEntity? && !(start <= i < end) then [] else [last])
  }

  /** The directories and playlists of a traversal, in traversal order. */
  function NonSongs(traversal: seq<Entity>): (r: seq<Entity>)
    ensures forall e :: e in r <==> e in traversal && !e.SongEntity?
  {
    if traversal == [] then []
    else
      var init, last := traversal[..|traversal| - 1], traversal[|traversal| - 1];
      assert traversal == init + [last];
      NonSongs(init) + (if last.SongEntity? then [] else [last])
  }

  /** DetachedSong: an owned copy of a song whose uri is the full path and
      which no longer refers to its directory. */
  function Detach(song: LightSong): (r: LightSong)
    ensures r.GetURI() == song.GetURI() && r.directory.None?
    ensures r.tag == song.tag && r.mtime == song.mtime
  {
    song.(uri := song.GetURI(), directory := None)
  }

  function DetachAll(songs: seq<LightSong>): (r: seq<LightSong>)
    ensures |r| == |songs|
    ensures forall i :: 0 <= i < |r| ==> r[i] == Detach(songs[i])
  {
    seq(|songs|, i requires 0 <= i < |songs| => Detach(songs[i]))
  }

  lemma DetachAllSnoc(songs: seq<LightSong>, song: LightSong)
    ensures DetachAll(songs + [song]) == DetachAll(songs) + [Detach(song)]
  {
  }

  /** The song blocks of `songs`, one after the other. */
  function EmitSongs(songs: seq<LightSong>, full: bool, base: bool): seq<Record> {
    if songs == [] then []
    else EmitSongs(songs[..|songs| - 1], full, base) + PrintSong(full, base, songs[|songs| - 1])
  }

  /** Streaming mode. */
  function StreamOutput(traversal: seq<Entity>, filtered: bool, full: bool, base: bool,
                        start: nat, end: nat): seq<Record> {
    Visit(if Wrapped(start, end) then Windowed(traversal, start, end) else traversal,
          PrintVisitors(filtered, full, base))
  }

  /** The collected songs in the order the stable sort leaves them. */
  function SortedSongs(traversal: seq<Entity>, sort: TagType): seq<LightSong>
    requires sort.IsItemType()
  {
    Sort(DetachAll(SongsIn(traversal)), SongOrder(sort))
  }

  /** Sorted mode: directories and playlists as the traversal reports them,
      then the window of the sorted songs. */
  function SortedOutput(traversal: seq<Entity>, filtered: bool, full: bool, base: bool,
                        sort: TagType, start: nat, end: nat): seq<Record>
    requires sort.IsItemType()
  {
    Visit(traversal, Printers(filtered, full, base, false)) +
    EmitSongs(Window(SortedSongs(traversal, sort), start, end), full, base)
  }

  /** What db_selection_print writes for a traversal. */
  function QueryOutput(traversal: seq<Entity>, filtered: bool, full: bool, base: bool,
                       sort: TagType, start: nat, end: nat): seq<Record> {
    if sort == NumOfItemTypes then StreamOutput(traversal, filtered, full, base, start, end)
    else SortedOutput(traversal, filtered, full, base, sort, start, end)
  }

  lemma VisitSnoc<R>(a: seq<Entity>, e: Entity, v: Visitors<R>)
    ensures Visit(a + [e], v) == Visit(a, v) + VisitOne(e, v)
  {
    VisitAppend(a, [e], v);
    assert Visit([e], v) == VisitOne(e, v) + Visit([], v);
  }

  lemma SongsInSnoc(a: seq<Entity>, x: Entity)
    ensures SongsIn(a + [x]) == SongsIn(a) + (if x.SongEntity? then [x.song] else [])
  {
    assert (a + [x])[..|a|] == a;
  }

  lemma WindowedSnoc(a: seq<Entity>, x: Entity, start: nat, end: nat)
    ensures Windowed(a + [x], start, end) ==
      Windowed(a, start, end) + (if x.SongEntity? && !(start <= |SongsIn(a)| < end) then [] else [x])
  {
    assert (a + [x])[..|a|] == a;
  }

  /** One entity more for the streaming traversal. */
  lemma StreamStep(traversal: seq<Entity>, k: nat, start: nat, end: nat, v: Visitors<Record>)
    requires k < |traversal|
    ensures |SongsIn(traversal[..k + 1])| == |SongsIn(traversal[..k])| + (if traversal[k].SongEntity? then 1 else 0)
    ensures Visit(traversal[..k + 1], v) == Visit(traversal[..k], v) + VisitOne(traversal[k], v)
    ensures Visit(Windowed(traversal[..k + 1], start, end), v) == Visit(Windowed(traversal[..k], start, end), v) +
      (if traversal[k].SongEntity? && !(start <= |SongsIn(traversal[..k])| < end) then [] else VisitOne(traversal[k], v))
  {
    var e := traversal[k];
    var w := Windowed(traversal[..k], start, end);
    assert traversal[..k + 1] == traversal[..k] + [e];
    SongsInSnoc(traversal[..k], e);
    WindowedSnoc(traversal[..k], e, start, end);
    VisitSnoc(traversal[..k], e, v);
    VisitSnoc(w, e, v);
    assert w + [] == w;
  }

  /** Streaming mode: the traversal goes straight to the visitors; with a
      window the song visitor is wrapped in a filter whose counter `i`
      advances on every song. */
  method StreamSongs(traversal: seq<Entity>, v: Visitors<Record>, windowStart: nat, windowEnd: nat)
    returns (out: seq<Record>)
    ensures out == Visit(if Wrapped(windowStart, windowEnd) then Windowed(traversal, windowStart, windowEnd)
                         else traversal, v)
  {
    var wrapped := windowStart > 0 || windowEnd < IntMax;
    out := [];
    var i := 0;
    var k := 0;
    while k < |traversal|
      invariant 0 <= k <= |traversal|
      invariant i == |SongsIn(traversal[..k])|
      invariant out == Visit(if wrapped then Windowed(traversal[..k], windowStart, windowEnd)
                             else traversal[..k], v)
    {
      var e := traversal[k];
      StreamStep(traversal, k, windowStart, windowEnd, v);
      if e.SongEntity? && wrapped {
        var inWindow := i >= windowStart && i < windowEnd;
        i := i + 1;
        if inWindow {
          out := out + VisitOne(e, v);
        }
      } else {
        if e.SongEntity? {
          i := i + 1;
        }
        out := out + VisitOne(e, v);
      }
      k := k + 1;
    }
    assert traversal[..k] == traversal;
  }

  /** One entity more for the collecting traversal. */
  lemma CollectStep(traversal: seq<Entity>, k: nat, u: Visitors<Record>)
    requires k < |traversal| && u.song.None?
    ensures DetachAll(SongsIn(traversal[..k + 1])) == DetachAll(SongsIn(traversal[..k])) +
      (if traversal[k].SongEntity? then [Detach(traversal[k].song)] else [])
    ensures Visit(traversal[..k + 1], u) == Visit(traversal[..k], u) +
      (if traversal[k].SongEntity? then [] else VisitOne(traversal[k], u))
  {
    var e := traversal[k];
    assert traversal[..k + 1] == traversal[..k] + [e];
    SongsInSnoc(traversal[..k], e);
    VisitSnoc(traversal[..k], e, u);
    if e.SongEntity? {
      DetachAllSnoc(SongsIn(traversal[..k]), e.song);
    } else {
      assert SongsIn(traversal[..k]) + [] == SongsIn(traversal[..k]);
    }
  }

  /** Sorted mode, first half: directories and playlists go to their
      visitors while every song is collected as a detached copy. */
  method CollectSongs(traversal: seq<Entity>, u: Visitors<Record>)
    returns (out: seq<Record>, songs: seq<LightSong>)
    requires u.song.None?
    ensures out == Visit(traversal, u)
    ensures songs == DetachAll(SongsIn(traversal))
  {
    out, songs := [], [];
    var k := 0;
    while k < |traversal|
      invariant 0 <= k <= |traversal|
      invariant songs == DetachAll(SongsIn(traversal[..k]))
      invariant out == Visit(traversal[..k], u)
    {
      var e := traversal[k];
      CollectStep(traversal, k, u);
      if e.SongEntity? {
        songs := songs + [Detach(e.song)];
      } else {
        out := out + VisitOne(e, u);
      }
      k := k + 1;
    }
    assert traversal[..k] == traversal;
  }

  lemma EmitStep(songs: seq<LightSong>, j: nat, full: bool, base: bool)
    requires j < |songs|
    ensures EmitSongs(songs[..j + 1], full, base) == EmitSongs(songs[..j], full, base) + PrintSong(full, base, songs[j])
  {
    assert songs[..j + 1][..j] == songs[..j];
  }

  /** Sorted mode, second half: the sorted songs are cut to `windowEnd`,
      nothing is printed when `windowStart` is past the rest, and otherwise
      the first `windowStart` are dropped and the others printed in order. */
  method EmitWindow(sorted: seq<LightSong>, full: bool, base: bool, windowStart: nat, windowEnd: nat)
    returns (out: seq<Record>)
    ensures out == EmitSongs(Window(sorted, windowStart, windowEnd), full, base)
  {
    var songs := sorted;
    if windowEnd < |songs| {
      songs := songs[..windowEnd];
    }
    if windowStart >= |songs| {
      return [];
    }
    songs := songs[windowStart..];
    assert songs == Window(sorted, windowStart, windowEnd);
    out := [];
    var j := 0;
    while j < |songs|
      invariant 0 <= j <= |songs|
      invariant out == EmitSongs(songs[..j], full, base)
    {
      EmitStep(songs, j, full, base);
      out := out + PrintSong(full, base, songs[j]);
      j := j + 1;
    }
    assert songs[..j] == songs;
  }

  /** std::stable_sort over the collected songs, on an array. */
  method SortSongs(songs: seq<LightSong>, sort: TagType) returns (sorted: seq<LightSong>)
    requires sort.IsItemType()
    ensures sorted == Sort(songs, SongOrder(sort))
  {
    var a := new LightSong[|songs|](j requires 0 <= j < |songs| => songs[j]);
    assert a[..] == songs;
    InsertionSort(a, SongOrder(sort));
    sorted := a[..];
  }

  /** db_selection_print. The database's traversal of the selection is
      replayed entity by entity through the visitors. */
  method DbSelectionPrint(db: Option<Database>, selection: Selection, full: bool, base: bool,
                          sort: TagType, windowStart: nat, windowEnd: nat) returns (r: Outcome)
    ensures db.None? <==> r == DatabaseDisabled
    ensures db.Some? ==>
      r == Printed(QueryOutput(db.value.visit(selection), selection.filter.Some?, full, base,
                               sort, windowStart, windowEnd))
  {
    if db.None? {
      return DatabaseDisabled;
    }
    var traversal := db.value.visit(selection);
    var filtered := selection.filter.Some?;
    if sort == NumOfItemTypes {
      var out := StreamSongs(traversal, PrintVisitors(filtered, full, base), windowStart, windowEnd);
      return Printed(out);
    }
    var out := SortedPrint(traversal, filtered, full, base, sort, windowStart, windowEnd);
    return Printed(out);
  }

  /** The sorted branch of db_selection_print: print directories and
      playlists while collecting the songs, sort the songs stably, then
      print the window of the sorted list. */
  method SortedPrint(traversal: seq<Entity>, filtered: bool, full: bool, base: bool,
                     sort: TagType, windowStart: nat, windowEnd: nat) returns (out: seq<Record>)
    requires sort.IsItemType()
    ensures out == SortedOutput(traversal, filtered, full, base, sort, windowStart, windowEnd)
  {
    var songs;
    out, songs := CollectSongs(traversal, Printers(filtered, full, base, false));
    var sorted := SortSongs(songs, sort);
    var tail := EmitWindow(sorted, full, base, windowStart, windowEnd);
    out := out + tail;
  }

  /** The db_selection_print overload without sort and window. */
  method DbSelectionPrintAll(db: Option<Database>, selection: Selection, full: bool, base: bool)
    returns (r: Outcome)
    ensures db.None? <==> r == DatabaseDisabled
    ensures db.Some? ==>
      r == Printed(Visit(db.value.visit(selection), PrintVisitors(selection.filter.Some?, full, base)))
  {
    r := DbSelectionPrint(db, selection, full, base, NumOfItemTypes, 0, IntMax);
  }

  // ---------------------------------------------------------------------
  // Windows

  lemma WindowSnoc<T>(s: seq<T>, x: T, start: nat, end: nat)
    ensures Window(s + [x], start, end) ==
      Window(s, start, end) + (if start <= |s| < end then [x] else [])
  {
    var l, r := Window(s + [x], start, end), Window(s, start, end) + (if start <= |s| < end then [x] else []);
    assert |l| == |r|;
    forall k | 0 <= k < |l| ensures l[k] == r[k] {
      if k < |Window(s, start, end)| {
        assert l[k] == (s + [x])[start + k];
      }
    }
  }

  /** The counting filter forwards exactly the window of the traversal's
      songs: streaming and slicing the song list agree. */
  lemma {:induction false} WindowedSongs(traversal: seq<Entity>, start: nat, end: nat)
    ensures SongsIn(Windowed(traversal, start, end)) == Window(SongsIn(traversal), start, end)
  {
    if traversal != [] {
      var init, last := traversal[..|traversal| - 1], traversal[|traversal| - 1];
      var kept := if last.SongEntity? && !(start <= |SongsIn(init)| < end) then [] else [last];
      WindowedSongs(init, start, end);
      SongsInAppend(Windowed(init, start, end), kept);
      assert SongsIn(traversal) == SongsIn(init) + (if last.SongEntity? then [last.song] else []);
      if last.SongEntity? {
        WindowSnoc(SongsIn(init), last.song, start, end);
        assert SongsIn([last]) == SongsIn([]) + [last.song];
      } else {
        assert SongsIn(init) + [] == SongsIn(init);
        if kept != [] {
          assert SongsIn(kept) == SongsIn([]) + [];
        }
      }
    }
  }

  /** Directories and playlists are not windowed. */
  lemma {:induction false} WindowedKeepsNonSongs(traversal: seq<Entity>, start: nat, end: nat)
    ensures NonSongs(Windowed(traversal, start, end)) == NonSongs(traversal)
  {
    if traversal != [] {
      var init, last := traversal[..|traversal| - 1], traversal[|traversal| - 1];
      var kept := if last.SongEntity? && !(start <= |SongsIn(init)| < end) then [] else [last];
      WindowedKeepsNonSongs(init, start, end);
      NonSongsAppend(Windowed(init, start, end), kept);
      if kept != [] {
        assert NonSongs(kept) == NonSongs([]) + (if last.SongEntity? then [] else [last]);
      }
    }
  }

  lemma {:induction false} NonSongsAppend(a: seq<Entity>, b: seq<Entity>)
    ensures NonSongs(a + b) == NonSongs(a) + NonSongs(b)
  {
    if b == [] {
      assert a + b == a;
    } else {
      assert (a + b)[..|a + b| - 1] == a + b[..|b| - 1];
      NonSongsAppend(a, b[..|b| - 1]);
    }
  }

  /** Ten sorted songs: [3, 6) gives positions 3, 4 and 5; [8, 100) gives
      8 and 9; [20, 100) gives nothing. */
  lemma WindowExamples<T>(s: seq<T>)
    requires |s| == 10
    ensures Window(s, 3, 6) == [s[3], s[4], s[5]]
    ensures Window(s, 8, 100) == [s[8], s[9]]
    ensures Window(s, 20, 100) == []
  {
  }

  lemma {:induction false} PrintedSongsOfEmit(songs: seq<LightSong>, full: bool, base: bool)
    ensures PrintedSongs(EmitSongs(songs, full, base)) == songs
  {
    if songs != [] {
      var init, last := songs[..|songs| - 1], songs[|songs| - 1];
      var before, block := EmitSongs(init, full, base), PrintSong(full, base, last);
      assert EmitSongs(songs, full, base) == before + block;
      PrintedSongsOfEmit(init, full, base);
      PrintedSongsAppend(before, block);
      PrintedSongsOfBlock(full, base, last);
      assert PrintedSongs(before + block) == init + [last];
      assert songs == init + [last];
    }
  }

  // ---------------------------------------------------------------------
  // What a query prints

  /** Unsorted: the songs printed are the window of the traversal's songs,
      and all of them when the song visitor is not wrapped. */
  lemma StreamingPrintsWindow(traversal: seq<Entity>, filtered: bool, full: bool, base: bool,
                              start: nat, end: nat)
    ensures PrintedSongs(QueryOutput(traversal, filtered, full, base, NumOfItemTypes, start, end)) ==
      if Wrapped(start, end) then Window(SongsIn(traversal), start, end) else SongsIn(traversal)
  {
    var t := if Wrapped(start, end) then Windowed(traversal, start, end) else traversal;
    PrintVisitorsPrintEverySong(t, filtered, full, base, true);
    WindowedSongs(traversal, start, end);
  }

  /** The call without sort and window prints every song, however many. */
  lemma DefaultQueryPrintsEverySong(traversal: seq<Entity>, filtered: bool, full: bool, base: bool)
    ensures PrintedSongs(QueryOutput(traversal, filtered, full, base, NumOfItemTypes, 0, IntMax)) ==
      SongsIn(traversal)
  {
    StreamingPrintsWindow(traversal, filtered, full, base, 0, IntMax);
  }

  /** Sorted: the songs printed are the window of the sorted songs. */
  lemma SortedPrintsWindow(traversal: seq<Entity>, filtered: bool, full: bool, base: bool,
                           sort: TagType, start: nat, end: nat)
    requires sort.IsItemType()
    ensures PrintedSongs(QueryOutput(traversal, filtered, full, base, sort, start, end)) ==
      Window(SortedSongs(traversal, sort), start, end)
  {
    var w := Window(SortedSongs(traversal, sort), start, end);
    PrintedSongsAppend(Visit(traversal, Printers(filtered, full, base, false)), EmitSongs(w, full, base));
    PrintVisitorsPrintEverySong(traversal, filtered, full, base, false);
    PrintedSongsOfEmit(w, full, base);
  }

  /** The sorted songs are ordered by CompareTags, are a permutation of
      the collected songs, and keep traversal order among equal keys. */
  lemma SortedSongsAreStablySorted(traversal: seq<Entity>, sort: TagType)
    requires sort.IsItemType()
    ensures var collected := DetachAll(SongsIn(traversal));
      && Sorted(SortedSongs(traversal, sort), SongOrder(sort))
      && multiset(SortedSongs(traversal, sort)) == multiset(collected)
      && forall x :: Equivalents(SortedSongs(traversal, sort), x, SongOrder(sort)) ==
                     Equivalents(collected, x, SongOrder(sort))
  {
    var collected := DetachAll(SongsIn(traversal));
    SongOrderIsStrictWeak(sort);
    SortIsSorted(collected, SongOrder(sort));
    SortPermutes(collected, SongOrder(sort));
    forall x
      ensures Equivalents(SortedSongs(traversal, sort), x, SongOrder(sort)) ==
              Equivalents(collected, x, SongOrder(sort))
    {
      SortIsStable(collected, x, SongOrder(sort));
    }
  }

  /** Detaching a song does not change how its embedded playlist is
      printed. */
  lemma DetachKeepsPlaylistLine(full: bool, base: bool, song: LightSong)
    ensures PrintSong(full, base, Detach(song))[1..] == PrintSong(full, base, song)[1..]
  {
  }

  // ---------------------------------------------------------------------
  // Filtered queries

  /** Record i belongs to a song: it is a song block, or the embedded
      playlist line right after the block of a song that has one. */
  ghost predicate SongRecordAt(records: seq<Record>, i: nat)
    requires i < |records|
  {
    records[i].SongLine? ||
    (records[i].PlaylistLine? && i > 0 && records[i - 1].SongLine? && records[i - 1].song.tag.hasPlaylist)
  }

  /** Every record belongs to a song. */
  ghost predicate OnlySongs(records: seq<Record>) {
    forall i :: 0 <= i < |records| ==> SongRecordAt(records, i)
  }

  lemma OnlySongsAppend(a: seq<Record>, b: seq<Record>)
    requires OnlySongs(a) && OnlySongs(b)
    ensures OnlySongs(a + b)
  {
    var ab := a + b;
    forall i | 0 <= i < |ab|
      ensures SongRecordAt(ab, i)
    {
      if i < |a| {
        assert SongRecordAt(a, i);
        assert ab[i] == a[i];
        if i > 0 {
          assert ab[i - 1] == a[i - 1];
        }
      } else {
        assert SongRecordAt(b, i - |a|);
        assert ab[i] == b[i - |a|];
        if i > |a| {
          assert ab[i - 1] == b[i - 1 - |a|];
        }
      }
    }
  }

  lemma {:induction false} FilteredVisitOnlySongs(traversal: seq<Entity>, full: bool, base: bool, withSongs: bool)
    ensures OnlySongs(Visit(traversal, Printers(true, full, base, withSongs)))
  {
    if traversal != [] {
      FilteredVisitOnlySongs(traversal[1..], full, base, withSongs);
      OnlySongsAppend(VisitOne(traversal[0], Printers(true, full, base, withSongs)),
                      Visit(traversal[1..], Printers(true, full, base, withSongs)));
    }
  }

  lemma {:induction false} EmitOnlySongs(songs: seq<LightSong>, full: bool, base: bool)
    ensures OnlySongs(EmitSongs(songs, full, base))
  {
    if songs != [] {
      EmitOnlySongs(songs[..|songs| - 1], full, base);
      OnlySongsAppend(EmitSongs(songs[..|songs| - 1], full, base), PrintSong(full, base, songs[|songs| - 1]));
    }
  }

  /** A filtered query reports songs only: no directory, no playlist of a
      directory, no Last-Modified line outside a song block. */
  lemma FilteredQueryReportsOnlySongs(traversal: seq<Entity>, full: bool, base: bool,
                                      sort: TagType, start: nat, end: nat)
    ensures OnlySongs(QueryOutput(traversal, true, full, base, sort, start, end))
  {
    if sort == NumOfItemTypes {
      var t := if Wrapped(start, end) then Windowed(traversal, start, end) else traversal;
      FilteredVisitOnlySongs(t, full, base, true);
    } else {
      var w := Window(SortedSongs(traversal, sort), start, end);
      FilteredVisitOnlySongs(traversal, full, base, false);
      EmitOnlySongs(w, full, base);
      OnlySongsAppend(Visit(traversal, Printers(true, full, base, false)), EmitSongs(w, full, base));
    }
  }
}
