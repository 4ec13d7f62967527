# MPD library-query core in Dafny

This project models three pieces of the Music Player Daemon's library core
and proves properties about them.

- **Tags** (`src/tag/Tag.cxx`). A tag is a duration, an embedded-playlist
  flag and an ordered array of `(type, value)` items. Each item slot holds
  one reference into the tag pool, which interns items.
  - `tag.dfy` models tags as values: lookup, the sort-value fallback
    chain, `Merge` and `MergeReplace`.
  - `tag_pool.dfy` models the array-backed tag as a class. Its copy
    constructor and `Clear` update the pool. The pool is a multiset, and an
    item's multiplicity is its reference count.
  - `tag_type.dfy` lists the tag types, including the
    `TAG_NUM_OF_ITEM_TYPES` sentinel.
- **Printing a selection** (`src/db/DatabasePrint.cxx`).
  - `database_sort.dfy`: the numeric (`strtol`) and byte-wise (`strcmp`)
    orderings of `CompareTags`.
  - `stable_sort.dfy`: `std::stable_sort` as an in-place insertion sort,
    checked against a stable-sort specification on sequences.
  - `database_print.dfy`: the directory, song and playlist printers and the
    visitors built from them. The response is a sequence of records.
  - `selection_print.dfy`: `db_selection_print`. Unsorted mode streams with
    a counting window. Sorted mode collects the songs, stably sorts them,
    then cuts and drops to the window.
  - `unique_tags.dfy`: `PrintUniqueTag` and `PrintUniqueTags`.
- **Mounts** (`src/db/plugins/simple/Mount.cxx`). In `mount.dfy`, a
  sub-database's directories, songs and playlists are re-rooted under the
  mount point before the caller's visitors see them.

Supporting files:
- `library.dfy` models the database interface that the core consumes:
  light views, selections, optional visitors, and a database that yields
  its traversal as a sequence of entities.
- `paths.dfy` gives `PathTraitsUTF8::Build` and `GetBase`.
- `optional.dfy` holds the option type.

Three behaviours of the source that are easy to miss:
- The `print_playlist_in_directory` overload that takes a `LightDirectory`
  prints the bare playlist name in base mode. It does not apply
  `ApplyBaseFlag`; the path overload does.
- `PrintUniqueTag` filters the group's other items by the response's tag
  mask (`r.GetTagMask()`), not by the `group_mask` argument. The
  `group_mask` argument only goes to `VisitUniqueTags`.
- Sorted mode still reports directories and playlists. They are printed
  while the traversal runs, so they come before all songs, unsorted and
  unwindowed. They are dropped only when the selection has a filter.

## Model

| member | source | states |
|---|---|---|
| TagPool.PooledTag.Clear | src/tag/Tag.cxx:27-41 | Afterwards there are no items, no playlist and a negative duration. The pool loses exactly one reference per slot the tag held. |
| TagPool.PooledTag.Copy | src/tag/Tag.cxx:43-56 | The copy has the same duration, playlist flag and items in the same order, in a newly allocated array. The pool gains exactly one reference per copied slot. |
| TagPool.CopyItems | src/tag/Tag.cxx:48-55 | The new array holds the same items in the same order. The pool gains one reference per slot. |
| TagPool.Pool.Dup | src/tag/Tag.cxx:52-53 | Duplicating a live item returns that item and adds one reference to it. |
| TagPool.Pool.Put | src/tag/Tag.cxx:34-35 | Releasing a live item removes one reference to it. |
| Tags.Merge | src/tag/Tag.cxx:58-64 | Every item of `add` comes first, in order. `base` then contributes exactly its items whose type `add` lacks. The duration is `add`'s unless that is negative. The playlist flag is the OR of both. |
| Tags.MergeGetValue | src/tag/Tag.cxx:58-64 | A lookup in the merge answers from `add` when `add` has the type, and from `base` otherwise. |
| Tags.MergeKinds | src/tag/Tag.cxx:58-64 | The merge has exactly the union of both tags' types. |
| Tags.MergeEmptyAdd | src/tag/Tag.cxx:58-64 | Merging an item-less tag over `base` keeps `base`'s items unchanged. |
| Tags.MergeReplace | src/tag/Tag.cxx:66-80 | The result is null exactly when both arguments are null. |
| Tags.MergeReplaceLayers | src/tag/Tag.cxx:66-80 | With a null `add` the result is `base`, unchanged; with a null `base` it is `add`. Two tags give the merged duration and the OR of the playlist flags. In every case the result answers each lookup from `add` when `add` has the type, and from `base` otherwise. |
| Tags.FindValue | src/tag/Tag.cxx:82-92 | Null exactly when no item has the type. Otherwise it is the value of an item of that type with no earlier item of that type. |
| Tags.FindValueAppend | src/tag/Tag.cxx:82-92 | A lookup in a concatenation consults the second part only when the first part lacks the type. |
| Tags.GetValue | src/tag/Tag.cxx:82-92 | Null exactly when no item has the type. Otherwise it is the value of the first item, in item order, of that type. |
| TagPool.PooledTag.GetValue | src/tag/Tag.cxx:82-92 | The early-return loop over the slots returns the first match, as `FindValue` defines it. |
| Tags.HasType | src/tag/Tag.cxx:94-98 | Holds exactly when some item has the type. |
| TagPool.PooledTag.HasType | src/tag/Tag.cxx:94-98 | Holds exactly when some slot's item has the type. |
| Tags.DecaySort | src/tag/Tag.cxx:100-116 | Artist sort decays to artist, album sort to album, and album artist sort to album artist. Every other type maps to the sentinel. |
| Tags.Fallback | src/tag/Tag.cxx:118-131 | Album artist falls back to artist, and MusicBrainz album-artist id to MusicBrainz artist id. Every other type maps to the sentinel. |
| Tags.DecayAndFallbackTerminate | src/tag/Tag.cxx:100-131 | Decaying twice reaches the sentinel. Each fallback lowers a depth of at most one, so `GetSortValue` recurses at most twice. |
| Tags.GetSortValue | src/tag/Tag.cxx:133-163 | A present exact value is returned unchanged. Otherwise a present decayed value is returned. Otherwise the result is `""` or some item's value. |
| Tags.GetSortValueFollowsChain | src/tag/Tag.cxx:133-163 | The result is the first present value along the type's fixed chain (exact, decayed, fallback, fallback of decayed), else `""`. |
| Tags.AlbumArtistSortFallsBackToArtist | src/tag/Tag.cxx:133-163 | With no album artist (sort or plain), the album-artist sort value is the artist value, or `""`. |
| DatabasePrint.ApplyBaseFlag | src/db/DatabasePrint.cxx:40-46 | Without base mode the uri is unchanged. With it, the result is the uri's separator-free last component. |
| DatabasePrint.ApplyBaseFlagOfJoin | src/db/DatabasePrint.cxx:40-46 | In base mode `dir/name` shows the same as `name`. |
| DatabasePrint.PrintDirectoryURI | src/db/DatabasePrint.cxx:48-53 | One directory line. It holds the directory's path, or in base mode that path's last component: a separator-free suffix that is either the whole path or preceded by a separator. |
| DatabasePrint.PrintDirectoryBrief | src/db/DatabasePrint.cxx:55-60 | The root prints nothing. Any other directory prints one directory line with its (base-flagged) path. |
| DatabasePrint.PrintDirectoryFull | src/db/DatabasePrint.cxx:62-71 | The root prints nothing. Otherwise the directory line comes first, and Last-Modified appears exactly when mtime > 0. |
| DatabasePrint.BriefIsPrefixOfFull | src/db/DatabasePrint.cxx:55-71 | The full listing is the brief one plus at most the Last-Modified line. |
| DatabasePrint.PlaylistInPath | src/db/DatabasePrint.cxx:73-84 | Base mode prints the name's last component: a separator-free suffix that is either the whole name or preceded by a separator. Without a directory the bare name is printed. Otherwise the directory, one separator and the name are printed. |
| DatabasePrint.EmbeddedPlaylistPath | src/db/DatabasePrint.cxx:73-84 | A song's embedded playlist is printed under the song's full path. In base mode it is printed under that path's base name. |
| DatabasePrint.PlaylistInDirectory | src/db/DatabasePrint.cxx:86-96 | Base mode prints the bare name. Otherwise the name is joined to the directory's path, with no prefix for no directory or the root. An empty name in a non-root directory prints the path followed by a separator. |
| DatabasePrint.PrintSong | src/db/DatabasePrint.cxx:98-118 | The song block comes first. A playlist line under the song's (base-flagged) full path follows exactly when the tag has an embedded playlist. |
| DatabasePrint.PrintPlaylist | src/db/DatabasePrint.cxx:120-139 | One playlist line. Last-Modified is added exactly in full mode with mtime > 0. |
| DatabasePrint.PrintVisitors | src/db/DatabasePrint.cxx:178-187 | A filter removes the directory and playlist visitors. The song visitor is always present. Each visitor prints its entity in brief or full form. |
| DatabasePrint.PrintVisitorsPrintEverySong | src/db/DatabasePrint.cxx:182-183 | The songs printed are exactly the traversed songs, in order. Without the song visitor no song is printed. |
| DatabaseSort.CompareNumericByLeadingIntegers | src/db/DatabasePrint.cxx:141-148 | `CompareNumeric` orders two values that start with digits by the integers those digits spell, whatever non-digit text follows: "2/12" comes before "10/12". |
| DatabaseSort.ParseLong | src/db/DatabasePrint.cxx:144-145 | A non-zero result needs a digit right after the leading white space and the optional sign. A negative result needs a `-` sign. |
| DatabaseSort.ParseLongLeadingInteger | src/db/DatabasePrint.cxx:144-145 | White space, an optional sign and a run of digits parse to the signed value of the digits; the parse stops at the first non-digit. |
| DatabaseSort.ParseLongOfDigits | src/db/DatabasePrint.cxx:144-145 | A digit string parses to its decimal value. |
| DatabaseSort.LeadingZero | src/db/DatabasePrint.cxx:144-145 | Leading zeros do not change the value, so "02" ties with "2". |
| DatabaseSort.NonNumericIsZero | src/db/DatabasePrint.cxx:144-145 | A value with no digit after its leading white space and optional sign parses as 0, for example "", " x", "-x" and "+". |
| DatabaseSort.NumericVersusStringExample | src/db/DatabasePrint.cxx:141-164 | Numerically "2" < "10"; byte-wise "10" < "2". |
| DatabaseSort.StrLessIrreflexive | src/db/DatabasePrint.cxx:162 | No string is `strcmp`-less than itself. |
| DatabaseSort.StrLessTransitive | src/db/DatabasePrint.cxx:162 | The `strcmp` order is transitive. |
| DatabaseSort.StrLessTotal | src/db/DatabasePrint.cxx:162 | Of two different strings, one is `strcmp`-less than the other. |
| DatabaseSort.StrLessAsymmetric | src/db/DatabasePrint.cxx:162 | The `strcmp` order never holds both ways. |
| DatabaseSort.CompareTags | src/db/DatabasePrint.cxx:150-164 | Equal sort values are never ordered. Disc and track numbers compare by their parsed leading integers. Every other type compares byte-wise, as strcmp does. |
| DatabaseSort.CompareTagsTrackVersusTitle | src/db/DatabasePrint.cxx:150-164 | Tags with track and title "2" and "10" sort numerically by track and in the opposite order by title. |
| DatabaseSort.CompareTagsOrder | src/db/DatabasePrint.cxx:150-164 | `CompareTags` is irreflexive and transitive, and incomparability is transitive, for every sort type. |
| DatabaseSort.SongOrder | src/db/DatabasePrint.cxx:217-221 | The sort comparator compares two songs' tags with `CompareTags`. |
| DatabaseSort.SongOrderIsStrictWeak | src/db/DatabasePrint.cxx:217-221 | The comparator is a strict weak order, as `std::stable_sort` requires. |
| StableSort.InsertPermutes | src/db/DatabasePrint.cxx:217-221 | Inserting adds exactly the new element. |
| StableSort.SortPermutes | src/db/DatabasePrint.cxx:217-221 | The stable sort is a permutation of its input. |
| StableSort.InsertSorted | src/db/DatabasePrint.cxx:217-221 | Inserting into a sorted sequence keeps it sorted. |
| StableSort.SortIsSorted | src/db/DatabasePrint.cxx:217-221 | The result is sorted by the comparator. |
| StableSort.InsertStable | src/db/DatabasePrint.cxx:217-221 | An inserted element goes after every element with an equal key. |
| StableSort.SortIsStable | src/db/DatabasePrint.cxx:217-221 | Elements with equal keys keep their input order. |
| StableSort.SortedStableUnique | src/db/DatabasePrint.cxx:217-221 | Two sorted, equally long sequences with the same order within each key are equal. |
| StableSort.EquivalentsIn | src/db/DatabasePrint.cxx:217-221 | A non-empty list of equal-key elements has a witness in the sequence. |
| StableSort.StableSortIsUnique | src/db/DatabasePrint.cxx:217-221 | Every stable sort gives the same result as `Sort`, so the algorithm does not matter. |
| StableSort.InsertSkips | src/db/DatabasePrint.cxx:217-221 | An element inserted into a sorted run goes right behind the last element it is not less than, past every greater one. |
| StableSort.InsertAt | src/db/DatabasePrint.cxx:217-221 | Shifting the greater elements up and dropping `a[i]` into the gap gives `Insert` of it into `a[..i]`, and leaves the rest of the array unchanged. |
| StableSort.InsertionSort | src/db/DatabasePrint.cxx:217-221 | The array afterwards equals the stable sort of its old contents. |
| SelectionPrint.Window | src/db/DatabasePrint.cxx:223-231 | The result is `s[start .. min(end, len))`, or empty when start is at or past that bound. |
| SelectionPrint.WindowExamples | src/db/DatabasePrint.cxx:223-231 | With ten songs, [3,6) gives positions 3,4,5; [8,100) gives 8,9; [20,100) gives nothing. |
| SelectionPrint.Detach | src/db/DatabasePrint.cxx:210-212 | The copy has the same full uri, tag and mtime, and no directory. |
| SelectionPrint.DetachAll | src/db/DatabasePrint.cxx:207-215 | Each collected song is detached, in order. |
| SelectionPrint.StreamSongs | src/db/DatabasePrint.cxx:189-199 | The unsorted loop, with its song counter, prints the counting-window traversal. Without a window it prints the traversal unchanged. |
| SelectionPrint.CollectSongs | src/db/DatabasePrint.cxx:207-215 | Directories and playlists are printed while every song is collected as a detached copy, in traversal order. |
| SelectionPrint.SortSongs | src/db/DatabasePrint.cxx:217-221 | Sorting the collected songs in an array gives the stable sort of them by `CompareTags`. |
| SelectionPrint.EmitWindow | src/db/DatabasePrint.cxx:223-234 | Cutting to `end`, returning when `start` is past the rest, and dropping `start` songs prints exactly the window of the sorted songs. |
| SelectionPrint.DbSelectionPrint | src/db/DatabasePrint.cxx:166-236 | Without a database the result is the error. Otherwise the records are the unsorted or sorted output defined for the traversal. |
| SelectionPrint.SortedPrint | src/db/DatabasePrint.cxx:200-235 | Sorted mode prints the directories and playlists during the traversal, then the window of the stably sorted songs. |
| SelectionPrint.DbSelectionPrintAll | src/db/DatabasePrint.cxx:238-246 | The overload without sort and window prints the plain traversal through the visitors. |
| SelectionPrint.WindowedSongs | src/db/DatabasePrint.cxx:189-197 | The song with index i (counting every song) is forwarded exactly when start <= i < end. Streaming thus agrees with slicing the song list. |
| SelectionPrint.WindowedKeepsNonSongs | src/db/DatabasePrint.cxx:189-199 | Directories and playlists are neither counted nor dropped by the window. |
| SelectionPrint.StreamingPrintsWindow | src/db/DatabasePrint.cxx:189-199 | Unsorted, the songs printed are the window of the traversed songs. They are all the traversed songs when the visitor is not wrapped. |
| SelectionPrint.DefaultQueryPrintsEverySong | src/db/DatabasePrint.cxx:238-246 | The default call prints every traversed song, however many. |
| SelectionPrint.SortedPrintsWindow | src/db/DatabasePrint.cxx:200-235 | Sorted, the songs printed are exactly the window of the stably sorted detached songs. |
| SelectionPrint.SortedSongsAreStablySorted | src/db/DatabasePrint.cxx:207-221 | The sorted songs are ordered by `CompareTags` and are a permutation of the collected songs. Equal keys keep traversal order. |
| SelectionPrint.DetachKeepsPlaylistLine | src/db/DatabasePrint.cxx:98-118 | Detaching a song does not change the playlist line printed for its embedded CUE sheet. |
| SelectionPrint.FilteredQueryReportsOnlySongs | src/db/DatabasePrint.cxx:178-187 | With a filter, every record is a song block or the embedded-playlist line right after one, in both modes. |
| UniqueTags.GroupLines | src/db/DatabasePrint.cxx:262-265 | A line is printed exactly for the items of another type that the mask admits. |
| UniqueTags.PrintUniqueTag | src/db/DatabasePrint.cxx:254-266 | The grouped type's value comes first, then the admitted items in item order. |
| UniqueTags.PrintUniqueTags | src/db/DatabasePrint.cxx:268-291 | The file pseudo-type prints each traversed song's uri. A tag type prints one group per representative tag. Without a database the result is the error. |
| UniqueTags.OneHeadPerGroup | src/db/DatabasePrint.cxx:254-291 | The lines of the grouped type are exactly the groups' values, one per group, in the database's order. No other line has that type. |
| UniqueTags.GroupValuesAt | src/db/DatabasePrint.cxx:258-260 | The i-th group value is the i-th representative tag's value of the grouped type. |
| UniqueTags.UriVisitors | src/db/DatabasePrint.cxx:277-281 | For the file pseudo-type only songs are visited, and each song prints one uri line. |
| UniqueTags.FileUrisListEverySong | src/db/DatabasePrint.cxx:277-281 | The file pseudo-type lists every traversed song once, in order. |
| Mount.PrefixDirectory | src/db/plugins/simple/Mount.cxx:37-48 | The root becomes exactly the mount point. Any other directory becomes `base/uri`. The mtime is kept. |
| Mount.PrefixDirectoryRoundTrip | src/db/plugins/simple/Mount.cxx:37-48 | Stripping the mount point from a prefixed directory path gives back the original path. |
| Mount.PrefixEmptyBase | src/db/plugins/simple/Mount.cxx:37-48 | Mounting at the empty path changes no directory. |
| Mount.PrefixSong | src/db/plugins/simple/Mount.cxx:57-62 | The song's full uri is joined to the mount point. Its tag and mtime are kept. |
| Mount.PrefixSongRoundTrip | src/db/plugins/simple/Mount.cxx:57-62 | Stripping the mount point from a prefixed song gives back the song's full uri. |
| Mount.MountExample | src/db/plugins/simple/Mount.cxx:37-62 | Mounted at "foo", the root reads "foo", and `bar/song.mp3` reads `foo/bar/song.mp3`. |
| Mount.PrefixVisitDirectory | src/db/plugins/simple/Mount.cxx:50-55 | The caller's visitor gets a directory with the same mtime. Below a non-empty mount point its path leads back to the original path. |
| Mount.PrefixVisitSong | src/db/plugins/simple/Mount.cxx:57-62 | The caller's visitor gets a song with the same tag and mtime and no directory. Below a non-empty mount point its full path leads back to the original. |
| Mount.PrefixVisitPlaylist | src/db/plugins/simple/Mount.cxx:64-71 | The playlist is passed on unchanged. Its directory is prefixed as for a directory visit. |
| Mount.PrefixAll | src/db/plugins/simple/Mount.cxx:50-71 | Every traversed entity is rewritten once, in place. A playlist passes through with only its directory prefixed. |
| Mount.VisitOneWrapped | src/db/plugins/simple/Mount.cxx:50-71 | A wrapped visitor sees exactly the prefixed copy of its entity. |
| Mount.WrapVisitors | src/db/plugins/simple/Mount.cxx:79-94 | A visitor is wrapped exactly when it is present. An absent one stays absent. |
| Mount.WrappedVisitIsPrefixedVisit | src/db/plugins/simple/Mount.cxx:50-94 | Visiting with wrapped visitors equals visiting the prefixed traversal, in the same order. |
| Mount.WalkMount | src/db/plugins/simple/Mount.cxx:73-97 | The sub-database is traversed from its root with the caller's recursion flag and filter, and every entity is prefixed before the caller's visitor runs. |

## Left out

- The pool's lock (`tag_pool_lock`) is left out. The model is sequential.
- `Pool.cxx` is not part of this model. The pool is a multiset of items.
  Two items with the same type and value are the same pooled item, so value
  equality stands for pointer identity. Interning-uniqueness properties of
  the pool are not stated.
- `Builder.cxx` is not part of this model. `Merge` states the
  `TagBuilder(add).Complement(base)` rule as a function on tag values.
- Tags.MergeReplace: works on tag values. Freeing `base` and `add`, and the
  pool releases that freeing causes, are not modelled.
- `TagPool.PooledTag` stores items as values, not as pool pointers.
  Freeing the old item array in `Clear` is not modelled.
- DatabaseSort.ParseLong: `strtol`'s clamping to `LONG_MIN`/`LONG_MAX` on
  overflow is not modelled; integers are unbounded.
- Strings are character sequences without a terminating NUL. `StrLess`
  compares characters by code point, which orders UTF-8 text the same way
  as `strcmp` on its bytes.
- SelectionPrint.StreamSongs: the window counter and the window bounds are
  unbounded naturals. The source's `unsigned` counter would wrap after 2^32
  songs.
- The response's text formatting (`r.Format`, `time_print`, `tag_print`,
  `song_print_uri`, `song_print_info`) is not part of this model. Each call
  is one record. A song block carries the song and the full and base flags.
- The response's tag mask is a parameter of `PrintUniqueTag(s)`.
- `Database::Visit` and `VisitUniqueTags` are not part of this model. They
  are given as the sequence of entities (or representative tags) they
  report. How the database filters, recurses and groups is not modelled.
- Visitors return the records they would append instead of writing into a
  shared response. The model keeps their order.
- `PathTraitsUTF8::Build` and `GetBase` are simple definitions with `/` as
  the only separator.
- `PrefixedLightSong.hxx` and `DetachedSong.cxx` are not part of this
  model. A prefixed song's uri is its full uri joined to the mount point,
  with no directory. A detached song's uri is its full uri, with no
  directory.
- `PrintUniqueTags` takes its `type` argument as `FileUris` or a real tag
  type. Any other value is excluded by precondition, as the source's
  assertion excludes it.
- `GetDatabaseOrThrow`'s exception is the `DatabaseDisabled` outcome.
- `std::stable_sort` runs an in-place insertion sort in the model.
  `StableSort.StableSortIsUnique` shows that every stable sort gives the
  same result. Sorted mode copies the collected songs into an array for the
  sort. The `erase` calls work on sequence values.
