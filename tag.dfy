/** Tags as values: an ordered sequence of (type, value) items plus a
    duration and the embedded-playlist flag; lookup, the sort-value
    fallback chain and merging. */
module Tags {
  import opened Optional
  import opened TagTypes

  /** One interned item. Two items with the same type and value are the
      same pooled item, so value equality models pointer identity. */
  datatype TagItem = TagItem(kind: TagType, value: string)

  /** `duration` is in milliseconds; a negative duration means "unknown". */
  datatype Tag = Tag(duration: int, hasPlaylist: bool, items: seq<TagItem>)

  /** The set of types that occur in `items`. */
  function Kinds(items: seq<TagItem>): set<TagType> {
    set i | 0 <= i < |items| :: items[i].kind
  }

  // ---------------------------------------------------------------------
  // Lookup

  /** The value of the first item, in item order, whose type is `kind`. */
  function FindValue(items: seq<TagItem>, kind: TagType): (r: Option<string>)
    ensures r.None? <==> forall i :: 0 <= i < |items| ==> items[i].kind != kind
    ensures r.Some? ==>
      exists i :: 0 <= i < |items| && items[i] == TagItem(kind, r.value) &&
        forall j :: 0 <= j < i ==> items[j].kind != kind
  {
    if items == [] then None
    else if items[0].kind == kind then Some(items[0].value)
    else
      var r := FindValue(items[1..], kind);
      assert forall i :: 1 <= i < |items| ==> items[i] == items[1..][i - 1];
      r
  }

  /** Tag::GetValue: the caller must ask for a real type. Null exactly
      when no item has that type; otherwise the value of the first one. */
  function GetValue(tag: Tag, kind: TagType): (r: Option<string>)
    requires kind.IsItemType()
    ensures r.None? <==> kind !in Kinds(tag.items)
    ensures r.Some? ==> TagItem(kind, r.value) in tag.items
    ensures r.Some? ==>
      exists i :: 0 <= i < |tag.items| && tag.items[i] == TagItem(kind, r.value) &&
        forall j :: 0 <= j < i ==> tag.items[j].kind != kind
  {
    FindValue(tag.items, kind)
  }

  /** Tag::HasType: some item has type `kind`. */
  function HasType(tag: Tag, kind: TagType): (r: bool)
    requires kind.IsItemType()
    ensures r <==> kind in Kinds(tag.items)
  {
    GetValue(tag, kind).Some?
  }

  /** Looking up in a concatenation consults the second part only when the
      first has no item of that type. */
  lemma {:induction false} FindValueAppend(a: seq<TagItem>, b: seq<TagItem>, kind: TagType)
    ensures FindValue(a + b, kind) ==
      if FindValue(a, kind).Some? then FindValue(a, kind) else FindValue(b, kind)
  {
    if a != [] {
      assert (a + b)[1..] == a[1..] + b;
      FindValueAppend(a[1..], b, kind);
    } else {
      assert a + b == b;
    }
  }

  // ---------------------------------------------------------------------
  // The sort-value fallback chain

  /** A `*_SORT` type decays to its base type; every other type to the
      sentinel. */
  function DecaySort(kind: TagType): (r: TagType)
    ensures r.IsItemType() <==> kind in {ArtistSort, AlbumSort, AlbumArtistSort}
    ensures r.IsItemType() ==> r in {Artist, Album, AlbumArtist}
    ensures kind == ArtistSort ==> r == Artist
    ensures kind == AlbumSort ==> r == Album
    ensures kind == AlbumArtistSort ==> r == AlbumArtist
  {
    match kind
    case ArtistSort => Artist
    case AlbumSort => Album
    case AlbumArtistSort => AlbumArtist
    case _ => NumOfItemTypes
  }

  /** The static fallback: album artist to artist, and the MusicBrainz
      album-artist id to the artist id; every other type to the sentinel. */
  function Fallback(kind: TagType): (r: TagType)
    ensures r.IsItemType() <==> kind in {AlbumArtist, MusicBrainzAlbumArtistId}
    ensures r.IsItemType() ==> r in {Artist, MusicBrainzArtistId}
    ensures kind == AlbumArtist ==> r == Artist
    ensures kind == MusicBrainzAlbumArtistId ==> r == MusicBrainzArtistId
  {
    match kind
    case AlbumArtist => Artist
    case MusicBrainzAlbumArtistId => MusicBrainzArtistId
    case _ => NumOfItemTypes
  }

  /** How many fallback steps may still follow a lookup of `kind`: the
      targets of Fallback have none, so the chain is acyclic. */
  function FallbackDepth(kind: TagType): nat {
    if kind in {Artist, MusicBrainzArtistId} then 0 else 1
  }

  /** The tables are acyclic: a fallback target neither decays nor falls
      back again, and a decayed type never decays a second time. */
  lemma DecayAndFallbackTerminate(kind: TagType)
    ensures DecaySort(DecaySort(kind)) == NumOfItemTypes
    ensures Fallback(kind).IsItemType() ==>
      DecaySort(Fallback(kind)) == NumOfItemTypes && Fallback(Fallback(kind)) == NumOfItemTypes
    ensures Fallback(DecaySort(kind)).IsItemType() ==>
      DecaySort(Fallback(DecaySort(kind))) == NumOfItemTypes &&
      Fallback(Fallback(DecaySort(kind))) == NumOfItemTypes
    ensures Fallback(kind).IsItemType() ==> FallbackDepth(Fallback(kind)) < FallbackDepth(kind)
  {
  }

  /** Tag::GetSortValue. The result is never absent: it is the value of
      some item, or the empty string. */
  function GetSortValue(tag: Tag, kind: TagType): (r: string)
    requires kind.IsItemType()
    decreases FallbackDepth(kind)
    ensures GetValue(tag, kind).Some? ==> r == GetValue(tag, kind).value
    ensures (GetValue(tag, kind).None? && DecaySort(kind).IsItemType() &&
             GetValue(tag, DecaySort(kind)).Some?) ==> r == GetValue(tag, DecaySort(kind)).value
    ensures r == "" || exists i :: 0 <= i < |tag.items| && tag.items[i].value == r
  {
    var value := GetValue(tag, kind);
    if value.Some? then value.value
    else
      var noSortType := DecaySort(kind);
      if noSortType.IsItemType() && GetValue(tag, noSortType).Some? then
        GetValue(tag, noSortType).value
      else if Fallback(kind).IsItemType() then
        GetSortValue(tag, Fallback(kind))
      else if noSortType.IsItemType() && Fallback(noSortType).IsItemType() then
        GetSortValue(tag, Fallback(noSortType))
      else
        ""
  }

  /** The lookups GetSortValue makes, in order, as an explicit table. */
  function SortChain(kind: TagType): (chain: seq<TagType>)
    requires kind.IsItemType()
    ensures 1 <= |chain| <= 3 && chain[0] == kind
    ensures forall i :: 0 <= i < |chain| ==> chain[i].IsItemType()
  {
    var noSortType := DecaySort(kind);
    [kind]
    + (if noSortType.IsItemType() then [noSortType] else [])
    + (if Fallback(kind).IsItemType() then [Fallback(kind)]
       else if noSortType.IsItemType() && Fallback(noSortType).IsItemType() then [Fallback(noSortType)]
       else [])
  }

  /** The value of the first type in `chain` that the tag has, else "". */
  function FirstPresent(tag: Tag, chain: seq<TagType>): string
    requires forall i :: 0 <= i < |chain| ==> chain[i].IsItemType()
  {
    if chain == [] then ""
    else if GetValue(tag, chain[0]).Some? then GetValue(tag, chain[0]).value
    else FirstPresent(tag, chain[1..])
  }

  /** GetSortValue tries exactly the types of SortChain, in that order,
      and falls back to "" when none is present. */
  lemma GetSortValueFollowsChain(tag: Tag, kind: TagType)
    requires kind.IsItemType()
    ensures GetSortValue(tag, kind) == FirstPresent(tag, SortChain(kind))
  {
    var noSortType := DecaySort(kind);
    var chain := SortChain(kind);
    if Fallback(kind).IsItemType() {
      var f := Fallback(kind);
      assert chain == [kind, f];
      assert chain[1..] == [f] && [f][1..] == [];
      assert GetSortValue(tag, f) == FirstPresent(tag, [f]);
    } else if noSortType.IsItemType() && Fallback(noSortType).IsItemType() {
      var f := Fallback(noSortType);
      assert chain == [kind, noSortType, f];
      assert chain[1..] == [noSortType, f] && [noSortType, f][1..] == [f] && [f][1..] == [];
      assert GetSortValue(tag, f) == FirstPresent(tag, [f]);
    } else if noSortType.IsItemType() {
      assert chain == [kind, noSortType];
      assert chain[1..] == [noSortType] && [noSortType][1..] == [];
      assert FirstPresent(tag, [noSortType]) ==
        if GetValue(tag, noSortType).Some? then GetValue(tag, noSortType).value else "";
    } else {
      assert chain == [kind];
    }
  }

  /** A tag with neither an album-artist sort value nor an album artist
      sorts by its artist, or by "" when that is missing too. */
  lemma AlbumArtistSortFallsBackToArtist(tag: Tag)
    requires !HasType(tag, AlbumArtistSort) && !HasType(tag, AlbumArtist)
    ensures GetSortValue(tag, AlbumArtistSort) ==
      if HasType(tag, Artist) then GetValue(tag, Artist).value else ""
  {
    GetSortValueFollowsChain(tag, AlbumArtistSort);
    var chain := SortChain(AlbumArtistSort);
    assert chain == [AlbumArtistSort, AlbumArtist, Artist];
    assert chain[1..][1..] == [Artist];
    assert chain[1..][1..][1..] == [];
  }

  // ---------------------------------------------------------------------
  // Merging

  /** The items of `items` whose type is not in `present`, in order. */
  function Missing(items: seq<TagItem>, present: set<TagType>): (r: seq<TagItem>)
    ensures |r| <= |items|
    ensures forall it :: it in r <==> it in items && it.kind !in present
  {
    if items == [] then []
    else
      var rest := Missing(items[1..], present);
      assert forall it :: it in items <==> it == items[0] || it in items[1..];
      if items[0].kind in present then rest else [items[0]] + rest
  }

  /** TagBuilder(add).Complement(base) committed: the items of `add`,
      then every item of `base` whose type `add` does not have; the
      duration of `add` unless it is unknown; the playlist flag of either. */
  function Merge(base: Tag, add: Tag): (r: Tag)
    ensures |r.items| >= |add.items| && r.items[..|add.items|] == add.items
    ensures forall it :: it in r.items <==>
      it in add.items || (it in base.items && it.kind !in Kinds(add.items))
    ensures r.duration == if add.duration < 0 then base.duration else add.duration
    ensures r.hasPlaylist == (add.hasPlaylist || base.hasPlaylist)
  {
    Tag(if add.duration < 0 then base.duration else add.duration,
        add.hasPlaylist || base.hasPlaylist,
        add.items + Missing(base.items, Kinds(add.items)))
  }

  lemma {:induction false} MissingFindValue(items: seq<TagItem>, present: set<TagType>, kind: TagType)
    requires kind !in present
    ensures FindValue(Missing(items, present), kind) == FindValue(items, kind)
  {
    if items != [] {
      MissingFindValue(items[1..], present, kind);
      if items[0].kind !in present {
        assert ([items[0]] + Missing(items[1..], present))[1..] == Missing(items[1..], present);
      }
    }
  }

  lemma {:induction false} MissingNothing(items: seq<TagItem>)
    ensures Missing(items, {}) == items
  {
    if items != [] {
      MissingNothing(items[1..]);
    }
  }

  /** The merge complement law: a type that `add` has is looked up in
      `add`; any other type in `base`. */
  lemma MergeGetValue(base: Tag, add: Tag, kind: TagType)
    requires kind.IsItemType()
    ensures GetValue(Merge(base, add), kind) ==
      if HasType(add, kind) then GetValue(add, kind) else GetValue(base, kind)
  {
    var present := Kinds(add.items);
    FindValueAppend(add.items, Missing(base.items, present), kind);
    if !HasType(add, kind) {
      MissingFindValue(base.items, present, kind);
    }
  }

  /** Merging keeps every type of either side and adds none. */
  lemma MergeKinds(base: Tag, add: Tag)
    ensures Kinds(Merge(base, add).items) == Kinds(add.items) + Kinds(base.items)
  {
    var r := Merge(base, add).items;
    forall k | k in Kinds(base.items) && k !in Kinds(add.items)
      ensures k in Kinds(r)
    {
      var i :| 0 <= i < |base.items| && base.items[i].kind == k;
      assert base.items[i] in r;
    }
    forall k | k in Kinds(r)
      ensures k in Kinds(add.items) + Kinds(base.items)
    {
      var i :| 0 <= i < |r| && r[i].kind == k;
      assert r[i] in r;
    }
  }

  /** Layering an empty tag over `base` keeps base's items exactly. */
  lemma MergeEmptyAdd(base: Tag, add: Tag)
    requires add.items == []
    ensures Merge(base, add).items == base.items
  {
    assert Kinds(add.items) == {};
    MissingNothing(base.items);
  }

  /** Tag::MergeReplace: null propagates; two tags are merged. */
  function MergeReplace(base: Option<Tag>, add: Option<Tag>): (r: Option<Tag>)
    ensures r.None? <==> base.None? && add.None?
  {
    if add.None? then base
    else if base.None? then add
    else Some(Merge(base.value, add.value))
  }

  /** A null `add` gives `base` and a null `base` gives `add`, unchanged.
      Two tags give a tag with the merged duration and playlist flag.
      Whatever MergeReplace returns answers every lookup from `add` when
      `add` has the type, and from `base` otherwise. */
  lemma MergeReplaceLayers(base: Option<Tag>, add: Option<Tag>, kind: TagType)
    requires kind.IsItemType()
    requires base.Some? || add.Some?
    ensures add.None? ==> MergeReplace(base, add) == base
    ensures base.None? ==> MergeReplace(base, add) == add
    ensures base.Some? && add.Some? ==>
      MergeReplace(base, add).value.duration ==
        (if add.value.duration < 0 then base.value.duration else add.value.duration) &&
      MergeReplace(base, add).value.hasPlaylist == (add.value.hasPlaylist || base.value.hasPlaylist)
    ensures MergeReplace(base, add).Some?
    ensures GetValue(MergeReplace(base, add).value, kind) ==
      if add.Some? && HasType(add.value, kind) then GetValue(add.value, kind)
      else if base.Some? then GetValue(base.value, kind)
      else None
  {
    if add.Some? && base.Some? {
      MergeGetValue(base.value, add.value, kind);
    }
  }
}
