/** The unique-tag query: one group per distinct value of a tag type, or
    the plain list of song URIs for the file pseudo-type. */
module UniqueTags {
  import opened Optional
  import opened TagTypes
  import opened Tags
  import opened Library
  import opened DatabasePrint

  /** The type argument of PrintUniqueTags: LOCATE_TAG_FILE_TYPE, or a
      real tag type. */
  datatype UniqueKind = FileUris | ByTag(kind: TagType)

  /** The lines PrintUniqueTag writes after the group's value: every item
      of another type that the response's tag mask admits, in item order. */
  function GroupLines(items: seq<TagItem>, kind: TagType, mask: set<TagType>): (r: seq<Record>)
    ensures |r| <= |items|
    ensures forall rec :: rec in r <==>
      exists i :: 0 <= i < |items| && items[i].kind != kind && items[i].kind in mask &&
        rec == TagLine(items[i].kind, items[i].value)
  {
    if items == [] then []
    else
      var init, last := items[..|items| - 1], items[|items| - 1];
      assert forall i :: 0 <= i < |init| ==> items[i] == init[i];
      GroupLines(init, kind, mask) +
      (if last.kind != kind && last.kind in mask then [TagLine(last.kind, last.value)] else [])
  }

  /** One item more for the group. */
  lemma GroupLinesStep(items: seq<TagItem>, k: nat, kind: TagType, mask: set<TagType>)
    requires k < |items|
    ensures GroupLines(items[..k + 1], kind, mask) == GroupLines(items[..k], kind, mask) +
      (if items[k].kind != kind && items[k].kind in mask then [TagLine(items[k].kind, items[k].value)] else [])
  {
    assert items[..k + 1][..k] == items[..k] && items[..k + 1][k] == items[k];
  }

  /** PrintUniqueTag: the group's value, then the admitted items. */
  method PrintUniqueTag(kind: TagType, mask: set<TagType>, tag: Tag) returns (out: seq<Record>)
    requires kind.IsItemType() && HasType(tag, kind)
    ensures out == [TagLine(kind, GetValue(tag, kind).value)] + GroupLines(tag.items, kind, mask)
  {
    var value := GetValue(tag, kind);
    var head := [TagLine(kind, value.value)];
    out := head;
    var k := 0;
    while k < |tag.items|
      invariant 0 <= k <= |tag.items|
      invariant out == head + GroupLines(tag.items[..k], kind, mask)
    {
      var item := tag.items[k];
      GroupLinesStep(tag.items, k, kind, mask);
      if item.kind != kind && item.kind in mask {
        out := out + [TagLine(item.kind, item.value)];
      }
      k := k + 1;
    }
    assert tag.items[..k] == tag.items;
  }

  /** What the groups of a unique-tag query print, one after the other. */
  function UniqueTagOutput(tags: seq<Tag>, kind: TagType, mask: set<TagType>): seq<Record>
    requires kind.IsItemType()
    requires forall i :: 0 <= i < |tags| ==> HasType(tags[i], kind)
  {
    if tags == [] then []
    else
      var last := tags[|tags| - 1];
      assert HasType(last, kind);
      UniqueTagOutput(tags[..|tags| - 1], kind, mask) +
      ([TagLine(kind, GetValue(last, kind).value)] + GroupLines(last.items, kind, mask))
  }

  /** One group more. */
  lemma UniqueTagStep(tags: seq<Tag>, k: nat, kind: TagType, mask: set<TagType>)
    requires kind.IsItemType() && k < |tags|
    requires forall i :: 0 <= i < |tags| ==> HasType(tags[i], kind)
    ensures UniqueTagOutput(tags[..k + 1], kind, mask) == UniqueTagOutput(tags[..k], kind, mask) +
      ([TagLine(kind, GetValue(tags[k], kind).value)] + GroupLines(tags[k].items, kind, mask))
  {
    assert tags[..k + 1][..k] == tags[..k] && tags[..k + 1][k] == tags[k];
  }

  /** The song visitor of the file pseudo-type. */
  function UriVisitors(): (v: Visitors<Record>)
    ensures v.directory.None? && v.playlist.None? && v.song.Some?
    ensures forall s :: v.song.value(s) == [SongUriLine(s)]
  {
    Visitors(None, Some((s: LightSong) => [SongUriLine(s)]), None)
  }

  /** PrintUniqueTags: a recursive, optionally filtered query from the
      root. The database hands every group's representative tag, which has
      the grouped type, to PrintUniqueTag. */
  method PrintUniqueTags(db: Option<Database>, kind: UniqueKind, groupMask: set<TagType>,
                         filter: Option<SongFilter>, responseMask: set<TagType>) returns (r: Outcome)
    requires kind.ByTag? ==> kind.kind.IsItemType()
    requires db.Some? && kind.ByTag? ==>
      forall t :: t in db.value.visitUniqueTags(Selection("", true, filter), kind.kind, groupMask) ==>
        HasType(t, kind.kind)
    ensures db.None? <==> r == DatabaseDisabled
    ensures db.Some? && kind.FileUris? ==>
      r == Printed(Visit(db.value.visit(Selection("", true, filter)), UriVisitors()))
    ensures db.Some? && kind.ByTag? ==>
      r == Printed(UniqueTagOutput(db.value.visitUniqueTags(Selection("", true, filter), kind.kind, groupMask),
                                   kind.kind, responseMask))
  {
    if db.None? {
      return DatabaseDisabled;
    }
    var selection := Selection("", true, filter);
    if kind.FileUris? {
      return Printed(Visit(db.value.visit(selection), UriVisitors()));
    }
    var tags := db.value.visitUniqueTags(selection, kind.kind, groupMask);
    var out: seq<Record> := [];
    var k := 0;
    assert forall i :: 0 <= i < |tags| ==> HasType(tags[i], kind.kind) by {
      forall i | 0 <= i < |tags| ensures HasType(tags[i], kind.kind) {
        assert tags[i] in tags;
      }
    }
    while k < |tags|
      invariant 0 <= k <= |tags|
      invariant out == UniqueTagOutput(tags[..k], kind.kind, responseMask)
    {
      UniqueTagStep(tags, k, kind.kind, responseMask);
      var group := PrintUniqueTag(kind.kind, responseMask, tags[k]);
      out := out + group;
      k := k + 1;
    }
    assert tags[..k] == tags;
    return Printed(out);
  }

  /** The values a response lists under the grouped type, in order. */
  function Heads(records: seq<Record>, kind: TagType): seq<string> {
    if records == [] then []
    else
      var last := records[|records| - 1];
      Heads(records[..|records| - 1], kind) + (if last.TagLine? && last.kind == kind then [last.value] else [])
  }

  lemma {:induction false} HeadsAppend(a: seq<Record>, b: seq<Record>, kind: TagType)
    ensures Heads(a + b, kind) == Heads(a, kind) + Heads(b, kind)
  {
    if b == [] {
      assert a + b == a;
    } else {
      assert (a + b)[..|a + b| - 1] == a + b[..|b| - 1];
      HeadsAppend(a, b[..|b| - 1], kind);
    }
  }

  lemma {:induction false} HeadsOfGroupLines(items: seq<TagItem>, kind: TagType, mask: set<TagType>)
    ensures Heads(GroupLines(items, kind, mask), kind) == []
  {
    if items != [] {
      var init, last := items[..|items| - 1], items[|items| - 1];
      var extra := if last.kind != kind && last.kind in mask then [TagLine(last.kind, last.value)] else [];
      HeadsOfGroupLines(init, kind, mask);
      HeadsAppend(GroupLines(init, kind, mask), extra, kind);
      if extra != [] {
        assert extra[..0] == [];
      }
    }
  }

  /** One group's lines hold one head: the group's value. */
  lemma HeadsOfGroup(value: string, items: seq<TagItem>, kind: TagType, mask: set<TagType>)
    ensures Heads([TagLine(kind, value)] + GroupLines(items, kind, mask), kind) == [value]
  {
    var head := [TagLine(kind, value)];
    HeadsAppend(head, GroupLines(items, kind, mask), kind);
    HeadsOfGroupLines(items, kind, mask);
    assert head[..0] == [];
  }

  /** The values of the grouped type, one per representative tag. */
  function GroupValues(tags: seq<Tag>, kind: TagType): (r: seq<string>)
    requires kind.IsItemType()
    requires forall i :: 0 <= i < |tags| ==> HasType(tags[i], kind)
  {
    if tags == [] then []
    else
      var last := tags[|tags| - 1];
      assert HasType(last, kind);
      GroupValues(tags[..|tags| - 1], kind) + [GetValue(last, kind).value]
  }

  lemma {:induction false} GroupValuesAt(tags: seq<Tag>, kind: TagType)
    requires kind.IsItemType()
    requires forall i :: 0 <= i < |tags| ==> HasType(tags[i], kind)
    ensures |GroupValues(tags, kind)| == |tags|
    ensures forall i :: 0 <= i < |tags| ==> GroupValues(tags, kind)[i] == GetValue(tags[i], kind).value
  {
    if tags != [] {
      GroupValuesAt(tags[..|tags| - 1], kind);
    }
  }

  /** The grouped type's value opens each group and appears nowhere else:
      the response lists exactly one value per representative tag, in the
      database's order. */
  lemma {:induction false} OneHeadPerGroup(tags: seq<Tag>, kind: TagType, mask: set<TagType>)
    requires kind.IsItemType()
    requires forall i :: 0 <= i < |tags| ==> HasType(tags[i], kind)
    ensures Heads(UniqueTagOutput(tags, kind, mask), kind) == GroupValues(tags, kind)
  {
    if tags != [] {
      var init, last := tags[..|tags| - 1], tags[|tags| - 1];
      var value := GetValue(last, kind).value;
      var group := [TagLine(kind, value)] + GroupLines(last.items, kind, mask);
      OneHeadPerGroup(init, kind, mask);
      HeadsAppend(UniqueTagOutput(init, kind, mask), group, kind);
      HeadsOfGroup(value, last.items, kind, mask);
    }
  }

  /** The file pseudo-type lists every song of the traversal, once, in
      traversal order. */
  lemma {:induction false} FileUrisListEverySong(traversal: seq<Entity>)
    ensures |Visit(traversal, UriVisitors())| == |SongsIn(traversal)|
    ensures forall i :: 0 <= i < |SongsIn(traversal)| ==>
      Visit(traversal, UriVisitors())[i] == SongUriLine(SongsIn(traversal)[i])
  {
    if traversal != [] {
      var init, last := traversal[..|traversal| - 1], traversal[|traversal| - 1];
      assert traversal == init + [last];
      VisitAppend(init, [last], UriVisitors());
      assert Visit([last], UriVisitors()) == VisitOne(last, UriVisitors()) + Visit([], UriVisitors());
      FileUrisListEverySong(init);
    }
  }
}
