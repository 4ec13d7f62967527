/** Tags as the library stores them: an item array whose slots each own one
    reference into the interning pool. */
module TagPool {
  import opened Optional
  import opened TagTypes
  import opened Tags

  /** The interning pool, abstractly: the multiplicity of an item is its
      reference count, and an item whose count drops to zero is no longer
      in the pool. The pool's lock is not modelled. */
  class Pool {
    var refs: multiset<TagItem>

    constructor ()
      ensures refs == multiset{}
    {
      refs := multiset{};
    }

    /** tag_pool_dup_item: one more reference to a live item. */
    method Dup(item: TagItem) returns (r: TagItem)
      requires item in refs
      modifies this
      ensures r == item
      ensures refs == old(refs) + multiset{item}
    {
      refs := refs + multiset{item};
      r := item;
    }

    /** tag_pool_put_item: one reference fewer. */
    method Put(item: TagItem)
      requires item in refs
      modifies this
      ensures refs == old(refs) - multiset{item}
    {
      refs := refs - multiset{item};
    }
  }

  /** One slot more of a scan holds one more reference. */
  lemma CountsOneMore(s: seq<TagItem>, i: nat, before: multiset<TagItem>)
    requires i < |s|
    ensures before + multiset(s[..i]) + multiset{s[i]} == before + multiset(s[..i + 1])
  {
    assert s[..i + 1] == s[..i] + [s[i]];
  }

  /** One slot fewer of a scan holds one reference fewer. */
  lemma CountsOneFewer(s: seq<TagItem>, i: nat)
    requires i < |s|
    ensures s[i] in multiset(s[i..])
    ensures multiset(s[i..]) == multiset(s[i + 1..]) + multiset{s[i]}
  {
    assert s[i..] == [s[i]] + s[i + 1..];
  }

  /** One step of the early-return scan. */
  lemma FindValueFrom(s: seq<TagItem>, i: nat, kind: TagType)
    requires i < |s|
    ensures FindValue(s[i..], kind) ==
      if s[i].kind == kind then Some(s[i].value) else FindValue(s[i + 1..], kind)
  {
    assert s[i..][1..] == s[i + 1..];
  }

  /** A slot of a tag whose references the pool holds is live. */
  lemma HeldIsLive(s: seq<TagItem>, i: nat, refs: multiset<TagItem>)
    requires i < |s| && multiset(s) <= refs
    ensures s[i] in refs
  {
    assert s[i] in multiset(s);
  }

  /** The slot-by-slot copy of an item array, taking one pool reference
      per slot. */
  method CopyItems(source: array<TagItem>, pool: Pool) returns (copied: array<TagItem>)
    requires multiset(source[..]) <= pool.refs
    modifies pool
    ensures fresh(copied) && copied[..] == source[..]
    ensures pool.refs == old(pool.refs) + multiset(source[..])
  {
    ghost var items := source[..];
    ghost var before := pool.refs;
    copied := new TagItem[source.Length];
    var i := 0;
    while i < source.Length
      invariant 0 <= i <= source.Length
      invariant forall j :: 0 <= j < i ==> copied[j] == items[j]
      invariant pool.refs == before + multiset(items[..i])
      modifies pool, copied
    {
      var item := source[i];
      CountsOneMore(items, i, before);
      HeldIsLive(items, i, before);
      item := pool.Dup(item);
      assert item == items[i];
      copied[i] := item;
      i := i + 1;
    }
    assert items[..i] == items;
    assert copied[..] == items;
  }

  class PooledTag {
    var duration: int
    var hasPlaylist: bool
    var numItems: nat
    var items: array<TagItem>

    ghost predicate Valid()
      reads this
    {
      items.Length == numItems
    }

    /** The tag's value. */
    ghost function View(): Tag
      reads this, items
      requires Valid()
    {
      Tag(duration, hasPlaylist, items[..])
    }

    /** The copy constructor: the same duration, flag and items in the same
        order, and one more pool reference per copied slot. */
    constructor Copy(other: PooledTag, pool: Pool)
      requires other.Valid()
      requires multiset(other.items[..]) <= pool.refs
      modifies pool
      ensures Valid() && View() == other.View()
      ensures fresh(items)
      ensures pool.refs == old(pool.refs) + multiset(other.items[..])
    {
      duration := other.duration;
      hasPlaylist := other.hasPlaylist;
      numItems := other.numItems;
      var copied := CopyItems(other.items, pool);
      items := copied;
    }

    /** Tag::Clear: no items, no playlist, unknown duration, and exactly one
        pool release per slot it held. */
    method Clear(pool: Pool)
      requires Valid()
      requires multiset(items[..]) <= pool.refs
      modifies this, pool
      ensures Valid() && View() == Tag(duration, false, []) && duration < 0
      ensures pool.refs + old(multiset(items[..])) == old(pool.refs)
    {
      ghost var held := items[..];
      ghost var others := pool.refs - multiset(held);
      assert held[0..] == held;
      duration := -1;
      hasPlaylist := false;
      var i := 0;
      while i < numItems
        invariant 0 <= i <= numItems == items.Length == |held|
        invariant pool.refs == others + multiset(held[i..])
        modifies pool
      {
        CountsOneFewer(held, i);
        pool.Put(items[i]);
        i := i + 1;
      }
      assert held[i..] == [];
      items := new TagItem[0];
      numItems := 0;
      assert items[..] == [];
    }

    /** Tag::GetValue: the early-return scan over the slots. */
    method GetValue(kind: TagType) returns (r: Option<string>)
      requires Valid() && kind.IsItemType()
      ensures r == Tags.GetValue(View(), kind)
    {
      var i := 0;
      while i < numItems
        invariant 0 <= i <= numItems
        invariant FindValue(items[..], kind) == FindValue(items[i..], kind)
      {
        FindValueFrom(items[..], i, kind);
        if items[i].kind == kind {
          return Some(items[i].value);
        }
        i := i + 1;
      }
      return None;
    }

    /** Tag::HasType. */
    method HasType(kind: TagType) returns (r: bool)
      requires Valid() && kind.IsItemType()
      ensures r <==> kind in Kinds(View().items)
    {
      var value := GetValue(kind);
      r := value.Some?;
    }
  }
}
