/** The orderings a sorted query uses: a leading-integer comparison for
    disc and track numbers and a byte-wise string comparison for every
    other tag type, both applied to a tag's sort value. */
module DatabaseSort {
  import opened TagTypes
  import opened Tags
  import opened Library
  import opened StableSort

  /** The characters isspace() accepts in the "C" locale. */
  predicate IsSpace(c: char) {
    c == ' ' || c == '\t' || c == '\n' || c == '\U{B}' || c == '\U{C}' || c == '\r'
  }

  predicate IsDigit(c: char) {
    '0' <= c <= '9'
  }

  /** The text after the leading white space. */
  function DropSpaces(s: string): (r: string)
    ensures |r| <= |s| && r == s[|s| - |r|..]
    ensures r == [] || !IsSpace(r[0])
    ensures forall i :: 0 <= i < |s| - |r| ==> IsSpace(s[i])
  {
    if s != [] && IsSpace(s[0]) then DropSpaces(s[1..]) else s
  }

  /** The longest prefix made of decimal digits. */
  function LeadingDigits(s: string): (r: string)
    ensures |r| <= |s| && r == s[..|r|]
    ensures forall i :: 0 <= i < |r| ==> IsDigit(r[i])
    ensures |r| < |s| ==> !IsDigit(s[|r|])
  {
    if s != [] && IsDigit(s[0]) then [s[0]] + LeadingDigits(s[1..]) else []
  }

  function DigitValue(c: char): (r: nat)
    requires IsDigit(c)
    ensures r < 10
  {
    (c as int) - ('0' as int)
  }

  /** The value of a string of decimal digits. */
  function DigitsValue(d: string): (r: nat)
    requires forall i :: 0 <= i < |d| ==> IsDigit(d[i])
  {
    if d == [] then 0
    else DigitsValue(d[..|d| - 1]) * 10 + DigitValue(d[|d| - 1])
  }

  /** The text after an optional leading sign. */
  function AfterSign(t: string): (r: string)
    ensures r == t || (t != [] && (t[0] == '+' || t[0] == '-') && r == t[1..])
  {
    if t != [] && (t[0] == '+' || t[0] == '-') then t[1..] else t
  }

  /** strtol(s, nullptr, 10) without overflow clamping: white space, an
      optional sign, then as many digits as there are; 0 when there are
      none. */
  function ParseLong(s: string): (r: int)
    ensures r != 0 ==> AfterSign(DropSpaces(s)) != [] && IsDigit(AfterSign(DropSpaces(s))[0])
    ensures r < 0 ==> DropSpaces(s)[0] == '-'
  {
    SignedValue(DropSpaces(s))
  }

  /** The value of an optional sign and the digits after it. */
  function SignedValue(t: string): (r: int)
    ensures r != 0 ==> AfterSign(t) != [] && IsDigit(AfterSign(t)[0])
    ensures r < 0 ==> t[0] == '-'
  {
    if t != [] && (t[0] == '+' || t[0] == '-') then
      var magnitude: int := DigitsValue(LeadingDigits(t[1..]));
      if t[0] == '-' then -magnitude else magnitude
    else DigitsValue(LeadingDigits(t))
  }

  /** CompareNumeric. */
  function CompareNumeric(a: string, b: string): bool
  {
    ParseLong(a) < ParseLong(b)
  }

  /** strcmp(a, b) < 0: the first differing character decides, and a proper
      prefix comes first. */
  function StrLess(a: string, b: string): bool {
    if a == [] then b != []
    else if b == [] then false
    else if a[0] != b[0] then a[0] < b[0]
    else StrLess(a[1..], b[1..])
  }

  /** CompareTags: numeric for disc and track numbers, byte-wise otherwise,
      on the values GetSortValue picks. */
  function CompareTags(kind: TagType, a: Tag, b: Tag): (r: bool)
    requires kind.IsItemType()
    ensures GetSortValue(a, kind) == GetSortValue(b, kind) ==> !r
    ensures kind == Disc || kind == Track ==>
      (r <==> ParseLong(GetSortValue(a, kind)) < ParseLong(GetSortValue(b, kind)))
    ensures !(kind == Disc || kind == Track) ==>
      (r <==> StrLess(GetSortValue(a, kind), GetSortValue(b, kind)))
  {
    var x, y := GetSortValue(a, kind), GetSortValue(b, kind);
    StrLessIrreflexive(x);
    if kind == Disc || kind == Track then CompareNumeric(x, y) else StrLess(x, y)
  }

  /** The comparator the sorted query hands to the stable sort. */
  function SongOrder(kind: TagType): (less: (LightSong, LightSong) -> bool)
    requires kind.IsItemType()
    ensures forall a, b :: less(a, b) == CompareTags(kind, a.tag, b.tag)
  {
    (a: LightSong, b: LightSong) => kind.IsItemType() && CompareTags(kind, a.tag, b.tag)
  }

  lemma {:induction false} StrLessIrreflexive(a: string)
    ensures !StrLess(a, a)
  {
    if a != [] {
      StrLessIrreflexive(a[1..]);
    }
  }

  lemma {:induction false} StrLessTransitive(a: string, b: string, c: string)
    requires StrLess(a, b) && StrLess(b, c)
    ensures StrLess(a, c)
  {
    if a != [] && b != [] && c != [] && a[0] == b[0] && b[0] == c[0] {
      StrLessTransitive(a[1..], b[1..], c[1..]);
    }
  }

  /** Two different strings are always ordered one way or the other. */
  lemma {:induction false} StrLessTotal(a: string, b: string)
    ensures a == b || StrLess(a, b) || StrLess(b, a)
  {
    if a != [] && b != [] && a[0] == b[0] {
      StrLessTotal(a[1..], b[1..]);
      if a[1..] == b[1..] {
        assert a == [a[0]] + a[1..] && b == [b[0]] + b[1..];
      }
    }
  }

  lemma StrLessAsymmetric(a: string, b: string)
    requires StrLess(a, b)
    ensures !StrLess(b, a)
  {
    if StrLess(b, a) {
      StrLessTransitive(a, b, a);
      StrLessIrreflexive(a);
    }
  }

  /** The byte-wise order is a strict weak order on any three strings. */
  lemma StrLessStrictWeak(x: string, y: string, z: string)
    ensures !StrLess(x, x)
    ensures StrLess(x, y) && StrLess(y, z) ==> StrLess(x, z)
    ensures !StrLess(x, y) && !StrLess(y, z) ==> !StrLess(x, z)
  {
    StrLessIrreflexive(x);
    if StrLess(x, y) && StrLess(y, z) {
      StrLessTransitive(x, y, z);
    }
    if !StrLess(x, y) && !StrLess(y, z) {
      StrLessTotal(x, y);
      StrLessTotal(y, z);
      if x != y && y != z {
        StrLessTransitive(z, y, x);
      }
      if x != z {
        StrLessAsymmetric(z, x);
      }
    }
  }

  /** CompareTags meets the comparator requirements of std::stable_sort on
      every three tags. */
  lemma CompareTagsOrder(kind: TagType, a: Tag, b: Tag, c: Tag)
    requires kind.IsItemType()
    ensures !CompareTags(kind, a, a)
    ensures CompareTags(kind, a, b) && CompareTags(kind, b, c) ==> CompareTags(kind, a, c)
    ensures !CompareTags(kind, a, b) && !CompareTags(kind, b, c) ==> !CompareTags(kind, a, c)
  {
    StrLessStrictWeak(GetSortValue(a, kind), GetSortValue(b, kind), GetSortValue(c, kind));
  }

  /** The song comparator is a strict weak order, as std::stable_sort
      demands. */
  lemma SongOrderIsStrictWeak(kind: TagType)
    requires kind.IsItemType()
    ensures StrictWeakOrder(SongOrder(kind))
  {
    forall a: LightSong, b: LightSong, c: LightSong {
      CompareTagsOrder(kind, a.tag, b.tag, c.tag);
    }
  }

  /** A string of digits parses to its value. */
  lemma ParseLongOfDigits(d: string)
    requires forall i :: 0 <= i < |d| ==> IsDigit(d[i])
    ensures ParseLong(d) == DigitsValue(d)
  {
    if d != [] {
      ParseLongSigned([], d, []);
      assert [] + (d + []) == d;
    }
  }

  /** Leading zeros do not change a value: "02" and "2" compare equal. */
  lemma {:induction false} LeadingZero(d: string)
    requires forall i :: 0 <= i < |d| ==> IsDigit(d[i])
    ensures DigitsValue(['0'] + d) == DigitsValue(d)
  {
    if d != [] {
      assert (['0'] + d)[..|d|] == ['0'] + d[..|d| - 1];
      LeadingZero(d[..|d| - 1]);
    }
  }

  /** A value with no digit after its leading white space and optional
      sign parses as 0, so all such values tie with each other and with
      "0". */
  lemma NonNumericIsZero(s: string)
    requires AfterSign(DropSpaces(s)) == [] || !IsDigit(AfterSign(DropSpaces(s))[0])
    ensures ParseLong(s) == 0
  {
  }

  /** White space in front of a text that does not start with it is
      skipped. */
  lemma {:induction false} DropSpacesOfPrefix(w: string, t: string)
    requires forall i :: 0 <= i < |w| ==> IsSpace(w[i])
    requires t == [] || !IsSpace(t[0])
    ensures DropSpaces(w + t) == t
  {
    if w != [] {
      assert (w + t)[1..] == w[1..] + t;
      DropSpacesOfPrefix(w[1..], t);
    }
  }

  /** The digits in front of a text that does not start with one are the
      leading digits. */
  lemma {:induction false} LeadingDigitsOfPrefix(d: string, rest: string)
    requires forall i :: 0 <= i < |d| ==> IsDigit(d[i])
    requires rest == [] || !IsDigit(rest[0])
    ensures LeadingDigits(d + rest) == d
  {
    if d != [] {
      assert (d + rest)[1..] == d[1..] + rest;
      LeadingDigitsOfPrefix(d[1..], rest);
      assert d == [d[0]] + d[1..];
    }
  }

  lemma Regroup(a: string, b: string, c: string, e: string)
    ensures a + b + c + e == a + (b + (c + e))
  {
  }

  /** What strtol reads: white space, an optional sign and a run of digits,
      stopping at the first non-digit. Track "3/12" parses as 3 and
      " -7x" as -7. */
  lemma ParseLongLeadingInteger(w: string, sign: string, d: string, rest: string)
    requires forall i :: 0 <= i < |w| ==> IsSpace(w[i])
    requires sign == [] || (|sign| == 1 && (sign[0] == '+' || sign[0] == '-'))
    requires d != [] && forall i :: 0 <= i < |d| ==> IsDigit(d[i])
    requires rest == [] || !IsDigit(rest[0])
    ensures ParseLong(w + sign + d + rest) == if sign != [] && sign[0] == '-' then -(DigitsValue(d) as int) else DigitsValue(d)
  {
    var t := sign + (d + rest);
    Regroup(w, sign, d, rest);
    assert t[0] == if sign == [] then d[0] else sign[0];
    ParseLongSkipsSpaces(w, t);
    ParseLongSigned(sign, d, rest);
  }

  /** Leading white space does not change the value. */
  lemma ParseLongSkipsSpaces(w: string, t: string)
    requires forall i :: 0 <= i < |w| ==> IsSpace(w[i])
    requires t == [] || !IsSpace(t[0])
    ensures ParseLong(w + t) == ParseLong(t)
  {
    DropSpacesOfPrefix(w, t);
    assert DropSpaces(t) == t;
  }

  /** An optional sign, then digits up to the first non-digit. */
  lemma ParseLongSigned(sign: string, d: string, rest: string)
    requires sign == [] || (|sign| == 1 && (sign[0] == '+' || sign[0] == '-'))
    requires d != [] && forall i :: 0 <= i < |d| ==> IsDigit(d[i])
    requires rest == [] || !IsDigit(rest[0])
    ensures ParseLong(sign + (d + rest)) == if sign != [] && sign[0] == '-' then -(DigitsValue(d) as int) else DigitsValue(d)
  {
    var t := sign + (d + rest);
    assert t[0] == if sign == [] then d[0] else sign[0];
    DropSpacesOfPrefix([], t);
    assert [] + t == t;
    SignedValueOf(sign, d, rest);
  }

  lemma SignedValueOf(sign: string, d: string, rest: string)
    requires sign == [] || (|sign| == 1 && (sign[0] == '+' || sign[0] == '-'))
    requires d != [] && forall i :: 0 <= i < |d| ==> IsDigit(d[i])
    requires rest == [] || !IsDigit(rest[0])
    ensures SignedValue(sign + (d + rest)) == if sign != [] && sign[0] == '-' then -(DigitsValue(d) as int) else DigitsValue(d)
  {
    var t := sign + (d + rest);
    LeadingDigitsOfPrefix(d, rest);
    if sign != [] {
      assert t[0] == sign[0];
      assert t[1..] == d + rest;
    } else {
      assert t == d + rest;
      assert t[0] == d[0];
    }
  }

  /** Disc and track numbers compare by their leading integers, whatever
      follows them: "2/12" sorts before "10/12". */
  lemma CompareNumericByLeadingIntegers(d1: string, rest1: string, d2: string, rest2: string)
    requires d1 != [] && forall i :: 0 <= i < |d1| ==> IsDigit(d1[i])
    requires d2 != [] && forall i :: 0 <= i < |d2| ==> IsDigit(d2[i])
    requires rest1 == [] || !IsDigit(rest1[0])
    requires rest2 == [] || !IsDigit(rest2[0])
    ensures CompareNumeric(d1 + rest1, d2 + rest2) <==> DigitsValue(d1) < DigitsValue(d2)
  {
    ParseLongSigned([], d1, rest1);
    ParseLongSigned([], d2, rest2);
    assert [] + (d1 + rest1) == d1 + rest1;
    assert [] + (d2 + rest2) == d2 + rest2;
  }

  lemma DigitsOfTwo()
    ensures DigitsValue("2") == 2
  {
    assert "2"[..0] == [];
  }

  lemma DigitsOfTen()
    ensures DigitsValue("10") == 10
  {
    var ten := "10";
    assert ten[..1] == "1" && ten[..1][..0] == [];
    assert DigitsValue(ten[..1]) == 1;
  }

  /** Track "2" sorts before track "10", while any string type puts "10"
      first. */
  lemma NumericVersusStringExample()
    ensures CompareNumeric("2", "10") && !CompareNumeric("10", "2")
    ensures StrLess("10", "2") && !StrLess("2", "10")
  {
    ParseTwoAndTen();
  }

  /** The same two tags sort one way by track number and the other way by
      title. */
  lemma CompareTagsTrackVersusTitle()
    ensures var two := Tag(0, false, [TagItem(Track, "2"), TagItem(Title, "2")]);
      var ten := Tag(0, false, [TagItem(Track, "10"), TagItem(Title, "10")]);
      CompareTags(Track, two, ten) && !CompareTags(Track, ten, two) &&
      CompareTags(Title, ten, two) && !CompareTags(Title, two, ten)
  {
    var two := Tag(0, false, [TagItem(Track, "2"), TagItem(Title, "2")]);
    var ten := Tag(0, false, [TagItem(Track, "10"), TagItem(Title, "10")]);
    assert GetSortValue(two, Track) == "2" && GetSortValue(ten, Track) == "10";
    assert GetSortValue(two, Title) == "2" && GetSortValue(ten, Title) == "10";
    NumericVersusStringExample();
  }

  lemma ParseTwoAndTen()
    ensures ParseLong("2") == 2 && ParseLong("10") == 10
  {
    ParseLongOfDigits("2");
    ParseLongOfDigits("10");
    DigitsOfTwo();
    DigitsOfTen();
  }
}
