/** Bitmaps as byte arrays, kern/lib/bitmap.c. */
module Bitmap {
  import opened Wrappers

  /** 1 << offset in a byte. */
  function Mask(offset: nat): bv8
    requires offset < 8
  {
    if offset == 0 then 1 else if offset == 1 then 2 else if offset == 2 then 4 else if offset == 3 then 8
    else if offset == 4 then 16 else if offset == 5 then 32 else if offset == 6 then 64 else 128
  }

  /** Bit 0 is the lowest of its byte. */
  lemma MaskIs(offset: nat)
    requires offset < 8
    ensures Mask(0) == 1 && (offset > 0 ==> Mask(offset) == Mask(offset - 1) << 1)
  {
  }

  predicate BitOf(b: bv8, offset: nat)
    requires offset < 8
  {
    b & Mask(offset) != 0
  }

  lemma SetBit(b: bv8, o: nat, j: nat)
    requires o < 8 && j < 8
    ensures BitOf(b | Mask(o), j) <==> BitOf(b, j) || j == o
  {
  }

  lemma ClearBit(b: bv8, o: nat, j: nat)
    requires o < 8 && j < 8
    ensures BitOf(b & !Mask(o), j) <==> BitOf(b, j) && j != o
  {
  }

  lemma AllBits(b: bv8)
    ensures b == 0xff <==> forall o :: 0 <= o < 8 ==> BitOf(b, o)
  {
    if forall o :: 0 <= o < 8 ==> BitOf(b, o) {
      assert BitOf(b, 0) && BitOf(b, 1) && BitOf(b, 2) && BitOf(b, 3);
      assert BitOf(b, 4) && BitOf(b, 5) && BitOf(b, 6) && BitOf(b, 7);
    }
  }

  predicate Bit(v: seq<bv8>, i: nat)
    requires i / 8 < |v|
  {
    BitOf(v[i / 8], i % 8)
  }

  /** The numbers of the set bits. */
  ghost function Marks(v: seq<bv8>): set<nat> {
    set i: nat | i < 8 * |v| && Bit(v, i)
  }

  lemma MarksSet(v: seq<bv8>, i: nat)
    requires i / 8 < |v|
    ensures Marks(v[i / 8 := v[i / 8] | Mask(i % 8)]) == Marks(v) + {i}
  {
    hide BitOf, Mask;
    var w := v[i / 8 := v[i / 8] | Mask(i % 8)];
    forall k: nat | k < 8 * |v|
      ensures Bit(w, k) <==> Bit(v, k) || k == i
    {
      SetBit(v[i / 8], i % 8, k % 8);
    }
  }

  lemma MarksClear(v: seq<bv8>, i: nat)
    requires i / 8 < |v|
    ensures Marks(v[i / 8 := v[i / 8] & !Mask(i % 8)]) == Marks(v) - {i}
  {
    hide BitOf, Mask;
    var w := v[i / 8 := v[i / 8] & !Mask(i % 8)];
    forall k: nat | k < 8 * |v|
      ensures Bit(w, k) <==> Bit(v, k) && k != i
    {
      ClearBit(v[i / 8], i % 8, k % 8);
    }
  }

  /** r is the first clear bit, if there is one. */
  ghost predicate FirstClear(v: seq<bv8>, r: Option<nat>) {
    match r
    case None => forall i: nat :: i < 8 * |v| ==> i in Marks(v)
    case Some(k) => k < 8 * |v| && k !in Marks(v) && forall i: nat :: i < k ==> i in Marks(v)
  }

  /** Only the bits past the end are set. */
  lemma PaddingMarks(v: seq<bv8>, n: nat)
    requires |v| == (n + 7) / 8
    requires forall i :: 0 <= i < |v| && 8 * i + 8 <= n ==> v[i] == 0
    requires forall i, o: nat :: 0 <= i < |v| && n < 8 * i + 8 && o < 8 ==> (BitOf(v[i], o) <==> n <= 8 * i + o)
    ensures forall i: nat :: i < 8 * |v| ==> (i in Marks(v) <==> n <= i)
  {
    forall i: nat | i < 8 * |v|
      ensures i in Marks(v) <==> n <= i
    {
      var b, o := i / 8, i % 8;
      assert i == 8 * b + o;
      ZeroBit(o);
    }
  }

  lemma ZeroBit(o: nat)
    requires o < 8
    ensures !BitOf(0, o)
  {
  }

  class Map {
    const nbits: nat
    const v: array<bv8>

    ghost predicate Valid()
      reads v
    {
      && v.Length == (nbits + 7) / 8
      && forall i: nat :: nbits <= i < 8 * v.Length ==> i in Marks(v[..])
    }

    /** The bits in use, not counting the padding. */
    ghost function Used(): set<nat>
      reads v
    {
      set i | i in Marks(v[..]) && i < nbits
    }

    /** bitmap_create(): all bits clear but the padding. */
    constructor (n: nat)
      ensures Valid() && nbits == n && Used() == {} && fresh(v)
    {
      nbits := n;
      v := new bv8[(n + 7) / 8](i => 0);
      new;
      if v.Length > n / 8 {
        var ix := v.Length - 1;
        var j := n - ix * 8;
        while j < 8
          invariant n - ix * 8 <= j <= 8
          invariant forall i :: 0 <= i < ix ==> v[i] == 0
          invariant forall o: nat :: o < 8 ==> (BitOf(v[ix], o) <==> n - ix * 8 <= o < j)
        {
          ghost var b := v[ix];
          v[ix] := v[ix] | Mask(j);
          forall o: nat | o < 8
            ensures BitOf(v[ix], o) <==> BitOf(b, o) || o == j
          {
            SetBit(b, j, o);
          }
          j := j + 1;
        }
        hide BitOf, Mask, Marks;
        PaddingMarks(v[..], n);
      } else {
        PaddingMarks(v[..], n);
      }
    }

    /** bitmap_alloc(): marks and returns the lowest clear bit; fails exactly
        when there is none. */
    method Alloc() returns (index: Option<nat>)
      requires Valid()
      modifies v
      ensures Valid()
      ensures index.None? <==> forall i: nat :: i < nbits ==> i in old(Used())
      ensures index.None? ==> v[..] == old(v[..]) && Used() == old(Used())
      ensures index.Some? ==> index.value < nbits && index.value !in old(Used()) && Used() == old(Used()) + {index.value}
      ensures index.Some? ==> forall i: nat :: i < index.value ==> i in old(Used())
    {
      hide Marks, Mask;
      ghost var s := v[..];
      index := FindClear(v);
      if index.Some? {
        var k := index.value;
        MarksSet(s, k);
        v[k / 8] := v[k / 8] | Mask(k % 8);
        assert v[..] == s[k / 8 := s[k / 8] | Mask(k % 8)];
        assert k < nbits && k !in old(Used());
      } else {
        assert forall i: nat :: i < nbits ==> i in Used();
      }
    }

    /** bitmap_mark(), of a clear bit. */
    method Mark(index: nat)
      requires Valid() && index < nbits && index !in Used()
      modifies v
      ensures Valid() && Used() == old(Used()) + {index}
    {
      hide Marks, Mask;
      ghost var s := v[..];
      MarksSet(s, index);
      v[index / 8] := v[index / 8] | Mask(index % 8);
      assert v[..] == s[index / 8 := s[index / 8] | Mask(index % 8)];
    }

    /** bitmap_unmark(), of a set bit. */
    method Unmark(index: nat)
      requires Valid() && index < nbits && index in Used()
      modifies v
      ensures Valid() && Used() == old(Used()) - {index}
    {
      hide Marks, Mask;
      ghost var s := v[..];
      MarksClear(s, index);
      v[index / 8] := v[index / 8] & !Mask(index % 8);
      assert v[..] == s[index / 8 := s[index / 8] & !Mask(index % 8)];
    }

    /** bitmap_isset(). */
    method IsSet(index: nat) returns (r: bool)
      requires Valid() && index < nbits
      ensures r <==> index in Used()
    {
      r := v[index / 8] & Mask(index % 8) != 0;
    }
  }

  ghost predicate FullUpTo(v: seq<bv8>, n: nat)
    requires n <= 8 * |v|
  {
    forall i: nat :: i < n ==> Bit(v, i)
  }

  /** The search of bitmap_alloc(): whole bytes first, then bits. */
  method FindClear(v: array<bv8>) returns (r: Option<nat>)
    ensures FirstClear(v[..], r)
  {
    ghost var s := v[..];
    var ix := 0;
    while ix < v.Length
      invariant ix <= v.Length && FullUpTo(s, 8 * ix)
    {
      if v[ix] != 0xff {
        var o := FirstOffset(v[ix]);
        ByteTail(s, ix, o);
        return Some(ix * 8 + o);
      }
      WholeByte(s, ix);
      ix := ix + 1;
    }
    return None;
  }

  method FirstOffset(b: bv8) returns (o: nat)
    requires b != 0xff
    ensures o < 8 && !BitOf(b, o) && forall j: nat :: j < o ==> BitOf(b, j)
  {
    AllBits(b);
    o := 0;
    while o < 8 && b & Mask(o) != 0
      invariant o <= 8 && forall j: nat :: j < o ==> BitOf(b, j)
    {
      o := o + 1;
    }
  }

  lemma WholeByte(v: seq<bv8>, ix: nat)
    requires ix < |v| && FullUpTo(v, 8 * ix) && v[ix] == 0xff
    ensures FullUpTo(v, 8 * (ix + 1))
  {
    AllBits(v[ix]);
  }

  lemma ByteTail(v: seq<bv8>, ix: nat, o: nat)
    requires ix < |v| && FullUpTo(v, 8 * ix) && o < 8 && !BitOf(v[ix], o) && forall j: nat :: j < o ==> BitOf(v[ix], j)
    ensures FirstClear(v, Some(ix * 8 + o))
  {
    assert (ix * 8 + o) / 8 == ix && (ix * 8 + o) % 8 == o;
  }
}
