/** The pageref bitmaps of kern/vm/kmalloc.c: sixteen roots, each with the
    page that holds its 256 pagerefs (0 until one is installed), a bitmap of
    the pagerefs in use and a count of its set bits. A pageref is named by its
    number, 256 * root + index. */
module Pagerefs {
  import opened Wrappers

  datatype Root = Root(page: int, inuse: seq<bool>, numinuse: nat)

  ghost function Count(b: seq<bool>): (n: nat)
    ensures n <= |b|
  {
    if b == [] then 0 else Count(b[..|b| - 1]) + (if b[|b| - 1] then 1 else 0)
  }

  lemma {:induction false} CountUpdate(b: seq<bool>, i: nat, v: bool)
    requires i < |b|
    ensures Count(b[i := v]) == Count(b) - (if b[i] then 1 else 0) + (if v then 1 else 0)
  {
    var n, c := |b| - 1, b[i := v];
    if i < n {
      CountUpdate(b[..n], i, v);
      assert c[..n] == b[..n][i := v];
    } else {
      assert c[..n] == b[..n];
    }
  }

  lemma {:induction false} CountFull(b: seq<bool>)
    ensures Count(b) == |b| <==> forall i :: 0 <= i < |b| ==> b[i]
  {
    if b != [] {
      var n := |b| - 1;
      CountFull(b[..n]);
      assert forall i :: 0 <= i < n ==> b[..n][i] == b[i];
    }
  }

  lemma {:induction false} CountPositive(b: seq<bool>, i: nat)
    requires i < |b| && b[i]
    ensures Count(b) > 0
  {
    if i < |b| - 1 {
      CountPositive(b[..|b| - 1], i);
    }
  }

  lemma {:induction false} CountNone(b: seq<bool>)
    requires forall i :: 0 <= i < |b| ==> !b[i]
    ensures Count(b) == 0
  {
    if b != [] {
      CountNone(b[..|b| - 1]);
    }
  }

  ghost predicate RootOk(r: Root) {
    |r.inuse| == 256 && r.numinuse == Count(r.inuse)
  }

  ghost predicate Ok(roots: seq<Root>) {
    |roots| == 16 && forall w :: 0 <= w < 16 ==> RootOk(roots[w])
  }

  predicate Bit(roots: seq<Root>, id: int)
    requires |roots| == 16
  {
    0 <= id < 4096 && id % 256 < |roots[id / 256].inuse| && roots[id / 256].inuse[id % 256]
  }

  /** Roots are filled in order: while a root has no page, nothing later is
      used unless every one of its pagerefs is taken. */
  ghost predicate FirstFit(roots: seq<Root>) {
    forall w, x :: 0 <= w < x < |roots| && roots[w].page == 0 && roots[x].numinuse > 0
                   ==> roots[w].numinuse == 256
  }

  /** All 32 bits of one word of the bitmap are set. */
  predicate WordFull(inuse: seq<bool>, i: nat)
    requires |inuse| == 256 && i < 8
  {
    forall m :: i * 32 <= m < i * 32 + 32 ==> inuse[m]
  }

  /** The first clear bit of one root. */
  method FindInRoot(inuse: seq<bool>) returns (k: nat)
    requires |inuse| == 256 && Count(inuse) < 256
    ensures k < 256 && !inuse[k] && forall m :: 0 <= m < k ==> inuse[m]
  {
    CountFull(inuse);
    var i := 0;
    while i < 8
      invariant i <= 8 && forall m :: 0 <= m < i * 32 ==> inuse[m]
    {
      if !WordFull(inuse, i) {
        var j := 0;
        while inuse[i * 32 + j]
          invariant j < 32 && forall m :: 0 <= m < i * 32 + j ==> inuse[m]
          decreases 32 - j
        {
          j := j + 1;
        }
        return i * 32 + j;
      }
      i := i + 1;
    }
    assert false;
  }

  /** The search of allocpageref(): the lowest pageref not in use; none
      exactly when all 4096 are. */
  method FindClear(roots: seq<Root>) returns (r: Option<int>)
    requires Ok(roots)
    ensures r.None? ==> forall id: int :: 0 <= id < 4096 ==> Bit(roots, id)
    ensures r.Some? ==> 0 <= r.value < 4096 && !Bit(roots, r.value) && roots[r.value / 256].numinuse < 256
    ensures r.Some? ==> forall id: int :: 0 <= id < r.value ==> Bit(roots, id)
  {
    var w := 0;
    while w < 16
      invariant w <= 16 && forall id: int :: 0 <= id < w * 256 ==> Bit(roots, id)
    {
      assert RootOk(roots[w]);
      if roots[w].numinuse < 256 {
        var k := FindInRoot(roots[w].inuse);
        return Some(w * 256 + k);
      }
      CountFull(roots[w].inuse);
      w := w + 1;
    }
    return None;
  }

  function Take(roots: seq<Root>, id: int): seq<Root>
    requires |roots| == 16 && 0 <= id < 4096 && |roots[id / 256].inuse| == 256
  {
    var r := roots[id / 256];
    roots[id / 256 := r.(inuse := r.inuse[id % 256 := true], numinuse := r.numinuse + 1)]
  }

  function Drop(roots: seq<Root>, id: int): seq<Root>
    requires |roots| == 16 && 0 <= id < 4096 && |roots[id / 256].inuse| == 256
    requires roots[id / 256].numinuse > 0
  {
    var r := roots[id / 256];
    roots[id / 256 := r.(inuse := r.inuse[id % 256 := false], numinuse := r.numinuse - 1)]
  }

  /** Taking the lowest clear bit sets it, keeps the counts exact and keeps
      the roots filled in order. */
  lemma TakeOk(roots: seq<Root>, id: int)
    requires Ok(roots) && FirstFit(roots) && 0 <= id < 4096 && !Bit(roots, id)
    requires forall k: int :: 0 <= k < id ==> Bit(roots, k)
    ensures Ok(Take(roots, id)) && FirstFit(Take(roots, id))
    ensures forall k: int :: Bit(Take(roots, id), k) <==> Bit(roots, k) || k == id
  {
    TakeCounts(roots, id);
    var t, v := Take(roots, id), id / 256;
    assert RootOk(roots[v]);
    CountFull(roots[v].inuse);
    forall w, x | 0 <= w < x < |t| && t[w].page == 0 && t[x].numinuse > 0
      ensures t[w].numinuse == 256
    {
      if x == v {
        EarlierRootsFull(roots, id, w);
      } else {
        assert roots[w].numinuse == 256;
      }
    }
  }

  lemma TakeCounts(roots: seq<Root>, id: int)
    requires Ok(roots) && 0 <= id < 4096 && !Bit(roots, id)
    ensures Ok(Take(roots, id))
    ensures forall k: int :: Bit(Take(roots, id), k) <==> Bit(roots, k) || k == id
  {
    hide Count;
    var r := roots[id / 256];
    assert RootOk(r);
    CountUpdate(r.inuse, id % 256, true);
  }

  lemma EarlierRootsFull(roots: seq<Root>, id: int, w: nat)
    requires Ok(roots) && 0 <= id < 4096 && w < id / 256
    requires forall k: int :: 0 <= k < id ==> Bit(roots, k)
    ensures roots[w].numinuse == 256
  {
    var r := roots[w];
    assert RootOk(r);
    forall i | 0 <= i < 256
      ensures r.inuse[i]
    {
      assert Bit(roots, w * 256 + i);
    }
    CountFull(r.inuse);
  }

  /** Clearing a used bit of a root that has its page keeps everything. */
  lemma DropOk(roots: seq<Root>, id: int)
    requires Ok(roots) && FirstFit(roots) && Bit(roots, id) && roots[id / 256].page != 0
    ensures roots[id / 256].numinuse > 0
    ensures Ok(Drop(roots, id)) && FirstFit(Drop(roots, id))
    ensures forall k: int :: Bit(Drop(roots, id), k) <==> Bit(roots, k) && k != id
  {
    hide Count;
    var r := roots[id / 256];
    assert RootOk(r);
    CountPositive(r.inuse, id % 256);
    CountUpdate(r.inuse, id % 256, false);
  }

  /** A root before the one pageref id is on has pagerefs in use but no page. */
  predicate Blocked(roots: seq<Root>, id: int)
    requires |roots| == 16
  {
    exists w :: 0 <= w < id / 256 && w < 16 && roots[w].page == 0 && roots[w].numinuse != 0
  }

  /** freepageref(): walks the roots to the one the pageref is on. It panics
      exactly when an earlier root has pagerefs in use but no page. */
  method Free(roots: seq<Root>, id: int) returns (panicked: bool, after: seq<Root>)
    requires Ok(roots) && Bit(roots, id) && roots[id / 256].page != 0
    ensures panicked <==> Blocked(roots, id)
    ensures !panicked ==> roots[id / 256].numinuse > 0 && after == Drop(roots, id)
  {
    hide Count;
    after := roots;
    var w := 0;
    while w < 16
      invariant w <= id / 256
      invariant forall x :: 0 <= x < w ==> roots[x].page != 0 || roots[x].numinuse == 0
      decreases 16 - w
    {
      if roots[w].page == 0 {
        if roots[w].numinuse != 0 {
          return true, roots;
        }
      } else if id / 256 == w {
        assert RootOk(roots[w]);
        CountPositive(roots[w].inuse, id % 256);
        return false, Drop(roots, id);
      }
      w := w + 1;
    }
    assert false;
  }

  /** So freepageref() is safe as long as no root is full of pagerefs whose
      page never arrived. */
  lemma PanicNeedsFullRoot(roots: seq<Root>, id: int, w: nat)
    requires Ok(roots) && FirstFit(roots) && Bit(roots, id)
    requires w < id / 256 && roots[w].page == 0
    ensures forall k: int :: k / 256 == w ==> Bit(roots, k)
  {
    hide Count;
    var r := roots[id / 256];
    assert RootOk(r) && RootOk(roots[w]);
    CountPositive(r.inuse, id % 256);
    CountFull(roots[w].inuse);
  }

  /** Bitmaps for which freepageref() panics: the page for root 0 was refused
      256 times, then root 1 got one. */
  function StuckRoots(page: int): seq<Root> {
    [Root(0, seq(256, i => true), 256), Root(page, seq(256, i => i == 0), 1)]
    + seq(14, i => Root(0, seq(256, j => false), 0))
  }

  lemma PanicCanHappen(page: int)
    requires page != 0
    ensures
      var roots := StuckRoots(page);
      && Ok(roots) && FirstFit(roots) && roots[1].page == page && Blocked(roots, 256)
      && (forall w :: 0 <= w < 16 && roots[w].page != 0 ==> w == 1)
      && forall k: int :: Bit(roots, k) <==> 0 <= k <= 256
  {
    var roots := StuckRoots(page);
    var none: seq<bool> := seq(256, j => false);
    CountFull(roots[0].inuse);
    CountNone(none);
    CountUpdate(none, 0, true);
    assert none[0 := true] == roots[1].inuse;
    assert roots[0].page == 0 && roots[0].numinuse != 0;
  }
}
