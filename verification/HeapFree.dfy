/** Freeing a block, returning a wholly free page, and writes by the owner of
    a live block: their effect on the heap of kern/vm/kmalloc.c. */
module HeapFree {
  import opened FreeList
  import opened Heap
  import opened HeapSteps
  import opened PageLists
  import opened Wrappers
  import R = Pagerefs

  // Writes inside a live block.

  /** Whatever is written to a live block, every free list stays intact. */
  lemma WriteFrame(s: State, mem': Memory, p: Id, a: Addr, q: Id)
    requires Fields(s) && FreeLists(s) && PagesOk(s) && LiveIn(s, p, a) && q in s.all
    requires WritesOnly(s.mem, mem', a, Size(s.kind[p]))
    ensures FreeListOk(mem', s.page[q], s.kind[q], s.offset[q], s.nfree[q], s.chains[q])
  {
    hide PagesOk, UsesOk, Size, IsBlock, NoDup;
    assert PageOk(s, q);
    var c := s.chains[q];
    forall x | x in c
      ensures Load(mem', x) == Load(s.mem, x)
    {
      BlocksAreDisjoint(s, p, a, q, x);
      SizeFacts(s.kind[q]);
    }
    LinkedFrame(s.mem, mem', Head(s.page[q], s.offset[q]), c);
  }

  /** A client that writes only to its own live block cannot break the heap. */
  lemma ClientWriteKeepsInv(s: State, mem': Memory, p: Id, a: Addr)
    requires Inv(s) && LiveIn(s, p, a) && WritesOnly(s.mem, mem', a, Size(s.kind[p]))
    ensures Inv(s.(mem := mem')) && SameLive(s, s.(mem := mem'))
  {
    var t := s.(mem := mem');
    hide PagesOk, UsesOk, Size, IsBlock, ListsOk, RefsOk, ThreadsOk, FreeListOk;
    forall q | q in s.all
      ensures PageOk(t, q)
    {
      WriteFrame(s, mem', p, a, q);
    }
    ClientWriteOthers(s, mem');
  }

  lemma ClientWriteOthers(s: State, mem': Memory)
    requires Inv(s)
    ensures Fields(s.(mem := mem')) && ListsOk(s.(mem := mem')) && PagesOk(s.(mem := mem')) && UsesOk(s.(mem := mem'))
    ensures RefsOk(s.(mem := mem')) && ThreadsOk(s.(mem := mem')) && SameLive(s, s.(mem := mem'))
  {
    hide FreeLists, Listed, OfType, IsBlock, Size, Blocks, R.Ok, R.FirstFit, R.Bit;
    var t := s.(mem := mem');
    assert forall p, a :: LiveIn(t, p, a) == LiveIn(s, p, a);
  }

  // Pushing a block on its page's free list.

  function Filled(mem: Memory, a: Addr, words: nat): Memory {
    if words == 0 then mem else Filled(mem, a, words - 1)[a + 4 * (words - 1) := 0xdeadbeef]
  }

  lemma {:induction false} FilledFrame(mem: Memory, a: Addr, words: nat, x: Addr)
    requires x < a || a + 4 * words <= x
    ensures Load(Filled(mem, a, words), x) == Load(mem, x)
  {
    if words > 0 {
      FilledFrame(mem, a, words - 1, x);
    }
  }

  /** Memory after a block has been cleared and linked in front. */
  function Returned(mem: Memory, a: Addr, size: nat, head: int): Memory {
    Filled(mem, a, size / 4)[a := head]
  }

  lemma ReturnedWritesOnly(mem: Memory, a: Addr, size: nat, head: int)
    requires size > 0
    ensures WritesOnly(mem, Returned(mem, a, size, head), a, size)
  {
    forall x: Addr | x < a || a + size <= x
      ensures Load(Returned(mem, a, size, head), x) == Load(mem, x)
    {
      FilledFrame(mem, a, size / 4, x);
    }
  }

  ghost predicate CanPush(s: State, p: Id, a: Addr) {
    && p in s.page && p in s.kind && p in s.offset && p in s.nfree && p in s.chains
    && 0 <= s.kind[p] < 8 && s.page[p] <= a
  }

  ghost function Pushed(s: State, p: Id, a: Addr): State
    requires CanPush(s, p, a)
  {
    s.(mem := Returned(s.mem, a, Size(s.kind[p]), Head(s.page[p], s.offset[p])),
       offset := s.offset[p := a - s.page[p]],
       nfree := s.nfree[p := s.nfree[p] + 1],
       chains := s.chains[p := [a] + s.chains[p]])
  }

  lemma PushList(mem: Memory, mem': Memory, page: Addr, bt: int, offset: int, nfree: int, c: seq<Addr>, a: Addr)
    requires bt < 8 && IsBlock(page, bt, a) && a !in c
    requires FreeListOk(mem', page, bt, offset, nfree, c) && Load(mem', a) == Head(page, offset)
    ensures FreeListOk(mem', page, bt, a - page, nfree + 1, [a] + c)
  {
    hide Size;
    NoDupCons(a, c);
    assert ([a] + c)[1..] == c;
  }

  lemma PushFreeLists(s: State, p: Id, a: Addr)
    requires Inv(s) && LiveIn(s, p, a)
    ensures s.page[p] <= a && Fields(Pushed(s, p, a)) && FreeLists(Pushed(s, p, a))
  {
    hide ListsOk, RefsOk, ThreadsOk, PagesOk, UsesOk, Size, FreeListOk, Returned, WritesOnly;
    var t, size, head := Pushed(s, p, a), Size(s.kind[p]), Head(s.page[p], s.offset[p]);
    SizeFacts(s.kind[p]);
    ReturnedWritesOnly(s.mem, a, size, head);
    forall q | q in t.all
      ensures PageOk(t, q)
    {
      WriteFrame(s, t.mem, p, a, q);
      if q == p {
        ReturnedHead(s.mem, a, size, head);
        PushList(s.mem, t.mem, s.page[p], s.kind[p], s.offset[p], s.nfree[p], s.chains[p], a);
      }
    }
  }

  lemma ReturnedHead(mem: Memory, a: Addr, size: nat, head: int)
    ensures Load(Returned(mem, a, size, head), a) == head
  {
  }

  lemma PushOthers(s: State, p: Id, a: Addr)
    requires Inv(s) && LiveIn(s, p, a) && Fields(Pushed(s, p, a))
    ensures ListsOk(Pushed(s, p, a)) && PagesOk(Pushed(s, p, a)) && RefsOk(Pushed(s, p, a))
    ensures ThreadsOk(Pushed(s, p, a))
    ensures forall q :: q in s.all && q != p ==> NotIdle(Pushed(s, p, a), q)
  {
    hide FreeLists, Listed, OfType, R.Ok, R.FirstFit, R.Bit, Size, Blocks, Returned;
  }

  lemma PushKeepsInv(s: State, p: Id, a: Addr)
    requires Inv(s) && LiveIn(s, p, a)
    ensures s.page[p] <= a && InvBut(Pushed(s, p, a), {p})
    ensures Pushed(s, p, a).nfree[p] <= Blocks(s.kind[p])
  {
    PushFreeLists(s, p, a);
    PushOthers(s, p, a);
    hide FreeLists, ListsOk, RefsOk, ThreadsOk, PagesOk, UsesOk, Size, Blocks, Returned;
    PopBusy(Pushed(s, p, a), p, {p});
  }

  /** Exactly the freed block stopped being live. */
  lemma PushReleases(s: State, p: Id, a: Addr)
    requires Inv(s) && LiveIn(s, p, a) && Fields(Pushed(s, p, a))
    ensures Released(s, Pushed(s, p, a), a)
  {
    PushOthers(s, p, a);
    hide FreeLists, ListsOk, RefsOk, ThreadsOk, PagesOk, UsesOk, Size, Blocks, Returned, IsBlock, Live, NotIdle;
    var t := Pushed(s, p, a);
    forall b, n
      ensures Live(t, b, n) <==> Live(s, b, n) && b != a
    {
      PopLiveBlocks(t, s, p, a, b, n);
      PopWasFree(t, p, a, n);
    }
  }

  ghost predicate Released(s: State, t: State, a: Addr)
    requires Fields(s) && Fields(t)
  {
    forall b, n :: Live(t, b, n) <==> Live(s, b, n) && b != a
  }

  // Returning a wholly free page.

  ghost predicate CanUnlist(s: State, i: nat, j: nat) {
    && i < |s.all| && InvBut(s, {s.all[i]})
    && s.nfree[s.all[i]] == Blocks(s.kind[s.all[i]])
    && j < |OfType(s.kind, s.all, s.kind[s.all[i]])|
    && OfType(s.kind, s.all, s.kind[s.all[i]])[j] == s.all[i]
  }

  lemma DropReady(s: State, p: Id)
    requires RefsOk(s) && p in s.all
    ensures R.Bit(s.roots, p) && s.roots[p / 256].numinuse > 0
    ensures R.Ok(R.Drop(s.roots, p)) && R.FirstFit(R.Drop(s.roots, p))
    ensures forall k: int :: R.Bit(R.Drop(s.roots, p), k) <==> R.Bit(s.roots, k) && k != p
    ensures forall w :: 0 <= w < 16 ==> R.Drop(s.roots, p)[w].page == s.roots[w].page
  {
    hide R.FirstFit, R.Count;
    assert R.Bit(s.roots, p);
    R.DropOk(s.roots, p);
  }

  ghost predicate CanCut(s: State, i: nat, b: int, l: seq<Id>, j: nat) {
    && i < |s.all| && j < |l| && 0 <= b < |s.sizebases|
    && (forall k :: 0 <= k < |s.all| ==> s.all[k] in s.nextAll)
    && (forall k :: 0 <= k < |l| ==> l[k] in s.nextSame)
  }

  /** remove_lists(): the page is i-th on the list of all pages and j-th on
      the list l of its type. */
  ghost function OffLists(s: State, i: nat, b: int, l: seq<Id>, j: nat): State
    requires CanCut(s, i, b, l, j)
  {
    s.(nextSame := CutNext(s.nextSame, l, j),
       sizebases := s.sizebases[b := CutBase(s.nextSame, s.sizebases[b], l, j)],
       nextAll := CutNext(s.nextAll, s.all, i),
       allbase := CutBase(s.nextAll, s.allbase, s.all, i))
  }

  ghost predicate CanForget(s: State, i: nat) {
    && i < |s.all| && 0 <= s.all[i] < 4096 && s.all[i] in s.page
    && |s.roots| == 16 && |s.roots[s.all[i] / 256].inuse| == 256 && s.roots[s.all[i] / 256].numinuse > 0
  }

  ghost function Forgotten(s: State, i: nat): State
    requires CanForget(s, i)
  {
    s.(roots := R.Drop(s.roots, s.all[i]), all := Cut(s.all, i), use := s.use - {s.page[s.all[i]]})
  }

  lemma UnlistCan(s: State, i: nat, j: nat)
    requires CanUnlist(s, i, j)
    ensures CanCut(s, i, s.kind[s.all[i]], OfType(s.kind, s.all, s.kind[s.all[i]]), j)
    ensures CanForget(s, i)
  {
    DropReady(s, s.all[i]);
    hide PagesOk, UsesOk, FreeLists, ThreadsOk, NotIdle, Size, Blocks, OfType, R.FirstFit, R.Count, R.Drop;
    assert R.RootOk(s.roots[s.all[i] / 256]);
    ListedDistinct(s.nextAll, s.allbase, s.all);
  }

  ghost function Unlisted(s: State, i: nat, j: nat): State
    requires CanUnlist(s, i, j)
  {
    UnlistCan(s, i, j);
    Forgotten(OffLists(s, i, s.kind[s.all[i]], OfType(s.kind, s.all, s.kind[s.all[i]]), j), i)
  }

  lemma UnlistFields(s: State, i: nat, j: nat)
    requires CanUnlist(s, i, j)
    ensures Fields(Unlisted(s, i, j)) && FreeLists(Unlisted(s, i, j))
    ensures forall q :: q in Unlisted(s, i, j).all <==> q in s.all && q != s.all[i]
    ensures forall q :: q in Unlisted(s, i, j).all ==> NotIdle(Unlisted(s, i, j), q)
  {
    CutMembers(s.all, i);
    hide PagesOk, UsesOk, RefsOk, ThreadsOk, Size, Blocks, FreeListOk, Cut, CutNext, CutBase, OfType;
    var t := Unlisted(s, i, j);
    forall q | q in t.all
      ensures PageOk(t, q)
    {
      assert q in s.all && PageOk(s, q);
    }
  }

  lemma UnlistLists(s: State, i: nat, j: nat)
    requires CanUnlist(s, i, j) && Fields(Unlisted(s, i, j))
    ensures ListsOk(Unlisted(s, i, j))
  {
    hide PagesOk, UsesOk, RefsOk, ThreadsOk, FreeLists, Size, Blocks, Listed, Distinct, OfType, NotIdle;
    var p, t := s.all[i], Unlisted(s, i, j);
    var b := s.kind[p];
    var l := OfType(s.kind, s.all, b);
    CutListed(s.nextAll, s.allbase, s.all, i);
    CutListed(s.nextSame, s.sizebases[b], l, j);
    ListedDistinct(s.nextSame, s.sizebases[b], l);
    forall b' | 0 <= b' < 8
      ensures Listed(t.nextSame, t.sizebases[b'], OfType(t.kind, t.all, b'))
    {
      ListedDistinct(s.nextSame, s.sizebases[b'], OfType(s.kind, s.all, b'));
      OfTypeCut(s.kind, s.all, i, b', j);
      if b' != b {
        OtherType(s.kind, s.all, b, b', s.nextSame, l, j);
        ListedFrame(s.nextSame, t.nextSame, s.sizebases[b'], OfType(s.kind, s.all, b'));
      }
    }
  }

  lemma ListedDistinct(next: Links, base: Option<Id>, l: seq<Id>)
    requires Listed(next, base, l)
    ensures Distinct(l) && forall k :: 0 <= k < |l| ==> l[k] in next
  {
  }

  /** Unlinking from one size list writes to no page of another size. */
  lemma OtherType(kind: map<Id, int>, all: seq<Id>, b: int, b': int, next: Links, l: seq<Id>, j: nat)
    requires (forall x :: x in all ==> x in kind) && l == OfType(kind, all, b) && b != b' && j < |l|
    requires forall k :: 0 <= k < |l| ==> l[k] in next
    ensures forall x :: x in OfType(kind, all, b') && x in next ==>
              x in CutNext(next, l, j) && CutNext(next, l, j)[x] == next[x]
  {
    hide OfType;
    OfTypeMembers(kind, all, b);
    OfTypeMembers(kind, all, b');
    if j > 0 {
      assert l[j - 1] in l;
    }
  }

  /** The parts of the heap that returning page p touches, besides lists. */
  ghost predicate Dropped(s: State, t: State, p: Id) {
    && (forall q :: q in t.all <==> q in s.all && q != p)
    && p in s.page && t.page == s.page && t.threads == s.threads && t.reserved == s.reserved
    && t.use == s.use - {s.page[p]}
    && |s.roots| == 16 && |t.roots| == 16 && R.Ok(t.roots) && R.FirstFit(t.roots)
    && (forall w :: 0 <= w < 16 ==> t.roots[w].page == s.roots[w].page)
    && (forall k: int :: R.Bit(t.roots, k) <==> R.Bit(s.roots, k) && k != p)
  }

  lemma UnlistDrops(s: State, i: nat, j: nat)
    requires CanUnlist(s, i, j)
    ensures Dropped(s, Unlisted(s, i, j), s.all[i])
  {
    UnlistFields(s, i, j);
    DropReady(s, s.all[i]);
    hide PagesOk, UsesOk, FreeLists, ListsOk, ThreadsOk, Size, Blocks, Cut, CutNext, CutBase, OfType, NotIdle, R.FirstFit,
         R.Bit, R.Count, R.Drop;
  }

  lemma DropKeepsPages(s: State, t: State, p: Id)
    requires Fields(s) && Fields(t) && PagesOk(s) && p in s.all && Dropped(s, t, p)
    ensures PagesOk(t)
  {
    hide R.Ok, R.FirstFit, R.Bit, IsPage;
    assert s.use[s.page[p]] == HeapPage(p);
  }

  lemma DropKeepsUses(s: State, t: State, p: Id)
    requires Fields(s) && PagesOk(s) && UsesOk(s) && p in s.all && Dropped(s, t, p)
    ensures UsesOk(t)
  {
    hide R.Ok, R.FirstFit, R.Bit, IsPage;
    assert s.use[s.page[p]] == HeapPage(p);
    forall a | a in t.use
      ensures UseOk(t, a, t.use[a])
    {
      assert UseOk(s, a, s.use[a]);
    }
  }

  lemma DropKeepsRefs(s: State, t: State, p: Id)
    requires RefsOk(s) && ThreadsOk(s) && p in s.all && Dropped(s, t, p)
    ensures RefsOk(t) && ThreadsOk(t)
  {
    hide R.Ok, R.FirstFit;
  }

  lemma UnlistReady(s: State, i: nat, j: nat)
    requires CanUnlist(s, i, j)
    ensures i < |s.all| && s.all[i] in s.all && Fields(s) && PagesOk(s) && UsesOk(s) && RefsOk(s) && ThreadsOk(s)
  {
    hide PagesOk, UsesOk, FreeLists, ListsOk, RefsOk, ThreadsOk;
  }

  lemma UnlistKeepsInv(s: State, i: nat, j: nat)
    requires CanUnlist(s, i, j)
    ensures Inv(Unlisted(s, i, j))
  {
    hide PagesOk, UsesOk, FreeLists, ListsOk, RefsOk, ThreadsOk, CanUnlist, Unlisted, Dropped, NotIdle;
    UnlistReady(s, i, j);
    UnlistFields(s, i, j);
    UnlistLists(s, i, j);
    UnlistDrops(s, i, j);
    DropKeepsPages(s, Unlisted(s, i, j), s.all[i]);
    DropKeepsUses(s, Unlisted(s, i, j), s.all[i]);
    DropKeepsRefs(s, Unlisted(s, i, j), s.all[i]);
  }

  /** A page leaves only when none of its blocks is live. */
  lemma UnlistSameLive(s: State, i: nat, j: nat)
    requires CanUnlist(s, i, j) && Fields(Unlisted(s, i, j))
    ensures SameLive(s, Unlisted(s, i, j))
  {
    UnlistFields(s, i, j);
    WhollyFree(s, s.all[i]);
    hide PagesOk, UsesOk, FreeLists, ListsOk, RefsOk, ThreadsOk, Size, Blocks, Cut, CutNext, CutBase, OfType, LiveIn, Live,
         NotIdle, SameLive;
    AddedPage(Unlisted(s, i, j), s, s.all[i]);
    SameLiveSym(Unlisted(s, i, j), s);
  }

  lemma SameLiveSym(s: State, t: State)
    requires Fields(s) && Fields(t) && SameLive(s, t)
    ensures SameLive(t, s)
  {
  }

  lemma WhollyFree(s: State, p: Id)
    requires Fields(s) && FreeLists(s) && p in s.all && s.nfree[p] == Blocks(s.kind[p])
    ensures forall a :: !LiveIn(s, p, a)
  {
    hide Size, Blocks, IsBlock, NoDup, Linked;
    assert PageOk(s, p);
    forall a
      ensures !LiveIn(s, p, a)
    {
      if BlockIn(s, p, a) {
        FullChain(s.page[p], s.kind[p], s.chains[p], a);
      }
    }
  }
}
