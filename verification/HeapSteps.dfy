/** What each critical section of kern/vm/kmalloc.c does to the heap, and that
    every one of them keeps the heap invariant. */
module HeapSteps {
  import opened Arith
  import opened FreeList
  import opened Heap
  import opened PageLists
  import opened Wrappers
  import R = Pagerefs

  /** a was not live at any size; now it is a live block of type bt, and no
      other block changed. */
  ghost predicate Granted(s: State, t: State, a: Addr, bt: int)
    requires Fields(s) && Fields(t) && 0 <= bt < 8
  {
    && (forall n :: !Live(s, a, n))
    && (forall b, n :: Live(t, b, n) <==> Live(s, b, n) || (b == a && n == Size(bt)))
  }

  ghost predicate SameLive(s: State, t: State)
    requires Fields(s) && Fields(t)
  {
    forall b, n :: Live(t, b, n) <==> Live(s, b, n)
  }

  // Taking the first free block of a page.

  function Block(s: State, p: Id): Addr
    requires p in s.page && p in s.offset
  {
    s.page[p] + s.offset[p]
  }

  ghost predicate CanPop(s: State, p: Id) {
    && p in s.page && p in s.offset && p in s.nfree && p in s.chains
    && s.nfree[p] > 0 && |s.chains[p]| > 0
  }

  ghost function Popped(s: State, p: Id): State
    requires CanPop(s, p)
  {
    var next := Load(s.mem, Block(s, p));
    s.(nfree := s.nfree[p := s.nfree[p] - 1],
       offset := s.offset[p := if next != 0 then next - s.page[p] else INVALID_OFFSET],
       chains := s.chains[p := s.chains[p][1..]])
  }

  lemma PopList(mem: Memory, page: Addr, bt: int, offset: int, nfree: int, c: seq<Addr>)
    requires bt < 8 && IsPage(page) && FreeListOk(mem, page, bt, offset, nfree, c) && nfree > 0
    ensures offset < 4096 && c[0] == page + offset
    ensures
      var next := Load(mem, page + offset);
      && (next != 0 <==> nfree > 1)
      && (next != 0 ==> page <= next < page + 4096)
      && FreeListOk(mem, page, bt, if next != 0 then next - page else INVALID_OFFSET, nfree - 1, c[1..])
  {
    hide Size;
    assert c[0] in c;
    var rest := c[1..];
    assert forall a :: a in rest ==> a in c;
    assert Linked(mem, Load(mem, c[0]), rest);
    if rest != [] {
      assert rest[0] in c;
    }
  }

  lemma PopReady(s: State, p: Id, idle: set<Id>)
    requires InvBut(s, idle) && p in s.all && s.nfree[p] > 0
    ensures |s.chains[p]| > 0 && s.chains[p][0] == Block(s, p) && s.offset[p] < 4096
    ensures Load(s.mem, Block(s, p)) == 0 || s.page[p] <= Load(s.mem, Block(s, p)) < s.page[p] + 4096
    ensures Load(s.mem, Block(s, p)) != 0 <==> s.nfree[p] > 1
  {
    hide ListsOk, RefsOk, ThreadsOk, Size, IsBlock, Linked, NotIdle;
    assert PageOk(s, p);
    PopList(s.mem, s.page[p], s.kind[p], s.offset[p], s.nfree[p], s.chains[p]);
  }

  lemma PopKeepsInv(s: State, p: Id, idle: set<Id>)
    requires InvBut(s, idle) && p in s.all && s.nfree[p] > 0 && idle <= {p}
    ensures CanPop(s, p) && Inv(Popped(s, p))
  {
    PopReady(s, p, idle);
    hide FreeListOk, ListsOk, PagesOk, UsesOk, RefsOk, ThreadsOk;
    var t := Popped(s, p);
    PopFreeLists(s, p, idle);
    PopOthers(s, p, idle);
  }

  lemma PopFreeLists(s: State, p: Id, idle: set<Id>)
    requires InvBut(s, idle) && p in s.all && CanPop(s, p) && idle <= {p}
    ensures Fields(Popped(s, p)) && FreeLists(Popped(s, p))
    ensures forall q :: q in s.all ==> NotIdle(Popped(s, p), q)
  {
    hide ListsOk, RefsOk, ThreadsOk, Size, FreeListOk;
    var t := Popped(s, p);
    assert PageOk(s, p);
    PopList(s.mem, s.page[p], s.kind[p], s.offset[p], s.nfree[p], s.chains[p]);
    forall q | q in s.all
      ensures PageOk(t, q)
    {
      assert PageOk(s, q);
    }
    PopBusy(s, p, idle);
  }

  lemma PopBusy(s: State, p: Id, idle: set<Id>)
    requires InvBut(s, idle) && p in s.all && s.nfree[p] > 0
    ensures s.nfree[p] <= Blocks(s.kind[p])
  {
    hide ListsOk, RefsOk, ThreadsOk, PagesOk, UsesOk, Size, IsBlock, NoDup, Linked;
    assert PageOk(s, p);
    ChainLength(s.page[p], s.kind[p], s.chains[p]);
  }

  lemma PopOthers(s: State, p: Id, idle: set<Id>)
    requires InvBut(s, idle) && p in s.all && CanPop(s, p)
    requires Fields(Popped(s, p))
    ensures ListsOk(Popped(s, p)) && PagesOk(Popped(s, p)) && RefsOk(Popped(s, p)) && ThreadsOk(Popped(s, p))
  {
    hide FreeLists, Listed, OfType, NotIdle, R.Ok, R.FirstFit, R.Bit, Size, Blocks;
  }

  /** The block taken was free, and it is the only one whose state changed. */
  lemma PopMakesLive(s: State, p: Id, idle: set<Id>)
    requires InvBut(s, idle) && p in s.all && CanPop(s, p)
    requires Fields(Popped(s, p))
    ensures Granted(s, Popped(s, p), Block(s, p), s.kind[p])
  {
    PopReady(s, p, idle);
    hide ListsOk, RefsOk, ThreadsOk, Size, IsBlock, Linked, PagesOk, UsesOk, NotIdle;
    var t, a, c := Popped(s, p), Block(s, p), s.chains[p];
    assert PageOk(s, p);
    assert c[0] in c && c == [a] + c[1..];
    assert a !in c[1..];
    assert LiveIn(t, p, a);
    forall b, n
      ensures Live(t, b, n) <==> Live(s, b, n) || (b == a && n == Size(s.kind[p]))
    {
      PopLiveBlocks(s, t, p, a, b, n);
    }
    forall n
      ensures !Live(s, a, n)
    {
      PopWasFree(s, p, a, n);
    }
  }

  lemma PopLiveBlocks(s: State, t: State, p: Id, a: Addr, b: Addr, n: nat)
    requires Fields(s) && Fields(t) && t.all == s.all && t.page == s.page && t.kind == s.kind && p in s.all
    requires s.chains[p] == [a] + t.chains[p] && a !in t.chains[p] && BlockIn(s, p, a)
    requires forall q :: q in s.all && q != p ==> t.chains[q] == s.chains[q]
    ensures Live(t, b, n) <==> Live(s, b, n) || (b == a && n == Size(s.kind[p]))
  {
    hide IsBlock, Size;
    if q :| LiveIn(t, q, b) && n == Size(t.kind[q]) {
      assert LiveIn(s, q, b) || (q == p && b == a);
    }
    if q :| LiveIn(s, q, b) && n == Size(s.kind[q]) {
      assert LiveIn(t, q, b);
    }
    assert LiveIn(t, p, a);
  }

  /** A block on a free list is not live. */
  lemma PopWasFree(s: State, p: Id, a: Addr, n: nat)
    requires Fields(s) && PagesOk(s) && BlockIn(s, p, a) && a in s.chains[p]
    ensures !Live(s, a, n)
  {
    hide PagesOk, UsesOk, IsBlock, Size;
    forall q
      ensures !LiveIn(s, q, a)
    {
      if BlockIn(s, q, a) {
        BlocksAreDisjoint(s, p, a, q, a);
      }
    }
  }

  // Putting a fresh page on the lists.

  /** Memory after the first n blocks of a fresh page have been linked. */
  function Built(mem: Memory, va: Addr, size: nat, n: nat): Memory
    requires n >= 1
  {
    if n == 1 then mem[va := 0]
    else Built(mem, va, size, n - 1)[va + (n - 1) * size := va + (n - 2) * size]
  }

  ghost function FullList(va: Addr, size: nat, n: nat): seq<Addr> {
    if n == 0 then [] else [va + (n - 1) * size] + FullList(va, size, n - 1)
  }

  lemma NoDupCons(a: Addr, c: seq<Addr>)
    requires NoDup(c) && a !in c
    ensures NoDup([a] + c)
  {
  }

  lemma {:induction false} FullListMembers(va: Addr, size: nat, n: nat)
    requires size >= 1
    ensures |FullList(va, size, n)| == n && NoDup(FullList(va, size, n))
    ensures forall a :: a in FullList(va, size, n) ==> va <= a < va + n * size && (a - va) % size == 0
  {
    if n > 0 {
      FullListMembers(va, size, n - 1);
      MultipleMod(n - 1, size);
      MulAdd(n - 1, 1, size);
      NoDupCons(va + (n - 1) * size, FullList(va, size, n - 1));
    }
  }

  lemma {:induction false} BuiltFrame(mem: Memory, va: Addr, size: nat, n: nat, a: Addr)
    requires n >= 1 && size >= 1 && (a < va || va + n * size <= a)
    ensures Load(Built(mem, va, size, n), a) == Load(mem, a)
  {
    if n > 1 {
      MulAdd(n - 1, 1, size);
      BuiltFrame(mem, va, size, n - 1, a);
    }
  }

  /** The loop leaves the whole page on one free list, last block first. */
  lemma {:induction false} BuiltLinked(mem: Memory, va: Addr, size: nat, n: nat)
    requires n >= 1 && size >= 1
    ensures Linked(Built(mem, va, size, n), va + (n - 1) * size, FullList(va, size, n))
  {
    var m, c := Built(mem, va, size, n), FullList(va, size, n);
    if n == 1 {
      assert FullList(va, size, 0) == [];
      assert c == [va];
      assert Linked(m, 0, c[1..]);
    } else {
      var m0, c0, a := Built(mem, va, size, n - 1), FullList(va, size, n - 1), va + (n - 1) * size;
      BuiltLinked(mem, va, size, n - 1);
      FullListMembers(va, size, n - 1);
      LinkedFrame(m0, m, va + (n - 2) * size, c0);
      assert c[1..] == c0;
    }
  }

  lemma BuiltOk(mem: Memory, va: Addr, bt: int)
    requires bt < 8 && IsPage(va)
    ensures Blocks(bt) >= 1 && 0 <= (Blocks(bt) - 1) * Size(bt) < 4096
    ensures FreeListOk(Built(mem, va, Size(bt), Blocks(bt)), va, bt, (Blocks(bt) - 1) * Size(bt), Blocks(bt),
                       FullList(va, Size(bt), Blocks(bt)))
  {
    SizeFacts(bt);
    var size, n := Size(bt), Blocks(bt);
    MulLe(0, n - 1, size);
    MulAdd(n - 1, 1, size);
    hide Size, Blocks, FreeListOk, Built, FullList, Linked, NoDup;
    BuiltLinked(mem, va, size, n);
    FullListMembers(va, size, n);
    BuiltListOk(Built(mem, va, size, n), va, bt, (n - 1) * size, n, FullList(va, size, n));
  }

  /** What makes a list of a whole page a free list. */
  lemma BuiltListOk(m: Memory, va: Addr, bt: int, offset: int, n: int, c: seq<Addr>)
    requires bt < 8 && 0 <= offset < 4096 && n == |c| && NoDup(c) && Linked(m, va + offset, c)
    requires forall a :: a in c ==> va <= a < va + 4096 && (a - va) % Size(bt) == 0
    ensures FreeListOk(m, va, bt, offset, n, c)
  {
    hide NoDup, Linked, Size;
  }

  ghost predicate CanList(s: State, t: Tid) {
    && Inv(s) && t in s.threads && s.threads[t].HasRef?
  }

  /** The pageref of a fresh page says that all its blocks are free. */
  ghost function Initialised(s: State, id: Id, va: Addr, bt: int): State
    requires 0 <= bt < 8
  {
    var n, size := Blocks(bt), Size(bt);
    s.(mem := Built(s.mem, va, size, n),
       page := s.page[id := va],
       kind := s.kind[id := bt],
       offset := s.offset[id := (n - 1) * size],
       nfree := s.nfree[id := n])
  }

  ghost function OnLists(s: State, id: Id, bt: int): State
    requires 0 <= bt < |s.sizebases|
  {
    s.(nextSame := s.nextSame[id := s.sizebases[bt]],
       sizebases := s.sizebases[bt := Some(id)],
       nextAll := s.nextAll[id := s.allbase],
       allbase := Some(id))
  }

  ghost function Noted(s: State, t: Tid): State
    requires t in s.threads && s.threads[t].HasRef? && 0 <= s.threads[t].bt < 8
  {
    var id, va, bt := s.threads[t].id, s.threads[t].va, s.threads[t].bt;
    s.(all := [id] + s.all,
       chains := s.chains[id := FullList(va, Size(bt), Blocks(bt))],
       reserved := s.reserved - {id},
       use := s.use[va := HeapPage(id)])
  }

  /** The pageref of thread t takes charge of its fresh page, first on both
      lists. */
  ghost function Paged(s: State, t: Tid): State
    requires t in s.threads && s.threads[t].HasRef? && 0 <= s.threads[t].bt < |s.sizebases| == 8
  {
    var id, va, bt := s.threads[t].id, s.threads[t].va, s.threads[t].bt;
    Noted(OnLists(Initialised(s, id, va, bt), id, bt), t).(threads := s.threads - {t})
  }

  lemma PagedFresh(s: State, t: Tid)
    requires CanList(s, t)
    ensures s.threads[t].id !in s.all && 0 <= s.threads[t].bt < |s.sizebases| == 8
    ensures IsPage(s.threads[t].va)
    ensures Fields(Paged(s, t))
    ensures forall q :: q in s.all ==> IsPage(s.page[q]) && s.page[q] != s.threads[t].va
  {
    hide FreeLists, Listed, OfType, R.Ok, R.FirstFit, R.Bit, Size, Blocks;
    assert s.threads[t].id in s.reserved;
    var va := s.threads[t].va;
    forall q | q in s.all
      ensures IsPage(s.page[q]) && s.page[q] != va
    {
      assert s.use[va] == InFlight(t) && s.use[s.page[q]] == HeapPage(q);
    }
  }

  lemma PagedFreeLists(s: State, t: Tid)
    requires CanList(s, t) && 0 <= s.threads[t].bt < |s.sizebases| == 8 && Fields(Paged(s, t))
    ensures FreeLists(Paged(s, t))
  {
    PagedFresh(s, t);
    hide ListsOk, PagesOk, UsesOk, RefsOk, ThreadsOk, Size, Blocks, FreeListOk, Built, FullList, IsPage;
    var s', va, bt, id := Paged(s, t), s.threads[t].va, s.threads[t].bt, s.threads[t].id;
    BuiltOk(s.mem, va, bt);
    forall q | q in s'.all
      ensures PageOk(s', q)
    {
      if q != id {
        assert q in s.all && PageOk(s, q);
        PagedFrame(s.mem, va, bt, s.page[q], s.kind[q], s.offset[q], s.nfree[q], s.chains[q]);
      }
    }
  }

  lemma PagedFrame(mem: Memory, va: Addr, bt: int, page: Addr, bt': int, offset: int, nfree: int, c: seq<Addr>)
    requires bt < 8 && 0 <= bt' < 8 && IsPage(va) && IsPage(page) && va != page
    requires FreeListOk(mem, page, bt', offset, nfree, c)
    ensures FreeListOk(Built(mem, va, Size(bt), Blocks(bt)), page, bt', offset, nfree, c)
  {
    SizeFacts(bt);
    hide Size, Blocks;
    var mem' := Built(mem, va, Size(bt), Blocks(bt));
    PagesApart(va, page);
    forall a | a in c
      ensures Load(mem', a) == Load(mem, a)
    {
      BuiltFrame(mem, va, Size(bt), Blocks(bt), a);
    }
    LinkedFrame(mem, mem', Head(page, offset), c);
  }

  lemma PagedLists(s: State, t: Tid)
    requires CanList(s, t) && 0 <= s.threads[t].bt < |s.sizebases| == 8 && Fields(Paged(s, t))
    ensures ListsOk(Paged(s, t))
  {
    PagedFresh(s, t);
    hide FreeLists, PagesOk, UsesOk, RefsOk, ThreadsOk, Size, Blocks, Built, FullList, IsPage, NotIdle, Listed;
    var s', bt, id := Paged(s, t), s.threads[t].bt, s.threads[t].id;
    PushFront(s.nextAll, s.allbase, s.all, id);
    assert s'.all[1..] == s.all;
    forall b | 0 <= b < 8
      ensures Listed(s'.nextSame, s'.sizebases[b], OfType(s'.kind, s'.all, b))
    {
      var l := OfType(s.kind, s.all, b);
      OfTypeFrame(s.kind, s'.kind, s.all, b);
      OfTypeMembers(s.kind, s.all, b);
      if b == bt {
        PushFront(s.nextSame, s.sizebases[bt], l, id);
      } else {
        ListedFrame(s.nextSame, s'.nextSame, s.sizebases[b], l);
      }
    }
  }

  lemma ListedFrame(next: Links, next': Links, base: Option<Id>, l: seq<Id>)
    requires Listed(next, base, l) && forall x :: x in l && x in next ==> x in next' && next'[x] == next[x]
    ensures Listed(next', base, l)
  {
  }

  lemma PagedRefs(s: State, t: Tid)
    requires CanList(s, t) && 0 <= s.threads[t].bt < |s.sizebases| == 8 && Fields(Paged(s, t))
    ensures RefsOk(Paged(s, t))
  {
    PagedFresh(s, t);
    hide FreeLists, PagesOk, UsesOk, ListsOk, Size, Blocks, Built, FullList, IsPage, NotIdle, R.Ok, R.FirstFit, R.Bit;
    var s', id := Paged(s, t), s.threads[t].id;
    assert forall p :: p in s'.all <==> p in s.all || p == id;
  }

  lemma PagedThreads(s: State, t: Tid)
    requires CanList(s, t) && 0 <= s.threads[t].bt < |s.sizebases| == 8 && Fields(Paged(s, t))
    ensures |s.roots| == 16 && ThreadsOk(Paged(s, t))
  {
    hide FreeLists, PagesOk, UsesOk, ListsOk, Size, Blocks, Built, FullList, IsPage, NotIdle, R.FirstFit, R.Bit, R.Count;
    var s', id := Paged(s, t), s.threads[t].id;
    assert forall u :: u in s'.threads ==> u in s.threads && s'.threads[u] == s.threads[u] && u != t;
  }

  lemma PagedPages(s: State, t: Tid)
    requires CanList(s, t) && 0 <= s.threads[t].bt < |s.sizebases| == 8 && Fields(Paged(s, t))
    ensures PagesOk(Paged(s, t))
  {
    PagedFresh(s, t);
    hide FreeLists, RefsOk, ListsOk, ThreadsOk, Size, Blocks, Built, FullList, IsPage, NotIdle;
    var s', va, id := Paged(s, t), s.threads[t].va, s.threads[t].id;
    assert s.use[va] == InFlight(t);
    forall p | p in s'.all
      ensures IsPage(s'.page[p]) && s'.page[p] in s'.use && s'.use[s'.page[p]] == HeapPage(p)
    {
      assert p == id || p in s.all;
    }
    forall u | u in s'.threads && !s'.threads[u].Started?
      ensures IsPage(s'.threads[u].va) && s'.threads[u].va in s'.use && s'.use[s'.threads[u].va] == InFlight(u)
    {
      assert u in s.threads && u != t;
    }
  }

  lemma PagedUses(s: State, t: Tid)
    requires CanList(s, t) && 0 <= s.threads[t].bt < |s.sizebases| == 8
    ensures UsesOk(Paged(s, t))
  {
    PagedFresh(s, t);
    hide FreeLists, RefsOk, ListsOk, ThreadsOk, Size, Blocks, Built, FullList, IsPage, NotIdle;
    var s', va, id := Paged(s, t), s.threads[t].va, s.threads[t].id;
    assert s.use[va] == InFlight(t) && s'.all[0] == id;
    forall a | a in s'.use
      ensures UseOk(s', a, s'.use[a])
    {
      if a != va {
        assert UseOk(s, a, s.use[a]);
        assert forall p :: p in s.all ==> p in s'.all && p != id;
      }
    }
  }

  /** Setting up a page writes nowhere else, and takes up no other page. */
  lemma PagedWrites(s: State, t: Tid)
    requires CanList(s, t) && 0 <= s.threads[t].bt < |s.sizebases| == 8
    ensures WritesOnly(s.mem, Paged(s, t).mem, s.threads[t].va, 4096) && Paged(s, t).use.Keys == s.use.Keys
  {
    var va, bt := s.threads[t].va, s.threads[t].bt;
    SizeFacts(bt);
    hide FreeLists, RefsOk, ListsOk, ThreadsOk, Size, Blocks, Built, FullList, IsPage, NotIdle;
    forall x | x < va || va + 4096 <= x
      ensures Load(Paged(s, t).mem, x) == Load(s.mem, x)
    {
      BuiltFrame(s.mem, va, Size(bt), Blocks(bt), x);
    }
  }

  lemma PagedKeepsInv(s: State, t: Tid)
    requires CanList(s, t)
    ensures 0 <= s.threads[t].bt < |s.sizebases| == 8
    ensures InvBut(Paged(s, t), {s.threads[t].id})
  {
    PagedFresh(s, t);
    PagedFreeLists(s, t);
    PagedLists(s, t);
    PagedPages(s, t);
    PagedUses(s, t);
    PagedRefs(s, t);
    PagedThreads(s, t);
    hide FreeLists, PagesOk, UsesOk, ListsOk, RefsOk, ThreadsOk, Size, Blocks, Built, FullList, IsPage;
  }

  lemma PagedSameLive(s: State, t: Tid)
    requires CanList(s, t) && 0 <= s.threads[t].bt < |s.sizebases| == 8 && Fields(Paged(s, t))
    ensures SameLive(s, Paged(s, t))
  {
    PagedFresh(s, t);
    PagedWhole(s, t);
    hide FreeLists, PagesOk, UsesOk, ListsOk, RefsOk, ThreadsOk, Size, Blocks, Built, FullList, IsPage, IsBlock, NotIdle,
         LiveIn, Live, SameLive;
    AddedPage(s, Paged(s, t), s.threads[t].id);
  }

  lemma AddedPage(s: State, s': State, id: Id)
    requires Fields(s) && Fields(s') && id !in s.all
    requires forall q :: q in s'.all <==> q in s.all || q == id
    requires forall q :: q in s.all ==>
               s'.page[q] == s.page[q] && s'.kind[q] == s.kind[q] && s'.chains[q] == s.chains[q]
    requires forall a :: !LiveIn(s', id, a)
    ensures SameLive(s, s')
  {
    hide IsBlock, Size;
    forall b, n
      ensures Live(s', b, n) <==> Live(s, b, n)
    {
      if q :| LiveIn(s', q, b) && n == Size(s'.kind[q]) {
        assert LiveIn(s, q, b);
      }
      if q :| LiveIn(s, q, b) && n == Size(s.kind[q]) {
        assert LiveIn(s', q, b);
      }
    }
  }

  /** No block of the fresh page is live yet. */
  lemma PagedWhole(s: State, t: Tid)
    requires CanList(s, t) && 0 <= s.threads[t].bt < |s.sizebases| == 8 && Fields(Paged(s, t))
    ensures forall a :: !LiveIn(Paged(s, t), s.threads[t].id, a)
  {
    PagedFresh(s, t);
    hide FreeLists, PagesOk, UsesOk, ListsOk, RefsOk, ThreadsOk, Size, Blocks, Built, FullList, IsPage, IsBlock, NotIdle, NoDup;
    var s', va, bt, id := Paged(s, t), s.threads[t].va, s.threads[t].bt, s.threads[t].id;
    BuiltOk(s.mem, va, bt);
    forall a
      ensures !LiveIn(s', id, a)
    {
      if IsBlock(va, bt, a) {
        FullChain(va, bt, s'.chains[id], a);
      }
    }
  }
}
