/** The kernel subpage heap of kern/vm/kmalloc.c as a state: the memory the
    free lists run through, the fields of the pagerefs, the list heads, the
    pageref bitmaps and the allocations that are between two critical
    sections. */
module Heap {
  import opened Arith
  import opened FreeList
  import opened PageLists
  import opened Wrappers
  import R = Pagerefs

  type Tid = int

  const INVALID_OFFSET := 0xffff

  /** An allocation that has dropped the spinlock: it found no block
      (Started), it holds a fresh page and a pageref whose pageref page has
      been asked for (AwaitRefPage), or it has let go of the lock once more to
      give back a surplus pageref page (HasRef). */
  datatype Phase =
    | Started(bt: int)
    | AwaitRefPage(bt: int, va: Addr, id: Id)
    | HasRef(bt: int, va: Addr, id: Id)

  /** What a page obtained from alloc_kpages() is being used for. */
  datatype Use = HeapPage(id: Id) | InFlight(t: Tid) | RefPage(root: int) | Big(start: Addr)

  datatype State = State(
    mem: Memory,
    page: map<Id, Addr>,
    kind: map<Id, int>,
    offset: map<Id, int>,
    nfree: map<Id, int>,
    nextSame: Links,
    nextAll: Links,
    sizebases: seq<Option<Id>>,
    allbase: Option<Id>,
    roots: seq<R.Root>,
    threads: map<Tid, Phase>,
    // What the linked fields stand for.
    all: seq<Id>,
    chains: map<Id, seq<Addr>>,
    reserved: set<Id>,
    use: map<Addr, Use>
  )

  // The invariant.

  ghost predicate Fields(s: State) {
    forall p :: p in s.all ==>
      p in s.page && p in s.kind && p in s.offset && p in s.nfree && p in s.chains && 0 <= s.kind[p] < 8
  }

  function Head(page: Addr, offset: int): int {
    if offset == INVALID_OFFSET then 0 else page + offset
  }

  /** The free list of one page: distinct aligned blocks of that page, as many
      as nfree says, linked in memory from freelist_offset. */
  ghost predicate FreeListOk(mem: Memory, page: Addr, bt: int, offset: int, nfree: int, c: seq<Addr>)
    requires bt < 8
  {
    && nfree == |c|
    && (0 <= offset < 4096 || offset == INVALID_OFFSET)
    && NoDup(c)
    && (forall a :: a in c ==> IsBlock(page, bt, a))
    && Linked(mem, Head(page, offset), c)
  }

  ghost predicate PageOk(s: State, p: Id)
    requires Fields(s) && p in s.all
  {
    FreeListOk(s.mem, s.page[p], s.kind[p], s.offset[p], s.nfree[p], s.chains[p])
  }

  ghost predicate FreeLists(s: State)
    requires Fields(s)
  {
    forall p :: p in s.all ==> PageOk(s, p)
  }

  /** allbase lists every page once; sizebases[b] lists those of type b. */
  ghost predicate ListsOk(s: State)
    requires Fields(s)
  {
    && Listed(s.nextAll, s.allbase, s.all)
    && |s.sizebases| == 8
    && forall b :: 0 <= b < 8 ==> Listed(s.nextSame, s.sizebases[b], OfType(s.kind, s.all, b))
  }

  predicate IsPage(a: Addr) {
    a > 0 && a % 4096 == 0
  }

  /** Every page has one use, so no two pagerefs share a page. */
  ghost predicate PagesOk(s: State)
    requires Fields(s)
  {
    && (forall p :: p in s.all ==>
          IsPage(s.page[p]) && s.page[p] in s.use && s.use[s.page[p]] == HeapPage(p))
    && (forall t :: t in s.threads && !s.threads[t].Started? ==>
          IsPage(s.threads[t].va) && s.threads[t].va in s.use && s.use[s.threads[t].va] == InFlight(t))
    && (forall w :: 0 <= w < |s.roots| && s.roots[w].page != 0 ==>
          s.roots[w].page in s.use && s.use[s.roots[w].page] == RefPage(w))
  }

  /** What a page's use says about it. */
  ghost predicate UseOk(s: State, a: Addr, u: Use) {
    match u
    case HeapPage(p) => p in s.all && p in s.page && s.page[p] == a
    case InFlight(t) => t in s.threads && !s.threads[t].Started? && s.threads[t].va == a
    case RefPage(w) => a != 0 && 0 <= w < |s.roots| && s.roots[w].page == a
    case Big(b) => b in s.use && s.use[b] == Big(b)
  }

  /** No page is lost: each one in use serves a listed pageref, an allocation
      in progress, a root, or a block of whole pages. */
  ghost predicate UsesOk(s: State) {
    forall a :: a in s.use ==> UseOk(s, a, s.use[a])
  }

  /** The set bits are the listed pagerefs and the reserved ones: those held
      by an allocation in progress or lost with a failed one. */
  ghost predicate RefsOk(s: State) {
    && R.Ok(s.roots) && R.FirstFit(s.roots)
    && (forall p: Id :: R.Bit(s.roots, p) <==> p in s.all || p in s.reserved)
    && (forall p :: p in s.all ==> p !in s.reserved && s.roots[p / 256].page != 0)
  }

  ghost predicate ThreadsOk(s: State)
    requires |s.roots| == 16
  {
    && (forall t :: t in s.threads ==> 0 <= s.threads[t].bt < 8)
    && (forall t :: t in s.threads && !s.threads[t].Started? ==>
          s.threads[t].id in s.reserved && 0 <= s.threads[t].id < 4096)
    && (forall t, u :: t in s.threads && u in s.threads && t != u && !s.threads[t].Started? && !s.threads[u].Started?
          ==> s.threads[t].id != s.threads[u].id)
    && (forall t :: t in s.threads && s.threads[t].HasRef? ==>
          0 <= s.threads[t].id < 4096 && s.roots[s.threads[t].id / 256].page != 0)
  }

  /** A listed page always has a live block. */
  ghost predicate NotIdle(s: State, p: Id)
    requires Fields(s) && p in s.all
  {
    s.nfree[p] < Blocks(s.kind[p])
  }

  /** Everything but that pages in `idle` need not have a live block. */
  ghost predicate InvBut(s: State, idle: set<Id>) {
    && Fields(s) && FreeLists(s) && ListsOk(s) && PagesOk(s) && UsesOk(s) && RefsOk(s) && ThreadsOk(s)
    && forall p :: p in s.all && p !in idle ==> NotIdle(s, p)
  }

  ghost predicate Inv(s: State) {
    InvBut(s, {})
  }

  // The abstract heap: which blocks are live.

  ghost predicate BlockIn(s: State, p: Id, a: Addr)
    requires Fields(s)
  {
    p in s.all && IsBlock(s.page[p], s.kind[p], a)
  }

  ghost predicate LiveIn(s: State, p: Id, a: Addr)
    requires Fields(s)
  {
    BlockIn(s, p, a) && a !in s.chains[p]
  }

  /** There is a live block of n bytes at a. */
  ghost predicate Live(s: State, a: Addr, n: nat)
    requires Fields(s)
  {
    exists p :: LiveIn(s, p, a) && n == Size(s.kind[p])
  }

  lemma PagesApart(x: Addr, y: Addr)
    requires x % 4096 == 0 && y % 4096 == 0 && x != y
    ensures x + 4096 <= y || y + 4096 <= x
  {
  }

  lemma TwoPages(s: State, p: Id, q: Id)
    requires Fields(s) && PagesOk(s) && p in s.all && q in s.all && p != q
    ensures s.page[p] + 4096 <= s.page[q] || s.page[q] + 4096 <= s.page[p]
  {
    hide ListsOk, FreeLists;
    assert s.use[s.page[p]] == HeapPage(p) && s.use[s.page[q]] == HeapPage(q);
    PagesApart(s.page[p], s.page[q]);
  }

  /** Blocks, live or free, of all pages are pairwise disjoint, aligned and
      inside their page. */
  lemma BlocksAreDisjoint(s: State, p: Id, a: Addr, q: Id, b: Addr)
    requires Fields(s) && PagesOk(s) && BlockIn(s, p, a) && BlockIn(s, q, b)
    ensures s.page[p] <= a && a + Size(s.kind[p]) <= s.page[p] + 4096 && a % Size(s.kind[p]) == 0
    ensures a == b ==> p == q
    ensures a != b ==> a + Size(s.kind[p]) <= b || b + Size(s.kind[q]) <= a
  {
    hide PagesOk, UsesOk, Size;
    BlockInside(s.page[p], s.kind[p], a);
    BlockInside(s.page[q], s.kind[q], b);
    Aligned(s, p, a);
    if p != q {
      TwoPages(s, p, q);
    } else if a < b {
      BlockGap(s.page[p], s.kind[p], a, b);
    } else if b < a {
      BlockGap(s.page[p], s.kind[p], b, a);
    }
    SizeFacts(s.kind[p]);
    SizeFacts(s.kind[q]);
  }

  lemma Aligned(s: State, p: Id, a: Addr)
    requires Fields(s) && PagesOk(s) && BlockIn(s, p, a)
    ensures a % Size(s.kind[p]) == 0
  {
    AlignedIn(s.page[p], s.kind[p], a);
  }

  lemma AlignedIn(page: Addr, bt: int, a: Addr)
    requires IsPage(page) && 0 <= bt < 8 && IsBlock(page, bt, a)
    ensures a % Size(bt) == 0
  {
    SizeFacts(bt);
    hide Size, Blocks;
    var n, b, k, j := Size(bt), Blocks(bt), page / 4096, (a - page) / Size(bt);
    assert a == k * (b * n) + j * n;
    MulAssoc(k, b, n);
    MulAdd(k * b, j, n);
    MultipleMod(k * b + j, n);
  }

  /** At most one block of one size is live at an address. */
  lemma LiveOnce(s: State, a: Addr, n: nat, b: Addr, m: nat)
    requires Inv(s) && Live(s, a, n) && Live(s, b, m)
    ensures a == b ==> n == m
    ensures a != b ==> a + n <= b || b + m <= a
  {
    hide PagesOk, UsesOk, ListsOk, FreeLists, RefsOk, ThreadsOk, IsBlock, Size;
    var p :| LiveIn(s, p, a) && n == Size(s.kind[p]);
    var q :| LiveIn(s, q, b) && m == Size(s.kind[q]);
    BlocksAreDisjoint(s, p, a, q, b);
  }
}
