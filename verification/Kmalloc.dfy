/** kern/vm/kmalloc.c: the allocator itself. Each method is one stretch of
    code run under kmalloc_spinlock; between two of them any other thread's
    methods may run. */
module Kmalloc {
  import opened FreeList
  import opened Heap
  import opened HeapFree
  import opened HeapSteps
  import opened HeapThreads
  import opened PageLists
  import opened Wrappers
  import R = Pagerefs

  /** bt is the smallest block type that holds sz bytes. */
  ghost predicate BestFit(sz: nat, bt: int) {
    0 <= bt < 8 && sz <= Size(bt) && forall b: nat :: b < bt ==> Size(b) < sz
  }

  /** blocktype(). */
  method BlockType(sz: nat) returns (bt: int)
    requires sz <= 2048
    ensures BestFit(sz, bt)
  {
    bt := 0;
    while sz > Size(bt)
      invariant bt < 8 && forall b: nat :: b < bt ==> Size(b) < sz
      decreases 8 - bt
    {
      bt := bt + 1;
    }
  }

  /** How a stretch of an allocation ends: with a block, without one and with
      a page to give back (0 if there is none), or with the lock dropped. */
  datatype Outcome = Block(a: Addr) | OutOfMemory(release: Addr) | LockDropped(release: Addr)

  datatype FreeOutcome = NotOurs | BadAddress | Freed | FreedPage(page: Addr) | Panicked

  /** What it takes for the fields to make sense at all. */
  ghost predicate Shape(s: State) {
    && Fields(s) && |s.roots| == 16 && |s.sizebases| == 8
    && forall t :: t in s.threads ==> 0 <= s.threads[t].bt < 8
  }

  lemma InvShape(s: State)
    requires Inv(s)
    ensures Shape(s) && R.Ok(s.roots)
  {
    InvFields(s);
    hide FreeLists, PagesOk, UsesOk, ListsOk, RefsOk, Inv;
  }

  lemma InvFields(s: State)
    requires Inv(s)
    ensures Fields(s) && FreeLists(s) && PagesOk(s) && UsesOk(s) && RefsOk(s) && ThreadsOk(s) && ListsOk(s)
    ensures |s.roots| == 16 && |s.sizebases| == 8 && R.Ok(s.roots)
  {
    hide FreeLists, PagesOk, UsesOk, ThreadsOk, Listed, R.FirstFit, R.Bit, NotIdle;
  }

  /** No page of type bt has a free block. */
  ghost predicate NoneFree(s: State, bt: int)
    requires Fields(s)
  {
    forall p :: p in s.all && s.kind[p] == bt ==> s.nfree[p] == 0
  }

  lemma PopAll(s: State, p: Id, idle: set<Id>)
    requires Fields(s) && InvBut(s, idle) && p in s.all && s.nfree[p] > 0 && idle <= {p}
    ensures CanPop(s, p) && Fields(Popped(s, p)) && Inv(Popped(s, p))
    ensures Granted(s, Popped(s, p), HeapSteps.Block(s, p), s.kind[p])
  {
    hide FreeLists, ListsOk, PagesOk, UsesOk, RefsOk, ThreadsOk, NotIdle, Granted;
    PopKeepsInv(s, p, idle);
    PopMakesLive(s, p, idle);
  }

  /** Either some page had a free block, and it has been handed out, or none
      had, and thread t goes to get a page. */
  ghost predicate BeginResult(s: State, u: State, t: Tid, bt: int, r: Option<Addr>)
    requires Fields(s) && Fields(u) && 0 <= bt < 8
  {
    match r
    case Some(a) =>
      Granted(s, u, a, bt) && u.threads == s.threads && u.roots == s.roots && u.mem == s.mem && u.use == s.use
    case None => NoneFree(s, bt) && u == s.(threads := s.threads[t := Started(bt)])
  }

  lemma BestFitType(sz: nat, bt: int)
    requires BestFit(sz, bt)
    ensures 0 <= bt < 8
  {
  }

  lemma PopResult(s: State, t: Tid, p: Id)
    requires Shape(s) && Inv(s) && p in s.all && s.nfree[p] > 0
    ensures CanPop(s, p) && Inv(Popped(s, p)) && Shape(Popped(s, p))
    ensures BeginResult(s, Popped(s, p), t, s.kind[p], Some(HeapSteps.Block(s, p)))
  {
    hide InvBut, Granted;
    PopAll(s, p, {});
    InvShape(Popped(s, p));
  }

  lemma BegunResult(s: State, t: Tid, bt: int)
    requires Shape(s) && Inv(s) && t !in s.threads && 0 <= bt < 8 && NoneFree(s, bt)
    ensures Inv(Begun(s, t, bt)) && Shape(Begun(s, t, bt)) && BeginResult(s, Begun(s, t, bt), t, bt, None)
    ensures Begun(s, t, bt) == s.(threads := s.threads[t := Started(bt)])
  {
    hide InvBut, NoneFree;
    BegunKeepsInv(s, t, bt);
    InvShape(Begun(s, t, bt));
  }

  /** The loop that threads a free list through a fresh page. */
  method LinkBlocks(mem: Memory, va: Addr, size: nat, n: nat) returns (m: Memory)
    requires n >= 1
    ensures m == Built(mem, va, size, n)
  {
    m := mem[va := 0];
    var i := 1;
    while i < n
      invariant 1 <= i <= n && m == Built(mem, va, size, i)
    {
      m := m[va + i * size := va + (i - 1) * size];
      i := i + 1;
    }
  }

  lemma PagedAll(s: State, t: Tid)
    requires Fields(s) && CanList(s, t) && 0 <= s.threads[t].bt < 8
    ensures |s.sizebases| == 8
    ensures
      var u, id := Paged(s, t), s.threads[t].id;
      && id in u.all && Fields(u) && InvBut(u, {id}) && u.nfree[id] > 0 && u.kind[id] == s.threads[t].bt
      && u.threads == s.threads - {t} && u.roots == s.roots
      && CanPop(u, id) && Fields(Popped(u, id)) && Inv(Popped(u, id))
      && Popped(u, id).threads == u.threads && Popped(u, id).roots == u.roots
      && Popped(u, id).mem == u.mem && Popped(u, id).use == u.use
      && Granted(s, Popped(u, id), HeapSteps.Block(u, id), s.threads[t].bt)
  {
    hide FreeLists, ListsOk, PagesOk, UsesOk, RefsOk, ThreadsOk, NotIdle, Granted, SameLive, Built, FullList;
    PagedKeepsInv(s, t);
    PagedSameLive(s, t);
    var u, id := Paged(s, t), s.threads[t].id;
    assert u.all[0] == id;
    SizeFacts(s.threads[t].bt);
    PopAll(u, id, {id});
    GrantedAfter(s, u, Popped(u, id), HeapSteps.Block(u, id), s.threads[t].bt);
  }

  lemma GrantedAfter(s: State, t: State, u: State, a: Addr, bt: int)
    requires Fields(s) && Fields(t) && Fields(u) && 0 <= bt < 8 && SameLive(s, t) && Granted(t, u, a, bt)
    ensures Granted(s, u, a, bt)
  {
    hide Size, Live;
  }

  ghost predicate AllRefsUsed(s: State)
    requires |s.roots| == 16
  {
    forall id :: 0 <= id < 4096 ==> R.Bit(s.roots, id)
  }

  /** Pageref pages once installed stay where they are. */
  ghost predicate KeepsRefPages(s: State, u: State) {
    |u.roots| == |s.roots| &&
    forall w :: 0 <= w < |s.roots| && s.roots[w].page != 0 ==> u.roots[w].page == s.roots[w].page
  }

  /** What thread t's stretch of an allocation of type bt amounts to. */
  ghost predicate AllocResult(s: State, u: State, t: Tid, bt: int, r: Outcome)
    requires Fields(s) && Fields(u) && 0 <= bt < 8
  {
    && KeepsRefPages(s, u)
    && match r
       case Block(a) => Granted(s, u, a, bt) && u.threads == s.threads - {t}
       case OutOfMemory(_) => SameLive(s, u) && u.threads == s.threads - {t}
       case LockDropped(_) =>
         && SameLive(s, u) && t in u.threads && u.threads == s.threads[t := u.threads[t]]
         && !u.threads[t].Started? && u.threads[t].bt == bt
  }

  ghost predicate GotPageResult(s: State, u: State, t: Tid, va: Addr, r: Outcome)
    requires Shape(s) && Shape(u) && t in s.threads
  {
    && AllocResult(s, u, t, s.threads[t].bt, r)
    && (r.OutOfMemory? <==> va == 0 || AllRefsUsed(s))
    && (r.OutOfMemory? ==> r.release == va)
    && (r.LockDropped? ==> r.release == 0 && u.threads[t].AwaitRefPage? && u.threads[t].va == va)
  }

  lemma GoneShape(s: State, t: Tid)
    requires Inv(s) && t in s.threads
    ensures Shape(s) && Inv(Gone(s, t)) && Shape(Gone(s, t)) && SameLive(s, Gone(s, t))
  {
    hide InvBut, SameLive;
    GoneKeepsInv(s, t);
    InvShape(s);
    InvShape(Gone(s, t));
  }

  lemma GoneGotPage(s: State, t: Tid, va: Addr)
    requires Inv(s) && Shape(s) && t in s.threads && (va == 0 || AllRefsUsed(s))
    ensures Inv(Gone(s, t)) && Shape(Gone(s, t)) && GotPageResult(s, Gone(s, t), t, va, OutOfMemory(va))
  {
    hide InvBut, SameLive, Fields, AllRefsUsed;
    GoneShape(s, t);
  }

  /** id is the lowest pageref not in use. */
  ghost predicate LowestFree(s: State, id: Id) {
    && |s.roots| == 16 && 0 <= id < 4096 && !R.Bit(s.roots, id)
    && forall k :: 0 <= k < id ==> R.Bit(s.roots, k)
  }

  lemma CanReserveHere(s: State, t: Tid, va: Addr, id: Id)
    requires Inv(s) && t in s.threads && s.threads[t].Started? && IsPage(va) && va !in s.use && LowestFree(s, id)
    ensures CanReserve(s, t, va, id) && HasRoot(s, t, id) && !AllRefsUsed(s)
  {
    InvFields(s);
    hide Inv, IsPage, RefsOk, PagesOk, UsesOk, ListsOk, ThreadsOk, FreeLists, R.Count;
    assert R.RootOk(s.roots[id / 256]);
  }

  /** A pageref and a page for thread t have been set aside. */
  ghost predicate SetAside(s: State, u: State, t: Tid, va: Addr)
    requires Fields(s) && Fields(u) && t in s.threads
  {
    && SameLive(s, u) && KeepsRefPages(s, u)
    && t in u.threads && u.threads == s.threads[t := u.threads[t]]
    && u.threads[t].bt == s.threads[t].bt && !u.threads[t].Started? && u.threads[t].va == va
  }

  lemma ReserveFacts(s: State, t: Tid, va: Addr, id: Id)
    requires CanReserve(s, t, va, id) && HasRoot(s, t, id)
    ensures Fields(s) && Inv(Reserved(s, t, va, id)) && Fields(Reserved(s, t, va, id))
    ensures SetAside(s, Reserved(s, t, va, id), t, va)
  {
    hide InvBut, SameLive, IsPage, R.Bit;
    ReserveKeepsInv(s, t, va, id);
    InvFields(s);
    hide PagesOk, UsesOk, ListsOk, ThreadsOk, FreeLists;
    TakeReady(s, id);
    InvFields(Reserved(s, t, va, id));
  }

  lemma Aside(s: State, t: Tid, va: Addr, id: Id) returns (u: State)
    requires Inv(s) && t in s.threads && s.threads[t].Started? && IsPage(va) && va !in s.use && LowestFree(s, id)
    ensures HasRoot(s, t, id) && u == Reserved(s, t, va, id) && !AllRefsUsed(s) && va != 0
    ensures Shape(s) && Inv(u) && Shape(u) && SetAside(s, u, t, va)
  {
    CanReserveHere(s, t, va, id);
    hide Inv, R.Bit;
    u := Reserved(s, t, va, id);
    ReserveFacts(s, t, va, id);
    InvShape(s);
    InvShape(u);
  }

  lemma ReservedKeys(s: State, t: Tid, va: Addr, id: Id)
    requires HasRoot(s, t, id)
    ensures
      var u := Reserved(s, t, va, id);
      u.mem == s.mem && u.use.Keys == s.use.Keys + {va} && t in u.threads && !u.threads[t].Started? && u.threads[t].va == va
  {
  }

  lemma GoneKeys(s: State, t: Tid)
    requires t in s.threads
    ensures
      var u := Gone(s, t);
      && u.mem == s.mem && (s.threads[t].Started? ==> u.use == s.use)
      && (!s.threads[t].Started? ==> u.use.Keys == s.use.Keys - {s.threads[t].va})
  {
  }

  lemma SetAsideBt(s: State, u: State, t: Tid, va: Addr)
    requires Shape(s) && Shape(u) && t in s.threads && SetAside(s, u, t, va)
    ensures t in u.threads && u.threads[t].bt == s.threads[t].bt && 0 <= s.threads[t].bt < 8
  {
  }

  lemma AsideReady(u: State, t: Tid)
    requires Inv(u) && t in u.threads && u.threads[t].HasRef?
    ensures CanList(u, t)
  {
  }

  lemma AsideGranted(s: State, u: State, v: State, t: Tid, va: Addr, a: Addr)
    requires Shape(s) && Shape(u) && Shape(v) && t in s.threads && SetAside(s, u, t, va)
    requires Granted(u, v, a, s.threads[t].bt) && va != 0 && !AllRefsUsed(s)
    requires v.threads == u.threads - {t} && v.roots == u.roots
    ensures GotPageResult(s, v, t, va, Block(a))
  {
    hide Granted, SameLive, Fields, AllRefsUsed;
    GrantedAfter(s, u, v, a, s.threads[t].bt);
    assert v.threads == s.threads - {t};
  }

  lemma AsideWaiting(s: State, u: State, t: Tid, va: Addr)
    requires Shape(s) && Shape(u) && t in s.threads && SetAside(s, u, t, va) && va != 0 && !AllRefsUsed(s)
    requires t in u.threads && u.threads[t].AwaitRefPage?
    ensures GotPageResult(s, u, t, va, LockDropped(0))
  {
    hide SameLive, Fields, AllRefsUsed;
  }

  ghost predicate ArriveResult(s: State, u: State, t: Tid, va: Addr, r: Outcome)
    requires Shape(s) && Shape(u) && t in s.threads && s.threads[t].AwaitRefPage? && 0 <= s.threads[t].id < 4096
  {
    var th := s.threads[t];
    var here := s.roots[th.id / 256].page;
    && AllocResult(s, u, t, th.bt, r)
    && (r.OutOfMemory? <==> va == 0 && here == 0)
    && (r.LockDropped? <==> va != 0 && here != 0)
    && u.roots[th.id / 256].page == (if here == 0 then va else here)
    && (r.OutOfMemory? ==> r.release == th.va && u.reserved == s.reserved)
    && (r.LockDropped? ==> r.release == va && u.threads[t] == HasRef(th.bt, th.va, th.id))
  }

  lemma AwaitFacts(s: State, t: Tid)
    requires Inv(s) && t in s.threads && s.threads[t].AwaitRefPage?
    ensures 0 <= s.threads[t].id < 4096
  {
    InvFields(s);
    hide Inv, PagesOk, UsesOk, ListsOk, FreeLists, RefsOk;
  }

  lemma GoneArrive(s: State, t: Tid)
    requires Inv(s) && Shape(s) && t in s.threads && s.threads[t].AwaitRefPage? && 0 <= s.threads[t].id < 4096
    requires s.roots[s.threads[t].id / 256].page == 0
    ensures Inv(Gone(s, t)) && Shape(Gone(s, t))
    ensures ArriveResult(s, Gone(s, t), t, 0, OutOfMemory(s.threads[t].va))
  {
    hide InvBut, SameLive, Fields;
    GoneShape(s, t);
  }

  /** m is s with the pageref page of thread t there. */
  ghost predicate RefPageThere(s: State, m: State, t: Tid, va: Addr)
    requires Shape(s) && Shape(m) && t in s.threads && s.threads[t].AwaitRefPage? && 0 <= s.threads[t].id < 4096
  {
    var w := s.threads[t].id / 256;
    && SameLive(s, m) && KeepsRefPages(s, m) && m.threads == s.threads
    && m.roots[w].page != 0 && m.roots[w].page == (if s.roots[w].page == 0 then va else s.roots[w].page)
  }

  lemma InstallFacts(s: State, t: Tid, va: Addr)
    requires Inv(s) && Shape(s) && t in s.threads && s.threads[t].AwaitRefPage? && 0 <= s.threads[t].id < 4096
    requires s.roots[s.threads[t].id / 256].page == 0 && IsPage(va) && va !in s.use
    ensures
      var m := RefPageIn(s, t, va);
      Shape(m) && Inv(m) && RefPageThere(s, m, t, va) && ReadyCan(m, t)
  {
    hide InvBut, SameLive, Fields;
    RefPageInKeepsInv(s, t, va);
    InvShape(RefPageIn(s, t, va));
    ReadyShape(RefPageIn(s, t, va), t);
  }

  lemma InstallKeys(s: State, t: Tid, va: Addr)
    requires t in s.threads && s.threads[t].AwaitRefPage? && 0 <= s.threads[t].id < 4096 && |s.roots| == 16
    ensures
      var m := RefPageIn(s, t, va);
      m.mem == s.mem && m.use.Keys == s.use.Keys + {va} && m.threads == s.threads
  {
  }

  lemma ReadyKeys(m: State, t: Tid)
    requires t in m.threads && m.threads[t].AwaitRefPage?
    ensures
      var u := Ready(m, t);
      u.mem == m.mem && u.use == m.use && t in u.threads && u.threads[t].HasRef? && u.threads[t].va == m.threads[t].va
  {
  }

  lemma PresentFacts(s: State, t: Tid)
    requires Inv(s) && Shape(s) && t in s.threads && s.threads[t].AwaitRefPage? && 0 <= s.threads[t].id < 4096
    requires s.roots[s.threads[t].id / 256].page != 0
    ensures ReadyCan(s, t) && forall va :: RefPageThere(s, s, t, va)
  {
    hide InvBut, Live, Fields;
    ReadyShape(s, t);
  }

  ghost predicate ReadyCan(m: State, t: Tid)
    requires Shape(m)
  {
    && t in m.threads && m.threads[t].AwaitRefPage? && Shape(Ready(m, t)) && CanList(Ready(m, t), t)
    && SameLive(m, Ready(m, t))
  }

  lemma ReadyShape(m: State, t: Tid)
    requires Inv(m) && Shape(m) && t in m.threads && m.threads[t].AwaitRefPage? && 0 <= m.threads[t].id < 4096
    requires m.roots[m.threads[t].id / 256].page != 0
    ensures ReadyCan(m, t)
  {
    hide InvBut, SameLive, Fields;
    ReadyKeepsInv(m, t);
    InvShape(Ready(m, t));
  }

  lemma ReadyIs(s: State, m: State, t: Tid, va: Addr)
    requires Shape(s) && Shape(m) && t in s.threads && s.threads[t].AwaitRefPage?
    requires 0 <= s.threads[t].id < 4096 && RefPageThere(s, m, t, va) && ReadyCan(m, t)
    ensures Inv(Ready(m, t)) && t in Ready(m, t).threads && Ready(m, t).threads[t].bt == s.threads[t].bt
  {
    hide Inv, SameLive, Fields;
  }

  lemma ReadyGranted(s: State, m: State, v: State, t: Tid, va: Addr, a: Addr)
    requires Shape(s) && Shape(m) && Shape(v) && t in s.threads && s.threads[t].AwaitRefPage?
    requires 0 <= s.threads[t].id < 4096 && RefPageThere(s, m, t, va) && ReadyCan(m, t)
    requires s.roots[s.threads[t].id / 256].page == 0 || va == 0
    requires Granted(Ready(m, t), v, a, s.threads[t].bt)
    requires v.threads == Ready(m, t).threads - {t} && v.roots == Ready(m, t).roots
    ensures ArriveResult(s, v, t, va, Block(a))
  {
    hide Inv, Granted, SameLive, Fields;
    GrantedAfter(m, Ready(m, t), v, a, s.threads[t].bt);
    GrantedAfter(s, m, v, a, s.threads[t].bt);
    assert v.threads == s.threads - {t};
  }

  lemma ReadyWaiting(s: State, t: Tid, va: Addr)
    requires Shape(s) && t in s.threads && s.threads[t].AwaitRefPage? && 0 <= s.threads[t].id < 4096
    requires ReadyCan(s, t) && s.roots[s.threads[t].id / 256].page != 0 && va != 0
    ensures ArriveResult(s, Ready(s, t), t, va, LockDropped(va))
  {
    hide Inv, SameLive, Fields;
  }

  predicate OnPage(page: Addr, a: Addr) {
    page <= a < page + 4096
  }

  ghost predicate OnNoPage(s: State, a: Addr)
    requires Fields(s)
  {
    forall p :: p in s.all ==> !OnPage(s.page[p], a)
  }

  /** fill_deadbeef(): every word of the block, and nothing else. */
  method FillDeadbeef(mem: Memory, a: Addr, words: nat) returns (m: Memory)
    ensures m == Filled(mem, a, words)
    ensures forall k :: 0 <= k < words ==> Load(m, a + 4 * k) == 0xdead_beef
    ensures WritesOnly(mem, m, a, 4 * words)
  {
    m := mem;
    var i := 0;
    while i < words
      invariant i <= words && m == Filled(mem, a, i) && WritesOnly(mem, m, a, 4 * i)
      invariant forall k :: 0 <= k < i ==> Load(m, a + 4 * k) == 0xdead_beef
    {
      m := m[a + 4 * i := 0xdeadbeef];
      i := i + 1;
    }
  }

  /** Page p is listed though all its blocks are free. */
  ghost predicate Idle(s: State, p: Id) {
    && Shape(s) && InvBut(s, {p}) && p in s.all && s.nfree[p] == Blocks(s.kind[p])
  }

  /** Some root has no page though all its pagerefs are reserved: 256
      allocations have lost, or are waiting for, its page. */
  ghost predicate Stuck(s: State) {
    exists w ::
      && 0 <= w < |s.roots| && s.roots[w].page == 0
      && forall k :: k / 256 == w ==> k in s.reserved
  }

  /** Page p is off both lists, its pageref is free, and no live block went
      with it. */
  ghost predicate PageLeft(s: State, u: State, p: Id)
    requires Shape(s) && Shape(u)
  {
    && SameLive(s, u) && KeepsRefPages(s, u) && u.threads == s.threads && u.reserved == s.reserved
    && (forall q :: q in u.all <==> q in s.all && q != p)
    && p in s.all && u.use == s.use - {s.page[p]} && u.mem == s.mem && !R.Bit(u.roots, p)
  }

  lemma IdleFacts(s: State, p: Id) returns (l: seq<Id>)
    requires Idle(s, p)
    ensures l == OfType(s.kind, s.all, s.kind[p]) && p in l && |s.roots| == 16
    ensures Listed(s.nextAll, s.allbase, s.all) && Listed(s.nextSame, s.sizebases[s.kind[p]], l)
    ensures R.Ok(s.roots) && R.Bit(s.roots, p) && s.roots[p / 256].page != 0
  {
    hide FreeLists, PagesOk, UsesOk, ThreadsOk, NotIdle, Size, Blocks, OfType, R.FirstFit, R.Count, Listed;
    l := OfType(s.kind, s.all, s.kind[p]);
    OfTypeMembers(s.kind, s.all, s.kind[p]);
    assert R.Bit(s.roots, p);
  }

  lemma UnlistedFacts(s: State, p: Id, i: nat, j: nat, l: seq<Id>)
    requires Idle(s, p) && l == OfType(s.kind, s.all, s.kind[p])
    requires i < |s.all| && s.all[i] == p && j < |l| && l[j] == p
    ensures CanCut(s, i, s.kind[p], l, j)
    ensures
      var m := OffLists(s, i, s.kind[p], l, j);
      && CanForget(m, i) && m.all == s.all && m.page == s.page && m.roots == s.roots
      && Forgotten(m, i) == m.(roots := R.Drop(m.roots, p), all := Cut(m.all, i), use := m.use - {m.page[p]})
      && Inv(Forgotten(m, i)) && Shape(Forgotten(m, i)) && PageLeft(s, Forgotten(m, i), p)
  {
    hide InvBut, OfType, R.Drop;
    assert CanUnlist(s, i, j);
    UnlistCan(s, i, j);
    UnlistKeepsInv(s, i, j);
    var u := Unlisted(s, i, j);
    InvShape(u);
    UnlistSameLive(s, i, j);
    UnlistDrops(s, i, j);
  }

  /** The block at a is the only live one of page p. */
  ghost predicate LastLive(s: State, p: Id, a: Addr)
    requires Fields(s)
  {
    LiveIn(s, p, a) && forall b :: LiveIn(s, p, b) ==> b == a
  }

  /** Freeing ptr panics: it is the last live block of its page, and a root
      before the one of the page's pageref has pagerefs in use but no page. */
  ghost predicate Panics(s: State, ptr: Addr)
    requires Shape(s)
  {
    exists p :: LastLive(s, p, ptr) && R.Blocked(s.roots, p)
  }

  /** A live block is the last one when all others are on the free list. */
  lemma LastIsCounted(s: State, p: Id, a: Addr)
    requires Fields(s) && FreeLists(s) && LiveIn(s, p, a)
    ensures LastLive(s, p, a) <==> s.nfree[p] + 1 == Blocks(s.kind[p])
  {
    assert PageOk(s, p);
    hide FreeLists, Size, Blocks, IsBlock, Linked;
    var page, bt, c := s.page[p], s.kind[p], [a] + s.chains[p];
    ChainLength(page, bt, c);
    if LastLive(s, p, a) {
      forall b | IsBlock(page, bt, b)
        ensures b in c
      {
        assert BlockIn(s, p, b);
        assert b in s.chains[p] || LiveIn(s, p, b);
        assert b in s.chains[p] || b == c[0];
      }
      EveryBlock(page, bt, c);
    }
    if |c| == Blocks(bt) {
      forall b | LiveIn(s, p, b)
        ensures b == a
      {
        FullChain(page, bt, c, b);
      }
    }
  }

  /** Only the page the block is on matters. */
  lemma PanicsHere(s: State, p: Id, ptr: Addr)
    requires Shape(s) && Inv(s) && p in s.all && OnPage(s.page[p], ptr) && LiveIn(s, p, ptr)
    ensures Panics(s, ptr) <==> s.nfree[p] + 1 == Blocks(s.kind[p]) && R.Blocked(s.roots, p)
  {
    InvFields(s);
    hide Inv, FreeLists, PagesOk, UsesOk, ListsOk, RefsOk, ThreadsOk, Size, Blocks, IsBlock, R.Blocked;
    LastIsCounted(s, p, ptr);
    if q :| LastLive(s, q, ptr) && R.Blocked(s.roots, q) {
      OneOwner(s, p, ptr, q);
    }
  }

  /** A heap in which kfree() panics: 256 allocations lost their pageref when
      no page could be had for root 0; then root 1 got its page, and pageref
      256 stands for a page with one live block of 2048 bytes. */
  ghost function StuckHeap(): State {
    State(
      map[4096 := 0], map[256 := 4096], map[256 := 7], map[256 := 0], map[256 := 1],
      map[256 := None], map[256 := None], seq(8, b => if b == 7 then Some(256) else None), Some(256),
      R.StuckRoots(8192), map[],
      [256], map[256 := [4096]], set k: Id | 0 <= k < 256 && R.Bit(R.StuckRoots(8192), k),
      map[4096 := HeapPage(256), 8192 := RefPage(1)])
  }

  lemma KfreeCanPanic()
    ensures Inv(StuckHeap()) && Shape(StuckHeap()) && Panics(StuckHeap(), 4096 + 2048)
  {
    var s := StuckHeap();
    StuckLists();
    StuckPages();
    StuckUses();
    StuckRefs();
    hide ListsOk, FreeLists, PagesOk, UsesOk, RefsOk, R.StuckRoots, R.Blocked, R.Bit;
    LastIsCounted(s, 256, 6144);
  }

  lemma StuckPages()
    ensures Fields(StuckHeap()) && FreeLists(StuckHeap()) && LiveIn(StuckHeap(), 256, 6144)
  {
    hide R.StuckRoots, R.Bit;
    assert PageOk(StuckHeap(), 256);
  }

  lemma StuckUses()
    ensures Fields(StuckHeap()) && PagesOk(StuckHeap()) && UsesOk(StuckHeap())
  {
    R.PanicCanHappen(8192);
    hide R.StuckRoots, R.FirstFit, R.Bit, R.Blocked;
  }

  lemma StuckRefs()
    ensures |StuckHeap().roots| == 16 && RefsOk(StuckHeap()) && R.Blocked(StuckHeap().roots, 256)
  {
    R.PanicCanHappen(8192);
    var s := StuckHeap();
    assert s.all == [256] && s.roots == R.StuckRoots(8192);
    hide R.StuckRoots, R.FirstFit, R.Bit, R.Blocked;
  }

  lemma StuckLists()
    ensures Fields(StuckHeap()) && ListsOk(StuckHeap())
  {
    hide R.StuckRoots, R.Bit;
    var s := StuckHeap();
    forall b | 0 <= b < 8
      ensures Listed(s.nextSame, s.sizebases[b], OfType(s.kind, s.all, b))
    {
      var none: seq<Id> := [];
      assert s.all[1..] == none;
      assert OfType(s.kind, none, b) == none;
      assert OfType(s.kind, s.all, b) == if b == 7 then [256] else none;
    }
  }

  lemma NoBlockNoPanic(s: State, ptr: Addr)
    requires Shape(s) && forall p :: !BlockIn(s, p, ptr)
    ensures !Panics(s, ptr)
  {
    hide R.Blocked;
  }

  lemma OffPageNoBlock(s: State, ptr: Addr)
    requires Shape(s) && OnNoPage(s, ptr)
    ensures forall p :: !BlockIn(s, p, ptr)
  {
    hide Size;
  }

  /** Freeing panics only when some root has no page though all its 256
      pagerefs are reserved. */
  lemma PanicMeansStuck(s: State, ptr: Addr)
    requires Shape(s) && Inv(s) && Panics(s, ptr)
    ensures Stuck(s)
  {
    InvFields(s);
    hide Inv, FreeLists, PagesOk, UsesOk, ThreadsOk, ListsOk, NotIdle, Size, Blocks, R.Count, R.FirstFit, R.Ok, IsBlock;
    var p :| LastLive(s, p, ptr) && R.Blocked(s.roots, p);
    var w :| 0 <= w < p / 256 && s.roots[w].page == 0 && s.roots[w].numinuse != 0;
    assert R.Bit(s.roots, p);
    R.PanicNeedsFullRoot(s.roots, p, w);
    forall k | k / 256 == w
      ensures k in s.reserved
    {
      assert R.Bit(s.roots, k);
    }
  }

  /** subpage_kfree() frees exactly the block at ptr; a page goes back to
      free_kpages() only after it has left both lists with no live block. */
  ghost predicate FreeResult(s: State, u: State, ptr: Addr, r: FreeOutcome)
    requires Shape(s) && Shape(u)
  {
    && (r.NotOurs? <==> OnNoPage(s, ptr))
    && (r.BadAddress? <==> !OnNoPage(s, ptr) && forall p :: !BlockIn(s, p, ptr))
    && (r.NotOurs? || r.BadAddress? ==> u == s)
    && (r.Freed? || r.FreedPage? ==>
          && Released(s, u, ptr) && KeepsRefPages(s, u) && u.threads == s.threads && u.reserved == s.reserved
          && (exists n :: Live(s, ptr, n)))
    && (r.Freed? ==> u.all == s.all && u.page == s.page && u.use == s.use)
    && (r.FreedPage? ==> OnPage(r.page, ptr) && r.page in s.use && u.use == s.use - {r.page})
    && (r.Freed? || r.FreedPage? ==> FreeWrites(s, u, ptr))
  }

  /** Nothing outside the freed block was written to. */
  ghost predicate FreeWrites(s: State, u: State, ptr: Addr)
    requires Fields(s)
  {
    forall n :: Live(s, ptr, n) ==> WritesOnly(s.mem, u.mem, ptr, n)
  }

  lemma PushWrites(s: State, p: Id, ptr: Addr)
    requires Shape(s) && Inv(s) && CanPush(s, p, ptr) && LiveIn(s, p, ptr)
    ensures FreeWrites(s, Pushed(s, p, ptr), ptr)
  {
    hide Inv, Size, Returned, WritesOnly;
    var size := Size(s.kind[p]);
    SizeFacts(s.kind[p]);
    ReturnedWritesOnly(s.mem, ptr, size, Head(s.page[p], s.offset[p]));
    assert Live(s, ptr, size);
    forall n | Live(s, ptr, n)
      ensures n == size
    {
      LiveOnce(s, ptr, n, ptr, size);
    }
  }

  lemma NotOursFacts(s: State, ptr: Addr)
    requires Shape(s) && OnNoPage(s, ptr)
    ensures FreeResult(s, s, ptr, NotOurs)
  {
    hide Size;
  }

  lemma FoundFacts(s: State, p: Id)
    requires Shape(s) && p in s.all
    ensures p in s.page && p in s.kind && p in s.nfree && 0 <= s.kind[p] < 8 && Size(s.kind[p]) > 0
  {
    SizeFacts(s.kind[p]);
  }

  lemma OneOwner(s: State, p: Id, ptr: Addr, q: Id)
    requires Shape(s) && Inv(s) && p in s.all && OnPage(s.page[p], ptr) && BlockIn(s, q, ptr)
    ensures q == p
  {
    InvFields(s);
    hide Inv, FreeLists, PagesOk, UsesOk, ListsOk, RefsOk, ThreadsOk;
    if q != p {
      TwoPages(s, p, q);
    }
  }

  lemma BadAddressFacts(s: State, p: Id, ptr: Addr)
    requires Shape(s) && Inv(s) && p in s.all && OnPage(s.page[p], ptr)
    requires Size(s.kind[p]) > 0 && (ptr - s.page[p]) % Size(s.kind[p]) != 0
    ensures FreeResult(s, s, ptr, BadAddress)
  {
    hide InvBut, Size;
    forall q
      ensures !BlockIn(s, q, ptr)
    {
      if BlockIn(s, q, ptr) {
        OneOwner(s, p, ptr, q);
      }
    }
  }

  lemma PushFacts(s: State, p: Id, ptr: Addr)
    requires Shape(s) && Inv(s) && p in s.all && OnPage(s.page[p], ptr)
    requires Size(s.kind[p]) > 0 && (ptr - s.page[p]) % Size(s.kind[p]) == 0
    requires forall q :: BlockIn(s, q, ptr) ==> LiveIn(s, q, ptr)
    ensures CanPush(s, p, ptr) && LiveIn(s, p, ptr)
    ensures
      var m := Pushed(s, p, ptr);
      && Shape(m) && InvBut(m, {p}) && Released(s, m, ptr) && m.kind == s.kind && m.page == s.page && p in m.nfree
      && m.roots == s.roots && m.nfree[p] == s.nfree[p] + 1
      && (m.nfree[p] == Blocks(s.kind[p]) ==> Idle(m, p))
      && (m.nfree[p] != Blocks(s.kind[p]) ==> Inv(m))
  {
    assert BlockIn(s, p, ptr);
    hide FreeLists, PagesOk, UsesOk, ListsOk, RefsOk, ThreadsOk, Size, IsBlock, Released;
    PushKeepsInv(s, p, ptr);
    PushReleases(s, p, ptr);
  }

  lemma FreedFacts(s: State, p: Id, ptr: Addr)
    requires Shape(s) && Inv(s) && CanPush(s, p, ptr) && LiveIn(s, p, ptr)
    requires Shape(Pushed(s, p, ptr)) && Released(s, Pushed(s, p, ptr), ptr)
    ensures FreeResult(s, Pushed(s, p, ptr), ptr, Freed)
  {
    PushWrites(s, p, ptr);
    hide Released, Size, IsBlock, FreeWrites, Inv;
    LiveFacts(s, p, ptr);
  }

  lemma LiveFacts(s: State, p: Id, ptr: Addr)
    requires Shape(s) && LiveIn(s, p, ptr)
    ensures !OnNoPage(s, ptr) && exists n :: Live(s, ptr, n)
  {
    hide Size;
    assert OnPage(s.page[p], ptr);
    assert Live(s, ptr, Size(s.kind[p]));
  }

  lemma PageFreedFacts(s: State, m: State, u: State, p: Id, ptr: Addr)
    requires Shape(s) && Shape(m) && Shape(u) && Inv(s) && CanPush(s, p, ptr) && LiveIn(s, p, ptr)
    requires m == Pushed(s, p, ptr) && Released(s, m, ptr) && PageLeft(m, u, p)
    ensures FreeResult(s, u, ptr, FreedPage(s.page[p]))
  {
    hide Inv, Released, FreeResult, PageLeft, FreeWrites;
    PushWrites(s, p, ptr);
    PushedFields(s, p, ptr);
    LiveFacts(s, p, ptr);
    ListedUse(s, p);
    PageFreedResult(s, m, u, p, ptr);
  }

  lemma ListedUse(s: State, p: Id)
    requires Inv(s) && Fields(s) && p in s.all
    ensures s.page[p] in s.use
  {
    hide FreeLists, ListsOk, RefsOk, ThreadsOk, UsesOk, NotIdle;
  }

  lemma PushedFields(s: State, p: Id, ptr: Addr)
    requires CanPush(s, p, ptr)
    ensures
      var m := Pushed(s, p, ptr);
      m == s.(mem := m.mem, offset := m.offset, nfree := m.nfree, chains := m.chains)
  {
    hide Returned;
  }

  lemma PageFreedResult(s: State, m: State, u: State, p: Id, ptr: Addr)
    requires Shape(s) && Shape(m) && Shape(u) && LiveIn(s, p, ptr) && s.page[p] in s.use
    requires m == s.(mem := m.mem, offset := m.offset, nfree := m.nfree, chains := m.chains)
    requires Released(s, m, ptr) && PageLeft(m, u, p) && FreeWrites(s, m, ptr)
    requires !OnNoPage(s, ptr) && exists n :: Live(s, ptr, n)
    ensures FreeResult(s, u, ptr, FreedPage(s.page[p]))
  {
    hide Size, Live, Fields, WritesOnly, R.Bit;
  }

  lemma BadAddressNoPanic(s: State, ptr: Addr)
    requires Shape(s) && FreeResult(s, s, ptr, BadAddress)
    ensures !Panics(s, ptr)
  {
    hide Panics, Released, Size;
    NoBlockNoPanic(s, ptr);
  }

  // Blocks of whole pages.

  /** The page count kmalloc() computes; the sum is a 32-bit size_t. */
  function NPages(sz: nat): nat {
    (sz + 4095) % 0x1_0000_0000 / 4096
  }

  /** The pages cover the request exactly when the rounding does not wrap. */
  lemma NPagesCover(sz: nat)
    requires 0 < sz < 0x1_0000_0000
    ensures NPages(sz) * 4096 >= sz <==> sz <= 0x1_0000_0000 - 4096
    ensures sz <= 0x1_0000_0000 - 4096 ==> (NPages(sz) - 1) * 4096 < sz
  {
    if sz > 0x1_0000_0000 - 4096 {
      assert (sz + 4095) % 0x1_0000_0000 == sz + 4095 - 0x1_0000_0000;
    }
  }

  /** A request in the last page of the 32-bit range gets no page at all. */
  lemma NPagesWraps()
    ensures NPages(0xffff_ffff) == 0
  {
  }

  /** The k-th page from a on. */
  function PageAt(a: Addr, k: int): Addr {
    a + 4096 * k
  }

  lemma PagesFollow(a: Addr, k: int)
    ensures PageAt(a, 0) == a && PageAt(a, k + 1) == PageAt(a, k) + 4096
  {
  }

  ghost predicate FreshPages(s: State, a: Addr, n: nat) {
    forall k :: 0 <= k < n ==> PageAt(a, k) !in s.use
  }

  ghost function BigUse(use: map<Addr, Use>, a: Addr, n: nat): map<Addr, Use> {
    if n == 0 then use else BigUse(use, a, n - 1)[PageAt(a, n - 1) := Big(a)]
  }

  ghost function WithoutBig(use: map<Addr, Use>, a: Addr): map<Addr, Use> {
    map x | x in use && use[x] != Big(a) :: use[x]
  }

  /** The n pages from a on belong to the block at a; no other page's use is
      new or changed. */
  ghost predicate MarksBig(use: map<Addr, Use>, use': map<Addr, Use>, a: Addr, n: nat) {
    && (forall k :: 0 <= k < n ==> PageAt(a, k) in use' && use'[PageAt(a, k)] == Big(a))
    && (forall x :: x in use ==> x in use' && use'[x] == use[x])
    && (forall x :: x in use' && x !in use ==> exists k :: 0 <= k < n && x == PageAt(a, k))
  }

  /** No page belongs to the block at a any more; no other page's use is new
      or changed. */
  ghost predicate ClearsBig(use: map<Addr, Use>, use': map<Addr, Use>, a: Addr) {
    && (forall x :: x in use' ==> x in use && use'[x] == use[x] != Big(a))
    && (forall x :: x in use && use[x] != Big(a) ==> x in use')
  }

  lemma {:induction false} BigUseMarks(s: State, a: Addr, n: nat)
    requires FreshPages(s, a, n)
    ensures MarksBig(s.use, BigUse(s.use, a, n), a, n)
  {
    if n > 0 {
      BigUseMarks(s, a, n - 1);
      var before, after, last := BigUse(s.use, a, n - 1), BigUse(s.use, a, n), PageAt(a, n - 1);
      assert last !in s.use;
      hide PageAt, BigUse;
      forall x | x in after && x !in s.use
        ensures exists k :: 0 <= k < n && x == PageAt(a, k)
      {
        if x != last {
          var k :| 0 <= k < n - 1 && x == PageAt(a, k);
        }
      }
    }
  }

  /** Freeing what was allocated gives the old uses back. */
  lemma BigRoundTrip(s: State, u: State, v: State, a: Addr, n: nat)
    requires Inv(s) && a !in s.use && MarksBig(s.use, u.use, a, n) && ClearsBig(u.use, v.use, a)
    ensures v.use == s.use
  {
    BigsOk(s);
    hide Inv, PageAt;
    forall x | x in s.use
      ensures x in v.use && v.use[x] == s.use[x]
    {
      assert s.use[x] != Big(a) && x in u.use;
    }
    assert forall x :: x in v.use ==> x in s.use;
  }

  /** Only the uses of pages in no other hands changed. */
  lemma UseKeepsInv(s: State, use': map<Addr, Use>)
    requires Shape(s) && Inv(s)
    requires forall x :: x in s.use && !s.use[x].Big? ==> x in use' && use'[x] == s.use[x]
    requires forall x :: x in use' ==> (x in s.use && use'[x] == s.use[x]) || use'[x].Big?
    requires forall x :: x in use' && use'[x].Big? ==> use'[x].start in use' && use'[use'[x].start] == use'[x]
    ensures Inv(s.(use := use')) && Shape(s.(use := use')) && SameLive(s, s.(use := use'))
  {
    var u := s.(use := use');
    SameListsKeeps(s, u);
    assert UsesOk(u) by {
      assert forall x :: x in use' && !use'[x].Big? ==> UseOk(s, x, s.use[x]);
    }
    hide FreeLists, ListsOk, ThreadsOk, NotIdle, SameLive, R.Ok, R.FirstFit, R.Bit, IsPage, UsesOk;
    assert ThreadsOk(u) by {
      SameThreads(s, use');
    }
  }

  lemma SameThreads(s: State, use': map<Addr, Use>)
    requires |s.roots| == 16 && ThreadsOk(s)
    ensures ThreadsOk(s.(use := use'))
  {
  }

  lemma BigsOk(s: State)
    requires Inv(s)
    ensures forall x :: x in s.use && s.use[x].Big? ==> s.use[x].start in s.use && s.use[s.use[x].start] == s.use[x]
  {
    hide FreeLists, ListsOk, PagesOk, RefsOk, ThreadsOk, NotIdle;
    assert forall x :: x in s.use ==> UseOk(s, x, s.use[x]);
  }

  lemma MarkedBigs(use: map<Addr, Use>, use': map<Addr, Use>, a: Addr, n: nat)
    requires MarksBig(use, use', a, n)
    requires forall x :: x in use && use[x].Big? ==> use[x].start in use && use[use[x].start] == use[x]
    ensures forall x :: x in use ==> x in use' && use'[x] == use[x]
    ensures forall x :: x in use' ==> (x in use && use'[x] == use[x]) || use'[x] == Big(a)
    ensures forall x :: x in use' && use'[x].Big? ==> use'[x].start in use' && use'[use'[x].start] == use'[x]
  {
    forall x | x in use' && x !in use
      ensures use'[x] == Big(a) && a in use' && use'[a] == Big(a)
    {
      assert PageAt(a, 0) == a;
    }
    hide PageAt;
  }

  lemma BigKeepsInv(s: State, a: Addr, n: nat)
    requires Shape(s) && Inv(s) && FreshPages(s, a, n)
    ensures
      var u := s.(use := BigUse(s.use, a, n));
      Inv(u) && Shape(u) && SameLive(s, u) && MarksBig(s.use, u.use, a, n)
  {
    hide InvBut, Fields, SameLive, BigUse, FreshPages;
    BigsOk(s);
    BigUseMarks(s, a, n);
    assert PageAt(a, 0) == a;
    MarkedBigs(s.use, BigUse(s.use, a, n), a, n);
    hide MarksBig;
    UseKeepsInv(s, BigUse(s.use, a, n));
  }

  lemma BigFreeKeepsInv(s: State, a: Addr)
    requires Shape(s) && Inv(s)
    ensures
      var u := s.(use := WithoutBig(s.use, a));
      Inv(u) && Shape(u) && SameLive(s, u) && ClearsBig(s.use, u.use, a)
  {
    hide InvBut, Fields, SameLive;
    BigsOk(s);
    UseKeepsInv(s, WithoutBig(s.use, a));
  }

  ghost predicate IsLive(s: State, ptr: Addr)
    requires Fields(s)
  {
    exists p :: LiveIn(s, p, ptr)
  }

  ghost predicate IsBig(s: State, ptr: Addr) {
    IsPage(ptr) && ptr in s.use && s.use[ptr] == Big(ptr)
  }

  /** A live block or a big one never looks like a free block. */
  lemma CanFree(s: State, ptr: Addr)
    requires Shape(s) && Inv(s) && (IsLive(s, ptr) || IsBig(s, ptr))
    ensures forall p :: BlockIn(s, p, ptr) ==> LiveIn(s, p, ptr)
    ensures IsLive(s, ptr) ==> exists p :: BlockIn(s, p, ptr)
    ensures IsBig(s, ptr) ==> OnNoPage(s, ptr)
  {
    InvFields(s);
    hide Inv, FreeLists, ListsOk, RefsOk, ThreadsOk, Size;
    if IsLive(s, ptr) {
      var q :| LiveIn(s, q, ptr);
      forall p | BlockIn(s, p, ptr)
        ensures LiveIn(s, p, ptr)
      {
        OneOwner(s, q, ptr, p);
      }
    }
    if IsBig(s, ptr) {
      forall p | p in s.all
        ensures !OnPage(s.page[p], ptr)
      {
        assert s.use[s.page[p]] == HeapPage(p);
        PagesApart(s.page[p], ptr);
      }
    }
  }

  lemma SubpageFreed(s: State, u: State, ptr: Addr, r: FreeOutcome)
    requires Shape(s) && Shape(u) && Inv(s) && (IsLive(s, ptr) || IsBig(s, ptr)) && FreeResult(s, u, ptr, r)
    requires !r.Panicked?
    ensures u.threads == s.threads && u.reserved == s.reserved
    ensures IsLive(s, ptr) ==> !r.NotOurs? && Released(s, u, ptr) && FreeWrites(s, u, ptr)
    ensures IsBig(s, ptr) ==> r.NotOurs? && !IsLive(s, ptr)
    ensures r.NotOurs? ==> u == s
  {
    hide Inv, Released, Size, Fields, WritesOnly;
    CanFree(s, ptr);
    if p :| LiveIn(s, p, ptr) {
      LiveFacts(s, p, ptr);
    }
  }

  lemma NullIsNothing(s: State)
    requires Shape(s) && Inv(s)
    ensures !IsLive(s, 0) && !IsBig(s, 0) && !Panics(s, 0)
  {
    InvFields(s);
    hide Inv, FreeLists, ListsOk, RefsOk, ThreadsOk, Size, R.Blocked;
    NoBlockNoPanic(s, 0);
  }

  /** A page that is not on the heap's lists holds no live block: what is
      written to it on the way there disturbs nobody. */
  lemma LiveElsewhere(s: State, va: Addr, a: Addr, n: nat)
    requires Shape(s) && Inv(s) && IsPage(va) && Live(s, a, n)
    requires va in s.use ==> !s.use[va].HeapPage?
    ensures a + n <= va || va + 4096 <= a
  {
    InvFields(s);
    hide Inv, FreeLists, ListsOk, RefsOk, ThreadsOk, UsesOk, Size;
    var p :| LiveIn(s, p, a) && n == Size(s.kind[p]);
    BlocksAreDisjoint(s, p, a, p, a);
    assert s.use[s.page[p]] == HeapPage(p);
    PagesApart(s.page[p], va);
  }

  class Kheap {
    var mem: Memory
    var page: map<Id, Addr>
    var kind: map<Id, int>
    var offset: map<Id, int>
    var nfree: map<Id, int>
    var nextSame: Links
    var nextAll: Links
    var sizebases: seq<Option<Id>>
    var allbase: Option<Id>
    var roots: seq<R.Root>
    var threads: map<Tid, Phase>
    ghost var all: seq<Id>
    ghost var chains: map<Id, seq<Addr>>
    ghost var reserved: set<Id>
    ghost var use: map<Addr, Use>

    ghost function S(): State
      reads this
    {
      State(mem, page, kind, offset, nfree, nextSame, nextAll, sizebases, allbase, roots, threads,
            all, chains, reserved, use)
    }

    ghost predicate Valid()
      reads this
    {
      Shape(S()) && Inv(S())
    }

    constructor ()
      ensures Valid() && use == map[] && threads == map[]
      ensures forall a, n :: !Live(S(), a, n)
    {
      mem, page, kind, offset, nfree := map[], map[], map[], map[], map[];
      nextSame, nextAll, sizebases, allbase := map[], map[], seq(8, i => None), None;
      roots := seq(16, i => R.Root(0, seq(256, j => false), 0));
      threads, all, chains, reserved, use := map[], [], map[], {}, map[];
      new;
      R.CountNone(seq(256, j => false));
    }

    /** doalloc: hand out the first free block of a page. */
    method TakeBlock(pr: Id) returns (a: Addr)
      requires CanPop(S(), pr)
      modifies this
      ensures a == HeapSteps.Block(old(S()), pr) && S() == Popped(old(S()), pr)
    {
      a := page[pr] + offset[pr];
      var next := Load(mem, a);
      nfree := nfree[pr := nfree[pr] - 1];
      offset := offset[pr := if next != 0 then next - page[pr] else INVALID_OFFSET];
      chains := chains[pr := chains[pr][1..]];
    }

    /** The search of the size list. */
    method FindFree(bt: int) returns (pr: Option<Id>)
      requires Valid() && 0 <= bt < 8
      ensures pr.None? ==> NoneFree(S(), bt)
      ensures pr.Some? ==> pr.value in all && kind[pr.value] == bt && nfree[pr.value] > 0
    {
      InvFields(S());
      ghost var l := OfType(kind, all, bt);
      OfTypeMembers(kind, all, bt);
      hide Inv, FreeLists, PagesOk, UsesOk, RefsOk, ThreadsOk, OfType;
      ghost var i := 0;
      pr := sizebases[bt];
      while pr.Some?
        invariant i <= |l| && pr == At(l, i) && forall k :: 0 <= k < i ==> nfree[l[k]] == 0
        decreases |l| - i
      {
        assert pr.value in l;
        if nfree[pr.value] > 0 {
          return;
        }
        pr := nextSame[pr.value];
        i := i + 1;
      }
    }

    /** subpage_kmalloc() up to its first unlock: a free block of the best
        fitting type if some page has one. */
    method Begin(t: Tid, sz: nat) returns (bt: int, r: Option<Addr>)
      requires Valid() && t !in threads && sz < 2048
      modifies this
      ensures Valid() && BestFit(sz, bt) && BeginResult(old(S()), S(), t, bt, r)
    {
      hide Inv, Fields, NoneFree, BestFit, Size, CanPop, Popped, Begun, BeginResult, HeapSteps.Block;
      ghost var s := S();
      bt := BlockType(sz);
      BestFitType(sz, bt);
      var pr := FindFree(bt);
      if pr.Some? {
        PopResult(s, t, pr.value);
        var a := TakeBlock(pr.value);
        r := Some(a);
      } else {
        BegunResult(s, t, bt);
        threads := threads[t := Started(bt)];
        assert S() == s.(threads := threads);
        r := None;
      }
    }

    /** Fill in the pageref of a fresh page: all its blocks free. */
    method InitPageref(id: Id, va: Addr, bt: int)
      requires 0 <= bt < 8
      modifies this
      ensures S() == Initialised(old(S()), id, va, bt)
    {
      hide Built, FullList, Size, Blocks;
      SizeFacts(bt);
      var size, n := Size(bt), Blocks(bt);
      mem := LinkBlocks(mem, va, size, n);
      page, kind := page[id := va], kind[id := bt];
      offset, nfree := offset[id := (n - 1) * size], nfree[id := n];
    }

    /** Put a page first on both lists. */
    method PushPage(id: Id, bt: int)
      requires 0 <= bt < |sizebases|
      modifies this
      ensures S() == OnLists(old(S()), id, bt)
    {
      nextSame := nextSame[id := sizebases[bt]];
      sizebases := sizebases[bt := Some(id)];
      nextAll := nextAll[id := allbase];
      allbase := Some(id);
    }

    ghost method NotePage(t: Tid)
      requires t in threads && threads[t].HasRef? && 0 <= threads[t].bt < 8
      modifies this
      ensures S() == Noted(old(S()), t)
    {
      var id, va, bt := threads[t].id, threads[t].va, threads[t].bt;
      all, chains := [id] + all, chains[id := FullList(va, Size(bt), Blocks(bt))];
      reserved, use := reserved - {id}, use[va := HeapPage(id)];
    }

    method ListPage(t: Tid)
      requires t in threads && threads[t].HasRef? && 0 <= threads[t].bt < |sizebases| == 8
      modifies this
      ensures S() == Paged(old(S()), t)
    {
      hide Built, FullList, Size, Blocks;
      ghost var s := S();
      var th := threads[t];
      InitPageref(th.id, th.va, th.bt);
      PushPage(th.id, th.bt);
      NotePage(t);
      threads := threads - {t};
    }

    /** subpage_kmalloc() once the pageref is at hand. */
    method FinishAlloc(t: Tid) returns (a: Addr)
      requires Fields(S()) && CanList(S(), t) && 0 <= threads[t].bt < 8
      modifies this
      ensures Fields(S()) && Inv(S()) && Granted(old(S()), S(), a, old(threads)[t].bt)
      ensures threads == old(threads) - {t} && roots == old(roots)
      ensures WritesOnly(old(mem), mem, old(threads)[t].va, 4096) && use.Keys == old(use).Keys
    {
      hide Inv, InvBut, Granted, Paged, Popped, CanPop, WritesOnly;
      var id := threads[t].id;
      PagedAll(S(), t);
      PagedWrites(S(), t);
      ListPage(t);
      a := TakeBlock(id);
    }

    method Leave(t: Tid)
      requires t in threads
      modifies this
      ensures S() == Gone(old(S()), t)
    {
      use := if threads[t].Started? then use else use - {threads[t].va};
      threads := threads - {t};
    }

    /** allocpageref() up to its unlock. */
    method ReserveRef(t: Tid, va: Addr, id: Id)
      requires HasRoot(S(), t, id)
      modifies this
      ensures S() == Reserved(old(S()), t, va, id)
    {
      hide R.Take;
      var bt, absent := threads[t].bt, roots[id / 256].page == 0;
      roots := R.Take(roots, id);
      threads := threads[t := if absent then AwaitRefPage(bt, va, id) else HasRef(bt, va, id)];
      reserved, use := reserved + {id}, use[va := InFlight(t)];
    }

    /** subpage_kmalloc() with a page and a clear pageref bit found. */
    method UseRef(t: Tid, va: Addr, id: Id, ghost u: State) returns (r: Outcome)
      requires Shape(S()) && HasRoot(S(), t, id) && u == Reserved(S(), t, va, id)
      requires Inv(u) && Shape(u) && SetAside(S(), u, t, va) && va != 0 && !AllRefsUsed(S())
      modifies this
      ensures Shape(S()) && Inv(S()) && GotPageResult(old(S()), S(), t, va, r)
      ensures r.Block? ==> WritesOnly(old(mem), mem, va, 4096)
      ensures !r.Block? ==> mem == old(mem)
      ensures use.Keys == old(use).Keys + {va} && !r.OutOfMemory?
    {
      ReservedKeys(S(), t, va, id);
      hide Inv, Granted, SameLive, Reserved, WritesOnly, AllRefsUsed, Fields, GotPageResult, CanList, Gone;
      ghost var s := S();
      SetAsideBt(s, u, t, va);
      ReserveRef(t, va, id);
      if threads[t].HasRef? {
        AsideReady(u, t);
        var a := FinishAlloc(t);
        r := Block(a);
        InvShape(S());
        AsideGranted(s, u, S(), t, va, a);
      } else {
        r := LockDropped(0);
        AsideWaiting(s, u, t, va);
      }
    }

    /** allocpageref()'s search. */
    method FindRef() returns (found: Option<Id>)
      requires Valid()
      ensures found.None? <==> AllRefsUsed(S())
      ensures found.Some? ==> LowestFree(S(), found.value)
    {
      hide Inv, Fields;
      InvShape(S());
      found := R.FindClear(roots);
    }

    /** subpage_kmalloc() after alloc_kpages() returned va (0: out of memory):
        it fails exactly when there is no page or no pageref. */
    method GotPage(t: Tid, va: Addr) returns (r: Outcome)
      requires Valid() && t in threads && threads[t].Started?
      requires va == 0 || (IsPage(va) && va !in use)
      modifies this
      ensures Valid() && GotPageResult(old(S()), S(), t, va, r)
      ensures r.Block? ==> WritesOnly(old(mem), mem, va, 4096)
      ensures !r.Block? ==> mem == old(mem)
      ensures use.Keys == old(use).Keys + if r.OutOfMemory? then {} else {va}
    {
      hide WritesOnly, Inv, IsPage, Gone, Reserved, SetAside, AllRefsUsed, Fields, HasRoot, GotPageResult, LowestFree;
      ghost var s := S();
      var found := FindRef();
      if va == 0 || found.None? {
        GoneGotPage(s, t, va);
        GoneKeys(s, t);
        Leave(t);
        return OutOfMemory(va);
      }
      ghost var u := Aside(s, t, va, found.value);
      r := UseRef(t, va, found.value, u);
    }

    method InstallRefPage(t: Tid, va: Addr)
      requires t in threads && threads[t].AwaitRefPage? && 0 <= threads[t].id < 4096 && |roots| == 16
      modifies this
      ensures S() == RefPageIn(old(S()), t, va)
    {
      var w := threads[t].id / 256;
      roots := roots[w := roots[w].(page := va)];
      use := use[va := RefPage(w)];
    }

    method MakeReady(t: Tid)
      requires t in threads && threads[t].AwaitRefPage?
      modifies this
      ensures S() == Ready(old(S()), t)
    {
      var th := threads[t];
      threads := threads[t := HasRef(th.bt, th.va, th.id)];
    }

    /** allocpagerefpage() after alloc_kpages() returned va, and what follows
        until the next unlock. The page is installed only if the root still
        has none; a surplus one is given back with the lock dropped. */
    method RefPageArrived(t: Tid, va: Addr) returns (r: Outcome)
      requires Valid() && t in threads && threads[t].AwaitRefPage?
      requires va == 0 || (IsPage(va) && va !in use)
      modifies this
      ensures Valid() && ArriveResult(old(S()), S(), t, va, r)
      ensures r.Block? ==> WritesOnly(old(mem), mem, old(threads)[t].va, 4096)
      ensures !r.Block? ==> mem == old(mem)
      ensures r.OutOfMemory? ==> use.Keys == old(use).Keys - {old(threads)[t].va}
      ensures r.Block? ==> use.Keys == old(use).Keys + if va == 0 then {} else {va}
      ensures r.LockDropped? ==> use == old(use)
    {
      hide WritesOnly, Inv, IsPage, Gone, Ready, RefPageIn, Fields, ArriveResult, CanList;
      ghost var s := S();
      AwaitFacts(s, t);
      var absent := roots[threads[t].id / 256].page == 0;
      if absent && va == 0 {
        r := OutOfMemory(threads[t].va);
        GoneArrive(s, t);
        GoneKeys(s, t);
        Leave(t);
        return;
      }
      if absent {
        InstallFacts(s, t, va);
        InstallKeys(s, t, va);
        InstallRefPage(t, va);
      } else {
        PresentFacts(s, t);
      }
      ghost var m := S();
      ReadyIs(s, m, t, va);
      ReadyKeys(m, t);
      MakeReady(t);
      if absent || va == 0 {
        var a := FinishAlloc(t);
        r := Block(a);
        InvShape(S());
        ReadyGranted(s, m, S(), t, va, a);
      } else {
        r := LockDropped(va);
        ReadyWaiting(s, t, va);
      }
    }

    /** The rest of the allocation once the surplus page has been given back. */
    method Finish(t: Tid) returns (a: Addr)
      requires Valid() && t in threads && threads[t].HasRef?
      modifies this
      ensures Valid() && AllocResult(old(S()), S(), t, old(threads)[t].bt, Block(a))
      ensures WritesOnly(old(mem), mem, old(threads)[t].va, 4096) && use.Keys == old(use).Keys
    {
      hide WritesOnly, Inv, Fields, Granted;
      a := FinishAlloc(t);
      InvShape(S());
    }

    /** The walk of the list of all pages in subpage_kfree(). */
    method FindPage(ptr: Addr) returns (pr: Option<Id>)
      requires Valid()
      ensures pr.None? <==> OnNoPage(S(), ptr)
      ensures pr.Some? ==> pr.value in all && OnPage(page[pr.value], ptr)
    {
      hide InvBut;
      InvFields(S());
      hide FreeLists, PagesOk, UsesOk, RefsOk, ThreadsOk, OfType;
      ghost var i := 0;
      pr := allbase;
      while pr.Some?
        invariant i <= |all| && pr == At(all, i) && forall k :: 0 <= k < i ==> !OnPage(page[all[k]], ptr)
        decreases |all| - i
      {
        ghost var p: Id := all[i];
        assert p in all && p == pr.value && p in page;
        if OnPage(page[pr.value], ptr) {
          return;
        }
        pr := nextAll[pr.value];
        i := i + 1;
      }
    }

    /** Clear a block and put it first on its page's free list. */
    method PushBlock(pr: Id, a: Addr)
      requires CanPush(S(), pr, a)
      modifies this
      ensures S() == Pushed(old(S()), pr, a)
    {
      hide Size, Filled;
      var m := FillDeadbeef(mem, a, Size(kind[pr]) / 4);
      mem := m[a := Head(page[pr], offset[pr])];
      offset := offset[pr := a - page[pr]];
      nfree := nfree[pr := nfree[pr] + 1];
      chains := chains[pr := [a] + chains[pr]];
    }

    /** remove_lists(). */
    method RemoveLists(pr: Id, bt: int, ghost l: seq<Id>) returns (ghost i: nat, ghost j: nat)
      requires 0 <= bt < |sizebases| && pr in all && pr in l
      requires Listed(nextAll, allbase, all) && Listed(nextSame, sizebases[bt], l)
      modifies this
      ensures i < |old(all)| && old(all)[i] == pr && j < |l| && l[j] == pr
      ensures CanCut(old(S()), i, bt, l, j) && S() == OffLists(old(S()), i, bt, l, j)
    {
      hide CutNext, CutBase;
      var same, sbase, all', abase;
      same, sbase, j := Unlink(nextSame, sizebases[bt], pr, l);
      all', abase, i := Unlink(nextAll, allbase, pr, all);
      nextSame := same;
      sizebases := sizebases[bt := sbase];
      nextAll := all';
      allbase := abase;
    }

    /** The end of subpage_kfree() for a page all of whose blocks are free. */
    method ReleasePage(pr: Id) returns (panicked: bool)
      requires Idle(S(), pr)
      modifies this
      ensures panicked <==> R.Blocked(old(roots), pr)
      ensures !panicked ==> Inv(S()) && Shape(S()) && PageLeft(old(S()), S(), pr)
    {
      hide InvBut, PageLeft, OffLists, Forgotten, CanCut, R.Blocked;
      ghost var s := S();
      ghost var l := IdleFacts(s, pr);
      ghost var i, j := RemoveLists(pr, kind[pr], l);
      UnlistedFacts(s, pr, i, j, l);
      var after;
      panicked, after := R.Free(roots, pr);
      if panicked {
        return;
      }
      roots := after;
      use := use - {page[pr]};
      all := Cut(all, i);
    }

    /** subpage_kfree(). A block that is freed must be live. */
    method SubpageFree(ptr: Addr) returns (r: FreeOutcome)
      requires Valid() && forall p :: BlockIn(S(), p, ptr) ==> LiveIn(S(), p, ptr)
      modifies this
      ensures r.Panicked? <==> Panics(old(S()), ptr)
      ensures !r.Panicked? ==> Valid() && FreeResult(old(S()), S(), ptr, r)
    {
      hide Inv, Fields, Released, FreeResult, OnNoPage, LiveIn, BlockIn, Pushed, CanPush, PageLeft, Idle, Panics;
      ghost var s := S();
      var pr := FindPage(ptr);
      if pr.None? {
        NotOursFacts(s, ptr);
        OffPageNoBlock(s, ptr);
        NoBlockNoPanic(s, ptr);
        return NotOurs;
      }
      FoundFacts(s, pr.value);
      var p, size := page[pr.value], Size(kind[pr.value]);
      if (ptr - p) % size != 0 {
        BadAddressFacts(s, pr.value, ptr);
        BadAddressNoPanic(s, ptr);
        return BadAddress;
      }
      PushFacts(s, pr.value, ptr);
      PanicsHere(s, pr.value, ptr);
      PushBlock(pr.value, ptr);
      ghost var m := S();
      if nfree[pr.value] == Blocks(kind[pr.value]) {
        var panicked := ReleasePage(pr.value);
        if panicked {
          return Panicked;
        }
        r := FreedPage(p);
        PageFreedFacts(s, m, S(), pr.value, ptr);
      } else {
        r := Freed;
        FreedFacts(s, pr.value, ptr);
      }
    }

    /** kmalloc() of LARGEST_SUBPAGE_SIZE bytes or more, for which
        alloc_kpages() found the pages at address (0: none). */
    method BigAlloc(sz: nat, address: Addr) returns (ptr: Addr)
      requires Valid() && 2048 <= sz < 0x1_0000_0000
      requires address == 0 || (IsPage(address) && FreshPages(S(), address, NPages(sz)))
      modifies this
      ensures Valid() && ptr == address && SameLive(old(S()), S()) && S() == old(S()).(use := use)
      ensures ptr == 0 ==> use == old(use)
      ensures ptr != 0 ==> MarksBig(old(use), use, ptr, NPages(sz))
    {
      hide Inv, Shape, BigUse, FreshPages, NPages, IsPage, MarksBig;
      ptr := address;
      if address != 0 {
        BigKeepsInv(S(), address, NPages(sz));
        use := BigUse(use, address, NPages(sz));
      }
    }

    /** kfree(): a null pointer, a live block or the start of a big one. */
    method Free(ptr: Addr) returns (panicked: bool)
      requires Valid()
      requires ptr == 0 || IsLive(S(), ptr) || IsBig(S(), ptr)
      modifies this
      ensures panicked <==> Panics(old(S()), ptr)
      ensures !panicked ==> Valid() && threads == old(threads) && reserved == old(reserved)
      ensures !panicked && ptr == 0 ==> S() == old(S())
      ensures !panicked && IsLive(old(S()), ptr) ==> Released(old(S()), S(), ptr) && FreeWrites(old(S()), S(), ptr)
      ensures !panicked && IsBig(old(S()), ptr) ==>
                SameLive(old(S()), S()) && S() == old(S()).(use := use) && ClearsBig(old(use), use, ptr)
    {
      hide Inv, Fields, Released, SameLive, FreeResult, IsLive, IsBig, Panics, LiveIn, BlockIn, ClearsBig, FreeWrites;
      ghost var s := S();
      if ptr == 0 {
        NullIsNothing(s);
        return false;
      }
      CanFree(s, ptr);
      var r := SubpageFree(ptr);
      if r.Panicked? {
        return true;
      }
      SubpageFreed(s, S(), ptr, r);
      if r.NotOurs? {
        BigFreeKeepsInv(s, ptr);
        use := WithoutBig(use, ptr);
      }
      return false;
    }

    /** The owner of a live block may write to it at will. */
    method ClientWrite(ghost a: Addr, ghost n: nat, x: Addr, v: int)
      requires Valid() && Live(S(), a, n) && a <= x < a + n
      modifies this
      ensures Valid() && SameLive(old(S()), S()) && S() == old(S()).(mem := old(mem)[x := v])
    {
      hide InvBut, IsBlock, Size;
      ghost var p :| LiveIn(S(), p, a) && n == Size(kind[p]);
      ClientWriteKeepsInv(S(), mem[x := v], p, a);
      mem := mem[x := v];
    }
  }
}
