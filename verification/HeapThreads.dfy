/** The steps an allocation takes when it finds no free block: reserving a
    pageref, waiting for the page that holds it, and giving up. All of them
    leave the live blocks alone. From kern/vm/kmalloc.c. */
module HeapThreads {
  import opened FreeList
  import opened Heap
  import opened HeapSteps
  import opened PageLists
  import R = Pagerefs

  /** t differs from s only in threads, page uses, pageref bitmaps and
      reserved pagerefs. */
  ghost predicate SameLists(s: State, t: State) {
    t == s.(threads := t.threads, use := t.use, roots := t.roots, reserved := t.reserved)
  }

  lemma SameListsKeeps(s: State, t: State)
    requires Inv(s) && SameLists(s, t)
    ensures Fields(t) && FreeLists(t) && ListsOk(t) && SameLive(s, t)
    ensures forall p :: p in t.all ==> NotIdle(t, p)
  {
    hide PagesOk, UsesOk, RefsOk, ThreadsOk, Listed, OfType, FreeListOk, Size, Blocks, IsBlock;
    assert forall p :: p in s.all ==> PageOk(t, p) == PageOk(s, p);
    assert forall p, a :: LiveIn(t, p, a) == LiveIn(s, p, a);
  }

  // A thread sets out, or gives up.

  ghost function Begun(s: State, t: Tid, bt: int): State {
    s.(threads := s.threads[t := Started(bt)])
  }

  lemma BegunKeepsInv(s: State, t: Tid, bt: int)
    requires Inv(s) && t !in s.threads && 0 <= bt < 8
    ensures Inv(Begun(s, t, bt)) && SameLive(s, Begun(s, t, bt))
  {
    SameListsKeeps(s, Begun(s, t, bt));
    BegunPages(s, t, bt);
    BegunThreads(s, t, bt);
    hide ThreadsOk, FreeLists, ListsOk, PagesOk, UsesOk, SameLive, NotIdle, R.Ok, R.FirstFit, R.Bit;
  }

  lemma BegunThreads(s: State, t: Tid, bt: int)
    requires |s.roots| == 16 && ThreadsOk(s) && t !in s.threads && 0 <= bt < 8
    ensures ThreadsOk(Begun(s, t, bt))
  {
  }

  lemma BegunPages(s: State, t: Tid, bt: int)
    requires Fields(s) && PagesOk(s) && t !in s.threads
    ensures PagesOk(Begun(s, t, bt))
  {
    hide IsPage;
  }

  /** A failed allocation gives its page back; its pageref stays reserved. */
  ghost function Gone(s: State, t: Tid): State
    requires t in s.threads
  {
    s.(threads := s.threads - {t},
       use := if s.threads[t].Started? then s.use else s.use - {s.threads[t].va})
  }

  lemma GoneKeepsInv(s: State, t: Tid)
    requires Inv(s) && t in s.threads
    ensures Inv(Gone(s, t)) && SameLive(s, Gone(s, t))
  {
    SameListsKeeps(s, Gone(s, t));
    GonePages(s, t);
    GoneThreads(s, t);
    hide FreeLists, ListsOk, PagesOk, UsesOk, SameLive, NotIdle, ThreadsOk, R.Ok, R.FirstFit, R.Bit;
  }

  lemma GonePages(s: State, t: Tid)
    requires Fields(s) && PagesOk(s) && t in s.threads
    ensures PagesOk(Gone(s, t))
  {
    hide IsPage;
    var g := Gone(s, t);
    if !s.threads[t].Started? {
      assert s.use[s.threads[t].va] == InFlight(t);
    }
  }

  lemma GoneThreads(s: State, t: Tid)
    requires |s.roots| == 16 && ThreadsOk(s) && t in s.threads
    ensures ThreadsOk(Gone(s, t))
  {
    assert forall u :: u in Gone(s, t).threads ==> u in s.threads && Gone(s, t).threads[u] == s.threads[u];
  }

  // Reserving a pageref.

  ghost predicate CanReserve(s: State, t: Tid, va: Addr, id: Id) {
    && Inv(s) && t in s.threads && s.threads[t].Started?
    && IsPage(va) && va !in s.use
    && |s.roots| == 16 && 0 <= id < 4096 && !R.Bit(s.roots, id) && (forall k: int :: 0 <= k < id ==> R.Bit(s.roots, k))
  }

  lemma TakeReady(s: State, id: Id)
    requires RefsOk(s) && 0 <= id < 4096 && !R.Bit(s.roots, id) && forall k: int :: 0 <= k < id ==> R.Bit(s.roots, k)
    ensures |s.roots[id / 256].inuse| == 256 && id !in s.all && id !in s.reserved
    ensures R.Ok(R.Take(s.roots, id)) && R.FirstFit(R.Take(s.roots, id))
    ensures forall k: int :: R.Bit(R.Take(s.roots, id), k) <==> R.Bit(s.roots, k) || k == id
    ensures forall w :: 0 <= w < 16 ==> R.Take(s.roots, id)[w].page == s.roots[w].page
  {
    R.TakeOk(s.roots, id);
    hide R.FirstFit, R.Count;
    assert R.RootOk(s.roots[id / 256]);
  }

  ghost predicate HasRoot(s: State, t: Tid, id: Id) {
    t in s.threads && |s.roots| == 16 && 0 <= id < 4096 && |s.roots[id / 256].inuse| == 256
  }

  ghost function Reserved(s: State, t: Tid, va: Addr, id: Id): State
    requires HasRoot(s, t, id)
  {
    s.(roots := R.Take(s.roots, id),
       reserved := s.reserved + {id},
       use := s.use[va := InFlight(t)],
       threads := s.threads[t := if s.roots[id / 256].page == 0 then AwaitRefPage(s.threads[t].bt, va, id)
                                 else HasRef(s.threads[t].bt, va, id)])
  }

  lemma ReserveKeepsInv(s: State, t: Tid, va: Addr, id: Id)
    requires CanReserve(s, t, va, id) && HasRoot(s, t, id)
    ensures Inv(Reserved(s, t, va, id)) && SameLive(s, Reserved(s, t, va, id))
  {
    SameListsKeeps(s, Reserved(s, t, va, id));
    ReservePages(s, t, va, id);
    ReserveRefs(s, t, va, id);
    ReserveThreads(s, t, va, id);
    hide FreeLists, ListsOk, PagesOk, UsesOk, RefsOk, ThreadsOk, SameLive, NotIdle, Reserved, CanReserve;
  }

  lemma ReservePages(s: State, t: Tid, va: Addr, id: Id)
    requires CanReserve(s, t, va, id) && HasRoot(s, t, id) && Fields(Reserved(s, t, va, id))
    ensures PagesOk(Reserved(s, t, va, id))
  {
    TakeReady(s, id);
    hide FreeLists, ListsOk, RefsOk, ThreadsOk, NotIdle, R.Take, R.Bit, IsPage;
  }

  lemma ReserveRefs(s: State, t: Tid, va: Addr, id: Id)
    requires CanReserve(s, t, va, id) && HasRoot(s, t, id)
    ensures RefsOk(Reserved(s, t, va, id))
  {
    TakeReady(s, id);
    hide FreeLists, ListsOk, PagesOk, UsesOk, ThreadsOk, NotIdle, R.Take, R.FirstFit, R.Ok;
  }

  lemma ReserveThreads(s: State, t: Tid, va: Addr, id: Id)
    requires CanReserve(s, t, va, id) && HasRoot(s, t, id)
    ensures |s.roots| == 16 && ThreadsOk(Reserved(s, t, va, id))
  {
    TakeReady(s, id);
    hide FreeLists, ListsOk, PagesOk, UsesOk, NotIdle, R.Take, R.FirstFit, R.Bit, R.Count;
  }

  // The pageref page arrives.

  /** The page is installed in the root of thread t's pageref. */
  ghost function RefPageIn(s: State, t: Tid, va: Addr): State
    requires t in s.threads && s.threads[t].AwaitRefPage? && 0 <= s.threads[t].id < 4096 && |s.roots| == 16
  {
    var w := s.threads[t].id / 256;
    s.(roots := s.roots[w := s.roots[w].(page := va)], use := s.use[va := RefPage(w)])
  }

  ghost predicate CanInstall(s: State, t: Tid, va: Addr) {
    && Inv(s) && t in s.threads && s.threads[t].AwaitRefPage? && IsPage(va) && va !in s.use
    && 0 <= s.threads[t].id < 4096 && |s.roots| == 16 && s.roots[s.threads[t].id / 256].page == 0
  }

  lemma RefPageInKeepsInv(s: State, t: Tid, va: Addr)
    requires CanInstall(s, t, va)
    ensures Inv(RefPageIn(s, t, va)) && SameLive(s, RefPageIn(s, t, va))
  {
    SameListsKeeps(s, RefPageIn(s, t, va));
    RefPageInPages(s, t, va);
    RefPageInUses(s, t, va);
    RefPageInRefs(s, t, va);
    hide FreeLists, ListsOk, PagesOk, UsesOk, RefsOk, ThreadsOk, SameLive, NotIdle;
  }

  lemma RefPageInPages(s: State, t: Tid, va: Addr)
    requires CanInstall(s, t, va) && Fields(RefPageIn(s, t, va))
    ensures PagesOk(RefPageIn(s, t, va))
  {
    hide FreeLists, ListsOk, RefsOk, ThreadsOk, NotIdle;
  }

  lemma RefPageInUses(s: State, t: Tid, va: Addr)
    requires CanInstall(s, t, va)
    ensures UsesOk(RefPageIn(s, t, va))
  {
    var u := RefPageIn(s, t, va);
    hide FreeLists, ListsOk, RefsOk, ThreadsOk, PagesOk, NotIdle, IsPage;
    forall a | a in u.use
      ensures UseOk(u, a, u.use[a])
    {
      assert a == va || UseOk(s, a, s.use[a]);
    }
  }

  lemma RefPageInRefs(s: State, t: Tid, va: Addr)
    requires CanInstall(s, t, va)
    ensures RefsOk(RefPageIn(s, t, va)) && ThreadsOk(RefPageIn(s, t, va))
  {
    hide FreeLists, ListsOk, PagesOk, UsesOk, NotIdle, R.Count, R.FirstFit;
    var u := RefPageIn(s, t, va);
    var w := s.threads[t].id / 256;
    assert R.RootOk(s.roots[w]);
    assert forall k: int :: R.Bit(u.roots, k) == R.Bit(s.roots, k) by {
      SameBits(s.roots, w, va);
    }
    RefPageFirstFit(s.roots, w, va);
  }

  lemma SameBits(roots: seq<R.Root>, w: nat, va: Addr)
    requires |roots| == 16 && w < 16
    ensures forall k: int :: R.Bit(roots[w := roots[w].(page := va)], k) == R.Bit(roots, k)
  {
  }

  lemma RefPageFirstFit(roots: seq<R.Root>, w: nat, va: Addr)
    requires |roots| == 16 && w < 16 && R.FirstFit(roots) && va != 0
    ensures R.FirstFit(roots[w := roots[w].(page := va)])
  {
  }

  /** The pageref page of thread t is there; it can go on. */
  ghost function Ready(s: State, t: Tid): State
    requires t in s.threads && s.threads[t].AwaitRefPage?
  {
    var th := s.threads[t];
    s.(threads := s.threads[t := HasRef(th.bt, th.va, th.id)])
  }

  lemma ReadyKeepsInv(s: State, t: Tid)
    requires Inv(s) && t in s.threads && s.threads[t].AwaitRefPage?
    requires 0 <= s.threads[t].id < 4096 && |s.roots| == 16 && s.roots[s.threads[t].id / 256].page != 0
    ensures Inv(Ready(s, t)) && SameLive(s, Ready(s, t))
  {
    SameListsKeeps(s, Ready(s, t));
    ReadyPages(s, t);
    ReadyThreads(s, t);
    hide FreeLists, ListsOk, PagesOk, UsesOk, SameLive, NotIdle, ThreadsOk, R.Ok, R.FirstFit, R.Bit;
  }

  lemma ReadyPages(s: State, t: Tid)
    requires Fields(s) && PagesOk(s) && t in s.threads && s.threads[t].AwaitRefPage?
    ensures PagesOk(Ready(s, t))
  {
    hide IsPage;
  }

  lemma ReadyThreads(s: State, t: Tid)
    requires |s.roots| == 16 && ThreadsOk(s) && t in s.threads && s.threads[t].AwaitRefPage?
    requires 0 <= s.threads[t].id < 4096 && s.roots[s.threads[t].id / 256].page != 0
    ensures ThreadsOk(Ready(s, t))
  {
  }
}
