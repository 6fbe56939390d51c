/** Vnode reference counts, kern/vfs/vnode.c, and the vnode table of the
    semaphore file system, kern/fs/semfs/semfs_vnops.c.

    The last reference to a vnode is not dropped but handed to the reclaim
    operation, which has to take the table lock first; a lookup may find the
    vnode in the meantime. Every event is one section run under the table
    lock or the vnode's spinlock. */
module Vnode {
  import opened Wrappers

  type Tid = int
  type Vid = int

  const ROOTDIR := 0xffff_ffff

  datatype Vn = Vn(semnum: int, refcount: int, freed: bool)

  datatype Phase =
    | Idle
    | Getting(n: int)      // in semfs_getvnode, table lock held
    | Reclaiming(v: Vid)   // was handed the last reference, wants the table lock
    | Locked(v: Vid)       // in semfs_reclaim, table lock held
    | Removing(v: Vid)     // ... having seen that nobody else refers to v
    | Destroying(v: Vid)   // v is off the table, lock dropped

  datatype State = State(
    vnodes: map<Vid, Vn>,
    table: seq<Vid>,           // semfs_vnodes
    hasvnode: map<int, bool>,  // sems_hasvnode of each semaphore
    holder: Option<Tid>,       // semfs_tablelock
    phase: map<Tid, Phase>,    // threads not listed are idle
    held: map<Vid, int>)       // references in the hands of clients

  const INIT := State(map[], [], map[], None, map[], map[])

  datatype Event =
    | AddSem(t: Tid, n: int)
    | LockToGet(t: Tid, n: int)
    | Get(t: Tid, nv: Vid)
    | Incref(t: Tid, v: Vid)
    | Decref(t: Tid, v: Vid)
    | LockToReclaim(t: Tid)
    | CheckCount(t: Tid)
    | Remove(t: Tid)
    | Destroy(t: Tid)

  datatype Result = Ok(s: State) | Crash

  function Ph(s: State, t: Tid): Phase {
    if t in s.phase then s.phase[t] else Idle
  }

  function Phased(s: State, t: Tid, ph: Phase): State {
    s.(phase := s.phase[t := ph])
  }

  predicate Live(s: State, v: Vid) {
    v in s.vnodes && !s.vnodes[v].freed && v in s.held
  }

  function SemNum(s: State, v: Vid): int {
    if v in s.vnodes then s.vnodes[v].semnum else -1
  }

  /** The first table index from i on that satisfies the search, else the
      length of the table: by semaphore number, and by vnode. */
  function FindSem(s: State, n: int, i: nat): (r: nat)
    requires i <= |s.table|
    ensures i <= r <= |s.table| && (r < |s.table| ==> SemNum(s, s.table[r]) == n)
    ensures forall k :: i <= k < r ==> SemNum(s, s.table[k]) != n
    decreases |s.table| - i
  {
    if i == |s.table| || SemNum(s, s.table[i]) == n then i else FindSem(s, n, i + 1)
  }

  function FindVnode(table: seq<Vid>, v: Vid, i: nat): (r: nat)
    requires i <= |table|
    ensures i <= r <= |table| && (r < |table| ==> table[r] == v)
    ensures forall k :: i <= k < r ==> table[k] != v
    decreases |table| - i
  {
    if i == |table| || table[i] == v then i else FindVnode(table, v, i + 1)
  }

  /** What a client, or a thread inside the file system, may do next. Only
      the holder of a reference may copy or drop it. */
  predicate Enabled(s: State, ev: Event) {
    var ph := Ph(s, ev.t);
    match ev
    case AddSem(_, n) => ph.Idle? && n !in s.hasvnode && n != ROOTDIR
    case LockToGet(_, n) => ph.Idle? && s.holder == None && (n == ROOTDIR || n in s.hasvnode)
    case Get(_, nv) => ph.Getting? && nv !in s.vnodes
    case Incref(_, v) => ph.Idle? && v in s.held && s.held[v] > 0
    case Decref(_, v) => ph.Idle? && v in s.held && s.held[v] > 0
    case LockToReclaim(_) => ph.Reclaiming? && s.holder == None
    case CheckCount(_) => ph.Locked?
    case Remove(_) => ph.Removing?
    case Destroy(_) => ph.Destroying?
  }

  /** vnode_incref, and the reference goes to a client. */
  function Referred(s: State, v: Vid): Result {
    if !Live(s, v) then Crash
    else Ok(s.(vnodes := s.vnodes[v := s.vnodes[v].(refcount := s.vnodes[v].refcount + 1)],
               held := s.held[v := s.held[v] + 1]))
  }

  function DoGet(s: State, t: Tid, n: int, nv: Vid): Result {
    var i := FindSem(s, n, 0);
    var u := Phased(s, t, Idle).(holder := None);
    if i < |s.table| then Referred(u, s.table[i])
    else if n != ROOTDIR && (n !in s.hasvnode || s.hasvnode[n]) then Crash
    else Ok(u.(vnodes := s.vnodes[nv := Vn(n, 1, false)], table := s.table + [nv], held := s.held[nv := 1],
               hasvnode := if n == ROOTDIR then s.hasvnode else s.hasvnode[n := true]))
  }

  /** vnode_decref: the last reference is passed on, not dropped. */
  function DoDecref(s: State, t: Tid, v: Vid): Result {
    if !Live(s, v) || s.vnodes[v].refcount <= 0 then Crash
    else
      var u := s.(held := s.held[v := s.held[v] - 1]);
      if s.vnodes[v].refcount > 1 then
        Ok(u.(vnodes := s.vnodes[v := s.vnodes[v].(refcount := s.vnodes[v].refcount - 1)]))
      else Ok(Phased(u, t, Reclaiming(v)))
  }

  /** The first half of semfs_reclaim: if a lookup got in between, just drop
      the reference that was passed on. */
  function DoCheck(s: State, t: Tid, v: Vid): Result {
    if !Live(s, v) then Crash
    else if s.vnodes[v].refcount > 1 then
      Ok(Phased(s, t, Idle).(holder := None,
                             vnodes := s.vnodes[v := s.vnodes[v].(refcount := s.vnodes[v].refcount - 1)]))
    else Ok(Phased(s, t, Removing(v)))
  }

  function DoRemove(s: State, t: Tid, v: Vid): Result {
    var i, n := FindVnode(s.table, v, 0), SemNum(s, v);
    if !Live(s, v) || (n != ROOTDIR && (n !in s.hasvnode || !s.hasvnode[n])) then Crash
    else
      Ok(Phased(s, t, Destroying(v)).(
         holder := None,
         table := if i < |s.table| then s.table[..i] + s.table[i + 1..] else s.table,
         hasvnode := if n == ROOTDIR then s.hasvnode else s.hasvnode[n := false]))
  }

  function DoDestroy(s: State, t: Tid, v: Vid): Result {
    if !Live(s, v) || s.vnodes[v].refcount != 1 then Crash
    else Ok(Phased(s, t, Idle).(vnodes := s.vnodes[v := s.vnodes[v].(refcount := 0, freed := true)]))
  }

  function Exec(s: State, ev: Event): Result
    requires Enabled(s, ev)
  {
    var t := ev.t;
    match ev
    case AddSem(_, n) => Ok(s.(hasvnode := s.hasvnode[n := false]))
    case LockToGet(_, n) => Ok(Phased(s, t, Getting(n)).(holder := Some(t)))
    case Get(_, nv) => DoGet(s, t, Ph(s, t).n, nv)
    case Incref(_, v) => Referred(s, v)
    case Decref(_, v) => DoDecref(s, t, v)
    case LockToReclaim(_) => Ok(Phased(s, t, Locked(Ph(s, t).v)).(holder := Some(t)))
    case CheckCount(_) => DoCheck(s, t, Ph(s, t).v)
    case Remove(_) => DoRemove(s, t, Ph(s, t).v)
    case Destroy(_) => DoDestroy(s, t, Ph(s, t).v)
  }

  // The invariant

  /** The vnode whose last reference a thread in semfs_reclaim carries. */
  function PendingOf(ph: Phase): Option<Vid> {
    match ph
    case Reclaiming(v) => Some(v)
    case Locked(v) => Some(v)
    case Removing(v) => Some(v)
    case Destroying(v) => Some(v)
    case _ => None
  }

  predicate HoldsLock(ph: Phase) {
    ph.Getting? || ph.Locked? || ph.Removing?
  }

  ghost predicate Pending(s: State, v: Vid) {
    exists t :: PendingOf(Ph(s, t)) == Some(v)
  }

  ghost predicate Leaving(s: State, v: Vid) {
    exists t :: Ph(s, t) == Destroying(v)
  }

  /** The count is the number of references: those of clients and the one
      handed to a reclaim in progress. */
  ghost predicate CountOk(s: State, v: Vid)
    requires v in s.vnodes
  {
    && v in s.held && s.held[v] >= 0
    && (if s.vnodes[v].freed then s.held[v] == 0 && !Pending(s, v)
        else s.vnodes[v].refcount == s.held[v] + (if Pending(s, v) then 1 else 0) && s.vnodes[v].refcount > 0)
  }

  ghost predicate CountsOk(s: State) {
    && (forall v :: v in s.vnodes ==> CountOk(s, v))
    && (forall v :: v in s.held ==> v in s.vnodes)
  }

  /** At most one reclaim of a vnode is in progress, and one that has passed
      its check is the only one to know the vnode. */
  ghost predicate PendingOk(s: State) {
    && (forall t, u :: PendingOf(Ph(s, t)).Some? && PendingOf(Ph(s, t)) == PendingOf(Ph(s, u)) ==> t == u)
    && (forall t :: PendingOf(Ph(s, t)).Some? ==> PendingOf(Ph(s, t)).value in s.vnodes)
    && (forall t :: Ph(s, t).Removing? || Ph(s, t).Destroying? ==>
          Ph(s, t).v in s.held && s.held[Ph(s, t).v] == 0)
  }

  ghost predicate LockOk(s: State) {
    forall t :: HoldsLock(Ph(s, t)) <==> s.holder == Some(t)
  }

  /** The table lists exactly the vnodes not yet destroyed or being so, and
      no two for one semaphore. */
  ghost predicate TableOk(s: State) {
    && (forall v :: v in s.table <==> v in s.vnodes && !s.vnodes[v].freed && !Leaving(s, v))
    && (forall i, j :: 0 <= i < j < |s.table| ==> SemNum(s, s.table[i]) != SemNum(s, s.table[j]))
  }

  /** sems_hasvnode says whether the table has a vnode for the semaphore. */
  ghost predicate FlagsOk(s: State) {
    && ROOTDIR !in s.hasvnode
    && (forall v :: v in s.table && SemNum(s, v) != ROOTDIR ==>
          SemNum(s, v) in s.hasvnode && s.hasvnode[SemNum(s, v)])
    && (forall n :: n in s.hasvnode && s.hasvnode[n] ==> Listed(s, n))
    && (forall t :: Ph(s, t).Getting? && Ph(s, t).n != ROOTDIR ==> Ph(s, t).n in s.hasvnode)
  }

  ghost predicate Listed(s: State, n: int) {
    exists i :: 0 <= i < |s.table| && SemNum(s, s.table[i]) == n
  }

  ghost predicate Inv(s: State) {
    CountsOk(s) && PendingOk(s) && LockOk(s) && TableOk(s) && FlagsOk(s)
  }

  lemma InitInv()
    ensures Inv(INIT)
  {
  }

  /** No thread's reclaim begins, ends or removes its vnode. */
  ghost predicate SameReclaims(s: State, s': State) {
    forall t :: PendingOf(Ph(s', t)) == PendingOf(Ph(s, t)) && (Ph(s', t).Destroying? <==> Ph(s, t).Destroying?)
  }

  lemma SameReclaimsSame(s: State, s': State, v: Vid)
    requires SameReclaims(s, s')
    ensures Pending(s', v) == Pending(s, v) && Leaving(s', v) == Leaving(s, v)
  {
    hide PendingOf;
    if t :| PendingOf(Ph(s, t)) == Some(v) {
      assert PendingOf(Ph(s', t)) == Some(v);
    }
    if t :| PendingOf(Ph(s', t)) == Some(v) {
      assert PendingOf(Ph(s, t)) == Some(v);
    }
    LeavingMono(s, s', v);
    LeavingMono(s', s, v);
  }

  lemma LeavingMono(s: State, s': State, v: Vid)
    requires SameReclaims(s, s')
    ensures Leaving(s, v) ==> Leaving(s', v)
  {
    if t :| Ph(s, t) == Destroying(v) {
      assert PendingOf(Ph(s', t)) == PendingOf(Ph(s, t));
      assert Ph(s', t) == Destroying(v);
    }
  }

  // Steps that leave the reclaims in progress alone

  /** Vnode v has delta more references, all in the hands of clients. */
  ghost predicate Counts(s: State, s': State, v: Vid, delta: int) {
    && Live(s, v)
    && s'.vnodes == s.vnodes[v := s.vnodes[v].(refcount := s.vnodes[v].refcount + delta)]
    && s'.held == s.held[v := s.held[v] + delta]
    && s'.table == s.table && s'.hasvnode == s.hasvnode
  }

  lemma CountsKeeps(s: State, s': State, v: Vid, delta: int)
    requires CountsOk(s) && TableOk(s) && PendingOk(s) && SameReclaims(s, s') && Counts(s, s', v, delta)
    requires s.held[v] + delta >= 0 && s.vnodes[v].refcount + delta > 0
    ensures CountsOk(s') && TableOk(s')
    ensures forall w :: SemNum(s', w) == SemNum(s, w)
  {
    hide PendingOf, SameReclaims, Pending, Leaving;
    forall w
      ensures Pending(s', w) == Pending(s, w) && Leaving(s', w) == Leaving(s, w)
    {
      SameReclaimsSame(s, s', w);
    }
    forall w | w in s'.vnodes
      ensures CountOk(s', w)
    {
      assert CountOk(s, w);
    }
    assert forall w :: SemNum(s', w) == SemNum(s, w);
  }

  /** Nobody is about to destroy v. */
  ghost predicate Wanted(s: State, v: Vid) {
    forall t :: !(Ph(s, t) == Removing(v) || Ph(s, t) == Destroying(v))
  }

  lemma HeldIsWanted(s: State, v: Vid)
    requires PendingOk(s) && v in s.held && s.held[v] > 0
    ensures Wanted(s, v)
  {
    forall t
      ensures !(Ph(s, t) == Removing(v) || Ph(s, t) == Destroying(v))
    {
      assert Ph(s, t).Removing? || Ph(s, t).Destroying? ==> s.held[Ph(s, t).v] == 0;
    }
  }

  lemma CountsKeepsInv(s: State, s': State, v: Vid, delta: int)
    requires Inv(s) && SameReclaims(s, s') && Counts(s, s', v, delta) && Wanted(s, v) && LockOk(s')
    requires s.held[v] + delta >= 0 && s.vnodes[v].refcount + delta > 0
    requires forall t :: Ph(s', t) == Ph(s, t) || (Ph(s, t).Getting? && Ph(s', t).Idle?)
    ensures Inv(s')
  {
    CountsKeeps(s, s', v, delta);
    hide CountsOk, LockOk, TableOk, PendingOf, SameReclaims, SemNum;
    assert FlagsOk(s') by {
      SameFlags(s, s');
    }
  }

  lemma SameFlags(s: State, s': State)
    requires FlagsOk(s) && s'.table == s.table && s'.hasvnode == s.hasvnode
    requires forall w :: SemNum(s', w) == SemNum(s, w)
    requires forall t :: Ph(s', t).Getting? ==> Ph(s', t) == Ph(s, t)
    ensures FlagsOk(s')
  {
    hide SemNum;
    forall n | n in s'.hasvnode && s'.hasvnode[n]
      ensures Listed(s', n)
    {
      assert Listed(s, n);
    }
  }

  lemma IncrefKeepsInv(s: State, v: Vid)
    requires Inv(s) && v in s.held && s.held[v] > 0
    ensures Referred(s, v).Ok? && Inv(Referred(s, v).s)
  {
    assert CountOk(s, v);
    HeldIsWanted(s, v);
    var s' := Referred(s, v).s;
    assert forall t :: Ph(s', t) == Ph(s, t);
    hide Inv, CountOk, PendingOf;
    CountsKeepsInv(s, s', v, 1);
  }

  lemma DecrefKeepsInv(s: State, t: Tid, v: Vid)
    requires Inv(s) && Ph(s, t).Idle? && v in s.held && s.held[v] > 0
    ensures DoDecref(s, t, v).Ok? && Inv(DoDecref(s, t, v).s)
  {
    assert CountOk(s, v);
    HeldIsWanted(s, v);
    var s' := DoDecref(s, t, v).s;
    if s.vnodes[v].refcount > 1 {
      assert forall u :: Ph(s', u) == Ph(s, u);
      hide Inv, CountOk, PendingOf;
      CountsKeepsInv(s, s', v, -1);
    } else {
      hide Inv;
      HandOver(s, t, v);
    }
  }

  // Handing over the last reference

  function HandedOver(s: State, t: Tid, v: Vid): State
    requires v in s.held
  {
    Phased(s.(held := s.held[v := s.held[v] - 1]), t, Reclaiming(v))
  }

  lemma HandOver(s: State, t: Tid, v: Vid)
    requires Inv(s) && Ph(s, t).Idle? && Live(s, v) && s.held[v] > 0 && s.vnodes[v].refcount == 1
    ensures Inv(HandedOver(s, t, v))
  {
    var s' := HandedOver(s, t, v);
    assert CountOk(s, v) && !Pending(s, v);
    assert forall u :: Ph(s', u) == if u == t then Reclaiming(v) else Ph(s, u);
    HandOverCounts(s, t, v);
    HandOverPending(s, t, v);
    hide CountsOk, PendingOk, Pending;
    assert TableOk(s') by {
      forall w
        ensures Leaving(s', w) == Leaving(s, w)
      {
        SameLeaving(s, s', w);
      }
    }
    SameFlags(s, s');
  }

  lemma SameLeaving(s: State, s': State, w: Vid)
    requires forall u :: Ph(s', u).Destroying? || Ph(s, u).Destroying? ==> Ph(s', u) == Ph(s, u)
    ensures Leaving(s', w) == Leaving(s, w)
  {
    if u :| Ph(s, u) == Destroying(w) {
      assert Ph(s', u) == Destroying(w);
    }
    if u :| Ph(s', u) == Destroying(w) {
      assert Ph(s, u) == Destroying(w);
    }
  }

  /** Only v's reclaim has changed, from none to t's or from t's to none. */
  lemma SamePendingBut(s: State, s': State, t: Tid, v: Vid, w: Vid)
    requires forall u :: u != t ==> Ph(s', u) == Ph(s, u)
    requires PendingOf(Ph(s, t)) in {None, Some(v)} && PendingOf(Ph(s', t)) in {None, Some(v)} && w != v
    ensures Pending(s', w) == Pending(s, w)
  {
    hide PendingOf;
    if u :| PendingOf(Ph(s, u)) == Some(w) {
      assert PendingOf(Ph(s', u)) == Some(w);
    }
    if u :| PendingOf(Ph(s', u)) == Some(w) {
      assert PendingOf(Ph(s, u)) == Some(w);
    }
  }

  lemma HandOverCounts(s: State, t: Tid, v: Vid)
    requires CountsOk(s) && Ph(s, t).Idle? && Live(s, v) && s.held[v] > 0 && s.vnodes[v].refcount == 1 && !Pending(s, v)
    ensures CountsOk(HandedOver(s, t, v))
  {
    var s' := HandedOver(s, t, v);
    assert Ph(s', t) == Reclaiming(v);
    assert PendingOf(Ph(s', t)) == Some(v);
    assert Pending(s', v);
    hide Pending, PendingOf;
    forall w | w in s'.vnodes
      ensures CountOk(s', w)
    {
      assert CountOk(s, w);
      if w != v {
        SamePendingBut(s, s', t, v, w);
      }
    }
  }

  lemma HandOverPending(s: State, t: Tid, v: Vid)
    requires PendingOk(s) && Ph(s, t).Idle? && Live(s, v) && s.held[v] > 0 && !Pending(s, v)
    ensures PendingOk(HandedOver(s, t, v))
  {
    var s' := HandedOver(s, t, v);
    HeldIsWanted(s, v);
    assert forall u :: Ph(s', u) == if u == t then Reclaiming(v) else Ph(s, u);
    assert forall u :: PendingOf(Ph(s, u)) != Some(v);
  }

  // Taking the table lock

  lemma LockKeepsInv(s: State, t: Tid, ph: Phase)
    requires Inv(s) && s.holder == None
    requires (Ph(s, t).Idle? && ph.Getting? && (ph.n == ROOTDIR || ph.n in s.hasvnode))
          || (Ph(s, t).Reclaiming? && ph == Locked(Ph(s, t).v))
    ensures Inv(Phased(s, t, ph).(holder := Some(t)))
  {
    var s' := Phased(s, t, ph).(holder := Some(t));
    assert forall u :: Ph(s', u) == if u == t then ph else Ph(s, u);
    assert SameReclaims(s, s');
    MovesKeep(s, s');
    LockFlags(s, s', t);
    hide CountsOk, TableOk, FlagsOk, SameReclaims;
  }

  lemma LockFlags(s: State, s': State, t: Tid)
    requires FlagsOk(s) && s'.table == s.table && s'.vnodes == s.vnodes && s'.hasvnode == s.hasvnode
    requires forall u :: u != t ==> Ph(s', u) == Ph(s, u)
    requires Ph(s', t).Getting? ==> Ph(s', t).n == ROOTDIR || Ph(s', t).n in s.hasvnode
    ensures FlagsOk(s')
  {
    SameListed(s, s');
    hide Listed;
  }

  lemma SameListed(s: State, s': State)
    requires s'.table == s.table && s'.vnodes == s.vnodes
    ensures forall n :: Listed(s, n) ==> Listed(s', n)
  {
    forall n | Listed(s, n)
      ensures Listed(s', n)
    {
      var i :| 0 <= i < |s.table| && SemNum(s, s.table[i]) == n;
      assert SemNum(s', s'.table[i]) == n;
    }
  }

  lemma MovesKeep(s: State, s': State)
    requires CountsOk(s) && TableOk(s) && SameReclaims(s, s')
    requires s'.vnodes == s.vnodes && s'.held == s.held && s'.table == s.table
    ensures CountsOk(s') && TableOk(s')
  {
    hide PendingOf, SameReclaims, Pending, Leaving;
    forall w
      ensures Pending(s', w) == Pending(s, w) && Leaving(s', w) == Leaving(s, w)
    {
      SameReclaimsSame(s, s', w);
    }
    forall w | w in s'.vnodes
      ensures CountOk(s', w)
    {
      assert CountOk(s, w);
    }
    assert forall w :: SemNum(s', w) == SemNum(s, w);
  }

  lemma AddSemKeepsInv(s: State, n: int)
    requires Inv(s) && n !in s.hasvnode && n != ROOTDIR
    ensures Inv(s.(hasvnode := s.hasvnode[n := false]))
  {
    var s' := s.(hasvnode := s.hasvnode[n := false]);
    assert forall u :: Ph(s', u) == Ph(s, u);
    MovesKeep(s, s');
    SameListed(s, s');
    hide CountsOk, TableOk, Listed;
    assert forall v :: SemNum(s', v) == SemNum(s, v);
  }

  // Looking up

  lemma GetKeepsInv(s: State, t: Tid, n: int, nv: Vid)
    requires Inv(s) && Ph(s, t) == Getting(n) && nv !in s.vnodes
    ensures DoGet(s, t, n, nv).Ok? && Inv(DoGet(s, t, n, nv).s)
  {
    var i := FindSem(s, n, 0);
    if i < |s.table| {
      GetFound(s, t, i);
    } else {
      GetFresh(s, t, n, nv);
    }
  }

  lemma GetFound(s: State, t: Tid, i: nat)
    requires Inv(s) && Ph(s, t).Getting? && i < |s.table|
    ensures
      var r := Referred(Phased(s, t, Idle).(holder := None), s.table[i]);
      r.Ok? && Inv(r.s)
  {
    var v := s.table[i];
    assert v in s.table;
    assert CountOk(s, v);
    var s' := Referred(Phased(s, t, Idle).(holder := None), v).s;
    assert forall u :: Ph(s', u) == if u == t then Idle else Ph(s, u);
    TableIsWanted(s, t, v);
    assert LockOk(s');
    hide Inv, CountOk, LockOk;
    CountsKeepsInv(s, s', v, 1);
  }

  /** A vnode found in the table under the lock is not being destroyed. */
  lemma TableIsWanted(s: State, t: Tid, v: Vid)
    requires Inv(s) && HoldsLock(Ph(s, t)) && !Ph(s, t).Removing? && v in s.table
    ensures Wanted(s, v)
  {
    hide CountsOk, PendingOk, FlagsOk;
    assert !Leaving(s, v) && s.holder == Some(t);
    forall u
      ensures !(Ph(s, u) == Removing(v) || Ph(s, u) == Destroying(v))
    {
      assert HoldsLock(Ph(s, u)) <==> s.holder == Some(u);
    }
  }

  function Added(s: State, t: Tid, n: int, nv: Vid): State {
    Phased(s, t, Idle).(
      holder := None, vnodes := s.vnodes[nv := Vn(n, 1, false)], table := s.table + [nv], held := s.held[nv := 1],
      hasvnode := if n == ROOTDIR then s.hasvnode else s.hasvnode[n := true])
  }

  lemma GetFresh(s: State, t: Tid, n: int, nv: Vid)
    requires Inv(s) && Ph(s, t) == Getting(n) && nv !in s.vnodes
    requires forall k :: 0 <= k < |s.table| ==> SemNum(s, s.table[k]) != n
    ensures n != ROOTDIR ==> n in s.hasvnode && !s.hasvnode[n]
    ensures Inv(Added(s, t, n, nv))
  {
    assert n != ROOTDIR && n in s.hasvnode && s.hasvnode[n] ==> Listed(s, n);
    FreshCounts(s, t, n, nv);
    FreshPending(s, t, n, nv);
    FreshTable(s, t, n, nv);
    FreshFlags(s, t, n, nv);
  }

  lemma FreshCounts(s: State, t: Tid, n: int, nv: Vid)
    requires CountsOk(s) && PendingOk(s) && Ph(s, t).Getting? && nv !in s.vnodes
    ensures CountsOk(Added(s, t, n, nv))
  {
    var s' := Added(s, t, n, nv);
    assert forall u :: Ph(s', u) == if u == t then Idle else Ph(s, u);
    assert forall u :: PendingOf(Ph(s, u)) != Some(nv);
    assert !Pending(s', nv);
    assert SameReclaims(s, s');
    hide PendingOf, Pending, SameReclaims;
    forall w | w in s'.vnodes && w != nv
      ensures CountOk(s', w)
    {
      assert CountOk(s, w);
      SameReclaimsSame(s, s', w);
    }
  }

  lemma FreshPending(s: State, t: Tid, n: int, nv: Vid)
    requires CountsOk(s) && PendingOk(s) && LockOk(s) && Ph(s, t).Getting? && nv !in s.vnodes
    ensures PendingOk(Added(s, t, n, nv)) && LockOk(Added(s, t, n, nv))
  {
    var s' := Added(s, t, n, nv);
    assert forall u :: Ph(s', u) == if u == t then Idle else Ph(s, u);
  }

  lemma FreshTable(s: State, t: Tid, n: int, nv: Vid)
    requires TableOk(s) && PendingOk(s) && Ph(s, t).Getting? && nv !in s.vnodes
    requires forall k :: 0 <= k < |s.table| ==> SemNum(s, s.table[k]) != n
    ensures TableOk(Added(s, t, n, nv))
  {
    var s' := Added(s, t, n, nv);
    assert forall u :: Ph(s', u) == if u == t then Idle else Ph(s, u);
    forall w
      ensures Leaving(s', w) == Leaving(s, w)
    {
      SameLeaving(s, s', w);
    }
    assert !Leaving(s, nv) by {
      assert forall u :: PendingOf(Ph(s, u)) != Some(nv);
    }
    hide Leaving, PendingOk;
    assert forall w :: w != nv ==> SemNum(s', w) == SemNum(s, w);
    assert forall k :: 0 <= k < |s.table| ==> s.table[k] in s.table;
  }

  lemma FreshFlags(s: State, t: Tid, n: int, nv: Vid)
    requires TableOk(s) && FlagsOk(s) && Ph(s, t) == Getting(n) && nv !in s.vnodes
    ensures FlagsOk(Added(s, t, n, nv))
  {
    var s' := Added(s, t, n, nv);
    assert forall u :: Ph(s', u) == if u == t then Idle else Ph(s, u);
    assert forall w :: w != nv ==> SemNum(s', w) == SemNum(s, w);
    assert forall k :: 0 <= k < |s.table| ==> s.table[k] in s.table && s.table[k] != nv;
    hide TableOk;
    forall m | m in s'.hasvnode && s'.hasvnode[m]
      ensures Listed(s', m)
    {
      if m == n {
        assert SemNum(s', s'.table[|s.table|]) == m;
      } else {
        assert Listed(s, m);
        var i :| 0 <= i < |s.table| && SemNum(s, s.table[i]) == m;
        assert SemNum(s', s'.table[i]) == m;
      }
    }
  }

  // Reclaiming

  lemma CheckKeepsInv(s: State, t: Tid, v: Vid)
    requires Inv(s) && Ph(s, t) == Locked(v)
    ensures DoCheck(s, t, v).Ok? && Inv(DoCheck(s, t, v).s)
  {
    assert PendingOf(Ph(s, t)) == Some(v);
    assert CountOk(s, v) && Pending(s, v);
    if s.vnodes[v].refcount > 1 {
      DropPassed(s, t, v);
    } else {
      PassCheck(s, t, v);
    }
  }

  /** A lookup got in between: the passed reference is dropped and the vnode
      lives on. */
  lemma DropPassed(s: State, t: Tid, v: Vid)
    requires Inv(s) && Ph(s, t) == Locked(v) && Live(s, v) && s.vnodes[v].refcount > 1 && Pending(s, v)
    ensures Inv(Phased(s, t, Idle).(holder := None,
                vnodes := s.vnodes[v := s.vnodes[v].(refcount := s.vnodes[v].refcount - 1)]))
  {
    var s' := Phased(s, t, Idle).(holder := None,
                vnodes := s.vnodes[v := s.vnodes[v].(refcount := s.vnodes[v].refcount - 1)]);
    assert forall u :: Ph(s', u) == if u == t then Idle else Ph(s, u);
    assert forall w :: SemNum(s', w) == SemNum(s, w);
    EndsCounts(s, s', t, v);
    EndsPending(s, s', t, v);
    EndsTable(s, s', t);
    hide CountsOk, PendingOk, TableOk;
    SameFlags(s, s');
  }

  /** Thread t's reclaim of v is over, with one reference less. */
  lemma EndsCounts(s: State, s': State, t: Tid, v: Vid)
    requires CountsOk(s) && PendingOk(s) && Ph(s, t) == Locked(v) && Live(s, v) && Pending(s, v)
    requires forall u :: Ph(s', u) == if u == t then Idle else Ph(s, u)
    requires s'.held == s.held && s.vnodes[v].refcount > 1
    requires s'.vnodes == s.vnodes[v := s.vnodes[v].(refcount := s.vnodes[v].refcount - 1)]
    ensures CountsOk(s')
  {
    assert !Pending(s', v) by {
      OnlyReclaim(s, s', t, v);
    }
    hide Pending;
    forall w | w in s'.vnodes
      ensures CountOk(s', w)
    {
      assert CountOk(s, w);
      if w != v {
        SamePendingBut(s, s', t, v, w);
      }
    }
  }

  lemma OnlyReclaim(s: State, s': State, t: Tid, v: Vid)
    requires PendingOk(s) && PendingOf(Ph(s, t)) == Some(v) && PendingOf(Ph(s', t)) == None
    requires forall u :: u != t ==> Ph(s', u) == Ph(s, u)
    ensures !Pending(s', v)
  {
    forall u
      ensures PendingOf(Ph(s', u)) != Some(v)
    {
      assert u != t ==> PendingOf(Ph(s, u)) != PendingOf(Ph(s, t));
    }
  }

  lemma EndsPending(s: State, s': State, t: Tid, v: Vid)
    requires PendingOk(s) && LockOk(s) && Ph(s, t) == Locked(v)
    requires forall u :: Ph(s', u) == if u == t then Idle else Ph(s, u)
    requires s'.held == s.held && s'.holder == None && s'.vnodes.Keys == s.vnodes.Keys
    ensures PendingOk(s') && LockOk(s')
  {
  }

  lemma EndsTable(s: State, s': State, t: Tid)
    requires TableOk(s) && s'.table == s.table && s'.vnodes.Keys == s.vnodes.Keys
    requires forall w :: w in s.vnodes ==> s'.vnodes[w].freed == s.vnodes[w].freed
    requires forall w :: SemNum(s', w) == SemNum(s, w)
    requires forall u :: u != t ==> Ph(s', u) == Ph(s, u)
    requires !Ph(s, t).Destroying? && !Ph(s', t).Destroying?
    ensures TableOk(s')
  {
    forall w
      ensures Leaving(s', w) == Leaving(s, w)
    {
      SameLeaving(s, s', w);
    }
    hide Leaving, SemNum;
  }

  lemma PassCheck(s: State, t: Tid, v: Vid)
    requires Inv(s) && Ph(s, t) == Locked(v) && Live(s, v) && s.vnodes[v].refcount <= 1 && Pending(s, v)
    ensures Inv(Phased(s, t, Removing(v)))
  {
    var s' := Phased(s, t, Removing(v));
    assert forall u :: Ph(s', u) == if u == t then Removing(v) else Ph(s, u);
    assert CountOk(s, v);
    assert SameReclaims(s, s');
    MovesKeep(s, s');
    PassPending(s, s', t, v);
    hide CountsOk, PendingOk, TableOk, Pending, SameReclaims;
    assert forall w :: SemNum(s', w) == SemNum(s, w);
    SameFlags(s, s');
  }

  lemma PassPending(s: State, s': State, t: Tid, v: Vid)
    requires PendingOk(s) && LockOk(s) && Ph(s, t) == Locked(v) && v in s.held && s.held[v] == 0
    requires forall u :: Ph(s', u) == if u == t then Removing(v) else Ph(s, u)
    requires s'.held == s.held && s'.vnodes == s.vnodes && s'.holder == s.holder
    ensures PendingOk(s') && LockOk(s')
  {
    assert forall u :: PendingOf(Ph(s', u)) == PendingOf(Ph(s, u));
    hide PendingOf;
  }

  function Removed(s: State, t: Tid, v: Vid, i: nat): State
    requires i < |s.table|
  {
    var n := SemNum(s, v);
    Phased(s, t, Destroying(v)).(
      holder := None, table := s.table[..i] + s.table[i + 1..],
      hasvnode := if n == ROOTDIR then s.hasvnode else s.hasvnode[n := false])
  }

  /** A vnode that passed its check is still in the table. */
  lemma StillListed(s: State, t: Tid, v: Vid)
    requires PendingOk(s) && CountsOk(s) && TableOk(s) && Ph(s, t) == Removing(v)
    ensures Live(s, v) && v in s.table
  {
    assert PendingOf(Ph(s, t)) == Some(v);
    assert CountOk(s, v) && Pending(s, v);
    forall u
      ensures Ph(s, u) != Destroying(v)
    {
      assert u != t ==> PendingOf(Ph(s, u)) != PendingOf(Ph(s, t));
    }
    assert !Leaving(s, v);
  }

  lemma RemoveKeepsInv(s: State, t: Tid, v: Vid)
    requires Inv(s) && Ph(s, t) == Removing(v)
    ensures DoRemove(s, t, v).Ok? && Inv(DoRemove(s, t, v).s)
  {
    hide PendingOk, CountsOk, TableOk, LockOk, FlagsOk;
    StillListed(s, t, v);
    RemoveAt(s, t, v, FindVnode(s.table, v, 0));
  }

  lemma RemoveAt(s: State, t: Tid, v: Vid, i: nat)
    requires Inv(s) && Ph(s, t) == Removing(v) && i < |s.table| && s.table[i] == v
    ensures SemNum(s, v) != ROOTDIR ==> SemNum(s, v) in s.hasvnode && s.hasvnode[SemNum(s, v)]
    ensures Inv(Removed(s, t, v, i))
  {
    assert v in s.table;
    RemoveCounts(s, t, v, i);
    RemovePending(s, t, v, i);
    RemoveTable(s, t, v, i);
    RemoveFlags(s, t, v, i);
    hide CountsOk, PendingOk, TableOk, LockOk;
  }

  lemma RemoveCounts(s: State, t: Tid, v: Vid, i: nat)
    requires CountsOk(s) && Ph(s, t) == Removing(v) && i < |s.table|
    ensures CountsOk(Removed(s, t, v, i))
  {
    var s' := Removed(s, t, v, i);
    assert forall u :: Ph(s', u) == if u == t then Destroying(v) else Ph(s, u);
    forall w | w in s'.vnodes
      ensures CountOk(s', w)
    {
      assert CountOk(s, w);
      SamePending(s, s', w);
    }
  }

  lemma SamePending(s: State, s': State, w: Vid)
    requires forall u :: PendingOf(Ph(s', u)) == PendingOf(Ph(s, u))
    ensures Pending(s', w) == Pending(s, w)
  {
    hide PendingOf;
    if u :| PendingOf(Ph(s, u)) == Some(w) {
      assert PendingOf(Ph(s', u)) == Some(w);
    }
    if u :| PendingOf(Ph(s', u)) == Some(w) {
      assert PendingOf(Ph(s, u)) == Some(w);
    }
  }

  lemma RemovePending(s: State, t: Tid, v: Vid, i: nat)
    requires PendingOk(s) && LockOk(s) && Ph(s, t) == Removing(v) && i < |s.table|
    ensures PendingOk(Removed(s, t, v, i)) && LockOk(Removed(s, t, v, i))
  {
    var s' := Removed(s, t, v, i);
    assert forall u :: Ph(s', u) == if u == t then Destroying(v) else Ph(s, u);
  }

  lemma RemoveTable(s: State, t: Tid, v: Vid, i: nat)
    requires TableOk(s) && Ph(s, t) == Removing(v) && i < |s.table| && s.table[i] == v
    ensures TableOk(Removed(s, t, v, i))
  {
    var s' := Removed(s, t, v, i);
    RemoveLeaving(s, t, v, i);
    CutTable(s, i);
    assert forall w :: SemNum(s', w) == SemNum(s, w);
    hide Leaving, SemNum;
    assert forall w :: w in s'.table <==> w in s'.vnodes && !s'.vnodes[w].freed && !Leaving(s', w);
    forall k, m | 0 <= k < m < |s'.table|
      ensures SemNum(s', s'.table[k]) != SemNum(s', s'.table[m])
    {
      var k0, m0 := if k < i then k else k + 1, if m < i then m else m + 1;
      assert s'.table[k] == s.table[k0] && s'.table[m] == s.table[m0];
    }
  }

  lemma RemoveLeaving(s: State, t: Tid, v: Vid, i: nat)
    requires Ph(s, t) == Removing(v) && i < |s.table|
    ensures
      var s' := Removed(s, t, v, i);
      Leaving(s', v) && forall w :: w != v ==> Leaving(s', w) == Leaving(s, w)
  {
    var s' := Removed(s, t, v, i);
    assert forall u :: Ph(s', u) == if u == t then Destroying(v) else Ph(s, u);
    assert Leaving(s', v);
    hide Removed, Ph;
    forall w | w != v
      ensures Leaving(s', w) == Leaving(s, w)
    {
      if u :| Ph(s, u) == Destroying(w) {
        assert Ph(s', u) == Destroying(w);
      }
      if u :| Ph(s', u) == Destroying(w) {
        assert Ph(s, u) == Destroying(w);
      }
    }
  }

  lemma CutTable(s: State, i: nat)
    requires TableOk(s) && i < |s.table|
    ensures forall w :: w in s.table[..i] + s.table[i + 1..] <==> w in s.table && w != s.table[i]
  {
    var c := s.table[..i] + s.table[i + 1..];
    forall w | w in s.table && w != s.table[i]
      ensures w in c
    {
      var k :| 0 <= k < |s.table| && s.table[k] == w;
      assert c[if k < i then k else k - 1] == w;
    }
    assert forall k :: 0 <= k < |c| ==> c[k] == s.table[if k < i then k else k + 1];
  }

  lemma RemoveFlags(s: State, t: Tid, v: Vid, i: nat)
    requires TableOk(s) && FlagsOk(s) && Ph(s, t) == Removing(v) && i < |s.table| && s.table[i] == v
    ensures FlagsOk(Removed(s, t, v, i))
  {
    var s' := Removed(s, t, v, i);
    assert forall u :: Ph(s', u) == if u == t then Destroying(v) else Ph(s, u);
    assert forall w :: SemNum(s', w) == SemNum(s, w);
    CutOthers(s, i);
    hide SemNum, TableOk, Listed;
    var n := SemNum(s, v);
    forall m | m in s'.hasvnode && s'.hasvnode[m]
      ensures Listed(s', m)
    {
      assert Listed(s, m) && m != n;
      StaysListed(s, s', i, m);
    }
  }

  /** Whoever stays in the table is of another semaphore. */
  lemma CutOthers(s: State, i: nat)
    requires TableOk(s) && i < |s.table|
    ensures forall w :: w in s.table[..i] + s.table[i + 1..] ==> w in s.table && SemNum(s, w) != SemNum(s, s.table[i])
  {
    hide SemNum;
    CutTable(s, i);
    forall w | w in s.table[..i] + s.table[i + 1..]
      ensures SemNum(s, w) != SemNum(s, s.table[i])
    {
      var k :| 0 <= k < |s.table| && s.table[k] == w;
    }
  }

  lemma StaysListed(s: State, s': State, i: nat, m: int)
    requires i < |s.table| && s'.table == s.table[..i] + s.table[i + 1..] && Listed(s, m)
    requires (forall w :: SemNum(s', w) == SemNum(s, w)) && SemNum(s, s.table[i]) != m
    ensures Listed(s', m)
  {
    hide SemNum;
    var k :| 0 <= k < |s.table| && SemNum(s, s.table[k]) == m;
    assert SemNum(s', s'.table[if k < i then k else k - 1]) == m;
  }

  lemma DestroyKeepsInv(s: State, t: Tid, v: Vid)
    requires Inv(s) && Ph(s, t) == Destroying(v)
    ensures DoDestroy(s, t, v).Ok? && Inv(DoDestroy(s, t, v).s)
  {
    assert PendingOf(Ph(s, t)) == Some(v);
    assert Leaving(s, v);
    assert CountOk(s, v) && Pending(s, v);
    var s' := DoDestroy(s, t, v).s;
    assert forall u :: Ph(s', u) == if u == t then Idle else Ph(s, u);
    assert forall w :: SemNum(s', w) == SemNum(s, w);
    DestroyCounts(s, s', t, v);
    DestroyPending(s, s', t, v);
    DestroyTable(s, s', t, v);
    hide CountsOk, PendingOk, TableOk;
    SameFlags(s, s');
  }

  lemma DestroyCounts(s: State, s': State, t: Tid, v: Vid)
    requires CountsOk(s) && PendingOk(s) && Ph(s, t) == Destroying(v) && v in s.vnodes
    requires forall u :: Ph(s', u) == if u == t then Idle else Ph(s, u)
    requires s'.held == s.held && s'.vnodes == s.vnodes[v := s.vnodes[v].(refcount := 0, freed := true)]
    ensures CountsOk(s')
  {
    OnlyReclaim(s, s', t, v);
    hide Pending;
    forall w | w in s'.vnodes
      ensures CountOk(s', w)
    {
      assert CountOk(s, w);
      if w != v {
        SamePendingBut(s, s', t, v, w);
      }
    }
  }

  lemma DestroyPending(s: State, s': State, t: Tid, v: Vid)
    requires PendingOk(s) && LockOk(s) && Ph(s, t) == Destroying(v)
    requires forall u :: Ph(s', u) == if u == t then Idle else Ph(s, u)
    requires s'.held == s.held && s'.holder == s.holder && s'.vnodes.Keys == s.vnodes.Keys
    ensures PendingOk(s') && LockOk(s')
  {
  }

  lemma DestroyTable(s: State, s': State, t: Tid, v: Vid)
    requires TableOk(s) && Ph(s, t) == Destroying(v) && Leaving(s, v) && v in s.vnodes
    requires forall u :: Ph(s', u) == if u == t then Idle else Ph(s, u)
    requires s'.table == s.table && s'.vnodes == s.vnodes[v := s.vnodes[v].(refcount := 0, freed := true)]
    requires forall w :: SemNum(s', w) == SemNum(s, w)
    ensures TableOk(s')
  {
    forall w | w != v
      ensures Leaving(s', w) == Leaving(s, w)
    {
      if u :| Ph(s, u) == Destroying(w) {
        assert Ph(s', u) == Destroying(w);
      }
      if u :| Ph(s', u) == Destroying(w) {
        assert Ph(s, u) == Destroying(w);
      }
    }
    hide Leaving, SemNum;
  }

  // All steps, all runs

  /** No step crashes: no destroyed vnode is touched, no count goes wrong and
      no flag contradicts the table. */
  lemma ExecKeepsInv(s: State, ev: Event)
    requires Inv(s) && Enabled(s, ev)
    ensures Exec(s, ev).Ok? && Inv(Exec(s, ev).s)
  {
    hide Inv, DoGet, DoDecref, DoCheck, DoRemove, DoDestroy, Referred, Phased;
    match ev
    case AddSem(_, n) => AddSemKeepsInv(s, n);
    case LockToGet(t, n) => LockKeepsInv(s, t, Getting(n));
    case Get(t, nv) => GetKeepsInv(s, t, Ph(s, t).n, nv);
    case Incref(_, v) => IncrefKeepsInv(s, v);
    case Decref(t, v) => DecrefKeepsInv(s, t, v);
    case LockToReclaim(t) => LockKeepsInv(s, t, Locked(Ph(s, t).v));
    case CheckCount(t) => CheckKeepsInv(s, t, Ph(s, t).v);
    case Remove(t) => RemoveKeepsInv(s, t, Ph(s, t).v);
    case Destroy(t) => DestroyKeepsInv(s, t, Ph(s, t).v);
  }

  function Run(s: State, es: seq<Event>): Result {
    if es == [] then Ok(s)
    else
      var r := Run(s, es[..|es| - 1]);
      if r.Crash? then Crash
      else if !Enabled(r.s, es[|es| - 1]) then r
      else Exec(r.s, es[|es| - 1])
  }

  lemma {:induction false} AllRunsKeepInv(es: seq<Event>)
    ensures Run(INIT, es).Ok? && Inv(Run(INIT, es).s)
  {
    hide Inv, Exec, Enabled;
    if es == [] {
      InitInv();
    } else {
      var n := |es| - 1;
      AllRunsKeepInv(es[..n]);
      var s := Run(INIT, es[..n]).s;
      if Enabled(s, es[n]) {
        ExecKeepsInv(s, es[n]);
      }
    }
  }

  /** In every run: two live vnodes of one semaphore never both stand in the
      table, two reclaims of one vnode are never in progress together, and a
      vnode is destroyed only when no client refers to it. */
  lemma VnodeSafety(es: seq<Event>, v: Vid)
    requires Run(INIT, es).Ok?
    ensures
      var s := Run(INIT, es).s;
      && (forall i, j :: 0 <= i < j < |s.table| ==> SemNum(s, s.table[i]) != SemNum(s, s.table[j]))
      && (forall t, u :: PendingOf(Ph(s, t)) == Some(v) && PendingOf(Ph(s, u)) == Some(v) ==> t == u)
      && (v in s.vnodes && s.vnodes[v].freed ==> v in s.held && s.held[v] == 0 && v !in s.table)
      && (v in s.vnodes && !s.vnodes[v].freed ==>
            v in s.held && s.vnodes[v].refcount == s.held[v] + (if Pending(s, v) then 1 else 0))
  {
    AllRunsKeepInv(es);
    hide Run, LockOk, FlagsOk, PendingOf, SemNum;
    var s := Run(INIT, es).s;
    assert v in s.vnodes ==> CountOk(s, v);
    assert v in s.table ==> v in s.vnodes && !s.vnodes[v].freed;
  }

  /** A destroyed vnode stays destroyed, whatever happens next. */
  lemma {:induction false} DestroyedOnce(s: State, es: seq<Event>, v: Vid)
    requires Inv(s) && v in s.vnodes && s.vnodes[v].freed
    ensures Run(s, es).Ok? && Inv(Run(s, es).s)
    ensures v in Run(s, es).s.vnodes && Run(s, es).s.vnodes[v] == s.vnodes[v]
  {
    hide Inv, Exec, Enabled;
    if es != [] {
      var n := |es| - 1;
      DestroyedOnce(s, es[..n], v);
      var t := Run(s, es[..n]).s;
      if Enabled(t, es[n]) {
        ExecKeepsInv(t, es[n]);
        FreedUntouched(t, es[n], v);
      }
    }
  }

  lemma FreedUntouched(s: State, ev: Event, v: Vid)
    requires Enabled(s, ev) && Exec(s, ev).Ok? && v in s.vnodes && s.vnodes[v].freed
    ensures v in Exec(s, ev).s.vnodes && Exec(s, ev).s.vnodes[v] == s.vnodes[v]
  {
    hide FindVnode;
  }

  /** The file system object as the kernel's code changes it. */
  class Semfs {
    var vnodes: map<Vid, Vn>
    var table: seq<Vid>
    var hasvnode: map<int, bool>
    var holder: Option<Tid>
    var phase: map<Tid, Phase>
    ghost var held: map<Vid, int>

    ghost function S(): State
      reads this
    {
      State(vnodes, table, hasvnode, holder, phase, held)
    }

    ghost predicate Valid()
      reads this
    {
      Inv(S())
    }

    /** vnode_incref(). */
    method VopIncref(ghost t: Tid, v: Vid)
      requires Valid() && Enabled(S(), Incref(t, v))
      modifies this
      ensures Valid() && Exec(old(S()), Incref(t, v)) == Ok(S())
      ensures v in old(vnodes) && OneMore(old(S()), S(), v)
      ensures phase == old(phase) && holder == old(holder)
    {
      IncrefKeepsInv(S(), v);
      hide Inv;
      vnodes := vnodes[v := vnodes[v].(refcount := vnodes[v].refcount + 1)];
      held := held[v := held[v] + 1];
    }

    /** vnode_decref() up to its call of reclaim; tells whether there is one. */
    method VopDecref(t: Tid, v: Vid) returns (destroy: bool)
      requires Valid() && Enabled(S(), Decref(t, v))
      modifies this
      ensures Valid() && Exec(old(S()), Decref(t, v)) == Ok(S())
      ensures destroy <==> old(held)[v] == 1 && !Pending(old(S()), v)
      ensures held == old(held)[v := old(held)[v] - 1] && table == old(table) && hasvnode == old(hasvnode)
      ensures v in old(vnodes) && holder == old(holder)
      ensures destroy ==> vnodes == old(vnodes) && phase == old(phase)[t := Reclaiming(v)]
      ensures !destroy ==>
                && phase == old(phase)
                && vnodes == old(vnodes)[v := old(vnodes)[v].(refcount := old(vnodes)[v].refcount - 1)]
    {
      hide Inv, Pending;
      DecrefKeepsInv(S(), t, v);
      DecrefFacts(S(), v);
      held := held[v := held[v] - 1];
      destroy := vnodes[v].refcount <= 1;
      if destroy {
        phase := phase[t := Reclaiming(v)];
      } else {
        vnodes := vnodes[v := vnodes[v].(refcount := vnodes[v].refcount - 1)];
      }
    }

    /** The search loop of semfs_getvnode(). */
    method Search(n: int) returns (i: nat)
      requires forall v :: v in table ==> v in vnodes
      ensures i == FindSem(S(), n, 0)
    {
      i := 0;
      while i < |table|
        invariant i <= |table| && FindSem(S(), n, 0) == FindSem(S(), n, i)
      {
        if vnodes[table[i]].semnum == n {
          return;
        }
        i := i + 1;
      }
    }

    method TakeListed(t: Tid, v: Vid)
      requires Live(S(), v)
      modifies this
      ensures Referred(Phased(old(S()), t, Idle).(holder := None), v) == Ok(S())
    {
      phase, holder := phase[t := Idle], None;
      vnodes := vnodes[v := vnodes[v].(refcount := vnodes[v].refcount + 1)];
      held := held[v := held[v] + 1];
    }

    method MakeVnode(t: Tid, n: int, nv: Vid)
      modifies this
      ensures S() == Added(old(S()), t, n, nv)
    {
      phase, holder := phase[t := Idle], None;
      vnodes, held := vnodes[nv := Vn(n, 1, false)], held[nv := 1];
      table := table + [nv];
      if n != ROOTDIR {
        hasvnode := hasvnode[n := true];
      }
    }

    /** semfs_getvnode(): the vnode of semaphore n, made if there is none. */
    method GetVnode(t: Tid, nv: Vid) returns (v: Vid)
      requires Valid() && Enabled(S(), Get(t, nv))
      modifies this
      ensures Valid() && DoGet(old(S()), t, Ph(old(S()), t).n, nv) == Ok(S())
      ensures v in table && SemNum(S(), v) == Ph(old(S()), t).n && Live(S(), v) && held[v] > 0
      ensures phase == old(phase)[t := Idle] && holder == None
      ensures v in old(table) ==> v in old(vnodes) && OneMore(old(S()), S(), v)
      ensures v !in old(table) ==>
                var n := Ph(old(S()), t).n;
                && v == nv && (forall u :: u in old(table) ==> SemNum(old(S()), u) != n)
                && vnodes == old(vnodes)[v := Vn(n, 1, false)] && held == old(held)[v := 1]
                && table == old(table) + [v]
                && hasvnode == if n == ROOTDIR then old(hasvnode) else old(hasvnode)[n := true]
    {
      hide Inv, Referred, Added, DoGet;
      ghost var s := S();
      var n := phase[t].n;
      GetKeepsInv(s, t, n, nv);
      ListedLive(s);
      var i := Search(n);
      GetCases(s, t, n, nv);
      if i < |table| {
        v := table[i];
        assert v in table;
        TakeListed(t, v);
        ReferredFacts(s, t, v);
      } else {
        v := nv;
        MakeVnode(t, n, nv);
        AddedFacts(s, t, n, nv);
      }
    }

    /** semfs_reclaim() up to its decision; tells whether v goes. */
    method ReclaimCheck(t: Tid) returns (last: bool)
      requires Valid() && Enabled(S(), CheckCount(t))
      modifies this
      ensures Valid() && Exec(old(S()), CheckCount(t)) == Ok(S())
      ensures last <==> Ph(S(), t).Removing?
      ensures
        var v := Ph(old(S()), t).v;
        && table == old(table) && hasvnode == old(hasvnode) && held == old(held) && v in old(vnodes)
        && (last <==> old(vnodes)[v].refcount <= 1)
        && if last then vnodes == old(vnodes) && holder == old(holder) && phase == old(phase)[t := Removing(v)]
           else
             && vnodes == old(vnodes)[v := old(vnodes)[v].(refcount := old(vnodes)[v].refcount - 1)]
             && holder == None && phase == old(phase)[t := Idle]
    {
      hide Inv;
      var v := phase[t].v;
      CheckKeepsInv(S(), t, v);
      last := vnodes[v].refcount <= 1;
      if last {
        phase := phase[t := Removing(v)];
      } else {
        vnodes := vnodes[v := vnodes[v].(refcount := vnodes[v].refcount - 1)];
        phase, holder := phase[t := Idle], None;
      }
    }

    /** The removal loop of semfs_reclaim(). */
    method ReclaimRemove(t: Tid)
      requires Valid() && Enabled(S(), Remove(t))
      modifies this
      ensures Valid() && Exec(old(S()), Remove(t)) == Ok(S())
      ensures
        var v := Ph(old(S()), t).v;
        && OffTable(old(table), table, v)
        && vnodes == old(vnodes) && held == old(held) && v in vnodes
        && phase == old(phase)[t := Destroying(v)] && holder == None
        && hasvnode == if vnodes[v].semnum == ROOTDIR then old(hasvnode) else old(hasvnode)[vnodes[v].semnum := false]
    {
      hide Inv, FindVnode, OffTable, DoRemove;
      ghost var s := S();
      RemovesListed(s, t);
      var v := phase[t].v;
      RemoveKeepsInv(S(), t, v);
      var i := Position(table, v);
      var n := vnodes[v].semnum;
      phase, holder := phase[t := Destroying(v)], None;
      if i < |table| {
        table := table[..i] + table[i + 1..];
      }
      if n != ROOTDIR {
        hasvnode := hasvnode[n := false];
      }
      RemoveIs(s, t, v, i);
    }
  }

  lemma RemoveIs(s: State, t: Tid, v: Vid, i: nat)
    requires DoRemove(s, t, v).Ok? && v in s.vnodes && i == FindVnode(s.table, v, 0) < |s.table|
    ensures
      var n := s.vnodes[v].semnum;
      DoRemove(s, t, v).s == s.(
        phase := s.phase[t := Destroying(v)], holder := None, table := s.table[..i] + s.table[i + 1..],
        hasvnode := if n == ROOTDIR then s.hasvnode else s.hasvnode[n := false])
  {
    hide FindVnode;
  }

  /** A reference to v more, and nothing else. */
  ghost predicate OneMore(s: State, s': State, v: Vid) {
    && v in s.vnodes && v in s.held
    && s'.vnodes == s.vnodes[v := s.vnodes[v].(refcount := s.vnodes[v].refcount + 1)]
    && s'.held == s.held[v := s.held[v] + 1]
    && s'.table == s.table && s'.hasvnode == s.hasvnode
  }

  /** Exactly v has left the table. */
  ghost predicate OffTable(table: seq<Vid>, table': seq<Vid>, v: Vid) {
    v in table && forall u :: u in table' <==> u in table && u != v
  }

  lemma RemovesListed(s: State, t: Tid)
    requires Inv(s) && Ph(s, t).Removing?
    ensures
      var v := Ph(s, t).v;
      var i := FindVnode(s.table, v, 0);
      i < |s.table| && v in s.vnodes && OffTable(s.table, s.table[..i] + s.table[i + 1..], v)
  {
    hide PendingOk, CountsOk, LockOk, FlagsOk;
    var v := Ph(s, t).v;
    StillListed(s, t, v);
    CutTable(s, FindVnode(s.table, v, 0));
  }

  method Position(table: seq<Vid>, v: Vid) returns (i: nat)
    ensures i == FindVnode(table, v, 0)
  {
    i := 0;
    while i < |table|
      invariant i <= |table| && FindVnode(table, v, 0) == FindVnode(table, v, i)
    {
      if table[i] == v {
        return;
      }
      i := i + 1;
    }
  }

  lemma GetCases(s: State, t: Tid, n: int, nv: Vid)
    requires DoGet(s, t, n, nv).Ok?
    ensures
      var i := FindSem(s, n, 0);
      DoGet(s, t, n, nv) == if i < |s.table| then Referred(Phased(s, t, Idle).(holder := None), s.table[i])
                            else Ok(Added(s, t, n, nv))
  {
    hide FindSem;
  }

  lemma ReferredFacts(s: State, t: Tid, v: Vid)
    requires Live(s, v) && s.held[v] >= 0 && v in s.table
    ensures
      var r := Referred(Phased(s, t, Idle).(holder := None), v);
      && r.Ok? && v in r.s.table && SemNum(r.s, v) == SemNum(s, v) && Live(r.s, v) && r.s.held[v] > 0
      && OneMore(s, r.s, v) && r.s.phase == s.phase[t := Idle] && r.s.holder == None
  {
  }

  lemma AddedFacts(s: State, t: Tid, n: int, nv: Vid)
    ensures
      var u := Added(s, t, n, nv);
      && nv in u.table && SemNum(u, nv) == n && Live(u, nv) && u.held[nv] > 0
      && u.phase == s.phase[t := Idle] && u.holder == None && u.vnodes == s.vnodes[nv := Vn(n, 1, false)]
      && u.held == s.held[nv := 1] && u.table == s.table + [nv]
      && u.hasvnode == if n == ROOTDIR then s.hasvnode else s.hasvnode[n := true]
  {
    var u := Added(s, t, n, nv);
    assert u.table[|s.table|] == nv;
  }

  lemma DecrefFacts(s: State, v: Vid)
    requires Inv(s) && v in s.held && s.held[v] > 0
    ensures Live(s, v) && s.vnodes[v].refcount > 0
    ensures s.vnodes[v].refcount <= 1 <==> s.held[v] == 1 && !Pending(s, v)
  {
    hide Pending;
    assert CountOk(s, v);
  }

  lemma ListedLive(s: State)
    requires Inv(s)
    ensures forall v :: v in s.table ==> Live(s, v) && s.held[v] >= 0
  {
    hide FlagsOk, LockOk, PendingOk;
    forall v | v in s.table
      ensures Live(s, v) && s.held[v] >= 0
    {
      assert CountOk(s, v);
    }
  }
}
