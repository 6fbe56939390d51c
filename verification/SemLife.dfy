/** The life of one semaphore of the semaphore file system,
    kern/fs/semfs/semfs_vnops.c: it goes when it has been removed from the
    directory and its vnode has been reclaimed, whichever comes last.

    semfs_remove clears the link flag and looks at the vnode flag under the
    semaphore's lock; semfs_reclaim clears the vnode flag and looks at the link
    flag under the table lock. Every event is one access to the semaphore, or
    one hold of the table lock; the number of vnode references includes the
    one that vnode_decref hands to reclaim. */
module SemLife {

  /** Where semfs_remove is. It has the directory lock from Found on, and the
      semaphore's lock while Holds says so. */
  datatype Removal =
    | Present    // in the directory
    | Found
    | Unlinked   // link flag cleared
    | SawNone    // ... and no vnode seen
    | Unlisted   // ... semaphore taken off the array
    | SawVnode   // ... or a vnode seen
    | ToDestroy  // semaphore's lock dropped
    | Removed

  /** Where semfs_reclaim is. It has the table lock from Alone on. */
  datatype Reclaim =
    | Nobody
    | Handed       // a thread was handed the last reference
    | Alone        // nobody else refers to the vnode
    | Cleared      // vnode flag cleared
    | SawUnlinked  // ... and no link seen
    | Leaving

  datatype State = State(
    linked: bool,    // sems_linked
    hasvnode: bool,  // sems_hasvnode
    listed: bool,    // on semfs_sems
    freed: bool,
    refs: nat,       // to the vnode; 0: there is none
    rem: Removal,
    rec: Reclaim)

  /** What semfs_creat leaves. */
  const INIT := State(true, true, true, false, 1, Present, Nobody)

  datatype Event =
    | Lookup | Incref | Drop
    | RemFind | RemClear | RemTest | RemUnlist | RemUnlock | RemDestroy
    | RecLock | RecClear | RecTest | RecDestroy | RecLeave

  /** Fault: the semaphore is used or destroyed after it was destroyed, its
      lock is destroyed while held, or an assertion fails. */
  datatype Result = Ok(s: State) | Fault

  /** Removal has the semaphore's lock. */
  predicate Holds(rem: Removal) {
    rem.Unlinked? || rem.SawNone? || rem.Unlisted? || rem.SawVnode?
  }

  predicate TableFree(s: State) {
    s.rec.Nobody? || s.rec.Handed?
  }

  /** References in the hands of clients. */
  function Clients(s: State): int {
    s.refs - if s.rec.Nobody? then 0 else 1
  }

  predicate Enabled(s: State, e: Event) {
    match e
    case Lookup => s.rem.Present? && TableFree(s)
    case Incref => Clients(s) > 0
    case Drop => Clients(s) > 0
    case RemFind => s.rem.Present? && TableFree(s)
    case RemClear => s.rem.Found?
    case RemTest => s.rem.Unlinked?
    case RemUnlist => s.rem.SawNone? && TableFree(s)
    case RemUnlock => s.rem.Unlisted? || s.rem.SawVnode?
    case RemDestroy => s.rem.ToDestroy?
    case RecLock => s.rec.Handed?
    case RecClear => s.rec.Alone?
    case RecTest => s.rec.Cleared?
    case RecDestroy => s.rec.SawUnlinked?
    case RecLeave => s.rec.Leaving?
  }

  /** semfs_sem_destroy. */
  function Destroyed(s: State): Result {
    if s.freed || Holds(s.rem) then Fault else Ok(s.(freed := true))
  }

  function Exec(s: State, e: Event): Result {
    match e
    case Lookup =>
      if s.refs > 0 then Ok(s.(refs := s.refs + 1))
      else if s.freed || !s.listed || s.hasvnode then Fault
      else Ok(s.(hasvnode := true, refs := 1))
    case Incref => Ok(s.(refs := s.refs + 1))
    case Drop => if s.refs > 1 then Ok(s.(refs := s.refs - 1)) else Ok(s.(rec := Handed))
    case RemFind => if !s.listed then Fault else Ok(s.(rem := Found))
    case RemClear => if s.freed || !s.linked then Fault else Ok(s.(linked := false, rem := Unlinked))
    case RemTest => if s.freed then Fault else Ok(s.(rem := if s.hasvnode then SawVnode else SawNone))
    case RemUnlist => Ok(s.(listed := false, rem := Unlisted))
    case RemUnlock => if s.freed then Fault else Ok(s.(rem := if s.rem.Unlisted? then ToDestroy else Removed))
    case RemDestroy => Destroyed(s.(rem := Removed))
    case RecLock => if s.refs > 1 then Ok(s.(refs := s.refs - 1, rec := Nobody)) else Ok(s.(rec := Alone))
    case RecClear =>
      if !s.listed || s.freed || !s.hasvnode then Fault else Ok(s.(hasvnode := false, rec := Cleared))
    case RecTest => if s.freed then Fault else Ok(s.(rec := if s.linked then Leaving else SawUnlinked))
    case RecDestroy => Destroyed(s.(listed := false, rec := Leaving))
    case RecLeave => Ok(s.(refs := if s.refs > 0 then s.refs - 1 else 0, rec := Nobody))
  }

  /** The vnode flag is already off though the vnode is still there. */
  predicate Half(rec: Reclaim) {
    rec.Cleared? || rec.SawUnlinked? || rec.Leaving?
  }

  ghost predicate Inv(s: State) {
    && (s.linked <==> s.rem.Present? || s.rem.Found?)
    && (s.hasvnode <==> s.refs > 0 && !Half(s.rec))
    && (!s.rec.Nobody? ==> s.refs > 0) && (!TableFree(s) ==> s.refs == 1)
    && (s.rec.SawUnlinked? ==> !s.linked)
    // What removal has seen.
    && (s.rem.SawVnode? ==> s.refs > 0 && !s.rec.Leaving?)
    && (s.rem.SawNone? ==> s.refs == 0 || Half(s.rec))
    && (s.rem.Unlisted? || s.rem.ToDestroy? ==> s.refs == 0)
    && (!s.listed ==>
          && (s.rem.Unlisted? || s.rem.ToDestroy? || s.rem.Removed?)
          && (s.refs == 0 || s.rec.Leaving?))
    // Destroyed when, and only when, neither removal nor a vnode needs it.
    && (s.freed <==> s.rem.Removed? && (s.refs == 0 || s.rec.Leaving?))
  }

  /** A step fails if and only if reclaim destroys the semaphore while removal
      has its lock. */
  lemma ExecKeepsInv(s: State, e: Event)
    requires Inv(s) && Enabled(s, e)
    ensures Exec(s, e).Fault? <==> e.RecDestroy? && Holds(s.rem)
    ensures Exec(s, e).Ok? ==> Inv(Exec(s, e).s)
  {
  }

  /** How references come and go. */
  lemma RefSteps(s: State, e: Event)
    requires Inv(s) && Enabled(s, e) && Exec(s, e).Ok?
    ensures
      var t := Exec(s, e).s;
      && (e.Lookup? || e.Incref? ==> t.refs == s.refs + 1 && Clients(t) == Clients(s) + 1)
      && (e.Drop? ==> Clients(t) == Clients(s) - 1 && (t.refs == s.refs <==> t.rec.Handed? && s.rec.Nobody?))
      && (e.RecLock? && s.refs > 1 ==> t.refs == s.refs - 1 && t.rec == Nobody)
      && (e.RecLeave? ==> t.refs == 0)
  {
  }

  function Run(s: State, es: seq<Event>): Result {
    if es == [] then Ok(s)
    else
      var r := Run(s, es[..|es| - 1]);
      if r.Fault? then Fault
      else if !Enabled(r.s, es[|es| - 1]) then r
      else Exec(r.s, es[|es| - 1])
  }

  /** Somewhere in the run reclaim destroys the semaphore while removal has
      its lock. */
  ghost predicate DestroysHeld(s: State, es: seq<Event>) {
    es != [] &&
    var r := Run(s, es[..|es| - 1]);
    DestroysHeld(s, es[..|es| - 1])
    || (r.Ok? && es[|es| - 1].RecDestroy? && r.s.rec.SawUnlinked? && Holds(r.s.rem))
  }

  /** That is exactly when a run fails. A run that does not fail has the
      semaphore destroyed, once, exactly when it is out of the directory and
      without vnode. */
  lemma {:induction false} RunFailsIff(es: seq<Event>)
    ensures Run(INIT, es).Fault? <==> DestroysHeld(INIT, es)
    ensures Run(INIT, es).Ok? ==> Inv(Run(INIT, es).s)
  {
    hide Inv, Exec;
    if es == [] {
      InitInv();
    } else {
      var n := |es| - 1;
      RunFailsIff(es[..n]);
      var r := Run(INIT, es[..n]);
      if r.Ok? && Enabled(r.s, es[n]) {
        ExecKeepsInv(r.s, es[n]);
      }
    }
  }

  lemma DestroyedOnce(es: seq<Event>)
    requires !DestroysHeld(INIT, es)
    ensures Run(INIT, es).Ok?
    ensures var s := Run(INIT, es).s; s.freed <==> s.rem.Removed? && (s.refs == 0 || s.rec.Leaving?)
  {
    RunFailsIff(es);
    hide Run, DestroysHeld;
  }

  lemma InitInv()
    ensures Inv(INIT)
  {
  }

  /** Both flags are off, and neither side has found the other's flag set. */
  predicate BothCleared(s: State) {
    (s.rem.Unlinked? || s.rem.SawNone?) && (s.rec.Cleared? || s.rec.SawUnlinked?)
  }

  /** How many tests are still to come, and the destruction. */
  function Rank(s: State): nat {
    (if s.rem.Unlinked? then 1 else 0) + if s.rec.Cleared? then 1 else 0
  }

  /** Once both flags are cleared before either test, failure is certain: any
      step that can be taken leads on, by at most two tests, to the one that
      fails. */
  lemma BothClearedFails(s: State, e: Event)
    requires Inv(s) && BothCleared(s) && Enabled(s, e)
    ensures Exec(s, e).Fault? || (BothCleared(Exec(s, e).s) && Rank(Exec(s, e).s) < Rank(s))
    ensures Exec(s, e).Fault? <==> e.RecDestroy?
    ensures Rank(s) == 0 ==> e.RecDestroy?
  {
  }

  lemma BothClearedGoesOn(s: State)
    requires Inv(s) && BothCleared(s)
    ensures Enabled(s, RecTest) || Enabled(s, RecDestroy)
  {
  }

  /** Conversely reclaim destroys in removal's time only if both flags were
      cleared before both tests, or removal saw the vnode and has yet to drop
      the lock. */
  lemma FailureNeeds(s: State)
    requires Inv(s) && s.rec.SawUnlinked? && Holds(s.rem)
    ensures BothCleared(s) || s.rem.SawVnode?
  {
  }

  /** One step at the end of a run. */
  lemma OneMore(es: seq<Event>, s: State, e: Event)
    requires Run(INIT, es) == Ok(s) && Enabled(s, e)
    ensures Run(INIT, es + [e]) == Exec(s, e)
  {
    assert (es + [e])[..|es|] == es;
  }

  /** The only client drops its reference while the semaphore is removed, up
      to where removal has cleared its flag and reclaim has the table lock. */
  lemma Race() returns (es: seq<Event>)
    ensures Run(INIT, es) == Ok(State(false, true, true, false, 1, Unlinked, Alone))
  {
    var s0 := INIT;
    es := [];
    OneMore(es, s0, Drop);
    var s1 := s0.(rec := Handed);
    es := es + [Drop];
    OneMore(es, s1, RemFind);
    var s2 := s1.(rem := Found);
    es := es + [RemFind];
    OneMore(es, s2, RecLock);
    var s3 := s2.(rec := Alone);
    es := es + [RecLock];
    OneMore(es, s3, RemClear);
    es := es + [RemClear];
  }

  /** From there: both clear before either tests, and the run fails. */
  lemma BothClear() returns (es: seq<Event>)
    ensures Run(INIT, es).Fault?
  {
    es := Race();
    var s0 := State(false, true, true, false, 1, Unlinked, Alone);
    OneMore(es, s0, RecClear);
    var s1 := s0.(hasvnode := false, rec := Cleared);
    es := es + [RecClear];
    OneMore(es, s1, RemTest);
    var s2 := s1.(rem := SawNone);
    es := es + [RemTest];
    OneMore(es, s2, RecTest);
    var s3 := s2.(rec := SawUnlinked);
    es := es + [RecTest];
    OneMore(es, s3, RecDestroy);
    es := es + [RecDestroy];
  }

  /** Or removal sees the vnode and drops the lock in time, and reclaim
      destroys the semaphore. */
  lemma InTime() returns (es: seq<Event>)
    ensures Run(INIT, es) == Ok(State(false, false, false, true, 0, Removed, Nobody))
  {
    es := Race();
    var s0 := State(false, true, true, false, 1, Unlinked, Alone);
    OneMore(es, s0, RemTest);
    var s1 := s0.(rem := SawVnode);
    es := es + [RemTest];
    OneMore(es, s1, RemUnlock);
    var s2 := s1.(rem := Removed);
    es := es + [RemUnlock];
    OneMore(es, s2, RecClear);
    var s3 := s2.(hasvnode := false, rec := Cleared);
    es := es + [RecClear];
    OneMore(es, s3, RecTest);
    var s4 := s3.(rec := SawUnlinked);
    es := es + [RecTest];
    OneMore(es, s4, RecDestroy);
    var s5 := s4.(listed := false, freed := true, rec := Leaving);
    es := es + [RecDestroy];
    OneMore(es, s5, RecLeave);
    es := es + [RecLeave];
  }
}
