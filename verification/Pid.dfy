/** Waiting for and exiting processes, kern/thread/pid.c, on top of the
    condition variables of kern/thread/synch.c.

    A state holds the pid table, every table entry ever created, the table
    lock and one program counter per process; processes have one thread each.
    Every event is one atomic step: taking or dropping the table lock or a
    condition variable's spinlock, or what is done under them. */
module Pid {
  import opened Wrappers

  type Proc = int
  type Eid = int

  const PID_MIN := 2
  const PID_MAX := 32767

  /** The kernel process; it has no table entry. */
  const KERNEL_PID := 1

  datatype Entry = Entry(
    pid: int,
    ppid: int,
    estatus: int,
    exited: bool,
    freed: bool,
    cvlock: Option<Proc>,  // who holds the spinlock of pid_cv
    sleepers: set<Proc>)   // asleep on pid_cv's channel

  /** Where a process is. `e` is the entry it waits for or leaves. */
  datatype Phase =
    | Running
    | Creating           // in pid_create, table lock held
    | Looking(pid: int)  // in pid_wait, table lock held
    | Waiting(e: Eid)    // in cv_wait, table lock held
    | CvHeld(e: Eid)     // ... and the spinlock too
    | Falling(e: Eid)    // ... table lock dropped
    | Asleep(e: Eid)     // ... on the channel, spinlock dropped
    | Woken(e: Eid)      // ... made runnable
    | Relocking(e: Eid)  // ... wants the table lock again
    | Reaping(e: Eid)    // in pid_wait again, table lock held
    | Exiting(status: int)  // in pid_exit, table lock held
    | Marked(e: Eid)     // ... exit status stored
    | Waking(e: Eid)     // in cv_broadcast, spinlock held too
    | Woke(e: Eid)       // ... channel emptied
    | Leaving(e: Eid)    // ... spinlock dropped

  datatype WaitResult = NoResult | Esrch | Echild | Exited(e: Eid, status: int)

  datatype Process = Process(pid: int, entry: Option<Eid>, phase: Phase, result: WaitResult)

  datatype State = State(
    table: map<int, Eid>,
    entries: map<Eid, Entry>,
    holder: Option<Proc>,
    procs: map<Proc, Process>,
    told: map<Eid, int>)  // the status a process passed to pid_exit

  const INIT := State(map[], map[], None, map[0 := Process(KERNEL_PID, None, Running, NoResult)], map[])

  datatype Event =
    | LockToCreate(a: Proc)
    | Create(a: Proc, child: Proc, e: Eid)
    | LockToWait(a: Proc, pid: int)
    | Look(a: Proc)
    | TakeCv(a: Proc)
    | DropLock(a: Proc)
    | Sleep(a: Proc)
    | Touch(a: Proc)
    | Relock(a: Proc)
    | Reap(a: Proc)
    | LockToExit(a: Proc, status: int)
    | Mark(a: Proc)
    | TakeCvToWake(a: Proc)
    | WakeAll(a: Proc)
    | DropCv(a: Proc)
    | Leave(a: Proc)

  datatype Result = Ok(s: State) | Crash

  // pid_next

  /** The first free pid from i on, -1 if there is none. */
  function NextFrom(table: map<int, Eid>, i: int): (r: int)
    requires i >= PID_MIN
    ensures r == -1 ==> forall p :: i <= p <= PID_MAX ==> p in table
    ensures r != -1 ==> i <= r <= PID_MAX && r !in table && forall p :: i <= p < r ==> p in table
    decreases PID_MAX + 1 - i
  {
    if i > PID_MAX then -1 else if i !in table then i else NextFrom(table, i + 1)
  }

  /** pid_next(): the lowest free pid; -1 exactly when all are taken. */
  method PidNext(table: map<int, Eid>) returns (r: int)
    ensures r == NextFrom(table, PID_MIN)
    ensures r == -1 <==> forall p :: PID_MIN <= p <= PID_MAX ==> p in table
    ensures r != -1 ==> PID_MIN <= r <= PID_MAX && r !in table && forall p :: PID_MIN <= p < r ==> p in table
  {
    var i := PID_MIN;
    r := -1;
    while i <= PID_MAX
      invariant PID_MIN <= i <= PID_MAX + 1 && NextFrom(table, PID_MIN) == NextFrom(table, i)
      decreases PID_MAX + 1 - i
    {
      if i !in table {
        return i;
      }
      i := i + 1;
    }
  }

  // Steps

  function Phased(s: State, a: Proc, ph: Phase): State
    requires a in s.procs
  {
    s.(procs := s.procs[a := s.procs[a].(phase := ph)])
  }

  /** The process goes back to its program with the result of pid_wait. */
  function Returned(s: State, a: Proc, r: WaitResult): State
    requires a in s.procs
  {
    s.(holder := None, procs := s.procs[a := s.procs[a].(phase := Running, result := r)])
  }

  /** The spinlock of e's condition variable can be taken, or e is gone and
      touching it is an error. */
  predicate CvReady(s: State, e: Eid) {
    e in s.entries && (s.entries[e].freed || s.entries[e].cvlock == None)
  }

  predicate Enabled(s: State, ev: Event) {
    && ev.a in s.procs
    && var ph := s.procs[ev.a].phase;
       match ev
       case LockToCreate(_) => ph.Running? && s.holder == None
       case Create(_, child, e) => ph.Creating? && child !in s.procs && e !in s.entries
       case LockToWait(_, pid) => ph.Running? && s.holder == None && PID_MIN <= pid <= PID_MAX
       case Look(_) => ph.Looking?
       case TakeCv(_) => ph.Waiting? && CvReady(s, ph.e)
       case DropLock(_) => ph.CvHeld?
       case Sleep(_) => ph.Falling? && ph.e in s.entries
       case Touch(_) => ph.Woken? && CvReady(s, ph.e)
       case Relock(_) => ph.Relocking? && s.holder == None
       case Reap(_) => ph.Reaping? && ph.e in s.entries
       case LockToExit(_, _) => ph.Running? && s.holder == None && s.procs[ev.a].entry.Some?
       case Mark(_) => ph.Exiting?
       case TakeCvToWake(_) => ph.Marked? && CvReady(s, ph.e)
       case WakeAll(_) => ph.Waking? && ph.e in s.entries
       case DropCv(_) => ph.Woke? && ph.e in s.entries
       case Leave(_) => ph.Leaving?
  }

  function DoCreate(s: State, a: Proc, child: Proc, e: Eid): State
    requires a in s.procs
  {
    var pid := NextFrom(s.table, PID_MIN);
    var t := Phased(s, a, Running).(holder := None);
    if pid == -1 then t
    else t.(table := t.table[pid := e],
            entries := t.entries[e := Entry(pid, s.procs[a].pid, 0, false, false, None, {})],
            procs := t.procs[child := Process(pid, Some(e), Running, NoResult)])
  }

  function DoLook(s: State, a: Proc, pid: int): Result
    requires a in s.procs
  {
    if pid !in s.table then Ok(Returned(s, a, Esrch))
    else
      var e := s.table[pid];
      if e !in s.entries || s.entries[e].freed then Crash
      else if s.entries[e].ppid != s.procs[a].pid then Ok(Returned(s, a, Echild))
      else if s.entries[e].exited then Ok(Phased(s, a, Reaping(e)))
      else Ok(Phased(s, a, Waiting(e)))
  }

  /** pid_destroy insists, through its helpers, that the channel is empty and
      the spinlock free. */
  function DoReap(s: State, a: Proc, e: Eid): Result
    requires a in s.procs && e in s.entries
  {
    var x := s.entries[e];
    if x.freed || x.sleepers != {} || x.cvlock != None then Crash
    else Ok(Returned(s, a, Exited(e, x.estatus)).(table := s.table - {x.pid},
                                                  entries := s.entries[e := x.(freed := true)]))
  }

  function DoMark(s: State, a: Proc, status: int): Result
    requires a in s.procs
  {
    var pid := s.procs[a].pid;
    if pid !in s.table || s.table[pid] !in s.entries || s.entries[s.table[pid]].freed then Crash
    else
      var e := s.table[pid];
      Ok(Phased(s, a, Marked(e)).(entries := s.entries[e := s.entries[e].(exited := true, estatus := status)]))
  }

  function CvTaken(s: State, a: Proc, e: Eid, ph: Phase): Result
    requires a in s.procs && e in s.entries
  {
    if s.entries[e].freed then Crash
    else Ok(Phased(s, a, ph).(entries := s.entries[e := s.entries[e].(cvlock := Some(a))]))
  }

  function DoWakeAll(s: State, a: Proc, e: Eid): State
    requires a in s.procs && e in s.entries
  {
    var z := s.entries[e].sleepers;
    s.(entries := s.entries[e := s.entries[e].(sleepers := {})],
       procs := map p | p in s.procs ::
         if p == a then s.procs[a].(phase := Woke(e))
         else if p in z then s.procs[p].(phase := Woken(e))
         else s.procs[p])
  }

  function Slept(s: State, a: Proc, e: Eid): State
    requires a in s.procs && e in s.entries
  {
    var x := s.entries[e];
    Phased(s, a, Asleep(e)).(entries := s.entries[e := x.(cvlock := None, sleepers := x.sleepers + {a})])
  }

  function CvDropped(s: State, a: Proc, e: Eid): State
    requires a in s.procs && e in s.entries
  {
    Phased(s, a, Leaving(e)).(entries := s.entries[e := s.entries[e].(cvlock := None)])
  }

  function Exec(s: State, ev: Event): Result
    requires Enabled(s, ev)
  {
    var a := ev.a;
    var ph := s.procs[a].phase;
    match ev
    case LockToCreate(_) => Ok(Phased(s, a, Creating).(holder := Some(a)))
    case Create(_, child, e) => Ok(DoCreate(s, a, child, e))
    case LockToWait(_, pid) => Ok(Phased(s, a, Looking(pid)).(holder := Some(a)))
    case Look(_) => DoLook(s, a, ph.pid)
    case TakeCv(_) => CvTaken(s, a, ph.e, CvHeld(ph.e))
    case DropLock(_) => Ok(Phased(s, a, Falling(ph.e)).(holder := None))
    case Sleep(_) => Ok(Slept(s, a, ph.e))
    case Touch(_) => if s.entries[ph.e].freed then Crash else Ok(Phased(s, a, Relocking(ph.e)))
    case Relock(_) => Ok(Phased(s, a, Reaping(ph.e)).(holder := Some(a)))
    case Reap(_) => DoReap(s, a, ph.e)
    case LockToExit(_, status) =>
      Ok(Phased(s, a, Exiting(status)).(holder := Some(a), told := s.told[s.procs[a].entry.value := status]))
    case Mark(_) => DoMark(s, a, ph.status)
    case TakeCvToWake(_) => CvTaken(s, a, ph.e, Waking(ph.e))
    case WakeAll(_) => Ok(DoWakeAll(s, a, ph.e))
    case DropCv(_) => Ok(CvDropped(s, a, ph.e))
    case Leave(_) => Ok(Left(s, a))
  }

  // The invariant

  predicate HoldsLock(ph: Phase) {
    ph.Creating? || ph.Looking? || ph.Waiting? || ph.CvHeld? || ph.Reaping? || ph.Exiting? || ph.Marked? || ph.Waking?
    || ph.Woke? || ph.Leaving?
  }

  /** The condition variable whose spinlock the process holds. */
  function CvOf(ph: Phase): Option<Eid> {
    match ph
    case CvHeld(e) => Some(e)
    case Falling(e) => Some(e)
    case Waking(e) => Some(e)
    case Woke(e) => Some(e)
    case _ => None
  }

  function SleepOf(ph: Phase): Option<Eid> {
    if ph.Asleep? then Some(ph.e) else None
  }

  /** In pid_wait: the entry found. */
  function WaitOf(ph: Phase): Option<Eid> {
    match ph
    case Waiting(e) => Some(e)
    case CvHeld(e) => Some(e)
    case Falling(e) => Some(e)
    case Asleep(e) => Some(e)
    case Woken(e) => Some(e)
    case Relocking(e) => Some(e)
    case Reaping(e) => Some(e)
    case _ => None
  }

  /** In pid_exit: the entry whose status has been stored. */
  function ExitOf(ph: Phase): Option<Eid> {
    match ph
    case Marked(e) => Some(e)
    case Waking(e) => Some(e)
    case Woke(e) => Some(e)
    case Leaving(e) => Some(e)
    case _ => None
  }

  /** In pid_exit: the entry whose channel is yet to be emptied. */
  function WakeOf(ph: Phase): Option<Eid> {
    match ph
    case Marked(e) => Some(e)
    case Waking(e) => Some(e)
    case _ => None
  }

  ghost predicate LiveEntry(s: State, e: Eid) {
    e in s.entries && !s.entries[e].freed
  }

  /** Table and live entries name each other. */
  ghost predicate TableOk(s: State) {
    && (forall p :: p in s.table ==> PID_MIN <= p <= PID_MAX && LiveEntry(s, s.table[p]) && s.entries[s.table[p]].pid == p)
    && (forall e :: LiveEntry(s, e) ==> s.entries[e].pid in s.table && s.table[s.entries[e].pid] == e)
  }

  /** Every process but the kernel owns a live entry of its own, under its
      own pid. */
  ghost predicate OwnersOk(s: State) {
    && (forall a :: a in s.procs && s.procs[a].entry.Some? ==>
          LiveEntry(s, s.procs[a].entry.value) && s.entries[s.procs[a].entry.value].pid == s.procs[a].pid)
    && (forall a, b :: a in s.procs && b in s.procs && s.procs[a].entry == s.procs[b].entry ==> a == b)
    && (forall a :: a in s.procs && s.procs[a].entry.None? ==> s.procs[a].pid == KERNEL_PID)
  }

  ghost predicate LockOk(s: State) {
    && (forall a :: a in s.procs ==> (HoldsLock(s.procs[a].phase) <==> s.holder == Some(a)))
    && (s.holder.Some? ==> s.holder.value in s.procs)
  }

  ghost predicate CvsOk(s: State) {
    && (forall e, a :: e in s.entries ==>
          (s.entries[e].cvlock == Some(a) <==> a in s.procs && CvOf(s.procs[a].phase) == Some(e)))
    && (forall e, a :: e in s.entries ==>
          (a in s.entries[e].sleepers <==> a in s.procs && SleepOf(s.procs[a].phase) == Some(e)))
  }

  /** A waiter is the parent of what it waits for. */
  ghost predicate WaitOk(s: State, q: Process) {
    var w := WaitOf(q.phase);
    w.Some? ==> LiveEntry(s, w.value) && s.entries[w.value].ppid == q.pid && Awake(s, q.phase, w.value)
  }

  ghost predicate WaitersOk(s: State) {
    forall a :: a in s.procs ==> WaitOk(s, s.procs[a])
  }

  ghost predicate ExitOk(s: State, q: Process) {
    && (ExitOf(q.phase).Some? ==> q.entry == ExitOf(q.phase))
    && (q.entry.Some? ==>
          && LiveEntry(s, q.entry.value)
          && (s.entries[q.entry.value].exited <==> ExitOf(q.phase) == q.entry))
    && (q.phase.Exiting? ==>
          q.entry.Some? && q.entry.value in s.told && s.told[q.entry.value] == q.phase.status)
  }

  ghost predicate ExitsOk(s: State) {
    forall a :: a in s.procs ==> ExitOk(s, s.procs[a])
  }

  /** The owner of e has yet to empty its channel. */
  ghost predicate WillWake(s: State, e: Eid) {
    exists b :: b in s.procs && WakeOf(s.procs[b].phase) == Some(e)
  }

  /** No wakeup is lost: whoever sleeps, or is about to, either waits for a
      process that has not exited or is going to be woken. */
  ghost predicate Awake(s: State, ph: Phase, e: Eid)
    requires e in s.entries
  {
    && (ph.Waiting? || ph.CvHeld? ==> !s.entries[e].exited)
    && (ph.Falling? || ph.Asleep? ==> !s.entries[e].exited || WillWake(s, e))
    && (ph.Woken? || ph.Relocking? || ph.Reaping? ==> s.entries[e].exited)
  }

  /** Exit statuses are those the processes gave. */
  ghost predicate StatusOk(s: State) {
    && (forall e :: e in s.entries && s.entries[e].exited ==> e in s.told && s.told[e] == s.entries[e].estatus)
    && (forall a :: a in s.procs && s.procs[a].result.Exited? ==>
          var r := s.procs[a].result;
          && r.e in s.entries && s.entries[r.e].freed && s.entries[r.e].exited
          && r.e in s.told && s.told[r.e] == r.status)
  }

  ghost predicate Inv(s: State) {
    && TableOk(s) && OwnersOk(s) && LockOk(s) && CvsOk(s) && WaitersOk(s) && ExitsOk(s) && StatusOk(s)
  }

  lemma InitInv()
    ensures Inv(INIT)
  {
  }

  /** Distinct processes have distinct pids. */
  lemma PidsDistinct(s: State, a: Proc, b: Proc)
    requires TableOk(s) && OwnersOk(s) && a in s.procs && b in s.procs && s.procs[a].pid == s.procs[b].pid
    ensures a == b
  {
    if s.procs[a].entry.Some? {
      assert LiveEntry(s, s.procs[a].entry.value);
    }
    if s.procs[b].entry.Some? {
      assert LiveEntry(s, s.procs[b].entry.value);
    }
  }

  /** So an entry has at most one waiter. */
  lemma OneWaiter(s: State, a: Proc, b: Proc, e: Eid)
    requires TableOk(s) && OwnersOk(s) && WaitersOk(s)
    requires a in s.procs && b in s.procs && WaitOf(s.procs[a].phase) == WaitOf(s.procs[b].phase) == Some(e)
    ensures a == b
  {
    hide TableOk, OwnersOk, WaitOf, Awake;
    PidsDistinct(s, a, b);
  }

  // Steps that move one process on without creating, marking or freeing

  ghost predicate SameButCv(x: Entry, y: Entry) {
    x == y.(cvlock := x.cvlock, sleepers := x.sleepers)
  }

  /** Only process a moved, to q; of the entries only the condition variables
      may differ, and there only in what they say about a. */
  ghost predicate Moves(s: State, t: State, a: Proc, q: Process) {
    && a in s.procs && t.procs == s.procs[a := q] && q.pid == s.procs[a].pid && q.entry == s.procs[a].entry
    && t.table == s.table && t.entries.Keys == s.entries.Keys
    && (forall e :: e in s.entries ==> SameButCv(s.entries[e], t.entries[e]))
    && (forall e, b :: e in s.entries && b != a ==>
          && (t.entries[e].cvlock == Some(b) <==> s.entries[e].cvlock == Some(b))
          && (b in t.entries[e].sleepers <==> b in s.entries[e].sleepers))
  }

  lemma MoveTable(s: State, t: State, a: Proc, q: Process)
    requires TableOk(s) && OwnersOk(s) && Moves(s, t, a, q)
    ensures TableOk(t) && OwnersOk(t) && forall e :: LiveEntry(t, e) == LiveEntry(s, e)
  {
  }

  ghost predicate LockMoves(s: State, t: State, a: Proc, q: Process) {
    && (HoldsLock(q.phase) <==> t.holder == Some(a))
    && (t.holder == s.holder || (s.holder in {None, Some(a)} && t.holder in {None, Some(a)}))
  }

  lemma MoveLock(s: State, t: State, a: Proc, q: Process)
    requires LockOk(s) && Moves(s, t, a, q) && LockMoves(s, t, a, q)
    ensures LockOk(t)
  {
    hide HoldsLock, SameButCv;
  }

  ghost predicate CvMoves(s: State, t: State, a: Proc, q: Process) {
    forall e :: e in t.entries ==>
      && (t.entries[e].cvlock == Some(a) <==> CvOf(q.phase) == Some(e))
      && (a in t.entries[e].sleepers <==> SleepOf(q.phase) == Some(e))
  }

  lemma MoveCvs(s: State, t: State, a: Proc, q: Process)
    requires CvsOk(s) && Moves(s, t, a, q) && CvMoves(s, t, a, q)
    ensures CvsOk(t)
  {
    hide CvOf, SleepOf, SameButCv;
  }

  lemma WakeKept(s: State, t: State, a: Proc, q: Process, e: Eid)
    requires Moves(s, t, a, q) && WillWake(s, e)
    requires WakeOf(s.procs[a].phase).Some? ==> WakeOf(q.phase) == WakeOf(s.procs[a].phase)
    ensures WillWake(t, e)
  {
    hide SameButCv, WakeOf;
    var b :| b in s.procs && WakeOf(s.procs[b].phase) == Some(e);
    assert b in t.procs && WakeOf(t.procs[b].phase) == Some(e);
  }

  lemma MoveWaiters(s: State, t: State, a: Proc, q: Process)
    requires WaitersOk(s) && Moves(s, t, a, q) && WaitOk(s, q)
    requires WakeOf(s.procs[a].phase).Some? ==> WakeOf(q.phase) == WakeOf(s.procs[a].phase)
    ensures WaitersOk(t)
  {
    hide WaitOf, WillWake, WakeOf;
    forall b | b in t.procs
      ensures WaitOk(t, t.procs[b])
    {
      var r := t.procs[b];
      assert b == a || r == s.procs[b];
      assert WaitOk(s, r);
      var w := WaitOf(r.phase);
      if w.Some? {
        assert SameButCv(s.entries[w.value], t.entries[w.value]);
        if WillWake(s, w.value) {
          WakeKept(s, t, a, q, w.value);
        }
      }
    }
  }

  lemma MoveExits(s: State, t: State, a: Proc, q: Process)
    requires ExitsOk(s) && Moves(s, t, a, q) && ExitOk(s, q) && t.told == s.told
    ensures ExitsOk(t)
  {
    hide ExitOf;
    forall b | b in t.procs
      ensures ExitOk(t, t.procs[b])
    {
      var r := t.procs[b];
      assert b == a || r == s.procs[b];
      assert ExitOk(s, r);
      if r.entry.Some? {
        assert SameButCv(s.entries[r.entry.value], t.entries[r.entry.value]);
      }
    }
  }

  lemma MoveStatus(s: State, t: State, a: Proc, q: Process)
    requires StatusOk(s) && Moves(s, t, a, q) && t.told == s.told
    requires q.result == s.procs[a].result || !q.result.Exited?
    ensures StatusOk(t)
  {
  }

  lemma MoveKeepsInv(s: State, t: State, a: Proc, q: Process)
    requires Inv(s) && Moves(s, t, a, q) && LockMoves(s, t, a, q) && CvMoves(s, t, a, q)
    requires WaitOk(s, q) && ExitOk(s, q) && t.told == s.told
    requires WakeOf(s.procs[a].phase).Some? ==> WakeOf(q.phase) == WakeOf(s.procs[a].phase)
    requires q.result == s.procs[a].result || !q.result.Exited?
    ensures Inv(t)
  {
    MoveProcs(s, t, a, q);
    hide TableOk, OwnersOk, LockOk, CvsOk, WaitersOk, ExitsOk, StatusOk, Moves, LockMoves, CvMoves, WaitOk, ExitOk,
         WakeOf;
    MoveTable(s, t, a, q);
    MoveLock(s, t, a, q);
    MoveCvs(s, t, a, q);
    MoveWaiters(s, t, a, q);
    MoveExits(s, t, a, q);
    MoveStatus(s, t, a, q);
  }

  lemma MoveProcs(s: State, t: State, a: Proc, q: Process)
    requires Moves(s, t, a, q)
    ensures a in s.procs
  {
  }

  /** Process a's own share of the invariant. */
  lemma Facts(s: State, a: Proc)
    requires Inv(s) && a in s.procs
    ensures
      var q := s.procs[a];
      && (HoldsLock(q.phase) <==> s.holder == Some(a)) && WaitOk(s, q) && ExitOk(s, q)
      && (forall e :: e in s.entries ==>
            && (s.entries[e].cvlock == Some(a) <==> CvOf(q.phase) == Some(e))
            && (a in s.entries[e].sleepers <==> SleepOf(q.phase) == Some(e)))
  {
    hide TableOk, OwnersOk, StatusOk, WaitOk, ExitOk, CvOf, SleepOf, HoldsLock;
  }

  lemma LockKeepsInv(s: State, a: Proc, ph: Phase)
    requires Inv(s) && a in s.procs && s.procs[a].phase.Running? && s.holder == None
    requires ph.Creating? || ph.Looking?
    ensures Inv(Phased(s, a, ph).(holder := Some(a)))
  {
    Facts(s, a);
    hide Inv;
    MoveKeepsInv(s, Phased(s, a, ph).(holder := Some(a)), a, s.procs[a].(phase := ph));
  }

  lemma TakeCvKeepsInv(s: State, a: Proc, e: Eid, ph: Phase)
    requires Inv(s) && a in s.procs && CvReady(s, e)
    requires (s.procs[a].phase == Waiting(e) && ph == CvHeld(e)) || (s.procs[a].phase == Marked(e) && ph == Waking(e))
    ensures CvTaken(s, a, e, ph).Ok? && Inv(CvTaken(s, a, e, ph).s)
  {
    Facts(s, a);
    var q, x := s.procs[a].(phase := ph), s.entries[e].(cvlock := Some(a));
    TakeCvFacts(s, a, e, ph);
    hide Inv, WaitOk, ExitOk, HoldsLock, WakeOf;
    CvStepMoves(s, a, q, e, x);
    CvStepCvs(s, a, q, e, x);
    assert CvTaken(s, a, e, ph).s == CvStep(s, a, q, e, x);
    hide Moves, CvMoves;
    MoveKeepsInv(s, CvTaken(s, a, e, ph).s, a, q);
  }

  lemma TakeCvFacts(s: State, a: Proc, e: Eid, ph: Phase)
    requires a in s.procs && WaitOk(s, s.procs[a]) && ExitOk(s, s.procs[a]) && CvReady(s, e)
    requires HoldsLock(s.procs[a].phase) <==> s.holder == Some(a)
    requires (s.procs[a].phase == Waiting(e) && ph == CvHeld(e)) || (s.procs[a].phase == Marked(e) && ph == Waking(e))
    ensures
      var q := s.procs[a].(phase := ph);
      && !s.entries[e].freed && WaitOk(s, q) && ExitOk(s, q) && (HoldsLock(ph) <==> s.holder == Some(a))
      && WakeOf(ph) == WakeOf(s.procs[a].phase)
  {
  }

  /** The condition variables say of process a what its new phase does. */
  lemma CvStepCvs(s: State, a: Proc, q: Process, e: Eid, x: Entry)
    requires e in s.entries
    requires forall f :: f in s.entries && f != e ==>
               && (s.entries[f].cvlock == Some(a) <==> CvOf(q.phase) == Some(f))
               && (a in s.entries[f].sleepers <==> SleepOf(q.phase) == Some(f))
    requires x.cvlock == Some(a) <==> CvOf(q.phase) == Some(e)
    requires a in x.sleepers <==> SleepOf(q.phase) == Some(e)
    ensures CvMoves(s, CvStep(s, a, q, e, x), a, q)
  {
    hide CvOf, SleepOf;
  }

  /** Process a moves on and changes the condition variable of e. */
  function CvStep(s: State, a: Proc, q: Process, e: Eid, x: Entry): State {
    s.(procs := s.procs[a := q], entries := s.entries[e := x])
  }

  lemma CvStepMoves(s: State, a: Proc, q: Process, e: Eid, x: Entry)
    requires a in s.procs && q.pid == s.procs[a].pid && q.entry == s.procs[a].entry
    requires e in s.entries && SameButCv(s.entries[e], x)
    requires s.entries[e].cvlock in {None, Some(a)} && x.cvlock in {None, Some(a)}
    requires forall b :: b != a ==> (b in x.sleepers <==> b in s.entries[e].sleepers)
    ensures Moves(s, CvStep(s, a, q, e, x), a, q)
  {
  }

  lemma DropLockKeepsInv(s: State, a: Proc, e: Eid)
    requires Inv(s) && a in s.procs && s.procs[a].phase == CvHeld(e)
    ensures Inv(Phased(s, a, Falling(e)).(holder := None))
  {
    Facts(s, a);
    hide Inv;
    MoveKeepsInv(s, Phased(s, a, Falling(e)).(holder := None), a, s.procs[a].(phase := Falling(e)));
  }

  lemma SleepKeepsInv(s: State, a: Proc, e: Eid)
    requires Inv(s) && a in s.procs && s.procs[a].phase == Falling(e) && e in s.entries
    ensures Inv(Slept(s, a, e))
  {
    Facts(s, a);
    var q := s.procs[a].(phase := Asleep(e));
    var x := s.entries[e].(cvlock := None, sleepers := s.entries[e].sleepers + {a});
    SleepFacts(s, a, e);
    hide Inv, WaitOk, ExitOk, HoldsLock, WakeOf;
    CvStepMoves(s, a, q, e, x);
    CvStepCvs(s, a, q, e, x);
    assert Slept(s, a, e) == CvStep(s, a, q, e, x);
    hide Moves, CvMoves;
    MoveKeepsInv(s, Slept(s, a, e), a, q);
  }

  lemma SleepFacts(s: State, a: Proc, e: Eid)
    requires a in s.procs && WaitOk(s, s.procs[a]) && ExitOk(s, s.procs[a]) && s.procs[a].phase == Falling(e)
    requires HoldsLock(s.procs[a].phase) <==> s.holder == Some(a)
    ensures
      var q := s.procs[a].(phase := Asleep(e));
      && WaitOk(s, q) && ExitOk(s, q) && (HoldsLock(q.phase) <==> s.holder == Some(a))
      && WakeOf(s.procs[a].phase).None?
  {
  }

  lemma TouchKeepsInv(s: State, a: Proc, e: Eid)
    requires Inv(s) && a in s.procs && s.procs[a].phase == Woken(e)
    ensures LiveEntry(s, e) && Inv(Phased(s, a, Relocking(e)))
  {
    Facts(s, a);
    hide Inv;
    MoveKeepsInv(s, Phased(s, a, Relocking(e)), a, s.procs[a].(phase := Relocking(e)));
  }

  lemma RelockKeepsInv(s: State, a: Proc, e: Eid)
    requires Inv(s) && a in s.procs && s.procs[a].phase == Relocking(e) && s.holder == None
    ensures Inv(Phased(s, a, Reaping(e)).(holder := Some(a)))
  {
    Facts(s, a);
    hide Inv;
    MoveKeepsInv(s, Phased(s, a, Reaping(e)).(holder := Some(a)), a, s.procs[a].(phase := Reaping(e)));
  }

  lemma DropCvKeepsInv(s: State, a: Proc, e: Eid)
    requires Inv(s) && a in s.procs && s.procs[a].phase == Woke(e) && e in s.entries
    ensures Inv(CvDropped(s, a, e))
  {
    Facts(s, a);
    hide Inv;
    MoveKeepsInv(s, CvDropped(s, a, e), a, s.procs[a].(phase := Leaving(e)));
  }

  lemma TableLive(s: State, pid: int)
    requires TableOk(s)
    ensures pid in s.table ==> LiveEntry(s, s.table[pid])
  {
  }

  lemma ReturnKeepsInv(s: State, a: Proc, r: WaitResult)
    requires Inv(s) && a in s.procs && s.procs[a].phase.Looking? && !r.Exited?
    ensures Inv(Returned(s, a, r))
  {
    Facts(s, a);
    hide Inv;
    MoveKeepsInv(s, Returned(s, a, r), a, s.procs[a].(phase := Running, result := r));
  }

  lemma FoundKeepsInv(s: State, a: Proc, e: Eid)
    requires Inv(s) && a in s.procs && s.procs[a].phase.Looking? && LiveEntry(s, e)
    requires s.entries[e].ppid == s.procs[a].pid
    ensures Inv(Phased(s, a, if s.entries[e].exited then Reaping(e) else Waiting(e)))
  {
    Facts(s, a);
    hide Inv;
    var ph := if s.entries[e].exited then Reaping(e) else Waiting(e);
    MoveKeepsInv(s, Phased(s, a, ph), a, s.procs[a].(phase := ph));
  }

  lemma LookKeepsInv(s: State, a: Proc, pid: int)
    requires Inv(s) && a in s.procs && s.procs[a].phase == Looking(pid)
    ensures DoLook(s, a, pid).Ok? && Inv(DoLook(s, a, pid).s)
  {
    TableLive(s, pid);
    hide Inv, Phased, Returned;
    if pid !in s.table {
      ReturnKeepsInv(s, a, Esrch);
    } else if s.entries[s.table[pid]].ppid != s.procs[a].pid {
      ReturnKeepsInv(s, a, Echild);
    } else {
      FoundKeepsInv(s, a, s.table[pid]);
    }
  }

  // Exiting

  /** Noting the status a process is about to exit with. */
  lemma ToldKeepsInv(s: State, a: Proc, status: int)
    requires Inv(s) && a in s.procs && s.procs[a].entry.Some? && s.procs[a].phase.Running?
    ensures Inv(s.(told := s.told[s.procs[a].entry.value := status]))
  {
    Facts(s, a);
    var t := s.(told := s.told[s.procs[a].entry.value := status]);
    hide TableOk, LockOk, CvsOk, WaitersOk, WaitOk;
    ToldOthers(s, t.told);
    ToldStatus(s, a, status);
  }

  lemma ToldStatus(s: State, a: Proc, status: int)
    requires OwnersOk(s) && ExitsOk(s) && StatusOk(s) && a in s.procs && s.procs[a].entry.Some?
    requires s.procs[a].phase.Running?
    ensures
      var t := s.(told := s.told[s.procs[a].entry.value := status]);
      OwnersOk(t) && ExitsOk(t) && StatusOk(t)
  {
    assert ExitOk(s, s.procs[a]);
    var t := s.(told := s.told[s.procs[a].entry.value := status]);
    forall b | b in s.procs
      ensures ExitOk(t, s.procs[b])
    {
      assert ExitOk(s, s.procs[b]);
    }
  }

  lemma ToldOthers(s: State, told: map<Eid, int>)
    requires TableOk(s) && LockOk(s) && CvsOk(s) && WaitersOk(s)
    ensures
      var t := s.(told := told);
      TableOk(t) && LockOk(t) && CvsOk(t) && WaitersOk(t)
  {
    var t := s.(told := told);
    assert forall a :: a in s.procs ==> WaitOk(t, s.procs[a]) == WaitOk(s, s.procs[a]) by {
      assert forall e :: WillWake(t, e) == WillWake(s, e);
    }
  }

  lemma LockToExitKeepsInv(s: State, a: Proc, status: int)
    requires Inv(s) && a in s.procs && s.procs[a].entry.Some? && s.procs[a].phase.Running? && s.holder == None
    ensures
      var t := Phased(s, a, Exiting(status)).(holder := Some(a), told := s.told[s.procs[a].entry.value := status]);
      Inv(t)
  {
    var u := s.(told := s.told[s.procs[a].entry.value := status]);
    ToldKeepsInv(s, a, status);
    Facts(u, a);
    hide Inv;
    MoveKeepsInv(u, Phased(u, a, Exiting(status)).(holder := Some(a)), a, s.procs[a].(phase := Exiting(status)));
  }

  lemma OwnEntry(s: State, a: Proc)
    requires TableOk(s) && OwnersOk(s) && a in s.procs && s.procs[a].entry.Some?
    ensures s.procs[a].pid in s.table && s.table[s.procs[a].pid] == s.procs[a].entry.value
  {
  }

  lemma MarkKeepsInv(s: State, a: Proc, status: int)
    requires Inv(s) && a in s.procs && s.procs[a].phase == Exiting(status)
    ensures DoMark(s, a, status).Ok? && Inv(DoMark(s, a, status).s)
  {
    Facts(s, a);
    OwnEntry(s, a);
    var e := s.procs[a].entry.value;
    var t := DoMark(s, a, status).s;
    MarkTable(s, t, a, e);
    MarkLock(s, t, a, e);
    MarkWaiters(s, t, a, e);
    MarkExits(s, t, a, e, status);
  }

  ghost predicate Marks(s: State, t: State, a: Proc, e: Eid) {
    && a in s.procs && s.procs[a].phase.Exiting? && s.procs[a].entry == Some(e) && LiveEntry(s, e)
    && t == Phased(s, a, Marked(e)).(entries := s.entries[e := s.entries[e].(exited := true, estatus := s.procs[a].phase.status)])
  }

  lemma MarkTable(s: State, t: State, a: Proc, e: Eid)
    requires TableOk(s) && OwnersOk(s) && Marks(s, t, a, e)
    ensures TableOk(t) && OwnersOk(t)
  {
    assert forall x :: LiveEntry(t, x) == LiveEntry(s, x);
    hide LiveEntry;
    SameOwners(s, t);
  }

  lemma MarkLock(s: State, t: State, a: Proc, e: Eid)
    requires LockOk(s) && CvsOk(s) && Marks(s, t, a, e)
    ensures LockOk(t) && CvsOk(t)
  {
    assert HoldsLock(s.procs[a].phase) && HoldsLock(t.procs[a].phase);
    assert CvOf(s.procs[a].phase) == CvOf(t.procs[a].phase) && SleepOf(s.procs[a].phase) == SleepOf(t.procs[a].phase);
    hide HoldsLock, CvOf, SleepOf;
  }

  lemma MarkWaiters(s: State, t: State, a: Proc, e: Eid)
    requires LockOk(s) && WaitersOk(s) && Marks(s, t, a, e)
    ensures WaitersOk(t)
  {
    assert t.procs[a].phase == Marked(e);
    assert WillWake(t, e);
    forall b | b in t.procs
      ensures WaitOk(t, t.procs[b])
    {
      if b != a {
        assert WaitOk(s, s.procs[b]) && !HoldsLock(s.procs[b].phase);
      }
    }
  }

  lemma MarkExits(s: State, t: State, a: Proc, e: Eid, status: int)
    requires OwnersOk(s) && ExitsOk(s) && StatusOk(s) && Marks(s, t, a, e) && s.procs[a].phase.status == status
    ensures ExitsOk(t) && StatusOk(t)
  {
    assert ExitOk(s, s.procs[a]);
    forall b | b in t.procs
      ensures ExitOk(t, t.procs[b])
    {
      if b != a {
        assert ExitOk(s, s.procs[b]);
      }
    }
  }

  // Waking

  lemma WakeAllKeepsInv(s: State, a: Proc, e: Eid)
    requires Inv(s) && a in s.procs && s.procs[a].phase == Waking(e) && e in s.entries
    ensures Inv(DoWakeAll(s, a, e))
  {
    Facts(s, a);
    WakeTable(s, a, e);
    WakeLock(s, a, e);
    WakeCvs(s, a, e);
    WakeWaiters(s, a, e);
    WakeExits(s, a, e);
  }

  lemma WakeTable(s: State, a: Proc, e: Eid)
    requires TableOk(s) && OwnersOk(s) && a in s.procs && s.procs[a].phase == Waking(e) && e in s.entries
    ensures TableOk(DoWakeAll(s, a, e)) && OwnersOk(DoWakeAll(s, a, e))
  {
    var t := DoWakeAll(s, a, e);
    assert forall x :: LiveEntry(t, x) == LiveEntry(s, x);
    assert t.procs.Keys == s.procs.Keys;
    assert forall b :: b in s.procs ==> t.procs[b].entry == s.procs[b].entry && t.procs[b].pid == s.procs[b].pid;
    hide LiveEntry, DoWakeAll;
    SameOwners(s, t);
  }

  lemma SameOwners(s: State, t: State)
    requires TableOk(s) && OwnersOk(s) && t.table == s.table && t.procs.Keys == s.procs.Keys
    requires forall x :: LiveEntry(t, x) == LiveEntry(s, x) && (LiveEntry(s, x) ==> t.entries[x].pid == s.entries[x].pid)
    requires forall b :: b in s.procs ==> t.procs[b].entry == s.procs[b].entry && t.procs[b].pid == s.procs[b].pid
    ensures TableOk(t) && OwnersOk(t)
  {
    hide LiveEntry;
  }

  lemma WakeLock(s: State, a: Proc, e: Eid)
    requires LockOk(s) && CvsOk(s) && a in s.procs && s.procs[a].phase == Waking(e) && e in s.entries
    ensures LockOk(DoWakeAll(s, a, e))
  {
  }

  lemma WakeCvs(s: State, a: Proc, e: Eid)
    requires CvsOk(s) && a in s.procs && s.procs[a].phase == Waking(e) && e in s.entries
    ensures CvsOk(DoWakeAll(s, a, e))
  {
    var t := DoWakeAll(s, a, e);
    forall x, b | x in t.entries
      ensures t.entries[x].cvlock == Some(b) <==> b in t.procs && CvOf(t.procs[b].phase) == Some(x)
      ensures b in t.entries[x].sleepers <==> b in t.procs && SleepOf(t.procs[b].phase) == Some(x)
    {
      assert s.entries[x].cvlock == Some(b) <==> b in s.procs && CvOf(s.procs[b].phase) == Some(x);
    }
  }

  lemma WakeWaiters(s: State, a: Proc, e: Eid)
    requires CvsOk(s) && WaitersOk(s) && a in s.procs && s.procs[a].phase == Waking(e) && e in s.entries
    requires s.entries[e].exited
    ensures WaitersOk(DoWakeAll(s, a, e))
  {
    var t := DoWakeAll(s, a, e);
    assert s.entries[e].cvlock == Some(a);
    forall b | b in t.procs
      ensures WaitOk(t, t.procs[b])
    {
      if b != a {
        assert WaitOk(s, s.procs[b]);
        var w := WaitOf(s.procs[b].phase);
        if w.Some? && w.value != e && WillWake(s, w.value) {
          var c :| c in s.procs && WakeOf(s.procs[c].phase) == Some(w.value);
          assert t.procs[c] == s.procs[c];
        }
      }
    }
  }

  lemma WakeExits(s: State, a: Proc, e: Eid)
    requires CvsOk(s) && ExitsOk(s) && StatusOk(s)
    requires a in s.procs && s.procs[a].phase == Waking(e) && e in s.entries
    ensures ExitsOk(DoWakeAll(s, a, e)) && StatusOk(DoWakeAll(s, a, e))
  {
    var t := DoWakeAll(s, a, e);
    forall b | b in t.procs
      ensures ExitOk(t, t.procs[b])
    {
      assert ExitOk(s, s.procs[b]);
    }
  }

  // A process is gone

  function Left(s: State, a: Proc): State {
    s.(holder := None, procs := s.procs - {a})
  }

  lemma LeaveKeepsInv(s: State, a: Proc, e: Eid)
    requires Inv(s) && a in s.procs && s.procs[a].phase == Leaving(e)
    ensures Inv(Left(s, a))
  {
    Facts(s, a);
    LeaveTable(s, a);
    LeaveWaiters(s, a);
    LeaveExits(s, a);
  }

  lemma LeaveTable(s: State, a: Proc)
    requires TableOk(s) && OwnersOk(s) && LockOk(s) && CvsOk(s) && a in s.procs && s.procs[a].phase.Leaving?
    ensures TableOk(Left(s, a)) && OwnersOk(Left(s, a)) && LockOk(Left(s, a)) && CvsOk(Left(s, a))
  {
    var t := Left(s, a);
    assert forall x :: LiveEntry(t, x) == LiveEntry(s, x);
  }

  lemma LeaveWaiters(s: State, a: Proc)
    requires WaitersOk(s) && a in s.procs && s.procs[a].phase.Leaving?
    ensures WaitersOk(Left(s, a))
  {
    var t := Left(s, a);
    hide WaitOf, Awake;
    forall b | b in t.procs
      ensures WaitOk(t, t.procs[b])
    {
      assert WaitOk(s, s.procs[b]);
      var w := WaitOf(s.procs[b].phase);
      if w.Some? {
        AwakeWithout(s, a, s.procs[b].phase, w.value);
      }
    }
  }

  lemma AwakeWithout(s: State, a: Proc, ph: Phase, e: Eid)
    requires a in s.procs && s.procs[a].phase.Leaving? && e in s.entries && Awake(s, ph, e)
    ensures Awake(Left(s, a), ph, e)
  {
    if WillWake(s, e) {
      var c :| c in s.procs && WakeOf(s.procs[c].phase) == Some(e);
      assert c in Left(s, a).procs && WakeOf(Left(s, a).procs[c].phase) == Some(e);
    }
  }

  lemma LeaveExits(s: State, a: Proc)
    requires ExitsOk(s) && StatusOk(s)
    ensures ExitsOk(Left(s, a)) && StatusOk(Left(s, a))
  {
    var t := Left(s, a);
    forall b | b in t.procs
      ensures ExitOk(t, t.procs[b])
    {
      assert ExitOk(s, s.procs[b]);
    }
  }

  // Reclaiming an entry

  /** When a waiter is about to reclaim its child's entry, the child is gone
      and nobody else has any business with the entry. */
  lemma ReapAlone(s: State, a: Proc, e: Eid)
    requires Inv(s) && a in s.procs && s.procs[a].phase == Reaping(e)
    ensures LiveEntry(s, e) && s.entries[e].exited && s.entries[e].sleepers == {} && s.entries[e].cvlock == None
    ensures forall b :: b in s.procs && b != a ==>
              s.procs[b].entry != Some(e) && WaitOf(s.procs[b].phase) != Some(e) && ExitOf(s.procs[b].phase) != Some(e)
    ensures s.procs[a].entry != Some(e)
  {
    Facts(s, a);
    forall b | b in s.procs && b != a
      ensures s.procs[b].entry != Some(e) && WaitOf(s.procs[b].phase) != Some(e) && ExitOf(s.procs[b].phase) != Some(e)
      ensures CvOf(s.procs[b].phase) != Some(e) && SleepOf(s.procs[b].phase) != Some(e)
    {
      NoRival(s, a, b, e);
    }
    hide TableOk, OwnersOk, WaitersOk, ExitsOk, StatusOk;
    CvUnused(s, e);
  }

  lemma CvUnused(s: State, e: Eid)
    requires CvsOk(s) && e in s.entries
    requires forall b :: b in s.procs ==> CvOf(s.procs[b].phase) != Some(e) && SleepOf(s.procs[b].phase) != Some(e)
    ensures s.entries[e].cvlock == None && s.entries[e].sleepers == {}
  {
    NoSleepers(s, e);
    assert forall b :: s.entries[e].cvlock != Some(b);
    NoValue(s.entries[e].cvlock);
  }

  lemma NoSleepers(s: State, e: Eid)
    requires CvsOk(s) && e in s.entries && forall b :: b in s.procs ==> SleepOf(s.procs[b].phase) != Some(e)
    ensures s.entries[e].sleepers == {}
  {
    forall b
      ensures b !in s.entries[e].sleepers
    {
      if b in s.procs {
        assert SleepOf(s.procs[b].phase) != Some(e);
      }
    }
  }

  lemma NoValue(o: Option<Proc>)
    requires forall b :: o != Some(b)
    ensures o == None
  {
    match o
    case None =>
    case Some(b) =>
  }

  lemma NoRival(s: State, a: Proc, b: Proc, e: Eid)
    requires Inv(s) && a in s.procs && s.procs[a].phase == Reaping(e) && b in s.procs && b != a
    ensures s.procs[b].entry != Some(e) && WaitOf(s.procs[b].phase) != Some(e) && ExitOf(s.procs[b].phase) != Some(e)
    ensures CvOf(s.procs[b].phase) != Some(e) && SleepOf(s.procs[b].phase) != Some(e)
  {
    Facts(s, a);
    Facts(s, b);
    if WaitOf(s.procs[b].phase) == Some(e) {
      OneWaiter(s, a, b, e);
    }
    hide Inv;
    assert !HoldsLock(s.procs[b].phase);
  }

  lemma ReapKeepsInv(s: State, a: Proc, e: Eid)
    requires Inv(s) && a in s.procs && s.procs[a].phase == Reaping(e) && e in s.entries
    ensures DoReap(s, a, e).Ok? && Inv(DoReap(s, a, e).s)
  {
    Facts(s, a);
    ReapAlone(s, a, e);
    var t := DoReap(s, a, e).s;
    assert Reaps(s, t, a, e);
    hide DoReap;
    ReapTable(s, t, a, e);
    ReapLock(s, t, a, e);
    ReapWaiters(s, t, a, e);
    ReapExits(s, t, a, e);
  }

  ghost predicate Reaps(s: State, t: State, a: Proc, e: Eid) {
    && a in s.procs && s.procs[a].phase == Reaping(e) && LiveEntry(s, e) && s.entries[e].exited
    && (forall b :: b in s.procs ==> s.procs[b].entry != Some(e) && (b != a ==> WaitOf(s.procs[b].phase) != Some(e)))
    && t == s.(holder := None, table := s.table - {s.entries[e].pid},
               entries := s.entries[e := s.entries[e].(freed := true)],
               procs := s.procs[a := s.procs[a].(phase := Running, result := Exited(e, s.entries[e].estatus))])
  }

  lemma ReapTable(s: State, t: State, a: Proc, e: Eid)
    requires TableOk(s) && OwnersOk(s) && Reaps(s, t, a, e)
    ensures TableOk(t) && OwnersOk(t)
  {
    hide WaitOf;
    assert forall x :: LiveEntry(t, x) <==> LiveEntry(s, x) && x != e;
  }

  lemma ReapLock(s: State, t: State, a: Proc, e: Eid)
    requires LockOk(s) && CvsOk(s) && Reaps(s, t, a, e)
    ensures LockOk(t) && CvsOk(t)
  {
  }

  lemma ReapWaiters(s: State, t: State, a: Proc, e: Eid)
    requires WaitersOk(s) && Reaps(s, t, a, e)
    ensures WaitersOk(t)
  {
    forall b | b in t.procs && b != a
      ensures WaitOk(t, t.procs[b])
    {
      assert WaitOk(s, s.procs[b]);
      var w := WaitOf(s.procs[b].phase);
      if w.Some? && WillWake(s, w.value) {
        var c :| c in s.procs && WakeOf(s.procs[c].phase) == Some(w.value);
        assert t.procs[c] == s.procs[c];
      }
    }
  }

  lemma ReapExits(s: State, t: State, a: Proc, e: Eid)
    requires ExitsOk(s) && StatusOk(s) && Reaps(s, t, a, e)
    ensures ExitsOk(t) && StatusOk(t)
  {
    forall b | b in t.procs
      ensures ExitOk(t, t.procs[b])
    {
      assert ExitOk(s, s.procs[b]);
    }
  }

  // Creating a process

  /** A process known to the table under a free pid. */
  function Spawned(s: State, child: Proc, e: Eid, pid: int, ppid: int): State {
    s.(table := s.table[pid := e],
       entries := s.entries[e := Entry(pid, ppid, 0, false, false, None, {})],
       procs := s.procs[child := Process(pid, Some(e), Running, NoResult)])
  }

  ghost predicate CanSpawn(s: State, child: Proc, e: Eid, pid: int) {
    child !in s.procs && e !in s.entries && pid !in s.table && PID_MIN <= pid <= PID_MAX
  }

  lemma SpawnKeepsInv(s: State, child: Proc, e: Eid, pid: int, ppid: int)
    requires Inv(s) && CanSpawn(s, child, e, pid)
    ensures Inv(Spawned(s, child, e, pid, ppid))
  {
    SpawnTable(s, child, e, pid, ppid);
    SpawnLock(s, child, e, pid, ppid);
    SpawnWaiters(s, child, e, pid, ppid);
    SpawnExits(s, child, e, pid, ppid);
  }

  lemma SpawnTable(s: State, child: Proc, e: Eid, pid: int, ppid: int)
    requires TableOk(s) && OwnersOk(s) && CanSpawn(s, child, e, pid)
    ensures TableOk(Spawned(s, child, e, pid, ppid)) && OwnersOk(Spawned(s, child, e, pid, ppid))
  {
    var t := Spawned(s, child, e, pid, ppid);
    assert forall x :: LiveEntry(t, x) <==> LiveEntry(s, x) || x == e;
  }

  lemma SpawnLock(s: State, child: Proc, e: Eid, pid: int, ppid: int)
    requires LockOk(s) && CvsOk(s) && WaitersOk(s) && ExitsOk(s) && CanSpawn(s, child, e, pid)
    ensures LockOk(Spawned(s, child, e, pid, ppid)) && CvsOk(Spawned(s, child, e, pid, ppid))
  {
    SpawnCvs(s, child, e, pid, ppid);
    hide CvsOk, WaitersOk, ExitsOk;
  }

  lemma SpawnCvs(s: State, child: Proc, e: Eid, pid: int, ppid: int)
    requires CvsOk(s) && WaitersOk(s) && ExitsOk(s) && CanSpawn(s, child, e, pid)
    ensures CvsOk(Spawned(s, child, e, pid, ppid))
  {
    NobodyThere(s, e);
    hide WaitersOk, ExitsOk;
    var t := Spawned(s, child, e, pid, ppid);
    assert CvOf(Running) == None && SleepOf(Running) == None;
    hide CvOf, SleepOf;
    forall f, b | f in t.entries
      ensures t.entries[f].cvlock == Some(b) <==> b in t.procs && CvOf(t.procs[b].phase) == Some(f)
      ensures b in t.entries[f].sleepers <==> b in t.procs && SleepOf(t.procs[b].phase) == Some(f)
    {
      assert f != e ==> t.entries[f] == s.entries[f];
      assert b != child && b in t.procs ==> t.procs[b] == s.procs[b];
    }
  }

  /** No process is at an entry that is not there. */
  lemma NobodyThere(s: State, e: Eid)
    requires WaitersOk(s) && ExitsOk(s) && e !in s.entries
    ensures forall b :: b in s.procs ==> CvOf(s.procs[b].phase) != Some(e) && SleepOf(s.procs[b].phase) != Some(e)
  {
    forall b | b in s.procs
      ensures CvOf(s.procs[b].phase) != Some(e) && SleepOf(s.procs[b].phase) != Some(e)
    {
      assert WaitOk(s, s.procs[b]) && ExitOk(s, s.procs[b]);
    }
  }

  lemma SpawnWaiters(s: State, child: Proc, e: Eid, pid: int, ppid: int)
    requires WaitersOk(s) && CanSpawn(s, child, e, pid)
    ensures WaitersOk(Spawned(s, child, e, pid, ppid))
  {
    var t := Spawned(s, child, e, pid, ppid);
    forall b | b in t.procs && b != child
      ensures WaitOk(t, t.procs[b])
    {
      assert WaitOk(s, s.procs[b]);
      var w := WaitOf(s.procs[b].phase);
      if w.Some? && WillWake(s, w.value) {
        var c :| c in s.procs && WakeOf(s.procs[c].phase) == Some(w.value);
        assert t.procs[c] == s.procs[c];
      }
    }
  }

  lemma SpawnExits(s: State, child: Proc, e: Eid, pid: int, ppid: int)
    requires ExitsOk(s) && StatusOk(s) && CanSpawn(s, child, e, pid)
    ensures ExitsOk(Spawned(s, child, e, pid, ppid)) && StatusOk(Spawned(s, child, e, pid, ppid))
  {
    var t := Spawned(s, child, e, pid, ppid);
    forall b | b in t.procs && b != child
      ensures ExitOk(t, t.procs[b])
    {
      assert ExitOk(s, s.procs[b]);
    }
  }

  lemma CreateKeepsInv(s: State, a: Proc, child: Proc, e: Eid)
    requires Inv(s) && a in s.procs && s.procs[a].phase.Creating? && child !in s.procs && e !in s.entries
    ensures Inv(DoCreate(s, a, child, e))
  {
    Facts(s, a);
    hide Inv;
    var t := Phased(s, a, Running).(holder := None);
    MoveKeepsInv(s, t, a, s.procs[a].(phase := Running));
    var pid := NextFrom(s.table, PID_MIN);
    if pid != -1 {
      SpawnKeepsInv(t, child, e, pid, s.procs[a].pid);
    }
  }

  // All steps, all runs

  /** No step crashes: the code never follows a dangling table entry, never
      misses its own entry and never destroys a channel in use. */
  lemma ExecKeepsInv(s: State, ev: Event)
    requires Inv(s) && Enabled(s, ev)
    ensures Exec(s, ev).Ok? && Inv(Exec(s, ev).s)
  {
    hide Inv, DoCreate, DoLook, DoReap, DoMark, CvTaken, DoWakeAll, Slept, CvDropped, Phased;
    var a := ev.a;
    var ph := s.procs[a].phase;
    match ev
    case LockToCreate(_) => LockKeepsInv(s, a, Creating);
    case Create(_, child, e) => CreateKeepsInv(s, a, child, e);
    case LockToWait(_, pid) => LockKeepsInv(s, a, Looking(pid));
    case Look(_) => LookKeepsInv(s, a, ph.pid);
    case TakeCv(_) => TakeCvKeepsInv(s, a, ph.e, CvHeld(ph.e));
    case DropLock(_) => DropLockKeepsInv(s, a, ph.e);
    case Sleep(_) => SleepKeepsInv(s, a, ph.e);
    case Touch(_) => TouchKeepsInv(s, a, ph.e);
    case Relock(_) => RelockKeepsInv(s, a, ph.e);
    case Reap(_) => ReapKeepsInv(s, a, ph.e);
    case LockToExit(_, status) => LockToExitKeepsInv(s, a, status);
    case Mark(_) => MarkKeepsInv(s, a, ph.status);
    case TakeCvToWake(_) => TakeCvKeepsInv(s, a, ph.e, Waking(ph.e));
    case WakeAll(_) => WakeAllKeepsInv(s, a, ph.e);
    case DropCv(_) => DropCvKeepsInv(s, a, ph.e);
    case Leave(_) => LeaveKeepsInv(s, a, ph.e);
  }

  /** The state after a run; events that are not enabled do not happen. */
  function Run(s: State, es: seq<Event>): Result {
    if es == [] then Ok(s)
    else
      var r := Run(s, es[..|es| - 1]);
      if r.Crash? then Crash
      else if !Enabled(r.s, es[|es| - 1]) then r
      else Exec(r.s, es[|es| - 1])
  }

  lemma {:induction false} AllRunsKeepInv(es: seq<Event>)
    ensures Run(INIT, es).Ok? && Inv(Run(INIT, es).s)
  {
    hide Inv, Exec, Enabled;
    if es == [] {
      InitInv();
    } else {
      var n := |es| - 1;
      AllRunsKeepInv(es[..n]);
      var s := Run(INIT, es[..n]).s;
      if Enabled(s, es[n]) {
        ExecKeepsInv(s, es[n]);
      }
    }
  }

  /** Live processes own distinct entries under distinct pids; an entry is
      watched by at most one waiter. */
  lemma ProcessesDistinct(es: seq<Event>, a: Proc, b: Proc)
    requires Run(INIT, es).Ok? && a != b
    ensures
      var s := Run(INIT, es).s;
      a in s.procs && b in s.procs ==>
        && s.procs[a].pid != s.procs[b].pid && s.procs[a].entry != s.procs[b].entry
        && (WaitOf(s.procs[a].phase).Some? ==> WaitOf(s.procs[a].phase) != WaitOf(s.procs[b].phase))
  {
    AllRunsKeepInv(es);
    hide Run, WaitOf, CvsOk, LockOk, ExitsOk, StatusOk;
    var s := Run(INIT, es).s;
    if a in s.procs && b in s.procs {
      if s.procs[a].pid == s.procs[b].pid {
        PidsDistinct(s, a, b);
      }
      var w := WaitOf(s.procs[a].phase);
      if w.Some? && w == WaitOf(s.procs[b].phase) {
        OneWaiter(s, a, b, w.value);
      }
    }
  }

  /** After the broadcast of an exit the channel is empty and stays so. */
  lemma NobodyLeftAsleep(es: seq<Event>, e: Eid)
    requires Run(INIT, es).Ok?
    ensures
      var s := Run(INIT, es).s;
      e in s.entries && s.entries[e].exited && !WillWake(s, e) ==>
        s.entries[e].sleepers == {} && forall a :: a in s.procs ==> s.procs[a].phase != Falling(e)
  {
    AllRunsKeepInv(es);
    hide Run, TableOk, OwnersOk, LockOk, ExitsOk, StatusOk;
    var s := Run(INIT, es).s;
    if e in s.entries && s.entries[e].exited && !WillWake(s, e) {
      forall a | a in s.procs
        ensures s.procs[a].phase != Falling(e) && SleepOf(s.procs[a].phase) != Some(e)
      {
        assert WaitOk(s, s.procs[a]);
      }
      NoSleepers(s, e);
    }
  }

  /** pid_wait returns 0 only for a process that has called pid_exit, with
      the very status it passed, and the entry is then reclaimed for good. */
  lemma WaitReturnsExitStatus(es: seq<Event>, a: Proc)
    requires Run(INIT, es).Ok?
    ensures
      var s := Run(INIT, es).s;
      a in s.procs && s.procs[a].result.Exited? ==>
        var r := s.procs[a].result;
        && r.e in s.told && s.told[r.e] == r.status
        && r.e in s.entries && s.entries[r.e].exited && s.entries[r.e].freed
  {
    AllRunsKeepInv(es);
    hide Run, TableOk, OwnersOk, LockOk, ExitsOk, WaitersOk, CvsOk;
  }

  /** An entry once reclaimed is never touched again: whatever happens next,
      it stays exactly as it was. */
  lemma {:induction false} ReclaimedOnce(s: State, es: seq<Event>, e: Eid)
    requires Inv(s) && e in s.entries && s.entries[e].freed
    ensures Run(s, es).Ok? && Inv(Run(s, es).s)
    ensures e in Run(s, es).s.entries && Run(s, es).s.entries[e] == s.entries[e]
  {
    hide Inv, Exec, Enabled;
    if es != [] {
      var n := |es| - 1;
      ReclaimedOnce(s, es[..n], e);
      var t := Run(s, es[..n]).s;
      if Enabled(t, es[n]) {
        ExecKeepsInv(t, es[n]);
        FreedUntouched(t, es[n], e);
      }
    }
  }

  lemma FreedUntouched(s: State, ev: Event, e: Eid)
    requires Inv(s) && Enabled(s, ev) && Exec(s, ev).Ok? && e in s.entries && s.entries[e].freed
    ensures e in Exec(s, ev).s.entries && Exec(s, ev).s.entries[e] == s.entries[e]
  {
    Facts(s, ev.a);
    assert s.procs[ev.a].phase.Exiting? ==> s.procs[ev.a].entry.Some?;
    if s.procs[ev.a].entry.Some? {
      OwnEntry(s, ev.a);
    }
    hide Inv;
  }

  // Parents

  /** The pid of the process that created each entry, over a run. */
  ghost function Creators(es: seq<Event>): map<Eid, int> {
    if es == [] then map[]
    else
      var n, r := |es| - 1, Run(INIT, es[..|es| - 1]);
      var c := Creators(es[..n]);
      if r.Ok? && es[n].Create? && Enabled(r.s, es[n]) && Run(INIT, es).Ok? && es[n].e in Run(INIT, es).s.entries
      then c[es[n].e := r.s.procs[es[n].a].pid] else c
  }

  /** Entries come into being with a Create, under the pid of whoever runs it,
      and never change their parent. */
  lemma ParentKept(s: State, ev: Event)
    requires Enabled(s, ev) && Exec(s, ev).Ok?
    ensures
      var t := Exec(s, ev).s;
      && (forall e :: e in s.entries ==> e in t.entries && t.entries[e].ppid == s.entries[e].ppid)
      && (forall e :: e in t.entries && e !in s.entries ==>
            ev.Create? && ev.e == e && t.entries[e].ppid == s.procs[ev.a].pid)
  {
  }

  /** In every run the parent of an entry is the process that created it. */
  lemma {:induction false} ParentIsCreator(es: seq<Event>, e: Eid)
    ensures Run(INIT, es).Ok?
    ensures
      var s := Run(INIT, es).s;
      (e in s.entries <==> e in Creators(es)) && (e in s.entries ==> s.entries[e].ppid == Creators(es)[e])
  {
    AllRunsKeepInv(es);
    if es != [] {
      var n := |es| - 1;
      ParentIsCreator(es[..n], e);
      var s := Run(INIT, es[..n]).s;
      hide Inv, Exec, Enabled;
      if Enabled(s, es[n]) {
        ParentKept(s, es[n]);
      }
    }
  }

  /** What a process that looks for a pid comes to: no such process when the
      pid is free, not its child when another process created it, and
      otherwise it waits for, or at once reaps, just that entry. */
  lemma LookFinds(es: seq<Event>, a: Proc)
    requires Run(INIT, es).Ok? && Enabled(Run(INIT, es).s, Look(a))
    ensures Run(INIT, es + [Look(a)]).Ok?
    ensures
      var s, t := Run(INIT, es).s, Run(INIT, es + [Look(a)]).s;
      var pid, q := s.procs[a].phase.pid, t.procs[a];
      if pid !in s.table then q.phase == Running && q.result == Esrch
      else
        var e := s.table[pid];
        && e in s.entries && !s.entries[e].freed && s.entries[e].pid == pid && e in Creators(es)
        && if Creators(es)[e] != s.procs[a].pid then q.phase == Running && q.result == Echild
           else q.phase == (if s.entries[e].exited then Reaping(e) else Waiting(e)) && t.holder == Some(a)
  {
    AllRunsKeepInv(es);
    AllRunsKeepInv(es + [Look(a)]);
    var s := Run(INIT, es).s;
    assert (es + [Look(a)])[..|es|] == es;
    assert Run(INIT, es + [Look(a)]) == Exec(s, Look(a));
    var pid := s.procs[a].phase.pid;
    Facts(s, a);
    if pid in s.table {
      assert LiveEntry(s, s.table[pid]);
      ParentIsCreator(es, s.table[pid]);
    }
    hide Run, Creators, Inv;
  }

  ghost predicate GotChild(s: State, a: Proc) {
    a in s.procs && s.procs[a].result.Exited? ==>
      var e := s.procs[a].result.e;
      e in s.entries && s.entries[e].ppid == s.procs[a].pid
  }

  lemma GotChildKept(s: State, ev: Event, a: Proc)
    requires Inv(s) && Enabled(s, ev) && Exec(s, ev).Ok? && GotChild(s, a)
    ensures GotChild(Exec(s, ev).s, a)
  {
    hide Inv;
    Facts(s, ev.a);
    ParentKept(s, ev);
    hide Exec, Enabled;
    var t := Exec(s, ev).s;
    if a in t.procs && t.procs[a].result.Exited? {
      ResultStep(s, ev, a);
    }
  }

  /** A status is handed over by Reap only. */
  lemma ResultStep(s: State, ev: Event, a: Proc)
    requires Enabled(s, ev) && Exec(s, ev).Ok? && a in Exec(s, ev).s.procs && Exec(s, ev).s.procs[a].result.Exited?
    ensures
      var q := Exec(s, ev).s.procs[a];
      && a in s.procs && q.pid == s.procs[a].pid
      && (q.result == s.procs[a].result || (ev == Reap(a) && s.procs[a].phase == Reaping(q.result.e)))
  {
  }

  lemma {:induction false} GotChildAlways(es: seq<Event>, a: Proc)
    ensures Run(INIT, es).Ok? && GotChild(Run(INIT, es).s, a)
  {
    AllRunsKeepInv(es);
    if es != [] {
      var n := |es| - 1;
      GotChildAlways(es[..n], a);
      AllRunsKeepInv(es[..n]);
      hide Inv, Exec, Enabled, GotChild;
      if Enabled(Run(INIT, es[..n]).s, es[n]) {
        GotChildKept(Run(INIT, es[..n]).s, es[n], a);
      }
    }
  }

  /** The process whose status pid_wait returned was a child of the caller. */
  lemma WaitedForChild(es: seq<Event>, a: Proc)
    requires Run(INIT, es).Ok? && a in Run(INIT, es).s.procs && Run(INIT, es).s.procs[a].result.Exited?
    ensures
      var q := Run(INIT, es).s.procs[a];
      q.result.e in Creators(es) && Creators(es)[q.result.e] == q.pid
  {
    GotChildAlways(es, a);
    ParentIsCreator(es, Run(INIT, es).s.procs[a].result.e);
    hide Run, Creators;
  }

  lemma NoMembers(z: set<Proc>)
    requires forall p: Proc :: p !in z
    ensures z == {}
  {
    var none: set<Proc> := {};
    assert forall p: Proc :: p in z <==> p in none;
    assert z == none;
  }

  lemma Nonempty(z: set<Proc>)
    requires z != {}
    ensures exists p: Proc :: p in z
  {
    if forall p: Proc :: p !in z {
      NoMembers(z);
    }
  }

  /** The loop of wchan_wakeall() over its private list. */
  method MakeRunnable(ghost s: State, procs: map<Proc, Process>, sleepers: set<Proc>, e: Eid)
    returns (ps: map<Proc, Process>)
    requires Roused(s, procs, {}, e) && sleepers == s.entries[e].sleepers
    ensures Roused(s, ps, sleepers, e)
  {
    ps := procs;
    var list := sleepers;
    while list != {}
      invariant list <= sleepers && Roused(s, ps, sleepers - list, e)
      decreases list
    {
      Nonempty(list);
      var target: Proc :| target in list;
      list := list - {target};
      ps := ps[target := ps[target].(phase := Woken(e))];
    }
    assert sleepers - list == sleepers;
  }

  /** The table as the kernel's code changes it; each method runs under the
      table lock, the wake loop under the condition variable's spinlock. */
  class PidTable {
    var table: map<int, Eid>
    var entries: map<Eid, Entry>
    var holder: Option<Proc>
    var procs: map<Proc, Process>
    ghost var told: map<Eid, int>

    ghost function S(): State
      reads this
    {
      State(table, entries, holder, procs, told)
    }

    ghost predicate Valid()
      reads this
    {
      Inv(S())
    }

    /** pid_create(): the child gets the lowest free pid. */
    method PidCreate(a: Proc, child: Proc, e: Eid) returns (pid: int)
      requires Valid() && Enabled(S(), Create(a, child, e))
      modifies this
      ensures Valid() && S() == DoCreate(old(S()), a, child, e)
      ensures pid == -1 <==> forall p :: PID_MIN <= p <= PID_MAX ==> p in old(table)
      ensures pid != -1 ==> PID_MIN <= pid <= PID_MAX && pid !in old(table)
      ensures pid != -1 ==> forall p :: PID_MIN <= p < pid ==> p in old(table)
      ensures
        var back := old(procs)[a := old(procs)[a].(phase := Running)];
        && holder == None && told == old(told)
        && if pid == -1 then table == old(table) && entries == old(entries) && procs == back
           else
             && table == old(table)[pid := e]
             && entries == old(entries)[e := Entry(pid, old(procs)[a].pid, 0, false, false, None, {})]
             && procs == back[child := Process(pid, Some(e), Running, NoResult)]
    {
      hide Inv, NextFrom;
      CreateKeepsInv(S(), a, child, e);
      pid := PidNext(table);
      var ppid := procs[a].pid;
      procs := procs[a := procs[a].(phase := Running)];
      holder := None;
      if pid != -1 {
        table := table[pid := e];
        entries := entries[e := Entry(pid, ppid, 0, false, false, None, {})];
        procs := procs[child := Process(pid, Some(e), Running, NoResult)];
      }
    }

    /** pid_wait() up to where it waits or reaps. */
    method WaitLook(a: Proc)
      requires Valid() && Enabled(S(), Look(a))
      modifies this
      ensures Valid() && Exec(old(S()), Look(a)) == Ok(S())
      ensures table == old(table) && entries == old(entries) && told == old(told)
      ensures a in procs && forall p :: p in old(procs) && p != a ==> p in procs && procs[p] == old(procs)[p]
      ensures
        var was := old(procs)[a];
        var pid := was.phase.pid;
        if pid !in table then procs[a] == was.(phase := Running, result := Esrch) && holder == None
        else
          var e := table[pid];
          && e in entries && !entries[e].freed
          && if entries[e].ppid != was.pid then procs[a] == was.(phase := Running, result := Echild) && holder == None
             else procs[a] == was.(phase := if entries[e].exited then Reaping(e) else Waiting(e)) && holder == old(holder)
    {
      ghost var s := S();
      ExecKeepsInv(s, Look(a));
      var pid := procs[a].phase.pid;
      assert pid in table ==> LiveEntry(s, table[pid]);
      hide Inv;
      if pid !in table {
        holder, procs := None, procs[a := procs[a].(phase := Running, result := Esrch)];
        return;
      }
      var e := table[pid];
      if entries[e].ppid != procs[a].pid {
        holder, procs := None, procs[a := procs[a].(phase := Running, result := Echild)];
        return;
      }
      procs := procs[a := procs[a].(phase := if !entries[e].exited then Waiting(e) else Reaping(e))];
    }

    /** pid_exit() up to its broadcast. */
    method MarkExited(a: Proc)
      requires Valid() && Enabled(S(), Mark(a))
      modifies this
      ensures Valid() && Exec(old(S()), Mark(a)) == Ok(S())
      ensures old(procs)[a].entry.Some? && old(procs)[a].entry.value in old(entries)
      ensures
        var e, status := old(procs)[a].entry.value, old(procs)[a].phase.status;
        && entries == old(entries)[e := old(entries)[e].(exited := true, estatus := status)]
        && procs == old(procs)[a := old(procs)[a].(phase := Marked(e))]
        && table == old(table) && holder == old(holder) && told == old(told)
    {
      MarkKeepsInv(S(), a, procs[a].phase.status);
      Facts(S(), a);
      OwnEntry(S(), a);
      hide Inv;
      var e := table[procs[a].pid];
      entries := entries[e := entries[e].(exited := true, estatus := procs[a].phase.status)];
      procs := procs[a := procs[a].(phase := Marked(e))];
    }

    /** wchan_wakeall() on pid_cv: every sleeper is made runnable. */
    method Broadcast(a: Proc)
      requires Valid() && Enabled(S(), WakeAll(a))
      modifies this
      ensures Valid() && Exec(old(S()), WakeAll(a)) == Ok(S())
      ensures
        var e := old(procs)[a].phase.e;
        && entries == old(entries)[e := old(entries)[e].(sleepers := {})]
        && procs.Keys == old(procs).Keys && table == old(table) && holder == old(holder) && told == old(told)
        && forall p :: p in procs ==>
             procs[p] == if p == a then old(procs)[p].(phase := Woke(e))
                         else if p in old(entries)[e].sleepers then old(procs)[p].(phase := Woken(e))
                         else old(procs)[p]
    {
      hide Inv, DoWakeAll, Roused;
      ghost var s := S();
      var e := procs[a].phase.e;
      SleepersAsleep(s, a, e);
      WakeAllKeepsInv(s, a, e);
      var ps := MakeRunnable(s, procs, entries[e].sleepers, e);
      RousedAll(s, ps, a, e);
      entries := entries[e := entries[e].(sleepers := {})];
      procs := ps[a := ps[a].(phase := Woke(e))];
    }

    /** The end of pid_wait(): hand over the exit status and reclaim. */
    method Reclaim(a: Proc) returns (status: int)
      requires Valid() && Enabled(S(), Reap(a))
      modifies this
      ensures Valid() && Exec(old(S()), Reap(a)) == Ok(S())
      ensures
        var e := old(procs)[a].phase.e;
        && e in old(told) && status == old(told)[e] && e in old(entries)
        && table == old(table) - {old(entries)[e].pid}
        && entries == old(entries)[e := old(entries)[e].(freed := true)]
        && procs == old(procs)[a := old(procs)[a].(phase := Running, result := Exited(e, status))]
        && holder == None && told == old(told)
    {
      ghost var s := S();
      var e := procs[a].phase.e;
      ReapKeepsInv(s, a, e);
      Facts(s, a);
      assert StatusOk(s);
      hide Inv;
      var x := entries[e];
      status := x.estatus;
      table := table - {x.pid};
      entries := entries[e := x.(freed := true)];
      procs := procs[a := procs[a].(phase := Running, result := Exited(e, status))];
      holder := None;
    }
  }

  /** The processes in `done`, and no others, have been woken. */
  ghost predicate Roused(s: State, ps: map<Proc, Process>, done: set<Proc>, e: Eid) {
    && ps.Keys == s.procs.Keys && done <= s.procs.Keys && e in s.entries && s.entries[e].sleepers <= s.procs.Keys
    && forall p :: p in ps ==> ps[p] == if p in done then s.procs[p].(phase := Woken(e)) else s.procs[p]
  }

  lemma RousedAll(s: State, ps: map<Proc, Process>, a: Proc, e: Eid)
    requires a in s.procs && e in s.entries && Roused(s, ps, s.entries[e].sleepers, e) && a !in s.entries[e].sleepers
    ensures a in ps
    ensures DoWakeAll(s, a, e)
         == s.(entries := s.entries[e := s.entries[e].(sleepers := {})], procs := ps[a := ps[a].(phase := Woke(e))])
  {
    assert DoWakeAll(s, a, e).procs == ps[a := ps[a].(phase := Woke(e))];
  }

  lemma SleepersAsleep(s: State, a: Proc, e: Eid)
    requires Inv(s) && a in s.procs && s.procs[a].phase == Waking(e) && e in s.entries
    ensures Roused(s, s.procs, {}, e) && a !in s.entries[e].sleepers
  {
    hide TableOk, OwnersOk, LockOk, WaitersOk, ExitsOk, StatusOk;
    assert forall b :: b in s.entries[e].sleepers ==> b in s.procs;
    assert a in s.entries[e].sleepers <==> a in s.procs && SleepOf(s.procs[a].phase) == Some(e);
  }
}
