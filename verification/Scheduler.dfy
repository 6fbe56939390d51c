/** The thread system of kern/thread/thread.c as a step machine.

    Every event is one section run under a run queue's or wait channel's
    spinlock, by one CPU.  Thread lists are kept in one table indexed by the
    place they belong to, so that moving a thread is one update. */
module Scheduler {
  import opened Queues
  import opened Wrappers

  type Tid = nat
  type Wchan = nat

  datatype Place =
    | Running(cpu: nat)
    | RunQueue(cpu: nat)
    | Zombies(cpu: nat)
    | Victims(cpu: nat)   // the private list of thread_consider_migration
    | Hand(cpu: nat)      // taken off a wait channel, about to be made runnable
    | Channel(wc: Wchan)

  datatype ThreadState = OnCpu | Ready | Sleep | Zombie

  /** Where a CPU is in thread_consider_migration. */
  datatype Migration = NoMigration | Counted(toSend: nat, share: nat) | Moving(toSend: nat, share: nat)

  datatype State = State(
    lists: map<Place, seq<Tid>>,
    cur: seq<Tid>,               // c_curthread
    idle: seq<bool>,             // c_isidle
    mig: seq<Migration>,
    tcpu: map<Tid, nat>,         // t_cpu of every thread not yet destroyed
    tstate: map<Tid, ThreadState>)

  function At(s: State, p: Place): seq<Tid> {
    if p in s.lists then s.lists[p] else []
  }

  function Put(s: State, p: Place, q: seq<Tid>): State {
    s.(lists := s.lists[p := q])
  }

  /** threadlist_remhead from one list, threadlist_addtail to another. */
  function MoveHead(s: State, p: Place, q: Place): State
    requires At(s, p) != []
  {
    var s1 := Put(s, p, At(s, p)[1..]);
    Put(s1, q, At(s1, q) + [At(s, p)[0]])
  }

  datatype Dest = Yield | SleepOn(wc: Wchan) | Exit

  datatype Event =
    | Fork(c: nat, t: Tid)          // thread_fork
    | SwitchOut(c: nat, dest: Dest) // thread_switch up to the idle loop
    | Pick(c: nat)                  // the idle loop finds a thread
    | Exorcise(c: nat)              // one turn of exorcise
    | WakeGrab(c: nat, wc: Wchan)   // wchan_wakeone/wakeall take a thread
    | WakePut(c: nat)               // thread_make_runnable
    | MigCount(c: nat, share: nat)  // the counting loop; share is what it computed
    | MigGrab(c: nat)               // pulls toSend victims off the local queue
    | MigPush(c: nat, d: nat)       // hands one victim to CPU d, if below its share
    | MigReturn(c: nat)             // puts leftovers back

  /** Crash: the source would dereference a null thread or fail an assertion. */
  datatype Result = Next(s: State) | Crash

  /** Program order on each CPU: it does not switch with a thread in hand or in
      the middle of a migration, and a migration runs its phases in order. */
  predicate Enabled(s: State, e: Event) {
    && e.c < |s.cur| == |s.idle| == |s.mig|
    && match e
       case Fork(c, t) => !s.idle[c] && t !in s.tcpu
       case SwitchOut(c, _) => !s.idle[c] && At(s, Hand(c)) == [] && s.mig[c].NoMigration?
       case Pick(c) => s.idle[c] && At(s, RunQueue(c)) != [] && At(s, Hand(c)) == [] && s.mig[c].NoMigration?
       case Exorcise(c) => !s.idle[c] && At(s, Zombies(c)) != []
       case WakeGrab(c, wc) => At(s, Channel(wc)) != []
       case WakePut(c) => At(s, Hand(c)) != []
       case MigCount(c, share) => s.mig[c].NoMigration? && share <= |At(s, RunQueue(c))|
       case MigGrab(c) => s.mig[c].Counted?
       case MigPush(c, d) => s.mig[c].Moving? && s.mig[c].toSend > 0 && d != c && d < |s.cur|
                             && |At(s, RunQueue(d))| < s.mig[c].share
       case MigReturn(c) => s.mig[c].Moving?
  }

  function Destination(s: State, c: nat, dest: Dest): Place
    requires c < |s.cur| && s.cur[c] in s.tcpu
  {
    match dest
    case Yield => RunQueue(s.tcpu[s.cur[c]])
    case SleepOn(wc) => Channel(wc)
    case Exit => Zombies(c)
  }

  function NewState(dest: Dest): ThreadState {
    match dest case Yield => Ready case SleepOn(_) => Sleep case Exit => Zombie
  }

  /** The first half of thread_switch: the current thread goes to the tail of
      its new list and the CPU counts as idle. */
  function LeaveFor(s: State, c: nat, q: Place, st: ThreadState): State
    requires c < |s.cur| == |s.idle|
  {
    var s1 := Put(s, Running(c), []);
    Put(s1, q, At(s1, q) + [s.cur[c]]).(idle := s.idle[c := true], tstate := s.tstate[s.cur[c] := st])
  }

  function Exec(s: State, e: Event): Result
    requires Enabled(s, e)
  {
    var c := e.c;
    match e
    case Fork(_, t) =>
      Next(Put(s, RunQueue(c), At(s, RunQueue(c)) + [t]).(tcpu := s.tcpu[t := c], tstate := s.tstate[t := Ready]))
    case SwitchOut(_, dest) =>
      if dest == Yield && At(s, RunQueue(c)) == [] then Next(s)
      else if s.cur[c] !in s.tcpu then Crash
      else Next(LeaveFor(s, c, Destination(s, c, dest), NewState(dest)))
    case Pick(_) =>
      var t := At(s, RunQueue(c))[0];
      Next(MoveHead(s, RunQueue(c), Running(c))
           .(idle := s.idle[c := false], cur := s.cur[c := t], tstate := s.tstate[t := OnCpu]))
    case Exorcise(_) =>
      var z := At(s, Zombies(c))[0];
      if z == s.cur[c] || !(z in s.tstate && s.tstate[z] == Zombie) then Crash
      else Next(Put(s, Zombies(c), At(s, Zombies(c))[1..]).(tcpu := s.tcpu - {z}, tstate := s.tstate - {z}))
    case WakeGrab(_, wc) =>
      Next(MoveHead(s, Channel(wc), Hand(c)))
    case WakePut(_) =>
      var t := At(s, Hand(c))[0];
      if t !in s.tcpu then Crash
      else Next(MoveHead(s, Hand(c), RunQueue(s.tcpu[t])).(tstate := s.tstate[t := Ready]))
    case MigCount(_, share) =>
      Next(s.(mig := s.mig[c := Counted(|At(s, RunQueue(c))| - share, share)]))
    case MigGrab(_) =>
      var q, n := At(s, RunQueue(c)), s.mig[c].toSend;
      if |q| < n then Crash
      else Next(Put(Put(s, RunQueue(c), q[..|q| - n]), Victims(c), q[|q| - n..])
                .(mig := s.mig[c := Moving(n, s.mig[c].share)]))
    case MigPush(_, d) =>
      var v := At(s, Victims(c));
      if v == [] then Crash
      else
        var m := s.mig[c := Moving(s.mig[c].toSend - 1, s.mig[c].share)];
        if v[0] == s.cur[c] then
          Next(Put(s, Victims(c), v[1..] + [v[0]]).(mig := m))
        else
          Next(MoveHead(s, Victims(c), RunQueue(d)).(tcpu := s.tcpu[v[0] := d], mig := m))
    case MigReturn(_) =>
      var s1 := Put(s, RunQueue(c), At(s, RunQueue(c)) + At(s, Victims(c)));
      Next(Put(s1, Victims(c), []).(mig := s.mig[c := NoMigration]))
  }

  /* ------------------------------------------------------------------ */
  /* Invariant                                                            */

  ghost predicate NoDup(q: seq<Tid>) {
    forall i, j :: 0 <= i < j < |q| ==> q[i] != q[j]
  }

  ghost predicate In(s: State, t: Tid, p: Place) {
    t in At(s, p)
  }

  /** Every thread not yet destroyed is in exactly one place, once. */
  ghost predicate OnePlace(s: State) {
    && (forall p :: NoDup(At(s, p)))
    && (forall t, p, q :: In(s, t, p) && In(s, t, q) ==> p == q)
    && (forall t, p :: In(s, t, p) ==> t in s.tcpu)
    && (forall t :: t in s.tcpu ==> exists p :: In(s, t, p))
  }

  /** Lists that belong to a CPU hold threads whose t_cpu names that CPU. */
  ghost predicate Homed(s: State) {
    && (forall t :: t in s.tcpu ==> s.tcpu[t] < |s.cur|)
    && (forall p, t :: In(s, t, p) && !p.Hand? && !p.Channel? ==> t in s.tcpu && s.tcpu[t] == p.cpu)
  }

  ghost predicate StateOf(p: Place, st: ThreadState) {
    match p
    case Running(_) => st == OnCpu || st == Ready
    case RunQueue(_) => st == Ready
    case Victims(_) => st == Ready
    case Zombies(_) => st == Zombie
    case Hand(_) => st == Sleep
    case Channel(_) => st == Sleep
  }

  ghost predicate States(s: State) {
    && s.tstate.Keys == s.tcpu.Keys
    && (forall p, t :: In(s, t, p) ==> t in s.tstate && StateOf(p, s.tstate[t]))
  }

  /** A CPU's current thread always belongs to it, even while the CPU idles on
      the stack of a thread that has gone elsewhere. */
  ghost predicate Current(s: State) {
    && |s.cur| == |s.idle| == |s.mig|
    && (forall c :: 0 <= c < |s.cur| ==> s.cur[c] in s.tcpu && s.tcpu[s.cur[c]] == c)
    && (forall c :: 0 <= c < |s.cur| ==> At(s, Running(c)) == if s.idle[c] then [] else [s.cur[c]])
  }

  /** The phase a CPU is in suits its run queue and victim list. */
  ghost predicate Suits(m: Migration, queue: seq<Tid>, victims: seq<Tid>) {
    match m
    case NoMigration => victims == []
    case Counted(n, _) => victims == [] && n <= |queue|
    case Moving(n, _) => n <= |victims|
  }

  ghost predicate Migrations(s: State) {
    forall c :: 0 <= c < |s.mig| ==> Suits(s.mig[c], At(s, RunQueue(c)), At(s, Victims(c)))
  }

  ghost predicate Inv(s: State) {
    OnePlace(s) && Homed(s) && States(s) && Current(s) && Migrations(s)
  }

  /** Each CPU starts out running its own boot thread. */
  ghost predicate Boot(s: State) {
    && |s.cur| == |s.idle| == |s.mig|
    && (forall c :: 0 <= c < |s.cur| ==> s.cur[c] == c && !s.idle[c] && s.mig[c] == NoMigration)
    && (forall p :: At(s, p) == if p.Running? && p.cpu < |s.cur| then [p.cpu] else [])
    && (forall t :: t in s.tcpu <==> t < |s.cur|)
    && (forall t :: t in s.tcpu ==> s.tcpu[t] == t)
    && s.tstate == map t | t in s.tcpu :: Ready
  }

  lemma BootInv(s: State)
    requires Boot(s)
    ensures Inv(s)
  {
    hide OnePlace;
    BootPlaces(s);
    hide In;
    assert forall p, t: Tid :: In(s, t, p) ==> p == Running(t) && t in s.tcpu;
  }

  lemma BootPlaces(s: State)
    requires Boot(s)
    ensures forall p, t: Tid :: In(s, t, p) <==> p == Running(t) && t < |s.cur|
    ensures OnePlace(s)
  {
    hide At;
    forall t | t in s.tcpu
      ensures exists p :: In(s, t, p)
    {
      assert In(s, t, Running(t));
    }
  }

  /** Moving a set of threads to one place leaves every thread in one place. */
  lemma MoveKeepsOnePlace(s: State, s': State, moved: set<Tid>, to: Place)
    requires OnePlace(s) && s'.tcpu.Keys == s.tcpu.Keys
    requires forall t :: t in moved ==> t in s.tcpu
    requires forall p :: NoDup(At(s', p))
    requires forall p, t :: In(s', t, p) <==> (if t in moved then p == to else In(s, t, p))
    ensures OnePlace(s')
  {
    hide At, In, NoDup;
    forall t | t in s'.tcpu
      ensures exists p :: In(s', t, p)
    {
      if t in moved {
        assert In(s', t, to);
      } else {
        var p :| In(s, t, p);
        assert In(s', t, p);
      }
    }
  }

  /** The head of list p went to the tail of list q, nothing else moved. */
  ghost predicate HeadToTail(s: State, s': State, t: Tid, p: Place, q: Place) {
    && p != q && At(s, p) != [] && At(s, p)[0] == t
    && At(s', p) == At(s, p)[1..]
    && At(s', q) == At(s, q) + [t]
    && (forall r :: r != p && r != q ==> At(s', r) == At(s, r))
  }

  /** The thread records changed for t only, and suit its new place. */
  ghost predicate RecordsFor(s: State, s': State, t: Tid, q: Place) {
    && |s'.cur| == |s.cur|
    && s'.tcpu.Keys == s.tcpu.Keys && s'.tstate.Keys == s.tstate.Keys
    && (forall u :: u != t && u in s.tcpu ==> s'.tcpu[u] == s.tcpu[u])
    && (forall u :: u != t && u in s.tstate ==> s'.tstate[u] == s.tstate[u])
    && t in s'.tcpu && t in s'.tstate
    && s'.tcpu[t] < |s.cur| && (!q.Hand? && !q.Channel? ==> s'.tcpu[t] == q.cpu)
    && StateOf(q, s'.tstate[t])
  }

  lemma HeadToTailMembers(s: State, s': State, t: Tid, p: Place, q: Place)
    requires OnePlace(s) && HeadToTail(s, s', t, p, q)
    ensures forall r, u :: In(s', u, r) <==> (if u == t then r == q else In(s, u, r))
    ensures forall r :: NoDup(At(s', r))
  {
    hide At;
    assert In(s, t, p) && NoDup(At(s, p));
    var rest := At(s, p)[1..];
    assert forall u :: u in At(s, p) <==> u == t || u in rest;
    assert t !in rest;
    assert !In(s, t, q);
    forall r, u
      ensures In(s', u, r) <==> (if u == t then r == q else In(s, u, r))
    {
      if r != p && r != q && u == t {
        assert !In(s, t, r);
      }
    }
    assert NoDup(At(s, q));
  }

  /** Membership after one thread went to place q. */
  ghost predicate MovedOne(s: State, s': State, t: Tid, q: Place) {
    forall r, u :: In(s', u, r) <==> (if u == t then r == q else In(s, u, r))
  }

  lemma HomedKeeps(s: State, s': State, t: Tid, q: Place)
    requires Homed(s) && MovedOne(s, s', t, q) && RecordsFor(s, s', t, q)
    ensures Homed(s')
  {
    hide In, StateOf;
  }

  lemma StatesKeeps(s: State, s': State, t: Tid, q: Place)
    requires States(s) && MovedOne(s, s', t, q) && RecordsFor(s, s', t, q)
    ensures States(s')
  {
    hide In, StateOf;
  }

  lemma HeadToTailKeeps(s: State, s': State, t: Tid, p: Place, q: Place)
    requires Inv(s) && HeadToTail(s, s', t, p, q) && RecordsFor(s, s', t, q)
    ensures OnePlace(s') && Homed(s') && States(s')
  {
    hide At, In, NoDup, StateOf, HeadToTail, OnePlace, Homed, States, Current, Migrations;
    HeadToTailMembers(s, s', t, p, q);
    assert In(s, t, p) by {
      HeadToTailIn(s, s', t, p, q);
    }
    LiveThread(s, t, p);
    MoveKeepsOnePlace(s, s', {t}, q);
    HomedKeeps(s, s', t, q);
    StatesKeeps(s, s', t, q);
  }

  lemma LiveThread(s: State, t: Tid, p: Place)
    requires Inv(s) && In(s, t, p)
    ensures t in s.tcpu && t in s.tstate && s.tcpu[t] < |s.cur| && StateOf(p, s.tstate[t])
    ensures !p.Hand? && !p.Channel? ==> s.tcpu[t] == p.cpu
  {
    hide In, StateOf;
  }

  lemma HeadToTailIn(s: State, s': State, t: Tid, p: Place, q: Place)
    requires HeadToTail(s, s', t, p, q)
    ensures In(s, t, p)
  {
  }

  lemma HeadIsIn(s: State, p: Place)
    requires At(s, p) != []
    ensures In(s, At(s, p)[0], p)
  {
  }

  /* ------------------------------------------------------------------ */
  /* One lemma per event                                                  */

  lemma CurrentIsHome(s: State, c: nat)
    requires Inv(s) && c < |s.cur|
    ensures s.cur[c] in s.tcpu && s.cur[c] in s.tstate && s.tcpu[s.cur[c]] == c
  {
    hide OnePlace, Homed, Migrations;
  }

  lemma LeaveForKeepsInv(s: State, c: nat, q: Place, st: ThreadState)
    requires Inv(s) && c < |s.cur| && !s.idle[c] && s.mig[c].NoMigration?
    requires StateOf(q, st) && !q.Running? && !q.Victims? && (!q.Hand? && !q.Channel? ==> q.cpu == c)
    ensures Inv(LeaveFor(s, c, q, st))
  {
    hide OnePlace, Homed, States;
    CurrentIsHome(s, c);
    var t, s' := s.cur[c], LeaveFor(s, c, q, st);
    assert HeadToTail(s, s', t, Running(c), q);
    HeadToTailKeeps(s, s', t, Running(c), q);
  }

  lemma SwitchOutKeepsInv(s: State, c: nat, dest: Dest)
    requires Inv(s) && Enabled(s, SwitchOut(c, dest))
    ensures Exec(s, SwitchOut(c, dest)).Next? && Inv(Exec(s, SwitchOut(c, dest)).s)
  {
    hide Inv;
    CurrentIsHome(s, c);
    LeaveForKeepsInv(s, c, Destination(s, c, dest), NewState(dest));
  }

  lemma MoveHeadMoves(s: State, s': State, p: Place, q: Place)
    requires p != q && At(s, p) != [] && s'.lists == MoveHead(s, p, q).lists
    ensures HeadToTail(s, s', At(s, p)[0], p, q)
    ensures In(s, At(s, p)[0], p)
  {
  }

  lemma PickKeepsInv(s: State, c: nat)
    requires Inv(s) && Enabled(s, Pick(c))
    ensures Exec(s, Pick(c)).Next? && Inv(Exec(s, Pick(c)).s)
  {
    hide OnePlace, Homed, States, In;
    var t, s' := At(s, RunQueue(c))[0], Exec(s, Pick(c)).s;
    MoveHeadMoves(s, s', RunQueue(c), Running(c));
    LiveThread(s, t, RunQueue(c));
    HeadToTailKeeps(s, s', t, RunQueue(c), Running(c));
  }

  lemma WakeGrabKeepsInv(s: State, c: nat, wc: Wchan)
    requires Inv(s) && Enabled(s, WakeGrab(c, wc))
    ensures Exec(s, WakeGrab(c, wc)).Next? && Inv(Exec(s, WakeGrab(c, wc)).s)
  {
    hide OnePlace, Homed, States, In;
    var t, s' := At(s, Channel(wc))[0], Exec(s, WakeGrab(c, wc)).s;
    MoveHeadMoves(s, s', Channel(wc), Hand(c));
    LiveThread(s, t, Channel(wc));
    HeadToTailKeeps(s, s', t, Channel(wc), Hand(c));
  }

  lemma WakePutKeepsInv(s: State, c: nat)
    requires Inv(s) && Enabled(s, WakePut(c))
    ensures Exec(s, WakePut(c)).Next? && Inv(Exec(s, WakePut(c)).s)
  {
    hide OnePlace, Homed, States, In;
    var t := At(s, Hand(c))[0];
    HeadIsIn(s, Hand(c));
    LiveThread(s, t, Hand(c));
    var s', q := Exec(s, WakePut(c)).s, RunQueue(s.tcpu[t]);
    MoveHeadMoves(s, s', Hand(c), q);
    HeadToTailKeeps(s, s', t, Hand(c), q);
  }

  lemma ForkKeepsInv(s: State, c: nat, t: Tid)
    requires Inv(s) && Enabled(s, Fork(c, t))
    ensures Exec(s, Fork(c, t)).Next? && Inv(Exec(s, Fork(c, t)).s)
    ensures At(Exec(s, Fork(c, t)).s, RunQueue(c)) == At(s, RunQueue(c)) + [t]
  {
    hide OnePlace, Homed, States, In;
    var s' := Exec(s, Fork(c, t)).s;
    assert forall p: Place :: p != RunQueue(c) ==> At(s', p) == At(s, p);
    assert At(s', RunQueue(c)) == At(s, RunQueue(c)) + [t];
    ForkMembers(s, s', c, t);
    ForkOnePlace(s, s', c, t);
  }

  /** A new thread joins one list; everything else stays. */
  ghost predicate Joined(s: State, s': State, c: nat, t: Tid) {
    && (forall p, u :: In(s', u, p) <==> In(s, u, p) || (u == t && p == RunQueue(c)))
    && s'.tcpu == s.tcpu[t := c] && s'.tstate == s.tstate[t := Ready]
  }

  lemma ForkMembers(s: State, s': State, c: nat, t: Tid)
    requires OnePlace(s) && t !in s.tcpu
    requires s'.tcpu == s.tcpu[t := c] && s'.tstate == s.tstate[t := Ready]
    requires forall p: Place :: p != RunQueue(c) ==> At(s', p) == At(s, p)
    requires At(s', RunQueue(c)) == At(s, RunQueue(c)) + [t]
    ensures Joined(s, s', c, t)
    ensures forall p :: NoDup(At(s', p))
  {
    hide At;
    assert !In(s, t, RunQueue(c)) && NoDup(At(s, RunQueue(c)));
  }

  lemma ForkOnePlace(s: State, s': State, c: nat, t: Tid)
    requires OnePlace(s) && Homed(s) && States(s) && t !in s.tcpu && c < |s.cur| == |s'.cur|
    requires Joined(s, s', c, t) && forall p :: NoDup(At(s', p))
    ensures OnePlace(s') && Homed(s') && States(s')
  {
    hide At, In, NoDup;
    assert forall p :: !In(s, t, p);
    forall u | u in s'.tcpu
      ensures exists p :: In(s', u, p)
    {
      if u == t {
        assert In(s', t, RunQueue(c));
      } else {
        var p :| In(s, u, p);
        assert In(s', u, p);
      }
    }
  }

  /** exorcise destroys the head of its own CPU's zombie list; that thread is
      nobody's current thread. */
  lemma ExorciseKeepsInv(s: State, c: nat)
    requires Inv(s) && Enabled(s, Exorcise(c))
    ensures Exec(s, Exorcise(c)).Next? && Inv(Exec(s, Exorcise(c)).s)
    ensures forall d :: 0 <= d < |s.cur| ==> s.cur[d] != At(s, Zombies(c))[0]
  {
    hide OnePlace, Homed, States, In;
    var z := At(s, Zombies(c))[0];
    HeadIsIn(s, Zombies(c));
    LiveThread(s, z, Zombies(c));
    HeadIsIn(s, Running(c));
    DifferentPlaces(s, z, Zombies(c), s.cur[c], Running(c));
    var s' := Exec(s, Exorcise(c)).s;
    assert forall p: Place :: p != Zombies(c) ==> At(s', p) == At(s, p);
    assert At(s', Zombies(c)) == At(s, Zombies(c))[1..];
    ExorciseMembers(s, s', c, z);
    ExorciseRecords(s, s', z);
  }

  lemma DifferentPlaces(s: State, t: Tid, p: Place, u: Tid, q: Place)
    requires OnePlace(s) && In(s, t, p) && In(s, u, q) && p != q
    ensures t != u
  {
  }

  lemma ExorciseMembers(s: State, s': State, c: nat, z: Tid)
    requires OnePlace(s) && At(s, Zombies(c)) != [] && At(s, Zombies(c))[0] == z
    requires forall p: Place :: p != Zombies(c) ==> At(s', p) == At(s, p)
    requires At(s', Zombies(c)) == At(s, Zombies(c))[1..]
    ensures forall p, u :: In(s', u, p) <==> In(s, u, p) && u != z
    ensures forall p :: NoDup(At(s', p))
  {
    hide At;
    assert In(s, z, Zombies(c)) && NoDup(At(s, Zombies(c)));
    assert forall u :: u in At(s, Zombies(c)) <==> u == z || u in At(s, Zombies(c))[1..];
    forall p, u
      ensures In(s', u, p) <==> In(s, u, p) && u != z
    {
      if p != Zombies(c) && u == z {
        assert !In(s, z, p);
      }
    }
  }

  lemma ExorciseRecords(s: State, s': State, z: Tid)
    requires OnePlace(s) && Homed(s) && States(s) && |s.cur| == |s'.cur|
    requires forall p, u :: In(s', u, p) <==> In(s, u, p) && u != z
    requires forall p :: NoDup(At(s', p))
    requires s'.tcpu == s.tcpu - {z} && s'.tstate == s.tstate - {z}
    ensures OnePlace(s') && Homed(s') && States(s')
  {
    hide At, In, NoDup, StateOf;
    forall u | u in s'.tcpu
      ensures exists p :: In(s', u, p)
    {
      var p :| In(s, u, p);
      assert In(s', u, p);
    }
  }

  /* ------------------------------------------------------------------ */
  /* Migration                                                            */

  /** Ready threads of CPU c changed places between its queue and its victims. */
  ghost predicate Reshuffled(s: State, s': State, c: nat) {
    && (forall p: Place :: p != RunQueue(c) && p != Victims(c) ==> At(s', p) == At(s, p))
    && NoDup(At(s', RunQueue(c)) + At(s', Victims(c)))
    && (forall t :: t in At(s', RunQueue(c)) || t in At(s', Victims(c))
                    <==> t in At(s, RunQueue(c)) || t in At(s, Victims(c)))
    && s'.tcpu == s.tcpu && s'.tstate == s.tstate && |s'.cur| == |s.cur|
  }

  ghost predicate ReadyOn(p: Place, c: nat) {
    p == RunQueue(c) || p == Victims(c)
  }

  lemma ReshuffleMembers(s: State, s': State, c: nat)
    requires OnePlace(s) && Reshuffled(s, s', c)
    ensures forall p, t :: In(s', t, p) && !ReadyOn(p, c) <==> In(s, t, p) && !ReadyOn(p, c)
    ensures forall p, t :: In(s', t, p) && ReadyOn(p, c) ==> In(s, t, RunQueue(c)) || In(s, t, Victims(c))
    ensures forall p, t :: In(s, t, p) && ReadyOn(p, c) ==> In(s', t, RunQueue(c)) || In(s', t, Victims(c))
    ensures forall t :: !(In(s', t, RunQueue(c)) && In(s', t, Victims(c)))
    ensures forall p :: NoDup(At(s', p))
  {
    hide At;
    var a, b := At(s', RunQueue(c)), At(s', Victims(c));
    forall i, j | 0 <= i < |a| && 0 <= j < |b|
      ensures a[i] != b[j]
    {
      assert (a + b)[i] == a[i] && (a + b)[|a| + j] == b[j];
    }
    assert NoDup(a) && NoDup(b) by {
      assert forall i :: 0 <= i < |a| ==> (a + b)[i] == a[i];
      assert forall j :: 0 <= j < |b| ==> (a + b)[|a| + j] == b[j];
    }
  }

  lemma ReshuffleKeeps(s: State, s': State, c: nat)
    requires OnePlace(s) && Homed(s) && States(s) && Reshuffled(s, s', c)
    ensures OnePlace(s') && Homed(s') && States(s')
  {
    hide At, In, NoDup, Reshuffled, OnePlace, Homed, States;
    ReshuffleMembers(s, s', c);
    assert s'.tcpu == s.tcpu && s'.tstate == s.tstate && |s'.cur| == |s.cur| by {
      ReshuffleRecords(s, s', c);
    }
    ReshuffleOnePlace(s, s', c);
    ReshuffleHomes(s, s', c);
  }

  /** The other CPUs do not see a reshuffle. */
  lemma ReshuffleKeepsInv(s: State, s': State, c: nat)
    requires Inv(s) && Reshuffled(s, s', c) && c < |s.mig|
    requires s'.cur == s.cur && s'.idle == s.idle
    requires |s'.mig| == |s.mig| && forall d :: 0 <= d < |s.mig| && d != c ==> s'.mig[d] == s.mig[d]
    requires Suits(s'.mig[c], At(s', RunQueue(c)), At(s', Victims(c)))
    ensures Inv(s')
  {
    hide OnePlace, Homed, States, NoDup;
    ReshuffleKeeps(s, s', c);
  }

  lemma ReshuffleRecords(s: State, s': State, c: nat)
    requires Reshuffled(s, s', c)
    ensures s'.tcpu == s.tcpu && s'.tstate == s.tstate && |s'.cur| == |s.cur|
  {
  }

  lemma ReshuffleOnePlace(s: State, s': State, c: nat)
    requires OnePlace(s) && s'.tcpu == s.tcpu
    requires forall p, t :: In(s', t, p) && !ReadyOn(p, c) <==> In(s, t, p) && !ReadyOn(p, c)
    requires forall p, t :: In(s', t, p) && ReadyOn(p, c) ==> In(s, t, RunQueue(c)) || In(s, t, Victims(c))
    requires forall p, t :: In(s, t, p) && ReadyOn(p, c) ==> In(s', t, RunQueue(c)) || In(s', t, Victims(c))
    requires forall t :: !(In(s', t, RunQueue(c)) && In(s', t, Victims(c)))
    requires forall p :: NoDup(At(s', p))
    ensures OnePlace(s')
  {
    hide At, In, NoDup;
    forall t | t in s'.tcpu
      ensures exists p :: In(s', t, p)
    {
      var p :| In(s, t, p);
      if !ReadyOn(p, c) {
        assert In(s', t, p);
      }
    }
  }

  lemma ReshuffleHomes(s: State, s': State, c: nat)
    requires Homed(s) && States(s) && s'.tcpu == s.tcpu && s'.tstate == s.tstate && |s'.cur| == |s.cur|
    requires forall p, t :: In(s', t, p) && !ReadyOn(p, c) <==> In(s, t, p) && !ReadyOn(p, c)
    requires forall p, t :: In(s', t, p) && ReadyOn(p, c) ==> In(s, t, RunQueue(c)) || In(s, t, Victims(c))
    ensures Homed(s') && States(s')
  {
    hide At, In;
  }

  lemma MigCountKeepsInv(s: State, c: nat, share: nat)
    requires Inv(s) && Enabled(s, MigCount(c, share))
    ensures Exec(s, MigCount(c, share)).Next? && Inv(Exec(s, MigCount(c, share)).s)
    ensures
      var m := Exec(s, MigCount(c, share)).s.mig[c];
      m.Counted? && m.share == share && m.toSend + share == |At(s, RunQueue(c))|
  {
    hide OnePlace, Homed, States;
    var s' := Exec(s, MigCount(c, share)).s;
    assert forall p: Place :: At(s', p) == At(s, p);
    SameListsKeep(s, s');
  }

  lemma SameListsKeep(s: State, s': State)
    requires OnePlace(s) && Homed(s) && States(s)
    requires forall p: Place :: At(s', p) == At(s, p)
    requires s'.tcpu == s.tcpu && s'.tstate == s.tstate && |s'.cur| == |s.cur|
    ensures OnePlace(s') && Homed(s') && States(s')
  {
    assert forall p, t :: In(s', t, p) <==> In(s, t, p);
    hide At, In, NoDup, StateOf;
  }

  /** Pulling the victims off the local queue never finds it empty: since the
      count, other CPUs can only have added to it. */
  lemma MigGrabKeepsInv(s: State, c: nat)
    requires Inv(s) && Enabled(s, MigGrab(c))
    ensures Exec(s, MigGrab(c)).Next? && Inv(Exec(s, MigGrab(c)).s)
    ensures
      var s' := Exec(s, MigGrab(c)).s;
      At(s', RunQueue(c)) + At(s', Victims(c)) == At(s, RunQueue(c)) && |At(s', Victims(c))| == s.mig[c].toSend
  {
    hide OnePlace, Homed, States, NoDup, Current, Reshuffled, At, Exec;
    var q, n := At(s, RunQueue(c)), s.mig[c].toSend;
    QueueIsDistinct(s, RunQueue(c));
    var a, b := q[..|q| - n], q[|q| - n..];
    assert a + b == q;
    GrabResult(s, c, a, b);
    var s' := Exec(s, MigGrab(c)).s;
    GrabReshuffles(s, s', c, a, b);
    ReshuffleKeepsInv(s, s', c);
  }

  lemma GrabResult(s: State, c: nat, a: seq<Tid>, b: seq<Tid>)
    requires Enabled(s, MigGrab(c)) && At(s, RunQueue(c)) == a + b && |b| == s.mig[c].toSend
    ensures Exec(s, MigGrab(c)) == Next(s.(lists := s.lists[RunQueue(c) := a][Victims(c) := b],
                                           mig := s.mig[c := Moving(|b|, s.mig[c].share)]))
    ensures At(Exec(s, MigGrab(c)).s, Victims(c)) == b && At(Exec(s, MigGrab(c)).s, RunQueue(c)) == a
  {
    assert (a + b)[..|a|] == a && (a + b)[|a|..] == b;
  }

  lemma GrabReshuffles(s: State, s': State, c: nat, a: seq<Tid>, b: seq<Tid>)
    requires At(s, RunQueue(c)) == a + b && At(s, Victims(c)) == [] && NoDup(a + b)
    requires s'.lists == s.lists[RunQueue(c) := a][Victims(c) := b]
    requires s'.tcpu == s.tcpu && s'.tstate == s.tstate && |s'.cur| == |s.cur|
    ensures Reshuffled(s, s', c)
  {
  }

  lemma QueueIsDistinct(s: State, p: Place)
    requires OnePlace(s)
    ensures NoDup(At(s, p))
  {
  }

  /** Leftovers rejoin the local queue. */
  lemma MigReturnKeepsInv(s: State, c: nat)
    requires Inv(s) && Enabled(s, MigReturn(c))
    ensures Exec(s, MigReturn(c)).Next? && Inv(Exec(s, MigReturn(c)).s)
    ensures
      var s' := Exec(s, MigReturn(c)).s;
      At(s', RunQueue(c)) == At(s, RunQueue(c)) + At(s, Victims(c)) && At(s', Victims(c)) == []
  {
    hide OnePlace, Homed, States, NoDup, Current;
    var q, v, s' := At(s, RunQueue(c)), At(s, Victims(c)), Exec(s, MigReturn(c)).s;
    ListsAreDistinct(s, RunQueue(c), Victims(c));
    assert At(s', RunQueue(c)) == q + v && At(s', Victims(c)) == [];
    assert At(s', RunQueue(c)) + At(s', Victims(c)) == q + v;
    ReshuffleKeepsInv(s, s', c);
  }

  lemma ListsAreDistinct(s: State, p: Place, q: Place)
    requires OnePlace(s) && p != q
    ensures NoDup(At(s, p) + At(s, q))
  {
    hide At;
    var a, b := At(s, p), At(s, q);
    assert NoDup(a) && NoDup(b);
    forall i, j | 0 <= i < |a| && 0 <= j < |b|
      ensures a[i] != b[j]
    {
      assert In(s, a[i], p) && In(s, b[j], q);
    }
  }

  /** A victim moves to another CPU only if it is nobody's current thread, and
      only while the target is below its share; a current thread is skipped. */
  lemma MigPushKeepsInv(s: State, c: nat, d: nat)
    requires Inv(s) && Enabled(s, MigPush(c, d))
    ensures Exec(s, MigPush(c, d)).Next? && Inv(Exec(s, MigPush(c, d)).s)
    ensures |At(Exec(s, MigPush(c, d)).s, RunQueue(d))| <= s.mig[c].share
  {
    if At(s, Victims(c))[0] == s.cur[c] {
      SkipKeepsInv(s, c, d);
    } else {
      PushKeepsInv(s, c, d);
    }
  }

  lemma SkipKeepsInv(s: State, c: nat, d: nat)
    requires Inv(s) && Enabled(s, MigPush(c, d)) && At(s, Victims(c))[0] == s.cur[c]
    ensures Exec(s, MigPush(c, d)).Next? && Inv(Exec(s, MigPush(c, d)).s)
    ensures At(Exec(s, MigPush(c, d)).s, RunQueue(d)) == At(s, RunQueue(d))
  {
    hide OnePlace, Homed, States, NoDup, Current;
    var q, v, s' := At(s, RunQueue(c)), At(s, Victims(c)), Exec(s, MigPush(c, d)).s;
    ListsAreDistinct(s, RunQueue(c), Victims(c));
    RotateDistinct(q, v);
    ReshuffleKeepsInv(s, s', c);
  }

  lemma RotateDistinct(q: seq<Tid>, v: seq<Tid>)
    requires v != [] && NoDup(q + v)
    ensures NoDup(q + (v[1..] + [v[0]]))
    ensures forall t :: t in v[1..] + [v[0]] <==> t in v
  {
    var a, b := q + v, q + (v[1..] + [v[0]]);
    assert v == [v[0]] + v[1..];
    forall i, j | 0 <= i < j < |b|
      ensures b[i] != b[j]
    {
      var i' := if i < |q| then i else i + 1;
      var j' := if j < |q| then j else if j < |b| - 1 then j + 1 else |q|;
      assert b[i] == a[i'] && b[j] == a[j'];
    }
  }

  lemma PushKeepsInv(s: State, c: nat, d: nat)
    requires Inv(s) && Enabled(s, MigPush(c, d)) && At(s, Victims(c)) != [] && At(s, Victims(c))[0] != s.cur[c]
    ensures Exec(s, MigPush(c, d)).Next? && Inv(Exec(s, MigPush(c, d)).s)
    ensures At(Exec(s, MigPush(c, d)).s, RunQueue(d)) == At(s, RunQueue(d)) + [At(s, Victims(c))[0]]
    ensures At(Exec(s, MigPush(c, d)).s, Victims(c)) == At(s, Victims(c))[1..]
  {
    hide OnePlace, Homed, States, In;
    var t, s' := At(s, Victims(c))[0], Exec(s, MigPush(c, d)).s;
    MoveHeadMoves(s, s', Victims(c), RunQueue(d));
    LiveThread(s, t, Victims(c));
    HeadToTailKeeps(s, s', t, Victims(c), RunQueue(d));
    assert forall x :: 0 <= x < |s.cur| ==> s.cur[x] != t;
  }

  /* ------------------------------------------------------------------ */
  /* All runs                                                             */

  lemma ExecKeepsInv(s: State, e: Event)
    requires Inv(s) && Enabled(s, e)
    ensures Exec(s, e).Next? && Inv(Exec(s, e).s)
  {
    hide Inv, Exec;
    match e
    case Fork(c, t) => ForkKeepsInv(s, c, t);
    case SwitchOut(c, dest) => SwitchOutKeepsInv(s, c, dest);
    case Pick(c) => PickKeepsInv(s, c);
    case Exorcise(c) => ExorciseKeepsInv(s, c);
    case WakeGrab(c, wc) => WakeGrabKeepsInv(s, c, wc);
    case WakePut(c) => WakePutKeepsInv(s, c);
    case MigCount(c, share) => MigCountKeepsInv(s, c, share);
    case MigGrab(c) => MigGrabKeepsInv(s, c);
    case MigPush(c, d) => MigPushKeepsInv(s, c, d);
    case MigReturn(c) => MigReturnKeepsInv(s, c);
  }

  /** A run: each event enabled in the state before it. */
  function Run(s: State, es: seq<Event>): Option<Result>
    decreases |es|
  {
    if es == [] then Some(Next(s))
    else
      match Run(s, es[..|es| - 1])
      case Some(Next(s1)) => if Enabled(s1, es[|es| - 1]) then Some(Exec(s1, es[|es| - 1])) else None
      case r => r
  }

  /** No run from boot crashes, and every state it reaches satisfies the invariant. */
  lemma {:induction false} AllRunsKeepInv(s: State, es: seq<Event>)
    requires Boot(s)
    ensures Run(s, es).Some? ==> Run(s, es).value.Next? && Inv(Run(s, es).value.s)
    decreases |es|
  {
    hide Inv, Exec, Boot;
    if es == [] {
      BootInv(s);
    } else {
      AllRunsKeepInv(s, es[..|es| - 1]);
      var r := Run(s, es[..|es| - 1]);
      if r.Some? && Enabled(r.value.s, es[|es| - 1]) {
        ExecKeepsInv(r.value.s, es[|es| - 1]);
      }
    }
  }

  /** In every state reached, no two CPUs run on the same thread's stack, and
      the thread a CPU runs on exists, belongs to it and, unless the CPU is
      idle, is on no list. */
  lemma StacksAreExclusive(s: State, es: seq<Event>, z: State, c: nat, d: nat)
    requires Boot(s) && Run(s, es) == Some(Next(z)) && c < |z.cur| && d < |z.cur|
    ensures c != d ==> z.cur[c] != z.cur[d]
    ensures z.cur[c] in z.tcpu && z.tcpu[z.cur[c]] == c
    ensures !z.idle[c] ==> forall p :: In(z, z.cur[c], p) ==> p == Running(c)
  {
    AllRunsKeepInv(s, es);
    hide Run;
    if !z.idle[c] {
      assert In(z, z.cur[c], Running(c));
    }
  }

  /** The threads ready to run on any queue or victim list. */
  ghost predicate IsReady(s: State, t: Tid) {
    exists c :: In(s, t, RunQueue(c)) || In(s, t, Victims(c))
  }

  /** Migration neither loses nor invents a ready thread. */
  lemma MigrationConserves(s: State, e: Event, t: Tid)
    requires Inv(s) && Enabled(s, e) && (e.MigCount? || e.MigGrab? || e.MigPush? || e.MigReturn?)
    ensures IsReady(s, t) <==> IsReady(Exec(s, e).s, t)
  {
    ExecKeepsInv(s, e);
    var s' := Exec(s, e).s;
    assert s'.tcpu.Keys == s.tcpu.Keys && s'.tstate == s.tstate by {
      MigrationRecords(s, e);
    }
    hide Exec;
    ReadyMeansReady(s, t);
    ReadyMeansReady(s', t);
    SameRunning(s, s', e, t);
  }

  lemma MigrationRecords(s: State, e: Event)
    requires Inv(s) && Enabled(s, e) && (e.MigCount? || e.MigGrab? || e.MigPush? || e.MigReturn?)
    ensures Exec(s, e).Next?
    ensures Exec(s, e).s.tcpu.Keys == s.tcpu.Keys && Exec(s, e).s.tstate == s.tstate
    ensures forall c :: At(Exec(s, e).s, Running(c)) == At(s, Running(c))
  {
    hide Inv;
    ExecKeepsInv(s, e);
    if e.MigPush? {
      HeadIsIn(s, Victims(e.c));
      LiveThread(s, At(s, Victims(e.c))[0], Victims(e.c));
      PushRecords(s, e.c, e.d);
    }
  }

  lemma PushRecords(s: State, c: nat, d: nat)
    requires Enabled(s, MigPush(c, d)) && At(s, Victims(c)) != [] && At(s, Victims(c))[0] in s.tcpu
    ensures
      var s' := Exec(s, MigPush(c, d)).s;
      && s'.tcpu.Keys == s.tcpu.Keys && s'.tstate == s.tstate
      && forall x :: At(s', Running(x)) == At(s, Running(x))
  {
  }

  /** Ready in its record and not running: on a queue or victim list. */
  lemma ReadyMeansReady(s: State, t: Tid)
    requires Inv(s)
    ensures IsReady(s, t) <==> t in s.tcpu && s.tstate[t] == Ready && forall c :: !In(s, t, Running(c))
  {
    hide At, NoDup;
    if IsReady(s, t) {
      var c :| In(s, t, RunQueue(c)) || In(s, t, Victims(c));
      assert In(s, t, if In(s, t, RunQueue(c)) then RunQueue(c) else Victims(c));
    }
    if t in s.tcpu && s.tstate[t] == Ready && forall c :: !In(s, t, Running(c)) {
      var p :| In(s, t, p);
      assert StateOf(p, Ready);
      assert p == RunQueue(p.cpu) || p == Victims(p.cpu);
    }
  }

  lemma SameRunning(s: State, s': State, e: Event, t: Tid)
    requires Inv(s) && Enabled(s, e) && (e.MigCount? || e.MigGrab? || e.MigPush? || e.MigReturn?)
    requires Exec(s, e) == Next(s')
    ensures forall c :: In(s', t, Running(c)) <==> In(s, t, Running(c))
  {
    MigrationRecords(s, e);
  }

  /* ------------------------------------------------------------------ */
  /* The functions themselves                                            */

  /** All lists but these are as they were. */
  ghost predicate SameLists(s: State, s': State, but: set<Place>) {
    forall p :: p !in but ==> At(s', p) == At(s, p)
  }

  /** Those of a list whose CPU is d, in the same order. */
  function Homing(tcpu: map<Tid, nat>, q: seq<Tid>, d: nat): seq<Tid> {
    if q == [] then []
    else
      var rest, t := Homing(tcpu, q[..|q| - 1], d), q[|q| - 1];
      if t in tcpu && tcpu[t] == d then rest + [t] else rest
  }

  class System {
    var lists: map<Place, seq<Tid>>
    var cur: seq<Tid>
    var idle: seq<bool>
    var mig: seq<Migration>
    var tcpu: map<Tid, nat>
    var tstate: map<Tid, ThreadState>

    function S(): State
      reads this
    {
      State(lists, cur, idle, mig, tcpu, tstate)
    }

    ghost predicate Valid()
      reads this
    {
      Inv(S())
    }

    /** threadlist_addtail() on the list of place p. */
    method AddTail(p: Place, t: Tid)
      modifies `lists
      ensures S() == Put(old(S()), p, At(old(S()), p) + [t])
    {
      lists := lists[p := At(S(), p) + [t]];
    }

    /** threadlist_remhead() of a list that is not empty. */
    method RemHead(p: Place) returns (t: Tid)
      requires At(S(), p) != []
      modifies `lists
      ensures t == At(old(S()), p)[0] && S() == Put(old(S()), p, At(old(S()), p)[1..])
    {
      t := lists[p][0];
      lists := lists[p := lists[p][1..]];
    }

    /** thread_switch() up to the idle loop. */
    method ThreadSwitch(c: nat, dest: Dest)
      requires Valid() && Enabled(S(), SwitchOut(c, dest))
      modifies this
      ensures Valid() && Exec(old(S()), SwitchOut(c, dest)) == Next(S())
      ensures dest == Yield && At(old(S()), RunQueue(c)) == [] ==> S() == old(S())
      ensures dest != Yield || At(old(S()), RunQueue(c)) != [] ==>
                var t := old(cur)[c];
                var p := match dest case Yield => RunQueue(c) case SleepOn(wc) => Channel(wc) case Exit => Zombies(c);
                && At(S(), p) == At(old(S()), p) + [t] && At(S(), Running(c)) == []
                && SameLists(old(S()), S(), {Running(c), p})
                && cur == old(cur) && idle == old(idle)[c := true] && mig == old(mig) && tcpu == old(tcpu)
                && tstate == old(tstate)[t := match dest case Yield => Ready case SleepOn(_) => Sleep case Exit => Zombie]
    {
      hide Inv;
      ghost var s := S();
      CurrentIsHome(s, c);
      ExecKeepsInv(s, SwitchOut(c, dest));
      CurrentLives(s, c);
      if dest == Yield && At(S(), RunQueue(c)) == [] {
        return;
      }
      var t := cur[c];
      lists := lists[Running(c) := []];
      match dest {
        case Yield => AddTail(RunQueue(tcpu[t]), t);
        case SleepOn(wc) => AddTail(Channel(wc), t);
        case Exit => AddTail(Zombies(c), t);
      }
      tstate := tstate[t := NewState(dest)];
      idle := idle[c := true];
    }

    /** The idle loop of thread_switch() finding a thread. */
    method NextThread(c: nat)
      requires Valid() && Enabled(S(), Pick(c))
      modifies this
      ensures Valid() && Exec(old(S()), Pick(c)) == Next(S())
      ensures
        var q := At(old(S()), RunQueue(c));
        && cur == old(cur)[c := q[0]] && At(S(), Running(c)) == At(old(S()), Running(c)) + [q[0]]
        && At(S(), RunQueue(c)) == q[1..] && SameLists(old(S()), S(), {Running(c), RunQueue(c)})
        && idle == old(idle)[c := false] && mig == old(mig) && tcpu == old(tcpu)
        && tstate == old(tstate)[q[0] := OnCpu]
    {
      hide Inv;
      ExecKeepsInv(S(), Pick(c));
      var next := RemHead(RunQueue(c));
      AddTail(Running(c), next);
      idle, cur, tstate := idle[c := false], cur[c := next], tstate[next := OnCpu];
    }

    /** exorcise(): destroys every zombie of the CPU, and nothing else. */
    method ExorciseAll(c: nat)
      requires Valid() && c < |cur| == |idle| == |mig| && !idle[c]
      modifies this
      ensures Valid() && At(S(), Zombies(c)) == []
      ensures forall t :: t in tcpu <==> t in old(tcpu) && t !in At(old(S()), Zombies(c))
      ensures cur == old(cur) && idle == old(idle)
    {
      hide Inv, In;
      ghost var all := At(S(), Zombies(c));
      ghost var k := 0;
      while At(S(), Zombies(c)) != []
        invariant Valid() && c < |cur| == |idle| == |mig| && !idle[c] && cur == old(cur) && idle == old(idle)
        invariant 0 <= k <= |all| && At(S(), Zombies(c)) == all[k..]
        invariant forall t :: t in tcpu <==> t in old(tcpu) && t !in all[..k]
        decreases |At(S(), Zombies(c))|
      {
        ExecKeepsInv(S(), Exorcise(c));
        var z := RemHead(Zombies(c));
        tcpu, tstate := tcpu - {z}, tstate - {z};
        k := k + 1;
        assert all[..k] == all[..k - 1] + [z];
      }
      assert all[..k] == all;
    }

    /** thread_make_runnable() of the thread in hand. */
    method MakeRunnable(c: nat)
      requires Valid() && Enabled(S(), WakePut(c))
      modifies this
      ensures Valid() && Exec(old(S()), WakePut(c)) == Next(S())
      ensures
        var t := At(old(S()), Hand(c))[0];
        && t in old(tcpu) && At(S(), RunQueue(old(tcpu)[t])) == At(old(S()), RunQueue(old(tcpu)[t])) + [t]
        && At(S(), Hand(c)) == At(old(S()), Hand(c))[1..]
        && SameLists(old(S()), S(), {Hand(c), RunQueue(old(tcpu)[t])})
        && cur == old(cur) && idle == old(idle) && mig == old(mig) && tcpu == old(tcpu)
        && tstate == old(tstate)[t := Ready]
    {
      hide Inv;
      ExecKeepsInv(S(), WakePut(c));
      var t := RemHead(Hand(c));
      tstate := tstate[t := Ready];
      AddTail(RunQueue(tcpu[t]), t);
    }

    method TakeSleeper(c: nat, wc: Wchan)
      requires Valid() && Enabled(S(), WakeGrab(c, wc))
      modifies this
      ensures Valid() && Exec(old(S()), WakeGrab(c, wc)) == Next(S())
      ensures At(S(), Channel(wc)) == At(old(S()), Channel(wc))[1..]
      ensures At(S(), Hand(c)) == At(old(S()), Hand(c)) + [At(old(S()), Channel(wc))[0]]
      ensures SameLists(old(S()), S(), {Hand(c), Channel(wc)})
      ensures cur == old(cur) && idle == old(idle) && mig == old(mig) && tcpu == old(tcpu) && tstate == old(tstate)
    {
      hide Inv;
      ExecKeepsInv(S(), WakeGrab(c, wc));
      var t := RemHead(Channel(wc));
      AddTail(Hand(c), t);
    }

    /** wchan_wakeone(). */
    method WakeOne(c: nat, wc: Wchan)
      requires Valid() && c < |cur| == |idle| == |mig| && At(S(), Hand(c)) == []
      modifies this
      ensures Valid() && At(S(), Hand(c)) == []
      ensures At(old(S()), Channel(wc)) == [] ==> S() == old(S())
      ensures At(old(S()), Channel(wc)) != [] ==>
                var t := At(old(S()), Channel(wc))[0];
                && At(S(), Channel(wc)) == At(old(S()), Channel(wc))[1..]
                && t in tcpu && At(S(), RunQueue(tcpu[t])) == At(old(S()), RunQueue(tcpu[t])) + [t]
                && SameLists(old(S()), S(), {Channel(wc), RunQueue(tcpu[t])})
    {
      hide Inv;
      if At(S(), Channel(wc)) == [] {
        return;
      }
      TakeSleeper(c, wc);
      ExecKeepsInv(S(), WakePut(c));
      MakeRunnable(c);
    }

    /** The first loop of wchan_wakeall(). */
    method DrainChannel(c: nat, wc: Wchan)
      requires Valid() && c < |cur| == |idle| == |mig| && At(S(), Hand(c)) == []
      modifies this
      ensures Valid() && cur == old(cur) && idle == old(idle) && mig == old(mig) && tcpu == old(tcpu)
      ensures At(S(), Channel(wc)) == [] && At(S(), Hand(c)) == At(old(S()), Channel(wc))
      ensures SameLists(old(S()), S(), {Hand(c), Channel(wc)})
    {
      hide Inv, At, Enabled, Exec;
      ghost var all := At(S(), Channel(wc));
      while At(S(), Channel(wc)) != []
        invariant Valid() && cur == old(cur) && idle == old(idle) && mig == old(mig) && tcpu == old(tcpu)
        invariant At(S(), Hand(c)) + At(S(), Channel(wc)) == all
        invariant SameLists(old(S()), S(), {Hand(c), Channel(wc)})
        decreases |At(S(), Channel(wc))|
      {
        CanGrab(S(), c, wc);
        ghost var m := S();
        TakeSleeper(c, wc);
        GrabShifts(At(m, Hand(c)), At(m, Channel(wc)), At(S(), Hand(c)), At(S(), Channel(wc)));
      }
    }

    /** Its second loop, over the private list: each run queue grows by those
        of its CPU, in the order of the list. */
    method MakeAllRunnable(c: nat)
      requires Valid() && c < |cur| == |idle| == |mig|
      modifies this
      ensures Valid() && cur == old(cur) && idle == old(idle) && mig == old(mig) && tcpu == old(tcpu)
      ensures At(S(), Hand(c)) == []
      ensures forall d :: At(S(), RunQueue(d)) == At(old(S()), RunQueue(d)) + Homing(tcpu, At(old(S()), Hand(c)), d)
      ensures forall p: Place :: !p.RunQueue? && p != Hand(c) ==> At(S(), p) == At(old(S()), p)
    {
      hide Inv;
      ghost var all, s := At(S(), Hand(c)), S();
      ghost var k := 0;
      assert all[..0] == [];
      while At(S(), Hand(c)) != []
        invariant Valid() && cur == old(cur) && idle == old(idle) && mig == old(mig) && tcpu == old(tcpu)
        invariant 0 <= k <= |all| && At(S(), Hand(c)) == all[k..]
        invariant forall d :: At(S(), RunQueue(d)) == At(s, RunQueue(d)) + Homing(tcpu, all[..k], d)
        invariant forall p: Place :: !p.RunQueue? && p != Hand(c) ==> At(S(), p) == At(s, p)
        decreases |At(S(), Hand(c))|
      {
        hide At;
        ExecKeepsInv(S(), WakePut(c));
        ghost var m := S();
        MakeRunnable(c);
        assert all[..k + 1][..k] == all[..k];
        k := k + 1;
        HomingGrows(s, m, S(), tcpu, all, k);
      }
      assert all[..k] == all;
    }

    /** wchan_wakeall(): the channel is empty, and the threads that slept on
        it are at the ends of the run queues of their CPUs, in the order in
        which they had gone to sleep. */
    method WakeAll(c: nat, wc: Wchan)
      requires Valid() && c < |cur| == |idle| == |mig| && At(S(), Hand(c)) == []
      modifies this
      ensures Valid() && cur == old(cur) && idle == old(idle) && mig == old(mig) && tcpu == old(tcpu)
      ensures At(S(), Channel(wc)) == [] && At(S(), Hand(c)) == []
      ensures forall d :: At(S(), RunQueue(d)) == At(old(S()), RunQueue(d)) + Homing(tcpu, At(old(S()), Channel(wc)), d)
      ensures forall p: Place :: !p.RunQueue? && p != Channel(wc) ==> At(S(), p) == At(old(S()), p)
      ensures forall t :: t in At(old(S()), Channel(wc)) ==> t in tcpu && t in At(S(), RunQueue(tcpu[t]))
    {
      hide Inv;
      ghost var s := S();
      DrainChannel(c, wc);
      hide At;
      MakeAllRunnable(c);
      forall t | t in At(s, Channel(wc))
        ensures t in tcpu && t in At(S(), RunQueue(tcpu[t]))
      {
        ListedLives(s, t, Channel(wc));
        HomingMembers(tcpu, At(s, Channel(wc)), t);
      }
    }
  }

  lemma CanGrab(s: State, c: nat, wc: Wchan)
    requires c < |s.cur| == |s.idle| == |s.mig| && At(s, Channel(wc)) != []
    ensures Enabled(s, WakeGrab(c, wc))
  {
  }

  lemma GrabShifts(h: seq<Tid>, q: seq<Tid>, h': seq<Tid>, q': seq<Tid>)
    requires q != [] && h' == h + [q[0]] && q' == q[1..]
    ensures h' + q' == h + q
  {
  }

  lemma HomingGrows(s: State, m: State, s': State, tcpu: map<Tid, nat>, all: seq<Tid>, k: nat)
    requires 0 < k <= |all| && all[k - 1] in tcpu
    requires forall d :: At(m, RunQueue(d)) == At(s, RunQueue(d)) + Homing(tcpu, all[..k - 1], d)
    requires forall d :: At(s', RunQueue(d)) == At(m, RunQueue(d)) + if d == tcpu[all[k - 1]] then [all[k - 1]] else []
    ensures forall d :: At(s', RunQueue(d)) == At(s, RunQueue(d)) + Homing(tcpu, all[..k], d)
  {
    hide At;
    assert all[..k][..k - 1] == all[..k - 1];
    forall d
      ensures At(s', RunQueue(d)) == At(s, RunQueue(d)) + Homing(tcpu, all[..k], d)
    {
      assert Homing(tcpu, all[..k], d)
          == Homing(tcpu, all[..k - 1], d) + if d == tcpu[all[k - 1]] then [all[k - 1]] else [];
    }
  }

  lemma {:induction false} HomingMembers(tcpu: map<Tid, nat>, q: seq<Tid>, t: Tid)
    requires t in q && t in tcpu
    ensures t in Homing(tcpu, q, tcpu[t])
  {
    if t != q[|q| - 1] {
      assert t in q[..|q| - 1];
      HomingMembers(tcpu, q[..|q| - 1], t);
    }
  }

  // Wait channels as queues

  /** Who joins the channel in a step, and whether its first thread leaves. */
  function Joins(s: State, e: Event, wc: Wchan): seq<Tid> {
    if e.SwitchOut? && e.dest == SleepOn(wc) && e.c < |s.cur| then [s.cur[e.c]] else []
  }

  function Leaves(s: State, e: Event, wc: Wchan): seq<Tid> {
    if e.WakeGrab? && e.wc == wc && At(s, Channel(wc)) != [] then [At(s, Channel(wc))[0]] else []
  }

  /** A channel changes in two ways only: whoever goes to sleep on it joins at
      the end, and a wakeup takes the first. */
  lemma ChannelStep(s: State, e: Event, wc: Wchan)
    requires Inv(s) && Enabled(s, e) && Exec(s, e).Next?
    ensures Leaves(s, e, wc) + At(Exec(s, e).s, Channel(wc)) == At(s, Channel(wc)) + Joins(s, e, wc)
  {
    hide Inv;
    if e.SwitchOut? {
      CurrentIsHome(s, e.c);
      SwitchChannel(s, e.c, e.dest, wc);
    } else if e.WakeGrab? {
      var q := At(s, Channel(e.wc));
      assert q == [q[0]] + q[1..];
    } else {
      OtherChannel(s, e, wc);
    }
  }

  lemma SwitchChannel(s: State, c: nat, dest: Dest, wc: Wchan)
    requires Enabled(s, SwitchOut(c, dest)) && Exec(s, SwitchOut(c, dest)).Next? && s.cur[c] in s.tcpu
    ensures At(Exec(s, SwitchOut(c, dest)).s, Channel(wc))
         == At(s, Channel(wc)) + if dest == SleepOn(wc) then [s.cur[c]] else []
  {
  }

  lemma OtherChannel(s: State, e: Event, wc: Wchan)
    requires Enabled(s, e) && Exec(s, e).Next? && !e.SwitchOut? && !e.WakeGrab?
    ensures At(Exec(s, e).s, Channel(wc)) == At(s, Channel(wc))
  {
  }

  /** Who went to sleep on a channel in a run, and who was taken off it, in
      order. */
  function Slept(s: State, es: seq<Event>, wc: Wchan): seq<Tid> {
    if es == [] then []
    else
      var n, r := |es| - 1, Run(s, es[..|es| - 1]);
      Slept(s, es[..n], wc) + if r.Some? && r.value.Next? then Joins(r.value.s, es[n], wc) else []
  }

  function Woken(s: State, es: seq<Event>, wc: Wchan): seq<Tid> {
    if es == [] then []
    else
      var n, r := |es| - 1, Run(s, es[..|es| - 1]);
      Woken(s, es[..n], wc) + if r.Some? && r.value.Next? then Leaves(r.value.s, es[n], wc) else []
  }

  /** In every run from boot, threads leave a channel in the order in which
      they went to sleep on it: those woken, followed by those still asleep,
      are those who went to sleep. */
  lemma {:induction false} ChannelsAreFifo(s: State, es: seq<Event>, wc: Wchan)
    requires Boot(s) && Run(s, es).Some?
    ensures Run(s, es).value.Next?
    ensures Woken(s, es, wc) + At(Run(s, es).value.s, Channel(wc)) == Slept(s, es, wc)
  {
    AllRunsKeepInv(s, es);
    if es != [] {
      var n := |es| - 1;
      ChannelsAreFifo(s, es[..n], wc);
      AllRunsKeepInv(s, es[..n]);
      hide Inv, Exec, At, Joins, Leaves, Enabled;
      var u, v := Run(s, es[..n]).value.s, Run(s, es).value.s;
      assert Exec(u, es[n]) == Next(v);
      ChannelStep(u, es[n], wc);
      Shift(Woken(s, es[..n], wc), At(u, Channel(wc)), Slept(s, es[..n], wc), Leaves(u, es[n], wc),
            At(v, Channel(wc)), Joins(u, es[n], wc));
    } else {
      assert At(s, Channel(wc)) == [];
    }
  }

  lemma ListedLives(s: State, t: Tid, p: Place)
    requires Inv(s) && t in At(s, p)
    ensures t in s.tcpu
  {
    assert In(s, t, p);
  }

  /** A sleeping thread stays on its channel until a wakeup of that channel
      finds it first. */
  lemma SleepsUntilWoken(s: State, e: Event, t: Tid, wc: Wchan)
    requires Inv(s) && Enabled(s, e) && t in At(s, Channel(wc))
    ensures Exec(s, e).Next?
    ensures t in At(Exec(s, e).s, Channel(wc)) <==> !(e.WakeGrab? && e.wc == wc && At(s, Channel(wc))[0] == t)
  {
    ExecKeepsInv(s, e);
    ChannelStep(s, e, wc);
    assert NoDup(At(s, Channel(wc)));
    hide Inv, Exec, At;
    var q, q', l, j := At(s, Channel(wc)), At(Exec(s, e).s, Channel(wc)), Leaves(s, e, wc), Joins(s, e, wc);
    assert t in q + j && t in l + q';
    if l != [] {
      assert j == [] && q + j == q && q == [q[0]] + q';
    } else {
      assert l + q' == q';
    }
  }

  lemma CurrentLives(s: State, c: nat)
    requires Inv(s) && c < |s.cur|
    ensures s.cur[c] in s.tcpu
  {
  }
}
