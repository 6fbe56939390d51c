/** Sleep locks over wait channels, kern/thread/synch.c, with the deadlock
    detector calls of lock_acquire and lock_release.

    Each event is one section run under the lock's spinlock.  A thread inside
    lock_acquire is either asleep on the lock's channel or woken and on its way
    to look again; between the two any other thread may barge in. */
module Locks {
  import opened Hangman
  import opened Queues
  import opened Wrappers

  datatype State = State(
    holder: map<Lockable, Actor>,         // lk_holder
    channels: map<Lockable, seq<Actor>>,  // lk_wchan
    woken: map<Actor, Lockable>,          // made runnable, not yet back under lk_lock
    g: Graph)

  const INIT := State(map[], map[], map[], Graph(map[], map[]))

  function Chan(s: State, l: Lockable): seq<Actor> {
    if l in s.channels then s.channels[l] else []
  }

  /** The thread has entered lock_acquire for l and not come out. */
  ghost predicate InsideFor(s: State, t: Actor, l: Lockable) {
    t in Chan(s, l) || (t in s.woken && s.woken[t] == l)
  }

  ghost predicate Inside(s: State, t: Actor) {
    exists l :: InsideFor(s, t, l)
  }

  datatype Event =
    | Enter(t: Actor, l: Lockable)  // lock_acquire up to its first sleep or success
    | Retry(t: Actor)               // a woken thread goes round the loop again
    | Leave(t: Actor, l: Lockable)  // lock_release

  datatype Result = Ok(s: State) | Panicked(why: Verdict) | AssertHolder

  /** A thread is in one place at a time: events of threads inside
      lock_acquire are retries, and those need a wakeup first. */
  ghost predicate Enabled(s: State, e: Event) {
    match e
    case Enter(t, l) => l != SELF && !Inside(s, t)
    case Retry(t) => t in s.woken
    case Leave(t, l) => l != SELF && !Inside(s, t)
  }

  /** The loop test: sleep while the lock is held, else take it. */
  function LoopTest(s: State, t: Actor, l: Lockable): Result {
    if l in s.holder then
      Ok(s.(channels := s.channels[l := Chan(s, l) + [t]], woken := s.woken - {t}))
    else if !(t in s.g.waiting && s.g.waiting[t] == l) then
      Panicked(NotWaitingForIt)
    else if l in s.g.holding then
      Panicked(StillHeld)
    else
      Ok(s.(holder := s.holder[l := t], woken := s.woken - {t}, g := Acquires(s.g, t, l)))
  }

  ghost function Exec(s: State, e: Event): Result
    requires Enabled(s, e)
  {
    match e
    case Enter(t, l) =>
      if t in s.g.waiting then Panicked(AlreadyWaiting)
      else if Reaches(s.g, Holder(s.g, l), t) then Panicked(Deadlock)
      else if l in s.holder && s.holder[l] == t then AssertHolder
      else LoopTest(s.(g := Waits(s.g, t, l)), t, l)
    case Retry(t) =>
      LoopTest(s, t, s.woken[t])
    case Leave(t, l) =>
      if !(l in s.holder && s.holder[l] == t) then AssertHolder
      else if t in s.g.waiting then Panicked(WaitingForSomething)
      else if !(l in s.g.holding && s.g.holding[l] == t) then Panicked(NotTheHolder)
      else Ok(WakeOne(s.(holder := s.holder - {l}, g := Releases(s.g, l)), l))
  }

  /** wchan_wakeone on the lock's channel. */
  function WakeOne(s: State, l: Lockable): State {
    var c := Chan(s, l);
    if c == [] then s
    else s.(channels := s.channels[l := c[1..]], woken := s.woken[c[0] := l])
  }

  ghost predicate NoDup(c: seq<Actor>) {
    forall i, j :: 0 <= i < j < |c| ==> c[i] != c[j]
  }

  ghost predicate Inv(s: State) {
    && s.g.holding == s.holder
    && (forall t, l :: InsideFor(s, t, l) <==> t in s.g.waiting && s.g.waiting[t] == l)
    && (forall t, l :: t in s.woken ==> t !in Chan(s, l))
    && (forall l :: NoDup(Chan(s, l)))
    && (forall t :: t in s.woken ==> s.woken[t] != SELF)
    && (forall l :: Chan(s, l) != [] && l !in s.holder ==> exists t :: t in s.woken && s.woken[t] == l)
    && Acyclic(s.g)
  }

  lemma InitInv()
    ensures Inv(INIT)
  {
    var g := INIT.g;
    assert forall a: Actor, n: nat :: n > 0 ==> Walk(g, Some(a), n) == Walk(g, None, n - 1);
  }

  /** What holds while t is between hangman_wait and its loop test. */
  ghost predicate InvBut(s: State, t: Actor, l: Lockable) {
    && s.g.holding == s.holder && Acyclic(s.g)
    && t in s.g.waiting && s.g.waiting[t] == l
    && (t in s.woken ==> s.woken[t] == l)
    && (forall l' :: t !in Chan(s, l'))
    && (forall u, l' :: u != t ==> (InsideFor(s, u, l') <==> u in s.g.waiting && s.g.waiting[u] == l'))
    && (forall u, l' :: u in s.woken ==> u !in Chan(s, l'))
    && (forall l' :: NoDup(Chan(s, l')))
    && (forall u :: u in s.woken ==> s.woken[u] != SELF)
    && (forall l' :: Chan(s, l') != [] && l' !in s.holder ==> exists u :: u in s.woken && s.woken[u] == l')
  }

  lemma SleepKeepsInv(s: State, t: Actor, l: Lockable)
    requires InvBut(s, t, l) && l in s.holder
    ensures LoopTest(s, t, l).Ok? && Inv(LoopTest(s, t, l).s)
  {
    var s' := LoopTest(s, t, l).s;
    assert Chan(s', l) == Chan(s, l) + [t];
    assert forall l' :: l' != l ==> Chan(s', l') == Chan(s, l');
    assert forall u, l' :: u != t ==> (InsideFor(s', u, l') <==> InsideFor(s, u, l'));
    WokenRemain(s, s', t, l);
  }

  lemma TakeKeepsInv(s: State, t: Actor, l: Lockable)
    requires InvBut(s, t, l) && l !in s.holder
    ensures LoopTest(s, t, l).Ok? && Inv(LoopTest(s, t, l).s)
  {
    var s' := LoopTest(s, t, l).s;
    AcquireKeepsAcyclic(s.g, t, l);
    assert forall l' :: Chan(s', l') == Chan(s, l');
    assert forall u, l' :: u != t ==> (InsideFor(s', u, l') <==> InsideFor(s, u, l'));
    WokenRemain(s, s', t, l);
  }

  lemma LoopTestKeepsInv(s: State, t: Actor, l: Lockable)
    requires InvBut(s, t, l)
    ensures LoopTest(s, t, l).Ok? && Inv(LoopTest(s, t, l).s)
  {
    hide Inv;
    if l in s.holder {
      SleepKeepsInv(s, t, l);
    } else {
      TakeKeepsInv(s, t, l);
    }
  }

  /** Only t stopped being woken, and its lock is held afterwards. */
  lemma WokenRemain(s: State, s': State, t: Actor, l: Lockable)
    requires s'.woken == s.woken - {t} && (t in s.woken ==> s.woken[t] == l)
    requires l in s'.holder && (forall l' :: l' in s.holder ==> l' in s'.holder)
    requires forall l' :: l' != l ==> Chan(s', l') == Chan(s, l')
    requires forall l' :: Chan(s, l') != [] && l' !in s.holder ==> exists u :: u in s.woken && s.woken[u] == l'
    ensures forall l' :: Chan(s', l') != [] && l' !in s'.holder ==> exists u :: u in s'.woken && s'.woken[u] == l'
  {
    forall l' | Chan(s', l') != [] && l' !in s'.holder
      ensures exists u :: u in s'.woken && s'.woken[u] == l'
    {
      var u :| u in s.woken && s.woken[u] == l';
      assert u in s'.woken && s'.woken[u] == l';
    }
  }

  lemma LeaveKeepsInv(s: State, t: Actor, l: Lockable)
    requires Inv(s) && l in s.holder && s.holder[l] == t && l != SELF
    ensures Inv(WakeOne(s.(holder := s.holder - {l}, g := Releases(s.g, l)), l))
  {
    ReleaseKeepsAcyclic(s.g, l);
    var s1 := s.(holder := s.holder - {l}, g := Releases(s.g, l));
    var s' := WakeOne(s1, l);
    var c := Chan(s, l);
    if c != [] {
      assert s'.woken[c[0]] == l;
      assert forall l' :: l' != l ==> Chan(s', l') == Chan(s, l');
      assert Chan(s', l) == c[1..];
      assert forall u :: u in c <==> u == c[0] || u in c[1..];
      assert c[0] !in c[1..];
      assert InsideFor(s, c[0], l);
      forall l' | l' != l
        ensures c[0] !in Chan(s, l')
      {
        if c[0] in Chan(s, l') {
          assert InsideFor(s, c[0], l');
        }
      }
      forall u, l'
        ensures InsideFor(s', u, l') <==> u in s'.g.waiting && s'.g.waiting[u] == l'
      {
        assert InsideFor(s', u, l') <==> InsideFor(s, u, l');
      }
      forall l' | Chan(s', l') != [] && l' !in s'.holder
        ensures exists u :: u in s'.woken && s'.woken[u] == l'
      {
        if l' != l {
          var u :| u in s.woken && s.woken[u] == l';
          assert u in s'.woken && s'.woken[u] == l';
        }
      }
    } else {
      assert forall l' :: Chan(s', l') == Chan(s, l');
      assert forall u, l' :: InsideFor(s', u, l') <==> InsideFor(s, u, l');
    }
  }

  lemma WaitersAreInside(s: State)
    requires Inv(s)
    ensures forall t :: t in s.g.waiting || t in s.woken ==> Inside(s, t)
    ensures forall t, l :: t in Chan(s, l) ==> Inside(s, t)
  {
    forall t | t in s.g.waiting || t in s.woken
      ensures Inside(s, t)
    {
      assert InsideFor(s, t, if t in s.woken then s.woken[t] else s.g.waiting[t]);
    }
    forall t, l | t in Chan(s, l)
      ensures Inside(s, t)
    {
      assert InsideFor(s, t, l);
    }
  }

  lemma NotWaiting(s: State, t: Actor)
    requires Inv(s) && !Inside(s, t)
    ensures t !in s.g.waiting && t !in s.woken && forall l :: t !in Chan(s, l)
  {
    WaitersAreInside(s);
  }

  /** Every event keeps the invariant, and the only ways to stop are the
      detector reporting a real cycle and a release by a thread that does not
      hold the lock: none of the detector's other checks can fire. */
  lemma ExecKeepsInv(s: State, e: Event)
    requires Inv(s) && Enabled(s, e)
    ensures var r := Exec(s, e);
            match r
            case Ok(s') => Inv(s')
            case Panicked(why) => why == Deadlock && e.Enter? && !Acyclic(Waits(s.g, e.t, e.l))
            case AssertHolder => e.Leave? && !(e.l in s.holder && s.holder[e.l] == e.t)
  {
    match e
    case Enter(t, l) =>
      NotWaiting(s, t);
      WaitClosesCycle(s.g, t, l);
      assert Walk(s.g, Holder(s.g, l), 0) == Holder(s.g, l);
      if !Reaches(s.g, Holder(s.g, l), t) {
        var s1 := s.(g := Waits(s.g, t, l));
        assert forall l' :: Chan(s1, l') == Chan(s, l');
        assert forall u, l' :: InsideFor(s1, u, l') <==> InsideFor(s, u, l');
        LoopTestKeepsInv(s1, t, l);
      }
    case Retry(t) =>
      assert InsideFor(s, t, s.woken[t]);
      LoopTestKeepsInv(s, t, s.woken[t]);
    case Leave(t, l) =>
      if l in s.holder && s.holder[l] == t {
        NotWaiting(s, t);
        LeaveKeepsInv(s, t, l);
      }
  }

  /** The state after a run of events from the state in which no lock is held,
      if every event was enabled and none stopped the system. */
  ghost function Run(es: seq<Event>): Option<State> {
    if es == [] then Some(INIT)
    else
      var e := es[|es| - 1];
      match Run(es[..|es| - 1])
      case None => None
      case Some(s) => if Enabled(s, e) && Exec(s, e).Ok? then Some(Exec(s, e).s) else None
  }

  lemma {:induction false} AllRunsKeepInv(es: seq<Event>)
    requires Run(es).Some?
    ensures Inv(Run(es).value)
  {
    if es == [] {
      InitInv();
    } else {
      AllRunsKeepInv(es[..|es| - 1]);
      ExecKeepsInv(Run(es[..|es| - 1]).value, es[|es| - 1]);
    }
  }

  /** A thread that is not blocked: running, or woken with its lock free. */
  ghost predicate CanProceed(s: State, t: Actor) {
    !Inside(s, t) || (t in s.woken && s.woken[t] !in s.holder)
  }

  /** No run ends in a circular wait: from any thread, the locks it waits for
      lead to a thread that can proceed, or to a free lock that a woken thread
      is on its way to take. */
  lemma NoDeadlock(es: seq<Event>, s: State, t: Actor) returns (n: nat, last: Actor, free: Actor)
    requires Run(es) == Some(s)
    ensures Walk(s.g, Some(t), n) == Some(last)
    ensures CanProceed(s, free)
    ensures free == last || (exists l :: InsideFor(s, last, l) && InsideFor(s, free, l))
  {
    AllRunsKeepInv(es);
    n, last := WalkEnds(s.g, t);
    if last !in s.g.waiting {
      assert forall l :: !InsideFor(s, last, l);
      free := last;
    } else {
      var l := s.g.waiting[last];
      assert InsideFor(s, last, l) && l !in s.holder;
      if last in s.woken {
        free := last;
      } else {
        free :| free in s.woken && s.woken[free] == l;
        assert InsideFor(s, free, l);
      }
    }
  }

  /** Mutual exclusion and ownership, read off the events: a lock changes hands
      only through a release by its holder and an acquisition while free. */
  lemma OnlyHolderReleases(s: State, e: Event, l: Lockable)
    requires Inv(s) && Enabled(s, e) && Exec(s, e).Ok?
    requires l in s.holder && !(l in Exec(s, e).s.holder && Exec(s, e).s.holder[l] == s.holder[l])
    ensures e == Leave(s.holder[l], l) && l !in Exec(s, e).s.holder
  {
  }

  // Channels as queues

  /** Who goes to sleep on a lock's channel in a step, and who is taken off. */
  function Joins(s: State, e: Event, l: Lockable): seq<Actor> {
    if l in s.holder && ((e.Enter? && e.l == l) || (e.Retry? && e.t in s.woken && s.woken[e.t] == l)) then [e.t] else []
  }

  function Departs(s: State, e: Event, l: Lockable): seq<Actor> {
    if e.Leave? && e.l == l && Chan(s, l) != [] then [Chan(s, l)[0]] else []
  }

  /** Sleepers join a channel at the end, and the release wakes the first. */
  lemma ChannelStep(s: State, e: Event, l: Lockable)
    requires Enabled(s, e) && Exec(s, e).Ok?
    ensures Departs(s, e, l) + Chan(Exec(s, e).s, l) == Chan(s, l) + Joins(s, e, l)
  {
    hide Inside, Reaches;
    var c := Chan(s, l);
    assert c != [] ==> c == [c[0]] + c[1..];
  }

  /** Who has gone to sleep for a lock in a run, and who was woken, in order. */
  ghost function Slept(es: seq<Event>, l: Lockable): seq<Actor> {
    if es == [] then []
    else
      var n, r := |es| - 1, Run(es[..|es| - 1]);
      Slept(es[..n], l) + if r.Some? then Joins(r.value, es[n], l) else []
  }

  ghost function Woken(es: seq<Event>, l: Lockable): seq<Actor> {
    if es == [] then []
    else
      var n, r := |es| - 1, Run(es[..|es| - 1]);
      Woken(es[..n], l) + if r.Some? then Departs(r.value, es[n], l) else []
  }

  /** In every run threads are woken in the order in which they went to sleep:
      those woken followed by those still asleep are those who slept. */
  lemma {:induction false} ChannelsAreFifo(es: seq<Event>, l: Lockable)
    requires Run(es).Some?
    ensures Woken(es, l) + Chan(Run(es).value, l) == Slept(es, l)
  {
    if es != [] {
      var n := |es| - 1;
      ChannelsAreFifo(es[..n], l);
      hide Exec, Enabled, Chan, Joins, Departs;
      var u, v := Run(es[..n]).value, Run(es).value;
      ChannelStep(u, es[n], l);
      Shift(Woken(es[..n], l), Chan(u, l), Slept(es[..n], l), Departs(u, es[n], l), Chan(v, l), Joins(u, es[n], l));
    }
  }

  /* ------------------------------------------------------------------ */

  /** A thread that goes round the loop takes the lock if it is free, and
      otherwise is the last on its channel; nothing else changes. */
  ghost predicate Passed(s: State, s': State, t: Actor, l: Lockable) {
    && s'.woken == s.woken - {t} && (forall k :: k != l ==> Chan(s', k) == Chan(s, k))
    && if l in s.holder then s'.holder == s.holder && Chan(s', l) == Chan(s, l) + [t]
       else s'.holder == s.holder[l := t] && Chan(s', l) == Chan(s, l)
  }

  /** The locks as mutable objects sharing one detector. */
  class LockTable {
    var holder: map<Lockable, Actor>
    var channels: map<Lockable, seq<Actor>>
    var woken: map<Actor, Lockable>
    const hangman: Detector

    ghost function S(): State
      reads this, hangman
    {
      State(holder, channels, woken, hangman.G())
    }

    constructor ()
      ensures S() == INIT && fresh(hangman)
    {
      holder, channels, woken := map[], map[], map[];
      hangman := new Detector();
    }

    /** The while loop of lock_acquire, up to the next sleep. */
    method Loop(t: Actor, l: Lockable) returns (why: Option<Verdict>)
      requires Acyclic(hangman.G()) && l != SELF
      modifies this, hangman
      ensures LoopTest(old(S()), t, l) == (if why.None? then Ok(S()) else Panicked(why.value))
    {
      if l in holder {
        channels := channels[l := (if l in channels then channels[l] else []) + [t]];
        woken := woken - {t};
        return None;
      }
      holder := holder[l := t];
      woken := woken - {t};
      var v := hangman.Acquire(t, l);
      return if v == Fine then None else Some(v);
    }

    method LockAcquire(t: Actor, l: Lockable) returns (why: Option<Verdict>, asserted: bool)
      requires Inv(S()) && Enabled(S(), Enter(t, l))
      modifies this, hangman
      ensures var r := Exec(old(S()), Enter(t, l));
              r == if asserted then AssertHolder else if why.None? then Ok(S()) else Panicked(why.value)
      ensures !asserted && why.None? ==> Inv(S()) && Passed(old(S()), S(), t, l)
      ensures asserted || why.Some? ==> holder == old(holder) && channels == old(channels) && woken == old(woken)
    {
      ExecKeepsInv(S(), Enter(t, l));
      NotWaiting(S(), t);
      WaitClosesCycle(S().g, t, l);
      var v := hangman.Wait(t, l);
      if v != Fine {
        return Some(v), false;
      }
      if l in holder && holder[l] == t {
        return None, true;
      }
      why := Loop(t, l);
      asserted := false;
    }

    method LockRetry(t: Actor) returns (why: Option<Verdict>)
      requires Inv(S()) && Enabled(S(), Retry(t))
      modifies this, hangman
      ensures Exec(old(S()), Retry(t)) == if why.None? then Ok(S()) else Panicked(why.value)
      ensures why.None? && Inv(S()) && Passed(old(S()), S(), t, old(woken)[t])
    {
      ExecKeepsInv(S(), Retry(t));
      why := Loop(t, woken[t]);
    }

    method LockRelease(t: Actor, l: Lockable) returns (why: Option<Verdict>, asserted: bool)
      requires Inv(S()) && Enabled(S(), Leave(t, l))
      modifies this, hangman
      ensures var r := Exec(old(S()), Leave(t, l));
              r == if asserted then AssertHolder else if why.None? then Ok(S()) else Panicked(why.value)
      ensures !asserted ==> why.None? && Inv(S())
      ensures asserted <==> !(l in old(holder) && old(holder)[l] == t)
      ensures asserted ==> S() == old(S())
      ensures !asserted ==>
                var c := Chan(old(S()), l);
                && holder == old(holder) - {l} && Chan(S(), l) == (if c == [] then c else c[1..])
                && (forall k :: k != l ==> Chan(S(), k) == Chan(old(S()), k))
                && woken == if c == [] then old(woken) else old(woken)[c[0] := l]
    {
      ExecKeepsInv(S(), Leave(t, l));
      if !(l in holder && holder[l] == t) {
        return None, true;
      }
      holder := holder - {l};
      if l in channels && channels[l] != [] {
        var target := channels[l][0];
        channels := channels[l := channels[l][1..]];
        woken := woken[target := l];
      }
      var v := hangman.Release(t, l);
      return if v == Fine then None else Some(v), false;
    }
  }
}
