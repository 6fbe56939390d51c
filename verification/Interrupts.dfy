/** Interrupt-level accounting: kern/thread/spl.c, spinlock.c, the context
    switch of thread.c and the interrupt entry of arch/mips/locore/trap.c.

    Each event is one of those functions executed on one CPU.  Spinlock
    acquisition is two events, so that another CPU can act while this one spins. */
module Interrupts {
  import opened Wrappers

  type Tid = nat
  type Lock = nat

  /** t_curspl (0 none, 1 high), t_iplhigh_count, and whether the interrupt
      handler the thread is in adjusted them on entry. */
  datatype Thread = Thread(curspl: nat, count: nat, adjusted: bool)

  /** `idleirq`: in a handler entered while cpu_idle flipped interrupts on. */
  datatype Cpu = Cpu(cur: Tid, spinlocks: nat, irq: bool, spinning: Option<Lock>, idleirq: bool)

  datatype State = State(threads: map<Tid, Thread>, cpus: seq<Cpu>, holder: map<Lock, nat>)

  datatype Event =
    | Splx(c: nat, level: nat)        // splx; splhigh and spl0 are its two levels
    | AcquireStart(c: nat, l: Lock)   // spinlock_acquire up to its loop
    | AcquireDone(c: nat)             // test-and-set succeeds
    | Release(c: nat, l: Lock)        // spinlock_release
    | Fork(c: nat, t: Tid)            // thread_create and the adjustment in thread_fork
    | Switch(c: nat, next: Tid)       // switchframe_switch
    | InterruptEnter(c: nat)          // mips_trap, EX_IRQ, with interrupts on
    | InterruptExit(c: nat)
    | IdleInterruptEnter(c: nat)      // the same in cpu_idle, with the recorded level high
    | IdleInterruptExit(c: nat)

  datatype Result = Ok(s: State) | Panic

  function Cur(s: State, c: nat): Option<Thread>
    requires c < |s.cpus|
  {
    if s.cpus[c].cur in s.threads then Some(s.threads[s.cpus[c].cur]) else None
  }

  /** What the source's callers guarantee: a spinning CPU does nothing else; a
      switch happens with interrupts forced off and the run queue lock as the
      only spinlock, to a thread that is not running; an interrupt is taken only
      when the hardware has interrupts on, or in the idle loop, which has let go
      of the run queue lock and does not switch from there; a handler gives
      back what it took. */
  predicate Enabled(s: State, e: Event) {
    && e.c < |s.cpus| && Cur(s, e.c).Some?
    && (e.AcquireDone? <==> s.cpus[e.c].spinning.Some?)
    && var t := Cur(s, e.c).value;
       match e
       case Splx(c, level) => level <= 1
       case AcquireStart(c, l) => true
       case AcquireDone(c) => s.cpus[c].spinning.value !in s.holder
       case Release(c, l) => l in s.holder && s.holder[l] == c
       case Fork(c, n) => n !in s.threads
       case Switch(c, next) =>
         && s.cpus[c].spinlocks == 1 && t.curspl == 1 && !s.cpus[c].idleirq && next in s.threads
         && forall d :: 0 <= d < |s.cpus| ==> s.cpus[d].cur != next
       case InterruptEnter(c) => s.cpus[c].irq
       case InterruptExit(c) => t.adjusted && t.curspl == 1 && s.cpus[c].spinlocks == 0
       case IdleInterruptEnter(c) => !s.cpus[c].idleirq && t.curspl == 1 && s.cpus[c].spinlocks == 0
       case IdleInterruptExit(c) => s.cpus[c].idleirq && t.curspl == 1 && s.cpus[c].spinlocks == 0
  }

  /** splraise and spllower: counters, and the hardware on the first and last. */
  function Raise(s: State, c: nat): State
    requires c < |s.cpus| && Cur(s, c).Some?
  {
    var cpu, t := s.cpus[c], Cur(s, c).value;
    s.(threads := s.threads[cpu.cur := t.(count := t.count + 1)],
       cpus := s.cpus[c := if t.count == 0 then cpu.(irq := false) else cpu])
  }

  function Lower(s: State, c: nat): Result
    requires c < |s.cpus| && Cur(s, c).Some?
  {
    var cpu, t := s.cpus[c], Cur(s, c).value;
    if t.count == 0 then Panic // the unsigned count would wrap
    else Ok(s.(threads := s.threads[cpu.cur := t.(count := t.count - 1)],
               cpus := s.cpus[c := if t.count == 1 then cpu.(irq := true) else cpu]))
  }

  function SetSpl(s: State, c: nat, level: nat): State
    requires c < |s.cpus| && Cur(s, c).Some?
  {
    s.(threads := s.threads[s.cpus[c].cur := Cur(s, c).value.(curspl := level)])
  }

  function SetSpinlocks(s: State, c: nat, n: nat, spinning: Option<Lock>): State
    requires c < |s.cpus|
  {
    s.(cpus := s.cpus[c := s.cpus[c].(spinlocks := n, spinning := spinning)])
  }

  function Exec(s: State, e: Event): Result
    requires Enabled(s, e)
  {
    var c := e.c;
    var cpu, t := s.cpus[c], Cur(s, c).value;
    match e
    case Splx(_, level) =>
      if t.curspl < level then Ok(SetSpl(Raise(s, c), c, level))
      else if t.curspl > level then Lower(SetSpl(s, c, level), c)
      else Ok(s)
    case AcquireStart(_, l) =>
      if l in s.holder && s.holder[l] == c then Panic
      else Ok(SetSpinlocks(Raise(s, c), c, cpu.spinlocks + 1, Some(l)))
    case AcquireDone(_) =>
      Ok(SetSpinlocks(s, c, cpu.spinlocks, None).(holder := s.holder[cpu.spinning.value := c]))
    case Release(_, l) =>
      if cpu.spinlocks == 0 then Panic
      else Lower(SetSpinlocks(s, c, cpu.spinlocks - 1, None).(holder := s.holder - {l}), c)
    case Fork(_, n) =>
      Ok(s.(threads := s.threads[n := Thread(1, 2, false)]))
    case Switch(_, next) =>
      Ok(s.(cpus := s.cpus[c := cpu.(cur := next)]))
    case InterruptEnter(_) =>
      if t.curspl != 0 || t.count != 0 then Panic
      else Ok(s.(cpus := s.cpus[c := cpu.(irq := false)], threads := s.threads[cpu.cur := Thread(1, 1, true)]))
    case InterruptExit(_) =>
      if t.count != 1 then Panic
      else Ok(s.(cpus := s.cpus[c := cpu.(irq := true)], threads := s.threads[cpu.cur := Thread(0, 0, false)]))
    case IdleInterruptEnter(_) => Ok(s.(cpus := s.cpus[c := cpu.(irq := false, idleirq := true)]))
    case IdleInterruptExit(_) => Ok(s.(cpus := s.cpus[c := cpu.(irq := false, idleirq := false)]))
  }

  /* ------------------------------------------------------------------ */

  ghost function Held(s: State, c: nat): set<Lock> {
    set l | l in s.holder && s.holder[l] == c
  }

  /** The CPU's books balance: the running thread's count is its spl level plus
      the CPU's spinlocks, interrupts are on exactly when it is zero, and
      c_spinlocks counts the locks held plus the one being waited for. */
  ghost predicate CpuBalanced(s: State, c: nat)
    requires c < |s.cpus|
  {
    && Cur(s, c).Some?
    && var cpu, t := s.cpus[c], Cur(s, c).value;
       && t.curspl <= 1
       && t.count == t.curspl + cpu.spinlocks
       && (cpu.irq <==> t.count == 0)
       && cpu.spinlocks == |Held(s, c)| + (if cpu.spinning.Some? then 1 else 0)
       && (cpu.spinning.Some? && cpu.spinning.value in s.holder ==> s.holder[cpu.spinning.value] != c)
  }

  ghost predicate IsCurrent(s: State, t: Tid) {
    exists c :: 0 <= c < |s.cpus| && s.cpus[c].cur == t
  }

  ghost predicate Inv(s: State) {
    && (forall c :: 0 <= c < |s.cpus| ==> CpuBalanced(s, c))
    && (forall c, d :: 0 <= c < d < |s.cpus| ==> s.cpus[c].cur != s.cpus[d].cur)
    && (forall l :: l in s.holder ==> s.holder[l] < |s.cpus|)
    && (forall t :: t in s.threads && !IsCurrent(s, t) ==> s.threads[t].curspl == 1 && s.threads[t].count == 2)
  }

  /** Each CPU boots on a thread of its own, at high spl, holding nothing. */
  ghost predicate Boot(s: State) {
    && s.holder == map[]
    && (forall c :: 0 <= c < |s.cpus| ==> s.cpus[c] == Cpu(c, 0, false, None, false))
    && (forall t :: t in s.threads <==> t < |s.cpus|)
    && (forall t :: t in s.threads ==> s.threads[t] == Thread(1, 1, false))
  }

  lemma BootInv(s: State)
    requires Boot(s)
    ensures Inv(s)
  {
    forall c | 0 <= c < |s.cpus|
      ensures CpuBalanced(s, c)
    {
      assert Held(s, c) == {};
    }
    forall t | t in s.threads
      ensures IsCurrent(s, t)
    {
      assert s.cpus[t].cur == t;
    }
  }

  /** An event that touches only CPU c and its current thread leaves the other
      CPUs' books and the switched-out threads alone. */
  lemma LocalChange(s: State, s': State, c: nat)
    requires Inv(s) && c < |s.cpus| == |s'.cpus|
    requires s'.cpus[c].cur == s.cpus[c].cur && CpuBalanced(s', c)
    requires forall d :: 0 <= d < |s.cpus| && d != c ==> s'.cpus[d] == s.cpus[d]
    requires s'.threads.Keys == s.threads.Keys
    requires forall t :: t in s.threads && t != s.cpus[c].cur ==> s'.threads[t] == s.threads[t]
    requires forall l :: l in s'.holder && s'.holder[l] != c <==> l in s.holder && s.holder[l] != c
    requires forall l :: l in s.holder && s.holder[l] != c ==> l in s'.holder && s'.holder[l] == s.holder[l]
    ensures Inv(s')
  {
    forall d | 0 <= d < |s.cpus| && d != c
      ensures CpuBalanced(s', d)
    {
      assert CpuBalanced(s, d);
      assert Held(s', d) == Held(s, d);
    }
    assert forall d :: 0 <= d < |s.cpus| ==> s'.cpus[d].cur == s.cpus[d].cur;
    assert forall t :: IsCurrent(s', t) <==> IsCurrent(s, t);
    assert IsCurrent(s, s.cpus[c].cur);
  }

  lemma SplxKeepsInv(s: State, c: nat, level: nat)
    requires Inv(s) && Enabled(s, Splx(c, level))
    ensures Exec(s, Splx(c, level)).Ok? && Inv(Exec(s, Splx(c, level)).s)
  {
    assert CpuBalanced(s, c);
    var s' := Exec(s, Splx(c, level)).s;
    assert Held(s', c) == Held(s, c);
    LocalChange(s, s', c);
  }

  lemma AcquireStartKeepsInv(s: State, c: nat, l: Lock)
    requires Inv(s) && Enabled(s, AcquireStart(c, l))
    ensures Exec(s, AcquireStart(c, l)).Panic? <==> l in s.holder && s.holder[l] == c
    ensures Exec(s, AcquireStart(c, l)).Ok? ==> Inv(Exec(s, AcquireStart(c, l)).s)
  {
    assert CpuBalanced(s, c);
    if Exec(s, AcquireStart(c, l)).Ok? {
      var s' := Exec(s, AcquireStart(c, l)).s;
      assert Held(s', c) == Held(s, c);
      LocalChange(s, s', c);
    }
  }

  lemma AcquireDoneKeepsInv(s: State, c: nat)
    requires Inv(s) && Enabled(s, AcquireDone(c))
    ensures Exec(s, AcquireDone(c)).Ok? && Inv(Exec(s, AcquireDone(c)).s)
  {
    assert CpuBalanced(s, c);
    var s', l := Exec(s, AcquireDone(c)).s, s.cpus[c].spinning.value;
    assert Held(s', c) == Held(s, c) + {l};
    LocalChange(s, s', c);
  }

  lemma ReleaseKeepsInv(s: State, c: nat, l: Lock)
    requires Inv(s) && Enabled(s, Release(c, l))
    ensures Exec(s, Release(c, l)).Ok? && Inv(Exec(s, Release(c, l)).s)
  {
    assert CpuBalanced(s, c);
    assert l in Held(s, c);
    var s' := Exec(s, Release(c, l)).s;
    assert Held(s', c) == Held(s, c) - {l};
    LocalChange(s, s', c);
  }

  lemma InterruptKeepsInv(s: State, e: Event)
    requires Inv(s) && Enabled(s, e)
    requires e.InterruptEnter? || e.InterruptExit? || e.IdleInterruptEnter? || e.IdleInterruptExit?
    ensures Exec(s, e).Ok? && Inv(Exec(s, e).s)
  {
    assert CpuBalanced(s, e.c);
    var s' := Exec(s, e).s;
    assert Held(s', e.c) == Held(s, e.c);
    LocalChange(s, s', e.c);
  }

  lemma ForkKeepsInv(s: State, c: nat, n: Tid)
    requires Inv(s) && Enabled(s, Fork(c, n))
    ensures Exec(s, Fork(c, n)).Ok? && Inv(Exec(s, Fork(c, n)).s)
  {
    var s' := Exec(s, Fork(c, n)).s;
    forall d | 0 <= d < |s.cpus|
      ensures CpuBalanced(s', d)
    {
      assert CpuBalanced(s, d);
      assert Held(s', d) == Held(s, d);
    }
    assert forall t :: IsCurrent(s', t) <==> IsCurrent(s, t);
  }

  lemma SwitchKeepsInv(s: State, c: nat, next: Tid)
    requires Inv(s) && Enabled(s, Switch(c, next))
    ensures Exec(s, Switch(c, next)).Ok? && Inv(Exec(s, Switch(c, next)).s)
  {
    assert CpuBalanced(s, c) && !IsCurrent(s, next);
    var s' := Exec(s, Switch(c, next)).s;
    forall d | 0 <= d < |s.cpus|
      ensures CpuBalanced(s', d)
    {
      assert CpuBalanced(s, d);
      assert Held(s', d) == Held(s, d);
    }
    forall t | t in s'.threads && !IsCurrent(s', t)
      ensures s'.threads[t].curspl == 1 && s'.threads[t].count == 2
    {
      if IsCurrent(s, t) {
        var d :| 0 <= d < |s.cpus| && s.cpus[d].cur == t;
        assert s'.cpus[d].cur == t || d == c;
      }
    }
  }

  /** Every event keeps the books; the only panic is a CPU asking for a spinlock
      it already holds, and none of the source's assertions or unsigned
      counters can fail otherwise. */
  lemma ExecKeepsInv(s: State, e: Event)
    requires Inv(s) && Enabled(s, e)
    ensures Exec(s, e).Panic? <==> e.AcquireStart? && e.l in s.holder && s.holder[e.l] == e.c
    ensures Exec(s, e).Ok? ==> Inv(Exec(s, e).s)
  {
    hide Inv;
    match e
    case Splx(c, level) => SplxKeepsInv(s, c, level);
    case AcquireStart(c, l) => AcquireStartKeepsInv(s, c, l);
    case AcquireDone(c) => AcquireDoneKeepsInv(s, c);
    case Release(c, l) => ReleaseKeepsInv(s, c, l);
    case Fork(c, n) => ForkKeepsInv(s, c, n);
    case Switch(c, next) => SwitchKeepsInv(s, c, next);
    case InterruptEnter(_) => InterruptKeepsInv(s, e);
    case InterruptExit(_) => InterruptKeepsInv(s, e);
    case IdleInterruptEnter(_) => InterruptKeepsInv(s, e);
    case IdleInterruptExit(_) => InterruptKeepsInv(s, e);
  }

  function Run(s: State, es: seq<Event>): Option<State> {
    if es == [] then Some(s)
    else
      match Run(s, es[..|es| - 1])
      case None => None
      case Some(s1) =>
        var e := es[|es| - 1];
        if Enabled(s1, e) && Exec(s1, e).Ok? then Some(Exec(s1, e).s) else None
  }

  /** Over every run, for any mix of spl and spinlock calls, nested or not, and
      across context switches, forks and interrupts, the accounting holds. */
  lemma {:induction false} AllRunsKeepInv(s: State, es: seq<Event>)
    requires Inv(s)
    ensures Run(s, es).Some? ==> Inv(Run(s, es).value)
  {
    hide Inv, Exec, Enabled;
    if es != [] {
      AllRunsKeepInv(s, es[..|es| - 1]);
      var r := Run(s, es[..|es| - 1]);
      if r.Some? && Enabled(r.value, es[|es| - 1]) {
        ExecKeepsInv(r.value, es[|es| - 1]);
      }
    }
  }

  /** Interrupts are never taken with a spinlock held, so the handler's own
      thread_yield starts from zero spinlocks. */
  lemma NoInterruptUnderSpinlock(s: State, c: nat)
    requires Inv(s) && (Enabled(s, InterruptEnter(c)) || Enabled(s, IdleInterruptEnter(c)))
    ensures s.cpus[c].spinlocks == 0 && Held(s, c) == {}
    ensures Enabled(s, InterruptEnter(c)) ==> Cur(s, c).value.curspl == 0 && Cur(s, c).value.count == 0
    ensures Enabled(s, IdleInterruptEnter(c)) ==> Cur(s, c).value.count == 1 && !s.cpus[c].irq
  {
    assert CpuBalanced(s, c);
  }

  /** The events of one thread_switch into wchan_sleep: interrupts off, run queue
      lock, release the channel's lock, switch, then the new thread's tail. */
  function SleepSwitch(c: nat, rq: Lock, lk: Lock, next: Tid): seq<Event> {
    [Splx(c, 1), AcquireStart(c, rq), AcquireDone(c), Release(c, lk), Switch(c, next), Release(c, rq)]
  }

  /** CPU c runs t at the given spl level and holds exactly these spinlocks,
      while `next` is switched out. */
  ghost predicate View(s: State, c: nat, t: Tid, spl: nat, held: set<Lock>, spinning: Option<Lock>, next: Tid) {
    && Inv(s) && c < |s.cpus| && s.cpus[c].cur == t && t in s.threads && s.threads[t].curspl == spl
    && Held(s, c) == held && s.cpus[c].spinning == spinning && !s.cpus[c].idleirq
    && next in s.threads && !IsCurrent(s, next)
  }

  lemma SameCurrents(s: State, s': State)
    requires |s.cpus| == |s'.cpus| && forall d :: 0 <= d < |s.cpus| ==> s'.cpus[d].cur == s.cpus[d].cur
    ensures forall t :: IsCurrent(s', t) <==> IsCurrent(s, t)
  {
  }

  lemma ViewSplHigh(s: State, c: nat, t: Tid, spl: nat, held: set<Lock>, next: Tid) returns (s': State)
    requires View(s, c, t, spl, held, None, next)
    ensures Enabled(s, Splx(c, 1)) && Exec(s, Splx(c, 1)) == Ok(s')
    ensures View(s', c, t, 1, held, None, next) && s'.holder == s.holder
  {
    assert CpuBalanced(s, c);
    SplxKeepsInv(s, c, 1);
    s' := Exec(s, Splx(c, 1)).s;
    SameCurrents(s, s');
  }

  lemma ViewAcquire(s: State, c: nat, t: Tid, held: set<Lock>, next: Tid, l: Lock) returns (s1: State, s2: State)
    requires View(s, c, t, 1, held, None, next) && l !in s.holder
    ensures Enabled(s, AcquireStart(c, l)) && Exec(s, AcquireStart(c, l)) == Ok(s1)
    ensures Enabled(s1, AcquireDone(c)) && Exec(s1, AcquireDone(c)) == Ok(s2)
    ensures View(s2, c, t, 1, held + {l}, None, next) && s2.holder == s.holder[l := c]
  {
    AcquireStartKeepsInv(s, c, l);
    s1 := Exec(s, AcquireStart(c, l)).s;
    AcquireDoneKeepsInv(s1, c);
    s2 := Exec(s1, AcquireDone(c)).s;
    SameCurrents(s, s2);
    assert Held(s2, c) == held + {l};
  }

  lemma ViewRelease(s: State, c: nat, t: Tid, held: set<Lock>, next: Tid, l: Lock) returns (s': State)
    requires View(s, c, t, 1, held, None, next) && l in held
    ensures Enabled(s, Release(c, l)) && Exec(s, Release(c, l)) == Ok(s')
    ensures View(s', c, t, 1, held - {l}, None, next)
  {
    assert l in Held(s, c);
    ReleaseKeepsInv(s, c, l);
    s' := Exec(s, Release(c, l)).s;
    SameCurrents(s, s');
    assert Held(s', c) == held - {l};
  }

  lemma ViewSwitch(s: State, c: nat, t: Tid, next: Tid, l: Lock) returns (s': State)
    requires View(s, c, t, 1, {l}, None, next)
    ensures Enabled(s, Switch(c, next)) && Exec(s, Switch(c, next)) == Ok(s')
    ensures View(s', c, next, 1, {l}, None, t)
  {
    assert CpuBalanced(s, c);
    SwitchKeepsInv(s, c, next);
    s' := Exec(s, Switch(c, next)).s;
    assert Held(s', c) == Held(s, c);
  }

  lemma RunStep(s: State, es: seq<Event>, s1: State, e: Event, s2: State)
    requires Run(s, es) == Some(s1) && Enabled(s1, e) && Exec(s1, e) == Ok(s2)
    ensures Run(s, es + [e]) == Some(s2)
  {
    assert (es + [e])[..|es|] == es;
  }

  /** A thread may always switch out holding just the channel's spinlock: the
      source's sequence meets the switch's demands by itself, the thread that
      comes back finds its count and spl level balanced, and the CPU ends up
      holding no spinlock. */
  lemma SleepSwitchBalances(s: State, c: nat, t: Tid, spl: nat, rq: Lock, lk: Lock, next: Tid)
    requires View(s, c, t, spl, {lk}, None, next) && rq !in s.holder && rq != lk
    ensures Run(s, SleepSwitch(c, rq, lk, next)).Some?
    ensures View(Run(s, SleepSwitch(c, rq, lk, next)).value, c, next, 1, {}, None, t)
  {
    hide View, Exec, Enabled, Run;
    assert Run(s, []) == Some(s) by {
      RunNothing(s);
    }
    var s1 := ViewSplHigh(s, c, t, spl, {lk}, next);
    RunStep(s, [], s, Splx(c, 1), s1);
    var s2, s3 := ViewAcquire(s1, c, t, {lk}, next, rq);
    var e1 := [] + [Splx(c, 1)];
    RunStep(s, e1, s1, AcquireStart(c, rq), s2);
    var e2 := e1 + [AcquireStart(c, rq)];
    RunStep(s, e2, s2, AcquireDone(c), s3);
    var e3 := e2 + [AcquireDone(c)];
    var s4 := ViewRelease(s3, c, t, {lk} + {rq}, next, lk);
    RunStep(s, e3, s3, Release(c, lk), s4);
    var e4 := e3 + [Release(c, lk)];
    assert {lk} + {rq} - {lk} == {rq};
    var s5 := ViewSwitch(s4, c, t, next, rq);
    RunStep(s, e4, s4, Switch(c, next), s5);
    var e5 := e4 + [Switch(c, next)];
    var s6 := ViewRelease(s5, c, next, {rq}, t, rq);
    RunStep(s, e5, s5, Release(c, rq), s6);
    assert {rq} - {rq} == {};
    assert e5 + [Release(c, rq)] == SleepSwitch(c, rq, lk, next);
  }

  lemma RunNothing(s: State)
    ensures Run(s, []) == Some(s)
  {
  }

  /* ------------------------------------------------------------------ */

  /** Interrupts are on exactly when nothing keeps them off. */
  predicate Balanced(s: State, c: nat)
    requires c < |s.cpus|
  {
    Cur(s, c).Some? && (s.cpus[c].irq <==> Cur(s, c).value.count == 0)
  }

  /** Only the interrupt flag of CPU c and its current thread changed. */
  predicate OnlyHere(s: State, t: State, c: nat)
    requires c < |s.cpus|
  {
    && t.holder == s.holder && |t.cpus| == |s.cpus|
    && t.cpus == s.cpus[c := s.cpus[c].(irq := t.cpus[c].irq)]
    && t.threads - {s.cpus[c].cur} == s.threads - {s.cpus[c].cur}
  }

  /** The functions themselves, each run by CPU c. */
  class Machine {
    var threads: map<Tid, Thread>
    var cpus: seq<Cpu>
    var holder: map<Lock, nat>

    ghost function S(): State
      reads this
    {
      State(threads, cpus, holder)
    }

    ghost predicate Valid()
      reads this
    {
      Inv(S())
    }

    /** splraise(): from books that balance it leaves interrupts off. */
    method SplRaise(c: nat, oldspl: nat, newspl: nat)
      requires c < |cpus| && Cur(S(), c).Some? && oldspl == 0 && newspl == 1
      modifies this
      ensures S() == Raise(old(S()), c)
      ensures Cur(S(), c) == Some(Cur(old(S()), c).value.(count := Cur(old(S()), c).value.count + 1))
      ensures Balanced(old(S()), c) ==> !cpus[c].irq && Balanced(S(), c)
      ensures OnlyHere(old(S()), S(), c)
    {
      var t := threads[cpus[c].cur];
      if t.count == 0 {
        cpus := cpus[c := cpus[c].(irq := false)];
      }
      threads := threads[cpus[c].cur := t.(count := t.count + 1)];
    }

    /** spllower(): undoes one splraise(); interrupts go on with the last. */
    method SplLower(c: nat, oldspl: nat, newspl: nat)
      requires c < |cpus| && Cur(S(), c).Some? && Cur(S(), c).value.count > 0 && oldspl == 1 && newspl == 0
      modifies this
      ensures Lower(old(S()), c) == Ok(S())
      ensures Cur(S(), c) == Some(Cur(old(S()), c).value.(count := Cur(old(S()), c).value.count - 1))
      ensures Balanced(old(S()), c) ==> Balanced(S(), c) && Raise(S(), c) == old(S())
      ensures OnlyHere(old(S()), S(), c)
    {
      var t := threads[cpus[c].cur];
      threads := threads[cpus[c].cur := t.(count := t.count - 1)];
      if t.count == 1 {
        cpus := cpus[c := cpus[c].(irq := true)];
      }
    }

    /** splx(): the level becomes the one asked for, the old one is returned. */
    method SplX(c: nat, level: nat) returns (ret: nat)
      requires Valid() && Enabled(S(), Splx(c, level))
      modifies this
      ensures Valid() && Exec(old(S()), Splx(c, level)) == Ok(S())
      ensures ret == Cur(old(S()), c).value.curspl && Cur(S(), c).Some? && Cur(S(), c).value.curspl == level
      ensures OnlyHere(old(S()), S(), c)
    {
      ExecKeepsInv(S(), Splx(c, level));
      assert CpuBalanced(S(), c);
      hide Inv;
      var me := cpus[c].cur;
      ret := threads[me].curspl;
      if ret < level {
        SplRaise(c, ret, level);
        threads := threads[me := threads[me].(curspl := level)];
      } else if ret > level {
        threads := threads[me := threads[me].(curspl := level)];
        SplLower(c, ret, level);
      }
    }

    /** spinlock_acquire() up to its loop. */
    method SpinlockAcquire(c: nat, l: Lock)
      requires Valid() && Enabled(S(), AcquireStart(c, l)) && !(l in holder && holder[l] == c)
      modifies this
      ensures Valid() && Exec(old(S()), AcquireStart(c, l)) == Ok(S())
      ensures holder == old(holder) && |cpus| == |old(cpus)| && !cpus[c].irq
      ensures
        var cpu := old(cpus)[c];
        cpus == old(cpus)[c := cpu.(spinlocks := cpu.spinlocks + 1, spinning := Some(l), irq := false)]
    {
      assert CpuBalanced(S(), c);
      ExecKeepsInv(S(), AcquireStart(c, l));
      hide Inv;
      SplRaise(c, 0, 1);
      cpus := cpus[c := cpus[c].(spinlocks := cpus[c].spinlocks + 1, spinning := Some(l))];
    }

    /** The test-and-set of spinlock_acquire() finding the lock free. */
    method SpinlockTaken(c: nat)
      requires Valid() && Enabled(S(), AcquireDone(c))
      modifies this
      ensures Valid() && Exec(old(S()), AcquireDone(c)) == Ok(S())
      ensures holder == old(holder)[old(cpus)[c].spinning.value := c]
      ensures cpus == old(cpus)[c := old(cpus)[c].(spinning := None)] && threads == old(threads)
    {
      ExecKeepsInv(S(), AcquireDone(c));
      hide Inv;
      holder := holder[cpus[c].spinning.value := c];
      cpus := cpus[c := cpus[c].(spinning := None)];
    }

    /** spinlock_release(). */
    method SpinlockRelease(c: nat, l: Lock)
      requires Valid() && Enabled(S(), Release(c, l))
      modifies this
      ensures Valid() && Exec(old(S()), Release(c, l)) == Ok(S())
      ensures holder == old(holder) - {l} && |cpus| == |old(cpus)|
      ensures cpus[c].spinlocks == old(cpus)[c].spinlocks - 1 && cpus[c].cur == old(cpus)[c].cur
      ensures forall d :: 0 <= d < |cpus| && d != c ==> cpus[d] == old(cpus)[d]
    {
      ExecKeepsInv(S(), Release(c, l));
      hide Inv;
      cpus := cpus[c := cpus[c].(spinlocks := cpus[c].spinlocks - 1, spinning := None)];
      holder := holder - {l};
      SplLower(c, 1, 0);
    }
  }
}
