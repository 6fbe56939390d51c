/** Counting semaphores over wait channels, kern/thread/synch.c.

    An event is one section under the semaphore's spinlock.  P is its loop body:
    a thread finding the count at zero goes to sleep, and after a wakeup it must
    take the spinlock again and look again, competing with newcomers. */
module Semaphores {
  import opened Queues
  import opened Wrappers

  type Thread = nat

  /** sem_count is an unsigned int. */
  const COUNT_LIMIT := 0x1_0000_0000

  datatype State = State(
    count: nat,          // sem_count
    asleep: seq<Thread>, // sem_wchan
    woken: set<Thread>,  // made runnable, not yet back under sem_lock
    ps: nat, vs: nat)    // completed operations

  datatype Event = P(t: Thread) | V

  function Initial(n: nat): State {
    State(n, [], {}, 0, 0)
  }

  /** A sleeping thread does nothing until it is woken. */
  predicate Enabled(s: State, e: Event) {
    e.P? ==> e.t !in s.asleep
  }

  /** None: the assertion in V that the count did not wrap to zero. */
  function Exec(s: State, e: Event): Option<State>
    requires Enabled(s, e)
  {
    match e
    case P(t) =>
      if s.count == 0 then
        Some(s.(asleep := s.asleep + [t], woken := s.woken - {t}))
      else
        Some(s.(count := s.count - 1, woken := s.woken - {t}, ps := s.ps + 1))
    case V =>
      if s.count + 1 == COUNT_LIMIT then None
      else if s.asleep == [] then
        Some(s.(count := s.count + 1, vs := s.vs + 1))
      else
        Some(s.(count := s.count + 1, vs := s.vs + 1, asleep := s.asleep[1..], woken := s.woken + {s.asleep[0]}))
  }

  ghost predicate Inv(s: State, initial: nat) {
    && s.count == initial + s.vs - s.ps < COUNT_LIMIT
    && (forall i, j :: 0 <= i < j < |s.asleep| ==> s.asleep[i] != s.asleep[j])
    && (forall t :: t in s.asleep ==> t !in s.woken)
    && (s.asleep != [] ==> s.count <= |s.woken|)
  }

  lemma ExecKeepsInv(s: State, e: Event, initial: nat)
    requires Inv(s, initial) && Enabled(s, e)
    ensures Exec(s, e).None? <==> e == V && s.count == COUNT_LIMIT - 1
    ensures Exec(s, e).Some? ==> Inv(Exec(s, e).value, initial)
  {
    if e.V? && s.asleep != [] {
      var s' := s.asleep[1..];
      assert forall t :: t in s' ==> t in s.asleep;
    }
  }

  function Run(initial: nat, es: seq<Event>): Option<State> {
    if es == [] then Some(Initial(initial))
    else
      var e := es[|es| - 1];
      match Run(initial, es[..|es| - 1])
      case None => None
      case Some(s) => if Enabled(s, e) then Exec(s, e) else None
  }

  /** Over every interleaving the count is initial + V's - P's and never
      negative, and the count never exceeds the woken threads still to look
      while anybody sleeps: no wakeup is lost to barging. */
  lemma {:induction false} AllRunsKeepInv(initial: nat, es: seq<Event>)
    requires initial < COUNT_LIMIT && Run(initial, es).Some?
    ensures Inv(Run(initial, es).value, initial)
  {
    if es != [] {
      AllRunsKeepInv(initial, es[..|es| - 1]);
      ExecKeepsInv(Run(initial, es[..|es| - 1]).value, es[|es| - 1], initial);
    }
  }

  /** The woken threads look again, in some order, with nobody interfering. */
  function Settle(s: State, order: seq<Thread>): State
    requires forall t :: t in order ==> t !in s.asleep
    requires forall i, j :: 0 <= i < j < |order| ==> order[i] != order[j]
    decreases |order|
  {
    if order == [] then s
    else Settle(Exec(s, P(order[0])).value, order[1..])
  }

  /** When the woken threads have settled, nobody sleeps unless the count is
      zero: every unit a V made available went to somebody. */
  lemma {:induction false} SettledMeansUsed(s: State, initial: nat, order: seq<Thread>)
    requires Inv(s, initial)
    requires forall t :: t in order <==> t in s.woken
    requires forall i, j :: 0 <= i < j < |order| ==> order[i] != order[j]
    ensures var z := Settle(s, order);
            Inv(z, initial) && z.woken == {} && (z.asleep != [] ==> z.count == 0)
    decreases |order|
  {
    if order == [] {
      assert s.woken == {};
    } else {
      var s' := Exec(s, P(order[0])).value;
      ExecKeepsInv(s, P(order[0]), initial);
      assert forall t :: t in order <==> t == order[0] || t in order[1..];
      SettledMeansUsed(s', initial, order[1..]);
    }
  }

  // The channel as a queue

  function Joins(s: State, e: Event): seq<Thread> {
    if e.P? && s.count == 0 then [e.t] else []
  }

  function Departs(s: State, e: Event): seq<Thread> {
    if e.V? && s.asleep != [] then [s.asleep[0]] else []
  }

  lemma ChannelStep(s: State, e: Event)
    requires Enabled(s, e) && Exec(s, e).Some?
    ensures Departs(s, e) + Exec(s, e).value.asleep == s.asleep + Joins(s, e)
  {
    assert s.asleep != [] ==> s.asleep == [s.asleep[0]] + s.asleep[1..];
  }

  /** Who has gone to sleep in a run, and who was woken, in order. */
  function Slept(initial: nat, es: seq<Event>): seq<Thread> {
    if es == [] then []
    else
      var n, r := |es| - 1, Run(initial, es[..|es| - 1]);
      Slept(initial, es[..n]) + if r.Some? then Joins(r.value, es[n]) else []
  }

  function Woken(initial: nat, es: seq<Event>): seq<Thread> {
    if es == [] then []
    else
      var n, r := |es| - 1, Run(initial, es[..|es| - 1]);
      Woken(initial, es[..n]) + if r.Some? then Departs(r.value, es[n]) else []
  }

  /** In every run threads are woken in the order in which they went to sleep:
      those woken followed by those still asleep are those who slept. */
  lemma {:induction false} ChannelIsFifo(initial: nat, es: seq<Event>)
    requires Run(initial, es).Some?
    ensures Woken(initial, es) + Run(initial, es).value.asleep == Slept(initial, es)
  {
    if es != [] {
      var n := |es| - 1;
      ChannelIsFifo(initial, es[..n]);
      hide Exec, Enabled, Joins, Departs;
      var u, v := Run(initial, es[..n]).value, Run(initial, es).value;
      ChannelStep(u, es[n]);
      Shift(Woken(initial, es[..n]), u.asleep, Slept(initial, es[..n]), Departs(u, es[n]), v.asleep, Joins(u, es[n]));
    }
  }

  /** struct semaphore */
  class Semaphore {
    var count: nat
    var asleep: seq<Thread>
    ghost var woken: set<Thread>
    ghost var ps: nat
    ghost var vs: nat
    ghost const initial: nat

    ghost function S(): State
      reads this
    {
      State(count, asleep, woken, ps, vs)
    }

    ghost predicate Valid()
      reads this
    {
      Inv(S(), initial)
    }

    constructor (n: nat)
      requires n < COUNT_LIMIT
      ensures Valid() && S() == Initial(n) && initial == n
    {
      count, asleep := n, [];
      woken, ps, vs := {}, 0, 0;
      initial := n;
    }

    /** One turn of P's loop: true when the P completed, false when t sleeps. */
    method TryP(t: Thread) returns (done: bool)
      requires Valid() && t !in asleep
      modifies this
      ensures Valid() && Exec(old(S()), P(t)) == Some(S())
      ensures done <==> old(count) > 0
      ensures !done <==> t in asleep
      ensures done ==> count == old(count) - 1 && asleep == old(asleep)
      ensures !done ==> count == 0 && asleep == old(asleep) + [t]
      ensures woken == old(woken) - {t} && vs == old(vs) && ps == old(ps) + if done then 1 else 0
    {
      ExecKeepsInv(S(), P(t), initial);
      woken := woken - {t};
      if count == 0 {
        asleep := asleep + [t];
        return false;
      }
      count := count - 1;
      ps := ps + 1;
      return true;
    }

    /** V: false when the count would wrap. */
    method Signal() returns (ok: bool)
      requires Valid()
      modifies this
      ensures Valid() && (ok <==> old(count) + 1 < COUNT_LIMIT)
      ensures Exec(old(S()), V) == if ok then Some(S()) else None
      ensures !ok ==> S() == old(S())
      ensures ok ==> count == old(count) + 1 && vs == old(vs) + 1 && ps == old(ps)
      ensures ok && old(asleep) == [] ==> asleep == [] && woken == old(woken)
      ensures ok && old(asleep) != [] ==> asleep == old(asleep)[1..] && woken == old(woken) + {old(asleep)[0]}
    {
      ExecKeepsInv(S(), V, initial);
      if count + 1 == COUNT_LIMIT {
        return false;
      }
      count := count + 1;
      vs := vs + 1;
      if asleep != [] {
        woken := woken + {asleep[0]};
        asleep := asleep[1..];
      }
      return true;
    }
  }
}
