/** The user-level semaphores of kern/fs/semfs/semfs_vnops.c: reading n bytes
    takes n units and writing n bytes adds n; truncation sets the count.

    An event is one hold of the semaphore's lock. A reader that is not served
    in full sleeps on the condition variable with what it still wants, and
    after a wakeup has to take the lock and look again. */
module UserSem {
  import opened Wrappers

  type Thread = int

  /** sems_count is an unsigned int. */
  const COUNT_LIMIT := 0x1_0000_0000

  /** A thread inside semfs_read and the units it still wants. */
  datatype Waiter = Waiter(t: Thread, want: nat)

  datatype State = State(
    count: nat,           // sems_count
    asleep: seq<Waiter>,  // on sems_cv
    woken: seq<Waiter>,   // made runnable, not yet back under sems_lock
    put: int,             // units added, by writing and by truncating
    taken: nat)           // units read

  datatype Event =
    | Read(t: Thread, n: nat)
    | Resume(i: nat)  // a woken thread gets the lock
    | Write(n: nat)
    | Truncate(len: int)

  function Initial(count: nat): State {
    State(count, [], [], count, 0)
  }

  /** What the threads that were woken want. */
  function Total(ws: seq<Waiter>): nat {
    if ws == [] then 0 else ws[0].want + Total(ws[1..])
  }

  function Without(ws: seq<Waiter>, i: nat): seq<Waiter>
    requires i < |ws|
  {
    ws[..i] + ws[i + 1..]
  }

  predicate Enabled(s: State, e: Event) {
    match e
    case Read(_, n) => n < COUNT_LIMIT
    case Resume(i) => i < |s.woken|
    case Write(n) => n < COUNT_LIMIT
    case Truncate(_) => true
  }

  /** One turn of the loop in semfs_read. */
  function Turn(s: State, w: Waiter): State {
    if w.want <= s.count then s.(count := s.count - w.want, taken := s.taken + w.want)
    else s.(count := 0, taken := s.taken + s.count, asleep := s.asleep + [Waiter(w.t, w.want - s.count)])
  }

  /** semfs_wakeup. */
  function Awoken(s: State, newcount: nat): State {
    if s.count > 0 || newcount == 0 || s.asleep == [] then s
    else if newcount == 1 then s.(asleep := s.asleep[1..], woken := s.woken + [s.asleep[0]])
    else s.(asleep := [], woken := s.woken + s.asleep)
  }

  /** The count a write or a truncation sets, if it goes through. */
  function NewCount(s: State, e: Event): Option<nat> {
    match e
    case Write(n) =>
      var newcount := (s.count + n) % COUNT_LIMIT;
      if n == 0 || newcount < s.count then None else Some(newcount)
    case Truncate(len) => if 0 <= len < COUNT_LIMIT then Some(len) else None
    case _ => None
  }

  function Posted(s: State, newcount: nat): State {
    Awoken(s, newcount).(count := newcount, put := s.put + newcount - s.count)
  }

  function Exec(s: State, e: Event): State {
    match e
    case Read(t, n) => if n == 0 then s else Turn(s, Waiter(t, n))
    case Resume(i) => if i < |s.woken| then Turn(s.(woken := Without(s.woken, i)), s.woken[i]) else s
    case _ => if NewCount(s, e).Some? then Posted(s, NewCount(s, e).value) else s
  }

  ghost predicate Wanting(ws: seq<Waiter>) {
    forall i :: 0 <= i < |ws| ==> ws[i].want > 0
  }

  /** Whoever waits wants something, and no unit is made up or lost. */
  ghost predicate Inv(s: State) {
    s.count < COUNT_LIMIT && Wanting(s.asleep) && Wanting(s.woken) && s.count + s.taken == s.put
  }

  /** While somebody sleeps, what there is goes to the threads already woken. */
  predicate Covered(s: State) {
    s.asleep == [] || s.count <= Total(s.woken)
  }

  /** Somebody sleeps beside a positive count, and nobody has been woken. */
  predicate Lost(s: State) {
    s.asleep != [] && s.count > 0 && s.woken == []
  }

  /** The wakeup that semfs_wakeup skips because the count is positive, though
      the new count is more than the woken threads will take. */
  predicate Skips(s: State, e: Event) {
    s.count > 0 && s.asleep != [] && NewCount(s, e).Some? && NewCount(s, e).value > Total(s.woken)
  }

  lemma {:induction false} TotalConcat(a: seq<Waiter>, b: seq<Waiter>)
    ensures Total(a + b) == Total(a) + Total(b)
  {
    if a == [] {
      assert a + b == b;
    } else {
      assert (a + b)[1..] == a[1..] + b;
      TotalConcat(a[1..], b);
    }
  }

  lemma TotalWithout(ws: seq<Waiter>, i: nat)
    requires i < |ws|
    ensures Total(ws) == Total(Without(ws, i)) + ws[i].want
  {
    assert ws == ws[..i] + ws[i..] && ws[i..][1..] == ws[i + 1..];
    TotalConcat(ws[..i], ws[i..]);
    TotalConcat(ws[..i], ws[i + 1..]);
  }

  lemma ExecKeepsInv(s: State, e: Event)
    requires Inv(s) && Enabled(s, e)
    ensures Inv(Exec(s, e))
  {
  }

  /** A woken thread that goes on changes nothing about who is covered. */
  lemma ResumeCovers(s: State, i: nat)
    requires Inv(s) && i < |s.woken|
    ensures Covered(Exec(s, Resume(i))) <==> Covered(s)
    ensures |Exec(s, Resume(i)).woken| == |s.woken| - 1
  {
    TotalWithout(s.woken, i);
  }

  /** One step from a covered state leads to a covered state if and only if it
      does not skip a wakeup. */
  lemma StepCovers(s: State, e: Event)
    requires Inv(s) && Enabled(s, e) && Covered(s)
    ensures Covered(Exec(s, e)) <==> !Skips(s, e)
  {
    match e
    case Resume(i) => ResumeCovers(s, i);
    case Read(_, _) =>
    case _ =>
      if s.count == 0 && s.asleep != [] {
        var w := [s.asleep[0]];
        TotalConcat(s.woken, w);
        assert w[1..] == [] && Total(w) == s.asleep[0].want;
      }
  }

  function Run(s: State, es: seq<Event>): State
    decreases |es|
  {
    if es == [] then s else Run(if Enabled(s, es[0]) then Exec(s, es[0]) else s, es[1..])
  }

  /** Every state the run passes through is covered. */
  ghost predicate AlwaysCovered(s: State, es: seq<Event>)
    decreases |es|
  {
    Covered(s) && (es != [] ==> AlwaysCovered(if Enabled(s, es[0]) then Exec(s, es[0]) else s, es[1..]))
  }

  ghost predicate NeverSkips(s: State, es: seq<Event>)
    decreases |es|
  {
    es != [] ==>
      && !(Enabled(s, es[0]) && Skips(s, es[0]))
      && NeverSkips(if Enabled(s, es[0]) then Exec(s, es[0]) else s, es[1..])
  }

  /** Units are neither made up nor lost in any run. */
  lemma {:induction false} RunKeepsInv(s: State, es: seq<Event>)
    requires Inv(s)
    ensures Inv(Run(s, es))
    decreases |es|
  {
    hide Inv, Exec, Enabled;
    if es != [] {
      if Enabled(s, es[0]) {
        ExecKeepsInv(s, es[0]);
      }
      RunKeepsInv(if Enabled(s, es[0]) then Exec(s, es[0]) else s, es[1..]);
    }
  }

  /** A run goes only through covered states if and only if it never skips a
      wakeup. */
  lemma {:induction false} CoveredIffNeverSkips(s: State, es: seq<Event>)
    requires Inv(s) && Covered(s)
    ensures AlwaysCovered(s, es) <==> NeverSkips(s, es)
    decreases |es|
  {
    hide Inv, Exec, Enabled, Covered, Skips;
    if es != [] && Enabled(s, es[0]) {
      ExecKeepsInv(s, es[0]);
      StepCovers(s, es[0]);
      if Covered(Exec(s, es[0])) {
        CoveredIffNeverSkips(Exec(s, es[0]), es[1..]);
      } else {
        assert !AlwaysCovered(Exec(s, es[0]), es[1..]);
      }
    } else if es != [] {
      CoveredIffNeverSkips(s, es[1..]);
    }
  }

  /** Each event lets one of the woken threads go on. */
  ghost predicate Settling(s: State, es: seq<Event>) {
    |es| == |s.woken| && forall j :: 0 <= j < |es| ==> es[j].Resume? && es[j].i < |s.woken| - j
  }

  /** When the woken threads have all had their turn, in any order, a sleeper
      is left beside a positive count if and only if the state they started
      from was not covered. */
  lemma {:induction false} LostIffNotCovered(s: State, es: seq<Event>)
    requires Inv(s) && Settling(s, es)
    ensures Run(s, es).woken == [] && (Lost(Run(s, es)) <==> !Covered(s))
    decreases |es|
  {
    if es != [] {
      var e := es[0];
      ResumeCovers(s, e.i);
      ExecKeepsInv(s, e);
      var t := Exec(s, e);
      hide Exec, Inv, Covered, Lost;
      assert Settling(t, es[1..]);
      LostIffNotCovered(t, es[1..]);
    }
  }

  /** Whenever two readers sleep on a count of zero and the first wants one
      unit: one unit is written, then some more, and the reader that was woken
      goes on. The other sleeps beside what is left. */
  lemma WakeupLost(s: State, n: nat)
    requires Inv(s) && s.count == 0 && s.woken == [] && |s.asleep| >= 2 && s.asleep[0].want == 1
    requires 0 < n && n + 1 < COUNT_LIMIT
    ensures
      var a := Exec(s, Write(1));
      var b := Exec(a, Write(n));
      var c := Exec(b, Resume(0));
      Covered(a) && Skips(a, Write(n)) && Lost(c) && c.count == n
  {
    var a := Exec(s, Write(1));
    var first := [s.asleep[0]];
    assert a.woken == first && |a.asleep| >= 1 && a.count == 1;
    assert first[1..] == [] && Total(first) == 1;
    var b := Exec(a, Write(n));
    assert b == a.(count := n + 1, put := a.put + n);
    assert Without(b.woken, 0) == [];
  }

  /** Such a state: two threads read from a new semaphore. */
  lemma TwoReaders(t: Thread, u: Thread)
    ensures
      var s := Exec(Exec(Initial(0), Read(t, 1)), Read(u, 1));
      s.count == 0 && s.woken == [] && s.asleep == [Waiter(t, 1), Waiter(u, 1)]
  {
    var a := Exec(Initial(0), Read(t, 1));
    assert a == State(0, [Waiter(t, 1)], [], 0, 0);
  }

  /** struct semfs_sem, as far as counting goes. */
  class Semaphore {
    var count: nat
    var asleep: seq<Waiter>
    var woken: seq<Waiter>
    ghost var put: int
    ghost var taken: nat

    ghost function S(): State
      reads this
    {
      State(count, asleep, woken, put, taken)
    }

    ghost predicate Valid()
      reads this
    {
      Inv(S())
    }

    constructor ()
      ensures Valid() && S() == Initial(0)
    {
      count, asleep, woken, put, taken := 0, [], [], 0, 0;
    }

    /** semfs_wakeup(). */
    method Wakeup(newcount: nat)
      modifies this
      ensures S() == Awoken(old(S()), newcount)
      ensures count == old(count) && put == old(put) && taken == old(taken)
      ensures old(count) > 0 || newcount == 0 ==> asleep == old(asleep) && woken == old(woken)
      ensures old(count) == 0 && newcount == 1 && old(asleep) != [] ==>
                asleep == old(asleep)[1..] && woken == old(woken) + [old(asleep)[0]]
      ensures old(count) == 0 && newcount > 1 ==> asleep == [] && woken == old(woken) + old(asleep)
    {
      if count > 0 || newcount == 0 {
        return;
      }
      if newcount == 1 {
        if asleep != [] {
          woken := woken + [asleep[0]];
          asleep := asleep[1..];
        }
      } else {
        woken := woken + asleep;
        asleep := [];
      }
    }

    /** The loop of semfs_read() from taking the lock until it is let go: the
        units still wanted, 0 when the read is done. */
    method Loop(t: Thread, resid: nat) returns (left: nat)
      requires Valid() && resid > 0
      modifies this
      ensures Valid() && S() == Turn(old(S()), Waiter(t, resid))
      ensures left == (if resid <= old(count) then 0 else resid - old(count))
      ensures left > 0 ==> count == 0 && asleep == old(asleep) + [Waiter(t, left)]
      ensures left == 0 ==> count == old(count) - resid && asleep == old(asleep)
      ensures woken == old(woken) && taken == old(taken) + (resid - left) && put == old(put)
    {
      left := resid;
      if count > 0 {
        var consume := left;
        if consume > count {
          consume := count;
        }
        count := count - consume;
        taken := taken + consume;
        left := left - consume;
      }
      if left > 0 {
        asleep := asleep + [Waiter(t, left)];
      }
    }

    /** semfs_read(), up to its first wait. */
    method Read(t: Thread, n: nat) returns (left: nat)
      requires Valid() && n < COUNT_LIMIT
      modifies this
      ensures Valid() && S() == Exec(old(S()), Event.Read(t, n))
      ensures left == 0 <==> n <= old(count)
      ensures n <= old(count) ==> count == old(count) - n && asleep == old(asleep)
      ensures n > old(count) ==> count == 0 && asleep == old(asleep) + [Waiter(t, n - old(count))]
      ensures woken == old(woken)
    {
      left := 0;
      if n > 0 {
        left := Loop(t, n);
      }
    }

    /** A woken reader gets the lock back and goes on. */
    method Resume(i: nat) returns (left: nat)
      requires Valid() && i < |woken|
      modifies this
      ensures Valid() && S() == Exec(old(S()), Event.Resume(i))
      ensures left == 0 <==> old(woken)[i].want <= old(count)
      ensures woken == old(woken)[..i] + old(woken)[i + 1..]
      ensures left == 0 ==> count == old(count) - old(woken)[i].want && asleep == old(asleep)
      ensures left > 0 ==> count == 0 && asleep == old(asleep) + [Waiter(old(woken)[i].t, left)]
    {
      var w := woken[i];
      woken := Without(woken, i);
      left := Loop(w.t, w.want);
    }

    /** semfs_write(): false when the count would overflow. */
    method Write(n: nat) returns (ok: bool)
      requires Valid() && n < COUNT_LIMIT
      modifies this
      ensures Valid() && S() == Exec(old(S()), Event.Write(n))
      ensures ok <==> old(count) + n < COUNT_LIMIT
      ensures count == old(count) + if ok then n else 0
    {
      ExecKeepsInv(S(), Event.Write(n));
      if n > 0 {
        var newcount := (count + n) % COUNT_LIMIT;
        if newcount < count {
          return false;
        }
        Wakeup(newcount);
        put := put + newcount - count;
        count := newcount;
      }
      return true;
    }

    /** semfs_truncate(): false when the length is no count. */
    method Truncate(len: int) returns (ok: bool)
      requires Valid()
      modifies this
      ensures Valid() && S() == Exec(old(S()), Event.Truncate(len))
      ensures ok <==> 0 <= len < COUNT_LIMIT
      ensures count == if ok then len else old(count)
    {
      ExecKeepsInv(S(), Event.Truncate(len));
      if len < 0 || len >= COUNT_LIMIT {
        return false;
      }
      Wakeup(len);
      put := put + len - count;
      count := len;
      return true;
    }
  }
}
