/** Every sequence of open, close, dup2, read, write, lseek, fork, exec and
    exit by any number of processes: what becomes of the reference counts of
    the open file table.

    Every event is what one process does in one hold of the open file table's
    lock: fork counts the descriptors of the child one by one, and exit closes
    them one by one, so that other processes may come between. Processes have
    one thread each. */
module FileRuns {
  import opened Wrappers
  import opened FileTable

  /** What a process is at. A child stands in the table, with the descriptors
      counted so far, from the time its parent copies its own table. */
  datatype Doing =
    | Running
    | Forking(child: Proc, i: nat, copy: Row)  // in sys_fork, i descriptors counted
    | Unborn                                   // not yet handed to thread_fork
    | Exiting(i: nat)                          // in file_table_destroy, i rounds done
    | Dead

  datatype Machine = Machine(s: State, doing: seq<Doing>)

  const INIT :=
    Machine(State([], seq(OPEN_MAX, i => None), seq(OPEN_MAX, i => 0), multiset{}), [])

  datatype Event =
    | Start
    | Open(p: Proc, found: Option<Vid>, am: nat, enough: bool)
    | Close(p: Proc, fd: int)
    | Dup2(p: Proc, oldfd: int, newfd: int)
    | Transfer(p: Proc, fd: int, writing: bool, moved: Option<nat>)
    | Lseek(p: Proc, fd: int, pos: int, whence: int, seekable: bool, size: Option<nat>)
    | ExecReset(p: Proc)
    | ForkCopy(p: Proc)
    | ForkCount(p: Proc)
    | ForkRun(p: Proc, ok: bool)
    | ExitStart(p: Proc)
    | ExitClose(p: Proc, past: int)
    | ExitEnd(p: Proc)

  datatype Result = Ok(m: Machine) | Fault

  function At(m: Machine, p: Proc): Doing {
    if p < |m.doing| then m.doing[p] else Dead
  }

  predicate Enabled(m: Machine, ev: Event) {
    match ev
    case Start => true
    case ForkCount(p) => At(m, p).Forking? && At(m, p).i < OPEN_MAX
    case ForkRun(p, _) => At(m, p).Forking? && At(m, p).i >= OPEN_MAX
    case ExitClose(p, _) => At(m, p).Exiting? && At(m, p).i < PID_MAX
    case ExitEnd(p) => At(m, p).Exiting? && At(m, p).i >= PID_MAX
    case _ => At(m, ev.p).Running?
  }

  function After(m: Machine, r: Outcome): Result {
    if r.Crash? then Fault else Ok(m.(s := r.s))
  }

  function Exec(m: Machine, ev: Event): Result {
    var s := m.s;
    match ev
    case Start => Ok(Machine(s.(procs := s.procs + [Some(Closes())]), m.doing + [Running]))
    case Open(p, found, am, enough) =>
      if !IsLive(s, p) then Fault else After(m, OpenOp(s, p, found, am, enough))
    case Close(p, fd) => if !IsLive(s, p) then Fault else After(m, CloseOp(s, p, fd))
    case Dup2(p, oldfd, newfd) => if !IsLive(s, p) then Fault else After(m, DupOp(s, p, oldfd, newfd))
    case Transfer(p, fd, writing, moved) =>
      if !IsLive(s, p) then Fault else After(m, TransferOp(s, p, fd, writing, moved))
    case Lseek(p, fd, pos, whence, seekable, size) =>
      if !IsLive(s, p) then Fault else After(m, LseekOp(s, p, fd, pos, whence, seekable, size))
    case ExecReset(p) => if !IsLive(s, p) || |s.lost| != OPEN_MAX then Fault else Ok(m.(s := Reset(s, p)))
    case ForkCopy(p) =>
      if !IsLive(s, p) || p >= |m.doing| then Fault
      else
        Ok(Machine(s.(procs := s.procs + [Some(Closes())]),
                   m.doing[p := Forking(|s.procs|, 0, s.procs[p].value)] + [Unborn]))
    case ForkCount(p) => ForkStep(m, p)
    case ForkRun(p, ok) =>
      if !At(m, p).Forking? || At(m, p).child >= |m.doing| then Fault
      else
        var c := m.doing[p].child;
        Ok(m.(doing := m.doing[p := Running][c := if ok then Running else Unborn]))
    case ExitStart(p) => if p >= |m.doing| then Fault else Ok(m.(doing := m.doing[p := Exiting(0)]))
    case ExitClose(p, past) => ExitStep(m, p, past)
    case ExitEnd(p) =>
      if p >= |s.procs| || p >= |m.doing| then Fault else Ok(Machine(Gone(s, p), m.doing[p := Dead]))
  }

  /** One round of the loop in sys_fork(). */
  function ForkStep(m: Machine, p: Proc): Result {
    if !At(m, p).Forking? then Fault
    else
      var f := m.doing[p];
      if f.i >= |f.copy| || !IsLive(m.s, f.child) || f.i >= |m.s.procs[f.child].value| then Fault
      else if f.copy[f.i] != FILE_CLOSED && FileAt(m.s, f.copy[f.i]).None? then Fault
      else Ok(Machine(Counted(m.s, f.child, f.i, f.copy[f.i]), m.doing[p := f.(i := f.i + 1)]))
  }

  /** One round of the loop in file_table_destroy(). */
  function ExitStep(m: Machine, p: Proc, past: int): Result {
    if !At(m, p).Exiting? || !IsLive(m.s, p) then Fault
    else
      var i := m.doing[p].i;
      After(m.(doing := m.doing[p := Exiting(i + 1)]), ExitRound(m.s, p, i, past))
  }

  // What every run keeps

  function RowOf(s: State, p: Proc): Option<Row> {
    if p < |s.procs| then s.procs[p] else None
  }

  /** The row of a child with i descriptors counted. */
  function Part(copy: Row, i: nat): Row
    requires i <= |copy| == OPEN_MAX
  {
    copy[..i] + Closes()[i..]
  }

  ghost predicate ForkOk(m: Machine, p: Proc) {
    var d := At(m, p);
    d.Forking? ==>
      && RowOf(m.s, p) == Some(d.copy) && d.i <= |d.copy| == OPEN_MAX
      && At(m, d.child).Unborn? && RowOf(m.s, d.child) == Some(Part(d.copy, d.i))
  }

  ghost predicate ClosedBelow(row: Row, i: nat) {
    forall j :: 0 <= j < i && j < |row| ==> row[j] == FILE_CLOSED
  }

  ghost predicate ExitOk(m: Machine, p: Proc) {
    At(m, p).Exiting? ==> RowOf(m.s, p).Some? && ClosedBelow(RowOf(m.s, p).value, At(m, p).i)
  }

  ghost predicate ProcOk(m: Machine, p: Proc) {
    ForkOk(m, p) && ExitOk(m, p) && (RowOf(m.s, p).Some? <==> !At(m, p).Dead?)
  }

  ghost predicate RunInv(m: Machine) {
    && Inv(m.s) && |m.doing| == |m.s.procs|
    && (forall p: Proc :: ProcOk(m, p))
    && OwnChildren(m)
  }

  function ChildOf(m: Machine, p: Proc): Option<Proc> {
    if At(m, p).Forking? then Some(At(m, p).child) else None
  }

  ghost predicate OwnChildren(m: Machine) {
    forall p: Proc, q: Proc :: ChildOf(m, p).Some? && ChildOf(m, p) == ChildOf(m, q) ==> p == q
  }

  lemma SameChildren(m: Machine, n: Machine)
    requires OwnChildren(m) && forall q: Proc :: ChildOf(n, q).Some? ==> ChildOf(n, q) == ChildOf(m, q)
    ensures OwnChildren(n)
  {
    hide ChildOf;
  }

  /** A process whose phase and row are unchanged, and its child's. */
  lemma Untouched(m: Machine, n: Machine, q: Proc)
    requires ProcOk(m, q) && At(n, q) == At(m, q) && RowOf(n.s, q) == RowOf(m.s, q)
    requires At(m, q).Forking? ==>
               At(n, At(m, q).child) == At(m, At(m, q).child) && RowOf(n.s, At(m, q).child) == RowOf(m.s, At(m, q).child)
    ensures ProcOk(n, q)
  {
    hide At, RowOf, Part, ClosedBelow;
  }

  /** Process p has changed at most its own row, and nothing is forgotten. */
  ghost predicate Local(s: State, t: State, p: Proc) {
    && |t.procs| == |s.procs| && t.lost == s.lost && IsLive(t, p)
    && forall q :: 0 <= q < |s.procs| && q != p ==> t.procs[q] == s.procs[q]
  }

  ghost predicate LocalOutcome(s: State, r: Outcome, p: Proc) {
    r.Did? && Inv(r.s) && Local(s, r.s, p)
  }

  lemma OpenLocal(s: State, p: Proc, found: Option<Vid>, am: nat, enough: bool)
    requires Inv(s) && IsLive(s, p)
    ensures LocalOutcome(s, OpenOp(s, p, found, am, enough), p)
  {
    OpenSafe(s, p, found, am, enough);
    hide Inv;
  }

  lemma CloseLocal(s: State, p: Proc, fd: int)
    requires Inv(s) && IsLive(s, p)
    ensures LocalOutcome(s, CloseOp(s, p, fd), p)
  {
    CloseSafe(s, p, fd);
    hide Inv;
  }

  lemma DupLocal(s: State, p: Proc, oldfd: int, newfd: int)
    requires Inv(s) && IsLive(s, p)
    ensures LocalOutcome(s, DupOp(s, p, oldfd, newfd), p)
  {
    DupSafe(s, p, oldfd, newfd);
    hide Inv;
  }

  lemma TransferLocal(s: State, p: Proc, fd: int, writing: bool, moved: Option<nat>)
    requires Inv(s) && IsLive(s, p)
    ensures LocalOutcome(s, TransferOp(s, p, fd, writing, moved), p)
  {
    TransferSafe(s, p, fd, writing, moved);
    hide Inv;
  }

  lemma LseekLocal(s: State, p: Proc, fd: int, pos: int, whence: int, seekable: bool, size: Option<nat>)
    requires Inv(s) && IsLive(s, p)
    ensures LocalOutcome(s, LseekOp(s, p, fd, pos, whence, seekable, size), p)
  {
    LseekSafe(s, p, fd, pos, whence, seekable, size);
    hide Inv;
  }

  lemma LocalKeepsInv(m: Machine, r: Outcome, p: Proc)
    requires RunInv(m) && At(m, p).Running? && LocalOutcome(m.s, r, p)
    ensures After(m, r) == Ok(m.(s := r.s)) && RunInv(m.(s := r.s))
  {
    RowKeepsInv(m, r.s, p);
  }

  /** A running process may do as it likes with its own row. */
  lemma RowKeepsInv(m: Machine, t: State, p: Proc)
    requires RunInv(m) && At(m, p).Running? && Inv(t) && Local(m.s, t.(lost := m.s.lost), p)
    ensures RunInv(m.(s := t))
  {
    var n := m.(s := t);
    hide Inv, Part, ClosedBelow;
    forall q: Proc
      ensures ProcOk(n, q)
    {
      assert ProcOk(m, q);
      if q != p {
        Untouched(m, n, q);
      }
    }
    SameChildren(m, n);
  }

  lemma StartKeepsInv(m: Machine)
    requires RunInv(m)
    ensures RunInv(Exec(m, Start).m)
    ensures
      var n := Exec(m, Start).m;
      && |n.s.procs| == |m.s.procs| + 1 && At(n, |m.s.procs|) == Running
      && RowOf(n.s, |m.s.procs|).Some? && ClosedBelow(RowOf(n.s, |m.s.procs|).value, OPEN_MAX)
  {
    NewProcessKeepsInv(m.s);
    var n := Exec(m, Start).m;
    hide Inv, Part, ClosedBelow;
    forall q: Proc
      ensures ProcOk(n, q)
    {
      assert ProcOk(m, q);
      if q != |m.doing| {
        Untouched(m, n, q);
      }
    }
    SameChildren(m, n);
  }

  lemma ForkCopyKeepsInv(m: Machine, p: Proc)
    requires RunInv(m) && At(m, p).Running?
    ensures Exec(m, ForkCopy(p)).Ok? && RunInv(Exec(m, ForkCopy(p)).m)
    ensures RowOf(m.s, p).Some? && At(Exec(m, ForkCopy(p)).m, p) == Forking(|m.s.procs|, 0, RowOf(m.s, p).value)
  {
    NewProcessKeepsInv(m.s);
    assert ProcOk(m, p);
    Shapes(m.s, p);
    var n, c := Exec(m, ForkCopy(p)).m, |m.doing|;
    assert Part(m.s.procs[p].value, 0) == Closes();
    hide Inv, Part, ClosedBelow;
    forall q: Proc
      ensures ProcOk(n, q)
    {
      assert ProcOk(m, q);
      if q != p && q != c {
        Untouched(m, n, q);
      }
    }
    forall q: Proc, r: Proc | ChildOf(n, q).Some? && ChildOf(n, q) == ChildOf(n, r)
      ensures q == r
    {
      assert ProcOk(m, q) && ProcOk(m, r);
      assert q == p || ChildOf(n, q) == ChildOf(m, q) != Some(c);
      assert r == p || ChildOf(n, r) == ChildOf(m, r) != Some(c);
    }
  }

  lemma ForkCountKeepsInv(m: Machine, p: Proc)
    requires RunInv(m) && At(m, p).Forking? && At(m, p).i < OPEN_MAX
    ensures Exec(m, ForkCount(p)).Ok? && RunInv(Exec(m, ForkCount(p)).m)
    ensures Exec(m, ForkCount(p)).m.s.lost == m.s.lost
    ensures At(Exec(m, ForkCount(p)).m, p) == At(m, p).(i := At(m, p).i + 1)
  {
    assert ProcOk(m, p);
    var f := m.doing[p];
    var c, i := f.child, f.i;
    var v := f.copy[i];
    assert ProcOk(m, c);
    if v != FILE_CLOSED {
      NoDangling(m.s, p, i);
    }
    CountedKeepsInv(m.s, c, i, v);
    CountedRow(m.s, c, i, v, f.copy);
    var n := Machine(Counted(m.s, c, i, v), m.doing[p := f.(i := i + 1)]);
    hide Inv, Part, ClosedBelow, Counted;
    forall q: Proc
      ensures ProcOk(n, q)
    {
      assert ProcOk(m, q);
      if q != p && q != c {
        assert ChildOf(m, p) == Some(c) && ChildOf(m, q) != Some(p);
        Untouched(m, n, q);
      }
    }
    SameChildren(m, n);
  }

  lemma CountedRow(s: State, c: Proc, i: nat, v: int, copy: Row)
    requires i < OPEN_MAX && |copy| == OPEN_MAX && v == copy[i]
    requires RowOf(s, c) == Some(Part(copy, i)) && (v == FILE_CLOSED || FileAt(s, v).Some?)
    ensures Counted(s, c, i, v).procs == s.procs[c := Some(Part(copy, i + 1))]
    ensures Counted(s, c, i, v).lost == s.lost
  {
    var was, now := Part(copy, i), Part(copy, i + 1);
    assert was[i := v] == now;
    assert v == FILE_CLOSED ==> was == now;
  }

  /** When the child is let go, its table is its parent's. */
  lemma ForkRunKeepsInv(m: Machine, p: Proc, ok: bool)
    requires RunInv(m) && At(m, p).Forking? && At(m, p).i >= OPEN_MAX
    ensures Exec(m, ForkRun(p, ok)).Ok? && RunInv(Exec(m, ForkRun(p, ok)).m)
    ensures RowOf(m.s, p).Some? && RowOf(m.s, At(m, p).child) == RowOf(m.s, p)
    ensures
      var n := Exec(m, ForkRun(p, ok)).m;
      n.s == m.s && At(n, p) == Running && At(n, At(m, p).child) == if ok then Running else Unborn
  {
    assert ProcOk(m, p);
    var f := m.doing[p];
    assert Part(f.copy, OPEN_MAX) == f.copy;
    var n := Exec(m, ForkRun(p, ok)).m;
    hide Inv, Part, ClosedBelow;
    forall q: Proc
      ensures ProcOk(n, q)
    {
      assert ProcOk(m, q);
      if q != p && q != f.child {
        assert ChildOf(m, p) == Some(f.child) && ChildOf(m, q) != Some(p);
        Untouched(m, n, q);
      }
    }
    SameChildren(m, n);
  }

  lemma ExitStartKeepsInv(m: Machine, p: Proc)
    requires RunInv(m) && At(m, p).Running?
    ensures Exec(m, ExitStart(p)).Ok? && RunInv(Exec(m, ExitStart(p)).m)
    ensures At(Exec(m, ExitStart(p)).m, p) == Exiting(0) && Exec(m, ExitStart(p)).m.s == m.s
  {
    var n := Exec(m, ExitStart(p)).m;
    hide Inv, Part;
    forall q: Proc
      ensures ProcOk(n, q)
    {
      assert ProcOk(m, q);
      if q != p {
        Untouched(m, n, q);
      }
    }
    SameChildren(m, n);
  }

  lemma ExitCloseKeepsInv(m: Machine, p: Proc, past: int)
    requires RunInv(m) && At(m, p).Exiting?
    ensures Exec(m, ExitClose(p, past)).Ok? && RunInv(Exec(m, ExitClose(p, past)).m)
    ensures Exec(m, ExitClose(p, past)).m.s.lost == m.s.lost
  {
    hide Inv, Part, ClosedBelow, ExitRound;
    assert ProcOk(m, p);
    var i, row := m.doing[p].i, m.s.procs[p].value;
    ExitRoundSafe(m.s, p, i, past);
    var n := Machine(ExitRound(m.s, p, i, past).s, m.doing[p := Exiting(i + 1)]);
    OneMoreClosed(row, i);
    ExitCloseRows(m, n, p, i);
  }

  lemma OneMoreClosed(row: Row, i: nat)
    requires |row| == OPEN_MAX && ClosedBelow(row, i)
    ensures ClosedBelow(if i < OPEN_MAX then row[i := FILE_CLOSED] else row, i + 1)
  {
  }

  lemma ExitCloseRows(m: Machine, n: Machine, p: Proc, i: nat)
    requires RunInv(m) && Inv(n.s) && At(m, p) == Exiting(i) && n.doing == m.doing[p := Exiting(i + 1)]
    requires IsLive(n.s, p) && ClosedBelow(n.s.procs[p].value, i + 1) && n.s.procs == m.s.procs[p := n.s.procs[p]]
    ensures RunInv(n)
  {
    hide Inv, Part, ClosedBelow;
    forall q: Proc
      ensures ProcOk(n, q)
    {
      assert ProcOk(m, q);
      if q != p {
        Untouched(m, n, q);
      }
    }
    SameChildren(m, n);
  }

  lemma ExitEndKeepsInv(m: Machine, p: Proc)
    requires RunInv(m) && At(m, p).Exiting? && At(m, p).i >= PID_MAX
    ensures Exec(m, ExitEnd(p)).Ok? && RunInv(Exec(m, ExitEnd(p)).m)
    ensures At(Exec(m, ExitEnd(p)).m, p) == Dead && RowOf(Exec(m, ExitEnd(p)).m.s, p) == None
  {
    assert ProcOk(m, p);
    GoneKeepsInv(m.s, p);
    var n := Exec(m, ExitEnd(p)).m;
    hide Inv, Part, ClosedBelow;
    forall q: Proc
      ensures ProcOk(n, q)
    {
      assert ProcOk(m, q);
      if q != p {
        Untouched(m, n, q);
      }
    }
    SameChildren(m, n);
  }

  /** How many descriptors for slot k an event forgets: those a process has
      when it calls exec. */
  function Forgets(m: Machine, ev: Event, k: int): nat {
    if ev.ExecReset? && IsLive(m.s, ev.p) then Count(m.s.procs[ev.p].value, k) else 0
  }

  ghost predicate Accounts(m: Machine, ev: Event, r: Result) {
    && r.Ok? && |r.m.s.lost| == |m.s.lost| == OPEN_MAX
    && forall k :: 0 <= k < OPEN_MAX ==> r.m.s.lost[k] == m.s.lost[k] + Forgets(m, ev, k)
  }

  lemma ExecResetKeepsInv(m: Machine, p: Proc)
    requires RunInv(m) && At(m, p).Running?
    ensures Exec(m, ExecReset(p)).Ok? && RunInv(Exec(m, ExecReset(p)).m)
    ensures Accounts(m, ExecReset(p), Exec(m, ExecReset(p)))
  {
    assert ProcOk(m, p);
    ResetKeepsInv(m.s, p);
    assert |m.s.lost| == OPEN_MAX;
    hide Inv;
    RowKeepsInv(m, Reset(m.s, p), p);
  }

  lemma SameLostAccounts(m: Machine, ev: Event, r: Result)
    requires RunInv(m) && r.Ok? && r.m.s.lost == m.s.lost && !ev.ExecReset?
    ensures Accounts(m, ev, r)
  {
  }

  /** The events of running processes other than fork, exec and exit. */
  predicate IsLocal(ev: Event) {
    ev.Open? || ev.Close? || ev.Dup2? || ev.Transfer? || ev.Lseek?
  }

  lemma LocalEventKeepsInv(m: Machine, ev: Event)
    requires RunInv(m) && Enabled(m, ev) && IsLocal(ev)
    ensures Exec(m, ev).Ok? && RunInv(Exec(m, ev).m) && Exec(m, ev).m.s.lost == m.s.lost
  {
    assert Inv(m.s) && ProcOk(m, ev.p) && IsLive(m.s, ev.p);
    hide RunInv, Inv, OpenOp, CloseOp, DupOp, TransferOp, LseekOp, ForkStep, ExitStep, Reset, IsLive;
    match ev
    case Open(p, found, am, enough) =>
      OpenLocal(m.s, p, found, am, enough);
      LocalKeepsInv(m, OpenOp(m.s, p, found, am, enough), p);
    case Close(p, fd) =>
      CloseLocal(m.s, p, fd);
      LocalKeepsInv(m, CloseOp(m.s, p, fd), p);
    case Dup2(p, oldfd, newfd) =>
      DupLocal(m.s, p, oldfd, newfd);
      LocalKeepsInv(m, DupOp(m.s, p, oldfd, newfd), p);
    case Transfer(p, fd, writing, moved) =>
      TransferLocal(m.s, p, fd, writing, moved);
      LocalKeepsInv(m, TransferOp(m.s, p, fd, writing, moved), p);
    case Lseek(p, fd, pos, whence, seekable, size) =>
      LseekLocal(m.s, p, fd, pos, whence, seekable, size);
      LocalKeepsInv(m, LseekOp(m.s, p, fd, pos, whence, seekable, size), p);
  }

  lemma OtherEventKeepsInv(m: Machine, ev: Event)
    requires RunInv(m) && Enabled(m, ev) && !IsLocal(ev) && !ev.ExecReset?
    ensures Exec(m, ev).Ok? && RunInv(Exec(m, ev).m) && Exec(m, ev).m.s.lost == m.s.lost
  {
    hide RunInv, Inv, ForkStep, ExitStep, IsLive;
    match ev
    case Start => StartKeepsInv(m);
    case ForkCopy(p) => ForkCopyKeepsInv(m, p);
    case ForkCount(p) => ForkCountKeepsInv(m, p);
    case ForkRun(p, ok) => ForkRunKeepsInv(m, p, ok);
    case ExitStart(p) => ExitStartKeepsInv(m, p);
    case ExitClose(p, past) => ExitCloseKeepsInv(m, p, past);
    case ExitEnd(p) => ExitEndKeepsInv(m, p);
  }

  /** No event faults, and only exec forgets descriptors. */
  lemma ExecKeepsInv(m: Machine, ev: Event)
    requires RunInv(m) && Enabled(m, ev)
    ensures Exec(m, ev).Ok? && RunInv(Exec(m, ev).m) && Accounts(m, ev, Exec(m, ev))
  {
    hide RunInv, Exec, Accounts;
    if ev.ExecReset? {
      ExecResetKeepsInv(m, ev.p);
    } else {
      if IsLocal(ev) {
        LocalEventKeepsInv(m, ev);
      } else {
        OtherEventKeepsInv(m, ev);
      }
      SameLostAccounts(m, ev, Exec(m, ev));
    }
  }

  // Runs

  /** The machine after a sequence of events; one that cannot happen where it
      stands is passed over. */
  function Run(m: Machine, es: seq<Event>): Result {
    if es == [] then Ok(m)
    else
      var r := Run(m, es[..|es| - 1]);
      if r.Fault? then Fault
      else if !Enabled(r.m, es[|es| - 1]) then r
      else Exec(r.m, es[|es| - 1])
  }

  /** How many descriptors for slot k processes had when they called exec,
      over the whole run. */
  function Forgotten(m: Machine, es: seq<Event>, k: int): nat {
    if es == [] then 0
    else
      var r := Run(m, es[..|es| - 1]);
      Forgotten(m, es[..|es| - 1], k)
      + if r.Ok? && Enabled(r.m, es[|es| - 1]) then Forgets(r.m, es[|es| - 1], k) else 0
  }

  lemma InitInv()
    ensures RunInv(INIT)
  {
    var files := seq(OPEN_MAX, i => None);
    assert INIT.s.files == files;
    NoVnodes(files);
  }

  /** No run faults; what it forgets is what the counts have too much. */
  lemma {:induction false} RunKeepsInv(m: Machine, es: seq<Event>)
    requires RunInv(m)
    ensures Run(m, es).Ok? && RunInv(Run(m, es).m) && |Run(m, es).m.s.lost| == |m.s.lost| == OPEN_MAX
    ensures forall k :: 0 <= k < OPEN_MAX ==> Run(m, es).m.s.lost[k] == m.s.lost[k] + Forgotten(m, es, k)
  {
    assert |m.s.lost| == OPEN_MAX;
    hide RunInv, Exec, Enabled, Forgets;
    if es != [] {
      var n := |es| - 1;
      RunKeepsInv(m, es[..n]);
      var u := Run(m, es[..n]).m;
      if Enabled(u, es[n]) {
        ExecKeepsInv(u, es[n]);
      }
    }
  }

  /** The count of slot k is the number of descriptors that refer to it plus
      a number; the slot is filled if and only if that is not zero. */
  ghost predicate CountIs(s: State, k: nat, more: nat) {
    && k < |s.files|
    && (s.files[k].Some? <==> Refs(s.procs, k) + more > 0)
    && (s.files[k].Some? ==> s.files[k].value.rc == Refs(s.procs, k) + more)
  }

  /** After every run a count is the number of descriptors plus the number
      that exec forgot. */
  lemma CountsOverRuns(es: seq<Event>, k: nat)
    requires k < OPEN_MAX
    ensures Run(INIT, es).Ok? && |Run(INIT, es).m.s.files| == OPEN_MAX
    ensures CountIs(Run(INIT, es).m.s, k, Forgotten(INIT, es, k))
  {
    InitInv();
    RunKeepsInv(INIT, es);
    hide Run, Refs, Forgotten;
    assert SlotOk(Run(INIT, es).m.s, k);
  }

  /** Process p has no descriptor. */
  ghost predicate AllClosed(s: State, p: Proc) {
    RowOf(s, p).Some? ==> forall i :: 0 <= i < |RowOf(s, p).value| ==> RowOf(s, p).value[i] == FILE_CLOSED
  }

  /** Whoever calls exec has closed everything before. */
  ghost predicate CleanExecs(m: Machine, es: seq<Event>) {
    es == [] ||
    var r, ev := Run(m, es[..|es| - 1]), es[|es| - 1];
    CleanExecs(m, es[..|es| - 1]) && (r.Ok? && ev.ExecReset? && Enabled(r.m, ev) ==> AllClosed(r.m.s, ev.p))
  }

  lemma ForgetsNone(m: Machine, ev: Event)
    requires RunInv(m) && ev.ExecReset?
    ensures AllClosed(m.s, ev.p) <==> forall k :: 0 <= k < OPEN_MAX ==> Forgets(m, ev, k) == 0
  {
    assert ProcOk(m, ev.p);
    if IsLive(m.s, ev.p) {
      var row := m.s.procs[ev.p].value;
      assert RowOk(row);
      forall k | 0 <= k < OPEN_MAX && AllClosed(m.s, ev.p)
        ensures Count(row, k) == 0
      {
        CountNone(row, k);
      }
      forall i | 0 <= i < OPEN_MAX && row[i] != FILE_CLOSED
        ensures Forgets(m, ev, row[i]) > 0
      {
        CountPositive(row, i);
      }
    }
  }

  lemma OnlyExecForgets(m: Machine, ev: Event)
    requires !ev.ExecReset?
    ensures forall k :: Forgets(m, ev, k) == 0
  {
  }

  ghost predicate NoneForgotten(m: Machine, es: seq<Event>) {
    forall k :: 0 <= k < OPEN_MAX ==> Forgotten(m, es, k) == 0
  }

  lemma {:induction false} CleanForgetsNone(m: Machine, es: seq<Event>)
    requires RunInv(m)
    ensures CleanExecs(m, es) <==> NoneForgotten(m, es)
  {
    hide RunInv, Exec, Enabled, Forgets, AllClosed;
    if es != [] {
      var n := |es| - 1;
      CleanForgetsNone(m, es[..n]);
      RunKeepsInv(m, es[..n]);
      var u, ev := Run(m, es[..n]).m, es[n];
      if ev.ExecReset? {
        ForgetsNone(u, ev);
      } else {
        OnlyExecForgets(u, ev);
      }
      ForgottenStep(m, es, u);
      if !CleanExecs(m, es) {
        var k :| 0 <= k < OPEN_MAX && (Forgotten(m, es[..n], k) != 0 || (Enabled(u, ev) && Forgets(u, ev, k) != 0));
        assert Forgotten(m, es, k) != 0;
      }
    }
  }

  lemma ForgottenStep(m: Machine, es: seq<Event>, u: Machine)
    requires es != [] && Run(m, es[..|es| - 1]) == Ok(u)
    ensures
      var n := |es| - 1;
      forall k :: Forgotten(m, es, k) == Forgotten(m, es[..n], k) + if Enabled(u, es[n]) then Forgets(u, es[n], k) else 0
  {
    hide Run, Enabled, Forgets;
  }

  /** Every count is exactly the number of descriptors. */
  ghost predicate Exact(s: State) {
    forall k :: 0 <= k < |s.files| && s.files[k].Some? ==> s.files[k].value.rc == Refs(s.procs, k)
  }

  /** A run ends with exact counts if and only if every exec in it was called
      without open descriptors. */
  lemma ExactIffCleanExecs(es: seq<Event>)
    ensures Run(INIT, es).Ok? && (Exact(Run(INIT, es).m.s) <==> CleanExecs(INIT, es))
  {
    InitInv();
    CleanForgetsNone(INIT, es);
    hide Run, Forgotten, CleanExecs, RunInv, Exact, CountIs;
    AllCounted(es);
    var lost: seq<nat> := seq(OPEN_MAX, k => Forgotten(INIT, es, k));
    assert forall k :: 0 <= k < OPEN_MAX ==> lost[k] == Forgotten(INIT, es, k);
    ExactIfNoneLost(Run(INIT, es).m.s, lost);
  }

  lemma ExactIfNoneLost(s: State, lost: seq<nat>)
    requires |lost| == |s.files| && forall k :: 0 <= k < |lost| ==> CountIs(s, k, lost[k])
    ensures Exact(s) <==> forall k :: 0 <= k < |lost| ==> lost[k] == 0
  {
    hide Refs;
    forall k | 0 <= k < |lost|
      ensures (s.files[k].Some? ==> s.files[k].value.rc == Refs(s.procs, k)) <==> lost[k] == 0
    {
      assert CountIs(s, k, lost[k]);
    }
    if k :| 0 <= k < |lost| && lost[k] != 0 {
      assert s.files[k].Some?;
    }
  }

  lemma AllCounted(es: seq<Event>)
    ensures Run(INIT, es).Ok? && |Run(INIT, es).m.s.files| == OPEN_MAX
    ensures forall k :: 0 <= k < OPEN_MAX ==> CountIs(Run(INIT, es).m.s, k, Forgotten(INIT, es, k))
  {
    hide Run, Forgotten, CountIs;
    CountsOverRuns(es, 0);
    forall k | 0 <= k < OPEN_MAX
      ensures CountIs(Run(INIT, es).m.s, k, Forgotten(INIT, es, k))
    {
      CountsOverRuns(es, k);
    }
  }

  lemma {:induction false} NoExecIsClean(m: Machine, es: seq<Event>)
    requires forall i :: 0 <= i < |es| ==> !es[i].ExecReset?
    ensures CleanExecs(m, es)
  {
    if es != [] {
      NoExecIsClean(m, es[..|es| - 1]);
    }
  }

  /** So without exec the counts are always exact. */
  lemma ExactWithoutExec(es: seq<Event>)
    requires forall i :: 0 <= i < |es| ==> !es[i].ExecReset?
    ensures Run(INIT, es).Ok? && Exact(Run(INIT, es).m.s)
  {
    NoExecIsClean(INIT, es);
    ExactIffCleanExecs(es);
  }

  lemma {:induction false} ForgottenGrows(m: Machine, es: seq<Event>, fs: seq<Event>, k: int)
    ensures Forgotten(m, es + fs, k) >= Forgotten(m, es, k)
  {
    hide Run, Enabled, Forgets;
    if fs == [] {
      assert es + fs == es;
    } else {
      var n := |fs| - 1;
      assert (es + fs)[..|es + fs| - 1] == es + fs[..n];
      ForgottenGrows(m, es, fs[..n], k);
    }
  }

  /** A file that exec has forgotten once is never closed, whatever happens
      after, not even when every process is gone. */
  lemma ForgottenForEver(es: seq<Event>, fs: seq<Event>, k: nat)
    requires k < OPEN_MAX && Forgotten(INIT, es, k) > 0
    ensures
      var r := Run(INIT, es + fs);
      r.Ok? && |r.m.s.files| == OPEN_MAX && r.m.s.files[k].Some? && r.m.s.files[k].value.rc > Refs(r.m.s.procs, k)
  {
    hide Run, Refs, Forgotten;
    ForgottenGrows(INIT, es, fs, k);
    CountsOverRuns(es + fs, k);
  }

  /** Once every process has exited all files are closed, and all vnode
      references given back, if and only if nothing was forgotten. */
  lemma AllClosedAtTheEnd(es: seq<Event>)
    requires Run(INIT, es).Ok? && forall p :: 0 <= p < |Run(INIT, es).m.s.procs| ==> Run(INIT, es).m.s.procs[p].None?
    ensures
      var s := Run(INIT, es).m.s;
      (s.vrefs == multiset{} && forall k :: 0 <= k < |s.files| ==> s.files[k].None?) <==> CleanExecs(INIT, es)
  {
    InitInv();
    CleanForgetsNone(INIT, es);
    AllCounted(es);
    RunVnodes(es);
    hide Run, Refs, Forgotten, CleanExecs, RunInv;
    var s := Run(INIT, es).m.s;
    forall k | 0 <= k < OPEN_MAX
      ensures s.files[k].Some? <==> Forgotten(INIT, es, k) > 0
    {
      NoProcsNoRefs(s.procs, k);
      assert CountIs(s, k, Forgotten(INIT, es, k));
    }
    if forall k :: 0 <= k < |s.files| ==> s.files[k].None? {
      NoVnodes(s.files);
    }
  }

  /** In every run the vnode references are those of the open files. */
  lemma RunVnodes(es: seq<Event>)
    ensures Run(INIT, es).Ok? && Run(INIT, es).m.s.vrefs == Vnodes(Run(INIT, es).m.s.files)
  {
    InitInv();
    RunKeepsInv(INIT, es);
    hide Run, Vnodes;
  }

  lemma {:induction false} NoProcsNoRefs(procs: seq<Option<Row>>, k: int)
    requires forall p :: 0 <= p < |procs| ==> procs[p].None?
    ensures Refs(procs, k) == 0
  {
    if procs != [] {
      NoProcsNoRefs(procs[..|procs| - 1], k);
    }
  }

  /** A process that opens one file and calls exec leaves a count of one that
      no descriptor stands for. */
  lemma ExecForgets(v: Vid)
    ensures
      var r := Run(INIT, [Start, Open(0, Some(v), 0, true), ExecReset(0)]);
      r.Ok? && |r.m.s.files| == OPEN_MAX && r.m.s.files[0] == Some(OpenFile(v, 0, 1, 0)) && Refs(r.m.s.procs, 0) == 0
  {
    var e1, e2, e3 := Start, Open(0, Some(v), 0, true), ExecReset(0);
    assert [e1, e2, e3][..2] == [e1, e2] && [e1, e2][..1] == [e1] && [e1][..0] == [];
    assert Run(INIT, [e1]) == Exec(INIT, e1);
    var a := Run(INIT, [e1]).m;
    assert a == Machine(INIT.s.(procs := [Some(Closes())]), [Running]);
    var b := Run(INIT, [e1, e2]).m;
    assert FirstClosed(Closes(), 0) == 0 && FirstEmpty(INIT.s.files, 0) == 0;
    assert b.s.files[0] == Some(OpenFile(v, 0, 1, 0)) && |b.s.procs| == 1;
    var c := Run(INIT, [e1, e2, e3]).m;
    assert c.s.procs == [Some(Closes())];
    assert Refs([], 0) == 0 && [Some(Closes())][..0] == [];
    CountNone(Closes(), 0);
  }
}
