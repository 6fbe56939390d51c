/** File descriptors, the global open file table and vnode references:
    kern/syscall/file.c, kern/syscall/file_syscalls.c and the table copy of
    sys_fork in kern/syscall/proc_syscalls.c. Each operation runs under the
    open file table's lock; processes have one thread each. */
module FileTable {
  import opened Wrappers

  type Proc = nat
  type Vid = int
  type Row = seq<int>

  const OPEN_MAX := 32
  const PID_MAX := 32767
  const FILE_CLOSED := -1

  datatype OpenFile = OpenFile(vn: Vid, am: nat, rc: int, os: int)

  datatype Errno = Success | EBADF | EMFILE | ENOMEM | EINVAL | ESPIPE | Other

  datatype State = State(
    procs: seq<Option<Row>>,        // the descriptor table of each live process
    files: seq<Option<OpenFile>>,   // the global open file table
    lost: seq<int>,                 // descriptors that exec forgot without closing
    vrefs: multiset<Vid>)           // vnode references taken and not given back

  // Counting descriptors

  function Count(row: Row, k: int): (n: nat)
    ensures n <= |row|
  {
    if row == [] then 0 else Count(row[..|row| - 1], k) + (if row[|row| - 1] == k then 1 else 0)
  }

  lemma {:induction false} CountUpdate(row: Row, i: nat, v: int, k: int)
    requires i < |row|
    ensures Count(row[i := v], k) == Count(row, k) - (if row[i] == k then 1 else 0) + (if v == k then 1 else 0)
  {
    var n := |row| - 1;
    if i < n {
      CountUpdate(row[..n], i, v, k);
      assert row[i := v][..n] == row[..n][i := v];
    } else {
      assert row[i := v][..n] == row[..n];
    }
  }

  lemma {:induction false} CountPositive(row: Row, i: nat)
    requires i < |row|
    ensures Count(row, row[i]) > 0
  {
    if i < |row| - 1 {
      CountPositive(row[..|row| - 1], i);
    }
  }

  lemma {:induction false} CountNone(row: Row, k: int)
    requires forall i :: 0 <= i < |row| ==> row[i] != k
    ensures Count(row, k) == 0
  {
    if row != [] {
      CountNone(row[..|row| - 1], k);
    }
  }

  function Share(r: Option<Row>, k: int): nat {
    if r.Some? then Count(r.value, k) else 0
  }

  /** How many descriptors of all processes refer to slot k. */
  function Refs(procs: seq<Option<Row>>, k: int): nat {
    if procs == [] then 0 else Refs(procs[..|procs| - 1], k) + Share(procs[|procs| - 1], k)
  }

  lemma {:induction false} RefsUpdate(procs: seq<Option<Row>>, p: nat, r: Option<Row>, k: int)
    requires p < |procs|
    ensures Refs(procs[p := r], k) == Refs(procs, k) - Share(procs[p], k) + Share(r, k)
    ensures Refs(procs, k) >= Share(procs[p], k)
  {
    hide Share;
    var n := |procs| - 1;
    if p < n {
      RefsUpdate(procs[..n], p, r, k);
      assert procs[p := r][..n] == procs[..n][p := r];
    } else {
      assert procs[p := r][..n] == procs[..n];
    }
  }

  lemma RefsAppend(procs: seq<Option<Row>>, r: Option<Row>, k: int)
    ensures Refs(procs + [r], k) == Refs(procs, k) + Share(r, k)
  {
    assert (procs + [r])[..|procs|] == procs;
  }

  function VnodeOf(f: Option<OpenFile>): multiset<Vid> {
    if f.Some? then multiset{f.value.vn} else multiset{}
  }

  /** The vnodes of the open files. */
  function Vnodes(files: seq<Option<OpenFile>>): multiset<Vid> {
    if files == [] then multiset{} else Vnodes(files[..|files| - 1]) + VnodeOf(files[|files| - 1])
  }

  lemma {:induction false} VnodesUpdate(files: seq<Option<OpenFile>>, k: nat, f: Option<OpenFile>)
    requires k < |files|
    ensures VnodeOf(files[k]) <= Vnodes(files)
    ensures Vnodes(files[k := f]) == Vnodes(files) - VnodeOf(files[k]) + VnodeOf(f)
  {
    hide VnodeOf;
    var n := |files| - 1;
    var last := VnodeOf(files[n]);
    if k < n {
      VnodesUpdate(files[..n], k, f);
      assert files[k := f][..n] == files[..n][k := f];
      SwapInSum(Vnodes(files[..n]), VnodeOf(files[k]), VnodeOf(f), last);
    } else {
      assert files[k := f][..n] == files[..n];
    }
  }

  lemma SwapInSum(a: multiset<Vid>, x: multiset<Vid>, y: multiset<Vid>, last: multiset<Vid>)
    requires x <= a
    ensures x <= a + last && (a - x + y) + last == (a + last) - x + y
  {
  }

  lemma VnodesSame(files: seq<Option<OpenFile>>, k: nat, f: Option<OpenFile>)
    requires k < |files| && VnodeOf(f) == VnodeOf(files[k])
    ensures Vnodes(files[k := f]) == Vnodes(files)
  {
    hide VnodeOf, Vnodes;
    VnodesUpdate(files, k, f);
    GiveBack(Vnodes(files), VnodeOf(f));
  }

  lemma GiveBack(a: multiset<Vid>, x: multiset<Vid>)
    requires x <= a
    ensures a - x + x == a
  {
  }

  lemma VnodesAdd(files: seq<Option<OpenFile>>, k: nat, f: OpenFile)
    requires k < |files| && files[k].None?
    ensures Vnodes(files[k := Some(f)]) == Vnodes(files) + multiset{f.vn}
  {
    hide Vnodes;
    VnodesUpdate(files, k, Some(f));
  }

  // The invariant

  ghost predicate RowOk(row: Row) {
    |row| == OPEN_MAX && forall i :: 0 <= i < |row| ==> row[i] == FILE_CLOSED || 0 <= row[i] < OPEN_MAX
  }

  /** The reference count of a slot is the number of descriptors that refer
      to it plus those that exec forgot. */
  ghost predicate SlotOk(s: State, k: nat)
    requires k < |s.files| && k < |s.lost|
  {
    && s.lost[k] >= 0
    && match s.files[k]
       case Some(f) => f.rc == Refs(s.procs, k) + s.lost[k] && f.rc >= 1 && f.os >= 0
       case None => Refs(s.procs, k) == 0 && s.lost[k] == 0
  }

  ghost predicate Inv(s: State) {
    && |s.files| == OPEN_MAX && |s.lost| == OPEN_MAX
    && (forall p :: 0 <= p < |s.procs| && s.procs[p].Some? ==> RowOk(s.procs[p].value))
    && (forall k :: 0 <= k < OPEN_MAX ==> SlotOk(s, k))
    && s.vrefs == Vnodes(s.files)
  }

  /** No descriptor refers to an empty slot. */
  lemma NoDangling(s: State, p: Proc, fd: nat)
    requires Inv(s) && p < |s.procs| && s.procs[p].Some? && fd < OPEN_MAX && s.procs[p].value[fd] != FILE_CLOSED
    ensures 0 <= s.procs[p].value[fd] < OPEN_MAX && s.files[s.procs[p].value[fd]].Some?
  {
    var row := s.procs[p].value;
    assert RowOk(row);
    var k := row[fd];
    CountPositive(row, fd);
    RefsUpdate(s.procs, p, s.procs[p], k);
    assert SlotOk(s, k);
  }

  predicate IsLive(s: State, p: Proc) {
    p < |s.procs| && s.procs[p].Some?
  }

  /** The slot a descriptor names, if it is an open one. */
  function Slot(s: State, p: Proc, fd: int): int
    requires IsLive(s, p)
  {
    if 0 <= fd < |s.procs[p].value| then s.procs[p].value[fd] else FILE_CLOSED
  }

  function FileAt(s: State, k: int): Option<OpenFile> {
    if 0 <= k < |s.files| then s.files[k] else None
  }

  // Pointing a descriptor elsewhere

  function Pointed(s: State, p: Proc, fd: nat, v: int): State
    requires IsLive(s, p) && fd < |s.procs[p].value|
  {
    s.(procs := s.procs[p := Some(s.procs[p].value[fd := v])])
  }

  lemma PointedRefs(s: State, p: Proc, fd: nat, v: int, k: int)
    requires IsLive(s, p) && fd < |s.procs[p].value|
    ensures Refs(Pointed(s, p, fd, v).procs, k)
         == Refs(s.procs, k) - (if s.procs[p].value[fd] == k then 1 else 0) + (if v == k then 1 else 0)
    ensures s.procs[p].value[fd] == k ==> Refs(s.procs, k) >= 1
  {
    var row := s.procs[p].value;
    CountUpdate(row, fd, v, k);
    RefsUpdate(s.procs, p, Some(row[fd := v]), k);
    CountPositive(row, fd);
  }

  lemma PointedRows(s: State, p: Proc, fd: nat, v: int)
    requires Inv(s) && IsLive(s, p) && fd < |s.procs[p].value| && (v == FILE_CLOSED || 0 <= v < OPEN_MAX)
    ensures
      var t := Pointed(s, p, fd, v);
      forall q :: 0 <= q < |t.procs| && t.procs[q].Some? ==> RowOk(t.procs[q].value)
  {
    assert RowOk(s.procs[p].value);
  }

  // file_close

  /** Drop one reference to slot k; the last one gives the vnode back. */
  function Dropped(s: State, k: nat): State
    requires k < |s.files| && s.files[k].Some?
  {
    var f := s.files[k].value;
    if f.rc == 1 then s.(files := s.files[k := None], vrefs := s.vrefs - multiset{f.vn})
    else s.(files := s.files[k := Some(f.(rc := f.rc - 1))])
  }

  function Closed(s: State, p: Proc, fd: nat): State
    requires IsLive(s, p) && fd < |s.procs[p].value| && 0 <= s.procs[p].value[fd] < |s.files|
    requires s.files[s.procs[p].value[fd]].Some?
  {
    Dropped(Pointed(s, p, fd, FILE_CLOSED), s.procs[p].value[fd])
  }

  lemma CloseKeepsInv(s: State, p: Proc, fd: nat)
    requires Inv(s) && IsLive(s, p) && fd < OPEN_MAX && s.procs[p].value[fd] != FILE_CLOSED
    ensures |s.procs[p].value| == OPEN_MAX
    ensures 0 <= s.procs[p].value[fd] < OPEN_MAX && s.files[s.procs[p].value[fd]].Some?
    ensures Inv(Closed(s, p, fd))
  {
    NoDangling(s, p, fd);
    assert RowOk(s.procs[p].value);
    PointedRows(s, p, fd, FILE_CLOSED);
    DropVnodes(s, s.procs[p].value[fd]);
    CloseSlots(s, p, fd);
  }

  lemma DropVnodes(s: State, k: nat)
    requires k < |s.files| && s.files[k].Some? && s.vrefs == Vnodes(s.files)
    ensures Dropped(s, k).vrefs == Vnodes(Dropped(s, k).files)
  {
    VnodesUpdate(s.files, k, Dropped(s, k).files[k]);
    hide Vnodes;
    if s.files[k].value.rc != 1 {
      var x := multiset{s.files[k].value.vn};
      assert s.vrefs - x + x == s.vrefs;
    }
  }

  lemma CloseSlots(s: State, p: Proc, fd: nat)
    requires |s.files| == |s.lost| == OPEN_MAX && (forall k :: 0 <= k < OPEN_MAX ==> SlotOk(s, k))
    requires IsLive(s, p) && fd < |s.procs[p].value| && 0 <= s.procs[p].value[fd] < OPEN_MAX
    requires s.files[s.procs[p].value[fd]].Some?
    ensures forall k :: 0 <= k < OPEN_MAX ==> SlotOk(Closed(s, p, fd), k)
  {
    hide Refs;
    forall j | 0 <= j < OPEN_MAX
      ensures SlotOk(Closed(s, p, fd), j)
    {
      assert SlotOk(s, j);
      PointedRefs(s, p, fd, FILE_CLOSED, j);
    }
  }

  // file_open

  function Opened(s: State, p: Proc, fd: nat, k: nat, vn: Vid, am: nat): State
    requires IsLive(s, p) && fd < |s.procs[p].value| && k < |s.files|
  {
    Pointed(s, p, fd, k).(files := s.files[k := Some(OpenFile(vn, am, 1, 0))], vrefs := s.vrefs + multiset{vn})
  }

  lemma OpenKeepsInv(s: State, p: Proc, fd: nat, k: nat, vn: Vid, am: nat)
    requires Inv(s) && IsLive(s, p) && fd < OPEN_MAX && s.procs[p].value[fd] == FILE_CLOSED
    requires k < OPEN_MAX && s.files[k].None?
    ensures |s.procs[p].value| == OPEN_MAX && Inv(Opened(s, p, fd, k, vn, am))
  {
    assert RowOk(s.procs[p].value);
    PointedRows(s, p, fd, k);
    VnodesAdd(s.files, k, OpenFile(vn, am, 1, 0));
    OpenSlots(s, p, fd, k, vn, am);
    hide Refs, Vnodes, SlotOk, RowOk;
  }

  lemma OpenSlots(s: State, p: Proc, fd: nat, k: nat, vn: Vid, am: nat)
    requires |s.files| == |s.lost| == OPEN_MAX && (forall k :: 0 <= k < OPEN_MAX ==> SlotOk(s, k))
    requires IsLive(s, p) && fd < |s.procs[p].value| && s.procs[p].value[fd] == FILE_CLOSED
    requires k < OPEN_MAX && s.files[k].None?
    ensures forall j :: 0 <= j < OPEN_MAX ==> SlotOk(Opened(s, p, fd, k, vn, am), j)
  {
    var t := Opened(s, p, fd, k, vn, am);
    hide Refs, Vnodes;
    forall j | 0 <= j < OPEN_MAX
      ensures SlotOk(t, j)
    {
      assert SlotOk(s, j);
      PointedRefs(s, p, fd, k, j);
    }
  }

  // sys_dup2

  /** One more reference to slot k. */
  function Bumped(s: State, k: nat): State
    requires k < |s.files| && s.files[k].Some?
  {
    var f := s.files[k].value;
    s.(files := s.files[k := Some(f.(rc := f.rc + 1))])
  }

  /** A reference that no descriptor stands for yet counts as forgotten. */
  lemma BumpKeepsInv(s: State, k: nat)
    requires Inv(s) && k < OPEN_MAX && s.files[k].Some?
    ensures Inv(Bumped(s, k).(lost := s.lost[k := s.lost[k] + 1]))
  {
    hide Refs, Vnodes, RowOk;
    var t := Bumped(s, k).(lost := s.lost[k := s.lost[k] + 1]);
    assert VnodeOf(t.files[k]) == VnodeOf(s.files[k]);
    VnodesSame(s.files, k, t.files[k]);
    forall j | 0 <= j < OPEN_MAX
      ensures SlotOk(t, j)
    {
      assert SlotOk(s, j);
    }
  }

  /** A descriptor takes up such a reference. */
  lemma ClaimKeepsInv(s: State, p: Proc, fd: nat, k: nat)
    requires Inv(s) && IsLive(s, p) && fd < OPEN_MAX && s.procs[p].value[fd] == FILE_CLOSED
    requires k < OPEN_MAX && s.files[k].Some? && s.lost[k] >= 1
    ensures |s.procs[p].value| == OPEN_MAX
    ensures Inv(Pointed(s, p, fd, k).(lost := s.lost[k := s.lost[k] - 1]))
  {
    assert RowOk(s.procs[p].value);
    var t := Pointed(s, p, fd, k).(lost := s.lost[k := s.lost[k] - 1]);
    PointedRows(s, p, fd, k);
    hide Refs, Vnodes;
    forall j | 0 <= j < OPEN_MAX
      ensures SlotOk(t, j)
    {
      assert SlotOk(s, j);
      PointedRefs(s, p, fd, k, j);
    }
  }

  predicate CanDup(s: State, p: Proc, src: nat, fd: nat) {
    && IsLive(s, p) && |s.files| == OPEN_MAX && |s.procs[p].value| == OPEN_MAX && src < OPEN_MAX && fd < OPEN_MAX
    && src != fd
    && 0 <= Slot(s, p, src) < OPEN_MAX && s.files[Slot(s, p, src)].Some?
    && (Slot(s, p, fd) != FILE_CLOSED ==> 0 <= Slot(s, p, fd) < OPEN_MAX && s.files[Slot(s, p, fd)].Some?)
  }

  /** sys_dup2 once its arguments have been found good: bump, close, point. */
  function Dupped(s: State, p: Proc, src: nat, fd: nat): State
    requires CanDup(s, p, src, fd)
  {
    var k := Slot(s, p, src);
    var b := Bumped(s, k);
    Pointed(if Slot(s, p, fd) != FILE_CLOSED then Closed(b, p, fd) else b, p, fd, k)
  }

  lemma CanDupHere(s: State, p: Proc, src: nat, fd: nat)
    requires Inv(s) && IsLive(s, p) && src < OPEN_MAX && fd < OPEN_MAX && src != fd
    requires Slot(s, p, src) != FILE_CLOSED
    ensures CanDup(s, p, src, fd)
  {
    assert RowOk(s.procs[p].value);
    NoDangling(s, p, src);
    if Slot(s, p, fd) != FILE_CLOSED {
      NoDangling(s, p, fd);
    }
  }

  lemma DupKeepsInv(s: State, p: Proc, src: nat, fd: nat)
    requires Inv(s) && CanDup(s, p, src, fd)
    ensures Inv(Dupped(s, p, src, fd))
  {
    hide Inv, Pointed, Closed, Dupped, Bumped;
    var k := Slot(s, p, src);
    var b := DupBump(s, p, k);
    var c := if Slot(s, p, fd) != FILE_CLOSED then Closed(b, p, fd) else b;
    DupClose(b, p, fd, k);
    ClaimKeepsInv(c, p, fd, k);
    DupSame(s, p, src, fd, b.lost);
  }

  lemma DupBump(s: State, p: Proc, k: nat) returns (b: State)
    requires Inv(s) && IsLive(s, p) && k < OPEN_MAX && |s.files| == OPEN_MAX && s.files[k].Some?
    ensures |s.lost| == OPEN_MAX && b == Bumped(s, k).(lost := s.lost[k := s.lost[k] + 1])
    ensures Inv(b) && |b.files| == OPEN_MAX && b.files[k].Some? && b.files[k].value.rc > 1 && b.lost[k] >= 1
    ensures b.procs == s.procs && forall j :: 0 <= j < OPEN_MAX ==> (b.files[j].Some? <==> s.files[j].Some?)
  {
    hide Refs, Vnodes, RowOk;
    assert SlotOk(s, k);
    BumpKeepsInv(s, k);
    b := Bumped(s, k).(lost := s.lost[k := s.lost[k] + 1]);
  }

  /** The file being duplicated survives the close of the other descriptor. */
  lemma DupClose(b: State, p: Proc, fd: nat, k: nat)
    requires Inv(b) && IsLive(b, p) && fd < OPEN_MAX && k < OPEN_MAX && b.files[k].Some? && b.files[k].value.rc > 1
    requires Slot(b, p, fd) != FILE_CLOSED ==> 0 <= Slot(b, p, fd) < OPEN_MAX && b.files[Slot(b, p, fd)].Some?
    ensures |b.procs[p].value| == OPEN_MAX
    ensures
      var c := if Slot(b, p, fd) != FILE_CLOSED then Closed(b, p, fd) else b;
      && Inv(c) && IsLive(c, p) && |c.procs[p].value| == OPEN_MAX && c.procs[p].value[fd] == FILE_CLOSED
      && c.files[k].Some? && c.lost == b.lost
  {
    assert RowOk(b.procs[p].value);
    hide Refs, Vnodes;
    if Slot(b, p, fd) != FILE_CLOSED {
      CloseKeepsInv(b, p, fd);
    }
  }

  lemma DupSame(s: State, p: Proc, src: nat, fd: nat, lost: seq<int>)
    requires CanDup(s, p, src, fd) && |s.lost| == OPEN_MAX
    requires lost == s.lost[Slot(s, p, src) := s.lost[Slot(s, p, src)] + 1]
    ensures
      var k := Slot(s, p, src);
      var b := Bumped(s, k).(lost := lost);
      var c := if Slot(s, p, fd) != FILE_CLOSED then Closed(b, p, fd) else b;
      Pointed(c, p, fd, k).(lost := lost[k := lost[k] - 1]) == Dupped(s, p, src, fd)
  {
    var k := Slot(s, p, src);
    assert lost[k := lost[k] - 1] == s.lost;
  }

  /** After dup2 the two descriptors name the same open file, which is still
      the one it was, and every other descriptor is as before. */
  lemma DupNames(s: State, p: Proc, src: nat, fd: nat)
    requires Inv(s) && CanDup(s, p, src, fd)
    ensures
      var t, k := Dupped(s, p, src, fd), Slot(s, p, src);
      && |t.procs| == |s.procs| && IsLive(t, p) && Slot(t, p, fd) == k && Slot(t, p, src) == k
      && (forall i :: i != fd ==> Slot(t, p, i) == Slot(s, p, i))
      && (forall q :: 0 <= q < |s.procs| && q != p ==> t.procs[q] == s.procs[q])
      && t.files[k].Some? && t.files[k].value.vn == s.files[k].value.vn && t.files[k].value.os == s.files[k].value.os
  {
    hide Refs, Vnodes, RowOk, Inv;
    DupSurvives(s, p, src, fd);
    DupRows(s, p, src, fd);
    hide Dupped;
  }

  lemma DupSurvives(s: State, p: Proc, src: nat, fd: nat)
    requires Inv(s) && CanDup(s, p, src, fd)
    ensures
      var t, k := Dupped(s, p, src, fd), Slot(s, p, src);
      |t.files| == |s.files| && t.files[k].Some? && t.files[k].value.vn == s.files[k].value.vn
      && t.files[k].value.os == s.files[k].value.os
  {
    assert SlotOk(s, Slot(s, p, src));
    assert s.files[Slot(s, p, src)].value.rc >= 1;
    hide Refs, Vnodes, RowOk, SlotOk, Inv;
  }

  lemma DupRows(s: State, p: Proc, src: nat, fd: nat)
    requires CanDup(s, p, src, fd)
    ensures Dupped(s, p, src, fd).procs == s.procs[p := Some(s.procs[p].value[fd := Slot(s, p, src)])]
  {
    var row, k := s.procs[p].value, Slot(s, p, src);
    assert row[fd := FILE_CLOSED][fd := k] == row[fd := k];
    assert s.procs[p := Some(row[fd := FILE_CLOSED])][p := Some(row[fd := k])] == s.procs[p := Some(row[fd := k])];
  }

  // sys_fork

  /** One round of the loop over the copied table: entry i of the child's
      table, v in the copy, comes into force with its reference. */
  function Counted(s: State, c: Proc, i: nat, v: int): State
    requires IsLive(s, c) && i < |s.procs[c].value|
    requires v == FILE_CLOSED || FileAt(s, v).Some?
  {
    if v == FILE_CLOSED then s else Pointed(Bumped(s, v), c, i, v)
  }

  lemma CountedKeepsInv(s: State, c: Proc, i: nat, v: int)
    requires Inv(s) && IsLive(s, c) && i < OPEN_MAX && Slot(s, c, i) == FILE_CLOSED
    requires v == FILE_CLOSED || FileAt(s, v).Some?
    ensures |s.procs[c].value| == OPEN_MAX && |s.files| == OPEN_MAX && Inv(Counted(s, c, i, v))
  {
    Shapes(s, c);
    if v != FILE_CLOSED {
      hide Inv;
      var b := DupBump(s, c, v);
      ClaimKeepsInv(b, c, i, v);
      assert b.lost[v := b.lost[v] - 1] == s.lost;
      assert Pointed(b, c, i, v).(lost := b.lost[v := b.lost[v] - 1]) == Counted(s, c, i, v);
    }
  }

  /** The child's descriptors are a copy of the parent's and each is counted. */
  ghost predicate ForkResult(s: State, t: State, p: Proc)
    requires IsLive(s, p)
  {
    && t == s.(procs := s.procs + [s.procs[p]], files := t.files) && |t.files| == |s.files|
    && forall k :: 0 <= k < |s.files| ==>
         t.files[k] == if s.files[k].None? then None
                       else Some(s.files[k].value.(rc := s.files[k].value.rc + Count(s.procs[p].value, k)))
  }

  /** The state after i rounds. */
  ghost predicate ForkPart(s: State, t: State, p: Proc, i: nat)
    requires IsLive(s, p)
  {
    && |s.procs[p].value| == OPEN_MAX && i <= OPEN_MAX
    && t == s.(procs := s.procs + [Some(s.procs[p].value[..i] + Closes()[i..])], files := t.files)
    && |t.files| == |s.files|
    && forall k :: 0 <= k < |s.files| ==>
         t.files[k] == if s.files[k].None? then None
                       else Some(s.files[k].value.(rc := s.files[k].value.rc + Count(s.procs[p].value[..i], k)))
  }

  lemma ForkStart(s: State, t: State, p: Proc)
    requires IsLive(s, p) && |s.procs[p].value| == OPEN_MAX && t == s.(procs := s.procs + [Some(Closes())])
    ensures ForkPart(s, t, p, 0)
  {
    assert s.procs[p].value[..0] + Closes()[0..] == Closes();
  }

  lemma ForkRound(s: State, m: State, p: Proc, i: nat)
    requires Inv(s) && Inv(m) && IsLive(s, p) && ForkPart(s, m, p, i) && i < OPEN_MAX
    ensures IsLive(m, |s.procs|) && Slot(m, |s.procs|, i) == FILE_CLOSED
    ensures
      var v := s.procs[p].value[i];
      && (v == FILE_CLOSED || FileAt(m, v).Some?) && i < |m.procs[|s.procs|].value|
      && ForkPart(s, Counted(m, |s.procs|, i, v), p, i + 1)
  {
    var row, c := s.procs[p].value, |s.procs|;
    var v := row[i];
    if v != FILE_CLOSED {
      NoDangling(s, p, i);
    }
    hide Inv;
    var t := Counted(m, c, i, v);
    var was, now := row[..i] + Closes()[i..], row[..i + 1] + Closes()[i + 1..];
    assert row[..i + 1][..i] == row[..i];
    assert was[i := v] == now;
    assert v == FILE_CLOSED ==> was == now;
    assert (s.procs + [Some(was)])[c := Some(now)] == s.procs + [Some(now)];
    assert t.procs == s.procs + [Some(now)];
  }

  lemma ForkEnd(s: State, t: State, p: Proc)
    requires IsLive(s, p) && ForkPart(s, t, p, OPEN_MAX)
    ensures ForkResult(s, t, p)
  {
    var row := s.procs[p].value;
    assert row[..OPEN_MAX] == row && row + Closes()[OPEN_MAX..] == row;
  }

  // exec and exit

  function Closes(): Row {
    seq(OPEN_MAX, i => FILE_CLOSED)
  }

  /** file_table_init as exec calls it: a fresh table takes the place of the
      old one, whose descriptors are not closed. */
  function Reset(s: State, p: Proc): State
    requires IsLive(s, p) && |s.lost| == OPEN_MAX
  {
    s.(procs := s.procs[p := Some(Closes())],
       lost := seq(OPEN_MAX, k requires 0 <= k < OPEN_MAX => s.lost[k] + Count(s.procs[p].value, k)))
  }

  lemma ResetKeepsInv(s: State, p: Proc)
    requires Inv(s) && IsLive(s, p)
    ensures Inv(Reset(s, p))
  {
    var t := Reset(s, p);
    forall k | 0 <= k < OPEN_MAX
      ensures SlotOk(t, k)
    {
      assert SlotOk(s, k);
      CountNone(Closes(), k);
      RefsUpdate(s.procs, p, Some(Closes()), k);
    }
  }

  /** After exit the process has no table. */
  function Gone(s: State, p: Proc): State
    requires p < |s.procs|
  {
    s.(procs := s.procs[p := None])
  }

  lemma GoneKeepsInv(s: State, p: Proc)
    requires Inv(s) && IsLive(s, p) && forall i :: 0 <= i < OPEN_MAX ==> Slot(s, p, i) == FILE_CLOSED
    ensures Inv(Gone(s, p))
  {
    var t, row := Gone(s, p), s.procs[p].value;
    assert RowOk(row);
    forall k | 0 <= k < OPEN_MAX
      ensures SlotOk(t, k)
    {
      assert SlotOk(s, k);
      assert forall i :: 0 <= i < |row| ==> row[i] == Slot(s, p, i);
      CountNone(row, k);
      RefsUpdate(s.procs, p, None, k);
    }
  }

  // Offsets

  function Moved(s: State, k: nat, os: int): State
    requires k < |s.files| && s.files[k].Some?
  {
    s.(files := s.files[k := Some(s.files[k].value.(os := os))])
  }

  lemma MoveKeepsInv(s: State, k: nat, os: int)
    requires Inv(s) && k < OPEN_MAX && s.files[k].Some? && os >= 0
    ensures Inv(Moved(s, k, os))
  {
    hide Refs, Vnodes, RowOk;
    var t := Moved(s, k, os);
    assert VnodeOf(t.files[k]) == VnodeOf(s.files[k]);
    VnodesSame(s.files, k, t.files[k]);
    forall j | 0 <= j < OPEN_MAX
      ensures SlotOk(t, j)
    {
      assert SlotOk(s, j);
    }
  }

  // The operations

  /** The error returned and the state after, or a reference through an empty
      slot of the open file table. */
  datatype Outcome = Did(e: Errno, s: State) | Crash

  /** The lowest free descriptor from i on, else -1. */
  function FirstClosed(row: Row, i: nat): (r: int)
    requires i <= |row|
    ensures r == -1 ==> forall j :: i <= j < |row| ==> row[j] != FILE_CLOSED
    ensures r != -1 ==> i <= r < |row| && row[r] == FILE_CLOSED && forall j :: i <= j < r ==> row[j] != FILE_CLOSED
    decreases |row| - i
  {
    if i == |row| then -1 else if row[i] == FILE_CLOSED then i else FirstClosed(row, i + 1)
  }

  /** The lowest empty slot from i on, else -1. */
  function FirstEmpty(files: seq<Option<OpenFile>>, i: nat): (r: int)
    requires i <= |files|
    ensures r == -1 ==> forall j :: i <= j < |files| ==> files[j].Some?
    ensures r != -1 ==> i <= r < |files| && files[r].None? && forall j :: i <= j < r ==> files[j].Some?
    decreases |files| - i
  {
    if i == |files| then -1 else if files[i].None? then i else FirstEmpty(files, i + 1)
  }

  function OpenOp(s: State, p: Proc, found: Option<Vid>, am: nat, enough: bool): Outcome
    requires IsLive(s, p)
  {
    if found.None? then Did(Other, s)
    else
      var fd, k := FirstClosed(s.procs[p].value, 0), FirstEmpty(s.files, 0);
      if fd == -1 || k == -1 then Did(EMFILE, s)
      else if !enough then Did(ENOMEM, s)
      else Did(Success, Opened(s, p, fd, k, found.value, am))
  }

  function CloseOp(s: State, p: Proc, fd: int): Outcome
    requires IsLive(s, p)
  {
    if CanClose(s, p, fd) then Did(Success, Closed(s, p, fd)) else Did(EBADF, s)
  }

  function DupOp(s: State, p: Proc, oldfd: int, newfd: int): Outcome
    requires IsLive(s, p)
  {
    if !(0 <= oldfd < OPEN_MAX && 0 <= newfd < OPEN_MAX) then Did(EBADF, s)
    else if oldfd == newfd then Did(Success, s)
    else if Slot(s, p, oldfd) == FILE_CLOSED then Did(EBADF, s)
    else if !CanDup(s, p, oldfd, newfd) then Crash
    else Did(Success, Dupped(s, p, oldfd, newfd))
  }

  /** A read, or a write, for which the vnode moves that many bytes, or fails. */
  function TransferOp(s: State, p: Proc, fd: int, writing: bool, moved: Option<nat>): Outcome
    requires IsLive(s, p)
  {
    var k := Slot(s, p, fd);
    var f := FileAt(s, k);
    if f.None? || f.value.am % 4 == (if writing then 0 else 1) then Did(EBADF, s)
    else if moved.None? then Did(Other, s)
    else Did(Success, Moved(s, k, f.value.os + moved.value))
  }

  function LseekOp(s: State, p: Proc, fd: int, pos: int, whence: int, seekable: bool, size: Option<nat>): Outcome
    requires IsLive(s, p)
  {
    var k := Slot(s, p, fd);
    var f := FileAt(s, k);
    if fd < 0 || fd >= OPEN_MAX then Did(EBADF, s)
    else if whence < 0 || whence > 2 then Did(EINVAL, s)
    else if k == FILE_CLOSED then Did(EBADF, s)
    else if f.None? then Crash
    else if !seekable then Did(ESPIPE, s)
    else if whence == 2 && size.None? then Did(Other, s)
    else
      var npos := Target(s, p, fd, pos, whence, size);
      if npos < 0 then Did(EINVAL, s) else Did(Success, Moved(s, k, npos))
  }

  /** Where a seek leads: from the start, the offset, or the end of the file. */
  function Target(s: State, p: Proc, fd: int, pos: int, whence: int, size: Option<nat>): int
    requires IsLive(s, p)
  {
    var f := FileAt(s, Slot(s, p, fd));
    if whence == 1 && f.Some? then pos + f.value.os
    else if whence == 2 && size.Some? then pos + size.value
    else pos
  }

  /** One round of file_table_destroy(): entry i, or past the end of the table
      whatever the memory there holds. */
  function ExitRound(s: State, p: Proc, i: nat, past: int): Outcome
    requires IsLive(s, p)
  {
    if (if i < OPEN_MAX then Slot(s, p, i) else past) == FILE_CLOSED then Did(Success, s) else CloseOp(s, p, i)
  }

  /** What an operation may come to. */
  ghost predicate Safe(r: Outcome) {
    r.Did? && Inv(r.s)
  }

  lemma OpenSafe(s: State, p: Proc, found: Option<Vid>, am: nat, enough: bool)
    requires Inv(s) && IsLive(s, p)
    ensures Safe(OpenOp(s, p, found, am, enough))
  {
    Shapes(s, p);
    var fd, k := FirstClosed(s.procs[p].value, 0), FirstEmpty(s.files, 0);
    if fd != -1 && k != -1 && found.Some? {
      OpenKeepsInv(s, p, fd, k, found.value, am);
    }
  }

  lemma CloseSafe(s: State, p: Proc, fd: int)
    requires Inv(s) && IsLive(s, p)
    ensures Safe(CloseOp(s, p, fd))
    ensures CanClose(s, p, fd) <==> Slot(s, p, fd) != FILE_CLOSED
  {
    Shapes(s, p);
    if 0 <= fd < OPEN_MAX && Slot(s, p, fd) != FILE_CLOSED {
      CloseKeepsInv(s, p, fd);
    }
  }

  lemma DupSafe(s: State, p: Proc, oldfd: int, newfd: int)
    requires Inv(s) && IsLive(s, p)
    ensures Safe(DupOp(s, p, oldfd, newfd))
  {
    hide Inv, Dupped;
    if 0 <= oldfd < OPEN_MAX && 0 <= newfd < OPEN_MAX && oldfd != newfd && Slot(s, p, oldfd) != FILE_CLOSED {
      CanDupHere(s, p, oldfd, newfd);
      DupKeepsInv(s, p, oldfd, newfd);
    }
  }

  lemma TransferSafe(s: State, p: Proc, fd: int, writing: bool, moved: Option<nat>)
    requires Inv(s) && IsLive(s, p)
    ensures Safe(TransferOp(s, p, fd, writing, moved))
  {
    var k := Slot(s, p, fd);
    if FileAt(s, k).Some? && moved.Some? {
      assert SlotOk(s, k);
      MoveKeepsInv(s, k, s.files[k].value.os + moved.value);
    }
  }

  lemma LseekSafe(s: State, p: Proc, fd: int, pos: int, whence: int, seekable: bool, size: Option<nat>)
    requires Inv(s) && IsLive(s, p)
    ensures Safe(LseekOp(s, p, fd, pos, whence, seekable, size))
  {
    hide Inv, SlotOk;
    Shapes(s, p);
    var k := Slot(s, p, fd);
    if k != FILE_CLOSED {
      NoDangling(s, p, fd);
      var npos := Target(s, p, fd, pos, whence, size);
      if npos >= 0 {
        MoveKeepsInv(s, k, npos);
      }
    }
  }

  /** The rounds past the end of the table come to nothing, and the others
      close their descriptor. */
  lemma ExitRoundSafe(s: State, p: Proc, i: nat, past: int)
    requires Inv(s) && IsLive(s, p)
    ensures |s.procs[p].value| == OPEN_MAX
    ensures
      var r := ExitRound(s, p, i, past);
      && Safe(r) && r.s.lost == s.lost
      && r.s.procs == (if i < OPEN_MAX then s.procs[p := Some(s.procs[p].value[i := FILE_CLOSED])] else s.procs)
      && (i >= OPEN_MAX ==> r.s == s && r.e == if past == FILE_CLOSED then Success else EBADF)
  {
    hide Inv;
    Shapes(s, p);
    CloseSafe(s, p, i);
    if i < OPEN_MAX && Slot(s, p, i) == FILE_CLOSED {
      assert s.procs[p].value[i := FILE_CLOSED] == s.procs[p].value;
    }
  }

  /** The first index whose entry satisfies the search, or -1. */
  method FreeDescriptor(row: Row) returns (fd: int)
    requires |row| == OPEN_MAX
    ensures fd == -1 ==> forall i :: 0 <= i < OPEN_MAX ==> row[i] != FILE_CLOSED
    ensures fd != -1 ==> 0 <= fd < OPEN_MAX && row[fd] == FILE_CLOSED
    ensures fd != -1 ==> forall i :: 0 <= i < fd ==> row[i] != FILE_CLOSED
  {
    var i := 0;
    while i < OPEN_MAX
      invariant 0 <= i <= OPEN_MAX && forall j :: 0 <= j < i ==> row[j] != FILE_CLOSED
    {
      if row[i] == FILE_CLOSED {
        return i;
      }
      i := i + 1;
    }
    return -1;
  }

  method FreeSlot(files: seq<Option<OpenFile>>) returns (k: int)
    requires |files| == OPEN_MAX
    ensures k == -1 ==> forall i :: 0 <= i < OPEN_MAX ==> files[i].Some?
    ensures k != -1 ==> 0 <= k < OPEN_MAX && files[k].None? && forall i :: 0 <= i < k ==> files[i].Some?
  {
    var i := 0;
    while i < OPEN_MAX
      invariant 0 <= i <= OPEN_MAX && forall j :: 0 <= j < i ==> files[j].Some?
    {
      if files[i].None? {
        return i;
      }
      i := i + 1;
    }
    return -1;
  }

  lemma Shapes(s: State, p: Proc)
    requires Inv(s) && IsLive(s, p)
    ensures |s.files| == OPEN_MAX && |s.procs[p].value| == OPEN_MAX
  {
    assert RowOk(s.procs[p].value);
  }

  ghost predicate AllOpen(s: State, p: Proc)
    requires IsLive(s, p)
  {
    forall i :: 0 <= i < OPEN_MAX ==> Slot(s, p, i) != FILE_CLOSED
  }

  ghost predicate AllUsed(s: State) {
    forall k :: 0 <= k < |s.files| ==> s.files[k].Some?
  }

  /** fd and k are the lowest free descriptor and the lowest free slot. */
  ghost predicate Lowest(s: State, p: Proc, fd: int, k: int)
    requires IsLive(s, p)
  {
    && 0 <= fd < |s.procs[p].value| && Slot(s, p, fd) == FILE_CLOSED
    && (forall i :: 0 <= i < fd ==> Slot(s, p, i) != FILE_CLOSED)
    && 0 <= k < |s.files| && s.files[k].None? && forall i :: 0 <= i < k ==> s.files[i].Some?
  }

  class Files {
    var procs: seq<Option<Row>>
    var files: seq<Option<OpenFile>>
    ghost var lost: seq<int>
    ghost var vrefs: multiset<Vid>

    ghost function S(): State
      reads this
    {
      State(procs, files, lost, vrefs)
    }

    ghost predicate Valid()
      reads this
    {
      Inv(S())
    }

    constructor ()
      ensures Valid() && procs == [] && vrefs == multiset{}
    {
      procs, files := [], seq(OPEN_MAX, i => None);
      lost, vrefs := seq(OPEN_MAX, i => 0), multiset{};
      new;
      NoVnodes(files);
    }

    /** A process that runprogram() starts: an empty table. */
    method NewProcess() returns (p: Proc)
      requires Valid()
      modifies this
      ensures Valid() && p == |old(procs)| && S() == old(S()).(procs := old(procs) + [Some(Closes())])
    {
      NewProcessKeepsInv(S());
      hide Inv;
      p := |procs|;
      procs := procs + [Some(Closes())];
    }

    /** file_open(): the lowest free descriptor and slot; EMFILE exactly when
        one of them is missing. On failure the vnode reference is given back. */
    method Open(p: Proc, found: Option<Vid>, am: nat, enough: bool) returns (e: Errno, fd: int, ghost of: int)
      requires Valid() && IsLive(S(), p)
      modifies this
      ensures Valid()
      ensures e == if found.None? then Other
                   else if AllOpen(old(S()), p) || AllUsed(old(S())) then EMFILE
                   else if !enough then ENOMEM else Success
      ensures e != Success ==> S() == old(S())
      ensures e == Success ==>
                && Lowest(old(S()), p, fd, of) && lost == old(lost) && vrefs == old(vrefs) + multiset{found.value}
                && procs == old(procs)[p := Some(old(procs)[p].value[fd := of])]
                && files == old(files)[of := Some(OpenFile(found.value, am, 1, 0))]
      ensures OpenOp(old(S()), p, found, am, enough) == Did(e, S())
    {
      hide Inv;
      fd, of := -1, -1;
      if found.None? {
        return Other, -1, -1;
      }
      ghost var s := S();
      Shapes(s, p);
      var row := procs[p].value;
      fd := FreeDescriptor(row);
      var k := FreeSlot(files);
      assert fd != -1 ==> Slot(s, p, fd) == FILE_CLOSED;
      assert forall i :: 0 <= i < OPEN_MAX ==> row[i] == Slot(s, p, i);
      if fd == -1 || k == -1 {
        return EMFILE, -1, -1;
      }
      if !enough {
        return ENOMEM, -1, -1;
      }
      assert files[k].None?;
      assert Lowest(s, p, fd, k);
      OpenKeepsInv(s, p, fd, k, found.value, am);
      procs := procs[p := Some(row[fd := k])];
      files := files[k := Some(OpenFile(found.value, am, 1, 0))];
      vrefs := vrefs + multiset{found.value};
      e, of := Success, k;
    }

    /** file_close(). */
    method Close(p: Proc, fd: int) returns (e: Errno)
      requires Valid() && IsLive(S(), p)
      modifies this
      ensures Valid()
      ensures e == if Slot(old(S()), p, fd) == FILE_CLOSED then EBADF else Success
      ensures e != Success ==> S() == old(S())
      ensures e == Success ==>
                && CanClose(old(S()), p, fd) && lost == old(lost)
                && procs == old(procs)[p := Some(old(procs)[p].value[fd := FILE_CLOSED])]
                && Unreferred(old(files), files, old(vrefs), vrefs, old(procs)[p].value[fd])
      ensures CloseOp(old(S()), p, fd) == Did(e, S())
    {
      hide Inv, Vnodes;
      Shapes(S(), p);
      if fd < 0 || fd >= OPEN_MAX {
        return EBADF;
      }
      var k := procs[p].value[fd];
      if k == FILE_CLOSED {
        return EBADF;
      }
      CloseKeepsInv(S(), p, fd);
      hide Closed, Unreferred;
      DropEntry(p, fd, k);
      e := Success;
    }

    /** sys_dup2(): afterwards newfd names what oldfd names. */
    method Dup2(p: Proc, oldfd: int, newfd: int) returns (e: Errno)
      requires Valid() && IsLive(S(), p)
      modifies this
      ensures Valid()
      ensures e == if !(0 <= oldfd < OPEN_MAX && 0 <= newfd < OPEN_MAX) then EBADF
                   else if oldfd == newfd then Success
                   else if Slot(old(S()), p, oldfd) == FILE_CLOSED then EBADF else Success
      ensures e != Success || oldfd == newfd ==> S() == old(S())
      ensures e == Success && oldfd != newfd ==>
                && CanDup(old(S()), p, oldfd, newfd) && lost == old(lost)
                && procs == old(procs)[p := Some(old(procs)[p].value[newfd := Slot(old(S()), p, oldfd)])]
                && var k, m := Slot(old(S()), p, oldfd), Slot(old(S()), p, newfd);
                   var more := old(files)[k := Some(old(files)[k].value.(rc := old(files)[k].value.rc + 1))];
                   if m == FILE_CLOSED then files == more && vrefs == old(vrefs)
                   else Unreferred(more, files, old(vrefs), vrefs, m)
      ensures DupOp(old(S()), p, oldfd, newfd) == Did(e, S())
    {
      hide Inv, Vnodes;
      if oldfd < 0 || oldfd >= OPEN_MAX || newfd < 0 || newfd >= OPEN_MAX {
        return EBADF;
      }
      if oldfd == newfd {
        return Success;
      }
      Shapes(S(), p);
      var k := procs[p].value[oldfd];
      var m := procs[p].value[newfd];
      if k == FILE_CLOSED {
        return EBADF;
      }
      CanDupHere(S(), p, oldfd, newfd);
      DupKeepsInv(S(), p, oldfd, newfd);
      DupRows(S(), p, oldfd, newfd);
      var f := files[k].value;
      files := files[k := Some(f.(rc := f.rc + 1))];
      if m != FILE_CLOSED {
        DropEntry(p, newfd, m);
      }
      procs := procs[p := Some(procs[p].value[newfd := procs[p].value[oldfd]])];
      e := Success;
    }

    /** file_close() once it has found the file, under the lock. */
    method DropEntry(p: Proc, fd: nat, k: nat)
      requires CanClose(S(), p, fd) && procs[p].value[fd] == k
      modifies this
      ensures S() == Closed(old(S()), p, fd)
      ensures procs == old(procs)[p := Some(old(procs)[p].value[fd := FILE_CLOSED])]
      ensures lost == old(lost) && Unreferred(old(files), files, old(vrefs), vrefs, k)
    {
      var f := files[k].value;
      procs := procs[p := Some(procs[p].value[fd := FILE_CLOSED])];
      if f.rc == 1 {
        vrefs := vrefs - multiset{f.vn};
        files := files[k := None];
      } else {
        files := files[k := Some(f.(rc := f.rc - 1))];
      }
    }

    /** One round of the reference count loop of sys_fork(). */
    method ForkCount(c: Proc, i: nat, v: int)
      requires Valid() && IsLive(S(), c) && i < OPEN_MAX && Slot(S(), c, i) == FILE_CLOSED
      requires v == FILE_CLOSED || FileAt(S(), v).Some?
      modifies this
      ensures Valid() && i < |old(procs)[c].value| && S() == Counted(old(S()), c, i, v)
      ensures v == FILE_CLOSED ==> S() == old(S())
      ensures v != FILE_CLOSED ==>
                && 0 <= v < |old(files)| && old(files)[v].Some? && lost == old(lost) && vrefs == old(vrefs)
                && files == old(files)[v := Some(old(files)[v].value.(rc := old(files)[v].value.rc + 1))]
                && procs == old(procs)[c := Some(old(procs)[c].value[i := v])]
    {
      hide Inv, Vnodes;
      CountedKeepsInv(S(), c, i, v);
      if v != FILE_CLOSED {
        var f := files[v].value;
        files := files[v := Some(f.(rc := f.rc + 1))];
        procs := procs[c := Some(procs[c].value[i := v])];
      }
    }

    /** The table copy of sys_fork(), when nobody comes between its rounds. */
    method Fork(p: Proc) returns (child: Proc)
      requires Valid() && IsLive(S(), p)
      modifies this
      ensures Valid() && child == |old(procs)| && ForkResult(old(S()), S(), p)
    {
      hide Inv, Vnodes, ForkPart, Counted;
      ghost var s := S();
      Shapes(s, p);
      var row := procs[p].value;
      child := NewProcess();
      ForkStart(s, S(), p);
      var i := 0;
      while i < OPEN_MAX
        invariant 0 <= i <= OPEN_MAX && Valid() && ForkPart(s, S(), p, i)
      {
        ForkRound(s, S(), p, i);
        ForkCount(child, i, row[i]);
        i := i + 1;
      }
      ForkEnd(s, S(), p);
    }

    /** file_table_init() as exec calls it, up to its opens. */
    method ExecReset(p: Proc)
      requires Valid() && IsLive(S(), p)
      modifies this
      ensures Valid() && |old(lost)| == OPEN_MAX && S() == Reset(old(S()), p)
      ensures |procs| == |old(procs)| && procs[p].Some? && |procs[p].value| == OPEN_MAX
      ensures forall i :: 0 <= i < OPEN_MAX ==> procs[p].value[i] == FILE_CLOSED
      ensures forall q :: 0 <= q < |procs| && q != p ==> procs[q] == old(procs)[q]
      ensures files == old(files) && vrefs == old(vrefs)
      ensures |lost| == OPEN_MAX && forall k :: 0 <= k < OPEN_MAX ==> lost[k] == old(lost)[k] + Count(old(procs)[p].value, k)
    {
      hide Refs, Vnodes, RowOk;
      ResetKeepsInv(S(), p);
      ghost var was, row := lost, procs[p].value;
      lost := seq(OPEN_MAX, k requires 0 <= k < OPEN_MAX => was[k] + Count(row, k));
      procs := procs[p := Some(Closes())];
    }

    /** A process exits: every descriptor is closed, nothing is forgotten. The
        loop of file_table_destroy() runs past the end of the table, where it
        finds the given values. */
    method Exit(p: Proc, past: seq<int>)
      requires Valid() && IsLive(S(), p) && |past| == PID_MAX - OPEN_MAX
      modifies this
      ensures Valid() && |procs| == |old(procs)| && procs[p].None? && lost == old(lost)
      ensures forall q :: 0 <= q < |procs| && q != p ==> procs[q] == old(procs)[q]
    {
      hide Inv, Vnodes, Refs;
      Shapes(S(), p);
      var i := 0;
      while i < PID_MAX
        invariant 0 <= i <= PID_MAX && Valid() && IsLive(S(), p) && |procs| == |old(procs)| && lost == old(lost)
        invariant |procs[p].value| == OPEN_MAX
        invariant forall j :: 0 <= j < i && j < OPEN_MAX ==> procs[p].value[j] == FILE_CLOSED
        invariant forall q :: 0 <= q < |procs| && q != p ==> procs[q] == old(procs)[q]
      {
        ghost var s := S();
        var v := if i < OPEN_MAX then procs[p].value[i] else past[i - OPEN_MAX];
        ExitRoundSafe(s, p, i, v);
        if v != FILE_CLOSED {
          var _ := Close(p, i);
        }
        assert procs == ExitRound(s, p, i, v).s.procs;
        i := i + 1;
      }
      GoneKeepsInv(S(), p);
      procs := procs[p := None];
    }

    /** file_read() and file_write(), the vnode having moved n bytes. */
    method Transfer(p: Proc, fd: int, writing: bool, moved: Option<nat>) returns (e: Errno, sz: int)
      requires Valid() && IsLive(S(), p)
      modifies this
      ensures Valid()
      ensures e == EBADF <==> CannotMove(old(S()), p, fd, writing)
      ensures e != EBADF ==> e == if moved.None? then Other else Success
      ensures e != Success ==> S() == old(S())
      ensures e == Success ==>
                var k := Slot(old(S()), p, fd);
                && moved.Some? && sz == moved.value && 0 <= k < |old(files)| && old(files)[k].Some?
                && old(files)[k].value.am % 4 != (if writing then 0 else 1)
                && procs == old(procs) && lost == old(lost) && vrefs == old(vrefs)
                && files == old(files)[k := Some(old(files)[k].value.(os := old(files)[k].value.os + moved.value))]
      ensures TransferOp(old(S()), p, fd, writing, moved) == Did(e, S())
    {
      hide Inv, Vnodes;
      sz := 0;
      Shapes(S(), p);
      if fd < 0 || fd >= OPEN_MAX || procs[p].value[fd] == FILE_CLOSED {
        return EBADF, 0;
      }
      NoDangling(S(), p, fd);
      var k := procs[p].value[fd];
      var f := files[k].value;
      if f.am % 4 == (if writing then 0 else 1) {
        return EBADF, 0;
      }
      if moved.None? {
        return Other, 0;
      }
      OffsetOk(S(), k);
      MoveKeepsInv(S(), k, f.os + moved.value);
      files := files[k := Some(f.(os := f.os + moved.value))];
      return Success, moved.value;
    }

    /** sys_lseek(): a negative result is refused and changes nothing. */
    method Lseek(p: Proc, fd: int, pos: int, whence: int, seekable: bool, size: Option<nat>)
      returns (e: Errno, npos: int)
      requires Valid() && IsLive(S(), p)
      modifies this
      ensures Valid()
      ensures e == EBADF <==> !(0 <= fd < OPEN_MAX) || (0 <= whence <= 2 && Slot(old(S()), p, fd) == FILE_CLOSED)
      ensures e == ESPIPE <==> Slot(old(S()), p, fd) != FILE_CLOSED && 0 <= whence <= 2 && !seekable
      ensures e == Other <==> Slot(old(S()), p, fd) != FILE_CLOSED && seekable && whence == 2 && size.None?
      ensures e == EINVAL <==>
                && 0 <= fd < OPEN_MAX
                && (0 <= whence <= 2 ==>
                      && Slot(old(S()), p, fd) != FILE_CLOSED && seekable && (whence == 0 ==> pos < 0)
                      && (whence == 1 ==>
                            var f := FileAt(old(S()), Slot(old(S()), p, fd)); f.Some? && pos + f.value.os < 0)
                      && (whence == 2 ==> size.Some? && pos + size.value < 0))
      ensures e in {Success, EBADF, EINVAL, ESPIPE, Other}
      ensures e != Success ==> S() == old(S())
      ensures LseekOp(old(S()), p, fd, pos, whence, seekable, size) == Did(e, S())
      ensures e == Success ==>
                var k := Slot(old(S()), p, fd);
                && seekable && 0 <= whence <= 2 && 0 <= k < |old(files)| && old(files)[k].Some? && npos >= 0
                && (whence == 0 ==> npos == pos) && (whence == 1 ==> npos == pos + old(files)[k].value.os)
                && (whence == 2 ==> size.Some? && npos == pos + size.value)
                && procs == old(procs) && lost == old(lost) && vrefs == old(vrefs)
                && files == old(files)[k := Some(old(files)[k].value.(os := npos))]
    {
      hide Inv, Vnodes;
      npos := 0;
      Shapes(S(), p);
      if fd < 0 || fd >= OPEN_MAX {
        return EBADF, 0;
      }
      if whence < 0 || whence > 2 {
        return EINVAL, 0;
      }
      if procs[p].value[fd] == FILE_CLOSED {
        return EBADF, 0;
      }
      NoDangling(S(), p, fd);
      var k := procs[p].value[fd];
      if !seekable {
        return ESPIPE, 0;
      }
      if whence == 2 && size.None? {
        return Other, 0;
      }
      var f := files[k].value;
      var base := if whence == 0 then 0 else if whence == 1 then f.os else size.value;
      if pos + base < 0 {
        return EINVAL, 0;
      }
      MoveKeepsInv(S(), k, pos + base);
      files := files[k := Some(f.(os := pos + base))];
      return Success, pos + base;
    }
  }

  lemma NewProcessKeepsInv(s: State)
    requires Inv(s)
    ensures Inv(s.(procs := s.procs + [Some(Closes())]))
  {
    hide Refs, Vnodes;
    var t := s.(procs := s.procs + [Some(Closes())]);
    forall k | 0 <= k < OPEN_MAX
      ensures SlotOk(t, k)
    {
      assert SlotOk(s, k);
      CountNone(Closes(), k);
      RefsAppend(s.procs, Some(Closes()), k);
    }
  }

  /** Slot k has lost a reference: the last one empties it and gives the vnode
      back; vnode, mode and offset of a file that stays open are kept. */
  predicate Unreferred(files: seq<Option<OpenFile>>, files': seq<Option<OpenFile>>,
                       vrefs: multiset<Vid>, vrefs': multiset<Vid>, k: int)
  {
    && 0 <= k < |files| && files[k].Some?
    && var f := files[k].value;
       if f.rc == 1 then files' == files[k := None] && vrefs' == vrefs - multiset{f.vn}
       else files' == files[k := Some(f.(rc := f.rc - 1))] && vrefs' == vrefs
  }

  /** The descriptor is closed, or open for the other direction only. */
  predicate CannotMove(s: State, p: Proc, fd: int, writing: bool)
    requires IsLive(s, p)
  {
    var f := FileAt(s, Slot(s, p, fd));
    Slot(s, p, fd) == FILE_CLOSED || (f.Some? && f.value.am % 4 == if writing then 0 else 1)
  }

  predicate CanClose(s: State, p: Proc, fd: int) {
    && IsLive(s, p) && 0 <= fd < |s.procs[p].value| && 0 <= s.procs[p].value[fd] < |s.files|
    && s.files[s.procs[p].value[fd]].Some?
  }

  lemma OffsetOk(s: State, k: nat)
    requires Inv(s) && k < OPEN_MAX && s.files[k].Some?
    ensures s.files[k].value.os >= 0
  {
    assert SlotOk(s, k);
  }

  lemma {:induction false} NoVnodes(files: seq<Option<OpenFile>>)
    requires forall k :: 0 <= k < |files| ==> files[k].None?
    ensures Vnodes(files) == multiset{}
  {
    if files != [] {
      NoVnodes(files[..|files| - 1]);
    }
  }
}
