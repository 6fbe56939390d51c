/** thread_consider_migration() of kern/thread/thread.c run without
    interference: the run queues of all CPUs, one of which gives threads away
    until it is left with its share. */
module Migration {
  import opened Arith

  type Tid = int
  type Queue = seq<Tid>

  function Max(a: int, b: int): int {
    if a > b then a else b
  }

  function Total(qs: seq<Queue>): nat {
    if qs == [] then 0 else Total(qs[..|qs| - 1]) + |qs[|qs| - 1]|
  }

  /** How often a thread stands on a queue, and on all of them. */
  function Times(q: Queue, t: Tid): nat {
    if q == [] then 0 else Times(q[..|q| - 1], t) + if q[|q| - 1] == t then 1 else 0
  }

  function TimesAll(qs: seq<Queue>, t: Tid): nat {
    if qs == [] then 0 else TimesAll(qs[..|qs| - 1], t) + Times(qs[|qs| - 1], t)
  }

  lemma {:induction false} TimesConcat(a: Queue, b: Queue, t: Tid)
    ensures Times(a + b, t) == Times(a, t) + Times(b, t)
  {
    if b == [] {
      assert a + b == a;
    } else {
      var n := |b| - 1;
      TimesConcat(a, b[..n], t);
      assert (a + b)[..|a + b| - 1] == a + b[..n];
    }
  }

  lemma {:induction false} TimesUpdate(qs: seq<Queue>, i: nat, q: Queue, t: Tid)
    requires i < |qs|
    ensures TimesAll(qs[i := q], t) == TimesAll(qs, t) - Times(qs[i], t) + Times(q, t)
  {
    hide Times;
    var n := |qs| - 1;
    if i < n {
      TimesUpdate(qs[..n], i, q, t);
      assert qs[i := q][..n] == qs[..n][i := q];
    } else {
      assert qs[i := q][..n] == qs[..n];
    }
  }

  lemma {:induction false} TotalUpdate(qs: seq<Queue>, i: nat, q: Queue)
    requires i < |qs|
    ensures Total(qs[i := q]) == Total(qs) - |qs[i]| + |q|
  {
    var n := |qs| - 1;
    if i < n {
      TotalUpdate(qs[..n], i, q);
      assert qs[i := q][..n] == qs[..n][i := q];
    } else {
      assert qs[i := q][..n] == qs[..n];
    }
  }

  /** If every queue is at least that long, so is the average. */
  lemma {:induction false} TotalAtLeast(qs: seq<Queue>, share: nat)
    requires forall j :: 0 <= j < |qs| ==> |qs[j]| >= share
    ensures Total(qs) >= |qs| * share
  {
    if qs != [] {
      var n := |qs| - 1;
      TotalAtLeast(qs[..n], share);
      MulAdd(n, 1, share);
    }
  }

  // The share

  /** The average, rounded up. */
  ghost predicate IsShare(total: nat, n: nat, share: nat) {
    n * (share - 1) < total <= n * share
  }

  /** DIVROUNDUP. */
  function Share(total: nat, n: nat): nat
    requires n > 0
  {
    DivNonneg(total + n - 1, n);
    (total + n - 1) / n
  }

  lemma ShareIsShare(total: nat, n: nat)
    requires n > 0
    ensures IsShare(total, n, Share(total, n))
  {
    var s, x: int := Share(total, n), total + n - 1;
    assert x == n * s + x % n;
    MulAdd(s, -1, n);
  }

  lemma ShareUnique(total: nat, n: nat, a: nat, b: nat)
    requires IsShare(total, n, a) && IsShare(total, n, b)
    ensures a == b
  {
    if a < b {
      MulLe(a, b - 1, n);
    } else if b < a {
      MulLe(b, a - 1, n);
    }
  }

  // Leaving out the current thread

  /** The threads of a list that are not cur, and those that are. */
  function Others(v: Queue, cur: Tid): Queue {
    if v == [] then []
    else Others(v[..|v| - 1], cur) + if v[|v| - 1] == cur then [] else [v[|v| - 1]]
  }

  function Only(v: Queue, cur: Tid): Queue {
    if v == [] then []
    else Only(v[..|v| - 1], cur) + if v[|v| - 1] == cur then [cur] else []
  }

  lemma OthersSnoc(v: Queue, x: Tid, cur: Tid)
    ensures Others(v + [x], cur) == Others(v, cur) + if x == cur then [] else [x]
    ensures Only(v + [x], cur) == Only(v, cur) + if x == cur then [cur] else []
  {
    assert (v + [x])[..|v|] == v;
  }

  lemma {:induction false} OthersAndOnly(v: Queue, cur: Tid)
    ensures |Others(v, cur)| + |Only(v, cur)| == |v|
    ensures cur !in Others(v, cur) && forall i :: 0 <= i < |Only(v, cur)| ==> Only(v, cur)[i] == cur
  {
    if v != [] {
      OthersAndOnly(v[..|v| - 1], cur);
    }
  }

  lemma {:induction false} OthersPlusOnly(v: Queue, cur: Tid, t: Tid)
    ensures Times(Others(v, cur), t) + Times(Only(v, cur), t) == Times(v, t)
  {
    if v != [] {
      var n := |v| - 1;
      var w, x := v[..n], v[n];
      OthersPlusOnly(w, cur, t);
      assert v == w + [x];
      OthersSnoc(w, x, cur);
      TimesConcat(w, [x], t);
      TimesConcat(Others(w, cur), if x == cur then [] else [x], t);
      TimesConcat(Only(w, cur), if x == cur then [cur] else [], t);
      assert Times([], t) == 0;
      hide Others, Only, Times;
    }
  }

  /** A list without cur is left whole. */
  lemma {:induction false} NoCur(v: Queue, cur: Tid)
    requires cur !in v
    ensures Others(v, cur) == v && Only(v, cur) == []
  {
    if v != [] {
      hide Others, Only;
      var n := |v| - 1;
      var x, y := v[..n], v[n];
      assert v == x + [y] && y != cur;
      NoCur(x, cur);
      OthersSnoc(x, y, cur);
    }
  }

  lemma OneMore(v: Queue, k: nat, cur: Tid)
    requires k < |v|
    ensures Others(v[..k + 1], cur) == Others(v[..k], cur) + if v[k] == cur then [] else [v[k]]
    ensures Only(v[..k + 1], cur) == Only(v[..k], cur) + if v[k] == cur then [cur] else []
  {
    assert v[..k + 1][..k] == v[..k];
  }

  // The loops

  method CountAll(qs: seq<Queue>, me: nat) returns (mine: nat, total: nat)
    requires me < |qs|
    ensures mine == |qs[me]| && total == Total(qs)
  {
    mine, total := 0, 0;
    var i := 0;
    while i < |qs|
      invariant i <= |qs| && total == Total(qs[..i]) && (i > me ==> mine == |qs[me]|)
    {
      assert qs[..i + 1][..i] == qs[..i];
      total := total + |qs[i]|;
      if i == me {
        mine := |qs[i]|;
      }
      i := i + 1;
    }
    assert qs[..i] == qs;
  }

  /** Threads taken from the tail of the queue, kept in order. */
  method Grab(q: Queue, n: nat) returns (rest: Queue, victims: Queue)
    requires n <= |q|
    ensures rest == q[..|q| - n] && victims == q[|q| - n..]
  {
    rest, victims := q, [];
    var i := 0;
    while i < n
      invariant i <= n && rest == q[..|q| - i] && victims == q[|q| - i..]
    {
      var t := rest[|rest| - 1];
      rest := rest[..|rest| - 1];
      victims := [t] + victims;
      i := i + 1;
    }
  }

  /** k victims have been dealt with, in order: cur went to the end of the
      victims, the others to the end of the queue. */
  ghost predicate Dealt(q: Queue, q': Queue, victims: Queue, victims': Queue, k: nat, cur: Tid) {
    && k <= |victims| && q' == q + Others(victims[..k], cur)
    && victims' == victims[k..] + Only(victims[..k], cur)
  }

  /** The inner loop: one queue is filled up to the share, as long as there
      are threads to send. */
  method FillOne(q: Queue, victims: Queue, send: nat, share: nat, cur: Tid)
    returns (q': Queue, victims': Queue, send': nat)
    requires send <= |victims|
    ensures send' <= send && Dealt(q, q', victims, victims', send - send', cur)
    ensures |q'| <= Max(|q|, share) && (send' == 0 || |q'| >= share)
  {
    hide Others, Only;
    q', victims', send' := q, victims, send;
    DealtNone(q, victims, cur);
    while |q'| < share && send' > 0
      invariant send' <= send && Dealt(q, q', victims, victims', send - send', cur) && |q'| <= Max(|q|, share)
      decreases send'
    {
      DealtOne(q, q', victims, victims', send - send', cur);
      var t := victims'[0];
      victims' := victims'[1..];
      send' := send' - 1;
      if t == cur {
        victims' := victims' + [t];
      } else {
        q' := q' + [t];
      }
    }
  }

  lemma DealtNone(q: Queue, victims: Queue, cur: Tid)
    ensures Dealt(q, q, victims, victims, 0, cur)
  {
    assert victims[..0] == [] && victims[0..] == victims;
  }

  lemma DealtOne(q: Queue, q': Queue, victims: Queue, victims': Queue, k: nat, cur: Tid)
    requires Dealt(q, q', victims, victims', k, cur) && k < |victims|
    ensures victims' != []
    ensures
      var t := victims'[0];
      Dealt(q, if t == cur then q' else q' + [t], victims, if t == cur then victims'[1..] + [t] else victims'[1..], k + 1, cur)
  {
    OneMore(victims, k, cur);
    hide Others, Only;
    var t := victims'[0];
    assert t == victims[k] && victims[k..] == [t] + victims[k + 1..];
    assert victims'[1..] == victims[k + 1..] + Only(victims[..k], cur);
  }

  /** What the queues before CPU i, other than me, have got, in order. */
  function Added(qs: seq<Queue>, qs': seq<Queue>, me: nat, i: nat): Queue
    requires i <= |qs| == |qs'| && forall j :: 0 <= j < |qs| ==> |qs[j]| <= |qs'[j]|
  {
    if i == 0 then []
    else Added(qs, qs', me, i - 1) + if i - 1 == me then [] else qs'[i - 1][|qs[i - 1]|..]
  }

  /** Other queues have grown at their ends, to no more than the share, and
      each is full before a later one gets any. */
  ghost predicate Grown(qs: seq<Queue>, qs': seq<Queue>, me: nat, share: nat) {
    && |qs'| == |qs|
    && (forall j :: 0 <= j < |qs| ==> qs[j] <= qs'[j] && |qs'[j]| <= Max(|qs[j]|, share))
    && (forall j, k :: 0 <= j < k < |qs| && j != me && k != me && qs'[k] != qs[k] ==> |qs'[j]| >= share)
  }

  /** The state of the distribution before CPU i, with k victims dealt with. */
  ghost predicate Spreading(qs: seq<Queue>, qs': seq<Queue>, victims: Queue, victims': Queue, k: nat,
                            me: nat, share: nat, cur: Tid, i: nat)
  {
    && i <= |qs| && me < |qs| && k <= |victims| && |qs[me]| <= share
    && Grown(qs, qs', me, share) && qs'[me] == qs[me] && (forall j :: i <= j < |qs| ==> qs'[j] == qs[j])
    && Added(qs, qs', me, i) == Others(victims[..k], cur)
    && victims' == victims[k..] + Only(victims[..k], cur)
    && (k < |victims| ==> forall j :: 0 <= j < i && j != me ==> |qs'[j]| >= share)
  }

  lemma SpreadStart(qs: seq<Queue>, victims: Queue, me: nat, share: nat, cur: Tid)
    requires me < |qs| && |qs[me]| <= share
    ensures Spreading(qs, qs, victims, victims, 0, me, share, cur, 0)
  {
    assert victims[..0] == [] && victims[0..] == victims;
  }

  lemma SpreadSkip(qs: seq<Queue>, qs': seq<Queue>, victims: Queue, victims': Queue, k: nat,
                   me: nat, share: nat, cur: Tid)
    requires Spreading(qs, qs', victims, victims', k, me, share, cur, me)
    ensures Spreading(qs, qs', victims, victims', k, me, share, cur, me + 1)
  {
    assert Added(qs, qs', me, me + 1) == Added(qs, qs', me, me);
    hide Others, Only, Added;
  }

  lemma {:induction false} AddedFrame(qs: seq<Queue>, qs': seq<Queue>, qs'': seq<Queue>, me: nat, i: nat)
    requires i <= |qs| == |qs'| == |qs''|
    requires forall j :: 0 <= j < |qs| ==> |qs[j]| <= |qs'[j]| && |qs[j]| <= |qs''[j]|
    requires forall j :: 0 <= j < i && j != me ==> qs'[j] == qs''[j]
    ensures Added(qs, qs', me, i) == Added(qs, qs'', me, i)
  {
    if i > 0 {
      AddedFrame(qs, qs', qs'', me, i - 1);
    }
  }

  /** Dealing with m more victims on top of k. */
  lemma DealtAfter(v: Queue, v': Queue, k: nat, m: nat, cur: Tid)
    requires k + m <= |v| && v' == v[k..] + Only(v[..k], cur)
    ensures Others(v[..k], cur) + Others(v'[..m], cur) == Others(v[..k + m], cur)
    ensures v'[m..] + Only(v'[..m], cur) == v[k + m..] + Only(v[..k + m], cur)
  {
    assert v'[..m] == v[k..k + m] && v'[m..] == v[k + m..] + Only(v[..k], cur);
    OthersConcat(v[..k], v[k..k + m], cur);
    assert v[..k] + v[k..k + m] == v[..k + m];
  }

  lemma Regroup(a: Queue, b: Queue, c: Queue)
    ensures (a + b) + c == a + (b + c)
  {
  }

  lemma {:induction false} OthersConcat(a: Queue, b: Queue, cur: Tid)
    ensures Others(a + b, cur) == Others(a, cur) + Others(b, cur)
    ensures Only(a + b, cur) == Only(a, cur) + Only(b, cur)
  {
    if b == [] {
      assert a + b == a;
    } else {
      hide Others, Only;
      var n := |b| - 1;
      var x, y := b[..n], b[n];
      assert a + b == a + x + [y] && b == x + [y];
      OthersConcat(a, x, cur);
      OthersSnoc(a + x, y, cur);
      OthersSnoc(x, y, cur);
      Regroup(Others(a, cur), Others(x, cur), if y == cur then [] else [y]);
      Regroup(Only(a, cur), Only(x, cur), if y == cur then [cur] else []);
    }
  }

  lemma SpreadStep(qs: seq<Queue>, qs': seq<Queue>, victims: Queue, victims': Queue, k: nat,
                   me: nat, share: nat, cur: Tid, i: nat, q: Queue, v: Queue, m: nat)
    requires Spreading(qs, qs', victims, victims', k, me, share, cur, i) && i < |qs| && i != me
    requires k < |victims| && k + m <= |victims| && Dealt(qs'[i], q, victims', v, m, cur)
    requires |q| <= Max(|qs'[i]|, share) && (k + m == |victims| || |q| >= share)
    ensures Spreading(qs, qs'[i := q], victims, v, k + m, me, share, cur, i + 1)
  {
    DealtAfter(victims, victims', k, m, cur);
    var u := qs'[i := q];
    AddedFrame(qs, qs', u, me, i);
    assert Added(qs, u, me, i + 1) == Added(qs, u, me, i) + q[|qs[i]|..];
    hide Others, Only, Added;
    assert q[|qs[i]|..] == Others(victims'[..m], cur);
    assert Grown(qs, u, me, share);
  }

  /** The loop over the CPUs. */
  method Spread(qs: seq<Queue>, victims: Queue, me: nat, share: nat, cur: Tid)
    returns (qs': seq<Queue>, victims': Queue, send: nat, ghost i': nat)
    requires me < |qs| && |qs[me]| <= share
    ensures send <= |victims| && Spreading(qs, qs', victims, victims', |victims| - send, me, share, cur, i')
    ensures i' == |qs| || send == 0
  {
    hide Spreading, Dealt;
    qs', victims', send := qs, victims, |victims|;
    SpreadStart(qs, victims, me, share, cur);
    var i := 0;
    while i < |qs| && send > 0
      invariant i <= |qs| && |qs'| == |qs| && send <= |victims| && send <= |victims'|
      invariant Spreading(qs, qs', victims, victims', |victims| - send, me, share, cur, i)
    {
      if i == me {
        SpreadSkip(qs, qs', victims, victims', |victims| - send, me, share, cur);
      } else {
        var q, v, n := FillOne(qs'[i], victims', send, share, cur);
        SpreadStep(qs, qs', victims, victims', |victims| - send, me, share, cur, i, q, v, send - n);
        qs', victims', send := qs'[i := q], v, n;
        SpreadShape(qs, qs', victims, victims', |victims| - send, me, share, cur, i + 1);
      }
      i := i + 1;
    }
    i' := i;
  }

  lemma SpreadShape(qs: seq<Queue>, qs': seq<Queue>, victims: Queue, victims': Queue, k: nat,
                    me: nat, share: nat, cur: Tid, i: nat)
    requires Spreading(qs, qs', victims, victims', k, me, share, cur, i)
    ensures |qs'| == |qs| && me < |qs| && |victims| - k <= |victims'|
  {
  }

  method PutBack(q: Queue, victims: Queue) returns (q': Queue)
    ensures q' == q + victims
  {
    q' := q;
    var v := victims;
    while v != []
      invariant q + victims == q' + v
      decreases |v|
    {
      assert v == [v[0]] + v[1..];
      q', v := q' + [v[0]], v[1..];
    }
  }

  /** What migration from CPU me does to the queues: below its share it keeps
      all; otherwise it keeps that many, and cur if it is further back, and
      the rest goes to the ends of the other queues in order. */
  ghost predicate Migrated(qs: seq<Queue>, qs': seq<Queue>, me: nat, share: nat, cur: Tid)
    requires me < |qs|
  {
    if |qs[me]| < share then qs' == qs
    else
      var kept, victims := qs[me][..share], qs[me][share..];
      && |qs'| == |qs| && qs'[me] == kept + Only(victims, cur)
      && Grown(qs[me := kept], qs'[me := kept], me, share)
      && Added(qs[me := kept], qs'[me := kept], me, |qs|) == Others(victims, cur)
  }

  class RunQueues {
    var queues: seq<Queue>

    /** thread_consider_migration(). */
    method ConsiderMigration(me: nat, cur: Tid)
      requires me < |queues|
      modifies this
      ensures exists share: nat ::
                IsShare(Total(old(queues)), |old(queues)|, share) && Migrated(old(queues), queues, me, share, cur)
      ensures |queues| == |old(queues)| && forall t :: TimesAll(queues, t) == TimesAll(old(queues), t)
    {
      hide Migrated, Spreading, IsShare;
      ghost var start := queues;
      var mine, total := CountAll(queues, me);
      var share := Share(total, |queues|);
      ShareIsShare(total, |queues|);
      if mine < share {
        TooFew(queues, me, share, cur);
        return;
      }
      var rest, victims := Grab(queues[me], mine - share);
      ghost var before := queues[me := rest];
      var qs, left, send;
      ghost var i;
      qs, left, send, i := Spread(queues[me := rest], victims, me, share, cur);
      SpreadShape(before, qs, victims, left, |victims| - send, me, share, cur, i);
      var q := PutBack(qs[me], left);
      queues := qs[me := q];
      Finished(start, me, share, cur, qs, left, send, i);
      KeepsThreads(start, queues, me, share, cur);
    }
  }

  lemma TooFew(qs: seq<Queue>, me: nat, share: nat, cur: Tid)
    requires me < |qs| && |qs[me]| < share
    ensures Migrated(qs, qs, me, share, cur)
  {
  }

  /** Rounding up leaves room elsewhere for all that is to be sent: when every
      other queue is full, nothing is left. */
  lemma NothingLeft(qs: seq<Queue>, me: nat, share: nat, cur: Tid, qs': seq<Queue>, left: Queue, send: nat, i: nat)
    requires me < |qs| && share <= |qs[me]| && IsShare(Total(qs), |qs|, share) && send <= |qs[me]| - share
    requires Spreading(qs[me := qs[me][..share]], qs', qs[me][share..], left, |qs[me]| - share - send, me, share, cur, i)
    requires i == |qs| || send == 0
    ensures send == 0
  {
    hide Total, Others, Only, Added;
    var kept, victims := qs[me][..share], qs[me][share..];
    var before, k := qs[me := kept], |victims| - send;
    TotalUpdate(qs, me, kept);
    if send > 0 {
      AddedTotal(before, qs', me, |qs|);
      assert before[..|qs|] == before && qs'[..|qs|] == qs';
      OthersAndOnly(victims[..k], cur);
      assert Total(qs') < Total(qs);
      assert forall j :: 0 <= j < |qs'| ==> |qs'[j]| >= share;
      TotalAtLeast(qs', share);
    }
  }

  lemma {:induction false} AddedTotal(qs: seq<Queue>, qs': seq<Queue>, me: nat, i: nat)
    requires i <= |qs| == |qs'| && me < |qs| && qs'[me] == qs[me] && forall j :: 0 <= j < |qs| ==> |qs[j]| <= |qs'[j]|
    ensures Total(qs'[..i]) == Total(qs[..i]) + |Added(qs, qs', me, i)|
  {
    if i > 0 {
      AddedTotal(qs, qs', me, i - 1);
      assert qs[..i][..i - 1] == qs[..i - 1] && qs'[..i][..i - 1] == qs'[..i - 1];
    }
  }

  lemma TimesAllStep(qs: seq<Queue>, i: nat, t: Tid)
    requires 0 < i <= |qs|
    ensures TimesAll(qs[..i], t) == TimesAll(qs[..i - 1], t) + Times(qs[i - 1], t)
  {
    assert qs[..i][..i - 1] == qs[..i - 1];
  }

  lemma AddedStep(qs: seq<Queue>, qs': seq<Queue>, me: nat, i: nat)
    requires 0 < i <= |qs| == |qs'| && me < |qs| && qs'[me] == qs[me] && forall j :: 0 <= j < |qs| ==> qs[j] <= qs'[j]
    ensures
      var more := qs'[i - 1][|qs[i - 1]|..];
      && qs'[i - 1] == qs[i - 1] + more
      && Added(qs, qs', me, i) == Added(qs, qs', me, i - 1) + more
  {
    var q, q' := qs[i - 1], qs'[i - 1];
    assert q <= q';
    assert q' == q + q'[|q|..];
  }

  lemma {:induction false} AddedTimes(qs: seq<Queue>, qs': seq<Queue>, me: nat, i: nat, t: Tid)
    requires i <= |qs| == |qs'| && me < |qs| && qs'[me] == qs[me] && forall j :: 0 <= j < |qs| ==> qs[j] <= qs'[j]
    ensures TimesAll(qs'[..i], t) == TimesAll(qs[..i], t) + Times(Added(qs, qs', me, i), t)
  {
    if i > 0 {
      hide Times, TimesAll, Added;
      AddedTimes(qs, qs', me, i - 1, t);
      AddedStep(qs, qs', me, i);
      TimesAllStep(qs, i, t);
      TimesAllStep(qs', i, t);
      var more := qs'[i - 1][|qs[i - 1]|..];
      TimesConcat(qs[i - 1], more, t);
      TimesConcat(Added(qs, qs', me, i - 1), more, t);
    }
  }

  lemma Finished(qs: seq<Queue>, me: nat, share: nat, cur: Tid, qs': seq<Queue>, left: Queue, send: nat, i: nat)
    requires me < |qs| && share <= |qs[me]| && IsShare(Total(qs), |qs|, share) && send <= |qs[me]| - share
    requires Spreading(qs[me := qs[me][..share]], qs', qs[me][share..], left, |qs[me]| - share - send, me, share, cur, i)
    requires i == |qs| || send == 0
    ensures |qs'| == |qs| && Migrated(qs, qs'[me := qs'[me] + left], me, share, cur)
  {
    var kept, victims := qs[me][..share], qs[me][share..];
    NothingLeft(qs, me, share, cur, qs', left, send, i);
    var before, after := qs[me := kept], qs'[me := qs'[me] + left];
    assert victims[..|victims|] == victims;
    assert after[me := kept] == qs';
    AddedRest(before, qs', me, i);
    hide Total, Others, Only, Added;
    assert left == Only(victims, cur);
  }

  lemma {:induction false} AddedRest(qs: seq<Queue>, qs': seq<Queue>, me: nat, i: nat)
    requires i <= |qs| == |qs'| && (forall j :: 0 <= j < |qs| ==> |qs[j]| <= |qs'[j]|)
    requires forall j :: i <= j < |qs| ==> qs'[j] == qs[j]
    ensures Added(qs, qs', me, |qs|) == Added(qs, qs', me, i)
    decreases |qs| - i
  {
    if i < |qs| {
      AddedRest(qs, qs', me, i + 1);
      assert qs'[i][|qs[i]|..] == [];
    }
  }

  /** No thread is lost or made up. */
  lemma KeepsThreads(qs: seq<Queue>, qs': seq<Queue>, me: nat, share: nat, cur: Tid)
    requires me < |qs| && Migrated(qs, qs', me, share, cur)
    ensures |qs'| == |qs| && forall t :: TimesAll(qs', t) == TimesAll(qs, t)
  {
    hide TimesAll, Times, Others, Only, Added;
    if |qs[me]| >= share {
      var kept, victims := qs[me][..share], qs[me][share..];
      assert qs[me] == kept + victims;
      forall t
        ensures TimesAll(qs', t) == TimesAll(qs, t)
      {
        KeepsThread(qs, qs', qs[me := kept], qs'[me := kept], me, kept, victims, cur, t);
      }
    }
  }

  lemma KeepsThread(qs: seq<Queue>, qs': seq<Queue>, a: seq<Queue>, b: seq<Queue>, me: nat,
                    kept: Queue, victims: Queue, cur: Tid, t: Tid)
    requires me < |qs| == |qs'| && qs[me] == kept + victims && qs'[me] == kept + Only(victims, cur)
    requires a == qs[me := kept] && b == qs'[me := kept] && forall j :: 0 <= j < |a| ==> a[j] <= b[j]
    requires Added(a, b, me, |a|) == Others(victims, cur)
    ensures TimesAll(qs', t) == TimesAll(qs, t)
  {
    hide TimesAll, Times, Others, Only, Added;
    AddedTimes(a, b, me, |qs|, t);
    assert a[..|qs|] == a && b[..|qs|] == b;
    TimesUpdate(qs, me, kept, t);
    TimesUpdate(qs', me, kept, t);
    OthersPlusOnly(victims, cur, t);
    TimesConcat(kept, victims, t);
    TimesConcat(kept, Only(victims, cur), t);
  }

  /** So afterwards the CPU has exactly its share, unless cur is kept too; cur
      goes nowhere. */
  lemma KeepsShare(qs: seq<Queue>, qs': seq<Queue>, me: nat, share: nat, cur: Tid)
    requires me < |qs| && |qs[me]| >= share && Migrated(qs, qs', me, share, cur)
    ensures cur !in qs[me][share..] ==> qs'[me] == qs[me][..share]
    ensures cur in qs[me] ==> cur in qs'[me]
  {
    var q := qs[me];
    assert q == q[..share] + q[share..];
    KeepsCur(q[..share], q[share..], cur);
    hide Others, Only, Added, Grown;
  }

  lemma KeepsCur(kept: Queue, victims: Queue, cur: Tid)
    ensures cur !in victims ==> kept + Only(victims, cur) == kept
    ensures cur in kept + victims ==> cur in kept + Only(victims, cur)
  {
    if cur !in victims {
      NoCur(victims, cur);
    } else {
      HasCur(victims, cur);
    }
    hide Only;
  }

  lemma {:induction false} HasCur(v: Queue, cur: Tid)
    requires cur in v
    ensures cur in Only(v, cur)
  {
    var n := |v| - 1;
    OthersSnoc(v[..n], v[n], cur);
    assert v == v[..n] + [v[n]];
    if v[n] != cur {
      HasCur(v[..n], cur);
    }
    hide Only, Others;
  }
}
