/** The deadlock detector, kern/thread/hangman.c.

    An actor waits for at most one lockable and a lockable is held by at most
    one actor, so the waits-for graph has one edge out of every actor and the
    check is a walk along that edge. */
module Hangman {
  import opened Wrappers

  type Actor = nat
  type Lockable = nat

  /** The lockable of the detector's own spinlock, on which it must not recurse. */
  const SELF: Lockable := 0

  /** The a_waiting and l_holding fields of all actors and lockables. */
  datatype Graph = Graph(waiting: map<Actor, Lockable>, holding: map<Lockable, Actor>)

  function Holder(g: Graph, l: Lockable): Option<Actor> {
    if l in g.holding then Some(g.holding[l]) else None
  }

  /** The actor that the given one is waiting for. */
  function Next(g: Graph, a: Actor): Option<Actor> {
    if a in g.waiting then Holder(g, g.waiting[a]) else None
  }

  /** n edges along the waits-for graph. */
  ghost function Walk(g: Graph, o: Option<Actor>, n: nat): Option<Actor>
    decreases n
  {
    if n == 0 || o.None? then o else Walk(g, Next(g, o.value), n - 1)
  }

  ghost predicate Reaches(g: Graph, o: Option<Actor>, a: Actor) {
    exists n: nat :: Walk(g, o, n) == Some(a)
  }

  ghost predicate Acyclic(g: Graph) {
    forall a: Actor, n: nat :: n > 0 ==> Walk(g, Some(a), n) != Some(a)
  }

  /* ------------------------------------------------------------------ */

  lemma {:induction false} WalkAdd(g: Graph, o: Option<Actor>, m: nat, n: nat)
    ensures Walk(g, o, m + n) == Walk(g, Walk(g, o, m), n)
    decreases m
  {
    if m > 0 && o.Some? {
      WalkAdd(g, Next(g, o.value), m - 1, n);
    } else if o.None? {
      assert Walk(g, o, n) == None && Walk(g, o, m + n) == None;
    }
  }

  lemma WalkStep(g: Graph, o: Option<Actor>, n: nat)
    ensures var x := Walk(g, o, n);
            Walk(g, o, n + 1) == if x.Some? then Next(g, x.value) else None
  {
    WalkAdd(g, o, n, 1);
    var x := Walk(g, o, n);
    if x.Some? {
      assert Walk(g, x, 1) == Walk(g, Next(g, x.value), 0);
    }
  }

  /** A walk that ends somewhere was defined all along. */
  lemma WalkPrefix(g: Graph, o: Option<Actor>, i: nat, n: nat)
    requires i <= n && Walk(g, o, n).Some?
    ensures Walk(g, o, i).Some?
  {
    WalkAdd(g, o, i, n - i);
    if Walk(g, o, i).None? {
      assert Walk(g, None, n - i) == None;
    }
  }

  /** On an acyclic graph a walk never comes back to an actor it has left. */
  lemma WalkNeverRepeats(g: Graph, o: Option<Actor>, i: nat, k: nat)
    requires Acyclic(g) && i < k && Walk(g, o, k).Some?
    ensures Walk(g, o, i) != Walk(g, o, k)
  {
    WalkPrefix(g, o, i, k);
    WalkAdd(g, o, i, k - i);
    var x := Walk(g, o, i).value;
    assert Walk(g, Some(x), k - i) != Some(x);
  }

  /** Where two graphs agree up to a walk's end, the walks agree. */
  lemma {:induction false} SameWalk(g: Graph, h: Graph, o: Option<Actor>, n: nat)
    requires forall i: nat :: i < n && Walk(g, o, i).Some? ==> Next(h, Walk(g, o, i).value) == Next(g, Walk(g, o, i).value)
    ensures Walk(h, o, n) == Walk(g, o, n)
  {
    if n > 0 {
      SameWalk(g, h, o, n - 1);
      WalkStep(g, o, n - 1);
      WalkStep(h, o, n - 1);
    }
  }

  /* ------------------------------------------------------------------ */
  /* The three operations keep the graph acyclic                          */

  /** Removing edges, or redirecting them to an actor that waits for nothing,
      makes no cycle. */
  lemma NoNewCycle(g: Graph, h: Graph, a: Actor)
    requires Acyclic(g)
    requires forall x: Actor :: Next(h, x) == Next(g, x) || Next(h, x) == None
                             || (Next(h, x) == Some(a) && Next(h, a) == None)
    ensures Acyclic(h)
  {
    forall x: Actor, n: nat | n > 0
      ensures Walk(h, Some(x), n) != Some(x)
    {
      if Walk(h, Some(x), n) == Some(x) {
        forall i: nat | i < n && Walk(h, Some(x), i).Some?
          ensures Next(g, Walk(h, Some(x), i).value) == Next(h, Walk(h, Some(x), i).value)
        {
          WalkPrefix(h, Some(x), i + 1, n);
          WalkStep(h, Some(x), i);
          if i + 1 < n {
            WalkPrefix(h, Some(x), i + 2, n);
            WalkStep(h, Some(x), i + 1);
          } else {
            WalkPrefix(h, Some(x), 1, n);
            WalkStep(h, Some(x), 0);
          }
        }
        SameWalk(h, g, Some(x), n);
      }
    }
  }

  function Waits(g: Graph, a: Actor, l: Lockable): Graph {
    g.(waiting := g.waiting[a := l])
  }

  function Acquires(g: Graph, a: Actor, l: Lockable): Graph {
    Graph(g.waiting - {a}, g.holding[l := a])
  }

  function Releases(g: Graph, l: Lockable): Graph {
    g.(holding := g.holding - {l})
  }

  lemma AcquireKeepsAcyclic(g: Graph, a: Actor, l: Lockable)
    requires Acyclic(g) && l !in g.holding
    ensures Acyclic(Acquires(g, a, l))
  {
    NoNewCycle(g, Acquires(g, a, l), a);
  }

  lemma ReleaseKeepsAcyclic(g: Graph, l: Lockable)
    requires Acyclic(g)
    ensures Acyclic(Releases(g, l))
  {
    NoNewCycle(g, Releases(g, l), 0);
  }

  /** A walk to a in the extended graph gives one in the old graph: stop at the
      first visit. */
  lemma {:induction false} FirstVisit(g: Graph, a: Actor, l: Lockable, o: Option<Actor>, n: nat)
    requires a !in g.waiting && Walk(Waits(g, a, l), o, n) == Some(a)
    ensures Reaches(g, o, a)
    decreases n
  {
    if o == Some(a) {
      assert Walk(g, o, 0) == Some(a);
    } else {
      var o' := Next(g, o.value);
      FirstVisit(g, a, l, o', n - 1);
      var m: nat :| Walk(g, o', m) == Some(a);
      assert Walk(g, o, m + 1) == Some(a);
    }
  }

  /** Adding the edge a -> l closes a cycle exactly when l's holder already
      leads to a. */
  lemma WaitClosesCycle(g: Graph, a: Actor, l: Lockable)
    requires Acyclic(g) && a !in g.waiting
    ensures Acyclic(Waits(g, a, l)) <==> !Reaches(g, Holder(g, l), a)
  {
    var h := Waits(g, a, l);
    if Reaches(g, Holder(g, l), a) {
      var n: nat :| Walk(g, Holder(g, l), n) == Some(a);
      forall i: nat | i < n && Walk(g, Holder(g, l), i).Some?
        ensures Next(h, Walk(g, Holder(g, l), i).value) == Next(g, Walk(g, Holder(g, l), i).value)
      {
        WalkPrefix(g, Holder(g, l), i + 1, n);
        WalkStep(g, Holder(g, l), i);
      }
      SameWalk(g, h, Holder(g, l), n);
      assert Walk(h, Some(a), n + 1) == Some(a);
    } else {
      forall x: Actor, n: nat | n > 0
        ensures Walk(h, Some(x), n) != Some(x)
      {
        if Walk(h, Some(x), n) == Some(x) {
          CycleAvoids(g, a, l, x, n);
        }
      }
    }
  }

  lemma CycleAvoids(g: Graph, a: Actor, l: Lockable, x: Actor, n: nat)
    requires Acyclic(g) && a !in g.waiting && n > 0
    requires Walk(Waits(g, a, l), Some(x), n) == Some(x)
    ensures Reaches(g, Holder(g, l), a)
  {
    var h := Waits(g, a, l);
    if i: nat :| i < n && Walk(h, Some(x), i) == Some(a) {
      // rotate the cycle so that it starts at a
      WalkAdd(h, Some(x), i, n);
      WalkAdd(h, Some(x), n, i);
      assert Walk(h, Some(a), n) == Some(a);
      assert Walk(h, Holder(g, l), n - 1) == Some(a);
      FirstVisit(g, a, l, Holder(g, l), n - 1);
    } else {
      SameWalk(h, g, Some(x), n);
      assert false;
    }
  }

  /** Following the graph from any actor ends, on an acyclic graph, at an actor
      that waits for nothing or at a lockable nobody holds. */
  lemma WalkEnds(g: Graph, a: Actor) returns (n: nat, last: Actor)
    requires Acyclic(g)
    ensures Walk(g, Some(a), n) == Some(last) && Next(g, last) == None
  {
    n, last := 0, a;
    var seen: set<Actor> := {};
    while Next(g, last).Some?
      invariant Walk(g, Some(a), n) == Some(last)
      invariant seen <= g.waiting.Keys && last !in seen
      invariant forall x :: x in seen ==> exists i: nat :: i < n && Walk(g, Some(a), i) == Some(x)
      decreases g.waiting.Keys - seen
    {
      WalkStep(g, Some(a), n);
      var next := Next(g, last).value;
      forall x | x in seen + {last}
        ensures exists i: nat :: i < n + 1 && Walk(g, Some(a), i) == Some(x)
      {
      }
      if next in seen + {last} {
        var i: nat :| i < n + 1 && Walk(g, Some(a), i) == Some(next);
        WalkNeverRepeats(g, Some(a), i, n + 1);
        assert false;
      }
      seen := seen + {last};
      n, last := n + 1, next;
    }
  }

  /* ------------------------------------------------------------------ */

  datatype Verdict = Fine | AlreadyWaiting | Deadlock | NotWaitingForIt | StillHeld | WaitingForSomething | NotTheHolder

  class Detector {
    var waiting: map<Actor, Lockable>
    var holding: map<Lockable, Actor>

    function G(): Graph
      reads this
    {
      Graph(waiting, holding)
    }

    constructor ()
      ensures G() == Graph(map[], map[]) && Acyclic(G())
    {
      waiting, holding := map[], map[];
      new;
      assert forall a: Actor, n: nat :: n > 0 ==> Walk(G(), Some(a), n) == Walk(G(), None, n - 1);
    }

    /** hangman_check: walks from the holder of start; finds target exactly when
        the graph leads there.  The walk ends because the graph is acyclic. */
    method Check(start: Lockable, target: Actor) returns (found: bool)
      requires Acyclic(G())
      ensures found <==> Reaches(G(), Holder(G(), start), target)
    {
      ghost var g := G();
      ghost var first := Holder(g, start);
      var cur := if start in holding then Some(holding[start]) else None;
      ghost var k := 0;
      ghost var seen: set<Actor> := {};
      while cur.Some?
        invariant cur == Walk(g, first, k)
        invariant forall i: nat :: i < k ==> Walk(g, first, i) != Some(target)
        invariant seen <= g.waiting.Keys
        invariant forall x :: x in seen ==> exists i: nat :: i < k && Walk(g, first, i) == Some(x)
        decreases g.waiting.Keys - seen, cur
      {
        if cur.value == target {
          return true;
        }
        if cur.value !in waiting {
          WalkStep(g, first, k);
          NotBeyond(g, first, k + 1, target);
          return false;
        }
        if cur.value in seen {
          var i: nat :| i < k && Walk(g, first, i) == cur;
          WalkNeverRepeats(g, first, i, k);
          assert false;
        }
        WalkStep(g, first, k);
        seen := seen + {cur.value};
        k := k + 1;
        cur := if waiting[cur.value] in holding then Some(holding[waiting[cur.value]]) else None;
      }
      NotBeyond(g, first, k, target);
      return false;
    }

    /** hangman_wait */
    method Wait(a: Actor, l: Lockable) returns (v: Verdict)
      requires Acyclic(G())
      modifies this
      ensures Acyclic(G())
      ensures l == SELF ==> v == Fine && G() == old(G())
      ensures l != SELF ==> (v == AlreadyWaiting <==> a in old(waiting))
      ensures l != SELF ==> (v == Deadlock <==> a !in old(waiting) && !Acyclic(Waits(old(G()), a, l)))
      ensures l != SELF ==> v in {Fine, AlreadyWaiting, Deadlock}
      ensures G() == if v == Fine && l != SELF then Waits(old(G()), a, l) else old(G())
      ensures v == Fine && l != SELF ==> waiting == old(waiting)[a := l] && holding == old(holding)
    {
      if l == SELF {
        return Fine;
      }
      if a in waiting {
        return AlreadyWaiting;
      }
      WaitClosesCycle(G(), a, l);
      var found := Check(l, a);
      if found {
        return Deadlock;
      }
      waiting := waiting[a := l];
      return Fine;
    }

    /** hangman_acquire */
    method Acquire(a: Actor, l: Lockable) returns (v: Verdict)
      requires Acyclic(G())
      modifies this
      ensures Acyclic(G())
      ensures v == if l == SELF then Fine
                   else if !(a in old(waiting) && old(waiting)[a] == l) then NotWaitingForIt
                   else if l in old(holding) then StillHeld else Fine
      ensures G() == if v == Fine && l != SELF then Acquires(old(G()), a, l) else old(G())
      ensures v == Fine && l != SELF ==> waiting == old(waiting) - {a} && holding == old(holding)[l := a]
    {
      if l == SELF {
        return Fine;
      }
      if !(a in waiting && waiting[a] == l) {
        return NotWaitingForIt;
      }
      if l in holding {
        return StillHeld;
      }
      AcquireKeepsAcyclic(G(), a, l);
      holding := holding[l := a];
      waiting := waiting - {a};
      return Fine;
    }

    /** hangman_release */
    method Release(a: Actor, l: Lockable) returns (v: Verdict)
      requires Acyclic(G())
      modifies this
      ensures Acyclic(G())
      ensures v == if l == SELF then Fine
                   else if a in old(waiting) then WaitingForSomething
                   else if !(l in old(holding) && old(holding)[l] == a) then NotTheHolder else Fine
      ensures G() == if v == Fine && l != SELF then Releases(old(G()), l) else old(G())
      ensures v == Fine && l != SELF ==> waiting == old(waiting) && holding == old(holding) - {l}
    {
      if l == SELF {
        return Fine;
      }
      if a in waiting {
        return WaitingForSomething;
      }
      if !(l in holding && holding[l] == a) {
        return NotTheHolder;
      }
      ReleaseKeepsAcyclic(G(), l);
      holding := holding - {l};
      return Fine;
    }
  }

  /** Once a walk has ended it stays ended. */
  lemma NotBeyond(g: Graph, o: Option<Actor>, k: nat, a: Actor)
    requires Walk(g, o, k) == None
    requires forall i: nat :: i < k ==> Walk(g, o, i) != Some(a)
    ensures !Reaches(g, o, a)
  {
    forall n: nat
      ensures Walk(g, o, n) != Some(a)
    {
      if n >= k {
        WalkAdd(g, o, k, n - k);
      }
    }
  }
}
