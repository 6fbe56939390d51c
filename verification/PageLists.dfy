/** The two singly linked page lists of kern/vm/kmalloc.c: every page is on
    the list of all pages and on the list of its block size. */
module PageLists {
  import opened Wrappers

  type Id = int
  type Links = map<Id, Option<Id>>

  ghost predicate Distinct(l: seq<Id>) {
    forall i, j :: 0 <= i < j < |l| ==> l[i] != l[j]
  }

  function At(l: seq<Id>, i: nat): Option<Id> {
    if i < |l| then Some(l[i]) else None
  }

  /** From base, the next fields spell out exactly l, each element once. */
  ghost predicate Listed(next: Links, base: Option<Id>, l: seq<Id>) {
    && Distinct(l)
    && base == At(l, 0)
    && forall i :: 0 <= i < |l| ==> l[i] in next && next[l[i]] == At(l, i + 1)
  }

  lemma PushFront(next: Links, base: Option<Id>, l: seq<Id>, p: Id)
    requires Listed(next, base, l) && p !in l
    ensures Listed(next[p := base], Some(p), [p] + l)
  {
    var next', l' := next[p := base], [p] + l;
    forall i | 0 <= i < |l'|
      ensures l'[i] in next' && next'[l'[i]] == At(l', i + 1)
    {
      if i > 0 {
        assert l'[i] == l[i - 1];
      }
    }
  }

  function Cut(l: seq<Id>, i: nat): seq<Id>
    requires i < |l|
  {
    l[..i] + l[i + 1..]
  }

  lemma CutMembers(l: seq<Id>, i: nat)
    requires Distinct(l) && i < |l|
    ensures Distinct(Cut(l, i))
    ensures forall x :: x in Cut(l, i) <==> x in l && x != l[i]
  {
    var c := Cut(l, i);
    forall x | x in l && x != l[i]
      ensures x in c
    {
      var k :| 0 <= k < |l| && l[k] == x;
      assert c[if k < i then k else k - 1] == x;
    }
  }

  /** What unlinking the i-th element writes. */
  function CutNext(next: Links, l: seq<Id>, i: nat): Links
    requires i < |l| && forall k :: 0 <= k < |l| ==> l[k] in next
  {
    if i == 0 then next else next[l[i - 1] := next[l[i]]]
  }

  function CutBase(next: Links, base: Option<Id>, l: seq<Id>, i: nat): Option<Id>
    requires i < |l| && forall k :: 0 <= k < |l| ==> l[k] in next
  {
    if i == 0 then next[l[0]] else base
  }

  lemma CutListed(next: Links, base: Option<Id>, l: seq<Id>, i: nat)
    requires Listed(next, base, l) && i < |l|
    ensures Listed(CutNext(next, l, i), CutBase(next, base, l, i), Cut(l, i))
  {
    CutMembers(l, i);
    var next', l' := CutNext(next, l, i), Cut(l, i);
    forall k | 0 <= k < |l'|
      ensures l'[k] in next' && next'[l'[k]] == At(l', k + 1)
    {
      var j := if k < i then k else k + 1;
      assert l'[k] == l[j];
    }
  }

  /** One of the loops of remove_lists(): walk to the page and unlink it. */
  method Unlink(next: Links, base: Option<Id>, p: Id, ghost l: seq<Id>)
    returns (next': Links, base': Option<Id>, ghost i: nat)
    requires Listed(next, base, l) && p in l
    ensures i < |l| && l[i] == p
    ensures next' == CutNext(next, l, i) && base' == CutBase(next, base, l, i)
  {
    ghost var n :| 0 <= n < |l| && l[n] == p;
    i := 0;
    var prev: Option<Id> := None;
    var guy := base;
    while guy != Some(p)
      invariant i <= n && guy == Some(l[i])
      invariant prev == if i == 0 then None else Some(l[i - 1])
      decreases n - i
    {
      prev, guy := guy, next[guy.value];
      i := i + 1;
    }
    if prev == None {
      next', base' := next, next[p];
    } else {
      next', base' := next[prev.value := next[p]], base;
    }
  }

  /** The pages of one block type, in list order. */
  ghost function OfType(kind: map<Id, int>, l: seq<Id>, b: int): seq<Id>
    requires forall x :: x in l ==> x in kind
  {
    if l == [] then []
    else
      var p: Id := l[0];
      assert p in l;
      if kind[p] == b then [p] + OfType(kind, l[1..], b) else OfType(kind, l[1..], b)
  }

  lemma {:induction false} OfTypeMembers(kind: map<Id, int>, l: seq<Id>, b: int)
    requires forall x :: x in l ==> x in kind
    ensures forall x :: x in OfType(kind, l, b) <==> x in l && kind[x] == b
  {
    if l != [] {
      OfTypeMembers(kind, l[1..], b);
      assert l == [l[0]] + l[1..];
    }
  }

  lemma {:induction false} OfTypeFrame(kind: map<Id, int>, kind': map<Id, int>, l: seq<Id>, b: int)
    requires forall x :: x in l ==> x in kind && x in kind' && kind[x] == kind'[x]
    ensures OfType(kind, l, b) == OfType(kind', l, b)
  {
    if l != [] {
      var p: Id := l[0];
      assert p in l;
      OfTypeFrame(kind, kind', l[1..], b);
    }
  }

  lemma {:induction false} OfTypeConcat(kind: map<Id, int>, k: seq<Id>, l: seq<Id>, b: int)
    requires (forall x :: x in k ==> x in kind) && (forall x :: x in l ==> x in kind)
    ensures forall x :: x in k + l ==> x in kind
    ensures OfType(kind, k + l, b) == OfType(kind, k, b) + OfType(kind, l, b)
  {
    if k == [] {
      assert k + l == l;
    } else {
      assert (k + l)[1..] == k[1..] + l;
      OfTypeConcat(kind, k[1..], l, b);
    }
  }

  lemma OfTypeOne(kind: map<Id, int>, p: Id, b: int)
    requires p in kind
    ensures OfType(kind, [p], b) == if kind[p] == b then [p] else []
  {
    assert OfType(kind, [p][1..], b) == [];
  }

  lemma OfTypeSplit(kind: map<Id, int>, a: seq<Id>, p: Id, c: seq<Id>, b: int)
    requires p in kind && (forall x :: x in a ==> x in kind) && (forall x :: x in c ==> x in kind)
    ensures forall x :: x in a + [p] + c ==> x in kind
    ensures OfType(kind, a + c, b) == OfType(kind, a, b) + OfType(kind, c, b)
    ensures OfType(kind, a + [p] + c, b)
         == OfType(kind, a, b) + (if kind[p] == b then [p] else []) + OfType(kind, c, b)
  {
    hide OfType;
    OfTypeOne(kind, p, b);
    OfTypeConcat(kind, a, c, b);
    OfTypeConcat(kind, a, [p], b);
    OfTypeConcat(kind, a + [p], c, b);
  }

  lemma CutMiddle(x: seq<Id>, p: Id, y: seq<Id>, j: nat)
    requires j < |x + [p] + y| && (x + [p] + y)[j] == p && Distinct(x + [p] + y)
    ensures Cut(x + [p] + y, j) == x + y
  {
    var t := x + [p] + y;
    assert t[|x|] == p;
    assert j == |x|;
  }

  /** Unlinking a page from the list of all pages unlinks it from the list of
      its type and leaves the other types alone. */
  lemma OfTypeCut(kind: map<Id, int>, l: seq<Id>, i: nat, b: int, j: nat)
    requires i < |l| && (forall x :: x in l ==> x in kind) && Distinct(OfType(kind, l, b))
    requires kind[l[i]] == b ==> j < |OfType(kind, l, b)| && OfType(kind, l, b)[j] == l[i]
    ensures forall x :: x in Cut(l, i) ==> x in kind
    ensures OfType(kind, Cut(l, i), b) == if kind[l[i]] == b then Cut(OfType(kind, l, b), j) else OfType(kind, l, b)
  {
    hide Distinct, OfType;
    var a, p, c := l[..i], l[i], l[i + 1..];
    assert l == a + [p] + c;
    OfTypeSplit(kind, a, p, c, b);
    var ta, tc := OfType(kind, a, b), OfType(kind, c, b);
    if kind[p] == b {
      CutMiddle(ta, p, tc, j);
    } else {
      assert ta + [] == ta;
    }
  }
}
