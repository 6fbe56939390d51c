/** Doubly linked thread lists with two bookend nodes and a count,
    kern/thread/threadlist.c. */
module ThreadList {
  type Tid = int

  /** A thread's list node; the thread is `self`. */
  class Node {
    var next: Node?
    var prev: Node?
    const self: Tid

    constructor (t: Tid)
      ensures next == null && prev == null && self == t && fresh(this)
    {
      next, prev, self := null, null, t;
    }
  }

  ghost predicate Distinct(s: seq<Node>) {
    forall i, j :: 0 <= i < j < |s| ==> s[i] != s[j]
  }

  /** Neighbours in the sequence point at each other. */
  ghost predicate Chained(s: seq<Node>)
    reads s
  {
    && (forall i :: 0 <= i < |s| - 1 ==> s[i].next == s[i + 1])
    && (forall i :: 0 < i < |s| ==> s[i].prev == s[i - 1])
  }

  ghost function Selves(s: seq<Node>): seq<Tid> {
    seq(|s|, i requires 0 <= i < |s| => s[i].self)
  }

  class List {
    const head: Node
    const tail: Node
    var count: int
    ghost var nodes: seq<Node>  // from head to tail

    ghost predicate Valid()
      reads this, nodes
    {
      && |nodes| >= 2 && nodes[0] == head && nodes[|nodes| - 1] == tail && Distinct(nodes)
      && head.prev == null && tail.next == null && Chained(nodes)
      && count == |nodes| - 2
    }

    /** The threads on the list, in order. */
    ghost function Contents(): seq<Tid>
      requires |nodes| >= 2
      reads this
    {
      Selves(nodes[1..|nodes| - 1])
    }

    /** threadlist_init(). */
    constructor ()
      ensures Valid() && Contents() == [] && fresh(nodes)
    {
      head := new Node(0);
      tail := new Node(0);
      count := 0;
      nodes := [head, tail];
      new;
      head.next := tail;
      tail.prev := head;
    }

    /** threadlist_insertafternode(), at position i of the list. */
    method InsertAfterNode(onlist: Node, addee: Node, ghost i: nat)
      requires Valid() && i < |nodes| - 1 && nodes[i] == onlist
      requires addee !in nodes && addee.next == null && addee.prev == null
      modifies this, onlist, onlist.next, addee
      ensures Valid() && nodes == old(nodes)[..i + 1] + [addee] + old(nodes)[i + 1..]
    {
      ghost var s := nodes;
      assert onlist.next == s[i + 1];
      addee.prev := onlist;
      addee.next := onlist.next;
      addee.prev.next := addee;
      addee.next.prev := addee;
      count := count + 1;
      nodes := s[..i + 1] + [addee] + s[i + 1..];
    }

    /** threadlist_insertbeforenode(), at position i of the list. */
    method InsertBeforeNode(addee: Node, onlist: Node, ghost i: nat)
      requires Valid() && 0 < i < |nodes| && nodes[i] == onlist
      requires addee !in nodes && addee.next == null && addee.prev == null
      modifies this, onlist, onlist.prev, addee
      ensures Valid() && nodes == old(nodes)[..i] + [addee] + old(nodes)[i..]
    {
      ghost var s := nodes;
      assert onlist.prev == s[i - 1];
      addee.prev := onlist.prev;
      addee.next := onlist;
      addee.prev.next := addee;
      addee.next.prev := addee;
      count := count + 1;
      nodes := s[..i] + [addee] + s[i..];
    }

    /** threadlist_removenode() of the node at position i. */
    method RemoveNode(tln: Node, ghost i: nat)
      requires Valid() && 0 < i < |nodes| - 1 && nodes[i] == tln
      modifies this, tln, tln.prev, tln.next
      ensures Valid() && nodes == old(nodes)[..i] + old(nodes)[i + 1..]
      ensures tln !in nodes && tln.next == null && tln.prev == null
    {
      ghost var s := nodes;
      assert tln.prev == s[i - 1] && tln.next == s[i + 1];
      tln.prev.next := tln.next;
      tln.next.prev := tln.prev;
      tln.prev := null;
      tln.next := null;
      count := count - 1;
      nodes := s[..i] + s[i + 1..];
    }

    /** threadlist_addhead(). */
    method AddHead(t: Node)
      requires Valid() && t !in nodes && t.next == null && t.prev == null
      modifies this, nodes, t
      ensures Valid() && Contents() == [t.self] + old(Contents()) && t in nodes
    {
      ghost var s := nodes;
      assert head == s[0] && s[0] in s && head.next == s[1] && s[1] in s;
      InsertAfterNode(head, t, 0);
      ContentsInsert(s, t, 1);
    }

    /** threadlist_addtail(). */
    method AddTail(t: Node)
      requires Valid() && t !in nodes && t.next == null && t.prev == null
      modifies this, nodes, t
      ensures Valid() && Contents() == old(Contents()) + [t.self] && t in nodes
    {
      ghost var s := nodes;
      assert tail == s[|s| - 1] && s[|s| - 1] in s && tail.prev == s[|s| - 2] && s[|s| - 2] in s;
      InsertBeforeNode(t, tail, |nodes| - 1);
      ContentsInsert(s, t, |s| - 1);
    }

    /** threadlist_remhead(): null exactly when the list is empty. */
    method RemHead() returns (t: Node?)
      requires Valid()
      modifies this, nodes
      ensures Valid()
      ensures t == null ==> old(Contents()) == [] && nodes == old(nodes)
      ensures t != null ==> old(Contents()) == [t.self] + Contents() && t !in nodes && t.next == null && t.prev == null
    {
      ghost var s := nodes;
      var tln := head.next;
      assert tln == s[1] && tln in s && (|s| > 2 ==> tln.next == s[2] && s[2] in s);
      if tln.next == null {
        return null;
      }
      assert tln.prev == s[0] && s[0] in s;
      RemoveNode(tln, 1);
      ContentsRemove(s, 1);
      t := tln;
    }

    /** threadlist_remtail(). */
    method RemTail() returns (t: Node?)
      requires Valid()
      modifies this, nodes
      ensures Valid()
      ensures t == null ==> old(Contents()) == [] && nodes == old(nodes)
      ensures t != null ==> old(Contents()) == Contents() + [t.self] && t !in nodes && t.next == null && t.prev == null
    {
      ghost var s := nodes;
      var tln := tail.prev;
      assert tln == s[|s| - 2] && tln in s && (|s| > 2 ==> tln.prev == s[|s| - 3] && s[|s| - 3] in s);
      if tln.prev == null {
        return null;
      }
      assert tln.next == s[|s| - 1] && s[|s| - 1] in s;
      RemoveNode(tln, |s| - 2);
      ContentsRemove(s, |s| - 2);
      t := tln;
    }

    /** threadlist_remove(). */
    method Remove(t: Node, ghost i: nat)
      requires Valid() && 0 < i < |nodes| - 1 && nodes[i] == t
      modifies this, nodes
      ensures Valid() && t !in nodes
      ensures Contents() == old(Contents())[..i - 1] + old(Contents())[i..]
    {
      ghost var s := nodes;
      assert t in s && t.prev == s[i - 1] && s[i - 1] in s && t.next == s[i + 1] && s[i + 1] in s;
      RemoveNode(t, i);
      ContentsRemove(s, i);
    }

    /** threadlist_insertafter(). */
    method InsertAfter(onlist: Node, addee: Node, ghost i: nat)
      requires Valid() && 0 < i < |nodes| - 1 && nodes[i] == onlist
      requires addee !in nodes && addee.next == null && addee.prev == null
      modifies this, nodes, addee
      ensures Valid() && addee in nodes
      ensures Contents() == old(Contents())[..i] + [addee.self] + old(Contents())[i..]
    {
      ghost var s := nodes;
      assert onlist in s && onlist.next == s[i + 1] && s[i + 1] in s;
      InsertAfterNode(onlist, addee, i);
      ContentsInsert(s, addee, i + 1);
    }

    /** threadlist_insertbefore(). */
    method InsertBefore(addee: Node, onlist: Node, ghost i: nat)
      requires Valid() && 0 < i < |nodes| - 1 && nodes[i] == onlist
      requires addee !in nodes && addee.next == null && addee.prev == null
      modifies this, nodes, addee
      ensures Valid() && addee in nodes
      ensures Contents() == old(Contents())[..i - 1] + [addee.self] + old(Contents())[i - 1..]
    {
      ghost var s := nodes;
      assert onlist in s && onlist.prev == s[i - 1] && s[i - 1] in s;
      InsertBeforeNode(addee, onlist, i);
      ContentsInsert(s, addee, i);
    }

    /** threadlist_isempty() tells whether the list is empty. */
    method IsEmpty() returns (r: bool)
      requires Valid()
      ensures r <==> Contents() == []
    {
      r := count == 0;
    }
  }

  ghost function Inner(s: seq<Node>): seq<Tid>
    requires |s| >= 2
  {
    Selves(s[1..|s| - 1])
  }

  lemma ContentsInsert(s: seq<Node>, t: Node, i: nat)
    requires |s| >= 2 && 0 < i < |s|
    ensures Inner(s[..i] + [t] + s[i..]) == Inner(s)[..i - 1] + [t.self] + Inner(s)[i - 1..]
  {
  }

  lemma ContentsRemove(s: seq<Node>, i: nat)
    requires |s| > 2 && 0 < i < |s| - 1
    ensures Inner(s) == Inner(s[..i] + s[i + 1..])[..i - 1] + [s[i].self] + Inner(s[..i] + s[i + 1..])[i - 1..]
  {
    var r := s[..i] + s[i + 1..];
    assert s == r[..i] + [s[i]] + r[i..];
    ContentsInsert(r, s[i], i);
  }
}
