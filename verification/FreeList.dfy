/** The free lists of kern/vm/kmalloc.c: blocks of one page, linked through
    their first words. */
module FreeList {
  import opened Arith

  type Addr = int

  /** The words of memory the allocator and its clients write. */
  type Memory = map<Addr, int>

  function Load(mem: Memory, a: Addr): int {
    if a in mem then mem[a] else 0
  }

  /** mem' differs from mem at most in the size bytes from a on. */
  ghost predicate WritesOnly(mem: Memory, mem': Memory, a: Addr, size: nat) {
    forall x: Addr :: x < a || a + size <= x ==> Load(mem', x) == Load(mem, x)
  }

  /** The sizes[] table and how many blocks of each type fill a page. */
  function Size(bt: int): nat
    requires bt < 8
  {
    if bt == 0 then 16 else if bt == 1 then 32 else if bt == 2 then 64 else if bt == 3 then 128
    else if bt == 4 then 256 else if bt == 5 then 512 else if bt == 6 then 1024 else 2048
  }

  function Blocks(bt: int): nat
    requires bt < 8
  {
    4096 / Size(bt)
  }

  /** a is the address of a block of the page at `page`. */
  predicate IsBlock(page: Addr, bt: int, a: Addr)
    requires bt < 8
  {
    page <= a < page + 4096 && (a - page) % Size(bt) == 0
  }

  ghost predicate NoDup(c: seq<Addr>) {
    forall i, j :: 0 <= i < j < |c| ==> c[i] != c[j]
  }

  /** Starting at head, the links spell out exactly c; 0 ends the list. */
  ghost predicate Linked(mem: Memory, head: int, c: seq<Addr>)
    decreases |c|
  {
    if c == [] then head == 0
    else head == c[0] && Linked(mem, Load(mem, c[0]), c[1..])
  }

  /** Writes elsewhere do not disturb a list. */
  lemma {:induction false} LinkedFrame(mem: Memory, mem': Memory, head: int, c: seq<Addr>)
    requires Linked(mem, head, c) && forall a :: a in c ==> Load(mem', a) == Load(mem, a)
    ensures Linked(mem', head, c)
    decreases |c|
  {
    if c != [] {
      assert forall a :: a in c[1..] ==> a in c;
      LinkedFrame(mem, mem', Load(mem, c[0]), c[1..]);
    }
  }

  ghost predicate NonNull(c: seq<Addr>) {
    forall i :: 0 <= i < |c| ==> c[i] != 0
  }

  /** The memory determines a free list: two readings of it agree. */
  lemma {:induction false} LinkedUnique(mem: Memory, head: int, c: seq<Addr>, d: seq<Addr>)
    requires Linked(mem, head, c) && Linked(mem, head, d) && NonNull(c) && NonNull(d)
    ensures c == d
    decreases |c|
  {
    if c != [] {
      LinkedUnique(mem, Load(mem, c[0]), c[1..], d[1..]);
      assert c == [c[0]] + c[1..] && d == [d[0]] + d[1..];
    }
  }

  lemma SizeFacts(bt: int)
    requires bt < 8
    ensures 16 <= Size(bt) <= 2048 && 2 <= Blocks(bt) <= 256 && Blocks(bt) * Size(bt) == 4096
  {
  }

  /** The sizes are the powers of two from 16 to 2048. */
  lemma SizesDouble(bt: int)
    requires 0 <= bt < 8
    ensures Size(0) == 16 && (bt > 0 ==> Size(bt) == 2 * Size(bt - 1))
  {
  }

  /** Block addresses of one page are a block size apart. */
  lemma BlockGap(page: Addr, bt: int, a: Addr, b: Addr)
    requires bt < 8 && IsBlock(page, bt, a) && IsBlock(page, bt, b) && a < b
    ensures a + Size(bt) <= b
  {
    var s := Size(bt);
    MultipleGap(a - page, b - page, s);
  }

  lemma MultipleGap(x: int, y: int, s: int)
    requires s >= 1 && x % s == 0 && y % s == 0 && x < y
    ensures x + s <= y
  {
    var i, j := x / s, y / s;
    assert x == i * s && y == j * s;
    if j <= i {
      MulLe(j, i, s);
    } else {
      MulLe(i + 1, j, s);
      MulAdd(i, 1, s);
    }
  }

  /** A block lies inside its page. */
  lemma BlockInside(page: Addr, bt: int, a: Addr)
    requires bt < 8 && IsBlock(page, bt, a)
    ensures a + Size(bt) <= page + 4096
  {
    var s := Size(bt);
    SizeFacts(bt);
    assert 4096 % s == 0;
    MultipleGap(a - page, 4096, s);
  }

  lemma IndexRange(page: Addr, bt: int, a: Addr)
    requires bt < 8 && IsBlock(page, bt, a)
    ensures 0 <= (a - page) / Size(bt) < Blocks(bt)
    ensures a == page + (a - page) / Size(bt) * Size(bt)
  {
    SizeFacts(bt);
    var s, k := Size(bt), (a - page) / Size(bt);
    assert a - page == k * s;
    if k >= Blocks(bt) {
      MulLe(Blocks(bt), k, s);
    }
  }

  /** The first n blocks of a page. */
  ghost function FirstBlocks(page: Addr, size: nat, n: nat): (b: set<Addr>)
    ensures |b| <= n
  {
    if n == 0 then {} else FirstBlocks(page, size, n - 1) + {page + (n - 1) * size}
  }

  lemma {:induction false} InFirstBlocks(page: Addr, size: nat, n: nat, k: nat)
    requires k < n
    ensures page + k * size in FirstBlocks(page, size, n)
  {
    if k < n - 1 {
      InFirstBlocks(page, size, n - 1, k);
    }
  }

  lemma {:induction false} DistinctCount(c: seq<Addr>, b: set<Addr>)
    requires NoDup(c) && forall i :: 0 <= i < |c| ==> c[i] in b
    ensures |c| <= |b|
  {
    if c != [] {
      var n := |c| - 1;
      DistinctCount(c[..n], b - {c[n]});
    }
  }

  /** A page has room for only so many distinct blocks. */
  lemma ChainLength(page: Addr, bt: int, c: seq<Addr>)
    requires bt < 8 && NoDup(c) && forall a :: a in c ==> IsBlock(page, bt, a)
    ensures |c| <= Blocks(bt)
  {
    hide IsBlock, NoDup, Size, Blocks;
    var n, s := Blocks(bt), Size(bt);
    forall i | 0 <= i < |c|
      ensures c[i] in FirstBlocks(page, s, n)
    {
      InsidePage(page, bt, c[i]);
    }
    DistinctCount(c, FirstBlocks(page, s, n));
  }

  lemma InsidePage(page: Addr, bt: int, a: Addr)
    requires bt < 8 && IsBlock(page, bt, a)
    ensures a in FirstBlocks(page, Size(bt), Blocks(bt))
  {
    IndexRange(page, bt, a);
    InFirstBlocks(page, Size(bt), Blocks(bt), (a - page) / Size(bt));
  }

  /** A free list as long as the page has blocks holds all of them. */
  lemma FullChain(page: Addr, bt: int, c: seq<Addr>, b: Addr)
    requires bt < 8 && NoDup(c) && forall a :: a in c ==> IsBlock(page, bt, a)
    requires |c| == Blocks(bt) && IsBlock(page, bt, b)
    ensures b in c
  {
    if b !in c {
      ChainLength(page, bt, [b] + c);
    }
  }

  /** Which of the first n blocks of a page a list holds. */
  ghost function Covered(page: Addr, size: nat, n: nat, c: seq<Addr>): set<int> {
    set k: int | 0 <= k < n && page + k * size in c
  }

  lemma {:induction false} CoveredCount(page: Addr, size: nat, n: nat, c: seq<Addr>)
    requires size > 0
    ensures |Covered(page, size, n, c)| <= |c|
  {
    if c != [] {
      var m := |c| - 1;
      CoveredCount(page, size, n, c[..m]);
      var k := (c[m] - page) / size;
      forall j | j in Covered(page, size, n, c)
        ensures j in Covered(page, size, n, c[..m]) + {k}
      {
        if page + j * size == c[m] {
          MultipleDiv(j, size);
        } else {
          assert page + j * size in c[..m];
        }
      }
      SubsetCount(Covered(page, size, n, c), Covered(page, size, n, c[..m]) + {k});
    } else {
      var none: set<int> := {};
      assert Covered(page, size, n, c) == none;
    }
  }

  lemma {:induction false} SubsetCount<T>(a: set<T>, b: set<T>)
    requires a <= b
    ensures |a| <= |b|
  {
    if |a| > 0 {
      var x :| x in a;
      SubsetCount(a - {x}, b - {x});
    }
  }

  ghost function UpTo(n: nat): (r: set<int>)
    ensures |r| == n && forall k: int :: k in r <==> 0 <= k < n
  {
    if n == 0 then {} else UpTo(n - 1) + {n - 1}
  }

  /** A list that holds every block of a page is as long as there are blocks. */
  lemma EveryBlock(page: Addr, bt: int, c: seq<Addr>)
    requires 0 <= bt < 8 && forall b :: IsBlock(page, bt, b) ==> b in c
    ensures |c| >= Blocks(bt)
  {
    SizeFacts(bt);
    var n, size := Blocks(bt), Size(bt);
    hide Size, Blocks;
    CoveredCount(page, size, n, c);
    forall k: int | k in UpTo(n)
      ensures k in Covered(page, size, n, c)
    {
      BlockAt(page, bt, k);
    }
    hide *;
    SubsetCount(UpTo(n), Covered(page, size, n, c));
  }

  lemma BlockAt(page: Addr, bt: int, k: int)
    requires 0 <= bt < 8 && 0 <= k < Blocks(bt)
    ensures IsBlock(page, bt, page + k * Size(bt))
  {
    SizeFacts(bt);
    var n, size := Blocks(bt), Size(bt);
    MulLe(0, k, size);
    MulLe(k + 1, n, size);
    MulAdd(k, 1, size);
    MultipleMod(k, size);
  }
}
