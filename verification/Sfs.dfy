/** Block mapping and truncation of the simple file system,
    kern/fs/sfs/sfs_bmap.c and kern/fs/sfs/sfs_balloc.c, over the free block
    bitmap. Disk reads and writes are taken to succeed. */
module Sfs {
  import opened Wrappers
  import Bitmap

  const NDIRECT := 15
  const DBPERIDB := 128
  const BLOCKSIZE := 512
  const MAXBLOCKS := NDIRECT + DBPERIDB

  type Words = seq<int>

  datatype Inode = Inode(direct: Words, indirect: int, size: int)

  /** `used` is what the bitmap marks; `meta` the superblock, the bitmap and
      the inodes themselves. */
  datatype State = State(inodes: map<int, Inode>, disk: map<int, Words>, used: set<int>, meta: set<int>, nblocks: int)

  /** The places where a block number can be stored. */
  datatype Loc = Direct(ino: int, i: int) | Indirect(ino: int) | Entry(ino: int, j: int)

  function Word(w: Words, i: int): int {
    if 0 <= i < |w| then w[i] else 0
  }

  /** The block number stored at a place, 0 if none. */
  function Ptr(s: State, l: Loc): int {
    if l.ino !in s.inodes then 0
    else
      var x := s.inodes[l.ino];
      match l
      case Direct(_, i) => Word(x.direct, i)
      case Indirect(_) => x.indirect
      case Entry(_, j) => if x.indirect == 0 || x.indirect !in s.disk then 0 else Word(s.disk[x.indirect], j)
  }

  /** Where the number of block fb of a file is stored. */
  function Home(ino: int, fb: int): Loc {
    if fb < NDIRECT then Direct(ino, fb) else Entry(ino, fb - NDIRECT)
  }

  /** The file as a finite map from its block numbers to disk blocks. */
  function Map(s: State, ino: int, fb: int): int {
    if 0 <= fb < MAXBLOCKS then Ptr(s, Home(ino, fb)) else 0
  }

  /** The map read off the inode and the indirect block. */
  lemma MapIs(s: State, ino: int, fb: int)
    requires Shapes(s) && ino in s.inodes && 0 <= fb < MAXBLOCKS
    ensures
      var x := s.inodes[ino];
      && |x.direct| == NDIRECT && (x.indirect != 0 ==> x.indirect in s.disk && |s.disk[x.indirect]| == DBPERIDB)
      && Map(s, ino, fb) ==
         if fb < NDIRECT then x.direct[fb] else if x.indirect == 0 then 0 else s.disk[x.indirect][fb - NDIRECT]
  {
  }

  ghost predicate Shapes(s: State) {
    forall n :: n in s.inodes ==>
      && |s.inodes[n].direct| == NDIRECT
      && (s.inodes[n].indirect != 0 ==> s.inodes[n].indirect in s.disk && |s.disk[s.inodes[n].indirect]| == DBPERIDB)
  }

  /** Block numbers are of data blocks, and no block is reachable twice. */
  ghost predicate PtrsOk(s: State) {
    && (forall l :: Ptr(s, l) != 0 ==> 0 < Ptr(s, l) < s.nblocks && Ptr(s, l) !in s.meta)
    && (forall l, m :: Ptr(s, l) != 0 && Ptr(s, l) == Ptr(s, m) ==> l == m)
  }

  ghost predicate Reached(s: State, b: int) {
    b != 0 && exists l :: Ptr(s, l) == b
  }

  /** The marked blocks are exactly the metadata and what the inodes reach;
      everything past the end of the disk is marked. */
  ghost predicate MarksOk(s: State) {
    && (forall b :: 0 <= b < s.nblocks ==> (b in s.used <==> b in s.meta || Reached(s, b)))
    && 0 in s.meta && forall b :: b in s.meta ==> 0 <= b < s.nblocks
  }

  ghost predicate Inv(s: State) {
    Shapes(s) && PtrsOk(s) && MarksOk(s)
  }

  // Changing one place, or clearing many

  /** t is s with block b, free before, stored at l. */
  ghost predicate Stores(s: State, t: State, l: Loc, b: int) {
    && Ptr(s, l) == 0 && Ptr(t, l) == b && 0 < b < s.nblocks && b !in s.used
    && (forall m :: m != l ==> Ptr(t, m) == Ptr(s, m))
    && t.used == s.used + {b} && t.meta == s.meta && t.nblocks == s.nblocks
  }

  lemma StoreKeeps(s: State, t: State, l: Loc, b: int)
    requires PtrsOk(s) && MarksOk(s) && Stores(s, t, l, b)
    ensures PtrsOk(t) && MarksOk(t)
  {
    hide Ptr;
    assert !Reached(s, b) && b !in s.meta;
    forall m, n | Ptr(t, m) != 0 && Ptr(t, m) == Ptr(t, n)
      ensures m == n
    {
      assert m == l || n == l || (Ptr(s, m) == Ptr(s, n) && Ptr(s, m) != 0);
      assert forall k :: Ptr(s, k) != b;
    }
    forall c | 0 <= c < t.nblocks
      ensures c in t.used <==> c in t.meta || Reached(t, c)
    {
      StoreReached(s, t, l, b, c);
    }
  }

  lemma StoreReached(s: State, t: State, l: Loc, b: int, c: int)
    requires Stores(s, t, l, b)
    ensures Reached(t, c) <==> Reached(s, c) || c == b
  {
    hide Ptr;
    if m :| Ptr(s, m) == c && c != 0 {
      assert Ptr(t, m) == c;
    }
    if m :| Ptr(t, m) == c && c != 0 {
      assert Ptr(s, m) == c || m == l;
    }
  }

  /** t is s with the places in `gone` cleared and their blocks freed. */
  ghost predicate Clears(s: State, t: State, gone: set<Loc>) {
    && (forall m :: Ptr(t, m) == if m in gone then 0 else Ptr(s, m))
    && (forall b :: b in t.used <==> b in s.used && !Freed(s, gone, b))
    && t.meta == s.meta && t.nblocks == s.nblocks
  }

  ghost predicate Freed(s: State, gone: set<Loc>, b: int) {
    b != 0 && exists l :: l in gone && Ptr(s, l) == b
  }

  lemma ClearKeeps(s: State, t: State, gone: set<Loc>)
    requires PtrsOk(s) && MarksOk(s) && Clears(s, t, gone)
    ensures PtrsOk(t) && MarksOk(t)
  {
    hide Ptr, Freed;
    forall c | 0 <= c < t.nblocks
      ensures c in t.used <==> c in t.meta || Reached(t, c)
    {
      ClearReached(s, t, gone, c);
    }
  }

  lemma ClearReached(s: State, t: State, gone: set<Loc>, c: int)
    requires PtrsOk(s) && Clears(s, t, gone)
    ensures Reached(t, c) <==> Reached(s, c) && !Freed(s, gone, c)
    ensures Freed(s, gone, c) ==> c !in s.meta
  {
    hide Ptr;
    if m :| Ptr(t, m) == c && c != 0 {
      assert Ptr(s, m) == c && m !in gone;
      forall l | l in gone
        ensures Ptr(s, l) != c
      {
      }
    }
    if m :| Ptr(s, m) == c && c != 0 && m !in gone {
      assert Ptr(t, m) == c;
    }
    if c != 0 && Reached(s, c) && !Freed(s, gone, c) {
      var m :| Ptr(s, m) == c;
      assert m !in gone;
      assert Ptr(t, m) == c;
    }
  }

  // Allocating

  function Zeros(): (z: Words)
    ensures |z| == DBPERIDB && forall i :: 0 <= i < |z| ==> z[i] == 0
  {
    seq(DBPERIDB, i => 0)
  }

  /** sfs_balloc: block b is marked and cleared. */
  function Granted(s: State, b: int): State {
    s.(used := s.used + {b}, disk := s.disk[b := Zeros()])
  }

  ghost predicate IsFree(s: State, b: int) {
    0 <= b < s.nblocks && b !in s.used
  }

  lemma FreeIsUnreached(s: State, b: int)
    requires PtrsOk(s) && MarksOk(s) && IsFree(s, b)
    ensures 0 < b && forall l :: Ptr(s, l) != b
  {
    hide Ptr;
    forall l
      ensures Ptr(s, l) != b
    {
      assert Ptr(s, l) == b && b != 0 ==> Reached(s, b);
    }
  }

  lemma GrantedPtrs(s: State, b: int)
    requires Inv(s) && IsFree(s, b)
    ensures 0 < b && Shapes(Granted(s, b)) && forall l :: Ptr(Granted(s, b), l) == Ptr(s, l)
  {
    FreeIsUnreached(s, b);
    hide PtrsOk, MarksOk;
    var t := Granted(s, b);
    forall n | n in s.inodes
      ensures s.inodes[n].indirect != b
    {
      assert Ptr(s, Indirect(n)) == s.inodes[n].indirect;
    }
  }

  function DirectSet(s: State, ino: int, i: int, b: int): State
    requires ino in s.inodes && 0 <= i < |s.inodes[ino].direct|
  {
    var x := s.inodes[ino];
    s.(inodes := s.inodes[ino := x.(direct := x.direct[i := b])])
  }

  function IndirectSet(s: State, ino: int, b: int): State
    requires ino in s.inodes
  {
    s.(inodes := s.inodes[ino := s.inodes[ino].(indirect := b)])
  }

  function EntrySet(s: State, ino: int, j: int, b: int): State
    requires ino in s.inodes && s.inodes[ino].indirect in s.disk && 0 <= j < |s.disk[s.inodes[ino].indirect]|
  {
    var k := s.inodes[ino].indirect;
    s.(disk := s.disk[k := s.disk[k][j := b]])
  }

  lemma DirectStore(s: State, ino: int, i: int, b: int)
    requires Inv(s) && IsFree(s, b) && ino in s.inodes && 0 <= i < NDIRECT && Ptr(s, Direct(ino, i)) == 0
    ensures |s.inodes[ino].direct| == NDIRECT
    ensures
      var t := DirectSet(Granted(s, b), ino, i, b);
      Inv(t) && Stores(s, t, Direct(ino, i), b)
  {
    GrantedPtrs(s, b);
    var g := Granted(s, b);
    var t := DirectSet(g, ino, i, b);
    forall m
      ensures Ptr(t, m) == if m == Direct(ino, i) then b else Ptr(g, m)
    {
    }
    hide Ptr;
    StoreKeeps(s, t, Direct(ino, i), b);
  }

  lemma IndirectStore(s: State, ino: int, b: int)
    requires Inv(s) && IsFree(s, b) && ino in s.inodes && s.inodes[ino].indirect == 0
    ensures
      var t := IndirectSet(Granted(s, b), ino, b);
      && Inv(t) && Stores(s, t, Indirect(ino), b)
      && ino in t.inodes && t.inodes[ino].indirect == b && b in t.disk && t.disk[b] == Zeros()
  {
    GrantedPtrs(s, b);
    var g := Granted(s, b);
    var t := IndirectSet(g, ino, b);
    forall m
      ensures Ptr(t, m) == if m == Indirect(ino) then b else Ptr(g, m)
    {
    }
    hide Ptr;
    StoreKeeps(s, t, Indirect(ino), b);
  }

  /** Two inodes do not share an indirect block. */
  lemma OwnIndirect(s: State, n: int, m: int)
    requires PtrsOk(s) && n in s.inodes && m in s.inodes && s.inodes[n].indirect != 0
    requires s.inodes[n].indirect == s.inodes[m].indirect
    ensures n == m
  {
    assert Ptr(s, Indirect(n)) == Ptr(s, Indirect(m));
  }

  lemma EntryStore(s: State, ino: int, j: int, b: int)
    requires Inv(s) && IsFree(s, b) && ino in s.inodes && 0 <= j < DBPERIDB && s.inodes[ino].indirect != 0
    requires Ptr(s, Entry(ino, j)) == 0
    ensures b != s.inodes[ino].indirect && s.inodes[ino].indirect in Granted(s, b).disk
    ensures |Granted(s, b).disk[s.inodes[ino].indirect]| == DBPERIDB
    ensures
      var t := EntrySet(Granted(s, b), ino, j, b);
      Inv(t) && Stores(s, t, Entry(ino, j), b)
  {
    GrantedPtrs(s, b);
    FreeIsUnreached(s, b);
    var g := Granted(s, b);
    assert Ptr(s, Indirect(ino)) == s.inodes[ino].indirect;
    var t := EntrySet(g, ino, j, b);
    forall m
      ensures Ptr(t, m) == if m == Entry(ino, j) then b else Ptr(g, m)
    {
      EntryPtr(s, t, g, ino, j, b, m);
    }
    assert Shapes(t);
    hide Ptr;
    StoreKeeps(s, t, Entry(ino, j), b);
  }

  lemma EntryPtr(s: State, t: State, g: State, ino: int, j: int, b: int, m: Loc)
    requires PtrsOk(s) && g.inodes == s.inodes && ino in s.inodes && s.inodes[ino].indirect != 0
    requires s.inodes[ino].indirect in g.disk && |g.disk[s.inodes[ino].indirect]| == DBPERIDB && 0 <= j < DBPERIDB
    requires t == EntrySet(g, ino, j, b)
    ensures Ptr(t, m) == if m == Entry(ino, j) then b else Ptr(g, m)
  {
    if m.Entry? && m.ino in s.inodes && s.inodes[m.ino].indirect == s.inodes[ino].indirect {
      OwnIndirect(s, ino, m.ino);
    }
  }

  // sfs_bmap

  datatype Found = Block(b: int) | EFBIG | ENOSPC

  ghost predicate Full(s: State) {
    forall b :: 0 <= b < s.nblocks ==> b in s.used
  }

  ghost predicate SameBut(s: State, t: State, ino: int, fb: int) {
    forall n, f :: n != ino || f != fb ==> Map(t, n, f) == Map(s, n, f)
  }

  /** What a disk block holds. */
  function Read(s: State, b: int): Option<Words> {
    if b in s.disk then Some(s.disk[b]) else None
  }

  /** Blocks mapped before and after at the same place keep their contents,
      and so do the superblock, the bitmap and the inodes. */
  ghost predicate DataKept(s: State, t: State) {
    && (forall n, f :: Map(s, n, f) != 0 && Map(t, n, f) == Map(s, n, f) ==> Read(t, Map(s, n, f)) == Read(s, Map(s, n, f)))
    && forall b :: b in s.meta ==> Read(t, b) == Read(s, b)
  }

  /** No other inode changes, nor the size of this one; nothing is freed. */
  ghost predicate OnlyGrows(s: State, t: State, ino: int) {
    && t.inodes.Keys == s.inodes.Keys && t.meta == s.meta && t.nblocks == s.nblocks && s.used <= t.used
    && (forall n :: n in s.inodes && n != ino ==> t.inodes[n] == s.inodes[n])
    && (ino in s.inodes ==> t.inodes[ino].size == s.inodes[ino].size)
  }

  /** sfs_bmap looks up, or extends by one block, the finite map of a file.
      The new block was free, and is cleared; no data is touched. */
  ghost predicate BMapResult(s: State, t: State, ino: int, fb: int, doalloc: bool, r: Found) {
    && SameBut(s, t, ino, fb) && DataKept(s, t) && OnlyGrows(s, t, ino)
    && match r
       case EFBIG => fb >= MAXBLOCKS && t == s
       case ENOSPC => fb < MAXBLOCKS && doalloc && Map(s, ino, fb) == 0 && Map(t, ino, fb) == 0 && Full(t)
       case Block(b) =>
         && fb < MAXBLOCKS && b == Map(t, ino, fb) && (doalloc ==> b != 0)
         && (Map(s, ino, fb) != 0 || !doalloc ==> t == s)
         && (Map(s, ino, fb) == 0 && doalloc ==> IsFree(s, b) && Read(t, b) == Some(Zeros()))
  }

  /** Writing block b, free before, and the indirect block k of some file
      leaves all data alone. */
  lemma DataFrame(s: State, t: State, b: int, k: int, ino: int)
    requires PtrsOk(s) && MarksOk(s) && IsFree(s, b) && (k == b || (k != 0 && k == Ptr(s, Indirect(ino))))
    requires forall c :: c != b && c != k ==> Read(t, c) == Read(s, c)
    ensures DataKept(s, t)
  {
    FreeIsUnreached(s, b);
    hide Ptr, Read;
    forall n, f | Map(s, n, f) != 0
      ensures Map(s, n, f) != b && Map(s, n, f) != k
    {
      assert Home(n, f) != Indirect(ino);
      assert Map(s, n, f) == Ptr(s, Home(n, f));
    }
  }

  lemma StoredMap(s: State, t: State, ino: int, fb: int, b: int)
    requires Stores(s, t, Home(ino, fb), b) && 0 <= fb < MAXBLOCKS
    requires DataKept(s, t) && OnlyGrows(s, t, ino) && Read(t, b) == Some(Zeros())
    ensures BMapResult(s, t, ino, fb, true, Block(b))
  {
    hide Ptr, DataKept, OnlyGrows, Read;
    assert forall n, f :: n != ino || f != fb ==> 0 <= f < MAXBLOCKS ==> Home(n, f) != Home(ino, fb);
  }

  /** Giving a file an empty indirect block changes no map. */
  lemma IndirectMap(s: State, t: State, ino: int, b: int)
    requires Stores(s, t, Indirect(ino), b)
    ensures SameMaps(s, t)
  {
    hide Ptr;
    forall n, f
      ensures Map(t, n, f) == Map(s, n, f)
    {
      assert Home(n, f) != Indirect(ino);
    }
  }

  /** A mapped block is marked. */
  lemma MappedIsUsed(s: State, ino: int, fb: int)
    requires PtrsOk(s) && MarksOk(s) && Map(s, ino, fb) != 0
    ensures Map(s, ino, fb) in s.used && 0 <= Map(s, ino, fb) < s.nblocks
  {
    hide Ptr;
    assert Reached(s, Map(s, ino, fb));
  }

  class Volume {
    const freemap: Bitmap.Map
    const nblocks: int
    ghost const meta: set<int>
    var inodes: map<int, Inode>
    var disk: map<int, Words>

    ghost function S(): State
      reads this, freemap.v
    {
      State(inodes, disk, freemap.Used(), meta, nblocks)
    }

    /** Mounting a consistent volume. */
    constructor (bits: Bitmap.Map, n: int, ghost m: set<int>, files: map<int, Inode>, blocks: map<int, Words>)
      requires bits.Valid() && 0 <= n <= bits.nbits
      requires forall b :: n <= b < bits.nbits ==> b in bits.Used()
      requires Inv(State(files, blocks, bits.Used(), m, n))
      ensures Valid() && S() == State(files, blocks, bits.Used(), m, n)
    {
      freemap, nblocks, meta, inodes, disk := bits, n, m, files, blocks;
    }

    /** The bits past the end of the disk are marked. */
    ghost predicate Valid()
      reads this, freemap.v
    {
      Mapped() && Inv(S())
    }

    ghost predicate Mapped()
      reads this, freemap.v
    {
      && freemap.Valid() && 0 <= nblocks <= freemap.nbits
      && (forall b :: nblocks <= b < freemap.nbits ==> b in freemap.Used())
    }

    /** sfs_balloc(): the lowest free block, marked and cleared. */
    method BAlloc() returns (r: Option<int>)
      requires Mapped()
      modifies this, freemap.v
      ensures Mapped()
      ensures r.None? ==> S() == old(S()) && Full(S())
      ensures r.Some? ==> IsFree(old(S()), r.value) && S() == Granted(old(S()), r.value)
    {
      var index := freemap.Alloc();
      if index.None? {
        return None;
      }
      disk := disk[index.value := Zeros()];
      r := Some(index.value);
    }

    /** sfs_bfree(). */
    method BFree(b: int)
      requires Mapped() && 0 <= b < nblocks && b in freemap.Used()
      modifies freemap.v
      ensures Mapped() && S() == old(S()).(used := old(S().used) - {b})
    {
      freemap.Unmark(b);
    }

    /** sfs_bmap(). */
    method BMap(ino: int, fb: int, doalloc: bool) returns (r: Found)
      requires Valid() && ino in inodes && fb >= 0
      modifies this, freemap.v
      ensures Valid() && inodes.Keys == old(inodes.Keys)
      ensures BMapResult(old(S()), S(), ino, fb, doalloc, r)
      ensures r.Block? ==>
                if fb < NDIRECT then |inodes[ino].direct| == NDIRECT && r.b == inodes[ino].direct[fb]
                else if inodes[ino].indirect == 0 then r.b == 0
                else
                  && inodes[ino].indirect in disk && fb - NDIRECT < |disk[inodes[ino].indirect]|
                  && r.b == disk[inodes[ino].indirect][fb - NDIRECT]
    {
      hide Ptr;
      if fb < NDIRECT {
        r := DirectBlock(ino, fb, doalloc);
      } else if fb - NDIRECT >= DBPERIDB {
        r := EFBIG;
      } else {
        r := EntryBlock(ino, fb - NDIRECT, doalloc);
      }
      if fb < MAXBLOCKS {
        MapIs(S(), ino, fb);
      }
    }

    method DirectBlock(ino: int, i: int, doalloc: bool) returns (r: Found)
      requires Valid() && ino in inodes && 0 <= i < NDIRECT
      modifies this, freemap.v
      ensures Valid() && inodes.Keys == old(inodes.Keys)
      ensures BMapResult(old(S()), S(), ino, i, doalloc, r)
    {
      hide PtrsOk, MarksOk;
      ghost var s := S();
      var block := inodes[ino].direct[i];
      assert block == Map(s, ino, i);
      if block == 0 && doalloc {
        var got := BAlloc();
        if got.None? {
          return ENOSPC;
        }
        block := got.value;
        DirectStore(s, ino, i, block);
        ghost var t := DirectSet(Granted(s, block), ino, i, block);
        DataFrame(s, t, block, block, ino);
        StoredMap(s, t, ino, i, block);
        inodes := inodes[ino := inodes[ino].(direct := inodes[ino].direct[i := block])];
      }
      r := Block(block);
    }

    /** An indirect block for the file, empty if it is new. */
    method EnsureIndirect(ino: int) returns (ok: bool)
      requires Valid() && ino in inodes
      modifies this, freemap.v
      ensures Valid() && SameMaps(old(S()), S()) && DataKept(old(S()), S()) && OnlyGrows(old(S()), S(), ino)
      ensures ok ==> inodes[ino].indirect != 0
      ensures ok && old(inodes)[ino].indirect != 0 ==> S() == old(S())
      ensures !ok ==> S() == old(S()) && Full(S())
    {
      hide PtrsOk, MarksOk;
      ghost var s := S();
      ok := true;
      if inodes[ino].indirect == 0 {
        var got := BAlloc();
        if got.None? {
          return false;
        }
        IndirectStore(s, ino, got.value);
        ghost var t := IndirectSet(Granted(s, got.value), ino, got.value);
        DataFrame(s, t, got.value, got.value, ino);
        IndirectMap(s, t, ino, got.value);
        inodes := inodes[ino := inodes[ino].(indirect := got.value)];
      }
    }

    /** Entry j of the file's indirect block, filled in if asked for. */
    method FillEntry(ino: int, j: int, doalloc: bool) returns (r: Found)
      requires Valid() && ino in inodes && inodes[ino].indirect != 0 && 0 <= j < DBPERIDB
      modifies this, freemap.v
      ensures Valid() && inodes.Keys == old(inodes.Keys)
      ensures BMapResult(old(S()), S(), ino, NDIRECT + j, doalloc, r)
    {
      hide PtrsOk, MarksOk;
      ghost var s := S();
      var idblock := inodes[ino].indirect;
      var idbuf := disk[idblock];
      var block := idbuf[j];
      assert block == Map(s, ino, NDIRECT + j);
      if block == 0 && doalloc {
        var got := BAlloc();
        if got.None? {
          return ENOSPC;
        }
        block := got.value;
        EntryStore(s, ino, j, block);
        ghost var t := EntrySet(Granted(s, block), ino, j, block);
        DataFrame(s, t, block, idblock, ino);
        StoredMap(s, t, ino, NDIRECT + j, block);
        idbuf := idbuf[j := block];
        disk := disk[idblock := idbuf];
      }
      r := Block(block);
    }

    method EntryBlock(ino: int, j: int, doalloc: bool) returns (r: Found)
      requires Valid() && ino in inodes && 0 <= j < DBPERIDB
      modifies this, freemap.v
      ensures Valid() && inodes.Keys == old(inodes.Keys)
      ensures BMapResult(old(S()), S(), ino, NDIRECT + j, doalloc, r)
    {
      ghost var s := S();
      NoIndirect(s, ino, j);
      hide Inv, Map, Ptr, BMapResult, SameMaps, DataKept;
      if inodes[ino].indirect == 0 {
        if !doalloc {
          return Block(0);
        }
        var ok := EnsureIndirect(ino);
        if !ok {
          return ENOSPC;
        }
      }
      ghost var m := S();
      r := FillEntry(ino, j, doalloc);
      AfterIndirect(s, m, S(), ino, NDIRECT + j, doalloc, r);
    }

    method ClearDirect(ino: int, i: int)
      requires Valid() && ino in inodes && 0 <= i < NDIRECT && inodes[ino].direct[i] != 0
      modifies this, freemap.v
      ensures Valid() && S() == DirectCleared(old(S()), ino, i)
    {
      hide PtrsOk, MarksOk;
      DirectClear(S(), ino, i);
      BFree(inodes[ino].direct[i]);
      inodes := inodes[ino := inodes[ino].(direct := inodes[ino].direct[i := 0])];
    }

    /** The loop over the direct blocks in sfs_itrunc(). */
    method TruncDirect(ino: int, blocklen: nat)
      requires Valid() && ino in inodes
      modifies this, freemap.v
      ensures Valid() && DirectDone(old(S()), S(), ino, blocklen, NDIRECT)
    {
      hide Ptr, Map;
      ghost var s := S();
      DirectStart(s, ino, blocklen);
      var i := 0;
      while i < NDIRECT
        invariant 0 <= i <= NDIRECT && Valid() && DirectDone(s, S(), ino, blocklen, i)
      {
        ghost var m := S();
        var block := inodes[ino].direct[i];
        if i >= blocklen && block != 0 {
          ClearDirect(ino, i);
        }
        DirectStep(s, m, S(), ino, blocklen, i);
        i := i + 1;
      }
    }

    /** The loop over the indirect block in sfs_itrunc(), on its buffer. */
    method FreeEntries(ino: int, blocklen: nat) returns (idbuf: Words, hasnonzero: bool)
      requires Valid() && ino in inodes && inodes[ino].indirect != 0
      modifies freemap.v
      ensures Mapped() && freemap.Used() == old(freemap.Used()) - FreedUpTo(old(S()), ino, blocklen, DBPERIDB)
      ensures idbuf == Trimmed(old(S()), ino, blocklen, DBPERIDB)
      ensures hasnonzero <==> SomeNonzero(idbuf, DBPERIDB)
    {
      hide PtrsOk, MarksOk;
      ghost var s := S();
      idbuf := disk[inodes[ino].indirect];
      hasnonzero := false;
      TrimStart(s, ino, blocklen);
      var j := 0;
      while j < DBPERIDB
        invariant 0 <= j <= DBPERIDB && Mapped() && freemap.Used() == s.used - FreedUpTo(s, ino, blocklen, j)
        invariant idbuf == Trimmed(s, ino, blocklen, j)
        invariant hasnonzero <==> SomeNonzero(idbuf, j)
      {
        TrimStep(s, ino, blocklen, j);
        ghost var was := idbuf;
        if blocklen < NDIRECT + j && idbuf[j] != 0 {
          BFree(idbuf[j]);
          idbuf := idbuf[j := 0];
        }
        if idbuf[j] != 0 {
          hasnonzero := true;
        }
        NonzeroStep(was, idbuf, j);
        j := j + 1;
      }
    }

    method TruncIndirect(ino: int, blocklen: nat)
      requires Valid() && ino in inodes
      modifies this, freemap.v
      ensures Valid() && IndirectDone(old(S()), S(), ino, blocklen)
    {
      ghost var s := S();
      var idblock := inodes[ino].indirect;
      if blocklen < MAXBLOCKS - 1 && idblock != 0 {
        var idbuf, hasnonzero := FreeEntries(ino, blocklen);
        TrimFacts(s, ino, blocklen);
        hide Inv, Ptr, IndirectDone, Trimmed, FreedUpTo;
        if !hasnonzero {
          TrimAll(s, ino, blocklen);
          BFree(idblock);
          inodes := inodes[ino := inodes[ino].(indirect := 0)];
        } else {
          TrimSome(s, ino, blocklen);
          disk := disk[idblock := idbuf];
        }
      } else {
        NothingToTrim(s, ino, blocklen);
      }
    }

    /** sfs_itrunc(). */
    method Truncate(ino: int, len: nat)
      requires Valid() && ino in inodes
      modifies this, freemap.v
      ensures Valid() && inodes.Keys == old(inodes.Keys) && inodes[ino].size == len % 0x1_0000_0000
      ensures TruncResult(old(S()), S(), ino, BlockLen(len))
    {
      hide Inv, DirectDone, IndirectDone, TruncResult, BlockLen;
      ghost var s := S();
      var blocklen := BlockLen(len);
      TruncDirect(ino, blocklen);
      ghost var m := S();
      DirectKeys(s, m, ino, blocklen);
      TruncIndirect(ino, blocklen);
      ghost var t := S();
      TruncDone(s, m, t, ino, blocklen);
      SizeKeeps(s, t, ino, blocklen, len % 0x1_0000_0000);
      inodes := inodes[ino := inodes[ino].(size := len % 0x1_0000_0000)];
    }
  }

  ghost predicate SomeNonzero(w: Words, n: int) {
    exists j :: 0 <= j < n && Word(w, j) != 0
  }

  lemma NonzeroStep(was: Words, now: Words, j: int)
    requires j >= 0 && forall k :: 0 <= k < j ==> Word(now, k) == Word(was, k)
    ensures SomeNonzero(now, j + 1) <==> SomeNonzero(was, j) || Word(now, j) != 0
  {
    if k :| 0 <= k < j && Word(was, k) != 0 {
      assert Word(now, k) != 0;
    }
  }

  ghost predicate SameMaps(s: State, t: State) {
    forall n, f :: Map(t, n, f) == Map(s, n, f)
  }

  /** A file without indirect block has no blocks past the direct ones. */
  lemma NoIndirect(s: State, ino: int, j: int)
    requires ino in s.inodes && 0 <= j < DBPERIDB
    ensures s.inodes[ino].indirect == 0 ==>
              && BMapResult(s, s, ino, NDIRECT + j, false, Block(0))
              && (Full(s) ==> BMapResult(s, s, ino, NDIRECT + j, true, ENOSPC))
    ensures SameMaps(s, s) && DataKept(s, s)
  {
  }

  lemma AfterIndirect(s: State, m: State, t: State, ino: int, fb: int, doalloc: bool, r: Found)
    requires SameMaps(s, m) && DataKept(s, m) && OnlyGrows(s, m, ino) && BMapResult(m, t, ino, fb, doalloc, r)
    requires m == s || (doalloc && Map(s, ino, fb) == 0 && fb < MAXBLOCKS)
    ensures BMapResult(s, t, ino, fb, doalloc, r)
  {
    hide Map, Read;
  }

  // sfs_itrunc

  function DirectCleared(s: State, ino: int, i: int): State
    requires ino in s.inodes && 0 <= i < |s.inodes[ino].direct|
  {
    DirectSet(s, ino, i, 0).(used := s.used - {s.inodes[ino].direct[i]})
  }

  lemma DirectClear(s: State, ino: int, i: int)
    requires Inv(s) && ino in s.inodes && 0 <= i < NDIRECT && Word(s.inodes[ino].direct, i) != 0
    ensures |s.inodes[ino].direct| == NDIRECT
    ensures s.inodes[ino].direct[i] in s.used && 0 <= s.inodes[ino].direct[i] < s.nblocks
    ensures Inv(DirectCleared(s, ino, i))
  {
    var b := Ptr(s, Direct(ino, i));
    var t := DirectCleared(s, ino, i);
    var gone := {Direct(ino, i)};
    forall m
      ensures Ptr(t, m) == if m in gone then 0 else Ptr(s, m)
    {
    }
    hide Ptr;
    assert Reached(s, b);
    forall c
      ensures Freed(s, gone, c) <==> c == b
    {
      assert Direct(ino, i) in gone;
    }
    ClearKeeps(s, t, gone);
  }

  /** The first i direct blocks have been dealt with, nothing else touched. */
  ghost predicate DirectDone(s: State, t: State, ino: int, blocklen: nat, i: int) {
    && ino in s.inodes && t.inodes.Keys == s.inodes.Keys && t.disk == s.disk
    && (forall n :: n in s.inodes && n != ino ==> t.inodes[n] == s.inodes[n])
    && t.inodes[ino] == s.inodes[ino].(direct := t.inodes[ino].direct)
    && |s.inodes[ino].direct| == |t.inodes[ino].direct| == NDIRECT
    && (forall k :: 0 <= k < NDIRECT ==>
          t.inodes[ino].direct[k] == if blocklen <= k < i then 0 else s.inodes[ino].direct[k])
  }

  lemma DirectStart(s: State, ino: int, blocklen: nat)
    requires Shapes(s) && ino in s.inodes
    ensures DirectDone(s, s, ino, blocklen, 0)
  {
  }

  lemma DirectStep(s: State, m: State, t: State, ino: int, blocklen: nat, i: int)
    requires DirectDone(s, m, ino, blocklen, i) && 0 <= i < NDIRECT
    requires t == if i >= blocklen && m.inodes[ino].direct[i] != 0 then DirectCleared(m, ino, i) else m
    ensures DirectDone(s, t, ino, blocklen, i + 1)
  {
  }

  /** The indirect block with its first n entries dealt with. */
  ghost function Trimmed(s: State, ino: int, blocklen: nat, n: int): Words
    requires ino in s.inodes && s.inodes[ino].indirect in s.disk
  {
    var w := s.disk[s.inodes[ino].indirect];
    seq(|w|, j requires 0 <= j < |w| => if j < n && blocklen < NDIRECT + j then 0 else w[j])
  }

  ghost function FreedUpTo(s: State, ino: int, blocklen: nat, n: int): set<int>
    requires ino in s.inodes && s.inodes[ino].indirect in s.disk
  {
    var w := s.disk[s.inodes[ino].indirect];
    set j | 0 <= j < n && j < |w| && blocklen < NDIRECT + j && w[j] != 0 :: w[j]
  }

  lemma TrimStart(s: State, ino: int, blocklen: nat)
    requires Shapes(s) && ino in s.inodes && s.inodes[ino].indirect != 0
    ensures Trimmed(s, ino, blocklen, 0) == s.disk[s.inodes[ino].indirect] && FreedUpTo(s, ino, blocklen, 0) == {}
  {
  }

  /** Dealing with entry j: its block, if it goes, is still marked. */
  lemma TrimStep(s: State, ino: int, blocklen: nat, j: int)
    requires Inv(s) && ino in s.inodes && s.inodes[ino].indirect != 0 && 0 <= j < DBPERIDB
    ensures |s.disk[s.inodes[ino].indirect]| == DBPERIDB
    ensures
      var b := s.disk[s.inodes[ino].indirect][j];
      var goes := blocklen < NDIRECT + j && b != 0;
      && (goes ==> b in s.used && b !in FreedUpTo(s, ino, blocklen, j) && 0 <= b < s.nblocks)
      && FreedUpTo(s, ino, blocklen, j + 1) == FreedUpTo(s, ino, blocklen, j) + (if goes then {b} else {})
      && Trimmed(s, ino, blocklen, j + 1)
         == if goes then Trimmed(s, ino, blocklen, j)[j := 0] else Trimmed(s, ino, blocklen, j)
  {
    var w := s.disk[s.inodes[ino].indirect];
    forall k | 0 <= k < DBPERIDB
      ensures Ptr(s, Entry(ino, k)) == w[k]
    {
    }
    if w[j] != 0 {
      assert Reached(s, w[j]) && w[j] !in s.meta;
      assert forall k :: 0 <= k < j ==> Ptr(s, Entry(ino, k)) != Ptr(s, Entry(ino, j));
    }
    hide Ptr, PtrsOk, MarksOk;
  }

  /** The entries that go. */
  ghost function Goners(ino: int, blocklen: nat): set<Loc> {
    set j | 0 <= j < DBPERIDB && blocklen < NDIRECT + j :: Entry(ino, j)
  }

  /** The indirect part of truncation as seen through the places. */
  ghost predicate IndirectDone(s: State, t: State, ino: int, blocklen: nat) {
    && t.inodes.Keys == s.inodes.Keys
    && (forall m :: m != Indirect(ino) ==> Ptr(t, m) == if m in Goners(ino, blocklen) then 0 else Ptr(s, m))
    && (forall n :: n in s.inodes ==>
          t.inodes[n] == if n == ino && IndirectGoes(s, ino, blocklen) then s.inodes[n].(indirect := 0) else s.inodes[n])
    && (forall c :: c == 0 || (ino in s.inodes ==> c != s.inodes[ino].indirect) ==> Read(t, c) == Read(s, c))
    && t.meta == s.meta
  }

  /** The indirect block goes when none of its entries stays; it is not even
      looked at when the new length is that of the largest file or one less. */
  ghost predicate IndirectGoes(s: State, ino: int, blocklen: nat) {
    blocklen < MAXBLOCKS - 1 && forall fb :: NDIRECT <= fb < MAXBLOCKS && fb <= blocklen ==> Map(s, ino, fb) == 0
  }

  lemma TrimFacts(s: State, ino: int, blocklen: nat)
    requires Inv(s) && ino in s.inodes && s.inodes[ino].indirect != 0
    ensures s.inodes[ino].indirect in s.disk && s.inodes[ino].indirect in s.used
    ensures 0 <= s.inodes[ino].indirect < s.nblocks
    ensures s.inodes[ino].indirect !in FreedUpTo(s, ino, blocklen, DBPERIDB)
    ensures |s.disk[s.inodes[ino].indirect]| == DBPERIDB
    ensures forall b :: b in FreedUpTo(s, ino, blocklen, DBPERIDB) <==> Freed(s, Goners(ino, blocklen), b)
  {
    var k := s.inodes[ino].indirect;
    var w := s.disk[k];
    assert Ptr(s, Indirect(ino)) == k;
    assert Reached(s, k);
    forall j | 0 <= j < DBPERIDB
      ensures Ptr(s, Entry(ino, j)) == w[j] && w[j] != k
    {
      assert Ptr(s, Entry(ino, j)) != 0 ==> Ptr(s, Entry(ino, j)) != Ptr(s, Indirect(ino));
    }
    hide Ptr, PtrsOk, MarksOk;
    forall b
      ensures b in FreedUpTo(s, ino, blocklen, DBPERIDB) <==> Freed(s, Goners(ino, blocklen), b)
    {
      if b in FreedUpTo(s, ino, blocklen, DBPERIDB) {
        var j :| 0 <= j < DBPERIDB && blocklen < NDIRECT + j && w[j] != 0 && w[j] == b;
        assert Entry(ino, j) in Goners(ino, blocklen);
      }
    }
  }

  /** The state after the indirect block has been written back. */
  ghost function TrimmedState(s: State, ino: int, blocklen: nat): State
    requires ino in s.inodes && s.inodes[ino].indirect in s.disk
  {
    s.(used := s.used - FreedUpTo(s, ino, blocklen, DBPERIDB),
       disk := s.disk[s.inodes[ino].indirect := Trimmed(s, ino, blocklen, DBPERIDB)])
  }

  lemma TrimmedPtrs(s: State, ino: int, blocklen: nat)
    requires Inv(s) && ino in s.inodes && s.inodes[ino].indirect != 0
    ensures s.inodes[ino].indirect in s.disk
    ensures
      var t := TrimmedState(s, ino, blocklen);
      Shapes(t) && forall m :: Ptr(t, m) == if m in Goners(ino, blocklen) then 0 else Ptr(s, m)
  {
    var t := TrimmedState(s, ino, blocklen);
    forall m
      ensures Ptr(t, m) == if m in Goners(ino, blocklen) then 0 else Ptr(s, m)
    {
      if m.Entry? && m.ino in s.inodes && s.inodes[m.ino].indirect == s.inodes[ino].indirect {
        OwnIndirect(s, ino, m.ino);
      }
    }
  }

  /** The flag the loop leaves tells whether the indirect block goes. */
  lemma TrimTells(s: State, ino: int, blocklen: nat)
    requires Shapes(s) && ino in s.inodes && s.inodes[ino].indirect != 0 && s.inodes[ino].indirect in s.disk
    ensures IndirectGoes(s, ino, blocklen)
       <==> blocklen < MAXBLOCKS - 1 && !SomeNonzero(Trimmed(s, ino, blocklen, DBPERIDB), DBPERIDB)
  {
    var w := Trimmed(s, ino, blocklen, DBPERIDB);
    forall fb | NDIRECT <= fb < MAXBLOCKS
      ensures Word(w, fb - NDIRECT) == if fb <= blocklen then Map(s, ino, fb) else 0
    {
    }
    hide Map, Trimmed, Word;
    if j :| 0 <= j < DBPERIDB && Word(w, j) != 0 {
      assert Word(w, NDIRECT + j - NDIRECT) == if NDIRECT + j <= blocklen then Map(s, ino, NDIRECT + j) else 0;
    }
  }

  lemma TrimSome(s: State, ino: int, blocklen: nat)
    requires Inv(s) && ino in s.inodes && s.inodes[ino].indirect != 0
    requires s.inodes[ino].indirect in s.disk && SomeNonzero(Trimmed(s, ino, blocklen, DBPERIDB), DBPERIDB)
    ensures Inv(TrimmedState(s, ino, blocklen)) && IndirectDone(s, TrimmedState(s, ino, blocklen), ino, blocklen)
  {
    TrimFacts(s, ino, blocklen);
    TrimmedPtrs(s, ino, blocklen);
    TrimTells(s, ino, blocklen);
    hide Ptr, PtrsOk, MarksOk, Trimmed, FreedUpTo, Freed, Goners;
    var t := TrimmedState(s, ino, blocklen);
    assert forall b :: b in t.used <==> b in s.used && !Freed(s, Goners(ino, blocklen), b);
    ClearKeeps(s, t, Goners(ino, blocklen));
  }

  /** The state after an indirect block without entries has been freed. */
  ghost function TrimmedAway(s: State, ino: int, blocklen: nat): State
    requires ino in s.inodes && s.inodes[ino].indirect in s.disk
  {
    IndirectSet(s, ino, 0).(
      used := s.used - FreedUpTo(s, ino, blocklen, DBPERIDB) - {s.inodes[ino].indirect})
  }

  lemma TrimAll(s: State, ino: int, blocklen: nat)
    requires Inv(s) && ino in s.inodes && s.inodes[ino].indirect != 0 && s.inodes[ino].indirect in s.disk
    requires blocklen < MAXBLOCKS - 1 && !SomeNonzero(Trimmed(s, ino, blocklen, DBPERIDB), DBPERIDB)
    ensures Inv(TrimmedAway(s, ino, blocklen)) && IndirectDone(s, TrimmedAway(s, ino, blocklen), ino, blocklen)
  {
    TrimFacts(s, ino, blocklen);
    var t, gone := TrimmedAway(s, ino, blocklen), Goners(ino, blocklen) + {Indirect(ino)};
    AwayPtrs(s, ino, blocklen);
    TrimTells(s, ino, blocklen);
    assert Ptr(s, Indirect(ino)) == s.inodes[ino].indirect;
    hide Ptr, PtrsOk, MarksOk, Trimmed, FreedUpTo, Goners;
    forall b
      ensures b in t.used <==> b in s.used && !Freed(s, gone, b)
    {
      assert Indirect(ino) in gone;
      assert Freed(s, gone, b) <==> Freed(s, Goners(ino, blocklen), b) || b == s.inodes[ino].indirect;
    }
    ClearKeeps(s, t, gone);
  }

  lemma AwayPtrs(s: State, ino: int, blocklen: nat)
    requires Shapes(s) && ino in s.inodes && s.inodes[ino].indirect != 0 && s.inodes[ino].indirect in s.disk
    requires !SomeNonzero(Trimmed(s, ino, blocklen, DBPERIDB), DBPERIDB)
    ensures
      var t := TrimmedAway(s, ino, blocklen);
      Shapes(t) && forall m :: Ptr(t, m) == if m in Goners(ino, blocklen) + {Indirect(ino)} then 0 else Ptr(s, m)
  {
    var t := TrimmedAway(s, ino, blocklen);
    forall m
      ensures Ptr(t, m) == if m in Goners(ino, blocklen) + {Indirect(ino)} then 0 else Ptr(s, m)
    {
      if m.Entry? && m.ino == ino && 0 <= m.j < DBPERIDB {
        assert Word(Trimmed(s, ino, blocklen, DBPERIDB), m.j) == 0;
      }
    }
  }

  lemma NothingToTrim(s: State, ino: int, blocklen: nat)
    requires Shapes(s) && ino in s.inodes && (blocklen >= MAXBLOCKS - 1 || s.inodes[ino].indirect == 0)
    ensures IndirectDone(s, s, ino, blocklen)
  {
  }

  /** The number of blocks len bytes take up. */
  function BlocksFor(len: nat): nat {
    (len + BLOCKSIZE - 1) / BLOCKSIZE
  }

  /** The length in blocks as the 32-bit word sfs_itrunc() keeps it in. */
  function BlockLen(len: nat): nat {
    BlocksFor(len) % 0x1_0000_0000
  }

  /** The blocks sfs_itrunc() leaves: direct ones below the new length, but
      indirect ones up to and including it. */
  predicate Kept(blocklen: nat, fb: int) {
    if fb < NDIRECT then fb < blocklen else fb <= blocklen
  }

  /** The map is cut, the data of all blocks that stay is untouched, and the
      indirect block goes when it is found empty. */
  ghost predicate TruncResult(s: State, t: State, ino: int, blocklen: nat) {
    && (forall n, fb :: Map(t, n, fb) == if n == ino && !Kept(blocklen, fb) then 0 else Map(s, n, fb))
    && DataKept(s, t) && t.inodes.Keys == s.inodes.Keys
    && (forall n :: n in s.inodes && n != ino ==> t.inodes[n] == s.inodes[n])
    && (ino in s.inodes ==>
          t.inodes[ino].indirect == if IndirectGoes(s, ino, blocklen) then 0 else s.inodes[ino].indirect)
  }

  lemma DirectKeys(s: State, m: State, ino: int, blocklen: nat)
    requires DirectDone(s, m, ino, blocklen, NDIRECT)
    ensures m.inodes.Keys == s.inodes.Keys && ino in m.inodes
  {
  }

  lemma TruncDone(s: State, m: State, t: State, ino: int, blocklen: nat)
    requires Inv(s) && DirectDone(s, m, ino, blocklen, NDIRECT) && IndirectDone(m, t, ino, blocklen)
    requires m.meta == s.meta
    ensures TruncResult(s, t, ino, blocklen) && t.inodes.Keys == s.inodes.Keys && ino in t.inodes
  {
    TruncMaps(s, m, t, ino, blocklen);
    TruncData(s, m, t, ino, blocklen);
    assert IndirectGoes(m, ino, blocklen) == IndirectGoes(s, ino, blocklen) by {
      forall fb | NDIRECT <= fb < MAXBLOCKS
        ensures Map(m, ino, fb) == Map(s, ino, fb)
      {
        DirectPtr(s, m, ino, blocklen, Home(ino, fb));
      }
      hide Map;
    }
  }

  lemma TruncData(s: State, m: State, t: State, ino: int, blocklen: nat)
    requires Inv(s) && DirectDone(s, m, ino, blocklen, NDIRECT) && IndirectDone(m, t, ino, blocklen)
    requires m.meta == s.meta
    ensures DataKept(s, t)
  {
    var k := s.inodes[ino].indirect;
    assert k == Ptr(s, Indirect(ino));
    assert forall c :: c == 0 || c != k ==> Read(t, c) == Read(s, c);
    hide Ptr, Read, DirectDone, IndirectDone;
    forall n, f | Map(s, n, f) != 0
      ensures Map(s, n, f) != k
    {
      assert Home(n, f) != Indirect(ino);
      assert Map(s, n, f) == Ptr(s, Home(n, f));
    }
    assert k == 0 || k !in s.meta;
  }

  lemma TruncMaps(s: State, m: State, t: State, ino: int, blocklen: nat)
    requires DirectDone(s, m, ino, blocklen, NDIRECT) && IndirectDone(m, t, ino, blocklen)
    ensures forall n, fb :: Map(t, n, fb) == if n == ino && !Kept(blocklen, fb) then 0 else Map(s, n, fb)
  {
    forall n, fb
      ensures Map(t, n, fb) == if n == ino && !Kept(blocklen, fb) then 0 else Map(s, n, fb)
    {
      if 0 <= fb < MAXBLOCKS {
        assert Home(n, fb) in Goners(ino, blocklen) <==> n == ino && fb >= NDIRECT && fb > blocklen;
        DirectPtr(s, m, ino, blocklen, Home(n, fb));
      }
    }
  }

  lemma DirectPtr(s: State, m: State, ino: int, blocklen: nat, l: Loc)
    requires DirectDone(s, m, ino, blocklen, NDIRECT)
    ensures Ptr(m, l) == if l.Direct? && l.ino == ino && blocklen <= l.i then 0 else Ptr(s, l)
  {
  }

  lemma SizeKeeps(s: State, t: State, ino: int, blocklen: nat, len: nat)
    requires Inv(t) && ino in t.inodes && TruncResult(s, t, ino, blocklen)
    ensures
      var u := t.(inodes := t.inodes[ino := t.inodes[ino].(size := len)]);
      Inv(u) && TruncResult(s, u, ino, blocklen)
  {
    var u := t.(inodes := t.inodes[ino := t.inodes[ino].(size := len)]);
    assert forall l :: Ptr(u, l) == Ptr(t, l);
    assert Shapes(u);
    assert forall n, f :: Map(u, n, f) == Map(t, n, f);
    hide Ptr, Map;
    SamePtrs(t, u);
  }

  lemma SamePtrs(t: State, u: State)
    requires PtrsOk(t) && MarksOk(t) && (forall l :: Ptr(u, l) == Ptr(t, l))
    requires u.used == t.used && u.meta == t.meta && u.nblocks == t.nblocks
    ensures PtrsOk(u) && MarksOk(u)
  {
    hide Ptr;
    forall b
      ensures Reached(u, b) == Reached(t, b)
    {
      if l :| Ptr(t, l) == b {
        assert Ptr(u, l) == b;
      }
      if l :| Ptr(u, l) == b {
        assert Ptr(t, l) == b;
      }
    }
  }

  /** Byte fb * BLOCKSIZE of a file of len bytes exists. */
  predicate Below(len: nat, fb: int) {
    0 <= fb && fb * BLOCKSIZE < len
  }

  lemma BelowIsCounted(len: nat, fb: int)
    ensures Below(len, fb) <==> 0 <= fb < BlocksFor(len)
  {
  }

  /** No block below the new length is lost if and only if the length in
      blocks fits its 32-bit word, or the file has no block that the
      wrapped length cuts off. */
  lemma TruncKeepsBelow(s: State, t: State, ino: int, len: nat)
    requires TruncResult(s, t, ino, BlockLen(len))
    ensures (forall fb :: Below(len, fb) ==> Map(t, ino, fb) == Map(s, ino, fb))
       <==> BlocksFor(len) < 0x1_0000_0000 || forall fb :: !Kept(BlockLen(len), fb) ==> Map(s, ino, fb) == 0
  {
    var n, blocklen := BlocksFor(len), BlockLen(len);
    assert n < 0x1_0000_0000 ==> blocklen == n;
    forall fb
      ensures Below(len, fb) <==> 0 <= fb < n
    {
      BelowIsCounted(len, fb);
    }
    assert forall fb :: !(0 <= fb < MAXBLOCKS) ==> Map(s, ino, fb) == 0;
    hide Map, Below, BlocksFor, BlockLen;
    if n >= 0x1_0000_0000 && forall fb :: Below(len, fb) ==> Map(t, ino, fb) == Map(s, ino, fb) {
      forall fb | !Kept(blocklen, fb)
        ensures Map(s, ino, fb) == 0
      {
        assert 0 <= fb < MAXBLOCKS ==> Below(len, fb);
      }
    }
  }

  /** A length of 2 TiB counts as 0 blocks: the file loses its first block,
      which is below the new length. */
  lemma TruncLosesBelow()
    ensures
      var s := State(map[3 := Inode(seq(NDIRECT, i => if i == 0 then 9 else 0), 0, 512)], map[], {0, 3, 9}, {0, 3}, 16);
      && Inv(s) && Map(s, 3, 0) == 9 && Below(0x200_0000_0000, 0) && BlockLen(0x200_0000_0000) == 0
      && forall t :: TruncResult(s, t, 3, BlockLen(0x200_0000_0000)) ==> Map(t, 3, 0) == 0
  {
    var d: Words := seq(NDIRECT, i => if i == 0 then 9 else 0);
    var s := State(map[3 := Inode(d, 0, 512)], map[], {0, 3, 9}, {0, 3}, 16);
    assert Ptr(s, Direct(3, 0)) == 9;
    assert forall l :: Ptr(s, l) != 0 ==> l == Direct(3, 0);
    assert Reached(s, 9);
  }

  /** It frees everything at or past the new length if and only if it does
      not meet a block, in the indirect range, right at the new length. */
  lemma TruncComplete(s: State, t: State, ino: int, len: nat)
    requires TruncResult(s, t, ino, BlockLen(len))
    ensures
      var n := BlocksFor(len);
      (forall fb :: !Below(len, fb) ==> Map(t, ino, fb) == 0)
      <==> !(NDIRECT <= n < MAXBLOCKS && Map(s, ino, n) != 0)
  {
    var n := BlocksFor(len);
    BelowIsCounted(len, n);
    if NDIRECT <= n < MAXBLOCKS && Map(s, ino, n) != 0 {
      assert Map(t, ino, n) == Map(s, ino, n);
    } else {
      forall fb | !Below(len, fb)
        ensures Map(t, ino, fb) == 0
      {
        BelowIsCounted(len, fb);
        assert Map(t, ino, fb) == if !Kept(BlockLen(len), fb) then 0 else Map(s, ino, fb);
      }
    }
  }

  /** Below the length of the largest file the indirect block stays if and
      only if one of its entries does. */
  lemma IndirectFreed(s: State, t: State, ino: int, len: nat)
    requires TruncResult(s, t, ino, BlockLen(len)) && ino in s.inodes && BlocksFor(len) < MAXBLOCKS - 1
    ensures t.inodes[ino].indirect == 0
       <==> s.inodes[ino].indirect == 0 || forall fb :: NDIRECT <= fb <= BlocksFor(len) ==> Map(s, ino, fb) == 0
  {
    hide Map;
  }

  /** Truncation to nothing leaves the file no block at all. */
  lemma TruncToNothing(s: State, t: State, ino: int)
    requires TruncResult(s, t, ino, BlockLen(0)) && ino in s.inodes
    ensures t.inodes[ino].indirect == 0 && forall fb :: Map(t, ino, fb) == 0
  {
    IndirectFreed(s, t, ino, 0);
    forall fb
      ensures Map(t, ino, fb) == 0
    {
      assert Map(t, ino, fb) == if !Kept(BlockLen(0), fb) then 0 else Map(s, ino, fb);
    }
  }

  /** A file that keeps a block it should have lost: its block 15, when it is
      cut to 15 blocks. */
  lemma TruncIncomplete()
    ensures
      var w := Zeros()[0 := 9];
      var s := State(map[3 := Inode(seq(NDIRECT, i => 0), 8, 8192)], map[8 := w], {0, 3, 8, 9}, {0, 3}, 16);
      && Inv(s) && Map(s, 3, 15) == 9 && BlockLen(15 * BLOCKSIZE) == 15 && !Below(15 * BLOCKSIZE, 15)
      && forall t :: TruncResult(s, t, 3, BlockLen(15 * BLOCKSIZE)) ==> Map(t, 3, 15) == 9
  {
    var w := Zeros()[0 := 9];
    var s := State(map[3 := Inode(seq(NDIRECT, i => 0), 8, 8192)], map[8 := w], {0, 3, 8, 9}, {0, 3}, 16);
    assert Ptr(s, Indirect(3)) == 8 && Ptr(s, Entry(3, 0)) == 9;
    assert forall l :: Ptr(s, l) != 0 ==> l == Indirect(3) || l == Entry(3, 0);
    assert Reached(s, 8) && Reached(s, 9);
  }

  /** Writing file data leaves every map as it was. */
  lemma DataWriteKeepsMaps(s: State, ino: int, fb: int, data: Words)
    requires Inv(s) && Map(s, ino, fb) != 0
    ensures
      var t := s.(disk := s.disk[Map(s, ino, fb) := data]);
      Inv(t) && SameMaps(s, t)
  {
    var b := Map(s, ino, fb);
    var t := s.(disk := s.disk[b := data]);
    forall n | n in s.inodes
      ensures s.inodes[n].indirect != b
    {
      assert Ptr(s, Indirect(n)) == s.inodes[n].indirect && Home(ino, fb) != Indirect(n);
    }
    assert forall l :: Ptr(t, l) == Ptr(s, l);
    assert Shapes(t);
    hide Ptr;
    SamePtrs(s, t);
  }
}
