/** The kernel heap (os_mem.c): a first-fit allocator over an address-ordered free list that coalesces on
    free. First the heap as the sequence of blocks that tile it, then the allocator on raw headers. */
module Heap {
  import opened Sequences

  const HEADER: nat := 8
  const ALIGN: nat := 8
  const MIN_BLOCK: nat := HEADER + ALIGN
  const WORD: nat := 0x1_0000_0000
  const FLAG: nat := 0x8000_0000

  datatype Block = Block(addr: nat, size: nat, free: bool)

  // ---------- the tiling ----------

  predicate Aligned(x: nat) { x % ALIGN == 0 }

  /** The blocks cover lo..hi without gap or overlap, each 8-aligned in place and size. */
  predicate Tiled(bs: seq<Block>, lo: nat, hi: nat)
    decreases |bs|
  {
    if bs == [] then lo == hi
    else bs[0].addr == lo && Aligned(lo) && Aligned(bs[0].size) && bs[0].size >= MIN_BLOCK && Tiled(bs[1..], lo + bs[0].size, hi)
  }

  /** No two free blocks touch. */
  predicate Coalesced(bs: seq<Block>) { forall i :: 0 < i < |bs| && bs[i].free ==> !bs[i - 1].free }

  function FreeSum(bs: seq<Block>): nat
    decreases |bs|
  {
    if bs == [] then 0 else (if bs[0].free then bs[0].size else 0) + FreeSum(bs[1..])
  }

  predicate Sound(bs: seq<Block>, lo: nat, hi: nat) { Tiled(bs, lo, hi) && Coalesced(bs) }

  // ---------- allocation and release on the tiling ----------

  /** The whole block a request needs, with the 32-bit arithmetic of the source; None if it can never be. */
  function Need(size: nat): Option<nat>
    requires size < WORD
  {
    var rounded := (size + ALIGN - 1) % WORD / ALIGN * ALIGN;
    var need := (HEADER + rounded) % WORD;
    if size != 0 && need >= size && need < FLAG then Some(need) else None
  }

  /** The first free block of at least `need` bytes; |bs| when there is none. */
  function FirstFit(bs: seq<Block>, need: nat): (i: nat)
    ensures i <= |bs|
    decreases |bs|
  {
    if bs == [] then 0
    else if bs[0].free && bs[0].size >= need then 0
    else 1 + FirstFit(bs[1..], need)
  }

  /** Block i taken, and split when the leftover still makes a usable block. */
  function Carve(bs: seq<Block>, i: nat, need: nat): seq<Block>
    requires i < |bs| && bs[i].size >= need
  {
    var b := bs[i];
    if b.size - need >= MIN_BLOCK
    then bs[..i] + [Block(b.addr, need, false), Block(b.addr + need, b.size - need, true)] + bs[i + 1..]
    else bs[..i] + [Block(b.addr, b.size, false)] + bs[i + 1..]
  }

  /** Block i given back and merged with the free neighbours it touches. */
  function Release(bs: seq<Block>, i: nat): seq<Block>
    requires i < |bs|
  {
    var left := i > 0 && bs[i - 1].free;
    var right := i + 1 < |bs| && bs[i + 1].free;
    bs[..if left then i - 1 else i]
    + [Block(if left then bs[i - 1].addr else bs[i].addr,
             (if left then bs[i - 1].size else 0) + bs[i].size + (if right then bs[i + 1].size else 0), true)]
    + bs[if right then i + 2 else i + 1..]
  }

  // ---------- a request's size ----------

  /** Rounding up is exact: a request is refused exactly when it is empty or its block would reach the
      flag bit, and no wrapped sum is ever taken for a small one. */
  lemma NeedRoundsUp(size: nat)
    requires size < WORD
    ensures Need(size).Some? <==> size != 0 && HEADER + (size + ALIGN - 1) / ALIGN * ALIGN < FLAG
    ensures Need(size).Some? ==> Need(size).value == HEADER + (size + ALIGN - 1) / ALIGN * ALIGN
    ensures Need(size).Some? ==> Need(size).value % ALIGN == 0 && Need(size).value >= MIN_BLOCK && Need(size).value >= size + HEADER
  {
    var up := (size + ALIGN - 1) / ALIGN * ALIGN;
    if size + ALIGN - 1 < WORD {
      assert (size + ALIGN - 1) % WORD == size + ALIGN - 1;
      if HEADER + up >= WORD { assert (HEADER + up) % WORD == HEADER + up - WORD; }
    } else {
      assert (size + ALIGN - 1) % WORD == size + ALIGN - 1 - WORD;
      assert (size + ALIGN - 1 - WORD) / ALIGN * ALIGN <= 8;
    }
  }

  // ---------- the tiling is kept ----------

  lemma {:induction false} TiledJoin(a: seq<Block>, b: seq<Block>, lo: nat, mid: nat, hi: nat)
    requires Tiled(a, lo, mid) && Tiled(b, mid, hi)
    ensures Tiled(a + b, lo, hi)
    decreases |a|
  {
    if a == [] {
      assert a + b == b;
    } else {
      assert (a + b)[1..] == a[1..] + b;
      TiledJoin(a[1..], b, lo + a[0].size, mid, hi);
    }
  }

  lemma {:induction false} TiledSplit(bs: seq<Block>, i: nat, lo: nat, hi: nat) returns (mid: nat)
    requires Tiled(bs, lo, hi) && i <= |bs|
    ensures lo <= mid <= hi && Tiled(bs[..i], lo, mid) && Tiled(bs[i..], mid, hi)
    ensures i < |bs| ==> bs[i].addr == mid && mid + bs[i].size <= hi && Tiled(bs[i + 1..], mid + bs[i].size, hi)
    ensures i < |bs| ==> Aligned(bs[i].size) && Aligned(mid) && bs[i].size >= MIN_BLOCK
    decreases i
  {
    if i == 0 {
      mid := lo;
      assert bs[0..] == bs;
      TiledOrders(bs, lo, hi);
      if bs != [] { TiledOrders(bs[1..], lo + bs[0].size, hi); }
    } else {
      mid := TiledSplit(bs[1..], i - 1, lo + bs[0].size, hi);
      assert bs[..i] == [bs[0]] + bs[1..][..i - 1];
      assert bs[..i][1..] == bs[1..][..i - 1];
      assert bs[i..] == bs[1..][i - 1..];
      if i < |bs| { assert bs[i + 1..] == bs[1..][i..]; }
    }
  }

  lemma {:induction false} TiledOrders(bs: seq<Block>, lo: nat, hi: nat)
    requires Tiled(bs, lo, hi)
    ensures lo <= hi
    decreases |bs|
  {
    if bs != [] {
      TiledOrders(bs[1..], lo + bs[0].size, hi);
    }
  }

  lemma {:induction false} FreeSumJoin(a: seq<Block>, b: seq<Block>)
    ensures FreeSum(a + b) == FreeSum(a) + FreeSum(b)
    decreases |a|
  {
    if a == [] {
      assert a + b == b;
    } else {
      assert (a + b)[1..] == a[1..] + b;
      FreeSumJoin(a[1..], b);
    }
  }

  lemma FreeSumAround(bs: seq<Block>, i: nat, mid: seq<Block>)
    requires i < |bs|
    ensures FreeSum(bs[..i] + mid + bs[i + 1..]) == FreeSum(bs) - FreeSum([bs[i]]) + FreeSum(mid)
  {
    assert bs == bs[..i] + [bs[i]] + bs[i + 1..];
    FreeSumJoin(bs[..i] + [bs[i]], bs[i + 1..]);
    FreeSumJoin(bs[..i], [bs[i]]);
    FreeSumJoin(bs[..i] + mid, bs[i + 1..]);
    FreeSumJoin(bs[..i], mid);
  }

  /** What FirstFit finds: a free block that is large enough, none before it. */
  lemma {:induction false} FirstFitIsFirst(bs: seq<Block>, need: nat)
    ensures var i := FirstFit(bs, need);
            && (i < |bs| ==> bs[i].free && bs[i].size >= need)
            && (forall j :: 0 <= j < i ==> !(bs[j].free && bs[j].size >= need))
    decreases |bs|
  {
    if bs != [] && !(bs[0].free && bs[0].size >= need) {
      FirstFitIsFirst(bs[1..], need);
    }
  }

  lemma TwoTiled(mid: nat, need: nat, size: nat, two: seq<Block>)
    requires Aligned(size) && Aligned(need) && Aligned(mid) && need + MIN_BLOCK <= size && need >= MIN_BLOCK
    requires two == [Block(mid, need, false), Block(mid + need, size - need, true)]
    ensures Tiled(two, mid, mid + size)
  {
    Multiples(size, need, mid);
    hide Aligned;
    assert two[1..] == [two[1]];
    assert two[1..][1..] == [];
    assert Tiled(two[1..][1..], mid + size, mid + size);
    assert Tiled(two[1..], mid + need, mid + size);
  }

  lemma FreeSumOne(b: Block)
    ensures FreeSum([b]) == if b.free then b.size else 0
  {
    assert [b][1..] == [];
  }

  lemma CarveSplits(bs: seq<Block>, i: nat, need: nat, lo: nat, hi: nat)
    requires Sound(bs, lo, hi) && i < |bs| && bs[i].free && bs[i].size >= need + MIN_BLOCK && Aligned(need) && need >= MIN_BLOCK
    ensures Tiled(Carve(bs, i, need), lo, hi) && FreeSum(Carve(bs, i, need)) == FreeSum(bs) - need
  {
    var b := bs[i];
    var mid := TiledSplit(bs, i, lo, hi);
    var two := [Block(b.addr, need, false), Block(b.addr + need, b.size - need, true)];
    TwoTiled(mid, need, b.size, two);
    FreeSumOne(two[0]);
    FreeSumOne(two[1]);
    FreeSumJoin([two[0]], [two[1]]);
    assert two == [two[0]] + [two[1]];
    FreeSumOne(b);
    hide Tiled, FreeSum, Coalesced;
    TiledJoin(bs[..i], two, lo, mid, mid + b.size);
    TiledJoin(bs[..i] + two, bs[i + 1..], lo, mid + b.size, hi);
    FreeSumAround(bs, i, two);
  }

  lemma CarveTakesAll(bs: seq<Block>, i: nat, need: nat, lo: nat, hi: nat)
    requires Sound(bs, lo, hi) && i < |bs| && bs[i].free && need <= bs[i].size < need + MIN_BLOCK
    ensures Tiled(Carve(bs, i, need), lo, hi) && FreeSum(Carve(bs, i, need)) == FreeSum(bs) - bs[i].size
  {
    var b := bs[i];
    var mid := TiledSplit(bs, i, lo, hi);
    var one := [Block(b.addr, b.size, false)];
    SingleTiled(mid, b.size, false);
    FreeSumOne(one[0]);
    FreeSumOne(b);
    hide Tiled, FreeSum, Coalesced;
    TiledJoin(bs[..i], one, lo, mid, mid + b.size);
    TiledJoin(bs[..i] + one, bs[i + 1..], lo, mid + b.size, hi);
    FreeSumAround(bs, i, one);
  }

  lemma CarveCoalesced(bs: seq<Block>, i: nat, need: nat)
    requires Coalesced(bs) && i < |bs| && bs[i].free && bs[i].size >= need
    ensures Coalesced(Carve(bs, i, need))
  {
    var c := Carve(bs, i, need);
    forall j | 0 < j < |c| && c[j].free ensures !c[j - 1].free {
      if |c| > |bs| { if j > i + 2 { assert c[j] == bs[j - 1] && c[j - 1] == bs[j - 2]; } }
      else if j > i + 1 { assert c[j] == bs[j] && c[j - 1] == bs[j - 1]; }
    }
  }

  /** Less than a usable block is given away beyond what was asked, and no other block is touched. */
  lemma CarveWastesLittle(bs: seq<Block>, i: nat, need: nat)
    requires i < |bs| && bs[i].size >= need
    ensures i < |Carve(bs, i, need)| && need <= Carve(bs, i, need)[i].size < need + MIN_BLOCK
    ensures forall b :: b in bs && b != bs[i] ==> b in Carve(bs, i, need)
  {
    assert bs == bs[..i] + [bs[i]] + bs[i + 1..];
  }

  /** Allocation keeps the tiling, the alignment and the separation of free blocks, takes exactly the allocated
      block out of the free bytes, and gives away less than a usable block more than was asked. */
  lemma CarveKeeps(bs: seq<Block>, i: nat, need: nat, lo: nat, hi: nat)
    requires Sound(bs, lo, hi) && i < |bs| && bs[i].free && bs[i].size >= need && Aligned(need) && need >= MIN_BLOCK
    ensures Sound(Carve(bs, i, need), lo, hi)
    ensures i < |Carve(bs, i, need)| && !Carve(bs, i, need)[i].free
    ensures Carve(bs, i, need)[i].addr == bs[i].addr && Carve(bs, i, need)[i].size >= need
    ensures FreeSum(Carve(bs, i, need)) == FreeSum(bs) - Carve(bs, i, need)[i].size
    ensures Carve(bs, i, need)[i].size < need + MIN_BLOCK && forall b :: b in bs && b != bs[i] ==> b in Carve(bs, i, need)
  {
    hide Tiled, FreeSum, Coalesced, Aligned;
    CarveCoalesced(bs, i, need);
    CarveWastesLittle(bs, i, need);
    if bs[i].size - need >= MIN_BLOCK { CarveSplits(bs, i, need, lo, hi); } else { CarveTakesAll(bs, i, need, lo, hi); }
  }

  lemma Multiples(size: nat, need: nat, mid: nat)
    requires Aligned(size) && Aligned(need) && Aligned(mid) && need <= size
    ensures Aligned(size - need) && Aligned(mid + need)
  {
  }

  lemma AlignedSum(a: nat, b: nat)
    requires Aligned(a) && Aligned(b)
    ensures Aligned(a + b)
  {
  }

  /** Two neighbours become one block of the tiling. */
  lemma {:induction false} MergeKeeps(bs: seq<Block>, i: nat, free: bool, lo: nat, hi: nat)
    requires Tiled(bs, lo, hi) && i + 1 < |bs|
    ensures Tiled(bs[..i] + [Block(bs[i].addr, bs[i].size + bs[i + 1].size, free)] + bs[i + 2..], lo, hi)
    decreases i
  {
    var merged := bs[..i] + [Block(bs[i].addr, bs[i].size + bs[i + 1].size, free)] + bs[i + 2..];
    if i == 0 {
      assert merged[1..] == bs[2..] == bs[1..][1..];
      AlignedSum(bs[0].size, bs[1].size);
    } else {
      MergeKeeps(bs[1..], i - 1, free, lo + bs[0].size, hi);
      assert merged[1..] == bs[1..][..i - 1] + [Block(bs[i].addr, bs[i].size + bs[i + 1].size, free)] + bs[1..][i + 1..];
    }
  }

  lemma SingleTiled(mid: nat, size: nat, free: bool)
    requires Aligned(mid) && Aligned(size) && size >= MIN_BLOCK
    ensures Tiled([Block(mid, size, free)], mid, mid + size)
  {
    assert [Block(mid, size, free)][1..] == [];
  }

  /** Whether a block is free is no part of the tiling. */
  lemma {:induction false} FlipKeeps(bs: seq<Block>, i: nat, free: bool, lo: nat, hi: nat)
    requires Tiled(bs, lo, hi) && i < |bs|
    ensures Tiled(bs[i := bs[i].(free := free)], lo, hi)
    decreases i
  {
    var bs' := bs[i := bs[i].(free := free)];
    if i == 0 {
      assert bs'[1..] == bs[1..];
    } else {
      assert bs'[1..] == bs[1..][i - 1 := bs[i].(free := free)];
      FlipKeeps(bs[1..], i - 1, free, lo + bs[0].size, hi);
    }
  }

  /** Block i made free, a free successor swallowed. */
  function Grown(bs: seq<Block>, i: nat): seq<Block>
    requires i < |bs|
  {
    var right := i + 1 < |bs| && bs[i + 1].free;
    bs[..i] + [Block(bs[i].addr, bs[i].size + (if right then bs[i + 1].size else 0), true)] + bs[if right then i + 2 else i + 1..]
  }

  lemma GrownTiled(bs: seq<Block>, i: nat, lo: nat, hi: nat)
    requires Tiled(bs, lo, hi) && i < |bs|
    ensures Tiled(Grown(bs, i), lo, hi)
  {
    hide Tiled;
    if i + 1 < |bs| && bs[i + 1].free {
      MergeKeeps(bs, i, true, lo, hi);
    } else {
      FlipKeeps(bs, i, true, lo, hi);
      assert bs[i := bs[i].(free := true)] == Grown(bs, i);
    }
  }

  lemma ReleaseTiled(bs: seq<Block>, i: nat, lo: nat, hi: nat)
    requires Tiled(bs, lo, hi) && i < |bs|
    ensures Tiled(Release(bs, i), lo, hi)
  {
    hide Tiled;
    var g := Grown(bs, i);
    GrownTiled(bs, i, lo, hi);
    if i > 0 && bs[i - 1].free {
      MergeKeeps(g, i - 1, true, lo, hi);
      assert g[i - 1] == bs[i - 1] && g[..i - 1] == bs[..i - 1] && g[i + 1..] == bs[if i + 1 < |bs| && bs[i + 1].free then i + 2 else i + 1..];
    } else {
      assert Release(bs, i) == g;
    }
  }

  lemma ReleaseCoalesced(bs: seq<Block>, i: nat)
    requires Coalesced(bs) && i < |bs| && !bs[i].free
    ensures Coalesced(Release(bs, i))
  {
    var left := i > 0 && bs[i - 1].free;
    var right := i + 1 < |bs| && bs[i + 1].free;
    var r := Release(bs, i);
    var k := if left then i - 1 else i;
    var z := if right then i + 2 else i + 1;
    assert r == bs[..k] + [r[k]] + bs[z..];
    forall j | 0 < j < |r| && r[j].free ensures !r[j - 1].free {
      if j < k {
        assert r[j] == bs[j] && r[j - 1] == bs[j - 1];
      } else if j == k {
        assert r[j - 1] == bs[j - 1];
      } else {
        assert r[j] == bs[z..][j - k - 1] == bs[z + (j - k - 1)];
        if j > k + 1 { assert r[j - 1] == bs[z..][j - k - 2] == bs[z + (j - k - 2)]; }
      }
    }
  }

  lemma ReleaseSum(bs: seq<Block>, i: nat)
    requires i < |bs| && !bs[i].free
    ensures FreeSum(Release(bs, i)) == FreeSum(bs) + bs[i].size
  {
    var left := i > 0 && bs[i - 1].free;
    var right := i + 1 < |bs| && bs[i + 1].free;
    var a := if left then i - 1 else i;
    var z := if right then i + 2 else i + 1;
    var made := [Release(bs, i)[a]];
    FreeSumOf(bs[a..z], made, bs, i, left, right);
    hide FreeSum;
    FreeSumCut(bs, a, z, made);
  }

  /** A stretch of blocks replaced by others. */
  lemma FreeSumCut(bs: seq<Block>, a: nat, z: nat, made: seq<Block>)
    requires a <= z <= |bs|
    ensures FreeSum(bs[..a] + made + bs[z..]) == FreeSum(bs) - FreeSum(bs[a..z]) + FreeSum(made)
  {
    hide FreeSum;
    FreeSumThree(bs[..a], bs[a..z], bs[z..]);
    FreeSumThree(bs[..a], made, bs[z..]);
    assert bs == bs[..a] + bs[a..z] + bs[z..];
  }

  lemma FreeSumThree(a: seq<Block>, b: seq<Block>, c: seq<Block>)
    ensures FreeSum(a + b + c) == FreeSum(a) + FreeSum(b) + FreeSum(c)
  {
    FreeSumJoin(a + b, c);
    FreeSumJoin(a, b);
  }

  lemma FreeSumOf(gone: seq<Block>, made: seq<Block>, bs: seq<Block>, i: nat, left: bool, right: bool)
    requires i < |bs| && !bs[i].free && left == (i > 0 && bs[i - 1].free) && right == (i + 1 < |bs| && bs[i + 1].free)
    requires gone == bs[if left then i - 1 else i..if right then i + 2 else i + 1]
    requires |made| == 1 && made[0].free
    requires made[0].size == (if left then bs[i - 1].size else 0) + bs[i].size + (if right then bs[i + 1].size else 0)
    ensures FreeSum(made) == FreeSum(gone) + bs[i].size
  {
    var l: seq<Block> := if left then [bs[i - 1]] else [];
    var r: seq<Block> := if right then [bs[i + 1]] else [];
    hide *;
    Stretch(bs, i, left, right);
    assert made == [made[0]];
    FreeSumNone();
    FreeSumThree(l, [bs[i]], r);
    FreeSumOne(made[0]);
    FreeSumOne(bs[i]);
    if left { FreeSumOne(bs[i - 1]); }
    if right { FreeSumOne(bs[i + 1]); }
  }

  /** A block with the neighbours named. */
  lemma Stretch(bs: seq<Block>, i: nat, left: bool, right: bool)
    requires i < |bs| && (left ==> i > 0) && (right ==> i + 1 < |bs|)
    ensures bs[if left then i - 1 else i..if right then i + 2 else i + 1]
         == (if left then [bs[i - 1]] else []) + [bs[i]] + (if right then [bs[i + 1]] else [])
  {
    if left {
      if right { assert bs[i - 1..i + 2] == [bs[i - 1], bs[i], bs[i + 1]]; } else { assert bs[i - 1..i + 1] == [bs[i - 1], bs[i]]; }
    }
  }

  lemma FreeSumNone()
    ensures FreeSum([]) == 0
  {
  }

  /** A block that is neither i nor a free neighbour stands before or behind what is merged. */
  lemma LiveStay(bs: seq<Block>, i: nat)
    requires i < |bs|
    ensures forall b :: b in bs && !b.free && b != bs[i] ==> b in Release(bs, i)
  {
    var k := if i > 0 && bs[i - 1].free then i - 1 else i;
    var z := if i + 1 < |bs| && bs[i + 1].free then i + 2 else i + 1;
    var r := Release(bs, i);
    ReleaseShape(bs, i);
    hide Release;
    forall b | b in bs && !b.free && b != bs[i] ensures b in r {
      var j :| 0 <= j < |bs| && bs[j] == b;
      if j < k { assert r[j] == b; } else { assert j >= z && r[k + 1 + (j - z)] == b; }
    }
  }

  lemma ReleaseShape(bs: seq<Block>, i: nat)
    requires i < |bs|
    ensures var k := if i > 0 && bs[i - 1].free then i - 1 else i; var z := if i + 1 < |bs| && bs[i + 1].free then i + 2 else i + 1;
            var r := Release(bs, i);
            && |r| == k + 1 + (|bs| - z) && (forall j :: 0 <= j < k ==> r[j] == bs[j]) && forall j :: z <= j < |bs| ==> r[k + 1 + (j - z)] == bs[j]
  {
  }

  /** Freeing keeps every part of the invariant, returns exactly the block's bytes, and touches no other live block. */
  lemma ReleaseKeeps(bs: seq<Block>, i: nat, lo: nat, hi: nat)
    requires Sound(bs, lo, hi) && i < |bs| && !bs[i].free
    ensures Sound(Release(bs, i), lo, hi) && FreeSum(Release(bs, i)) == FreeSum(bs) + bs[i].size
    ensures forall b :: b in bs && !b.free && b != bs[i] ==> b in Release(bs, i)
  {
    LiveStay(bs, i);
    hide Tiled, FreeSum, Coalesced, Release;
    ReleaseTiled(bs, i, lo, hi);
    ReleaseCoalesced(bs, i);
    ReleaseSum(bs, i);
  }

  /** Freeing a block immediately after allocating it restores the heap exactly, split or not. */
  lemma FreeUndoesAlloc(bs: seq<Block>, i: nat, need: nat)
    requires Coalesced(bs) && i < |bs| && bs[i].free && bs[i].size >= need
    ensures Release(Carve(bs, i, need), i) == bs
  {
    var b := bs[i];
    var c := Carve(bs, i, need);
    assert i > 0 ==> !bs[i - 1].free && c[i - 1] == bs[i - 1];
    assert bs == bs[..i] + [b] + bs[i + 1..];
    if b.size - need >= MIN_BLOCK {
      assert c[i + 1].free && c[i + 2..] == bs[i + 1..] && c[..i] == bs[..i];
    } else {
      assert i + 1 < |bs| ==> c[i + 1] == bs[i + 1] && !bs[i + 1].free;
      assert c[i + 1..] == bs[i + 1..] && c[..i] == bs[..i];
    }
  }

  // ---------- when allocation fails ----------

  /** Byte x lies in a free block. */
  ghost predicate FreeByte(bs: seq<Block>, x: nat) {
    exists i :: 0 <= i < |bs| && bs[i].free && bs[i].addr <= x < bs[i].addr + bs[i].size
  }

  /** n contiguous free bytes start at a. */
  ghost predicate FreeRun(bs: seq<Block>, a: nat, n: nat) { forall x: nat :: a <= x < a + n ==> FreeByte(bs, x) }

  lemma BlockBefore(bs: seq<Block>, i: nat, j: nat, lo: nat, hi: nat)
    requires Tiled(bs, lo, hi) && i < j < |bs|
    ensures bs[i].addr + bs[i].size <= bs[j].addr
    ensures j == i + 1 ==> bs[i].addr + bs[i].size == bs[j].addr
  {
    var mid := TiledSplit(bs, i, lo, hi);
    var mid2 := TiledSplit(bs[i + 1..], j - i - 1, mid + bs[i].size, hi);
    assert bs[i + 1..][j - i - 1] == bs[j];
  }

  /** Because free blocks never touch, a run of free bytes lies inside one of them. */
  lemma {:induction false} RunInOneBlock(bs: seq<Block>, lo: nat, hi: nat, a: nat, n: nat, i: nat)
    requires Sound(bs, lo, hi) && i < |bs| && bs[i].free && bs[i].addr <= a < bs[i].addr + bs[i].size
    requires FreeRun(bs, a, n)
    ensures a + n <= bs[i].addr + bs[i].size
  {
    var e := bs[i].addr + bs[i].size;
    if a + n > e {
      assert FreeByte(bs, e);
      var j :| 0 <= j < |bs| && bs[j].free && bs[j].addr <= e < bs[j].addr + bs[j].size;
      if j < i {
        BlockBefore(bs, j, i, lo, hi);
      } else if j > i {
        BlockBefore(bs, i, j, lo, hi);
        if j > i + 1 {
          BlockBefore(bs, i, i + 1, lo, hi);
          BlockBefore(bs, i + 1, j, lo, hi);
          var m := TiledSplit(bs, i + 1, lo, hi);
        }
      }
      assert false;
    }
  }

  /** Allocation fails if and only if no contiguous run of `need` free bytes exists anywhere. */
  lemma NullExactlyWhenNoRun(bs: seq<Block>, need: nat, lo: nat, hi: nat)
    requires Sound(bs, lo, hi) && need > 0
    ensures FirstFit(bs, need) == |bs| <==> !exists a: nat :: FreeRun(bs, a, need)
  {
    FirstFitIsFirst(bs, need);
    var i := FirstFit(bs, need);
    if i < |bs| {
      forall x: nat | bs[i].addr <= x < bs[i].addr + need ensures FreeByte(bs, x) {}
      assert FreeRun(bs, bs[i].addr, need);
    } else {
      if a: nat :| FreeRun(bs, a, need) {
        assert FreeByte(bs, a);
        var j :| 0 <= j < |bs| && bs[j].free && bs[j].addr <= a < bs[j].addr + bs[j].size;
        RunInOneBlock(bs, lo, hi, a, need, j);
        assert false;
      }
    }
  }

  // ---------- whole runs ----------

  /** The heap and its low-water mark. */
  datatype HeapState = HeapState(blocks: seq<Block>, watermark: nat)

  /** Any request, and any free of a live block. */
  datatype Op = Get(size: nat) | Put(i: nat)

  predicate Allowed(h: HeapState, op: Op) {
    match op
    case Get(size) => size < WORD
    case Put(i) => i < |h.blocks| && !h.blocks[i].free
  }

  function Min(a: nat, b: nat): nat { if a < b then a else b }

  function Do(h: HeapState, op: Op): HeapState
    requires Allowed(h, op)
  {
    match op
    case Put(i) => h.(blocks := Release(h.blocks, i))
    case Get(size) =>
      match Need(size)
      case None => h
      case Some(need) =>
        var i := FirstFit(h.blocks, need);
        if i < |h.blocks| && h.blocks[i].size >= need
        then HeapState(Carve(h.blocks, i, need), Min(h.watermark, FreeSum(Carve(h.blocks, i, need))))
        else h
  }

  predicate IsRun(h: HeapState, ops: seq<Op>)
    decreases |ops|
  {
    ops == [] || (Allowed(h, ops[0]) && IsRun(Do(h, ops[0]), ops[1..]))
  }

  function After(h: HeapState, ops: seq<Op>): HeapState
    requires IsRun(h, ops)
    decreases |ops|
  {
    if ops == [] then h else After(Do(h, ops[0]), ops[1..])
  }

  /** The least number of free bytes seen anywhere along a run. */
  function Lowest(h: HeapState, ops: seq<Op>): nat
    requires IsRun(h, ops)
    decreases |ops|
  {
    if ops == [] then FreeSum(h.blocks) else Min(FreeSum(h.blocks), Lowest(Do(h, ops[0]), ops[1..]))
  }

  lemma DoKeeps(h: HeapState, op: Op, lo: nat, hi: nat)
    requires Sound(h.blocks, lo, hi) && Allowed(h, op) && h.watermark <= FreeSum(h.blocks)
    ensures var h' := Do(h, op); Sound(h'.blocks, lo, hi) && h'.watermark == Min(h.watermark, FreeSum(h'.blocks))
  {
    match op
    case Put(i) => ReleaseKeeps(h.blocks, i, lo, hi);
    case Get(size) =>
      NeedRoundsUp(size);
      if Need(size).Some? {
        FirstFitIsFirst(h.blocks, Need(size).value);
        var i := FirstFit(h.blocks, Need(size).value);
        if i < |h.blocks| { CarveKeeps(h.blocks, i, Need(size).value, lo, hi); }
      }
  }

  /** Over any run of allocations and frees the blocks tile the heap, free blocks never touch, and the
      watermark is the historical minimum of the free bytes. */
  lemma {:induction false} RunsKeepTheHeap(h: HeapState, ops: seq<Op>, lo: nat, hi: nat)
    requires Sound(h.blocks, lo, hi) && h.watermark <= FreeSum(h.blocks) && IsRun(h, ops)
    ensures Sound(After(h, ops).blocks, lo, hi)
    ensures After(h, ops).watermark == Min(h.watermark, Lowest(h, ops))
    decreases |ops|
  {
    if ops != [] {
      DoKeeps(h, ops[0], lo, hi);
      RunsKeepTheHeap(Do(h, ops[0]), ops[1..], lo, hi);
    }
  }
}
