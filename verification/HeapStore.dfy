/** The allocator on raw memory: block headers, the address-ordered free list threaded through them, and
    the walks of os_mem_alloc and os_mem_free, proved against the tiling of module Heap. */
module HeapStore {
  import opened Sequences
  import opened Heap

  /** A header word pair. `size` carries the allocated flag in its top bit. */
  datatype Header = Header(size: nat, next: nat)

  /** Whatever lies at an address the allocator never wrote reads as zero here. */
  function At(mem: map<nat, Header>, a: nat): Header { if a in mem then mem[a] else Header(0, 0) }

  /** Reading the blocks from left to right, the free list enters at link p and leaves at link q; a live
      block carries its size with the flag, and no link. */
  predicate Links(mem: map<nat, Header>, bs: seq<Block>, p: nat, q: nat)
    decreases |bs|
  {
    if bs == [] then p == q
    else if bs[0].free then p == bs[0].addr && At(mem, p).size == bs[0].size && Links(mem, bs[1..], At(mem, p).next, q)
    else At(mem, bs[0].addr) == Header(bs[0].size + FLAG, 0) && Links(mem, bs[1..], p, q)
  }

  /** The address of the last free block; 0, the list head, when there is none. */
  function LastFree(bs: seq<Block>): nat
    decreases |bs|
  {
    if bs == [] then 0 else if bs[|bs| - 1].free then bs[|bs| - 1].addr else LastFree(bs[..|bs| - 1])
  }

  // ---------- links through changes ----------

  lemma {:induction false} LinksJoin(mem: map<nat, Header>, a: seq<Block>, b: seq<Block>, p: nat, q: nat, r: nat)
    requires Links(mem, a, p, q) && Links(mem, b, q, r)
    ensures Links(mem, a + b, p, r)
    decreases |a|
  {
    if a == [] {
      assert a + b == b;
    } else {
      assert (a + b)[1..] == a[1..] + b;
      LinksJoin(mem, a[1..], b, if a[0].free then At(mem, p).next else p, q, r);
    }
  }

  lemma {:induction false} LinksSplit(mem: map<nat, Header>, bs: seq<Block>, i: nat, p: nat, r: nat) returns (q: nat)
    requires Links(mem, bs, p, r) && i <= |bs|
    ensures Links(mem, bs[..i], p, q) && Links(mem, bs[i..], q, r)
    decreases i
  {
    if i == 0 {
      q := p;
      assert bs[0..] == bs;
    } else {
      q := LinksSplit(mem, bs[1..], i - 1, if bs[0].free then At(mem, p).next else p, r);
      assert bs[..i][1..] == bs[1..][..i - 1];
      assert bs[i..] == bs[1..][i - 1..];
    }
  }

  /** Headers of these blocks agree, but for the one at x (0: no exception). */
  predicate SameBut(mem: map<nat, Header>, mem': map<nat, Header>, bs: seq<Block>, x: nat) {
    forall i :: 0 <= i < |bs| && bs[i].addr != x ==> At(mem', bs[i].addr) == At(mem, bs[i].addr)
  }

  lemma {:induction false} LinksFrame(mem: map<nat, Header>, mem': map<nat, Header>, bs: seq<Block>, p: nat, q: nat)
    requires Links(mem, bs, p, q) && SameBut(mem, mem', bs, 0) && Apart(bs)
    ensures Links(mem', bs, p, q)
    decreases |bs|
  {
    if bs != [] {
      var rest := bs[1..];
      assert forall i :: 0 <= i < |rest| ==> rest[i] == bs[i + 1];
      assert At(mem', bs[0].addr) == At(mem, bs[0].addr);
      assert SameBut(mem, mem', rest, 0) && Apart(rest);
      LinksFrame(mem, mem', rest, if bs[0].free then At(mem, p).next else p, q);
    }
  }

  /** Three stretches of the heap, each entered where the one before it leaves. */
  lemma Assemble(mem: map<nat, Header>, a: seq<Block>, m: seq<Block>, b: seq<Block>, p: nat, q: nat, r: nat, z: nat)
    requires Links(mem, a, p, q) && Links(mem, m, q, r) && Links(mem, b, r, z)
    ensures Links(mem, a + m + b, p, z)
  {
    hide Links;
    LinksJoin(mem, a, m, p, q, r);
    LinksJoin(mem, a + m, b, p, r, z);
  }

  /** Block addresses are nonzero, rise, and no block reaches into the next. */
  predicate Apart(bs: seq<Block>) {
    && (forall i :: 0 <= i < |bs| ==> bs[i].addr > 0 && bs[i].size > 0)
    && (forall i, j :: 0 <= i < j < |bs| ==> bs[i].addr + bs[i].size <= bs[j].addr)
  }

  lemma TiledApart(bs: seq<Block>, lo: nat, hi: nat)
    requires Tiled(bs, lo, hi) && lo > 0
    ensures Apart(bs) && forall i :: 0 <= i < |bs| ==> lo <= bs[i].addr && bs[i].addr + bs[i].size <= hi
  {
    forall i | 0 <= i < |bs| ensures lo <= bs[i].addr && bs[i].addr + bs[i].size <= hi && bs[i].size > 0 {
      var mid := TiledSplit(bs, i, lo, hi);
    }
    forall i, j | 0 <= i < j < |bs| ensures bs[i].addr + bs[i].size <= bs[j].addr { BlockBefore(bs, i, j, lo, hi); }
  }

  lemma PrefixKeeps(mem: map<nat, Header>, mem': map<nat, Header>, a: seq<Block>, n: nat, x: nat)
    requires n <= |a|
    ensures Apart(a) ==> Apart(a[..n])
    ensures SameBut(mem, mem', a, x) ==> SameBut(mem, mem', a[..n], x)
  {
    assert forall i :: 0 <= i < n ==> a[..n][i] == a[i];
  }

  /** The last block is the last free one: only its own link changes. */
  lemma RetargetLast(mem: map<nat, Header>, mem': map<nat, Header>, a: seq<Block>, x: Block, p: nat, mid: nat, q: nat, q': nat)
    requires Links(mem, a, p, mid) && Links(mem, [x], mid, q) && x.free && Apart(a + [x])
    requires SameBut(mem, mem', a + [x], x.addr) && At(mem', x.addr) == At(mem, x.addr).(next := q')
    ensures Links(mem', a + [x], p, q')
  {
    var all := a + [x];
    assert all[|a|] == x;
    assert [x][1..] == [];
    assert forall i :: 0 <= i < |a| ==> all[i] == a[i];
    forall i | 0 <= i < |a| ensures a[i].addr != x.addr {
      assert all[i].addr + all[i].size <= all[|a|].addr;
    }
    assert SameBut(mem, mem', a, 0) && Apart(a);
    LinksFrame(mem, mem', a, p, mid);
    assert Links(mem', [x], mid, q');
    LinksJoin(mem', a, [x], p, mid, q');
  }

  /** Redirecting the last free block's link (the list head, if there is none) redirects where the list
      leaves, and nothing else. */
  lemma {:induction false} LinksRetarget(mem: map<nat, Header>, mem': map<nat, Header>, a: seq<Block>, p: nat, q: nat, q': nat)
    requires Links(mem, a, p, q) && Apart(a) && SameBut(mem, mem', a, LastFree(a))
    requires LastFree(a) != 0 ==> At(mem', LastFree(a)) == At(mem, LastFree(a)).(next := q')
    ensures Links(mem', a, if LastFree(a) == 0 then q' else p, q')
    decreases |a|
  {
    if a != [] {
      var n := |a| - 1;
      var x := a[n];
      var mid := LinksSplit(mem, a, n, p, q);
      assert a == a[..n] + [x] && a[n..] == [x];
      PrefixKeeps(mem, mem', a, n, LastFree(a));
      if x.free {
        assert LastFree(a) == x.addr && x.addr > 0;
        hide LastFree, Links;
        RetargetLast(mem, mem', a[..n], x, p, mid, q, q');
      } else {
        assert LastFree(a) == LastFree(a[..n]);
        assert mid == q && At(mem, x.addr) == Header(x.size + FLAG, 0) by { assert [x][1..] == []; }
        LiveIsNotLast(a, n);
        assert At(mem', x.addr) == At(mem, x.addr);
        assert Links(mem', [x], q', q') by { assert [x][1..] == []; }
        hide LastFree, Links;
        LinksRetarget(mem, mem', a[..n], p, q, q');
        LinksJoin(mem', a[..n], [x], if LastFree(a) == 0 then q' else p, q', q');
      }
    }
  }

  lemma LiveIsNotLast(a: seq<Block>, n: nat)
    requires Apart(a) && n < |a| && !a[n].free
    ensures a[n].addr != LastFree(a)
  {
    LastFreeIsOne(a);
    if LastFree(a) != 0 {
      var i :| 0 <= i < |a| && a[i].free && a[i].addr == LastFree(a);
      assert i != n;
      if i < n { assert a[i].addr + a[i].size <= a[n].addr; } else { assert a[n].addr + a[n].size <= a[i].addr; }
    }
  }

  lemma {:induction false} LastFreeIsOne(a: seq<Block>)
    requires Apart(a)
    ensures LastFree(a) != 0 <==> exists i :: 0 <= i < |a| && a[i].free
    ensures LastFree(a) != 0 ==> exists i :: 0 <= i < |a| && a[i].free && a[i].addr == LastFree(a) && forall j :: i < j < |a| ==> !a[j].free
    decreases |a|
  {
    if a != [] && !a[|a| - 1].free {
      LastFreeIsOne(a[..|a| - 1]);
      var b := a[..|a| - 1];
      if LastFree(b) != 0 {
        var i :| 0 <= i < |b| && b[i].free && b[i].addr == LastFree(b) && forall j :: i < j < |b| ==> !b[j].free;
        assert a[i] == b[i];
        forall j | i < j < |a| ensures !a[j].free { if j < |b| { assert a[j] == b[j]; } }
      }
      forall i | 0 <= i < |a| && a[i].free ensures LastFree(b) != 0 { assert b[i].free; }
    }
  }

  /** Where the list enters: its first free block, if any, is at p. */
  lemma {:induction false} FirstLink(mem: map<nat, Header>, bs: seq<Block>, p: nat, q: nat) returns (f: nat)
    requires Links(mem, bs, p, q)
    ensures f <= |bs| && forall j :: 0 <= j < f ==> !bs[j].free
    ensures f < |bs| ==> bs[f].free && bs[f].addr == p && At(mem, p).size == bs[f].size && Links(mem, bs[f + 1..], At(mem, p).next, q)
    ensures f == |bs| ==> p == q
    decreases |bs|
  {
    if bs == [] || bs[0].free {
      f := 0;
    } else {
      var g := FirstLink(mem, bs[1..], p, q);
      f := g + 1;
      if f < |bs| { assert bs[f + 1..] == bs[1..][g + 1..]; }
    }
  }

  // ---------- the allocator ----------

  /** prev->next := target, where prev 0 is the list head. */
  function Relink(mem: map<nat, Header>, prev: nat, target: nat): map<nat, Header> {
    if prev == 0 then mem else mem[prev := At(mem, prev).(next := target)]
  }

  /** Taking block f out of the list, split or not, leaves the links of the carved heap. */
  lemma CarveLinks(mem: map<nat, Header>, bs: seq<Block>, f: nat, need: nat, head: nat, lo: nat, hi: nat)
    requires Tiled(bs, lo, hi) && lo > 0 && f < |bs| && bs[f].free && MIN_BLOCK <= need <= bs[f].size
    requires Links(mem, bs, head, hi)
    ensures var a := bs[f].addr; var size := bs[f].size; var rest := At(mem, a).next; var prev := LastFree(bs[..f]);
            var split := size - need >= MIN_BLOCK;
            var target := if split then a + need else rest;
            var m1 := if split then mem[a + need := Header(size - need, rest)] else mem;
            var m2 := Relink(m1, prev, target)[a := Header((if split then need else size) + FLAG, 0)];
            Links(m2, Carve(bs, f, need), if prev == 0 then target else head, hi)
  {
    TiledApart(bs, lo, hi);
    var a, size := bs[f].addr, bs[f].size;
    var front, back := bs[..f], bs[f + 1..];
    var prev := LastFree(front);
    var split := size - need >= MIN_BLOCK;
    var q := LinksSplit(mem, bs, f, head, hi);
    assert bs[f..][1..] == back;
    assert q == a;
    var rest := At(mem, a).next;
    var target := if split then a + need else rest;
    var m1 := if split then mem[a + need := Header(size - need, rest)] else mem;
    var m2 := Relink(m1, prev, target)[a := Header((if split then need else size) + FLAG, 0)];
    hide Links, Tiled;
    CarveTouches(mem, m2, bs, f, need, rest, target);
    ApartSlices(bs, f, f + 1);
    hide LastFree, SameBut, Apart;
    LinksRetarget(mem, m2, front, head, a, target);
    LinksFrame(mem, m2, back, rest, hi);
    CarvedMiddle(m2, a, need, size, rest);
    CarveIs(bs, f, need);
    hide Carve, At, Relink;
    var middle := if split then [Block(a, need, false), Block(a + need, size - need, true)] else [Block(a, size, false)];
    Assemble(m2, front, middle, back, if prev == 0 then target else head, target, rest, hi);
  }

  lemma ApartSlices(bs: seq<Block>, i: nat, j: nat)
    requires Apart(bs) && i <= j <= |bs|
    ensures Apart(bs[..i]) && Apart(bs[j..])
  {
    assert forall n :: 0 <= n < i ==> bs[..i][n] == bs[n];
    assert forall n :: 0 <= n < |bs[j..]| ==> bs[j..][n] == bs[j + n];
  }

  /** The last free block of a front lies wholly below block f. */
  lemma LastFreeBelow(bs: seq<Block>, f: nat)
    requires Apart(bs) && f < |bs|
    ensures LastFree(bs[..f]) != 0 ==> LastFree(bs[..f]) < bs[f].addr
  {
    ApartSlices(bs, f, f);
    LastFreeIsOne(bs[..f]);
    if LastFree(bs[..f]) != 0 {
      var i :| 0 <= i < |bs[..f]| && bs[..f][i].free && bs[..f][i].addr == LastFree(bs[..f]);
      assert bs[i].addr + bs[i].size <= bs[f].addr;
    }
  }

  /** A write below block f's end and above its start, or at a place before it, spares the other blocks. */
  lemma WritesSpare(mem: map<nat, Header>, m2: map<nat, Header>, bs: seq<Block>, f: nat, z: nat, prev: nat)
    requires Apart(bs) && f < z <= |bs|
    requires forall x: nat :: x != prev && !(bs[f].addr <= x < bs[z - 1].addr + bs[z - 1].size) ==> At(m2, x) == At(mem, x)
    requires prev == 0 || prev < bs[f].addr
    ensures SameBut(mem, m2, bs[..f], prev) && SameBut(mem, m2, bs[z..], 0)
  {
    forall i | 0 <= i < |bs[..f]| && bs[..f][i].addr != prev ensures At(m2, bs[..f][i].addr) == At(mem, bs[..f][i].addr) {
      assert bs[i].addr + bs[i].size <= bs[f].addr;
    }
    forall i | 0 <= i < |bs[z..]| ensures At(m2, bs[z..][i].addr) == At(mem, bs[z..][i].addr) {
      assert bs[z - 1].addr + bs[z - 1].size <= bs[z + i].addr;
      if f < z - 1 { assert bs[f].addr + bs[f].size <= bs[z - 1].addr; }
    }
  }

  /** Which headers an allocation writes: the block's own, its remainder's, and its predecessor's link. */
  lemma CarveTouches(mem: map<nat, Header>, m2: map<nat, Header>, bs: seq<Block>, f: nat, need: nat, rest: nat, target: nat)
    requires Apart(bs) && f < |bs| && MIN_BLOCK <= need <= bs[f].size && bs[f].free
    requires var a := bs[f].addr; var size := bs[f].size; var split := size - need >= MIN_BLOCK;
             m2 == Relink(if split then mem[a + need := Header(size - need, rest)] else mem, LastFree(bs[..f]), target)
                     [a := Header((if split then need else size) + FLAG, 0)]
    ensures var prev := LastFree(bs[..f]);
            && SameBut(mem, m2, bs[..f], prev) && (prev != 0 ==> At(m2, prev) == At(mem, prev).(next := target))
            && SameBut(mem, m2, bs[f + 1..], 0)
    ensures At(m2, bs[f].addr) == Header((if bs[f].size - need >= MIN_BLOCK then need else bs[f].size) + FLAG, 0)
    ensures bs[f].size - need >= MIN_BLOCK ==> At(m2, bs[f].addr + need) == Header(bs[f].size - need, rest)
  {
    LastFreeBelow(bs, f);
    hide LastFree, SameBut, Apart;
    WritesSpare(mem, m2, bs, f, f + 1, LastFree(bs[..f]));
  }

  lemma CarveIs(bs: seq<Block>, f: nat, need: nat)
    requires f < |bs| && bs[f].size >= need
    ensures var a := bs[f].addr; var size := bs[f].size;
            Carve(bs, f, need) == bs[..f] + (if size - need >= MIN_BLOCK then [Block(a, need, false), Block(a + need, size - need, true)]
                                             else [Block(a, size, false)]) + bs[f + 1..]
  {
  }

  lemma CarvedMiddle(m: map<nat, Header>, a: nat, need: nat, size: nat, rest: nat)
    requires need <= size
    requires size - need >= MIN_BLOCK ==> need > 0 && At(m, a) == Header(need + FLAG, 0) && At(m, a + need) == Header(size - need, rest)
    requires size - need < MIN_BLOCK ==> At(m, a) == Header(size + FLAG, 0)
    ensures size - need >= MIN_BLOCK ==> Links(m, [Block(a, need, false), Block(a + need, size - need, true)], a + need, rest)
    ensures size - need < MIN_BLOCK ==> Links(m, [Block(a, size, false)], rest, rest)
  {
    var two := [Block(a, need, false), Block(a + need, if size >= need then size - need else 0, true)];
    assert two[1..] == [two[1]] && two[1..][1..] == [];
    assert [Block(a, size, false)][1..] == [];
  }

  // ---------- giving a block back ----------

  /** The header writes of os_mem_block_insert for the block at a of `size` bytes, between the list
      neighbours prev (0: the list head) and nxt (hi: the end marker). */
  function Inserted(mem: map<nat, Header>, a: nat, size: nat, prev: nat, nxt: nat, hi: nat): map<nat, Header> {
    var left := prev != 0 && prev + At(mem, prev).size == a;
    var b := if left then prev else a;
    var sum := if left then At(mem, prev).size + size else size;
    var right := b + sum == nxt && nxt != hi;
    var m1 := mem[a := Header(size, 0)];
    var m2 := if left then m1 else Relink(m1, prev, a);
    m2[b := Header(if right then sum + At(mem, nxt).size else sum, if right then At(mem, nxt).next else nxt)]
  }

  /** Touching in memory is adjacency in the tiling. */
  lemma TouchingIsAdjacent(mem: map<nat, Header>, bs: seq<Block>, k: nat, nxt: nat, lo: nat, hi: nat)
    requires Tiled(bs, lo, hi) && lo > 0 && k < |bs| && !bs[k].free
    requires Links(mem, bs[k + 1..], nxt, hi)
    requires LastFree(bs[..k]) != 0 ==> exists i :: 0 <= i < k && bs[i].free && bs[i].addr == LastFree(bs[..k]) && At(mem, bs[i].addr).size == bs[i].size
    ensures var prev := LastFree(bs[..k]);
            (prev != 0 && prev + At(mem, prev).size == bs[k].addr) <==> (k > 0 && bs[k - 1].free)
    ensures (bs[k].addr + bs[k].size == nxt && nxt != hi) <==> (k + 1 < |bs| && bs[k + 1].free)
  {
    TiledApart(bs, lo, hi);
    ApartSlices(bs, k, k + 1);
    LastFreeIsOne(bs[..k]);
    var prev := LastFree(bs[..k]);
    if k > 0 && bs[k - 1].free {
      assert bs[..k][k - 1] == bs[k - 1] && prev == bs[k - 1].addr;
      BlockBefore(bs, k - 1, k, lo, hi);
      var i :| 0 <= i < k && bs[i].free && bs[i].addr == prev && At(mem, bs[i].addr).size == bs[i].size;
      assert i == k - 1;
    } else if prev != 0 {
      var i :| 0 <= i < k && bs[i].free && bs[i].addr == prev && At(mem, bs[i].addr).size == bs[i].size;
      assert i < k - 1;
      BlockBefore(bs, i, k - 1, lo, hi);
      assert bs[k - 1].addr + bs[k - 1].size <= bs[k].addr;
    }
    RightIsAdjacent(mem, bs, k, nxt, lo, hi);
  }

  lemma RightIsAdjacent(mem: map<nat, Header>, bs: seq<Block>, k: nat, nxt: nat, lo: nat, hi: nat)
    requires Tiled(bs, lo, hi) && lo > 0 && k < |bs| && Links(mem, bs[k + 1..], nxt, hi)
    ensures (bs[k].addr + bs[k].size == nxt && nxt != hi) <==> (k + 1 < |bs| && bs[k + 1].free)
    ensures k + 1 < |bs| && bs[k + 1].free ==> nxt == bs[k + 1].addr && At(mem, nxt).size == bs[k + 1].size && Links(mem, bs[k + 2..], At(mem, nxt).next, hi)
  {
    TiledApart(bs, lo, hi);
    var back := bs[k + 1..];
    var f := FirstLink(mem, back, nxt, hi);
    hide Tiled;
    if f < |back| {
      assert back[f] == bs[k + 1 + f];
      BlockBefore(bs, k, k + 1 + f, lo, hi);
      if f > 0 {
        assert !back[0].free && back[0] == bs[k + 1];
        BlockBefore(bs, k, k + 1, lo, hi);
        BlockBefore(bs, k + 1, k + 1 + f, lo, hi);
      } else {
        assert back[1..] == bs[k + 2..];
      }
    } else if k + 1 < |bs| {
      assert !back[0].free && back[0] == bs[k + 1];
    }
  }

  /** In a front that leaves at q, the last free block's header is the block's. */
  lemma {:induction false} LastFreeLinked(mem: map<nat, Header>, a: seq<Block>, p: nat, q: nat)
    requires Links(mem, a, p, q) && Apart(a)
    ensures LastFree(a) != 0 ==> exists i :: 0 <= i < |a| && a[i].free && a[i].addr == LastFree(a) && At(mem, a[i].addr).size == a[i].size
    ensures LastFree(a) == 0 ==> p == q
    ensures LastFree(a) != 0 ==> At(mem, LastFree(a)).next == q
    decreases |a|
  {
    if a != [] {
      var n := |a| - 1;
      var x := a[n];
      var mid := LinksSplit(mem, a, n, p, q);
      assert a[n..] == [x] && [x][1..] == [];
      ApartSlices(a, n, n);
      if !x.free {
        LastFreeLinked(mem, a[..n], p, mid);
        if LastFree(a) != 0 {
          var i :| 0 <= i < n && a[..n][i].free && a[..n][i].addr == LastFree(a[..n]) && At(mem, a[..n][i].addr).size == a[..n][i].size;
          assert a[i] == a[..n][i];
        }
      }
    }
  }

  lemma MergedLinks(m: map<nat, Header>, b: nat, size: nat, next: nat)
    requires At(m, b) == Header(size, next)
    ensures Links(m, [Block(b, size, true)], b, next)
  {
    assert [Block(b, size, true)][1..] == [];
  }

  /** The insertion leaves the links of the released heap: no neighbour, either neighbour, or both. */
  lemma ReleaseLinks(mem: map<nat, Header>, bs: seq<Block>, k: nat, head: nat, nxt: nat, lo: nat, hi: nat)
    requires Tiled(bs, lo, hi) && lo > 0 && k < |bs| && !bs[k].free
    requires Links(mem, bs[..k], head, nxt) && Links(mem, bs[k + 1..], nxt, hi)
    ensures var prev := LastFree(bs[..k]);
            Links(Inserted(mem, bs[k].addr, bs[k].size, prev, nxt, hi), Release(bs, k), if prev == 0 then bs[k].addr else head, hi)
  {
    TiledApart(bs, lo, hi);
    ApartSlices(bs, k, k + 1);
    LastFreeLinked(mem, bs[..k], head, nxt);
    if LastFree(bs[..k]) != 0 {
      var i :| 0 <= i < k && bs[..k][i].free && bs[..k][i].addr == LastFree(bs[..k]) && At(mem, bs[..k][i].addr).size == bs[..k][i].size;
      assert bs[i] == bs[..k][i];
    }
    TouchingIsAdjacent(mem, bs, k, nxt, lo, hi);
    if k > 0 && bs[k - 1].free {
      hide Tiled;
      ReleaseLeft(mem, bs, k, head, nxt, lo, hi);
    } else {
      hide Tiled;
      ReleaseAlone(mem, bs, k, head, nxt, lo, hi);
    }
  }

  /** No free neighbour below: the block joins the list itself. */
  lemma ReleaseAlone(mem: map<nat, Header>, bs: seq<Block>, k: nat, head: nat, nxt: nat, lo: nat, hi: nat)
    requires Tiled(bs, lo, hi) && lo > 0 && k < |bs| && Apart(bs) && Apart(bs[..k]) && !(k > 0 && bs[k - 1].free)
    requires Links(mem, bs[..k], head, nxt) && Links(mem, bs[k + 1..], nxt, hi)
    requires var prev := LastFree(bs[..k]); !(prev != 0 && prev + At(mem, prev).size == bs[k].addr)
    ensures var prev := LastFree(bs[..k]);
            Links(Inserted(mem, bs[k].addr, bs[k].size, prev, nxt, hi), Release(bs, k), if prev == 0 then bs[k].addr else head, hi)
  {
    hide Tiled, Links, LastFree, SameBut, Apart, Inserted, Release;
    var prev := LastFree(bs[..k]);
    var a := bs[k].addr;
    var m := Inserted(mem, a, bs[k].size, prev, nxt, hi);
    RightIsAdjacent(mem, bs, k, nxt, lo, hi);
    LastFreeBelow(bs, k);
    InsertedAlone(mem, a, bs[k].size, prev, nxt, hi);
    AloneSpares(mem, m, bs, k, prev);
    LinksRetarget(mem, m, bs[..k], head, nxt, a);
    MergedBack(mem, m, bs, k, nxt, hi, a, bs[k].size);
    ReleaseWithoutLeft(bs, k);
    LinksJoin(m, bs[..k], Swallowed(bs, k, a, bs[k].size), if prev == 0 then a else head, a, hi);
  }

  /** A block of `size` bytes at `at`, merged with a free block k + 1, and everything behind. */
  function Swallowed(bs: seq<Block>, k: nat, at: nat, size: nat): seq<Block>
    requires k < |bs|
  {
    var right := k + 1 < |bs| && bs[k + 1].free;
    [Block(at, size + (if right then bs[k + 1].size else 0), true)] + bs[if right then k + 2 else k + 1..]
  }

  lemma MergedBack(mem: map<nat, Header>, m: map<nat, Header>, bs: seq<Block>, k: nat, nxt: nat, hi: nat, at: nat, size: nat)
    requires Apart(bs) && k < |bs| && SameBut(mem, m, bs[k + 1..], 0) && Links(mem, bs[k + 1..], nxt, hi)
    requires k + 1 < |bs| && bs[k + 1].free ==> nxt == bs[k + 1].addr && At(mem, nxt).size == bs[k + 1].size && Links(mem, bs[k + 2..], At(mem, nxt).next, hi)
    requires At(m, at) == if k + 1 < |bs| && bs[k + 1].free then Header(size + At(mem, nxt).size, At(mem, nxt).next) else Header(size, nxt)
    ensures Links(m, Swallowed(bs, k, at, size), at, hi)
  {
    hide Links, SameBut, Apart;
    AloneBack(mem, m, bs, k, nxt, hi);
    var right := k + 1 < |bs| && bs[k + 1].free;
    var z := if right then k + 2 else k + 1;
    var whole := size + (if right then bs[k + 1].size else 0);
    var next := if right then At(mem, nxt).next else nxt;
    MergedLinks(m, at, whole, next);
    LinksJoin(m, [Block(at, whole, true)], bs[z..], at, next, hi);
  }

  lemma ReleaseWithoutLeft(bs: seq<Block>, k: nat)
    requires k < |bs| && !(k > 0 && bs[k - 1].free)
    ensures Release(bs, k) == bs[..k] + Swallowed(bs, k, bs[k].addr, bs[k].size)
  {
  }

  /** What is behind the freed block, after it swallowed a free successor if there was one. */
  lemma AloneBack(mem: map<nat, Header>, m: map<nat, Header>, bs: seq<Block>, k: nat, nxt: nat, hi: nat)
    requires Apart(bs) && k < |bs| && SameBut(mem, m, bs[k + 1..], 0) && Links(mem, bs[k + 1..], nxt, hi)
    requires k + 1 < |bs| && bs[k + 1].free ==> nxt == bs[k + 1].addr && Links(mem, bs[k + 2..], At(mem, nxt).next, hi)
    ensures k + 1 < |bs| && bs[k + 1].free ==> Links(m, bs[k + 2..], At(mem, nxt).next, hi)
    ensures !(k + 1 < |bs| && bs[k + 1].free) ==> Links(m, bs[k + 1..], nxt, hi)
  {
    ApartSlices(bs, k, k + 1);
    if k + 1 < |bs| && bs[k + 1].free {
      ApartSlices(bs, k, k + 2);
      var back := bs[k + 1..];
      assert back[1..] == bs[k + 2..];
      assert forall i :: 0 <= i < |back[1..]| ==> back[1..][i] == back[i + 1];
      assert SameBut(mem, m, back[1..], 0);
      LinksFrame(mem, m, bs[k + 2..], At(mem, nxt).next, hi);
    } else {
      LinksFrame(mem, m, bs[k + 1..], nxt, hi);
    }
  }

  /** Writing the block's own header and the link before it leaves every other header alone. */
  lemma AloneSpares(mem: map<nat, Header>, m: map<nat, Header>, bs: seq<Block>, k: nat, prev: nat)
    requires Apart(bs) && k < |bs| && (prev == 0 || prev < bs[k].addr)
    requires forall x: nat :: x != prev && x != bs[k].addr ==> At(m, x) == At(mem, x)
    ensures SameBut(mem, m, bs[..k], prev) && SameBut(mem, m, bs[k + 1..], 0)
  {
    WritesSpare(mem, m, bs, k, k + 1, prev);
  }

  lemma ApartSizes(bs: seq<Block>, k: nat)
    requires Apart(bs) && k < |bs|
    ensures bs[k].addr > 0 && bs[k].size > 0 && (k + 1 < |bs| ==> bs[k + 1].size > 0)
  {
  }

  /** The writes when the block below does not touch. */
  lemma InsertedAlone(mem: map<nat, Header>, a: nat, size: nat, prev: nat, nxt: nat, hi: nat)
    requires !(prev != 0 && prev + At(mem, prev).size == a) && (prev == 0 || prev < a)
    ensures var m := Inserted(mem, a, size, prev, nxt, hi); var right := a + size == nxt && nxt != hi;
            && (forall x: nat :: x != prev && x != a ==> At(m, x) == At(mem, x))
            && (prev != 0 ==> At(m, prev) == At(mem, prev).(next := a))
            && At(m, a) == (if right then Header(size + At(mem, nxt).size, At(mem, nxt).next) else Header(size, nxt))
  {
    if a + size == nxt && size == 0 { assert At(mem[a := Header(size, 0)], a) == Header(size, 0); }
  }

  /** A free neighbour below swallows the block. */
  lemma ReleaseLeft(mem: map<nat, Header>, bs: seq<Block>, k: nat, head: nat, nxt: nat, lo: nat, hi: nat)
    requires Tiled(bs, lo, hi) && lo > 0 && k < |bs| && Apart(bs) && k > 0 && bs[k - 1].free
    requires Links(mem, bs[..k], head, nxt) && Links(mem, bs[k + 1..], nxt, hi)
    ensures var prev := LastFree(bs[..k]);
            Links(Inserted(mem, bs[k].addr, bs[k].size, prev, nxt, hi), Release(bs, k), if prev == 0 then bs[k].addr else head, hi)
  {
    hide Tiled, Links, LastFree, SameBut, Apart, Inserted, Release;
    var prev := bs[k - 1].addr;
    var a := bs[k].addr;
    LeftIsLast(mem, bs, k, head, nxt);
    var m := Inserted(mem, a, bs[k].size, prev, nxt, hi);
    BlockBefore(bs, k - 1, k, lo, hi);
    RightIsAdjacent(mem, bs, k, nxt, lo, hi);
    ApartSizes(bs, k - 1);
    InsertedLeft(mem, a, bs[k].size, prev, nxt, hi);
    LeftSpares(mem, m, bs, k);
    LinksFrame(mem, m, bs[..k - 1], head, prev);
    MergedBack(mem, m, bs, k, nxt, hi, prev, bs[k - 1].size + bs[k].size);
    ReleaseWithLeft(bs, k);
    LinksJoin(m, bs[..k - 1], Swallowed(bs, k, prev, bs[k - 1].size + bs[k].size), head, prev, hi);
  }

  /** A free block right below is the last link before the freed one. */
  lemma LeftIsLast(mem: map<nat, Header>, bs: seq<Block>, k: nat, head: nat, nxt: nat)
    requires 0 < k < |bs| && bs[k - 1].free && Apart(bs) && Links(mem, bs[..k], head, nxt)
    ensures var prev := bs[k - 1].addr; LastFree(bs[..k]) == prev && prev > 0 && At(mem, prev).size == bs[k - 1].size
    ensures Links(mem, bs[..k - 1], head, bs[k - 1].addr)
  {
    assert bs[..k][..k - 1] == bs[..k - 1] && bs[..k][k - 1..] == [bs[k - 1]];
    var q := LinksSplit(mem, bs[..k], k - 1, head, nxt);
    assert [bs[k - 1]][1..] == [];
  }

  lemma ReleaseWithLeft(bs: seq<Block>, k: nat)
    requires 0 < k < |bs| && bs[k - 1].free
    ensures Release(bs, k) == bs[..k - 1] + Swallowed(bs, k, bs[k - 1].addr, bs[k - 1].size + bs[k].size)
  {
  }

  /** The writes when the block below touches: its header grows, the freed block's flag is gone. */
  lemma InsertedLeft(mem: map<nat, Header>, a: nat, size: nat, prev: nat, nxt: nat, hi: nat)
    requires prev != 0 && prev < a && prev + At(mem, prev).size == a
    ensures var m := Inserted(mem, a, size, prev, nxt, hi); var right := a + size == nxt && nxt != hi; var sum := At(mem, prev).size + size;
            && (forall x: nat :: x != prev && x != a ==> At(m, x) == At(mem, x))
            && At(m, prev) == (if right then Header(sum + At(mem, nxt).size, At(mem, nxt).next) else Header(sum, nxt))
  {
  }

  lemma LeftSpares(mem: map<nat, Header>, m: map<nat, Header>, bs: seq<Block>, k: nat)
    requires Apart(bs) && 0 < k < |bs|
    requires forall x: nat :: x != bs[k - 1].addr && x != bs[k].addr ==> At(m, x) == At(mem, x)
    ensures SameBut(mem, m, bs[..k - 1], 0) && SameBut(mem, m, bs[k + 1..], 0) && Apart(bs[..k - 1])
  {
    ApartSlices(bs, k - 1, k + 1);
    WritesSpare(mem, m, bs, k - 1, k + 1, 0);
  }

  /** os_mem_block_plausible with the flag and link tests: the header at a is shaped like a live block's. */
  predicate Shaped(mem: map<nat, Header>, a: nat, hi: nat) {
    var h := At(mem, a);
    FLAG <= h.size < WORD && h.next == 0 && Aligned(a) && h.size - FLAG >= MIN_BLOCK && a <= hi && h.size - FLAG <= hi - a
  }

  // ---------- a pointer that is no live block's payload ----------

  /** The words os_mem_free works on. Which blocks they spell is not among them. */
  datatype Store = Store(mem: map<nat, Header>, head: nat, freeBytes: nat)

  ghost predicate Spells(s: Store, bs: seq<Block>, lo: nat, hi: nat) {
    Sound(bs, lo, hi) && Links(s.mem, bs, s.head, hi) && s.freeBytes == FreeSum(bs)
  }

  /** How many blocks begin below a. */
  function Below(bs: seq<Block>, a: nat): (k: nat)
    ensures k <= |bs|
    decreases |bs|
  {
    if bs == [] || bs[0].addr >= a then 0 else 1 + Below(bs[1..], a)
  }

  /** A live block has its header at a. */
  predicate LiveAt(bs: seq<Block>, a: nat) {
    var k := Below(bs, a);
    k < |bs| && bs[k].addr == a && !bs[k].free
  }

  /** What os_mem_free makes of a header at a that passed its tests, whatever it is. */
  function Freed(s: Store, bs: seq<Block>, a: nat, hi: nat): Store
    requires Shaped(s.mem, a, hi)
  {
    var size := At(s.mem, a).size - FLAG;
    var iter := LastFree(bs[..Below(bs, a)]);
    var nxt := if iter == 0 then s.head else At(s.mem, iter).next;
    Store(Inserted(s.mem, a, size, iter, nxt, hi), if iter == 0 then a else s.head, s.freeBytes + size)
  }

  lemma {:induction false} BelowCuts(bs: seq<Block>, a: nat, lo: nat, hi: nat)
    requires Tiled(bs, lo, hi)
    ensures forall i :: 0 <= i < Below(bs, a) ==> bs[i].addr < a
    ensures forall i :: Below(bs, a) <= i < |bs| ==> bs[i].addr >= a
    decreases |bs|
  {
    if bs != [] {
      if bs[0].addr >= a {
        forall i | 0 <= i < |bs| ensures bs[i].addr >= a { var mid := TiledSplit(bs, i, lo, hi); }
      } else {
        BelowCuts(bs[1..], a, lo + bs[0].size, hi);
      }
    }
  }

  /** The header words determine the blocks: two tilings whose block sizes read alike are one. */
  lemma {:induction false} HeadersSpellOneTiling(mem: map<nat, Header>, mem': map<nat, Header>, bs: seq<Block>, bs': seq<Block>,
                                                 p: nat, p': nat, lo: nat, hi: nat)
    requires Tiled(bs, lo, hi) && Tiled(bs', lo, hi) && Links(mem, bs, p, hi) && Links(mem', bs', p', hi)
    requires hi < lo + FLAG && forall i :: 0 <= i < |bs| ==> At(mem', bs[i].addr).size == At(mem, bs[i].addr).size
    ensures bs == bs'
    decreases |bs|
  {
    if bs == [] || bs' == [] {
      if bs' != [] { TiledOrders(bs'[1..], lo + bs'[0].size, hi); }
      if bs != [] { TiledOrders(bs[1..], lo + bs[0].size, hi); }
    } else {
      TiledOrders(bs[1..], lo + bs[0].size, hi);
      TiledOrders(bs'[1..], lo + bs'[0].size, hi);
      assert At(mem', bs[0].addr).size == At(mem, bs[0].addr).size;
      assert bs[0] == bs'[0];
      assert forall i :: 0 <= i < |bs[1..]| ==> bs[1..][i] == bs[i + 1];
      HeadersSpellOneTiling(mem, mem', bs[1..], bs'[1..], if bs[0].free then At(mem, p).next else p,
                            if bs[0].free then At(mem', p').next else p', lo + bs[0].size, hi);
    }
  }

  /** A header that looks live is not where a free block begins, nor the end marker. */
  lemma ShapedIsNoLink(mem: map<nat, Header>, bs: seq<Block>, k: nat, q: nat, a: nat, lo: nat, hi: nat)
    requires Tiled(bs, lo, hi) && hi < lo + FLAG && k <= |bs| && Links(mem, bs[k..], q, hi) && Shaped(mem, a, hi)
    ensures q != a
  {
    var rest := bs[k..];
    var f := FirstLink(mem, rest, q, hi);
    if f < |rest| {
      assert rest[f] == bs[k + f];
      var mid := TiledSplit(bs, k + f, lo, hi);
    }
  }

  /** Below a header that begins no block, no free block ends. */
  lemma ImpostorTouchesNoLeft(mem: map<nat, Header>, bs: seq<Block>, a: nat, head: nat, lo: nat, hi: nat)
    requires Tiled(bs, lo, hi) && lo > 0 && hi < lo + FLAG && Links(mem, bs, head, hi) && Shaped(mem, a, hi) && !LiveAt(bs, a)
    ensures var iter := LastFree(bs[..Below(bs, a)]); !(iter != 0 && iter + At(mem, iter).size == a) && (iter == 0 || iter < a)
    ensures forall i :: 0 <= i < |bs| ==> bs[i].addr != a
  {
    var k := Below(bs, a);
    BelowCuts(bs, a, lo, hi);
    TiledApart(bs, lo, hi);
    ApartSlices(bs, k, k);
    var q := LinksSplit(mem, bs, k, head, hi);
    LastFreeLinked(mem, bs[..k], head, q);
    BeginsNoBlock(mem, bs, a, head, lo, hi);
    var iter := LastFree(bs[..k]);
    if iter != 0 {
      var i :| 0 <= i < k && bs[..k][i].free && bs[..k][i].addr == iter && At(mem, bs[..k][i].addr).size == bs[..k][i].size;
      assert bs[i] == bs[..k][i];
      var mid := TiledSplit(bs, i, lo, hi);
      if i + 1 < |bs| { BlockBefore(bs, i, i + 1, lo, hi); } else { assert bs[i + 1..] == []; }
    }
  }

  lemma BeginsNoBlock(mem: map<nat, Header>, bs: seq<Block>, a: nat, head: nat, lo: nat, hi: nat)
    requires Tiled(bs, lo, hi) && hi < lo + FLAG && Links(mem, bs, head, hi) && Shaped(mem, a, hi) && !LiveAt(bs, a)
    ensures forall i :: 0 <= i < |bs| ==> bs[i].addr != a
  {
    BelowCuts(bs, a, lo, hi);
    forall i | 0 <= i < |bs| ensures bs[i].addr != a {
      if bs[i].addr == a {
        var k := Below(bs, a);
        if k < i { BlockBefore(bs, k, i, lo, hi); var m := TiledSplit(bs, k, lo, hi); assert false; }
        var q := LinksSplit(mem, bs, i, head, hi);
        ShapedIsNoLink(mem, bs, i, q, a, lo, hi);
      }
    }
  }

  /** A live block's header: what it spells afterwards is the heap with that block given back. */
  lemma LiveIsReleased(s: Store, bs: seq<Block>, a: nat, lo: nat, hi: nat)
    requires Spells(s, bs, lo, hi) && lo > 0 && Shaped(s.mem, a, hi) && LiveAt(bs, a)
    ensures Spells(Freed(s, bs, a, hi), Release(bs, Below(bs, a)), lo, hi)
  {
    var k := Below(bs, a);
    LiveHeader(s.mem, bs, k, s.head, hi, lo);
    LinkAt(s.mem, bs, k, s.head, hi, lo);
    var nxt := if LastFree(bs[..k]) == 0 then s.head else At(s.mem, LastFree(bs[..k])).next;
    LiveLink(s.mem, bs, k, nxt, hi);
    hide Links, Sound, LastFree, Release, Below, Inserted;
    ReleaseLinks(s.mem, bs, k, s.head, nxt, lo, hi);
    ReleaseKeeps(bs, k, lo, hi);
  }

  /** Freeing the same pointer again at once is ignored: neither a merge nor a plain insertion leaves the
      flag in the block's old header. */
  lemma SecondFreeIsIgnored(s: Store, bs: seq<Block>, a: nat, lo: nat, hi: nat)
    requires Spells(s, bs, lo, hi) && lo > 0 && hi < lo + FLAG && Shaped(s.mem, a, hi) && LiveAt(bs, a)
    ensures !Shaped(Freed(s, bs, a, hi).mem, a, hi)
  {
    var k := Below(bs, a);
    var iter := LastFree(bs[..k]);
    var size := At(s.mem, a).size - FLAG;
    PlaceIsBelow(bs, a, lo, hi);
    LinkAt(s.mem, bs, k, s.head, hi, lo);
    var nxt := if iter == 0 then s.head else At(s.mem, iter).next;
    LiveHeader(s.mem, bs, k, s.head, hi, lo);
    LiveLink(s.mem, bs, k, nxt, hi);
    RightIsAdjacent(s.mem, bs, k, nxt, lo, hi);
    var mid := TiledSplit(bs, k, lo, hi);
    if k + 1 < |bs| { var next := TiledSplit(bs, k + 1, lo, hi); BlockBefore(bs, k, k + 1, lo, hi); }
    hide Links, LastFree, Below, Tiled;
    if !(iter != 0 && iter + At(s.mem, iter).size == a) { InsertedAlone(s.mem, a, size, iter, nxt, hi); }
  }

  /** A pointer that is no live block's payload, but whose header looks live, corrupts the heap: bytes
      that are not free are counted as free, and no division of the heap into blocks fits the headers,
      the list and the counter any more. */
  lemma ImpostorBreaksTheHeap(s: Store, bs: seq<Block>, a: nat, lo: nat, hi: nat)
    requires Spells(s, bs, lo, hi) && lo > 0 && hi < lo + FLAG && Shaped(s.mem, a, hi) && !LiveAt(bs, a)
    ensures Freed(s, bs, a, hi).freeBytes >= s.freeBytes + MIN_BLOCK
    ensures forall bs': seq<Block> :: !Spells(Freed(s, bs, a, hi), bs', lo, hi)
  {
    var t := Freed(s, bs, a, hi);
    ImpostorTouchesNoLeft(s.mem, bs, a, s.head, lo, hi);
    var iter := LastFree(bs[..Below(bs, a)]);
    InsertedAlone(s.mem, a, At(s.mem, a).size - FLAG, iter, if iter == 0 then s.head else At(s.mem, iter).next, hi);
    forall i | 0 <= i < |bs| ensures At(t.mem, bs[i].addr).size == At(s.mem, bs[i].addr).size {}
    forall bs': seq<Block> | Spells(t, bs', lo, hi) ensures false {
      HeadersSpellOneTiling(s.mem, t.mem, bs, bs', s.head, t.head, lo, hi);
    }
  }

  // ---------- the allocator object ----------

  /** A successful allocation: the first fit is carved, and the payload is 8-aligned, large enough, and
      lies in the block taken. */
  ghost predicate Taken(before: seq<Block>, after: seq<Block>, wanted: Option<nat>, size: nat, memory: nat) {
    wanted.Some? && var i := FirstFit(before, wanted.value);
    && i < |before| && before[i].size >= wanted.value && after == Carve(before, i, wanted.value)
    && i < |after| && after[i].addr + HEADER == memory && Aligned(memory) && after[i].size >= size + HEADER
  }

  class Allocator {
    const heapBase: nat
    const heapBytes: nat
    const lo: nat
    const hi: nat
    var mem: map<nat, Header>
    var head: nat
    var freeBytes: nat
    var minFree: nat
    /** The tiling the headers spell out. */
    ghost var blocks: seq<Block>

    ghost predicate Valid()
      reads this
    {
      && 0 < heapBase <= lo <= hi < WORD && hi - lo < FLAG && hi + HEADER <= heapBase + heapBytes
      && Sound(blocks, lo, hi) && Links(mem, blocks, head, hi)
      && freeBytes == FreeSum(blocks) && minFree <= freeBytes
    }

    /** os_mem_init: one block spanning the aligned heap, and the end marker. */
    constructor (base: nat, bytes: nat)
      requires 0 < base && base + bytes < WORD && 64 <= bytes < FLAG
      ensures Valid() && blocks == [Block(lo, hi - lo, true)] && minFree == freeBytes
      ensures heapBase == base && heapBytes == bytes && lo == AlignUp(base) && hi == AlignDown(base + bytes - HEADER)
    {
      AlignedBounds(base, bytes);
      var first := AlignUp(base);
      var last := AlignDown(base + bytes - HEADER);
      assert first + MIN_BLOCK <= last;
      heapBase, heapBytes, lo, hi := base, bytes, first, last;
      mem := map[first := Header(last - first, last)];
      head, freeBytes, minFree := first, last - first, last - first;
      blocks := [Block(first, last - first, true)];
      new;
      SingleTiled(first, last - first, true);
      assert blocks[1..] == [];
    }

    function Next(p: nat): nat
      reads this
    {
      if p == 0 then head else At(mem, p).next
    }

    /** The first-fit walk: the list is address ordered and ends at the marker. */
    method FindFit(need: nat) returns (prev: nat, block: nat, ghost i: nat)
      requires Valid()
      ensures i == FirstFit(blocks, need) && (block == hi <==> i == |blocks|)
      ensures i < |blocks| ==> block == blocks[i].addr && blocks[i].free && At(mem, block).size == blocks[i].size >= need && prev == LastFree(blocks[..i])
    {
      ghost var n: nat := 0;
      i := FirstLink(mem, blocks, head, hi);
      BlocksBelowEnd(blocks, lo, hi);
      prev, block := 0, head;
      hide Links, FirstFit, Sound, LastFree, Valid;
      assert prev == LastFree(blocks[..n]) by { NoLastFree(blocks); }
      while block != hi && At(mem, block).size < need
        invariant n <= i <= |blocks|
        invariant i < |blocks| ==> blocks[i].free && blocks[i].addr == block && At(mem, block).size == blocks[i].size
        invariant i < |blocks| ==> Links(mem, blocks[i + 1..], At(mem, block).next, hi)
        invariant i == |blocks| ==> block == hi
        invariant forall j :: 0 <= j < i ==> !(blocks[j].free && blocks[j].size >= need)
        invariant forall j :: n <= j < i ==> !blocks[j].free
        invariant prev == LastFree(blocks[..n])
        decreases |blocks| - i
      {
        LastFreeHere(blocks, i);
        n := i + 1;
        ghost var j := NextFit(mem, blocks, i, hi);
        prev, block := block, At(mem, block).next;
        i := j;
      }
      FirstFitUnique(blocks, need, i);
      LastFreeSkips(blocks, n, i);
    }

    /** Take `need` bytes of the free block found, splitting it when the rest is usable. */
    method Take(prev: nat, block: nat, need: nat, ghost i: nat)
      requires Valid() && Aligned(need) && MIN_BLOCK <= need
      requires i < |blocks| && block == blocks[i].addr && blocks[i].free && At(mem, block).size == blocks[i].size >= need
      requires prev == LastFree(blocks[..i])
      modifies this
      ensures Valid() && blocks == Carve(old(blocks), i, need)
      ensures minFree == if freeBytes < old(minFree) then freeBytes else old(minFree)
    {
      CarveLinks(mem, blocks, i, need, head, lo, hi);
      CarveKeeps(blocks, i, need, lo, hi);
      CarvedAt(blocks, i, need);
      hide Links, Sound, LastFree, Carve;
      var total := At(mem, block).size;
      var nextFree := At(mem, block).next;
      var taken, target := total, nextFree;
      if total - need >= MIN_BLOCK {
        var remainder := block + need;
        mem := mem[remainder := Header(total - need, nextFree)];
        taken, target := need, remainder;
      }
      if prev == 0 { head := target; } else { mem := mem[prev := At(mem, prev).(next := target)]; }
      mem := mem[block := Header(taken + FLAG, 0)];
      blocks := Carve(blocks, i, need);
      freeBytes := freeBytes - taken;
      if freeBytes < minFree { minFree := freeBytes; }
    }

    /** os_mem_alloc. Null is 0; anything else is 8-aligned payload of a block carved at the first fit. */
    method Alloc(size: nat) returns (memory: nat)
      requires Valid() && size < WORD
      modifies this
      ensures Valid()
      ensures memory == 0 <==> Need(size).None? || FirstFit(old(blocks), Need(size).value) == |old(blocks)|
      ensures memory == 0 ==> blocks == old(blocks) && minFree == old(minFree) && mem == old(mem) && head == old(head)
      ensures memory != 0 ==> Taken(old(blocks), blocks, Need(size), size, memory)
      ensures memory != 0 ==> minFree == if freeBytes < old(minFree) then freeBytes else old(minFree)
    {
      memory := 0;
      var wanted := Need(size);
      NeedRoundsUp(size);
      if wanted.Some? {
        var prev, block, i := FindFit(wanted.value);
        if block != hi {
          CarvedAt(blocks, i, wanted.value);
          PayloadAligned(blocks, i, lo, hi);
          Take(prev, block, wanted.value, i);
          memory := block + HEADER;
        }
      }
    }

    /** os_mem_block_plausible, and the tests around it: what the eight bytes below a pointer must look
        like before a free is honoured. */
    predicate LooksLive(memory: nat)
      reads this
    {
      heapBase + HEADER <= memory < heapBase + heapBytes && Shaped(mem, memory - HEADER, hi)
    }

    /** Where a header at a belongs in the list: after iter, the last free block that begins below it. */
    method FindPlace(a: nat) returns (iter: nat)
      requires Valid() && a <= hi
      ensures iter == LastFree(blocks[..Below(blocks, a)]) && Links(mem, blocks[Below(blocks, a)..], Next(iter), hi)
      ensures Next(iter) >= a
    {
      ghost var k, n := Below(blocks, a), 0;
      iter := 0;
      BelowCuts(blocks, a, lo, hi);
      hide Links, LastFree, Below;
      assert iter == LastFree(blocks[..n]) by { NoLastFree(blocks); }
      LinkAt(mem, blocks, n, head, hi, lo);
      while Next(iter) < a
        invariant n <= k && iter == LastFree(blocks[..n])
        invariant Links(mem, blocks[n..], Next(iter), hi)
        decreases k - n
      {
        ghost var rest := blocks[n..];
        ghost var f := FirstLink(mem, rest, Next(iter), hi);
        assert rest[f] == blocks[n + f];
        LastFreeHere(blocks, n + f);
        n := n + f + 1;
        iter := Next(iter);
        LinkAt(mem, blocks, n, head, hi, lo);
      }
      NoneBetween(mem, blocks, n, k, Next(iter), a, hi);
      LastFreeSkips(blocks, n, k);
      LinkAt(mem, blocks, k, head, hi, lo);
    }

    ghost function Words(): Store
      reads this
    {
      Store(mem, head, freeBytes)
    }

    /** The caller's own bytes: an aligned pair of words inside the payload of live block k. */
    method Write(a: nat, pair: Header, ghost k: nat)
      requires Valid() && k < |blocks| && !blocks[k].free && Aligned(a)
      requires blocks[k].addr + HEADER <= a && a + HEADER <= blocks[k].addr + blocks[k].size
      modifies this`mem
      ensures Valid() && mem == old(mem)[a := pair]
    {
      TiledApart(blocks, lo, hi);
      InsideIsNoBlock(blocks, k, a);
      LinksFrame(mem, mem[a := pair], blocks, head, hi);
      mem := mem[a := pair];
    }

    /** os_mem_free, for any pointer. One that does not look live changes nothing; a live block's payload
        gives that block back; any other that looks live is taken for a block all the same. */
    method Free(memory: nat)
      requires Valid()
      modifies this
      ensures minFree == old(minFree)
      ensures Words() == old(Words()) <==> !old(LooksLive(memory))
      ensures old(LooksLive(memory)) ==> Words() == Freed(old(Words()), old(blocks), memory - HEADER, hi)
      ensures memory >= HEADER && LiveAt(old(blocks), memory - HEADER)
              ==> old(LooksLive(memory)) && Valid() && blocks == Release(old(blocks), Below(old(blocks), memory - HEADER))
      ensures !(memory >= HEADER && LiveAt(old(blocks), memory - HEADER)) ==> blocks == old(blocks)
      ensures (exists bs: seq<Block> :: Spells(Words(), bs, lo, hi))
              <==> !old(LooksLive(memory)) || LiveAt(old(blocks), memory - HEADER)
    {
      if memory >= HEADER && LiveAt(blocks, memory - HEADER) { LiveLooksLive(memory); }
      assert Spells(Words(), blocks, lo, hi);
      ghost var s := Words();
      if LooksLive(memory) {
        var a := memory - HEADER;
        if LiveAt(blocks, a) { LiveIsReleased(s, blocks, a, lo, hi); } else { ImpostorBreaksTheHeap(s, blocks, a, lo, hi); }
        hide Links, Sound, LastFree, Release, Below, LiveAt, Spells;
        FreeBlock(a);
        if LiveAt(blocks, a) { blocks := Release(blocks, Below(blocks, a)); }
        assert LiveAt(old(blocks), a) ==> Spells(Words(), blocks, lo, hi);
      }
    }

    /** The flag cleared, the size counted, and the block linked in where the walk ends. */
    method FreeBlock(a: nat)
      requires Valid() && heapBase <= a && Shaped(mem, a, hi)
      modifies this`mem, this`head, this`freeBytes
      ensures Words() == Freed(old(Words()), blocks, a, hi)
    {
      var size := At(mem, a).size - FLAG;
      var iter := FindPlace(a);
      var nxt := Next(iter);
      ShapedIsNoLink(mem, blocks, Below(blocks, a), nxt, a, lo, hi);
      PlaceIsBelow(blocks, a, lo, hi);
      hide Links, Sound, LastFree, Below;
      Insert(a, size, iter, nxt);
      freeBytes := freeBytes + size;
    }

    lemma LiveLooksLive(memory: nat)
      requires Valid() && memory >= HEADER && LiveAt(blocks, memory - HEADER)
      ensures LooksLive(memory)
    {
      var k := Below(blocks, memory - HEADER);
      LiveHeader(mem, blocks, k, head, hi, lo);
      var mid := TiledSplit(blocks, k, lo, hi);
    }

    /** os_mem_block_insert after its walk: merge with what touches, and relink. */
    method Insert(a: nat, size: nat, iter: nat, nxt: nat)
      requires nxt == Next(iter) && iter < a < nxt
      modifies this`mem, this`head
      ensures mem == Inserted(old(mem), a, size, iter, nxt, hi)
      ensures head == if iter == 0 then a else old(head)
    {
      mem := mem[a := Header(size, 0)];
      var b := a;
      if iter != 0 && iter + At(mem, iter).size == a {
        mem := mem[iter := At(mem, iter).(size := At(mem, iter).size + size)];
        b := iter;
      } else if iter == 0 {
        head := a;
      } else {
        mem := mem[iter := At(mem, iter).(next := a)];
      }
      if b + At(mem, b).size == nxt && nxt != hi {
        mem := mem[b := Header(At(mem, b).size + At(mem, nxt).size, At(mem, nxt).next)];
      } else {
        mem := mem[b := At(mem, b).(next := nxt)];
      }
    }
  }

  /** The link that enters the heap at block n is held by the last free block before it. */
  lemma LinkAt(mem: map<nat, Header>, bs: seq<Block>, n: nat, head: nat, hi: nat, lo: nat)
    requires Tiled(bs, lo, hi) && lo > 0 && Links(mem, bs, head, hi) && n <= |bs|
    ensures var q := if LastFree(bs[..n]) == 0 then head else At(mem, LastFree(bs[..n])).next;
            Links(mem, bs[..n], head, q) && Links(mem, bs[n..], q, hi)
  {
    TiledApart(bs, lo, hi);
    ApartSlices(bs, n, n);
    var q := LinksSplit(mem, bs, n, head, hi);
    LastFreeLinked(mem, bs[..n], head, q);
  }

  lemma LiveLink(mem: map<nat, Header>, bs: seq<Block>, k: nat, q: nat, hi: nat)
    requires k < |bs| && !bs[k].free && Links(mem, bs[k..], q, hi)
    ensures Links(mem, bs[k + 1..], q, hi)
  {
    assert bs[k..][1..] == bs[k + 1..];
  }

  lemma LiveHeader(mem: map<nat, Header>, bs: seq<Block>, k: nat, head: nat, hi: nat, lo: nat)
    requires Links(mem, bs, head, hi) && k < |bs| && !bs[k].free
    ensures At(mem, bs[k].addr) == Header(bs[k].size + FLAG, 0)
  {
    var q := LinksSplit(mem, bs, k, head, hi);
  }

  /** When the list's next block does not begin below a, no free block from n on does. */
  lemma NoneBetween(mem: map<nat, Header>, bs: seq<Block>, n: nat, k: nat, q: nat, a: nat, hi: nat)
    requires n <= k <= |bs| && Links(mem, bs[n..], q, hi) && q >= a && forall i :: 0 <= i < k ==> bs[i].addr < a
    ensures forall j :: n <= j < k ==> !bs[j].free
  {
    var rest := bs[n..];
    var f := FirstLink(mem, rest, q, hi);
    assert f < |rest| ==> rest[f] == bs[n + f];
    forall j | n <= j < k ensures !bs[j].free { assert bs[j] == rest[j - n]; }
  }

  /** The place found lies below the header to be inserted. */
  lemma PlaceIsBelow(bs: seq<Block>, a: nat, lo: nat, hi: nat)
    requires Tiled(bs, lo, hi) && lo > 0
    ensures var iter := LastFree(bs[..Below(bs, a)]); iter == 0 || iter < a
  {
    var k := Below(bs, a);
    BelowCuts(bs, a, lo, hi);
    TiledApart(bs, lo, hi);
    ApartSlices(bs, k, k);
    LastFreeIsOne(bs[..k]);
    assert forall i :: 0 <= i < k ==> bs[..k][i] == bs[i];
  }

  lemma InsideIsNoBlock(bs: seq<Block>, k: nat, a: nat)
    requires Apart(bs) && k < |bs| && bs[k].addr < a < bs[k].addr + bs[k].size
    ensures forall i :: 0 <= i < |bs| ==> bs[i].addr != a
  {
    forall i | 0 <= i < |bs| ensures bs[i].addr != a {
      if i < k { assert bs[i].addr + bs[i].size <= bs[k].addr; } else if i > k { assert bs[k].addr + bs[k].size <= bs[i].addr; }
    }
  }

  /** The tests are met by ordinary use: one allocation that fills the heap 8..72, a pair of words its owner
      stores at 32, and a free of the foreign pointer 40. Sixteen allocated bytes are then counted as free. */
  method ForeignFreeHonoured() returns (heap: Allocator)
    ensures fresh(heap) && heap.lo == 8 && heap.hi == 72 && heap.blocks == [Block(8, 64, false)]
    ensures heap.freeBytes == 16 && heap.head == 32
    ensures forall bs: seq<Block> :: !Spells(heap.Words(), bs, heap.lo, heap.hi)
  {
    heap := new Allocator(8, 72);
    ghost var one := [Block(8, 64, true)];
    assert FirstFit(one, 64) == 0 && Carve(one, 0, 64) == [Block(8, 64, false)];
    NeedRoundsUp(56);
    var memory := heap.Alloc(56);
    assert heap.blocks == [Block(8, 64, false)] && heap.freeBytes == 0 by { assert heap.blocks[1..] == []; }
    heap.Write(32, Header(16 + FLAG, 0), 0);
    assert Below(heap.blocks, 32) == 1 by { assert heap.blocks[1..] == []; }
    assert LastFree(heap.blocks[..1]) == 0 by { assert heap.blocks[..1][..0] == []; }
    heap.Free(40);
  }

  /** From one free block of the list to the next, or to the end marker. */
  lemma NextFit(mem: map<nat, Header>, bs: seq<Block>, i: nat, hi: nat) returns (j: nat)
    requires i < |bs| && Links(mem, bs[i + 1..], At(mem, bs[i].addr).next, hi)
    ensures i < j <= |bs| && forall x :: i < x < j ==> !bs[x].free
    ensures j < |bs| ==> bs[j].free && bs[j].addr == At(mem, bs[i].addr).next && At(mem, bs[j].addr).size == bs[j].size
    ensures j < |bs| ==> Links(mem, bs[j + 1..], At(mem, bs[j].addr).next, hi)
    ensures j == |bs| ==> At(mem, bs[i].addr).next == hi
  {
    var rest := bs[i + 1..];
    var f := FirstLink(mem, rest, At(mem, bs[i].addr).next, hi);
    hide Links;
    j := i + 1 + f;
    if f < |rest| { assert rest[f + 1..] == bs[j + 1..] && rest[f] == bs[j]; }
    forall x | i < x < j ensures !bs[x].free { assert bs[x] == rest[x - i - 1]; }
  }

  lemma NoLastFree(bs: seq<Block>)
    ensures LastFree(bs[..0]) == 0
  {
  }

  lemma LastFreeHere(bs: seq<Block>, i: nat)
    requires i < |bs| && bs[i].free
    ensures LastFree(bs[..i + 1]) == bs[i].addr
  {
    assert bs[..i + 1][i] == bs[i];
  }

  lemma BlocksBelowEnd(bs: seq<Block>, lo: nat, hi: nat)
    requires Tiled(bs, lo, hi)
    ensures forall i :: 0 <= i < |bs| ==> bs[i].addr < hi
  {
    forall i | 0 <= i < |bs| ensures bs[i].addr < hi { var mid := TiledSplit(bs, i, lo, hi); }
  }

  function AlignUp(x: nat): nat { (x + ALIGN - 1) / ALIGN * ALIGN }
  function AlignDown(x: nat): nat { x / ALIGN * ALIGN }

  lemma PayloadAligned(bs: seq<Block>, i: nat, lo: nat, hi: nat)
    requires Tiled(bs, lo, hi) && i < |bs|
    ensures Aligned(bs[i].addr + HEADER)
  {
    var mid := TiledSplit(bs, i, lo, hi);
  }

  /** The aligned bounds lie inside the array, with room for more than one block. */
  lemma AlignedBounds(base: nat, bytes: nat)
    requires 64 <= bytes
    ensures var first := AlignUp(base); var last := AlignDown(base + bytes - HEADER);
            base <= first && first + MIN_BLOCK <= last && last + HEADER <= base + bytes && Aligned(first) && Aligned(last) && Aligned(last - first)
  {
    var x, y := (base + ALIGN - 1) / ALIGN, (base + bytes - HEADER) / ALIGN;
    assert x * ALIGN % ALIGN == 0 && y * ALIGN % ALIGN == 0;
    assert y * ALIGN - x * ALIGN == (y - x) * ALIGN;
    assert (y - x) * ALIGN % ALIGN == 0;
  }

  lemma FirstFitUnique(bs: seq<Block>, need: nat, i: nat)
    requires i <= |bs| && forall j :: 0 <= j < i ==> !(bs[j].free && bs[j].size >= need)
    ensures i == |bs| || (bs[i].free && bs[i].size >= need) ==> FirstFit(bs, need) == i
  {
    FirstFitIsFirst(bs, need);
  }

  /** Live blocks between the last free one and i do not change which one is last. */
  lemma {:induction false} LastFreeSkips(bs: seq<Block>, n: nat, i: nat)
    requires n <= i <= |bs| && forall j :: n <= j < i ==> !bs[j].free
    ensures LastFree(bs[..i]) == LastFree(bs[..n])
    decreases i
  {
    if n < i {
      assert bs[..i][i - 1] == bs[i - 1] && bs[..i][..i - 1] == bs[..i - 1];
      LastFreeSkips(bs, n, i - 1);
    }
  }

  /** Where the carved block lies, and how much of the old one it takes. */
  lemma CarvedAt(bs: seq<Block>, i: nat, need: nat)
    requires i < |bs| && bs[i].size >= need
    ensures i < |Carve(bs, i, need)| && Carve(bs, i, need)[i].addr == bs[i].addr
    ensures Carve(bs, i, need)[i].size == if bs[i].size - need >= MIN_BLOCK then need else bs[i].size
  {
  }
}
