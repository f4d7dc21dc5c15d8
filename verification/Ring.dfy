/** Bytes in a ring: reading and writing stretches that may straddle the end of the storage. */
module Ring {

  type byte = x: int | 0 <= x < 256

  /** A position less than two capacities on: one step round at most. */
  function Wrap(x: nat, cap: nat): nat
    requires x < 2 * cap
  {
    if x < cap then x else x - cap
  }

  lemma WrapIsModulo(x: nat, cap: nat)
    requires x < 2 * cap
    ensures x % cap == Wrap(x, cap)
  {
    if x >= cap { assert x == cap + (x - cap); SmallModulo(x - cap, cap); }
    else { SmallModulo(x, cap); }
  }

  lemma SmallModulo(x: nat, cap: nat)
    requires x < cap
    ensures x % cap == x && (x + cap) % cap == x
  {
  }

  /** The i-th byte of the ring counted from position p. */
  function ByteAt(b: seq<byte>, p: nat, i: nat): byte
    requires p < |b| && i <= |b|
  {
    b[Wrap(p + i, |b|)]
  }

  /** n bytes of the ring from position p on. */
  function Bytes(b: seq<byte>, p: nat, n: nat): (r: seq<byte>)
    requires p < |b| && n <= |b|
    ensures |r| == n
  {
    seq(n, i requires 0 <= i < n => ByteAt(b, p, i))
  }

  /** Before the end of the storage, a stretch is read straight. */
  lemma BytesAt(b: seq<byte>, p: nat, n: nat, i: nat)
    requires p < |b| && i < n <= |b|
    ensures Bytes(b, p, n)[i] == b[Wrap(p + i, |b|)]
  {
  }

  /** Two stretches that follow each other. */
  lemma BytesJoin(b: seq<byte>, p: nat, n: nat, m: nat)
    requires p < |b| && n + m <= |b|
    ensures Bytes(b, p, n + m) == Bytes(b, p, n) + (if n < |b| then Bytes(b, Wrap(p + n, |b|), m) else [])
  {
    var whole := Bytes(b, p, n + m);
    var parts := Bytes(b, p, n) + (if n < |b| then Bytes(b, Wrap(p + n, |b|), m) else []);
    forall i | 0 <= i < n + m ensures whole[i] == parts[i] {
      if i >= n { assert ByteAt(b, Wrap(p + n, |b|), i - n) == ByteAt(b, p, i); }
    }
  }

  /** Bytes [from t on] outside the n just written are as before. */
  ghost predicate OnlyWrote(b: seq<byte>, b': seq<byte>, t: nat, n: nat)
    requires |b'| == |b| && t < |b|
  {
    forall i :: n <= i < |b| ==> ByteAt(b', t, i) == ByteAt(b, t, i)
  }

  /** A stretch that ends where the writing begins is not touched by it. */
  lemma EarlierUntouched(b: seq<byte>, b': seq<byte>, h: nat, used: nat, n: nat)
    requires |b'| == |b| && h < |b| && used + n <= |b| && used < |b|
    requires OnlyWrote(b, b', Wrap(h + used, |b|), n)
    ensures Bytes(b', h, used) == Bytes(b, h, used)
  {
    var t := Wrap(h + used, |b|);
    forall i | 0 <= i < used ensures ByteAt(b', h, i) == ByteAt(b, h, i) {
      var j := |b| - used + i;
      assert ByteAt(b', t, j) == ByteAt(b, t, j);
      assert Wrap(t + j, |b|) == Wrap(h + i, |b|);
    }
    assert forall i :: 0 <= i < used ==> Bytes(b', h, used)[i] == ByteAt(b', h, i) == Bytes(b, h, used)[i];
  }

  lemma TwoCopies(before: seq<byte>, between: seq<byte>, after: seq<byte>, t: nat, first: nat, source: seq<byte>)
    requires t < |before| && |source| <= |before| && first == (if |before| - t > |source| then |source| else |before| - t)
    requires between == before[..t] + source[..first] + before[t + first..]
    requires after == if |source| > first then source[first..] + between[|source| - first..] else between
    ensures after == source[first..] + before[|source| - first..t] + source[..first] + before[t + first..]
  {
  }

  /** What the two copies wrote, read round the ring. */
  lemma TwoPieces(before: seq<byte>, after: seq<byte>, t: nat, first: nat, source: seq<byte>)
    requires t < |before| && |source| <= |before| && first == (if |before| - t > |source| then |source| else |before| - t)
    requires after == source[first..] + before[|source| - first..t] + source[..first] + before[t + first..]
    ensures |after| == |before| && Bytes(after, t, |source|) == source && OnlyWrote(before, after, t, |source|)
  {
    forall j | 0 <= j < |source| ensures ByteAt(after, t, j) == source[j] {
      if j >= first { assert Wrap(t + j, |before|) == j - first; }
    }
    forall i | |source| <= i < |before| ensures ByteAt(after, t, i) == ByteAt(before, t, i) {}
  }

  /** At most two copies write the source round the ring and nothing else. */
  lemma CopiesSpell(before: seq<byte>, between: seq<byte>, after: seq<byte>, t: nat, first: nat, source: seq<byte>)
    requires t < |before| && |source| <= |before| && first == (if |before| - t > |source| then |source| else |before| - t)
    requires between == before[..t] + source[..first] + before[t + first..]
    requires after == if |source| > first then source[first..] + between[|source| - first..] else between
    ensures |after| == |before| && Bytes(after, t, |source|) == source && OnlyWrote(before, after, t, |source|)
  {
    hide Bytes, OnlyWrote;
    TwoCopies(before, between, after, t, first, source);
    TwoPieces(before, after, t, first, source);
  }

  /** One contiguous copy into the ring's storage. */
  method CopyIn(buffer: array<byte>, p: nat, source: seq<byte>)
    requires p + |source| <= buffer.Length
    modifies buffer
    ensures buffer[..] == old(buffer[..p]) + source + old(buffer[p + |source|..])
  {
    ghost var before := buffer[..];
    var i := 0;
    while i < |source|
      invariant 0 <= i <= |source|
      invariant forall j :: 0 <= j < buffer.Length ==> buffer[j] == if p <= j < p + i then source[j - p] else before[j]
    {
      buffer[p + i] := source[i];
      i := i + 1;
    }
  }

  lemma CopiedFront(before: seq<byte>, after: seq<byte>, source: seq<byte>)
    requires |source| <= |before| && after == before[..0] + source + before[|source|..]
    ensures after == source + before[|source|..]
  {
  }

  /** The source written from position t on, in at most two pieces. */
  method CopyRound(buffer: array<byte>, t: nat, source: seq<byte>)
    requires t < buffer.Length && |source| <= buffer.Length
    modifies buffer
    ensures Bytes(buffer[..], t, |source|) == source && OnlyWrote(old(buffer[..]), buffer[..], t, |source|)
  {
    hide *;
    var first := buffer.Length - t;
    if first > |source| { first := |source|; }
    ghost var before := buffer[..];
    CopyIn(buffer, t, source[..first]);
    ghost var between := buffer[..];
    assert between == before[..t] + source[..first] + before[t + first..];
    if |source| > first {
      CopyIn(buffer, 0, source[first..]);
      CopiedFront(between, buffer[..], source[first..]);
    }
    CopiesSpell(before, between, buffer[..], t, first, source);
  }
}
