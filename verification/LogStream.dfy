/** The log's byte ring (os_log.c): producers queue whole lines from anywhere, one consumer hands the bytes
    to a transport outside the lock. First what all interleavings amount to, then the ring itself. */
module LogStream {
  import opened Ring

  const WORD: nat := 0x1_0000_0000

  type Line = seq<byte>

  /** What the transport is given: bytes of the ring, and drop notices with their count. */
  datatype Piece = Data(b: byte) | Notice(count: nat)

  /** Where the consumer stands between its locked sections. */
  datatype Consumer =
    | Looking
    | Sending(length: nat, done: nat)
    | Counting
    | Reporting(count: nat)
    | Settling
    | Asleep

  /** The log seen from outside: `ring` holds the occupied bytes, oldest first; `accepted` and `out` are the
      lines taken so far and everything handed to the transport. */
  datatype View = View(
    size: nat, accepted: seq<Line>, ring: seq<byte>, consumer: Consumer, out: seq<Piece>, dropped: nat, pending: nat)

  // ---------- the locked sections, and the transport between them ----------

  /** A 32-bit counter counts on. */
  function Bump(n: nat): nat { (n + 1) % WORD }

  predicate Fits(v: View, line: Line) { |v.ring| + |line| < v.size }

  /** os_log_queue: the whole line or nothing of it; a queued line wakes the consumer. */
  function Queued(v: View, line: Line): View {
    if Fits(v, line) then
      v.(ring := v.ring + line, accepted := v.accepted + [line], consumer := if v.consumer.Asleep? then Looking else v.consumer)
    else v.(dropped := Bump(v.dropped), pending := Bump(v.pending))
  }

  datatype Step =
    | Queue(line: Line)
    | Look(length: nat)
    | Emit
    | Advance
    | TakeDropped
    | Report
    | Settle

  predicate Enabled(v: View, a: Step) {
    match a
    case Queue(_) => true
    case Look(length) => v.consumer.Looking? && length <= |v.ring| && (length == 0 <==> v.ring == [])
    case Emit => v.consumer.Sending? && v.consumer.done < v.consumer.length && v.consumer.done < |v.ring|
    case Advance => v.consumer.Sending? && v.consumer.done == v.consumer.length && v.consumer.length <= |v.ring|
    case TakeDropped => v.consumer.Counting?
    case Report => v.consumer.Reporting?
    case Settle => v.consumer.Settling?
  }

  function Apply(v: View, a: Step): View
    requires Enabled(v, a)
  {
    match a
    case Queue(line) => Queued(v, line)
    case Look(length) => v.(consumer := if length == 0 then Counting else Sending(length, 0))
    case Emit => v.(out := v.out + [Data(v.ring[v.consumer.done])], consumer := Sending(v.consumer.length, v.consumer.done + 1))
    case Advance => v.(ring := v.ring[v.consumer.length..], consumer := Looking)
    case TakeDropped => v.(pending := 0, consumer := if v.pending == 0 then Settling else Reporting(v.pending))
    case Report => v.(out := v.out + [Notice(v.consumer.count)], consumer := Looking)
    case Settle => v.(consumer := if v.ring == [] then Asleep else Looking)
  }

  // ---------- the stream ----------

  function Flatten(lines: seq<Line>): seq<byte>
    decreases |lines|
  {
    if lines == [] then [] else Flatten(lines[..|lines| - 1]) + lines[|lines| - 1]
  }

  function Datas(out: seq<Piece>): seq<byte>
    decreases |out|
  {
    if out == [] then []
    else Datas(out[..|out| - 1]) + (if out[|out| - 1].Data? then [out[|out| - 1].b] else [])
  }

  function Noticed(out: seq<Piece>): nat
    decreases |out|
  {
    if out == [] then 0 else Noticed(out[..|out| - 1]) + (if out[|out| - 1].Notice? then out[|out| - 1].count else 0)
  }

  /** Occupied bytes not yet handed out. */
  function Unsent(v: View): seq<byte> {
    if v.consumer.Sending? && v.consumer.done <= |v.ring| then v.ring[v.consumer.done..] else v.ring
  }

  /** The bytes are those of the first lines, whole. */
  ghost predicate Whole(bytes: seq<byte>, lines: seq<Line>) { exists k: nat :: k <= |lines| && bytes == Flatten(lines[..k]) }

  /** Every notice stands between two lines. */
  ghost predicate Between(out: seq<Piece>, lines: seq<Line>) {
    forall i :: 0 <= i < |out| && out[i].Notice? ==> Whole(Datas(out[..i]), lines)
  }

  /** Taken for a notice, but not yet in the output. */
  function InHand(v: View): nat { if v.consumer.Reporting? then v.consumer.count else 0 }

  predicate ShapeOk(v: View) {
    && 0 < v.size && |v.ring| < v.size && v.dropped < WORD && v.pending < WORD
    && (v.consumer.Sending? ==> v.consumer.done <= v.consumer.length <= |v.ring|)
    && (v.consumer.Asleep? ==> v.ring == [])
  }

  /** The stream law: what was handed out and what is still held are exactly the accepted lines, in order;
      notices stand at line boundaries; and every drop is noticed, in hand, or pending. */
  ghost predicate Sound(v: View) {
    && ShapeOk(v)
    && Datas(v.out) + Unsent(v) == Flatten(v.accepted)
    && Between(v.out, v.accepted)
    && (v.consumer.Counting? || v.consumer.Reporting? ==> Whole(Datas(v.out), v.accepted))
    && (Noticed(v.out) + InHand(v) + v.pending) % WORD == v.dropped
  }

  predicate Initial(v: View) {
    0 < v.size && v.accepted == [] && v.ring == [] && v.consumer.Looking? && v.out == [] && v.dropped == 0 && v.pending == 0
  }

  lemma InitialIsSound(v: View)
    requires Initial(v)
    ensures Sound(v)
  {
  }

  /** More lines at the end: what was whole stays whole. */
  lemma WholeGrows(bytes: seq<byte>, lines: seq<Line>, line: Line)
    requires Whole(bytes, lines)
    ensures Whole(bytes, lines + [line])
  {
    var k: nat :| k <= |lines| && bytes == Flatten(lines[..k]);
    assert (lines + [line])[..k] == lines[..k];
  }

  lemma BetweenGrows(out: seq<Piece>, lines: seq<Line>, line: Line)
    requires Between(out, lines)
    ensures Between(out, lines + [line])
  {
    forall i | 0 <= i < |out| && out[i].Notice? ensures Whole(Datas(out[..i]), lines + [line]) {
      WholeGrows(Datas(out[..i]), lines, line);
    }
  }

  lemma BetweenSnoc(out: seq<Piece>, lines: seq<Line>, p: Piece)
    requires Between(out, lines) && (p.Notice? ==> Whole(Datas(out), lines))
    ensures Between(out + [p], lines)
  {
    var out' := out + [p];
    forall i | 0 <= i < |out'| && out'[i].Notice? ensures Whole(Datas(out'[..i]), lines) {
      assert out'[..i] == if i < |out| then out[..i] else out;
    }
  }

  lemma OutSnoc(out: seq<Piece>, p: Piece)
    ensures Datas(out + [p]) == Datas(out) + (if p.Data? then [p.b] else [])
    ensures Noticed(out + [p]) == Noticed(out) + (if p.Notice? then p.count else 0)
  {
    assert (out + [p])[..|out|] == out;
  }

  lemma FlattenSnoc(lines: seq<Line>, line: Line)
    ensures Flatten(lines + [line]) == Flatten(lines) + line
  {
    assert (lines + [line])[..|lines|] == lines;
  }

  lemma UnsentGrows(v: View, line: Line)
    requires ShapeOk(v) && Fits(v, line)
    ensures Unsent(Queued(v, line)) == Unsent(v) + line
  {
    if v.consumer.Sending? { assert (v.ring + line)[v.consumer.done..] == v.ring[v.consumer.done..] + line; }
  }

  lemma QueueKeepsStream(v: View, line: Line)
    requires ShapeOk(v) && Fits(v, line) && Datas(v.out) + Unsent(v) == Flatten(v.accepted)
    ensures Datas(v.out) + Unsent(Queued(v, line)) == Flatten(v.accepted + [line])
  {
    hide *;
    FlattenSnoc(v.accepted, line);
    UnsentGrows(v, line);
    assert Datas(v.out) + (Unsent(v) + line) == (Datas(v.out) + Unsent(v)) + line;
  }

  /** One more drop on both sides of the account. */
  lemma OneMore(a: nat, b: nat, dropped: nat)
    requires (a + b) % WORD == dropped < WORD && b < WORD
    ensures (a + Bump(b)) % WORD == Bump(dropped)
  {
    if b + 1 == WORD { assert (a + WORD - 1 + 1) % WORD == a % WORD; }
    assert (a + b + 1) % WORD == ((a + b) % WORD + 1) % WORD;
  }

  lemma AcceptSound(v: View, line: Line)
    requires Sound(v) && Fits(v, line)
    ensures Sound(Queued(v, line))
  {
    var v' := Queued(v, line);
    assert ShapeOk(v') && InHand(v') == InHand(v);
    hide Whole, Between, Flatten, Datas, Noticed, Unsent, InHand, ShapeOk;
    QueueKeepsStream(v, line);
    BetweenGrows(v.out, v.accepted, line);
    if v.consumer.Counting? || v.consumer.Reporting? { WholeGrows(Datas(v.out), v.accepted, line); }
  }

  lemma QueuedIs(v: View, line: Line)
    requires Fits(v, line)
    ensures Queued(v, line) == v.(ring := v.ring + line, accepted := v.accepted + [line],
                                  consumer := if v.consumer.Asleep? then Looking else v.consumer)
  {
  }

  lemma DropParts(v: View, line: Line)
    requires ShapeOk(v) && !Fits(v, line)
    ensures var v' := Queued(v, line); ShapeOk(v') && InHand(v') == InHand(v) && Unsent(v') == Unsent(v)
    ensures Queued(v, line) == v.(dropped := Bump(v.dropped), pending := Bump(v.pending)) && v.dropped < WORD && v.pending < WORD
  {
  }

  lemma DropSound(v: View, line: Line)
    requires Sound(v) && !Fits(v, line)
    ensures Sound(Queued(v, line))
  {
    hide Whole, Between, Flatten, Datas, Noticed, Unsent, InHand, ShapeOk, Fits, Bump, Queued;
    DropParts(v, line);
    OneMore(Noticed(v.out) + InHand(v), v.pending, v.dropped);
  }

  lemma QueueSound(v: View, line: Line)
    requires Sound(v)
    ensures Sound(Queued(v, line))
  {
    hide *;
    if Fits(v, line) { AcceptSound(v, line); } else { DropSound(v, line); }
  }

  /** A line is taken whole exactly when all of it fits beside what is held with one slot to spare, and then nobody
      sleeps; otherwise nothing of it is, and one more drop is counted - modulo the counters' width. */
  lemma QueueOutcome(v: View, line: Line)
    requires ShapeOk(v)
    ensures var v' := Queued(v, line);
            if |line| <= v.size - 1 - |v.ring| then
              && v'.accepted == v.accepted + [line] && v'.ring == v.ring + line && !v'.consumer.Asleep?
              && (!v.consumer.Asleep? ==> v'.consumer == v.consumer) && v'.dropped == v.dropped && v'.pending == v.pending && v'.out == v.out
            else
              && v'.accepted == v.accepted && v'.ring == v.ring && v'.consumer == v.consumer && v'.out == v.out
              && v'.dropped == (if v.dropped == WORD - 1 then 0 else v.dropped + 1)
              && v'.pending == (if v.pending == WORD - 1 then 0 else v.pending + 1)
  {
    if v.dropped < WORD - 1 { assert (v.dropped + 1) % WORD == v.dropped + 1; }
    if v.pending < WORD - 1 { assert (v.pending + 1) % WORD == v.pending + 1; }
  }

  /** Drops the consumer finds are put in its hand, and the next thing it hands out is their number; it goes to
      sleep only on an empty ring. */
  lemma NoticeOutcome(v: View)
    requires Sound(v)
    ensures v.consumer.Counting? && v.pending > 0 ==>
            var v1 := Apply(v, TakeDropped);
            v1.pending == 0 && Enabled(v1, Report) && Apply(v1, Report).out == v.out + [Notice(v.pending)] && Apply(v1, Report).consumer.Looking?
    ensures v.consumer.Counting? && v.pending == 0 ==> Apply(v, TakeDropped) == v.(consumer := Settling)
    ensures v.consumer.Settling? ==> (Apply(v, Settle).consumer.Asleep? <==> v.ring == []) && Apply(v, Settle).out == v.out
  {
    hide Whole, Between, Flatten, Datas, Noticed;
  }

  /** With the ring empty, everything accepted has been handed out: a line boundary. */
  lemma EmptyIsWhole(v: View)
    requires Sound(v) && v.ring == [] && !v.consumer.Sending?
    ensures Whole(Datas(v.out), v.accepted)
  {
    assert v.accepted[..|v.accepted|] == v.accepted;
    assert Datas(v.out) + [] == Datas(v.out);
  }

  lemma EmitSound(v: View)
    requires Sound(v) && Enabled(v, Emit)
    ensures Sound(Apply(v, Emit))
  {
    var v' := Apply(v, Emit);
    var p := Data(v.ring[v.consumer.done]);
    assert Unsent(v) == v.ring[v.consumer.done..] && Unsent(v') == v.ring[v.consumer.done + 1..] && InHand(v') == InHand(v) == 0;
    assert v'.out == v.out + [p] && v'.accepted == v.accepted && ShapeOk(v');
    SoundAgain(v, v', p);
  }

  /** One more byte handed out, one fewer held. */
  lemma SoundAgain(v: View, v': View, p: Piece)
    requires Sound(v) && v.consumer.Sending? && v.consumer.done < |v.ring| && p == Data(v.ring[v.consumer.done])
    requires Unsent(v) == v.ring[v.consumer.done..] && Unsent(v') == v.ring[v.consumer.done + 1..] && InHand(v') == InHand(v) == 0
    requires v'.out == v.out + [p] && v'.accepted == v.accepted && ShapeOk(v') && v'.consumer.Sending?
    requires v'.pending == v.pending && v'.dropped == v.dropped
    ensures Sound(v')
  {
    hide Whole, Between, Flatten, Datas, Noticed, Unsent, InHand, ShapeOk;
    OutSnoc(v.out, p);
    BetweenSnoc(v.out, v.accepted, p);
    OneOver(Datas(v.out), v.ring, v.consumer.done);
  }

  lemma OneOver(a: seq<byte>, ring: seq<byte>, i: nat)
    requires i < |ring|
    ensures a + ring[i..] == (a + [ring[i]]) + ring[i + 1..]
  {
    assert ring[i..] == [ring[i]] + ring[i + 1..];
  }

  lemma ReportSound(v: View)
    requires Sound(v) && Enabled(v, Report)
    ensures Sound(Apply(v, Report))
  {
    var p := Notice(v.consumer.count);
    OutSnoc(v.out, p);
    BetweenSnoc(v.out, v.accepted, p);
    hide Whole, Between, Flatten, Datas, Noticed;
    assert Datas(v.out) + [] == Datas(v.out);
  }

  lemma AdvanceSound(v: View)
    requires Sound(v) && Enabled(v, Advance)
    ensures Sound(Apply(v, Advance))
  {
    hide Whole, Between, Flatten, Datas, Noticed;
  }

  lemma LookSound(v: View, length: nat)
    requires Sound(v) && Enabled(v, Look(length))
    ensures Sound(Apply(v, Look(length)))
  {
    if length == 0 { EmptyIsWhole(v); }
    hide Whole, Between, Flatten, Datas, Noticed;
  }

  lemma TakeSound(v: View)
    requires Sound(v) && Enabled(v, TakeDropped)
    ensures Sound(Apply(v, TakeDropped))
  {
    hide Whole, Between, Flatten, Datas, Noticed;
  }

  lemma SettleSound(v: View)
    requires Sound(v) && Enabled(v, Settle)
    ensures Sound(Apply(v, Settle))
  {
    hide Whole, Between, Flatten, Datas, Noticed;
  }

  lemma StepIsSound(v: View, a: Step)
    requires Sound(v) && Enabled(v, a)
    ensures Sound(Apply(v, a))
  {
    hide Sound, Queued;
    match a
    case Queue(line) => QueueSound(v, line);
    case Look(length) => LookSound(v, length);
    case Emit => EmitSound(v);
    case Advance => AdvanceSound(v);
    case TakeDropped => TakeSound(v);
    case Report => ReportSound(v);
    case Settle => SettleSound(v);
  }

  // ---------- runs ----------

  predicate IsRun(v: View, steps: seq<Step>)
    decreases |steps|
  {
    steps == [] || (Enabled(v, steps[0]) && IsRun(Apply(v, steps[0]), steps[1..]))
  }

  function After(v: View, steps: seq<Step>): View
    requires IsRun(v, steps)
    decreases |steps|
  {
    if steps == [] then v else After(Apply(v, steps[0]), steps[1..])
  }

  /** With producers running between any two of the consumer's steps, down to every single byte it hands
      out: the stream law holds throughout. */
  lemma {:induction false} EveryRunIsSound(v: View, steps: seq<Step>)
    requires Sound(v) && IsRun(v, steps)
    ensures Sound(After(v, steps))
    decreases |steps|
  {
    if steps != [] {
      StepIsSound(v, steps[0]);
      EveryRunIsSound(Apply(v, steps[0]), steps[1..]);
    }
  }

  /** A consumer at rest has handed out every accepted line, whole. */
  lemma AsleepMeansDrained(v: View)
    requires Sound(v) && v.consumer.Asleep?
    ensures Datas(v.out) == Flatten(v.accepted) && (Noticed(v.out) + v.pending) % WORD == v.dropped
  {
    assert Datas(v.out) + [] == Datas(v.out);
  }

  // ---------- the ring ----------

  /** What the ring's cursors leave occupied; one slot stays unused, so equal cursors mean empty. */
  function Used(head: nat, tail: nat, size: nat): nat
    requires head < size && tail < size
  {
    if head >= tail then head - tail else size - (tail - head)
  }

  lemma UsedWraps(h: nat, t: nat, size: nat, n: nat)
    requires h < size && t < size && Used(h, t, size) + n < size
    ensures Wrap(t + Used(h, t, size), size) == h
    ensures (h + n) % size < size && Used((h + n) % size, t, size) == Used(h, t, size) + n
  {
    WrapIsModulo(h + n, size);
  }

  lemma Appended(before: seq<byte>, after: seq<byte>, t: nat, u: nat, h: nat, data: Line)
    requires h < |before| == |after| && t < |before| && u + |data| < |before| && h == Wrap(t + u, |before|)
    requires Bytes(after, h, |data|) == data && OnlyWrote(before, after, h, |data|)
    ensures Bytes(after, t, u + |data|) == Bytes(before, t, u) + data
  {
    hide Bytes, OnlyWrote;
    EarlierUntouched(before, after, t, u, |data|);
    BytesJoin(after, t, u, |data|);
  }

  /** What is written at head is appended to what the cursors spell. */
  lemma PutSpells(before: seq<byte>, after: seq<byte>, h: nat, t: nat, data: Line)
    requires h < |before| == |after| && t < |before| && Used(h, t, |before|) + |data| < |before|
    requires Bytes(after, h, |data|) == data && OnlyWrote(before, after, h, |data|)
    ensures (h + |data|) % |before| < |before| && Used((h + |data|) % |before|, t, |before|) == Used(h, t, |before|) + |data|
    ensures Bytes(after, t, Used(h, t, |before|) + |data|) == Bytes(before, t, Used(h, t, |before|)) + data
  {
    UsedWraps(h, t, |before|, |data|);
    hide *;
    Appended(before, after, t, Used(h, t, |before|), h, data);
  }

  lemma AdvanceSpells(b: seq<byte>, h: nat, t: nat, n: nat)
    requires h < |b| && t < |b| && n <= Used(h, t, |b|)
    ensures (t + n) % |b| < |b| && Used(h, (t + n) % |b|, |b|) == Used(h, t, |b|) - n
    ensures Bytes(b, (t + n) % |b|, Used(h, t, |b|) - n) == Bytes(b, t, Used(h, t, |b|))[n..]
  {
    WrapIsModulo(t + n, |b|);
    BytesJoin(b, t, n, Used(h, t, |b|) - n);
  }

  lemma UsedFits(head: nat, tail: nat, size: nat)
    requires head < size && tail < size
    ensures Used(head, tail, size) < size
  {
  }

  class LogRing {
    const size: nat
    const buffer: array<byte>
    var head: nat
    var tail: nat
    var dropped: nat
    var pending: nat
    var consumer: Consumer
    /** Start of the chunk given to the transport. */
    var chunk: nat
    ghost var accepted: seq<Line>
    ghost var out: seq<Piece>

    ghost predicate Valid()
      reads this, buffer
    {
      && buffer.Length == size && head < size && tail < size
      && (consumer.Sending? ==> chunk == tail && chunk + consumer.length <= size && consumer.length <= Used(head, tail, size))
      && Sound(Seen())
    }

    ghost function Seen(): View
      reads this, buffer
    {
      View(size, accepted,
           if buffer.Length == size && head < size && tail < size then Bytes(buffer[..], tail, Used(head, tail, size)) else [],
           consumer, out, dropped, pending)
    }

    constructor (bytes: nat)
      requires 0 < bytes
      ensures Valid() && fresh(buffer) && Initial(Seen()) && size == bytes
    {
      size, head, tail, dropped, pending, consumer, chunk := bytes, 0, 0, 0, 0, Looking, 0;
      buffer := new byte[bytes](_ => 0);
      accepted, out := [], [];
      new;
      InitialIsSound(Seen());
    }

    /** os_log_free_space. */
    method FreeSpace() returns (free: nat)
      requires Valid()
      ensures free == size - 1 - |Seen().ring|
    {
      var used := if head >= tail then head - tail else size - (tail - head);
      free := size - 1 - used;
    }

    /** os_log_put: at head, in at most two pieces. */
    method Put(data: Line)
      requires buffer.Length == size && head < size && tail < size && Used(head, tail, size) + |data| < size
      modifies buffer, this`head
      ensures head < size && Used(head, tail, size) == old(Used(head, tail, size)) + |data|
      ensures Bytes(buffer[..], tail, Used(head, tail, size)) == old(Bytes(buffer[..], tail, Used(head, tail, size))) + data
    {
      ghost var before := buffer[..];
      CopyRound(buffer, head, data);
      PutSpells(before, buffer[..], head, tail, data);
      head := (head + |data|) % size;
    }

    /** The line goes into the ring. */
    method PutLine(line: Line)
      requires Valid() && Fits(Seen(), line)
      modifies this`head, buffer
      ensures buffer.Length == size && head < size && tail < size && Used(head, tail, size) >= old(Used(head, tail, size))
      ensures Seen() == old(Seen()).(ring := old(Seen()).ring + line)
    {
      UsedFits(head, tail, size);
      hide Sound, Bytes, Used;
      Put(line);
    }

    /** And the consumer is woken. */
    method Wake(ghost line: Line)
      modifies this`accepted, this`consumer
      ensures consumer == if old(consumer).Asleep? then Looking else old(consumer)
      ensures Seen() == old(Seen()).(accepted := old(accepted) + [line], consumer := consumer)
    {
      accepted := accepted + [line];
      if consumer == Asleep { consumer := Looking; }
    }

    method Accept(line: Line)
      requires Valid() && Fits(Seen(), line)
      modifies this`head, this`accepted, this`consumer, buffer
      ensures Valid() && Seen() == Queued(old(Seen()), line)
    {
      QueueSound(Seen(), line);
      QueuedIs(Seen(), line);
      hide Sound, Bytes, Used, Fits, Queued;
      PutLine(line);
      Wake(line);
    }

    /** The line is lost, and counted twice over: for good, and until the next notice. */
    method Drop(ghost line: Line)
      requires Valid() && !Fits(Seen(), line)
      modifies this`dropped, this`pending
      ensures Valid() && Seen() == Queued(old(Seen()), line)
    {
      QueueSound(Seen(), line);
      hide Sound, Bytes, Used, Bump;
      dropped, pending := Bump(dropped), Bump(pending);
    }

    /** os_log_queue, in one critical section. */
    method Queue(line: Line)
      requires Valid()
      modifies this, buffer
      ensures Valid() && Seen() == Queued(old(Seen()), line)
    {
      var free := FreeSpace();
      assert Fits(Seen(), line) <==> free >= |line|;
      hide *;
      if free < |line| {
        Drop(line);
      } else {
        Accept(line);
      }
    }

    /** The consumer's first section: the longest run that does not wrap. */
    method Look() returns (length: nat)
      requires Valid() && consumer.Looking?
      modifies this`consumer, this`chunk
      ensures Valid() && Enabled(old(Seen()), Step.Look(length)) && Seen() == Apply(old(Seen()), Step.Look(length))
    {
      ghost var v := Seen();
      length := 0;
      if head != tail {
        var end := if head > tail then head else size;
        chunk, length := tail, end - tail;
      }
      consumer := if length == 0 then Counting else Sending(length, 0);
      StepIsSound(v, Step.Look(length));
    }

    /** The transport reads one byte of its chunk, long after the lock is gone. */
    method Emit() returns (b: byte)
      requires Valid() && consumer.Sending? && consumer.done < consumer.length
      modifies this`consumer, this`out
      ensures Valid() && Enabled(old(Seen()), Step.Emit) && Seen() == Apply(old(Seen()), Step.Emit)
      ensures out == old(out) + [Data(b)]
    {
      hide Sound, Bytes, Used;
      ghost var v := Seen();
      StepIsSound(v, Step.Emit);
      ghost var all := buffer[..];
      UsedFits(head, tail, size);
      BytesAt(all, tail, Used(head, tail, size), consumer.done);
      b := buffer[chunk + consumer.done];
      consumer := Sending(consumer.length, consumer.done + 1);
      out := out + [Data(b)];
    }

    /** The section behind the transport: only now is the chunk's room given back. */
    method Advance()
      requires Valid() && consumer.Sending? && consumer.done == consumer.length
      modifies this`consumer, this`tail
      ensures Valid() && Enabled(old(Seen()), Step.Advance) && Seen() == Apply(old(Seen()), Step.Advance)
    {
      StepIsSound(Seen(), Step.Advance);
      AdvanceCoheres(this, buffer[..]);
      tail := (tail + consumer.length) % size;
      consumer := Looking;
    }

    /** Pending drops are taken for one notice. */
    method TakeDropped() returns (count: nat)
      requires Valid() && consumer.Counting?
      modifies this`consumer, this`pending
      ensures Valid() && Seen() == Apply(old(Seen()), Step.TakeDropped)
    {
      StepIsSound(Seen(), Step.TakeDropped);
      hide Sound, Bytes, Used;
      count := pending;
      pending := 0;
      consumer := if count == 0 then Settling else Reporting(count);
    }

    /** os_log_emit_dropped, straight to the transport. */
    method Report()
      requires Valid() && consumer.Reporting?
      modifies this`consumer, this`out
      ensures Valid() && Seen() == Apply(old(Seen()), Step.Report)
    {
      StepIsSound(Seen(), Step.Report);
      hide Sound, Bytes, Used;
      out := out + [Notice(consumer.count)];
      consumer := Looking;
    }

    /** Emptiness test and sleep in one section: a line queued in between is seen here, or wakes. */
    method Settle()
      requires Valid() && consumer.Settling?
      modifies this`consumer
      ensures Valid() && Seen() == Apply(old(Seen()), Step.Settle)
    {
      StepIsSound(Seen(), Step.Settle);
      assert (head == tail) == (Seen().ring == []);
      consumer := if head == tail then Asleep else Looking;
    }
  }

  /** What Advance makes of the cursors is what the stream makes of the ring. */
  lemma AdvanceCoheres(r: LogRing, b: seq<byte>)
    requires r.Valid() && b == r.buffer[..] && r.consumer.Sending? && r.consumer.done == r.consumer.length
    ensures r.head < r.size == |b| && r.tail < r.size && (r.tail + r.consumer.length) % r.size < r.size
    ensures var t := (r.tail + r.consumer.length) % r.size;
            Bytes(b, t, Used(r.head, t, r.size)) == r.Seen().ring[r.consumer.length..]
  {
    hide Sound;
    AdvanceSpells(b, r.head, r.tail, r.consumer.length);
  }
}
