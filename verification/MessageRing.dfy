/** The message buffer (os_msg.c): variable-length messages in one byte ring, each behind a two-byte
    length, header and payload free to straddle the wrap. */
module MessageRing {
  import opened Ring

  type Message = seq<byte>

  const HEADER_BYTES: nat := 2
  const LENGTH_MAX: nat := 0xFFFF

  datatype Status = Ok | InvalidArg | Full | Empty | TimedOut | Blocked

  /** A blocked sender and the room it published before blocking: payload plus header. */
  datatype Sender = Sender(id: nat, needed: nat)

  /** The senders that still do not fit, and those that do, each in list order. */
  function Misfits(senders: seq<Sender>, free: nat): seq<Sender>
    decreases |senders|
  {
    if senders == [] then [] else (if senders[0].needed <= free then [] else [senders[0]]) + Misfits(senders[1..], free)
  }

  function Fits(senders: seq<Sender>, free: nat): seq<Sender>
    decreases |senders|
  {
    if senders == [] then [] else (if senders[0].needed <= free then [senders[0]] else []) + Fits(senders[1..], free)
  }

  /** The two split the list by the condition: nobody who fits stays, nobody who does not is woken, and
      nobody is lost. */
  lemma {:induction false} FitsSplit(senders: seq<Sender>, free: nat)
    ensures forall s :: s in Misfits(senders, free) <==> s in senders && s.needed > free
    ensures forall s :: s in Fits(senders, free) <==> s in senders && s.needed <= free
    ensures |Misfits(senders, free)| + |Fits(senders, free)| == |senders|
    decreases |senders|
  {
    if senders != [] {
      FitsSplit(senders[1..], free);
      assert forall s :: s in senders <==> s == senders[0] || s in senders[1..];
    }
  }

  lemma MisfitsStay(senders: seq<Sender>, free: nat)
    ensures forall s :: s in Misfits(senders, free) ==> s.needed > free
  {
    FitsSplit(senders, free);
  }

  /** One step of the walk over the list. */
  lemma WalkStep(senders: seq<Sender>, i: nat, free: nat)
    requires i < |senders|
    ensures Misfits(senders[i..], free) == (if senders[i].needed <= free then [] else [senders[i]]) + Misfits(senders[i + 1..], free)
    ensures Fits(senders[i..], free) == (if senders[i].needed <= free then [senders[i]] else []) + Fits(senders[i + 1..], free)
  {
    assert senders[i..][1..] == senders[i + 1..];
  }

  // ---------- what the bytes mean ----------

  /** The length header: least significant byte first. */
  function HeaderOf(length: nat): (h: seq<byte>)
    ensures |h| == HEADER_BYTES
  {
    [length % 256, length / 256 % 256]
  }

  function LengthIn(low: byte, high: byte): nat { low + 256 * high }

  /** Sixteen bits of length survive the header. */
  lemma HeaderRoundTrip(length: nat)
    requires length <= LENGTH_MAX
    ensures LengthIn(HeaderOf(length)[0], HeaderOf(length)[1]) == length
  {
  }

  /** The byte stream of a queue of messages. */
  function Encode(ms: seq<Message>): seq<byte>
    decreases |ms|
  {
    if ms == [] then [] else HeaderOf(|ms[0]|) + ms[0] + Encode(ms[1..])
  }

  lemma {:induction false} EncodeSnoc(ms: seq<Message>, m: Message)
    ensures Encode(ms + [m]) == Encode(ms) + (HeaderOf(|m|) + m)
    decreases |ms|
  {
    if ms == [] {
      assert (ms + [m])[1..] == [];
    } else {
      assert (ms + [m])[1..] == ms[1..] + [m];
      EncodeSnoc(ms[1..], m);
    }
  }

  /** Bytes a queue of messages occupies: the payloads and a header for each. */
  function Space(ms: seq<Message>): nat
    decreases |ms|
  {
    if ms == [] then 0 else |ms[0]| + HEADER_BYTES + Space(ms[1..])
  }

  lemma {:induction false} EncodeLength(ms: seq<Message>)
    ensures |Encode(ms)| == Space(ms)
    decreases |ms|
  {
    if ms != [] {
      EncodeLength(ms[1..]);
    }
  }

  lemma SpaceSnoc(ms: seq<Message>, m: Message)
    ensures Space(ms + [m]) == Space(ms) + |m| + HEADER_BYTES
  {
    EncodeSnoc(ms, m);
    EncodeLength(ms);
    EncodeLength(ms + [m]);
  }

  // ---------- senders, receivers and the wakes in flight ----------

  /** Who calls: an interrupt never blocks. */
  datatype Caller = Interrupt | Task(id: nat)

  /** How long the call is still willing to wait. */
  datatype Patience = Nothing | Spent | More

  /** `receivers` are the blocked ones in list order; `woken` left that list with a wake they have yet to
      use - on the way back into the receive loop. */
  datatype State = State(messages: seq<Message>, capacity: nat, senders: seq<Sender>, receivers: seq<nat>, woken: set<nat>)

  function Room(s: State): int { s.capacity - Space(s.messages) }

  predicate Distinct(ids: seq<nat>) { forall i, j :: 0 <= i < j < |ids| ==> ids[i] != ids[j] }

  /** No sender sleeps whose message would fit; while a receiver sleeps, every stored message has a woken
      receiver on its way to it. */
  ghost predicate Attended(s: State) {
    && (forall x :: x in s.senders ==> x.needed > Room(s))
    && (s.receivers != [] ==> |s.messages| <= |s.woken|)
    && Distinct(s.receivers) && (forall t :: t in s.receivers ==> t !in s.woken)
  }

  /** os_task_waiters_wake_one on the receivers' list. */
  function WakeReceiver(s: State): State {
    if s.receivers == [] then s else s.(receivers := s.receivers[1..], woken := s.woken + {s.receivers[0]})
  }

  /** os_task_wait_end_locked: whatever wake the caller held is used up. */
  function EndWait(s: State, c: Caller): State { if c.Interrupt? then s else s.(woken := s.woken - {c.id}) }

  predicate Sendable(s: State, m: Message) { 0 < |m| <= LENGTH_MAX && |m| + HEADER_BYTES <= s.capacity }

  /** One pass of os_msg_send. */
  function AfterSend(s: State, c: Caller, m: Message, patience: Patience): (State, Status) {
    if !Sendable(s, m) then (EndWait(s, c), InvalidArg)
    else if Room(s) >= |m| + HEADER_BYTES then (EndWait(WakeReceiver(s.(messages := s.messages + [m])), c), Ok)
    else if patience == Nothing || c.Interrupt? then (EndWait(s, c), Full)
    else if patience == Spent then (EndWait(s, c), TimedOut)
    else (s.(senders := s.senders + [Sender(c.id, |m| + HEADER_BYTES)]), Blocked)
  }

  /** What a receive leaves once it has looked at a message: later ones, or the one it had no room for, are
      announced to another receiver. */
  function PassOn(s: State, c: Caller): State { EndWait(if s.messages != [] then WakeReceiver(s) else s, c) }

  /** The oldest message gone, and every sender that fits now. */
  function Taken(s: State): State
    requires s.messages != []
  {
    var s1 := s.(messages := s.messages[1..]);
    s1.(senders := Misfits(s.senders, if Room(s1) >= 0 then Room(s1) else 0))
  }

  /** One pass of os_msg_receive. */
  function AfterReceive(s: State, c: Caller, size: nat, patience: Patience): (State, Status) {
    if s.messages != [] then
      if |s.messages[0]| > size then (PassOn(s, c), InvalidArg) else (PassOn(Taken(s), c), Ok)
    else if patience == Nothing || c.Interrupt? then (EndWait(s, c), Empty)
    else if patience == Spent then (EndWait(s, c), TimedOut)
    else (EndWait(s, c).(receivers := s.receivers + [c.id]), Blocked)
  }

  /** A pause or delete passes on a wake its task has not used. */
  function Compensated(s: State, t: nat): State { if t in s.woken then WakeReceiver(s.(woken := s.woken - {t})) else s }

  datatype Step =
    | Send(c: Caller, m: Message, patience: Patience) | Receive(c: Caller, size: nat, patience: Patience)
    | Compensate(t: nat) | Rearrange(senders: seq<Sender>, receivers: seq<nat>)

  /** A running caller is in no list; one that holds a receiver's wake is inside a receive. Waiters leave by
      timeout or force, and are re-sorted, in any way. */
  predicate Enabled(s: State, a: Step) {
    match a
    case Send(c, _, _) => c.Interrupt? || (c.id !in s.receivers && c.id !in s.woken)
    case Receive(c, _, _) => c.Interrupt? || c.id !in s.receivers
    case Compensate(_) => true
    case Rearrange(senders, receivers) =>
      (forall x :: x in senders ==> x in s.senders) && Distinct(receivers) && forall t :: t in receivers ==> t in s.receivers
  }

  function After(s: State, a: Step): State {
    match a
    case Send(c, m, patience) => AfterSend(s, c, m, patience).0
    case Receive(c, size, patience) => AfterReceive(s, c, size, patience).0
    case Compensate(t) => Compensated(s, t)
    case Rearrange(senders, receivers) => s.(senders := senders, receivers := receivers)
  }

  /** Attended, but for d messages nobody is on the way to. */
  ghost predicate AttendedBut(s: State, d: int) {
    && (s.receivers != [] ==> |s.messages| <= |s.woken| + d)
    && Distinct(s.receivers) && (forall t :: t in s.receivers ==> t !in s.woken)
  }

  lemma WakeAttends(s: State, d: int)
    requires AttendedBut(s, d)
    ensures AttendedBut(WakeReceiver(s), d - 1) && WakeReceiver(s).messages == s.messages
  {
    if s.receivers != [] {
      assert s.receivers[0] !in s.woken;
      assert |s.woken + {s.receivers[0]}| == |s.woken| + 1;
      forall t | t in s.receivers[1..] ensures t != s.receivers[0] && t in s.receivers {}
    }
  }

  lemma EndAttends(s: State, c: Caller, d: int)
    requires AttendedBut(s, d)
    ensures AttendedBut(EndWait(s, c), if c.Task? && c.id in s.woken then d + 1 else d)
  {
    if c.Task? && c.id in s.woken {
      assert |s.woken - {c.id}| == |s.woken| - 1;
    } else if c.Task? {
      assert s.woken - {c.id} == s.woken;
    }
  }

  lemma Looser(s: State, d: int, e: int)
    requires AttendedBut(s, d) && d <= e
    ensures AttendedBut(s, e)
  {
  }

  /** The receivers' side of each pass. */
  lemma ReceiversAttended(s: State, a: Step)
    requires AttendedBut(s, 0) && Enabled(s, a)
    ensures AttendedBut(After(s, a), 0)
  {
    hide Sendable, Misfits, Space;
    match a
    case Send(c, m, patience) =>
      EndAttends(s, c, 0);
      var s1 := s.(messages := s.messages + [m]);
      assert AttendedBut(s1, 1);
      WakeAttends(s1, 1);
      assert c.Task? ==> c.id !in WakeReceiver(s1).woken;
      EndAttends(WakeReceiver(s1), c, 0);
    case Receive(c, size, patience) => ReceiveAttended(s, c, size, patience);
    case Compensate(t) =>
      EndAttends(s, Task(t), 0);
      WakeAttends(EndWait(s, Task(t)), if t in s.woken then 1 else 0);
    case Rearrange(senders, receivers) => assert receivers != [] ==> receivers[0] in s.receivers;
  }

  lemma ReceiveAttended(s: State, c: Caller, size: nat, patience: Patience)
    requires AttendedBut(s, 0) && (c.Task? ==> c.id !in s.receivers)
    ensures AttendedBut(AfterReceive(s, c, size, patience).0, 0)
  {
    hide Misfits, Space;
    if s.messages != [] {
      if |s.messages[0]| > size { PassOnAttends(s, c, 0); } else { PassOnAttends(Taken(s), c, -1); }
    } else if c.Task? && patience == More {
      var ids := s.receivers + [c.id];
      forall i, j | 0 <= i < j < |ids| ensures ids[i] != ids[j] { assert ids[i] == s.receivers[i]; }
    }
  }

  /** Passing on makes up for the wake the caller used, if a message was left; otherwise none is needed. */
  lemma PassOnAttends(s: State, c: Caller, d: int)
    requires AttendedBut(s, d) && d <= 0 && (s.messages == [] || d == 0 || d == -1)
    ensures AttendedBut(PassOn(s, c), 0)
  {
    if s.messages != [] {
      WakeAttends(s, d);
      EndAttends(WakeReceiver(s), c, d - 1);
      Looser(EndWait(WakeReceiver(s), c), if c.Task? && c.id in WakeReceiver(s).woken then d else d - 1, 0);
    }
  }

  /** The senders' side. */
  lemma SendersAttended(s: State, a: Step)
    requires (forall x :: x in s.senders ==> x.needed > Room(s)) && Enabled(s, a)
    ensures forall x :: x in After(s, a).senders ==> x.needed > Room(After(s, a))
  {
    hide Misfits;
    match a
    case Send(c, m, patience) => SpaceSnoc(s.messages, m);
    case Receive(c, size, patience) =>
      if s.messages != [] {
        var s1 := s.(messages := s.messages[1..]);
        MisfitsStay(s.senders, if Room(s1) >= 0 then Room(s1) else 0);
      }
    case _ =>
  }

  lemma StepAttended(s: State, a: Step)
    requires Attended(s) && Enabled(s, a)
    ensures Attended(After(s, a))
  {
    assert AttendedBut(s, 0);
    hide After, Enabled, Room;
    ReceiversAttended(s, a);
    SendersAttended(s, a);
  }

  predicate IsRun(s: State, steps: seq<Step>)
    decreases |steps|
  {
    steps == [] || (Enabled(s, steps[0]) && IsRun(After(s, steps[0]), steps[1..]))
  }

  function AfterAll(s: State, steps: seq<Step>): State
    decreases |steps|
  {
    if steps == [] then s else AfterAll(After(s, steps[0]), steps[1..])
  }

  /** No lost wakeup on either side, over any run of sends and receives from tasks and interrupts, timeouts,
      forced wakes, pauses and deletes. */
  lemma {:induction false} EveryRunIsAttended(s: State, steps: seq<Step>)
    requires Attended(s) && IsRun(s, steps)
    ensures Attended(AfterAll(s, steps))
    decreases |steps|
  {
    hide Attended, After, Enabled;
    if steps != [] {
      StepAttended(s, steps[0]);
      EveryRunIsAttended(After(s, steps[0]), steps[1..]);
    }
  }

  /** A message that could ever fit is stored when it fits now; otherwise a task that may wait does, and any other
      caller is told. A stored message sends the first sleeping receiver on its way, and a refused one moves nothing. */
  lemma SendOutcome(s: State, c: Caller, m: Message, patience: Patience)
    requires Enabled(s, Send(c, m, patience))
    ensures var (s', status) := AfterSend(s, c, m, patience);
            var fits := Space(s.messages) + HEADER_BYTES + |m| <= s.capacity; var waits := c.Task? && patience == More;
            && (status == InvalidArg <==> |m| == 0 || |m| > LENGTH_MAX || |m| + HEADER_BYTES > s.capacity)
            && (status == Ok <==> 0 < |m| <= LENGTH_MAX && fits)
            && (status == Blocked <==> status != InvalidArg && !fits && waits)
            && (status == TimedOut <==> status != InvalidArg && !fits && c.Task? && patience == Spent)
            && (status == Full <==> status != InvalidArg && !fits && !waits && !(c.Task? && patience == Spent))
            && s'.messages == (if status == Ok then s.messages + [m] else s.messages)
            && (status == Blocked ==> s'.senders == s.senders + [Sender(c.id, |m| + HEADER_BYTES)])
            && (status != Blocked ==> s'.senders == s.senders)
            && (status == Ok && s.receivers != [] ==> s.receivers[0] in s'.woken && s'.receivers == s.receivers[1..])
            && (status != Ok ==> s'.receivers == s.receivers)
  {
    hide Space;
  }

  /** The oldest message is handed over exactly when the caller has room for all of it; whether or not, the messages
      left are announced to the next sleeping receiver, and every sender that fits now is let go. */
  lemma ReceiveOutcome(s: State, c: Caller, size: nat, patience: Patience)
    requires Room(s) >= 0 && Distinct(s.receivers) && Enabled(s, Receive(c, size, patience))
    ensures var (s', status) := AfterReceive(s, c, size, patience); var none := s.messages == [];
            && (status == Ok <==> !none && |s.messages[0]| <= size) && (status == InvalidArg <==> !none && |s.messages[0]| > size)
            && (status == Blocked <==> none && c.Task? && patience == More) && (status == TimedOut <==> none && c.Task? && patience == Spent)
            && (status == Empty <==> none && status != Blocked && status != TimedOut)
            && s'.messages == (if status == Ok then s.messages[1..] else s.messages)
            && (forall x :: x in s'.senders <==> x in s.senders && (status == Ok ==> x.needed > Room(s')))
            && (!none && s'.messages != [] && s.receivers != [] ==> s.receivers[0] in s'.woken && s'.receivers == s.receivers[1..])
            && (status == Blocked ==> s'.receivers == s.receivers + [c.id])
            && (c.Task? ==> c.id !in s'.woken)
  {
    if s.messages != [] {
      TakenIs(s);
      hide Taken, Space, EndWait, WakeReceiver;
      PassesOn(s, c);
      PassesOn(Taken(s), c);
    }
  }

  /** Every sender that fits goes with the oldest message. */
  lemma TakenIs(s: State)
    requires Room(s) >= 0 && s.messages != []
    ensures var s1 := Taken(s);
            && s1.messages == s.messages[1..] && s1.receivers == s.receivers && s1.woken == s.woken && s1.capacity == s.capacity
            && forall x :: x in s1.senders <==> x in s.senders && x.needed > Room(s1)
  {
    assert Space(s.messages) >= Space(s.messages[1..]);
    FitsSplit(s.senders, Room(Taken(s)));
    hide Misfits, Fits, Space;
  }

  lemma PassesOn(s: State, c: Caller)
    requires Distinct(s.receivers) && (c.Task? ==> c.id !in s.receivers)
    ensures var s' := PassOn(s, c);
            && s'.messages == s.messages && s'.senders == s.senders && s'.capacity == s.capacity && (c.Task? ==> c.id !in s'.woken)
            && (s.messages != [] && s.receivers != [] ==> s.receivers[0] in s'.woken && s'.receivers == s.receivers[1..])
  {
    if s.receivers != [] { assert s.receivers[0] in s.receivers; }
  }

  /** The message a step accepts, if any, and the one it hands out. */
  function Accepted(s: State, a: Step): seq<Message> {
    if a.Send? && AfterSend(s, a.c, a.m, a.patience).1 == Ok then [a.m] else []
  }

  function HandedOut(s: State, a: Step): seq<Message> {
    if a.Receive? && s.messages != [] && |s.messages[0]| <= a.size then [s.messages[0]] else []
  }

  lemma StepMoves(s: State, a: Step)
    ensures s.messages + Accepted(s, a) == HandedOut(s, a) + After(s, a).messages
  {
    hide Misfits, Space, Sendable;
    if a.Receive? && s.messages != [] { assert s.messages == [s.messages[0]] + s.messages[1..]; }
  }

  function AllAccepted(s: State, steps: seq<Step>): seq<Message>
    decreases |steps|
  {
    if steps == [] then [] else Accepted(s, steps[0]) + AllAccepted(After(s, steps[0]), steps[1..])
  }

  function AllHandedOut(s: State, steps: seq<Step>): seq<Message>
    decreases |steps|
  {
    if steps == [] then [] else HandedOut(s, steps[0]) + AllHandedOut(After(s, steps[0]), steps[1..])
  }

  /** Messages come out whole, once each and in order: over any run, what was handed out, then what is
      stored, is what was stored and accepted. */
  lemma {:induction false} WholeAndInOrder(s: State, steps: seq<Step>)
    ensures s.messages + AllAccepted(s, steps) == AllHandedOut(s, steps) + AfterAll(s, steps).messages
    decreases |steps|
  {
    hide After, Accepted, HandedOut;
    if steps != [] {
      var s1 := After(s, steps[0]);
      StepMoves(s, steps[0]);
      WholeAndInOrder(s1, steps[1..]);
      var a, b := Accepted(s, steps[0]), AllAccepted(s1, steps[1..]);
      var c, d := HandedOut(s, steps[0]), AllHandedOut(s1, steps[1..]);
      assert s.messages + (a + b) == (s.messages + a) + b;
      assert (c + s1.messages) + b == c + (s1.messages + b);
      assert c + (d + AfterAll(s, steps).messages) == (c + d) + AfterAll(s, steps).messages;
    }
  }

  /** One walk over the blocked senders. */
  method Walk(senders: seq<Sender>, free: nat) returns (kept: seq<Sender>, leaving: seq<Sender>)
    ensures kept == Misfits(senders, free) && leaving == Fits(senders, free)
  {
    var i: nat := 0;
    kept, leaving := [], [];
    while i < |senders|
      invariant i <= |senders|
      invariant Misfits(senders, free) == kept + Misfits(senders[i..], free)
      invariant Fits(senders, free) == leaving + Fits(senders[i..], free)
    {
      WalkStep(senders, i, free);
      hide Misfits, Fits;
      if senders[i].needed <= free { leaving := leaving + [senders[i]]; } else { kept := kept + [senders[i]]; }
      i := i + 1;
    }
  }

  class MessageBuffer {
    const capacity: nat
    const buffer: array<byte>
    var head: nat
    var tail: nat
    var used: nat
    var count: nat
    /** The messages the ring holds, oldest first. */
    ghost var messages: seq<Message>
    /** Blocked senders and receivers, in waiter-list order. */
    var senders: seq<Sender>
    var receivers: seq<nat>
    /** Tasks whose control block holds a wake from `receivers`. */
    ghost var woken: set<nat>

    /** Cursors, counts and bytes spell out the messages. */
    ghost predicate RingOk()
      reads this, buffer
    {
      && buffer.Length == capacity && 0 < capacity
      && head < capacity && used <= capacity && tail == Wrap(head + used, capacity)
      && count == |messages| && used == Space(messages)
      && Bytes(buffer[..], head, used) == Encode(messages)
      && (forall m :: m in messages ==> 0 < |m| <= LENGTH_MAX)
    }

    ghost predicate Valid()
      reads this, buffer
    {
      RingOk() && Attended(View())
    }

    ghost function View(): State
      reads this
    {
      State(messages, capacity, senders, receivers, woken)
    }

    constructor (cap: nat)
      requires 0 < cap
      ensures Valid() && fresh(buffer) && View() == State([], cap, [], [], {})
    {
      capacity, head, tail, used, count, messages, senders, receivers, woken := cap, 0, 0, 0, 0, [], [], [], {};
      buffer := new byte[cap](_ => 0);
      new;
      assert Bytes(buffer[..], 0, 0) == [];
    }

    /** os_msg_ring_write: copy at tail in at most two pieces, and advance tail. */
    method RingWrite(source: seq<byte>)
      requires buffer.Length == capacity && tail < capacity && 0 < |source| <= capacity
      modifies buffer, this`tail
      ensures tail == Wrap(old(tail) + |source|, capacity)
      ensures Bytes(buffer[..], old(tail), |source|) == source
      ensures OnlyWrote(old(buffer[..]), buffer[..], old(tail), |source|)
    {
      CopyRound(buffer, tail, source);
      WrapIsModulo(tail + |source|, capacity);
      tail := (tail + |source|) % capacity;
    }

    /** os_msg_length_write: the header, least significant byte first, through the same ring write. */
    method LengthWrite(length: nat)
      requires buffer.Length == capacity && tail < capacity && HEADER_BYTES <= capacity && length <= LENGTH_MAX
      modifies buffer, this`tail
      ensures tail == Wrap(old(tail) + HEADER_BYTES, capacity)
      ensures Bytes(buffer[..], old(tail), HEADER_BYTES) == HeaderOf(length)
      ensures OnlyWrote(old(buffer[..]), buffer[..], old(tail), HEADER_BYTES)
    {
      var header: seq<byte> := [];
      var rest := length;
      while |header| < HEADER_BYTES
        invariant |header| <= HEADER_BYTES && header == HeaderOf(length)[..|header|]
        invariant rest == if |header| == 0 then length else if |header| == 1 then length / 256 else length / 256 / 256
        decreases HEADER_BYTES - |header|
      {
        header := header + [rest % 256];
        rest := rest / 256;
      }
      RingWrite(header);
    }

    /** os_msg_ring_read: copy from head in at most two pieces, and advance head. */
    method RingRead(length: nat) returns (destination: seq<byte>)
      requires buffer.Length == capacity && head < capacity && length <= capacity
      modifies this`head
      ensures destination == Bytes(buffer[..], old(head), length)
      ensures head == Wrap(old(head) + length, capacity)
    {
      var h := head;
      var first := capacity - h;
      if first > length { first := length; }
      destination := buffer[h..h + first];
      if length > first {
        destination := destination + buffer[..length - first];
      }
      WrapIsModulo(h + length, capacity);
      head := (h + length) % capacity;
      forall j | 0 <= j < length ensures destination[j] == ByteAt(buffer[..], h, j) {}
    }

    /** os_msg_length_peek: read the header without moving head. */
    method LengthPeek() returns (length: nat)
      requires RingOk() && count > 0
      ensures length == |messages[0]|
    {
      var index := head;
      length := 0;
      var factor := 1;
      var k := 0;
      ghost var stream := Bytes(buffer[..], head, used);
      assert messages == [messages[0]] + messages[1..];
      assert stream[0] == HeaderOf(|messages[0]|)[0] && stream[1] == HeaderOf(|messages[0]|)[1];
      while k < HEADER_BYTES
        invariant 0 <= k <= HEADER_BYTES && index == Wrap(head + k, capacity) && index < capacity
        invariant factor == if k == 0 then 1 else if k == 1 then 256 else 65536
        invariant length == if k == 0 then 0 else if k == 1 then stream[0] else LengthIn(stream[0], stream[1])
      {
        length := length + (buffer[index] as int) * factor;
        factor := factor * 256;
        WrapIsModulo(index + 1, capacity);
        index := (index + 1) % capacity;
        k := k + 1;
      }
      HeaderRoundTrip(|messages[0]|);
    }

    /** Header, then payload, behind everything stored. */
    method Store(m: Message)
      requires RingOk() && 0 < |m| <= LENGTH_MAX && capacity - used >= |m| + HEADER_BYTES
      modifies this`tail, this`used, this`count, this`messages, buffer
      ensures RingOk() && messages == old(messages) + [m] && used == old(used) + |m| + HEADER_BYTES
    {
      hide Bytes, Encode, OnlyWrote, HeaderOf, Space;
      ghost var h, u, b0 := head, used, buffer[..];
      LengthWrite(|m|);
      ghost var b1 := buffer[..];
      RingWrite(m);
      SendBytes(b0, b1, buffer[..], h, u, HeaderOf(|m|), m);
      EncodeSnoc(messages, m);
      SpaceSnoc(messages, m);
      used := used + HEADER_BYTES + |m|;
      count := count + 1;
      messages := messages + [m];
    }

    /** os_task_waiters_wake_one on the receivers' list. */
    method WakeFirst()
      requires RingOk()
      modifies this`receivers, this`woken
      ensures RingOk() && View() == WakeReceiver(old(View()))
    {
      if receivers != [] {
        woken := woken + {receivers[0]};
        receivers := receivers[1..];
      }
    }

    /** os_task_wait_end_locked, for the wakes of this buffer. */
    method Finish(c: Caller)
      requires RingOk()
      modifies this`woken
      ensures RingOk() && View() == EndWait(old(View()), c)
    {
      if c.Task? { woken := woken - {c.id}; }
    }

    /** One pass of os_msg_send. */
    method Send(c: Caller, m: Message, patience: Patience) returns (status: Status)
      requires Valid() && Enabled(View(), Step.Send(c, m, patience))
      modifies this, buffer
      ensures Valid() && (View(), status) == AfterSend(old(View()), c, m, patience)
    {
      StepAttended(View(), Step.Send(c, m, patience));
      RoomIs();
      hide RingOk, Space, Attended, Enabled, WakeReceiver, EndWait;
      var needed := |m| + HEADER_BYTES;
      if |m| == 0 || |m| > LENGTH_MAX || needed > capacity {
        Finish(c);
        status := InvalidArg;
      } else if capacity - used >= needed {
        Store(m);
        WakeFirst();
        Finish(c);
        status := Ok;
      } else if patience == Nothing || c.Interrupt? {
        Finish(c);
        status := Full;
      } else if patience == Spent {
        Finish(c);
        status := TimedOut;
      } else {
        JoinSenders(Sender(c.id, needed));
        status := Blocked;
      }
    }

    method JoinSenders(x: Sender)
      requires RingOk()
      modifies this`senders
      ensures RingOk() && senders == old(senders) + [x]
    {
      senders := senders + [x];
    }

    method JoinReceivers(id: nat)
      requires RingOk()
      modifies this`receivers
      ensures RingOk() && receivers == old(receivers) + [id]
    {
      receivers := receivers + [id];
    }

    lemma RoomIs()
      requires RingOk()
      ensures Room(View()) == capacity - used && (count > 0 <==> messages != [])
    {
    }

    /** os_task_waiters_wake_match with os_msg_sender_match, against the room there is now. */
    method WakeSenders() returns (leaving: seq<Sender>)
      requires RingOk()
      modifies this`senders
      ensures RingOk()
      ensures senders == Misfits(old(senders), capacity - used) && leaving == Fits(old(senders), capacity - used)
    {
      hide Misfits, Fits;
      senders, leaving := Walk(senders, capacity - used);
    }

    /** The front message leaves the ring, header first. */
    method TakeOldest(length: nat) returns (data: Message)
      requires RingOk() && messages != [] && length == |messages[0]|
      modifies this`head, this`used, this`count, this`messages
      ensures RingOk() && data == old(messages)[0] && messages == old(messages)[1..] && used <= old(used)
    {
      OldestReads();
      WrapIsModulo(head + HEADER_BYTES, capacity);
      hide Encode, Space, Bytes;
      head := (head + HEADER_BYTES) % capacity;
      data := RingRead(length);
      used := used - (length + HEADER_BYTES);
      count := count - 1;
      messages := messages[1..];
    }

    /** Where the oldest message's bytes lie, and what is left without them. */
    lemma OldestReads()
      requires RingOk() && messages != []
      ensures var n := |messages[0]|; var p := Wrap(head + HEADER_BYTES, capacity);
              && 0 < n && used == n + HEADER_BYTES + Space(messages[1..]) && p < capacity
              && Bytes(buffer[..], p, n) == messages[0]
              && Wrap(p + n, capacity) < capacity && Wrap(p + n, capacity) == Wrap(head + HEADER_BYTES + n, capacity)
              && Bytes(buffer[..], Wrap(p + n, capacity), used - n - HEADER_BYTES) == Encode(messages[1..])
              && tail == Wrap(Wrap(p + n, capacity) + (used - n - HEADER_BYTES), capacity)
      ensures forall m :: m in messages[1..] ==> 0 < |m| <= LENGTH_MAX
    {
      EncodeLength(messages);
      assert messages[0] in messages;
      assert forall m :: m in messages[1..] ==> m in messages;
      ReceiveBytes(buffer[..], head, used, messages);
    }

    /** One pass of os_msg_receive: the oldest message whole, or left where it is when the destination is too
        small - length says how much room it needs. */
    method Receive(c: Caller, size: nat, patience: Patience) returns (status: Status, data: Message, length: nat)
      requires Valid() && Enabled(View(), Step.Receive(c, size, patience))
      modifies this
      ensures Valid() && (View(), status) == AfterReceive(old(View()), c, size, patience)
      ensures old(messages) != [] ==> length == |old(messages)[0]|
      ensures status == Ok ==> data == old(messages)[0]
    {
      StepAttended(View(), Step.Receive(c, size, patience));
      RoomIs();
      hide RingOk, Attended, Enabled, WakeReceiver, EndWait, Misfits, Fits, Space;
      data, length := [], 0;
      if count > 0 {
        length := LengthPeek();
        if length > size {
          status := InvalidArg;
        } else {
          data := TakeAndWake(length);
          status := Ok;
        }
        RoomIs();
        if count > 0 { WakeFirst(); }
        Finish(c);
      } else if patience == Nothing || c.Interrupt? {
        Finish(c);
        status := Empty;
      } else if patience == Spent {
        Finish(c);
        status := TimedOut;
      } else {
        Finish(c);
        JoinReceivers(c.id);
        status := Blocked;
      }
    }

    /** The oldest message out, and every sender that fits now. */
    method TakeAndWake(length: nat) returns (data: Message)
      requires RingOk() && messages != [] && length == |messages[0]|
      modifies this`head, this`used, this`count, this`messages, this`senders
      ensures RingOk() && data == old(messages)[0] && View() == Taken(old(View()))
    {
      data := TakeOldest(length);
      RoomIs();
      RingFits();
      hide RingOk, Misfits, Fits, Space;
      var leaving := WakeSenders();
    }

    lemma RingFits()
      requires RingOk()
      ensures used <= capacity
    {
    }
  }

  /** Header and payload, written one after the other, extend the stream by exactly themselves. */
  lemma SendBytes(b0: seq<byte>, b1: seq<byte>, b2: seq<byte>, h: nat, u: nat, header: seq<byte>, m: seq<byte>)
    requires |b0| == |b1| == |b2| && h < |b0| && u + |header| + |m| <= |b0| && 0 < |header| && 0 < |m|
    requires var t := Wrap(h + u, |b0|); OnlyWrote(b0, b1, t, |header|) && Bytes(b1, t, |header|) == header
    requires var t1 := Wrap(h + u + |header|, |b0|); OnlyWrote(b1, b2, t1, |m|) && Bytes(b2, t1, |m|) == m
    ensures Bytes(b2, h, u + (|header| + |m|)) == Bytes(b0, h, u) + (header + m)
  {
    hide Bytes, OnlyWrote;
    var n := |header|;
    EarlierUntouched(b0, b1, h, u, n);
    EarlierUntouched(b1, b2, h, u + n, |m|);
    BytesJoin(b1, h, u, n);
    BytesJoin(b2, h, u + n, |m|);
  }

  /** The oldest message's header and payload are the first bytes of the stream, and the rest is the rest. */
  lemma ReceiveBytes(b: seq<byte>, h: nat, u: nat, ms: seq<Message>)
    requires h < |b| && u <= |b| && ms != [] && Bytes(b, h, u) == Encode(ms) && |Encode(ms)| == Space(ms)
    requires |ms[0]| > 0
    ensures u == |ms[0]| + HEADER_BYTES + Space(ms[1..])
    ensures Bytes(b, Wrap(h + HEADER_BYTES, |b|), |ms[0]|) == ms[0]
    ensures Wrap(Wrap(h + HEADER_BYTES, |b|) + |ms[0]|, |b|) == Wrap(h + HEADER_BYTES + |ms[0]|, |b|)
    ensures Bytes(b, Wrap(h + HEADER_BYTES + |ms[0]|, |b|), u - |ms[0]| - HEADER_BYTES) == Encode(ms[1..])
  {
    var n := |ms[0]|;
    EncodeLength(ms[1..]);
    var rest := Space(ms[1..]);
    var header, tail := HeaderOf(n), Encode(ms[1..]);
    assert Bytes(b, h, u) == header + ms[0] + tail;
    hide Encode, Space, HeaderOf;
    StreamSplit(b, h, HEADER_BYTES, n, rest, header, ms[0], tail);
  }

  lemma StreamSplit(b: seq<byte>, h: nat, x: nat, y: nat, z: nat, sx: seq<byte>, sy: seq<byte>, sz: seq<byte>)
    requires h < |b| && x + y + z <= |b| && |sx| == x && |sy| == y && |sz| == z && 0 < x && 0 < y
    requires Bytes(b, h, x + y + z) == sx + sy + sz
    ensures Bytes(b, Wrap(h + x, |b|), y) == sy
    ensures Bytes(b, Wrap(h + x + y, |b|), z) == sz
  {
    var s := sx + sy + sz;
    assert forall i :: 0 <= i < x + y + z ==> s[i] == ByteAt(b, h, i);
    forall i | 0 <= i < y ensures ByteAt(b, Wrap(h + x, |b|), i) == sy[i] { assert s[x + i] == sy[i]; }
    forall i | 0 <= i < z ensures ByteAt(b, Wrap(h + x + y, |b|), i) == sz[i] { assert s[x + y + i] == sz[i]; }
  }
}
