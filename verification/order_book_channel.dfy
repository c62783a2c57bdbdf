/**
  The subscriber channel of one order-book session: its abstract log, the
  operations of the owner (producer) and of the RPC handler (writer), and what
  the handler writes over every interleaving of the two.

  Source: src/g7/order_book_publication.cpp and the write loop of
  SubscribeOrderBook in src/g7/grpc_service.cpp.
 */
module OrderBookChannel {
  import opened Prelude

  // A book, an update and a request are opaque: they are named by numbers.
  datatype Payload =
    | Accepted(request: nat)
    | Snapshot(book: nat, depth: Option<int>)
    | Update(update: nat)

  datatype Record = Record(sequence: nat, generation: Option<nat>, publishedAt: nat, payload: Payload)

  datatype GapReason = SlowConsumer | ConnectionGenerationChanged | ResumeNotAvailable | UpstreamSequenceGap
  datatype RecoveryAction = Resubscribe | RequestNewSnapshot

  datatype Terminal = Terminal(
    sequence: nat, generation: Option<nat>, publishedAt: nat, reason: GapReason, action: RecoveryAction)

  datatype SubscriberState = Active | TerminalGap | Closed
  datatype AdmitResult = Admitted | Terminalized | Inactive | AllocationFailure
  datatype AckResult = Acknowledged | AckClosed | Mismatch

  // What a peek hands to the writer.
  datatype Item = Ordinary(record: Record) | Gap(terminal: Terminal)

  /**
    A channel seen as an append-only log. The ring holds `log[released..]`;
    `acked` counts the records the writer acknowledged, and `issued` remembers
    the terminal descriptor after its slot was emptied.
   */
  datatype Channel = Channel(
    capacity: nat,
    log: seq<Record>,
    released: nat,
    acked: nat,
    terminal: Option<Terminal>,
    issued: Option<Terminal>,
    state: SubscriberState,
    next: nat)

  function NewChannel(capacity: nat): Channel {
    Channel(capacity, [], 0, 0, None, None, Active, 1)
  }

  ghost predicate Shaped(c: Channel) {
    && 1 <= c.capacity
    && c.acked <= c.released <= |c.log|
    && |c.log| - c.released <= c.capacity
    && 1 <= c.next <= MAX_UINT64
  }

  function Queued(c: Channel): seq<Record>
    requires c.released <= |c.log|
  {
    c.log[c.released..]
  }

  function Bump(next: nat): nat {
    if next == MAX_UINT64 then next else next + 1
  }

  // ---------------------------------------------------------------- operations

  function Stage(c: Channel, accepted: Record, snapshot: Record): (Channel, bool)
    requires c.released <= |c.log|
  {
    if accepted.sequence != 1 || snapshot.sequence != 2 || !accepted.payload.Accepted? || !snapshot.payload.Snapshot?
       || c.state != Active || Queued(c) != [] || c.capacity < 2
    then (c, false)
    else (c.(log := c.log + [accepted, snapshot], next := 3), true)
  }

  function WithTerminal(c: Channel, terminal: Terminal): Channel {
    c.(terminal := Some(terminal), issued := Some(terminal), state := TerminalGap, next := Bump(c.next))
  }

  function Admit(c: Channel, update: nat, generation: Option<nat>, time: nat): (Channel, AdmitResult)
    requires c.released <= |c.log|
  {
    if c.state != Active then (c, Inactive)
    else if |Queued(c)| == c.capacity then
      (WithTerminal(c, Terminal(c.next, None, time, SlowConsumer, Resubscribe)), Terminalized)
    else if c.next == MAX_UINT64 then (c, AllocationFailure)
    else (c.(log := c.log + [Record(c.next, generation, time, Update(update))], next := c.next + 1), Admitted)
  }

  function Terminalize(c: Channel, reason: GapReason, action: RecoveryAction, generation: Option<nat>, time: nat)
    : (Channel, bool)
  {
    if c.state != Active || c.terminal.Some? then (c, false)
    else (WithTerminal(c, Terminal(c.next, generation, time, reason, action)), true)
  }

  function Peek(c: Channel): Option<Item>
    requires c.released <= |c.log|
  {
    if c.state == Closed then None
    else if Queued(c) != [] then Some(Ordinary(Queued(c)[0]))
    else if c.terminal.Some? then Some(Gap(c.terminal.value))
    else None
  }

  function Acknowledge(c: Channel, item: Item): (Channel, AckResult)
    requires c.released <= |c.log|
  {
    if c.state == Closed then (c, AckClosed)
    else match item
      case Ordinary(record) =>
        if Queued(c) == [] || Queued(c)[0] != record then (c, Mismatch)
        else (c.(released := c.released + 1, acked := c.acked + 1), Acknowledged)
      case Gap(terminal) =>
        if Queued(c) == [] && c.terminal == Some(terminal)
        then (c.(terminal := None, state := Closed), AckClosed)
        else (c, Mismatch)
  }

  function CloseFromOwner(c: Channel): Channel {
    c.(state := Closed)
  }

  function CloseFromWriter(c: Channel): Channel {
    c.(state := Closed, released := |c.log|, terminal := None)
  }

  // ---------------------------------------------------------------- the log invariant

  /**
    The log carries the sequences 1, 2, 3, ... with no reuse and no wrap; the
    terminal takes the next one, and only the first terminal is ever issued.
   */
  ghost predicate ChannelOk(c: Channel) {
    && Shaped(c)
    && (forall i | 0 <= i < |c.log| :: c.log[i].sequence == i + 1)
    && |c.log| < MAX_UINT64
    && (c.issued.None? ==> c.next == |c.log| + 1 && c.terminal.None? && c.state != TerminalGap)
    && (c.issued.Some? ==>
          && c.issued.value.sequence == |c.log| + 1
          && c.next == Min(|c.log| + 2, MAX_UINT64)
          && c.state != Active
          && (c.terminal.Some? ==> c.terminal == c.issued))
    && (c.state == TerminalGap ==> c.terminal.Some?)
    && (c.released != c.acked ==> c.state == Closed)
  }

  /** Mandatory records first, updates after them. */
  ghost predicate Staged(c: Channel) {
    && 2 <= |c.log|
    && c.log[0].payload.Accepted?
    && c.log[1].payload.Snapshot?
    && forall i | 2 <= i < |c.log| :: c.log[i].payload.Update?
  }

  lemma AdmitKeeps(c: Channel, update: nat, generation: Option<nat>, time: nat)
    requires ChannelOk(c)
    ensures var (d, r) := Admit(c, update, generation, time);
            && ChannelOk(d)
            && (Staged(c) ==> Staged(d))
            && (r == AllocationFailure <==> c.state == Active && |c.log| + 1 == MAX_UINT64 && |Queued(c)| < c.capacity)
            && (r == Admitted <==> d.state == Active && |d.log| == |c.log| + 1)
  {
    if c.state == Active && |Queued(c)| < c.capacity && c.next != MAX_UINT64 {
      AppendKeeps(c, Record(c.next, generation, time, Update(update)));
    } else if c.state == Active && |Queued(c)| == c.capacity {
      EndKeeps(c, Terminal(c.next, None, time, SlowConsumer, Resubscribe));
    }
  }

  lemma AppendKeeps(c: Channel, record: Record)
    requires ChannelOk(c) && c.state == Active && |Queued(c)| < c.capacity
    requires record.sequence == c.next < MAX_UINT64 && record.payload.Update?
    ensures var d := c.(log := c.log + [record], next := c.next + 1);
            ChannelOk(d) && (Staged(c) ==> Staged(d))
  {
  }

  lemma EndKeeps(c: Channel, terminal: Terminal)
    requires ChannelOk(c) && c.state == Active && terminal.sequence == c.next
    ensures ChannelOk(WithTerminal(c, terminal))
  {
  }

  lemma TerminalizeKeeps(c: Channel, reason: GapReason, action: RecoveryAction, generation: Option<nat>, time: nat)
    requires ChannelOk(c)
    ensures var (d, won) := Terminalize(c, reason, action, generation, time);
            && ChannelOk(d) && d.log == c.log && d.state != Active
            && (won <==> c.issued.None? && c.state == Active)
            && (!won ==> d.issued == c.issued)
  {
  }

  lemma AcknowledgeKeeps(c: Channel, item: Item)
    requires ChannelOk(c)
    ensures ChannelOk(Acknowledge(c, item).0) && Acknowledge(c, item).0.log == c.log
  {
  }

  lemma CloseKeeps(c: Channel)
    requires ChannelOk(c)
    ensures ChannelOk(CloseFromOwner(c)) && ChannelOk(CloseFromWriter(c))
    ensures Queued(CloseFromOwner(c)) == Queued(c) && Queued(CloseFromWriter(c)) == []
  {
  }

  /**
    Staging commits both records or neither. It is meant for a private, fresh
    channel: on a channel that was drained it would issue sequences 1 and 2 a
    second time, so it keeps the log contiguous exactly when nothing was ever
    queued.
   */
  lemma StageContiguousIffFresh(c: Channel, accepted: Record, snapshot: Record)
    requires ChannelOk(c)
    ensures var (d, ok) := Stage(c, accepted, snapshot);
            && (!ok ==> d == c)
            && (ok ==> d.log == c.log + [accepted, snapshot])
            && (ok ==> (ChannelOk(d) <==> c.next == 1))
  {
    var (d, ok) := Stage(c, accepted, snapshot);
    if ok && c.next != 1 {
      assert d.log[|c.log|] == accepted;
    }
  }

  /** A new channel that is staged, drained and staged again: it issues sequences 1 and 2 twice. */
  lemma RestagingRepeatsSequences(accepted: Record, snapshot: Record)
    requires accepted.sequence == 1 && accepted.payload.Accepted?
    requires snapshot.sequence == 2 && snapshot.payload.Snapshot?
    ensures var (staged, once) := Stage(NewChannel(2), accepted, snapshot);
            var (half, first) := Acknowledge(staged, Ordinary(accepted));
            var (drained, second) := Acknowledge(half, Ordinary(snapshot));
            var (again, twice) := Stage(drained, accepted, snapshot);
            && once && first == second == Acknowledged && twice
            && ChannelOk(drained) && !ChannelOk(again)
            && again.log == [accepted, snapshot, accepted, snapshot]
  {
    var staged := Stage(NewChannel(2), accepted, snapshot).0;
    assert Queued(staged) == [accepted, snapshot];
    var half := Acknowledge(staged, Ordinary(accepted)).0;
    assert Queued(half) == [snapshot];
    var drained := Acknowledge(half, Ordinary(snapshot)).0;
    assert Queued(drained) == [];
    var again := Stage(drained, accepted, snapshot).0;
    assert again.log[2].sequence == 1;
  }

  // ---------------------------------------------------------------- the ring

  lemma Wrap(position: nat, capacity: nat)
    requires position < 2 * capacity
    ensures position % capacity == if position < capacity then position else position - capacity
  {
    if capacity <= position {
      assert position == capacity + (position - capacity);
    }
  }

  /**
    The channel object. Its fixed array is a circular buffer; the ghost fields
    record the log it refines.
   */
  class SubscriberChannel {
    const capacity: nat
    const ring: array<Option<Record>>
    var head: nat
    var size: nat
    var terminal: Option<Terminal>
    var state: SubscriberState
    var next: nat
    ghost var log: seq<Record>
    ghost var released: nat
    ghost var acked: nat
    ghost var issued: Option<Terminal>

    // Distance of a slot from the head, going round the ring.
    ghost function Offset(slot: nat): nat
      reads this
      requires slot < capacity && head < capacity
    {
      if slot >= head then slot - head else slot + capacity - head
    }

    ghost predicate Valid()
      reads this, ring
    {
      && 1 <= capacity == ring.Length
      && head < capacity
      && size <= capacity
      && released + size == |log|
      && acked <= released
      && 1 <= next <= MAX_UINT64
      && forall slot | 0 <= slot < capacity :: ring[slot] == Expected(slot)
    }

    // What a slot holds: a queued record, or nothing once it was released.
    ghost function Expected(slot: nat): Option<Record>
      reads this
      requires slot < capacity && head < capacity && released + size == |log|
    {
      if Offset(slot) < size then Some(log[released + Offset(slot)]) else None
    }

    ghost function Abs(): (c: Channel)
      reads this
    {
      Channel(capacity, log, released, acked, terminal, issued, state, next)
    }

    constructor (capacity: nat)
      requires 1 <= capacity
      ensures Valid() && fresh(ring)
      ensures Abs() == NewChannel(capacity)
    {
      this.capacity := capacity;
      ring := new Option<Record>[capacity](_ => None);
      head, size, terminal, state, next := 0, 0, None, Active, 1;
      log, released, acked, issued := [], 0, 0, None;
    }

    method RingPush(record: Record) returns (ok: bool)
      requires Valid()
      modifies this`size, this`log, ring
      ensures Valid()
      ensures ok == (old(size) < capacity)
      ensures size == old(size) + (if ok then 1 else 0)
      ensures log == if ok then old(log) + [record] else old(log)
    {
      if size == capacity {
        return false;
      }
      Wrap(head + size, capacity);
      var tail := (head + size) % capacity;
      ring[tail] := Some(record);
      size := size + 1;
      log := log + [record];
      ok := true;
    }

    method RingPop()
      requires Valid() && 0 < size
      modifies this`head, this`size, this`released, ring
      ensures Valid()
      ensures size == old(size) - 1 && released == old(released) + 1
    {
      ring[head] := None;
      Wrap(head + 1, capacity);
      head := (head + 1) % capacity;
      size := size - 1;
      released := released + 1;
    }

    method ClearFromWriter()
      requires Valid()
      modifies this`head, this`size, this`released, this`terminal, ring
      ensures Valid()
      ensures size == 0 && released == |log| && terminal == None
    {
      while size != 0
        invariant Valid()
      {
        RingPop();
      }
      terminal := None;
    }

    /** Both mandatory records become visible together, or neither does. */
    method StageInitial(accepted: Record, snapshot: Record) returns (ok: bool)
      requires Valid()
      modifies this, ring
      ensures Valid()
      ensures (Abs(), ok) == Stage(old(Abs()), accepted, snapshot)
    {
      if accepted.sequence != 1 || snapshot.sequence != 2 || !accepted.payload.Accepted? || !snapshot.payload.Snapshot? {
        return false;
      }
      if state != Active || size != 0 || capacity < 2 {
        return false;
      }
      var first := RingPush(accepted);
      var second := RingPush(snapshot);
      assert first && second;  // the source's rollback branch is unreachable
      assert log == old(log) + [accepted, snapshot];
      next := 3;
      ok := true;
    }

    method AdmitUpdate(update: nat, generation: Option<nat>, time: nat) returns (r: AdmitResult)
      requires Valid()
      modifies this, ring
      ensures Valid()
      ensures (Abs(), r) == Admit(old(Abs()), update, generation, time)
    {
      if state != Active {
        return Inactive;
      }
      if size == capacity {
        terminal := Some(Terminal(next, None, time, SlowConsumer, Resubscribe));
        issued := terminal;
        if next != MAX_UINT64 {
          next := next + 1;
        }
        state := TerminalGap;
        return Terminalized;
      }
      if next == MAX_UINT64 {
        return AllocationFailure;
      }
      var pushed := RingPush(Record(next, generation, time, Update(update)));
      assert pushed;
      next := next + 1;
      r := Admitted;
    }

    method TerminalizeWith(reason: GapReason, action: RecoveryAction, generation: Option<nat>, time: nat)
      returns (won: bool)
      requires Valid()
      modifies this
      ensures Valid()
      ensures (Abs(), won) == Terminalize(old(Abs()), reason, action, generation, time)
    {
      if state != Active || terminal.Some? {
        return false;
      }
      terminal := Some(Terminal(next, generation, time, reason, action));
      issued := terminal;
      if next != MAX_UINT64 {
        next := next + 1;
      }
      state := TerminalGap;
      won := true;
    }

    method PeekFront() returns (item: Option<Item>)
      requires Valid()
      ensures item == Peek(Abs())
    {
      if state == Closed {
        return None;
      }
      if size != 0 {
        assert Offset(head) == 0;
        return Some(Ordinary(ring[head].value));
      }
      if terminal.Some? {
        return Some(Gap(terminal.value));
      }
      item := None;
    }

    method AcknowledgeItem(item: Item) returns (r: AckResult)
      requires Valid()
      modifies this, ring
      ensures Valid()
      ensures (Abs(), r) == Acknowledge(old(Abs()), item)
    {
      if state == Closed {
        return AckClosed;
      }
      match item {
        case Ordinary(record) =>
          assert Offset(head) == 0;
          if size == 0 || ring[head] != Some(record) {
            return Mismatch;
          }
          RingPop();
          acked := acked + 1;
          r := Acknowledged;
        case Gap(descriptor) =>
          if size == 0 && terminal == Some(descriptor) {
            terminal := None;
            state := Closed;
            return AckClosed;
          }
          r := Mismatch;
      }
    }

    method OwnerClose()
      requires Valid()
      modifies this`state
      ensures Valid()
      ensures Abs() == CloseFromOwner(old(Abs()))
    {
      state := Closed;
    }

    method WriterClose()
      requires Valid()
      modifies this, ring
      ensures Valid()
      ensures Abs() == CloseFromWriter(old(Abs()))
    {
      state := Closed;
      ghost var before := Abs();
      ClearFromWriter();
      assert Abs() == before.(released := |log|, terminal := None);
    }
  }

  // ---------------------------------------------------------------- the writer

  // `Mismatched` is the INTERNAL status of a broken peek/acknowledge pairing.
  datatype RpcStatus = Ok | Cancelled | Internal | Mismatched

  datatype WriterPc =
    | AtPeek
    | Polling                     // nothing was peeked: look at the state
    | Holding(item: Item)         // peeked, not yet written
    | Acking(item: Item)          // written, not yet acknowledged
    | Leaving(status: RpcStatus)  // the loop was left, the channel not yet closed
    | Left(status: RpcStatus)

  datatype WriteOutcome = MaterializeFailed | WriterThrew | WriteReturned(success: bool, cancelledAfter: bool)

  /** `written` lists the items for which the stream's Write succeeded. */
  datatype Session = Session(channel: Channel, pc: WriterPc, written: seq<Item>)

  datatype SessionOp =
    | OpAdmit(update: nat, generation: Option<nat>, time: nat)
    | OpTerminalize(reason: GapReason, action: RecoveryAction, gapGeneration: Option<nat>, gapTime: nat)
    | OpOwnerClose
    | OpWriter(cancelled: bool, outcome: WriteOutcome)

  /** One atomic step of the RPC handler's loop. */
  function WriterStep(s: Session, cancelled: bool, outcome: WriteOutcome): Session
    requires s.channel.released <= |s.channel.log|
  {
    match s.pc
    case AtPeek =>
      if cancelled then s.(pc := Leaving(Cancelled))
      else
        (match Peek(s.channel)
         case None => s.(pc := Polling)
         case Some(item) => s.(pc := Holding(item)))
    case Polling =>
      s.(pc := if s.channel.state == Closed then Leaving(Ok) else AtPeek)
    case Holding(item) =>
      (match outcome
       case MaterializeFailed => s.(pc := Leaving(Internal))
       case WriterThrew => s.(pc := Leaving(Internal))
       case WriteReturned(success, cancelledAfter) =>
         var written := if success then s.written + [item] else s.written;
         if cancelledAfter then s.(written := written, pc := Leaving(Cancelled))
         else if !success then s.(pc := Leaving(Ok))
         else s.(written := written, pc := Acking(item)))
    case Acking(item) =>
      var (c, r) := Acknowledge(s.channel, item);
      s.(channel := c,
         pc := match r
               case Mismatch => Leaving(Mismatched)
               case AckClosed => Leaving(Ok)
               case Acknowledged => if item.Gap? then Leaving(Ok) else AtPeek)
    case Leaving(status) =>
      s.(channel := CloseFromWriter(s.channel), pc := Left(status))
    case Left(_) => s
  }

  function SessionStep(s: Session, op: SessionOp): Session
    requires s.channel.released <= |s.channel.log|
  {
    match op
    case OpAdmit(update, generation, time) => s.(channel := Admit(s.channel, update, generation, time).0)
    case OpTerminalize(reason, action, generation, time) =>
      s.(channel := Terminalize(s.channel, reason, action, generation, time).0)
    case OpOwnerClose => s.(channel := CloseFromOwner(s.channel))
    case OpWriter(cancelled, outcome) => WriterStep(s, cancelled, outcome)
  }

  /** The whole stream of a session: its log, then the terminal if one was issued. */
  function StreamLength(c: Channel): nat {
    |c.log| + if c.issued.Some? then 1 else 0
  }

  function StreamAt(c: Channel, i: nat): Item
    requires i < StreamLength(c)
  {
    if i < |c.log| then Ordinary(c.log[i]) else Gap(c.issued.value)
  }

  ghost predicate PrefixOfStream(written: seq<Item>, c: Channel) {
    && |written| <= StreamLength(c)
    && forall i | 0 <= i < |written| :: written[i] == StreamAt(c, i)
  }

  /** `item` is the first one of the stream the writer has not acknowledged. */
  ghost predicate Front(c: Channel, item: Item) {
    match item
    case Ordinary(record) => c.acked < |c.log| && c.log[c.acked] == record
    case Gap(terminal) => c.acked == |c.log| && c.issued == Some(terminal)
  }

  ghost predicate SessionOk(s: Session) {
    var c := s.channel;
    && ChannelOk(c)
    && Staged(c)
    && PrefixOfStream(s.written, c)
    && (s.pc.Left? ==> c.state == Closed)
    && (!s.pc.Left? ==> c.released == c.acked)
    && (s.pc.AtPeek? || s.pc.Polling? || s.pc.Holding? ==> |s.written| == c.acked)
    && (s.pc.AtPeek? || s.pc.Polling? ==> (c.terminal.None? && c.issued.Some? ==> c.state == Closed))
    && (s.pc.Holding? || s.pc.Acking? ==>
          Front(c, s.pc.item) && (s.pc.item.Gap? && c.state != Closed ==> c.terminal == c.issued))
    && (s.pc.Acking? ==> |s.written| == c.acked + 1)
    && s.pc != Leaving(Mismatched) && s.pc != Left(Mismatched)
  }

  lemma HeldItemIsNext(s: Session)
    requires SessionOk(s) && s.pc.Holding?
    ensures s.channel.acked < StreamLength(s.channel)
    ensures StreamAt(s.channel, s.channel.acked) == s.pc.item
    ensures PrefixOfStream(s.written + [s.pc.item], s.channel)
  {
  }

  lemma AckingKeeps(s: Session)
    requires SessionOk(s) && s.pc.Acking?
    ensures SessionOk(WriterStep(s, false, WriterThrew))
  {
    var c := s.channel;
    if c.state != Closed {
      match s.pc.item {
        case Ordinary(record) => assert Queued(c)[0] == c.log[c.acked];
        case Gap(terminal) => assert Queued(c) == [];
      }
    }
    AcknowledgeKeeps(c, s.pc.item);
  }

  lemma PeekingKeeps(s: Session, cancelled: bool)
    requires SessionOk(s) && (s.pc.AtPeek? || s.pc.Polling?)
    ensures SessionOk(WriterStep(s, cancelled, WriterThrew))
  {
  }

  lemma WritingKeeps(s: Session, outcome: WriteOutcome)
    requires SessionOk(s) && s.pc.Holding?
    ensures SessionOk(WriterStep(s, false, outcome))
  {
    HeldItemIsNext(s);
  }

  lemma WriterStepKeeps(s: Session, cancelled: bool, outcome: WriteOutcome)
    requires SessionOk(s)
    ensures SessionOk(WriterStep(s, cancelled, outcome))
  {
    if s.pc.AtPeek? || s.pc.Polling? {
      PeekingKeeps(s, cancelled);
    } else if s.pc.Holding? {
      WritingKeeps(s, outcome);
    } else if s.pc.Acking? {
      AckingKeeps(s);
    } else if s.pc.Leaving? {
      CloseKeeps(s.channel);
    }
  }

  /** The owner only ever extends the stream of a session. */
  ghost predicate Extends(c: Channel, d: Channel) {
    && StreamLength(c) <= StreamLength(d)
    && forall i | 0 <= i < StreamLength(c) :: StreamAt(c, i) == StreamAt(d, i)
  }

  lemma OwnerStepExtends(s: Session, op: SessionOp)
    requires SessionOk(s) && !op.OpWriter?
    ensures Extends(s.channel, SessionStep(s, op).channel)
  {
  }

  lemma OwnerStepKeeps(s: Session, op: SessionOp)
    requires SessionOk(s) && !op.OpWriter?
    ensures SessionOk(SessionStep(s, op))
  {
    OwnerStepExtends(s, op);
    match op {
      case OpAdmit(update, generation, time) => AdmitKeeps(s.channel, update, generation, time);
      case OpTerminalize(reason, action, generation, time) =>
        TerminalizeKeeps(s.channel, reason, action, generation, time);
      case OpOwnerClose => CloseKeeps(s.channel);
    }
  }

  ghost predicate Contiguous(written: seq<Item>) {
    forall i | 0 <= i < |written| ::
      (match written[i]
       case Ordinary(record) => record.sequence == i + 1
       case Gap(terminal) => terminal.sequence == i + 1 && i == |written| - 1)
  }

  /** What was written is numbered 1..n, and a gap notice can only come last. */
  lemma WrittenIsContiguous(s: Session)
    requires SessionOk(s)
    ensures Contiguous(s.written)
  {
    forall i | 0 <= i < |s.written|
      ensures (match s.written[i]
               case Ordinary(record) => record.sequence == i + 1
               case Gap(terminal) => terminal.sequence == i + 1 && i == |s.written| - 1)
    {
      assert s.written[i] == StreamAt(s.channel, i);
    }
  }

  lemma StepKeeps(s: Session, op: SessionOp)
    requires SessionOk(s)
    ensures SessionOk(SessionStep(s, op))
    ensures s.channel.log <= SessionStep(s, op).channel.log
    ensures s.written <= SessionStep(s, op).written
  {
    if op.OpWriter? {
      WriterStepKeeps(s, op.cancelled, op.outcome);
    } else {
      OwnerStepKeeps(s, op);
    }
  }

  ghost function RunSession(s: Session, ops: seq<SessionOp>): Session
    requires SessionOk(s)
    decreases |ops|
  {
    if ops == [] then s
    else
      StepKeeps(s, ops[0]);
      RunSession(SessionStep(s, ops[0]), ops[1..])
  }

  /**
    Over every interleaving of owner and writer steps from a staged channel, the
    handler writes a prefix of the channel's stream, numbered from 1, with at
    most one gap notice, which is last; its peek and acknowledge always match.
   */
  lemma {:induction false} EveryRunWritesAPrefix(s: Session, ops: seq<SessionOp>)
    requires SessionOk(s)
    ensures var t := RunSession(s, ops);
            && SessionOk(t) && PrefixOfStream(t.written, t.channel) && Contiguous(t.written)
            && s.channel.log <= t.channel.log
            && s.written <= t.written
            && t.pc != Leaving(Mismatched) && t.pc != Left(Mismatched)
    decreases |ops|
  {
    if ops == [] {
      WrittenIsContiguous(s);
    } else {
      StepKeeps(s, ops[0]);
      EveryRunWritesAPrefix(SessionStep(s, ops[0]), ops[1..]);
    }
  }

  /** A fresh channel that was staged starts a session. */
  lemma StagedSessionOk(capacity: nat, accepted: Record, snapshot: Record)
    requires Stage(NewChannel(capacity), accepted, snapshot).1
    ensures SessionOk(Session(Stage(NewChannel(capacity), accepted, snapshot).0, AtPeek, []))
  {
  }

  /** The terminal is handed out only after every ordinary record was released. */
  lemma TerminalComesLast(c: Channel)
    requires ChannelOk(c) && Peek(c).Some? && Peek(c).value.Gap?
    ensures c.acked == c.released == |c.log| && Peek(c).value.terminal.sequence == |c.log| + 1
  {
  }
}
