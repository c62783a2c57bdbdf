/**
  The event source of one product: its generation lifecycle and the fan-out of
  normalized events to subscriber channels.

  Source: src/g9/event_publication.cpp. The channel queue is the ring of
  OrderBookChannel, taken here at the level of its log.
 */
module EventPublishing {
  import opened Prelude

  datatype Stream = DiffDepth | AggTrade | BookTicker
  datatype Event = Event(stream: Stream, body: nat)

  datatype EventPayload = SubscriptionAccepted(request: nat) | Normalized(event: Event)
  datatype EventRecord = EventRecord(sequence: nat, generation: Option<nat>, publishedAt: nat, payload: EventPayload)
  datatype EventGapReason = SlowConsumer | GenerationReplaced
  datatype EventTerminal = EventTerminal(sequence: nat, generation: nat, publishedAt: nat, reason: EventGapReason)

  datatype ChannelState = Active | TerminalGap | TerminalUnavailable | Closed
  datatype EventAdmitResult = Admitted | Terminalized | Inactive | AllocationFailure

  /** As in OrderBookChannel: the queue is `log[released..]`. */
  datatype EventChannel = EventChannel(
    stream: Stream,
    generation: nat,
    capacity: nat,
    log: seq<EventRecord>,
    released: nat,
    acked: nat,
    terminal: Option<EventTerminal>,
    issued: Option<EventTerminal>,
    state: ChannelState,
    next: nat,
    cut: nat)  // how many events had been published when it was admitted

  function Bump(next: nat): nat {
    if next == MAX_UINT64 then next else next + 1
  }

  ghost predicate EventChannelOk(c: EventChannel) {
    && 1 <= c.capacity && 1 <= c.generation
    && c.acked <= c.released <= |c.log|
    && |c.log| - c.released <= c.capacity
    && 1 <= |c.log| < MAX_UINT64
    && (forall i | 0 <= i < |c.log| :: c.log[i].sequence == i + 1)
    && c.log[0].payload.SubscriptionAccepted?
    && (forall i | 1 <= i < |c.log| ::
          c.log[i].payload.Normalized? && c.log[i].generation == Some(c.generation))
    && (c.issued.None? ==> c.next == |c.log| + 1 && c.terminal.None? && c.state != TerminalGap)
    && (c.issued.Some? ==>
          && c.issued.value.sequence == |c.log| + 1
          && c.issued.value.generation == c.generation
          && c.next == Min(|c.log| + 2, MAX_UINT64)
          && (c.terminal.Some? ==> c.terminal == c.issued)
          && c.state != Active && c.state != TerminalUnavailable)
    && (c.released != c.acked ==> c.state == Closed)
  }

  // A new channel is published only after its Accepted record was staged.
  function StagedChannel(stream: Stream, generation: nat, capacity: nat, request: nat, time: nat, cut: nat): EventChannel {
    EventChannel(stream, generation, capacity, [EventRecord(1, None, time, SubscriptionAccepted(request))],
                 0, 0, None, None, Active, 2, cut)
  }

  function AdmitEvent(c: EventChannel, event: Event, time: nat): (EventChannel, EventAdmitResult) {
    if c.state != Active then (c, Inactive)
    else if event.stream != c.stream then (c, AllocationFailure)
    else if |c.log| - c.released == c.capacity then
      var terminal := EventTerminal(c.next, c.generation, time, SlowConsumer);
      (c.(terminal := Some(terminal), issued := Some(terminal), state := TerminalGap, next := Bump(c.next)), Terminalized)
    else if c.next == MAX_UINT64 then (c, AllocationFailure)
    else
      (c.(log := c.log + [EventRecord(c.next, Some(c.generation), time, Normalized(event))], next := c.next + 1), Admitted)
  }

  function TerminalizeReplacement(c: EventChannel, time: nat): EventChannel {
    if c.state != Active || c.terminal.Some? then c
    else
      var terminal := EventTerminal(c.next, c.generation, time, GenerationReplaced);
      c.(terminal := Some(terminal), issued := Some(terminal), state := TerminalGap, next := Bump(c.next))
  }

  function CloseUnavailable(c: EventChannel): EventChannel {
    if c.state != Active then c else c.(state := TerminalUnavailable)
  }

  // The writer acknowledges the front record, or the terminal once the queue is empty.
  function AcknowledgeFront(c: EventChannel): EventChannel {
    if c.state == Closed then c
    else if c.released < |c.log| then c.(released := c.released + 1, acked := c.acked + 1)
    else if c.terminal.Some? then c.(terminal := None, state := Closed)
    else c
  }

  function CloseFromOwner(c: EventChannel): EventChannel {
    c.(state := Closed)
  }

  function CloseFromWriter(c: EventChannel): EventChannel {
    c.(state := Closed, released := |c.log|, terminal := None)
  }

  // ---------------------------------------------------------------- publication

  datatype SourceState = SourceClosed | Open | Quiesced | PermanentlyClosed | Shutdown
  datatype PublishResult = Published | IgnoredBeforeOpen | InvariantFailure
  datatype AdmissionError = ClockError | ShuttingDown | SourceUnavailable | ActiveLimit | IdExhausted
  datatype AdmissionResult = AdmissionOk(channel: nat) | AdmissionFailed(error: AdmissionError)

  /**
    `heap` lists every channel ever admitted (a channel is named by its index),
    `channels` those still in the source's vector. `published` is the history of
    events for which publish returned Published; `intact` turns false when a
    publish failed halfway through the channels.
   */
  datatype Publication = Publication(
    maximum: nat,
    capacity: nat,
    source: SourceState,
    generation: Option<nat>,
    channels: seq<nat>,
    heap: seq<EventChannel>,
    published: seq<Event>,
    intact: bool)

  function NewPublication(maximum: nat, capacity: nat): Publication {
    Publication(maximum, capacity, SourceClosed, None, [], [], [], true)
  }

  function OpenGeneration(p: Publication, g: nat): (Publication, bool) {
    if g == 0 || p.source != SourceClosed || (p.generation.Some? && g <= p.generation.value) then (p, false)
    else (p.(generation := Some(g), source := Open), true)
  }

  function QuiesceGeneration(p: Publication, g: nat): (Publication, bool) {
    if p.source != Open || p.generation != Some(g) then (p, false)
    else (p.(source := Quiesced), true)
  }

  /** Applies `change` to every listed channel of generation `g`. */
  function ChangeGeneration(p: Publication, g: nat, change: EventChannel -> EventChannel): (heap: seq<EventChannel>)
    ensures |heap| == |p.heap|
  {
    seq(|p.heap|, i requires 0 <= i < |p.heap| =>
      if i in p.channels && p.heap[i].generation == g then change(p.heap[i]) else p.heap[i])
  }

  function CloseReplaced(p: Publication, g: nat, clock: Option<nat>): (Publication, bool) {
    if clock.None? || p.source != Quiesced || p.generation != Some(g) then (p, false)
    else (p.(heap := ChangeGeneration(p, g, c => TerminalizeReplacement(c, clock.value)), source := SourceClosed), true)
  }

  function ClosePermanently(p: Publication, g: nat): (Publication, bool) {
    if p.source != Quiesced || p.generation != Some(g) then (p, false)
    else (p.(heap := ChangeGeneration(p, g, c => CloseUnavailable(c)), source := PermanentlyClosed), true)
  }

  function AdmitSubscription(p: Publication, stream: Stream, request: nat, clock: Option<nat>): (Publication, AdmissionResult) {
    if clock.None? then (p, AdmissionFailed(ClockError))
    else if p.source == Shutdown then (p, AdmissionFailed(ShuttingDown))
    else if p.source != Open || p.generation.None? then (p, AdmissionFailed(SourceUnavailable))
    else if |p.channels| == p.maximum then (p, AdmissionFailed(ActiveLimit))
    else if |p.heap| + 1 == MAX_UINT64 then (p, AdmissionFailed(IdExhausted))
    else
      var c := StagedChannel(stream, p.generation.value, p.capacity, request, clock.value, |p.published|);
      (p.(channels := p.channels + [|p.heap|], heap := p.heap + [c]), AdmissionOk(|p.heap|))
  }

  /** The publish loop from position `k` of the channel vector: the heap it leaves, and whether it completed. */
  function FanOut(heap: seq<EventChannel>, channels: seq<nat>, k: nat, g: nat, event: Event, time: nat)
    : (r: (seq<EventChannel>, bool))
    requires k <= |channels| && forall j | 0 <= j < |channels| :: channels[j] < |heap|
    ensures |r.0| == |heap|
    decreases |channels| - k
  {
    if k == |channels| then (heap, true)
    else
      var c := heap[channels[k]];
      if c.stream != event.stream || c.generation != g then FanOut(heap, channels, k + 1, g, event, time)
      else
        var (d, admitted) := AdmitEvent(c, event, time);
        if admitted == AllocationFailure then (heap, false)
        else FanOut(heap[channels[k] := d], channels, k + 1, g, event, time)
  }

  function Publish(p: Publication, event: Event, g: nat, clock: Option<nat>): (Publication, PublishResult)
    requires forall j | 0 <= j < |p.channels| :: p.channels[j] < |p.heap|
  {
    if clock.None? then (p, InvariantFailure)
    else if p.source == Shutdown || (p.source == SourceClosed && (p.generation.None? || g > p.generation.value)) then
      (p, IgnoredBeforeOpen)
    else if p.source != Open || p.generation != Some(g) then (p, InvariantFailure)
    else
      var (heap, completed) := FanOut(p.heap, p.channels, 0, g, event, clock.value);
      if completed then (p.(heap := heap, published := p.published + [event]), Published)
      else (p.(heap := heap, intact := false), InvariantFailure)
  }

  function Remove(p: Publication, channel: nat): Publication {
    if channel !in p.channels then p else p.(channels := Without(p.channels, channel))
  }

  /** Erases the first occurrence of `x`. */
  function Without(xs: seq<nat>, x: nat): (ys: seq<nat>)
    ensures forall y :: y in ys ==> y in xs
    ensures Distinct(xs) ==> Distinct(ys) && x !in ys && forall y :: y in xs && y != x ==> y in ys
  {
    if xs == [] then []
    else if xs[0] == x then
      assert forall y :: y in xs && y != x ==> y in xs[1..];
      xs[1..]
    else
      var rest := Without(xs[1..], x);
      assert forall y :: y in xs <==> y == xs[0] || y in xs[1..];
      assert Distinct(xs) ==> Distinct(xs[1..]) && xs[0] !in xs[1..];
      [xs[0]] + rest
  }

  ghost predicate Distinct(xs: seq<nat>) {
    forall i, j | 0 <= i < j < |xs| :: xs[i] != xs[j]
  }

  function ShutdownSource(p: Publication): Publication {
    if p.source == Shutdown then p
    else p.(source := Shutdown,
            heap := seq(|p.heap|, i requires 0 <= i < |p.heap| =>
              if i in p.channels then CloseFromOwner(p.heap[i]) else p.heap[i]))
  }

  datatype Op =
    | OpOpen(g: nat)
    | OpQuiesce(g: nat)
    | OpCloseReplaced(g: nat, clock: Option<nat>)
    | OpClosePermanently(g: nat)
    | OpAdmit(stream: Stream, request: nat, clock: Option<nat>)
    | OpPublish(event: Event, g: nat, clock: Option<nat>)
    | OpRemove(channel: nat)
    | OpShutdown
    | OpAcknowledge(channel: nat)
    | OpWriterClose(channel: nat)

  function ChangeOne(p: Publication, channel: nat, change: EventChannel -> EventChannel): Publication {
    if channel < |p.heap| then p.(heap := p.heap[channel := change(p.heap[channel])]) else p
  }

  function Step(p: Publication, op: Op): Publication
    requires forall j | 0 <= j < |p.channels| :: p.channels[j] < |p.heap|
  {
    match op
    case OpOpen(g) => OpenGeneration(p, g).0
    case OpQuiesce(g) => QuiesceGeneration(p, g).0
    case OpCloseReplaced(g, clock) => CloseReplaced(p, g, clock).0
    case OpClosePermanently(g) => ClosePermanently(p, g).0
    case OpAdmit(stream, request, clock) => AdmitSubscription(p, stream, request, clock).0
    case OpPublish(event, g, clock) => Publish(p, event, g, clock).0
    case OpRemove(channel) => Remove(p, channel)
    case OpShutdown => ShutdownSource(p)
    case OpAcknowledge(channel) => ChangeOne(p, channel, c => AcknowledgeFront(c))
    case OpWriterClose(channel) => ChangeOne(p, channel, c => CloseFromWriter(c))
  }

  // ---------------------------------------------------------------- invariants

  /** The events of one stream, in publication order. */
  function EventsOf(published: seq<Event>, stream: Stream): (r: seq<Event>)
    ensures |r| <= |published|
  {
    if published == [] then []
    else
      var last := published[|published| - 1];
      EventsOf(published[..|published| - 1], stream) + (if last.stream == stream then [last] else [])
  }

  /**
    A channel carries exactly the events of its stream published since its
    admission while it is active and listed, and a prefix of them afterwards.
   */
  ghost predicate Follows(c: EventChannel, published: seq<Event>, live: bool) {
    && c.cut <= |published|
    && 1 <= |c.log|
    && var events := EventsOf(published[c.cut..], c.stream);
       && |c.log| - 1 <= |events|
       && (live ==> |c.log| - 1 == |events|)
       && forall i | 1 <= i < |c.log| :: c.log[i].payload == Normalized(events[i - 1])
  }

  ghost predicate Listed(p: Publication) {
    && Distinct(p.channels)
    && forall j | 0 <= j < |p.channels| :: p.channels[j] < |p.heap|
  }

  /** What holds of channel `i` of the source. */
  ghost predicate MemberOk(p: Publication, i: nat)
    requires i < |p.heap|
  {
    var c := p.heap[i];
    && EventChannelOk(c)
    && p.generation.Some? && c.generation <= p.generation.value
    && (i in p.channels && c.state == Active ==>
          p.generation == Some(c.generation) && (p.source == Open || p.source == Quiesced))
    && (p.intact ==> Follows(c, p.published, i in p.channels && c.state == Active))
  }

  ghost predicate PublicationOk(p: Publication) {
    && 1 <= p.capacity
    && Listed(p)
    && (p.generation.Some? ==> 1 <= p.generation.value)
    && (p.source == Open || p.source == Quiesced ==> p.generation.Some?)
    && |p.heap| < MAX_UINT64
    && forall i | 0 <= i < |p.heap| :: MemberOk(p, i)
  }

  lemma FanOutEffect(heap: seq<EventChannel>, channels: seq<nat>, k: nat, g: nat, event: Event, time: nat, i: nat)
    requires k <= |channels| && Distinct(channels)
    requires forall j | 0 <= j < |channels| :: channels[j] < |heap|
    requires i < |heap|
    ensures var (after, completed) := FanOut(heap, channels, k, g, event, time);
            var c := heap[i];
            && (after[i] == c || after[i] == AdmitEvent(c, event, time).0)
            && (i !in channels[k..] ==> after[i] == c)
            && (c.stream != event.stream || c.generation != g ==> after[i] == c)
            && (completed && i in channels[k..] && c.stream == event.stream && c.generation == g ==>
                  after[i] == AdmitEvent(c, event, time).0 && AdmitEvent(c, event, time).1 != AllocationFailure)
    decreases |channels| - k
  {
    if k < |channels| {
      assert forall x :: x in channels[k..] <==> x == channels[k] || x in channels[k + 1..];
      assert channels[k] !in channels[k + 1..];
      var c := heap[channels[k]];
      if c.stream != event.stream || c.generation != g {
        FanOutEffect(heap, channels, k + 1, g, event, time, i);
      } else {
        var (d, admitted) := AdmitEvent(c, event, time);
        if admitted != AllocationFailure {
          FanOutEffect(heap[channels[k] := d], channels, k + 1, g, event, time, i);
        }
      }
    }
  }

  lemma AdmitEventKeeps(c: EventChannel, event: Event, time: nat)
    requires EventChannelOk(c)
    ensures EventChannelOk(AdmitEvent(c, event, time).0)
  {
  }

  lemma FollowsLater(c: EventChannel, published: seq<Event>, event: Event)
    requires c.cut <= |published|
    ensures EventsOf((published + [event])[c.cut..], c.stream) ==
            EventsOf(published[c.cut..], c.stream) + (if event.stream == c.stream then [event] else [])
  {
    var more := (published + [event])[c.cut..];
    assert more[..|more| - 1] == published[c.cut..];
  }

  // A channel that may have been offered the event keeps to its stream.
  lemma OfferedFollows(p: Publication, q: Publication, event: Event, g: nat, time: nat, i: nat)
    requires PublicationOk(p) && i < |p.heap| && p.intact && p.generation == Some(g) && p.source == Open
    requires (q, Published) == Publish(p, event, g, Some(time))
    ensures Follows(q.heap[i], q.published, i in q.channels && q.heap[i].state == Active)
  {
    assert p.channels[0..] == p.channels;
    FanOutEffect(p.heap, p.channels, 0, g, event, time, i);
    assert MemberOk(p, i);
    FollowsLater(p.heap[i], p.published, event);
  }

  lemma PublishKeepsMember(p: Publication, event: Event, g: nat, clock: Option<nat>, i: nat)
    requires PublicationOk(p) && i < |p.heap|
    ensures MemberOk(Publish(p, event, g, clock).0, i)
  {
    var (q, result) := Publish(p, event, g, clock);
    assert MemberOk(p, i);
    if q != p {
      FanOutEffect(p.heap, p.channels, 0, g, event, clock.value, i);
      AdmitEventKeeps(p.heap[i], event, clock.value);
      if q.intact {
        OfferedFollows(p, q, event, g, clock.value, i);
      }
    }
  }

  lemma PublishKeeps(p: Publication, event: Event, g: nat, clock: Option<nat>)
    requires PublicationOk(p)
    ensures PublicationOk(Publish(p, event, g, clock).0)
  {
    var q := Publish(p, event, g, clock).0;
    forall i | 0 <= i < |q.heap| ensures MemberOk(q, i) {
      PublishKeepsMember(p, event, g, clock, i);
    }
  }

  /** Opening and quiescing touch no channel: no active one is left behind by a new generation. */
  lemma LifecycleKeeps(p: Publication, op: Op)
    requires PublicationOk(p) && (op.OpOpen? || op.OpQuiesce?)
    ensures PublicationOk(Step(p, op))
  {
    var q := Step(p, op);
    forall i | 0 <= i < |q.heap| ensures MemberOk(q, i) {
      assert MemberOk(p, i);
    }
  }

  lemma CloseKeeps(p: Publication, op: Op)
    requires PublicationOk(p) && (op.OpCloseReplaced? || op.OpClosePermanently?)
    ensures PublicationOk(Step(p, op))
  {
    var q := Step(p, op);
    forall i | 0 <= i < |q.heap| ensures MemberOk(q, i) {
      assert MemberOk(p, i);
    }
  }

  lemma AdmissionKeeps(p: Publication, stream: Stream, request: nat, clock: Option<nat>)
    requires PublicationOk(p)
    ensures PublicationOk(AdmitSubscription(p, stream, request, clock).0)
  {
    var q := AdmitSubscription(p, stream, request, clock).0;
    assert EventsOf([], stream) == [];
    forall i | 0 <= i < |q.heap| ensures MemberOk(q, i) {
      if i < |p.heap| {
        assert MemberOk(p, i);
      }
    }
  }

  lemma ShutdownKeeps(p: Publication)
    requires PublicationOk(p)
    ensures PublicationOk(ShutdownSource(p))
  {
    var q := ShutdownSource(p);
    forall i | 0 <= i < |q.heap| ensures MemberOk(q, i) {
      assert MemberOk(p, i);
    }
  }

  lemma RemoveKeeps(p: Publication, channel: nat)
    requires PublicationOk(p)
    ensures PublicationOk(Remove(p, channel))
  {
    var q := Remove(p, channel);
    forall j | 0 <= j < |q.channels| ensures q.channels[j] < |q.heap| {
      assert q.channels[j] in p.channels;
    }
    forall i | 0 <= i < |q.heap| ensures MemberOk(q, i) {
      assert MemberOk(p, i);
    }
  }

  // A change that an RPC handler makes to its own channel.
  lemma ChangedKeeps(p: Publication, i: nat, d: EventChannel)
    requires PublicationOk(p) && i < |p.heap|
    requires EventChannelOk(d) && d.log == p.heap[i].log && d.cut == p.heap[i].cut && d.stream == p.heap[i].stream
    requires d.generation == p.heap[i].generation && (d.state == Active ==> p.heap[i].state == Active)
    ensures PublicationOk(p.(heap := p.heap[i := d]))
  {
    var q := p.(heap := p.heap[i := d]);
    forall k | 0 <= k < |q.heap| ensures MemberOk(q, k) {
      assert MemberOk(p, k);
    }
  }

  lemma WriterKeeps(p: Publication, op: Op)
    requires PublicationOk(p) && (op.OpAcknowledge? || op.OpWriterClose?)
    ensures PublicationOk(Step(p, op))
  {
    if op.channel < |p.heap| {
      assert MemberOk(p, op.channel);
      if op.OpAcknowledge? {
        ChangedKeeps(p, op.channel, AcknowledgeFront(p.heap[op.channel]));
      } else {
        ChangedKeeps(p, op.channel, CloseFromWriter(p.heap[op.channel]));
      }
    }
  }

  lemma StepKeeps(p: Publication, op: Op)
    requires PublicationOk(p)
    ensures PublicationOk(Step(p, op))
  {
    match op {
      case OpOpen(_) => LifecycleKeeps(p, op);
      case OpQuiesce(_) => LifecycleKeeps(p, op);
      case OpCloseReplaced(_, _) => CloseKeeps(p, op);
      case OpClosePermanently(_) => CloseKeeps(p, op);
      case OpAdmit(stream, request, clock) => AdmissionKeeps(p, stream, request, clock);
      case OpPublish(event, g, clock) => PublishKeeps(p, event, g, clock);
      case OpRemove(channel) => RemoveKeeps(p, channel);
      case OpShutdown => ShutdownKeeps(p);
      case OpAcknowledge(_) => WriterKeeps(p, op);
      case OpWriterClose(_) => WriterKeeps(p, op);
    }
  }

  ghost function Run(p: Publication, ops: seq<Op>): Publication
    requires PublicationOk(p)
    decreases |ops|
  {
    if ops == [] then p
    else
      StepKeeps(p, ops[0]);
      Run(Step(p, ops[0]), ops[1..])
  }

  lemma NewPublicationOk(maximum: nat, capacity: nat)
    requires 1 <= capacity
    ensures PublicationOk(NewPublication(maximum, capacity))
  {
  }

  lemma {:induction false} RunKeeps(p: Publication, ops: seq<Op>)
    requires PublicationOk(p)
    ensures PublicationOk(Run(p, ops))
    decreases |ops|
  {
    if ops != [] {
      StepKeeps(p, ops[0]);
      RunKeeps(Step(p, ops[0]), ops[1..]);
    }
  }

  /** What a session of the event source is owed, in terms of its acknowledged and queued records. */
  ghost predicate Delivered(p: Publication, i: nat)
    requires i < |p.heap|
  {
    var c := p.heap[i];
    var events := if c.cut <= |p.published| then EventsOf(p.published[c.cut..], c.stream) else [];
    var stream := if c.acked <= c.released <= |c.log| then c.log[..c.acked] + c.log[c.released..] else [];
    && (c.state != Closed ==> stream == c.log)
    && 1 <= |c.log| <= |events| + 1
    && c.log[0].payload.SubscriptionAccepted?
    && (forall k | 1 <= k < |c.log| ::
          c.log[k] == EventRecord(k + 1, Some(c.generation), c.log[k].publishedAt, Normalized(events[k - 1])))
    && (i in p.channels && c.state == Active ==> |c.log| == |events| + 1)
    && (|c.log| < |events| + 1 ==> c.state != Active || i !in p.channels)
  }

  /**
    After any operations, while no publish failed: acknowledged plus queued
    records of a channel are Accepted followed by the events of its stream
    published since its admission, complete while it is active and listed; an
    active listed channel has the source's generation; none is active once the
    source is closed, permanently closed or shut down.
   */
  lemma EveryRunFansOut(maximum: nat, capacity: nat, ops: seq<Op>)
    requires 1 <= capacity
    ensures PublicationOk(NewPublication(maximum, capacity))
    ensures var p := Run(NewPublication(maximum, capacity), ops);
            && (p.intact ==> forall i | 0 <= i < |p.heap| :: Delivered(p, i))
            && (forall i | i in p.channels :: i < |p.heap| &&
                  (p.heap[i].state == Active ==>
                     p.generation == Some(p.heap[i].generation) && (p.source == Open || p.source == Quiesced)))
  {
    NewPublicationOk(maximum, capacity);
    RunKeeps(NewPublication(maximum, capacity), ops);
    var p := Run(NewPublication(maximum, capacity), ops);
    forall i | p.intact && 0 <= i < |p.heap| ensures Delivered(p, i) {
      assert MemberOk(p, i);
    }
    forall i | i in p.channels
      ensures i < |p.heap| &&
        (p.heap[i].state == Active ==>
           p.generation == Some(p.heap[i].generation) && (p.source == Open || p.source == Quiesced))
    {
      assert MemberOk(p, i);
    }
  }

  // ---------------------------------------------------------------- the lifecycle as its driver sees it

  ghost predicate Foreign(op: Op) {
    op.OpAdmit? || op.OpPublish? || op.OpRemove? || op.OpAcknowledge? || op.OpWriterClose?
  }

  lemma {:induction false} ForeignKeepsLifecycle(p: Publication, ops: seq<Op>)
    requires PublicationOk(p) && forall i | 0 <= i < |ops| :: Foreign(ops[i])
    ensures Run(p, ops).source == p.source && Run(p, ops).generation == p.generation
    decreases |ops|
  {
    if ops != [] {
      assert Foreign(ops[0]);
      StepKeeps(p, ops[0]);
      ForeignKeepsLifecycle(Step(p, ops[0]), ops[1..]);
    }
  }

  /** A publish of generation `g` is not refused because of the source's state. */
  ghost predicate Publishable(p: Publication, g: nat) {
    || p.source == Shutdown
    || (p.source == SourceClosed && (p.generation.None? || g > p.generation.value))
    || (p.source == Open && p.generation == Some(g))
  }

  /** Publishable is exact: with a clock sample and no exhausted sequence, publish fails precisely outside it. */
  lemma PublishableExactly(p: Publication, event: Event, g: nat, time: nat)
    requires PublicationOk(p)
    requires forall i | 0 <= i < |p.heap| :: p.heap[i].next < MAX_UINT64
    ensures Publish(p, event, g, Some(time)).1 != InvariantFailure <==> Publishable(p, g)
  {
    if p.source == Open && p.generation == Some(g) {
      FanOutCompletes(p.heap, p.channels, 0, g, event, time);
    }
  }

  lemma FanOutCompletes(heap: seq<EventChannel>, channels: seq<nat>, k: nat, g: nat, event: Event, time: nat)
    requires k <= |channels| && Distinct(channels)
    requires forall j | 0 <= j < |channels| :: channels[j] < |heap|
    requires forall j | k <= j < |channels| :: heap[channels[j]].next < MAX_UINT64
    ensures FanOut(heap, channels, k, g, event, time).1
    decreases |channels| - k
  {
    if k < |channels| {
      var c := heap[channels[k]];
      var d := AdmitEvent(c, event, time).0;
      if c.stream != event.stream || c.generation != g {
        FanOutCompletes(heap, channels, k + 1, g, event, time);
      } else {
        FanOutCompletes(heap[channels[k] := d], channels, k + 1, g, event, time);
      }
    }
  }

  // ---------------------------------------------------------------- the object

  class EventPublication {
    const maximum: nat
    const capacity: nat
    var source: SourceState
    var generation: Option<nat>
    var channels: seq<nat>
    var heap: seq<EventChannel>
    // History only: the source keeps no list of published events.
    var published: seq<Event>
    ghost var intact: bool

    ghost function State(): Publication
      reads this
    {
      Publication(maximum, capacity, source, generation, channels, heap, published, intact)
    }

    ghost predicate Valid()
      reads this
    {
      PublicationOk(State())
    }

    constructor (maximum: nat, capacity: nat)
      requires 1 <= maximum && 1 <= capacity
      ensures Valid() && State() == NewPublication(maximum, capacity)
    {
      this.maximum := maximum;
      this.capacity := capacity;
      source, generation, channels, heap, published, intact := SourceClosed, None, [], [], [], true;
      new;
      NewPublicationOk(maximum, capacity);
    }

    method OpenFor(g: nat) returns (ok: bool)
      requires Valid()
      modifies this`source, this`generation
      ensures Valid() && (State(), ok) == OpenGeneration(old(State()), g)
    {
      LifecycleKeeps(State(), OpOpen(g));
      if g == 0 || source == Shutdown || source == PermanentlyClosed || source == Open || source == Quiesced
         || (generation.Some? && g <= generation.value) {
        return false;
      }
      generation := Some(g);
      source := Open;
      ok := true;
    }

    method QuiesceFor(g: nat) returns (ok: bool)
      requires Valid()
      modifies this`source
      ensures Valid() && (State(), ok) == QuiesceGeneration(old(State()), g)
    {
      LifecycleKeeps(State(), OpQuiesce(g));
      if source != Open || generation != Some(g) {
        return false;
      }
      source := Quiesced;
      ok := true;
    }

    method ChangeEach(g: nat, change: EventChannel -> EventChannel)
      requires Listed(State())
      modifies this`heap
      ensures heap == ChangeGeneration(old(State()), g, change)
    {
      for k := 0 to |channels|
        invariant |heap| == old(|heap|)
        invariant forall i | 0 <= i < |heap| ::
            heap[i] == if i in channels[..k] && old(heap)[i].generation == g then change(old(heap)[i]) else old(heap)[i]
      {
        assert channels[..k + 1] == channels[..k] + [channels[k]];
        assert channels[k] !in channels[..k];
        if heap[channels[k]].generation == g {
          heap := heap[channels[k] := change(heap[channels[k]])];
        }
      }
      assert channels[..|channels|] == channels;
    }

    method CloseReplacedFor(g: nat, clock: Option<nat>) returns (ok: bool)
      requires Valid()
      modifies this`source, this`heap
      ensures Valid() && (State(), ok) == CloseReplaced(old(State()), g, clock)
    {
      CloseKeeps(State(), OpCloseReplaced(g, clock));
      if clock.None? || source != Quiesced || generation != Some(g) {
        return false;
      }
      ChangeEach(g, c => TerminalizeReplacement(c, clock.value));
      source := SourceClosed;
      ok := true;
    }

    method ClosePermanentlyFor(g: nat) returns (ok: bool)
      requires Valid()
      modifies this`source, this`heap
      ensures Valid() && (State(), ok) == ClosePermanently(old(State()), g)
    {
      CloseKeeps(State(), OpClosePermanently(g));
      if source != Quiesced || generation != Some(g) {
        return false;
      }
      ChangeEach(g, c => CloseUnavailable(c));
      source := PermanentlyClosed;
      ok := true;
    }

    method Subscribe(stream: Stream, request: nat, clock: Option<nat>) returns (r: AdmissionResult)
      requires Valid()
      modifies this`channels, this`heap
      ensures Valid() && (State(), r) == AdmitSubscription(old(State()), stream, request, clock)
    {
      AdmissionKeeps(State(), stream, request, clock);
      if clock.None? {
        return AdmissionFailed(ClockError);
      }
      if source == Shutdown {
        return AdmissionFailed(ShuttingDown);
      }
      if source != Open || generation.None? {
        return AdmissionFailed(SourceUnavailable);
      }
      if |channels| == maximum {
        return AdmissionFailed(ActiveLimit);
      }
      if |heap| + 1 == MAX_UINT64 {
        return AdmissionFailed(IdExhausted);
      }
      r := AdmissionOk(|heap|);
      channels := channels + [|heap|];
      heap := heap + [StagedChannel(stream, generation.value, capacity, request, clock.value, |published|)];
    }

    method PublishEvent(event: Event, g: nat, clock: Option<nat>) returns (r: PublishResult)
      requires Valid()
      modifies this`heap, this`published, this`intact
      ensures Valid() && (State(), r) == Publish(old(State()), event, g, clock)
    {
      PublishKeeps(State(), event, g, clock);
      if clock.None? {
        return InvariantFailure;
      }
      if source == Shutdown || (source == SourceClosed && (generation.None? || g > generation.value)) {
        return IgnoredBeforeOpen;
      }
      if source != Open || generation != Some(g) {
        return InvariantFailure;
      }
      var time := clock.value;
      for k := 0 to |channels|
        invariant |heap| == old(|heap|) && published == old(published) && intact == old(intact)
        invariant FanOut(old(heap), channels, 0, g, event, time) == FanOut(heap, channels, k, g, event, time)
      {
        var c := heap[channels[k]];
        if c.stream == event.stream && c.generation == g {
          var (d, admitted) := AdmitEvent(c, event, time);
          if admitted == AllocationFailure {
            intact := false;
            return InvariantFailure;
          }
          heap := heap[channels[k] := d];
        }
      }
      published := published + [event];
      r := Published;
    }

    method RemoveChannel(channel: nat)
      requires Valid()
      modifies this`channels
      ensures Valid() && State() == Remove(old(State()), channel)
    {
      RemoveKeeps(State(), channel);
      if channel in channels {
        channels := Without(channels, channel);
      }
    }

    method ShutdownNow()
      requires Valid()
      modifies this`source, this`heap
      ensures Valid() && State() == ShutdownSource(old(State()))
    {
      ShutdownKeeps(State());
      if source == Shutdown {
        return;
      }
      source := Shutdown;
      for k := 0 to |channels|
        invariant |heap| == old(|heap|) && source == Shutdown
        invariant forall i | 0 <= i < |heap| ::
            heap[i] == if i in channels[..k] then CloseFromOwner(old(heap)[i]) else old(heap)[i]
      {
        assert channels[..k + 1] == channels[..k] + [channels[k]];
        assert channels[k] !in channels[..k];
        heap := heap[channels[k] := CloseFromOwner(heap[channels[k]])];
      }
      assert channels[..|channels|] == channels;
      assert heap == ShutdownSource(old(State())).heap;
    }

    /** The other threads: subscribers come and go, writers acknowledge, the transport publishes. */
    method Interleave(ops: seq<Op>)
      requires Valid() && forall i | 0 <= i < |ops| :: Foreign(ops[i])
      modifies this`channels, this`heap, this`published, this`intact
      ensures Valid() && source == old(source) && generation == old(generation)
      ensures State() == Run(old(State()), ops)
    {
      ghost var start := State();
      for k := 0 to |ops|
        invariant Valid()
        invariant Run(start, ops) == Run(State(), ops[k..])
      {
        StepKeeps(State(), ops[k]);
        assert ops[k..][1..] == ops[k + 1..];
        assert Foreign(ops[k]);
        match ops[k] {
          case OpAdmit(stream, request, clock) => var _ := Subscribe(stream, request, clock);
          case OpPublish(event, g, clock) => var _ := PublishEvent(event, g, clock);
          case OpRemove(channel) => RemoveChannel(channel);
          case OpAcknowledge(channel) =>
            if channel < |heap| {
              heap := heap[channel := AcknowledgeFront(heap[channel])];
            }
          case OpWriterClose(channel) =>
            if channel < |heap| {
              heap := heap[channel := CloseFromWriter(heap[channel])];
            }
        }
      }
    }
  }
}
