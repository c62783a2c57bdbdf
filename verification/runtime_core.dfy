/**
  The part of the market runtime that decides the state of the book: the
  projection, its bootstrap buffer and generation, and the reported state.

  Source: src/g3/market_runtime.cpp, lines 52-66, 955-1181 and 1229-1286.
 */
module RuntimeCore {
  import opened Prelude
  import opened MarketTypes
  import opened ProjectionLibrary

  datatype Depth = Depth(update: nat, generation: Option<nat>)
  datatype InjectedFailure = Transport | SnapshotFetch
  datatype Input =
    | DepthInput(depth: Depth)
    | SnapshotInput(snapshot: nat, generation: Option<nat>)
    | FailureInput(failure: InjectedFailure)

  datatype Core = Core(
    book: Book,
    bootstrap: seq<Depth>,
    generation: Option<nat>,     // of the installed snapshot
    state: RuntimeState,         // from here on: what is observed
    status: ProjectionStatus,
    fault: Option<FaultReason>,
    accepting: bool,
    resetCount: nat,
    applied: nat)                // history: how many updates were applied since the last reset

  /** What handing out the k-th update applied since the last reset ran into, if anything. */
  type Troubles = nat -> Option<FaultReason>

  function StateFor(status: ProjectionStatus): RuntimeState {
    match status
    case AwaitingBaseline => Buffering
    case BridgePending => AwaitingBridge
    case Synchronized => Live
    case ResyncRequired => NeedsResync
  }

  function PublishState(L: Library, c: Core): Core {
    var status := L.status(c.book);
    c.(status := status,
       state := if c.state == Faulted || c.state == Stopping || c.state == Stopped then c.state else StateFor(status),
       accepting := c.accepting && status != ResyncRequired)
  }

  function Fault(L: Library, c: Core, reason: FaultReason): Core {
    c.(accepting := false, bootstrap := [], fault := Some(reason), status := L.status(c.book), state := Faulted)
  }

  function Reset(L: Library, c: Core): Core {
    c.(book := L.initial, bootstrap := [], generation := None, fault := None, status := L.status(L.initial),
       state := Buffering, accepting := true, resetCount := c.resetCount + 1, applied := 0)
  }

  /** How one call on the projection ended. */
  datatype Outcome =
    | Thrown                             // caught by the owner loop
    | Failed                             // the runtime faulted and the call returned
    | Done(disposition: Disposition)     // the state is still to be published

  predicate Mismatched(c: Core, d: Depth) {
    c.generation.Some? && d.generation.Some? && c.generation != d.generation
  }

  /**
    Applying one update up to the publication of the state. `trouble` is what
    handing the applied update to the subscribers ran into, if anything.
   */
  function ApplyBook(L: Library, c: Core, d: Depth, trouble: Option<FaultReason>): (Core, Outcome) {
    if Mismatched(c, d) then (Fault(L, c, InternalError), Failed)
    else
      var (book, result) := L.apply(c.book, d.update);
      var after := c.(book := book);
      match result
      case ApplyThrew => (Fault(L, after, InternalError), Thrown)
      case ApplyAdapterError => (Fault(L, after, AdapterError), Failed)
      case Disposed(disposition) =>
        if disposition != Applied then (after, Done(disposition))
        else
          var counted := after.(applied := c.applied + 1);
          (if trouble.Some? then Fault(L, counted, trouble.value) else counted, Done(disposition))
  }

  function Apply(L: Library, c: Core, d: Depth, trouble: Option<FaultReason>): (Core, Outcome) {
    var (after, outcome) := ApplyBook(L, c, d, trouble);
    (if outcome.Done? then PublishState(L, after) else after, outcome)
  }

  // The loop over the bootstrap buffer, after an installation.
  function Replay(L: Library, c: Core, trouble: Troubles): (r: (Core, bool))
    ensures r.0.bootstrap == [] || r.1
    decreases |c.bootstrap|
  {
    if c.bootstrap == [] then (c, false)
    else
      var d := c.bootstrap[0];
      var (after, outcome) := Apply(L, c.(bootstrap := c.bootstrap[1..]), d, trouble(c.applied));
      if outcome == Thrown then (after, true)
      else if L.status(after.book) == ResyncRequired || after.state == Faulted then (after.(bootstrap := []), false)
      else Replay(L, after, trouble)
  }

  /** Adapting and installing a snapshot; an exception is a fault of its own. */
  function Install(L: Library, c: Core, snapshot: nat, generation: Option<nat>): (Core, InstallResult) {
    var (book, result) := L.install(c.book, snapshot);
    var after := c.(book := book);
    match result
    case InstallAdapterError => (Fault(L, after, AdapterError), result)
    case InstallThrew => (Fault(L, after, InternalError), result)
    case InstallRejected => (Fault(L, after, ProjectionRejected), result)
    case Installed => (after.(generation := generation), result)
  }

  function FailureReason(failure: InjectedFailure): FaultReason {
    match failure
    case Transport => TransportFailure
    case SnapshotFetch => SnapshotFailure
  }

  /** Processing one input to its end. */
  function Process(L: Library, capacity: nat, c: Core, input: Input, trouble: Troubles): Core {
    match input
    case FailureInput(failure) => Fault(L, c, FailureReason(failure))
    case DepthInput(d) =>
      if L.status(c.book) == AwaitingBaseline then
        if |c.bootstrap| == capacity then Fault(L, c, BootstrapBufferOverflow)
        else PublishState(L, c.(bootstrap := c.bootstrap + [d]))
      else Apply(L, c, d, trouble(c.applied)).0
    case SnapshotInput(snapshot, generation) =>
      var (after, result) := Install(L, c, snapshot, generation);
      if result != Installed then after
      else
        var (replayed, thrown) := Replay(L, after, trouble);
        if thrown then replayed else PublishState(L, replayed)
  }

  /** Once faulted or out of sync the runtime admits and keeps no input. */
  predicate Halted(c: Core) {
    c.state == Faulted || c.status == ResyncRequired
  }

  function Deliver(L: Library, capacity: nat, c: Core, input: Input, trouble: Troubles): Core {
    if Halted(c) then c else Process(L, capacity, c, input, trouble)
  }

  function DeliverAll(L: Library, capacity: nat, c: Core, inputs: seq<Input>, trouble: Troubles)
    : Core
    decreases |inputs|
  {
    if inputs == [] then c
    else DeliverAll(L, capacity, Deliver(L, capacity, c, inputs[0], trouble), inputs[1..], trouble)
  }

  function Depths(ds: seq<Depth>): seq<Input> {
    seq(|ds|, i requires 0 <= i < |ds| => DepthInput(ds[i]))
  }

  /** The observed state and status agree with the book, between two inputs. */
  ghost predicate Coherent(L: Library, c: Core) {
    && c.status == L.status(c.book)
    && (c.state == Faulted || c.state == Stopping || c.state == Stopped || c.state == StateFor(c.status))
    && (Halted(c) ==> !c.accepting)
    && (c.state == Faulted ==> c.bootstrap == [])
    && (c.status != AwaitingBaseline ==> c.bootstrap == [])
  }

  lemma {:induction false} DeliverAllConcat(
    L: Library, capacity: nat, c: Core, xs: seq<Input>, ys: seq<Input>, trouble: Troubles)
    ensures DeliverAll(L, capacity, c, xs + ys, trouble)
         == DeliverAll(L, capacity, DeliverAll(L, capacity, c, xs, trouble), ys, trouble)
    decreases |xs|
  {
    if xs == [] {
      assert xs + ys == ys;
    } else {
      assert (xs + ys)[0] == xs[0] && (xs + ys)[1..] == xs[1..] + ys;
      DeliverAllConcat(L, capacity, Deliver(L, capacity, c, xs[0], trouble), xs[1..], ys, trouble);
    }
  }

  lemma {:induction false} HaltedIsFinal(
    L: Library, capacity: nat, c: Core, inputs: seq<Input>, trouble: Troubles)
    requires Halted(c)
    ensures DeliverAll(L, capacity, c, inputs, trouble) == c
    decreases |inputs|
  {
    if inputs != [] {
      HaltedIsFinal(L, capacity, c, inputs[1..], trouble);
    }
  }

  // ---------------------------------------------------------------- bootstrap transparency

  /** What buffering does while the baseline is awaited. */
  lemma {:induction false} BufferingAppends(
    L: Library, capacity: nat, c: Core, ds: seq<Depth>, trouble: Troubles)
    requires LibraryOk(L) && Coherent(L, c) && !Halted(c) && c.status == AwaitingBaseline
    requires |c.bootstrap| + |ds| <= capacity
    ensures DeliverAll(L, capacity, c, Depths(ds), trouble) == c.(bootstrap := c.bootstrap + ds)
    decreases |ds|
  {
    if ds != [] {
      var next := c.(bootstrap := c.bootstrap + [ds[0]]);
      assert Deliver(L, capacity, c, DepthInput(ds[0]), trouble) == next;
      assert Depths(ds)[1..] == Depths(ds[1..]);
      BufferingAppends(L, capacity, next, ds[1..], trouble);
      assert next.bootstrap + ds[1..] == c.bootstrap + ds;
    } else {
      assert c.bootstrap + ds == c.bootstrap;
    }
  }

  /** The end of the replay: publish unless an exception escaped. */
  function ReplayAndPublish(L: Library, c: Core, trouble: Troubles): Core {
    var (replayed, thrown) := Replay(L, c, trouble);
    if thrown then replayed else PublishState(L, replayed)
  }

  // Where the core's replay goes after the state was published.
  function GoOn(L: Library, after: Core, trouble: Troubles): Core {
    if L.status(after.book) == ResyncRequired || after.state == Faulted then PublishState(L, after.(bootstrap := []))
    else ReplayAndPublish(L, after, trouble)
  }

  /** One turn of the core's replay. */
  lemma ReplayTurn(L: Library, c: Core, trouble: Troubles)
    requires c.bootstrap != []
    ensures var d := c.bootstrap[0];
            var (core, outcome) := ApplyBook(L, c.(bootstrap := c.bootstrap[1..]), d, trouble(c.applied));
            && ReplayAndPublish(L, c, trouble)
            == (match outcome
                case Thrown => core
                case Failed => PublishState(L, core.(bootstrap := []))
                case Done(_) => GoOn(L, PublishState(L, core), trouble))
            && (outcome == Failed ==> core.state == Faulted)
            && |core.bootstrap| < |c.bootstrap|
  {
  }

  /** Replaying from the buffer is delivering the same updates one by one. */
  lemma {:induction false} ReplayIsDelivery(
    L: Library, capacity: nat, c: Core, trouble: Troubles)
    requires LibraryOk(L) && KeepsBaseline(L)
    requires L.status(c.book) != AwaitingBaseline && L.status(c.book) != ResyncRequired && c.state != Faulted
    ensures ReplayAndPublish(L, c, trouble)
         == DeliverAll(L, capacity, PublishState(L, c.(bootstrap := [])), Depths(c.bootstrap), trouble)
    decreases |c.bootstrap|
  {
    if c.bootstrap != [] {
      var d, rest := c.bootstrap[0], c.bootstrap[1..];
      var published := PublishState(L, c.(bootstrap := []));
      var (buffered, outcome) := Apply(L, c.(bootstrap := rest), d, trouble(c.applied));
      var next := Deliver(L, capacity, published, DepthInput(d), trouble);
      ApplyIgnoresTheBuffer(L, c, rest, d, trouble(c.applied));
      assert Depths(c.bootstrap)[0] == DepthInput(d) && Depths(c.bootstrap)[1..] == Depths(rest);
      if Halted(next) {
        HaltedIsFinal(L, capacity, next, Depths(rest), trouble);
      } else {
        ReplayIsDelivery(L, capacity, buffered, trouble);
      }
    } else {
      assert c.(bootstrap := []) == c;
    }
  }

  lemma ApplyIgnoresTheBuffer(L: Library, c: Core, rest: seq<Depth>, d: Depth, trouble: Option<FaultReason>)
    requires LibraryOk(L) && KeepsBaseline(L)
    requires L.status(c.book) != AwaitingBaseline && L.status(c.book) != ResyncRequired && c.state != Faulted
    ensures var (buffered, outcome) := Apply(L, c.(bootstrap := rest), d, trouble);
            var next := Apply(L, PublishState(L, c.(bootstrap := [])), d, trouble).0;
            && next == buffered.(bootstrap := [])
            && (outcome == Thrown ==> buffered == next && Halted(next))
            && (Halted(next) <==> L.status(buffered.book) == ResyncRequired || buffered.state == Faulted)
            && (!Halted(next) ==> buffered.bootstrap == rest && L.status(buffered.book) != AwaitingBaseline)
            && PublishState(L, next) == next
  {
  }

  lemma SnapshotIsReplay(L: Library, capacity: nat, c: Core, snapshot: Input, trouble: Troubles)
    requires LibraryOk(L) && KeepsBaseline(L) && Coherent(L, c) && !Halted(c) && c.status == AwaitingBaseline
    requires snapshot.SnapshotInput?
    ensures Deliver(L, capacity, c, snapshot, trouble)
         == DeliverAll(L, capacity, Deliver(L, capacity, c.(bootstrap := []), snapshot, trouble),
                       Depths(c.bootstrap), trouble)
  {
    var (after, result) := Install(L, c, snapshot.snapshot, snapshot.generation);
    var direct := Deliver(L, capacity, c.(bootstrap := []), snapshot, trouble);
    if result == Installed {
      ReplayIsDelivery(L, capacity, after, trouble);
      assert direct == PublishState(L, after.(bootstrap := []));
    } else {
      HaltedIsFinal(L, capacity, direct, Depths(c.bootstrap), trouble);
    }
  }

  /**
    Buffering is invisible: updates buffered before the snapshot have the same
    effect as if they had arrived right after it, in order, on the whole core,
    gaps and faults during the replay included.
   */
  lemma BootstrapTransparency(
    L: Library, capacity: nat, c: Core, early: seq<Depth>, snapshot: Input, later: seq<Input>,
    trouble: Troubles)
    requires LibraryOk(L) && KeepsBaseline(L)
    requires Coherent(L, c) && !Halted(c) && c.status == AwaitingBaseline && c.bootstrap == []
    requires |early| <= capacity && snapshot.SnapshotInput?
    ensures DeliverAll(L, capacity, c, Depths(early) + [snapshot] + later, trouble)
         == DeliverAll(L, capacity, c, [snapshot] + Depths(early) + later, trouble)
  {
    var buffered := c.(bootstrap := early);
    BufferingAppends(L, capacity, c, early, trouble);
    assert c.bootstrap + early == early;
    assert buffered.(bootstrap := []) == c;
    SnapshotIsReplay(L, capacity, buffered, snapshot, trouble);
    DeliverOne(L, capacity, buffered, snapshot, trouble);
    DeliverOne(L, capacity, c, snapshot, trouble);
    DeliverAllConcat(L, capacity, c, Depths(early), [snapshot], trouble);
    DeliverAllConcat(L, capacity, c, [snapshot], Depths(early), trouble);
    DeliverAllConcat(L, capacity, c, Depths(early) + [snapshot], later, trouble);
    DeliverAllConcat(L, capacity, c, [snapshot] + Depths(early), later, trouble);
  }

  lemma DeliverOne(L: Library, capacity: nat, c: Core, input: Input, trouble: Troubles)
    ensures DeliverAll(L, capacity, c, [input], trouble) == Deliver(L, capacity, c, input, trouble)
  {
    assert [input][1..] == [];
  }

  /**
    The assumption on the library is needed: if an installed book still awaited
    its baseline, an update after the snapshot would be buffered, not applied.
   */
  lemma TransparencyNeedsTheBaseline(d: Depth)
    requires d.update != 0
    ensures var (L, c, quiet) := (CarelessLibrary(), FreshCore(CarelessLibrary()), (_: nat) => None);
            && LibraryOk(L) && !KeepsBaseline(L)
            && DeliverAll(L, 1, c, [DepthInput(d), SnapshotInput(0, None)], quiet)
            != DeliverAll(L, 1, c, [SnapshotInput(0, None), DepthInput(d)], quiet)
  {
    var (L, c, quiet) := (CarelessLibrary(), FreshCore(CarelessLibrary()), (_: nat) => None);
    assert L.install(0, 0).1 == Installed;
    DeliverTwo(L, 1, c, DepthInput(d), SnapshotInput(0, None), quiet);
    DeliverTwo(L, 1, c, SnapshotInput(0, None), DepthInput(d), quiet);
    CarelessRuns(d);
  }

  // Its books await a baseline for ever.
  function CarelessLibrary(): Library {
    Library(0, _ => AwaitingBaseline, (b, u) => (u, Disposed(Applied)), (b, s) => (b, Installed))
  }

  lemma CarelessRuns(d: Depth)
    ensures var (L, c, quiet) := (CarelessLibrary(), FreshCore(CarelessLibrary()), (_: nat) => None);
            && Deliver(L, 1, Deliver(L, 1, c, DepthInput(d), quiet), SnapshotInput(0, None), quiet).book == d.update
            && Deliver(L, 1, Deliver(L, 1, c, SnapshotInput(0, None), quiet), DepthInput(d), quiet).book == 0
  {
    var (L, c, quiet) := (CarelessLibrary(), FreshCore(CarelessLibrary()), (_: nat) => None);
    var buffered := Deliver(L, 1, c, DepthInput(d), quiet);
    assert buffered == c.(bootstrap := [d]);
    assert [d][1..] == [];
    var (after, outcome) := Apply(L, buffered.(bootstrap := []), d, None);
    assert after == c.(book := d.update, applied := 1);
    assert Replay(L, buffered, quiet) == Replay(L, after, quiet) == (after, false);
  }

  lemma DeliverTwo(L: Library, capacity: nat, c: Core, x: Input, y: Input, trouble: Troubles)
    ensures DeliverAll(L, capacity, c, [x, y], trouble)
         == Deliver(L, capacity, Deliver(L, capacity, c, x, trouble), y, trouble)
  {
    assert [x, y][1..] == [y];
    DeliverOne(L, capacity, Deliver(L, capacity, c, x, trouble), y, trouble);
  }

  /** The capacity bound is exact: one more buffered update faults the runtime for good. */
  lemma OverflowIsVisible(
    L: Library, capacity: nat, c: Core, early: seq<Depth>, later: seq<Input>, trouble: Troubles)
    requires LibraryOk(L) && Coherent(L, c) && !Halted(c) && c.status == AwaitingBaseline && c.bootstrap == []
    requires capacity < |early|
    ensures var d := DeliverAll(L, capacity, c, Depths(early) + later, trouble);
            Halted(d) && d.fault == Some(BootstrapBufferOverflow)
  {
    var fit, last := early[..capacity], DepthInput(early[capacity]);
    var rest := Depths(early[capacity + 1..]) + later;
    assert Depths(early) + later == Depths(fit) + ([last] + rest);
    BufferingAppends(L, capacity, c, fit, trouble);
    var full := c.(bootstrap := c.bootstrap + fit);
    DeliverAllConcat(L, capacity, c, Depths(fit), [last] + rest, trouble);
    DeliverAllConcat(L, capacity, full, [last], rest, trouble);
    DeliverOne(L, capacity, full, last, trouble);
    HaltedIsFinal(L, capacity, Deliver(L, capacity, full, last, trouble), rest, trouble);
  }

  /** Inputs are admitted exactly until the runtime halts. */
  predicate Open(c: Core) {
    c.accepting <==> !Halted(c)
  }

  lemma ReplayKeepsOpen(L: Library, c: Core, trouble: Troubles)
    requires c.accepting && c.state != Faulted
    ensures Open(ReplayAndPublish(L, c, trouble))
    decreases |c.bootstrap|
  {
    if c.bootstrap != [] {
      var d := c.bootstrap[0];
      var after := Apply(L, c.(bootstrap := c.bootstrap[1..]), d, trouble(c.applied)).0;
      if L.status(after.book) != ResyncRequired && after.state != Faulted {
        ReplayKeepsOpen(L, after, trouble);
      }
    }
  }

  lemma DeliverKeepsOpen(L: Library, capacity: nat, c: Core, input: Input, trouble: Troubles)
    requires Open(c)
    ensures Open(Deliver(L, capacity, c, input, trouble))
  {
    if input.SnapshotInput? && !Halted(c) {
      var (after, result) := Install(L, c, input.snapshot, input.generation);
      if result == Installed {
        ReplayKeepsOpen(L, after, trouble);
      }
    }
  }

  // ---------------------------------------------------------------- reset

  /** The core a freshly started runtime has. */
  function FreshCore(L: Library): Core {
    Core(L.initial, [], None, Buffering, L.status(L.initial), None, true, 0, 0)
  }

  /** Nothing of the past survives a reset, except the count of resets. */
  lemma ResetIsFresh(L: Library, c: Core)
    ensures Reset(L, c) == FreshCore(L).(resetCount := c.resetCount + 1)
  {
  }

  lemma {:induction false} ReplayForgetsResets(L: Library, c: Core, n: nat, trouble: Troubles)
    ensures Replay(L, c.(resetCount := n), trouble)
         == (Replay(L, c, trouble).0.(resetCount := n), Replay(L, c, trouble).1)
    decreases |c.bootstrap|
  {
    if c.bootstrap != [] {
      var d := c.bootstrap[0];
      var (after, outcome) := Apply(L, c.(bootstrap := c.bootstrap[1..]), d, trouble(c.applied));
      assert Apply(L, c.(resetCount := n).(bootstrap := c.bootstrap[1..]), d, trouble(c.applied))
          == (after.(resetCount := n), outcome);
      if outcome != Thrown && L.status(after.book) != ResyncRequired && after.state != Faulted {
        ReplayForgetsResets(L, after, n, trouble);
      }
    }
  }

  lemma SnapshotForgetsResets(L: Library, capacity: nat, c: Core, input: Input, n: nat, trouble: Troubles)
    requires input.SnapshotInput?
    ensures Process(L, capacity, c.(resetCount := n), input, trouble)
         == Process(L, capacity, c, input, trouble).(resetCount := n)
  {
    var after := Install(L, c, input.snapshot, input.generation).0;
    assert Install(L, c.(resetCount := n), input.snapshot, input.generation).0 == after.(resetCount := n);
    ReplayForgetsResets(L, after, n, trouble);
  }

  lemma DeliverForgetsResets(
    L: Library, capacity: nat, c: Core, input: Input, n: nat, trouble: Troubles)
    ensures Deliver(L, capacity, c.(resetCount := n), input, trouble)
         == Deliver(L, capacity, c, input, trouble).(resetCount := n)
  {
    if input.SnapshotInput? {
      SnapshotForgetsResets(L, capacity, c, input, n, trouble);
    } else if input.DepthInput? {
      DepthForgetsResets(L, c, input.depth, n, trouble(c.applied));
    }
  }

  lemma DepthForgetsResets(L: Library, c: Core, d: Depth, n: nat, trouble: Option<FaultReason>)
    ensures Apply(L, c.(resetCount := n), d, trouble)
         == (Apply(L, c, d, trouble).0.(resetCount := n), Apply(L, c, d, trouble).1)
  {
  }

  lemma {:induction false} DeliveryForgetsResets(
    L: Library, capacity: nat, c: Core, inputs: seq<Input>, n: nat, trouble: Troubles)
    ensures DeliverAll(L, capacity, c.(resetCount := n), inputs, trouble)
         == DeliverAll(L, capacity, c, inputs, trouble).(resetCount := n)
    decreases |inputs|
  {
    if inputs != [] {
      DeliverForgetsResets(L, capacity, c, inputs[0], n, trouble);
      DeliveryForgetsResets(L, capacity, Deliver(L, capacity, c, inputs[0], trouble), inputs[1..], n, trouble);
    }
  }

  /**
    After a reset every input sequence leads to the core that it leads to in a
    freshly started runtime: same book, generation, state and fault.
   */
  lemma ResetEquivalence(
    L: Library, capacity: nat, c: Core, inputs: seq<Input>, trouble: Troubles)
    ensures DeliverAll(L, capacity, Reset(L, c), inputs, trouble)
         == DeliverAll(L, capacity, FreshCore(L), inputs, trouble).(resetCount := c.resetCount + 1)
  {
    ResetIsFresh(L, c);
    DeliveryForgetsResets(L, capacity, FreshCore(L), inputs, c.resetCount + 1, trouble);
  }
}
