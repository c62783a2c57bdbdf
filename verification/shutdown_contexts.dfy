/**
  Tracking of the RPC handlers' contexts and the shutdown that cancels them.

  Source: src/g7/grpc_service.cpp, begin_shutdown (lines 918-982),
  track_context, finalize_context and untrack_context (lines 998-1053). Each
  locked region is one step; TryCancel runs outside the lock, one context at a
  time, between the steps of the handlers.
 */
module ShutdownContexts {
  import opened Prelude

  // kMaximumGrpcTrackedContexts of the multi-market build.
  const MAXIMUM_TRACKED: nat := 48

  datatype Entry = Entry(context: nat, selected: bool)
  datatype Outcome = Success | Cancelled | OtherFailure
  datatype TrackResult = Tracked | TrackClosed | TrackFull

  // A handler holds its context from track to its single erasure.
  datatype Handler = Running | Returned(outcome: Outcome, selected: bool)

  datatype ShutdownPc = NotBegun | AdmissionClosed | Cancelling(index: nat) | Complete

  datatype Service = Service(
    limit: nat,
    contexts: seq<Entry>,
    admissionOpen: bool,
    shutdownStarted: bool,
    snapshotActive: bool,
    pc: ShutdownPc,
    copy: seq<nat>,               // the fixed array, up to context_count
    handlers: map<nat, Handler>,
    reached: seq<nat>,            // contexts TryCancel was called on, in order
    erased: seq<nat>)             // contexts erased, in order

  function NewService(limit: nat): Service {
    Service(limit, [], true, false, false, NotBegun, [], map[], [], [])
  }

  /** The position of a context's entry, or the length. */
  function Find(contexts: seq<Entry>, context: nat): (i: nat)
    ensures i <= |contexts|
    ensures i < |contexts| ==> contexts[i].context == context
    ensures forall j | 0 <= j < i :: contexts[j].context != context
  {
    if contexts == [] || contexts[0].context == context then 0 else 1 + Find(contexts[1..], context)
  }

  function Track(s: Service, context: nat): (Service, TrackResult) {
    if !s.admissionOpen then (s, TrackClosed)
    else if |s.contexts| == s.limit then (s, TrackFull)
    else (s.(contexts := s.contexts + [Entry(context, false)], handlers := s.handlers[context := Running]), Tracked)
  }

  function EraseAt(s: Service, i: nat): Service
    requires i < |s.contexts|
  {
    s.(contexts := s.contexts[..i] + s.contexts[i + 1..], erased := s.erased + [s.contexts[i].context])
  }

  /** The status a handler returns: an OK one of a selected context becomes CANCELLED. */
  function Finalize(s: Service, context: nat, proposed: Outcome): (Service, Outcome) {
    var i := Find(s.contexts, context);
    if i == |s.contexts| then (s, proposed)
    else
      var selected := s.contexts[i].selected;
      var outcome := if proposed == Success && selected then Cancelled else proposed;
      (EraseAt(s, i).(handlers := s.handlers[context := Returned(outcome, selected)]), outcome)
  }

  // The handler left by an exception: its guard erases the entry.
  function Untrack(s: Service, context: nat): Service {
    var i := Find(s.contexts, context);
    if i == |s.contexts| then s
    else EraseAt(s, i).(handlers := s.handlers[context := Returned(OtherFailure, s.contexts[i].selected)])
  }

  function BeginShutdown(s: Service): Service {
    if s.shutdownStarted then s
    else s.(shutdownStarted := true, admissionOpen := false, pc := AdmissionClosed)
  }

  function Selected(contexts: seq<Entry>): (r: seq<Entry>)
    ensures |r| == |contexts|
    ensures forall i | 0 <= i < |r| :: r[i] == Entry(contexts[i].context, true)
  {
    seq(|contexts|, i requires 0 <= i < |contexts| => contexts[i].(selected := true))
  }

  function Names(contexts: seq<Entry>): (r: seq<nat>)
    ensures |r| == |contexts|
    ensures forall i | 0 <= i < |r| :: r[i] == contexts[i].context
  {
    seq(|contexts|, i requires 0 <= i < |contexts| => contexts[i].context)
  }

  function TakeSnapshot(s: Service): Service {
    s.(snapshotActive := true, contexts := Selected(s.contexts), copy := Names(s.contexts), pc := Cancelling(0))
  }

  function TryCancelNext(s: Service): Service
    requires s.pc.Cancelling? && s.pc.index < |s.copy|
  {
    s.(reached := s.reached + [s.copy[s.pc.index]], pc := Cancelling(s.pc.index + 1))
  }

  function ClearSnapshot(s: Service): Service {
    s.(snapshotActive := false, pc := Complete)
  }

  datatype Event =
    | DoTrack(context: nat)
    | DoFinalize(context: nat, proposed: Outcome)
    | DoUntrack(context: nat)
    | DoBeginShutdown
    | DoTakeSnapshot
    | DoTryCancel
    | DoClear

  /** Erasing waits for the snapshot flag; a context belongs to one handler for its whole life. */
  ghost predicate Enabled(s: Service, e: Event) {
    match e
    case DoTrack(context) => context !in s.handlers
    case DoFinalize(context, _) => context in s.handlers && s.handlers[context].Running? && !s.snapshotActive
    case DoUntrack(context) => context in s.handlers && s.handlers[context].Running? && !s.snapshotActive
    case DoBeginShutdown => true
    case DoTakeSnapshot => s.pc == AdmissionClosed
    case DoTryCancel => s.pc.Cancelling? && s.pc.index < |s.copy|
    case DoClear => s.pc == Cancelling(|s.copy|)
  }

  function Step(s: Service, e: Event): Service {
    match e
    case DoTrack(context) => Track(s, context).0
    case DoFinalize(context, proposed) => Finalize(s, context, proposed).0
    case DoUntrack(context) => Untrack(s, context)
    case DoBeginShutdown => BeginShutdown(s)
    case DoTakeSnapshot => TakeSnapshot(s)
    case DoTryCancel => if s.pc.Cancelling? && s.pc.index < |s.copy| then TryCancelNext(s) else s
    case DoClear => ClearSnapshot(s)
  }

  ghost predicate IsTracked(s: Service, context: nat) {
    exists i :: 0 <= i < |s.contexts| && s.contexts[i].context == context
  }

  ghost predicate EntriesOk(s: Service) {
    && (forall i, j | 0 <= i < j < |s.contexts| :: s.contexts[i].context != s.contexts[j].context)
    && (forall i | 0 <= i < |s.contexts| ::
          s.contexts[i].context in s.handlers && s.handlers[s.contexts[i].context].Running?)
    && (forall c | c in s.handlers && s.handlers[c].Running? :: IsTracked(s, c))
  }

  /** Every context is erased at most once, and exactly those of returned handlers are. */
  ghost predicate ErasedOk(s: Service) {
    && (forall i, j | 0 <= i < j < |s.erased| :: s.erased[i] != s.erased[j])
    && (forall c | c in s.erased :: c in s.handlers && s.handlers[c].Returned?)
    && (forall c | c in s.handlers && s.handlers[c].Returned? :: c in s.erased)
  }

  ghost predicate PhaseOk(s: Service) {
    && |s.contexts| <= s.limit <= MAXIMUM_TRACKED
    && (s.shutdownStarted <==> s.pc != NotBegun)
    && (s.shutdownStarted ==> !s.admissionOpen)
    && (s.snapshotActive <==> s.pc.Cancelling?)
    && (s.pc.Cancelling? ==>
          && s.copy == Names(s.contexts)
          && s.pc.index <= |s.copy|
          && s.reached == s.copy[..s.pc.index])
    && (s.pc == Complete ==> s.reached == s.copy)
    && (s.pc == NotBegun || s.pc == AdmissionClosed ==> s.reached == [])
    && (forall i | 0 <= i < |s.contexts| ::
          s.contexts[i].selected <==> s.pc.Cancelling? || s.pc == Complete)
    && (s.pc == Complete ==> forall i | 0 <= i < |s.contexts| :: s.contexts[i].context in s.reached)
  }

  /** A selected handler was reached by TryCancel before it returned, and never returns OK. */
  ghost predicate OutcomesOk(s: Service) {
    forall c | c in s.handlers && s.handlers[c].Returned? ::
      && (s.handlers[c].selected ==> s.handlers[c].outcome != Success && c in s.reached)
      && (!s.handlers[c].selected ==> c !in s.reached)
  }

  ghost predicate ServiceOk(s: Service) {
    EntriesOk(s) && ErasedOk(s) && PhaseOk(s) && OutcomesOk(s)
  }

  lemma TrackKeeps(s: Service, context: nat)
    requires ServiceOk(s) && context !in s.handlers
    ensures ServiceOk(Track(s, context).0)
  {
    var t := Track(s, context).0;
    if t != s {
      assert t.contexts[|s.contexts|].context == context;
      forall c | c in t.handlers && t.handlers[c].Running? ensures IsTracked(t, c) {
        if c != context {
          var i :| 0 <= i < |s.contexts| && s.contexts[i].context == c;
          assert t.contexts[i].context == c;
        }
      }
    }
  }

  /** The service after the handler of `context` returned with `outcome`. */
  function Erased(s: Service, context: nat, outcome: Outcome): Service {
    var i := Find(s.contexts, context);
    if i == |s.contexts| then s
    else EraseAt(s, i).(handlers := s.handlers[context := Returned(outcome, s.contexts[i].selected)])
  }

  /** The entry goes, the others move up. */
  lemma ErasedMovesUp(s: Service, context: nat, outcome: Outcome)
    requires EntriesOk(s) && context in s.handlers && s.handlers[context].Running?
    ensures var i := Find(s.contexts, context);
            var t := Erased(s, context, outcome);
            && i < |s.contexts| && s.contexts[i].context == context
            && |t.contexts| == |s.contexts| - 1
            && forall j | 0 <= j < |t.contexts| :: t.contexts[j] == s.contexts[if j < i then j else j + 1]
  {
    assert IsTracked(s, context);
  }

  // The other handlers still have their entries.
  lemma OthersStayTracked(s: Service, context: nat, outcome: Outcome, c: nat)
    requires EntriesOk(s) && context in s.handlers && s.handlers[context].Running?
    requires c != context && IsTracked(s, c)
    ensures IsTracked(Erased(s, context, outcome), c)
  {
    ErasedMovesUp(s, context, outcome);
    var i := Find(s.contexts, context);
    var j :| 0 <= j < |s.contexts| && s.contexts[j].context == c;
    assert Erased(s, context, outcome).contexts[if j < i then j else j - 1].context == c;
  }

  // What is left of the entries: still one per context, each of a running handler.
  lemma LeftEntries(s: Service, context: nat, outcome: Outcome)
    requires EntriesOk(s) && context in s.handlers && s.handlers[context].Running?
    ensures var t := Erased(s, context, outcome);
            && (forall i, j | 0 <= i < j < |t.contexts| :: t.contexts[i].context != t.contexts[j].context)
            && (forall j | 0 <= j < |t.contexts| ::
                  && t.contexts[j].context != context
                  && t.contexts[j].context in s.handlers && s.handlers[t.contexts[j].context].Running?)
  {
    ErasedMovesUp(s, context, outcome);
  }

  lemma EraseKeepsEntries(s: Service, context: nat, outcome: Outcome)
    requires EntriesOk(s) && context in s.handlers && s.handlers[context].Running?
    ensures Find(s.contexts, context) < |s.contexts| && EntriesOk(Erased(s, context, outcome))
  {
    ErasedMovesUp(s, context, outcome);
    LeftEntries(s, context, outcome);
    var t := Erased(s, context, outcome);
    forall c | c in t.handlers && t.handlers[c].Running? ensures IsTracked(t, c) {
      OthersStayTracked(s, context, outcome, c);
    }
  }

  lemma EraseKeepsPhase(s: Service, context: nat, outcome: Outcome)
    requires EntriesOk(s) && PhaseOk(s) && context in s.handlers && s.handlers[context].Running? && !s.snapshotActive
    ensures PhaseOk(Erased(s, context, outcome))
  {
    ErasedMovesUp(s, context, outcome);
  }

  lemma EraseKeepsErased(s: Service, context: nat, outcome: Outcome)
    requires EntriesOk(s) && ErasedOk(s) && context in s.handlers && s.handlers[context].Running?
    ensures ErasedOk(Erased(s, context, outcome))
  {
    ErasedMovesUp(s, context, outcome);
    assert context !in s.erased;
  }

  lemma EraseKeepsOutcomes(s: Service, context: nat, outcome: Outcome)
    requires EntriesOk(s) && PhaseOk(s) && OutcomesOk(s)
    requires context in s.handlers && s.handlers[context].Running? && !s.snapshotActive
    requires var i := Find(s.contexts, context);
             i < |s.contexts| && s.contexts[i].selected ==> outcome != Success
    ensures OutcomesOk(Erased(s, context, outcome))
  {
    ErasedMovesUp(s, context, outcome);
  }

  /** A returning handler erases its own entry, once, and leaves every other one and its order alone. */
  lemma EraseKeeps(s: Service, context: nat, outcome: Outcome)
    requires ServiceOk(s) && context in s.handlers && s.handlers[context].Running? && !s.snapshotActive
    requires var i := Find(s.contexts, context);
             i < |s.contexts| && s.contexts[i].selected ==> outcome != Success
    ensures ServiceOk(Erased(s, context, outcome))
    ensures var t := Erased(s, context, outcome);
            && !IsTracked(t, context) && t.erased == s.erased + [context]
            && exists i :: 0 <= i < |s.contexts| && s.contexts[i].context == context
                           && t.contexts == s.contexts[..i] + s.contexts[i + 1..]
  {
    EraseKeepsEntries(s, context, outcome);
    EraseKeepsPhase(s, context, outcome);
    EraseKeepsErased(s, context, outcome);
    EraseKeepsOutcomes(s, context, outcome);
    ErasedMovesUp(s, context, outcome);
  }

  lemma SnapshotKeeps(s: Service)
    requires ServiceOk(s) && s.pc == AdmissionClosed
    ensures ServiceOk(TakeSnapshot(s))
  {
    var t := TakeSnapshot(s);
    assert Names(t.contexts) == Names(s.contexts);
    forall c | c in t.handlers && t.handlers[c].Running? ensures IsTracked(t, c) {
      var j :| 0 <= j < |s.contexts| && s.contexts[j].context == c;
      assert t.contexts[j].context == c;
    }
  }

  lemma CancelKeeps(s: Service)
    requires ServiceOk(s) && s.pc.Cancelling? && s.pc.index < |s.copy|
    ensures ServiceOk(TryCancelNext(s))
    // The context TryCancel is about to touch is still tracked by its handler.
    ensures s.contexts[s.pc.index].context == s.copy[s.pc.index]
    ensures var c := s.copy[s.pc.index]; c in s.handlers && s.handlers[c].Running?
  {
    assert s.copy[..s.pc.index + 1] == s.copy[..s.pc.index] + [s.copy[s.pc.index]];
    forall c | c in s.handlers && s.handlers[c].Returned? ensures c != s.copy[s.pc.index] {
      assert s.contexts[s.pc.index].context in s.handlers;
    }
  }

  lemma ClearKeeps(s: Service)
    requires ServiceOk(s) && s.pc == Cancelling(|s.copy|)
    ensures ServiceOk(ClearSnapshot(s))
  {
    assert s.copy[..|s.copy|] == s.copy;
    forall i | 0 <= i < |s.contexts| ensures s.contexts[i].context in s.reached {
      assert s.copy[i] == s.contexts[i].context;
    }
  }

  lemma StepKeeps(s: Service, e: Event)
    requires ServiceOk(s) && Enabled(s, e)
    ensures ServiceOk(Step(s, e))
  {
    match e {
      case DoTrack(context) => TrackKeeps(s, context);
      case DoFinalize(context, proposed) =>
        EraseKeepsEntries(s, context, proposed);
        EraseKeeps(s, context, Finalize(s, context, proposed).1);
      case DoUntrack(context) => EraseKeeps(s, context, OtherFailure);
      case DoBeginShutdown => assert forall c :: IsTracked(BeginShutdown(s), c) <==> IsTracked(s, c);
      case DoTakeSnapshot => SnapshotKeeps(s);
      case DoTryCancel => CancelKeeps(s);
      case DoClear => ClearKeeps(s);
    }
  }

  ghost predicate Runs(s: Service, events: seq<Event>)
    decreases |events|
  {
    events == [] || (Enabled(s, events[0]) && Runs(Step(s, events[0]), events[1..]))
  }

  function Run(s: Service, events: seq<Event>): Service
    decreases |events|
  {
    if events == [] then s else Run(Step(s, events[0]), events[1..])
  }

  lemma {:induction false} RunKeeps(s: Service, events: seq<Event>)
    requires ServiceOk(s) && Runs(s, events)
    ensures ServiceOk(Run(s, events))
    decreases |events|
  {
    if events != [] {
      StepKeeps(s, events[0]);
      RunKeeps(Step(s, events[0]), events[1..]);
    }
  }

  /**
    Over every run: while TryCancel is being called, every context of the copy
    is still tracked and the copy fits the array; each context is erased at most
    once; and only handlers TryCancel did not reach return OK.
   */
  lemma EveryRunCancelsSafely(limit: nat, events: seq<Event>)
    requires limit <= MAXIMUM_TRACKED && Runs(NewService(limit), events)
    ensures var s := Run(NewService(limit), events);
            && (s.pc.Cancelling? ==> |s.copy| <= MAXIMUM_TRACKED && forall i | 0 <= i < |s.copy| :: IsTracked(s, s.copy[i]))
            && (forall i, j | 0 <= i < j < |s.erased| :: s.erased[i] != s.erased[j])
            && (forall c | c in s.handlers && s.handlers[c].Returned? ::
                  c in s.erased && (s.handlers[c].outcome == Success ==> c !in s.reached))
  {
    RunKeeps(NewService(limit), events);
    var s := Run(NewService(limit), events);
    forall i | s.pc.Cancelling? && 0 <= i < |s.copy| ensures IsTracked(s, s.copy[i]) {
      assert s.contexts[i].context == s.copy[i];
    }
  }

  /** The context table of the service. */
  class ContextTable {
    const limit: nat
    var contexts: seq<Entry>
    var admissionOpen: bool
    var shutdownStarted: bool
    var snapshotActive: bool
    const copied: array<nat>        // the local std::array of begin_shutdown
    var count: nat
    var pc: ShutdownPc              // where the thread in begin_shutdown stands
    ghost var handlers: map<nat, Handler>
    ghost var reached: seq<nat>
    ghost var erased: seq<nat>

    ghost function State(): Service
      reads this, copied
      requires count <= copied.Length
    {
      Service(limit, contexts, admissionOpen, shutdownStarted, snapshotActive, pc, copied[..count], handlers, reached, erased)
    }

    ghost predicate Valid()
      reads this, copied
    {
      && copied.Length == MAXIMUM_TRACKED && count <= copied.Length
      && ServiceOk(State())
    }

    constructor (limit: nat)
      requires 1 <= limit <= MAXIMUM_TRACKED
      ensures Valid() && fresh(copied) && State() == NewService(limit)
    {
      this.limit := limit;
      contexts, admissionOpen, shutdownStarted, snapshotActive, pc := [], true, false, false, NotBegun;
      copied := new nat[MAXIMUM_TRACKED](_ => 0);
      count := 0;
      handlers, reached, erased := map[], [], [];
    }

    method TrackContext(context: nat) returns (r: TrackResult)
      requires Valid() && Enabled(State(), DoTrack(context))
      modifies this`contexts, this`handlers
      ensures Valid() && (State(), r) == Track(old(State()), context)
    {
      TrackKeeps(State(), context);
      if !admissionOpen {
        return TrackClosed;
      }
      if |contexts| == limit {
        return TrackFull;
      }
      contexts := contexts + [Entry(context, false)];
      handlers := handlers[context := Running];
      r := Tracked;
    }

    method FinalizeContext(context: nat, proposed: Outcome) returns (outcome: Outcome)
      requires Valid() && Enabled(State(), DoFinalize(context, proposed))
      modifies this`contexts, this`handlers, this`erased
      ensures Valid() && (State(), outcome) == Finalize(old(State()), context, proposed)
    {
      ghost var before := State();
      StepKeeps(before, DoFinalize(context, proposed));
      outcome := proposed;
      var i := Find(contexts, context);
      if i < |contexts| {
        var selected := contexts[i].selected;
        if proposed == Success && selected {
          outcome := Cancelled;
        }
        erased := erased + [contexts[i].context];
        contexts := contexts[..i] + contexts[i + 1..];
        handlers := handlers[context := Returned(outcome, selected)];
      }
      assert State() == Finalize(before, context, proposed).0;
    }

    method UntrackContext(context: nat)
      requires Valid() && Enabled(State(), DoUntrack(context))
      modifies this`contexts, this`handlers, this`erased
      ensures Valid() && State() == Untrack(old(State()), context)
    {
      ghost var before := State();
      StepKeeps(before, DoUntrack(context));
      var i := Find(contexts, context);
      if i < |contexts| {
        erased := erased + [contexts[i].context];
        handlers := handlers[context := Returned(OtherFailure, contexts[i].selected)];
        contexts := contexts[..i] + contexts[i + 1..];
      }
      assert State() == Untrack(before, context);
    }

    method BeginShutdownNow()
      requires Valid()
      modifies this`admissionOpen, this`shutdownStarted, this`pc
      ensures Valid() && State() == BeginShutdown(old(State()))
    {
      StepKeeps(State(), DoBeginShutdown);
      if shutdownStarted {
        return;
      }
      shutdownStarted := true;
      admissionOpen := false;
      pc := AdmissionClosed;
    }

    /** Selects and copies every entry; the array is never overrun. */
    method SnapshotContexts()
      requires Valid() && Enabled(State(), DoTakeSnapshot)
      modifies this`snapshotActive, this`contexts, this`count, this`pc, copied
      ensures Valid() && State() == TakeSnapshot(old(State()))
    {
      ghost var before := State();
      SnapshotKeeps(before);
      snapshotActive := true;
      CopyEntries();
      pc := Cancelling(0);
      assert State() == TakeSnapshot(before);
    }

    method CopyEntries()
      requires |contexts| <= copied.Length
      modifies this`contexts, this`count, copied
      ensures count == |contexts| && contexts == Selected(old(contexts))
      ensures copied[..count] == Names(old(contexts))
    {
      count := |contexts|;
      for index := 0 to count
        invariant count == |contexts| == old(|contexts|)
        invariant forall i | 0 <= i < count ::
            contexts[i] == if i < index then Entry(old(contexts)[i].context, true) else old(contexts)[i]
        invariant forall i | 0 <= i < index :: copied[i] == old(contexts)[i].context
      {
        contexts := contexts[index := contexts[index].(selected := true)];
        copied[index] := contexts[index].context;
      }
      assert copied[..count] == Names(old(contexts));
      assert contexts == Selected(old(contexts));
    }

    method TryCancelOne() returns (context: nat)
      requires Valid() && Enabled(State(), DoTryCancel)
      modifies this`reached, this`pc
      ensures Valid() && State() == TryCancelNext(old(State()))
      ensures context in handlers && handlers[context].Running?
    {
      CancelKeeps(State());
      context := copied[pc.index];
      reached := reached + [context];
      pc := Cancelling(pc.index + 1);
    }

    method ClearSnapshotFlag()
      requires Valid() && Enabled(State(), DoClear)
      modifies this`snapshotActive, this`pc
      ensures Valid() && State() == ClearSnapshot(old(State()))
    {
      ClearKeeps(State());
      snapshotActive := false;
      pc := Complete;
    }

    /** The handlers and the shutting-down thread of one run, one critical section at a time. */
    method ServeAll(events: seq<Event>)
      requires Valid() && Runs(State(), events)
      modifies this, copied
      ensures Valid() && State() == Run(old(State()), events)
    {
      ghost var start := State();
      for k := 0 to |events|
        invariant Valid() && Runs(State(), events[k..])
        invariant Run(start, events) == Run(State(), events[k..])
      {
        assert events[k..][0] == events[k] && events[k..][1..] == events[k + 1..];
        ServeOne(events[k]);
      }
    }

    method ServeOne(e: Event)
      requires Valid() && Enabled(State(), e)
      modifies this, copied
      ensures Valid() && State() == Step(old(State()), e)
    {
      match e {
        case DoTrack(context) => var _ := TrackContext(context);
        case DoFinalize(context, proposed) => var _ := FinalizeContext(context, proposed);
        case DoUntrack(context) => UntrackContext(context);
        case DoBeginShutdown => BeginShutdownNow();
        case DoTakeSnapshot => SnapshotContexts();
        case DoTryCancel => var _ := TryCancelOne();
        case DoClear => ClearSnapshotFlag();
      }
    }
  }
}
