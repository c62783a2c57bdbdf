/**
  The coordinator as an object: its fields, its failure-history array and its
  loop, driving a real EventPublication object. Every method is tied to the
  function of RecoveryCoordination of the same purpose.

  Source: src/g5/spot_recovery.cpp, lines 469-748, 750-967.
 */
module RecoveryLoop {
  import opened Prelude
  import opened MarketTypes
  import opened RecoveryPolicy
  import opened RecoveryCoordination
  import P = EventPublishing

  /** The bounded history of classified failures: the last seven, oldest first. */
  class FailureHistory {
    const entries: array<Diagnostic>
    var size: nat
    ghost var recorded: seq<Diagnostic>

    ghost predicate Valid()
      reads this, entries
    {
      && entries.Length == HISTORY_CAPACITY
      && size == Min(|recorded|, HISTORY_CAPACITY)
      && entries[..size] == recorded[|recorded| - size..]
    }

    constructor ()
      ensures Valid() && fresh(entries) && recorded == []
    {
      var blank := Diagnostic(0, CauseInternal, None, RuntimeView(Constructed, AwaitingBaseline, None));
      entries := new Diagnostic[HISTORY_CAPACITY](_ => blank);
      size, recorded := 0, [];
    }

    /** Appends a diagnostic; once full, the array is shifted in place and loses its oldest one. */
    method Record(diagnostic: Diagnostic)
      requires Valid()
      modifies this, entries
      ensures Valid() && recorded == old(recorded) + [diagnostic]
    {
      recorded := recorded + [diagnostic];
      if size == entries.Length {
        Shift();
        entries[size - 1] := diagnostic;
        assert forall k | 0 <= k < size - 1 :: entries[k] == old(entries[..])[k + 1];
        return;
      }
      entries[size] := diagnostic;
      size := size + 1;
    }

    method Shift()
      requires 1 <= size <= entries.Length
      modifies entries
      ensures forall k | 0 <= k < size - 1 :: entries[k] == old(entries[k + 1])
    {
      var index := 1;
      while index < size
        invariant 1 <= index <= size
        invariant forall k | 0 <= k < index - 1 :: entries[k] == old(entries[k + 1])
        invariant forall k | index - 1 <= k < size :: entries[k] == old(entries[k])
      {
        entries[index - 1] := entries[index];
        index := index + 1;
      }
    }
  }

  /** The source's `observation_`. */
  datatype Observation = Observation(
    state: RecoveryState, consecutive: nat, totalRecoveries: nat, plannedRotations: nat, lastDelay: nat,
    terminal: bool, exhausted: bool, active: nat, maxActive: nat)

  class RecoveryCoordinator {
    const publication: P.EventPublication
    const rotationAge: Option<nat>
    const history: FailureHistory
    var generation: nat
    var sourceOpen: Option<nat>
    var sourceQuiesced: bool
    var attempt: Option<nat>
    var observation: Observation
    var runtimeResets: nat
    ghost var calls: seq<Call>
    ghost var refused: nat
    ghost var sinceLive: nat
    ghost var lives: nat
    ghost var resetCalls: seq<ResetCall>

    ghost function Now(): Coord
      reads this, publication, history
    {
      var o := observation;
      Coord(Life(publication.source, publication.generation), generation, sourceOpen, sourceQuiesced, attempt, o.state,
            o.consecutive, o.totalRecoveries, o.plannedRotations, o.lastDelay, o.terminal, o.exhausted, o.active,
            o.maxActive, runtimeResets, calls, refused, history.recorded, sinceLive, lives,
            resetCalls)
    }

    ghost predicate Valid()
      reads this, publication, history, history.entries
    {
      publication.Valid() && history.Valid()
    }

    // It touches neither object, so the coordinator is valid when they are.
    constructor (publication: P.EventPublication, history: FailureHistory, rotationAge: Option<nat>)
      requires publication.source == P.SourceClosed && publication.generation.None? && history.recorded == []
      ensures this.publication == publication && this.history == history && this.rotationAge == rotationAge
      ensures Now() == Initial()
    {
      this.publication, this.history, this.rotationAge := publication, history, rotationAge;
      generation, sourceOpen, sourceQuiesced, attempt, runtimeResets := 1, None, false, None, 0;
      observation := Observation(Starting, 0, 0, 0, 0, false, false, 0, 0);
      calls, refused, sinceLive, lives, resetCalls := [], 0, 0, 0, [];
    }

    method RecordTerminal(r: Round)
      modifies this`observation
      ensures Now() == SetTerminal(old(Now()), r)
    {
      if !r.stopAtTerminal {
        observation := observation.(state := Exhausted, terminal := true);
      }
    }

    method OpenSourceGeneration(view: TransportView) returns (ok: bool)
      requires Valid()
      modifies this`sourceOpen, this`calls, this`refused, publication
      ensures Valid() && (Now(), ok) == OpenSource(old(Now()), view)
    {
      if sourceOpen.Some? || sourceQuiesced || !view.started || !view.running || view.stopped || !view.handshake {
        return false;
      }
      ok := publication.OpenFor(generation);
      if !ok {
        refused := refused + 1;
        return;
      }
      calls := calls + [Opened(generation)];
      sourceOpen := Some(generation);
    }

    method QuiesceAttempt() returns (ok: bool)
      requires Valid()
      modifies this`attempt, this`observation, this`sourceQuiesced, this`calls, this`refused, publication
      ensures Valid() && (Now(), ok) == Quiesce(old(Now()))
    {
      if sourceOpen.Some? && sourceOpen == attempt && !sourceQuiesced {
        ok := true;
        if publication.source != P.Shutdown {
          ok := publication.QuiesceFor(sourceOpen.value);
        }
        if !ok {
          refused := refused + 1;
          return;
        }
        calls := calls + [Quiesced(sourceOpen.value)];
        sourceQuiesced := true;
      }
      attempt := None;
      observation := observation.(active := 0);
      ok := true;
    }

    /** The close callback that joins the coordinator to the publication. */
    method CloseCallback(g: nat, outcome: CloseOutcome, clock: Option<nat>) returns (ok: bool)
      requires publication.Valid()
      modifies publication
      ensures publication.Valid()
      ensures (Life(publication.source, publication.generation), ok)
           == CallClose(old(Life(publication.source, publication.generation)), g, outcome, clock)
    {
      match outcome {
        case GlobalShutdown =>
          publication.ShutdownNow();
          ok := true;
        case Replacement =>
          ok := publication.CloseReplacedFor(g, clock);
        case PermanentFailure =>
          ok := publication.ClosePermanentlyFor(g);
      }
    }

    method CloseSourceGeneration(outcome: CloseOutcome, clock: Option<nat>) returns (ok: bool)
      requires Valid()
      modifies this`sourceOpen, this`sourceQuiesced, this`calls, this`refused, publication
      ensures Valid() && (Now(), ok) == Close(old(Now()), outcome, clock)
    {
      if sourceOpen.None? {
        return true;
      }
      if !sourceQuiesced {
        return false;
      }
      var g := sourceOpen.value;
      ok := CloseCallback(g, outcome, clock);
      if !ok {
        refused := refused + 1;
        return;
      }
      calls := calls + [ClosedAs(g, outcome)];
      sourceOpen := None;
      sourceQuiesced := false;
    }

    method QuiesceThenClose(outcome: CloseOutcome, leaving: Flow) returns (flow: Flow)
      requires Valid()
      modifies this`attempt, this`observation, this`sourceOpen, this`sourceQuiesced, this`calls, this`refused, publication
      ensures Valid() && (Now(), flow) == QuiesceAndClose(old(Now()), outcome, leaving)
    {
      var ok := QuiesceAttempt();
      if ok {
        ok := CloseSourceGeneration(outcome, None);
      }
      flow := if ok then leaving else Threw;
    }

    method WaitForRotationOrRecovery(r: Round, started: nat, deadline: Option<nat>) returns (flow: Flow, planned: bool)
      requires Valid()
      modifies this, publication
      ensures Valid() && (Now(), flow, planned) == WaitPhase(old(Now()), r, started, deadline)
    {
      planned := false;
      if deadline.None? {
        if r.stoppedWaitingForRecovery {
          flow := QuiesceThenClose(GlobalShutdown, LeftByShutdown);
          return;
        }
        return Proceed, false;
      }
      if r.rotationNow.None? || r.rotationNow.value < started {
        flow := QuiesceThenClose(PermanentFailure, Threw);
        return;
      }
      var wait := if r.rotationNow.value >= deadline.value then DeadlineReached else r.rotationWait;
      if wait == WaitStopped || (wait == DeadlineReached && r.stopAtRotation) {
        flow := QuiesceThenClose(GlobalShutdown, LeftByShutdown);
        return;
      }
      if wait == DeadlineReached {
        observation := observation.(state := Rotating);
        planned := true;
      }
      flow := Proceed;
    }

    /** Other threads use the source; the service may shut it down. */
    method OthersRun(ops: seq<P.Op>, shutdown: bool)
      requires Valid() && forall i | 0 <= i < |ops| :: P.Foreign(ops[i])
      modifies publication
      ensures Valid() && Now() == OutsideShutdown(old(Now()), shutdown)
    {
      publication.Interleave(ops);
      if shutdown {
        publication.ShutdownNow();
      }
    }

    method RunAttempt(r: Round, started: nat, deadline: Option<nat>) returns (flow: Flow, planned: bool)
      requires Valid() && RoundOk(r)
      modifies this, publication
      ensures Valid() && (Now(), flow, planned) == LivePhase(old(Now()), r, started, deadline)
    {
      planned := false;
      var ok := OpenSourceGeneration(r.opening);
      if !ok {
        return Threw, false;
      }
      OthersRun(r.foreign, r.outsideShutdown);
      flow, planned := WatchAttempt(r, started, deadline);
    }

    method WatchAttempt(r: Round, started: nat, deadline: Option<nat>) returns (flow: Flow, planned: bool)
      requires Valid()
      modifies this, publication
      ensures Valid() && (Now(), flow, planned) == WatchPhase(old(Now()), r, started, deadline)
    {
      planned := false;
      if r.waitLive.None? {
        flow := QuiesceThenClose(GlobalShutdown, LeftByShutdown);
        return;
      }
      if r.waitLive.value.state != Live {
        return Proceed, false;
      }
      if r.qualified.None? {
        return Threw, false;
      }
      if !Qualified(r.qualified.value, r.qualifiedTransport) || r.stopAtMark {
        return Proceed, false;
      }
      observation := observation.(state := MarkedLive, consecutive := 0);
      sinceLive, lives := 0, lives + 1;
      flow, planned := WaitForRotationOrRecovery(r, started, deadline);
    }

    method RotateOwner(r: Round) returns (flow: Flow)
      requires Valid()
      modifies this, publication
      ensures Valid() && (Now(), flow) == PlannedPhase(old(Now()), r)
    {
      if r.stopAtCut {
        var ok := CloseSourceGeneration(GlobalShutdown, None);
        return if ok then LeftByShutdown else Threw;
      }
      var ok := CloseSourceGeneration(Replacement, r.closeClock);
      if !ok {
        return Threw;
      }
      resetCalls := resetCalls + [ResetCall(true, r.plannedReset)];
      if !r.plannedReset {
        RecordTerminal(r);
        return LeftTerminal;
      }
      runtimeResets := runtimeResets + 1;
      generation := generation + 1;
      observation := observation.(plannedRotations := observation.plannedRotations + 1, state := Starting);
      flow := NextRound;
    }

    /** False stands for the exception of a delay outside the table. */
    method CommitBackoff(minimum: Option<nat>) returns (ok: bool)
      modifies this`observation
      ensures var attempt := old(observation).consecutive + 1;
              var delay := ChosenDelay(attempt, minimum);
              && ok == delay.Some?
              && observation == if ok then old(observation).(consecutive := attempt, lastDelay := delay.value, state := Backoff)
                                else old(observation).(consecutive := attempt)
    {
      observation := observation.(consecutive := observation.consecutive + 1);
      var normal := NormalBackoffDelay(observation.consecutive);
      if normal.None? {
        return false;
      }
      var delay := normal.value;
      if minimum.Some? && delay < minimum.value {
        delay := minimum.value;
      }
      observation := observation.(lastDelay := delay, state := Backoff);
      ok := true;
    }

    method Retry(r: Round, minimum: Option<nat>) returns (flow: Flow)
      requires Valid()
      modifies this, publication
      ensures Valid() && (Now(), flow) == RetryPhase(old(Now()), r, minimum)
    {
      var ok := CloseSourceGeneration(Replacement, r.closeClock);
      if !ok {
        return Threw;
      }
      flow := BackOffAndReset(r, minimum);
    }

    method BackOffAndReset(r: Round, minimum: Option<nat>) returns (flow: Flow)
      requires Valid()
      modifies this
      ensures Valid() && (Now(), flow) == BackoffPhase(old(Now()), r, minimum)
    {
      var ok := CommitBackoff(minimum);
      if !ok {
        return Threw;
      }
      if r.stopInBackoff {
        return LeftByShutdown;
      }
      observation := observation.(state := Recovering);
      flow := RecoverOwner(r);
    }

    method RecoverOwner(r: Round) returns (flow: Flow)
      modifies this`observation, this`runtimeResets, this`generation, this`resetCalls
      ensures (Now(), flow) == RecoverPhase(old(Now()), r)
    {
      if r.stopInRecovering {
        return LeftByShutdown;
      }
      resetCalls := resetCalls + [ResetCall(false, r.recoveryReset)];
      if !r.recoveryReset {
        RecordTerminal(r);
        return LeftTerminal;
      }
      runtimeResets := runtimeResets + 1;
      generation := generation + 1;
      observation := observation.(totalRecoveries := observation.totalRecoveries + 1);
      flow := NextRound;
    }

    method HandleFailure(r: Round, runtime: RuntimeView) returns (flow: Flow)
      requires Valid()
      modifies this, history, history.entries, publication
      ensures Valid() && (Now(), flow) == FailurePhase(old(Now()), r, runtime)
    {
      var decision := ClassifyFailure(runtime, r.quiesced);
      history.Record(Diagnostic(generation, decision.cause, r.quiesced.terminalError, runtime));
      sinceLive := sinceLive + 1;
      assert Now() == Recorded(old(Now()), r, runtime);
      if !decision.recoverable {
        var ok := CloseSourceGeneration(PermanentFailure, None);
        if !ok {
          return Threw;
        }
        RecordTerminal(r);
        return LeftTerminal;
      }
      if r.stopAtCommit {
        var ok := CloseSourceGeneration(GlobalShutdown, None);
        return if ok then LeftByShutdown else Threw;
      }
      if observation.consecutive >= MAX_RECOVERY_ATTEMPTS {
        var ok := CloseSourceGeneration(PermanentFailure, None);
        if !ok {
          return Threw;
        }
        observation := observation.(state := Exhausted, terminal := true, exhausted := true);
        return LeftTerminal;
      }
      flow := Retry(r, decision.minimumDelay);
    }

    method HandleCut(r: Round, planned: bool) returns (flow: Flow)
      requires Valid()
      modifies this, history, history.entries, publication
      ensures Valid() && (Now(), flow) == CutPhase(old(Now()), r, planned)
    {
      if r.finalRuntime.None? {
        return Threw;
      }
      var runtime := r.finalRuntime.value;
      if r.quiesced.terminalError.Some? && runtime.state == Live && runtime.fault.None? {
        if !r.faultAccepted {
          var ok := CloseSourceGeneration(PermanentFailure, None);
          if !ok {
            return Threw;
          }
          RecordTerminal(r);
          return LeftTerminal;
        }
        if r.finalRuntimeAfterFault.None? {
          return Threw;
        }
        runtime := r.finalRuntimeAfterFault.value;
      }
      if planned && CleanPlannedCut(runtime, r.quiesced) {
        flow := RotateOwner(r);
      } else {
        flow := HandleFailure(r, runtime);
      }
    }

    method EndAttempt(r: Round, planned: bool) returns (flow: Flow)
      requires Valid() && RoundOk(r)
      modifies this, history, history.entries, publication
      ensures Valid() && (Now(), flow) == EndPhase(old(Now()), r, planned)
    {
      var ok := QuiesceAttempt();
      if !ok {
        return Threw;
      }
      OthersRun(r.foreignAfter, false);
      if r.stopAfterQuiesce {
        ok := CloseSourceGeneration(GlobalShutdown, None);
        return if ok then LeftByShutdown else Threw;
      }
      flow := HandleCut(r, planned);
    }

    method StartAttempt(r: Round, started: nat, deadline: Option<nat>) returns (flow: Flow)
      requires Valid() && RoundOk(r)
      modifies this, history, history.entries, publication
      ensures Valid() && (Now(), flow) == AttemptPhase(old(Now()), r, started, deadline)
    {
      if r.start == StartThrew {
        return Threw;
      }
      if r.stopAfterStart {
        flow := QuiesceThenClose(GlobalShutdown, LeftByShutdown);
        return;
      }
      var planned := false;
      if r.start == Started {
        flow, planned := RunAttempt(r, started, deadline);
        if flow != Proceed {
          return;
        }
      }
      flow := EndAttempt(r, planned);
    }

    method RunRound(r: Round) returns (flow: Flow)
      requires Valid() && RoundOk(r)
      modifies this, history, history.entries, publication
      ensures Valid() && (Now(), flow) == RoundStep(old(Now()), r, rotationAge)
    {
      if r.stopAtHead {
        return LeftByShutdown;
      }
      if r.factory == FactoryThrew {
        return Threw;
      }
      if r.factory == FactoryNull {
        RecordTerminal(r);
        return LeftTerminal;
      }
      attempt := Some(generation);
      observation := observation.(active := 1, maxActive := Max(observation.maxActive, 1));
      assert Now() == Create(old(Now()));
      flow := StartCreated(r);
    }

    method StartCreated(r: Round) returns (flow: Flow)
      requires Valid() && RoundOk(r)
      modifies this, history, history.entries, publication
      ensures Valid() && (Now(), flow) == CreatedPhase(old(Now()), r, rotationAge)
    {
      if r.stopAfterCreate {
        flow := QuiesceThenClose(GlobalShutdown, LeftByShutdown);
        return;
      }
      if rotationAge.None? {
        flow := StartAttempt(r, 0, None);
        return;
      }
      if r.startClock.None? {
        var ok := QuiesceAttempt();
        return Threw;
      }
      var deadline := PlannedRotationDeadline(r.startClock.value, rotationAge.value);
      if deadline.None? {
        var ok := QuiesceAttempt();
        return Threw;
      }
      flow := StartAttempt(r, r.startClock.value, deadline);
    }

    method CloseSourceAfterException()
      requires Valid()
      modifies this, publication
      ensures Valid() && Now() == CloseAfterException(old(Now()))
    {
      if sourceOpen.None? {
        return;
      }
      if !sourceQuiesced && attempt.Some? {
        var ok := QuiesceAttempt();
        if !ok {
          return;
        }
      }
      var ok := CloseSourceGeneration(PermanentFailure, None);
    }

    method OneTurn(r: Round) returns (exit: Flow)
      requires Valid() && RoundOk(r)
      modifies this, history, history.entries, publication
      ensures Valid() && (Now(), exit) == Turn(old(Now()), r, rotationAge)
    {
      exit := RunRound(r);
      if exit == Threw {
        CloseSourceAfterException();
        RecordTerminal(r);
      }
    }

    method RunRounds(rounds: seq<Round>) returns (exit: Flow)
      requires Valid() && forall i | 0 <= i < |rounds| :: RoundOk(rounds[i])
      modifies this, history, history.entries, publication
      ensures Valid() && (Now(), exit) == Loop(old(Now()), rounds, rotationAge)
    {
      ghost var start := Now();
      var k := 0;
      exit := NextRound;
      while k < |rounds| && exit == NextRound
        invariant k <= |rounds| && Valid()
        invariant exit == NextRound ==> Loop(start, rounds, rotationAge) == Loop(Now(), rounds[k..], rotationAge)
        invariant exit != NextRound ==> Loop(start, rounds, rotationAge) == (Now(), exit)
      {
        LoopStep(Now(), rounds[k..], rotationAge);
        assert rounds[k..][1..] == rounds[k + 1..];
        exit := OneTurn(rounds[k]);
        k := k + 1;
      }
    }

    // The retained entries are the seven failures of the log.
    lemma EvidenceIsRetained()
      requires history.Valid() && SevenFailures(Now())
      ensures history.size == HISTORY_CAPACITY
      ensures forall k | 0 <= k < HISTORY_CAPACITY ::
                history.entries[k].generation == generation + 1 - (HISTORY_CAPACITY - k)
    {
      forall j | 0 <= j < HISTORY_CAPACITY
        ensures history.entries[j].generation == generation + 1 - (HISTORY_CAPACITY - j)
      {
        var recorded := history.recorded;
        assert history.entries[j] == history.entries[..history.size][j] == recorded[|recorded| - HISTORY_CAPACITY + j];
      }
    }

    /**
      The loop over a script of passes. Left or not, nothing stays open, no call
      was refused while the clock worked, the generations are accounted for, and
      exhaustion is backed by seven retained failures.
     */
    method CoordinatorLoop(rounds: seq<Round>) returns (exit: Flow)
      requires Valid() && HeadOk(Now())
      requires forall i | 0 <= i < |rounds| :: RoundOk(rounds[i]) && !rounds[i].outsideShutdown
      modifies this, history, history.entries, publication
      ensures Valid() && (Now(), exit) == Loop(old(Now()), rounds, rotationAge) && Settled(Now())
      ensures (forall i | 0 <= i < |rounds| :: rounds[i].closeClock.Some?) ==> refused == old(refused)
      ensures observation.exhausted ==>
                history.size == HISTORY_CAPACITY &&
                forall k | 0 <= k < HISTORY_CAPACITY ::
                  history.entries[k].generation == generation + 1 - (HISTORY_CAPACITY - k)
    {
      LoopSettles(Now(), rounds, rotationAge);
      exit := RunRounds(rounds);
      if observation.exhausted {
        EvidenceIsRetained();
      }
    }
  }
}
