/**
  The recovery coordinator: generations, bounded retry, planned rotation, the
  failure history, and its calls on the event source.

  Source: src/g5/spot_recovery.cpp, joined to src/g9/event_publication.cpp by
  the callbacks of src/g11/multi_market_runtime.cpp, lines 209-231.

  What the coordinator cannot see (the transport, the runtime's answers, the
  clock, stop requests) is a script: one Round answers every question of one
  pass through the loop. A run is any finite sequence of rounds.
 */
module RecoveryCoordination {
  import opened Prelude
  import opened MarketTypes
  import opened RecoveryPolicy
  import P = EventPublishing

  datatype RecoveryState =
    Starting | MarkedLive | Rotating | Backoff | Recovering | Exhausted | StoppingCoordinator

  datatype FactoryOutcome = FactoryNull | FactoryThrew | FactoryMade
  datatype StartOutcome = Started | NotStarted | StartThrew
  datatype RotationWait = RecoveryRequired | DeadlineReached | WaitStopped
  datatype CloseOutcome = Replacement | PermanentFailure | GlobalShutdown

  datatype Round = Round(
    stopAtHead: bool,
    factory: FactoryOutcome,
    stopAfterCreate: bool,
    startClock: Option<nat>,              // None: the clock threw
    start: StartOutcome,
    stopAfterStart: bool,
    opening: TransportView,
    foreign: seq<P.Op>,                   // other threads, while the source is open
    outsideShutdown: bool,                // the service shuts the source down meanwhile
    waitLive: Option<RuntimeView>,        // None: stopped while waiting
    qualified: Option<RuntimeView>,       // None: observe() timed out and threw
    qualifiedTransport: TransportView,
    stopAtMark: bool,
    rotationNow: Option<nat>,
    rotationWait: RotationWait,
    stopAtRotation: bool,
    stoppedWaitingForRecovery: bool,
    quiesced: TransportView,
    foreignAfter: seq<P.Op>,              // other threads, once the source is quiesced
    stopAfterQuiesce: bool,
    finalRuntime: Option<RuntimeView>,
    faultAccepted: bool,
    finalRuntimeAfterFault: Option<RuntimeView>,
    stopAtCut: bool,
    closeClock: Option<nat>,
    plannedReset: bool,
    stopAtCommit: bool,
    stopInBackoff: bool,
    stopInRecovering: bool,
    stopAtTerminal: bool,                 // a shutdown was requested: the error is not recorded
    recoveryReset: bool)

  ghost predicate RoundOk(r: Round) {
    && (forall i | 0 <= i < |r.foreign| :: P.Foreign(r.foreign[i]))
    && (forall i | 0 <= i < |r.foreignAfter| :: P.Foreign(r.foreignAfter[i]))
  }

  datatype Diagnostic = Diagnostic(generation: nat, cause: Cause, error: Option<NetworkError>, runtime: RuntimeView)

  const HISTORY_CAPACITY: nat := MAX_RECOVERY_ATTEMPTS + 1

  // The lifecycle calls the event source accepted.
  datatype Call = Opened(g: nat) | Quiesced(g: nat) | ClosedAs(g: nat, outcome: CloseOutcome)

  /** The protocol of the event source: open, quiesce, close, with increasing generations. */
  datatype Phase = Idle(last: nat) | IsOpen(g: nat) | IsQuiesced(g: nat) | Broken

  function After(phase: Phase, call: Call): Phase {
    match (phase, call)
    case (Idle(last), Opened(g)) => if last < g then IsOpen(g) else Broken
    case (IsOpen(g), Quiesced(h)) => if g == h then IsQuiesced(g) else Broken
    case (IsQuiesced(g), ClosedAs(h, _)) => if g == h then Idle(g) else Broken
    case _ => Broken
  }

  function Follow(calls: seq<Call>): Phase {
    if calls == [] then Idle(0) else After(Follow(calls[..|calls| - 1]), calls[|calls| - 1])
  }

  lemma FollowOne(calls: seq<Call>, call: Call)
    ensures Follow(calls + [call]) == After(Follow(calls), call)
  {
    assert (calls + [call])[..|calls + [call]| - 1] == calls;
  }

  function Opens(calls: seq<Call>, g: nat): nat {
    if calls == [] then 0 else Opens(calls[..|calls| - 1], g) + if calls[|calls| - 1] == Opened(g) then 1 else 0
  }

  function Quiesces(calls: seq<Call>, g: nat): nat {
    if calls == [] then 0 else Quiesces(calls[..|calls| - 1], g) + if calls[|calls| - 1] == Quiesced(g) then 1 else 0
  }

  function Closes(calls: seq<Call>, g: nat): nat {
    if calls == [] then 0
    else
      var last := calls[|calls| - 1];
      Closes(calls[..|calls| - 1], g) + if last.ClosedAs? && last.g == g then 1 else 0
  }

  /** Following the protocol: each opened generation is quiesced once and closed once, no other ever is. */
  lemma {:induction false} ProtocolBalances(calls: seq<Call>, g: nat)
    requires !Follow(calls).Broken?
    ensures Opens(calls, g) <= 1
    ensures Quiesces(calls, g) == Opens(calls, g) - (if Follow(calls) == IsOpen(g) then 1 else 0)
    ensures Closes(calls, g) == Opens(calls, g) - (if Follow(calls) in {IsOpen(g), IsQuiesced(g)} then 1 else 0)
    ensures match Follow(calls)
            case Idle(last) => last < g ==> Opens(calls, g) == 0
            case IsOpen(h) => h < g ==> Opens(calls, g) == 0
            case IsQuiesced(h) => h < g ==> Opens(calls, g) == 0
    ensures Follow(calls) == IsOpen(g) || Follow(calls) == IsQuiesced(g) ==> Opens(calls, g) == 1
    decreases |calls|
  {
    if calls != [] {
      ProtocolBalances(calls[..|calls| - 1], g);
    }
  }

  // ---------------------------------------------------------------- the callbacks

  /** What the lifecycle callbacks read and change of the event source. */
  datatype Life = Life(source: P.SourceState, generation: Option<nat>)

  function CallOpen(l: Life, g: nat): (Life, bool) {
    if g == 0 || l.source != P.SourceClosed || (l.generation.Some? && g <= l.generation.value) then (l, false)
    else (Life(P.Open, Some(g)), true)
  }

  function CallQuiesce(l: Life, g: nat): (Life, bool) {
    if l.source == P.Shutdown then (l, true)
    else if l.source != P.Open || l.generation != Some(g) then (l, false)
    else (l.(source := P.Quiesced), true)
  }

  function CallClose(l: Life, g: nat, outcome: CloseOutcome, clock: Option<nat>): (Life, bool) {
    match outcome
    case GlobalShutdown => (l.(source := P.Shutdown), true)
    case Replacement =>
      if clock.None? || l.source != P.Quiesced || l.generation != Some(g) then (l, false)
      else (l.(source := P.SourceClosed), true)
    case PermanentFailure =>
      if l.source != P.Quiesced || l.generation != Some(g) then (l, false)
      else (l.(source := P.PermanentlyClosed), true)
  }

  // ---------------------------------------------------------------- the coordinator's state

  datatype Coord = Coord(
    life: Life,
    generation: nat,
    sourceOpen: Option<nat>,
    sourceQuiesced: bool,
    attempt: Option<nat>,      // the active attempt, by its generation
    state: RecoveryState,
    consecutive: nat,
    totalRecoveries: nat,
    plannedRotations: nat,
    lastDelay: nat,
    terminal: bool,
    exhausted: bool,
    active: nat,
    maxActive: nat,
    runtimeResets: nat,        // the runtime's reset_count
    calls: seq<Call>,          // history, as are the fields below
    refused: nat,
    failures: seq<Diagnostic>,
    sinceLive: nat,            // failures recorded since the last Live marking
    lives: nat,
    resetCalls: seq<ResetCall>)

  /** One call of a reset function of the runtime, and whether it returned Reset. */
  datatype ResetCall = ResetCall(planned: bool, succeeded: bool)

  datatype Flow = Proceed | NextRound | LeftByShutdown | LeftTerminal | Threw

  function Initial(): Coord {
    Coord(Life(P.SourceClosed, None), 1, None, false, None, Starting, 0, 0, 0, 0, false, false, 0, 0, 0, [], 0, [], 0, 0, [])
  }

  function Create(c: Coord): Coord {
    c.(attempt := Some(c.generation), active := 1, maxActive := Max(c.maxActive, 1))
  }

  /** False stands for the exception of a failed open. */
  function OpenSource(c: Coord, view: TransportView): (Coord, bool) {
    if c.sourceOpen.Some? || c.sourceQuiesced || !view.started || !view.running || view.stopped || !view.handshake
    then (c, false)
    else
      var (life, ok) := CallOpen(c.life, c.generation);
      if !ok then (c.(refused := c.refused + 1), false)
      else (c.(life := life, calls := c.calls + [Opened(c.generation)], sourceOpen := Some(c.generation)), true)
  }

  /** Stops the attempt, then quiesces its generation if that was opened. */
  function Quiesce(c: Coord): (Coord, bool) {
    if c.sourceOpen.Some? && c.sourceOpen == c.attempt && !c.sourceQuiesced then
      var g := c.sourceOpen.value;
      var (life, ok) := CallQuiesce(c.life, g);
      if !ok then (c.(refused := c.refused + 1), false)
      else
        (c.(life := life, calls := c.calls + [Quiesced(g)], sourceQuiesced := true, attempt := None, active := 0), true)
    else (c.(attempt := None, active := 0), true)
  }

  function Close(c: Coord, outcome: CloseOutcome, clock: Option<nat>): (Coord, bool) {
    if c.sourceOpen.None? then (c, true)
    else if !c.sourceQuiesced then (c, false)
    else
      var g := c.sourceOpen.value;
      var (life, ok) := CallClose(c.life, g, outcome, clock);
      if !ok then (c.(refused := c.refused + 1), false)
      else
        (c.(life := life, calls := c.calls + [ClosedAs(g, outcome)], sourceOpen := None, sourceQuiesced := false), true)
  }

  function CloseThen(c: Coord, outcome: CloseOutcome, clock: Option<nat>, flow: Flow): (Coord, Flow) {
    var (d, ok) := Close(c, outcome, clock);
    (d, if ok then flow else Threw)
  }

  function QuiesceAndClose(c: Coord, outcome: CloseOutcome, flow: Flow): (Coord, Flow) {
    var (d, ok) := Quiesce(c);
    if ok then CloseThen(d, outcome, None, flow) else (d, Threw)
  }

  /** The terminal error is recorded unless a shutdown came first. */
  function SetTerminal(c: Coord, r: Round): Coord {
    if r.stopAtTerminal then c else GiveUp(c)
  }

  function GiveUp(c: Coord): Coord {
    c.(state := Exhausted, terminal := true)
  }

  predicate Qualified(runtime: RuntimeView, transport: TransportView) {
    && runtime.state == Live && runtime.status == Synchronized && runtime.fault.None?
    && transport.running && !transport.stopped && transport.terminalError.None?
    && transport.handshake && transport.depthFetched
  }

  function MarkLive(c: Coord): Coord {
    c.(state := MarkedLive, consecutive := 0, sinceLive := 0, lives := c.lives + 1)
  }

  /** After Live was marked: waits for the rotation deadline or for trouble. The flag: a rotation is due. */
  function WaitPhase(c: Coord, r: Round, started: nat, deadline: Option<nat>): (Coord, Flow, bool) {
    if deadline.None? then
      if r.stoppedWaitingForRecovery then
        var (d, flow) := QuiesceAndClose(c, GlobalShutdown, LeftByShutdown); (d, flow, false)
      else (c, Proceed, false)
    else if r.rotationNow.None? || r.rotationNow.value < started then
      var (d, flow) := QuiesceAndClose(c, PermanentFailure, Threw); (d, flow, false)
    else
      var wait := if r.rotationNow.value >= deadline.value then DeadlineReached else r.rotationWait;
      if wait == WaitStopped || (wait == DeadlineReached && r.stopAtRotation) then
        var (d, flow) := QuiesceAndClose(c, GlobalShutdown, LeftByShutdown); (d, flow, false)
      else if wait == DeadlineReached then (c.(state := Rotating), Proceed, true)
      else (c, Proceed, false)
  }

  function OutsideShutdown(c: Coord, happens: bool): Coord {
    if happens then c.(life := c.life.(source := P.Shutdown)) else c
  }

  /** The open generation is watched until it is Live, and then until it ends. */
  function WatchPhase(c: Coord, r: Round, started: nat, deadline: Option<nat>): (Coord, Flow, bool) {
    if r.waitLive.None? then
      var (d, flow) := QuiesceAndClose(c, GlobalShutdown, LeftByShutdown); (d, flow, false)
    else if r.waitLive.value.state != Live then (c, Proceed, false)
    else if r.qualified.None? then (c, Threw, false)
    else if !Qualified(r.qualified.value, r.qualifiedTransport) || r.stopAtMark then (c, Proceed, false)
    else WaitPhase(MarkLive(c), r, started, deadline)
  }

  /** From a started attempt to the end of its waiting. */
  function LivePhase(c: Coord, r: Round, started: nat, deadline: Option<nat>): (Coord, Flow, bool) {
    var (opened', ok) := OpenSource(c, r.opening);
    if !ok then (opened', Threw, false)
    else
      WatchPhase(OutsideShutdown(opened', r.outsideShutdown), r, started, deadline)
  }

  /** A healthy generation is replaced. */
  function PlannedPhase(c: Coord, r: Round): (Coord, Flow) {
    if r.stopAtCut then CloseThen(c, GlobalShutdown, None, LeftByShutdown)
    else
      var (d, ok) := Close(c, Replacement, r.closeClock);
      if !ok then (d, Threw)
      else
        var called := d.(resetCalls := d.resetCalls + [ResetCall(true, r.plannedReset)]);
        if !r.plannedReset then (SetTerminal(called, r), LeftTerminal)
        else
          (called.(runtimeResets := d.runtimeResets + 1, plannedRotations := d.plannedRotations + 1,
                   generation := d.generation + 1, state := Starting), NextRound)
  }

  function Recorded(c: Coord, r: Round, runtime: RuntimeView): Coord {
    var cause := ClassifyFailure(runtime, r.quiesced).cause;
    c.(failures := c.failures + [Diagnostic(c.generation, cause, r.quiesced.terminalError, runtime)],
       sinceLive := c.sinceLive + 1)
  }

  /** None stands for the exception of a delay outside the table. */
  function ChosenDelay(attempt: nat, minimum: Option<nat>): Option<nat> {
    var normal := NormalBackoffDelay(attempt);
    if normal.None? then None
    else if minimum.Some? then Some(Max(normal.value, minimum.value))
    else normal
  }

  function BackoffPhase(c: Coord, r: Round, minimum: Option<nat>): (Coord, Flow) {
    var d := c.(consecutive := c.consecutive + 1);
    var delay := ChosenDelay(d.consecutive, minimum);
    if delay.None? then (d, Threw)
    else
      var e := d.(lastDelay := delay.value, state := Backoff);
      if r.stopInBackoff then (e, LeftByShutdown) else RecoverPhase(e.(state := Recovering), r)
  }

  /** The owner is reset for the next generation. */
  function RecoverPhase(c: Coord, r: Round): (Coord, Flow) {
    if r.stopInRecovering then (c, LeftByShutdown)
    else
      var called := c.(resetCalls := c.resetCalls + [ResetCall(false, r.recoveryReset)]);
      if !r.recoveryReset then (SetTerminal(called, r), LeftTerminal)
      else
        (called.(runtimeResets := c.runtimeResets + 1, generation := c.generation + 1,
                 totalRecoveries := c.totalRecoveries + 1), NextRound)
  }

  function RetryPhase(c: Coord, r: Round, minimum: Option<nat>): (Coord, Flow) {
    var (d, ok) := Close(c, Replacement, r.closeClock);
    if !ok then (d, Threw) else BackoffPhase(d, r, minimum)
  }

  /** An unplanned end of a generation: record it, then retry within the bound or give up. */
  function FailurePhase(c: Coord, r: Round, runtime: RuntimeView): (Coord, Flow) {
    var decision := ClassifyFailure(runtime, r.quiesced);
    var d := Recorded(c, r, runtime);
    if !decision.recoverable then
      var (e, flow) := CloseThen(d, PermanentFailure, None, LeftTerminal);
      (if flow == LeftTerminal then SetTerminal(e, r) else e, flow)
    else if r.stopAtCommit then CloseThen(d, GlobalShutdown, None, LeftByShutdown)
    else if d.consecutive >= MAX_RECOVERY_ATTEMPTS then
      var (e, flow) := CloseThen(d, PermanentFailure, None, LeftTerminal);
      (if flow == LeftTerminal then GiveUp(e).(exhausted := true) else e, flow)
    else RetryPhase(d, r, decision.minimumDelay)
  }

  /** After the attempt was stopped and the owner observed. */
  function CutPhase(c: Coord, r: Round, planned: bool): (Coord, Flow) {
    if r.finalRuntime.None? then (c, Threw)
    else
      var runtime := r.finalRuntime.value;
      var reflected := r.quiesced.terminalError.Some? && runtime.state == Live && runtime.fault.None?;
      if reflected && !r.faultAccepted then
        var (d, flow) := CloseThen(c, PermanentFailure, None, LeftTerminal);
        (if flow == LeftTerminal then SetTerminal(d, r) else d, flow)
      else if reflected && r.finalRuntimeAfterFault.None? then (c, Threw)
      else
        var cut := if reflected then r.finalRuntimeAfterFault.value else runtime;
        if planned && CleanPlannedCut(cut, r.quiesced) then PlannedPhase(c, r)
        else FailurePhase(c, r, cut)
  }

  function EndPhase(c: Coord, r: Round, planned: bool): (Coord, Flow) {
    var (d, ok) := Quiesce(c);
    if !ok then (d, Threw)
    else if r.stopAfterQuiesce then CloseThen(d, GlobalShutdown, None, LeftByShutdown)
    else CutPhase(d, r, planned)
  }

  function AttemptPhase(c: Coord, r: Round, started: nat, deadline: Option<nat>): (Coord, Flow) {
    if r.start == StartThrew then (c, Threw)
    else if r.stopAfterStart then QuiesceAndClose(c, GlobalShutdown, LeftByShutdown)
    else if r.start == NotStarted then EndPhase(c, r, false)
    else
      var (d, flow, planned) := LivePhase(c, r, started, deadline);
      if flow != Proceed then (d, flow) else EndPhase(d, r, planned)
  }

  /** The attempt exists: sample the clock for its rotation deadline and start it. */
  function CreatedPhase(c: Coord, r: Round, rotationAge: Option<nat>): (Coord, Flow) {
    if r.stopAfterCreate then QuiesceAndClose(c, GlobalShutdown, LeftByShutdown)
    else if rotationAge.None? then AttemptPhase(c, r, 0, None)
    else if r.startClock.None? || PlannedRotationDeadline(r.startClock.value, rotationAge.value).None? then
      (Quiesce(c).0, Threw)
    else AttemptPhase(c, r, r.startClock.value, PlannedRotationDeadline(r.startClock.value, rotationAge.value))
  }

  /** One pass through the coordinator's loop. */
  function RoundStep(c: Coord, r: Round, rotationAge: Option<nat>): (Coord, Flow) {
    if r.stopAtHead then (c, LeftByShutdown)
    else if r.factory == FactoryThrew then (c, Threw)
    else if r.factory == FactoryNull then (SetTerminal(c, r), LeftTerminal)
    else CreatedPhase(Create(c), r, rotationAge)
  }

  function CloseAfterException(c: Coord): Coord {
    if c.sourceOpen.None? then c
    else
      var (d, ok) := if !c.sourceQuiesced && c.attempt.Some? then Quiesce(c) else (c, true);
      if ok then Close(d, PermanentFailure, None).0 else d
  }

  /** One pass; an exception is caught and made terminal. */
  function Turn(c: Coord, r: Round, rotationAge: Option<nat>): (Coord, Flow) {
    var (d, flow) := RoundStep(c, r, rotationAge);
    if flow == Threw then (SetTerminal(CloseAfterException(d), r), Threw) else (d, flow)
  }

  /** The loop: passes until one leaves it. */
  function Loop(c: Coord, rounds: seq<Round>, rotationAge: Option<nat>): (Coord, Flow)
    decreases |rounds|
  {
    if rounds == [] then (c, NextRound)
    else
      var (d, flow) := Turn(c, rounds[0], rotationAge);
      if flow == NextRound then Loop(d, rounds[1..], rotationAge) else (d, flow)
  }

  lemma LoopStep(c: Coord, rounds: seq<Round>, rotationAge: Option<nat>)
    requires rounds != []
    ensures var (d, flow) := Turn(c, rounds[0], rotationAge);
            Loop(c, rounds, rotationAge) == if flow == NextRound then Loop(d, rounds[1..], rotationAge) else (d, flow)
    ensures Loop(c, [], rotationAge) == (c, NextRound)
  {
  }

  // ---------------------------------------------------------------- invariants

  /** The coordinator and the event source agree on what is open, and calls follow the protocol. */
  ghost predicate Linked(c: Coord) {
    var last := if c.life.generation.Some? then c.life.generation.value else 0;
    && last <= c.generation
    && (c.sourceOpen.None? ==>
          && !c.sourceQuiesced
          && c.life.source != P.Open && c.life.source != P.Quiesced
          && Follow(c.calls) == Idle(last))
    && (c.sourceOpen.Some? ==>
          && c.sourceOpen.value == c.generation
          && c.life.generation == c.sourceOpen
          && c.life.source == (if c.sourceQuiesced then P.Quiesced else P.Open)
          && (!c.sourceQuiesced ==> c.attempt.Some?)
          && Follow(c.calls) == if c.sourceQuiesced then IsQuiesced(last) else IsOpen(last))
  }

  /** A publish of the active attempt is never refused because of the source's state. */
  ghost predicate AttemptOk(c: Coord) {
    && (c.attempt.Some? ==>
          && c.attempt.value == c.generation
          && !c.sourceQuiesced
          && (c.sourceOpen.None? ==>
                && c.life.source == P.SourceClosed
                && (c.life.generation.Some? ==> c.life.generation.value < c.generation)))
    && c.active == (if c.attempt.Some? then 1 else 0)
    && c.maxActive <= 1
  }

  ghost predicate Accounted(c: Coord) {
    c.generation == 1 + c.plannedRotations + c.totalRecoveries == 1 + c.runtimeResets
  }

  /** The failures since the last Live marking: one per generation, ending just before `upto`. */
  ghost predicate Evidence(c: Coord, upto: nat) {
    && c.sinceLive <= |c.failures|
    && forall k | |c.failures| - c.sinceLive <= k < |c.failures| ::
         c.failures[k].generation == upto - (|c.failures| - k)
  }

  ghost predicate CoordOk(c: Coord) {
    Linked(c) && AttemptOk(c) && Accounted(c) && c.consecutive <= MAX_RECOVERY_ATTEMPTS
  }

  ghost predicate InRound(c: Coord) {
    && CoordOk(c)
    && c.sinceLive == c.consecutive
    && Evidence(c, c.generation)
    && !c.terminal && !c.exhausted
  }

  /** Nothing is open and nothing runs: what holds at the head of the loop. */
  ghost predicate HeadOk(c: Coord) {
    && InRound(c)
    && c.attempt.None? && c.sourceOpen.None?
    && c.life.source == P.SourceClosed
    && (c.life.generation.Some? ==> c.life.generation.value < c.generation)
  }

  /** The attempt was stopped; its source, if it was opened, is quiesced. */
  ghost predicate AtCut(c: Coord) {
    && InRound(c)
    && c.attempt.None?
    && (c.sourceOpen.None? ==>
          && c.life.source == P.SourceClosed
          && (c.life.generation.Some? ==> c.life.generation.value < c.generation))
  }

  lemma OpenSourceKeeps(c: Coord, view: TransportView)
    requires InRound(c) && c.attempt.Some? && c.sourceOpen.None?
    ensures var (d, ok) := OpenSource(c, view);
            && InRound(d) && d.attempt == c.attempt && d.refused == c.refused && d.lives == c.lives
            && d.consecutive == c.consecutive
            && (ok <==> view.started && view.running && !view.stopped && view.handshake)
            && (ok ==> d.sourceOpen.Some?)
  {
    FollowOne(c.calls, Opened(c.generation));
  }

  lemma QuiesceKeeps(c: Coord)
    requires InRound(c) && c.attempt.Some?
    ensures var (d, ok) := Quiesce(c);
            && ok && AtCut(d) && d.refused == c.refused && d.lives == c.lives && d.consecutive == c.consecutive
            && d.sourceOpen == c.sourceOpen
  {
    if c.sourceOpen.Some? {
      FollowOne(c.calls, Quiesced(c.generation));
    }
  }

  /** Closing a quiesced source fails only for a replacement without a clock sample. */
  lemma CloseEffect(c: Coord, outcome: CloseOutcome, clock: Option<nat>)
    requires CoordOk(c) && c.attempt.None?
    ensures var (d, ok) := Close(c, outcome, clock);
            && CoordOk(d) && d.attempt.None?
            && (ok <==> c.sourceOpen.None? || outcome != Replacement || clock.Some?)
            && (ok ==> d.sourceOpen.None? && d.refused == c.refused)
            && (!ok ==> d == c.(refused := c.refused + 1))
            && d == c.(life := d.life, calls := d.calls, sourceOpen := d.sourceOpen,
                       sourceQuiesced := d.sourceQuiesced, refused := d.refused)
            && (ok && c.sourceOpen.Some? && outcome == Replacement ==> d.life.source == P.SourceClosed)
            && (c.sourceOpen.None? ==> d == c)
            && d.life.generation == c.life.generation
  {
    if c.sourceOpen.Some? {
      FollowOne(c.calls, ClosedAs(c.generation, outcome));
    }
  }
  lemma QuiesceAndCloseEffect(c: Coord, outcome: CloseOutcome, flow: Flow)
    requires InRound(c) && c.attempt.Some? && outcome != Replacement
    ensures var (d, f) := QuiesceAndClose(c, outcome, flow);
            && f == flow && InRound(d) && d.sourceOpen.None? && d.attempt.None? && d.refused == c.refused
            && d.lives == c.lives && d.consecutive == c.consecutive
  {
    QuiesceKeeps(c);
    CloseEffect(Quiesce(c).0, outcome, None);
  }

  lemma WaitPhaseKeeps(c: Coord, r: Round, started: nat, deadline: Option<nat>)
    requires InRound(c) && c.attempt.Some? && c.sourceOpen.Some?
    ensures var (d, flow, planned) := WaitPhase(c, r, started, deadline);
            && InRound(d) && d.refused == c.refused && d.lives == c.lives && d.consecutive == c.consecutive
            && (flow == Proceed ==> d.attempt.Some? && d.sourceOpen.Some?)
            && (flow != Proceed ==> d.sourceOpen.None?)
            && (planned ==> flow == Proceed)
            && flow != NextRound && flow != LeftTerminal
  {
    QuiesceAndCloseEffect(c, GlobalShutdown, LeftByShutdown);
    QuiesceAndCloseEffect(c, PermanentFailure, Threw);
  }

  lemma LivePhaseKeeps(c: Coord, r: Round, started: nat, deadline: Option<nat>)
    requires InRound(c) && c.attempt.Some? && c.sourceOpen.None? && !r.outsideShutdown
    ensures var (d, flow, planned) := LivePhase(c, r, started, deadline);
            && InRound(d) && d.refused == c.refused
            && (flow == Proceed ==> d.attempt.Some? && d.sourceOpen.Some?)
            && (flow == LeftByShutdown ==> d.sourceOpen.None?)
            && (d.lives == c.lives ==> d.consecutive == c.consecutive)
            && (d.lives != c.lives ==> d.lives == c.lives + 1 && d.consecutive == 0)
            && (planned ==> flow == Proceed && d.lives == c.lives + 1)
            && flow != NextRound && flow != LeftTerminal
  {
    OpenSourceKeeps(c, r.opening);
    var (d, ok) := OpenSource(c, r.opening);
    if ok {
      if r.waitLive.None? {
        QuiesceAndCloseEffect(d, GlobalShutdown, LeftByShutdown);
      } else if r.waitLive.value.state == Live && r.qualified.Some?
             && Qualified(r.qualified.value, r.qualifiedTransport) && !r.stopAtMark {
        WaitPhaseKeeps(MarkLive(d), r, started, deadline);
      }
    }
  }

  lemma PlannedPhaseKeeps(c: Coord, r: Round)
    requires AtCut(c) && c.sourceOpen.Some? && c.consecutive == 0
    ensures var (d, flow) := PlannedPhase(c, r);
            && CoordOk(d) && d.attempt.None? && flow != Proceed
            && (flow == NextRound ==> HeadOk(d) && d.lives == c.lives && d.consecutive == 0)
            // A rotation counts one generation, one rotation and one reset of the owner.
            && (flow == NextRound ==>
                  && d.generation == c.generation + 1 && d.runtimeResets == c.runtimeResets + 1
                  && d.plannedRotations == c.plannedRotations + 1 && d.totalRecoveries == c.totalRecoveries)
            && (flow != Threw ==> d.sourceOpen.None?)
            && (flow == Threw ==> r.closeClock.None?)
            && (r.closeClock.Some? ==> d.refused == c.refused)
            && !d.exhausted
  {
    CloseEffect(c, GlobalShutdown, None);
    CloseEffect(c, Replacement, r.closeClock);
  }

  /** A recorded failure extends the evidence by one generation. */
  lemma RecordedEvidence(c: Coord, r: Round, runtime: RuntimeView)
    requires AtCut(c)
    ensures var d := Recorded(c, r, runtime);
            && CoordOk(d) && Evidence(d, d.generation + 1) && d.sinceLive == c.sinceLive + 1 <= |d.failures|
  {
    var d := Recorded(c, r, runtime);
    forall k | |d.failures| - d.sinceLive <= k < |d.failures|
      ensures d.failures[k].generation == d.generation + 1 - (|d.failures| - k)
    {
      if k < |c.failures| {
        assert d.failures[k] == c.failures[k];
      }
    }
  }

  /** Six attempts at most, each after at least its table delay and any Retry-After. */
  lemma RetryPhaseKeeps(c: Coord, r: Round, minimum: Option<nat>)
    requires CoordOk(c) && c.attempt.None? && !c.terminal && !c.exhausted
    requires c.sourceOpen.None? ==>
               && c.life.source == P.SourceClosed
               && (c.life.generation.Some? ==> c.life.generation.value < c.generation)
    requires c.consecutive < MAX_RECOVERY_ATTEMPTS && c.sinceLive == c.consecutive + 1 && Evidence(c, c.generation + 1)
    ensures var (d, flow) := RetryPhase(c, r, minimum);
            && CoordOk(d) && d.attempt.None? && flow != Proceed && d.lives == c.lives && !d.exhausted
            && (flow == NextRound ==> HeadOk(d) && d.consecutive == c.consecutive + 1)
            && (flow != Threw ==> (
                  && d.sourceOpen.None? && d.consecutive == c.consecutive + 1
                  && d.lastDelay >= DELAYS[d.consecutive - 1]
                  && (minimum.Some? ==> d.lastDelay >= minimum.value)
                  && (d.lastDelay == DELAYS[d.consecutive - 1] || minimum == Some(d.lastDelay))))
            && (flow == Threw <==> c.sourceOpen.Some? && r.closeClock.None?)
            && (r.closeClock.Some? ==> d.refused == c.refused)
  {
    CloseEffect(c, Replacement, r.closeClock);
  }

  /**
    Given up exactly on the recoverable failure that follows six recoveries
    without a Live; the evidence is then seven failures, one per generation.
   */
  lemma FailurePhaseKeeps(c: Coord, r: Round, runtime: RuntimeView)
    requires AtCut(c)
    ensures var (d, flow) := FailurePhase(c, r, runtime);
            && CoordOk(d) && d.attempt.None? && flow != Proceed && d.lives == c.lives
            && (flow == NextRound ==> HeadOk(d) && d.consecutive == c.consecutive + 1)
            && (flow != Threw ==> d.sourceOpen.None?)
            && (flow == Threw ==> r.closeClock.None?)
            && (r.closeClock.Some? ==> d.refused == c.refused)
            && d.failures == Recorded(c, r, runtime).failures
            && (d.exhausted <==> ClassifyFailure(runtime, r.quiesced).recoverable && !r.stopAtCommit
                                 && c.consecutive == MAX_RECOVERY_ATTEMPTS)
            && (d.exhausted ==> flow == LeftTerminal && d.terminal && SevenFailures(d))
  {
    var d := Recorded(c, r, runtime);
    RecordedEvidence(c, r, runtime);
    CloseEffect(d, PermanentFailure, None);
    CloseEffect(d, GlobalShutdown, None);
    if d.consecutive < MAX_RECOVERY_ATTEMPTS {
      RetryPhaseKeeps(d, r, ClassifyFailure(runtime, r.quiesced).minimumDelay);
    }
  }

  /** The last seven failures are those of the last seven generations, and all that were recorded since the last Live. */
  ghost predicate SevenFailures(c: Coord) {
    && c.sinceLive == HISTORY_CAPACITY <= |c.failures|
    && forall k | |c.failures| - HISTORY_CAPACITY <= k < |c.failures| ::
         c.failures[k].generation == c.generation + 1 - (|c.failures| - k)
  }

  /** What the end of a generation guarantees. */
  ghost predicate CutOk(c: Coord, r: Round, planned: bool, d: Coord, flow: Flow) {
    && CoordOk(d) && flow != Proceed && d.lives == c.lives
    && (flow == NextRound ==> HeadOk(d) && (planned || d.consecutive == c.consecutive + 1) && d.consecutive <= c.consecutive + 1)
    && (flow != Threw ==> d.sourceOpen.None?)
    && (r.closeClock.Some? ==> d.refused == c.refused)
    && (d.exhausted ==> flow == LeftTerminal && c.consecutive == MAX_RECOVERY_ATTEMPTS && SevenFailures(d))
  }

  lemma FailureCut(c: Coord, r: Round, planned: bool, runtime: RuntimeView)
    requires AtCut(c)
    ensures CutOk(c, r, planned, FailurePhase(c, r, runtime).0, FailurePhase(c, r, runtime).1)
  {
    FailurePhaseKeeps(c, r, runtime);
  }

  lemma PlannedCut(c: Coord, r: Round)
    requires AtCut(c) && c.sourceOpen.Some? && c.consecutive == 0
    ensures CutOk(c, r, true, PlannedPhase(c, r).0, PlannedPhase(c, r).1)
  {
    PlannedPhaseKeeps(c, r);
  }

  lemma CutPhaseKeeps(c: Coord, r: Round, planned: bool)
    requires AtCut(c) && (planned ==> c.sourceOpen.Some? && c.consecutive == 0)
    ensures CutOk(c, r, planned, CutPhase(c, r, planned).0, CutPhase(c, r, planned).1)
  {
    if r.finalRuntime.Some? {
      var runtime := r.finalRuntime.value;
      var reflected := r.quiesced.terminalError.Some? && runtime.state == Live && runtime.fault.None?;
      if reflected && !r.faultAccepted {
        CloseEffect(c, PermanentFailure, None);
      } else if !reflected || r.finalRuntimeAfterFault.Some? {
        var cut := if reflected then r.finalRuntimeAfterFault.value else runtime;
        if planned && CleanPlannedCut(cut, r.quiesced) {
          PlannedCut(c, r);
          assert CutPhase(c, r, planned) == PlannedPhase(c, r);
        } else {
          FailureCut(c, r, planned, cut);
          assert CutPhase(c, r, planned) == FailurePhase(c, r, cut);
        }
      }
    }
  }

  lemma EndPhaseKeeps(c: Coord, r: Round, planned: bool)
    requires InRound(c) && c.attempt.Some? && (planned ==> c.sourceOpen.Some? && c.consecutive == 0)
    ensures CutOk(c, r, planned, EndPhase(c, r, planned).0, EndPhase(c, r, planned).1)
  {
    QuiesceKeeps(c);
    var d := Quiesce(c).0;
    CloseEffect(d, GlobalShutdown, None);
    CutPhaseKeeps(d, r, planned);
  }

  /** What one pass guarantees. */
  ghost predicate PassOk(c: Coord, r: Round, d: Coord, flow: Flow) {
    && CoordOk(d) && flow != Proceed
    && (flow == NextRound ==> HeadOk(d))
    && (flow != Threw ==> d.sourceOpen.None?)
    && (r.closeClock.Some? ==> d.refused == c.refused)
    // Between two Live markings every pass uses up one of the six attempts.
    && (flow == NextRound ==>
          || (d.lives == c.lives && d.consecutive == c.consecutive + 1)
          || (d.lives == c.lives + 1 && d.consecutive <= 1))
    && (d.exhausted ==> flow == LeftTerminal && SevenFailures(d)
                        && ((d.lives == c.lives && c.consecutive == MAX_RECOVERY_ATTEMPTS)))
  }

  lemma AttemptPhaseKeeps(c: Coord, r: Round, started: nat, deadline: Option<nat>)
    requires InRound(c) && c.attempt.Some? && c.sourceOpen.None? && !r.outsideShutdown
    ensures PassOk(c, r, AttemptPhase(c, r, started, deadline).0, AttemptPhase(c, r, started, deadline).1)
  {
    if r.start == StartThrew {
    } else if r.stopAfterStart {
      QuiesceAndCloseEffect(c, GlobalShutdown, LeftByShutdown);
    } else if r.start == NotStarted {
      EndPhaseKeeps(c, r, false);
    } else {
      LivePhaseKeeps(c, r, started, deadline);
      var (d, flow, planned) := LivePhase(c, r, started, deadline);
      if flow == Proceed {
        EndPhaseKeeps(d, r, planned);
      }
    }
  }

  lemma CreatedPhaseKeeps(c: Coord, r: Round, rotationAge: Option<nat>)
    requires InRound(c) && c.attempt.Some? && c.sourceOpen.None? && !r.outsideShutdown
    ensures PassOk(c, r, CreatedPhase(c, r, rotationAge).0, CreatedPhase(c, r, rotationAge).1)
  {
    if r.stopAfterCreate {
      QuiesceAndCloseEffect(c, GlobalShutdown, LeftByShutdown);
    } else if rotationAge.None? {
      AttemptPhaseKeeps(c, r, 0, None);
    } else if r.startClock.None? || PlannedRotationDeadline(r.startClock.value, rotationAge.value).None? {
      QuiesceKeeps(c);
    } else {
      AttemptPhaseKeeps(c, r, r.startClock.value, PlannedRotationDeadline(r.startClock.value, rotationAge.value));
    }
  }

  lemma RoundKeeps(c: Coord, r: Round, rotationAge: Option<nat>)
    requires HeadOk(c) && !r.outsideShutdown
    ensures PassOk(c, r, RoundStep(c, r, rotationAge).0, RoundStep(c, r, rotationAge).1)
  {
    var d := Create(c);
    assert InRound(d);
    CreatedPhaseKeeps(d, r, rotationAge);
  }

  lemma CloseAfterExceptionEffect(c: Coord)
    requires CoordOk(c)
    ensures var d := CloseAfterException(c);
            && CoordOk(d) && d.sourceOpen.None? && d.refused == c.refused && d.exhausted == c.exhausted
  {
    if c.sourceOpen.Some? {
      if !c.sourceQuiesced {
        FollowOne(c.calls, Quiesced(c.generation));
      }
      var d := if !c.sourceQuiesced then Quiesce(c).0 else c;
      CloseEffect(d, PermanentFailure, None);
    }
  }

  /** What is true however the loop is left, or wherever it stands. */
  ghost predicate Settled(d: Coord) {
    && d.sourceOpen.None? && d.life.source != P.Open && d.life.source != P.Quiesced
    && Follow(d.calls).Idle?
    && Accounted(d) && d.maxActive <= 1
    && (d.exhausted ==> SevenFailures(d))
  }

  /**
    Over any number of passes, while nobody else shuts the source down: however
    the loop is left nothing is open, the calls followed the protocol, and with
    a working clock none of them was refused.
   */
  lemma {:induction false} LoopSettles(c: Coord, rounds: seq<Round>, rotationAge: Option<nat>)
    requires HeadOk(c) && forall i | 0 <= i < |rounds| :: !rounds[i].outsideShutdown
    ensures var (d, flow) := Loop(c, rounds, rotationAge);
            && Settled(d)
            && (flow == NextRound ==> HeadOk(d))
            && (d.exhausted ==> flow == LeftTerminal)
            && ((forall i | 0 <= i < |rounds| :: rounds[i].closeClock.Some?) ==> d.refused == c.refused)
    decreases |rounds|
  {
    if rounds != [] {
      var (d, flow) := RoundStep(c, rounds[0], rotationAge);
      RoundKeeps(c, rounds[0], rotationAge);
      if flow == NextRound {
        LoopSettles(d, rounds[1..], rotationAge);
      } else if flow == Threw {
        CloseAfterExceptionEffect(d);
      }
    }
  }

  /** Each generation was opened at most once, and each opened one quiesced and closed exactly once. */
  ghost predicate Balanced(calls: seq<Call>) {
    forall g: nat :: Opens(calls, g) == Quiesces(calls, g) == Closes(calls, g) <= 1
  }

  lemma IdleIsBalanced(calls: seq<Call>)
    requires Follow(calls).Idle?
    ensures Balanced(calls)
  {
    forall g: nat ensures Opens(calls, g) == Quiesces(calls, g) == Closes(calls, g) <= 1 {
      ProtocolBalances(calls, g);
    }
  }

  /** How a recovery that stands in `c` goes on: whatever happens to it, it settles with its calls balanced. */
  ghost predicate RecoverySettles(c: Coord, rounds: seq<Round>, rotationAge: Option<nat>) {
    var (d, flow) := Loop(c, rounds, rotationAge);
    && Settled(d) && Balanced(d.calls)
    && (d.exhausted ==> flow == LeftTerminal)
    && ((forall i | 0 <= i < |rounds| :: rounds[i].closeClock.Some?) ==> d.refused == c.refused)
  }

  ghost predicate OnlyInside(rounds: seq<Round>) {
    forall i | 0 <= i < |rounds| :: !rounds[i].outsideShutdown
  }

  lemma HeadSettles(c: Coord)
    requires HeadOk(c)
    ensures forall rounds: seq<Round>, rotationAge: Option<nat> ::
              OnlyInside(rounds) ==> RecoverySettles(c, rounds, rotationAge)
  {
    forall rounds: seq<Round>, rotationAge: Option<nat> | OnlyInside(rounds)
      ensures RecoverySettles(c, rounds, rotationAge)
    {
      LoopSettles(c, rounds, rotationAge);
      IdleIsBalanced(Loop(c, rounds, rotationAge).0.calls);
    }
  }

  lemma InitialHeadOk()
    ensures HeadOk(Initial())
  {
  }

  /** Every recovery, from its start, over any passes and for any rotation age. */
  lemma EveryRecoverySettles()
    ensures forall rounds: seq<Round>, rotationAge: Option<nat> ::
              OnlyInside(rounds) ==> RecoverySettles(Initial(), rounds, rotationAge)
  {
    InitialHeadOk();
    HeadSettles(Initial());
  }

  /** Passes without a Live marking use up the attempts: there are at most six in a row. */
  lemma {:induction false} AtMostSixBetweenLives(c: Coord, rounds: seq<Round>, rotationAge: Option<nat>)
    requires HeadOk(c) && forall i | 0 <= i < |rounds| :: !rounds[i].outsideShutdown
    requires Loop(c, rounds, rotationAge).1 == NextRound && Loop(c, rounds, rotationAge).0.lives == c.lives
    ensures c.consecutive + |rounds| == Loop(c, rounds, rotationAge).0.consecutive <= MAX_RECOVERY_ATTEMPTS
    decreases |rounds|
  {
    if rounds != [] {
      var (d, flow) := RoundStep(c, rounds[0], rotationAge);
      RoundKeeps(c, rounds[0], rotationAge);
      LivesGrow(d, rounds[1..], rotationAge);
      AtMostSixBetweenLives(d, rounds[1..], rotationAge);
    }
  }

  lemma {:induction false} LivesGrow(c: Coord, rounds: seq<Round>, rotationAge: Option<nat>)
    requires HeadOk(c) && forall i | 0 <= i < |rounds| :: !rounds[i].outsideShutdown
    requires Loop(c, rounds, rotationAge).1 == NextRound
    ensures c.lives <= Loop(c, rounds, rotationAge).0.lives
    decreases |rounds|
  {
    if rounds != [] {
      RoundKeeps(c, rounds[0], rotationAge);
      LivesGrow(RoundStep(c, rounds[0], rotationAge).0, rounds[1..], rotationAge);
    }
  }

  /**
    The hypothesis is needed: once somebody else shuts the source down, the
    coordinator's open is refused, its quiesce tolerated, and its close accepted
    exactly for a global shutdown.
   */
  lemma AfterOutsideShutdown(c: Coord, view: TransportView, outcome: CloseOutcome, clock: Option<nat>)
    requires Linked(c)
    ensures var d := OutsideShutdown(c, true);
            && !OpenSource(d, view).1
            && Quiesce(d).1
            && (c.sourceOpen.Some? && c.sourceQuiesced ==> (Close(d, outcome, clock).1 <==> outcome == GlobalShutdown))
            && (c.sourceOpen.Some? && c.sourceQuiesced ==>
                  (Close(c, outcome, clock).1 <==> outcome != Replacement || clock.Some?))
  {
  }

  // ---------------------------------------------------------------- the callbacks and the publication

  /** What the lifecycle callbacks see of a publication. */
  function LifeOf(p: P.Publication): Life {
    Life(p.source, p.generation)
  }

  /** The callbacks act on the publication's lifecycle as they do on the coordinator's picture of it. */
  lemma CallbacksMatch(p: P.Publication, g: nat, clock: Option<nat>)
    ensures var (q, ok) := P.OpenGeneration(p, g); (LifeOf(q), ok) == CallOpen(LifeOf(p), g)
    ensures p.source != P.Shutdown ==>
              var (q, ok) := P.QuiesceGeneration(p, g); (LifeOf(q), ok) == CallQuiesce(LifeOf(p), g)
    ensures var (q, ok) := P.CloseReplaced(p, g, clock); (LifeOf(q), ok) == CallClose(LifeOf(p), g, Replacement, clock)
    ensures var (q, ok) := P.ClosePermanently(p, g);
            (LifeOf(q), ok) == CallClose(LifeOf(p), g, PermanentFailure, clock)
  {
  }

  /**
    The current attempt's publish never fails because of the source's state:
    whatever the publication did besides its lifecycle, with a clock sample and
    unexhausted channels the event is published, or ignored before the open.
   */
  lemma AttemptPublishes(c: Coord, p: P.Publication, event: P.Event, time: nat)
    requires CoordOk(c) && c.attempt.Some?
    requires P.PublicationOk(p) && LifeOf(p) == c.life
    requires forall i | 0 <= i < |p.heap| :: p.heap[i].next < MAX_UINT64
    ensures P.Publish(p, event, c.attempt.value, Some(time)).1
         == if c.sourceOpen.Some? then P.Published else P.IgnoredBeforeOpen
  {
    P.PublishableExactly(p, event, c.attempt.value, time);
  }
}
