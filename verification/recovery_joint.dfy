/**
  The coordinator and the runtime together: the coordinator is the only one
  that asks the runtime for resets, and what its calls return is what the owner
  thread of the machine answered. Its generation then follows the runtime's own
  reset count.

  Source: src/g5/spot_recovery.cpp, lines 611-646 and 705-739, and
  src/g3/market_runtime.cpp, lines 256-325 and 955-1023.
 */
module RecoveryJoint {
  import opened Prelude
  import opened MarketTypes
  import opened ProjectionLibrary
  import opened RuntimeCore
  import opened MarketRuntime
  import opened RuntimeRequests
  import T = RuntimeTickets
  import R = RuntimeRuns
  import J = RuntimeHistory
  import H = PublicationHub
  import K = RecoveryCoordination
  import Y = RecoveryPolicy
  import W = RuntimeWitnesses

  // What everybody but the coordinator may do.
  predicate OfOthers(e: Event) {
    !e.EvAskReset? && !e.EvTakeReset?
  }

  predicate AllOfOthers(events: seq<Event>) {
    forall i | 0 <= i < |events| :: OfOthers(events[i])
  }

  // ---------------------------------------------------------------- while a call is out

  /** The request in the reset mailbox: as it stands in `s`, where the count was `n` when it was posted. */
  ghost predicate CallStands(n: nat, id: nat, s: Runtime) {
    && s.mail.reset.Some? && s.mail.reset.value.id == id < |s.mail.slots|
    && (if ResetWaiting(s) then s.core.resetCount == n + Flag(s.pc == Reporting)
        else s.core.resetCount == n + Flag(s.mail.slots[id].answer == Some(WasReset)))
  }

  // The request, its answer and the count of resets are as they were.
  ghost predicate ResetUntouched(r: Runtime, s: Runtime) {
    && s.mail.reset == r.mail.reset && s.core.resetCount == r.core.resetCount && AnswersKept(r.mail, s.mail)
    && (ResetWaiting(s) <==> ResetWaiting(r))
    && s.pc != Reporting && r.pc != Reporting
  }

  lemma UntouchedStands(n: nat, id: nat, r: Runtime, s: Runtime)
    requires CallStands(n, id, r) && ResetUntouched(r, s)
    ensures CallStands(n, id, s)
  {
  }

  lemma ItemUntouched(L: Library, r: Runtime, env: Env)
    requires RequestInv(r) && H.Usable(r.hub) && (r.pc.Processing? || r.pc.Replaying? || r.pc.Publishing?)
    ensures ResetUntouched(r, OwnerStep(L, r, env))
  {
    J.ItemStepCounts(L, r, env);
    FaultMailKeeps(r.mail, r.inbox.lastAdmitted);
    if r.pc.Processing? {
      ProcessAtMostFails(L, r, env);
    } else if r.pc.Replaying? {
      ReplayAtMostFails(L, r, env);
    }
  }

  lemma FaultUntouched(L: Library, r: Runtime, env: Env)
    requires RequestInv(r) && H.Usable(r.hub) && r.pc.Faulting?
    ensures ResetUntouched(r, OwnerStep(L, r, env))
  {
    FaultMailKeeps(r.mail, r.inbox.lastAdmitted);
  }

  lemma AdmissionUntouched(L: Library, r: Runtime, env: Env)
    requires RequestInv(r) && H.Usable(r.hub) && HeldAdmission(r.pc).Some?
    ensures ResetUntouched(r, OwnerStep(L, r, env))
  {
    var a := HeldAdmission(r.pc).value;
    if r.pc.Committing? {
      var answer := CommitAnswers(r, a, env);
      CompleteAdmissionKeeps(r.mail, a, r.inbox.lastAdmitted, answer);
    } else {
      CompleteAdmissionKeeps(r.mail, a, r.inbox.lastAdmitted, Refused(ShuttingDownNow));
      CompleteAdmissionKeeps(r.mail, a, r.inbox.lastAdmitted, Refused(NotLive));
    }
  }

  lemma MailboxUntouched(L: Library, r: Runtime, env: Env)
    requires RequestInv(r) && H.Usable(r.hub) && (r.pc.ShuttingDown? || r.pc.Snapshotting?)
    ensures ResetUntouched(r, OwnerStep(L, r, env))
  {
    if r.pc.ShuttingDown? {
      CompleteAllKeeps(r.mail, r.inbox.lastAdmitted, ShuttingDownNow);
    } else {
      AnswerToKeeps(r.mail, None, r.inbox.lastAdmitted, r.mail.snapshot.value.id, Capture(r, env));
    }
  }

  lemma ElsewhereUntouched(L: Library, r: Runtime, env: Env)
    requires RequestInv(r) && H.Usable(r.hub)
    requires r.pc.NotStarted? || r.pc.Booting? || r.pc.Idle? || r.pc.Sweeping? || r.pc.Finishing? || r.pc.Exited?
    ensures ResetUntouched(r, OwnerStep(L, r, env))
  {
  }

  lemma ExitUntouched(L: Library, r: Runtime, env: Env)
    requires RequestInv(r) && H.Usable(r.hub) && r.pc.Exiting?
    ensures ResetUntouched(r, OwnerStep(L, r, env))
  {
    ExitFindsNothing(L, r);
  }

  /** Only the reset places of the owner loop touch the request and the count. */
  lemma OwnerUntouched(L: Library, r: Runtime, env: Env)
    requires RequestInv(r) && H.Usable(r.hub)
    requires !r.pc.Resetting? && !r.pc.Recommitting? && !r.pc.Reporting?
    ensures ResetUntouched(r, OwnerStep(L, r, env))
  {
    if r.pc.Processing? || r.pc.Replaying? || r.pc.Publishing? {
      ItemUntouched(L, r, env);
    } else if r.pc.Faulting? {
      FaultUntouched(L, r, env);
    } else if HeldAdmission(r.pc).Some? {
      AdmissionUntouched(L, r, env);
    } else if r.pc.ShuttingDown? || r.pc.Snapshotting? {
      MailboxUntouched(L, r, env);
    } else if r.pc.Exiting? {
      ExitUntouched(L, r, env);
    } else {
      ElsewhereUntouched(L, r, env);
    }
  }

  /** At those places the request goes from waiting to answered, and the count follows the answer. */
  lemma ResetPlacesStand(L: Library, n: nat, id: nat, r: Runtime, env: Env)
    requires RequestInv(r) && H.Usable(r.hub) && CallStands(n, id, r)
    requires r.pc.Resetting? || r.pc.Recommitting? || r.pc.Reporting?
    ensures CallStands(n, id, OwnerStep(L, r, env))
  {
    if r.pc.Resetting? {
      AnswerToKeeps(r.mail, None, r.inbox.lastAdmitted, id, NotReset(InvalidState));
    } else if r.pc.Reporting? {
      AnswerToKeeps(r.mail, None, r.inbox.lastAdmitted, id, WasReset);
    }
  }

  // Others post their requests behind it.
  lemma CallerUntouched(L: Library, r: Runtime, e: Event)
    requires RequestInv(r) && H.Usable(r.hub) && !e.EvOwner? && OfOthers(e) && !(e.EvJoined? && r.pc.Exited?)
    requires r.pc.NotStarted? <==> !r.gate.started
    ensures var s := Step(L, r, e);
            && s.mail.reset == r.mail.reset && s.core.resetCount == r.core.resetCount
            && |r.mail.slots| <= |s.mail.slots| && s.mail.slots[..|r.mail.slots|] == r.mail.slots
            && (s.pc == Reporting <==> r.pc == Reporting)
  {
  }

  lemma CallerStands(L: Library, n: nat, id: nat, r: Runtime, e: Event)
    requires RequestInv(r) && H.Usable(r.hub) && CallStands(n, id, r) && !e.EvOwner? && OfOthers(e)
    requires r.pc.NotStarted? <==> !r.gate.started
    ensures CallStands(n, id, Step(L, r, e))
  {
    if e.EvJoined? && r.pc.Exited? {
      ExitFindsNothing(L, r);
    } else {
      CallerUntouched(L, r, e);
      var s := Step(L, r, e);
      assert s.mail.slots[..|r.mail.slots|][id] == s.mail.slots[id];
    }
  }

  lemma {:induction false} CallStandsOn(L: Library, n: nat, id: nat, r: Runtime, events: seq<Event>)
    requires LibraryOk(L) && R.Inv(L, r) && CallStands(n, id, r) && AllOfOthers(events)
    ensures R.Inv(L, R.Run(L, r, events)) && CallStands(n, id, R.Run(L, r, events))
    decreases |events|
  {
    if events != [] {
      var e := events[0];
      R.StepKeeps(L, r, e);
      if !e.EvOwner? {
        CallerStands(L, n, id, r, e);
      } else if r.pc.Resetting? || r.pc.Recommitting? || r.pc.Reporting? {
        ResetPlacesStand(L, n, id, r, e.env);
      } else {
        OwnerUntouched(L, r, e.env);
        UntouchedStands(n, id, r, Step(L, r, e));
      }
      CallStandsOn(L, n, id, Step(L, r, e), events[1..]);
    }
  }

  // ---------------------------------------------------------------- while none is out

  lemma NoCallStep(L: Library, r: Runtime, e: Event)
    requires RequestInv(r) && H.Usable(r.hub) && r.mail.reset.None? && OfOthers(e)
    requires r.pc.NotStarted? <==> !r.gate.started
    ensures Step(L, r, e).mail.reset.None? && Step(L, r, e).core.resetCount == r.core.resetCount
  {
    if e.EvOwner? {
      OwnerUntouched(L, r, e.env);
    } else if e.EvJoined? && r.pc.Exited? {
      ExitFindsNothing(L, r);
    } else {
      CallerUntouched(L, r, e);
    }
  }

  /** Without a call of the coordinator no reset happens. */
  lemma {:induction false} NoCallNoReset(L: Library, r: Runtime, events: seq<Event>)
    requires LibraryOk(L) && R.Inv(L, r) && r.mail.reset.None? && AllOfOthers(events)
    ensures var s := R.Run(L, r, events);
            R.Inv(L, s) && s.mail.reset.None? && s.core.resetCount == r.core.resetCount
    decreases |events|
  {
    if events != [] {
      R.StepKeeps(L, r, events[0]);
      NoCallStep(L, r, events[0]);
      NoCallNoReset(L, Step(L, r, events[0]), events[1..]);
    }
  }

  // ---------------------------------------------------------------- a call

  function KindOf(planned: bool): ResetKind {
    if planned then Planned else Recovery
  }

  lemma AskedInv(L: Library, r: Runtime, planned: bool)
    requires LibraryOk(L) && R.Inv(L, r)
    ensures R.Inv(L, AskReset(r, KindOf(planned)).0)
  {
    R.StepKeeps(L, r, EvAskReset(KindOf(planned)));
  }

  /** The runtime when the call has posted its request and `during` has happened. */
  ghost function Waited(L: Library, r: Runtime, planned: bool, during: seq<Event>): Runtime
    requires LibraryOk(L) && R.Inv(L, r)
  {
    AskedInv(L, r, planned);
    R.Run(L, AskReset(r, KindOf(planned)).0, during)
  }

  /** The runtime after a call of a reset function: refused at once, or waited for and taken. */
  ghost function AfterCall(L: Library, r: Runtime, planned: bool, during: seq<Event>): Runtime
    requires LibraryOk(L) && R.Inv(L, r)
  {
    if AskReset(r, KindOf(planned)).1.Some? then r else TakeReset(Waited(L, r, planned, during))
  }

  /** A call returns only when it was refused or its request has an answer; it succeeded exactly on the answer Reset. */
  ghost predicate Returns(L: Library, r: Runtime, call: K.ResetCall, during: seq<Event>)
    requires LibraryOk(L) && R.Inv(L, r)
  {
    var (asked, refusal) := AskReset(r, KindOf(call.planned));
    if refusal.Some? then !call.succeeded
    else
      var s := Waited(L, r, call.planned, during);
      && AllOfOthers(during) && !ResetWaiting(s)
      && s.mail.reset.Some? && s.mail.reset.value.id < |s.mail.slots|
      && (call.succeeded <==> s.mail.slots[s.mail.reset.value.id].answer == Some(WasReset))
  }

  // A call that was posted and waited for.
  lemma WaitedStands(L: Library, r: Runtime, planned: bool, during: seq<Event>)
    requires LibraryOk(L) && R.Inv(L, r) && r.mail.reset.None? && AllOfOthers(during)
    requires AskReset(r, KindOf(planned)).1.None?
    ensures var s := Waited(L, r, planned, during);
            R.Inv(L, s) && CallStands(r.core.resetCount, |r.mail.slots|, s)
  {
    AskedInv(L, r, planned);
    PostedStands(r, planned);
    CallStandsOn(L, r.core.resetCount, |r.mail.slots|, AskReset(r, KindOf(planned)).0, during);
  }

  lemma TakenInv(L: Library, s: Runtime)
    requires LibraryOk(L) && R.Inv(L, s) && s.mail.reset.Some? && !ResetWaiting(s)
    ensures R.Inv(L, TakeReset(s)) && TakeReset(s).mail.reset.None? && TakeReset(s).core == s.core
  {
    R.InvIsUsable(L, s);
    assert Step(L, s, EvTakeReset) == TakeReset(s);
    R.StepKeeps(L, s, EvTakeReset);
  }

  /** A successful call counts one reset of the owner, a refused or failed one none. */
  lemma CallCounts(L: Library, r: Runtime, call: K.ResetCall, during: seq<Event>)
    requires LibraryOk(L) && R.Inv(L, r) && r.mail.reset.None? && Returns(L, r, call, during)
    ensures var s := AfterCall(L, r, call.planned, during);
            && R.Inv(L, s) && s.mail.reset.None?
            && s.core.resetCount == r.core.resetCount + (if call.succeeded then 1 else 0)
  {
    if AskReset(r, KindOf(call.planned)).1.None? {
      WaitedStands(L, r, call.planned, during);
      TakenInv(L, Waited(L, r, call.planned, during));
    }
  }

  lemma PostedStands(r: Runtime, planned: bool)
    requires RequestInv(r) && r.mail.reset.None? && AskReset(r, KindOf(planned)).1.None?
    ensures CallStands(r.core.resetCount, |r.mail.slots|, AskReset(r, KindOf(planned)).0)
  {
  }

  /** A recovery reset is refused exactly when it finds the runtime neither faulted nor out of sync, or on its way out. */
  lemma RefusedExactly(r: Runtime)
    requires r.mail.reset.None?
    ensures AskReset(r, Recovery).1.Some? <==>
            || !r.gate.started || r.gate.stopRequested || r.gate.stopped
            || (r.core.state != Faulted && r.core.state != NeedsResync)
  {
  }

  // ---------------------------------------------------------------- the coordinator's side

  /** At most one reset call in a pass; the coordinator counts it exactly when it succeeded. */
  ghost predicate CallsOnce(c: K.Coord, d: K.Coord) {
    || (d.resetCalls == c.resetCalls && d.runtimeResets == c.runtimeResets)
    || (exists call: K.ResetCall ::
          && d.resetCalls == c.resetCalls + [call]
          && d.runtimeResets == c.runtimeResets + (if call.succeeded then 1 else 0))
  }

  ghost predicate NoCall(c: K.Coord, d: K.Coord) {
    d.resetCalls == c.resetCalls && d.runtimeResets == c.runtimeResets
  }

  lemma QuiesceCallsNone(c: K.Coord)
    ensures NoCall(c, K.Quiesce(c).0)
  {
  }

  lemma CloseCallsNone(c: K.Coord, outcome: K.CloseOutcome, clock: Option<nat>)
    ensures NoCall(c, K.Close(c, outcome, clock).0)
  {
  }

  lemma QuiesceAndCloseCallsNone(c: K.Coord, outcome: K.CloseOutcome, flow: K.Flow)
    ensures NoCall(c, K.QuiesceAndClose(c, outcome, flow).0)
  {
    QuiesceCallsNone(c);
    CloseCallsNone(K.Quiesce(c).0, outcome, None);
  }

  lemma WaitCallsNone(c: K.Coord, r: K.Round, started: nat, deadline: Option<nat>)
    ensures NoCall(c, K.WaitPhase(c, r, started, deadline).0)
  {
    QuiesceAndCloseCallsNone(c, K.GlobalShutdown, K.LeftByShutdown);
    QuiesceAndCloseCallsNone(c, K.PermanentFailure, K.Threw);
  }

  lemma WatchCallsNone(c: K.Coord, r: K.Round, started: nat, deadline: Option<nat>)
    ensures NoCall(c, K.WatchPhase(c, r, started, deadline).0)
  {
    QuiesceAndCloseCallsNone(c, K.GlobalShutdown, K.LeftByShutdown);
    WaitCallsNone(K.MarkLive(c), r, started, deadline);
  }

  lemma LiveCallsNone(c: K.Coord, r: K.Round, started: nat, deadline: Option<nat>)
    ensures NoCall(c, K.LivePhase(c, r, started, deadline).0)
  {
    var open := K.OpenSource(c, r.opening).0;
    assert NoCall(c, open);
    WatchCallsNone(K.OutsideShutdown(open, r.outsideShutdown), r, started, deadline);
  }

  lemma PlannedCallsOnce(c: K.Coord, r: K.Round)
    ensures CallsOnce(c, K.PlannedPhase(c, r).0)
  {
    var d := K.PlannedPhase(c, r).0;
    if !r.stopAtCut && K.Close(c, K.Replacement, r.closeClock).1 {
      assert d.resetCalls == c.resetCalls + [K.ResetCall(true, r.plannedReset)];
    }
  }

  lemma BackoffCallsOnce(c: K.Coord, r: K.Round, minimum: Option<nat>)
    ensures CallsOnce(c, K.BackoffPhase(c, r, minimum).0)
  {
    var d := K.BackoffPhase(c, r, minimum).0;
    if d.resetCalls != c.resetCalls {
      assert d.resetCalls == c.resetCalls + [K.ResetCall(false, r.recoveryReset)];
    }
  }

  lemma NoneThenOnce(c: K.Coord, m: K.Coord, d: K.Coord)
    requires NoCall(c, m) && CallsOnce(m, d)
    ensures CallsOnce(c, d)
  {
  }

  lemma RetryCallsOnce(c: K.Coord, r: K.Round, minimum: Option<nat>)
    ensures CallsOnce(c, K.RetryPhase(c, r, minimum).0)
  {
    CloseCallsNone(c, K.Replacement, r.closeClock);
    var closed := K.Close(c, K.Replacement, r.closeClock).0;
    BackoffCallsOnce(closed, r, minimum);
    NoneThenOnce(c, closed, K.BackoffPhase(closed, r, minimum).0);
  }

  lemma FailureCallsOnce(c: K.Coord, r: K.Round, runtime: RuntimeView)
    ensures CallsOnce(c, K.FailurePhase(c, r, runtime).0)
  {
    var recorded := K.Recorded(c, r, runtime);
    var minimum := Y.ClassifyFailure(runtime, r.quiesced).minimumDelay;
    CloseCallsNone(recorded, K.PermanentFailure, None);
    CloseCallsNone(recorded, K.GlobalShutdown, None);
    RetryCallsOnce(recorded, r, minimum);
    NoneThenOnce(c, recorded, K.RetryPhase(recorded, r, minimum).0);
  }

  lemma CutCallsOnce(c: K.Coord, r: K.Round, planned: bool)
    ensures CallsOnce(c, K.CutPhase(c, r, planned).0)
  {
    if r.finalRuntime.Some? {
      var runtime := r.finalRuntime.value;
      var reflected := r.quiesced.terminalError.Some? && runtime.state == Live && runtime.fault.None?;
      if reflected && !r.faultAccepted {
        CloseCallsNone(c, K.PermanentFailure, None);
      } else if !reflected || r.finalRuntimeAfterFault.Some? {
        PlannedCallsOnce(c, r);
        FailureCallsOnce(c, r, if reflected then r.finalRuntimeAfterFault.value else runtime);
      }
    }
  }

  lemma EndCallsOnce(c: K.Coord, r: K.Round, planned: bool)
    ensures CallsOnce(c, K.EndPhase(c, r, planned).0)
  {
    var stopped := K.Quiesce(c).0;
    CutCallsOnce(stopped, r, planned);
    NoneThenOnce(c, stopped, K.CutPhase(stopped, r, planned).0);
  }

  lemma AttemptCallsOnce(c: K.Coord, r: K.Round, started: nat, deadline: Option<nat>)
    ensures CallsOnce(c, K.AttemptPhase(c, r, started, deadline).0)
  {
    if r.start == K.StartThrew {
    } else if r.stopAfterStart {
      QuiesceAndCloseCallsNone(c, K.GlobalShutdown, K.LeftByShutdown);
    } else if r.start == K.NotStarted {
      EndCallsOnce(c, r, false);
    } else {
      LiveCallsNone(c, r, started, deadline);
      var (d, flow, planned) := K.LivePhase(c, r, started, deadline);
      if flow == K.Proceed {
        EndCallsOnce(d, r, planned);
        NoneThenOnce(c, d, K.EndPhase(d, r, planned).0);
      }
    }
  }

  lemma CreatedCallsOnce(c: K.Coord, r: K.Round, rotationAge: Option<nat>)
    ensures CallsOnce(c, K.CreatedPhase(c, r, rotationAge).0)
  {
    if rotationAge.None? {
      AttemptCallsOnce(c, r, 0, None);
    } else if r.startClock.Some? {
      AttemptCallsOnce(c, r, r.startClock.value, Y.PlannedRotationDeadline(r.startClock.value, rotationAge.value));
    }
  }

  lemma RoundCallsOnce(c: K.Coord, r: K.Round, rotationAge: Option<nat>)
    ensures CallsOnce(c, K.RoundStep(c, r, rotationAge).0)
  {
    var created := K.Create(c);
    CreatedCallsOnce(created, r, rotationAge);
    NoneThenOnce(c, created, K.CreatedPhase(created, r, rotationAge).0);
  }

  lemma ExceptionCallsNone(c: K.Coord)
    ensures NoCall(c, K.CloseAfterException(c))
  {
    QuiesceCallsNone(c);
    CloseCallsNone(c, K.PermanentFailure, None);
    CloseCallsNone(K.Quiesce(c).0, K.PermanentFailure, None);
  }

  lemma TurnCallsOnce(c: K.Coord, r: K.Round, rotationAge: Option<nat>)
    ensures CallsOnce(c, K.Turn(c, r, rotationAge).0)
  {
    RoundCallsOnce(c, r, rotationAge);
    ExceptionCallsNone(K.RoundStep(c, r, rotationAge).0);
  }

  // ---------------------------------------------------------------- both together

  /** One pass of the coordinator and what the runtime went through meanwhile. */
  datatype Pass = Pass(round: K.Round, before: seq<Event>, during: seq<Event>, after: seq<Event>)

  /** The pass's script tells the truth about the runtime: its reset call returned what the owner answered. */
  ghost predicate Truthful(L: Library, c: K.Coord, r: Runtime, p: Pass, rotationAge: Option<nat>)
    requires LibraryOk(L) && R.Inv(L, r)
  {
    && AllOfOthers(p.before) && AllOfOthers(p.after)
    && R.Inv(L, R.Run(L, r, p.before))
    && var d := K.Turn(c, p.round, rotationAge).0;
       |c.resetCalls| < |d.resetCalls| ==> Returns(L, R.Run(L, r, p.before), d.resetCalls[|c.resetCalls|], p.during)
  }

  /** The runtime after the pass. */
  ghost function AfterPass(L: Library, c: K.Coord, r: Runtime, p: Pass, rotationAge: Option<nat>): Runtime
    requires LibraryOk(L) && R.Inv(L, r)
  {
    R.EveryRunKeeps(L, r, p.before);
    var called := R.Run(L, r, p.before);
    var d := K.Turn(c, p.round, rotationAge).0;
    if |c.resetCalls| < |d.resetCalls| then
      var back := AfterCall(L, called, d.resetCalls[|c.resetCalls|].planned, p.during);
      if R.Inv(L, back) then R.Run(L, back, p.after) else back
    else R.Run(L, called, p.after)
  }

  /** Both stand at the head of the loop, and the coordinator has counted the runtime's resets. */
  ghost predicate AtHead(L: Library, c: K.Coord, r: Runtime) {
    K.HeadOk(c) && R.Inv(L, r) && r.mail.reset.None? && c.runtimeResets == r.core.resetCount
  }

  /** A pass keeps the counts together, however it ends. */
  lemma PassKeeps(L: Library, c: K.Coord, r: Runtime, p: Pass, rotationAge: Option<nat>)
    requires LibraryOk(L) && AtHead(L, c, r) && !p.round.outsideShutdown && Truthful(L, c, r, p, rotationAge)
    ensures var (d, flow) := K.Turn(c, p.round, rotationAge);
            var s := AfterPass(L, c, r, p, rotationAge);
            && R.Inv(L, s) && s.mail.reset.None? && d.runtimeResets == s.core.resetCount
            && d.generation == 1 + s.core.resetCount
            && (flow == K.NextRound ==> AtHead(L, d, s))
  {
    var (d, flow) := K.Turn(c, p.round, rotationAge);
    NoCallNoReset(L, r, p.before);
    var called := R.Run(L, r, p.before);
    TurnCallsOnce(c, p.round, rotationAge);
    TurnIsAccounted(c, p.round, rotationAge);
    if |c.resetCalls| < |d.resetCalls| {
      var call := d.resetCalls[|c.resetCalls|];
      CallCounts(L, called, call, p.during);
      NoCallNoReset(L, AfterCall(L, called, call.planned, p.during), p.after);
    } else {
      NoCallNoReset(L, called, p.after);
    }
  }

  lemma TurnIsAccounted(c: K.Coord, r: K.Round, rotationAge: Option<nat>)
    requires K.HeadOk(c) && !r.outsideShutdown
    ensures var (d, flow) := K.Turn(c, r, rotationAge);
            d.generation == 1 + d.runtimeResets && (flow == K.NextRound ==> K.HeadOk(d))
  {
    K.RoundKeeps(c, r, rotationAge);
    K.CloseAfterExceptionEffect(K.RoundStep(c, r, rotationAge).0);
  }

  /** The scripts of all passes, one after the other, tell the truth. */
  ghost predicate AllTruthful(L: Library, c: K.Coord, r: Runtime, passes: seq<Pass>, rotationAge: Option<nat>)
    requires LibraryOk(L) && R.Inv(L, r)
    decreases |passes|
  {
    passes == []
    || (&& !passes[0].round.outsideShutdown && Truthful(L, c, r, passes[0], rotationAge)
        && var (d, flow) := K.Turn(c, passes[0].round, rotationAge);
           var s := AfterPass(L, c, r, passes[0], rotationAge);
           flow == K.NextRound ==> R.Inv(L, s) && AllTruthful(L, d, s, passes[1..], rotationAge))
  }

  /** Where the coordinator and the runtime stand after the passes. */
  ghost function Together(L: Library, c: K.Coord, r: Runtime, passes: seq<Pass>, rotationAge: Option<nat>)
    : (K.Coord, Runtime)
    requires LibraryOk(L) && R.Inv(L, r)
    decreases |passes|
  {
    if passes == [] then (c, r)
    else
      var (d, flow) := K.Turn(c, passes[0].round, rotationAge);
      var s := AfterPass(L, c, r, passes[0], rotationAge);
      if flow == K.NextRound && R.Inv(L, s) then Together(L, d, s, passes[1..], rotationAge) else (d, s)
  }

  lemma {:induction false} PassesKeep(L: Library, c: K.Coord, r: Runtime, passes: seq<Pass>, rotationAge: Option<nat>)
    requires LibraryOk(L) && AtHead(L, c, r) && AllTruthful(L, c, r, passes, rotationAge)
    ensures var (d, s) := Together(L, c, r, passes, rotationAge);
            R.Inv(L, s) && d.generation == 1 + s.core.resetCount
    decreases |passes|
  {
    if passes != [] {
      PassKeeps(L, c, r, passes[0], rotationAge);
      var (d, flow) := K.Turn(c, passes[0].round, rotationAge);
      if flow == K.NextRound {
        PassesKeep(L, d, AfterPass(L, c, r, passes[0], rotationAge), passes[1..], rotationAge);
      }
    }
  }

  /** From here on, the generation is one more than the runtime's own reset count, whenever a loop head or an exit is reached. */
  ghost predicate GenerationFollows(L: Library, c: K.Coord, r: Runtime, passes: seq<Pass>, rotationAge: Option<nat>)
    requires LibraryOk(L) && R.Inv(L, r)
  {
    AllTruthful(L, c, r, passes, rotationAge) ==>
      var (d, s) := Together(L, c, r, passes, rotationAge);
      R.Inv(L, s) && d.generation == 1 + s.core.resetCount
  }

  lemma HeadFollows(L: Library, c: K.Coord, r: Runtime)
    requires LibraryOk(L) && AtHead(L, c, r)
    ensures forall passes: seq<Pass>, rotationAge: Option<nat> :: GenerationFollows(L, c, r, passes, rotationAge)
  {
    forall passes: seq<Pass>, rotationAge: Option<nat> | AllTruthful(L, c, r, passes, rotationAge)
      ensures GenerationFollows(L, c, r, passes, rotationAge)
    {
      PassesKeep(L, c, r, passes, rotationAge);
    }
  }

  lemma BothStartAtHead(L: Library, limits: Limits)
    requires LibraryOk(L) && LimitsOk(limits)
    ensures AtHead(L, K.Initial(), NewRuntime(L, limits))
  {
    R.NewRuntimeInv(L, limits);
    K.InitialHeadOk();
  }

  /**
    Generation accounting across both parts: in every run of a new coordinator
    with a new runtime, in which nobody else asks for resets, the coordinator's
    generation is one more than the runtime's own reset count, at every loop
    head and on every exit, refused and failed resets included.
   */
  lemma GenerationFollowsResets(L: Library, limits: Limits)
    requires LibraryOk(L) && LimitsOk(limits)
    ensures R.Inv(L, NewRuntime(L, limits))
    ensures forall passes: seq<Pass>, rotationAge: Option<nat> ::
              GenerationFollows(L, K.Initial(), NewRuntime(L, limits), passes, rotationAge)
  {
    BothStartAtHead(L, limits);
    HeadFollows(L, K.Initial(), NewRuntime(L, limits));
  }

  /**
    A retryable failure that finds the runtime neither faulted nor out of sync:
    the reset call is refused, and the recovery ends there, without a new
    generation and without being exhausted.
   */
  lemma RefusedResetEnds(L: Library, c: K.Coord, r: Runtime, round: K.Round, minimum: Option<nat>, during: seq<Event>)
    requires LibraryOk(L) && R.Inv(L, r) && r.mail.reset.None?
    requires r.core.state != Faulted && r.core.state != NeedsResync
    requires c.consecutive < Y.MAX_RECOVERY_ATTEMPTS && !c.exhausted && !round.stopInBackoff && !round.stopInRecovering
    requires Returns(L, r, K.ResetCall(false, round.recoveryReset), during)
    ensures var (d, flow) := K.BackoffPhase(c, round, minimum);
            && flow == K.LeftTerminal && d.generation == c.generation && !d.exhausted
            && d.resetCalls == c.resetCalls + [K.ResetCall(false, false)]
            && AfterCall(L, r, false, during) == r
  {
    RefusedExactly(r);
  }

  // ---------------------------------------------------------------- a call that succeeds

  // The owner selects, checks, commits and reports.
  const OWNER_ANSWERS := [R.ANY_ENV, R.ANY_ENV, R.ANY_ENV, R.ANY_ENV]

  function AnsweringStates(L: Library, limits: Limits): seq<Runtime> {
    var states := W.LosingStates(L, limits);
    [states[4], states[5], states[6], states[7],
     states[7].(mail := AnswerReset(states[7].mail, WasReset), pc := Idle)]
  }

  lemma AnsweringLeads(L: Library, limits: Limits)
    requires LibraryOk(L) && LimitsOk(limits)
    ensures W.Leads(L, AnsweringStates(L, limits), OWNER_ANSWERS)
  {
    W.RecoverySteps(L, limits);
    var states := AnsweringStates(L, limits);
    assert Step(L, states[0], OWNER_ANSWERS[0]) == states[1];
    assert Step(L, states[1], OWNER_ANSWERS[1]) == states[2];
    assert Step(L, states[2], OWNER_ANSWERS[2]) == states[3];
    assert Step(L, states[3], OWNER_ANSWERS[3]) == states[4];
  }

  lemma AskedFirst(L: Library, limits: Limits)
    ensures AskReset(W.LosingStates(L, limits)[3], Recovery) == (AnsweringStates(L, limits)[0], None)
  {
    var r := W.LosingStates(L, limits)[3];
    assert AskReset(r, Recovery).0.mail == W.ONE_RESET;
  }

  lemma AnsweredLast(L: Library, limits: Limits)
    ensures var s := AnsweringStates(L, limits)[4];
            && !ResetWaiting(s) && s.mail.reset.Some? && s.mail.reset.value.id == 0 < |s.mail.slots|
            && s.mail.slots[0].answer == Some(WasReset)
  {
    assert AnsweringStates(L, limits)[3].mail == W.ONE_RESET;
    assert Unanswered(W.ONE_RESET, 0);
  }

  lemma AnswersAreWaitedFor(L: Library, limits: Limits)
    requires LibraryOk(L) && LimitsOk(limits) && R.Inv(L, W.LosingStates(L, limits)[3])
    ensures Waited(L, W.LosingStates(L, limits)[3], false, OWNER_ANSWERS) == AnsweringStates(L, limits)[4]
  {
    AskedInv(L, W.LosingStates(L, limits)[3], false);
    AskedFirst(L, limits);
    AnsweringLeads(L, limits);
    W.LeadsIsRun(L, AnsweringStates(L, limits), OWNER_ANSWERS);
  }

  /** A runtime that a run reaches faulted lets a recovery call return with success. */
  lemma RecoveryCallCanSucceed(L: Library, limits: Limits)
    requires LibraryOk(L) && LimitsOk(limits) && 2 <= limits.ingress
    ensures R.Inv(L, W.LosingStates(L, limits)[3])
    ensures Returns(L, W.LosingStates(L, limits)[3], K.ResetCall(false, true), OWNER_ANSWERS)
  {
    W.FaultedIsReached(L, limits);
    AskedFirst(L, limits);
    AnswersAreWaitedFor(L, limits);
    AnsweredLast(L, limits);
  }
}
