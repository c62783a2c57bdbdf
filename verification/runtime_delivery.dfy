/**
  The machine refines the core: letting the owner work off one input is
  delivering that input to the core in one step. So buffering before the
  snapshot is invisible, and a reset runtime behaves like a new one, as
  far as the machine's steps and its leftover subscribers allow.
 */
module RuntimeDelivery {
  import opened Prelude
  import opened MarketTypes
  import opened ProjectionLibrary
  import opened RuntimeCore
  import opened MarketRuntime
  import opened RuntimeTickets
  import opened RuntimeRequests
  import opened RuntimeSessions
  import opened RuntimeRuns
  import H = PublicationHub
  import C = OrderBookChannel

  // ---------------------------------------------------------------- sessions that are over

  /** A subscriber that is over but not closed still needs the clock of every publication. */
  ghost predicate Lingering(h: H.Hub) {
    exists i :: 0 <= i < |h.subscriptions| && H.SweepOne(h.subscriptions[i]).resident
  }

  ghost predicate SameSessions(h: H.Hub, k: H.Hub) {
    && |k.subscriptions| == |h.subscriptions|
    && forall i | 0 <= i < |h.subscriptions| ::
         && k.subscriptions[i].session == h.subscriptions[i].session
         && H.SweepOne(k.subscriptions[i]).resident == H.SweepOne(h.subscriptions[i]).resident
  }

  lemma SameSessionsKeep(h: H.Hub, k: H.Hub)
    requires SameSessions(h, k)
    ensures H.NoneActive(h) ==> H.NoneActive(k)
    ensures Lingering(h) <==> Lingering(k)
  {
    forall i | 0 <= i < |h.subscriptions| && H.State(h.subscriptions[i]) != C.Active
      ensures H.State(k.subscriptions[i]) != C.Active
    {
      assert k.subscriptions[i].session == h.subscriptions[i].session;
    }
    if Lingering(h) {
      var i :| 0 <= i < |h.subscriptions| && H.SweepOne(h.subscriptions[i]).resident;
      assert H.SweepOne(k.subscriptions[i]).resident;
    }
    if Lingering(k) {
      var i :| 0 <= i < |k.subscriptions| && H.SweepOne(k.subscriptions[i]).resident;
      assert H.SweepOne(h.subscriptions[i]).resident;
    }
  }

  lemma SameSessionsChain(h: H.Hub, k: H.Hub, m: H.Hub)
    requires SameSessions(h, k) && SameSessions(k, m)
    ensures SameSessions(h, m)
  {
    forall i | 0 <= i < |h.subscriptions|
      ensures m.subscriptions[i].session == h.subscriptions[i].session
           && H.SweepOne(m.subscriptions[i]).resident == H.SweepOne(h.subscriptions[i]).resident
    {
      assert k.subscriptions[i].session == h.subscriptions[i].session;
    }
  }

  lemma TerminateOfOver(h: H.Hub, n: H.Notice)
    requires H.NoneActive(h)
    ensures SameSessions(h, H.Terminate(h, n))
  {
    forall i | 0 <= i < |h.subscriptions|
      ensures H.Terminate(h, n).subscriptions[i].session == h.subscriptions[i].session
           && H.SweepOne(H.Terminate(h, n).subscriptions[i]).resident == H.SweepOne(h.subscriptions[i]).resident
    {
      assert H.State(h.subscriptions[i]) != C.Active;
    }
  }

  /** What publishing runs into when no session is active. */
  ghost function Trouble(h: H.Hub, clockWorks: bool, shutDown: bool): Option<FaultReason> {
    if clockWorks || shutDown || !Lingering(h) then None else Some(ClockError)
  }

  lemma SweptOver(h: H.Hub, i: nat)
    requires H.NoneActive(h) && i < |h.subscriptions|
    ensures H.Sweep(h).subscriptions[i] == H.SweepOne(h.subscriptions[i])
    ensures H.State(H.SweepOne(h.subscriptions[i])) != C.Active
  {
    assert H.State(h.subscriptions[i]) != C.Active;
  }

  // The hand-out to sessions that are over changes none of them and never fails.
  lemma HandOutToOver(h: H.Hub, d: Depth, after: Book, time: Option<nat>)
    requires H.StreamsOk(h) && H.NoneActive(h)
    ensures H.Usable(h)
    ensures var (k, trouble) := H.Publish(h, d, after, time, false);
            SameSessions(h, k) && trouble == Trouble(h, time.Some?, false)
  {
    H.StreamsAreUsable(h);
    var recorded := h.(applied := h.applied + [H.AppliedUpdate(d, after)]);
    var swept := H.Sweep(recorded).subscriptions;
    H.RaisedFlags(swept);
    H.PublishedShape(h, d, after, time);
    var k := H.Publish(h, d, after, time, false).0;
    forall i: nat | i < |h.subscriptions|
      ensures swept[i] == H.SweepOne(h.subscriptions[i]) && H.State(swept[i]) != C.Active
      ensures k.subscriptions[i].session == h.subscriptions[i].session
           && H.SweepOne(k.subscriptions[i]).resident == H.SweepOne(h.subscriptions[i]).resident
    {
      SweptOver(recorded, i);
      assert H.Handed(h, k, i, H.AppliedUpdate(d, after), H.TimeOrZero(time));
    }
    assert Lingering(h) <==> exists i :: 0 <= i < |swept| && swept[i].resident;
  }

  /**
    With no active session, publishing adds no record; it faults exactly when
    the clock fails while a subscriber lingers.
   */
  lemma PublishToOver(h: H.Hub, d: Depth, after: Book, time: Option<nat>, shutDown: bool, current: Option<nat>)
    requires H.StreamsOk(h) && H.NoneActive(h)
    ensures H.Usable(h)
    ensures var (k, trouble) := H.PublishOrTerminate(h, d, after, time, shutDown, current);
            trouble == Trouble(h, time.Some?, shutDown) && SameSessions(h, k)
  {
    H.StreamsAreUsable(h);
    var (published, trouble) := H.Publish(h, d, after, time, shutDown);
    if !shutDown {
      HandOutToOver(h, d, after, time);
      SameSessionsKeep(h, published);
      TerminateOfOver(published, H.FaultNotice(current, time));
      SameSessionsChain(h, published, H.Terminate(published, H.FaultNotice(current, time)));
    }
  }

  // ---------------------------------------------------------------- a runtime with one input at a time

  /** No request, no control, no active session. */
  ghost predicate Calm(r: Runtime) {
    && r.gate.started && !r.gate.stopRequested && !ShutdownWaiting(r)
    && r.gate.pendingFault.None? && !r.gate.removalPending
    && r.mail.admissions == [] && !SnapshotWaiting(r) && !ResetWaiting(r)
    && H.NoneActive(r.hub) && r.inbox.queue == []
  }

  /** Same mailboxes, controls and sessions; nothing queued. */
  ghost predicate Beside(r: Runtime, s: Runtime) {
    && s.gate == r.gate && s.mail == r.mail && s.limits == r.limits && SameSessions(r.hub, s.hub)
    && s.inbox.queue == [] == r.inbox.queue
  }

  lemma BesideIsCalm(r: Runtime, s: Runtime)
    requires Calm(r) && Beside(r, s)
    ensures Calm(s)
  {
    SameSessionsKeep(r.hub, s.hub);
  }

  lemma FaultBeside(L: Library, r: Runtime, reason: FaultReason, time: Option<nat>)
    requires Calm(r)
    ensures var s := ToFault(L, r, reason, time);
            s.core == Fault(L, r.core, reason) && Beside(r, s)
  {
    TerminateOfOver(r.hub, H.FaultNotice(r.core.generation, time));
  }

  /** Applying an update in the machine is applying it in the core. */
  lemma AppliedBeside(L: Library, r: Runtime, d: Depth, time: Option<nat>)
    requires Calm(r) && H.StreamsOk(r.hub)
    ensures H.Usable(r.hub)
    ensures var (s, outcome) := ToApplied(L, r, d, time);
            && (s.core, outcome) == ApplyBook(L, r.core, d, Trouble(r.hub, time.Some?, r.gate.shutdownCompleted))
            && Beside(r, s)
  {
    H.StreamsAreUsable(r.hub);
    var (book, result) := L.apply(r.core.book, d.update);
    var after := r.(core := r.core.(book := book));
    if Mismatched(r.core, d) {
      FaultBeside(L, r, InternalError, time);
    } else if result.ApplyThrew? {
      FaultBeside(L, after, InternalError, time);
    } else if result.ApplyAdapterError? {
      FaultBeside(L, after, AdapterError, time);
    } else if result.disposition == Applied {
      PublishToOver(r.hub, d, book, time, r.gate.shutdownCompleted, r.core.generation);
    } else if result.disposition == GapDetected {
      TerminateOfOver(
        r.hub, H.Notice(C.UpstreamSequenceGap, C.RequestNewSnapshot, d.generation, H.TimeOrZero(time)));
    }
  }

  /** The clock works always or never. */
  ghost predicate Uniform(env: Runtime -> Env, clockWorks: bool) {
    forall r: Runtime :: env(r).time.Some? <==> clockWorks
  }

  /** Without a lingering subscriber no publication needs the clock. */
  ghost predicate ClockServes(r: Runtime, env: Runtime -> Env, clockWorks: bool) {
    Uniform(env, clockWorks) || !Lingering(r.hub)
  }

  ghost function TroublesOf(r: Runtime, clockWorks: bool): Troubles {
    var trouble := Trouble(r.hub, clockWorks, r.gate.shutdownCompleted);
    _ => trouble
  }

  /** Draining `r` ends idle, beside `r`, with the given core. */
  ghost predicate EndsWith(L: Library, r: Runtime, env: Runtime -> Env, core: Core)
    requires LibraryOk(L) && Inv(L, r)
  {
    var s := Drain(L, r, env);
    s.pc == Idle && s.core == core && Beside(r, s) && Inv(L, s)
  }

  lemma OneStep(L: Library, r: Runtime, env: Runtime -> Env, core: Core)
    requires LibraryOk(L) && Inv(L, r) && Runnable(r)
    ensures H.Usable(r.hub) && Inv(L, OwnerStep(L, r, env(r)))
    ensures Beside(r, OwnerStep(L, r, env(r))) && EndsWith(L, OwnerStep(L, r, env(r)), env, core) ==>
              EndsWith(L, r, env, core)
  {
    StepKeeps(L, r, EvOwner(env(r)));
    var next := OwnerStep(L, r, env(r));
    if Beside(r, next) && EndsWith(L, next, env, core) {
      SameSessionsChain(r.hub, next.hub, Drain(L, next, env).hub);
    }
  }

  lemma IdleEnds(L: Library, r: Runtime, env: Runtime -> Env)
    requires LibraryOk(L) && Inv(L, r) && Calm(r) && r.pc == Idle
    ensures EndsWith(L, r, env, r.core)
  {
  }

  lemma FinishingEnds(L: Library, r: Runtime, env: Runtime -> Env)
    requires LibraryOk(L) && Inv(L, r) && Calm(r) && r.pc.Finishing?
    ensures EndsWith(L, r, env, r.core)
  {
    OneStep(L, r, env, r.core);
    IdleEnds(L, OwnerStep(L, r, env(r)), env);
  }

  lemma PublishingEnds(L: Library, r: Runtime, env: Runtime -> Env)
    requires LibraryOk(L) && Inv(L, r) && Calm(r) && r.pc.Publishing? && !r.pc.replaying
    ensures EndsWith(L, r, env, PublishState(L, r.core))
  {
    OneStep(L, r, env, PublishState(L, r.core));
    FinishingEnds(L, OwnerStep(L, r, env(r)), env);
  }

  /** One turn of the machine's replay: the update is applied, and the state is to be published unless that failed. */
  lemma MachineTurn(L: Library, r: Runtime, env: Env)
    requires Calm(r) && H.StreamsOk(r.hub) && r.pc.Replaying? && r.core.bootstrap != []
    requires L.status(r.core.book) != ResyncRequired && r.core.state != Faulted
    ensures H.Usable(r.hub)
    ensures var next := OwnerStep(L, r, env);
            var d := r.core.bootstrap[0];
            var trouble := Trouble(r.hub, env.time.Some?, r.gate.shutdownCompleted);
            var (core, outcome) := ApplyBook(L, r.core.(bootstrap := r.core.bootstrap[1..]), d, trouble);
            && next.core == core && Beside(r, next) && Calm(next) && Lingering(next.hub) == Lingering(r.hub)
            && next.pc == (match outcome
                           case Thrown => Finishing(r.pc.ticket)
                           case Failed => Replaying(r.pc.ticket)
                           case Done(_) => Publishing(r.pc.ticket, true))
  {
    var popped := r.(core := r.core.(bootstrap := r.core.bootstrap[1..]));
    AppliedBeside(L, popped, r.core.bootstrap[0], env.time);
    var next := OwnerStep(L, r, env);
    BesideIsCalm(r, next);
    SameSessionsKeep(r.hub, next.hub);
  }

  lemma MachinePublishes(L: Library, r: Runtime, env: Env)
    requires Calm(r) && H.Usable(r.hub) && r.pc.Publishing? && r.pc.replaying
    ensures var next := OwnerStep(L, r, env);
            && next.core == PublishState(L, r.core) && next.pc == Replaying(r.pc.ticket)
            && Beside(r, next) && Calm(next) && next.hub == r.hub
  {
  }

  /** The replay loop of the machine, one entry at a time, is the replay of the core. */
  lemma {:induction false} ReplayingEnds(L: Library, r: Runtime, env: Runtime -> Env, clockWorks: bool)
    requires LibraryOk(L) && Inv(L, r) && Calm(r) && r.pc.Replaying? && ClockServes(r, env, clockWorks)
    requires L.status(r.core.book) != ResyncRequired && r.core.state != Faulted
    ensures EndsWith(L, r, env, ReplayAndPublish(L, r.core, TroublesOf(r, clockWorks)))
    decreases |r.core.bootstrap|, 1
  {
    if r.core.bootstrap == [] {
      EmptyReplayEnds(L, r, env, TroublesOf(r, clockWorks));
    } else {
      var result := ReplayAndPublish(L, r.core, TroublesOf(r, clockWorks));
      ReplayTurn(L, r.core, TroublesOf(r, clockWorks));
      MachineTurn(L, r, env(r));
      OneStep(L, r, env, result);
      var next := OwnerStep(L, r, env(r));
      SameTroubles(r, next, clockWorks);
      match next.pc {
        case Finishing(_) => FinishingEnds(L, next, env);
        case Replaying(_) => HaltedReplayEnds(L, next, env);
        case Publishing(_, _) => TurnEnds(L, next, env, clockWorks);
      }
    }
  }

  lemma SameTroubles(r: Runtime, s: Runtime, clockWorks: bool)
    requires Beside(r, s)
    ensures TroublesOf(r, clockWorks) == TroublesOf(s, clockWorks)
    ensures Lingering(r.hub) <==> Lingering(s.hub)
  {
    SameSessionsKeep(r.hub, s.hub);
    assert Trouble(r.hub, clockWorks, r.gate.shutdownCompleted) == Trouble(s.hub, clockWorks, s.gate.shutdownCompleted);
  }

  lemma EmptyReplayEnds(L: Library, r: Runtime, env: Runtime -> Env, troubles: Troubles)
    requires LibraryOk(L) && Inv(L, r) && Calm(r) && r.pc.Replaying?
    requires L.status(r.core.book) != ResyncRequired && r.core.state != Faulted && r.core.bootstrap == []
    ensures EndsWith(L, r, env, ReplayAndPublish(L, r.core, troubles))
  {
    OneStep(L, r, env, PublishState(L, r.core));
    PublishingEnds(L, OwnerStep(L, r, env(r)), env);
  }

  // The rest of a turn: publish, and go on unless that found a fault or a gap.
  lemma {:induction false} TurnEnds(L: Library, r: Runtime, env: Runtime -> Env, clockWorks: bool)
    requires LibraryOk(L) && Inv(L, r) && Calm(r) && ClockServes(r, env, clockWorks)
    requires r.pc.Publishing? && r.pc.replaying
    ensures var after := PublishState(L, r.core);
            EndsWith(L, r, env, GoOn(L, after, TroublesOf(r, clockWorks)))
    decreases |r.core.bootstrap|, 2
  {
    var after := PublishState(L, r.core);
    InvIsUsable(L, r);
    MachinePublishes(L, r, env(r));
    var next := OwnerStep(L, r, env(r));
    if L.status(after.book) == ResyncRequired || after.state == Faulted {
      OneStep(L, r, env, PublishState(L, after.(bootstrap := [])));
      HaltedReplayEnds(L, next, env);
    } else {
      OneStep(L, r, env, ReplayAndPublish(L, after, TroublesOf(r, clockWorks)));
      ReplayingEnds(L, next, env, clockWorks);
    }
  }

  // A fault or a gap empties the buffer and ends the loop.
  lemma HaltedReplayEnds(L: Library, r: Runtime, env: Runtime -> Env)
    requires LibraryOk(L) && Inv(L, r) && Calm(r) && r.pc.Replaying?
    requires L.status(r.core.book) == ResyncRequired || r.core.state == Faulted
    ensures EndsWith(L, r, env, PublishState(L, r.core.(bootstrap := [])))
  {
    var result := PublishState(L, r.core.(bootstrap := []));
    OneStep(L, r, env, result);
    PublishingEnds(L, OwnerStep(L, r, env(r)), env);
  }

  // ---------------------------------------------------------------- one input

  lemma BufferedEnds(L: Library, r: Runtime, env: Runtime -> Env, troubles: Troubles)
    requires LibraryOk(L) && Inv(L, r) && Calm(r) && r.pc.Processing? && r.pc.item.input.DepthInput?
    requires L.status(r.core.book) == AwaitingBaseline
    ensures EndsWith(L, r, env, Process(L, r.limits.bootstrap, r.core, r.pc.item.input, troubles))
  {
    OneStep(L, r, env, Process(L, r.limits.bootstrap, r.core, r.pc.item.input, troubles));
    var next := OwnerStep(L, r, env(r));
    FaultBeside(L, r, BootstrapBufferOverflow, env(r).time);
    BesideIsCalm(r, next);
    if next.pc.Finishing? {
      FinishingEnds(L, next, env);
    } else {
      PublishingEnds(L, next, env);
    }
  }

  lemma DepthEnds(L: Library, r: Runtime, env: Runtime -> Env, clockWorks: bool)
    requires LibraryOk(L) && Inv(L, r) && Calm(r) && ClockServes(r, env, clockWorks)
    requires r.pc.Processing? && r.pc.item.input.DepthInput?
    ensures EndsWith(L, r, env, Process(L, r.limits.bootstrap, r.core, r.pc.item.input, TroublesOf(r, clockWorks)))
  {
    if L.status(r.core.book) == AwaitingBaseline {
      BufferedEnds(L, r, env, TroublesOf(r, clockWorks));
    } else {
      var result := Process(L, r.limits.bootstrap, r.core, r.pc.item.input, TroublesOf(r, clockWorks));
      OneStep(L, r, env, result);
      var next := OwnerStep(L, r, env(r));
      AppliedBeside(L, r, r.pc.item.input.depth, env(r).time);
      BesideIsCalm(r, next);
      if next.pc.Finishing? {
        FinishingEnds(L, next, env);
      } else {
        PublishingEnds(L, next, env);
      }
    }
  }

  lemma SnapshotEnds(L: Library, r: Runtime, env: Runtime -> Env, clockWorks: bool)
    requires LibraryOk(L) && Inv(L, r) && Calm(r) && ClockServes(r, env, clockWorks)
    requires r.pc.Processing? && r.pc.item.input.SnapshotInput?
    ensures EndsWith(L, r, env, Process(L, r.limits.bootstrap, r.core, r.pc.item.input, TroublesOf(r, clockWorks)))
  {
    var input := r.pc.item.input;
    OneStep(L, r, env, Process(L, r.limits.bootstrap, r.core, input, TroublesOf(r, clockWorks)));
    var next := OwnerStep(L, r, env(r));
    var (book, result) := L.install(r.core.book, input.snapshot);
    var after := r.(core := r.core.(book := book));
    match result {
      case InstallAdapterError => FaultBeside(L, after, AdapterError, env(r).time);
      case InstallThrew => FaultBeside(L, after, InternalError, env(r).time);
      case InstallRejected => FaultBeside(L, after, ProjectionRejected, env(r).time);
      case Installed => assert next.hub == r.hub;
    }
    BesideIsCalm(r, next);
    if result == Installed {
      SameTroubles(r, next, clockWorks);
      ReplayingEnds(L, next, env, clockWorks);
    } else {
      FinishingEnds(L, next, env);
    }
  }

  lemma FailureEnds(L: Library, r: Runtime, env: Runtime -> Env, clockWorks: bool)
    requires LibraryOk(L) && Inv(L, r) && Calm(r)
    requires r.pc.Processing? && r.pc.item.input.FailureInput?
    ensures EndsWith(L, r, env, Process(L, r.limits.bootstrap, r.core, r.pc.item.input, TroublesOf(r, clockWorks)))
  {
    OneStep(L, r, env, Process(L, r.limits.bootstrap, r.core, r.pc.item.input, TroublesOf(r, clockWorks)));
    FaultBeside(L, r, FailureReason(r.pc.item.input.failure), env(r).time);
    var next := OwnerStep(L, r, env(r));
    BesideIsCalm(r, next);
    FinishingEnds(L, next, env);
  }

  /** An idle runtime with nothing else to do, that admits inputs until it halts. */
  ghost predicate Ready(L: Library, r: Runtime) {
    Inv(L, r) && Calm(r) && r.pc == Idle && Open(r.core) && 1 <= r.limits.ingress
  }

  lemma TakenIsCalm(L: Library, r: Runtime, input: Input)
    requires LibraryOk(L) && Ready(L, r) && !Halted(r.core)
    ensures var submitted := Submit(r, input).0;
            && Inv(L, submitted) && Runnable(submitted)
            && var taken := Select(submitted);
               && Inv(L, taken) && Calm(taken) && Beside(r, taken) && taken.core == r.core && taken.hub == r.hub
               && taken.pc.Processing? && taken.pc.item.input == input
  {
    StepKeeps(L, r, EvSubmit(input));
    var submitted := Submit(r, input).0;
    assert submitted.inbox.queue == [Ticketed(r.inbox.lastAdmitted + 1, input)];
    StepKeeps(L, submitted, ANY_ENV);
  }

  /** Submitting one input and letting the owner work it off. */
  ghost function Feed(L: Library, r: Runtime, input: Input, env: Runtime -> Env): Runtime
    requires LibraryOk(L) && Ready(L, r)
  {
    StepKeeps(L, r, EvSubmit(input));
    Drain(L, Submit(r, input).0, env)
  }

  /** The machine delivers one input exactly as the core does. */
  lemma FeedDelivers(L: Library, r: Runtime, input: Input, env: Runtime -> Env, clockWorks: bool)
    requires LibraryOk(L) && Ready(L, r) && ClockServes(r, env, clockWorks)
    ensures var s := Feed(L, r, input, env);
            && s.core == Deliver(L, r.limits.bootstrap, r.core, input, TroublesOf(r, clockWorks))
            && Ready(L, s) && Beside(r, s)
  {
    var core := Deliver(L, r.limits.bootstrap, r.core, input, TroublesOf(r, clockWorks));
    DeliverKeepsOpen(L, r.limits.bootstrap, r.core, input, TroublesOf(r, clockWorks));
    if Halted(r.core) {
      IdleEnds(L, r, env);
    } else {
      TakenIsCalm(L, r, input);
      var submitted := Submit(r, input).0;
      var taken := Select(submitted);
      SameTroubles(r, taken, clockWorks);
      TakenEnds(L, taken, env, clockWorks);
      FeedIsDrain(L, submitted, env);
      var s := Drain(L, taken, env);
      SameSessionsChain(r.hub, taken.hub, s.hub);
      BesideIsCalm(r, s);
    }
  }

  lemma FeedIsDrain(L: Library, r: Runtime, env: Runtime -> Env)
    requires LibraryOk(L) && Inv(L, r) && Runnable(r) && r.pc == Idle
    ensures Inv(L, Select(r)) && Drain(L, r, env) == Drain(L, Select(r), env)
  {
    StepKeeps(L, r, EvOwner(env(r)));
  }

  lemma TakenEnds(L: Library, r: Runtime, env: Runtime -> Env, clockWorks: bool)
    requires LibraryOk(L) && Inv(L, r) && Calm(r) && ClockServes(r, env, clockWorks) && r.pc.Processing?
    ensures EndsWith(L, r, env, Process(L, r.limits.bootstrap, r.core, r.pc.item.input, TroublesOf(r, clockWorks)))
  {
    match r.pc.item.input {
      case DepthInput(_) => DepthEnds(L, r, env, clockWorks);
      case SnapshotInput(_, _) => SnapshotEnds(L, r, env, clockWorks);
      case FailureInput(_) => FailureEnds(L, r, env, clockWorks);
    }
  }

  // ---------------------------------------------------------------- many inputs

  ghost function FeedAll(
    L: Library, r: Runtime, inputs: seq<Input>, env: Runtime -> Env, clockWorks: bool): Runtime
    requires LibraryOk(L) && Ready(L, r) && ClockServes(r, env, clockWorks)
    decreases |inputs|
  {
    if inputs == [] then r
    else
      FeedDelivers(L, r, inputs[0], env, clockWorks);
      FeedAll(L, Feed(L, r, inputs[0], env), inputs[1..], env, clockWorks)
  }

  /** Feeding inputs to the machine is delivering them to the core. */
  lemma {:induction false} FeedAllDelivers(
    L: Library, r: Runtime, inputs: seq<Input>, env: Runtime -> Env, clockWorks: bool)
    requires LibraryOk(L) && Ready(L, r) && ClockServes(r, env, clockWorks)
    ensures FeedAll(L, r, inputs, env, clockWorks).core
         == DeliverAll(L, r.limits.bootstrap, r.core, inputs, TroublesOf(r, clockWorks))
    decreases |inputs|
  {
    if inputs != [] {
      FeedDelivers(L, r, inputs[0], env, clockWorks);
      var next := Feed(L, r, inputs[0], env);
      SameTroubles(r, next, clockWorks);
      FeedAllDelivers(L, next, inputs[1..], env, clockWorks);
    }
  }

  /** Buffering is invisible in the machine: book, generation, state and fault are the same. */
  lemma BufferingIsInvisible(
    L: Library, r: Runtime, early: seq<Depth>, snapshot: Input, later: seq<Input>, env: Runtime -> Env, clockWorks: bool)
    requires LibraryOk(L) && KeepsBaseline(L) && Ready(L, r) && ClockServes(r, env, clockWorks)
    requires !Halted(r.core) && r.core.status == AwaitingBaseline && r.core.bootstrap == []
    requires |early| <= r.limits.bootstrap && snapshot.SnapshotInput?
    ensures FeedAll(L, r, Depths(early) + [snapshot] + later, env, clockWorks).core
         == FeedAll(L, r, [snapshot] + Depths(early) + later, env, clockWorks).core
  {
    FeedAllDelivers(L, r, Depths(early) + [snapshot] + later, env, clockWorks);
    FeedAllDelivers(L, r, [snapshot] + Depths(early) + later, env, clockWorks);
    BootstrapTransparency(L, r.limits.bootstrap, r.core, early, snapshot, later, TroublesOf(r, clockWorks));
  }

  // ---------------------------------------------------------------- after a reset

  /** A run of a new runtime: start it and let its owner boot. */
  lemma StartedIsReady(L: Library, limits: Limits)
    requires LibraryOk(L) && LimitsOk(limits)
    ensures Inv(L, NewRuntime(L, limits))
    ensures var r := Run(L, NewRuntime(L, limits), [EvStart, ANY_ENV]);
            Ready(L, r) && r.core == FreshCore(L) && r.hub.subscriptions == [] && r.limits == limits
  {
    var r := NewRuntime(L, limits);
    NewRuntimeInv(L, limits);
    StepKeeps(L, r, EvStart);
    StepKeeps(L, Start(r), ANY_ENV);
    assert [EvStart, ANY_ENV][1..] == [ANY_ENV] && [ANY_ENV][1..] == [];
    assert Run(L, Start(r), [ANY_ENV]) == Run(L, OwnerStep(L, Start(r), ANY_ENV.env), []);
  }

  /** Nothing is queued, and nothing is asked besides the reset. */
  ghost predicate OnlyResetWaits(r: Runtime) {
    && r.inbox.queue == [] && !r.gate.stopRequested && !ShutdownWaiting(r) && r.gate.pendingFault.None?
    && !r.gate.removalPending && r.mail.admissions == [] && !SnapshotWaiting(r)
  }

  /**
    Committing and reporting a reset: the core is that of a new runtime, the
    request has its answer, no session is active and what was queued still is.
    The runtime is then ready exactly if nothing else waits.
   */
  lemma ResetIsReady(L: Library, r: Runtime, env: Env)
    requires LibraryOk(L) && Inv(L, r) && r.pc.Recommitting? && 1 <= r.limits.ingress
    ensures H.Usable(r.hub) && H.Usable(OwnerStep(L, r, env).hub)
    ensures var s := OwnerStep(L, OwnerStep(L, r, env), env);
            && Inv(L, s) && s.pc == Idle && s.core == Reset(L, r.core) && s.inbox == r.inbox && H.NoneActive(s.hub)
            && r.mail.reset.Some? && s.mail.slots[r.mail.reset.value.id].answer == Some(WasReset)
            && (Ready(L, s) <==> OnlyResetWaits(r))
  {
    StepKeeps(L, r, EvOwner(env));
    ControlIsSessionStep(L, r, env);
    var reporting := OwnerStep(L, r, env);
    StepKeeps(L, reporting, EvOwner(env));
    ReportedOnly(L, reporting, env);
  }

  // Reporting touches the answer only.
  lemma ReportedOnly(L: Library, r: Runtime, env: Env)
    requires RequestInv(r) && H.Usable(r.hub) && r.pc == Reporting
    ensures var s := OwnerStep(L, r, env);
            && s == r.(mail := s.mail, pc := Idle) && s.mail.admissions == r.mail.admissions
            && !ResetWaiting(s) && (SnapshotWaiting(s) <==> SnapshotWaiting(r))
            && s.mail.slots[r.mail.reset.value.id].answer == Some(WasReset)
  {
    AnswerToKeeps(r.mail, None, r.inbox.lastAdmitted, r.mail.reset.value.id, WasReset);
  }

  /**
    After a reset the machine goes through the same books, generations, states
    and faults as a freshly started one, whatever is submitted, provided no
    publication can run into the clock: it works, or nobody lingers.
   */
  lemma ResetIsFreshStart(
    L: Library, r: Runtime, novel: Runtime, resetCount: nat, inputs: seq<Input>, env: Runtime -> Env, clockWorks: bool)
    requires LibraryOk(L) && Ready(L, r) && Ready(L, novel) && ClockServes(r, env, clockWorks)
    requires r.core == FreshCore(L).(resetCount := resetCount) && novel.core == FreshCore(L)
    requires novel.hub.subscriptions == [] && novel.limits == r.limits
    requires clockWorks || !Lingering(r.hub) || r.gate.shutdownCompleted
    ensures FeedAll(L, r, inputs, env, clockWorks).core
         == FeedAll(L, novel, inputs, env, clockWorks).core.(resetCount := resetCount)
  {
    FeedAllDelivers(L, r, inputs, env, clockWorks);
    FeedAllDelivers(L, novel, inputs, env, clockWorks);
    assert Trouble(r.hub, clockWorks, r.gate.shutdownCompleted)
        == Trouble(novel.hub, clockWorks, novel.gate.shutdownCompleted);
    DeliveryForgetsResets(L, r.limits.bootstrap, FreshCore(L), inputs, resetCount, TroublesOf(novel, clockWorks));
  }

  /**
    With a lingering subscriber and a failing clock, the first update applied
    after the reset is a clock fault, which a freshly started runtime does not
    have.
   */
  lemma LingeringShows(
    L: Library, r: Runtime, novel: Runtime, resetCount: nat, snapshot: nat, update: nat, env: Runtime -> Env)
    requires LibraryOk(L) && Ready(L, r) && Ready(L, novel) && Uniform(env, false)
    requires r.core == FreshCore(L).(resetCount := resetCount) && novel.core == FreshCore(L)
    requires novel.hub.subscriptions == [] && novel.limits == r.limits
    requires Lingering(r.hub) && !r.gate.shutdownCompleted
    requires FirstApplies(L, snapshot, update)
    ensures var inputs := [SnapshotInput(snapshot, None), DepthInput(Depth(update, None))];
            && FeedAll(L, r, inputs, env, false).core.fault == Some(ClockError)
            && FeedAll(L, novel, inputs, env, false).core.fault == None
  {
    var inputs := [SnapshotInput(snapshot, None), DepthInput(Depth(update, None))];
    FeedAllDelivers(L, r, inputs, env, false);
    FeedAllDelivers(L, novel, inputs, env, false);
    FirstUpdate(L, r.limits.bootstrap, r.core, snapshot, update, TroublesOf(r, false));
    FirstUpdate(L, r.limits.bootstrap, novel.core, snapshot, update, TroublesOf(novel, false));
  }

  /** The library installs this snapshot and applies this update on it. */
  ghost predicate FirstApplies(L: Library, snapshot: nat, update: nat) {
    var (book, result) := L.install(L.initial, snapshot);
    result == Installed && L.status(book) != AwaitingBaseline && L.apply(book, update).1 == Disposed(Applied)
  }

  /** Feeding `inputs` leads both to the same core, but for the count of resets. */
  ghost predicate SameAfter(
    L: Library, r: Runtime, novel: Runtime, resetCount: nat, inputs: seq<Input>, env: Runtime -> Env, clockWorks: bool)
    requires LibraryOk(L) && Ready(L, r) && Ready(L, novel) && Uniform(env, clockWorks)
  {
    FeedAll(L, r, inputs, env, clockWorks).core
    == FeedAll(L, novel, inputs, env, clockWorks).core.(resetCount := resetCount)
  }

  ghost predicate Indistinguishable(
    L: Library, r: Runtime, novel: Runtime, resetCount: nat, env: Runtime -> Env, clockWorks: bool)
    requires LibraryOk(L) && Ready(L, r) && Ready(L, novel) && Uniform(env, clockWorks)
  {
    forall inputs: seq<Input> :: SameAfter(L, r, novel, resetCount, inputs, env, clockWorks)
  }

  lemma Distinguished(
    L: Library, r: Runtime, novel: Runtime, resetCount: nat, snapshot: nat, update: nat, env: Runtime -> Env)
    requires LibraryOk(L) && Ready(L, r) && Ready(L, novel) && Uniform(env, false)
    requires r.core == FreshCore(L).(resetCount := resetCount) && novel.core == FreshCore(L)
    requires novel.hub.subscriptions == [] && novel.limits == r.limits
    requires Lingering(r.hub) && !r.gate.shutdownCompleted && FirstApplies(L, snapshot, update)
    ensures !Indistinguishable(L, r, novel, resetCount, env, false)
  {
    LingeringShows(L, r, novel, resetCount, snapshot, update, env);
    var inputs := [SnapshotInput(snapshot, None), DepthInput(Depth(update, None))];
    assert !SameAfter(L, r, novel, resetCount, inputs, env, false);
  }

  /**
    Exactly when a reset runtime is indistinguishable from a new one: no input
    sequence tells them apart if and only if the clock works, nobody lingers, or
    publication was shut down.
   */
  lemma ResetIsFreshExactly(
    L: Library, r: Runtime, novel: Runtime, resetCount: nat, snapshot: nat, update: nat,
    env: Runtime -> Env, clockWorks: bool)
    requires LibraryOk(L) && Ready(L, r) && Ready(L, novel) && Uniform(env, clockWorks)
    requires r.core == FreshCore(L).(resetCount := resetCount) && novel.core == FreshCore(L)
    requires novel.hub.subscriptions == [] && novel.limits == r.limits
    requires FirstApplies(L, snapshot, update)
    ensures Indistinguishable(L, r, novel, resetCount, env, clockWorks)
            <==> clockWorks || !Lingering(r.hub) || r.gate.shutdownCompleted
  {
    if clockWorks || !Lingering(r.hub) || r.gate.shutdownCompleted {
      forall inputs: seq<Input> ensures SameAfter(L, r, novel, resetCount, inputs, env, clockWorks) {
        ResetIsFreshStart(L, r, novel, resetCount, inputs, env, clockWorks);
      }
    } else {
      Distinguished(L, r, novel, resetCount, snapshot, update, env);
    }
  }

  lemma FirstUpdate(
    L: Library, capacity: nat, c: Core, snapshot: nat, update: nat, troubles: Troubles)
    requires LibraryOk(L) && c == FreshCore(L).(resetCount := c.resetCount)
    requires var (book, result) := L.install(L.initial, snapshot);
             result == Installed && L.status(book) != AwaitingBaseline && L.apply(book, update).1 == Disposed(Applied)
    ensures var d := Depth(update, None);
            DeliverAll(L, capacity, c, [SnapshotInput(snapshot, None), DepthInput(d)], troubles).fault == troubles(c.applied)
  {
    var d := Depth(update, None);
    DeliverTwo(L, capacity, c, SnapshotInput(snapshot, None), DepthInput(d), troubles);
    var installed := Install(L, c, snapshot, None).0;
    assert Replay(L, installed, troubles) == (installed, false);
  }
}
