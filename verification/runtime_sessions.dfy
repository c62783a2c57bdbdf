/**
  What every session of the running machine carries: the replay of what was
  applied since its admission cut, of one generation, that folds to the book.
 */
module RuntimeSessions {
  import opened Prelude
  import opened MarketTypes
  import opened ProjectionLibrary
  import opened RuntimeCore
  import opened MarketRuntime
  import opened RuntimeTickets
  import opened RuntimeRequests
  import H = PublicationHub
  import C = OrderBookChannel

  // ---------------------------------------------------------------- what a step does to the sessions

  /** The book moves only by an update that was not applied, unless no session is left active. */
  ghost predicate BookHeld(L: Library, r: Runtime, s: Runtime) {
    || H.NoneActive(s.hub)
    || (L.status(r.core.book) == AwaitingBaseline && s.hub == r.hub)
    || (s.core.generation == r.core.generation
        && (s.core.book == r.core.book || exists u: nat :: Ignored(L, r.core.book, u, s.core.book)))
  }

  ghost predicate Ignored(L: Library, before: Book, u: nat, after: Book) {
    var (book, result) := L.apply(before, u);
    book == after && result.Disposed? && result.disposition != Applied && result.disposition != GapDetected
  }

  /** No record is added; new terminals name the current generation or none. */
  ghost predicate QuietStep(L: Library, r: Runtime, s: Runtime) {
    H.QuieterHub(r.hub, s.hub) && H.SameTerminals(r.hub, s.hub, r.core.generation) && BookHeld(L, r, s)
  }

  ghost predicate PublishesOne(L: Library, r: Runtime, s: Runtime, d: Depth, time: Option<nat>)
    requires H.Usable(r.hub)
  {
    && !Mismatched(r.core, d)
    && L.apply(r.core.book, d.update) == (s.core.book, Disposed(Applied))
    && s.core.generation == r.core.generation
    && s.hub == H.PublishOrTerminate(r.hub, d, s.core.book, time, r.gate.shutdownCompleted, r.core.generation).0
  }

  ghost predicate PublishStep(L: Library, r: Runtime, s: Runtime)
    requires H.Usable(r.hub)
  {
    exists d: Depth, time: Option<nat> :: PublishesOne(L, r, s, d, time)
  }

  ghost predicate JoinsOne(r: Runtime, s: Runtime, a: Admission, time: nat) {
    var staged := H.Stage(r.hub, r.limits.queue, a.request, a.depth, r.core.book, r.core.generation, time);
    staged.Some? && s.hub == H.Join(r.hub, staged.value)
  }

  /** A session is admitted at the current cut of a live runtime. */
  ghost predicate JoinStep(r: Runtime, s: Runtime) {
    && s.core == r.core && AllLive(r.core) && !GateShut(r) && r.pc.Committing? && s.gate == r.gate
    && exists time: nat :: JoinsOne(r, s, r.pc.admission, time)
  }

  ghost predicate SessionStep(L: Library, r: Runtime, s: Runtime)
    requires H.Usable(r.hub)
  {
    QuietStep(L, r, s) || PublishStep(L, r, s) || JoinStep(r, s)
  }

  lemma FaultIsQuiet(L: Library, r: Runtime, after: Runtime, reason: FaultReason, time: Option<nat>, pc: Pc)
    requires H.StreamsOk(r.hub) && after.hub == r.hub && after.core.generation == r.core.generation
    ensures QuietStep(L, r, ToFault(L, after, reason, time).(pc := pc))
  {
    H.TerminateKeeps(r.hub, H.FaultNotice(r.core.generation, time), r.core.generation);
  }

  lemma UntouchedIsQuiet(h: H.Hub, current: Option<nat>)
    requires H.StreamsOk(h)
    ensures H.QuieterHub(h, h) && H.SameTerminals(h, h, current)
  {
    forall i | 0 <= i < |h.subscriptions|
      ensures H.Quieter(h.subscriptions[i], h.subscriptions[i])
      ensures C.SessionOk(h.subscriptions[i].session)
    {
      assert H.StreamOk(h.applied, h.subscriptions[i]);
    }
  }

  lemma AppliedIsSessionStep(L: Library, r: Runtime, popped: Runtime, d: Depth, time: Option<nat>, pc: Pc)
    requires H.StreamsOk(r.hub) && H.Usable(r.hub)
    requires popped.hub == r.hub && popped.gate == r.gate && popped.core.generation == r.core.generation
    requires popped.core.book == r.core.book
    ensures SessionStep(L, r, ToApplied(L, popped, d, time).0.(pc := pc))
  {
    var (book, result) := L.apply(r.core.book, d.update);
    var after := popped.(core := popped.core.(book := book));
    var s := ToApplied(L, popped, d, time).0.(pc := pc);
    if Mismatched(popped.core, d) {
      FaultIsQuiet(L, r, popped, InternalError, time, pc);
    } else {
      match result {
        case ApplyThrew => FaultIsQuiet(L, r, after, InternalError, time, pc);
        case ApplyAdapterError => FaultIsQuiet(L, r, after, AdapterError, time, pc);
        case Disposed(disposition) =>
          if disposition == Applied {
            assert PublishesOne(L, r, s, d, time);
          } else if disposition == GapDetected {
            H.TerminateKeeps(
              r.hub, H.Notice(C.UpstreamSequenceGap, C.RequestNewSnapshot, d.generation, H.TimeOrZero(time)),
              r.core.generation);
          } else {
            UntouchedIsQuiet(r.hub, r.core.generation);
            assert Ignored(L, r.core.book, d.update, s.core.book);
          }
      }
    }
  }

  lemma ProcessIsSessionStep(L: Library, r: Runtime, env: Env)
    requires LibraryOk(L) && H.StreamsOk(r.hub) && H.Usable(r.hub) && r.pc.Processing?
    ensures SessionStep(L, r, ProcessItem(L, r, r.pc.item, env))
  {
    var s := ProcessItem(L, r, r.pc.item, env);
    UntouchedIsQuiet(r.hub, r.core.generation);
    match r.pc.item.input {
      case FailureInput(failure) => FaultIsQuiet(L, r, r, FailureReason(failure), env.time, s.pc);
      case DepthInput(d) =>
        if L.status(r.core.book) != AwaitingBaseline {
          AppliedIsSessionStep(L, r, r, d, env.time, s.pc);
        } else if |r.core.bootstrap| == r.limits.bootstrap {
          FaultIsQuiet(L, r, r, BootstrapBufferOverflow, env.time, s.pc);
        }
      case SnapshotInput(snapshot, generation) =>
        var (book, result) := L.install(r.core.book, snapshot);
        var after := r.(core := r.core.(book := book));
        match result {
          case InstallAdapterError => FaultIsQuiet(L, r, after, AdapterError, env.time, s.pc);
          case InstallThrew => FaultIsQuiet(L, r, after, InternalError, env.time, s.pc);
          case InstallRejected => FaultIsQuiet(L, r, after, ProjectionRejected, env.time, s.pc);
          case Installed => assert L.status(r.core.book) == AwaitingBaseline;
        }
    }
  }

  lemma ReplayIsSessionStep(L: Library, r: Runtime, env: Env)
    requires H.StreamsOk(r.hub) && H.Usable(r.hub) && r.pc.Replaying?
    ensures SessionStep(L, r, ReplayOne(L, r, r.pc.ticket, env))
  {
    var c := r.core;
    if L.status(c.book) == ResyncRequired || c.state == Faulted || c.bootstrap == [] {
      UntouchedIsQuiet(r.hub, c.generation);
    } else {
      var popped := r.(core := c.(bootstrap := c.bootstrap[1..]));
      AppliedIsSessionStep(L, r, popped, c.bootstrap[0], env.time, ReplayOne(L, r, r.pc.ticket, env).pc);
    }
  }

  lemma CommitIsSessionStep(L: Library, r: Runtime, env: Env)
    requires H.StreamsOk(r.hub) && r.pc.Committing?
    ensures H.Usable(r.hub) && SessionStep(L, r, CommitAdmission(r, r.pc.admission, env))
  {
    H.StreamsAreUsable(r.hub);
    var s := CommitAdmission(r, r.pc.admission, env);
    if s.hub == r.hub {
      UntouchedIsQuiet(r.hub, r.core.generation);
    } else {
      assert JoinsOne(r, s, r.pc.admission, env.time.value);
    }
  }

  lemma ControlIsSessionStep(L: Library, r: Runtime, env: Env)
    requires H.StreamsOk(r.hub) && H.Usable(r.hub)
    requires r.pc.ShuttingDown? || r.pc.Exiting? || r.pc.Faulting? || r.pc.Recommitting?
    ensures QuietStep(L, r, OwnerStep(L, r, env)) && H.NoneActive(OwnerStep(L, r, env).hub)
  {
    match r.pc {
      case ShuttingDown => H.CloseAllKeeps(r.hub);
      case Exiting => H.CloseAllKeeps(r.hub);
      case Faulting(_) => H.TerminateKeeps(r.hub, H.FaultNotice(r.core.generation, env.time), r.core.generation);
      case Recommitting(kind) =>
        H.TerminateKeeps(r.hub, ResetNotice(kind, r.core.generation, env.time), r.core.generation);
    }
  }

  lemma SweepingIsSessionStep(L: Library, r: Runtime, s: Runtime)
    requires H.StreamsOk(r.hub) && H.Usable(r.hub)
    requires s.hub == H.Sweep(r.hub) && s.core == r.core
    ensures QuietStep(L, r, s)
  {
    H.SweepKeeps(r.hub);
  }

  lemma UntouchedIsSessionStep(L: Library, r: Runtime, s: Runtime)
    requires H.StreamsOk(r.hub) && H.Usable(r.hub)
    requires s.hub == r.hub && s.core.book == r.core.book && s.core.generation == r.core.generation
    ensures QuietStep(L, r, s)
  {
    UntouchedIsQuiet(r.hub, r.core.generation);
  }

  lemma OwnerIsSessionStep(L: Library, r: Runtime, env: Env)
    requires LibraryOk(L) && H.StreamsOk(r.hub) && H.Usable(r.hub)
    ensures SessionStep(L, r, OwnerStep(L, r, env))
  {
    match r.pc {
      case ShuttingDown => ControlIsSessionStep(L, r, env);
      case Exiting => ControlIsSessionStep(L, r, env);
      case Faulting(_) => ControlIsSessionStep(L, r, env);
      case Recommitting(_) => ControlIsSessionStep(L, r, env);
      case Admitting(_) => SweepingIsSessionStep(L, r, OwnerStep(L, r, env));
      case Sweeping => SweepingIsSessionStep(L, r, OwnerStep(L, r, env));
      case Committing(_) => CommitIsSessionStep(L, r, env);
      case Processing(_) => ProcessIsSessionStep(L, r, env);
      case Replaying(_) => ReplayIsSessionStep(L, r, env);
      case _ => UntouchedIsSessionStep(L, r, OwnerStep(L, r, env));
    }
  }

  lemma StepIsSessionStep(L: Library, r: Runtime, e: Event)
    requires LibraryOk(L) && H.StreamsOk(r.hub) && H.Usable(r.hub)
    ensures SessionStep(L, r, Step(L, r, e))
  {
    match e {
      case EvOwner(env) => OwnerIsSessionStep(L, r, env);
      case EvWriter(session, cancelled, outcome) => H.WriteKeeps(r.hub, session, cancelled, outcome);
      case _ => UntouchedIsQuiet(r.hub, r.core.generation);
    }
  }

  // ---------------------------------------------------------------- the invariants

  /** Every session replays what was applied since its cut; shut down, none is active. */
  ghost predicate SessionInv(r: Runtime) {
    && H.StreamsOk(r.hub)
    && (r.gate.shutdownCompleted ==> H.NoneActive(r.hub))
    && (r.pc.NotStarted? || r.pc.Booting? ==> r.hub.subscriptions == [])
  }

  /** Active sessions have the current generation, and a book that has its baseline. */
  ghost predicate IsolationInv(L: Library, r: Runtime) {
    && H.IsolationsOk(r.hub, r.core.generation)
    && (L.status(r.core.book) == AwaitingBaseline ==> H.NoneActive(r.hub))
  }

  ghost predicate FoldInv(L: Library, r: Runtime) {
    H.FoldsOk(L, r.hub, r.core.book)
  }

  lemma StepKeepsStreams(L: Library, r: Runtime, e: Event)
    requires LibraryOk(L) && SessionInv(r) && RequestInv(r) && H.Usable(r.hub)
    ensures H.StreamsOk(Step(L, r, e).hub)
    ensures H.NoneActive(r.hub) && !JoinStep(r, Step(L, r, e)) ==> H.NoneActive(Step(L, r, e).hub)
    ensures |Step(L, r, e).hub.subscriptions| == |r.hub.subscriptions| || JoinStep(r, Step(L, r, e))
  {
    var s := Step(L, r, e);
    StepIsSessionStep(L, r, e);
    if QuietStep(L, r, s) {
      H.QuieterHubKeeps(r.hub, s.hub, r.core.generation);
    } else if PublishStep(L, r, s) {
      var d, time :| PublishesOne(L, r, s, d, time);
      H.PublishOrTerminateKeeps(r.hub, d, s.core.book, time, r.gate.shutdownCompleted, r.core.generation);
    } else {
      var time :| JoinsOne(r, s, r.pc.admission, time);
      var a := r.pc.admission;
      H.StageStartsAtTheCut(L, r.hub, r.limits.queue, a.request, a.depth, r.core.book, r.core.generation, time);
      H.JoinKeeps(L, r.hub, s.hub.subscriptions[|r.hub.subscriptions|], r.core.generation, r.core.book);
    }
  }

  // Only the shutdown control completes the shutdown of a started runtime.
  lemma CompletingIsClosing(L: Library, r: Runtime, e: Event)
    requires H.Usable(r.hub) && Step(L, r, e).gate.shutdownCompleted && !r.gate.shutdownCompleted
    ensures (e.EvOwner? && r.pc.ShuttingDown?) || (e.EvRequestShutdown? && !r.gate.started && Step(L, r, e).hub == r.hub)
  {
  }

  lemma BootingHasNoSessions(L: Library, r: Runtime, e: Event)
    requires H.Usable(r.hub) && (r.pc.NotStarted? <==> !r.gate.started)
    requires Step(L, r, e).pc.NotStarted? || Step(L, r, e).pc.Booting?
    ensures r.pc.NotStarted? || r.pc.Booting?
  {
  }

  lemma StepKeepsSessions(L: Library, r: Runtime, e: Event)
    requires LibraryOk(L) && SessionInv(r) && RequestInv(r) && TicketInv(r) && H.Usable(r.hub)
    ensures SessionInv(Step(L, r, e))
  {
    var s := Step(L, r, e);
    StepKeepsStreams(L, r, e);
    if s.gate.shutdownCompleted && !r.gate.shutdownCompleted {
      CompletingIsClosing(L, r, e);
      if e.EvOwner? {
        ControlIsSessionStep(L, r, e.env);
      }
    }
    if s.pc.NotStarted? || s.pc.Booting? {
      BootingHasNoSessions(L, r, e);
    }
  }

  lemma QuietKeepsIsolation(L: Library, r: Runtime, s: Runtime)
    requires KeepsBaseline(L) && H.StreamsOk(r.hub) && IsolationInv(L, r) && QuietStep(L, r, s)
    ensures IsolationInv(L, s)
  {
    H.QuieterHubKeeps(r.hub, s.hub, r.core.generation);
    if s.core.generation != r.core.generation {
      assert H.NoneActive(s.hub);
    }
    forall i | 0 <= i < |s.hub.subscriptions| ensures H.IsolationOk(s.hub.subscriptions[i], s.core.generation) {
      assert H.IsolationOk(s.hub.subscriptions[i], r.core.generation);
    }
  }

  lemma PublishKeepsIsolation(L: Library, r: Runtime, s: Runtime)
    requires KeepsBaseline(L) && H.StreamsOk(r.hub) && IsolationInv(L, r) && H.Usable(r.hub) && PublishStep(L, r, s)
    requires r.gate.shutdownCompleted ==> H.NoneActive(r.hub)
    ensures IsolationInv(L, s)
  {
    var d, time :| PublishesOne(L, r, s, d, time);
    H.PublishOrTerminateKeeps(r.hub, d, s.core.book, time, r.gate.shutdownCompleted, r.core.generation);
  }

  lemma JoinKeepsIsolation(L: Library, r: Runtime, s: Runtime)
    requires H.StreamsOk(r.hub) && IsolationInv(L, r) && JoinStep(r, s) && CoreInv(L, r)
    ensures IsolationInv(L, s)
  {
    var time :| JoinsOne(r, s, r.pc.admission, time);
    var a := r.pc.admission;
    H.StageStartsAtTheCut(L, r.hub, r.limits.queue, a.request, a.depth, r.core.book, r.core.generation, time);
    H.JoinKeeps(L, r.hub, s.hub.subscriptions[|r.hub.subscriptions|], r.core.generation, r.core.book);
  }

  lemma StepKeepsIsolation(L: Library, r: Runtime, e: Event)
    requires LibraryOk(L) && KeepsBaseline(L)
    requires Sound(L, r) && SessionInv(r) && IsolationInv(L, r) && H.Usable(r.hub)
    ensures IsolationInv(L, Step(L, r, e))
  {
    var s := Step(L, r, e);
    StepIsSessionStep(L, r, e);
    if QuietStep(L, r, s) {
      QuietKeepsIsolation(L, r, s);
    } else if PublishStep(L, r, s) {
      PublishKeepsIsolation(L, r, s);
    } else {
      JoinKeepsIsolation(L, r, s);
    }
  }

  lemma InactiveFolds(L: Library, h: H.Hub, book: Book, other: Book)
    requires H.FoldsOk(L, h, book) && H.NoneActive(h)
    ensures H.FoldsOk(L, h, other)
  {
    forall i | 0 <= i < |h.subscriptions| ensures H.FoldOk(L, h.applied, h.subscriptions[i], other) {
      assert H.FoldOk(L, h.applied, h.subscriptions[i], book);
    }
  }

  lemma StepKeepsFolds(L: Library, r: Runtime, e: Event)
    requires LibraryOk(L) && KeepsBaseline(L) && IgnoringIsNeutral(L)
    requires SessionInv(r) && IsolationInv(L, r) && FoldInv(L, r) && H.Usable(r.hub)
    ensures FoldInv(L, Step(L, r, e))
  {
    var s := Step(L, r, e);
    StepIsSessionStep(L, r, e);
    if QuietStep(L, r, s) {
      H.QuieterHubKeeps(r.hub, s.hub, r.core.generation);
      H.QuieterHubChains(L, r.hub, s.hub, r.core.book);
      if H.NoneActive(s.hub) {
        InactiveFolds(L, s.hub, r.core.book, s.core.book);
      }
    } else if PublishStep(L, r, s) {
      var d, time :| PublishesOne(L, r, s, d, time);
      H.PublishOrTerminateChains(
        L, r.hub, d, s.core.book, time, r.gate.shutdownCompleted, r.core.generation, r.core.book);
    } else {
      var time :| JoinsOne(r, s, r.pc.admission, time);
      var a := r.pc.admission;
      H.StageStartsAtTheCut(L, r.hub, r.limits.queue, a.request, a.depth, r.core.book, r.core.generation, time);
      H.JoinKeeps(L, r.hub, s.hub.subscriptions[|r.hub.subscriptions|], r.core.generation, r.core.book);
    }
  }
}
