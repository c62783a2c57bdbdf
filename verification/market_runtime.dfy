/**
  The market runtime as a state machine: what the callers do and what the owner
  thread does, one critical section at a time, with an explicit in-flight item.

  Source: src/g3/market_runtime.cpp.
 */
module MarketRuntime {
  import opened Prelude
  import opened MarketTypes
  import opened ProjectionLibrary
  import opened RuntimeCore
  import H = PublicationHub
  import C = OrderBookChannel

  /** Capacities; the constructor refuses zero. */
  datatype Limits = Limits(ingress: nat, bootstrap: nat, active: nat, queue: nat, pending: nat)

  ghost predicate LimitsOk(l: Limits) {
    1 <= l.ingress && 1 <= l.bootstrap && 1 <= l.active && 1 <= l.queue && 1 <= l.pending
  }

  datatype Ticketed = Ticketed(ticket: nat, input: Input)

  // What became of an admitted input. A dropped one remembers how many resets
  // had happened when it was discarded.
  datatype Fate = Queued | InFlight | Finished | Dropped(epoch: nat)

  /** The bounded ingress; `fates[t - 1]` is the history of ticket t. */
  datatype Inbox = Inbox(queue: seq<Ticketed>, lastAdmitted: nat, processed: nat, fates: seq<Fate>)

  datatype ResetKind = Recovery | Planned
  datatype AdmissionError =
    | AdmissionNotStarted | NotLive | PendingLimit | ActiveLimit | InvalidDepthLimit | ShuttingDownNow
    | AdmissionClockError | IdExhausted | AdmissionInternalError | AdmissionStopped
  datatype SnapshotError =
    | SnapshotNotStarted | SnapshotNotLive | SnapshotBusy | SnapshotFaulted | SnapshotStopping | SnapshotStopped
    | SnapshotClockError | SnapshotInternalError | SnapshotAdapterError
  datatype ResetError = ResetNotStarted | InvalidState | ResetBusy | ResetStopping | ResetStopped

  datatype Answer =
    | Subscribed(session: nat)
    | Refused(admissionError: AdmissionError)
    | Captured(book: Book, time: nat)
    | NotCaptured(snapshotError: SnapshotError)
    | WasReset
    | NotReset(resetError: ResetError)

  datatype Kind = AdmissionKind | SnapshotKind | ResetRequestKind
  datatype Slot = Slot(kind: Kind, answer: Option<Answer>)

  datatype Admission = Admission(id: nat, target: nat, request: nat, depth: Option<int>)
  datatype SnapshotRequest = SnapshotRequest(id: nat, target: nat)
  datatype ResetRequest = ResetRequest(id: nat, target: nat, kind: ResetKind)

  /** The mailboxes. `slots` is the history of the results, by request number. */
  datatype Mail = Mail(
    admissions: seq<Admission>,
    pending: nat,
    snapshot: Option<SnapshotRequest>,
    reset: Option<ResetRequest>,
    slots: seq<Slot>)

  datatype Gate = Gate(
    started: bool,
    stopRequested: bool,
    stopped: bool,
    admissionOpen: bool,
    shutdownRequested: bool,
    shutdownCompleted: bool,
    removalPending: bool,
    pendingFault: Option<FaultReason>)

  datatype Pc =
    | NotStarted
    | Booting
    | Idle
    | ShuttingDown
    | Faulting(reason: FaultReason)
    | Resetting
    | Recommitting(kind: ResetKind)
    | Reporting
    | Admitting(admission: Admission)
    | Committing(admission: Admission)
    | Snapshotting
    | Sweeping
    | Processing(item: Ticketed)
    | Publishing(ticket: nat, replaying: bool)   // the state is to be published
    | Replaying(ticket: nat)                     // the bootstrap buffer is being replayed
    | Finishing(ticket: nat)
    | Exiting
    | Exited

  datatype Runtime = Runtime(limits: Limits, core: Core, inbox: Inbox, mail: Mail, gate: Gate, hub: H.Hub, pc: Pc)

  datatype Materialized = Made | DepthRejected | AdapterFailed | MaterializeThrew

  /** What the owner meets outside the runtime: a clock sample, and the snapshot adapter. */
  datatype Env = Env(time: Option<nat>, depthValid: bool, materialized: Materialized)

  function NewRuntime(L: Library, limits: Limits): Runtime {
    Runtime(
      limits,
      Core(L.initial, [], None, Constructed, L.status(L.initial), None, false, 0, 0),
      Inbox([], 0, 0, []),
      Mail([], 0, None, None, []),
      Gate(false, false, false, false, false, false, false, None),
      H.Hub([], 1, []),
      NotStarted)
  }

  // ---------------------------------------------------------------- small pieces

  function Mark(inbox: Inbox, ticket: nat, fate: Fate): Inbox {
    if 1 <= ticket <= |inbox.fates| then inbox.(fates := inbox.fates[ticket - 1 := fate]) else inbox
  }

  function Discard(inbox: Inbox, epoch: nat): Inbox {
    if inbox.queue == [] then inbox
    else
      var last := inbox.queue[|inbox.queue| - 1].ticket;
      inbox.(
        processed := Max(inbox.processed, last),
        queue := [],
        fates := seq(|inbox.fates|, i requires 0 <= i < |inbox.fates| =>
          if inbox.fates[i] == Queued then Dropped(epoch) else inbox.fates[i]))
  }

  function Finish(inbox: Inbox, ticket: nat): Inbox {
    Mark(inbox.(processed := Max(inbox.processed, ticket)), ticket, Finished)
  }

  predicate Unanswered(mail: Mail, id: nat) {
    id < |mail.slots| && mail.slots[id].answer.None?
  }

  /** A result is written once. */
  function AnswerTo(mail: Mail, id: nat, answer: Answer): Mail {
    if Unanswered(mail, id) then mail.(slots := mail.slots[id := mail.slots[id].(answer := Some(answer))]) else mail
  }

  function CompleteAdmission(mail: Mail, id: nat, answer: Answer): Mail {
    if Unanswered(mail, id) then AnswerTo(mail, id, answer).(pending := if mail.pending == 0 then 0 else mail.pending - 1)
    else mail
  }

  function AnswerEach(mail: Mail, admissions: seq<Admission>, error: AdmissionError): Mail
    decreases |admissions|
  {
    if admissions == [] then mail
    else AnswerEach(AnswerTo(mail, admissions[0].id, Refused(error)), admissions[1..], error)
  }

  function CompleteAllAdmissions(mail: Mail, error: AdmissionError): Mail {
    AnswerEach(mail, mail.admissions, error).(admissions := [], pending := 0)
  }

  function AnswerSnapshot(mail: Mail, answer: Answer): Mail {
    if mail.snapshot.None? then mail else AnswerTo(mail, mail.snapshot.value.id, answer)
  }

  function AnswerReset(mail: Mail, answer: Answer): Mail {
    if mail.reset.None? then mail else AnswerTo(mail, mail.reset.value.id, answer)
  }

  predicate SnapshotWaiting(r: Runtime) {
    r.mail.snapshot.Some? && Unanswered(r.mail, r.mail.snapshot.value.id)
  }

  predicate ResetWaiting(r: Runtime) {
    r.mail.reset.Some? && Unanswered(r.mail, r.mail.reset.value.id)
  }

  predicate SnapshotReady(r: Runtime) {
    SnapshotWaiting(r) && r.inbox.processed >= r.mail.snapshot.value.target
  }

  predicate ResetReady(r: Runtime) {
    ResetWaiting(r) && r.inbox.processed >= r.mail.reset.value.target
  }

  predicate AdmissionReady(r: Runtime) {
    r.mail.admissions != [] && r.inbox.processed >= r.mail.admissions[0].target
  }

  predicate ShutdownWaiting(r: Runtime) {
    r.gate.shutdownRequested && !r.gate.shutdownCompleted
  }

  predicate AllLive(c: Core) {
    c.state == Live && c.status == Synchronized && c.fault.None?
  }

  predicate GateShut(r: Runtime) {
    !r.gate.admissionOpen || r.gate.shutdownRequested || r.gate.stopRequested || r.gate.stopped
  }

  /** transition_to_fault: end every session, then one critical section. */
  function ToFault(L: Library, r: Runtime, reason: FaultReason, time: Option<nat>): Runtime {
    r.(core := Fault(L, r.core, reason),
       hub := H.Terminate(r.hub, H.FaultNotice(r.core.generation, time)),
       inbox := Discard(r.inbox, r.core.resetCount),
       mail := AnswerSnapshot(r.mail, NotCaptured(SnapshotFaulted)))
  }

  /** publish_projection_state. */
  function ToPublished(L: Library, r: Runtime): Runtime {
    r.(core := PublishState(L, r.core),
       inbox := if L.status(r.core.book) == ResyncRequired then Discard(r.inbox, r.core.resetCount) else r.inbox)
  }

  /** apply_update up to the publication of the state. */
  function ToApplied(L: Library, r: Runtime, d: Depth, time: Option<nat>): (Runtime, Outcome)
    requires H.Usable(r.hub)
  {
    if Mismatched(r.core, d) then (ToFault(L, r, InternalError, time), Failed)
    else
      var (book, result) := L.apply(r.core.book, d.update);
      var after := r.(core := r.core.(book := book));
      match result
      case ApplyThrew => (ToFault(L, after, InternalError, time), Thrown)
      case ApplyAdapterError => (ToFault(L, after, AdapterError, time), Failed)
      case Disposed(disposition) =>
        var next :=
          if disposition == Applied then
            var (hub, trouble) :=
              H.PublishOrTerminate(r.hub, d, book, time, r.gate.shutdownCompleted, r.core.generation);
            var counted := after.core.(applied := r.core.applied + 1);
            if trouble.Some?
            then after.(core := Fault(L, counted, trouble.value),
                        hub := hub,
                        inbox := Discard(r.inbox, r.core.resetCount),
                        mail := AnswerSnapshot(r.mail, NotCaptured(SnapshotFaulted)))
            else after.(core := counted, hub := hub)
          else if disposition == GapDetected then
            var gap := H.Notice(C.UpstreamSequenceGap, C.RequestNewSnapshot, d.generation, H.TimeOrZero(time));
            after.(hub := H.Terminate(r.hub, gap))
          else after;
        (next, Done(disposition))
  }

  // ---------------------------------------------------------------- the owner thread

  predicate HasWork(r: Runtime) {
    || ShutdownWaiting(r)
    || r.gate.pendingFault.Some?
    || ResetReady(r)
    || AdmissionReady(r)
    || SnapshotReady(r)
    || r.gate.removalPending
    || r.inbox.queue != []
    || r.gate.stopRequested
  }

  /** The owner's selection; with nothing to do it stays blocked. */
  function Select(r: Runtime): Runtime {
    if ShutdownWaiting(r) then r.(pc := ShuttingDown)
    else if r.gate.pendingFault.Some? then
      r.(gate := r.gate.(pendingFault := None), pc := Faulting(r.gate.pendingFault.value))
    else if ResetReady(r) then r.(pc := Resetting)
    else if AdmissionReady(r) then
      r.(mail := r.mail.(admissions := r.mail.admissions[1..]), pc := Admitting(r.mail.admissions[0]))
    else if SnapshotReady(r) then r.(pc := Snapshotting)
    else if r.gate.removalPending then r.(gate := r.gate.(removalPending := false), pc := Sweeping)
    else if r.inbox.queue != [] then
      var item := r.inbox.queue[0];
      r.(inbox := Mark(r.inbox.(queue := r.inbox.queue[1..]), item.ticket, InFlight), pc := Processing(item))
    else if r.gate.stopRequested then r.(pc := Exiting)
    else r
  }

  function ShutDown(r: Runtime): Runtime {
    r.(hub := H.CloseAll(r.hub),
       gate := r.gate.(admissionOpen := false, shutdownCompleted := true),
       mail := CompleteAllAdmissions(r.mail, ShuttingDownNow),
       pc := Idle)
  }

  function CheckReset(r: Runtime): Runtime {
    if r.mail.reset.None? then r.(pc := Idle)
    else
      var kind := r.mail.reset.value.kind;
      if (kind == Recovery && r.core.state != Faulted && r.core.state != NeedsResync)
         || (kind == Planned && !AllLive(r.core))
      then r.(mail := AnswerReset(r.mail, NotReset(InvalidState)), pc := Idle)
      else r.(pc := Recommitting(kind))
  }

  function ResetNotice(kind: ResetKind, generation: Option<nat>, time: Option<nat>): H.Notice {
    if kind == Planned
    then H.Notice(C.ConnectionGenerationChanged, C.Resubscribe, generation, H.TimeOrZero(time))
    else H.Notice(C.ResumeNotAvailable, C.RequestNewSnapshot, generation, H.TimeOrZero(time))
  }

  function CommitReset(L: Library, r: Runtime, kind: ResetKind, time: Option<nat>): Runtime {
    r.(hub := H.Terminate(r.hub, ResetNotice(kind, r.core.generation, time)), core := Reset(L, r.core), pc := Reporting)
  }

  function CheckAdmission(r: Runtime, a: Admission): Runtime {
    var swept := r.(hub := H.Sweep(r.hub));
    if GateShut(r) then swept.(mail := CompleteAdmission(r.mail, a.id, Refused(ShuttingDownNow)), pc := Idle)
    else if !AllLive(r.core) then swept.(mail := CompleteAdmission(r.mail, a.id, Refused(NotLive)), pc := Idle)
    else swept.(pc := Committing(a))
  }

  function CommitAdmission(r: Runtime, a: Admission, env: Env): Runtime {
    var refusal :=
      if H.Residents(r.hub.subscriptions) >= r.limits.active then Some(ActiveLimit)
      else if a.depth.Some? && !env.depthValid then Some(InvalidDepthLimit)
      else if env.time.None? then Some(AdmissionClockError)
      else if r.hub.nextId == MAX_UINT64 then Some(IdExhausted)
      else if env.materialized == DepthRejected then Some(InvalidDepthLimit)
      else if env.materialized == AdapterFailed || env.materialized == MaterializeThrew then Some(AdmissionInternalError)
      else None;
    if refusal.Some? then r.(mail := CompleteAdmission(r.mail, a.id, Refused(refusal.value)), pc := Idle)
    else
      var staged := H.Stage(r.hub, r.limits.queue, a.request, a.depth, r.core.book, r.core.generation, env.time.value);
      if staged.None? then r.(mail := CompleteAdmission(r.mail, a.id, Refused(ActiveLimit)), pc := Idle)
      else if GateShut(r) then r.(mail := CompleteAdmission(r.mail, a.id, Refused(ShuttingDownNow)), pc := Idle)
      else if !AllLive(r.core) then r.(mail := CompleteAdmission(r.mail, a.id, Refused(NotLive)), pc := Idle)
      else
        r.(hub := H.Join(r.hub, staged.value),
           mail := CompleteAdmission(r.mail, a.id, Subscribed(|r.hub.subscriptions|)),
           pc := Idle)
  }

  function Capture(r: Runtime, env: Env): Answer {
    if r.core.state != Live then NotCaptured(SnapshotNotLive)
    else if env.time.None? then NotCaptured(SnapshotClockError)
    else
      match env.materialized
      case Made => Captured(r.core.book, env.time.value)
      case DepthRejected => NotCaptured(SnapshotAdapterError)
      case AdapterFailed => NotCaptured(SnapshotAdapterError)
      case MaterializeThrew => NotCaptured(SnapshotInternalError)
  }

  function ProcessDepth(L: Library, r: Runtime, ticket: nat, d: Depth, env: Env): Runtime
    requires H.Usable(r.hub)
  {
    if L.status(r.core.book) == AwaitingBaseline then
      if |r.core.bootstrap| == r.limits.bootstrap
      then ToFault(L, r, BootstrapBufferOverflow, env.time).(pc := Finishing(ticket))
      else r.(core := r.core.(bootstrap := r.core.bootstrap + [d]), pc := Publishing(ticket, false))
    else
      var (next, outcome) := ToApplied(L, r, d, env.time);
      next.(pc := if outcome.Done? then Publishing(ticket, false) else Finishing(ticket))
  }

  function ProcessSnapshot(L: Library, r: Runtime, ticket: nat, snapshot: nat, generation: Option<nat>, env: Env)
    : Runtime
  {
    var (book, result) := L.install(r.core.book, snapshot);
    var after := r.(core := r.core.(book := book));
    match result
    case InstallAdapterError => ToFault(L, after, AdapterError, env.time).(pc := Finishing(ticket))
    case InstallThrew => ToFault(L, after, InternalError, env.time).(pc := Finishing(ticket))
    case InstallRejected => ToFault(L, after, ProjectionRejected, env.time).(pc := Finishing(ticket))
    case Installed => after.(core := after.core.(generation := generation), pc := Replaying(ticket))
  }

  function ProcessItem(L: Library, r: Runtime, item: Ticketed, env: Env): Runtime
    requires H.Usable(r.hub)
  {
    match item.input
    case DepthInput(d) => ProcessDepth(L, r, item.ticket, d, env)
    case SnapshotInput(snapshot, generation) => ProcessSnapshot(L, r, item.ticket, snapshot, generation, env)
    case FailureInput(failure) => ToFault(L, r, FailureReason(failure), env.time).(pc := Finishing(item.ticket))
  }

  /** One turn of the replay loop. */
  function ReplayOne(L: Library, r: Runtime, ticket: nat, env: Env): Runtime
    requires H.Usable(r.hub)
  {
    if L.status(r.core.book) == ResyncRequired || r.core.state == Faulted then
      r.(core := r.core.(bootstrap := []), pc := Publishing(ticket, false))
    else if r.core.bootstrap == [] then r.(pc := Publishing(ticket, false))
    else
      var d := r.core.bootstrap[0];
      var (next, outcome) := ToApplied(L, r.(core := r.core.(bootstrap := r.core.bootstrap[1..])), d, env.time);
      next.(pc := match outcome
                  case Thrown => Finishing(ticket)
                  case Failed => Replaying(ticket)
                  case Done(_) => Publishing(ticket, true))
  }

  function Exit(L: Library, r: Runtime): Runtime {
    var mail := AnswerReset(AnswerSnapshot(r.mail, NotCaptured(SnapshotStopped)), NotReset(ResetStopped));
    r.(core := r.core.(status := L.status(r.core.book), state := Stopped),
       mail := CompleteAllAdmissions(mail, AdmissionStopped),
       hub := H.CloseAll(r.hub),
       pc := Exited)
  }

  /** One step of the owner thread. */
  function OwnerStep(L: Library, r: Runtime, env: Env): Runtime
    requires H.Usable(r.hub)
  {
    match r.pc
    case NotStarted => r
    case Booting => r.(core := r.core.(state := Buffering, status := L.status(r.core.book)), pc := Idle)
    case Idle => Select(r)
    case ShuttingDown => ShutDown(r)
    case Faulting(reason) => ToFault(L, r, reason, env.time).(pc := Idle)
    case Resetting => CheckReset(r)
    case Recommitting(kind) => CommitReset(L, r, kind, env.time)
    case Reporting => r.(mail := AnswerReset(r.mail, WasReset), pc := Idle)
    case Admitting(a) => CheckAdmission(r, a)
    case Committing(a) => CommitAdmission(r, a, env)
    case Snapshotting => r.(mail := AnswerSnapshot(r.mail, Capture(r, env)), pc := Idle)
    case Sweeping => r.(hub := H.Sweep(r.hub), pc := Idle)
    case Processing(item) => ProcessItem(L, r, item, env)
    case Publishing(ticket, replaying) =>
      ToPublished(L, r).(pc := if replaying then Replaying(ticket) else Finishing(ticket))
    case Replaying(ticket) => ReplayOne(L, r, ticket, env)
    case Finishing(ticket) => r.(inbox := Finish(r.inbox, ticket), pc := Idle)
    case Exiting => Exit(L, r)
    case Exited => r
  }

  // ---------------------------------------------------------------- the callers

  function Start(r: Runtime): Runtime {
    if r.gate.stopped || r.gate.started then r
    else
      r.(gate := r.gate.(started := true, admissionOpen := !r.gate.shutdownCompleted),
         core := r.core.(accepting := true),
         pc := Booting)
  }

  datatype SubmitResult = Accepted | Full | SubmitNotStarted | SubmitStopping | SubmitStopped | SubmitFaulted

  function Submit(r: Runtime, input: Input): (Runtime, SubmitResult) {
    if r.gate.stopped then (r, SubmitStopped)
    else if !r.gate.started then (r, SubmitNotStarted)
    else if r.gate.stopRequested then (r, SubmitStopping)
    else if !r.core.accepting then (r, SubmitFaulted)
    else if |r.inbox.queue| == r.limits.ingress then
      (r.(core := r.core.(accepting := false), gate := r.gate.(pendingFault := Some(IngressOverflow))), Full)
    else
      var ticket := r.inbox.lastAdmitted + 1;
      (r.(inbox := r.inbox.(lastAdmitted := ticket,
                            queue := r.inbox.queue + [Ticketed(ticket, input)],
                            fates := r.inbox.fates + [Queued])),
       Accepted)
  }

  function Post(mail: Mail, kind: Kind): Mail {
    mail.(slots := mail.slots + [Slot(kind, None)])
  }

  function AskSnapshot(r: Runtime): (Runtime, Option<SnapshotError>) {
    if r.gate.stopped then (r, Some(SnapshotStopped))
    else if !r.gate.started then (r, Some(SnapshotNotStarted))
    else if r.gate.stopRequested then (r, Some(SnapshotStopping))
    else if r.core.state == Faulted || r.core.state == NeedsResync then (r, Some(SnapshotFaulted))
    else if r.mail.snapshot.Some? then (r, Some(SnapshotBusy))
    else
      (r.(mail := Post(r.mail, SnapshotKind).(
            snapshot := Some(SnapshotRequest(|r.mail.slots|, r.inbox.lastAdmitted)))), None)
  }

  function AskReset(r: Runtime, kind: ResetKind): (Runtime, Option<ResetError>) {
    if r.gate.stopped then (r, Some(ResetStopped))
    else if !r.gate.started then (r, Some(ResetNotStarted))
    else if r.gate.stopRequested then (r, Some(ResetStopping))
    else if kind == Recovery && r.core.state != Faulted && r.core.state != NeedsResync then (r, Some(InvalidState))
    else if kind == Planned && !AllLive(r.core) then (r, Some(InvalidState))
    else if r.mail.reset.Some? then (r, Some(ResetBusy))
    else
      (r.(mail := Post(r.mail, ResetRequestKind).(
            reset := Some(ResetRequest(|r.mail.slots|, r.inbox.lastAdmitted, kind)))), None)
  }

  function AskAdmission(r: Runtime, request: nat, depth: Option<int>): (Runtime, Option<AdmissionError>) {
    if r.gate.stopped then (r, Some(AdmissionStopped))
    else if !r.gate.started then (r, Some(AdmissionNotStarted))
    else if GateShut(r) || r.gate.shutdownCompleted then (r, Some(ShuttingDownNow))
    else if !AllLive(r.core) then (r, Some(NotLive))
    else if r.mail.pending == r.limits.pending then (r, Some(PendingLimit))
    else
      (r.(mail := Post(r.mail, AdmissionKind).(
            admissions := r.mail.admissions + [Admission(|r.mail.slots|, r.inbox.lastAdmitted, request, depth)],
            pending := r.mail.pending + 1)), None)
  }

  /** The caller of capture_snapshot takes its result and frees the mailbox. */
  function TakeSnapshot(r: Runtime): Runtime {
    if r.mail.snapshot.Some? && !SnapshotWaiting(r) then r.(mail := r.mail.(snapshot := None)) else r
  }

  function TakeReset(r: Runtime): Runtime {
    if r.mail.reset.Some? && !ResetWaiting(r) then r.(mail := r.mail.(reset := None)) else r
  }

  function CloseAdmission(r: Runtime): Runtime {
    r.(gate := r.gate.(admissionOpen := false))
  }

  function RequestShutdown(r: Runtime): Runtime {
    var shut := r.(gate := r.gate.(admissionOpen := false));
    if r.gate.shutdownCompleted || r.gate.stopped then shut
    else if !r.gate.started then shut.(gate := shut.gate.(shutdownRequested := true, shutdownCompleted := true))
    else shut.(gate := shut.gate.(shutdownRequested := true))
  }

  function NotifyClosed(r: Runtime): Runtime {
    r.(gate := r.gate.(removalPending := true))
  }

  function RequestStop(r: Runtime): Runtime {
    if r.gate.stopped then r
    else if !r.gate.started then
      r.(core := r.core.(accepting := false, state := Stopped), gate := r.gate.(stopped := true))
    else
      r.(core := r.core.(
           accepting := false,
           state := if r.core.state == Faulted || r.core.state == NeedsResync then r.core.state else Stopping),
         gate := r.gate.(admissionOpen := false, shutdownRequested := true, stopRequested := true))
  }

  /** stop() after it joined the owner. */
  function Joined(r: Runtime): Runtime {
    if r.pc != Exited || r.gate.stopped then r
    else
      r.(gate := r.gate.(stopped := true),
         core := r.core.(state := Stopped),
         mail := CompleteAllAdmissions(AnswerSnapshot(r.mail, NotCaptured(SnapshotStopped)), AdmissionStopped))
  }

  datatype Event =
    | EvOwner(env: Env)
    | EvStart
    | EvSubmit(input: Input)
    | EvAskSnapshot
    | EvAskReset(kind: ResetKind)
    | EvAskAdmission(request: nat, depth: Option<int>)
    | EvTakeSnapshot
    | EvTakeReset
    | EvCloseAdmission
    | EvRequestShutdown
    | EvNotifyClosed
    | EvRequestStop
    | EvJoined
    | EvWriter(session: nat, cancelled: bool, outcome: C.WriteOutcome)

  /** Everything that can happen next, in any order. */
  function Step(L: Library, r: Runtime, e: Event): Runtime
    requires H.Usable(r.hub)
  {
    match e
    case EvOwner(env) => OwnerStep(L, r, env)
    case EvStart => Start(r)
    case EvSubmit(input) => Submit(r, input).0
    case EvAskSnapshot => AskSnapshot(r).0
    case EvAskReset(kind) => AskReset(r, kind).0
    case EvAskAdmission(request, depth) => AskAdmission(r, request, depth).0
    case EvTakeSnapshot => TakeSnapshot(r)
    case EvTakeReset => TakeReset(r)
    case EvCloseAdmission => CloseAdmission(r)
    case EvRequestShutdown => RequestShutdown(r)
    case EvNotifyClosed => NotifyClosed(r)
    case EvRequestStop => RequestStop(r)
    case EvJoined => Joined(r)
    case EvWriter(session, cancelled, outcome) => r.(hub := H.Write(r.hub, session, cancelled, outcome))
  }
}
