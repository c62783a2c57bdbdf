/**
  Concrete runs of a new runtime that show where an intended property fails, or
  that the hypotheses of a result can be met.
 */
module RuntimeWitnesses {
  import opened Prelude
  import opened MarketTypes
  import opened ProjectionLibrary
  import opened RuntimeCore
  import opened MarketRuntime
  import opened RuntimeTickets
  import opened RuntimeRequests
  import opened RuntimeRuns
  import opened RuntimeDelivery
  import H = PublicationHub
  import C = OrderBookChannel

  /** The run through the given states, one event at a time. */
  ghost predicate Leads(L: Library, states: seq<Runtime>, events: seq<Event>) {
    && |states| == |events| + 1
    && forall i | 0 <= i < |events| :: H.Usable(states[i].hub) && Step(L, states[i], events[i]) == states[i + 1]
  }

  lemma LeadsOn(L: Library, states: seq<Runtime>, events: seq<Event>)
    requires Leads(L, states, events) && events != []
    ensures Leads(L, states[1..], events[1..])
    ensures H.Usable(states[0].hub) && Step(L, states[0], events[0]) == states[1]
  {
    forall i | 0 <= i < |events[1..]|
      ensures H.Usable(states[1..][i].hub) && Step(L, states[1..][i], events[1..][i]) == states[1..][i + 1]
    {
      var next := i + 1;
      assert H.Usable(states[next].hub) && Step(L, states[next], events[next]) == states[next + 1];
    }
  }

  lemma {:induction false} LeadsIsRun(L: Library, states: seq<Runtime>, events: seq<Event>)
    requires LibraryOk(L) && Leads(L, states, events) && Inv(L, states[0])
    ensures Run(L, states[0], events) == states[|events|]
    decreases |events|
  {
    if events != [] {
      StepKeeps(L, states[0], events[0]);
      LeadsOn(L, states, events);
      LeadsIsRun(L, states[1..], events[1..]);
    }
  }

  // A started runtime without sessions.
  function Scene(limits: Limits, core: Core, inbox: Inbox, mail: Mail, pc: Pc): Runtime {
    Runtime(limits, core, inbox, mail, Gate(true, false, false, true, false, false, false, None), H.Hub([], 1, []), pc)
  }

  const NO_MAIL := Mail([], 0, None, None, [])
  const ONE_RESET := Mail([], 0, None, Some(ResetRequest(0, 2, Recovery)), [Slot(ResetRequestKind, None)])
  const FAILURE := Ticketed(1, FailureInput(Transport))
  const UPDATE := Ticketed(2, DepthInput(Depth(0, None)))

  // ---------------------------------------------------------------- inputs that were discarded

  // A transport failure and one update are queued ...
  function QueueingEvents(): seq<Event> {
    [EvStart, ANY_ENV, EvSubmit(FAILURE.input), EvSubmit(UPDATE.input)]
  }

  function QueueingStates(L: Library, limits: Limits): seq<Runtime> {
    var core := FreshCore(L);
    [NewRuntime(L, limits),
     Scene(limits, core.(state := Constructed), Inbox([], 0, 0, []), NO_MAIL, Booting),
     Scene(limits, core, Inbox([], 0, 0, []), NO_MAIL, Idle),
     Scene(limits, core, Inbox([FAILURE], 1, 0, [Queued]), NO_MAIL, Idle),
     Scene(limits, core, Inbox([FAILURE, UPDATE], 2, 0, [Queued, Queued]), NO_MAIL, Idle)]
  }

  // ... the failure is processed and discards the update; then a reset is done.
  function LosingEvents(): seq<Event> {
    [ANY_ENV, ANY_ENV, ANY_ENV, EvAskReset(Recovery), ANY_ENV, ANY_ENV, ANY_ENV]
  }

  function LosingStates(L: Library, limits: Limits): seq<Runtime> {
    var core := FreshCore(L);
    var faulted := Fault(L, core, TransportFailure);
    var lost := Inbox([], 2, 2, [Finished, Dropped(0)]);
    [Scene(limits, core, Inbox([FAILURE, UPDATE], 2, 0, [Queued, Queued]), NO_MAIL, Idle),
     Scene(limits, core, Inbox([UPDATE], 2, 0, [InFlight, Queued]), NO_MAIL, Processing(FAILURE)),
     Scene(limits, faulted, Inbox([], 2, 2, [InFlight, Dropped(0)]), NO_MAIL, Finishing(1)),
     Scene(limits, faulted, lost, NO_MAIL, Idle),
     Scene(limits, faulted, lost, ONE_RESET, Idle),
     Scene(limits, faulted, lost, ONE_RESET, Resetting),
     Scene(limits, faulted, lost, ONE_RESET, Recommitting(Recovery)),
     Scene(limits, Reset(L, faulted), lost, ONE_RESET, Reporting)]
  }

  lemma QueueingLeads(L: Library, limits: Limits)
    requires LibraryOk(L) && LimitsOk(limits) && 2 <= limits.ingress
    ensures Leads(L, QueueingStates(L, limits), QueueingEvents())
  {
    var states, events := QueueingStates(L, limits), QueueingEvents();
    assert Step(L, states[0], events[0]) == states[1];
    assert Step(L, states[1], events[1]) == states[2];
    assert Step(L, states[2], events[2]) == states[3];
    assert Step(L, states[3], events[3]) == states[4];
  }

  lemma LosingSteps(L: Library, limits: Limits)
    requires LibraryOk(L) && LimitsOk(limits)
    ensures var (states, events) := (LosingStates(L, limits), LosingEvents());
            && Step(L, states[0], events[0]) == states[1]
            && Step(L, states[1], events[1]) == states[2]
            && Step(L, states[2], events[2]) == states[3]
  {
    FailureDiscards(L, limits);
  }

  lemma RecoverySteps(L: Library, limits: Limits)
    requires LibraryOk(L) && LimitsOk(limits)
    ensures var (states, events) := (LosingStates(L, limits), LosingEvents());
            && Step(L, states[3], events[3]) == states[4]
            && Step(L, states[4], events[4]) == states[5]
            && Step(L, states[5], events[5]) == states[6]
            && Step(L, states[6], events[6]) == states[7]
  {
  }

  lemma LosingLeads(L: Library, limits: Limits)
    requires LibraryOk(L) && LimitsOk(limits)
    ensures Leads(L, LosingStates(L, limits), LosingEvents())
  {
    LosingSteps(L, limits);
    RecoverySteps(L, limits);
  }

  lemma FailureDiscards(L: Library, limits: Limits)
    ensures var states := LosingStates(L, limits);
            Step(L, states[1], ANY_ENV) == states[2]
  {
    assert Discard(Inbox([UPDATE], 2, 0, [InFlight, Queued]), 0) == Inbox([], 2, 2, [InFlight, Dropped(0)]);
  }

  lemma QueueingIsReached(L: Library, limits: Limits)
    requires LibraryOk(L) && LimitsOk(limits) && 2 <= limits.ingress
    ensures Inv(L, NewRuntime(L, limits)) && Inv(L, LosingStates(L, limits)[0])
    ensures Run(L, NewRuntime(L, limits), QueueingEvents()) == LosingStates(L, limits)[0]
  {
    NewRuntimeInv(L, limits);
    QueueingLeads(L, limits);
    LeadsIsRun(L, QueueingStates(L, limits), QueueingEvents());
    EveryRunKeeps(L, NewRuntime(L, limits), QueueingEvents());
  }

  // The runtime that has faulted and discarded the update.
  lemma FaultedIsReached(L: Library, limits: Limits)
    requires LibraryOk(L) && LimitsOk(limits) && 2 <= limits.ingress
    ensures Inv(L, LosingStates(L, limits)[0]) && Inv(L, LosingStates(L, limits)[3])
    ensures Run(L, LosingStates(L, limits)[0], LosingEvents()[..3]) == LosingStates(L, limits)[3]
  {
    QueueingIsReached(L, limits);
    LosingLeads(L, limits);
    var states, events := LosingStates(L, limits)[..4], LosingEvents()[..3];
    assert Leads(L, states, events) by {
      forall i | 0 <= i < 3 ensures H.Usable(states[i].hub) && Step(L, states[i], events[i]) == states[i + 1] {
        assert Step(L, LosingStates(L, limits)[i], LosingEvents()[i]) == LosingStates(L, limits)[i + 1];
      }
    }
    LeadsIsRun(L, states, events);
    EveryRunKeeps(L, states[0], events);
  }

  /**
    The barrier alone does not tell: an observer that waited for both inputs
    can find a well runtime, with the barrier passed, although the second
    input was never processed, because a reset came in between.
   */
  lemma BarrierForgetsResets(L: Library, limits: Limits)
    requires LibraryOk(L) && LimitsOk(limits) && 2 <= limits.ingress
    ensures Inv(L, NewRuntime(L, limits))
    ensures var r := Run(L, NewRuntime(L, limits), QueueingEvents());
            && Inv(L, r) && r.inbox.lastAdmitted == 2
            && var s := Run(L, r, LosingEvents());
               && BarrierPassed(s, 2) && !Unwell(s.core.state) && LostBeforeReset(s, 2) && !AllFinished(s, 2)
  {
    QueueingIsReached(L, limits);
    LosingLeads(L, limits);
    LeadsIsRun(L, LosingStates(L, limits), LosingEvents());
    var s := LosingStates(L, limits)[7];
    assert s.inbox.fates[1] == Dropped(0) && s.core.resetCount == 1;
  }

  // Or a stop is requested after the failure, and the owner exits.
  function StoppingEvents(): seq<Event> {
    [ANY_ENV, ANY_ENV, ANY_ENV, EvRequestStop, ANY_ENV, ANY_ENV, ANY_ENV, ANY_ENV]
  }

  function StoppingStates(L: Library, limits: Limits): seq<Runtime> {
    var stopping := Gate(true, true, false, false, true, false, false, None);
    var faulted := LosingStates(L, limits)[3];
    var stopped := faulted.(gate := stopping);
    var shut := stopped.(gate := stopping.(shutdownCompleted := true));
    LosingStates(L, limits)[..4]
    + [stopped, stopped.(pc := ShuttingDown), shut, shut.(pc := Exiting),
       shut.(core := shut.core.(state := Stopped), pc := Exited)]
  }

  lemma StoppingSteps(L: Library, limits: Limits)
    requires LibraryOk(L) && LimitsOk(limits)
    ensures var (states, events) := (StoppingStates(L, limits), StoppingEvents());
            && Step(L, states[3], events[3]) == states[4]
            && Step(L, states[4], events[4]) == states[5]
            && Step(L, states[5], events[5]) == states[6]
            && Step(L, states[6], events[6]) == states[7]
            && Step(L, states[7], events[7]) == states[8]
  {
  }

  lemma StoppingLeads(L: Library, limits: Limits)
    requires LibraryOk(L) && LimitsOk(limits)
    ensures Leads(L, StoppingStates(L, limits), StoppingEvents())
  {
    LosingSteps(L, limits);
    StoppingSteps(L, limits);
    assert StoppingStates(L, limits)[..4] == LosingStates(L, limits)[..4];
    assert StoppingEvents()[..3] == LosingEvents()[..3];
  }

  /**
    Stopped hides it too: the barrier is passed, no reset came in between and
    the state is Stopped, although the second input was never processed.
   */
  lemma StoppedHidesDiscards(L: Library, limits: Limits)
    requires LibraryOk(L) && LimitsOk(limits) && 2 <= limits.ingress
    ensures Inv(L, NewRuntime(L, limits))
    ensures var r := Run(L, NewRuntime(L, limits), QueueingEvents());
            && Inv(L, r) && r.inbox.lastAdmitted == 2
            && var s := Run(L, r, StoppingEvents());
               && BarrierPassed(s, 2) && s.core.state == Stopped && s.core.resetCount == r.core.resetCount
               && !AllFinished(s, 2)
  {
    QueueingIsReached(L, limits);
    StoppingLeads(L, limits);
    LeadsIsRun(L, StoppingStates(L, limits), StoppingEvents());
    var s := StoppingStates(L, limits)[8];
    assert s.inbox.fates[1] == Dropped(0);
  }

  // ---------------------------------------------------------------- a session

  /** A snapshot that makes a synchronized book, and two updates that keep it so. */
  ghost predicate Serves(L: Library, snapshot: nat, first: nat, second: nat) {
    var (b0, installed) := L.install(L.initial, snapshot);
    var (b1, one) := L.apply(b0, first);
    var (b2, two) := L.apply(b1, second);
    && installed == Installed && one == Disposed(Applied) && two == Disposed(Applied)
    && L.status(b0) == Synchronized && L.status(b1) == Synchronized && L.status(b2) == Synchronized
  }

  lemma ToyServes()
    ensures Serves(ToyLibrary(), 0, 5, 6)
  {
  }

  function Baseline(snapshot: nat): Ticketed {
    Ticketed(1, SnapshotInput(snapshot, None))
  }

  const VISITOR := Admission(0, 1, 0, None)

  // The snapshot is processed; then a subscriber is admitted.
  function SessionEvents(snapshot: nat): seq<Event> {
    [EvStart, ANY_ENV, EvSubmit(Baseline(snapshot).input), ANY_ENV, ANY_ENV, ANY_ENV, ANY_ENV, ANY_ENV,
     EvAskAdmission(0, None), ANY_ENV, ANY_ENV, ANY_ENV]
  }

  function LiveCore(L: Library, snapshot: nat): Core {
    FreshCore(L).(book := L.install(L.initial, snapshot).0, status := Synchronized, state := Live)
  }

  const DONE_ONE := Inbox([], 1, 1, [Finished])

  function Visit(L: Library, limits: Limits, snapshot: nat): Option<H.Subscription> {
    H.Stage(H.Hub([], 1, []), limits.queue, 0, None, LiveCore(L, snapshot).book, None, 0)
  }

  function WithSession(L: Library, limits: Limits, snapshot: nat): Runtime
    requires 2 <= limits.queue
  {
    Scene(limits, LiveCore(L, snapshot), DONE_ONE,
          Mail([], 0, None, None, [Slot(AdmissionKind, Some(Subscribed(0)))]), Idle).(
      hub := H.Join(H.Hub([], 1, []), Visit(L, limits, snapshot).value))
  }

  function SessionStates(L: Library, limits: Limits, snapshot: nat): seq<Runtime>
    requires 2 <= limits.queue
  {
    var core := FreshCore(L);
    var installed := core.(book := L.install(L.initial, snapshot).0);
    var item := Baseline(snapshot);
    var flying := Inbox([], 1, 0, [InFlight]);
    var asked := Mail([VISITOR], 1, None, None, [Slot(AdmissionKind, None)]);
    [NewRuntime(L, limits),
     Scene(limits, core.(state := Constructed), Inbox([], 0, 0, []), NO_MAIL, Booting),
     Scene(limits, core, Inbox([], 0, 0, []), NO_MAIL, Idle),
     Scene(limits, core, Inbox([item], 1, 0, [Queued]), NO_MAIL, Idle),
     Scene(limits, core, flying, NO_MAIL, Processing(item)),
     Scene(limits, installed, flying, NO_MAIL, Replaying(1)),
     Scene(limits, installed, flying, NO_MAIL, Publishing(1, false)),
     Scene(limits, LiveCore(L, snapshot), flying, NO_MAIL, Finishing(1)),
     Scene(limits, LiveCore(L, snapshot), DONE_ONE, NO_MAIL, Idle),
     Scene(limits, LiveCore(L, snapshot), DONE_ONE, asked, Idle),
     Scene(limits, LiveCore(L, snapshot), DONE_ONE, asked.(admissions := []), Admitting(VISITOR)),
     Scene(limits, LiveCore(L, snapshot), DONE_ONE, asked.(admissions := []), Committing(VISITOR)),
     WithSession(L, limits, snapshot)]
  }

  // A part of such a run.
  ghost predicate Stretch(L: Library, states: seq<Runtime>, events: seq<Event>, from: nat, to: nat) {
    && |states| == |events| + 1 && to <= |events|
    && forall i | from <= i < to :: H.Usable(states[i].hub) && Step(L, states[i], events[i]) == states[i + 1]
  }

  lemma StartSteps(L: Library, limits: Limits, snapshot: nat)
    requires LibraryOk(L) && LimitsOk(limits) && 2 <= limits.queue
    ensures Stretch(L, SessionStates(L, limits, snapshot), SessionEvents(snapshot), 0, 4)
  {
    var states, events := SessionStates(L, limits, snapshot), SessionEvents(snapshot);
    assert Step(L, states[0], events[0]) == states[1];
    assert Step(L, states[1], events[1]) == states[2];
    assert Step(L, states[2], events[2]) == states[3];
    assert Step(L, states[3], events[3]) == states[4];
  }

  lemma SnapshotSteps(L: Library, limits: Limits, snapshot: nat)
    requires LibraryOk(L) && LimitsOk(limits) && 2 <= limits.queue
    requires L.install(L.initial, snapshot).1 == Installed
    requires L.status(L.install(L.initial, snapshot).0) == Synchronized
    ensures Stretch(L, SessionStates(L, limits, snapshot), SessionEvents(snapshot), 4, 8)
  {
    var states, events := SessionStates(L, limits, snapshot), SessionEvents(snapshot);
    assert Step(L, states[4], events[4]) == states[5];
    assert Step(L, states[5], events[5]) == states[6];
    assert Step(L, states[6], events[6]) == states[7];
    assert Step(L, states[7], events[7]) == states[8];
  }

  lemma AdmissionSteps(L: Library, limits: Limits, snapshot: nat)
    requires LibraryOk(L) && LimitsOk(limits) && 2 <= limits.queue
    ensures Stretch(L, SessionStates(L, limits, snapshot), SessionEvents(snapshot), 8, 12)
  {
    var states, events := SessionStates(L, limits, snapshot), SessionEvents(snapshot);
    assert Step(L, states[8], events[8]) == states[9];
    assert Step(L, states[9], events[9]) == states[10];
    assert Step(L, states[10], events[10]) == states[11];
    assert Step(L, states[11], events[11]) == states[12];
  }

  lemma StretchesLead(L: Library, states: seq<Runtime>, events: seq<Event>, i: nat, k: nat)
    requires i <= k
    requires Stretch(L, states, events, 0, i) && Stretch(L, states, events, i, k)
    requires Stretch(L, states, events, k, |events|)
    ensures Leads(L, states, events)
  {
  }

  lemma SessionLeads(L: Library, limits: Limits, snapshot: nat)
    requires LibraryOk(L) && LimitsOk(limits) && 2 <= limits.queue
    requires L.install(L.initial, snapshot).1 == Installed
    requires L.status(L.install(L.initial, snapshot).0) == Synchronized
    ensures Leads(L, SessionStates(L, limits, snapshot), SessionEvents(snapshot))
  {
    StartSteps(L, limits, snapshot);
    SnapshotSteps(L, limits, snapshot);
    AdmissionSteps(L, limits, snapshot);
    var states, events := SessionStates(L, limits, snapshot), SessionEvents(snapshot);
    assert |events| == 12;
    StretchesLead(L, states, events, 4, 8);
  }

  /** A session can be admitted. */
  lemma SessionIsReached(L: Library, limits: Limits, snapshot: nat)
    requires LibraryOk(L) && LimitsOk(limits) && 2 <= limits.queue
    requires L.install(L.initial, snapshot).1 == Installed
    requires L.status(L.install(L.initial, snapshot).0) == Synchronized
    ensures Inv(L, NewRuntime(L, limits)) && Inv(L, WithSession(L, limits, snapshot))
    ensures Run(L, NewRuntime(L, limits), SessionEvents(snapshot)) == WithSession(L, limits, snapshot)
  {
    NewRuntimeInv(L, limits);
    SessionLeads(L, limits, snapshot);
    LeadsIsRun(L, SessionStates(L, limits, snapshot), SessionEvents(snapshot));
    EveryRunKeeps(L, NewRuntime(L, limits), SessionEvents(snapshot));
  }

  // ---------------------------------------------------------------- a subscriber that outlives a reset

  function ResetEvents(): seq<Event> {
    [EvAskReset(Planned), ANY_ENV, ANY_ENV, ANY_ENV, ANY_ENV]
  }

  function ResetStates(L: Library, limits: Limits, snapshot: nat): seq<Runtime>
    requires 2 <= limits.queue
  {
    var live := WithSession(L, limits, snapshot);
    var asked := live.(mail := live.mail.(
      reset := Some(ResetRequest(1, 1, Planned)), slots := live.mail.slots + [Slot(ResetRequestKind, None)]));
    var ended := H.Terminate(live.hub, ResetNotice(Planned, None, Some(0)));
    var committed := asked.(core := Reset(L, live.core), hub := ended);
    [live, asked, asked.(pc := Resetting), asked.(pc := Recommitting(Planned)), committed.(pc := Reporting),
     committed.(mail := asked.mail.(slots := live.mail.slots + [Slot(ResetRequestKind, Some(WasReset))]))]
  }

  lemma ResetSteps(L: Library, limits: Limits, snapshot: nat)
    requires 2 <= limits.queue && Inv(L, WithSession(L, limits, snapshot))
    ensures H.Usable(ResetStates(L, limits, snapshot)[4].hub)
    ensures Leads(L, ResetStates(L, limits, snapshot), ResetEvents())
  {
    var states, events := ResetStates(L, limits, snapshot), ResetEvents();
    InvIsUsable(L, states[0]);
    H.TerminateKeeps(states[0].hub, ResetNotice(Planned, None, Some(0)), None);
    H.QuieterHubKeeps(states[0].hub, states[4].hub, None);
    H.StreamsAreUsable(states[4].hub);
    AskingSteps(L, limits, snapshot);
    CommitSteps(L, limits, snapshot);
  }

  lemma AskingSteps(L: Library, limits: Limits, snapshot: nat)
    requires 2 <= limits.queue && H.Usable(WithSession(L, limits, snapshot).hub)
    ensures var (states, events) := (ResetStates(L, limits, snapshot), ResetEvents());
            && Step(L, states[0], events[0]) == states[1]
            && Step(L, states[1], events[1]) == states[2]
            && Step(L, states[2], events[2]) == states[3]
  {
  }

  lemma CommitSteps(L: Library, limits: Limits, snapshot: nat)
    requires 2 <= limits.queue && H.Usable(WithSession(L, limits, snapshot).hub)
    requires H.Usable(ResetStates(L, limits, snapshot)[4].hub)
    ensures var (states, events) := (ResetStates(L, limits, snapshot), ResetEvents());
            && Step(L, states[3], events[3]) == states[4]
            && Step(L, states[4], events[4]) == states[5]
  {
  }

  /**
    A run of a new runtime, with a session admitted and a reset done, after which
    the runtime is ready with the core of a new one while a subscriber lingers:
    LingeringShows speaks of reachable states.
   */
  lemma LingeringIsReached(L: Library, limits: Limits, snapshot: nat)
    requires LibraryOk(L) && LimitsOk(limits) && 2 <= limits.queue
    requires L.install(L.initial, snapshot).1 == Installed
    requires L.status(L.install(L.initial, snapshot).0) == Synchronized
    ensures Inv(L, NewRuntime(L, limits))
    ensures var live := Run(L, NewRuntime(L, limits), SessionEvents(snapshot));
            && Inv(L, live)
            && var r := Run(L, live, ResetEvents());
               Ready(L, r) && Lingering(r.hub) && r.core == FreshCore(L).(resetCount := 1) && !r.gate.shutdownCompleted
  {
    SessionIsReached(L, limits, snapshot);
    var live := WithSession(L, limits, snapshot);
    ResetSteps(L, limits, snapshot);
    LeadsIsRun(L, ResetStates(L, limits, snapshot), ResetEvents());
    EveryRunKeeps(L, live, ResetEvents());
    var r := ResetStates(L, limits, snapshot)[5];
    H.TerminateKeeps(live.hub, ResetNotice(Planned, None, Some(0)), None);
    assert r.hub.subscriptions[0].resident && H.State(r.hub.subscriptions[0]) == C.TerminalGap;
    assert H.SweepOne(r.hub.subscriptions[0]).resident;
  }

  // ---------------------------------------------------------------- a session of two generations

  function UpdateEvents(d: Depth): seq<Event> {
    [EvSubmit(DepthInput(d)), ANY_ENV, ANY_ENV, ANY_ENV, ANY_ENV]
  }

  /** A live runtime with one active session and nothing to do. */
  ghost predicate Serving(L: Library, r: Runtime) {
    && Inv(L, r) && r.pc == Idle && !HasWork(r) && !r.gate.stopped && !r.gate.shutdownCompleted && r.gate.started
    && r.core.accepting && AllLive(r.core) && L.status(r.core.book) == Synchronized && r.core.generation.None?
    && 1 <= r.limits.ingress
    && |r.hub.subscriptions| == 1 && Young(r.hub.subscriptions[0])
  }

  /** An active session with room for one more record. */
  predicate Young(s: H.Subscription) {
    && s.resident && H.State(s) == C.Active
    && s.session.channel.next == |H.Log(s)| + 1 <= 4 && |H.Log(s)| < s.session.channel.capacity
    && s.session.channel.released <= |H.Log(s)|
  }

  lemma HandedToOne(h: H.Hub, d: Depth, after: Book)
    requires H.Usable(h) && |h.subscriptions| == 1
    requires Young(h.subscriptions[0])
    ensures H.PublishOrTerminate(h, d, after, Some(0), false, None)
         == (h.(applied := h.applied + [H.AppliedUpdate(d, after)], subscriptions := [H.AdmitOne(h.subscriptions[0], d, 0)]),
             None)
  {
    var swept := H.Sweep(h.(applied := h.applied + [H.AppliedUpdate(d, after)])).subscriptions;
    assert swept[0] == H.SweepOne(h.subscriptions[0]) == h.subscriptions[0];
    assert swept == h.subscriptions;
    H.RaisedFlags(swept);
    H.AdmitFromStep(swept, 0, d, 0);
    assert swept[0 := H.AdmitOne(swept[0], d, 0)] == [H.AdmitOne(swept[0], d, 0)];
  }

  // The runtime after one update was handed to the session.
  function Handed(L: Library, r: Runtime, d: Depth): Runtime
    requires |r.hub.subscriptions| == 1 && H.Usable(r.hub)
  {
    var ticket := r.inbox.lastAdmitted + 1;
    var book := L.apply(r.core.book, d.update).0;
    r.(core := r.core.(book := book, applied := r.core.applied + 1),
       inbox := Inbox([], ticket, ticket, r.inbox.fates + [Finished]),
       hub := r.hub.(applied := r.hub.applied + [H.AppliedUpdate(d, book)],
                     subscriptions := [H.AdmitOne(r.hub.subscriptions[0], d, 0)]))
  }

  function UpdateStates(L: Library, r: Runtime, d: Depth): seq<Runtime>
    requires |r.hub.subscriptions| == 1 && H.Usable(r.hub)
  {
    var ticket := r.inbox.lastAdmitted + 1;
    var handed := Handed(L, r, d);
    var flying := Inbox([], ticket, ticket - 1, r.inbox.fates + [InFlight]);
    var item := Ticketed(ticket, DepthInput(d));
    [r,
     r.(inbox := r.inbox.(queue := [item], lastAdmitted := ticket, fates := r.inbox.fates + [Queued])),
     r.(inbox := flying, pc := Processing(item)),
     handed.(inbox := flying, pc := Publishing(ticket, false)),
     handed.(inbox := flying, pc := Finishing(ticket)),
     handed]
  }

  lemma UpdateSteps(L: Library, r: Runtime, d: Depth)
    requires LibraryOk(L) && Serving(L, r) && H.Usable(r.hub)
    requires L.apply(r.core.book, d.update).1 == Disposed(Applied)
    requires L.status(L.apply(r.core.book, d.update).0) == Synchronized
    ensures Inv(L, Handed(L, r, d)) && Run(L, r, UpdateEvents(d)) == Handed(L, r, d)
  {
    var states, events := UpdateStates(L, r, d), UpdateEvents(d);
    assert r.inbox.processed == r.inbox.lastAdmitted == |r.inbox.fates| && r.inbox.queue == [];
    TakeSteps(L, r, d);
    HandStep(L, r, d);
    EndSteps(L, r, d);
    LeadsIsRun(L, states, events);
    EveryRunKeeps(L, r, events);
  }

  lemma TakeSteps(L: Library, r: Runtime, d: Depth)
    requires Serving(L, r) && H.Usable(r.hub) && r.inbox.queue == []
    requires r.inbox.processed == r.inbox.lastAdmitted == |r.inbox.fates|
    ensures var (states, events) := (UpdateStates(L, r, d), UpdateEvents(d));
            && Step(L, states[0], events[0]) == states[1]
            && Step(L, states[1], events[1]) == states[2]
  {
  }

  // What the hand-out needs of a serving runtime.
  ghost predicate HandsOut(L: Library, r: Runtime, d: Depth) {
    && r.pc == Idle && |r.hub.subscriptions| == 1 && Young(r.hub.subscriptions[0]) && H.Usable(r.hub)
    && !r.gate.shutdownCompleted && r.core.generation.None? && AllLive(r.core)
    && L.status(r.core.book) == Synchronized
    && L.apply(r.core.book, d.update).1 == Disposed(Applied)
    && L.status(L.apply(r.core.book, d.update).0) == Synchronized
  }

  lemma HandStep(L: Library, r: Runtime, d: Depth)
    requires HandsOut(L, r, d)
    ensures var (states, events) := (UpdateStates(L, r, d), UpdateEvents(d));
            H.Usable(Handed(L, r, d).hub) && Step(L, states[2], events[2]) == states[3]
  {
    HandedToOne(r.hub, d, L.apply(r.core.book, d.update).0);
  }

  lemma EndSteps(L: Library, r: Runtime, d: Depth)
    requires HandsOut(L, r, d) && H.Usable(Handed(L, r, d).hub) && r.core.accepting
    requires r.inbox.processed == r.inbox.lastAdmitted == |r.inbox.fates|
    ensures var (states, events) := (UpdateStates(L, r, d), UpdateEvents(d));
            && Step(L, states[3], events[3]) == states[4]
            && Step(L, states[4], events[4]) == states[5]
  {
    var fates := r.inbox.fates;
    assert (fates + [InFlight])[|fates| := Finished] == fates + [Finished];
  }

  lemma SessionServes(L: Library, limits: Limits, snapshot: nat)
    requires LimitsOk(limits) && 4 <= limits.queue && Inv(L, WithSession(L, limits, snapshot))
    requires L.status(L.install(L.initial, snapshot).0) == Synchronized
    ensures Serving(L, WithSession(L, limits, snapshot)) && H.Usable(WithSession(L, limits, snapshot).hub)
    ensures var s := WithSession(L, limits, snapshot).hub.subscriptions[0];
            |H.Log(s)| == 2 && 4 <= s.session.channel.capacity
  {
    InvIsUsable(L, WithSession(L, limits, snapshot));
  }

  lemma HandedServes(L: Library, r: Runtime, d: Depth)
    requires LibraryOk(L) && Serving(L, r) && H.Usable(r.hub)
    requires L.apply(r.core.book, d.update).1 == Disposed(Applied)
    requires L.status(L.apply(r.core.book, d.update).0) == Synchronized
    ensures var s := Handed(L, r, d);
            && Inv(L, s) && H.Usable(s.hub) && Run(L, r, UpdateEvents(d)) == s
            && (Young(s.hub.subscriptions[0]) ==> Serving(L, s))
  {
    UpdateSteps(L, r, d);
    InvIsUsable(L, Handed(L, r, d));
  }

  lemma HandedStaysActive(s: H.Subscription, d: Depth)
    requires Young(s)
    ensures var t := H.AdmitOne(s, d, 0);
            && (|H.Log(t)| <= 3 && |H.Log(t)| < t.session.channel.capacity ==> Young(t))
            && t.session.channel.capacity == s.session.channel.capacity
            && H.Log(t) == H.Log(s) + [C.Record(s.session.channel.next, d.generation, 0, C.Update(d.update))]
  {
  }

  // `r` runs to `s` when the update `d` arrives.
  ghost predicate RunsTo(L: Library, r: Runtime, d: Depth, s: Runtime)
    requires LibraryOk(L)
  {
    Inv(L, r) && Inv(L, s) && Run(L, r, UpdateEvents(d)) == s
  }

  lemma TwoUpdates(L: Library, r: Runtime, d: Depth, e: Depth)
    requires LibraryOk(L) && Serving(L, r) && H.Usable(r.hub)
    requires |H.Log(r.hub.subscriptions[0])| == 2 && 4 <= r.hub.subscriptions[0].session.channel.capacity
    requires var (b1, one) := L.apply(r.core.book, d.update);
             var (b2, two) := L.apply(b1, e.update);
             one == two == Disposed(Applied) && L.status(b1) == L.status(b2) == Synchronized
    ensures H.Usable(Handed(L, r, d).hub)
    ensures var once := Handed(L, r, d);
            var twice := Handed(L, once, e);
            && RunsTo(L, r, d, once) && RunsTo(L, once, e, twice)
            && var log := H.Log(twice.hub.subscriptions[0]);
               |log| == 4 && log[2].generation == d.generation && log[3].generation == e.generation
  {
    HandedServes(L, r, d);
    HandedStaysActive(r.hub.subscriptions[0], d);
    HandedServes(L, Handed(L, r, d), e);
    HandedStaysActive(Handed(L, r, d).hub.subscriptions[0], e);
  }

  /**
    A known generation is needed for isolation: in this run the snapshot names
    none, and one session carries updates of two generations.
   */
  lemma UnknownGenerationMixes(L: Library, limits: Limits, snapshot: nat, first: nat, second: nat)
    requires LibraryOk(L) && LimitsOk(limits) && 4 <= limits.queue && Serves(L, snapshot, first, second)
    ensures Inv(L, NewRuntime(L, limits))
    ensures exists once: Runtime, twice: Runtime ::
              var live := Run(L, NewRuntime(L, limits), SessionEvents(snapshot));
              && RunsTo(L, live, Depth(first, Some(1)), once)
              && RunsTo(L, once, Depth(second, Some(2)), twice)
              && |twice.hub.subscriptions| == 1
              && var log := H.Log(twice.hub.subscriptions[0]);
                 |log| == 4 && log[2].generation == Some(1) && log[3].generation == Some(2)
  {
    SessionIsReached(L, limits, snapshot);
    SessionServes(L, limits, snapshot);
    var (d, e) := (Depth(first, Some(1)), Depth(second, Some(2)));
    var live := WithSession(L, limits, snapshot);
    TwoUpdates(L, live, d, e);
    var once := Handed(L, live, d);
    assert RunsTo(L, live, d, once) && RunsTo(L, once, e, Handed(L, once, e));
  }

  /** Such a library exists, with everything that is assumed of libraries anywhere. */
  lemma MixingIsPossible()
    ensures exists L: Library, snapshot: nat, first: nat, second: nat ::
              LibraryOk(L) && KeepsBaseline(L) && IgnoringIsNeutral(L) && Serves(L, snapshot, first, second)
  {
    AssumptionsAreConsistent();
    ToyServes();
  }
}
