/**
  The journal of a run lists exactly the inputs finished since the last reset,
  and the main results about the core over every run: what it is, that
  buffering does not show in it, and that nothing from before a reset does.
 */
module RuntimeJournal {
  import opened Prelude
  import opened MarketTypes
  import opened ProjectionLibrary
  import opened RuntimeCore
  import opened CoreHistory
  import opened MarketRuntime
  import opened RuntimeTickets
  import opened RuntimeRequests
  import opened RuntimeRuns
  import opened RuntimeHistory
  import H = PublicationHub

  // ---------------------------------------------------------------- which inputs the journal lists

  function WorkedInputs(hs: seq<Happening>): seq<Input> {
    if hs == [] then []
    else
      var last := hs[|hs| - 1];
      WorkedInputs(hs[..|hs| - 1]) + if last.Worked? then [last.input] else []
  }

  lemma WorkedOneMore(hs: seq<Happening>, h: Happening)
    ensures WorkedInputs(hs + [h]) == WorkedInputs(hs) + if h.Worked? then [h.input] else []
  {
    assert (hs + [h])[..|hs + [h]| - 1] == hs;
  }

  function InputOf(j: Journal, ticket: nat): Input {
    if 1 <= ticket <= |j.submitted| then j.submitted[ticket - 1] else FailureInput(Transport)
  }

  // No ticket beyond this one is listed.
  function Bound(r: Runtime): int {
    match InFlightTicket(r.pc)
    case Some(ticket) => ticket - 1
    case None => r.inbox.lastAdmitted - |r.inbox.queue|
  }

  /** The inputs travel with their tickets. */
  ghost predicate Carried(j: Journal, r: Runtime) {
    && |j.submitted| == r.inbox.lastAdmitted
    && (forall i | 0 <= i < |r.inbox.queue| :: r.inbox.queue[i].input == InputOf(j, r.inbox.queue[i].ticket))
    && (j.inFlight.Some? <==> InFlightTicket(r.pc).Some?)
    && (j.inFlight.Some? ==> j.inFlight.value == InputOf(j, InFlightTicket(r.pc).value))
  }

  /** The listed tickets increase, are finished and come with their inputs. */
  ghost predicate Listed(j: Journal, r: Runtime) {
    && |WorkedInputs(j.happenings)| == |j.tickets|
    && (forall i | 0 <= i < |j.tickets| ::
          && j.since < j.tickets[i] <= Bound(r) && j.tickets[i] <= |r.inbox.fates|
          && WorkedInputs(j.happenings)[i] == InputOf(j, j.tickets[i])
          && r.inbox.fates[j.tickets[i] - 1] == Finished)
    && (forall i, k | 0 <= i < k < |j.tickets| :: j.tickets[i] < j.tickets[k])
  }

  /** The journal lists exactly the tickets that were finished since the last reset, in order, with their inputs. */
  ghost predicate Exact(j: Journal, r: Runtime) {
    && Carried(j, r)
    && j.since <= r.inbox.processed && j.since <= Bound(r)
    && Listed(j, r)
    && (forall i | j.since <= i < |r.inbox.fates| && r.inbox.fates[i] == Finished :: i + 1 in j.tickets)
  }

  // The same page of the journal.
  ghost predicate SamePage(j: Journal, k: Journal) {
    && k.tickets == j.tickets && k.since == j.since && k.submitted == j.submitted && k.inFlight == j.inFlight
    && WorkedInputs(k.happenings) == WorkedInputs(j.happenings)
  }

  lemma SameInboxExact(j: Journal, r: Runtime, k: Journal, s: Runtime)
    requires Exact(j, r) && SamePage(j, k) && s.inbox == r.inbox && InFlightTicket(s.pc) == InFlightTicket(r.pc)
    ensures Exact(k, s)
  {
  }

  lemma DiscardListed(j: Journal, r: Runtime, k: Journal, s: Runtime)
    requires Exact(j, r) && SamePage(j, k) && InFlightTicket(s.pc) == InFlightTicket(r.pc)
    requires s.inbox == Discard(r.inbox, r.core.resetCount)
    ensures Listed(k, s)
  {
    assert Bound(r) <= Bound(s);
    forall i | 0 <= i < |k.tickets| ensures s.inbox.fates[k.tickets[i] - 1] == Finished {
      assert r.inbox.fates[j.tickets[i] - 1] == Finished;
    }
  }

  lemma DiscardExact(j: Journal, r: Runtime, k: Journal, s: Runtime)
    requires Exact(j, r) && SamePage(j, k) && InFlightTicket(s.pc) == InFlightTicket(r.pc)
    requires s.inbox == Discard(r.inbox, r.core.resetCount)
    ensures Exact(k, s)
  {
    DiscardListed(j, r, k, s);
    forall i | k.since <= i < |s.inbox.fates| && s.inbox.fates[i] == Finished ensures i + 1 in k.tickets {
      assert r.inbox.fates[i] == Finished;
    }
  }

  // The same page, and an inbox that lost at most its queue.
  lemma KeptExact(j: Journal, r: Runtime, k: Journal, s: Runtime)
    requires Exact(j, r) && SamePage(j, k) && InFlightTicket(s.pc) == InFlightTicket(r.pc)
    requires s.inbox == r.inbox || s.inbox == Discard(r.inbox, r.core.resetCount)
    ensures Exact(k, s)
  {
    if s.inbox == r.inbox {
      SameInboxExact(j, r, k, s);
    } else {
      DiscardExact(j, r, k, s);
    }
  }

  lemma TakeExact(j: Journal, r: Runtime)
    requires Exact(j, r) && InboxOk(r.inbox, None, Halted(r.core)) && InFlightTicket(r.pc).None? && r.inbox.queue != []
    ensures var item := r.inbox.queue[0];
            var taken := Mark(r.inbox.(queue := r.inbox.queue[1..]), item.ticket, InFlight);
            Exact(j.(inFlight := Some(item.input)), r.(inbox := taken, pc := Processing(item)))
  {
    var item := r.inbox.queue[0];
    var taken := Mark(r.inbox.(queue := r.inbox.queue[1..]), item.ticket, InFlight);
    forall i | 0 <= i < |taken.queue| ensures taken.queue[i].input == InputOf(j, taken.queue[i].ticket) {
      assert taken.queue[i] == r.inbox.queue[i + 1];
    }
  }

  lemma SelectExact(L: Library, j: Journal, r: Runtime)
    requires Exact(j, r) && InboxOk(r.inbox, None, Halted(r.core)) && r.pc == Idle
    ensures Exact(NoteOwner(j, r, Select(r)), Select(r))
  {
    var s := Select(r);
    if s.pc.Processing? {
      TakeExact(j, r);
    } else {
      KeptExact(j, r, j, s);
    }
  }

  lemma FinishListed(j: Journal, r: Runtime, s: Runtime, k: Journal)
    requires Exact(j, r) && InboxOk(r.inbox, InFlightTicket(r.pc), Halted(r.core)) && r.pc.Finishing?
    requires s == r.(inbox := Finish(r.inbox, r.pc.ticket), pc := Idle)
    requires k.happenings == j.happenings + [Worked(j.inFlight.value)] && k.tickets == j.tickets + [r.pc.ticket]
    requires k.since == j.since && k.submitted == j.submitted
    ensures Listed(k, s)
  {
    var ticket := r.pc.ticket;
    WorkedOneMore(j.happenings, Worked(j.inFlight.value));
    assert 1 <= ticket <= |r.inbox.fates| && Bound(r) == ticket - 1 && ticket <= Bound(s);
    forall i | 0 <= i < |k.tickets|
      ensures k.since < k.tickets[i] <= Bound(s) && k.tickets[i] <= |s.inbox.fates|
      ensures WorkedInputs(k.happenings)[i] == InputOf(k, k.tickets[i])
      ensures s.inbox.fates[k.tickets[i] - 1] == Finished
    {
      if i < |j.tickets| {
        assert k.tickets[i] == j.tickets[i];
      }
    }
  }

  lemma FinishExact(L: Library, j: Journal, r: Runtime, env: Env)
    requires Exact(j, r) && InboxOk(r.inbox, InFlightTicket(r.pc), Halted(r.core)) && r.pc.Finishing?
    requires H.Usable(r.hub)
    ensures Exact(NoteOwner(j, r, OwnerStep(L, r, env)), OwnerStep(L, r, env))
  {
    var s := r.(inbox := Finish(r.inbox, r.pc.ticket), pc := Idle);
    var k := NoteOwner(j, r, s);
    FinishListed(j, r, s, k);
    forall i | k.since <= i < |s.inbox.fates| && s.inbox.fates[i] == Finished ensures i + 1 in k.tickets {
      if i + 1 == r.pc.ticket {
        assert k.tickets[|j.tickets|] == i + 1;
      } else {
        assert r.inbox.fates[i] == Finished;
      }
    }
  }

  lemma OwnerExact(L: Library, j: Journal, r: Runtime, env: Env)
    requires LibraryOk(L) && Inv(L, r) && H.Usable(r.hub) && Exact(j, r)
    ensures Exact(Note(L, j, r, EvOwner(env)), OwnerStep(L, r, env))
  {
    var s := OwnerStep(L, r, env);
    var k := Note(L, j, r, EvOwner(env));
    if r.pc.Idle? {
      SelectExact(L, j, r);
    } else if r.pc.Finishing? {
      FinishExact(L, j, r, env);
    } else if r.pc.Processing? || r.pc.Replaying? || r.pc.Publishing? {
      ItemInbox(L, r, env);
      KeptExact(j, r, k, s);
    } else if r.pc.Faulting? {
      WorkedOneMore(j.happenings, Raised(r.pc.reason));
      KeptExact(j, r, k, s);
    } else if r.pc.Booting? || r.pc.Recommitting? {
      NewPageExact(L, j, r, env);
    } else {
      RestExact(L, j, r, env);
    }
  }

  lemma NewPageExact(L: Library, j: Journal, r: Runtime, env: Env)
    requires Sound(L, r) && H.Usable(r.hub) && Exact(j, r) && (r.pc.Booting? || r.pc.Recommitting?)
    ensures Exact(Note(L, j, r, EvOwner(env)), OwnerStep(L, r, env))
  {
    var s := OwnerStep(L, r, env);
    assert s.inbox == r.inbox && InFlightTicket(s.pc).None?;
  }

  lemma RestExact(L: Library, j: Journal, r: Runtime, env: Env)
    requires Sound(L, r) && H.Usable(r.hub) && Exact(j, r) && InFlightTicket(r.pc).None?
    requires !r.pc.Idle? && !r.pc.Faulting? && !r.pc.Recommitting? && !r.pc.Booting?
    ensures Exact(Note(L, j, r, EvOwner(env)), OwnerStep(L, r, env))
  {
    KeptExact(j, r, j, OwnerStep(L, r, env));
  }

  lemma AdmittedExact(j: Journal, r: Runtime, input: Input)
    requires Exact(j, r) && InboxOk(r.inbox, InFlightTicket(r.pc), Halted(r.core))
    ensures var ticket := r.inbox.lastAdmitted + 1;
            Exact(j.(submitted := j.submitted + [input]),
                  r.(inbox := r.inbox.(lastAdmitted := ticket,
                                       queue := r.inbox.queue + [Ticketed(ticket, input)],
                                       fates := r.inbox.fates + [Queued])))
  {
    var k := j.(submitted := j.submitted + [input]);
    var queue := r.inbox.queue + [Ticketed(r.inbox.lastAdmitted + 1, input)];
    forall i | 0 <= i < |queue| ensures queue[i].input == InputOf(k, queue[i].ticket) {
      if i < |r.inbox.queue| {
        assert queue[i] == r.inbox.queue[i];
      }
    }
  }

  lemma SubmitExact(L: Library, j: Journal, r: Runtime, input: Input)
    requires InboxOk(r.inbox, InFlightTicket(r.pc), Halted(r.core)) && H.Usable(r.hub) && Exact(j, r)
    ensures Exact(Note(L, j, r, EvSubmit(input)), Submit(r, input).0)
  {
    var (s, result) := Submit(r, input);
    if result == Accepted {
      AdmittedExact(j, r, input);
    } else {
      assert Note(L, j, r, EvSubmit(input)) == j && s.inbox == r.inbox && s.pc == r.pc;
      SameInboxExact(j, r, j, s);
    }
  }

  lemma CallerExact(L: Library, j: Journal, r: Runtime, e: Event)
    requires Sound(L, r) && H.Usable(r.hub) && Exact(j, r) && !e.EvOwner?
    ensures Exact(Note(L, j, r, e), Step(L, r, e))
  {
    if e.EvSubmit? {
      SubmitExact(L, j, r, e.input);
    } else {
      WorkedOneMore(j.happenings, StopAsked);
      SameInboxExact(j, r, Note(L, j, r, e), Step(L, r, e));
    }
  }

  // ---------------------------------------------------------------- every run

  /** The journal of a run. */
  ghost function Keep(L: Library, j: Journal, r: Runtime, events: seq<Event>): Journal
    requires LibraryOk(L) && Inv(L, r)
    decreases |events|
  {
    if events == [] then j
    else
      StepKeeps(L, r, events[0]);
      Keep(L, Note(L, j, r, events[0]), Step(L, r, events[0]), events[1..])
  }

  lemma {:induction false} EveryRunIsJournaled(L: Library, j: Journal, r: Runtime, events: seq<Event>)
    requires LibraryOk(L) && Inv(L, r) && JournalOk(L, j, r) && Exact(j, r)
    ensures var (k, s) := (Keep(L, j, r, events), Run(L, r, events)); JournalOk(L, k, s) && Exact(k, s)
    decreases |events|
  {
    if events != [] {
      StepKeeps(L, r, events[0]);
      JournalStep(L, j, r, events[0]);
      EveryRunIsJournaled(L, Note(L, j, r, events[0]), Step(L, r, events[0]), events[1..]);
    }
  }

  lemma JournalStep(L: Library, j: Journal, r: Runtime, e: Event)
    requires LibraryOk(L) && Inv(L, r) && H.Usable(r.hub) && JournalOk(L, j, r) && Exact(j, r)
    ensures JournalOk(L, Note(L, j, r, e), Step(L, r, e)) && Exact(Note(L, j, r, e), Step(L, r, e))
  {
    if e.EvOwner? {
      OwnerExplains(L, j, r, e.env);
      OwnerExact(L, j, r, e.env);
    } else {
      CallerExplains(L, j, r, e);
      CallerExact(L, j, r, e);
    }
  }

  /** A runtime between two inputs. */
  predicate Between(r: Runtime) {
    AtRest(r.pc) && !r.pc.Exited?
  }

  /**
    In every run of a new runtime, at every point between two inputs, the core
    is what delivering the inputs finished since the last reset, in order, makes
    of a new core, with the stop requests and overflows where they came; only
    the admission flag may differ. Whatever else was interleaved does not show.
   */
  lemma CoreIsDelivery(L: Library, limits: Limits, events: seq<Event>, t: Troubles)
    requires LibraryOk(L) && LimitsOk(limits)
    ensures Inv(L, NewRuntime(L, limits))
    ensures var r := Run(L, NewRuntime(L, limits), events);
            var j := Keep(L, BLANK, NewRuntime(L, limits), events);
            && Exact(j, r)
            && (Between(r) && Extends(t, j.troubles) ==>
                  Alike(false, r.core,
                        HappenAll(L, limits.bootstrap, FreshCore(L).(resetCount := r.core.resetCount), j.happenings, t)))
  {
    NewRuntimeInv(L, limits);
    EveryRunIsJournaled(L, BLANK, NewRuntime(L, limits), events);
    EveryRunKeeps(L, NewRuntime(L, limits), events);
    var r := Run(L, NewRuntime(L, limits), events);
    var j := Keep(L, BLANK, NewRuntime(L, limits), events);
    if Between(r) && Extends(t, j.troubles) {
      assert Explained(L, j, r, t);
    }
  }

  // ---------------------------------------------------------------- what does not show

  /** Neither run met a trouble the other did not meet. */
  ghost predicate Compatible(j: Journal, k: Journal) {
    forall i | 0 <= i < |j.troubles| && i < |k.troubles| :: j.troubles[i] == k.troubles[i]
  }

  ghost function CommonTroubles(j: Journal, k: Journal): (t: Troubles)
    requires Compatible(j, k)
    ensures Extends(t, j.troubles) && Extends(t, k.troubles)
  {
    (i: nat) => if i < |j.troubles| then j.troubles[i] else if i < |k.troubles| then k.troubles[i] else None
  }

  /** Same book, buffer, generation, state, status and fault, and as many updates applied. */
  ghost predicate SameCore(c: Core, d: Core) {
    c.(accepting := false, resetCount := 0) == d.(accepting := false, resetCount := 0)
  }

  lemma {:induction false} HappeningForgetsResets(
    L: Library, capacity: nat, c: Core, hs: seq<Happening>, n: nat, t: Troubles)
    ensures HappenAll(L, capacity, c.(resetCount := n), hs, t) == HappenAll(L, capacity, c, hs, t).(resetCount := n)
    decreases |hs|
  {
    if hs != [] {
      var before, last := hs[..|hs| - 1], hs[|hs| - 1];
      HappeningForgetsResets(L, capacity, c, before, n, t);
      if last.Worked? {
        DeliverForgetsResets(L, capacity, HappenAll(L, capacity, c, before, t), last.input, n, t);
      }
    }
  }

  /** A state of a run of a new runtime, with its journal, between two inputs. */
  ghost predicate Reached(L: Library, limits: Limits, events: seq<Event>, r: Runtime, j: Journal)
    requires LibraryOk(L) && LimitsOk(limits)
  {
    && Inv(L, NewRuntime(L, limits))
    && r == Run(L, NewRuntime(L, limits), events) && j == Keep(L, BLANK, NewRuntime(L, limits), events)
    && Between(r)
  }

  /**
    Nothing from before a reset shows: two runs whose journals since the last
    reset, or since the start, agree have the same core, however their
    submissions, sessions and requests were interleaved and whatever happened
    earlier. One of them may be a runtime that was just started.
   */
  lemma OnlyTheJournalShows(
    L: Library, limits: Limits, events: seq<Event>, others: seq<Event>, r: Runtime, j: Journal, s: Runtime, k: Journal)
    requires LibraryOk(L) && LimitsOk(limits)
    requires Reached(L, limits, events, r, j) && Reached(L, limits, others, s, k)
    requires j.happenings == k.happenings && Compatible(j, k)
    ensures SameCore(r.core, s.core)
  {
    var t := CommonTroubles(j, k);
    CoreIsDelivery(L, limits, events, t);
    CoreIsDelivery(L, limits, others, t);
    HappeningForgetsResets(L, limits.bootstrap, FreshCore(L), j.happenings, r.core.resetCount, t);
    HappeningForgetsResets(L, limits.bootstrap, FreshCore(L), j.happenings, s.core.resetCount, t);
  }

  /**
    Buffering does not show: a run that finished some updates before the
    snapshot and a run that finished them right after it have the same core.
   */
  lemma BufferingDoesNotShow(
    L: Library, limits: Limits, events: seq<Event>, others: seq<Event>, r: Runtime, j: Journal, s: Runtime, k: Journal,
    early: seq<Depth>, snapshot: Input, later: seq<Input>)
    requires LibraryOk(L) && KeepsBaseline(L) && LimitsOk(limits)
    requires Reached(L, limits, events, r, j) && Reached(L, limits, others, s, k) && Compatible(j, k)
    requires |early| <= limits.bootstrap && snapshot.SnapshotInput?
    requires j.happenings == Inputs(Depths(early) + [snapshot] + later)
    requires k.happenings == Inputs([snapshot] + Depths(early) + later)
    ensures SameCore(r.core, s.core)
  {
    var t := CommonTroubles(j, k);
    CoreIsDelivery(L, limits, events, t);
    CoreIsDelivery(L, limits, others, t);
    HappeningForgetsResets(L, limits.bootstrap, FreshCore(L), j.happenings, r.core.resetCount, t);
    HappeningForgetsResets(L, limits.bootstrap, FreshCore(L), k.happenings, s.core.resetCount, t);
    InputsAreDelivered(L, limits.bootstrap, FreshCore(L), Depths(early) + [snapshot] + later, t);
    InputsAreDelivered(L, limits.bootstrap, FreshCore(L), [snapshot] + Depths(early) + later, t);
    BootstrapTransparency(L, limits.bootstrap, FreshCore(L), early, snapshot, later, t);
  }

  // ---------------------------------------------------------------- where troubles come from

  lemma TroubleNeedsTheClock(L: Library, r: Runtime, d: Depth, time: Option<nat>)
    requires H.Usable(r.hub) && time.Some?
    ensures TroubleNow(L, r, d, time) != Some(ClockError)
  {
    H.TroubleExactly(r.hub, d, L.apply(r.core.book, d.update).0, time, r.gate.shutdownCompleted);
  }

  ghost predicate ClockServed(troubles: seq<Option<FaultReason>>) {
    forall i | 0 <= i < |troubles| :: troubles[i] != Some(ClockError)
  }

  lemma NoteServed(L: Library, j: Journal, r: Runtime, env: Env)
    requires CoreInv(L, r) && H.Usable(r.hub) && env.time.Some? && ClockServed(j.troubles)
    requires r.pc.Processing? || r.pc.Replaying?
    ensures ClockServed(NoteOwner(j, r, OwnerStep(L, r, env)).troubles)
  {
    if r.pc.Processing? && r.pc.item.input.DepthInput? {
      AppliedCore(L, r, r.pc.item.input.depth, env.time);
      TroubleNeedsTheClock(L, r, r.pc.item.input.depth, env.time);
    } else if r.pc.Replaying? && r.core.bootstrap != [] {
      var popped := r.(core := r.core.(bootstrap := r.core.bootstrap[1..]));
      AppliedCore(L, popped, r.core.bootstrap[0], env.time);
      TroubleNeedsTheClock(L, popped, r.core.bootstrap[0], env.time);
    }
  }

  /** A run in which the clock never failed the owner meets no clock trouble. */
  lemma {:induction false} WorkingClockServes(L: Library, j: Journal, r: Runtime, events: seq<Event>)
    requires LibraryOk(L) && Inv(L, r) && ClockServed(j.troubles)
    requires forall i | 0 <= i < |events| && events[i].EvOwner? :: events[i].env.time.Some?
    ensures ClockServed(Keep(L, j, r, events).troubles)
    decreases |events|
  {
    if events != [] {
      var e := events[0];
      StepKeeps(L, r, e);
      if e.EvOwner? && (r.pc.Processing? || r.pc.Replaying?) {
        NoteServed(L, j, r, e.env);
      }
      WorkingClockServes(L, Note(L, j, r, e), Step(L, r, e), events[1..]);
    }
  }
}
