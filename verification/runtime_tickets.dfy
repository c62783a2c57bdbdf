/**
  Ticket conservation and the observation barrier of the market runtime, and
  the coherence of its reported state on which they rest.
 */
module RuntimeTickets {
  import opened Prelude
  import opened MarketTypes
  import opened ProjectionLibrary
  import opened RuntimeCore
  import opened MarketRuntime
  import H = PublicationHub

  // ---------------------------------------------------------------- the inbox

  function InFlightTicket(pc: Pc): Option<nat> {
    match pc
    case Processing(item) => Some(item.ticket)
    case Publishing(ticket, _) => Some(ticket)
    case Replaying(ticket) => Some(ticket)
    case Finishing(ticket) => Some(ticket)
    case _ => None
  }

  /**
    The queue holds the consecutive tickets that end at the last admitted one;
    processed, queued and in-flight account for every admitted ticket, except
    that a halted runtime has already counted the tickets it discarded.
   */
  ghost predicate InboxOk(b: Inbox, inFlight: Option<nat>, halted: bool) {
    && |b.fates| == b.lastAdmitted
    && |b.queue| <= b.lastAdmitted
    && (forall i | 0 <= i < |b.queue| :: b.queue[i].ticket == b.lastAdmitted - |b.queue| + 1 + i)
    && (forall i | 0 <= i < b.lastAdmitted :: b.fates[i] == Queued <==> b.lastAdmitted - |b.queue| <= i)
    && (forall i | 0 <= i < b.lastAdmitted :: b.fates[i] == InFlight <==> inFlight == Some(i + 1))
    && (inFlight.None? ==> b.processed + |b.queue| == b.lastAdmitted)
    && (inFlight.Some? ==>
          && 1 <= inFlight.value <= b.lastAdmitted - |b.queue|
          && ((b.processed == inFlight.value - 1 && inFlight.value + |b.queue| == b.lastAdmitted)
              || (b.processed == b.lastAdmitted && halted && b.queue == [])))
  }

  /** What was dropped since the last reset was dropped by a runtime that is still unwell. */
  ghost predicate DropsOk(b: Inbox, resetCount: nat, unwell: bool) {
    forall i | 0 <= i < |b.fates| && b.fates[i].Dropped? ::
      b.fates[i].epoch <= resetCount && (b.fates[i].epoch == resetCount ==> unwell)
  }

  lemma DiscardKeeps(b: Inbox, inFlight: Option<nat>, halted: bool, epoch: nat, unwell: bool)
    requires InboxOk(b, inFlight, halted) && DropsOk(b, epoch, unwell)
    ensures var d := Discard(b, epoch);
            && InboxOk(d, inFlight, true) && DropsOk(d, epoch, true) && d.queue == []
            && d.lastAdmitted == b.lastAdmitted && b.processed <= d.processed
  {
  }

  lemma TakeKeeps(b: Inbox, halted: bool, unwell: bool, epoch: nat)
    requires InboxOk(b, None, halted) && b.queue != [] && DropsOk(b, epoch, unwell)
    ensures var taken := Mark(b.(queue := b.queue[1..]), b.queue[0].ticket, InFlight);
            InboxOk(taken, Some(b.queue[0].ticket), halted) && DropsOk(taken, epoch, unwell)
  {
  }

  lemma FinishKeeps(b: Inbox, ticket: nat, halted: bool, epoch: nat, unwell: bool)
    requires InboxOk(b, Some(ticket), halted) && DropsOk(b, epoch, unwell)
    ensures var d := Finish(b, ticket);
            && InboxOk(d, None, halted) && DropsOk(d, epoch, unwell)
            && d.fates[ticket - 1] == Finished && b.processed <= d.processed
  {
  }

  // ---------------------------------------------------------------- the reported state

  /** A state that tells the observer that inputs may have been discarded. */
  predicate Unwell(state: RuntimeState) {
    state == Faulted || state == NeedsResync || state == Stopping || state == Stopped
  }

  ghost predicate CoreInv(L: Library, r: Runtime) {
    var c := r.core;
    && (c.status == ResyncRequired ==> L.status(c.book) == ResyncRequired && Unwell(c.state))
    && (c.state == NeedsResync ==> c.status == ResyncRequired)
    && (Halted(c) ==> !c.accepting && r.inbox.queue == [])
    && (c.state == Faulted ==> c.bootstrap == [] && c.status == L.status(c.book))
    && match r.pc
       case NotStarted =>
         c.book == L.initial && c.status == AwaitingBaseline && c.bootstrap == [] && !c.accepting
         && (c.state == Constructed || (c.state == Stopped && r.gate.stopped))
       case Booting =>
         c.book == L.initial && c.status == AwaitingBaseline && c.bootstrap == []
         && (c.state == Constructed || c.state == Stopping)
       case Publishing(_, replaying) =>
         !replaying && L.status(c.book) != AwaitingBaseline ==> c.bootstrap == []
       case Replaying(_) => L.status(c.book) == ResyncRequired ==> c.status == ResyncRequired
       case Processing(_) => Coherent(L, c) && !Halted(c)
       case _ => Coherent(L, c)
  }

  ghost predicate TicketInv(r: Runtime) {
    && InboxOk(r.inbox, InFlightTicket(r.pc), Halted(r.core))
    && DropsOk(r.inbox, r.core.resetCount, Unwell(r.core.state))
    && |r.inbox.queue| <= r.limits.ingress
    && (r.pc.NotStarted? || r.pc.Booting? ==> r.inbox.processed == 0)
    && (r.pc.NotStarted? ==> r.inbox.lastAdmitted == 0)
    && (r.pc.NotStarted? <==> !r.gate.started)
  }

  ghost predicate Sound(L: Library, r: Runtime) {
    CoreInv(L, r) && TicketInv(r)
  }

  /** What never goes back. */
  ghost predicate Forward(r: Runtime, s: Runtime) {
    && r.inbox.lastAdmitted <= s.inbox.lastAdmitted
    && r.inbox.processed <= s.inbox.processed
    && r.core.resetCount <= s.core.resetCount
    && s.limits == r.limits
  }

  lemma FaultKeeps(L: Library, r: Runtime, reason: FaultReason, time: Option<nat>, pc: Pc)
    requires TicketInv(r) && r.gate.started
    requires pc == Idle || pc.Finishing? || pc.Replaying?
    requires InFlightTicket(pc) == InFlightTicket(r.pc) && !r.pc.Booting? && !r.pc.NotStarted?
    ensures var s := ToFault(L, r, reason, time).(pc := pc);
            Sound(L, s) && Forward(r, s)
  {
    DiscardKeeps(r.inbox, InFlightTicket(r.pc), Halted(r.core), r.core.resetCount, Unwell(r.core.state));
  }

  lemma PublishedKeeps(L: Library, r: Runtime)
    requires LibraryOk(L) && Sound(L, r) && r.pc.Publishing?
    ensures var s := ToPublished(L, r).(pc := if r.pc.replaying then Replaying(r.pc.ticket) else Finishing(r.pc.ticket));
            Sound(L, s) && Forward(r, s)
  {
    DiscardKeeps(r.inbox, InFlightTicket(r.pc), Halted(r.core), r.core.resetCount, Unwell(r.core.state));
  }

  /** A runtime whose next update is about to be applied. */
  ghost predicate Applying(r: Runtime, ticket: nat) {
    && TicketInv(r) && r.gate.started
    && !Halted(r.core) && r.core.state != NeedsResync
    && InFlightTicket(r.pc) == Some(ticket)
  }

  lemma AppliedFails(L: Library, r: Runtime, d: Depth, time: Option<nat>, ticket: nat, pc: Pc)
    requires Applying(r, ticket) && H.Usable(r.hub) && (pc == Finishing(ticket) || pc == Replaying(ticket))
    requires !ToApplied(L, r, d, time).1.Done?
    ensures var next := ToApplied(L, r, d, time).0;
            Sound(L, next.(pc := pc)) && Forward(r, next)
  {
    var after := r.(core := r.core.(book := L.apply(r.core.book, d.update).0));
    if Mismatched(r.core, d) {
      FaultKeeps(L, r, InternalError, time, pc);
    } else if L.apply(r.core.book, d.update).1.ApplyThrew? {
      FaultKeeps(L, after, InternalError, time, pc);
    } else {
      FaultKeeps(L, after, AdapterError, time, pc);
    }
  }

  // Applied and published, but for a fault of the hand-out.
  lemma TroubledKeeps(L: Library, r: Runtime, book: Book, reason: FaultReason, hub: H.Hub, mail: Mail, pc: Pc, ticket: nat)
    requires Applying(r, ticket) && pc.Publishing? && pc.ticket == ticket
    ensures var s := r.(core := Fault(L, r.core.(book := book, applied := r.core.applied + 1), reason), hub := hub,
                        mail := mail, inbox := Discard(r.inbox, r.core.resetCount), pc := pc);
            Sound(L, s) && Forward(r, s)
  {
    DiscardKeeps(r.inbox, InFlightTicket(r.pc), Halted(r.core), r.core.resetCount, Unwell(r.core.state));
  }

  // A new book whose state is still to be published.
  lemma ToPublishKeeps(L: Library, r: Runtime, book: Book, applied: nat, hub: H.Hub, ticket: nat, replaying: bool)
    requires Applying(r, ticket) && (!replaying ==> r.core.bootstrap == [])
    ensures var s := r.(core := r.core.(book := book, applied := applied), hub := hub, pc := Publishing(ticket, replaying));
            Sound(L, s) && Forward(r, s)
  {
  }

  // An update that got through changed the book, or faulted after it.
  lemma AppliedShape(L: Library, r: Runtime, d: Depth, time: Option<nat>)
    requires H.Usable(r.hub) && r.core.state != Faulted && ToApplied(L, r, d, time).1.Done?
    ensures var next := ToApplied(L, r, d, time).0;
            var book := next.core.book;
            if next.core.state == Faulted then
              && next.core.fault.Some?
              && next == r.(core := Fault(L, r.core.(book := book, applied := r.core.applied + 1), next.core.fault.value),
                            hub := next.hub, mail := next.mail, inbox := Discard(r.inbox, r.core.resetCount))
            else next == r.(core := r.core.(book := book, applied := next.core.applied), hub := next.hub)
  {
  }

  /** An update that got through leaves a state that is still to be published. */
  lemma AppliedKeeps(L: Library, r: Runtime, d: Depth, time: Option<nat>, ticket: nat, replaying: bool)
    requires Applying(r, ticket) && H.Usable(r.hub)
    requires !replaying ==> r.core.bootstrap == []
    requires ToApplied(L, r, d, time).1.Done?
    ensures var next := ToApplied(L, r, d, time).0.(pc := Publishing(ticket, replaying));
            Sound(L, next) && Forward(r, next)
  {
    var next := ToApplied(L, r, d, time).0;
    AppliedShape(L, r, d, time);
    if next.core.state == Faulted {
      TroubledKeeps(L, r, next.core.book, next.core.fault.value, next.hub, next.mail, Publishing(ticket, replaying), ticket);
    } else {
      ToPublishKeeps(L, r, next.core.book, next.core.applied, next.hub, ticket, replaying);
    }
  }

  lemma DepthKeeps(L: Library, r: Runtime, d: Depth, env: Env)
    requires LibraryOk(L) && Sound(L, r) && H.Usable(r.hub) && r.pc.Processing?
    ensures var s := ProcessDepth(L, r, r.pc.item.ticket, d, env);
            Sound(L, s) && Forward(r, s)
  {
    var ticket := r.pc.item.ticket;
    if L.status(r.core.book) == AwaitingBaseline {
      FaultKeeps(L, r, BootstrapBufferOverflow, env.time, Finishing(ticket));
    } else if ToApplied(L, r, d, env.time).1.Done? {
      AppliedKeeps(L, r, d, env.time, ticket, false);
    } else {
      AppliedFails(L, r, d, env.time, ticket, Finishing(ticket));
    }
  }

  lemma ProcessKeeps(L: Library, r: Runtime, env: Env)
    requires LibraryOk(L) && Sound(L, r) && H.Usable(r.hub) && r.pc.Processing?
    ensures var s := ProcessItem(L, r, r.pc.item, env);
            Sound(L, s) && Forward(r, s)
  {
    match r.pc.item.input {
      case FailureInput(failure) => FaultKeeps(L, r, FailureReason(failure), env.time, Finishing(r.pc.item.ticket));
      case DepthInput(d) => DepthKeeps(L, r, d, env);
      case SnapshotInput(snapshot, generation) => InstallKeeps(L, r, snapshot, generation, env);
    }
  }

  lemma InstallKeeps(L: Library, r: Runtime, snapshot: nat, generation: Option<nat>, env: Env)
    requires LibraryOk(L) && Sound(L, r) && r.pc.Processing?
    ensures var s := ProcessSnapshot(L, r, r.pc.item.ticket, snapshot, generation, env);
            Sound(L, s) && Forward(r, s)
  {
    var after := r.(core := r.core.(book := L.install(r.core.book, snapshot).0));
    match L.install(r.core.book, snapshot).1 {
      case InstallAdapterError => FaultKeeps(L, after, AdapterError, env.time, Finishing(r.pc.item.ticket));
      case InstallThrew => FaultKeeps(L, after, InternalError, env.time, Finishing(r.pc.item.ticket));
      case InstallRejected => FaultKeeps(L, after, ProjectionRejected, env.time, Finishing(r.pc.item.ticket));
      case Installed =>
    }
  }

  // One entry of the buffer: applied, or the fault it ran into.
  lemma EntryKeeps(L: Library, r: Runtime, d: Depth, env: Env)
    requires LibraryOk(L) && H.Usable(r.hub) && r.pc.Replaying? && Applying(r, r.pc.ticket)
    ensures var (next, outcome) := ToApplied(L, r, d, env.time);
            var s := next.(pc := match outcome
                                 case Thrown => Finishing(r.pc.ticket)
                                 case Failed => Replaying(r.pc.ticket)
                                 case Done(_) => Publishing(r.pc.ticket, true));
            Sound(L, s) && Forward(r, s)
  {
    var outcome := ToApplied(L, r, d, env.time).1;
    if outcome.Done? {
      AppliedKeeps(L, r, d, env.time, r.pc.ticket, true);
    } else if outcome == Thrown {
      AppliedFails(L, r, d, env.time, r.pc.ticket, Finishing(r.pc.ticket));
    } else {
      AppliedFails(L, r, d, env.time, r.pc.ticket, Replaying(r.pc.ticket));
    }
  }

  lemma ReplayKeeps(L: Library, r: Runtime, env: Env)
    requires LibraryOk(L) && Sound(L, r) && H.Usable(r.hub) && r.pc.Replaying?
    ensures var s := ReplayOne(L, r, r.pc.ticket, env);
            Sound(L, s) && Forward(r, s)
  {
    var c := r.core;
    if !(L.status(c.book) == ResyncRequired || c.state == Faulted || c.bootstrap == []) {
      EntryKeeps(L, r.(core := c.(bootstrap := c.bootstrap[1..])), c.bootstrap[0], env);
    }
  }

  lemma SelectKeeps(L: Library, r: Runtime)
    requires Sound(L, r) && r.pc == Idle
    ensures Sound(L, Select(r)) && Forward(r, Select(r))
  {
    if r.inbox.queue != [] {
      TakeKeeps(r.inbox, Halted(r.core), Unwell(r.core.state), r.core.resetCount);
    }
  }

  lemma ItemKeeps(L: Library, r: Runtime, env: Env)
    requires LibraryOk(L) && Sound(L, r) && H.Usable(r.hub) && InFlightTicket(r.pc).Some?
    ensures Sound(L, OwnerStep(L, r, env)) && Forward(r, OwnerStep(L, r, env))
  {
    if r.pc.Processing? {
      ProcessKeeps(L, r, env);
    } else if r.pc.Publishing? {
      PublishedKeeps(L, r);
    } else if r.pc.Replaying? {
      ReplayKeeps(L, r, env);
    } else {
      FinishKeeps(r.inbox, r.pc.ticket, Halted(r.core), r.core.resetCount, Unwell(r.core.state));
    }
  }

  lemma OwnerKeeps(L: Library, r: Runtime, env: Env)
    requires LibraryOk(L) && Sound(L, r) && H.Usable(r.hub)
    ensures Sound(L, OwnerStep(L, r, env)) && Forward(r, OwnerStep(L, r, env))
  {
    if InFlightTicket(r.pc).Some? {
      ItemKeeps(L, r, env);
    } else if r.pc.Idle? {
      SelectKeeps(L, r);
    } else if r.pc.Faulting? {
      FaultKeeps(L, r, r.pc.reason, env.time, Idle);
    } else {
      QuietOwnerKeeps(L, r, env);
    }
  }

  // At these places the reported state agrees with the book, and no item is in flight.
  predicate AtRest(pc: Pc) {
    InFlightTicket(pc).None? && !pc.NotStarted? && !pc.Booting?
  }

  // A step between two of them that touches neither the core nor the inbox.
  lemma RestKeeps(L: Library, r: Runtime, s: Runtime)
    requires Sound(L, r) && AtRest(r.pc) && AtRest(s.pc)
    requires s.limits == r.limits && s.core == r.core && s.inbox == r.inbox && s.gate.started == r.gate.started
    ensures Sound(L, s) && Forward(r, s)
  {
  }

  lemma QuietOwnerKeeps(L: Library, r: Runtime, env: Env)
    requires LibraryOk(L) && Sound(L, r) && H.Usable(r.hub)
    requires !r.pc.Idle? && !r.pc.Faulting? && InFlightTicket(r.pc).None?
    ensures Sound(L, OwnerStep(L, r, env)) && Forward(r, OwnerStep(L, r, env))
  {
    if r.pc.Booting? {
      BootKeeps(L, r, env);
    } else if r.pc.Recommitting? {
      ResetKeeps(L, r, r.pc.kind, env.time);
    } else if r.pc.Exiting? {
      ExitKeeps(L, r);
    } else if !r.pc.NotStarted? {
      RestKeeps(L, r, OwnerStep(L, r, env));
    }
  }

  lemma BootKeeps(L: Library, r: Runtime, env: Env)
    requires LibraryOk(L) && Sound(L, r) && H.Usable(r.hub) && r.pc.Booting?
    ensures Sound(L, OwnerStep(L, r, env)) && Forward(r, OwnerStep(L, r, env))
  {
  }

  /** A reset forgets what was discarded, but not that it was. */
  lemma ResetKeeps(L: Library, r: Runtime, kind: ResetKind, time: Option<nat>)
    requires LibraryOk(L) && Sound(L, r) && r.pc == Recommitting(kind)
    ensures Sound(L, CommitReset(L, r, kind, time)) && Forward(r, CommitReset(L, r, kind, time))
  {
  }

  lemma ExitKeeps(L: Library, r: Runtime)
    requires LibraryOk(L) && Sound(L, r) && r.pc == Exiting
    ensures Sound(L, Exit(L, r)) && Forward(r, Exit(L, r))
  {
  }

  lemma SubmitKeeps(L: Library, r: Runtime, input: Input)
    requires Sound(L, r)
    ensures var (s, result) := Submit(r, input);
            && Sound(L, s) && Forward(r, s)
            && (result == Accepted <==> s.inbox.lastAdmitted == r.inbox.lastAdmitted + 1)
            && (result != Accepted ==> s.inbox == r.inbox)
  {
  }

  lemma CallerKeeps(L: Library, r: Runtime, e: Event)
    requires LibraryOk(L) && Sound(L, r) && H.Usable(r.hub) && !e.EvOwner?
    ensures Sound(L, Step(L, r, e)) && Forward(r, Step(L, r, e))
  {
    if e.EvSubmit? {
      SubmitKeeps(L, r, e.input);
    } else if e.EvStart? {
      StartKeeps(L, r);
    } else if e.EvRequestStop? {
      StopKeeps(L, r);
    } else if e.EvJoined? {
      JoinedKeeps(L, r);
    } else {
      ElsewhereKeeps(L, r, Step(L, r, e));
    }
  }

  // A step of the mailboxes, the gate or the sessions only.
  lemma ElsewhereKeeps(L: Library, r: Runtime, s: Runtime)
    requires Sound(L, r)
    requires s.limits == r.limits && s.core == r.core && s.inbox == r.inbox && s.pc == r.pc
    requires s.gate.started == r.gate.started && s.gate.stopped == r.gate.stopped
    ensures Sound(L, s) && Forward(r, s)
  {
  }

  lemma StartKeeps(L: Library, r: Runtime)
    requires LibraryOk(L) && Sound(L, r)
    ensures Sound(L, Start(r)) && Forward(r, Start(r))
  {
  }

  lemma StopKeeps(L: Library, r: Runtime)
    requires LibraryOk(L) && Sound(L, r)
    ensures Sound(L, RequestStop(r)) && Forward(r, RequestStop(r))
  {
  }

  lemma JoinedKeeps(L: Library, r: Runtime)
    requires LibraryOk(L) && Sound(L, r)
    ensures Sound(L, Joined(r)) && Forward(r, Joined(r))
  {
  }

  lemma StepIsSound(L: Library, r: Runtime, e: Event)
    requires LibraryOk(L) && Sound(L, r) && H.Usable(r.hub)
    ensures Sound(L, Step(L, r, e)) && Forward(r, Step(L, r, e))
  {
    if e.EvOwner? {
      OwnerKeeps(L, r, e.env);
    } else {
      CallerKeeps(L, r, e);
    }
  }

  // ---------------------------------------------------------------- the barrier

  /** The wait predicate of observe_until for a runtime that is not stopped. */
  predicate BarrierPassed(r: Runtime, target: nat) {
    r.inbox.processed >= target
  }

  /**
    When the barrier for `target` has passed, every ticket up to it is settled:
    processed to its end or discarded. One that was discarded since the last
    reset, or is still in flight, shows in the reported state.
   */
  lemma BarrierSettles(L: Library, r: Runtime, target: nat, ticket: nat)
    requires Sound(L, r) && BarrierPassed(r, target)
    requires 1 <= ticket <= target <= r.inbox.lastAdmitted
    ensures var fate := r.inbox.fates[ticket - 1];
            && fate != Queued
            && (fate == InFlight ==> Unwell(r.core.state))
            && (fate.Dropped? && fate.epoch == r.core.resetCount ==> Unwell(r.core.state))
  {
  }

  /** Some input up to `target` was discarded before a reset that has happened since. */
  ghost predicate LostBeforeReset(r: Runtime, target: nat) {
    exists i :: 0 <= i < target <= |r.inbox.fates| && r.inbox.fates[i].Dropped? && r.inbox.fates[i].epoch < r.core.resetCount
  }

  ghost predicate AllFinished(r: Runtime, target: nat) {
    target <= |r.inbox.fates| && forall i | 0 <= i < target :: r.inbox.fates[i] == Finished
  }

  /**
    What a passed barrier tells the observer: with a well state, every earlier
    input was processed to its end, unless and only unless one of them was
    discarded before a reset that has happened since.
   */
  lemma BarrierExactly(L: Library, r: Runtime, target: nat)
    requires Sound(L, r) && BarrierPassed(r, target) && target <= r.inbox.lastAdmitted
    requires !Unwell(r.core.state)
    ensures AllFinished(r, target) <==> !LostBeforeReset(r, target)
  {
    forall i | 0 <= i < target
      ensures r.inbox.fates[i] == Finished || (r.inbox.fates[i].Dropped? && r.inbox.fates[i].epoch < r.core.resetCount)
    {
      BarrierSettles(L, r, target, i + 1);
    }
  }

  // ---------------------------------------------------------------- drops and resets

  // The step of an item either leaves the inbox alone or empties it.
  lemma ItemInbox(L: Library, r: Runtime, env: Env)
    requires H.Usable(r.hub) && (r.pc.Processing? || r.pc.Replaying? || r.pc.Publishing?)
    ensures var s := OwnerStep(L, r, env);
            && (s.inbox == r.inbox || s.inbox == Discard(r.inbox, r.core.resetCount))
            && InFlightTicket(s.pc) == InFlightTicket(r.pc)
  {
  }

  /** Whatever was dropped on the way from `r` to `s` was dropped after the resets that `r` had seen. */
  ghost predicate LaterDrops(r: Runtime, s: Runtime) {
    && |r.inbox.fates| <= |s.inbox.fates|
    && forall i | 0 <= i < |s.inbox.fates| && s.inbox.fates[i].Dropped? ::
         (i < |r.inbox.fates| && r.inbox.fates[i] == s.inbox.fates[i]) || r.core.resetCount <= s.inbox.fates[i].epoch
  }

  lemma LaterDropsChain(r: Runtime, s: Runtime, u: Runtime)
    requires LaterDrops(r, s) && LaterDrops(s, u) && r.core.resetCount <= s.core.resetCount
    ensures LaterDrops(r, u)
  {
    forall i | 0 <= i < |u.inbox.fates| && u.inbox.fates[i].Dropped?
      ensures (i < |r.inbox.fates| && r.inbox.fates[i] == u.inbox.fates[i]) || r.core.resetCount <= u.inbox.fates[i].epoch
    {
      if i < |s.inbox.fates| && s.inbox.fates[i] == u.inbox.fates[i] {
        assert s.inbox.fates[i].Dropped?;
      }
    }
  }

  lemma StepDropsLater(L: Library, r: Runtime, e: Event)
    requires H.Usable(r.hub)
    ensures LaterDrops(r, Step(L, r, e))
  {
    if e.EvOwner? && (r.pc.Processing? || r.pc.Replaying? || r.pc.Publishing?) {
      ItemInbox(L, r, e.env);
    } else if e.EvOwner? {
      QuietDropsLater(L, r, e.env);
    }
  }

  lemma QuietDropsLater(L: Library, r: Runtime, env: Env)
    requires H.Usable(r.hub) && !r.pc.Processing? && !r.pc.Replaying? && !r.pc.Publishing?
    ensures LaterDrops(r, OwnerStep(L, r, env))
  {
  }
}
