/**
  The market runtime as an object whose methods update its fields in place.
  Every method is tied to the step function of the machine that specifies it.

  Source: src/g3/market_runtime.cpp.
 */
module RuntimeObject {
  import opened Prelude
  import opened MarketTypes
  import opened ProjectionLibrary
  import opened RuntimeCore
  import M = MarketRuntime
  import H = PublicationHub
  import C = OrderBookChannel
  import T = RuntimeTickets
  import Q = RuntimeRequests
  import R = RuntimeRuns

  /** The part of the observation that steers the runtime. */
  datatype Observation = Observation(
    state: RuntimeState, status: ProjectionStatus, fault: Option<FaultReason>, resetCount: nat)

  class MarketRuntime {
    const library: Library
    const limits: M.Limits
    var projection: Book
    var bootstrap: seq<Depth>
    var generation: Option<nat>
    var observation: Observation
    var accepting: bool
    var ingress: seq<M.Ticketed>
    var lastAdmitted: nat
    var processed: nat
    var mail: M.Mail
    var gate: M.Gate
    var subscribers: seq<H.Subscription>
    var nextSubscriptionId: nat
    var pc: M.Pc
    var applied: seq<H.AppliedUpdate>   // history: every applied update
    ghost var fates: seq<M.Fate>
    ghost var appliedSinceReset: nat

    ghost function CoreNow(): Core
      reads this
    {
      Core(projection, bootstrap, generation, observation.state, observation.status, observation.fault, accepting,
           observation.resetCount, appliedSinceReset)
    }

    ghost function Now(): M.Runtime
      reads this
    {
      M.Runtime(limits, CoreNow(), M.Inbox(ingress, lastAdmitted, processed, fates), mail, gate,
                H.Hub(subscribers, nextSubscriptionId, applied), pc)
    }

    constructor (library: Library, limits: M.Limits)
      ensures Now() == M.NewRuntime(library, limits) && this.library == library
    {
      this.library, this.limits := library, limits;
      projection, bootstrap, generation := library.initial, [], None;
      observation := Observation(Constructed, library.status(library.initial), None, 0);
      accepting, ingress, lastAdmitted, processed := false, [], 0, 0;
      mail := M.Mail([], 0, None, None, []);
      gate := M.Gate(false, false, false, false, false, false, false, None);
      subscribers, nextSubscriptionId, pc := [], 1, M.NotStarted;
      fates, applied, appliedSinceReset := [], [], 0;
    }

    // -------------------------------------------------------------- callers

    method Submit(input: Input) returns (r: M.SubmitResult)
      modifies this
      ensures (Now(), r) == M.Submit(old(Now()), input)
    {
      if gate.stopped {
        return M.SubmitStopped;
      }
      if !gate.started {
        return M.SubmitNotStarted;
      }
      if gate.stopRequested {
        return M.SubmitStopping;
      }
      if !accepting {
        return M.SubmitFaulted;
      }
      if |ingress| == limits.ingress {
        accepting := false;
        gate := gate.(pendingFault := Some(IngressOverflow));
        return M.Full;
      }
      lastAdmitted := lastAdmitted + 1;
      ingress := ingress + [M.Ticketed(lastAdmitted, input)];
      fates := fates + [M.Queued];
      r := M.Accepted;
    }

    method AskReset(kind: M.ResetKind) returns (refusal: Option<M.ResetError>)
      modifies this`mail
      ensures (Now(), refusal) == M.AskReset(old(Now()), kind)
    {
      if gate.stopped {
        return Some(M.ResetStopped);
      }
      if !gate.started {
        return Some(M.ResetNotStarted);
      }
      if gate.stopRequested {
        return Some(M.ResetStopping);
      }
      var live := observation.state == Live && observation.status == Synchronized && observation.fault.None?;
      var unwell := observation.state == Faulted || observation.state == NeedsResync;
      if (kind == M.Recovery && !unwell) || (kind == M.Planned && !live) {
        return Some(M.InvalidState);
      }
      if mail.reset.Some? {
        return Some(M.ResetBusy);
      }
      mail := M.Post(mail, M.ResetRequestKind).(reset := Some(M.ResetRequest(|mail.slots|, lastAdmitted, kind)));
      refusal := None;
    }

    method Stop()
      modifies this
      ensures Now() == M.RequestStop(old(Now()))
    {
      if gate.stopped {
        return;
      }
      accepting := false;
      if !gate.started {
        gate := gate.(stopped := true);
        observation := observation.(state := Stopped);
        return;
      }
      gate := gate.(admissionOpen := false, shutdownRequested := true, stopRequested := true);
      if observation.state != Faulted && observation.state != NeedsResync {
        observation := observation.(state := Stopping);
      }
    }

    // -------------------------------------------------------------- subscribers

    method SweepClosedSubscribers()
      modifies this`subscribers
      ensures Now() == old(Now()).(hub := H.Sweep(old(Now()).hub))
    {
      var i := 0;
      while i < |subscribers|
        invariant 0 <= i <= |subscribers| == |old(subscribers)|
        invariant forall k | 0 <= k < i :: subscribers[k] == H.SweepOne(old(subscribers)[k])
        invariant forall k | i <= k < |subscribers| :: subscribers[k] == old(subscribers)[k]
      {
        if H.State(subscribers[i]) == C.Closed {
          subscribers := subscribers[i := subscribers[i].(resident := false)];
        }
        i := i + 1;
      }
      assert subscribers == H.Sweep(old(Now()).hub).subscriptions;
    }

    method CloseAllSubscribers()
      modifies this`subscribers
      ensures Now() == old(Now()).(hub := H.CloseAll(old(Now()).hub))
    {
      var i := 0;
      while i < |subscribers|
        invariant 0 <= i <= |subscribers| == |old(subscribers)|
        invariant forall k | 0 <= k < i :: subscribers[k] == H.CloseOne(old(subscribers)[k])
        invariant forall k | i <= k < |subscribers| :: subscribers[k] == old(subscribers)[k]
      {
        if subscribers[i].resident {
          var closed := H.WithChannel(subscribers[i], C.CloseFromOwner(subscribers[i].session.channel));
          subscribers := subscribers[i := closed.(resident := false)];
        }
        i := i + 1;
      }
      assert subscribers == H.CloseAll(old(Now()).hub).subscriptions;
    }

    method TerminalizeActiveSubscribers(n: H.Notice)
      modifies this`subscribers
      ensures Now() == old(Now()).(hub := H.Terminate(old(Now()).hub, n))
    {
      SweepClosedSubscribers();
      ghost var swept := subscribers;
      var i := 0;
      while i < |subscribers|
        invariant 0 <= i <= |subscribers| == |swept|
        invariant forall k | 0 <= k < i :: subscribers[k] == H.TerminateOne(old(subscribers)[k], n)
        invariant forall k | i <= k < |subscribers| :: subscribers[k] == swept[k]
      {
        if subscribers[i].resident {
          var channel := C.Terminalize(subscribers[i].session.channel, n.reason, n.action, n.generation, n.time).0;
          subscribers := subscribers[i := H.WithChannel(subscribers[i], channel)];
        }
        i := i + 1;
      }
      assert subscribers == H.Terminate(old(Now()).hub, n).subscriptions;
    }

    method CountResidents() returns (n: nat)
      ensures n == H.Residents(subscribers)
    {
      n := 0;
      var i := 0;
      while i < |subscribers|
        invariant 0 <= i <= |subscribers|
        invariant n == H.Residents(subscribers[..i])
      {
        assert subscribers[..i + 1][..i] == subscribers[..i];
        if subscribers[i].resident {
          n := n + 1;
        }
        i := i + 1;
      }
      assert subscribers[..i] == subscribers;
    }

    /** Hands an applied update to the residents, in order, up to the first failure. */
    method PublishAppliedUpdate(d: Depth, time: Option<nat>) returns (trouble: Option<FaultReason>)
      requires H.Usable(Now().hub)
      modifies this`subscribers, this`applied
      ensures var (hub, expected) := H.Publish(old(Now()).hub, d, projection, time, gate.shutdownCompleted);
              Now() == old(Now()).(hub := hub) && trouble == expected
    {
      applied := applied + [H.AppliedUpdate(d, projection)];
      if gate.shutdownCompleted {
        return None;
      }
      ghost var recorded := Now().hub;
      SweepClosedSubscribers();
      ghost var swept := subscribers;
      assert swept == H.Sweep(recorded).subscriptions;
      var residents := CountResidents();
      if residents == 0 {
        return None;
      }
      if time.None? {
        return Some(ClockError);
      }
      assert forall k | 0 <= k < |swept| :: swept[k] == H.SweepOne(old(subscribers)[k]);
      assert H.AllUsable(swept);
      trouble := HandOut(d, time.value);
    }

    method HandOut(d: Depth, time: nat) returns (trouble: Option<FaultReason>)
      requires H.AllUsable(subscribers)
      modifies this`subscribers
      ensures var (ss, failed) := H.AdmitFrom(old(subscribers), 0, d, time);
              subscribers == ss && trouble == (if failed then Some(InternalError) else None)
    {
      var i := 0;
      while i < |subscribers|
        invariant 0 <= i <= |subscribers|
        invariant H.AllUsable(subscribers)
        invariant H.AdmitFrom(subscribers, i, d, time) == H.AdmitFrom(old(subscribers), 0, d, time)
      {
        H.AdmitFromStep(subscribers, i, d, time);
        if subscribers[i].resident {
          if H.Refuses(subscribers[i], d, time) {
            return Some(InternalError);
          }
          subscribers := subscribers[i := H.AdmitOne(subscribers[i], d, time)];
        }
        i := i + 1;
      }
      trouble := None;
    }

    // -------------------------------------------------------------- state

    method DiscardIngress()
      modifies this`ingress, this`processed, this`fates
      ensures Now() == old(Now()).(inbox := M.Discard(old(Now()).inbox, observation.resetCount))
    {
      if ingress != [] {
        processed := Max(processed, ingress[|ingress| - 1].ticket);
        ingress := [];
        ghost var was, epoch := fates, observation.resetCount;
        fates := seq(|was|, i requires 0 <= i < |was| => if was[i] == M.Queued then M.Dropped(epoch) else was[i]);
      }
    }

    method TransitionToFault(reason: FaultReason, time: Option<nat>)
      modifies this
      ensures Now() == M.ToFault(library, old(Now()), reason, time)
    {
      TerminalizeActiveSubscribers(H.FaultNotice(generation, time));
      accepting := false;
      bootstrap := [];
      observation := observation.(fault := Some(reason), status := library.status(projection), state := Faulted);
      DiscardIngress();
      if mail.snapshot.Some? {
        mail := M.AnswerTo(mail, mail.snapshot.value.id, M.NotCaptured(M.SnapshotFaulted));
      }
    }

    method PublishProjectionState()
      modifies this
      ensures Now() == M.ToPublished(library, old(Now()))
    {
      var status := library.status(projection);
      observation := observation.(status := status);
      if observation.state != Faulted && observation.state != Stopping && observation.state != Stopped {
        observation := observation.(state := StateFor(status));
      }
      if status == ResyncRequired {
        accepting := false;
        DiscardIngress();
      }
    }

    method FinishTicket(ticket: nat)
      modifies this`processed, this`fates
      ensures Now() == old(Now()).(inbox := M.Finish(old(Now()).inbox, ticket))
    {
      processed := Max(processed, ticket);
      if 1 <= ticket <= |fates| {
        fates := fates[ticket - 1 := M.Finished];
      }
    }

    /** apply_update, up to the publication of the state. */
    method ApplyUpdate(d: Depth, time: Option<nat>) returns (outcome: Outcome)
      requires H.Usable(Now().hub)
      modifies this
      ensures (Now(), outcome) == M.ToApplied(library, old(Now()), d, time)
    {
      if generation.Some? && d.generation.Some? && generation != d.generation {
        TransitionToFault(InternalError, time);
        return Failed;
      }
      var (book, result) := library.apply(projection, d.update);
      projection := book;
      match result {
        case ApplyThrew =>
          TransitionToFault(InternalError, time);
          return Thrown;
        case ApplyAdapterError =>
          TransitionToFault(AdapterError, time);
          return Failed;
        case Disposed(disposition) =>
          if disposition == Applied {
            var trouble := PublishAppliedUpdate(d, time);
            appliedSinceReset := appliedSinceReset + 1;
            if trouble.Some? {
              TransitionToFault(trouble.value, time);
            }
          } else if disposition == GapDetected {
            TerminalizeActiveSubscribers(
              H.Notice(C.UpstreamSequenceGap, C.RequestNewSnapshot, d.generation, H.TimeOrZero(time)));
          }
          outcome := Done(disposition);
      }
    }

    method ProcessInput(item: M.Ticketed, env: M.Env)
      requires H.Usable(Now().hub)
      modifies this
      ensures Now() == M.ProcessItem(library, old(Now()), item, env)
    {
      match item.input {
        case FailureInput(failure) =>
          TransitionToFault(FailureReason(failure), env.time);
          pc := M.Finishing(item.ticket);
        case DepthInput(d) =>
          if library.status(projection) == AwaitingBaseline {
            if |bootstrap| == limits.bootstrap {
              TransitionToFault(BootstrapBufferOverflow, env.time);
              pc := M.Finishing(item.ticket);
            } else {
              bootstrap := bootstrap + [d];
              pc := M.Publishing(item.ticket, false);
            }
          } else {
            var outcome := ApplyUpdate(d, env.time);
            pc := if outcome.Done? then M.Publishing(item.ticket, false) else M.Finishing(item.ticket);
          }
        case SnapshotInput(snapshot, provenance) =>
          var (book, result) := library.install(projection, snapshot);
          projection := book;
          if result == Installed {
            generation := provenance;
            pc := M.Replaying(item.ticket);
          } else {
            TransitionToFault(
              match result
              case InstallAdapterError => AdapterError
              case InstallRejected => ProjectionRejected
              case _ => InternalError,
              env.time);
            pc := M.Finishing(item.ticket);
          }
      }
    }

    method ReplayOne(ticket: nat, env: M.Env)
      requires H.Usable(Now().hub)
      modifies this
      ensures Now() == M.ReplayOne(library, old(Now()), ticket, env)
    {
      if library.status(projection) == ResyncRequired || observation.state == Faulted {
        bootstrap := [];
        pc := M.Publishing(ticket, false);
      } else if bootstrap == [] {
        pc := M.Publishing(ticket, false);
      } else {
        var d := bootstrap[0];
        bootstrap := bootstrap[1..];
        var outcome := ApplyUpdate(d, env.time);
        pc := match outcome
              case Thrown => M.Finishing(ticket)
              case Failed => M.Replaying(ticket)
              case Done(_) => M.Publishing(ticket, true);
      }
    }

    // -------------------------------------------------------------- requests

    method CompleteAllAdmissions(error: M.AdmissionError)
      modifies this`mail
      ensures Now() == old(Now()).(mail := M.CompleteAllAdmissions(old(mail), error))
    {
      var requests := mail.admissions;
      var i := 0;
      while i < |requests|
        invariant 0 <= i <= |requests|
        invariant M.AnswerEach(mail, requests[i..], error) == M.AnswerEach(old(mail), requests, error)
      {
        mail := M.AnswerTo(mail, requests[i].id, M.Refused(error));
        assert requests[i..][1..] == requests[i + 1..];
        i := i + 1;
      }
      mail := mail.(admissions := [], pending := 0);
    }

    method ShutDownPublication()
      modifies this
      ensures Now() == M.ShutDown(old(Now()))
    {
      CloseAllSubscribers();
      gate := gate.(admissionOpen := false);
      CompleteAllAdmissions(M.ShuttingDownNow);
      gate := gate.(shutdownCompleted := true);
      pc := M.Idle;
    }

    method CommitReset(kind: M.ResetKind, time: Option<nat>)
      modifies this
      ensures Now() == M.CommitReset(library, old(Now()), kind, time)
    {
      TerminalizeActiveSubscribers(M.ResetNotice(kind, generation, time));
      ResetCore();
      pc := M.Reporting;
    }

    method ResetCore()
      modifies this`projection, this`bootstrap, this`generation, this`observation, this`accepting, this`appliedSinceReset
      ensures CoreNow() == Reset(library, old(CoreNow()))
    {
      projection := library.initial;
      bootstrap := [];
      generation := None;
      observation := Observation(Buffering, library.status(library.initial), None, observation.resetCount + 1);
      accepting := true;
      appliedSinceReset := 0;
    }

    method CommitAdmission(a: M.Admission, env: M.Env)
      modifies this
      ensures Now() == M.CommitAdmission(old(Now()), a, env)
    {
      var residents := CountResidents();
      pc := M.Idle;
      if residents >= limits.active {
        mail := M.CompleteAdmission(mail, a.id, M.Refused(M.ActiveLimit));
        return;
      }
      if a.depth.Some? && !env.depthValid {
        mail := M.CompleteAdmission(mail, a.id, M.Refused(M.InvalidDepthLimit));
        return;
      }
      if env.time.None? {
        mail := M.CompleteAdmission(mail, a.id, M.Refused(M.AdmissionClockError));
        return;
      }
      if nextSubscriptionId == MAX_UINT64 {
        mail := M.CompleteAdmission(mail, a.id, M.Refused(M.IdExhausted));
        return;
      }
      if env.materialized != M.Made {
        var error := if env.materialized == M.DepthRejected then M.InvalidDepthLimit else M.AdmissionInternalError;
        mail := M.CompleteAdmission(mail, a.id, M.Refused(error));
        return;
      }
      StageAndJoin(a, env.time.value);
    }

    // Both mandatory records are staged privately; the gate is looked at again before the session joins.
    method StageAndJoin(a: M.Admission, time: nat)
      modifies this`subscribers, this`nextSubscriptionId, this`mail
      ensures var before := old(Now());
              var staged := H.Stage(before.hub, limits.queue, a.request, a.depth, projection, generation, time);
              Now() ==
                if staged.None? then before.(mail := M.CompleteAdmission(before.mail, a.id, M.Refused(M.ActiveLimit)))
                else if M.GateShut(before) then
                  before.(mail := M.CompleteAdmission(before.mail, a.id, M.Refused(M.ShuttingDownNow)))
                else if !M.AllLive(before.core) then
                  before.(mail := M.CompleteAdmission(before.mail, a.id, M.Refused(M.NotLive)))
                else before.(hub := H.Join(before.hub, staged.value),
                             mail := M.CompleteAdmission(before.mail, a.id, M.Subscribed(|before.hub.subscriptions|)))
    {
      var accepted := C.Record(1, None, time, C.Accepted(a.request));
      var snapshot := C.Record(2, generation, time, C.Snapshot(projection, a.depth));
      var (channel, staged) := C.Stage(C.NewChannel(limits.queue), accepted, snapshot);
      if !staged {
        mail := M.CompleteAdmission(mail, a.id, M.Refused(M.ActiveLimit));
        return;
      }
      if !gate.admissionOpen || gate.shutdownRequested || gate.stopRequested || gate.stopped {
        mail := M.CompleteAdmission(mail, a.id, M.Refused(M.ShuttingDownNow));
        return;
      }
      if observation.state != Live || observation.status != Synchronized || observation.fault.Some? {
        mail := M.CompleteAdmission(mail, a.id, M.Refused(M.NotLive));
        return;
      }
      var session := C.Session(channel, C.AtPeek, []);
      mail := M.CompleteAdmission(mail, a.id, M.Subscribed(|subscribers|));
      subscribers := subscribers + [H.Subscription(session, true, a.request, projection, a.depth, generation, |applied|)];
      nextSubscriptionId := nextSubscriptionId + 1;
    }

    // -------------------------------------------------------------- the owner loop

    method LooksForWork() returns (found: bool)
      ensures found == M.HasWork(Now())
    {
      found :=
        || (gate.shutdownRequested && !gate.shutdownCompleted)
        || gate.pendingFault.Some?
        || (mail.reset.Some? && M.Unanswered(mail, mail.reset.value.id) && processed >= mail.reset.value.target)
        || (mail.admissions != [] && processed >= mail.admissions[0].target)
        || (mail.snapshot.Some? && M.Unanswered(mail, mail.snapshot.value.id) && processed >= mail.snapshot.value.target)
        || gate.removalPending
        || ingress != []
        || gate.stopRequested;
    }

    method TakeIngress()
      requires ingress != []
      modifies this`ingress, this`fates, this`pc
      ensures var before := old(Now());
              var item := before.inbox.queue[0];
              var rest := before.inbox.(queue := before.inbox.queue[1..]);
              Now() == before.(inbox := M.Mark(rest, item.ticket, M.InFlight), pc := M.Processing(item))
    {
      var item := ingress[0];
      ingress := ingress[1..];
      if 1 <= item.ticket <= |fates| {
        fates := fates[item.ticket - 1 := M.InFlight];
      }
      pc := M.Processing(item);
    }

    /** One selection of the owner, in the source's order of priority. */
    method SelectWork()
      modifies this
      ensures Now() == M.Select(old(Now()))
    {
      if gate.shutdownRequested && !gate.shutdownCompleted {
        pc := M.ShuttingDown;
      } else if gate.pendingFault.Some? {
        pc := M.Faulting(gate.pendingFault.value);
        gate := gate.(pendingFault := None);
      } else if mail.reset.Some? && M.Unanswered(mail, mail.reset.value.id) && processed >= mail.reset.value.target {
        pc := M.Resetting;
      } else if mail.admissions != [] && processed >= mail.admissions[0].target {
        pc := M.Admitting(mail.admissions[0]);
        mail := mail.(admissions := mail.admissions[1..]);
      } else if mail.snapshot.Some? && M.Unanswered(mail, mail.snapshot.value.id)
                && processed >= mail.snapshot.value.target {
        pc := M.Snapshotting;
      } else if gate.removalPending {
        gate := gate.(removalPending := false);
        pc := M.Sweeping;
      } else if ingress != [] {
        TakeIngress();
      } else if gate.stopRequested {
        pc := M.Exiting;
      }
    }

    method CheckReset()
      modifies this`mail, this`pc
      ensures Now() == M.CheckReset(old(Now()))
    {
      if mail.reset.None? {
        pc := M.Idle;
        return;
      }
      var request := mail.reset.value;
      var unwell := observation.state == Faulted || observation.state == NeedsResync;
      var live := observation.state == Live && observation.status == Synchronized && observation.fault.None?;
      if (request.kind == M.Recovery && !unwell) || (request.kind == M.Planned && !live) {
        mail := M.AnswerTo(mail, request.id, M.NotReset(M.InvalidState));
        pc := M.Idle;
      } else {
        pc := M.Recommitting(request.kind);
      }
    }

    method CheckAdmission(a: M.Admission)
      modifies this
      ensures Now() == M.CheckAdmission(old(Now()), a)
    {
      SweepClosedSubscribers();
      if !gate.admissionOpen || gate.shutdownRequested || gate.stopRequested || gate.stopped {
        mail := M.CompleteAdmission(mail, a.id, M.Refused(M.ShuttingDownNow));
        pc := M.Idle;
      } else if observation.state != Live || observation.status != Synchronized || observation.fault.Some? {
        mail := M.CompleteAdmission(mail, a.id, M.Refused(M.NotLive));
        pc := M.Idle;
      } else {
        pc := M.Committing(a);
      }
    }

    method CaptureSnapshot(env: M.Env)
      modifies this`mail, this`pc
      ensures Now() == old(Now()).(mail := M.AnswerSnapshot(old(mail), M.Capture(old(Now()), env)), pc := M.Idle)
    {
      var result;
      if observation.state != Live {
        result := M.NotCaptured(M.SnapshotNotLive);
      } else if env.time.None? {
        result := M.NotCaptured(M.SnapshotClockError);
      } else {
        result := match env.materialized
                  case Made => M.Captured(projection, env.time.value)
                  case MaterializeThrew => M.NotCaptured(M.SnapshotInternalError)
                  case _ => M.NotCaptured(M.SnapshotAdapterError);
      }
      mail := M.AnswerSnapshot(mail, result);
      pc := M.Idle;
    }

    method LeaveLoop()
      modifies this
      ensures Now() == M.Exit(library, old(Now()))
    {
      observation := observation.(status := library.status(projection), state := Stopped);
      mail := M.AnswerSnapshot(mail, M.NotCaptured(M.SnapshotStopped));
      mail := M.AnswerReset(mail, M.NotReset(M.ResetStopped));
      CompleteAllAdmissions(M.AdmissionStopped);
      CloseAllSubscribers();
      pc := M.Exited;
    }

    /** One step of the owner thread. */
    method OwnerTurn(env: M.Env)
      requires H.Usable(Now().hub)
      modifies this
      ensures Now() == M.OwnerStep(library, old(Now()), env)
    {
      match pc {
        case NotStarted =>
        case Booting =>
          observation := observation.(state := Buffering, status := library.status(projection));
          pc := M.Idle;
        case Idle => SelectWork();
        case ShuttingDown => ShutDownPublication();
        case Faulting(reason) =>
          TransitionToFault(reason, env.time);
          pc := M.Idle;
        case Resetting => CheckReset();
        case Recommitting(kind) => CommitReset(kind, env.time);
        case Reporting =>
          mail := M.AnswerReset(mail, M.WasReset);
          pc := M.Idle;
        case Admitting(a) => CheckAdmission(a);
        case Committing(a) => CommitAdmission(a, env);
        case Snapshotting => CaptureSnapshot(env);
        case Sweeping =>
          SweepClosedSubscribers();
          pc := M.Idle;
        case Processing(item) => ProcessInput(item, env);
        case Publishing(ticket, replaying) =>
          PublishProjectionState();
          pc := if replaying then M.Replaying(ticket) else M.Finishing(ticket);
        case Replaying(ticket) => ReplayOne(ticket, env);
        case Finishing(ticket) =>
          FinishTicket(ticket);
          pc := M.Idle;
        case Exiting => LeaveLoop();
        case Exited =>
      }
    }

    /**
      The owner loop, left alone: it stops within the measure, and then everything
      admitted is processed or discarded and everything asked has its answer.
     */
    method OwnerLoop(envs: seq<M.Env>) returns (steps: nat)
      requires LibraryOk(library) && R.Inv(library, Now()) && gate.started
      modifies this
      ensures R.Inv(library, Now()) && steps <= |envs|
      ensures Q.AnswersKept(old(mail), mail)
      ensures Q.Measure(Now()) + steps <= Q.Measure(old(Now()))
      ensures Q.Measure(old(Now())) <= |envs| ==> Q.Settled(Now()) && (pc == M.Idle || pc == M.Exited)
    {
      steps := 0;
      var busy := true;
      while steps < |envs| && busy
        invariant R.Inv(library, Now()) && gate.started && steps <= |envs|
        invariant Q.AnswersKept(old(mail), mail)
        invariant Q.Measure(Now()) + steps <= Q.Measure(old(Now()))
        invariant !busy ==> !Q.Runnable(Now())
        decreases |envs| - steps, busy
      {
        var found := LooksForWork();
        if pc == M.NotStarted || pc == M.Exited || (pc == M.Idle && !found) {
          busy := false;
        } else {
          ghost var before := Now();
          R.OwnerAdvances(library, before, envs[steps]);
          OwnerTurn(envs[steps]);
          Q.AnswersKeptTransitive(old(mail), before.mail, mail);
          steps := steps + 1;
        }
      }
      if Q.Measure(old(Now())) <= |envs| {
        assert Q.Measure(Now()) == 0 || !busy;
        R.RestIsSettled(library, Now());
      }
    }
  }
}
