/**
  The main results about the market runtime, over every run of the machine:
  any interleaving of callers, RPC handlers and owner-thread steps.
 */
module RuntimeRuns {
  import opened Prelude
  import opened MarketTypes
  import opened ProjectionLibrary
  import opened RuntimeCore
  import opened MarketRuntime
  import opened RuntimeTickets
  import opened RuntimeRequests
  import opened RuntimeSessions
  import H = PublicationHub
  import C = OrderBookChannel

  ghost predicate Inv(L: Library, r: Runtime) {
    Sound(L, r) && RequestInv(r) && SessionInv(r)
  }

  lemma InvIsUsable(L: Library, r: Runtime)
    requires Inv(L, r)
    ensures H.Usable(r.hub)
  {
    H.StreamsAreUsable(r.hub);
  }

  lemma NewRuntimeInv(L: Library, limits: Limits)
    requires LibraryOk(L) && LimitsOk(limits)
    ensures Inv(L, NewRuntime(L, limits))
    ensures IsolationInv(L, NewRuntime(L, limits)) && FoldInv(L, NewRuntime(L, limits))
  {
  }

  lemma StepKeeps(L: Library, r: Runtime, e: Event)
    requires LibraryOk(L) && Inv(L, r)
    ensures H.Usable(r.hub) && Inv(L, Step(L, r, e))
    ensures Forward(r, Step(L, r, e)) && AnswersKept(r.mail, Step(L, r, e).mail)
  {
    InvIsUsable(L, r);
    StepIsSound(L, r, e);
    if e.EvOwner? {
      OwnerKeepsRequests(L, r, e.env);
    } else {
      CallerKeepsRequests(L, r, e);
    }
    StepKeepsSessions(L, r, e);
    StepKeepsAnswers(L, r, e);
  }

  ghost function Run(L: Library, r: Runtime, events: seq<Event>): Runtime
    requires LibraryOk(L) && Inv(L, r)
    decreases |events|
  {
    if events == [] then r
    else
      StepKeeps(L, r, events[0]);
      Run(L, Step(L, r, events[0]), events[1..])
  }

  /** Counters never go back, answers are never changed, and the invariants hold at every point of every run. */
  lemma {:induction false} EveryRunKeeps(L: Library, r: Runtime, events: seq<Event>)
    requires LibraryOk(L) && Inv(L, r)
    ensures Inv(L, Run(L, r, events))
    ensures Forward(r, Run(L, r, events)) && AnswersKept(r.mail, Run(L, r, events).mail)
    decreases |events|
  {
    if events != [] {
      StepKeeps(L, r, events[0]);
      var next := Step(L, r, events[0]);
      EveryRunKeeps(L, next, events[1..]);
      AnswersKeptTransitive(r.mail, next.mail, Run(L, r, events).mail);
    }
  }

  // An owner step that meets a working clock and adapter.
  const ANY_ENV := EvOwner(Env(Some(0), true, Made))

  // ---------------------------------------------------------------- tickets

  /** Every admitted ticket is processed, queued or in flight; the counters account for all of them. */
  lemma TicketsAreConserved(L: Library, r: Runtime, events: seq<Event>)
    requires LibraryOk(L) && Inv(L, r)
    ensures var s := Run(L, r, events);
            && InboxOk(s.inbox, InFlightTicket(s.pc), Halted(s.core))
            && (InFlightTicket(s.pc).None? ==> s.inbox.processed + |s.inbox.queue| == s.inbox.lastAdmitted)
            && (InFlightTicket(s.pc).Some? && !Halted(s.core) ==>
                  s.inbox.processed + 1 + |s.inbox.queue| == s.inbox.lastAdmitted)
            && r.inbox.processed <= s.inbox.processed <= s.inbox.lastAdmitted
  {
    EveryRunKeeps(L, r, events);
  }

  /**
    observe_until, called in `r` and returning after `events` with the barrier
    passed: the reported state is unwell, or every input admitted before the
    call was processed to its end, unless one was lost before an earlier reset.
   */
  lemma ObservationBarrier(L: Library, r: Runtime, events: seq<Event>)
    requires LibraryOk(L) && Inv(L, r)
    requires BarrierPassed(Run(L, r, events), r.inbox.lastAdmitted)
    ensures var s := Run(L, r, events);
            Unwell(s.core.state) || (AllFinished(s, r.inbox.lastAdmitted) <==> !LostBeforeReset(s, r.inbox.lastAdmitted))
  {
    EveryRunKeeps(L, r, events);
    var s := Run(L, r, events);
    if !Unwell(s.core.state) {
      BarrierExactly(L, s, r.inbox.lastAdmitted);
    }
  }

  lemma {:induction false} RunDropsLater(L: Library, r: Runtime, events: seq<Event>)
    requires LibraryOk(L) && Inv(L, r)
    ensures LaterDrops(r, Run(L, r, events))
    decreases |events|
  {
    if events != [] {
      StepKeeps(L, r, events[0]);
      StepDropsLater(L, r, events[0]);
      var next := Step(L, r, events[0]);
      RunDropsLater(L, next, events[1..]);
      LaterDropsChain(r, next, Run(L, r, events));
    }
  }

  /**
    What the observer can conclude from what it sees: an input that was not
    processed when it looked, a passed barrier and an unchanged reset count mean
    that the input was processed to its end, or that the state is unwell.
   */
  lemma UnchangedResetsTell(L: Library, r: Runtime, events: seq<Event>, ticket: nat)
    requires LibraryOk(L) && Inv(L, r) && r.inbox.processed < ticket <= r.inbox.lastAdmitted
    ensures var s := Run(L, r, events);
            BarrierPassed(s, ticket) && s.core.resetCount == r.core.resetCount ==>
              ticket <= |s.inbox.fates| && (s.inbox.fates[ticket - 1] == Finished || Unwell(s.core.state))
  {
    EveryRunKeeps(L, r, events);
    RunDropsLater(L, r, events);
    var s := Run(L, r, events);
    if BarrierPassed(s, ticket) && s.core.resetCount == r.core.resetCount {
      BarrierSettles(L, s, ticket, ticket);
      assert !r.inbox.fates[ticket - 1].Dropped?;
    }
  }

  // ---------------------------------------------------------------- sessions

  lemma {:induction false} EveryRunIsolates(L: Library, r: Runtime, events: seq<Event>)
    requires LibraryOk(L) && KeepsBaseline(L) && Inv(L, r) && IsolationInv(L, r)
    ensures IsolationInv(L, Run(L, r, events))
    decreases |events|
  {
    if events != [] {
      StepKeeps(L, r, events[0]);
      StepKeepsIsolation(L, r, events[0]);
      EveryRunIsolates(L, Step(L, r, events[0]), events[1..]);
    }
  }

  lemma {:induction false} EveryRunFolds(L: Library, r: Runtime, events: seq<Event>)
    requires LibraryOk(L) && KeepsBaseline(L) && IgnoringIsNeutral(L)
    requires Inv(L, r) && IsolationInv(L, r) && FoldInv(L, r)
    ensures FoldInv(L, Run(L, r, events))
    decreases |events|
  {
    if events != [] {
      StepKeeps(L, r, events[0]);
      StepKeepsIsolation(L, r, events[0]);
      StepKeepsFolds(L, r, events[0]);
      EveryRunFolds(L, Step(L, r, events[0]), events[1..]);
    }
  }

  /**
    Session replay. In every run of a new runtime, what a session wrote is
    Accepted, the snapshot of its admission cut, then a prefix of the updates
    applied after the cut, in order, each once, numbered from 1, and at most one
    gap notice, which comes last. An active session was handed all of them.
   */
  lemma SessionsReplay(L: Library, limits: Limits, events: seq<Event>, i: nat)
    requires LibraryOk(L) && LimitsOk(limits)
    ensures Inv(L, NewRuntime(L, limits))
    ensures var h := Run(L, NewRuntime(L, limits), events).hub;
            i < |h.subscriptions| ==>
              && H.WroteReplay(h.applied, h.subscriptions[i])
              && H.StreamOk(h.applied, h.subscriptions[i])
  {
    NewRuntimeInv(L, limits);
    EveryRunKeeps(L, NewRuntime(L, limits), events);
    var h := Run(L, NewRuntime(L, limits), events).hub;
    if i < |h.subscriptions| {
      assert H.StreamOk(h.applied, h.subscriptions[i]);
      H.WritersReplay(h.applied, h.subscriptions[i]);
    }
  }

  /** Folding what a session was handed onto its snapshot gives the owner's book at that point. */
  lemma SessionsFold(L: Library, limits: Limits, events: seq<Event>, i: nat, k: nat)
    requires LibraryOk(L) && KeepsBaseline(L) && IgnoringIsNeutral(L) && LimitsOk(limits)
    ensures Inv(L, NewRuntime(L, limits))
    ensures var s := Run(L, NewRuntime(L, limits), events);
            i < |s.hub.subscriptions| && k <= H.Delivered(s.hub.subscriptions[i]) ==>
              var sub := s.hub.subscriptions[i];
              && H.StreamOk(s.hub.applied, sub)
              && H.Fold(L, sub.base, H.UpdatesOf(H.Log(sub))[..k]) == H.BookAt(s.hub.applied, sub, k)
              && (H.State(sub) == C.Active ==> H.Fold(L, sub.base, H.UpdatesOf(H.Log(sub))) == s.core.book)
  {
    NewRuntimeInv(L, limits);
    EveryRunKeeps(L, NewRuntime(L, limits), events);
    EveryRunFolds(L, NewRuntime(L, limits), events);
    var s := Run(L, NewRuntime(L, limits), events);
    if i < |s.hub.subscriptions| && k <= H.Delivered(s.hub.subscriptions[i]) {
      var sub := s.hub.subscriptions[i];
      assert H.StreamOk(s.hub.applied, sub) && H.FoldOk(L, s.hub.applied, sub, s.core.book);
      H.FoldingIsTheBook(L, s.hub.applied, sub, s.core.book, k);
      H.FoldingIsTheBook(L, s.hub.applied, sub, s.core.book, H.Delivered(sub));
    }
  }

  /** What one session wrote names at most its own generation, when that is known. */
  ghost predicate WroteOneGeneration(sub: H.Subscription) {
    forall k | 0 <= k < |sub.session.written| ::
      (match sub.session.written[k]
       case Ordinary(record) => H.Carries(sub, record.generation)
       case Gap(terminal) => H.Carries(sub, terminal.generation))
  }

  /**
    Generation isolation. In every run, an active session has the current
    generation, and no session whose snapshot has a known generation carries
    a record or a gap notice of another one.
   */
  lemma SessionsAreIsolated(L: Library, limits: Limits, events: seq<Event>, i: nat)
    requires LibraryOk(L) && KeepsBaseline(L) && LimitsOk(limits)
    ensures Inv(L, NewRuntime(L, limits))
    ensures var s := Run(L, NewRuntime(L, limits), events);
            i < |s.hub.subscriptions| ==>
              && H.IsolationOk(s.hub.subscriptions[i], s.core.generation)
              && WroteOneGeneration(s.hub.subscriptions[i])
  {
    NewRuntimeInv(L, limits);
    EveryRunKeeps(L, NewRuntime(L, limits), events);
    EveryRunIsolates(L, NewRuntime(L, limits), events);
    var s := Run(L, NewRuntime(L, limits), events);
    if i < |s.hub.subscriptions| {
      var sub := s.hub.subscriptions[i];
      assert H.StreamOk(s.hub.applied, sub) && H.IsolationOk(sub, s.core.generation);
      forall k | 0 <= k < |sub.session.written|
        ensures (match sub.session.written[k]
                 case Ordinary(record) => H.Carries(sub, record.generation)
                 case Gap(terminal) => H.Carries(sub, terminal.generation))
      {
        H.WritersAreIsolated(s.hub.applied, sub, s.core.generation, k);
      }
    }
  }

  // ---------------------------------------------------------------- progress

  /** Letting the owner run until it blocks or exits, whatever it meets on the way. */
  ghost function Drain(L: Library, r: Runtime, env: Runtime -> Env): Runtime
    requires LibraryOk(L) && Inv(L, r)
    decreases Measure(r)
  {
    if !Runnable(r) then r
    else
      StepKeeps(L, r, EvOwner(env(r)));
      OwnerProgress(L, r, env(r));
      Drain(L, OwnerStep(L, r, env(r)), env)
  }

  /**
    With no further input, the owner settles everything: each admitted input is
    processed or discarded, every request has its one answer, and the owner is
    blocked or, if a stop was requested, gone.
   */
  lemma {:induction false} DrainSettles(L: Library, r: Runtime, env: Runtime -> Env)
    requires LibraryOk(L) && Inv(L, r) && r.gate.started
    ensures var s := Drain(L, r, env);
            && Inv(L, s) && Settled(s) && AnswersKept(r.mail, s.mail)
            && (s.pc == Idle || s.pc == Exited)
            && (r.gate.stopRequested ==> s.pc == Exited)
    decreases Measure(r)
  {
    if Runnable(r) {
      OwnerAdvances(L, r, env(r));
      var next := OwnerStep(L, r, env(r));
      DrainSettles(L, next, env);
      AnswersKeptTransitive(r.mail, next.mail, Drain(L, r, env).mail);
    } else {
      RestIsSettled(L, r);
    }
  }

  lemma RestIsSettled(L: Library, r: Runtime)
    requires Inv(L, r) && r.gate.started && !Runnable(r)
    ensures Settled(r) && (r.pc == Idle || r.pc == Exited)
    ensures r.gate.stopRequested ==> r.pc == Exited
  {
    if r.pc == Idle {
      BlockedExactly(L, r);
    }
  }

  lemma StopSticks(L: Library, r: Runtime, env: Env)
    requires H.Usable(r.hub)
    ensures OwnerStep(L, r, env).gate.started == r.gate.started
    ensures OwnerStep(L, r, env).gate.stopRequested == r.gate.stopRequested
  {
    match r.pc {
      case Processing(_) => ProcessAtMostFails(L, r, env);
      case Replaying(_) => ReplayAtMostFails(L, r, env);
      case _ => ControlsStick(L, r, env);
    }
  }

  lemma ControlsStick(L: Library, r: Runtime, env: Env)
    requires H.Usable(r.hub) && !r.pc.Processing? && !r.pc.Replaying?
    ensures OwnerStep(L, r, env).gate.started == r.gate.started
    ensures OwnerStep(L, r, env).gate.stopRequested == r.gate.stopRequested
  {
    if r.pc.Committing? {
      CommitSticks(r, r.pc.admission, env);
    }
  }

  lemma CommitSticks(r: Runtime, a: Admission, env: Env)
    ensures CommitAdmission(r, a, env).gate == r.gate
  {
  }

  /** What one owner step keeps and lowers. */
  lemma OwnerAdvances(L: Library, r: Runtime, env: Env)
    requires LibraryOk(L) && Inv(L, r) && Runnable(r) && r.gate.started
    ensures H.Usable(r.hub)
    ensures var s := OwnerStep(L, r, env);
            && Inv(L, s) && s.gate.started && Measure(s) < Measure(r) && AnswersKept(r.mail, s.mail)
            && s.gate.stopRequested == r.gate.stopRequested
  {
    StepKeeps(L, r, EvOwner(env));
    OwnerProgress(L, r, env);
    StopSticks(L, r, env);
  }

  /** When the owner leaves its loop, everything was processed and answered, and its clean-up changes no request. */
  lemma ExitIsSettled(L: Library, r: Runtime, events: seq<Event>)
    requires LibraryOk(L) && Inv(L, r)
    ensures var s := Run(L, r, events);
            s.pc == Exiting || s.pc == Exited ==>
              && s.inbox.processed == s.inbox.lastAdmitted && Settled(s)
              && Exit(L, s).mail == s.mail && Joined(s).mail == s.mail
  {
    EveryRunKeeps(L, r, events);
    var s := Run(L, r, events);
    if s.pc == Exiting || s.pc == Exited {
      ExitFindsNothing(L, s);
    }
  }
}
