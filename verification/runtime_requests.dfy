/**
  Progress of the owner thread: every request gets exactly one result, the
  owner blocks only when nothing is outstanding, and it leaves its loop only
  when everything admitted was processed and everything asked was answered.
 */
module RuntimeRequests {
  import opened Prelude
  import opened MarketTypes
  import opened ProjectionLibrary
  import opened RuntimeCore
  import opened MarketRuntime
  import opened RuntimeTickets
  import H = PublicationHub

  // ---------------------------------------------------------------- the mailboxes

  /** The admission the owner has in its hands. */
  function HeldAdmission(pc: Pc): Option<Admission> {
    match pc
    case Admitting(a) => Some(a)
    case Committing(a) => Some(a)
    case _ => None
  }

  ghost predicate Waiting(m: Mail, id: nat, kind: Kind) {
    Unanswered(m, id) && m.slots[id].kind == kind
  }

  ghost predicate InQueue(m: Mail, id: nat) {
    exists k :: 0 <= k < |m.admissions| && m.admissions[k].id == id
  }

  /** Who will answer a request that has no answer yet. */
  ghost predicate SomeoneAnswers(m: Mail, held: Option<Admission>, id: nat)
    requires id < |m.slots|
  {
    match m.slots[id].kind
    case AdmissionKind => InQueue(m, id) || (held.Some? && held.value.id == id)
    case SnapshotKind => m.snapshot.Some? && m.snapshot.value.id == id
    case ResetRequestKind => m.reset.Some? && m.reset.value.id == id
  }

  /** Targets never lie ahead of the last admitted ticket. */
  ghost predicate MailOk(m: Mail, held: Option<Admission>, lastAdmitted: nat) {
    && (forall k | 0 <= k < |m.admissions| ::
          Waiting(m, m.admissions[k].id, AdmissionKind) && m.admissions[k].target <= lastAdmitted)
    && (forall j, k | 0 <= j < k < |m.admissions| :: m.admissions[j].id < m.admissions[k].id)
    && (held.Some? ==> Waiting(m, held.value.id, AdmissionKind)
                       && forall k | 0 <= k < |m.admissions| :: held.value.id < m.admissions[k].id)
    && m.pending == |m.admissions| + (if held.Some? then 1 else 0)
    && (m.snapshot.Some? ==>
          && m.snapshot.value.id < |m.slots| && m.snapshot.value.target <= lastAdmitted
          && m.slots[m.snapshot.value.id].kind == SnapshotKind)
    && (m.reset.Some? ==>
          && m.reset.value.id < |m.slots| && m.reset.value.target <= lastAdmitted
          && m.slots[m.reset.value.id].kind == ResetRequestKind)
    && forall id: nat | id < |m.slots| && m.slots[id].answer.None? :: SomeoneAnswers(m, held, id)
  }

  /** Answers are only ever added. */
  ghost predicate AnswersKept(m: Mail, n: Mail) {
    && |m.slots| <= |n.slots|
    && forall id | 0 <= id < |m.slots| ::
         && n.slots[id].kind == m.slots[id].kind
         && (m.slots[id].answer.Some? ==> n.slots[id].answer == m.slots[id].answer)
  }

  lemma AnswerToKeeps(m: Mail, held: Option<Admission>, lastAdmitted: nat, id: nat, answer: Answer)
    requires MailOk(m, held, lastAdmitted) && id < |m.slots| && m.slots[id].kind != AdmissionKind
    ensures var n := AnswerTo(m, id, answer);
            && MailOk(n, held, lastAdmitted) && AnswersKept(m, n)
            && n.(slots := m.slots) == m
            && forall j: nat :: Unanswered(n, j) <==> j != id && Unanswered(m, j)
  {
    var n := AnswerTo(m, id, answer);
    forall j: nat | j < |n.slots| && n.slots[j].answer.None? ensures SomeoneAnswers(n, held, j) {
      assert SomeoneAnswers(m, held, j);
      assert InQueue(m, j) ==> InQueue(n, j);
    }
  }

  lemma CompleteAdmissionKeeps(m: Mail, a: Admission, lastAdmitted: nat, answer: Answer)
    requires MailOk(m, Some(a), lastAdmitted)
    ensures var n := CompleteAdmission(m, a.id, answer);
            && MailOk(n, None, lastAdmitted) && AnswersKept(m, n)
            && n.(slots := m.slots, pending := m.pending) == m
            && n.slots[a.id].answer == Some(answer)
            && (n.reset.Some? ==> (Unanswered(n, n.reset.value.id) <==> Unanswered(m, n.reset.value.id)))
            && (n.snapshot.Some? ==> (Unanswered(n, n.snapshot.value.id) <==> Unanswered(m, n.snapshot.value.id)))
  {
  }

  lemma TakeAdmissionKeeps(m: Mail, lastAdmitted: nat)
    requires MailOk(m, None, lastAdmitted) && m.admissions != []
    ensures MailOk(m.(admissions := m.admissions[1..]), Some(m.admissions[0]), lastAdmitted)
  {
    var n := m.(admissions := m.admissions[1..]);
    forall id: nat | id < |n.slots| && n.slots[id].answer.None?
      ensures SomeoneAnswers(n, Some(m.admissions[0]), id)
    {
      assert SomeoneAnswers(m, None, id);
      if m.slots[id].kind == AdmissionKind {
        var k :| 0 <= k < |m.admissions| && m.admissions[k].id == id;
        if k != 0 {
          assert n.admissions[k - 1].id == id;
        }
      }
    }
  }

  /** The effect of answering a list of admissions. */
  lemma {:induction false} AnswerEachEffect(m: Mail, admissions: seq<Admission>, error: AdmissionError)
    ensures var n := AnswerEach(m, admissions, error);
            && n.(slots := m.slots) == m && AnswersKept(m, n) && |n.slots| == |m.slots|
            && (forall id | 0 <= id < |m.slots| :: n.slots[id].answer.None? <==>
                  m.slots[id].answer.None? && Absent(admissions, id))
            && (forall id | 0 <= id < |m.slots| :: n.slots[id] == m.slots[id] || n.slots[id].answer == Some(Refused(error)))
    decreases |admissions|
  {
    if admissions != [] {
      var next := AnswerTo(m, admissions[0].id, Refused(error));
      AnswerEachEffect(next, admissions[1..], error);
      forall id: nat ensures Absent(admissions, id) <==> admissions[0].id != id && Absent(admissions[1..], id) {
        AbsentStep(admissions, id);
      }
    }
  }

  ghost predicate Absent(admissions: seq<Admission>, id: nat) {
    forall k | 0 <= k < |admissions| :: admissions[k].id != id
  }

  lemma AbsentStep(admissions: seq<Admission>, id: nat)
    requires admissions != []
    ensures Absent(admissions, id) <==> admissions[0].id != id && Absent(admissions[1..], id)
  {
    if admissions[0].id != id && Absent(admissions[1..], id) {
      forall k | 0 <= k < |admissions| ensures admissions[k].id != id {
        assert k == 0 || admissions[k] == admissions[1..][k - 1];
      }
    }
    if Absent(admissions, id) {
      assert admissions[0].id != id;
      assert forall k | 0 <= k < |admissions[1..]| :: admissions[1..][k] == admissions[k + 1];
    }
  }

  lemma CompleteAllKeeps(m: Mail, lastAdmitted: nat, error: AdmissionError)
    requires MailOk(m, None, lastAdmitted)
    ensures var n := CompleteAllAdmissions(m, error);
            && MailOk(n, None, lastAdmitted) && AnswersKept(m, n)
            && n.snapshot == m.snapshot && n.reset == m.reset && n.admissions == []
            && (n.reset.Some? ==> (Unanswered(n, n.reset.value.id) <==> Unanswered(m, n.reset.value.id)))
            && (n.snapshot.Some? ==> (Unanswered(n, n.snapshot.value.id) <==> Unanswered(m, n.snapshot.value.id)))
  {
    AnswerEachEffect(m, m.admissions, error);
    var n := CompleteAllAdmissions(m, error);
    forall id: nat | id < |n.slots| && n.slots[id].answer.None? ensures SomeoneAnswers(n, None, id) {
      assert SomeoneAnswers(m, None, id);
    }
    if m.reset.Some? {
      assert forall k | 0 <= k < |m.admissions| :: m.slots[m.admissions[k].id].kind == AdmissionKind;
    }
  }

  /** Older requests are answered as before when one more is posted. */
  lemma OlderAreAnswered(m: Mail, n: Mail, held: Option<Admission>, id: nat)
    requires id < |m.slots| <= |n.slots| && n.slots[id] == m.slots[id] && SomeoneAnswers(m, held, id)
    requires m.admissions <= n.admissions
    requires (m.snapshot.Some? ==> n.snapshot == m.snapshot) && (m.reset.Some? ==> n.reset == m.reset)
    ensures SomeoneAnswers(n, held, id)
  {
    if InQueue(m, id) {
      var k :| 0 <= k < |m.admissions| && m.admissions[k].id == id;
      assert n.admissions[k].id == id;
    }
  }

  // The admission that is posted last waits behind the others.
  lemma LastInQueue(m: Mail, n: Mail, held: Option<Admission>, lastAdmitted: nat, a: Admission)
    requires MailOk(m, held, lastAdmitted) && a.id == |m.slots| && a.target == lastAdmitted
    requires n == Post(m, AdmissionKind).(admissions := m.admissions + [a], pending := m.pending + 1)
    ensures forall k | 0 <= k < |n.admissions| ::
              Waiting(n, n.admissions[k].id, AdmissionKind) && n.admissions[k].target <= lastAdmitted
    ensures forall j, k | 0 <= j < k < |n.admissions| :: n.admissions[j].id < n.admissions[k].id
    ensures held.Some? ==> forall k | 0 <= k < |n.admissions| :: held.value.id < n.admissions[k].id
  {
    forall k | 0 <= k < |n.admissions|
      ensures Waiting(n, n.admissions[k].id, AdmissionKind) && n.admissions[k].target <= lastAdmitted
      ensures n.admissions[k].id <= a.id && (k < |m.admissions| ==> n.admissions[k].id < a.id)
    {
      if k < |m.admissions| {
        assert n.admissions[k] == m.admissions[k] && Waiting(m, m.admissions[k].id, AdmissionKind);
      }
    }
  }

  lemma PostAdmissionKeeps(m: Mail, held: Option<Admission>, lastAdmitted: nat, request: nat, depth: Option<int>)
    requires MailOk(m, held, lastAdmitted)
    ensures MailOk(Post(m, AdmissionKind).(
                     admissions := m.admissions + [Admission(|m.slots|, lastAdmitted, request, depth)],
                     pending := m.pending + 1),
                   held, lastAdmitted)
  {
    var a := Admission(|m.slots|, lastAdmitted, request, depth);
    var n := Post(m, AdmissionKind).(admissions := m.admissions + [a], pending := m.pending + 1);
    LastInQueue(m, n, held, lastAdmitted, a);
    forall id: nat | id < |n.slots| && n.slots[id].answer.None? ensures SomeoneAnswers(n, held, id) {
      if id < |m.slots| {
        OlderAreAnswered(m, n, held, id);
      } else {
        assert n.admissions[|m.admissions|].id == id;
      }
    }
  }

  lemma PostSnapshotKeeps(m: Mail, held: Option<Admission>, lastAdmitted: nat)
    requires MailOk(m, held, lastAdmitted) && m.snapshot.None?
    ensures MailOk(Post(m, SnapshotKind).(snapshot := Some(SnapshotRequest(|m.slots|, lastAdmitted))), held, lastAdmitted)
  {
    var n := Post(m, SnapshotKind).(snapshot := Some(SnapshotRequest(|m.slots|, lastAdmitted)));
    forall id: nat | id < |m.slots| && n.slots[id].answer.None? ensures SomeoneAnswers(n, held, id) {
      OlderAreAnswered(m, n, held, id);
    }
  }

  lemma PostResetKeeps(m: Mail, held: Option<Admission>, lastAdmitted: nat, kind: ResetKind)
    requires MailOk(m, held, lastAdmitted) && m.reset.None?
    ensures MailOk(Post(m, ResetRequestKind).(reset := Some(ResetRequest(|m.slots|, lastAdmitted, kind))), held, lastAdmitted)
  {
    var n := Post(m, ResetRequestKind).(reset := Some(ResetRequest(|m.slots|, lastAdmitted, kind)));
    forall id: nat | id < |m.slots| && n.slots[id].answer.None? ensures SomeoneAnswers(n, held, id) {
      OlderAreAnswered(m, n, held, id);
    }
  }

  lemma TakeSnapshotKeeps(m: Mail, held: Option<Admission>, lastAdmitted: nat)
    requires MailOk(m, held, lastAdmitted) && m.snapshot.Some? && !Unanswered(m, m.snapshot.value.id)
    ensures MailOk(m.(snapshot := None), held, lastAdmitted)
  {
    forall id: nat | id < |m.slots| && m.slots[id].answer.None? ensures SomeoneAnswers(m.(snapshot := None), held, id) {
      assert SomeoneAnswers(m, held, id);
      assert InQueue(m, id) ==> InQueue(m.(snapshot := None), id);
    }
  }

  lemma TakeResetKeeps(m: Mail, held: Option<Admission>, lastAdmitted: nat)
    requires MailOk(m, held, lastAdmitted) && m.reset.Some? && !Unanswered(m, m.reset.value.id)
    ensures MailOk(m.(reset := None), held, lastAdmitted)
  {
    forall id: nat | id < |m.slots| && m.slots[id].answer.None? ensures SomeoneAnswers(m.(reset := None), held, id) {
      assert SomeoneAnswers(m, held, id);
      assert InQueue(m, id) ==> InQueue(m.(reset := None), id);
    }
  }

  // ---------------------------------------------------------------- the whole machine

  /** Nothing admitted is unprocessed and nothing asked is unanswered. */
  ghost predicate Settled(r: Runtime) {
    && r.inbox.queue == [] && r.inbox.processed == r.inbox.lastAdmitted
    && r.gate.pendingFault.None? && !ShutdownWaiting(r)
    && r.mail.admissions == []
    && forall id | 0 <= id < |r.mail.slots| :: r.mail.slots[id].answer.Some?
  }

  ghost predicate RequestInv(r: Runtime) {
    && MailOk(r.mail, HeldAdmission(r.pc), r.inbox.lastAdmitted)
    && r.mail.pending <= r.limits.pending
    && (r.gate.shutdownCompleted ==> r.gate.shutdownRequested)
    && (r.gate.stopRequested ==> r.gate.started && r.gate.shutdownRequested && !r.gate.admissionOpen)
    && (r.gate.stopped ==> r.pc.NotStarted? || r.pc.Exited?)
    && match r.pc
       case NotStarted => r.mail.slots == [] && r.gate.pendingFault.None? && !r.gate.stopRequested
       case ShuttingDown => ShutdownWaiting(r)
       case Resetting => ResetWaiting(r)
       case Recommitting(_) => ResetWaiting(r)
       case Reporting => ResetWaiting(r)
       case Snapshotting => SnapshotWaiting(r)
       case Exiting => Settled(r) && r.gate.stopRequested
       case Exited => Settled(r) && r.gate.stopRequested
       case _ => true
  }

  /** With nothing queued, every request still waiting is ready. */
  lemma BlockedMeansSettled(L: Library, r: Runtime)
    requires Sound(L, r) && RequestInv(r) && r.pc == Idle
    requires !ShutdownWaiting(r) && r.gate.pendingFault.None? && !ResetReady(r) && !AdmissionReady(r)
    requires !SnapshotReady(r) && r.inbox.queue == []
    ensures Settled(r)
  {
    forall id: nat | id < |r.mail.slots| ensures r.mail.slots[id].answer.Some? {
      assert r.mail.slots[id].answer.None? ==> SomeoneAnswers(r.mail, None, id);
    }
  }

  // Where every mailbox is as before, a new place in the loop needs only its own condition.
  lemma SelectedKeeps(r: Runtime, s: Runtime)
    requires RequestInv(r) && r.pc == Idle
    requires s.mail == r.mail && s.limits == r.limits && s.inbox.lastAdmitted == r.inbox.lastAdmitted
    requires s.gate == r.gate.(pendingFault := s.gate.pendingFault, removalPending := s.gate.removalPending)
    requires HeldAdmission(s.pc).None? && !s.pc.NotStarted? && !s.pc.Exited?
    requires match s.pc
             case ShuttingDown => ShutdownWaiting(s)
             case Resetting => ResetWaiting(s)
             case Recommitting(_) => false
             case Reporting => false
             case Snapshotting => SnapshotWaiting(s)
             case Exiting => Settled(s) && s.gate.stopRequested
             case _ => true
    ensures RequestInv(s)
  {
  }

  // What the selection leaves as it is, unless it takes an admission.
  lemma SelectedParts(r: Runtime)
    requires !Select(r).pc.Admitting?
    ensures var s := Select(r);
            && s.mail == r.mail && s.limits == r.limits && s.inbox.lastAdmitted == r.inbox.lastAdmitted
            && s.gate == r.gate.(pendingFault := s.gate.pendingFault, removalPending := s.gate.removalPending)
  {
  }

  lemma SelectKeepsRequests(L: Library, r: Runtime)
    requires Sound(L, r) && RequestInv(r) && r.pc == Idle
    ensures RequestInv(Select(r))
  {
    var s := Select(r);
    if s.pc.Admitting? {
      TakenAdmissionKeeps(r);
    } else {
      if s.pc == Exiting {
        BlockedMeansSettled(L, r);
      }
      SelectedParts(r);
      SelectedKeeps(r, s);
    }
  }

  lemma TakenAdmissionKeeps(r: Runtime)
    requires RequestInv(r) && r.pc == Idle && r.mail.admissions != []
    ensures RequestInv(r.(mail := r.mail.(admissions := r.mail.admissions[1..]), pc := Admitting(r.mail.admissions[0])))
  {
    TakeAdmissionKeeps(r.mail, r.inbox.lastAdmitted);
  }

  lemma FaultMailKeeps(m: Mail, lastAdmitted: nat)
    requires MailOk(m, None, lastAdmitted)
    ensures var n := AnswerSnapshot(m, NotCaptured(SnapshotFaulted));
            && MailOk(n, None, lastAdmitted) && AnswersKept(m, n)
            && n.admissions == m.admissions && n.pending == m.pending
            && (n.snapshot.Some? ==> !Unanswered(n, n.snapshot.value.id))
            && n.snapshot == m.snapshot && n.reset == m.reset
            && (n.reset.Some? ==> (Unanswered(n, n.reset.value.id) <==> Unanswered(m, n.reset.value.id)))
  {
    if m.snapshot.Some? {
      AnswerToKeeps(m, None, lastAdmitted, m.snapshot.value.id, NotCaptured(SnapshotFaulted));
    }
  }

  /** A step that leaves the mailboxes alone, or fails a waiting snapshot request. */
  ghost predicate AtMostFails(r: Runtime, s: Runtime) {
    && s.limits == r.limits && s.gate == r.gate && s.inbox.lastAdmitted == r.inbox.lastAdmitted
    && (s.mail == r.mail || s.mail == AnswerSnapshot(r.mail, NotCaptured(SnapshotFaulted)))
  }

  lemma AtMostFailsKeeps(r: Runtime, s: Runtime)
    requires RequestInv(r) && AtMostFails(r, s) && HeldAdmission(r.pc).None?
    requires !r.pc.NotStarted? && !r.pc.Exited? && (s.pc == Idle || InFlightTicket(s.pc).Some?)
    ensures RequestInv(s)
  {
    FaultMailKeeps(r.mail, r.inbox.lastAdmitted);
  }

  lemma FaultAtMostFails(L: Library, r: Runtime, reason: FaultReason, time: Option<nat>)
    ensures AtMostFails(r, ToFault(L, r, reason, time))
  {
  }

  lemma AppliedAtMostFails(L: Library, r: Runtime, d: Depth, time: Option<nat>)
    requires H.Usable(r.hub)
    ensures AtMostFails(r, ToApplied(L, r, d, time).0)
  {
  }

  lemma ProcessAtMostFails(L: Library, r: Runtime, env: Env)
    requires H.Usable(r.hub) && r.pc.Processing?
    ensures AtMostFails(r, ProcessItem(L, r, r.pc.item, env))
  {
    if r.pc.item.input.DepthInput? {
      AppliedAtMostFails(L, r, r.pc.item.input.depth, env.time);
    }
  }

  lemma ReplayAtMostFails(L: Library, r: Runtime, env: Env)
    requires H.Usable(r.hub) && r.pc.Replaying?
    ensures AtMostFails(r, ReplayOne(L, r, r.pc.ticket, env))
  {
    var c := r.core;
    if c.bootstrap != [] {
      AppliedAtMostFails(L, r.(core := c.(bootstrap := c.bootstrap[1..])), c.bootstrap[0], env.time);
    }
  }

  lemma ResetKeepsRequests(L: Library, r: Runtime, env: Env)
    requires RequestInv(r) && H.Usable(r.hub) && (r.pc.Resetting? || r.pc.Recommitting? || r.pc.Reporting?)
    ensures RequestInv(OwnerStep(L, r, env))
    ensures !r.pc.Recommitting? && OwnerStep(L, r, env).pc == Idle ==> !ResetWaiting(OwnerStep(L, r, env))
  {
    AnswerToKeeps(r.mail, None, r.inbox.lastAdmitted, r.mail.reset.value.id, WasReset);
    AnswerToKeeps(r.mail, None, r.inbox.lastAdmitted, r.mail.reset.value.id, NotReset(InvalidState));
  }

  lemma CaptureKeepsRequests(L: Library, r: Runtime, env: Env)
    requires RequestInv(r) && H.Usable(r.hub) && r.pc.Snapshotting?
    ensures RequestInv(OwnerStep(L, r, env))
    ensures !SnapshotWaiting(OwnerStep(L, r, env))
  {
    AnswerToKeeps(r.mail, None, r.inbox.lastAdmitted, r.mail.snapshot.value.id, Capture(r, env));
  }

  lemma CheckAdmissionKeepsRequests(r: Runtime, a: Admission)
    requires RequestInv(r) && r.pc == Admitting(a)
    ensures RequestInv(CheckAdmission(r, a))
  {
    CompleteAdmissionKeeps(r.mail, a, r.inbox.lastAdmitted, Refused(ShuttingDownNow));
    CompleteAdmissionKeeps(r.mail, a, r.inbox.lastAdmitted, Refused(NotLive));
  }

  lemma CommitAnswers(r: Runtime, a: Admission, env: Env) returns (answer: Answer)
    ensures var s := CommitAdmission(r, a, env);
            && s.mail == CompleteAdmission(r.mail, a.id, answer)
            && s.pc == Idle && s.gate == r.gate && s.inbox == r.inbox && s.limits == r.limits && s.core == r.core
  {
    var s := CommitAdmission(r, a, env);
    answer := if Unanswered(r.mail, a.id) then s.mail.slots[a.id].answer.value else WasReset;
  }

  lemma CommitAdmissionKeepsRequests(r: Runtime, a: Admission, env: Env)
    requires RequestInv(r) && r.pc == Committing(a)
    ensures RequestInv(CommitAdmission(r, a, env))
    ensures Unanswered(r.mail, a.id) && CommitAdmission(r, a, env).mail.slots[a.id].answer.Some?
  {
    var answer := CommitAnswers(r, a, env);
    CompleteAdmissionKeeps(r.mail, a, r.inbox.lastAdmitted, answer);
  }

  lemma ShutDownKeepsRequests(r: Runtime)
    requires RequestInv(r) && r.pc == ShuttingDown
    ensures RequestInv(ShutDown(r))
  {
    CompleteAllKeeps(r.mail, r.inbox.lastAdmitted, ShuttingDownNow);
  }

  /** Everything was answered before the loop was left: the final clean-up of requests changes nothing. */
  lemma ExitFindsNothing(L: Library, r: Runtime)
    requires RequestInv(r) && (r.pc == Exiting || r.pc == Exited)
    ensures Exit(L, r).mail == r.mail
    ensures Joined(r).mail == r.mail
    ensures Settled(r)
  {
    if r.mail.snapshot.Some? {
      assert r.mail.slots[r.mail.snapshot.value.id].answer.Some?;
    }
    if r.mail.reset.Some? {
      assert r.mail.slots[r.mail.reset.value.id].answer.Some?;
    }
    assert r.mail.pending == 0;
  }

  lemma ItemKeepsRequests(L: Library, r: Runtime, env: Env)
    requires RequestInv(r) && H.Usable(r.hub) && (InFlightTicket(r.pc).Some? || r.pc.Faulting?)
    ensures RequestInv(OwnerStep(L, r, env))
  {
    if r.pc.Processing? {
      ProcessAtMostFails(L, r, env);
    } else if r.pc.Replaying? {
      ReplayAtMostFails(L, r, env);
    }
    AtMostFailsKeeps(r, OwnerStep(L, r, env));
  }

  lemma AnsweringKeepsRequests(L: Library, r: Runtime, env: Env)
    requires RequestInv(r) && H.Usable(r.hub)
    requires r.pc.ShuttingDown? || r.pc.Resetting? || r.pc.Recommitting? || r.pc.Reporting? || r.pc.Admitting?
             || r.pc.Committing? || r.pc.Snapshotting?
    ensures RequestInv(OwnerStep(L, r, env))
  {
    if r.pc.ShuttingDown? {
      ShutDownKeepsRequests(r);
    } else if r.pc.Admitting? {
      CheckAdmissionKeepsRequests(r, r.pc.admission);
    } else if r.pc.Committing? {
      CommitAdmissionKeepsRequests(r, r.pc.admission, env);
    } else if r.pc.Snapshotting? {
      CaptureKeepsRequests(L, r, env);
    } else {
      ResetKeepsRequests(L, r, env);
    }
  }

  lemma OwnerKeepsRequests(L: Library, r: Runtime, env: Env)
    requires Sound(L, r) && RequestInv(r) && H.Usable(r.hub)
    ensures RequestInv(OwnerStep(L, r, env))
  {
    if r.pc.Idle? {
      SelectKeepsRequests(L, r);
    } else if InFlightTicket(r.pc).Some? || r.pc.Faulting? {
      ItemKeepsRequests(L, r, env);
    } else if r.pc.Exiting? {
      ExitFindsNothing(L, r);
    } else if !r.pc.NotStarted? && !r.pc.Booting? && !r.pc.Sweeping? && !r.pc.Exited? {
      AnsweringKeepsRequests(L, r, env);
    }
  }

  lemma AskSnapshotKeepsRequests(r: Runtime)
    requires RequestInv(r) && (r.pc.NotStarted? <==> !r.gate.started)
    ensures RequestInv(AskSnapshot(r).0)
  {
    if r.mail.snapshot.None? {
      PostSnapshotKeeps(r.mail, HeldAdmission(r.pc), r.inbox.lastAdmitted);
    }
  }

  lemma AskResetKeepsRequests(r: Runtime, kind: ResetKind)
    requires RequestInv(r) && (r.pc.NotStarted? <==> !r.gate.started)
    ensures RequestInv(AskReset(r, kind).0)
  {
    if r.mail.reset.None? {
      PostResetKeeps(r.mail, HeldAdmission(r.pc), r.inbox.lastAdmitted, kind);
    }
  }

  lemma AskAdmissionKeepsRequests(r: Runtime, request: nat, depth: Option<int>)
    requires RequestInv(r) && (r.pc.NotStarted? <==> !r.gate.started)
    ensures RequestInv(AskAdmission(r, request, depth).0)
  {
    PostAdmissionKeeps(r.mail, HeldAdmission(r.pc), r.inbox.lastAdmitted, request, depth);
  }

  lemma TakingKeepsRequests(r: Runtime)
    requires RequestInv(r)
    ensures RequestInv(TakeSnapshot(r)) && RequestInv(TakeReset(r))
  {
    if r.mail.snapshot.Some? && !SnapshotWaiting(r) {
      TakeSnapshotKeeps(r.mail, HeldAdmission(r.pc), r.inbox.lastAdmitted);
    }
    if r.mail.reset.Some? && !ResetWaiting(r) {
      TakeResetKeeps(r.mail, HeldAdmission(r.pc), r.inbox.lastAdmitted);
    }
  }

  lemma JoiningKeepsRequests(L: Library, r: Runtime)
    requires RequestInv(r)
    ensures RequestInv(Joined(r))
  {
    if r.pc == Exited {
      ExitFindsNothing(L, r);
    }
  }

  lemma SubmitKeepsRequests(r: Runtime, input: Input)
    requires RequestInv(r) && (r.pc.NotStarted? <==> !r.gate.started)
    ensures RequestInv(Submit(r, input).0)
  {
  }

  lemma ControlsKeepRequests(r: Runtime)
    requires RequestInv(r) && (r.pc.NotStarted? <==> !r.gate.started)
    ensures RequestInv(Start(r)) && RequestInv(CloseAdmission(r)) && RequestInv(RequestShutdown(r))
    ensures RequestInv(NotifyClosed(r)) && RequestInv(RequestStop(r))
  {
  }

  lemma CallerKeepsRequests(L: Library, r: Runtime, e: Event)
    requires Sound(L, r) && RequestInv(r) && H.Usable(r.hub) && !e.EvOwner?
    ensures RequestInv(Step(L, r, e))
  {
    match e {
      case EvAskSnapshot => AskSnapshotKeepsRequests(r);
      case EvAskReset(kind) => AskResetKeepsRequests(r, kind);
      case EvAskAdmission(request, depth) => AskAdmissionKeepsRequests(r, request, depth);
      case EvTakeSnapshot => TakingKeepsRequests(r);
      case EvTakeReset => TakingKeepsRequests(r);
      case EvJoined => JoiningKeepsRequests(L, r);
      case EvStart => ControlsKeepRequests(r);
      case EvSubmit(input) => SubmitKeepsRequests(r, input);
      case EvCloseAdmission => ControlsKeepRequests(r);
      case EvRequestShutdown => ControlsKeepRequests(r);
      case EvNotifyClosed => ControlsKeepRequests(r);
      case EvRequestStop => ControlsKeepRequests(r);
      case EvWriter(_, _, _) =>
    }
  }

  // ---------------------------------------------------------------- answers are final

  lemma AnswersKeptTransitive(m: Mail, n: Mail, o: Mail)
    requires AnswersKept(m, n) && AnswersKept(n, o)
    ensures AnswersKept(m, o)
  {
    forall id | 0 <= id < |m.slots|
      ensures o.slots[id].kind == m.slots[id].kind
      ensures m.slots[id].answer.Some? ==> o.slots[id].answer == m.slots[id].answer
    {
      assert n.slots[id].kind == m.slots[id].kind;
    }
  }

  lemma OwnerKeepsAnswers(L: Library, r: Runtime, env: Env)
    requires RequestInv(r) && H.Usable(r.hub)
    ensures AnswersKept(r.mail, OwnerStep(L, r, env).mail)
  {
    match r.pc {
      case Exiting => ExitFindsNothing(L, r);
      case ShuttingDown => CompleteAllKeeps(r.mail, r.inbox.lastAdmitted, ShuttingDownNow);
      case Processing(_) => ProcessAtMostFails(L, r, env);
      case Replaying(_) => ReplayAtMostFails(L, r, env);
      case Committing(a) => var answer := CommitAnswers(r, a, env);
      case _ =>
    }
  }

  lemma CallerKeepsAnswers(L: Library, r: Runtime, e: Event)
    requires RequestInv(r) && H.Usable(r.hub) && !e.EvOwner?
    ensures AnswersKept(r.mail, Step(L, r, e).mail)
  {
    if e.EvJoined? && r.pc == Exited {
      ExitFindsNothing(L, r);
    }
  }

  lemma StepKeepsAnswers(L: Library, r: Runtime, e: Event)
    requires RequestInv(r) && H.Usable(r.hub)
    ensures AnswersKept(r.mail, Step(L, r, e).mail)
  {
    if e.EvOwner? {
      OwnerKeepsAnswers(L, r, e.env);
    } else {
      CallerKeepsAnswers(L, r, e);
    }
  }

  // ---------------------------------------------------------------- progress

  function Flag(b: bool): nat {
    if b then 1 else 0
  }

  /** Requests and controls the owner has not selected or answered yet. */
  function Outstanding(r: Runtime): nat {
    Flag(ShutdownWaiting(r)) + Flag(r.gate.pendingFault.Some?) + Flag(ResetWaiting(r)) + |r.mail.admissions|
    + Flag(SnapshotWaiting(r)) + Flag(r.gate.removalPending)
  }

  function Weight(pc: Pc): nat {
    match pc
    case NotStarted => 0
    case Booting => 6
    case Idle => 5
    case ShuttingDown => 4
    case Faulting(_) => 6
    case Resetting => 4
    case Recommitting(_) => 3
    case Reporting => 2
    case Admitting(_) => 7
    case Committing(_) => 6
    case Snapshotting => 4
    case Sweeping => 6
    case Processing(_) => 16
    case Publishing(_, replaying) => if replaying then 10 else 7
    case Replaying(_) => 9
    case Finishing(_) => 6
    case Exiting => 1
    case Exited => 0
  }

  /** What the owner still has to do, were nothing else to arrive. */
  function Measure(r: Runtime): nat {
    8 * Outstanding(r) + 20 * |r.inbox.queue| + 4 * |r.core.bootstrap| + Weight(r.pc)
  }

  /** The owner thread can take a step. */
  predicate Runnable(r: Runtime) {
    !r.pc.NotStarted? && !r.pc.Exited? && (r.pc == Idle ==> HasWork(r))
  }

  // Failing the snapshot request and discarding inputs only lowers the measure.
  ghost predicate Lightens(r: Runtime, s: Runtime) {
    Outstanding(s) <= Outstanding(r) && |s.inbox.queue| <= |r.inbox.queue| && |s.core.bootstrap| <= |r.core.bootstrap|
  }

  lemma AtMostFailsLightens(r: Runtime, s: Runtime)
    requires MailOk(r.mail, None, r.inbox.lastAdmitted) && AtMostFails(r, s)
    ensures Outstanding(s) <= Outstanding(r)
  {
    FaultMailKeeps(r.mail, r.inbox.lastAdmitted);
  }

  lemma AppliedShrinks(L: Library, r: Runtime, d: Depth, time: Option<nat>)
    requires H.Usable(r.hub)
    ensures var s := ToApplied(L, r, d, time).0;
            |s.inbox.queue| <= |r.inbox.queue| && |s.core.bootstrap| <= |r.core.bootstrap|
  {
  }

  lemma AppliedLightens(L: Library, r: Runtime, d: Depth, time: Option<nat>)
    requires MailOk(r.mail, None, r.inbox.lastAdmitted) && H.Usable(r.hub)
    ensures Lightens(r, ToApplied(L, r, d, time).0)
  {
    AppliedShrinks(L, r, d, time);
    AppliedAtMostFails(L, r, d, time);
    AtMostFailsLightens(r, ToApplied(L, r, d, time).0);
  }

  lemma SelectProgress(L: Library, r: Runtime)
    requires Sound(L, r) && RequestInv(r) && r.pc == Idle && HasWork(r)
    ensures Measure(Select(r)) < Measure(r)
  {
  }

  lemma ProcessProgress(L: Library, r: Runtime, env: Env)
    requires MailOk(r.mail, None, r.inbox.lastAdmitted) && H.Usable(r.hub) && r.pc.Processing?
    ensures Measure(ProcessItem(L, r, r.pc.item, env)) < Measure(r)
  {
    ProcessAtMostFails(L, r, env);
    AtMostFailsLightens(r, ProcessItem(L, r, r.pc.item, env));
    if r.pc.item.input.DepthInput? {
      AppliedLightens(L, r, r.pc.item.input.depth, env.time);
    }
  }

  // Only the program counter differs, so the measures differ by its weight.
  lemma PcOnly(r: Runtime, s: Runtime)
    requires s.(pc := r.pc) == r
    ensures Measure(s) - Weight(s.pc) == Measure(r) - Weight(r.pc)
  {
  }

  lemma LightensMeasure(r: Runtime, s: Runtime)
    requires Lightens(r, s)
    ensures Measure(s) - Weight(s.pc) <= Measure(r) - Weight(r.pc)
  {
  }

  lemma ReplayProgress(L: Library, r: Runtime, env: Env)
    requires MailOk(r.mail, None, r.inbox.lastAdmitted) && H.Usable(r.hub) && r.pc.Replaying?
    ensures Measure(ReplayOne(L, r, r.pc.ticket, env)) < Measure(r)
  {
    var c := r.core;
    if !(L.status(c.book) == ResyncRequired || c.state == Faulted || c.bootstrap == []) {
      var popped := r.(core := c.(bootstrap := c.bootstrap[1..]));
      AppliedWeighs(L, popped, c.bootstrap[0], env.time);
      assert Measure(popped) == Measure(r) - 4;
      PcOnly(ToApplied(L, popped, c.bootstrap[0], env.time).0, ReplayOne(L, r, r.pc.ticket, env));
    }
  }

  lemma AppliedWeighs(L: Library, r: Runtime, d: Depth, time: Option<nat>)
    requires MailOk(r.mail, None, r.inbox.lastAdmitted) && H.Usable(r.hub)
    ensures var next := ToApplied(L, r, d, time).0;
            Measure(next) - Weight(next.pc) <= Measure(r) - Weight(r.pc)
  {
    AppliedLightens(L, r, d, time);
    LightensMeasure(r, ToApplied(L, r, d, time).0);
  }

  lemma AdmissionProgress(L: Library, r: Runtime, env: Env)
    requires Sound(L, r) && RequestInv(r) && H.Usable(r.hub) && HeldAdmission(r.pc).Some?
    ensures Measure(OwnerStep(L, r, env)) < Measure(r)
  {
    var a := HeldAdmission(r.pc).value;
    CompleteAdmissionKeeps(r.mail, a, r.inbox.lastAdmitted, Refused(ShuttingDownNow));
    CompleteAdmissionKeeps(r.mail, a, r.inbox.lastAdmitted, Refused(NotLive));
    if r.pc.Committing? {
      var answer := CommitAnswers(r, a, env);
      CompleteAdmissionKeeps(r.mail, a, r.inbox.lastAdmitted, answer);
    }
  }

  lemma CaptureProgress(L: Library, r: Runtime, env: Env)
    requires RequestInv(r) && H.Usable(r.hub) && r.pc.Snapshotting?
    ensures Measure(OwnerStep(L, r, env)) < Measure(r)
  {
    AnswerToKeeps(r.mail, None, r.inbox.lastAdmitted, r.mail.snapshot.value.id, Capture(r, env));
  }

  lemma ResetProgress(L: Library, r: Runtime, env: Env)
    requires RequestInv(r) && H.Usable(r.hub) && (r.pc.Resetting? || r.pc.Recommitting? || r.pc.Reporting?)
    ensures Measure(OwnerStep(L, r, env)) < Measure(r)
  {
    var id := r.mail.reset.value.id;
    if r.pc.Resetting? {
      AnswerToKeeps(r.mail, None, r.inbox.lastAdmitted, id, NotReset(InvalidState));
    } else if r.pc.Reporting? {
      AnswerToKeeps(r.mail, None, r.inbox.lastAdmitted, id, WasReset);
    }
  }

  lemma ControlProgress(L: Library, r: Runtime, env: Env)
    requires RequestInv(r) && H.Usable(r.hub) && (r.pc.ShuttingDown? || r.pc.Faulting?)
    ensures Measure(OwnerStep(L, r, env)) < Measure(r)
  {
    if r.pc.ShuttingDown? {
      CompleteAllKeeps(r.mail, r.inbox.lastAdmitted, ShuttingDownNow);
    } else {
      AtMostFailsLightens(r, ToFault(L, r, r.pc.reason, env.time));
    }
  }

  // Steps that touch neither the mailboxes nor the pending controls.
  lemma LightProgress(L: Library, r: Runtime, env: Env)
    requires RequestInv(r) && H.Usable(r.hub)
    requires r.pc.Booting? || r.pc.Sweeping? || r.pc.Publishing? || r.pc.Finishing? || r.pc.Exiting?
    ensures Measure(OwnerStep(L, r, env)) < Measure(r)
  {
    if r.pc.Exiting? {
      ExitFindsNothing(L, r);
    }
  }

  /** Every step of the owner thread lowers the measure: without new input it runs out of work. */
  lemma OwnerProgress(L: Library, r: Runtime, env: Env)
    requires Sound(L, r) && RequestInv(r) && H.Usable(r.hub) && Runnable(r)
    ensures Measure(OwnerStep(L, r, env)) < Measure(r)
  {
    match r.pc {
      case Idle => SelectProgress(L, r);
      case ShuttingDown => ControlProgress(L, r, env);
      case Faulting(_) => ControlProgress(L, r, env);
      case Resetting => ResetProgress(L, r, env);
      case Recommitting(_) => ResetProgress(L, r, env);
      case Reporting => ResetProgress(L, r, env);
      case Admitting(_) => AdmissionProgress(L, r, env);
      case Committing(_) => AdmissionProgress(L, r, env);
      case Snapshotting => CaptureProgress(L, r, env);
      case Processing(_) => ProcessProgress(L, r, env);
      case Replaying(_) => ReplayProgress(L, r, env);
      case Booting => LightProgress(L, r, env);
      case Sweeping => LightProgress(L, r, env);
      case Publishing(_, _) => LightProgress(L, r, env);
      case Finishing(_) => LightProgress(L, r, env);
      case Exiting => LightProgress(L, r, env);
    }
  }

  /** The owner blocks only when nothing is outstanding, and a blocked owner takes no step. */
  lemma BlockedExactly(L: Library, r: Runtime)
    requires Sound(L, r) && RequestInv(r) && r.pc == Idle
    ensures !HasWork(r) ==> Settled(r) && Outstanding(r) == 0 && Select(r) == r
    ensures HasWork(r) <==> !Settled(r) || r.gate.removalPending || r.gate.stopRequested
  {
    if !HasWork(r) {
      BlockedMeansSettled(L, r);
    }
  }
}
