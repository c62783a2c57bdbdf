/** The runtime's reset count is the number of resets it answered for. */
module RuntimeResets {
  import opened Prelude
  import opened MarketTypes
  import opened ProjectionLibrary
  import opened RuntimeCore
  import opened MarketRuntime
  import opened RuntimeTickets
  import opened RuntimeRequests
  import opened RuntimeRuns
  import H = PublicationHub

  function ResetAnswers(slots: seq<Slot>): nat {
    if slots == [] then 0
    else ResetAnswers(slots[..|slots| - 1]) + if slots[|slots| - 1].answer == Some(WasReset) then 1 else 0
  }

  lemma {:induction false} AnsweringCounts(slots: seq<Slot>, id: nat, answer: Answer)
    requires id < |slots| && slots[id].answer.None?
    ensures ResetAnswers(slots[id := slots[id].(answer := Some(answer))])
         == ResetAnswers(slots) + if answer == WasReset then 1 else 0
    decreases |slots|
  {
    var after := slots[id := slots[id].(answer := Some(answer))];
    var n := |slots| - 1;
    if id == n {
      assert after[..n] == slots[..n];
    } else {
      assert after[..n] == slots[..n][id := slots[id].(answer := Some(answer))];
      AnsweringCounts(slots[..n], id, answer);
    }
  }

  lemma AnswerToCounts(m: Mail, id: nat, answer: Answer)
    ensures ResetAnswers(AnswerTo(m, id, answer).slots)
         == ResetAnswers(m.slots) + if Unanswered(m, id) && answer == WasReset then 1 else 0
  {
    if Unanswered(m, id) {
      AnsweringCounts(m.slots, id, answer);
    }
  }

  lemma {:induction false} AnswerEachCounts(m: Mail, admissions: seq<Admission>, error: AdmissionError)
    ensures ResetAnswers(AnswerEach(m, admissions, error).slots) == ResetAnswers(m.slots)
    decreases |admissions|
  {
    if admissions != [] {
      AnswerToCounts(m, admissions[0].id, Refused(error));
      AnswerEachCounts(AnswerTo(m, admissions[0].id, Refused(error)), admissions[1..], error);
    }
  }

  lemma PostingCounts(m: Mail, kind: Kind)
    ensures ResetAnswers(Post(m, kind).slots) == ResetAnswers(m.slots)
  {
    assert Post(m, kind).slots[..|m.slots|] == m.slots;
  }

  /** Every reset that was committed is answered for, or is just being reported. */
  ghost predicate ResetsCounted(r: Runtime) {
    r.core.resetCount == ResetAnswers(r.mail.slots) + Flag(r.pc == Reporting)
  }

  // A step that commits no reset and reports none.
  ghost predicate Uncounted(r: Runtime, s: Runtime) {
    && s.core.resetCount == r.core.resetCount
    && ResetAnswers(s.mail.slots) == ResetAnswers(r.mail.slots)
    && (s.pc == Reporting <==> r.pc == Reporting)
  }

  lemma AtMostFailsUncounted(r: Runtime, s: Runtime)
    requires AtMostFails(r, s)
    ensures ResetAnswers(s.mail.slots) == ResetAnswers(r.mail.slots)
  {
    if r.mail.snapshot.Some? {
      AnswerToCounts(r.mail, r.mail.snapshot.value.id, NotCaptured(SnapshotFaulted));
    }
  }

  lemma ItemUncounted(L: Library, r: Runtime, env: Env)
    requires H.Usable(r.hub) && (r.pc.Processing? || r.pc.Replaying?)
    ensures Uncounted(r, OwnerStep(L, r, env))
  {
    if r.pc.Processing? {
      ProcessAtMostFails(L, r, env);
    } else {
      ReplayAtMostFails(L, r, env);
    }
    AtMostFailsUncounted(r, OwnerStep(L, r, env));
  }

  lemma ResetStepCounts(L: Library, r: Runtime, env: Env)
    requires RequestInv(r) && H.Usable(r.hub) && ResetsCounted(r)
    requires r.pc.Resetting? || r.pc.Recommitting? || r.pc.Reporting?
    ensures ResetsCounted(OwnerStep(L, r, env))
  {
    if r.pc.Resetting? {
      AnswerToCounts(r.mail, r.mail.reset.value.id, NotReset(InvalidState));
    } else if r.pc.Reporting? {
      AnswerToCounts(r.mail, r.mail.reset.value.id, WasReset);
    }
  }

  lemma OtherStepCounts(L: Library, r: Runtime, env: Env)
    requires RequestInv(r) && H.Usable(r.hub) && ResetsCounted(r) && (r.pc.Snapshotting? || r.pc.ShuttingDown?)
    ensures ResetsCounted(OwnerStep(L, r, env))
  {
    if r.pc.Snapshotting? {
      AnswerToCounts(r.mail, r.mail.snapshot.value.id, Capture(r, env));
    } else {
      AnswerEachCounts(r.mail, r.mail.admissions, ShuttingDownNow);
    }
  }

  lemma AdmissionUncounted(L: Library, r: Runtime, env: Env)
    requires H.Usable(r.hub) && HeldAdmission(r.pc).Some?
    ensures Uncounted(r, OwnerStep(L, r, env))
  {
    var id := HeldAdmission(r.pc).value.id;
    if r.pc.Committing? {
      CommitUncounted(r, r.pc.admission, env);
    } else {
      AnswerToCounts(r.mail, id, Refused(ShuttingDownNow));
      AnswerToCounts(r.mail, id, Refused(NotLive));
    }
  }

  lemma CommitUncounted(r: Runtime, a: Admission, env: Env)
    ensures ResetAnswers(CommitAdmission(r, a, env).mail.slots) == ResetAnswers(r.mail.slots)
  {
    forall answer: Answer | answer != WasReset
      ensures ResetAnswers(CompleteAdmission(r.mail, a.id, answer).slots) == ResetAnswers(r.mail.slots)
    {
      AnswerToCounts(r.mail, a.id, answer);
    }
  }

  lemma FaultUncounted(L: Library, r: Runtime, env: Env)
    requires H.Usable(r.hub) && r.pc.Faulting?
    ensures Uncounted(r, OwnerStep(L, r, env))
  {
    FaultAtMostFails(L, r, r.pc.reason, env.time);
    AtMostFailsUncounted(r, ToFault(L, r, r.pc.reason, env.time));
  }

  lemma OwnerCounts(L: Library, r: Runtime, env: Env)
    requires RequestInv(r) && H.Usable(r.hub) && ResetsCounted(r)
    ensures ResetsCounted(OwnerStep(L, r, env))
  {
    if r.pc.Processing? || r.pc.Replaying? {
      ItemUncounted(L, r, env);
    } else if r.pc.Admitting? || r.pc.Committing? {
      AdmissionUncounted(L, r, env);
    } else if r.pc.Faulting? {
      FaultUncounted(L, r, env);
    } else if r.pc.Exiting? {
      ExitFindsNothing(L, r);
    } else if r.pc.Resetting? || r.pc.Recommitting? || r.pc.Reporting? {
      ResetStepCounts(L, r, env);
    } else if r.pc.Snapshotting? || r.pc.ShuttingDown? {
      OtherStepCounts(L, r, env);
    }
  }

  lemma CallerCounts(L: Library, r: Runtime, e: Event)
    requires Inv(L, r) && H.Usable(r.hub) && ResetsCounted(r) && !e.EvOwner?
    ensures ResetsCounted(Step(L, r, e))
  {
    match e {
      case EvAskSnapshot => PostingCounts(r.mail, SnapshotKind);
      case EvAskReset(_) => PostingCounts(r.mail, ResetRequestKind);
      case EvAskAdmission(_, _) => PostingCounts(r.mail, AdmissionKind);
      case EvJoined =>
        if r.pc == Exited {
          ExitFindsNothing(L, r);
        }
      case _ =>
    }
  }

  /**
    In every run the reset count is the number of reset requests that were
    answered with success, plus the one whose answer is just being written.
   */
  lemma {:induction false} ResetsAreCounted(L: Library, r: Runtime, events: seq<Event>)
    requires LibraryOk(L) && Inv(L, r) && ResetsCounted(r)
    ensures ResetsCounted(Run(L, r, events))
    decreases |events|
  {
    if events != [] {
      StepKeeps(L, r, events[0]);
      if events[0].EvOwner? {
        OwnerCounts(L, r, events[0].env);
      } else {
        CallerCounts(L, r, events[0]);
      }
      ResetsAreCounted(L, Step(L, r, events[0]), events[1..]);
    }
  }
}
