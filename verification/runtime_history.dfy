/**
  The core at every idle point of every run is what delivering the inputs
  finished since the last reset makes of a new core, one after the other,
  whatever was interleaved with them.
 */
module RuntimeHistory {
  import opened Prelude
  import opened MarketTypes
  import opened ProjectionLibrary
  import opened RuntimeCore
  import opened CoreHistory
  import opened MarketRuntime
  import opened RuntimeTickets
  import opened RuntimeRuns
  import H = PublicationHub

  /** What an observer of the run writes down; only `submitted` outlives a reset. */
  datatype Journal = Journal(
    happenings: seq<Happening>,
    tickets: seq<nat>,                    // of the inputs worked off, in order
    inFlight: Option<Input>,
    troubles: seq<Option<FaultReason>>,   // of the applied updates, in order
    since: nat,                           // the processed ticket at the last reset
    submitted: seq<Input>)                // every admitted input, by ticket

  const BLANK := Journal([], [], None, [], 0, [])

  /** What the hand-out ran into, as the owner left it. */
  function TroubleSeen(s: Runtime): Option<FaultReason> {
    if s.core.state == Faulted then s.core.fault else None
  }

  function NoteOwner(j: Journal, r: Runtime, s: Runtime): Journal {
    match r.pc
    case Booting => Journal([], [], None, [], 0, j.submitted)
    case Recommitting(_) => Journal([], [], None, [], r.inbox.processed, j.submitted)
    case Faulting(reason) => j.(happenings := j.happenings + [Raised(reason)])
    case Idle => if s.pc.Processing? then j.(inFlight := Some(s.pc.item.input)) else j
    case Processing(_) => if s.core.applied == r.core.applied then j else j.(troubles := j.troubles + [TroubleSeen(s)])
    case Replaying(_) => if s.core.applied == r.core.applied then j else j.(troubles := j.troubles + [TroubleSeen(s)])
    case Finishing(ticket) =>
      if j.inFlight.None? then j
      else
        j.(happenings := j.happenings + [Worked(j.inFlight.value)], tickets := j.tickets + [ticket], inFlight := None)
    case _ => j
  }

  /** The journal after one more step. A stop request that finds a halted runtime is no happening. */
  function Note(L: Library, j: Journal, r: Runtime, e: Event): Journal
    requires H.Usable(r.hub)
  {
    match e
    case EvOwner(env) => NoteOwner(j, r, OwnerStep(L, r, env))
    case EvSubmit(input) => if Submit(r, input).1 == Accepted then j.(submitted := j.submitted + [input]) else j
    case EvRequestStop =>
      if r.gate.stopped || !r.gate.started || r.core.state == Faulted || r.core.state == NeedsResync then j
      else j.(happenings := j.happenings + [StopAsked])
    case _ => j
  }

  /** `t` is the recorded troubles, continued somehow. */
  ghost predicate Extends(t: Troubles, troubles: seq<Option<FaultReason>>) {
    forall k: nat | k < |troubles| :: t(k) == troubles[k]
  }

  /** The core of a new runtime, with the count of resets. */
  function Base(L: Library, r: Runtime): Core {
    FreshCore(L).(resetCount := r.core.resetCount)
  }

  ghost function Delivered(L: Library, j: Journal, r: Runtime, t: Troubles): Core {
    HappenAll(L, r.limits.bootstrap, Base(L, r), j.happenings, t)
  }

  /** What the owner will have made of the item in its hands, were nothing to intervene. */
  function Completion(L: Library, capacity: nat, pc: Pc, c: Core, t: Troubles): Core {
    match pc
    case Processing(item) => Process(L, capacity, c, item.input, t)
    case Publishing(_, replaying) => if replaying then GoOn(L, PublishState(L, c), t) else PublishState(L, c)
    case Replaying(_) => GoOn(L, c, t)
    case _ => c
  }

  ghost predicate Explained(L: Library, j: Journal, r: Runtime, t: Troubles) {
    var d := Delivered(L, j, r, t);
    match j.inFlight
    case None => Alike(false, r.core, d)
    case Some(input) =>
      && !Halted(d) && d.state != NeedsResync
      && Alike(false, Completion(L, r.limits.bootstrap, r.pc, r.core, t), Process(L, r.limits.bootstrap, d, input, t))
  }

  ghost predicate JournalOk(L: Library, j: Journal, r: Runtime) {
    && |j.troubles| == r.core.applied
    && (j.inFlight.Some? <==> InFlightTicket(r.pc).Some?)
    && match r.pc
       case NotStarted => r.core.(state := Buffering, accepting := true) == FreshCore(L)
       case Booting => r.core.(state := Buffering, accepting := true) == FreshCore(L)
       case Exited => true
       case _ => forall t: Troubles | Extends(t, j.troubles) :: Explained(L, j, r, t)
  }

  // ---------------------------------------------------------------- the item in flight

  /** The trouble that the hand-out of `d` would run into now. */
  ghost function TroubleNow(L: Library, r: Runtime, d: Depth, time: Option<nat>): Option<FaultReason>
    requires H.Usable(r.hub)
  {
    H.PublishOrTerminate(r.hub, d, L.apply(r.core.book, d.update).0, time, r.gate.shutdownCompleted, r.core.generation).1
  }

  lemma AppliedAsBook(L: Library, r: Runtime, d: Depth, time: Option<nat>)
    requires H.Usable(r.hub)
    ensures var (s, outcome) := ToApplied(L, r, d, time);
            (s.core, outcome) == ApplyBook(L, r.core, d, TroubleNow(L, r, d, time)) && s.limits == r.limits
  {
  }

  lemma BookCounts(L: Library, c: Core, d: Depth, trouble: Option<FaultReason>)
    ensures var s := ApplyBook(L, c, d, trouble).0;
            && c.applied <= s.applied <= c.applied + 1
            && (c.state != Faulted && s.applied != c.applied ==>
                  trouble == if s.state == Faulted then s.fault else None)
  {
  }

  lemma AppliedCore(L: Library, r: Runtime, d: Depth, time: Option<nat>)
    requires H.Usable(r.hub)
    ensures var (s, outcome) := ToApplied(L, r, d, time);
            && (s.core, outcome) == ApplyBook(L, r.core, d, TroubleNow(L, r, d, time))
            && s.limits == r.limits
            && r.core.applied <= s.core.applied <= r.core.applied + 1
            && (r.core.state != Faulted && s.core.applied != r.core.applied ==>
                  TroubleSeen(s) == TroubleNow(L, r, d, time))
  {
    AppliedAsBook(L, r, d, time);
    BookCounts(L, r.core, d, TroubleNow(L, r, d, time));
  }

  /** A trouble that was not met makes no difference. */
  lemma UnmetTrouble(L: Library, c: Core, d: Depth, x: Option<FaultReason>, y: Option<FaultReason>)
    requires ApplyBook(L, c, d, x).0.applied == c.applied || x == y
    ensures ApplyBook(L, c, d, x) == ApplyBook(L, c, d, y)
  {
  }

  // The recorded trouble is the one that any continuation of the journal names.
  lemma AppliedExplained(L: Library, j: Journal, r: Runtime, d: Depth, time: Option<nat>, t: Troubles)
    requires H.Usable(r.hub) && r.core.state != Faulted && |j.troubles| == r.core.applied
    requires var s := ToApplied(L, r, d, time).0;
             Extends(t, if s.core.applied == r.core.applied then j.troubles else j.troubles + [TroubleSeen(s)])
    ensures var (s, outcome) := ToApplied(L, r, d, time);
            (s.core, outcome) == ApplyBook(L, r.core, d, t(r.core.applied))
  {
    AppliedCore(L, r, d, time);
    var s := ToApplied(L, r, d, time).0;
    if s.core.applied != r.core.applied {
      assert (j.troubles + [TroubleSeen(s)])[|j.troubles|] == TroubleSeen(s);
    }
    UnmetTrouble(L, r.core, d, TroubleNow(L, r, d, time), t(r.core.applied));
  }

  /** Working on the item does not change what its completion will be. */
  lemma ProcessingCompletes(L: Library, j: Journal, r: Runtime, env: Env, t: Troubles)
    requires LibraryOk(L) && CoreInv(L, r) && H.Usable(r.hub) && r.pc.Processing? && |j.troubles| == r.core.applied
    requires Extends(t, NoteOwner(j, r, OwnerStep(L, r, env)).troubles)
    ensures var s := OwnerStep(L, r, env);
            Completion(L, r.limits.bootstrap, s.pc, s.core, t) == Completion(L, r.limits.bootstrap, r.pc, r.core, t)
  {
    match r.pc.item.input {
      case FailureInput(_) =>
      case DepthInput(d) =>
        if L.status(r.core.book) != AwaitingBaseline {
          AppliedExplained(L, j, r, d, env.time, t);
        }
      case SnapshotInput(snapshot, generation) => InstallCompletes(L, r, snapshot, generation, env, t);
    }
  }

  lemma InstallCompletes(L: Library, r: Runtime, snapshot: nat, generation: Option<nat>, env: Env, t: Troubles)
    requires LibraryOk(L) && CoreInv(L, r) && r.pc.Processing?
    ensures var s := ProcessSnapshot(L, r, r.pc.item.ticket, snapshot, generation, env);
            (Completion(L, r.limits.bootstrap, s.pc, s.core, t)
             == Process(L, r.limits.bootstrap, r.core, SnapshotInput(snapshot, generation), t))
  {
  }

  lemma ReplayingCompletes(L: Library, j: Journal, r: Runtime, env: Env, t: Troubles)
    requires LibraryOk(L) && H.Usable(r.hub) && r.pc.Replaying? && |j.troubles| == r.core.applied
    requires Extends(t, NoteOwner(j, r, OwnerStep(L, r, env)).troubles)
    ensures var s := OwnerStep(L, r, env);
            Completion(L, r.limits.bootstrap, s.pc, s.core, t) == Completion(L, r.limits.bootstrap, r.pc, r.core, t)
  {
    var c := r.core;
    if !(L.status(c.book) == ResyncRequired || c.state == Faulted || c.bootstrap == []) {
      var popped := r.(core := c.(bootstrap := c.bootstrap[1..]));
      AppliedExplained(L, j, popped, c.bootstrap[0], env.time, t);
      ReplayTurn(L, c, t);
    }
  }

  // ---------------------------------------------------------------- one step

  // A step at which nothing is written down and the core changes at most its admission flag.
  lemma SameExplained(L: Library, j: Journal, r: Runtime, k: Journal, s: Runtime)
    requires JournalOk(L, j, r) && !r.pc.NotStarted? && !r.pc.Booting? && !r.pc.Exited?
    requires k.(submitted := j.submitted) == j && InFlightTicket(r.pc).None? && InFlightTicket(s.pc).None?
    requires s.limits == r.limits && s.core.(accepting := r.core.accepting) == r.core
    requires !s.pc.NotStarted? && !s.pc.Booting?
    ensures JournalOk(L, k, s)
  {
    forall t: Troubles | Extends(t, k.troubles) ensures Explained(L, k, s, t) {
      assert Explained(L, j, r, t);
    }
  }

  lemma TakeExplains(L: Library, j: Journal, r: Runtime, item: Ticketed, inbox: Inbox)
    requires JournalOk(L, j, r) && r.pc == Idle && !Halted(r.core) && r.core.state != NeedsResync
    ensures JournalOk(L, j.(inFlight := Some(item.input)), r.(inbox := inbox, pc := Processing(item)))
  {
    var s := r.(inbox := inbox, pc := Processing(item));
    var k := j.(inFlight := Some(item.input));
    forall t: Troubles | Extends(t, k.troubles) ensures Explained(L, k, s, t) {
      assert Explained(L, j, r, t);
      AlikeProcess(L, r.limits.bootstrap, false, r.core, Delivered(L, j, r, t), item.input, t);
    }
  }

  lemma SelectExplains(L: Library, j: Journal, r: Runtime)
    requires CoreInv(L, r) && JournalOk(L, j, r) && r.pc == Idle
    ensures JournalOk(L, NoteOwner(j, r, Select(r)), Select(r))
  {
    var s := Select(r);
    if s.pc.Processing? {
      TakeExplains(L, j, r, s.pc.item, s.inbox);
    } else {
      SameExplained(L, j, r, j, s);
    }
  }

  lemma ItemExplains(L: Library, j: Journal, r: Runtime, env: Env)
    requires LibraryOk(L) && Inv(L, r) && H.Usable(r.hub) && JournalOk(L, j, r)
    requires r.pc.Processing? || r.pc.Replaying? || r.pc.Publishing?
    ensures JournalOk(L, Note(L, j, r, EvOwner(env)), OwnerStep(L, r, env))
  {
    var s := OwnerStep(L, r, env);
    var k := NoteOwner(j, r, s);
    ItemStepCounts(L, r, env);
    forall t: Troubles | Extends(t, k.troubles) ensures Explained(L, k, s, t) {
      assert Extends(t, j.troubles) by {
        assert j.troubles <= k.troubles;
      }
      assert Explained(L, j, r, t);
      match r.pc {
        case Processing(_) => ProcessingCompletes(L, j, r, env, t);
        case Replaying(_) => ReplayingCompletes(L, j, r, env, t);
        case Publishing(_, _) =>
      }
    }
  }

  // Working on an item applies at most one update, and touches neither the limits nor the reset count.
  ghost predicate OneItemStep(r: Runtime, s: Runtime) {
    && s.limits == r.limits && s.core.resetCount == r.core.resetCount
    && r.core.applied <= s.core.applied <= r.core.applied + 1
    && InFlightTicket(s.pc) == InFlightTicket(r.pc)
  }

  lemma ProcessingCounts(L: Library, r: Runtime, env: Env)
    requires H.Usable(r.hub) && r.pc.Processing?
    ensures OneItemStep(r, ProcessItem(L, r, r.pc.item, env))
  {
    if r.pc.item.input.DepthInput? {
      AppliedCore(L, r, r.pc.item.input.depth, env.time);
    }
  }

  lemma ReplayingCounts(L: Library, r: Runtime, env: Env)
    requires H.Usable(r.hub) && r.pc.Replaying?
    ensures OneItemStep(r, ReplayOne(L, r, r.pc.ticket, env))
  {
    if r.core.bootstrap != [] {
      AppliedCore(L, r.(core := r.core.(bootstrap := r.core.bootstrap[1..])), r.core.bootstrap[0], env.time);
    }
  }

  lemma ItemStepCounts(L: Library, r: Runtime, env: Env)
    requires H.Usable(r.hub) && (r.pc.Processing? || r.pc.Replaying? || r.pc.Publishing?)
    ensures var s := OwnerStep(L, r, env);
            OneItemStep(r, s) && (r.pc.Publishing? ==> s.core.applied == r.core.applied)
  {
    if r.pc.Processing? {
      ProcessingCounts(L, r, env);
    } else if r.pc.Replaying? {
      ReplayingCounts(L, r, env);
    }
  }

  lemma FinishExplains(L: Library, j: Journal, r: Runtime, env: Env)
    requires H.Usable(r.hub) && JournalOk(L, j, r) && r.pc.Finishing?
    ensures JournalOk(L, Note(L, j, r, EvOwner(env)), OwnerStep(L, r, env))
  {
    var s := OwnerStep(L, r, env);
    var k := NoteOwner(j, r, s);
    forall t: Troubles | Extends(t, k.troubles) ensures Explained(L, k, s, t) {
      assert Explained(L, j, r, t);
      HappenOneMore(L, r.limits.bootstrap, Base(L, r), j.happenings, Worked(j.inFlight.value), t);
    }
  }

  lemma FaultExplains(L: Library, j: Journal, r: Runtime, env: Env)
    requires H.Usable(r.hub) && JournalOk(L, j, r) && r.pc.Faulting?
    ensures JournalOk(L, Note(L, j, r, EvOwner(env)), OwnerStep(L, r, env))
  {
    var s := OwnerStep(L, r, env);
    var k := NoteOwner(j, r, s);
    forall t: Troubles | Extends(t, k.troubles) ensures Explained(L, k, s, t) {
      assert Explained(L, j, r, t);
      HappenOneMore(L, r.limits.bootstrap, Base(L, r), j.happenings, Raised(r.pc.reason), t);
    }
  }

  // Booting and resetting start a new page.
  lemma NewPageExplains(L: Library, j: Journal, r: Runtime, env: Env)
    requires LibraryOk(L) && H.Usable(r.hub) && JournalOk(L, j, r) && (r.pc.Booting? || r.pc.Recommitting?)
    ensures JournalOk(L, Note(L, j, r, EvOwner(env)), OwnerStep(L, r, env))
  {
    ResetIsFresh(L, r.core);
  }

  lemma OwnerExplains(L: Library, j: Journal, r: Runtime, env: Env)
    requires LibraryOk(L) && Inv(L, r) && H.Usable(r.hub) && JournalOk(L, j, r)
    ensures JournalOk(L, Note(L, j, r, EvOwner(env)), OwnerStep(L, r, env))
  {
    if r.pc.Idle? {
      SelectExplains(L, j, r);
    } else if r.pc.Processing? || r.pc.Replaying? || r.pc.Publishing? {
      ItemExplains(L, j, r, env);
    } else if r.pc.Finishing? {
      FinishExplains(L, j, r, env);
    } else if r.pc.Faulting? {
      FaultExplains(L, j, r, env);
    } else if r.pc.Booting? || r.pc.Recommitting? {
      NewPageExplains(L, j, r, env);
    } else if !r.pc.NotStarted? && !r.pc.Exited? {
      RestExplains(L, j, r, env);
    }
  }

  lemma RestExplains(L: Library, j: Journal, r: Runtime, env: Env)
    requires H.Usable(r.hub) && JournalOk(L, j, r) && AtRest(r.pc)
    requires !r.pc.Idle? && !r.pc.Faulting? && !r.pc.Recommitting? && !r.pc.Exited?
    ensures JournalOk(L, Note(L, j, r, EvOwner(env)), OwnerStep(L, r, env))
  {
    var s := OwnerStep(L, r, env);
    if !r.pc.Exiting? {
      SameExplained(L, j, r, j, s);
    }
  }

  /** A stop request in the middle of an item counts as one just before it. */
  lemma StopExplains(L: Library, j: Journal, r: Runtime)
    requires H.Usable(r.hub) && JournalOk(L, j, r) && r.gate.started && !r.gate.stopped
    requires !r.pc.NotStarted? && !r.pc.Booting? && !r.pc.Exited?
    ensures JournalOk(L, Note(L, j, r, EvRequestStop), RequestStop(r))
  {
    var k := Note(L, j, r, EvRequestStop);
    forall t: Troubles | Extends(t, k.troubles) ensures Explained(L, k, RequestStop(r), t) {
      assert Explained(L, j, r, t);
      StopExplainsOne(L, j, r, t);
    }
  }

  lemma StopExplainsOne(L: Library, j: Journal, r: Runtime, t: Troubles)
    requires Explained(L, j, r, t) && H.Usable(r.hub) && r.gate.started && !r.gate.stopped
    ensures Explained(L, Note(L, j, r, EvRequestStop), RequestStop(r), t)
  {
    var s := RequestStop(r);
    var d := Delivered(L, j, r, t);
    var effective := r.core.state != Faulted && r.core.state != NeedsResync;
    assert s.core == AskStop(r.core);
    HappenOneMore(L, r.limits.bootstrap, Base(L, r), j.happenings, StopAsked, t);
    if j.inFlight.Some? {
      AlikeCompletion(L, r.limits.bootstrap, effective, r.pc, s.core, r.core, t);
      if effective {
        StopCommutes(L, r.limits.bootstrap, d, j.inFlight.value, t);
      }
    }
  }

  lemma AlikeCompletion(L: Library, capacity: nat, stopping: bool, pc: Pc, d: Core, c: Core, t: Troubles)
    requires Alike(stopping, d, c)
    ensures Alike(stopping, Completion(L, capacity, pc, d, t), Completion(L, capacity, pc, c, t))
  {
    match pc {
      case Processing(item) => AlikeProcess(L, capacity, stopping, d, c, item.input, t);
      case Publishing(_, _) =>
        AlikePublish(L, stopping, d, c);
        AlikeGoOn(L, stopping, PublishState(L, d), PublishState(L, c), t);
      case Replaying(_) => AlikeGoOn(L, stopping, d, c, t);
      case _ =>
    }
  }

  // The same place, and a core that differs in its admission flag.
  lemma AlikeExplains(L: Library, j: Journal, r: Runtime, k: Journal, s: Runtime)
    requires JournalOk(L, j, r) && k.(submitted := j.submitted) == j
    requires s.limits == r.limits && s.pc == r.pc && s.core.(accepting := r.core.accepting) == r.core
    ensures JournalOk(L, k, s)
  {
    if !r.pc.NotStarted? && !r.pc.Booting? && !r.pc.Exited? {
      forall t: Troubles | Extends(t, k.troubles) ensures Explained(L, k, s, t) {
        assert Explained(L, j, r, t);
        AlikeCompletion(L, r.limits.bootstrap, false, r.pc, s.core, r.core, t);
      }
    }
  }

  lemma SubmitExplains(L: Library, j: Journal, r: Runtime, input: Input)
    requires H.Usable(r.hub) && JournalOk(L, j, r)
    ensures JournalOk(L, Note(L, j, r, EvSubmit(input)), Submit(r, input).0)
  {
    AlikeExplains(L, j, r, Note(L, j, r, EvSubmit(input)), Submit(r, input).0);
  }

  lemma CallerExplains(L: Library, j: Journal, r: Runtime, e: Event)
    requires LibraryOk(L) && Inv(L, r) && H.Usable(r.hub) && JournalOk(L, j, r) && !e.EvOwner?
    ensures JournalOk(L, Note(L, j, r, e), Step(L, r, e))
  {
    if e.EvSubmit? {
      SubmitExplains(L, j, r, e.input);
    } else if e.EvRequestStop? {
      if r.gate.started && !r.gate.stopped && !r.pc.Booting? && !r.pc.Exited? {
        StopExplains(L, j, r);
      }
    } else if e.EvStart? || e.EvJoined? {
      EdgeExplains(L, j, r, e);
    } else {
      ElsewhereExplains(L, j, r, Step(L, r, e));
    }
  }

  lemma EdgeExplains(L: Library, j: Journal, r: Runtime, e: Event)
    requires Inv(L, r) && H.Usable(r.hub) && JournalOk(L, j, r) && (e.EvStart? || e.EvJoined?)
    ensures JournalOk(L, j, Step(L, r, e))
  {
    var s := Step(L, r, e);
    if s.pc == r.pc && !r.pc.Exited? && !r.pc.NotStarted? {
      assert s == r;
    }
  }

  lemma ElsewhereExplains(L: Library, j: Journal, r: Runtime, s: Runtime)
    requires JournalOk(L, j, r) && s.limits == r.limits && s.core == r.core && s.pc == r.pc
    ensures JournalOk(L, j, s)
  {
    forall t: Troubles | Explained(L, j, r, t) ensures Explained(L, j, s, t) {
    }
  }
}
