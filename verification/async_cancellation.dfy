/**
  The cancellation accounting of the two asynchronous network operations.

  Source: src/g4/spot_transport.cpp, AsyncHttpsGet (lines 320-632) and
  AsyncWebSocket (lines 642-968). The library delivers each started operation
  and each armed timer wait exactly one completion, in any order; completions
  and cancel() run one at a time on the network thread.
 */
module AsyncCancellation {
  import opened Prelude

  datatype Code = Success | Aborted | Genuine

  // Stages of a request; the last is the final read.
  datatype Stage = Unstarted | Resolving | Connecting | Handshaking | Writing | Reading

  datatype Report = StageError(stage: Stage) | TimedOut | TimerError | Response(result: nat) | TlsSetupError

  /**
    `timers` are the generations of the timer waits still to complete; `owed`
    records that something happened which must be reported; `retired` that the
    operation ended silently. These three are history or environment.
   */
  datatype Request = Request(
    stage: Stage,
    ioPending: bool,
    timerPending: bool,
    timerGeneration: nat,
    pieces: nat,                      // cancellation_completions_pending_
    cancelRequested: bool,
    done: bool,
    cancelledResult: Option<nat>,
    reports: seq<Report>,
    timers: set<nat>,
    owed: bool,
    retired: bool)

  function NewRequest(): Request {
    Request(Unstarted, false, false, 0, 0, false, false, None, [], {}, false, false)
  }

  function Arm(q: Request): Request {
    var g := q.timerGeneration + 1;
    q.(timerGeneration := g, timerPending := true, timers := q.timers + {g})
  }

  function Disarm(q: Request): Request {
    q.(timerGeneration := q.timerGeneration + 1, timerPending := false)
  }

  function Begin(q: Request, stage: Stage): Request {
    Arm(q).(stage := stage, ioPending := true)
  }

  function Finish(q: Request, report: Report): Request {
    if q.done then q
    else Disarm(q.(done := true, pieces := 0, reports := q.reports + [report]))
  }

  function Retire(q: Request): Request {
    if q.done then q else q.(done := true, retired := true)
  }

  function CompletePiece(q: Request): Request {
    var p := q.(pieces := if q.pieces > 0 then q.pieces - 1 else 0);
    if p.pieces != 0 || p.done then p
    else if p.cancelledResult.Some? then Finish(p.(cancelledResult := None), Response(p.cancelledResult.value))
    else Retire(p)
  }

  function Start(q: Request, tlsReady: bool): Request {
    if tlsReady then Begin(q, Resolving) else Finish(q.(owed := q.owed || !q.done), TlsSetupError)
  }

  function Cancel(q: Request): Request {
    if q.done || q.cancelRequested then q
    else
      var p := q.(cancelRequested := true,
                  pieces := (if q.ioPending then 1 else 0) + (if q.timerPending then 1 else 0));
      if p.pieces == 0 then Retire(p) else p
  }

  function NextStage(stage: Stage): Stage {
    match stage
    case Resolving => Connecting
    case Connecting => Handshaking
    case Handshaking => Writing
    case _ => Reading
  }

  /** The completion of the stage's operation. */
  function IoDone(q: Request, code: Code, result: nat): Request {
    var p := q.(ioPending := false);
    if p.done then p
    else if p.cancelRequested then
      if code == Genuine then Finish(p.(owed := true), StageError(p.stage))
      else if p.stage == Reading && code == Success then CompletePiece(p.(cancelledResult := Some(result), owed := true))
      else CompletePiece(p)
    else
      var d := Disarm(p);
      if code != Success then Finish(d.(owed := true), StageError(p.stage))
      else if p.stage == Reading then Finish(d.(owed := true), Response(result))
      else Begin(d, NextStage(p.stage))
  }

  /** The completion of the timer wait armed as generation `g`. */
  function TimerDone(q: Request, g: nat, code: Code): Request {
    var p := q.(timers := q.timers - {g});
    if g != p.timerGeneration then p
    else
      var d := p.(timerPending := false);
      if d.done then d
      else if d.cancelRequested then
        match code
        case Success => Finish(d.(owed := true), TimedOut)
        case Aborted => CompletePiece(d)
        case Genuine => Finish(d.(owed := true), TimerError)
      else if code == Success then Finish(d.(owed := true), TimedOut)
      else d
  }

  datatype Event = DoStart(tlsReady: bool) | DoCancel | DoIo(code: Code, result: nat) | DoTimer(g: nat, timerCode: Code)

  /** start() comes before any operation, also after a cancel(); a completion needs an operation that is still out. */
  ghost predicate Enabled(q: Request, e: Event) {
    match e
    case DoStart(_) => q.stage == Unstarted
    case DoCancel => true
    case DoIo(_, _) => q.ioPending
    case DoTimer(g, _) => g in q.timers
  }

  function Step(q: Request, e: Event): Request {
    match e
    case DoStart(tlsReady) => Start(q, tlsReady)
    case DoCancel => Cancel(q)
    case DoIo(code, result) => IoDone(q, code, result)
    case DoTimer(g, code) => TimerDone(q, g, code)
  }

  ghost predicate RequestOk(q: Request) {
    // After cancel and until the end, exactly the outstanding completions are counted.
    && (q.cancelRequested && !q.done ==>
          1 <= q.pieces == (if q.ioPending then 1 else 0) + (if q.timerPending then 1 else 0))
    && (q.timerPending <==> q.timerGeneration in q.timers)
    && (forall g | g in q.timers :: g <= q.timerGeneration)
    // One report at most, none after a silent retirement.
    && (q.done <==> q.retired || q.reports != [])
    && |q.reports| <= 1
    && (q.retired ==> q.reports == [])
    && (q.owed <==> q.reports != [] || (q.cancelledResult.Some? && !q.done))
    && (q.cancelledResult.Some? && !q.done ==> q.cancelRequested && !q.ioPending)
    && (q.stage == Unstarted ==> !q.ioPending && !q.timerPending)
  }

  lemma StepKeeps(q: Request, e: Event)
    requires RequestOk(q) && Enabled(q, e)
    ensures RequestOk(Step(q, e))
    ensures q.reports <= Step(q, e).reports && (q.owed ==> Step(q, e).owed) && (q.retired ==> Step(q, e).retired)
  {
  }

  /** A timer wait of an older generation changes nothing but the set of waits. */
  lemma StaleTimerIsIgnored(q: Request, g: nat, code: Code)
    requires RequestOk(q) && g in q.timers
    ensures TimerDone(q, g, code) == q.(timers := q.timers - {g}) <==> g != q.timerGeneration
  {
  }

  ghost predicate Runs(q: Request, events: seq<Event>)
    decreases |events|
  {
    events == [] || (Enabled(q, events[0]) && Runs(Step(q, events[0]), events[1..]))
  }

  function Run(q: Request, events: seq<Event>): Request
    decreases |events|
  {
    if events == [] then q else Run(Step(q, events[0]), events[1..])
  }

  /** Something that must be reported: a genuine error, an elapsed timer, or the final read. */
  ghost predicate MustReport(q: Request, e: Event) {
    !q.done &&
    match e
    case DoStart(tlsReady) => !tlsReady
    case DoCancel => false
    case DoIo(code, _) =>
      code == Genuine || (code == Aborted && !q.cancelRequested) || (code == Success && q.stage == Reading)
    case DoTimer(g, code) => g == q.timerGeneration && (code == Success || (code == Genuine && q.cancelRequested))
  }

  ghost predicate EverOwed(q: Request, events: seq<Event>)
    decreases |events|
  {
    events != [] && (MustReport(q, events[0]) || EverOwed(Step(q, events[0]), events[1..]))
  }

  lemma {:induction false} RunKeeps(q: Request, events: seq<Event>)
    requires RequestOk(q) && Runs(q, events)
    ensures RequestOk(Run(q, events))
    ensures Run(q, events).owed <==> q.owed || EverOwed(q, events)
    decreases |events|
  {
    if events != [] {
      StepKeeps(q, events[0]);
      assert Step(q, events[0]).owed <==> q.owed || MustReport(q, events[0]);
      RunKeeps(Step(q, events[0]), events[1..]);
    }
  }

  /**
    Over every run: at most one report, none after a silent retirement; and once
    a cancelled request has received every completion it waits for, it is over,
    with exactly one report if something had to be reported and none otherwise.
   */
  lemma CancelledRequestSettles(events: seq<Event>)
    requires Runs(NewRequest(), events)
    ensures var q := Run(NewRequest(), events);
            && |q.reports| <= 1 && (q.retired ==> q.reports == [])
            && (q.cancelRequested && !q.done ==>
                  q.pieces == (if q.ioPending then 1 else 0) + (if q.timerPending then 1 else 0))
            && (q.cancelRequested && !q.ioPending && !q.timerPending ==>
                  q.done && |q.reports| == if EverOwed(NewRequest(), events) then 1 else 0)
  {
    RunKeeps(NewRequest(), events);
  }

  // ---------------------------------------------------------------- the socket

  datatype SocketStage = Opening(step: nat) | Receiving   // steps 0..3: DNS, TCP, TLS, WebSocket handshake

  /** The socket keeps the same accounting, then reads messages until it ends. */
  datatype Socket = Socket(base: Request, stage: SocketStage, started: bool, messages: seq<nat>)

  // How one completion is taken: whether the callback it leads to cancels the socket from within, and, for
  // a received frame, its clock sample, its type and what the message callback answers.
  datatype Frame = Frame(payload: nat, clockOk: bool, text: bool, cancelsInside: bool, wanted: bool)

  function NewSocket(): Socket {
    Socket(NewRequest(), Opening(0), false, [])
  }

  function Fail(q: Request): Request {
    Finish(q.(owed := q.owed || !q.done), StageError(q.stage))
  }

  function SocketStart(s: Socket, tlsReady: bool): Socket {
    s.(started := true, base := if tlsReady then Begin(s.base, Resolving) else Fail(s.base))
  }

  function CancelledInside(q: Request, cancels: bool): Request {
    if cancels then Cancel(q) else q
  }

  /**
    After the TLS handshake the callback runs before the next operation is
    begun, which happens even if it cancelled; after the WebSocket handshake the
    first read is begun before the callback runs.
   */
  function OpeningDone(s: Socket, step: nat, code: Code, cancels: bool): Socket {
    var p := s.base.(ioPending := false);
    if p.done then s.(base := p)
    else if p.cancelRequested then s.(base := if code == Genuine then Fail(p) else CompletePiece(p))
    else if code != Success then s.(base := Fail(Disarm(p)))
    else if step < 3 then
      s.(base := Begin(CancelledInside(Disarm(p), step == 2 && cancels), Connecting), stage := Opening(step + 1))
    else s.(base := CancelledInside(Disarm(p).(ioPending := true), cancels), stage := Receiving)
  }

  function ReceiveDone(s: Socket, code: Code, frame: Frame): Socket {
    var p := s.base.(ioPending := false);
    if p.done then s.(base := p)
    else if code == Aborted && p.cancelRequested then s.(base := CompletePiece(p))
    else if code != Success || !frame.clockOk || !frame.text then s.(base := Fail(p))
    else
      var retireAfterMessage := p.cancelRequested;
      var d := CancelledInside(p, frame.cancelsInside);
      var t := s.(messages := s.messages + [frame.payload]);
      if !frame.wanted then t.(base := Retire(d))
      else if retireAfterMessage then t.(base := CompletePiece(d))
      else if d.done then t.(base := d)
      else t.(base := d.(ioPending := true))
  }

  datatype SocketEvent =
    | SocketStarts(tlsReady: bool)
    | SocketCancel
    | SocketIo(code: Code, frame: Frame)
    | SocketTimer(g: nat, timerCode: Code)

  ghost predicate SocketEnabled(s: Socket, e: SocketEvent) {
    match e
    case SocketStarts(_) => !s.started
    case SocketCancel => true
    case SocketIo(_, _) => s.base.ioPending
    case SocketTimer(g, _) => g in s.base.timers
  }

  function SocketStep(s: Socket, e: SocketEvent): Socket {
    match e
    case SocketStarts(tlsReady) => SocketStart(s, tlsReady)
    case SocketCancel => s.(base := Cancel(s.base))
    case SocketIo(code, frame) =>
      if s.stage.Opening? then OpeningDone(s, s.stage.step, code, frame.cancelsInside) else ReceiveDone(s, code, frame)
    case SocketTimer(g, code) => s.(base := TimerDone(s.base, g, code))
  }

  ghost predicate SocketOk(s: Socket) {
    && RequestOk(s.base)
    && s.base.cancelledResult.None?
    && (!s.started ==> s.base.stage == Unstarted && s.stage == Opening(0))
    && (s.stage.Receiving? && s.base.timerPending ==> s.base.done)
  }

  /** A failure the socket must report. */
  ghost predicate SocketMustReport(s: Socket, e: SocketEvent) {
    var q := s.base;
    !q.done &&
    match e
    case SocketStarts(tlsReady) => !tlsReady
    case SocketCancel => false
    case SocketIo(code, frame) =>
      || code == Genuine
      || (code == Aborted && !q.cancelRequested)
      || (code == Success && s.stage.Receiving? && (!frame.clockOk || !frame.text))
    case SocketTimer(g, code) => g == q.timerGeneration && (code == Success || (code == Genuine && q.cancelRequested))
  }

  // What a completion keeps of the socket.
  ghost predicate IoKept(s: Socket, t: Socket, mustReport: bool) {
    && SocketOk(t) && s.messages <= t.messages
    && (t.base.owed <==> s.base.owed || mustReport)
    && (s.base.done ==> t.messages == s.messages && t.base.reports == s.base.reports)
  }

  lemma CancelInsideKeeps(q: Request, cancels: bool)
    requires RequestOk(q)
    ensures var d := CancelledInside(q, cancels);
            && RequestOk(d) && d.owed == q.owed && d.ioPending == q.ioPending && d.timerPending == q.timerPending
            && d.cancelledResult == q.cancelledResult && (q.done ==> d == q) && d.stage == q.stage
  {
  }

  // A cancel that comes when nothing is out retires the operation; what is begun after it completes unheard.
  lemma BeginKeeps(q: Request, stage: Stage)
    requires RequestOk(q) && !q.timerPending && !q.ioPending && stage != Unstarted
    ensures RequestOk(Begin(q, stage)) && Begin(q, stage).owed == q.owed
  {
  }

  lemma OpenedKeeps(s: Socket, cancels: bool)
    requires SocketOk(s) && s.base.ioPending && s.stage.Opening? && !s.base.done && !s.base.cancelRequested
    ensures IoKept(s, OpeningDone(s, s.stage.step, Success, cancels), false)
  {
    var d := Disarm(s.base.(ioPending := false));
    if s.stage.step < 3 {
      CancelInsideKeeps(d, s.stage.step == 2 && cancels);
      BeginKeeps(CancelledInside(d, s.stage.step == 2 && cancels), Connecting);
    } else {
      CancelInsideKeeps(d.(ioPending := true), cancels);
    }
  }

  lemma OpeningKeeps(s: Socket, code: Code, frame: Frame)
    requires SocketOk(s) && s.base.ioPending && s.stage.Opening?
    ensures IoKept(s, SocketStep(s, SocketIo(code, frame)), SocketMustReport(s, SocketIo(code, frame)))
  {
    if !s.base.done && !s.base.cancelRequested && code == Success {
      OpenedKeeps(s, frame.cancelsInside);
    }
  }

  lemma ReceivingKeeps(s: Socket, code: Code, frame: Frame)
    requires SocketOk(s) && s.base.ioPending && s.stage.Receiving?
    ensures IoKept(s, SocketStep(s, SocketIo(code, frame)), SocketMustReport(s, SocketIo(code, frame)))
  {
  }

  lemma SocketIoKeeps(s: Socket, code: Code, frame: Frame)
    requires SocketOk(s) && s.base.ioPending
    ensures IoKept(s, SocketStep(s, SocketIo(code, frame)), SocketMustReport(s, SocketIo(code, frame)))
  {
    if s.stage.Opening? {
      OpeningKeeps(s, code, frame);
    } else {
      ReceivingKeeps(s, code, frame);
    }
  }

  lemma SocketStepKeeps(s: Socket, e: SocketEvent)
    requires SocketOk(s) && SocketEnabled(s, e)
    ensures var t := SocketStep(s, e);
            && SocketOk(t) && s.messages <= t.messages
            && (t.base.owed <==> s.base.owed || SocketMustReport(s, e))
            && (s.base.done ==> t.messages == s.messages && t.base.reports == s.base.reports)
  {
    match e {
      case SocketStarts(_) =>
      case SocketCancel => StepKeeps(s.base, DoCancel);
      case SocketIo(code, frame) => SocketIoKeeps(s, code, frame);
      case SocketTimer(g, code) => StepKeeps(s.base, DoTimer(g, code));
    }
  }

  ghost predicate SocketRuns(s: Socket, events: seq<SocketEvent>)
    decreases |events|
  {
    events == [] || (SocketEnabled(s, events[0]) && SocketRuns(SocketStep(s, events[0]), events[1..]))
  }

  function RunSocket(s: Socket, events: seq<SocketEvent>): Socket
    decreases |events|
  {
    if events == [] then s else RunSocket(SocketStep(s, events[0]), events[1..])
  }

  ghost predicate SocketEverOwed(s: Socket, events: seq<SocketEvent>)
    decreases |events|
  {
    events != [] && (SocketMustReport(s, events[0]) || SocketEverOwed(SocketStep(s, events[0]), events[1..]))
  }

  lemma {:induction false} SocketRunKeeps(s: Socket, events: seq<SocketEvent>)
    requires SocketOk(s) && SocketRuns(s, events)
    ensures SocketOk(RunSocket(s, events))
    ensures RunSocket(s, events).base.owed <==> s.base.owed || SocketEverOwed(s, events)
    decreases |events|
  {
    if events != [] {
      SocketStepKeeps(s, events[0]);
      SocketRunKeeps(SocketStep(s, events[0]), events[1..]);
    }
  }

  /**
    The same for the socket, whose callbacks may cancel it from within:
    at most one failure, none after a silent retirement; once it is over, one
    failure exactly if there was one to report.
   */
  lemma CancelledSocketSettles(events: seq<SocketEvent>)
    requires SocketRuns(NewSocket(), events)
    ensures var q := RunSocket(NewSocket(), events).base;
            && |q.reports| <= 1 && (q.retired ==> q.reports == [])
            && (q.cancelRequested && !q.done ==>
                  q.pieces == (if q.ioPending then 1 else 0) + (if q.timerPending then 1 else 0))
            && (q.cancelRequested && !q.ioPending && !q.timerPending ==> q.done)
            && (q.done ==> |q.reports| == if SocketEverOwed(NewSocket(), events) then 1 else 0)
  {
    SocketRunKeeps(NewSocket(), events);
  }

  /** The request object. */
  class AsyncHttpsGet {
    var stage: Stage
    var ioPending: bool
    var timerPending: bool
    var timerGeneration: nat
    var pieces: nat
    var cancelRequested: bool
    var done: bool
    var cancelledResult: Option<nat>
    var reports: seq<Report>        // what the completion callback received
    ghost var timers: set<nat>
    ghost var owed: bool
    ghost var retired: bool

    ghost function State(): Request
      reads this
    {
      Request(stage, ioPending, timerPending, timerGeneration, pieces, cancelRequested, done, cancelledResult, reports,
              timers, owed, retired)
    }

    constructor ()
      ensures State() == NewRequest()
    {
      stage, ioPending, timerPending, timerGeneration, pieces := Unstarted, false, false, 0, 0;
      cancelRequested, done, cancelledResult, reports := false, false, None, [];
      timers, owed, retired := {}, false, false;
    }

    method ArmTimeout()
      modifies this
      ensures State() == Arm(old(State()))
    {
      timerGeneration := timerGeneration + 1;
      timerPending := true;
      timers := timers + {timerGeneration};
    }

    method DisarmTimeout()
      modifies this
      ensures State() == Disarm(old(State()))
    {
      timerGeneration := timerGeneration + 1;
      timerPending := false;
    }

    method BeginStage(next: Stage)
      modifies this
      ensures State() == Begin(old(State()), next)
    {
      stage := next;
      ArmTimeout();
      ioPending := true;
    }

    method FinishWith(report: Report)
      modifies this
      ensures State() == Finish(old(State()), report)
    {
      if done {
        return;
      }
      done := true;
      pieces := 0;
      DisarmTimeout();
      reports := reports + [report];
    }

    method RetireCleanly()
      modifies this
      ensures State() == Retire(old(State()))
    {
      if done {
        return;
      }
      done := true;
      retired := true;
    }

    method CompleteCancelledPiece()
      modifies this
      ensures State() == CompletePiece(old(State()))
    {
      if pieces > 0 {
        pieces := pieces - 1;
      }
      if pieces != 0 || done {
        return;
      }
      if cancelledResult.Some? {
        var result := cancelledResult.value;
        cancelledResult := None;
        FinishWith(Response(result));
        return;
      }
      RetireCleanly();
    }

    method StartRequest(tlsReady: bool)
      modifies this
      ensures State() == Start(old(State()), tlsReady)
    {
      if !tlsReady {
        owed := owed || !done;
        FinishWith(TlsSetupError);
        return;
      }
      BeginStage(Resolving);
    }

    method CancelRequest()
      modifies this
      ensures State() == Cancel(old(State()))
    {
      if done || cancelRequested {
        return;
      }
      cancelRequested := true;
      pieces := (if ioPending then 1 else 0) + (if timerPending then 1 else 0);
      if pieces == 0 {
        RetireCleanly();
      }
    }

    method OnIoDone(code: Code, result: nat)
      modifies this
      ensures State() == IoDone(old(State()), code, result)
    {
      ioPending := false;
      if done {
        return;
      }
      if cancelRequested {
        if code == Genuine {
          owed := true;
          FinishWith(StageError(stage));
          return;
        }
        if stage == Reading && code == Success {
          cancelledResult := Some(result);
          owed := true;
        }
        CompleteCancelledPiece();
        return;
      }
      DisarmTimeout();
      if code != Success {
        owed := true;
        FinishWith(StageError(stage));
        return;
      }
      if stage == Reading {
        owed := true;
        FinishWith(Response(result));
        return;
      }
      BeginStage(NextStage(stage));
    }

    method OnTimerDone(g: nat, code: Code)
      modifies this
      ensures State() == TimerDone(old(State()), g, code)
    {
      timers := timers - {g};
      if g != timerGeneration {
        return;
      }
      timerPending := false;
      if done {
        return;
      }
      if cancelRequested {
        match code {
          case Success =>
            owed := true;
            FinishWith(TimedOut);
          case Aborted =>
            CompleteCancelledPiece();
          case Genuine =>
            owed := true;
            FinishWith(TimerError);
        }
        return;
      }
      if code == Success {
        owed := true;
        FinishWith(TimedOut);
      }
    }

    /** The completions and calls of one run, one at a time. */
    method HandleAll(events: seq<Event>)
      requires Runs(State(), events)
      modifies this
      ensures State() == Run(old(State()), events)
    {
      ghost var start := State();
      for k := 0 to |events|
        invariant Runs(State(), events[k..])
        invariant Run(start, events) == Run(State(), events[k..])
      {
        assert events[k..][0] == events[k] && events[k..][1..] == events[k + 1..];
        match events[k] {
          case DoStart(tlsReady) => StartRequest(tlsReady);
          case DoCancel => CancelRequest();
          case DoIo(code, result) => OnIoDone(code, result);
          case DoTimer(g, code) => OnTimerDone(g, code);
        }
      }
    }
  }
}
