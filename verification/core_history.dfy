/**
  What the core went through since its last reset, as a list of happenings, and
  the fact on which their order rests: a stop request commutes with an input
  that is being worked off.
 */
module CoreHistory {
  import opened Prelude
  import opened MarketTypes
  import opened ProjectionLibrary
  import opened RuntimeCore

  datatype Happening =
    | Worked(input: Input)        // an input was processed to its end
    | Raised(reason: FaultReason) // a fault from outside: the ingress overflowed
    | StopAsked

  function AskStop(c: Core): Core {
    c.(accepting := false, state := if c.state == Faulted || c.state == NeedsResync then c.state else Stopping)
  }

  function Happen(L: Library, capacity: nat, c: Core, h: Happening, trouble: Troubles): Core {
    match h
    case Worked(input) => Deliver(L, capacity, c, input, trouble)
    case Raised(reason) => Fault(L, c, reason)
    case StopAsked => AskStop(c)
  }

  function HappenAll(L: Library, capacity: nat, c: Core, hs: seq<Happening>, trouble: Troubles): Core {
    if hs == [] then c
    else Happen(L, capacity, HappenAll(L, capacity, c, hs[..|hs| - 1], trouble), hs[|hs| - 1], trouble)
  }

  lemma HappenOneMore(L: Library, capacity: nat, c: Core, hs: seq<Happening>, h: Happening, trouble: Troubles)
    ensures HappenAll(L, capacity, c, hs + [h], trouble)
         == Happen(L, capacity, HappenAll(L, capacity, c, hs, trouble), h, trouble)
  {
    assert (hs + [h])[..|hs + [h]| - 1] == hs;
  }

  function Inputs(inputs: seq<Input>): seq<Happening> {
    seq(|inputs|, i requires 0 <= i < |inputs| => Worked(inputs[i]))
  }

  /** Without faults from outside and stop requests, happening is delivering. */
  lemma {:induction false} InputsAreDelivered(L: Library, capacity: nat, c: Core, inputs: seq<Input>, trouble: Troubles)
    ensures HappenAll(L, capacity, c, Inputs(inputs), trouble) == DeliverAll(L, capacity, c, inputs, trouble)
    decreases |inputs|
  {
    if inputs != [] {
      var n := |inputs| - 1;
      assert inputs == inputs[..n] + [inputs[n]];
      assert Inputs(inputs)[..n] == Inputs(inputs[..n]);
      InputsAreDelivered(L, capacity, c, inputs[..n], trouble);
      DeliverAllConcat(L, capacity, c, inputs[..n], [inputs[n]], trouble);
      DeliverOne(L, capacity, DeliverAll(L, capacity, c, inputs[..n], trouble), inputs[n], trouble);
    }
  }

  // ---------------------------------------------------------------- what does not depend on admission and stopping

  /**
    `d` is `c` but for the admission flag and, when `stopping`, for a stop
    request in between: its state is Stopping unless it faulted.
   */
  ghost predicate Alike(stopping: bool, d: Core, c: Core) {
    d.(accepting := false)
    == (if stopping && c.state != Faulted then c.(state := Stopping) else c).(accepting := false)
  }

  lemma AlikePublish(L: Library, stopping: bool, d: Core, c: Core)
    requires Alike(stopping, d, c)
    ensures Alike(stopping, PublishState(L, d), PublishState(L, c))
  {
  }

  lemma AlikeApply(L: Library, stopping: bool, d: Core, c: Core, update: Depth, trouble: Option<FaultReason>)
    requires Alike(stopping, d, c)
    ensures var (e, b) := (ApplyBook(L, d, update, trouble), ApplyBook(L, c, update, trouble));
            e.1 == b.1 && Alike(stopping, e.0, b.0)
    ensures var (e, b) := (Apply(L, d, update, trouble), Apply(L, c, update, trouble));
            e.1 == b.1 && Alike(stopping, e.0, b.0)
  {
  }

  lemma {:induction false} AlikeReplay(L: Library, stopping: bool, d: Core, c: Core, trouble: Troubles)
    requires Alike(stopping, d, c)
    ensures Replay(L, d, trouble).1 == Replay(L, c, trouble).1
    ensures Alike(stopping, Replay(L, d, trouble).0, Replay(L, c, trouble).0)
    decreases |c.bootstrap|
  {
    if c.bootstrap != [] {
      var update, rest := c.bootstrap[0], c.bootstrap[1..];
      AlikeApply(L, stopping, d.(bootstrap := rest), c.(bootstrap := rest), update, trouble(c.applied));
      var (after, outcome) := Apply(L, c.(bootstrap := rest), update, trouble(c.applied));
      if outcome != Thrown && L.status(after.book) != ResyncRequired && after.state != Faulted {
        AlikeReplay(L, stopping, Apply(L, d.(bootstrap := rest), update, trouble(c.applied)).0, after, trouble);
      }
    }
  }

  lemma AlikeGoOn(L: Library, stopping: bool, d: Core, c: Core, trouble: Troubles)
    requires Alike(stopping, d, c)
    ensures Alike(stopping, ReplayAndPublish(L, d, trouble), ReplayAndPublish(L, c, trouble))
    ensures Alike(stopping, GoOn(L, d, trouble), GoOn(L, c, trouble))
  {
    AlikeReplay(L, stopping, d, c, trouble);
    AlikePublish(L, stopping, Replay(L, d, trouble).0, Replay(L, c, trouble).0);
    AlikePublish(L, stopping, d.(bootstrap := []), c.(bootstrap := []));
  }

  lemma AlikeProcess(L: Library, capacity: nat, stopping: bool, d: Core, c: Core, input: Input, trouble: Troubles)
    requires Alike(stopping, d, c)
    ensures Alike(stopping, Process(L, capacity, d, input, trouble), Process(L, capacity, c, input, trouble))
  {
    match input {
      case FailureInput(_) =>
      case DepthInput(update) => AlikeApply(L, stopping, d, c, update, trouble(c.applied));
      case SnapshotInput(snapshot, generation) =>
        var (e, b) := (Install(L, d, snapshot, generation), Install(L, c, snapshot, generation));
        assert e.1 == b.1 && Alike(stopping, e.0, b.0);
        AlikeGoOn(L, stopping, e.0, b.0, trouble);
    }
  }

  /** A stop request and one input in either order. */
  lemma StopCommutes(L: Library, capacity: nat, c: Core, input: Input, trouble: Troubles)
    requires !Halted(c) && c.state != NeedsResync
    ensures Alike(true, Process(L, capacity, AskStop(c), input, trouble), Process(L, capacity, c, input, trouble))
  {
    AlikeProcess(L, capacity, true, AskStop(c), c, input, trouble);
  }
}
