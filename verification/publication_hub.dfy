/**
  The owner's side of publication: the subscriptions, the hand-out of applied
  updates, and what every session's stream is in terms of what was applied.

  A subscription stays in the heap of the model after the runtime dropped it;
  the runtime's vector of subscribers is the residents, in admission order.

  Source: src/g3/market_runtime.cpp, lines 760-953 and 1183-1227.
 */
module PublicationHub {
  import opened Prelude
  import opened MarketTypes
  import opened ProjectionLibrary
  import opened RuntimeCore
  import C = OrderBookChannel

  /** One update the projection applied, and the book after it. */
  datatype AppliedUpdate = AppliedUpdate(depth: Depth, after: Book)

  datatype Subscription = Subscription(
    session: C.Session,
    resident: bool,
    request: nat,
    base: Book,                 // the book at the admission cut
    depth: Option<int>,
    generation: Option<nat>,    // of the initial snapshot
    cut: nat)                   // how many updates were applied before

  /** `applied` remembers every applied update since the start. */
  datatype Hub = Hub(subscriptions: seq<Subscription>, nextId: nat, applied: seq<AppliedUpdate>)

  // Channels are well shaped, so that their operations are defined.
  ghost predicate Usable(h: Hub) {
    AllUsable(h.subscriptions)
  }

  ghost predicate AllUsable(ss: seq<Subscription>) {
    forall i | 0 <= i < |ss| :: ss[i].session.channel.released <= |Log(ss[i])|
  }

  function Log(s: Subscription): seq<C.Record> {
    s.session.channel.log
  }

  function State(s: Subscription): C.SubscriberState {
    s.session.channel.state
  }

  function WithChannel(s: Subscription, c: C.Channel): Subscription {
    s.(session := s.session.(channel := c))
  }

  function Each(h: Hub, f: Subscription -> Subscription): Hub {
    h.(subscriptions := seq(|h.subscriptions|, i requires 0 <= i < |h.subscriptions| => f(h.subscriptions[i])))
  }

  // ---------------------------------------------------------------- operations

  function SweepOne(s: Subscription): Subscription {
    s.(resident := s.resident && State(s) != C.Closed)
  }

  function Sweep(h: Hub): Hub {
    Each(h, SweepOne)
  }

  datatype Notice = Notice(reason: C.GapReason, action: C.RecoveryAction, generation: Option<nat>, time: nat)

  function TerminateOne(s: Subscription, n: Notice): Subscription {
    if !SweepOne(s).resident then SweepOne(s)
    else WithChannel(s, C.Terminalize(s.session.channel, n.reason, n.action, n.generation, n.time).0)
  }

  function Terminate(h: Hub, n: Notice): Hub {
    Each(h, s => TerminateOne(s, n))
  }

  function CloseOne(s: Subscription): Subscription {
    if s.resident then WithChannel(s, C.CloseFromOwner(s.session.channel)).(resident := false) else s
  }

  function CloseAll(h: Hub): Hub {
    Each(h, CloseOne)
  }

  function Residents(ss: seq<Subscription>): nat {
    if ss == [] then 0 else Residents(ss[..|ss| - 1]) + if ss[|ss| - 1].resident then 1 else 0
  }

  function AdmitOne(s: Subscription, d: Depth, time: nat): Subscription
    requires s.session.channel.released <= |Log(s)|
  {
    WithChannel(s, C.Admit(s.session.channel, d.update, d.generation, time).0)
  }

  predicate Refuses(s: Subscription, d: Depth, time: nat)
    requires s.session.channel.released <= |Log(s)|
  {
    C.Admit(s.session.channel, d.update, d.generation, time).1 == C.AllocationFailure
  }

  /** The hand-out goes through the residents in order and stops at the first failure. */
  function AdmitFrom(ss: seq<Subscription>, i: nat, d: Depth, time: nat): (r: (seq<Subscription>, bool))
    requires AllUsable(ss) && i <= |ss|
    ensures |r.0| == |ss|
    ensures forall k | 0 <= k < i :: r.0[k] == ss[k]
    ensures forall k | i <= k < |ss| :: r.0[k] == ss[k] || (ss[k].resident && r.0[k] == AdmitOne(ss[k], d, time))
    ensures !r.1 ==> forall k | i <= k < |ss| && ss[k].resident :: r.0[k] == AdmitOne(ss[k], d, time)
    ensures r.1 <==> exists k :: i <= k < |ss| && ss[k].resident && Refuses(ss[k], d, time)
    decreases |ss| - i
  {
    if i == |ss| then (ss, false)
    else if !ss[i].resident then AdmitFrom(ss, i + 1, d, time)
    else if Refuses(ss[i], d, time) then (ss, true)
    else AdmitFrom(ss[i := AdmitOne(ss[i], d, time)], i + 1, d, time)
  }

  /** The hand-out, one subscriber at a time. */
  lemma AdmitFromStep(ss: seq<Subscription>, i: nat, d: Depth, time: nat)
    requires AllUsable(ss) && i < |ss|
    ensures !ss[i].resident ==> AdmitFrom(ss, i, d, time) == AdmitFrom(ss, i + 1, d, time)
    ensures ss[i].resident && Refuses(ss[i], d, time) ==> AdmitFrom(ss, i, d, time) == (ss, true)
    ensures AllUsable(ss[i := AdmitOne(ss[i], d, time)])
    ensures ss[i].resident && !Refuses(ss[i], d, time) ==>
              AdmitFrom(ss, i, d, time) == AdmitFrom(ss[i := AdmitOne(ss[i], d, time)], i + 1, d, time)
  {
  }

  /** Handing out an applied update: the new hub, and the fault it ran into. */
  function Publish(h: Hub, d: Depth, after: Book, time: Option<nat>, shutDown: bool): (Hub, Option<FaultReason>)
    requires Usable(h)
  {
    var recorded := h.(applied := h.applied + [AppliedUpdate(d, after)]);
    if shutDown then (recorded, None)
    else
      var swept := Sweep(recorded);
      assert forall k | 0 <= k < |swept.subscriptions| :: swept.subscriptions[k] == SweepOne(h.subscriptions[k]);
      if Residents(swept.subscriptions) == 0 then (swept, None)
      else if time.None? then (swept, Some(ClockError))
      else
        var (ss, failed) := AdmitFrom(swept.subscriptions, 0, d, time.value);
        (swept.(subscriptions := ss), if failed then Some(InternalError) else None)
  }

  function FaultNotice(generation: Option<nat>, time: Option<nat>): Notice {
    Notice(C.ResumeNotAvailable, C.RequestNewSnapshot, generation, TimeOrZero(time))
  }

  // A failed clock sample leaves the default time.
  function TimeOrZero(time: Option<nat>): nat {
    if time.Some? then time.value else 0
  }

  /** Publishing, and ending every session when it ran into a fault. */
  function PublishOrTerminate(
    h: Hub, d: Depth, after: Book, time: Option<nat>, shutDown: bool, generation: Option<nat>)
    : (Hub, Option<FaultReason>)
    requires Usable(h)
  {
    var (published, trouble) := Publish(h, d, after, time, shutDown);
    (if trouble.Some? then Terminate(published, FaultNotice(generation, time)) else published, trouble)
  }

  /** A new session over a staged channel; None when the channel has no room for both records. */
  function Stage(
    h: Hub, capacity: nat, request: nat, depth: Option<int>, book: Book, generation: Option<nat>, time: nat)
    : Option<Subscription>
  {
    var accepted := C.Record(1, None, time, C.Accepted(request));
    var snapshot := C.Record(2, generation, time, C.Snapshot(book, depth));
    var (channel, staged) := C.Stage(C.NewChannel(capacity), accepted, snapshot);
    if staged
    then Some(Subscription(C.Session(channel, C.AtPeek, []), true, request, book, depth, generation, |h.applied|))
    else None
  }

  function Join(h: Hub, s: Subscription): Hub {
    h.(subscriptions := h.subscriptions + [s], nextId := h.nextId + 1)
  }

  function Write(h: Hub, i: nat, cancelled: bool, outcome: C.WriteOutcome): Hub
    requires Usable(h)
  {
    if i >= |h.subscriptions| then h
    else
      var s := h.subscriptions[i];
      h.(subscriptions := h.subscriptions[i := s.(session := C.WriterStep(s.session, cancelled, outcome))])
  }

  // ---------------------------------------------------------------- what a session's stream is

  function Delivered(s: Subscription): int {
    |Log(s)| - 2
  }

  /** Accepted, the snapshot of the cut, then applied updates from the cut on, in order, each once. */
  ghost predicate Replays(applied: seq<AppliedUpdate>, s: Subscription) {
    var log := Log(s);
    && C.SessionOk(s.session)
    && s.cut + Delivered(s) <= |applied|
    && log[0].payload == C.Accepted(s.request) && log[0].generation == None
    && log[1].payload == C.Snapshot(s.base, s.depth) && log[1].generation == s.generation
    && forall j | 2 <= j < |log| ::
         && log[j].payload == C.Update(applied[s.cut + j - 2].depth.update)
         && log[j].generation == applied[s.cut + j - 2].depth.generation
  }

  /** An active session is resident and has been handed every applied update since its cut. */
  ghost predicate StreamOk(applied: seq<AppliedUpdate>, s: Subscription) {
    Replays(applied, s) && (State(s) == C.Active ==> s.resident && s.cut + Delivered(s) == |applied|)
  }

  /** What a session of a known generation may carry. */
  ghost predicate Carries(s: Subscription, generation: Option<nat>) {
    s.generation.Some? ==> generation.None? || generation == s.generation
  }

  ghost predicate CarriesOne(s: Subscription) {
    && (forall j | 0 <= j < |Log(s)| :: Carries(s, Log(s)[j].generation))
    && (s.session.channel.issued.Some? ==> Carries(s, s.session.channel.issued.value.generation))
  }

  /** No session carries two generations, and an active one has the current one. */
  ghost predicate IsolationOk(s: Subscription, current: Option<nat>) {
    CarriesOne(s) && (State(s) == C.Active ==> s.generation == current)
  }

  /** The owner's book when the session had been handed `k` updates. */
  ghost function BookAt(applied: seq<AppliedUpdate>, s: Subscription, k: int): Book
    requires k <= 0 || s.cut + k <= |applied|
  {
    if k <= 0 then s.base else applied[s.cut + k - 1].after
  }

  /** Each handed-out update leads from the owner's book before it to the one after it. */
  ghost predicate Chained(L: Library, applied: seq<AppliedUpdate>, s: Subscription) {
    && s.cut + Delivered(s) <= |applied|
    && forall k | 0 <= k < Delivered(s) ::
         BookAt(applied, s, k + 1) == L.apply(BookAt(applied, s, k), applied[s.cut + k].depth.update).0
  }

  ghost predicate FoldOk(L: Library, applied: seq<AppliedUpdate>, s: Subscription, book: Book) {
    Chained(L, applied, s) && (State(s) == C.Active ==> BookAt(applied, s, Delivered(s)) == book)
  }

  ghost predicate StreamsOk(h: Hub) {
    forall i | 0 <= i < |h.subscriptions| :: StreamOk(h.applied, h.subscriptions[i])
  }

  ghost predicate IsolationsOk(h: Hub, current: Option<nat>) {
    forall i | 0 <= i < |h.subscriptions| :: IsolationOk(h.subscriptions[i], current)
  }

  ghost predicate FoldsOk(L: Library, h: Hub, book: Book) {
    forall i | 0 <= i < |h.subscriptions| :: FoldOk(L, h.applied, h.subscriptions[i], book)
  }

  ghost predicate NoneActive(h: Hub) {
    forall i | 0 <= i < |h.subscriptions| :: State(h.subscriptions[i]) != C.Active
  }

  // ---------------------------------------------------------------- steps that add no record

  /** The stream is untouched but for a terminal; nobody is revived. */
  ghost predicate Quieter(s: Subscription, t: Subscription) {
    && C.SessionOk(t.session)
    && Log(t) == Log(s)
    && t.(session := s.session, resident := s.resident) == s
    && (State(t) == C.Active ==> State(s) == C.Active && (s.resident ==> t.resident))
    && (t.session.channel.issued != s.session.channel.issued ==> State(s) == C.Active)
  }

  lemma QuieterKeeps(applied: seq<AppliedUpdate>, s: Subscription, t: Subscription, current: Option<nat>)
    requires Quieter(s, t)
    ensures StreamOk(applied, s) ==> StreamOk(applied, t)
    ensures IsolationOk(s, current)
         && (t.session.channel.issued.Some? && State(s) == C.Active ==>
               Carries(t, t.session.channel.issued.value.generation))
         ==> IsolationOk(t, current)
  {
  }

  lemma QuieterChains(L: Library, applied: seq<AppliedUpdate>, s: Subscription, t: Subscription, book: Book)
    requires Quieter(s, t) && FoldOk(L, applied, s, book)
    ensures FoldOk(L, applied, t, book)
  {
    forall k | 0 <= k < Delivered(t)
      ensures BookAt(applied, t, k + 1) == L.apply(BookAt(applied, t, k), applied[t.cut + k].depth.update).0
    {
      assert BookAt(applied, s, k + 1) == L.apply(BookAt(applied, s, k), applied[s.cut + k].depth.update).0;
    }
  }

  lemma SweepIsQuiet(s: Subscription)
    requires C.SessionOk(s.session)
    ensures Quieter(s, SweepOne(s))
  {
  }

  lemma TerminateIsQuiet(s: Subscription, n: Notice)
    requires C.SessionOk(s.session)
    ensures Quieter(s, TerminateOne(s, n))
    ensures s.resident ==> State(TerminateOne(s, n)) != C.Active
    ensures var issued := TerminateOne(s, n).session.channel.issued;
            issued == s.session.channel.issued || issued.value.generation == n.generation
  {
    C.TerminalizeKeeps(s.session.channel, n.reason, n.action, n.generation, n.time);
    C.OwnerStepKeeps(s.session, C.OpTerminalize(n.reason, n.action, n.generation, n.time));
  }

  lemma CloseIsQuiet(s: Subscription)
    requires C.SessionOk(s.session)
    ensures Quieter(s, CloseOne(s))
    ensures s.resident ==> State(CloseOne(s)) != C.Active
  {
    C.OwnerStepKeeps(s.session, C.OpOwnerClose);
  }

  lemma WriteIsQuiet(s: Subscription, cancelled: bool, outcome: C.WriteOutcome)
    requires C.SessionOk(s.session)
    ensures Quieter(s, s.(session := C.WriterStep(s.session, cancelled, outcome)))
    ensures C.WriterStep(s.session, cancelled, outcome).channel.issued == s.session.channel.issued
  {
    C.WriterStepKeeps(s.session, cancelled, outcome);
  }

  ghost predicate QuieterHub(h: Hub, k: Hub) {
    && |k.subscriptions| == |h.subscriptions| && k.applied == h.applied && k.nextId == h.nextId
    && forall i | 0 <= i < |h.subscriptions| :: Quieter(h.subscriptions[i], k.subscriptions[i])
  }

  /** Every new terminal names a generation that an active session may carry. */
  ghost predicate SameTerminals(h: Hub, k: Hub, current: Option<nat>) {
    && |k.subscriptions| == |h.subscriptions|
    && forall i | 0 <= i < |h.subscriptions| ::
         var (s, t) := (h.subscriptions[i], k.subscriptions[i]);
         State(s) == C.Active && t.session.channel.issued.Some? ==>
           var generation := t.session.channel.issued.value.generation;
           generation.None? || current.None? || generation == current
  }

  lemma QuieterHubKeeps(h: Hub, k: Hub, current: Option<nat>)
    requires QuieterHub(h, k)
    ensures StreamsOk(h) ==> StreamsOk(k)
    ensures IsolationsOk(h, current) && SameTerminals(h, k, current) ==> IsolationsOk(k, current)
    ensures NoneActive(h) ==> NoneActive(k)
  {
    forall i | 0 <= i < |h.subscriptions|
      ensures StreamOk(h.applied, h.subscriptions[i]) ==> StreamOk(k.applied, k.subscriptions[i])
      ensures IsolationOk(h.subscriptions[i], current) && SameTerminals(h, k, current) ==>
                IsolationOk(k.subscriptions[i], current)
    {
      QuieterKeeps(h.applied, h.subscriptions[i], k.subscriptions[i], current);
    }
  }

  lemma QuieterHubChains(L: Library, h: Hub, k: Hub, book: Book)
    requires QuieterHub(h, k) && FoldsOk(L, h, book)
    ensures FoldsOk(L, k, book)
  {
    forall i | 0 <= i < |h.subscriptions| ensures FoldOk(L, k.applied, k.subscriptions[i], book) {
      QuieterChains(L, h.applied, h.subscriptions[i], k.subscriptions[i], book);
    }
  }

  lemma SweepKeeps(h: Hub)
    requires StreamsOk(h)
    ensures QuieterHub(h, Sweep(h))
    ensures forall current :: SameTerminals(h, Sweep(h), current)
  {
    forall i | 0 <= i < |h.subscriptions|
      ensures Quieter(h.subscriptions[i], Sweep(h).subscriptions[i])
      ensures Sweep(h).subscriptions[i].session == h.subscriptions[i].session
      ensures C.SessionOk(h.subscriptions[i].session)
    {
      assert StreamOk(h.applied, h.subscriptions[i]);
      SweepIsQuiet(h.subscriptions[i]);
    }
  }

  /** Ending every session: no record is added and nobody stays active. */
  lemma TerminateKeeps(h: Hub, n: Notice, current: Option<nat>)
    requires StreamsOk(h)
    ensures QuieterHub(h, Terminate(h, n)) && NoneActive(Terminate(h, n))
    ensures n.generation.None? || current.None? || n.generation == current ==>
              SameTerminals(h, Terminate(h, n), current)
  {
    forall i | 0 <= i < |h.subscriptions|
      ensures Quieter(h.subscriptions[i], Terminate(h, n).subscriptions[i])
      ensures State(Terminate(h, n).subscriptions[i]) != C.Active
      ensures n.generation.None? || current.None? || n.generation == current ==>
                (State(h.subscriptions[i]) == C.Active && Terminate(h, n).subscriptions[i].session.channel.issued.Some? ==>
                   var generation := Terminate(h, n).subscriptions[i].session.channel.issued.value.generation;
                   generation.None? || current.None? || generation == current)
    {
      TerminateIsQuiet(h.subscriptions[i], n);
      assert StreamOk(h.applied, h.subscriptions[i]);
    }
  }

  lemma CloseAllKeeps(h: Hub)
    requires StreamsOk(h)
    ensures QuieterHub(h, CloseAll(h)) && NoneActive(CloseAll(h))
    ensures forall current :: SameTerminals(h, CloseAll(h), current)
  {
    forall i | 0 <= i < |h.subscriptions|
      ensures Quieter(h.subscriptions[i], CloseAll(h).subscriptions[i])
      ensures State(CloseAll(h).subscriptions[i]) != C.Active
      ensures CloseAll(h).subscriptions[i].session.channel.issued == h.subscriptions[i].session.channel.issued
      ensures C.SessionOk(h.subscriptions[i].session)
    {
      assert StreamOk(h.applied, h.subscriptions[i]);
      CloseIsQuiet(h.subscriptions[i]);
    }
  }

  lemma WriteKeeps(h: Hub, i: nat, cancelled: bool, outcome: C.WriteOutcome)
    requires StreamsOk(h)
    ensures Usable(h) && QuieterHub(h, Write(h, i, cancelled, outcome))
    ensures forall current :: SameTerminals(h, Write(h, i, cancelled, outcome), current)
  {
    StreamsAreUsable(h);
    forall k | 0 <= k < |h.subscriptions|
      ensures Quieter(h.subscriptions[k], Write(h, i, cancelled, outcome).subscriptions[k])
      ensures Write(h, i, cancelled, outcome).subscriptions[k].session.channel.issued
           == h.subscriptions[k].session.channel.issued
    {
      assert StreamOk(h.applied, h.subscriptions[k]);
      if k == i {
        WriteIsQuiet(h.subscriptions[i], cancelled, outcome);
      }
    }
  }

  lemma StreamsAreUsable(h: Hub)
    requires StreamsOk(h)
    ensures Usable(h)
  {
    forall i | 0 <= i < |h.subscriptions|
      ensures h.subscriptions[i].session.channel.released <= |Log(h.subscriptions[i])|
    {
      assert StreamOk(h.applied, h.subscriptions[i]);
    }
  }

  // ---------------------------------------------------------------- the hand-out

  /** Where a session stands after `x` was applied: untouched, or handed `x`. */
  lemma AdmitOneKeeps(
    applied: seq<AppliedUpdate>, s: Subscription, x: AppliedUpdate, time: nat, current: Option<nat>)
    requires StreamOk(applied, s)
    ensures var t := AdmitOne(s, x.depth, time);
            && Replays(applied + [x], s) && Replays(applied + [x], t)
            && (s.resident <==> t.resident)
            && (!Refuses(s, x.depth, time) ==> StreamOk(applied + [x], t) || !s.resident)
            && (State(t) == C.Active ==> State(s) == C.Active)
            && (IsolationOk(s, current) && (current.None? || x.depth.generation.None? || x.depth.generation == current)
                ==> IsolationOk(t, current))
  {
    C.AdmitKeeps(s.session.channel, x.depth.update, x.depth.generation, time);
    C.OwnerStepKeeps(s.session, C.OpAdmit(x.depth.update, x.depth.generation, time));
  }

  lemma AdmitOneChains(L: Library, applied: seq<AppliedUpdate>, s: Subscription, x: AppliedUpdate, time: nat, book: Book)
    requires StreamOk(applied, s) && FoldOk(L, applied, s, book) && L.apply(book, x.depth.update).0 == x.after
    ensures var t := AdmitOne(s, x.depth, time);
            && Chained(L, applied + [x], s) && Chained(L, applied + [x], t)
            && (!Refuses(s, x.depth, time) ==> FoldOk(L, applied + [x], t, x.after))
  {
    var t := AdmitOne(s, x.depth, time);
    forall k | 0 <= k < Delivered(s)
      ensures BookAt(applied + [x], s, k + 1)
           == L.apply(BookAt(applied + [x], s, k), (applied + [x])[s.cut + k].depth.update).0
    {
      assert BookAt(applied, s, k + 1) == L.apply(BookAt(applied, s, k), applied[s.cut + k].depth.update).0;
    }
    forall k | 0 <= k < Delivered(t)
      ensures BookAt(applied + [x], t, k + 1)
           == L.apply(BookAt(applied + [x], t, k), (applied + [x])[t.cut + k].depth.update).0
    {
      if k < Delivered(s) {
        assert BookAt(applied, s, k + 1) == L.apply(BookAt(applied, s, k), applied[s.cut + k].depth.update).0;
      }
    }
  }

  lemma RaisedFlags(ss: seq<Subscription>)
    ensures Residents(ss) == 0 <==> forall i | 0 <= i < |ss| :: !ss[i].resident
  {
    if ss != [] {
      RaisedFlags(ss[..|ss| - 1]);
    }
  }

  /** What the hand-out did to one session: it was left alone, or handed the update. */
  ghost predicate Handed(h: Hub, k: Hub, i: nat, x: AppliedUpdate, time: nat)
    requires i < |h.subscriptions| && i < |k.subscriptions| && Usable(h)
  {
    var s := SweepOne(h.subscriptions[i]);
    k.subscriptions[i] == s || (s.resident && k.subscriptions[i] == AdmitOne(s, x.depth, time))
  }

  lemma PublishedShape(h: Hub, d: Depth, after: Book, time: Option<nat>)
    requires StreamsOk(h)
    ensures Usable(h)
    ensures var (k, trouble) := Publish(h, d, after, time, false);
            && |k.subscriptions| == |h.subscriptions| && k.nextId == h.nextId
            && k.applied == h.applied + [AppliedUpdate(d, after)]
            && (forall i: nat | i < |h.subscriptions| :: Handed(h, k, i, AppliedUpdate(d, after), TimeOrZero(time)))
            && (trouble.None? ==> forall i: nat | i < |h.subscriptions| && SweepOne(h.subscriptions[i]).resident ::
                  && k.subscriptions[i] == AdmitOne(SweepOne(h.subscriptions[i]), d, TimeOrZero(time))
                  && !Refuses(SweepOne(h.subscriptions[i]), d, TimeOrZero(time)))
  {
    StreamsAreUsable(h);
    var swept := Sweep(h.(applied := h.applied + [AppliedUpdate(d, after)]));
    RaisedFlags(swept.subscriptions);
    assert forall k | 0 <= k < |swept.subscriptions| :: swept.subscriptions[k] == SweepOne(h.subscriptions[k]);
    if time.Some? {
      var r := AdmitFrom(swept.subscriptions, 0, d, time.value);
    }
  }

  /**
    The hand-out runs into a fault exactly when somebody is resident and the
    clock failed, or a resident channel has used up its sequences.
   */
  lemma TroubleExactly(h: Hub, d: Depth, after: Book, time: Option<nat>, shutDown: bool)
    requires Usable(h)
    ensures Publish(h, d, after, time, shutDown).1
         == if shutDown || (forall i | 0 <= i < |h.subscriptions| :: !SweepOne(h.subscriptions[i]).resident) then None
            else if time.None? then Some(ClockError)
            else if exists i :: 0 <= i < |h.subscriptions| && SweepOne(h.subscriptions[i]).resident
                                && Refuses(h.subscriptions[i], d, time.value) then Some(InternalError)
            else None
  {
    var swept := Sweep(h.(applied := h.applied + [AppliedUpdate(d, after)])).subscriptions;
    RaisedFlags(swept);
    assert forall k | 0 <= k < |swept| :: swept[k] == SweepOne(h.subscriptions[k]);
    if time.Some? {
      var r := AdmitFrom(swept, 0, d, time.value);
      assert forall k | 0 <= k < |swept| :: Refuses(swept[k], d, time.value) == Refuses(h.subscriptions[k], d, time.value);
    }
  }

  /** After the hand-out every session still replays the history, and an active one all of it. */
  lemma PublishKeepsStreams(h: Hub, d: Depth, after: Book, time: Option<nat>, shutDown: bool)
    requires StreamsOk(h) && (shutDown ==> NoneActive(h))
    ensures Usable(h)
    ensures var (k, trouble) := Publish(h, d, after, time, shutDown);
            && |k.subscriptions| == |h.subscriptions|
            && (forall i | 0 <= i < |k.subscriptions| ::
                  && Replays(k.applied, k.subscriptions[i])
                  && (State(k.subscriptions[i]) == C.Active ==>
                        k.subscriptions[i].resident && State(h.subscriptions[i]) == C.Active))
            && (trouble.None? ==> StreamsOk(k))
  {
    StreamsAreUsable(h);
    var x := AppliedUpdate(d, after);
    var (k, trouble) := Publish(h, d, after, time, shutDown);
    if !shutDown {
      PublishedShape(h, d, after, time);
    }
    forall i: nat | i < |k.subscriptions|
      ensures Replays(k.applied, k.subscriptions[i])
      ensures State(k.subscriptions[i]) == C.Active ==>
                k.subscriptions[i].resident && State(h.subscriptions[i]) == C.Active
      ensures trouble.None? ==> StreamOk(k.applied, k.subscriptions[i])
    {
      var s := h.subscriptions[i];
      assert StreamOk(h.applied, s);
      SweepIsQuiet(s);
      QuieterKeeps(h.applied, s, SweepOne(s), None);
      AdmitOneKeeps(h.applied, SweepOne(s), x, TimeOrZero(time), None);
      if shutDown {
        assert State(s) != C.Active;
      } else {
        assert Handed(h, k, i, x, TimeOrZero(time));
      }
    }
  }

  /** A known generation and the update's own one do not clash. */
  predicate Agree(current: Option<nat>, generation: Option<nat>) {
    current.None? || generation.None? || generation == current
  }

  lemma PublishKeepsIsolation(
    h: Hub, d: Depth, after: Book, time: Option<nat>, shutDown: bool, current: Option<nat>)
    requires StreamsOk(h) && (shutDown ==> NoneActive(h))
    requires IsolationsOk(h, current) && Agree(current, d.generation)
    ensures Usable(h) && IsolationsOk(Publish(h, d, after, time, shutDown).0, current)
  {
    StreamsAreUsable(h);
    var x := AppliedUpdate(d, after);
    var (k, trouble) := Publish(h, d, after, time, shutDown);
    if !shutDown {
      PublishedShape(h, d, after, time);
    }
    forall i: nat | i < |k.subscriptions| ensures IsolationOk(k.subscriptions[i], current) {
      var s := h.subscriptions[i];
      assert StreamOk(h.applied, s) && IsolationOk(s, current);
      SweepIsQuiet(s);
      QuieterKeeps(h.applied, s, SweepOne(s), current);
      AdmitOneKeeps(h.applied, SweepOne(s), x, TimeOrZero(time), current);
      if !shutDown {
        assert Handed(h, k, i, x, TimeOrZero(time));
      }
    }
  }

  lemma PublishChains(L: Library, h: Hub, d: Depth, after: Book, time: Option<nat>, shutDown: bool, book: Book)
    requires StreamsOk(h) && (shutDown ==> NoneActive(h))
    requires FoldsOk(L, h, book) && L.apply(book, d.update).0 == after
    ensures Usable(h)
    ensures var (k, trouble) := Publish(h, d, after, time, shutDown);
            && (forall i | 0 <= i < |k.subscriptions| :: Chained(L, k.applied, k.subscriptions[i]))
            && (trouble.None? ==> FoldsOk(L, k, after))
  {
    StreamsAreUsable(h);
    var x := AppliedUpdate(d, after);
    var (k, trouble) := Publish(h, d, after, time, shutDown);
    if !shutDown {
      PublishedShape(h, d, after, time);
    }
    forall i: nat | i < |k.subscriptions|
      ensures Chained(L, k.applied, k.subscriptions[i])
      ensures trouble.None? ==> FoldOk(L, k.applied, k.subscriptions[i], after)
    {
      var s := h.subscriptions[i];
      assert StreamOk(h.applied, s) && FoldOk(L, h.applied, s, book);
      SweepIsQuiet(s);
      QuieterKeeps(h.applied, s, SweepOne(s), None);
      QuieterChains(L, h.applied, s, SweepOne(s), book);
      AdmitOneChains(L, h.applied, SweepOne(s), x, TimeOrZero(time), book);
      AdmitOneKeeps(h.applied, SweepOne(s), x, TimeOrZero(time), None);
      if shutDown {
        assert State(s) != C.Active;
        AdmitOneChains(L, h.applied, s, x, TimeOrZero(time), book);
      } else {
        assert Handed(h, k, i, x, TimeOrZero(time));
      }
    }
  }

  /** Terminating every session repairs a hand-out that stopped half-way. */
  lemma TerminateRepairs(h: Hub, n: Notice)
    requires forall i | 0 <= i < |h.subscriptions| ::
               && Replays(h.applied, h.subscriptions[i])
               && (State(h.subscriptions[i]) == C.Active ==> h.subscriptions[i].resident)
    ensures StreamsOk(Terminate(h, n)) && NoneActive(Terminate(h, n))
    ensures forall current :: IsolationsOk(h, current) && n.generation == current ==> IsolationsOk(Terminate(h, n), current)
  {
    var k := Terminate(h, n);
    forall i | 0 <= i < |h.subscriptions|
      ensures StreamOk(k.applied, k.subscriptions[i]) && State(k.subscriptions[i]) != C.Active
      ensures IsolationOk(h.subscriptions[i], n.generation) ==> IsolationOk(k.subscriptions[i], n.generation)
    {
      assert Replays(h.applied, h.subscriptions[i]);
      TerminateIsQuiet(h.subscriptions[i], n);
    }
  }

  lemma TerminateRepairsChains(L: Library, h: Hub, n: Notice, book: Book)
    requires forall i | 0 <= i < |h.subscriptions| ::
               && Replays(h.applied, h.subscriptions[i])
               && (State(h.subscriptions[i]) == C.Active ==> h.subscriptions[i].resident)
    requires forall i | 0 <= i < |h.subscriptions| :: Chained(L, h.applied, h.subscriptions[i])
    ensures FoldsOk(L, Terminate(h, n), book)
  {
    var k := Terminate(h, n);
    forall i | 0 <= i < |h.subscriptions| ensures FoldOk(L, k.applied, k.subscriptions[i], book) {
      var s, t := h.subscriptions[i], k.subscriptions[i];
      assert Replays(h.applied, s) && Chained(L, h.applied, s);
      TerminateIsQuiet(s, n);
      forall j | 0 <= j < Delivered(t)
        ensures BookAt(k.applied, t, j + 1) == L.apply(BookAt(k.applied, t, j), k.applied[t.cut + j].depth.update).0
      {
        assert BookAt(h.applied, s, j + 1) == L.apply(BookAt(h.applied, s, j), h.applied[s.cut + j].depth.update).0;
      }
    }
  }

  /**
    Applying and publishing one update: every session keeps replaying the
    history; if publishing ran into a fault, nobody stays active.
   */
  lemma PublishOrTerminateKeeps(
    h: Hub, d: Depth, after: Book, time: Option<nat>, shutDown: bool, current: Option<nat>)
    requires StreamsOk(h) && (shutDown ==> NoneActive(h))
    ensures Usable(h)
    ensures var (k, trouble) := PublishOrTerminate(h, d, after, time, shutDown, current);
            && StreamsOk(k)
            && |k.subscriptions| == |h.subscriptions|
            && k.applied == h.applied + [AppliedUpdate(d, after)]
            && (trouble.Some? || NoneActive(h) ==> NoneActive(k))
            && (IsolationsOk(h, current) && Agree(current, d.generation) ==> IsolationsOk(k, current))
  {
    PublishKeepsStreams(h, d, after, time, shutDown);
    var (published, trouble) := Publish(h, d, after, time, shutDown);
    if trouble.Some? {
      TerminateRepairs(published, FaultNotice(current, time));
    }
    if IsolationsOk(h, current) && Agree(current, d.generation) {
      PublishKeepsIsolation(h, d, after, time, shutDown, current);
    }
  }

  lemma PublishOrTerminateChains(
    L: Library, h: Hub, d: Depth, after: Book, time: Option<nat>, shutDown: bool, current: Option<nat>, book: Book)
    requires StreamsOk(h) && (shutDown ==> NoneActive(h))
    requires FoldsOk(L, h, book) && L.apply(book, d.update).0 == after
    ensures Usable(h)
    ensures FoldsOk(L, PublishOrTerminate(h, d, after, time, shutDown, current).0, after)
  {
    PublishKeepsStreams(h, d, after, time, shutDown);
    PublishChains(L, h, d, after, time, shutDown, book);
    var (published, trouble) := Publish(h, d, after, time, shutDown);
    if trouble.Some? {
      TerminateRepairsChains(L, published, FaultNotice(current, time), after);
    }
  }

  // ---------------------------------------------------------------- admission

  /** A staged session starts at the owner's current book and generation; both records or none. */
  lemma StageStartsAtTheCut(
    L: Library, h: Hub, capacity: nat, request: nat, depth: Option<int>, book: Book, generation: Option<nat>, time: nat)
    ensures var staged := Stage(h, capacity, request, depth, book, generation, time);
            && (staged.Some? <==> 2 <= capacity)
            && (staged.Some? ==>
                  var s := staged.value;
                  && StreamOk(h.applied, s) && IsolationOk(s, generation) && FoldOk(L, h.applied, s, book)
                  && s.request == request && s.base == book && s.depth == depth && s.cut == |h.applied|
                  && s.session.written == [])
  {
    if 2 <= capacity {
      var accepted := C.Record(1, None, time, C.Accepted(request));
      var snapshot := C.Record(2, generation, time, C.Snapshot(book, depth));
      C.StagedSessionOk(capacity, accepted, snapshot);
    }
  }

  lemma JoinKeeps(L: Library, h: Hub, s: Subscription, current: Option<nat>, book: Book)
    requires StreamsOk(h) && StreamOk(h.applied, s)
    ensures StreamsOk(Join(h, s))
    ensures IsolationsOk(h, current) && IsolationOk(s, current) ==> IsolationsOk(Join(h, s), current)
    ensures FoldsOk(L, h, book) && FoldOk(L, h.applied, s, book) ==> FoldsOk(L, Join(h, s), book)
  {
  }

  // ---------------------------------------------------------------- replaying a session

  /** The book a subscriber rebuilds from a base and the updates it got. */
  function Fold(L: Library, base: Book, updates: seq<nat>): Book {
    if updates == [] then base
    else L.apply(Fold(L, base, updates[..|updates| - 1]), updates[|updates| - 1]).0
  }

  /** The updates of a stream, which follow the accepted and the snapshot record. */
  function UpdatesOf(log: seq<C.Record>): seq<nat>
    requires forall j | 2 <= j < |log| :: log[j].payload.Update?
  {
    seq(Max(|log| - 2, 0), j requires 0 <= j < |log| - 2 => log[j + 2].payload.update)
  }

  /**
    Replaying the first k updates of a session on its initial snapshot gives the
    owner's book right after the k-th of them was applied; an active session
    that replays all of them has the owner's current book.
   */
  lemma {:induction false} FoldingIsTheBook(L: Library, applied: seq<AppliedUpdate>, s: Subscription, book: Book, k: nat)
    requires StreamOk(applied, s) && FoldOk(L, applied, s, book) && k <= Delivered(s)
    ensures Fold(L, s.base, UpdatesOf(Log(s))[..k]) == BookAt(applied, s, k)
    ensures k == Delivered(s) && State(s) == C.Active ==> Fold(L, s.base, UpdatesOf(Log(s))) == book
    decreases k
  {
    var updates := UpdatesOf(Log(s));
    assert updates[..|updates|] == updates;
    if k != 0 {
      FoldingIsTheBook(L, applied, s, book, k - 1);
      assert updates[..k][..k - 1] == updates[..k - 1];
      assert BookAt(applied, s, k - 1 + 1) == L.apply(BookAt(applied, s, k - 1), applied[s.cut + (k - 1)].depth.update).0;
      assert Log(s)[k + 1].payload == C.Update(applied[s.cut + (k + 1) - 2].depth.update);
    }
  }

  /** What a session wrote: the stream's prefix, so Accepted, Snapshot and then applied updates, numbered from 1. */
  ghost predicate WroteReplay(applied: seq<AppliedUpdate>, s: Subscription) {
    var written := s.session.written;
    && C.Contiguous(written)
    && (0 < |written| ==> written[0].Ordinary? && written[0].record.payload == C.Accepted(s.request))
    && (1 < |written| ==> written[1].Ordinary? && written[1].record.payload == C.Snapshot(s.base, s.depth))
    && forall i | 2 <= i < |written| ::
         (match written[i]
          case Ordinary(record) =>
            && s.cut + i - 2 < |applied|
            && record.payload == C.Update(applied[s.cut + i - 2].depth.update)
            && record.generation == applied[s.cut + i - 2].depth.generation
          case Gap(_) => i == |written| - 1)
  }

  lemma WritersReplay(applied: seq<AppliedUpdate>, s: Subscription)
    requires StreamOk(applied, s)
    ensures WroteReplay(applied, s)
  {
    C.WrittenIsContiguous(s.session);
    var written := s.session.written;
    forall i | 0 <= i < |written| ensures written[i] == C.StreamAt(s.session.channel, i) {
    }
  }

  /** What a session of a known generation wrote names no other generation. */
  lemma WritersAreIsolated(applied: seq<AppliedUpdate>, s: Subscription, current: Option<nat>, i: nat)
    requires StreamOk(applied, s) && IsolationOk(s, current) && i < |s.session.written|
    ensures match s.session.written[i]
            case Ordinary(record) => Carries(s, record.generation)
            case Gap(terminal) => Carries(s, terminal.generation)
  {
    assert s.session.written[i] == C.StreamAt(s.session.channel, i);
  }
}
