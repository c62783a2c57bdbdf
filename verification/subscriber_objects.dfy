/**
  The owner's vector of subscribers as objects: every resident is a channel
  object with its ring, and the owner's loops run over them. What they do is
  what the hub does to the residents' channels.

  Source: src/g3/market_runtime.cpp, lines 876-884, 908-953 and 1215-1226, over
  the channels of src/g7/order_book_publication.cpp.
 */
module SubscriberObjects {
  import opened Prelude
  import opened MarketTypes
  import opened RuntimeCore
  import H = PublicationHub
  import C = OrderBookChannel

  // ---------------------------------------------------------------- the residents' channels

  /** The channels of the residents, in order: what the owner's vector holds. */
  function Residing(ss: seq<H.Subscription>): seq<C.Channel> {
    if ss == [] then []
    else
      var last := ss[|ss| - 1];
      Residing(ss[..|ss| - 1]) + if last.resident then [last.session.channel] else []
  }

  ghost predicate Drained(cs: seq<C.Channel>) {
    forall i | 0 <= i < |cs| :: cs[i].released <= |cs[i].log|
  }

  /** Handing out `d` from position `i` on, up to the first channel that refuses it. */
  function AdmitChannels(cs: seq<C.Channel>, i: nat, d: Depth, time: nat): (r: (seq<C.Channel>, bool))
    requires i <= |cs| && Drained(cs)
    ensures |r.0| == |cs|
    decreases |cs| - i
  {
    if i == |cs| then (cs, false)
    else
      var (c, result) := C.Admit(cs[i], d.update, d.generation, time);
      if result == C.AllocationFailure then (cs, true)
      else AdmitChannels(cs[i := c], i + 1, d, time)
  }

  lemma AdmitChannelsStep(cs: seq<C.Channel>, i: nat, d: Depth, time: nat)
    requires i < |cs| && Drained(cs)
    ensures var (c, result) := C.Admit(cs[i], d.update, d.generation, time);
            && Drained(cs[i := c])
            && (result == C.AllocationFailure ==> c == cs[i])
            && AdmitChannels(cs, i, d, time)
            == if result == C.AllocationFailure then (cs, true) else AdmitChannels(cs[i := c], i + 1, d, time)
  {
  }

  function Mapped(cs: seq<C.Channel>, f: C.Channel -> C.Channel): (r: seq<C.Channel>)
    ensures |r| == |cs| && forall i | 0 <= i < |cs| :: r[i] == f(cs[i])
  {
    seq(|cs|, i requires 0 <= i < |cs| => f(cs[i]))
  }

  function StillOpen(cs: seq<C.Channel>): seq<C.Channel> {
    if cs == [] then []
    else
      var last := cs[|cs| - 1];
      StillOpen(cs[..|cs| - 1]) + if last.state == C.Closed then [] else [last]
  }

  /** Ascending positions below `n`. */
  ghost predicate Increasing(from: seq<int>, n: int) {
    && (forall k | 0 <= k < |from| :: 0 <= from[k] < n)
    && (forall j, k | 0 <= j < k < |from| :: from[j] < from[k])
  }

  ghost function Picked(cs: seq<C.Channel>, from: seq<int>): (r: seq<C.Channel>)
    requires Increasing(from, |cs|)
    ensures |r| == |from| && forall k | 0 <= k < |from| :: r[k] == cs[from[k]]
  {
    seq(|from|, k requires 0 <= k < |from| => cs[from[k]])
  }

  lemma PickedOneMore(cs: seq<C.Channel>, from: seq<int>, i: int)
    requires 0 <= i < |cs| && Increasing(from, i)
    ensures Increasing(from + [i], i + 1) && Picked(cs, from + [i]) == Picked(cs, from) + [cs[i]]
  {
  }

  // ---------------------------------------------------------------- the hub's operations on them

  lemma {:induction false} ResidingOfBoth(a: seq<H.Subscription>, b: seq<H.Subscription>)
    ensures Residing(a + b) == Residing(a) + Residing(b)
    decreases |b|
  {
    if b == [] {
      assert a + b == a;
    } else {
      assert (a + b)[..|a + b| - 1] == a + b[..|b| - 1];
      ResidingOfBoth(a, b[..|b| - 1]);
    }
  }

  lemma {:induction false} ResidentsAreCounted(ss: seq<H.Subscription>)
    ensures |Residing(ss)| == H.Residents(ss)
    decreases |ss|
  {
    if ss != [] {
      ResidentsAreCounted(ss[..|ss| - 1]);
    }
  }

  lemma StillOpenOneMore(cs: seq<C.Channel>, c: C.Channel)
    ensures StillOpen(cs + [c]) == StillOpen(cs) + if c.state == C.Closed then [] else [c]
  {
    assert (cs + [c])[..|cs + [c]| - 1] == cs;
  }

  // What the last subscription adds to the residents.
  function LastResiding(s: H.Subscription): seq<C.Channel> {
    if s.resident then [s.session.channel] else []
  }

  lemma ResidingOneMore(ss: seq<H.Subscription>, s: H.Subscription)
    ensures Residing(ss + [s]) == Residing(ss) + LastResiding(s)
  {
    assert (ss + [s])[..|ss + [s]| - 1] == ss;
  }

  lemma StillOpenOfLast(cs: seq<C.Channel>, s: H.Subscription)
    ensures StillOpen(cs + LastResiding(s)) == StillOpen(cs) + LastResiding(H.SweepOne(s))
  {
    if s.resident {
      StillOpenOneMore(cs, s.session.channel);
    } else {
      assert cs + [] == cs && StillOpen(cs) + [] == StillOpen(cs);
    }
  }

  lemma {:induction false} SweptResiding(ss: seq<H.Subscription>, tt: seq<H.Subscription>)
    requires |tt| == |ss| && forall i | 0 <= i < |ss| :: tt[i] == H.SweepOne(ss[i])
    ensures Residing(tt) == StillOpen(Residing(ss))
    decreases |ss|
  {
    if ss != [] {
      var n := |ss| - 1;
      SweptResiding(ss[..n], tt[..n]);
      assert ss == ss[..n] + [ss[n]] && tt == tt[..n] + [tt[n]];
      ResidingOneMore(ss[..n], ss[n]);
      ResidingOneMore(tt[..n], tt[n]);
      StillOpenOfLast(Residing(ss[..n]), ss[n]);
    }
  }

  function Ended(c: C.Channel, n: H.Notice): C.Channel {
    C.Terminalize(c, n.reason, n.action, n.generation, n.time).0
  }

  lemma EndedOfLast(cs: seq<C.Channel>, s: H.Subscription, n: H.Notice)
    ensures Mapped(cs + LastResiding(H.SweepOne(s)), c => Ended(c, n))
         == Mapped(cs, c => Ended(c, n)) + LastResiding(H.TerminateOne(s, n))
  {
  }

  lemma {:induction false} TerminatedResiding(ss: seq<H.Subscription>, tt: seq<H.Subscription>, n: H.Notice)
    requires |tt| == |ss| && forall i | 0 <= i < |ss| :: tt[i] == H.TerminateOne(ss[i], n)
    ensures Residing(tt) == Mapped(StillOpen(Residing(ss)), c => Ended(c, n))
    decreases |ss|
  {
    if ss != [] {
      var k := |ss| - 1;
      TerminatedResiding(ss[..k], tt[..k], n);
      assert ss == ss[..k] + [ss[k]] && tt == tt[..k] + [tt[k]];
      ResidingOneMore(ss[..k], ss[k]);
      ResidingOneMore(tt[..k], tt[k]);
      StillOpenOfLast(Residing(ss[..k]), ss[k]);
      EndedOfLast(StillOpen(Residing(ss[..k])), ss[k], n);
    }
  }

  lemma {:induction false} ClosedResiding(ss: seq<H.Subscription>, tt: seq<H.Subscription>)
    requires |tt| == |ss| && forall i | 0 <= i < |ss| :: tt[i] == H.CloseOne(ss[i])
    ensures Residing(tt) == []
    decreases |ss|
  {
    if ss != [] {
      ClosedResiding(ss[..|ss| - 1], tt[..|ss| - 1]);
    }
  }

  /** One resident replaced. */
  lemma ReplacedResiding(ss: seq<H.Subscription>, i: nat, t: H.Subscription)
    requires i < |ss| && ss[i].resident && t.resident
    ensures var p := |Residing(ss[..i])|;
            && p < |Residing(ss)| && Residing(ss)[p] == ss[i].session.channel
            && Residing(ss[i := t]) == Residing(ss)[p := t.session.channel]
            && |Residing(ss[..i + 1])| == p + 1
  {
    var a, b := ss[..i], ss[i + 1..];
    assert ss == a + ([ss[i]] + b) && ss[i := t] == a + ([t] + b) && ss[..i + 1] == a + [ss[i]];
    ResidingOfBoth(a, [ss[i]] + b);
    ResidingOfBoth([ss[i]], b);
    ResidingOfBoth(a, [t] + b);
    ResidingOfBoth([t], b);
    ResidingOfBoth(a, [ss[i]]);
    assert [ss[i]][..0] == [] && [t][..0] == [];
    assert Residing([ss[i]]) == [ss[i].session.channel] && Residing([t]) == [t.session.channel];
  }

  /** A step of an RPC handler changes its own channel in the vector and no other. */
  lemma WrittenResiding(h: H.Hub, i: nat, cancelled: bool, outcome: C.WriteOutcome)
    requires H.Usable(h) && i < |h.subscriptions| && h.subscriptions[i].resident
    ensures var p := |Residing(h.subscriptions[..i])|;
            && p < |Residing(h.subscriptions)|
            && Residing(H.Write(h, i, cancelled, outcome).subscriptions)
            == Residing(h.subscriptions)[p := C.WriterStep(h.subscriptions[i].session, cancelled, outcome).channel]
  {
    var s := h.subscriptions[i];
    ReplacedResiding(h.subscriptions, i, s.(session := C.WriterStep(s.session, cancelled, outcome)));
  }

  lemma SkippedResiding(ss: seq<H.Subscription>, i: nat)
    requires i < |ss| && !ss[i].resident
    ensures Residing(ss[..i + 1]) == Residing(ss[..i])
  {
    assert ss[..i + 1][..i] == ss[..i];
  }

  lemma {:induction false} ResidingIsDrained(ss: seq<H.Subscription>)
    requires H.AllUsable(ss)
    ensures Drained(Residing(ss))
    decreases |ss|
  {
    if ss != [] {
      ResidingIsDrained(ss[..|ss| - 1]);
    }
  }

  // The subscriber at `i` is handed the update, in the hub and in the vector.
  lemma HandedResiding(ss: seq<H.Subscription>, i: nat, d: Depth, time: nat)
    requires H.AllUsable(ss) && i < |ss| && ss[i].resident
    ensures var p := |Residing(ss[..i])|;
            var next := H.AdmitOne(ss[i], d, time);
            var tt := ss[i := next];
            && p < |Residing(ss)| && Residing(ss)[p] == ss[i].session.channel
            && Residing(tt) == Residing(ss)[p := next.session.channel]
            && |Residing(tt[..i + 1])| == p + 1 && H.AllUsable(tt)
  {
    var next := H.AdmitOne(ss[i], d, time);
    var tt := ss[i := next];
    ReplacedResiding(ss, i, next);
    assert tt[..i] == ss[..i];
    ReplacedResiding(tt, i, next);
    H.AdmitFromStep(ss, i, d, time);
  }

  lemma PrefixResiding(ss: seq<H.Subscription>, i: nat)
    requires i <= |ss|
    ensures |Residing(ss[..i])| <= |Residing(ss)|
  {
    assert ss == ss[..i] + ss[i..];
    ResidingOfBoth(ss[..i], ss[i..]);
  }

  /** The hand-out over the hub is the hand-out over the residents' channels. */
  lemma {:induction false} HandOutRefines(ss: seq<H.Subscription>, i: nat, d: Depth, time: nat)
    requires H.AllUsable(ss) && i <= |ss|
    ensures |Residing(ss[..i])| <= |Residing(ss)| && Drained(Residing(ss))
    ensures var (tt, failed) := H.AdmitFrom(ss, i, d, time);
            AdmitChannels(Residing(ss), |Residing(ss[..i])|, d, time) == (Residing(tt), failed)
    decreases |ss| - i
  {
    ResidingIsDrained(ss);
    PrefixResiding(ss, i);
    if i == |ss| {
      assert ss[..i] == ss;
    } else if !ss[i].resident {
      H.AdmitFromStep(ss, i, d, time);
      SkippedResiding(ss, i);
      HandOutRefines(ss, i + 1, d, time);
    } else {
      H.AdmitFromStep(ss, i, d, time);
      HandedResiding(ss, i, d, time);
      AdmitChannelsStep(Residing(ss), |Residing(ss[..i])|, d, time);
      if !H.Refuses(ss[i], d, time) {
        HandOutRefines(ss[i := H.AdmitOne(ss[i], d, time)], i + 1, d, time);
      }
    }
  }

  // ---------------------------------------------------------------- the owner's vector

  class SubscriberVector {
    var subscribers: seq<C.SubscriberChannel>

    ghost function Rings(): set<array<Option<C.Record>>>
      reads this
    {
      set c | c in subscribers :: c.ring
    }

    /** Valid channels that share nothing. */
    ghost predicate Valid()
      reads this, subscribers, Rings()
    {
      && (forall i | 0 <= i < |subscribers| :: subscribers[i].Valid())
      && (forall i, j | 0 <= i < j < |subscribers| ::
            subscribers[i] != subscribers[j] && subscribers[i].ring != subscribers[j].ring)
    }

    ghost function Channels(): (cs: seq<C.Channel>)
      reads this, subscribers
      ensures |cs| == |subscribers| && forall i | 0 <= i < |cs| :: cs[i] == subscribers[i].Abs()
    {
      seq(|subscribers|, i requires 0 <= i < |subscribers| reads this, subscribers => subscribers[i].Abs())
    }

    constructor ()
      ensures Valid() && subscribers == [] && Channels() == []
    {
      subscribers := [];
    }

    /** A staged channel joins; it is not shared with the others. */
    method Join(channel: C.SubscriberChannel)
      requires Valid() && channel.Valid() && channel !in subscribers && channel.ring !in Rings()
      modifies this
      ensures Valid() && Channels() == old(Channels()) + [channel.Abs()]
    {
      assert forall i | 0 <= i < |subscribers| :: subscribers[i].ring in Rings();
      subscribers := subscribers + [channel];
    }

    method AdmitAt(i: nat, d: Depth, time: nat) returns (result: C.AdmitResult)
      requires Valid() && i < |subscribers| && Drained(Channels())
      modifies subscribers[i], subscribers[i].ring
      ensures Valid()
      ensures var (c, expected) := C.Admit(old(Channels())[i], d.update, d.generation, time);
              Channels() == old(Channels())[i := c] && result == expected
    {
      result := subscribers[i].AdmitUpdate(d.update, d.generation, time);
    }

    /** The hand-out loop with its early exit, over the objects. */
    method HandOut(d: Depth, time: nat) returns (failed: bool)
      requires Valid()
      modifies subscribers, Rings()
      ensures Valid() && subscribers == old(subscribers) && Drained(old(Channels()))
      ensures (Channels(), failed) == AdmitChannels(old(Channels()), 0, d, time)
    {
      ghost var before := Channels();
      var i := 0;
      while i < |subscribers|
        invariant 0 <= i <= |subscribers| && Valid() && Drained(before) && Drained(Channels())
        invariant AdmitChannels(before, 0, d, time) == AdmitChannels(Channels(), i, d, time)
      {
        AdmitChannelsStep(Channels(), i, d, time);
        ghost var cs := Channels();
        var result := AdmitAt(i, d, time);
        if result == C.AllocationFailure {
          assert Channels() == cs;
          return true;
        }
        i := i + 1;
      }
      failed := false;
    }

    /** The loop that ends every active subscriber. */
    method TerminalizeEach(n: H.Notice)
      requires Valid()
      modifies subscribers
      ensures Valid() && subscribers == old(subscribers)
      ensures Channels() == Mapped(old(Channels()), c => Ended(c, n))
    {
      ghost var before := Channels();
      var i := 0;
      while i < |subscribers|
        invariant 0 <= i <= |subscribers| && Valid()
        invariant forall k | 0 <= k < i ::
                    subscribers[k].Abs() == C.Terminalize(before[k], n.reason, n.action, n.generation, n.time).0
        invariant forall k | i <= k < |subscribers| :: subscribers[k].Abs() == before[k]
      {
        var won := subscribers[i].TerminalizeWith(n.reason, n.action, n.generation, n.time);
        i := i + 1;
      }
    }

    /** The loop that closes every subscriber, and clears the vector. */
    method CloseAll()
      requires Valid()
      modifies this, subscribers
      ensures Valid() && subscribers == []
      ensures forall i | 0 <= i < |old(subscribers)| ::
                old(subscribers)[i].Valid() && old(subscribers)[i].Abs() == C.CloseFromOwner(old(Channels())[i])
    {
      ghost var before := Channels();
      var i := 0;
      while i < |subscribers|
        invariant 0 <= i <= |subscribers| && Valid() && subscribers == old(subscribers)
        invariant forall k | 0 <= k < i :: subscribers[k].Abs() == C.CloseFromOwner(before[k])
        invariant forall k | i <= k < |subscribers| :: subscribers[k].Abs() == before[k]
      {
        subscribers[i].OwnerClose();
        i := i + 1;
      }
      subscribers := [];
    }

    /** Drops the closed ones; for the others nothing changes. */
    method SweepClosed()
      requires Valid()
      modifies this
      ensures Valid() && Channels() == StillOpen(old(Channels()))
      ensures (forall i | 0 <= i < |subscribers| :: subscribers[i] in old(subscribers)) && Rings() <= old(Rings())
    {
      ghost var before := Channels();
      var kept: seq<C.SubscriberChannel> := [];
      ghost var from: seq<int> := [];
      var i := 0;
      while i < |subscribers|
        invariant subscribers == old(subscribers) && 0 <= i <= |subscribers| && Increasing(from, i) && |kept| == |from|
        invariant forall k | 0 <= k < |kept| :: kept[k] == subscribers[from[k]]
        invariant StillOpen(before[..i]) == Picked(before, from)
      {
        assert before[..i + 1] == before[..i] + [before[i]];
        StillOpenOneMore(before[..i], before[i]);
        if subscribers[i].state != C.Closed {
          PickedOneMore(before, from, i);
          kept := kept + [subscribers[i]];
          from := from + [i];
        }
        i := i + 1;
      }
      assert before[..i] == before;
      Keep(kept, from);
    }

    // The vector becomes the subscribers at the given positions.
    method Keep(kept: seq<C.SubscriberChannel>, ghost from: seq<int>)
      requires Valid() && Increasing(from, |subscribers|) && |kept| == |from|
      requires forall k | 0 <= k < |kept| :: kept[k] == subscribers[from[k]]
      modifies this
      ensures Valid() && Channels() == Picked(old(Channels()), from)
      ensures (forall i | 0 <= i < |subscribers| :: subscribers[i] in old(subscribers)) && Rings() <= old(Rings())
    {
      subscribers := kept;
    }

    // -------------------------------------------------------------- as the hub does it

    /** The vector holds the residents of `h`. */
    ghost predicate Holds(h: H.Hub)
      reads this, subscribers
    {
      Channels() == Residing(h.subscriptions)
    }

    // After the sweep: the clock, and the hand-out.
    method PublishSwept(ghost swept: seq<H.Subscription>, d: Depth, time: Option<nat>)
      returns (trouble: Option<FaultReason>)
      requires Valid() && Channels() == Residing(swept) && H.AllUsable(swept)
      modifies subscribers, Rings()
      ensures Valid() && subscribers == old(subscribers)
      ensures if H.Residents(swept) == 0 then trouble == None && Channels() == Residing(swept)
              else if time.None? then trouble == Some(ClockError) && Channels() == Residing(swept)
              else var (ss, failed) := H.AdmitFrom(swept, 0, d, time.value);
                   Channels() == Residing(ss) && trouble == if failed then Some(InternalError) else None
    {
      ResidentsAreCounted(swept);
      if |subscribers| == 0 {
        return None;
      }
      if time.None? {
        return Some(ClockError);
      }
      HandOutRefines(swept, 0, d, time.value);
      var failed := HandOut(d, time.value);
      trouble := if failed then Some(InternalError) else None;
    }

    /** publish_applied_update over the objects: sweep, clock and hand-out, with the fault it ran into. */
    method PublishApplied(ghost h: H.Hub, d: Depth, ghost after: nat, time: Option<nat>, shutDown: bool)
      returns (trouble: Option<FaultReason>)
      requires Valid() && Holds(h) && H.Usable(h)
      modifies this, subscribers, Rings()
      ensures Valid() && Holds(H.Publish(h, d, after, time, shutDown).0)
      ensures trouble == H.Publish(h, d, after, time, shutDown).1
    {
      if shutDown {
        return None;
      }
      ghost var swept := H.Sweep(h.(applied := h.applied + [H.AppliedUpdate(d, after)])).subscriptions;
      assert forall k | 0 <= k < |swept| :: swept[k] == H.SweepOne(h.subscriptions[k]);
      SweptResiding(h.subscriptions, swept);
      SweepClosed();
      trouble := PublishSwept(swept, d, time);
    }

    /** terminalize_active_subscribers over the objects. */
    method TerminalizeActive(ghost h: H.Hub, n: H.Notice)
      requires Valid() && Holds(h)
      modifies this, subscribers
      ensures Valid() && Holds(H.Terminate(h, n))
    {
      TerminatedResiding(h.subscriptions, H.Terminate(h, n).subscriptions, n);
      SweepClosed();
      TerminalizeEach(n);
    }

    /** The session that an admission commits joins with its channel object. */
    method Admit(ghost h: H.Hub, ghost s: H.Subscription, channel: C.SubscriberChannel)
      requires Valid() && Holds(h) && channel.Valid() && channel !in subscribers && channel.ring !in Rings()
      requires s.resident && s.session.channel == channel.Abs()
      modifies this
      ensures Valid() && Holds(H.Join(h, s))
    {
      ResidingOneMore(h.subscriptions, s);
      Join(channel);
    }

    /** close_all_subscribers_for_shutdown over the objects. */
    method CloseForShutdown(ghost h: H.Hub)
      requires Valid() && Holds(h)
      modifies this, subscribers
      ensures Valid() && Holds(H.CloseAll(h))
    {
      ClosedResiding(h.subscriptions, H.CloseAll(h).subscriptions);
      CloseAll();
    }
  }
}
