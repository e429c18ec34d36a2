/**
 The broadcast channel of `src/broadcast.rs` as an object: the shared block with
 its reference counts, and the loops over the slab. Every method takes exactly one
 step of `BroadcastModel`.
 */
module Broadcasts {
  import opened Common
  import opened Sums
  import opened Wakeups
  import opened BroadcastModel
  import opened BroadcastRuns

  datatype Delivered = All(count: nat) | UnderCapacity(count: nat)

  ghost function StateOf<T>(slot: Option<Rx<T>>): Option<ReceiverState<T>> {
    if slot.Some? then Some(slot.value.state) else None
  }

  ghost function States<T>(slots: seq<Option<Rx<T>>>): (r: seq<Option<ReceiverState<T>>>)
    ensures |r| == |slots|
  {
    seq(|slots|, i requires 0 <= i < |slots| => StateOf(slots[i]))
  }

  predicate HasRoom<T>(slot: Option<Rx<T>>) {
    slot.Some? && !slot.value.state.AtCapacity()
  }

  predicate Carries<T>(slot: Option<Rx<T>>, id: nat) {
    slot.Some? && slot.value.state.id == id
  }

  function WithRoom<T>(slots: seq<Option<Rx<T>>>): (r: seq<nat>)
    ensures |r| == |slots|
  {
    seq(|slots|, i requires 0 <= i < |slots| => if HasRoom(slots[i]) then 1 else 0)
  }

  function WithStamp<T>(slots: seq<Option<Rx<T>>>, id: nat): (r: seq<nat>)
    ensures |r| == |slots|
  {
    seq(|slots|, i requires 0 <= i < |slots| => if Carries(slots[i], id) then 1 else 0)
  }

  /** The number of subscribers with room. */
  function Roomy<T>(slots: seq<Option<Rx<T>>>): nat {
    Total(WithRoom(slots))
  }

  /** The number of subscribers that carry the stamp `id`. */
  function Stamped<T>(slots: seq<Option<Rx<T>>>, id: nat): nat {
    Total(WithStamp(slots, id))
  }

  ghost predicate AllHaveRoom<T>(slots: seq<Option<Rx<T>>>) {
    forall i :: 0 <= i < |slots| && slots[i].Some? ==> HasRoom(slots[i])
  }

  lemma AllRoomy<T>(slots: seq<Option<Rx<T>>>)
    ensures Roomy(slots) <= Live(slots)
    ensures Roomy(slots) == Live(slots) <==> AllHaveRoom(slots)
  {
    TotalBelow(WithRoom(slots), Occupancy(slots));
    forall i | 0 <= i < |slots|
      ensures WithRoom(slots)[i] == Occupancy(slots)[i] <==> (slots[i].Some? ==> HasRoom(slots[i]))
    {
    }
  }

  lemma AllStamped<T>(slots: seq<Option<Rx<T>>>, id: nat)
    ensures Stamped(slots, id) <= Live(slots)
    ensures Stamped(slots, id) == Live(slots) <==> AllCarry(slots, id)
  {
    TotalBelow(WithStamp(slots, id), Occupancy(slots));
    forall i | 0 <= i < |slots|
      ensures WithStamp(slots, id)[i] == Occupancy(slots)[i] <==> (slots[i].Some? ==> slots[i].value.state.id == id)
    {
    }
  }

  lemma NobodyToServe<T>(slots: seq<Option<Rx<T>>>, value: T, n: nat)
    requires Live(slots) == 0
    ensures OfferAll(slots, None, value, n) == slots && Flatten(RoundWakers(slots, slots)) == []
  {
    LiveNone(slots);
    NoWakers(RoundWakers(slots, slots));
  }

  lemma RoomyBumped<T>(slots: seq<Option<Rx<T>>>)
    ensures Roomy(BumpAll(slots)) == Roomy(slots)
    ensures AllHaveRoom(BumpAll(slots)) <==> AllHaveRoom(slots)
  {
    forall i | 0 <= i < |slots| ensures HasRoom(BumpAll(slots)[i]) <==> HasRoom(slots[i]) {
    }
    assert WithRoom(BumpAll(slots)) == WithRoom(slots);
  }

  // One more slot of a loop over the slab.

  /** A slab of which the first `i` slots have been dealt with. */
  ghost function Partly<T>(slots: seq<Option<Rx<T>>>, slots': seq<Option<Rx<T>>>, i: nat): seq<Option<ReceiverState<T>>>
    requires i <= |slots| == |slots'|
  {
    States(slots'[..i] + slots[i..])
  }

  lemma PartlyNext<T>(slots: seq<Option<Rx<T>>>, slots': seq<Option<Rx<T>>>, i: nat)
    requires i < |slots| == |slots'|
    ensures |Partly(slots, slots', i)| == |slots| && Partly(slots, slots', i)[i] == StateOf(slots[i])
    ensures Partly(slots, slots', i)[i := StateOf(slots'[i])] == Partly(slots, slots', i + 1)
  {
  }

  lemma PartlyEnds<T>(slots: seq<Option<Rx<T>>>, slots': seq<Option<Rx<T>>>)
    requires |slots| == |slots'|
    ensures Partly(slots, slots', 0) == States(slots) && Partly(slots, slots', |slots|) == States(slots')
  {
    assert slots'[..0] + slots[0..] == slots;
    assert slots'[..|slots|] + slots[|slots|..] == slots';
  }

  lemma StatesUpdate<T>(slots: seq<Option<Rx<T>>>, i: nat, rx: Rx<T>)
    requires i < |slots|
    ensures States(slots[i := Some(rx)]) == States(slots)[i := Some(rx.state)]
  {
  }

  // What a round does to the slab, in terms of the receivers alone.

  predicate HasPlace<T>(r: ReceiverState<T>) {
    r.unbounded || |r.buf| < r.room
  }

  /** A receiver after a round of `try_send`: it has the value if it had a place for it. */
  function Given<T>(receiver: Option<ReceiverState<T>>, value: T): Option<ReceiverState<T>> {
    if receiver.Some? && HasPlace(receiver.value)
    then Some(receiver.value.(buf := receiver.value.buf + [value])) else receiver
  }

  /** A receiver after a round of `send`: it has the value if it had a place for it
      and did not carry the stamp, which it carries then. */
  function GivenOnce<T>(receiver: Option<ReceiverState<T>>, id: nat, value: T): Option<ReceiverState<T>> {
    if receiver.Some? && receiver.value.id != id && HasPlace(receiver.value)
    then Some(receiver.value.(buf := receiver.value.buf + [value], id := id)) else receiver
  }

  /** A receiver after the sender has taken its waker. */
  function Silenced<T>(receiver: Option<ReceiverState<T>>): Option<ReceiverState<T>> {
    if receiver.Some? then Some(receiver.value.(waker := None)) else None
  }

  /** The receivers that were given something. */
  ghost function Served<T>(before: seq<Option<ReceiverState<T>>>, after: seq<Option<ReceiverState<T>>>): set<nat> {
    set k: nat | k < |before| && k < |after| && before[k] != after[k]
  }

  ghost function Everybody<T>(receivers: seq<Option<ReceiverState<T>>>): set<nat> {
    set k: nat | k < |receivers| && receivers[k].Some?
  }

  /** The task is the one that a receiver in this set is registered with. */
  ghost predicate Registered<T>(receivers: seq<Option<ReceiverState<T>>>, ks: set<nat>, t: TaskId) {
    exists k :: k in ks && k < |receivers| && receivers[k].Some? && receivers[k].value.waker == Some(t)
  }

  lemma RoundWakes<T>(slots: seq<Option<Rx<T>>>, id: Option<nat>, value: T, n: nat, t: TaskId)
    ensures var offered := OfferAll(slots, id, value, n);
            t in Flatten(RoundWakers(slots, offered))
            <==> Registered(States(slots), Served(States(slots), States(offered)), t)
  {
    var offered := OfferAll(slots, id, value, n);
    var before, after, rounds := States(slots), States(offered), RoundWakers(slots, offered);
    forall k: nat | k < |slots| ensures before[k] != after[k] <==>
        slots[k].Some? && |offered[k].value.got| > |slots[k].value.got| {
      OfferShows(slots[k], id, value, n);
    }
    FlattenIff(rounds, t);
    if i :| 0 <= i < |rounds| && t in rounds[i] {
      assert i in Served(before, after) && before[i].value.waker == Some(t);
    }
    if Registered(before, Served(before, after), t) {
      var k: nat :| k in Served(before, after) && k < |before| && before[k].Some? && before[k].value.waker == Some(t);
      assert t in rounds[k];
    }
  }

  lemma OfferShows<T>(slot: Option<Rx<T>>, id: Option<nat>, value: T, n: nat)
    ensures var offered := OfferSlot(slot, id, value, n);
            StateOf(slot) != StateOf(offered) <==> slot.Some? && |offered.value.got| > |slot.value.got|
  {
    if slot.Some? && OfferSlot(slot, id, value, n) != slot {
      assert |slot.value.state.buf + [value]| > |slot.value.state.buf|;
    }
  }

  /** `Served` counts those with room. */
  lemma RoomyCounts<T>(slots: seq<Option<Rx<T>>>, value: T, n: nat)
    ensures var served := Served(States(slots), States(OfferAll(slots, None, value, n)));
            && Roomy(slots) == |served|
            && (AllHaveRoom(slots) <==> forall k: nat :: k < |slots| && slots[k].Some? ==> k in served)
  {
    var offered := OfferAll(slots, None, value, n);
    var served := Served(States(slots), States(offered));
    forall k: nat ensures k in served <==> k < |slots| && WithRoom(slots)[k] == 1 {
      if k < |slots| {
        OfferShows(slots[k], None, value, n);
      }
    }
    TotalIsCount(WithRoom(slots), served);
  }

  /** A round of `try_send`, seen from the receivers. */
  lemma TryRoundShows<T>(slots: seq<Option<Rx<T>>>, value: T, n: nat)
    requires forall k :: 0 <= k < |slots| && slots[k].Some? ==> Bounded(slots[k].value)
    ensures var before, after := States(slots), States(OfferAll(slots, None, value, n));
            && (forall k :: 0 <= k < |before| ==> after[k] == Given(before[k], value))
            && Roomy(slots) == |Served(before, after)|
            && (AllHaveRoom(slots)
                <==> forall k: nat :: k < |before| && before[k].Some? ==> k in Served(before, after))
            && forall t :: t in Flatten(RoundWakers(slots, OfferAll(slots, None, value, n)))
                           <==> Registered(before, Served(before, after), t)
  {
    RoomyCounts(slots, value, n);
    var before, after := States(slots), States(OfferAll(slots, None, value, n));
    forall t ensures t in Flatten(RoundWakers(slots, OfferAll(slots, None, value, n)))
                     <==> Registered(before, Served(before, after), t) {
      RoundWakes(slots, None, value, n, t);
    }
  }

  /** The block after `try_send` and its answer. */
  lemma TrySendShows<T>(s: Chan<T>, value: T)
    requires Inv(s) && s.active.Idle?
    ensures var before, s' := States(s.slots), TrySendStep(s, value);
            var after := States(s'.slots);
            && |after| == |before|
            && (forall k :: 0 <= k < |before| ==> after[k] == Given(before[k], value))
            && Roomy(s.slots) == |Served(before, after)|
            && (AllHaveRoom(s.slots)
                <==> forall k: nat :: k < |before| && before[k].Some? ==> k in Served(before, after))
            && s.wakes <= s'.wakes
            && forall t :: t in s'.wakes[|s.wakes|..] <==> Registered(before, Served(before, after), t)
  {
    var slots, n, s' := BumpAll(s.slots), |s.sent|, TrySendStep(s, value);
    forall k | 0 <= k < |slots| && slots[k].Some? ensures Bounded(slots[k].value) {
      assert SlotOk(s, k);
    }
    assert States(slots) == States(s.slots);
    LiveSame(s.slots, slots);
    RoomyBumped(s.slots);
    TryRoundShows(slots, value, n);
    if s.weak == 0 {
      NobodyToServe(slots, value, n);
    }
    assert s'.slots == OfferAll(slots, None, value, n);
    assert s'.wakes[|s.wakes|..] == Flatten(RoundWakers(slots, s'.slots));
  }

  /** The block after a poll of `send`. */
  lemma SendShows<T>(s: Chan<T>, task: TaskId)
    requires Inv(s) && s.active.Sending?
    ensures var before, s' := States(s.slots), SendStep(s, task);
            var after := States(s'.slots);
            && |after| == |before|
            && (forall k :: 0 <= k < |before| ==> after[k] == GivenOnce(before[k], s.id, s.active.value))
            && s.wakes <= s'.wakes
            && forall t :: t in s'.wakes[|s.wakes|..] <==> Registered(before, Served(before, after), t)
  {
    var slots, v, n, s' := s.slots, s.active.value, s.active.n, SendStep(s, task);
    var offered := OfferAll(slots, Some(s.id), v, n);
    if s.weak == 0 {
      LiveNone(slots);
      NoWakers(RoundWakers(slots, slots));
    }
    assert s'.slots == offered && s'.wakes[|s.wakes|..] == Flatten(RoundWakers(slots, offered));
    forall t
      ensures t in s'.wakes[|s.wakes|..] <==> Registered(States(slots), Served(States(slots), States(offered)), t)
    {
      RoundWakes(slots, Some(s.id), v, n, t);
    }
    forall k | 0 <= k < |slots| ensures States(offered)[k] == GivenOnce(States(slots)[k], s.id, v) {
      assert SlotOk(s, k);
    }
  }

  /** Its answer: it is ready exactly if all receivers carry the stamp afterwards. */
  lemma SendEnds<T>(s: Chan<T>, task: TaskId)
    requires Inv(s) && s.active.Sending?
    ensures var s' := SendStep(s, task);
            var after := States(s'.slots);
            && (s'.active.Idle? <==> forall k :: 0 <= k < |after| && after[k].Some? ==> after[k].value.id == s.id)
            && s'.sender == (if s.handles == {} then s.sender else Some(task))
  {
    var s' := SendStep(s, task);
    var after := States(s'.slots);
    if s.weak == 0 {
      LiveNone(s.slots);
    } else {
      assert s.handles != {} && s'.id == s.id;
      assert AllCarry(s'.slots, s.id)
        <==> forall k :: 0 <= k < |after| && after[k].Some? ==> after[k].value.id == s.id by {
        forall k | 0 <= k < |after| ensures after[k] == StateOf(s'.slots[k]) {
        }
      }
    }
  }

  /** The block after `Sender::drop`. */
  lemma DropSenderShows<T>(s: Chan<T>)
    ensures var before, s' := States(s.slots), DropSenderStep(s);
            var after := States(s'.slots);
            && |after| == |before|
            && (forall k :: 0 <= k < |before| ==> after[k] == Silenced(before[k]))
            && s.wakes <= s'.wakes
            && forall t :: t in s'.wakes[|s.wakes|..] <==> Registered(before, Everybody(before), t)
  {
    var before, rounds, s' := States(s.slots), Wakers(s.slots), DropSenderStep(s);
    assert s'.wakes[|s.wakes|..] == Flatten(rounds);
    forall t ensures t in Flatten(rounds) <==> Registered(before, Everybody(before), t) {
      FlattenIff(rounds, t);
      if i :| 0 <= i < |rounds| && t in rounds[i] {
        assert before[i].value.waker == Some(t);
      }
      if k: nat :| k < |before| && before[k].Some? && before[k].value.waker == Some(t) {
        assert t in rounds[k];
      }
    }
  }

  class Shared<T> {
    var id: nat
    var sender: Option<TaskId>
    var receivers: seq<Option<ReceiverState<T>>>
    const capacity: Option<nat>
    var strong: int
    var weak: int

    /** The tasks woken so far, in order. */
    ghost var wakes: seq<TaskId>
    ghost var model: Chan<T>
    ghost var states: seq<Chan<T>>
    ghost var actions: seq<Action<T>>

    /** The fields of the block are as `s` has them. */
    ghost predicate Shows(s: Chan<T>)
      reads this`id, this`sender, this`receivers, this`strong, this`weak, this`wakes
    {
      && s.id == id && s.sender == sender && s.capacity == capacity
      && s.strong == strong && s.weak == weak && s.wakes == wakes
      && receivers == States(s.slots)
    }

    /** The steps that were taken so far are a run of the state machine. */
    ghost predicate Recorded()
      reads this`model, this`states, this`actions
    {
      IsRun(states, actions) && states[|actions|] == model
    }

    ghost predicate Valid()
      reads this
    {
      Shows(model) && Recorded()
    }

    lemma Sound()
      requires Recorded()
      ensures Inv(model)
    {
      InvAlways(states, actions, |actions|);
    }

    lemma Tallied()
      requires Recorded()
      ensures model.weak == |model.handles| == Live(model.slots)
    {
      Sound();
    }

    /** Exactly this step was taken. */
    twostate predicate Took(new a: Action<T>)
      reads this`model, this`states, this`actions
    {
      && Enabled(old(model), a) && model == Step(old(model), a)
      && states == old(states) + [model] && actions == old(actions) + [a]
    }

    ghost method Take(a: Action<T>)
      requires Recorded() && Enabled(model, a)
      modifies this`model, this`states, this`actions
      ensures Recorded() && Took(a)
    {
      states, actions := ExtendRun(states, actions, a);
      model := Step(model, a);
    }

    /** `channel`, or `unbounded` when there is no capacity; a capacity of 0 panics. */
    constructor (capacity: Option<nat>)
      requires capacity.Some? ==> capacity.value > 0
      ensures Valid() && states == [New(capacity)] && actions == [] && this.capacity == capacity
      ensures id == 0 && sender == None && receivers == [] && strong == 1 && weak == 0
    {
      id, sender, receivers, strong, weak := 0, None, [], 1, 0;
      this.capacity := capacity;
      wakes := [];
      model, states, actions := New(capacity), [New(capacity)], [];
      new;
    }

    method Wake(waker: Option<TaskId>)
      modifies this`wakes
      ensures wakes == WakeOpt(old(wakes), waker)
    {
      if waker.Some? {
        wakes := wakes + [waker.value];
      }
    }

    method Subscribers() returns (count: nat)
      requires Valid()
      ensures count == |model.handles|
    {
      Tallied();
      LiveSame(model.slots, receivers);
      count := Live(receivers);
    }

    /** `subscribe`; `index` is the key that the slab picks among its vacant ones
        and `room` the capacity that the allocator grants. */
    method Subscribe(index: nat, room: nat)
      requires Valid() && Enabled(model, BroadcastModel.Subscribe(index, room))
      modifies this
      ensures Valid() && Took(BroadcastModel.Subscribe(index, room))
      ensures |receivers| == if index < |old(receivers)| then |old(receivers)| else |old(receivers)| + 1
      ensures index < |receivers| && receivers[index] == Some(ReceiverState(id, None, [], capacity.None?, room))
      ensures forall k :: 0 <= k < |old(receivers)| && k != index ==> receivers[k] == old(receivers)[k]
      ensures weak == old(weak) + 1 && model.handles == old(model).handles + {index}
      ensures unchanged(`id, `sender, `strong, `wakes)
    {
      Sound();
      var receiver := ReceiverState(id, None, [], capacity.None?, room);
      if index < |receivers| {
        receivers := receivers[index := Some(receiver)];
      } else {
        receivers := receivers + [Some(receiver)];
      }
      weak := weak + 1;
      Take(BroadcastModel.Subscribe(index, room));
    }

    method BumpMessageId()
      modifies this`id
      ensures id == Bump(old(id))
    {
      id := (id + 1) % (WORD_MAX + 1);
      if id == 0 {
        id := 1;
      }
    }

    /** The loop of `try_send`. */
    method TryRound(value: T, ghost slots: seq<Option<Rx<T>>>, ghost n: nat) returns (delivered: nat)
      requires receivers == States(slots)
      modifies this`receivers, this`wakes
      ensures receivers == States(OfferAll(slots, None, value, n))
      ensures delivered == Roomy(slots)
      ensures wakes == old(wakes) + Flatten(RoundWakers(slots, OfferAll(slots, None, value, n)))
    {
      delivered := 0;
      ghost var offered := OfferAll(slots, None, value, n);
      ghost var wakers := RoundWakers(slots, offered);
      PartlyEnds(slots, offered);
      for i := 0 to |receivers|
        invariant receivers == Partly(slots, offered, i)
        invariant delivered == Total(WithRoom(slots)[..i])
        invariant wakes == old(wakes) + Flatten(wakers[..i])
      {
        PartlyNext(slots, offered, i);
        FlattenNext(old(wakes), wakers, i);
        TotalNext(WithRoom(slots), i);
        var accepted := TryOfferTo(i, value, slots[i], n);
        delivered := delivered + if accepted then 1 else 0;
      }
      assert wakers[..|slots|] == wakers && WithRoom(slots)[..|slots|] == WithRoom(slots);
    }

    method TryOfferTo(i: nat, value: T, ghost slot: Option<Rx<T>>, ghost n: nat) returns (accepted: bool)
      requires i < |receivers| && receivers[i] == StateOf(slot)
      modifies this`receivers, this`wakes
      ensures receivers == old(receivers)[i := StateOf(OfferSlot(slot, None, value, n))]
      ensures accepted == HasRoom(slot)
      ensures wakes == old(wakes) + WokenBy(slot, OfferSlot(slot, None, value, n))
    {
      accepted := false;
      match receivers[i] {
        case None =>
        case Some(receiver) =>
          if !receiver.AtCapacity() {
            accepted := true;
            receivers := receivers[i := Some(receiver.(buf := receiver.buf + [value]))];
            Wake(receiver.waker);
          }
      }
    }

    method TrySend(value: T) returns (result: Delivered)
      requires Valid() && Enabled(model, BroadcastModel.TrySend(value))
      modifies this
      ensures Valid() && Took(BroadcastModel.TrySend(value))
      ensures result.count == Roomy(old(model).slots)
      ensures result.All? <==> AllHaveRoom(old(model).slots)
      ensures result.All? ==> result.count == |model.handles|
      ensures |receivers| == |old(receivers)|
      ensures forall k :: 0 <= k < |receivers| ==> receivers[k] == Given(old(receivers)[k], value)
      ensures result.count == |Served(old(receivers), receivers)|
      ensures result.All?
         <==> forall k: nat :: k < |receivers| && receivers[k].Some? ==> k in Served(old(receivers), receivers)
      ensures old(wakes) <= wakes
      ensures forall t ::
                t in wakes[|old(wakes)|..] <==> Registered(old(receivers), Served(old(receivers), receivers), t)
      ensures id == Bump(old(id)) && unchanged(`sender, `strong, `weak)
    {
      Tallied();
      Sound();
      TrySendShows(model, value);
      result := TryServe(value, model);
      Take(BroadcastModel.TrySend(value));
    }

    method TryServe(value: T, ghost s: Chan<T>) returns (result: Delivered)
      requires Shows(s) && s.weak == Live(s.slots)
      modifies this`id, this`receivers, this`wakes
      ensures Shows(TrySendStep(s, value))
      ensures result.count == Roomy(s.slots)
      ensures result.All? <==> AllHaveRoom(s.slots)
      ensures result.All? ==> result.count == s.weak
    {
      ghost var slots, n := BumpAll(s.slots), |s.sent|;
      RoomyBumped(s.slots);
      LiveSame(s.slots, slots);
      BumpMessageId();
      assert receivers == States(slots);
      if weak == 0 {
        NobodyToServe(slots, value, n);
      }
      result := TryDeliver(value, slots, n);
    }

    /** The part of `try_send` after the bump of the message id. */
    method TryDeliver(value: T, ghost slots: seq<Option<Rx<T>>>, ghost n: nat) returns (result: Delivered)
      requires receivers == States(slots) && weak == Live(slots)
      modifies this`receivers, this`wakes
      ensures receivers == States(OfferAll(slots, None, value, n))
      ensures wakes == old(wakes) + Flatten(RoundWakers(slots, OfferAll(slots, None, value, n)))
      ensures result.count == Roomy(slots)
      ensures result.All? <==> AllHaveRoom(slots)
      ensures result.All? ==> result.count == Live(slots)
    {
      AllRoomy(slots);
      if weak == 0 {
        NobodyToServe(slots, value, n);
        return All(0);
      }
      var delivered := TryRound(value, slots, n);
      LiveSame(receivers, slots);
      result := if delivered == Live(receivers) then All(delivered) else UnderCapacity(delivered);
    }

    /** `send` up to the creation of its future. */
    method StartSend(value: T)
      requires Valid() && Enabled(model, BroadcastModel.StartSend(value))
      modifies this
      ensures Valid() && Took(BroadcastModel.StartSend(value))
      ensures model.active == Sending(|old(model).sent|, value, None)
      ensures id == Bump(old(id)) && unchanged(`sender, `receivers, `strong, `weak, `wakes)
    {
      BumpMessageId();
      assert States(BumpAll(model.slots)) == States(model.slots);
      Take(BroadcastModel.StartSend(value));
    }

    /** The loop of `Send::poll`. */
    method SendRound(value: T, ghost slots: seq<Option<Rx<T>>>, ghost n: nat) returns (delivered: nat)
      requires receivers == States(slots)
      modifies this`receivers, this`wakes
      ensures receivers == States(OfferAll(slots, Some(id), value, n))
      ensures delivered == Stamped(OfferAll(slots, Some(id), value, n), id)
      ensures wakes == old(wakes) + Flatten(RoundWakers(slots, OfferAll(slots, Some(id), value, n)))
    {
      delivered := 0;
      ghost var stamp := id;
      ghost var offered := OfferAll(slots, Some(stamp), value, n);
      ghost var wakers := RoundWakers(slots, offered);
      PartlyEnds(slots, offered);
      for i := 0 to |receivers|
        invariant id == stamp
        invariant receivers == Partly(slots, offered, i)
        invariant delivered == Total(WithStamp(offered, stamp)[..i])
        invariant wakes == old(wakes) + Flatten(wakers[..i])
      {
        PartlyNext(slots, offered, i);
        FlattenNext(old(wakes), wakers, i);
        TotalNext(WithStamp(offered, stamp), i);
        var holds := OfferTo(i, value, slots[i], n);
        assert OfferSlot(slots[i], Some(stamp), value, n) == offered[i];
        delivered := delivered + if holds then 1 else 0;
      }
      assert wakers[..|slots|] == wakers && WithStamp(offered, stamp)[..|slots|] == WithStamp(offered, stamp);
    }

    lemma Tally(slots: seq<Option<Rx<T>>>, offered: seq<Option<Rx<T>>>, stamp: nat)
      requires |slots| == |offered|
      requires forall i :: 0 <= i < |slots| ==> (slots[i].Some? <==> offered[i].Some?)
      ensures Live(States(offered)) == Live(slots)
      ensures Stamped(offered, stamp) == Live(slots) <==> AllCarry(offered, stamp)
    {
      LiveSame(States(offered), offered);
      LiveSame(offered, slots);
      AllStamped(offered, stamp);
    }

    method OfferTo(i: nat, value: T, ghost slot: Option<Rx<T>>, ghost n: nat) returns (holds: bool)
      requires i < |receivers| && receivers[i] == StateOf(slot)
      modifies this`receivers, this`wakes
      ensures receivers == old(receivers)[i := StateOf(OfferSlot(slot, Some(id), value, n))]
      ensures holds == Carries(OfferSlot(slot, Some(id), value, n), id)
      ensures wakes == old(wakes) + WokenBy(slot, OfferSlot(slot, Some(id), value, n))
    {
      holds := false;
      match receivers[i] {
        case None =>
        case Some(receiver) =>
          if receiver.id == id {
            holds := true;
          } else if !receiver.AtCapacity() {
            receivers := receivers[i := Some(receiver.(buf := receiver.buf + [value], id := id))];
            Wake(receiver.waker);
            holds := true;
          }
      }
    }

    /** `Send::poll`: ready with the number of subscribers, all of which have the message. */
    method PollSend(value: T, task: TaskId) returns (ready: Option<nat>)
      requires Valid() && Enabled(model, BroadcastModel.PollSend(task))
      requires model.active.value == value
      modifies this
      ensures Valid() && Took(BroadcastModel.PollSend(task))
      ensures ready.Some? <==> model.active.Idle?
      ensures ready.Some? ==> ready.value == |model.handles|
      ensures |receivers| == |old(receivers)|
      ensures forall k :: 0 <= k < |receivers| ==> receivers[k] == GivenOnce(old(receivers)[k], id, value)
      ensures ready.Some? <==> forall k :: 0 <= k < |receivers| && receivers[k].Some? ==> receivers[k].value.id == id
      ensures sender == if model.handles == {} then old(sender) else Some(task)
      ensures old(wakes) <= wakes
      ensures forall t ::
                t in wakes[|old(wakes)|..] <==> Registered(old(receivers), Served(old(receivers), receivers), t)
      ensures unchanged(`id, `strong, `weak)
    {
      Tallied();
      Sound();
      SendShows(model, task);
      SendEnds(model, task);
      ready := Serve(value, task, model);
      Take(BroadcastModel.PollSend(task));
    }

    method Serve(value: T, task: TaskId, ghost s: Chan<T>) returns (ready: Option<nat>)
      requires Shows(s) && s.weak == Live(s.slots) && s.active.Sending? && s.active.value == value
      modifies this`sender, this`receivers, this`wakes
      ensures Shows(SendStep(s, task))
      ensures ready == if SendStep(s, task).active.Idle? then Some(s.weak) else None
    {
      if weak == 0 {
        return Some(0);
      }
      if sender != Some(task) {
        sender := Some(task);
      }
      ready := Deliver(value, s.slots, s.active.n);
    }

    method Deliver(value: T, ghost slots: seq<Option<Rx<T>>>, ghost n: nat) returns (ready: Option<nat>)
      requires receivers == States(slots)
      modifies this`receivers, this`wakes
      ensures receivers == States(OfferAll(slots, Some(id), value, n))
      ensures wakes == old(wakes) + Flatten(RoundWakers(slots, OfferAll(slots, Some(id), value, n)))
      ensures ready == if AllCarry(OfferAll(slots, Some(id), value, n), id) then Some(Live(slots)) else None
    {
      var delivered := SendRound(value, slots, n);
      Tally(slots, OfferAll(slots, Some(id), value, n), id);
      ready := if delivered == Live(receivers) then Some(delivered) else None;
    }

    /** Dropping a `send` future before it completed. */
    ghost method CancelSend()
      requires Valid() && Enabled(model, Action<T>.CancelSend)
      modifies this`model, this`states, this`actions
      ensures Valid() && Took(BroadcastModel.CancelSend)
      ensures model.active.Idle?
    {
      Take(BroadcastModel.CancelSend);
    }

    /** Dropping a `recv` future before it completed. */
    ghost method CancelRecv(index: nat)
      requires Valid() && Enabled(model, Action<T>.CancelRecv(index))
      modifies this`model, this`states, this`actions
      ensures Valid() && Took(BroadcastModel.CancelRecv(index))
    {
      Take(BroadcastModel.CancelRecv(index));
      assert States(model.slots) == States(old(model).slots);
    }

    /** `Recv::poll` on the receiver with slab key `index`. */
    method PollRecv(index: nat, task: TaskId) returns (result: Recv<T>)
      requires Valid() && Enabled(model, Action<T>.PollRecv(index, task))
      modifies this
      ensures Valid() && Took(BroadcastModel.PollRecv(index, task))
      ensures result == RecvResult(old(model), index)
      ensures Occupied(old(model), index) && Occupied(model, index) && index < |receivers| == |old(receivers)|
      ensures old(receivers)[index].Some? && receivers[index].Some?
      ensures result.Value? ==>
                && old(receivers)[index].value.buf == [result.value] + receivers[index].value.buf
                && model.slots[index].value.received == old(model).slots[index].value.received + [result.value]
      ensures !result.Value? ==>
                && old(receivers)[index].value.buf == receivers[index].value.buf == []
                && model.slots[index].value.received == old(model).slots[index].value.received
      ensures result.Closed? <==> old(receivers)[index].value.buf == [] && strong == 0
      ensures receivers[index].value.waker
           == match result
              case Value(_) => old(receivers)[index].value.waker
              case Closed => None
              case Pending => Some(task)
      ensures forall k :: 0 <= k < |receivers| && k != index ==> receivers[k] == old(receivers)[k]
      ensures wakes == if result.Closed? then old(wakes) else WakeOpt(old(wakes), sender)
      ensures unchanged(`id, `sender, `strong, `weak)
    {
      Sound();
      assert SlotOk(model, index);
      RecvExact(model, index, task);
      result := Receive(index, task, model);
      Take(BroadcastModel.PollRecv(index, task));
    }

    method Receive(index: nat, task: TaskId, ghost s: Chan<T>) returns (result: Recv<T>)
      requires Shows(s) && Occupied(s, index)
      modifies this`receivers, this`wakes
      ensures Shows(RecvStep(s, index, task))
      ensures result == RecvResult(s, index)
      ensures index < |receivers| == |old(receivers)| && old(receivers)[index].Some? && receivers[index].Some?
      ensures result.Value? ==> old(receivers)[index].value.buf == [result.value] + receivers[index].value.buf
      ensures !result.Value? ==> old(receivers)[index].value.buf == receivers[index].value.buf == []
      ensures result.Closed? <==> old(receivers)[index].value.buf == [] && strong == 0
      ensures receivers[index].value.waker
           == match result
              case Value(_) => old(receivers)[index].value.waker
              case Closed => None
              case Pending => Some(task)
      ensures forall k :: 0 <= k < |receivers| && k != index ==> receivers[k] == old(receivers)[k]
      ensures wakes == if result.Closed? then old(wakes) else WakeOpt(old(wakes), sender)
    {
      ghost var after := RecvStep(s, index, task);
      StatesUpdate(s.slots, index, after.slots[index].value);
      match receivers[index] {
        case None =>
          result := Closed;
        case Some(receiver) =>
          if receiver.buf != [] {
            receivers := receivers[index := Some(receiver.(buf := receiver.buf[1..]))];
            Wake(sender);
            result := Value(receiver.buf[0]);
          } else if strong == 0 {
            receivers := receivers[index := Some(receiver.(waker := None))];
            result := Closed;
          } else {
            if receiver.waker != Some(task) {
              receivers := receivers[index := Some(receiver.(waker := Some(task)))];
            }
            Wake(sender);
            result := Pending;
          }
      }
    }

    /** `Receiver::drop`, then the drop of its weak reference. Returns whether the block was freed. */
    method DropReceiver(index: nat) returns (freed: bool)
      requires Valid() && Enabled(model, Action<T>.DropReceiver(index))
      modifies this
      ensures Valid() && Took(BroadcastModel.DropReceiver(index))
      ensures model.frees == old(model).frees + if freed then 1 else 0
      ensures index < |old(receivers)| && receivers == old(receivers)[index := None]
      ensures sender == None && wakes == WakeOpt(old(wakes), old(sender))
      ensures weak == old(weak) - 1 && model.handles == old(model).handles - {index}
      ensures freed <==> weak == 0 && strong == 0
      ensures unchanged(`id, `strong)
    {
      Sound();
      assert SlotOk(model, index);
      freed := Vacate(index, model);
      Take(BroadcastModel.DropReceiver(index));
    }

    method Vacate(index: nat, ghost s: Chan<T>) returns (freed: bool)
      requires Shows(s) && Occupied(s, index)
      modifies this`sender, this`receivers, this`weak, this`wakes
      ensures Shows(DropReceiverStep(s, index))
      ensures freed == (s.strong + s.weak == 1)
    {
      assert States(s.slots[index := None]) == States(s.slots)[index := None];
      receivers := receivers[index := None];
      Wake(sender);
      sender := None;
      weak := weak - 1;
      freed := weak + strong == 0;
    }

    /** `Sender::drop`, then the drop of its strong reference. Returns whether the block was freed. */
    method DropSender() returns (freed: bool)
      requires Valid() && Enabled(model, Action<T>.DropSender)
      modifies this
      ensures Valid() && Took(BroadcastModel.DropSender)
      ensures model.frees == old(model).frees + if freed then 1 else 0
      ensures |receivers| == |old(receivers)|
      ensures forall k :: 0 <= k < |receivers| ==> receivers[k] == Silenced(old(receivers)[k])
      ensures old(wakes) <= wakes
      ensures forall t :: t in wakes[|old(wakes)|..] <==> Registered(old(receivers), Everybody(old(receivers)), t)
      ensures strong == 0 && (freed <==> weak == 0)
      ensures unchanged(`id, `sender, `weak)
    {
      Sound();
      DropSenderShows(model);
      TakeAllWakers(model.slots);
      strong := strong - 1;
      freed := weak + strong == 0;
      assert Shows(DropSenderStep(model));
      Take(BroadcastModel.DropSender);
    }

    method TakeAllWakers(ghost slots: seq<Option<Rx<T>>>)
      requires receivers == States(slots)
      modifies this`receivers, this`wakes
      ensures receivers == States(TakeWakers(slots))
      ensures wakes == old(wakes) + Flatten(Wakers(slots))
    {
      ghost var taken := TakeWakers(slots);
      ghost var wakers := Wakers(slots);
      PartlyEnds(slots, taken);
      for i := 0 to |receivers|
        invariant receivers == Partly(slots, taken, i)
        invariant wakes == old(wakes) + Flatten(wakers[..i])
      {
        PartlyNext(slots, taken, i);
        FlattenNext(old(wakes), wakers, i);
        match receivers[i] {
          case None =>
          case Some(receiver) =>
            receivers := receivers[i := Some(receiver.(waker := None))];
            Wake(receiver.waker);
        }
      }
      assert wakers[..|slots|] == wakers;
    }
  }
}
