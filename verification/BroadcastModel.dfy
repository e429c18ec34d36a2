/**
 The broadcast channel of `src/broadcast.rs` and the counters of
 `src/broad_rc.rs` as a state machine over values. History is recorded beside the
 state of the source, so that what was sent, received and woken can be spoken of.
 */
module BroadcastModel {
  import opened Common
  import opened Sums
  import opened Wakeups

  const DEFAULT_CAPACITY: nat := 16

  /** `ReceiverState`: `room` is the capacity of the buffer that was allocated. */
  datatype ReceiverState<T> = ReceiverState(
    id: nat,
    waker: Option<TaskId>,
    buf: seq<T>,
    unbounded: bool,
    room: nat)
  {
    predicate AtCapacity() {
      !unbounded && |buf| == room
    }
  }

  /** An occupied slab slot. `since` counts the messages sent before the
      subscription, `got` lists the messages put into the buffer (as indices into
      `sent`), `received` the values taken out, and `lag` counts the id bumps
      since the slot was stamped last. */
  datatype Rx<T> = Rx(
    state: ReceiverState<T>,
    since: nat,
    got: seq<nat>,
    received: seq<T>,
    lag: nat,
    parked: Option<Parked>)

  /** The `send` in progress, if any: its message `value` is number `n` of `sent`. */
  datatype Active<T> = Idle | Sending(n: nat, value: T, parked: Option<Parked>)

  datatype Chan<T> = Chan(
    id: nat,
    sender: Option<TaskId>,
    slots: seq<Option<Rx<T>>>,
    capacity: Option<nat>,
    strong: int,
    weak: int,
    frees: nat,             // how often the shared block was deallocated
    handles: set<nat>,      // the slot indices of the live `Receiver`s
    sent: seq<T>,           // every message that a `send` or `try_send` was started with
    active: Active<T>,
    wakes: seq<TaskId>)     // every wakeup, in order

  datatype Action<T> =
    | Subscribe(index: nat, room: nat)
    | TrySend(value: T)
    | StartSend(value: T)
    | PollSend(task: TaskId)
    | CancelSend
    | PollRecv(index: nat, task: TaskId)
    | CancelRecv(index: nat)
    | DropReceiver(index: nat)
    | DropSender

  function New<T>(capacity: Option<nat>): Chan<T> {
    Chan(0, None, [], capacity, 1, 0, 0, {}, [], Idle, [])
  }

  // ----- The operations

  /** `bump_message_id`: a 64-bit increment that wraps around and skips 0. */
  function Bump(id: nat): nat {
    var next := (id + 1) % (WORD_MAX + 1);
    if next == 0 then 1 else next
  }

  function BumpAll<T>(slots: seq<Option<Rx<T>>>): (r: seq<Option<Rx<T>>>)
    ensures |r| == |slots|
  {
    seq(|slots|, i requires 0 <= i < |slots| =>
      if slots[i].Some? then Some(slots[i].value.(lag := slots[i].value.lag + 1)) else None)
  }

  function Push<T>(rx: Rx<T>, v: T, n: nat): Rx<T> {
    rx.(state := rx.state.(buf := rx.state.buf + [v]), got := rx.got + [n])
  }

  /** What `try_send` does to a receiver: no stamp. */
  function TryOffer<T>(rx: Rx<T>, v: T, n: nat): Rx<T> {
    if rx.state.AtCapacity() then rx else Push(rx, v, n)
  }

  /** What a poll of `send` does to a receiver. */
  function Offer<T>(rx: Rx<T>, id: nat, v: T, n: nat): Rx<T> {
    if rx.state.id == id || rx.state.AtCapacity() then rx
    else var pushed := Push(rx, v, n); pushed.(state := pushed.state.(id := id), lag := 0)
  }

  function OfferSlot<T>(slot: Option<Rx<T>>, id: Option<nat>, v: T, n: nat): Option<Rx<T>> {
    match slot
    case None => None
    case Some(rx) => Some(if id.Some? then Offer(rx, id.value, v, n) else TryOffer(rx, v, n))
  }

  /** One round over the receivers; with an id it is the round of `send`, without one that of `try_send`. */
  function OfferAll<T>(slots: seq<Option<Rx<T>>>, id: Option<nat>, v: T, n: nat): (r: seq<Option<Rx<T>>>)
    ensures |r| == |slots|
  {
    seq(|slots|, i requires 0 <= i < |slots| => OfferSlot(slots[i], id, v, n))
  }

  /** Who is woken when a slot goes from one state to the next in such a round. */
  function WokenBy<T>(slot: Option<Rx<T>>, slot': Option<Rx<T>>): seq<TaskId> {
    if slot.Some? && slot'.Some? && |slot'.value.got| > |slot.value.got| && slot.value.state.waker.Some?
    then [slot.value.state.waker.value] else []
  }

  function RoundWakers<T>(slots: seq<Option<Rx<T>>>, slots': seq<Option<Rx<T>>>): (r: seq<seq<TaskId>>)
    requires |slots| == |slots'|
    ensures |r| == |slots|
  {
    seq(|slots|, i requires 0 <= i < |slots| => WokenBy(slots[i], slots'[i]))
  }

  function Occupancy<S>(slots: seq<Option<S>>): (r: seq<nat>)
    ensures |r| == |slots|
  {
    seq(|slots|, i requires 0 <= i < |slots| => if slots[i].Some? then 1 else 0)
  }

  /** The number of occupied slots, `Slab::len`. */
  function Live<S>(slots: seq<Option<S>>): nat {
    Total(Occupancy(slots))
  }

  /** `Sender::drop` takes every waker and wakes it. */
  function TakeWaker<T>(slot: Option<Rx<T>>): Option<Rx<T>> {
    if slot.Some? then Some(slot.value.(state := slot.value.state.(waker := None))) else None
  }

  function TakeWakers<T>(slots: seq<Option<Rx<T>>>): (r: seq<Option<Rx<T>>>)
    ensures |r| == |slots|
  {
    seq(|slots|, i requires 0 <= i < |slots| => TakeWaker(slots[i]))
  }

  function WakerOf<T>(slot: Option<Rx<T>>): seq<TaskId> {
    if slot.Some? then WakeOpt([], slot.value.state.waker) else []
  }

  function Wakers<T>(slots: seq<Option<Rx<T>>>): (r: seq<seq<TaskId>>)
    ensures |r| == |slots|
  {
    seq(|slots|, i requires 0 <= i < |slots| => WakerOf(slots[i]))
  }

  /** `try_dealloc`. */
  function Dealloc<T>(s: Chan<T>): Chan<T> {
    if s.strong + s.weak == 0 then s.(frees := s.frees + 1) else s
  }

  /** Every live receiver carries this stamp. */
  ghost predicate AllCarry<T>(slots: seq<Option<Rx<T>>>, id: nat) {
    forall i :: 0 <= i < |slots| && slots[i].Some? ==> slots[i].value.state.id == id
  }

  function Receiving<T>(s: Chan<T>, rx: Rx<T>, i: nat): Chan<T>
    requires i < |s.slots|
  {
    s.(slots := s.slots[i := Some(rx)])
  }

  predicate Occupied<T>(s: Chan<T>, i: nat) {
    i < |s.slots| && s.slots[i].Some?
  }

  /** What the borrow rules of the language and the liveness of the handles allow. */
  predicate Enabled<T>(s: Chan<T>, a: Action<T>) {
    match a
    case Subscribe(i, room) =>
      && s.strong == 1 && s.active.Idle?
      && s.weak < WORD_MAX
      && i <= |s.slots| && !Occupied(s, i)
      && room >= (if s.capacity.Some? then s.capacity.value else DEFAULT_CAPACITY)
    case TrySend(_) => s.strong == 1 && s.active.Idle?
    case StartSend(_) => s.strong == 1 && s.active.Idle?
    case PollSend(_) => s.strong == 1 && s.active.Sending?
    case CancelSend => s.active.Sending?
    case PollRecv(i, _) => i in s.handles
    case CancelRecv(i) => i in s.handles
    case DropReceiver(i) => i in s.handles
    case DropSender => s.strong == 1 && s.active.Idle?
  }

  function Announce<T>(s: Chan<T>, v: T): Chan<T> {
    s.(id := Bump(s.id), slots := BumpAll(s.slots), sent := s.sent + [v])
  }

  function Deliver<T>(s: Chan<T>, id: Option<nat>, v: T, n: nat): Chan<T> {
    var slots := OfferAll(s.slots, id, v, n);
    s.(slots := slots, wakes := s.wakes + Flatten(RoundWakers(s.slots, slots)))
  }

  function TrySendStep<T>(s: Chan<T>, v: T): Chan<T> {
    var s' := Announce(s, v);
    if s.weak == 0 then s' else Deliver(s', None, v, |s.sent|)
  }

  ghost function SendStep<T>(s: Chan<T>, task: TaskId): Chan<T>
    requires s.active.Sending?
  {
    if s.weak == 0 then s.(active := Idle)
    else
      var s' := Deliver(s.(sender := Some(task)), Some(s.id), s.active.value, s.active.n);
      s'.(active := if AllCarry(s'.slots, s'.id) then Idle else s.active.(parked := Some(Parked(task, |s.wakes|))))
  }

  function RecvStep<T>(s: Chan<T>, i: nat, task: TaskId): Chan<T> {
    if !Occupied(s, i) then s
    else
      var rx := s.slots[i].value;
      if rx.state.buf != [] then
        var rx' := rx.(
          state := rx.state.(buf := rx.state.buf[1..]),
          received := rx.received + [rx.state.buf[0]],
          parked := None);
        Receiving(s, rx', i).(wakes := WakeOpt(s.wakes, s.sender))
      else if s.strong == 0 then
        Receiving(s, rx.(state := rx.state.(waker := None), parked := None), i)
      else
        var rx' := rx.(
          state := rx.state.(waker := Some(task)),
          parked := Some(Parked(task, |s.wakes|)));
        Receiving(s, rx', i).(wakes := WakeOpt(s.wakes, s.sender))
  }

  /** What that poll returns: a value, the end of the channel (`Ready(None)`), or pending. */
  datatype Recv<T> = Value(value: T) | Closed | Pending

  function RecvResult<T>(s: Chan<T>, i: nat): Recv<T> {
    if !Occupied(s, i) then Closed
    else if s.slots[i].value.state.buf != [] then Value(s.slots[i].value.state.buf[0])
    else if s.strong == 0 then Closed
    else Pending
  }

  function SubscribeStep<T>(s: Chan<T>, i: nat, room: nat): Chan<T>
    requires i <= |s.slots|
  {
    var rx := Rx(ReceiverState(s.id, None, [], s.capacity.None?, room), |s.sent|, [], [], 0, None);
    s.(slots := if i < |s.slots| then s.slots[i := Some(rx)] else s.slots + [Some(rx)],
       weak := s.weak + 1, handles := s.handles + {i})
  }

  function DropReceiverStep<T>(s: Chan<T>, i: nat): Chan<T> {
    Dealloc(s.(slots := if i < |s.slots| then s.slots[i := None] else s.slots,
               wakes := WakeOpt(s.wakes, s.sender), sender := None,
               weak := s.weak - 1, handles := s.handles - {i}))
  }

  function DropSenderStep<T>(s: Chan<T>): Chan<T> {
    Dealloc(s.(wakes := s.wakes + Flatten(Wakers(s.slots)), slots := TakeWakers(s.slots), strong := s.strong - 1))
  }

  ghost function Step<T>(s: Chan<T>, a: Action<T>): Chan<T>
    requires Enabled(s, a)
  {
    match a
    case Subscribe(i, room) => SubscribeStep(s, i, room)
    case TrySend(v) => TrySendStep(s, v)
    case StartSend(v) => Announce(s, v).(active := Sending(|s.sent|, v, None))
    case PollSend(task) => SendStep(s, task)
    case CancelSend => s.(active := Idle)
    case PollRecv(i, task) => RecvStep(s, i, task)
    case CancelRecv(i) =>
      if Occupied(s, i) then Receiving(s, s.slots[i].value.(parked := None), i) else s
    case DropReceiver(i) => DropReceiverStep(s, i)
    case DropSender => DropSenderStep(s)
  }

  ghost predicate StepAt<T>(states: seq<Chan<T>>, actions: seq<Action<T>>, i: nat) {
    && i < |actions| && i + 1 < |states|
    && Enabled(states[i], actions[i]) && states[i + 1] == Step(states[i], actions[i])
  }

  /** A run of a new channel: any handles, any interleaving. */
  ghost predicate IsRun<T>(states: seq<Chan<T>>, actions: seq<Action<T>>) {
    && |states| == |actions| + 1
    && (exists capacity: Option<nat> :: (capacity.Some? ==> capacity.value > 0) && states[0] == New(capacity))
    && forall i: nat {:trigger StepAt(states, actions, i)} :: i < |actions| ==> StepAt(states, actions, i)
  }
}
