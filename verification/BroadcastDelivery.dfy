/** What the invariant of the broadcast channel means for its users. */
module BroadcastDelivery {
  import opened Common
  import opened Wakeups
  import opened BroadcastModel
  import opened BroadcastRuns

  // ----- Bookkeeping

  /** The slab, the weak count and the live `Receiver`s agree in every reachable
      state: a live `Receiver` finds its slot, and the number that a completed
      `send` or `try_send` compares against is the number of subscribers. */
  lemma SubscribersAgree<T>(states: seq<Chan<T>>, actions: seq<Action<T>>, i: nat)
    requires IsRun(states, actions) && i < |states|
    ensures var s := states[i];
            && s.weak == Live(s.slots) == |s.handles|
            && forall k: nat :: k in s.handles <==> Occupied(s, k)
  {
    InvAlways(states, actions, i);
    forall k: nat ensures k in states[i].handles <==> Occupied(states[i], k) {
      assert SlotOk(states[i], k);
    }
  }

  lemma NothingAfterFree<T>(s: Chan<T>, a: Action<T>)
    requires Inv(s) && s.frees == 1
    ensures !Enabled(s, a)
  {
  }

  /** The shared block is freed exactly when the last handle is gone, only once,
      and nothing can be done with the channel afterwards. */
  lemma FreedOnceAtTheEnd<T>(states: seq<Chan<T>>, actions: seq<Action<T>>, i: nat)
    requires IsRun(states, actions) && i < |states|
    ensures var s := states[i];
            && s.frees <= 1
            && (s.frees == 1 <==> s.strong == 0 && s.handles == {})
            && (s.frees == 1 ==> i == |actions|)
  {
    InvAlways(states, actions, i);
    assert |states[i].handles| == 0 <==> states[i].handles == {};
    if i < |actions| && states[i].frees == 1 {
      assert StepAt(states, actions, i);
      NothingAfterFree(states[i], actions[i]);
    }
  }

  // ----- Order

  /** Whatever is sent, cancelled or dropped: what a subscriber received and has
      buffered are messages sent since it subscribed, in order, each at most once. */
  lemma DeliveredInOrder<T>(states: seq<Chan<T>>, actions: seq<Action<T>>, i: nat, k: nat)
    requires IsRun(states, actions) && i < |states| && Occupied(states[i], k)
    ensures InOrder(states[i].sent, states[i].slots[k].value)
    ensures Bounded(states[i].slots[k].value)
  {
    InvAlways(states, actions, i);
    assert SlotOk(states[i], k);
  }

  /** A subscriber is told that the channel is closed only when the sender is
      gone and every message put into its buffer has been received. */
  lemma ClosedAfterEverything<T>(states: seq<Chan<T>>, actions: seq<Action<T>>, i: nat, k: nat)
    requires IsRun(states, actions) && i < |states| && k in states[i].handles
    requires RecvResult(states[i], k).Closed?
    ensures Occupied(states[i], k) && states[i].strong == 0
    ensures var rx := states[i].slots[k].value;
            InOrder(states[i].sent, rx) && rx.received == Values(states[i].sent, rx.got)
  {
    InvAlways(states, actions, i);
    assert SlotOk(states[i], k);
  }

  // ----- Wakeups

  /** The channel never sleeps as a whole: while a `send` sleeps, some subscriber
      has a value to receive and is not asleep itself. */
  lemma NeverAllAsleep<T>(states: seq<Chan<T>>, actions: seq<Action<T>>, i: nat) returns (k: nat)
    requires IsRun(states, actions) && i < |states|
    requires states[i].active.Sending? && Asleep(states[i].wakes, states[i].active.parked)
    ensures Occupied(states[i], k) && states[i].slots[k].value.state.buf != []
    ensures !Asleep(states[i].wakes, states[i].slots[k].value.parked)
  {
    InvAlways(states, actions, i);
    k :| Blocks(states[i], k);
    assert SlotOk(states[i], k);
  }

  /** A sleeping `recv` has nothing to receive, a sender to wait for, and the
      waker of its last poll registered. */
  lemma SleepingRecvIsRight<T>(states: seq<Chan<T>>, actions: seq<Action<T>>, i: nat, k: nat)
    requires IsRun(states, actions) && i < |states| && Occupied(states[i], k)
    requires Asleep(states[i].wakes, states[i].slots[k].value.parked)
    ensures RecvResult(states[i], k).Pending?
    ensures states[i].slots[k].value.state.waker == Some(states[i].slots[k].value.parked.value.task)
  {
    InvAlways(states, actions, i);
    assert SlotOk(states[i], k);
  }

  /** A sleeping `send` would achieve nothing if it were polled again: every
      subscriber is served or full. */
  lemma SleepingSendIsRight<T>(states: seq<Chan<T>>, actions: seq<Action<T>>, i: nat)
    requires IsRun(states, actions) && i < |states|
    requires states[i].active.Sending? && Asleep(states[i].wakes, states[i].active.parked)
    ensures SendStep(states[i], states[i].active.parked.value.task).slots == states[i].slots
    ensures SendStep(states[i], states[i].active.parked.value.task).active.Sending?
    ensures states[i].sender == Some(states[i].active.parked.value.task)
  {
    var s := states[i];
    InvAlways(states, actions, i);
    var s' := SendStep(s, s.active.parked.value.task);
    var k: nat :| Blocks(s, k);
    if s.weak == 0 {
      LiveNone(s.slots);
      assert false;
    }
    forall j | 0 <= j < |s.slots| ensures s'.slots[j] == s.slots[j] {
      assert Occupied(s, j) && s.slots[j].value.state.id != s.id ==> Blocks(s, j);
    }
    assert s'.slots[k].value.state.id != s.id;
  }

  /** Exactly when a poll completes a `send`: when no subscriber is at once full
      and without the message. Draining those is all it waits for. */
  lemma SendCompletesIff<T>(s: Chan<T>, task: TaskId)
    requires Inv(s) && s.active.Sending?
    ensures SendStep(s, task).active.Idle? <==> forall i: nat :: !Blocks(s, i)
  {
    if s.weak == 0 {
      LiveNone(s.slots);
    } else {
      var s' := Deliver(s.(sender := Some(task)), Some(s.id), s.active.value, s.active.n);
      forall i: nat ensures Blocks(s, i) <==> Occupied(s', i) && s'.slots[i].value.state.id != s'.id {
      }
    }
  }

  // ----- Guaranteed delivery

  /** The numbers from `a` up to, but not including, `b`. */
  function Upto(a: nat, b: nat): (r: seq<nat>)
    ensures a <= b ==> |r| == b - a
  {
    if b <= a then [] else seq(b - a, j requires 0 <= j < b - a => a + j)
  }

  /** The subscriber has got every message since it subscribed, except for that
      of the `send` in progress while it is not stamped with it. */
  ghost predicate Complete<T>(s: Chan<T>, rx: Rx<T>) {
    rx.got == Upto(rx.since, if s.active.Sending? && rx.state.id != s.id then s.active.n else |s.sent|)
  }

  /** What a step must not do if the subscriber is to miss nothing: a `try_send`
      must not find it full, a `send` must not be abandoned before it is served,
      and the id of a new `send` must not equal its old stamp. */
  predicate Serves<T>(s: Chan<T>, a: Action<T>, rx: Rx<T>) {
    match a
    case TrySend(_) => !rx.state.AtCapacity()
    case StartSend(_) => rx.state.id != Bump(s.id)
    case CancelSend => rx.state.id == s.id
    case _ => true
  }

  lemma UptoStep(a: nat, b: nat, got: seq<nat>)
    requires a <= b
    ensures got + [b] == Upto(a, b + 1) <==> got == Upto(a, b)
  {
    assert Upto(a, b + 1) == Upto(a, b) + [b];
    if got + [b] == Upto(a, b + 1) {
      assert got == (got + [b])[..|got|];
      assert Upto(a, b) == (Upto(a, b) + [b])[..b - a];
    }
  }

  /** Without the last index, a list of messages is not complete. */
  lemma UptoShort(a: nat, b: nat, got: seq<nat>)
    requires a <= b && (got == [] || got[|got| - 1] != b)
    ensures got != Upto(a, b + 1)
  {
    assert Upto(a, b + 1)[b - a] == b;
  }

  /** What decides completeness, and the age of the stamp, in slot `k`. */
  ghost predicate SameSlot<T>(s: Chan<T>, s': Chan<T>, k: nat)
    requires Occupied(s, k)
  {
    && Occupied(s', k) && s'.sent == s.sent && s'.active == s.active && s'.id == s.id
    && s'.slots[k].value.got == s.slots[k].value.got
    && s'.slots[k].value.since == s.slots[k].value.since
    && s'.slots[k].value.lag == s.slots[k].value.lag
    && s'.slots[k].value.state.id == s.slots[k].value.state.id
  }

  lemma RecvUntouched<T>(s: Chan<T>, i: nat, task: TaskId, k: nat)
    requires Occupied(s, k)
    ensures SameSlot(s, RecvStep(s, i, task), k)
  {
  }

  lemma HandlesUntouched<T>(s: Chan<T>, a: Action<T>, k: nat)
    requires Enabled(s, a) && Occupied(s, k) && a != DropReceiver(k)
    requires a.Subscribe? || a.CancelRecv? || a.DropReceiver? || a.DropSender?
    ensures SameSlot(s, Step(s, a), k)
  {
  }

  /** The steps that are no part of sending leave that alone. */
  lemma Untouched<T>(s: Chan<T>, a: Action<T>, k: nat)
    requires Enabled(s, a) && Occupied(s, k) && a != DropReceiver(k)
    requires !a.TrySend? && !a.StartSend? && !a.PollSend? && !a.CancelSend?
    ensures SameSlot(s, Step(s, a), k)
  {
    if a.PollRecv? {
      RecvUntouched(s, a.index, a.task, k);
    } else {
      HandlesUntouched(s, a, k);
    }
  }

  lemma TrySendCompleteIff<T>(s: Chan<T>, v: T, k: nat)
    requires Enabled(s, TrySend(v)) && Occupied(s, k)
    requires Inv(s)
    ensures Complete(Step(s, TrySend(v)), Step(s, TrySend(v)).slots[k].value)
       <==> Complete(s, s.slots[k].value) && Serves(s, TrySend(v), s.slots[k].value)
  {
    assert SlotOk(s, k);
    var rx, n := s.slots[k].value, |s.sent|;
    OccupiedCounts(s, k);
    assert Step(s, TrySend(v)).slots[k] == Some(TryOffer(rx.(lag := rx.lag + 1), v, n));
    if rx.state.AtCapacity() {
      UptoShort(rx.since, n, rx.got);
    } else {
      UptoStep(rx.since, n, rx.got);
    }
  }

  lemma PollSendCompleteIff<T>(s: Chan<T>, task: TaskId, k: nat)
    requires Inv(s) && Enabled(s, Action<T>.PollSend(task)) && Occupied(s, k)
    ensures Complete(SendStep(s, task), SendStep(s, task).slots[k].value) <==> Complete(s, s.slots[k].value)
  {
    assert SlotOk(s, k);
    var rx := s.slots[k].value;
    OccupiedCounts(s, k);
    UptoStep(rx.since, s.active.n, rx.got);
    assert SendStep(s, task).slots[k] == Some(Offer(rx, s.id, s.active.value, s.active.n));
  }

  lemma StartSendCompleteIff<T>(s: Chan<T>, v: T, k: nat)
    requires Inv(s) && Enabled(s, StartSend(v)) && Occupied(s, k)
    ensures Complete(Step(s, StartSend(v)), Step(s, StartSend(v)).slots[k].value)
       <==> Complete(s, s.slots[k].value) && Serves(s, StartSend(v), s.slots[k].value)
  {
    assert SlotOk(s, k);
    var rx := s.slots[k].value;
    UptoShort(rx.since, |s.sent|, rx.got);
  }

  lemma CancelSendCompleteIff<T>(s: Chan<T>, k: nat)
    requires Inv(s) && Enabled(s, Action<T>.CancelSend) && Occupied(s, k)
    ensures Complete(s.(active := Idle), s.slots[k].value)
       <==> Complete(s, s.slots[k].value) && s.slots[k].value.state.id == s.id
  {
    assert SlotOk(s, k);
    var rx := s.slots[k].value;
    if rx.state.id != s.id {
      UptoShort(rx.since, s.active.n, rx.got);
    }
  }

  /** Exactly when a step keeps a subscriber complete; what was missed once stays missed. */
  lemma CompleteIff<T>(s: Chan<T>, a: Action<T>, k: nat)
    requires Inv(s) && Enabled(s, a) && Occupied(s, k) && a != DropReceiver(k)
    ensures Occupied(Step(s, a), k)
    ensures Complete(Step(s, a), Step(s, a).slots[k].value)
       <==> Complete(s, s.slots[k].value) && Serves(s, a, s.slots[k].value)
  {
    if a.TrySend? {
      TrySendCompleteIff(s, a.value, k);
    } else if a.StartSend? {
      StartSendCompleteIff(s, a.value, k);
    } else if a.PollSend? {
      PollSendCompleteIff(s, a.task, k);
    } else if a.CancelSend? {
      CancelSendCompleteIff(s, k);
    } else {
      Untouched(s, a, k);
    }
  }

  lemma OccupiedCounts<T>(s: Chan<T>, k: nat)
    requires Inv(s) && Occupied(s, k)
    ensures s.weak != 0
  {
    if s.weak == 0 {
      LiveNone(s.slots);
      assert false;
    }
  }

  /** Every step since the subscription in slot `k` served it. */
  ghost predicate ServedSince<T>(states: seq<Chan<T>>, actions: seq<Action<T>>, i: nat, k: nat)
    requires |states| == |actions| + 1 && i < |states|
  {
    i == 0
    || (actions[i - 1].Subscribe? && actions[i - 1].index == k)
    || (ServedSince(states, actions, i - 1, k)
        && (Occupied(states[i - 1], k) ==> Serves(states[i - 1], actions[i - 1], states[i - 1].slots[k].value)))
  }

  lemma StaysOccupied<T>(s: Chan<T>, a: Action<T>, k: nat)
    requires Enabled(s, a) && Occupied(Step(s, a), k) && !(a.Subscribe? && a.index == k)
    ensures Occupied(s, k) && a != DropReceiver(k)
  {
  }

  lemma SubscribedComplete<T>(s: Chan<T>, k: nat, room: nat)
    requires Enabled(s, Action<T>.Subscribe(k, room))
    ensures var s' := SubscribeStep(s, k, room);
            && Occupied(s', k) && s'.slots[k].value.since == |s'.sent| && s'.active.Idle?
            && s'.slots[k].value.lag == 0 && Complete(s', s'.slots[k].value)
  {
    assert Upto(|s.sent|, |s.sent|) == [];
  }

  lemma CompleteAfter<T>(s: Chan<T>, a: Action<T>, k: nat)
    requires Inv(s) && Enabled(s, a) && Occupied(Step(s, a), k)
    ensures if a.Subscribe? && a.index == k then Complete(Step(s, a), Step(s, a).slots[k].value)
            else Occupied(s, k) && (Complete(Step(s, a), Step(s, a).slots[k].value)
                                    <==> Complete(s, s.slots[k].value) && Serves(s, a, s.slots[k].value))
  {
    if a.Subscribe? && a.index == k {
      SubscribedComplete(s, k, a.room);
    } else {
      StaysOccupied(s, a, k);
      CompleteIff(s, a, k);
    }
  }

  /** Guaranteed delivery, and exactly when: a subscriber has got every message
      since it subscribed if and only if every step since then served it. */
  lemma {:induction false} DeliveryExact<T>(states: seq<Chan<T>>, actions: seq<Action<T>>, i: nat, k: nat)
    requires IsRun(states, actions) && i < |states| && Occupied(states[i], k)
    ensures Complete(states[i], states[i].slots[k].value) <==> ServedSince(states, actions, i, k)
  {
    if i > 0 {
      var s, a := states[i - 1], actions[i - 1];
      InvAlways(states, actions, i - 1);
      assert StepAt(states, actions, i - 1);
      CompleteAfter(s, a, k);
      if !(a.Subscribe? && a.index == k) {
        DeliveryExact(states, actions, i - 1, k);
      }
    }
  }

  /** In terms of values: between two `send`s, a subscriber that every step has
      served has received or buffered exactly what was sent since it subscribed. */
  lemma GuaranteedDelivery<T>(states: seq<Chan<T>>, actions: seq<Action<T>>, i: nat, k: nat)
    requires IsRun(states, actions) && i < |states| && Occupied(states[i], k)
    requires ServedSince(states, actions, i, k) && states[i].active.Idle?
    ensures var rx := states[i].slots[k].value;
            rx.since <= |states[i].sent| && rx.received + rx.state.buf == states[i].sent[rx.since..]
  {
    InvAlways(states, actions, i);
    assert SlotOk(states[i], k);
    DeliveryExact(states, actions, i, k);
    var s, rx := states[i], states[i].slots[k].value;
    assert Values(s.sent, Upto(rx.since, |s.sent|)) == s.sent[rx.since..];
  }

  // ----- Sends only

  /** A channel used through `send` alone, each driven to completion or still in progress. */
  ghost predicate SendsOnly<T>(actions: seq<Action<T>>) {
    forall i :: 0 <= i < |actions| ==> !actions[i].TrySend? && !actions[i].CancelSend?
  }

  ghost predicate LagOk<T>(s: Chan<T>, k: nat) {
    Occupied(s, k) ==> s.slots[k].value.lag <= (if s.active.Sending? then 1 else 0)
  }

  lemma BumpChanges(id: nat)
    requires id <= WORD_MAX
    ensures Bump(id) != id
  {
  }

  lemma LagStep<T>(s: Chan<T>, a: Action<T>, k: nat)
    requires Inv(s) && Enabled(s, a) && !a.TrySend? && !a.CancelSend?
    requires LagOk(s, k)
    ensures LagOk(Step(s, a), k)
    ensures Occupied(s, k) ==> Serves(s, a, s.slots[k].value)
  {
    assert SlotOk(s, k);
    BumpChanges(s.id);
    if a.PollSend? {
      if Occupied(s, k) {
        LagPollSend(s, a.task, k);
      }
    } else if !a.StartSend? {
      LagStays(s, a, k);
    }
  }

  /** Only sending makes a subscriber fall behind. */
  lemma LagStays<T>(s: Chan<T>, a: Action<T>, k: nat)
    requires Inv(s) && Enabled(s, a)
    requires !a.TrySend? && !a.CancelSend? && !a.StartSend? && !a.PollSend?
    requires LagOk(s, k)
    ensures LagOk(Step(s, a), k)
  {
    assert SlotOk(s, k);
  }

  lemma LagPollSend<T>(s: Chan<T>, task: TaskId, k: nat)
    requires Inv(s) && s.active.Sending? && Occupied(s, k) && LagOk(s, k)
    ensures LagOk(SendStep(s, task), k)
  {
    assert SlotOk(s, k);
    OccupiedCounts(s, k);
    var rx := s.slots[k].value;
    BumpChanges(rx.state.id);
    assert rx.lag == 1 ==> s.id == Bump(BumpN(rx.state.id, 0));
    assert SendStep(s, task).slots[k] == Some(Offer(rx, s.id, s.active.value, s.active.n));
  }

  /** In runs of any length that use only completed `send`s, no stamp is ever
      mistaken and every subscriber is always complete: wrap-around is harmless. */
  lemma {:induction false} SendsOnlyServe<T>(states: seq<Chan<T>>, actions: seq<Action<T>>, i: nat, k: nat)
    requires IsRun(states, actions) && i < |states|
    requires SendsOnly(actions)
    ensures LagOk(states[i], k)
    ensures ServedSince(states, actions, i, k)
  {
    if i > 0 {
      SendsOnlyServe(states, actions, i - 1, k);
      InvAlways(states, actions, i - 1);
      assert !actions[i - 1].TrySend? && StepAt(states, actions, i - 1);
      LagStep(states[i - 1], actions[i - 1], k);
    }
  }

  // ----- Wrap-around

  /** Exactly when a `send` passes a subscriber over because of a stale stamp:
      when a positive multiple of 2^64-1 messages have been announced since it
      was stamped, and its stamp is not the initial 0. */
  lemma StaleStampIff<T>(states: seq<Chan<T>>, actions: seq<Action<T>>, i: nat, k: nat, v: T)
    requires IsRun(states, actions) && i < |states| && Occupied(states[i], k)
    requires Enabled(states[i], StartSend(v))
    ensures var rx := states[i].slots[k].value;
            !Serves(states[i], StartSend(v), rx) <==> rx.state.id >= 1 && (rx.lag + 1) % WORD_MAX == 0
  {
    InvAlways(states, actions, i);
    assert SlotOk(states[i], k);
    var rx := states[i].slots[k].value;
    assert BumpN(rx.state.id, rx.lag + 1) == Bump(states[i].id);
    StaleStampCollides(rx.state.id, rx.lag + 1);
  }

  // ----- Mixed runs

  /** No more messages were announced since a subscriber was stamped than since it subscribed. */
  ghost predicate LagBounded<T>(s: Chan<T>, k: nat) {
    Occupied(s, k) ==> s.slots[k].value.since + s.slots[k].value.lag <= |s.sent|
  }

  /** The sending steps age the stamp by at most the message they announce. */
  lemma SendingAges<T>(s: Chan<T>, a: Action<T>, k: nat)
    requires Enabled(s, a) && Occupied(s, k) && (a.TrySend? || a.StartSend? || a.PollSend? || a.CancelSend?)
    ensures var s' := Step(s, a);
            && Occupied(s', k) && s'.slots[k].value.since == s.slots[k].value.since
            && s'.slots[k].value.lag + |s.sent| <= s.slots[k].value.lag + |s'.sent|
  {
  }

  lemma SinceKept<T>(s: Chan<T>, a: Action<T>, k: nat)
    requires Enabled(s, a) && Occupied(s, k) && a != DropReceiver(k)
    ensures var s' := Step(s, a);
            && Occupied(s', k) && s'.slots[k].value.since == s.slots[k].value.since
            && s'.slots[k].value.lag + |s.sent| <= s.slots[k].value.lag + |s'.sent|
    ensures !(a.Subscribe? && a.index == k)
  {
    if a.TrySend? || a.StartSend? || a.PollSend? || a.CancelSend? {
      SendingAges(s, a, k);
    } else {
      Untouched(s, a, k);
    }
  }

  lemma LagBoundedStep<T>(s: Chan<T>, a: Action<T>, k: nat)
    requires Enabled(s, a) && LagBounded(s, k)
    ensures LagBounded(Step(s, a), k)
  {
    if Occupied(Step(s, a), k) {
      if a.Subscribe? && a.index == k {
        SubscribedComplete(s, k, a.room);
      } else {
        StaysOccupied(s, a, k);
        SinceKept(s, a, k);
      }
    }
  }

  lemma SentGrows<T>(s: Chan<T>, a: Action<T>)
    requires Enabled(s, a)
    ensures |s.sent| + (if a.TrySend? || a.StartSend? then 1 else 0) == |Step(s, a).sent|
  {
  }

  lemma {:induction false} LagBoundedAlways<T>(states: seq<Chan<T>>, actions: seq<Action<T>>, i: nat, k: nat)
    requires IsRun(states, actions) && i < |states|
    ensures LagBounded(states[i], k)
  {
    if i > 0 {
      LagBoundedAlways(states, actions, i - 1, k);
      InvAlways(states, actions, i - 1);
      assert StepAt(states, actions, i - 1);
      LagBoundedStep(states[i - 1], actions[i - 1], k);
    }
  }

  /** No `send` is abandoned, and a `try_send` never finds the subscriber in slot `k` full. */
  predicate Delivers<T>(s: Chan<T>, a: Action<T>, k: nat) {
    !a.CancelSend? && (a.TrySend? && Occupied(s, k) ==> !s.slots[k].value.state.AtCapacity())
  }

  /** Step `b` subscribes in slot `k`, and the subscriber stays until state `i`. */
  ghost predicate Subscribed<T>(actions: seq<Action<T>>, b: nat, i: nat, k: nat) {
    && b < i <= |actions| && actions[b].Subscribe? && actions[b].index == k
    && forall j :: b < j < i ==> actions[j] != DropReceiver(k)
  }

  lemma {:induction false} MixedServe<T>(states: seq<Chan<T>>, actions: seq<Action<T>>, b: nat, i: nat, k: nat)
    requires IsRun(states, actions) && Subscribed(actions, b, i, k)
    requires forall j :: b < j < i ==> Delivers(states[j], actions[j], k)
    requires |states[i].sent| - |states[b].sent| < WORD_MAX
    ensures |states[b].sent| <= |states[i].sent|
    ensures Occupied(states[i], k) && states[i].slots[k].value.since == |states[b].sent|
    ensures ServedSince(states, actions, i, k)
    decreases i
  {
    var s, a := states[i - 1], actions[i - 1];
    assert StepAt(states, actions, i - 1);
    if b < i - 1 {
      assert Delivers(s, a, k) && a != DropReceiver(k);
      InvAlways(states, actions, i - 1);
      LagBoundedAlways(states, actions, i - 1, k);
      SentGrows(s, a);
      MixedServe(states, actions, b, i - 1, k);
      SinceKept(s, a, k);
      if a.StartSend? {
        StaleStampIff(states, actions, i - 1, k, a.value);
      }
    }
  }

  /** With fewer than 2^64-1 messages since a subscription, `send` and `try_send` may
      be mixed freely: if no `send` was abandoned and no `try_send` found the
      subscriber full, it has received or buffered exactly what was sent since. */
  lemma MixedRunsDeliver<T>(states: seq<Chan<T>>, actions: seq<Action<T>>, b: nat, i: nat, k: nat)
    requires IsRun(states, actions) && Subscribed(actions, b, i, k)
    requires forall j :: b < j < i ==> Delivers(states[j], actions[j], k)
    requires |states[i].sent| - |states[b].sent| < WORD_MAX && states[i].active.Idle?
    ensures Occupied(states[i], k) && |states[b].sent| <= |states[i].sent|
    ensures var rx := states[i].slots[k].value;
            rx.received + rx.state.buf == states[i].sent[|states[b].sent|..]
  {
    MixedServe(states, actions, b, i, k);
    GuaranteedDelivery(states, actions, i, k);
  }

  // ----- A run that loses a message

  /** One subscriber with room for one message, which has got everything and was
      stamped with the id `id` before the last `m` messages. */
  ghost predicate Alone<T>(s: Chan<T>, id: nat, m: nat) {
    && s.strong == 1 && s.weak == 1 && |s.slots| == 1 && s.handles == {0} && Occupied(s, 0)
    && var rx := s.slots[0].value;
       && !rx.state.unbounded && rx.state.room == 1
       && rx.state.id == id && rx.lag == m && rx.since == 0
  }

  /** It has also received everything, and was stamped with 1. */
  ghost predicate Drained<T>(s: Chan<T>, m: nat) {
    && Alone(s, 1, m) && s.active.Idle?
    && s.slots[0].value.state.buf == [] && |s.slots[0].value.got| == |s.sent|
  }

  /** It receives every message before the next one is sent. */
  lemma DrainedOn<T>(s: Chan<T>, v: T, m: nat)
    requires Drained(s, m)
    ensures Enabled(s, TrySend(v)) && Enabled(Step(s, TrySend(v)), Action<T>.PollRecv(0, 0))
    ensures Drained(Step(Step(s, TrySend(v)), PollRecv(0, 0)), m + 1)
  {
  }

  /** Nothing has been sent yet. */
  ghost predicate Untold<T>(s: Chan<T>) {
    && Alone(s, 0, 0) && s.active.Idle? && s.id == 0 && s.sent == []
    && s.slots[0].value.state.buf == [] && s.slots[0].value.got == []
  }

  /** The first message has been announced, and is served next. */
  ghost predicate Told<T>(s: Chan<T>, v: T) {
    && Alone(s, 0, 1) && s.active == Sending(0, v, None) && s.id == 1 && s.sent == [v]
    && s.slots[0].value.state.buf == [] && s.slots[0].value.got == []
  }

  ghost predicate Holding<T>(s: Chan<T>, v: T) {
    && Alone(s, 1, 0) && s.active.Idle? && s.sent == [v] && s.sender == Some(0)
    && s.slots[0].value.state.buf == [v] && s.slots[0].value.got == [0]
  }

  lemma FirstSubscriber<T>() returns (states: seq<Chan<T>>, actions: seq<Action<T>>)
    ensures IsRun(states, actions) && |actions| == 1 && Untold(states[1])
  {
    var capacity: Option<nat> := Some(1);
    states, actions := ExtendRun([New(capacity)], [], Subscribe(0, 1));
  }

  lemma Announced<T>(s: Chan<T>, v: T)
    requires Untold(s)
    ensures Enabled(s, StartSend(v)) && Told(Step(s, StartSend(v)), v)
  {
  }

  lemma Served<T>(s: Chan<T>, v: T)
    requires Told(s, v)
    ensures Enabled(s, Action<T>.PollSend(0)) && Holding(Step(s, PollSend(0)), v)
  {
    assert SendStep(s, 0).slots[0] == Some(Offer(s.slots[0].value, 1, v, 0));
  }

  lemma Taken<T>(s: Chan<T>, v: T)
    requires Holding(s, v)
    ensures Enabled(s, Action<T>.PollRecv(0, 0))
    ensures Drained(Step(s, PollRecv(0, 0)), 0) && Step(s, PollRecv(0, 0)).sender == Some(0)
  {
  }

  lemma DrainedFirst<T>(v: T) returns (states: seq<Chan<T>>, actions: seq<Action<T>>)
    ensures IsRun(states, actions) && |actions| == 4 && Drained(states[4], 0) && states[4].sender == Some(0)
  {
    hide Step, Enabled, Untold, Told, Holding, Drained;
    states, actions := FirstSubscriber();
    Announced(states[1], v);
    states, actions := ExtendRun(states, actions, StartSend(v));
    Served(states[2], v);
    states, actions := ExtendRun(states, actions, PollSend(0));
    Taken(states[3], v);
    states, actions := ExtendRun(states, actions, PollRecv(0, 0));
  }

  lemma {:induction false} DrainedRun<T>(v: T, m: nat) returns (states: seq<Chan<T>>, actions: seq<Action<T>>)
    ensures IsRun(states, actions) && Drained(states[|actions|], m)
  {
    if m == 0 {
      states, actions := DrainedFirst(v);
    } else {
      states, actions := DrainedRun(v, m - 1);
      DrainedOn(states[|actions|], v, m - 1);
      states, actions := ExtendRun(states, actions, TrySend(v));
      states, actions := ExtendRun(states, actions, PollRecv(0, 0));
    }
  }

  /** The failing run: after 2^64-2 calls of `try_send`, each of them received
      before the next one, the id of the next `send` is the old stamp. The `send`
      completes without reaching a subscriber that has received everything before
      it and whose buffer is empty. */
  lemma WrapAroundLosesMessage<T>(v: T) returns (states: seq<Chan<T>>, actions: seq<Action<T>>)
    ensures IsRun(states, actions) && |actions| >= 2
    ensures actions[|actions| - 2] == StartSend(v) && actions[|actions| - 1] == PollSend(0)
    ensures var before, after := states[|actions| - 2], states[|actions|];
            && Occupied(before, 0) && Occupied(after, 0) && after.active.Idle?
            && Complete(before, before.slots[0].value) && before.slots[0].value.state.buf == []
            && before.slots[0].value.state.room == 1
            && after.slots[0].value.got == before.slots[0].value.got
            && !Complete(after, after.slots[0].value)
  {
    states, actions := DrainedRun(v, WORD_MAX - 1);
    var n := |actions|;
    var before := states[n];
    StaleStampIff(states, actions, n, 0, v);
    DrainedComplete(states, actions, WORD_MAX - 1);
    SkippedSend(before, v);
    states, actions := ExtendRun(states, actions, StartSend(v));
    states, actions := ExtendRun(states, actions, PollSend(0));
  }

  lemma DrainedComplete<T>(states: seq<Chan<T>>, actions: seq<Action<T>>, m: nat)
    requires IsRun(states, actions) && Drained(states[|actions|], m)
    ensures Complete(states[|actions|], states[|actions|].slots[0].value)
  {
    var s := states[|actions|];
    InvAlways(states, actions, |actions|);
    assert SlotOk(s, 0);
    AllOfThem(s.slots[0].value.got, |s.sent|);
  }

  /** A `send` whose id is the subscriber's stamp already completes at once and delivers nothing. */
  lemma SkippedSend<T>(s: Chan<T>, v: T)
    requires s.active.Idle? && s.strong == 1 && s.weak == 1 && |s.slots| == 1 && Occupied(s, 0)
    requires s.slots[0].value.state.id == Bump(s.id)
    requires |s.slots[0].value.got| == |s.sent| && s.slots[0].value.since == 0
    ensures Enabled(s, StartSend(v)) && Enabled(Step(s, StartSend(v)), Action<T>.PollSend(0))
    ensures var after := Step(Step(s, StartSend(v)), PollSend(0));
            && after.active.Idle? && Occupied(after, 0)
            && after.slots[0].value.got == s.slots[0].value.got
            && !Complete(after, after.slots[0].value)
  {
    var mid := Step(s, StartSend(v));
    var after := SendStep(mid, 0);
    assert after.slots[0] == mid.slots[0];
    assert AllCarry(Deliver(mid.(sender := Some(0)), Some(mid.id), v, |s.sent|).slots, mid.id);
  }

  /** As many increasing indices below `n` as there are: all of them. */
  lemma {:induction false} AllOfThem(got: seq<nat>, n: nat)
    requires Increasing(got) && |got| == n
    requires forall j :: 0 <= j < |got| ==> got[j] < n
    ensures got == Upto(0, n)
  {
    if n > 0 {
      var init := got[..n - 1];
      forall j | 0 <= j < n - 1 ensures init[j] < n - 1 {
        assert got[j] < got[n - 1];
      }
      AllOfThem(init, n - 1);
      if n > 1 {
        assert init[n - 2] == n - 2;
      }
      assert got == init + [got[n - 1]];
      UptoStep(0, n - 1, init);
    }
  }
}
