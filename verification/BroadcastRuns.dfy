/** What holds over whole runs of the broadcast channel. */
module BroadcastRuns {
  import opened Common
  import opened Sums
  import opened Wakeups
  import opened BroadcastModel

  // ----- Message ids

  function BumpN(id: nat, k: nat): nat {
    if k == 0 then id else Bump(BumpN(id, k - 1))
  }

  /** The closed form of repeated bumping: the ids cycle through `1..2^64-1`. */
  lemma {:induction false} BumpNClosed(id: nat, k: nat)
    requires 1 <= id <= WORD_MAX
    ensures BumpN(id, k) == (id - 1 + k) % WORD_MAX + 1
  {
    if k == 0 {
      ModUnique(id - 1, 0, id - 1);
    } else {
      BumpNClosed(id, k - 1);
      BumpMod(id - 2 + k);
    }
  }

  /** From the initial 0 the first bump gives 1, and 0 never comes back. */
  lemma BumpNFromZero(k: nat)
    ensures BumpN(0, k + 1) == k % WORD_MAX + 1
  {
    BumpNFromOne(k);
    BumpNClosed(1, k);
  }

  lemma {:induction false} BumpNFromOne(k: nat)
    ensures BumpN(0, k + 1) == BumpN(1, k)
  {
    if k == 0 {
      assert BumpN(0, 1) == Bump(BumpN(0, 0));
    } else {
      BumpNFromOne(k - 1);
    }
  }

  lemma BumpMod(m: nat)
    ensures Bump(m % WORD_MAX + 1) == (m + 1) % WORD_MAX + 1
  {
    BumpCycles(m % WORD_MAX);
    ModNext(m);
  }

  lemma BumpCycles(r: nat)
    requires r < WORD_MAX
    ensures Bump(r + 1) == if r + 1 == WORD_MAX then 1 else r + 2
  {
  }

  lemma ModNext(m: nat)
    ensures (m + 1) % WORD_MAX == if m % WORD_MAX + 1 == WORD_MAX then 0 else m % WORD_MAX + 1
  {
    var q, r := m / WORD_MAX, m % WORD_MAX;
    if r + 1 == WORD_MAX {
      ModUnique(m + 1, q + 1, 0);
    } else {
      ModUnique(m + 1, q, r + 1);
    }
  }

  /** Exactly when a stamp is mistaken for the current message: after a positive
      multiple of 2^64-1 bumps, and never if the stamp is the initial 0. */
  lemma StaleStampCollides(id: nat, k: nat)
    requires id <= WORD_MAX
    ensures k > 0 && BumpN(id, k) == id <==> k > 0 && id >= 1 && k % WORD_MAX == 0
  {
    if id >= 1 {
      BumpNClosed(id, k);
      ModShift(id - 1, k);
    } else if k > 0 {
      BumpNFromZero(k - 1);
    }
  }

  lemma ModShift(a: nat, k: nat)
    requires a < WORD_MAX
    ensures (a + k) % WORD_MAX == a <==> k % WORD_MAX == 0
  {
    var q, r := k / WORD_MAX, k % WORD_MAX;
    assert k == q * WORD_MAX + r;
    if a + r < WORD_MAX {
      ModUnique(a + k, q, a + r);
    } else {
      ModUnique(a + k, q + 1, a + r - WORD_MAX);
    }
  }

  lemma ModUnique(m: nat, q: nat, r: nat)
    requires r < WORD_MAX && m == q * WORD_MAX + r
    ensures m % WORD_MAX == r
  {
  }

  // ----- The invariant

  /** The values of the messages that `got` lists. */
  function Values<T>(sent: seq<T>, got: seq<nat>): (r: seq<T>)
    requires forall j :: 0 <= j < |got| ==> got[j] < |sent|
    ensures |r| == |got|
  {
    seq(|got|, j requires 0 <= j < |got| => sent[got[j]])
  }

  ghost predicate Increasing(got: seq<nat>) {
    forall j, k :: 0 <= j < k < |got| ==> got[j] < got[k]
  }

  /** What a subscriber has received and has still buffered are values sent since
      it subscribed, in order and each at most once. */
  ghost predicate InOrder<T>(sent: seq<T>, rx: Rx<T>) {
    && rx.since <= |sent|
    && Increasing(rx.got)
    && (forall j :: 0 <= j < |rx.got| ==> rx.since <= rx.got[j] < |sent|)
    && rx.received + rx.state.buf == Values(sent, rx.got)
  }

  /** A bounded buffer never outgrows its allocation. */
  ghost predicate Bounded<T>(rx: Rx<T>) {
    rx.state.room >= 1 && (!rx.state.unbounded ==> |rx.state.buf| <= rx.state.room)
  }

  /** The stamp is as many bumps behind the channel's id as recorded. */
  ghost predicate StampOk<T>(id: nat, rx: Rx<T>) {
    rx.state.id <= WORD_MAX && id == BumpN(rx.state.id, rx.lag)
  }

  /** Nobody subscribes during a `send`, and whoever holds its message carries its stamp. */
  ghost predicate HoldersStamped<T>(s: Chan<T>, rx: Rx<T>) {
    s.active.Sending? ==>
      && rx.since <= s.active.n
      && (rx.got != [] && rx.got[|rx.got| - 1] == s.active.n ==> rx.state.id == s.id)
  }

  /** A `recv` sleeps only with its latest waker registered, nothing buffered and a sender to wait for. */
  ghost predicate RecvSound<T>(s: Chan<T>, rx: Rx<T>) {
    && Marked(s.wakes, rx.parked)
    && (Asleep(s.wakes, rx.parked) ==>
          rx.state.waker == Some(rx.parked.value.task) && rx.state.buf == [] && s.strong == 1)
  }

  ghost predicate RxOk<T>(s: Chan<T>, rx: Rx<T>) {
    InOrder(s.sent, rx) && Bounded(rx) && StampOk(s.id, rx) && HoldersStamped(s, rx) && RecvSound(s, rx)
  }

  ghost predicate SlotOk<T>(s: Chan<T>, i: nat) {
    && (Occupied(s, i) <==> i in s.handles)
    && (Occupied(s, i) ==> RxOk(s, s.slots[i].value))
  }

  /** A receiver that a sleeping `send` waits for: not yet stamped, and full. */
  ghost predicate Blocks<T>(s: Chan<T>, i: nat) {
    Occupied(s, i) && s.slots[i].value.state.id != s.id && s.slots[i].value.state.AtCapacity()
  }

  /** A `send` sleeps only with its latest waker registered, while some receiver
      is full and every receiver is full or served. */
  ghost predicate SendSound<T>(s: Chan<T>) {
    s.active.Sending? && s.active.parked.Some? ==>
      && Marked(s.wakes, s.active.parked)
      && (Asleep(s.wakes, s.active.parked) ==>
            && s.sender == Some(s.active.parked.value.task)
            && (exists i: nat :: Blocks(s, i))
            && forall i: nat {:trigger Blocks(s, i)} ::
                 Occupied(s, i) && s.slots[i].value.state.id != s.id ==> Blocks(s, i))
  }

  ghost predicate Inv<T>(s: Chan<T>) {
    && s.id <= WORD_MAX
    && 0 <= s.strong <= 1 && s.weak == |s.handles| == Live(s.slots)
    && s.frees == (if s.strong + s.weak == 0 then 1 else 0)
    && (s.capacity.Some? ==> s.capacity.value > 0)
    && (s.active.Sending? ==> s.strong == 1 && |s.sent| == s.active.n + 1 && s.sent[s.active.n] == s.active.value)
    && SendSound(s)
    && forall i: nat {:trigger SlotOk(s, i)} :: SlotOk(s, i)
  }

  // ----- How the pieces move

  /** Two slab contents with the same occupied slots have the same length. */
  lemma LiveSame<S, S'>(slots: seq<Option<S>>, slots': seq<Option<S'>>)
    requires |slots| == |slots'|
    requires forall i :: 0 <= i < |slots| ==> (slots[i].Some? <==> slots'[i].Some?)
    ensures Live(slots) == Live(slots')
  {
    assert Occupancy(slots) == Occupancy(slots');
  }

  lemma LiveUpdate<S>(slots: seq<Option<S>>, i: nat, slot: Option<S>)
    requires i < |slots|
    ensures Live(slots[i := slot]) + (if slots[i].Some? then 1 else 0) == Live(slots) + (if slot.Some? then 1 else 0)
  {
    var x: nat := if slot.Some? then 1 else 0;
    assert Occupancy(slots[i := slot]) == Occupancy(slots)[i := x];
    TotalUpdate(Occupancy(slots), i, x);
  }

  lemma LiveAppend<S>(slots: seq<Option<S>>, slot: S)
    ensures Live(slots + [Some(slot)]) == Live(slots) + 1
  {
    assert Occupancy(slots + [Some(slot)]) == Occupancy(slots) + [1];
    TotalAppend(Occupancy(slots), 1);
  }

  lemma LiveNone<S>(slots: seq<Option<S>>)
    requires Live(slots) == 0
    ensures forall i :: 0 <= i < |slots| ==> slots[i].None?
  {
    forall i | 0 <= i < |slots| ensures slots[i].None? {
      TotalWithout(Occupancy(slots), i);
    }
  }

  /** Announcing a further message leaves the earlier ones where they are. */
  lemma ValuesStable<T>(sent: seq<T>, v: T, got: seq<nat>)
    requires forall j :: 0 <= j < |got| ==> got[j] < |sent|
    ensures Values(sent + [v], got) == Values(sent, got)
  {
  }

  lemma PushInOrder<T>(sent: seq<T>, rx: Rx<T>, v: T, n: nat)
    requires InOrder(sent, rx) && rx.since <= n < |sent| && sent[n] == v
    requires forall j :: 0 <= j < |rx.got| ==> rx.got[j] < n
    ensures InOrder(sent, Push(rx, v, n))
  {
    assert Values(sent, rx.got + [n]) == Values(sent, rx.got) + [v];
    assert (rx.received + rx.state.buf) + [v] == rx.received + (rx.state.buf + [v]);
  }

  // ----- Every step keeps the invariant

  lemma SubscribeSlot<T>(s: Chan<T>, i: nat, room: nat, k: nat)
    requires Inv(s) && Enabled(s, Subscribe(i, room))
    ensures SlotOk(SubscribeStep(s, i, room), k)
  {
    assert SlotOk(s, k);
    if k == i {
      assert Values(s.sent, []) == [];
    }
  }

  lemma SubscribeKeeps<T>(s: Chan<T>, i: nat, room: nat)
    requires Inv(s) && Enabled(s, Subscribe(i, room))
    ensures Inv(SubscribeStep(s, i, room))
  {
    var s' := SubscribeStep(s, i, room);
    assert SlotOk(s, i) && i !in s.handles;
    if i < |s.slots| {
      LiveUpdate(s.slots, i, s'.slots[i]);
    } else {
      LiveAppend(s.slots, s'.slots[i].value);
    }
    forall k: nat ensures SlotOk(s', k) {
      SubscribeSlot(s, i, room, k);
    }
  }

  lemma TrySendKeeps<T>(s: Chan<T>, v: T)
    requires Inv(s) && Enabled(s, TrySend(v))
    ensures Inv(Step(s, TrySend(v)))
  {
    var s', n := Step(s, TrySend(v)), |s.sent|;
    LiveSame(s.slots, s'.slots);
    forall k: nat ensures SlotOk(s', k) {
      assert SlotOk(s, k);
      if Occupied(s, k) {
        AnnounceSlot(s, k, v);
        var rx := Announce(s, v).slots[k].value;
        if s.weak != 0 {
          PushInOrder(s'.sent, rx, v, n);
          DeliveredSleep(Announce(s, v), None, v, n, k);
        }
      }
    }
  }

  lemma AnnounceSlot<T>(s: Chan<T>, k: nat, v: T)
    requires Inv(s) && s.active.Idle? && Occupied(s, k)
    ensures var rx := s.slots[k].value.(lag := s.slots[k].value.lag + 1);
            && Announce(s, v).slots[k] == Some(rx)
            && RxOk(Announce(s, v), rx)
            && forall j :: 0 <= j < |rx.got| ==> rx.got[j] < |s.sent|
  {
    assert SlotOk(s, k);
    ValuesStable(s.sent, v, s.slots[k].value.got);
  }

  /** A round keeps `recv`s sound: whoever gets a message is woken. */
  lemma DeliveredSleep<T>(s: Chan<T>, id: Option<nat>, v: T, n: nat, k: nat)
    requires Occupied(s, k) && RecvSound(s, s.slots[k].value)
    ensures RecvSound(Deliver(s, id, v, n), Deliver(s, id, v, n).slots[k].value)
  {
    var s' := Deliver(s, id, v, n);
    AsleepBefore(s.wakes, Flatten(RoundWakers(s.slots, s'.slots)), s.slots[k].value.parked);
    FlattenHas(RoundWakers(s.slots, s'.slots), k);
  }

  lemma StartSendKeeps<T>(s: Chan<T>, v: T)
    requires Inv(s) && Enabled(s, StartSend(v))
    ensures Inv(Step(s, StartSend(v)))
  {
    var s' := Step(s, StartSend(v));
    LiveSame(s.slots, s'.slots);
    forall k: nat ensures SlotOk(s', k) {
      assert SlotOk(s, k);
      if Occupied(s, k) {
        AnnounceSlot(s, k, v);
      }
    }
  }

  lemma PollSendKeeps<T>(s: Chan<T>, task: TaskId)
    requires Inv(s) && Enabled(s, Action<T>.PollSend(task))
    ensures Inv(SendStep(s, task))
  {
    var s' := SendStep(s, task);
    if s.weak == 0 {
      forall k: nat ensures SlotOk(s', k) {
        assert SlotOk(s, k);
      }
    } else {
      var s0 := s.(sender := Some(task));
      var v, n := s.active.value, s.active.n;
      var round := Deliver(s0, Some(s.id), v, n);
      LiveSame(s.slots, s'.slots);
      forall k: nat ensures SlotOk(s', k) {
        assert SlotOk(s, k);
        if Occupied(s, k) {
          OfferedSlot(s, k);
          DeliveredSleep(s0, Some(s.id), v, n, k);
        }
      }
      forall k: nat | Occupied(s', k) && s'.slots[k].value.state.id != s'.id ensures Blocks(s', k) {
      }
      if s'.active.Sending? {
        var k :| 0 <= k < |round.slots| && round.slots[k].Some? && round.slots[k].value.state.id != round.id;
        assert Blocks(s', k);
      }
    }
  }

  lemma OfferedSlot<T>(s: Chan<T>, k: nat)
    requires Inv(s) && s.active.Sending? && Occupied(s, k)
    ensures var rx := Offer(s.slots[k].value, s.id, s.active.value, s.active.n);
            InOrder(s.sent, rx) && Bounded(rx) && StampOk(s.id, rx) && HoldersStamped(s, rx)
  {
    assert SlotOk(s, k);
    var rx := s.slots[k].value;
    if rx.state.id != s.id {
      forall j | 0 <= j < |rx.got| ensures rx.got[j] < s.active.n {
        assert rx.got[j] <= rx.got[|rx.got| - 1];
      }
      PushInOrder(s.sent, rx, s.active.value, s.active.n);
    }
  }

  lemma CancelSendKeeps<T>(s: Chan<T>)
    requires Inv(s) && Enabled(s, Action<T>.CancelSend)
    ensures Inv(s.(active := Idle))
  {
    forall k: nat ensures SlotOk(s.(active := Idle), k) {
      assert SlotOk(s, k);
    }
  }

  /** After a step that wakes the registered sender, the `send` in progress is not asleep. */
  lemma SenderWoken<T>(s: Chan<T>, wakes: seq<TaskId>)
    requires Inv(s) && wakes == WakeOpt(s.wakes, s.sender)
    ensures s.active.Sending? ==> !Asleep(wakes, s.active.parked)
  {
    if s.active.Sending? && s.active.parked.Some? {
      WakeEnds(s.wakes, s.sender, s.active.parked);
    }
  }

  lemma OthersSleep<T>(s: Chan<T>, k: nat)
    requires Inv(s) && Occupied(s, k)
    ensures var wakes, rx := WakeOpt(s.wakes, s.sender), s.slots[k].value;
            && Marked(wakes, rx.parked)
            && (Asleep(wakes, rx.parked) ==> Asleep(s.wakes, rx.parked))
  {
    assert SlotOk(s, k);
    WakeEnds(s.wakes, s.sender, s.slots[k].value.parked);
  }

  lemma PollRecvOther<T>(s: Chan<T>, i: nat, task: TaskId, k: nat)
    requires Inv(s) && Occupied(s, i) && k != i
    ensures SlotOk(RecvStep(s, i, task), k)
  {
    assert SlotOk(s, k);
    if Occupied(s, k) {
      OthersSleep(s, k);
    }
  }

  lemma PollRecvOwn<T>(s: Chan<T>, i: nat, task: TaskId)
    requires Inv(s) && Occupied(s, i)
    ensures SlotOk(RecvStep(s, i, task), i)
  {
    assert SlotOk(s, i);
    var rx := s.slots[i].value;
    if rx.state.buf != [] {
      assert rx.received + rx.state.buf == (rx.received + [rx.state.buf[0]]) + rx.state.buf[1..];
    }
  }

  lemma PollRecvKeeps<T>(s: Chan<T>, i: nat, task: TaskId)
    requires Inv(s) && Enabled(s, Action<T>.PollRecv(i, task))
    ensures Inv(RecvStep(s, i, task))
  {
    assert SlotOk(s, i);
    var s' := RecvStep(s, i, task);
    LiveUpdate(s.slots, i, s'.slots[i]);
    SenderWoken(s, WakeOpt(s.wakes, s.sender));
    forall k: nat ensures SlotOk(s', k) {
      if k == i {
        PollRecvOwn(s, i, task);
      } else {
        PollRecvOther(s, i, task, k);
      }
    }
    if s.slots[i].value.state.buf == [] && s.strong == 0 {
      assert s.active.Idle?;
    }
  }

  lemma CancelRecvKeeps<T>(s: Chan<T>, i: nat)
    requires Inv(s) && Enabled(s, Action<T>.CancelRecv(i))
    ensures Inv(Step(s, CancelRecv(i)))
  {
    assert SlotOk(s, i);
    var rx := s.slots[i].value.(parked := None);
    var s' := Receiving(s, rx, i);
    LiveUpdate(s.slots, i, Some(rx));
    assert RxOk(s', rx);
    forall k: nat ensures SlotOk(s', k) {
      assert SlotOk(s, k);
    }
    forall k: nat ensures Blocks(s', k) <==> Blocks(s, k) {
    }
  }

  lemma DropReceiverKeeps<T>(s: Chan<T>, i: nat)
    requires Inv(s) && Enabled(s, Action<T>.DropReceiver(i))
    ensures Inv(DropReceiverStep(s, i))
  {
    assert SlotOk(s, i);
    var s' := DropReceiverStep(s, i);
    LiveUpdate(s.slots, i, None);
    SenderWoken(s, WakeOpt(s.wakes, s.sender));
    forall k: nat ensures SlotOk(s', k) {
      assert SlotOk(s, k);
      if Occupied(s, k) {
        OthersSleep(s, k);
      }
    }
  }

  lemma DropSenderKeeps<T>(s: Chan<T>)
    requires Inv(s) && Enabled(s, Action<T>.DropSender)
    ensures Inv(Step(s, DropSender))
  {
    var s' := Step(s, DropSender);
    LiveSame(s.slots, s'.slots);
    forall k: nat ensures SlotOk(s', k) {
      assert SlotOk(s, k);
      if Occupied(s, k) {
        AsleepBefore(s.wakes, Flatten(Wakers(s.slots)), s.slots[k].value.parked);
        if s.slots[k].value.state.waker.Some? {
          FlattenHas(Wakers(s.slots), k);
          assert s.slots[k].value.state.waker.value in Wakers(s.slots)[k];
        }
      }
    }
  }

  /** What a poll of `recv` answers and does: the value that comes out is the oldest
      of the subscriber's buffer, and it is the one that joins the history. */
  lemma RecvExact<T>(s: Chan<T>, i: nat, task: TaskId)
    requires Occupied(s, i)
    ensures var s', r := RecvStep(s, i, task), RecvResult(s, i);
            && |s'.slots| == |s.slots| && Occupied(s', i)
            && (forall j :: 0 <= j < |s.slots| && j != i ==> s'.slots[j] == s.slots[j])
            && var rx, rx' := s.slots[i].value, s'.slots[i].value;
               && (r.Value? ==> rx.state.buf == [r.value] + rx'.state.buf && rx'.received == rx.received + [r.value])
               && (!r.Value? ==> rx.state.buf == rx'.state.buf == [] && rx'.received == rx.received)
               && (r.Closed? <==> rx.state.buf == [] && s.strong == 0)
               && (r.Pending? ==> rx'.state.waker == Some(task))
  {
  }

  lemma StepKeepsInv<T>(s: Chan<T>, a: Action<T>)
    requires Inv(s) && Enabled(s, a)
    ensures Inv(Step(s, a))
  {
    match a
    case Subscribe(i, room) => SubscribeKeeps(s, i, room);
    case TrySend(v) => TrySendKeeps(s, v);
    case StartSend(v) => StartSendKeeps(s, v);
    case PollSend(task) => PollSendKeeps(s, task);
    case CancelSend => CancelSendKeeps(s);
    case PollRecv(i, task) => PollRecvKeeps(s, i, task);
    case CancelRecv(i) => CancelRecvKeeps(s, i);
    case DropReceiver(i) => DropReceiverKeeps(s, i);
    case DropSender => DropSenderKeeps(s);
  }

  lemma {:induction false} InvAlways<T>(states: seq<Chan<T>>, actions: seq<Action<T>>, i: nat)
    requires IsRun(states, actions) && i < |states|
    ensures Inv(states[i])
  {
    if i > 0 {
      InvAlways(states, actions, i - 1);
      assert StepAt(states, actions, i - 1);
      StepKeepsInv(states[i - 1], actions[i - 1]);
    }
  }

  lemma ExtendRun<T>(states: seq<Chan<T>>, actions: seq<Action<T>>, a: Action<T>)
    returns (states': seq<Chan<T>>, actions': seq<Action<T>>)
    requires IsRun(states, actions) && Enabled(states[|actions|], a)
    ensures IsRun(states', actions')
    ensures states' == states + [Step(states[|actions|], a)] && actions' == actions + [a]
  {
    states', actions' := states + [Step(states[|actions|], a)], actions + [a];
    assert states'[0] == states[0];
    forall i: nat | i < |actions'| ensures StepAt(states', actions', i) {
      assert i < |actions| ==> StepAt(states, actions, i);
    }
  }
}
