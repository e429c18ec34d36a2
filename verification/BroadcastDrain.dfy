/** How a broadcast channel winds down when nothing new is sent. */
module BroadcastDrain {
  import opened Common
  import opened Sums
  import opened Wakeups
  import opened BroadcastModel
  import opened BroadcastRuns
  import opened BroadcastDelivery
  import opened BroadcastAnswers

  /** No parked `recv`, and not the one that `task` is about to park in slot `i`,
      belongs to the task that the sender registered last. */
  ghost predicate Apart<T>(s: Chan<T>, i: nat, task: TaskId) {
    && s.sender != Some(task)
    && forall j: nat {:trigger ParkedApart(s, j)} :: j != i ==> ParkedApart(s, j)
  }

  ghost predicate ParkedApart<T>(s: Chan<T>, j: nat) {
    Occupied(s, j) && s.slots[j].value.parked.Some? ==> s.sender != Some(s.slots[j].value.parked.value.task)
  }

  ghost predicate Sleeps<T>(s: Chan<T>, i: nat)
    requires Occupied(s, i)
  {
    Asleep(s.wakes, s.slots[i].value.parked)
  }

  /** The polls of a system in which nothing new is sent: a future is polled only
      while it does not sleep, and the end of the channel is not asked for again. */
  ghost predicate Drains<T>(s: Chan<T>, a: Action<T>) {
    match a
    case PollSend(_) => s.active.Sending? && !Asleep(s.wakes, s.active.parked)
    case PollRecv(i, task) =>
      && Occupied(s, i) && !Sleeps(s, i) && !RecvResult(s, i).Closed?
      && (RecvResult(s, i).Pending? ==> Apart(s, i, task))
    case _ => false
  }

  /** Exactly when a `recv` that finds nothing sleeps afterwards: it wakes the task
      that the sender registered last, even if that is its own. */
  lemma PendingSleepsIff<T>(s: Chan<T>, i: nat, task: TaskId)
    requires Occupied(s, i) && RecvResult(s, i).Pending?
    ensures Occupied(RecvStep(s, i, task), i)
    ensures Sleeps(RecvStep(s, i, task), i) <==> s.sender != Some(task)
  {
    var s' := RecvStep(s, i, task);
    if s.sender == Some(task) {
      assert s'.wakes[|s.wakes|] == task;
    }
  }

  // ----- What is left to do

  function Buffered<T>(slots: seq<Option<Rx<T>>>): (r: seq<nat>)
    ensures |r| == |slots|
  {
    seq(|slots|, i requires 0 <= i < |slots| => if slots[i].Some? then |slots[i].value.state.buf| else 0)
  }

  function Behind<T>(slots: seq<Option<Rx<T>>>, id: nat): (r: seq<nat>)
    ensures |r| == |slots|
  {
    seq(|slots|, i requires 0 <= i < |slots| => if slots[i].Some? && slots[i].value.state.id != id then 1 else 0)
  }

  ghost function Awake<T>(s: Chan<T>): (r: seq<nat>)
    ensures |r| == |s.slots|
  {
    seq(|s.slots|, i requires 0 <= i < |s.slots| => if s.slots[i].Some? && !Sleeps(s, i) then 1 else 0)
  }

  ghost function SendAwake<T>(s: Chan<T>): nat {
    if s.active.Sending? && !Asleep(s.wakes, s.active.parked) then 1 else 0
  }

  function Unserved<T>(s: Chan<T>): nat {
    if s.active.Sending? then Total(Behind(s.slots, s.id)) else 0
  }

  /** Every subscriber that a `send` still has to serve outweighs the values that it
      makes others receive, and every value the futures that its receipt may wake. */
  function Weigh(n: nat, buffered: nat, awake: nat, unserved: nat, sending: nat): nat {
    (2 * n + 2) * buffered + 2 * awake + (4 * n + 3) * unserved + sending
  }

  ghost function Effort<T>(s: Chan<T>): nat {
    Weigh(|s.slots|, Total(Buffered(s.slots)), Total(Awake(s)), Unserved(s), SendAwake(s))
  }

  lemma AwakeAtMostAll<T>(s: Chan<T>)
    ensures Total(Awake(s)) <= |s.slots|
  {
    TotalCounts(Awake(s));
  }

  // ----- Every poll descends

  lemma ValueDescends<T>(s: Chan<T>, i: nat, task: TaskId)
    requires Inv(s) && Occupied(s, i) && s.slots[i].value.state.buf != []
    ensures Effort(RecvStep(s, i, task)) < Effort(s)
  {
    var s' := RecvStep(s, i, task);
    var b := Buffered(s.slots);
    assert Buffered(s'.slots) == b[i := b[i] - 1];
    TotalUpdate(b, i, b[i] - 1);
    assert Behind(s'.slots, s'.id) == Behind(s.slots, s.id);
    AwakeAtMostAll(s');
    Spends(|s.slots|, Total(b), Total(Awake(s)), Unserved(s), SendAwake(s), Total(Awake(s')), SendAwake(s'));
  }

  lemma PendingDescends<T>(s: Chan<T>, i: nat, task: TaskId)
    requires Inv(s) && Occupied(s, i) && RecvResult(s, i).Pending? && !Sleeps(s, i) && Apart(s, i, task)
    ensures Effort(RecvStep(s, i, task)) < Effort(s)
  {
    var s' := RecvStep(s, i, task);
    assert Buffered(s'.slots) == Buffered(s.slots);
    assert Behind(s'.slots, s'.id) == Behind(s.slots, s.id);
    PendingSleepsIff(s, i, task);
    forall j | 0 <= j < |s.slots| && j != i ensures Awake(s')[j] == Awake(s)[j] {
      OthersSleepOn(s, i, task, j);
    }
    assert Awake(s') == Awake(s)[i := 0];
    TotalUpdate(Awake(s), i, 0);
  }

  lemma OthersSleepOn<T>(s: Chan<T>, i: nat, task: TaskId, j: nat)
    requires Inv(s) && Occupied(s, i) && RecvResult(s, i).Pending? && Apart(s, i, task) && j != i
    ensures Occupied(s, j) ==> (Sleeps(RecvStep(s, i, task), j) <==> Sleeps(s, j))
  {
    assert ParkedApart(s, j) && SlotOk(s, j);
    if Occupied(s, j) {
      WakeEnds(s.wakes, s.sender, s.slots[j].value.parked);
    }
  }

  lemma OfferMoves<T>(s: Chan<T>, i: nat)
    requires Inv(s) && s.active.Sending? && i < |s.slots|
    ensures var slots := OfferAll(s.slots, Some(s.id), s.active.value, s.active.n);
            && Buffered(slots)[i] + Behind(slots, s.id)[i] == Buffered(s.slots)[i] + Behind(s.slots, s.id)[i]
            && Behind(slots, s.id)[i] <= Behind(s.slots, s.id)[i]
            && (Behind(slots, s.id)[i] == Behind(s.slots, s.id)[i] ==> slots[i] == s.slots[i])
  {
  }

  /** A poll of `send` turns unserved subscribers into buffered values; if it serves
      nobody, it changes no slot and wakes nobody. */
  lemma SendMoves<T>(s: Chan<T>) returns (served: nat)
    requires Inv(s) && s.active.Sending?
    ensures var slots := OfferAll(s.slots, Some(s.id), s.active.value, s.active.n);
            && Total(Behind(slots, s.id)) + served == Total(Behind(s.slots, s.id))
            && Total(Buffered(slots)) == Total(Buffered(s.slots)) + served
            && (served == 0 ==> slots == s.slots)
  {
    var slots := OfferAll(s.slots, Some(s.id), s.active.value, s.active.n);
    var n, b, b', u, u' := |s.slots|, Buffered(s.slots), Buffered(slots), Behind(s.slots, s.id), Behind(slots, s.id);
    forall i | 0 <= i < n
      ensures b'[i] + u'[i] == b[i] + u[i] && u'[i] <= u[i] && (u'[i] == u[i] ==> slots[i] == s.slots[i])
    {
      OfferMoves(s, i);
    }
    var both := seq(n, i requires 0 <= i < n => b[i] + u[i]);
    TotalPlus(b, u, both);
    TotalPlus(b', u', both);
    TotalBelow(u', u);
    served := Total(u) - Total(u');
  }

  lemma SendDescends<T>(s: Chan<T>, task: TaskId)
    requires Inv(s) && Enabled(s, Action<T>.PollSend(task)) && !Asleep(s.wakes, s.active.parked)
    ensures Effort(SendStep(s, task)) < Effort(s)
  {
    if s.weak == 0 {
      assert Awake(SendStep(s, task)) == Awake(s);
    } else {
      var served := SendMoves(s);
      if served == 0 {
        FruitlessRound(s, task);
      } else {
        ServingRound(s, task, served);
      }
    }
  }

  lemma ServingRound<T>(s: Chan<T>, task: TaskId, served: nat)
    requires Inv(s) && Enabled(s, Action<T>.PollSend(task)) && !Asleep(s.wakes, s.active.parked) && s.weak != 0
    requires var slots := OfferAll(s.slots, Some(s.id), s.active.value, s.active.n);
             && served > 0 && Total(Behind(slots, s.id)) + served == Total(Behind(s.slots, s.id))
             && Total(Buffered(slots)) == Total(Buffered(s.slots)) + served
    ensures Effort(SendStep(s, task)) < Effort(s)
  {
    var s' := SendStep(s, task);
    assert s'.slots == OfferAll(s.slots, Some(s.id), s.active.value, s.active.n) && s'.id == s.id;
    assert SendAwake(s) == 1;
    hide SendStep, OfferAll, Behind, Buffered, Awake;
    var b, b', a, a' := Total(Buffered(s.slots)), Total(Buffered(s'.slots)), Total(Awake(s)), Total(Awake(s'));
    AwakeAtMostAll(s');
    Pays(|s.slots|, b, a, Unserved(s), served, a', Unserved(s'), SendAwake(s'));
    assert b' == b + served;
  }

  lemma FruitlessRound<T>(s: Chan<T>, task: TaskId)
    requires Inv(s) && Enabled(s, Action<T>.PollSend(task)) && !Asleep(s.wakes, s.active.parked) && s.weak != 0
    requires OfferAll(s.slots, Some(s.id), s.active.value, s.active.n) == s.slots
    ensures Effort(SendStep(s, task)) < Effort(s)
  {
    var s' := SendStep(s, task);
    NoWakers(RoundWakers(s.slots, s.slots));
    assert s'.slots == s.slots && s'.wakes == s.wakes + [] == s.wakes;
    assert Awake(s') == Awake(s);
  }

  lemma Pays(
    n: nat, buffered: nat, awake: nat, unserved: nat, served: nat, awake': nat, unserved': nat, sending': nat)
    requires served > 0 && unserved' + served <= unserved && awake' <= n && sending' <= 1
    ensures Weigh(n, buffered + served, awake', unserved', sending') < Weigh(n, buffered, awake, unserved, 1)
  {
    assert (2 * n + 2) * (buffered + served) == (2 * n + 2) * buffered + (2 * n + 2) * served;
    var rest := unserved - unserved' - served;
    assert (4 * n + 3) * unserved == (4 * n + 3) * unserved' + (4 * n + 3) * served + (4 * n + 3) * rest;
    assert (4 * n + 3) * rest >= 0;
    assert (4 * n + 3) * served == (2 * n + 2) * served + (2 * n + 1) * served;
    assert (2 * n + 1) * served >= 2 * n + 1 by {
      assert (2 * n + 1) * (served - 1) >= 0;
    }
  }

  lemma Spends(n: nat, buffered: nat, awake: nat, unserved: nat, sending: nat, awake': nat, sending': nat)
    requires buffered > 0 && awake' <= n && sending' <= 1
    ensures Weigh(n, buffered - 1, awake', unserved, sending') < Weigh(n, buffered, awake, unserved, sending)
  {
    assert (2 * n + 2) * buffered == (2 * n + 2) * (buffered - 1) + 2 * n + 2;
  }

  lemma WeighsAtMost(n: nat, buffered: nat, awake: nat, unserved: nat, sending: nat)
    requires awake <= n && unserved <= n && sending <= 1
    ensures Weigh(n, buffered, awake, unserved, sending) <= (2 * n + 2) * buffered + (4 * n + 5) * n + 1
  {
    assert (4 * n + 3) * n == (4 * n + 3) * unserved + (4 * n + 3) * (n - unserved);
    assert (4 * n + 3) * (n - unserved) >= 0;
  }

  lemma DrainStepDescends<T>(s: Chan<T>, a: Action<T>)
    requires Inv(s) && Enabled(s, a) && Drains(s, a)
    ensures Effort(Step(s, a)) < Effort(s) && |Step(s, a).slots| == |s.slots|
  {
    match a
    case PollSend(task) => SendDescends(s, task);
    case PollRecv(i, task) =>
      if RecvResult(s, i).Pending? {
        PendingDescends(s, i, task);
      } else {
        ValueDescends(s, i, task);
      }
  }

  ghost predicate DrainsAt<T>(states: seq<Chan<T>>, actions: seq<Action<T>>, i: nat) {
    StepAt(states, actions, i) && Drains(states[i], actions[i])
  }

  ghost predicate IsDrain<T>(states: seq<Chan<T>>, actions: seq<Action<T>>) {
    && |states| == |actions| + 1
    && forall i: nat {:trigger DrainsAt(states, actions, i)} :: i < |actions| ==> DrainsAt(states, actions, i)
  }

  lemma {:induction false} DrainDescends<T>(states: seq<Chan<T>>, actions: seq<Action<T>>, i: nat)
    requires IsDrain(states, actions) && Inv(states[0]) && i < |states|
    ensures Inv(states[i]) && i + Effort(states[i]) <= Effort(states[0])
  {
    if i > 0 {
      DrainDescends(states, actions, i - 1);
      assert DrainsAt(states, actions, i - 1);
      StepKeepsInv(states[i - 1], actions[i - 1]);
      DrainStepDescends(states[i - 1], actions[i - 1]);
    }
  }

  /** With nothing new to send only so many polls are possible, in whatever order
      and however often the futures are polled. */
  lemma DrainBounded<T>(states: seq<Chan<T>>, actions: seq<Action<T>>)
    requires IsDrain(states, actions) && Inv(states[0])
    ensures var n := |states[0].slots|;
            |actions| <= (2 * n + 2) * Total(Buffered(states[0].slots)) + (4 * n + 5) * n + 1
  {
    var s := states[0];
    var n := |s.slots|;
    DrainDescends(states, actions, |actions|);
    AwakeAtMostAll(s);
    TotalCounts(Behind(s.slots, s.id));
    WeighsAtMost(n, Total(Buffered(s.slots)), Total(Awake(s)), Unserved(s), SendAwake(s));
  }

  /** How that ends: the `send` in progress is completed, and every subscriber has
      received all that was put into its buffer. */
  lemma DrainEnds<T>(states: seq<Chan<T>>, actions: seq<Action<T>>, k: nat)
    requires IsDrain(states, actions) && Inv(states[0])
    requires forall a :: Drains(states[|actions|], a) ==> !Enabled(states[|actions|], a)
    ensures states[|actions|].active.Idle?
    ensures Occupied(states[|actions|], k) ==>
              var rx := states[|actions|].slots[k].value;
              InOrder(states[|actions|].sent, rx) && rx.received == Values(states[|actions|].sent, rx.got)
  {
    DrainDescends(states, actions, |actions|);
    var s := states[|actions|];
    Idles(s);
    if Occupied(s, k) {
      assert SlotOk(s, k);
      Emptied(s, k);
    }
  }

  /** Then a subscriber that every step has served has received exactly what was sent since it subscribed. */
  lemma EverythingReceived<T>(states: seq<Chan<T>>, actions: seq<Action<T>>, k: nat)
    requires IsRun(states, actions) && Occupied(states[|actions|], k) && ServedSince(states, actions, |actions|, k)
    requires forall a :: Drains(states[|actions|], a) ==> !Enabled(states[|actions|], a)
    ensures var s, rx := states[|actions|], states[|actions|].slots[k].value;
            rx.since <= |s.sent| && rx.received == s.sent[rx.since..]
    ensures Missed(actions, |actions|, k) <= |Messages(actions, |actions|)|
    ensures Returned(states, actions, |actions|, k) == Messages(actions, |actions|)[Missed(actions, |actions|, k)..]
  {
    InvAlways(states, actions, |actions|);
    Idles(states[|actions|]);
    Emptied(states[|actions|], k);
    GuaranteedDelivery(states, actions, |actions|, k);
    SentIsAnnounced(states, actions, |actions|);
    AnswersAreHistory(states, actions, |actions|, k);
  }

  lemma Emptied<T>(s: Chan<T>, k: nat)
    requires Inv(s) && Occupied(s, k) && forall a :: Drains(s, a) ==> !Enabled(s, a)
    ensures s.slots[k].value.state.buf == []
  {
    var recv: Action<T> := PollRecv(k, 0);
    assert SlotOk(s, k) && (Drains(s, recv) ==> !Enabled(s, recv));
  }

  lemma Idles<T>(s: Chan<T>)
    requires Inv(s) && forall a :: Drains(s, a) ==> !Enabled(s, a)
    ensures s.active.Idle?
  {
    var send: Action<T> := PollSend(0);
    assert Drains(s, send) ==> !Enabled(s, send);
    if s.active.Sending? {
      var k: nat :| Blocks(s, k);
      assert SlotOk(s, k);
      Emptied(s, k);
    }
  }

  // ----- Polls in vain

  /** Nothing is to be received, and the task of the sender is `task`. */
  ghost predicate Quiet<T>(s: Chan<T>, task: TaskId) {
    && s.strong == 1 && s.sender == Some(task) && s.active.Idle?
    && Occupied(s, 0) && 0 in s.handles && s.slots[0].value.state.buf == []
  }

  /** Step `i` polls `recv` in vain, after which it does not sleep. */
  ghost predicate SpinsAt<T>(states: seq<Chan<T>>, actions: seq<Action<T>>, i: nat, task: TaskId)
    requires i < |actions| < |states|
  {
    && actions[i] == PollRecv(0, task) && RecvResult(states[i], 0).Pending?
    && Occupied(states[i + 1], 0) && !Sleeps(states[i + 1], 0)
  }

  /** The premise about tasks is needed: if one task sends and receives, a `recv` that
      finds nothing wakes itself, and can be polled in vain any number of times. */
  lemma {:induction false} SelfWakeSpins<T>(v: T, n: nat) returns (states: seq<Chan<T>>, actions: seq<Action<T>>)
    ensures IsRun(states, actions) && |actions| == 4 + n && Quiet(states[|actions|], 0)
    ensures forall i: nat :: 4 <= i < |actions| ==> SpinsAt(states, actions, i, 0)
  {
    if n == 0 {
      states, actions := DrainedFirst(v);
    } else {
      var before, did := SelfWakeSpins(v, n - 1);
      PendingSleepsIff(before[|did|], 0, 0);
      states, actions := ExtendRun(before, did, PollRecv(0, 0));
      forall i: nat | 4 <= i < |actions| ensures SpinsAt(states, actions, i, 0) {
        assert i < |did| ==> SpinsAt(before, did, i, 0);
      }
    }
  }
}
