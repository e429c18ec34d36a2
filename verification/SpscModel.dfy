/** The single-producer, single-consumer channel of `src/spsc.rs` as a state machine over values. */
module SpscModel {
  import opened Common
  import opened Wakeups

  datatype Active<T> = Idle | Sending(value: T, parked: Option<Parked>)

  datatype Chan<T> = Chan(
    tx: Option<TaskId>,
    rx: Option<TaskId>,
    buf: seq<T>,
    unbounded: bool,
    room: nat,                 // the capacity of the buffer that was allocated
    senderAlive: bool,
    receiverAlive: bool,
    accepted: seq<T>,          // every value put into the buffer
    received: seq<T>,          // every value taken out of it
    active: Active<T>,         // the `send` in progress
    recv: Option<Parked>,      // the pending `recv`
    wakes: seq<TaskId>)        // every wakeup, in order
  {
    predicate AtCapacity() {
      !unbounded && |buf| == room
    }

    /** `BiRc` counts two references. */
    predicate BothPresent() {
      senderAlive && receiverAlive
    }
  }

  datatype Action<T> =
    | TrySend(value: T)
    | StartSend(value: T)
    | PollSend(task: TaskId)
    | CancelSend
    | PollRecv(task: TaskId)
    | CancelRecv
    | DropSender
    | DropReceiver

  datatype SendResult<T> = Accepted | Refused(value: T) | SendPending

  datatype RecvResult<T> = Value(value: T) | Closed | RecvPending

  function New<T>(unbounded: bool, room: nat): Chan<T> {
    Chan(None, None, [], unbounded, room, true, true, [], [], Idle, None, [])
  }

  predicate Enabled<T>(s: Chan<T>, a: Action<T>) {
    match a
    case TrySend(_) => s.senderAlive && s.active.Idle?
    case StartSend(_) => s.senderAlive && s.active.Idle?
    case PollSend(_) => s.active.Sending?
    case CancelSend => s.active.Sending?
    case PollRecv(_) => s.receiverAlive
    case CancelRecv => s.receiverAlive
    case DropSender => s.senderAlive && s.active.Idle?
    case DropReceiver => s.receiverAlive
  }

  function Push<T>(s: Chan<T>, v: T): Chan<T> {
    s.(buf := s.buf + [v], accepted := s.accepted + [v], wakes := WakeOpt(s.wakes, s.rx))
  }

  function SendStep<T>(s: Chan<T>, task: TaskId): Chan<T>
    requires s.active.Sending?
  {
    if !s.BothPresent() then s.(tx := None, active := Idle)
    else if s.AtCapacity() then s.(tx := Some(task), active := s.active.(parked := Some(Parked(task, |s.wakes|))))
    else Push(s, s.active.value).(active := Idle)
  }

  function RecvStep<T>(s: Chan<T>, task: TaskId): Chan<T> {
    if s.buf != [] then
      s.(buf := s.buf[1..], received := s.received + [s.buf[0]], recv := None, wakes := WakeOpt(s.wakes, s.tx))
    else if !s.BothPresent() then s.(rx := None, recv := None)
    else s.(rx := Some(task), wakes := WakeOpt(s.wakes, s.tx), recv := Some(Parked(task, |s.wakes|)))
  }

  function Step<T>(s: Chan<T>, a: Action<T>): Chan<T>
    requires Enabled(s, a)
  {
    match a
    case TrySend(v) => if !s.BothPresent() || s.AtCapacity() then s else Push(s, v)
    case StartSend(v) => s.(active := Sending(v, None))
    case PollSend(task) => SendStep(s, task)
    case CancelSend => s.(active := Idle)
    case PollRecv(task) => RecvStep(s, task)
    case CancelRecv => s.(recv := None)
    case DropSender => s.(wakes := WakeOpt(s.wakes, s.rx), rx := None, senderAlive := false)
    case DropReceiver => s.(wakes := WakeOpt(s.wakes, s.tx), tx := None, receiverAlive := false, recv := None)
  }

  function TryResult<T>(s: Chan<T>, v: T): SendResult<T> {
    if !s.BothPresent() || s.AtCapacity() then Refused(v) else Accepted
  }

  function PollSendResult<T>(s: Chan<T>): SendResult<T>
    requires s.active.Sending?
  {
    if !s.BothPresent() then Refused(s.active.value) else if s.AtCapacity() then SendPending else Accepted
  }

  function PollRecvResult<T>(s: Chan<T>): RecvResult<T> {
    if s.buf != [] then Value(s.buf[0]) else if !s.BothPresent() then Closed else RecvPending
  }

  ghost predicate IsRun<T>(states: seq<Chan<T>>, actions: seq<Action<T>>) {
    && |states| == |actions| + 1
    && (exists unbounded, room: nat :: (!unbounded ==> room > 0) && states[0] == New(unbounded, room))
    && forall i :: 0 <= i < |actions| ==>
         Enabled(states[i], actions[i]) && states[i + 1] == Step(states[i], actions[i])
  }

  lemma ExtendRun<T>(states: seq<Chan<T>>, actions: seq<Action<T>>, a: Action<T>)
    requires IsRun(states, actions) && Enabled(states[|actions|], a)
    ensures IsRun(states + [Step(states[|actions|], a)], actions + [a])
  {
    assert (states + [Step(states[|actions|], a)])[0] == states[0];
  }

  // ----- The invariant

  function SendParked<T>(s: Chan<T>): Option<Parked> {
    if s.active.Sending? then s.active.parked else None
  }

  ghost predicate Inv<T>(s: Chan<T>) {
    && s.received + s.buf == s.accepted
    && (!s.unbounded ==> |s.buf| <= s.room && s.room > 0)
    && (s.active.Sending? ==> s.senderAlive)
    && Marked(s.wakes, s.recv) && Marked(s.wakes, SendParked(s))
    && (Asleep(s.wakes, s.recv) ==> s.rx == Some(s.recv.value.task) && s.buf == [] && s.BothPresent())
    && (Asleep(s.wakes, SendParked(s)) ==> s.tx == Some(SendParked(s).value.task) && s.AtCapacity() && s.BothPresent())
  }

  lemma StepKeepsInv<T>(s: Chan<T>, a: Action<T>)
    requires Inv(s) && Enabled(s, a)
    ensures Inv(Step(s, a))
  {
    WakeEnds(s.wakes, s.rx, s.recv);
    WakeEnds(s.wakes, s.rx, SendParked(s));
    WakeEnds(s.wakes, s.tx, s.recv);
    WakeEnds(s.wakes, s.tx, SendParked(s));
    match a
    case TrySend(v) => assert s.received + (s.buf + [v]) == (s.received + s.buf) + [v];
    case StartSend(_) =>
    case PollSend(_) =>
      var v := s.active.value;
      assert s.received + (s.buf + [v]) == (s.received + s.buf) + [v];
    case CancelSend =>
    case PollRecv(_) =>
      if s.buf != [] {
        assert (s.received + [s.buf[0]]) + s.buf[1..] == s.received + s.buf;
      }
    case CancelRecv =>
    case DropSender =>
    case DropReceiver =>
  }

  /** First in, first out, nothing lost and nothing made up; and a bounded buffer
      never outgrows its allocation. */
  lemma {:induction false} FifoAlways<T>(states: seq<Chan<T>>, actions: seq<Action<T>>, i: nat)
    requires IsRun(states, actions) && i < |states|
    ensures Inv(states[i])
    ensures states[i].received + states[i].buf == states[i].accepted
    ensures !states[i].unbounded ==> |states[i].buf| <= states[i].room
  {
    if i > 0 {
      FifoAlways(states, actions, i - 1);
      StepKeepsInv(states[i - 1], actions[i - 1]);
    }
  }

  /** The two ends never sleep at the same time; and a sleeper would only be
      parked again if it were polled. */
  lemma NeverBothAsleep<T>(states: seq<Chan<T>>, actions: seq<Action<T>>, i: nat)
    requires IsRun(states, actions) && i < |states|
    ensures var s := states[i];
            && !(Asleep(s.wakes, s.recv) && Asleep(s.wakes, SendParked(s)))
            && (Asleep(s.wakes, s.recv) ==> PollRecvResult(s).RecvPending?)
            && (Asleep(s.wakes, SendParked(s)) ==> PollSendResult(s).SendPending?)
  {
    FifoAlways(states, actions, i);
  }

  /** The receiver is told that the channel is closed only after it got every accepted value. */
  lemma ClosedAfterEverything<T>(states: seq<Chan<T>>, actions: seq<Action<T>>, i: nat)
    requires IsRun(states, actions) && i < |actions|
    requires actions[i].PollRecv? && PollRecvResult(states[i]).Closed?
    ensures states[i].received == states[i].accepted && !states[i].senderAlive
  {
    FifoAlways(states, actions, i);
    assert Enabled(states[i], actions[i]);
  }

  /** An unbounded channel never makes a sender wait. */
  lemma UnboundedNeverParks<T>(states: seq<Chan<T>>, actions: seq<Action<T>>, i: nat)
    requires IsRun(states, actions) && i < |states| && states[0].unbounded
    ensures states[i].unbounded && SendParked(states[i]).None?
  {
    if i > 0 {
      UnboundedNeverParks(states, actions, i - 1);
      assert Enabled(states[i - 1], actions[i - 1]);
    }
  }

  // ----- Answers

  /** What `try_send` answers and does: the value is appended exactly if both ends
      are there and the buffer has a place left, and otherwise it comes back. */
  lemma TrySendExact<T>(s: Chan<T>, v: T)
    requires Inv(s) && Enabled(s, TrySend(v))
    ensures var s', r := Step(s, TrySend(v)), TryResult(s, v);
            && (r.Accepted? <==> s.receiverAlive && (s.unbounded || |s.buf| < s.room))
            && (r.Accepted? ==> s'.buf == s.buf + [v] && s'.accepted == s.accepted + [v])
            && (!r.Accepted? ==> r == Refused(v) && s' == s)
            && s'.received == s.received
  {
  }

  /** The same for a poll of `send`, which waits while both ends are there and the
      buffer is full to the last place. */
  lemma PollSendExact<T>(s: Chan<T>, task: TaskId)
    requires Inv(s) && Enabled(s, Action<T>.PollSend(task))
    ensures var s', r, v := Step(s, PollSend(task)), PollSendResult(s), s.active.value;
            && (r.Accepted? <==> s.receiverAlive && (s.unbounded || |s.buf| < s.room))
            && (r.SendPending? <==> s.receiverAlive && !s.unbounded && |s.buf| == s.room)
            && (r.Accepted? ==> s'.buf == s.buf + [v] && s'.accepted == s.accepted + [v])
            && (!r.Accepted? ==> s'.buf == s.buf && s'.accepted == s.accepted)
            && (r.Refused? ==> r.value == v)
            && (r.SendPending? ==> s'.active.Sending? && s'.active.value == v && s'.tx == Some(task))
            && (!r.SendPending? ==> s'.active.Idle?)
            && s'.received == s.received
  {
  }

  /** What a poll of `recv` answers and does: the value that comes out is the
      oldest of the buffer, and it is the one that joins the history. */
  lemma PollRecvExact<T>(s: Chan<T>, task: TaskId)
    requires Inv(s) && Enabled(s, Action<T>.PollRecv(task))
    ensures var s', r := Step(s, PollRecv(task)), PollRecvResult(s);
            && (r.Value? ==> s.buf == [r.value] + s'.buf && s'.received == s.received + [r.value])
            && (!r.Value? ==> s.buf == s'.buf == [] && s'.received == s.received)
            && (r.Closed? <==> s.buf == [] && !s.senderAlive)
            && (r.RecvPending? ==> s'.rx == Some(task))
            && s'.accepted == s.accepted
  {
  }

  /** The value that the step puts into the channel, going by the answer to its caller. */
  function AcceptedBy<T>(s: Chan<T>, a: Action<T>): seq<T>
    requires Enabled(s, a)
  {
    match a
    case TrySend(v) => if TryResult(s, v).Accepted? then [v] else []
    case PollSend(_) => if PollSendResult(s).Accepted? then [s.active.value] else []
    case _ => []
  }

  /** The value that the step answers with. */
  function ReturnedBy<T>(s: Chan<T>, a: Action<T>): seq<T> {
    match a
    case PollRecv(_) => (match PollRecvResult(s) case Value(v) => [v] case _ => [])
    case _ => []
  }

  /** The values that senders were told are accepted, in order. */
  function AllAccepted<T>(states: seq<Chan<T>>, actions: seq<Action<T>>, i: nat): seq<T>
    requires i <= |actions| < |states|
    requires forall j :: 0 <= j < |actions| ==> Enabled(states[j], actions[j])
  {
    if i == 0 then [] else AllAccepted(states, actions, i - 1) + AcceptedBy(states[i - 1], actions[i - 1])
  }

  /** The values that polls of `recv` were answered with, in order. */
  function AllReturned<T>(states: seq<Chan<T>>, actions: seq<Action<T>>, i: nat): seq<T>
    requires i <= |actions| < |states|
  {
    if i == 0 then [] else AllReturned(states, actions, i - 1) + ReturnedBy(states[i - 1], actions[i - 1])
  }

  lemma StepAnswers<T>(s: Chan<T>, a: Action<T>)
    requires Inv(s) && Enabled(s, a)
    ensures Step(s, a).accepted == s.accepted + AcceptedBy(s, a)
    ensures Step(s, a).received == s.received + ReturnedBy(s, a)
  {
    match a
    case TrySend(v) => TrySendExact(s, v);
    case PollSend(task) => PollSendExact(s, task);
    case PollRecv(task) => PollRecvExact(s, task);
    case _ =>
  }

  lemma {:induction false} AnswersAreHistory<T>(states: seq<Chan<T>>, actions: seq<Action<T>>, i: nat)
    requires IsRun(states, actions) && i < |states|
    ensures states[i].accepted == AllAccepted(states, actions, i)
    ensures states[i].received == AllReturned(states, actions, i)
  {
    if i > 0 {
      AnswersAreHistory(states, actions, i - 1);
      FifoAlways(states, actions, i - 1);
      StepAnswers(states[i - 1], actions[i - 1]);
    }
  }

  /** First in, first out, in terms of answers alone: the n-th value that a poll of
      `recv` returns is the n-th value that a sender was told is accepted, and those
      that have not been returned yet are in the buffer. */
  lemma FifoOfAnswers<T>(states: seq<Chan<T>>, actions: seq<Action<T>>, i: nat)
    requires IsRun(states, actions) && i < |states|
    ensures AllReturned(states, actions, i) + states[i].buf == AllAccepted(states, actions, i)
  {
    FifoAlways(states, actions, i);
    AnswersAreHistory(states, actions, i);
  }

  // ----- Progress

  /** The polls of a system in which nothing new is sent: a future is polled only
      while it does not sleep, and the end of the channel is not asked for again.
      A `recv` that finds nothing is not polled by the task that the sender registered. */
  ghost predicate Drains<T>(s: Chan<T>, a: Action<T>) {
    match a
    case PollSend(_) => !Asleep(s.wakes, SendParked(s))
    case PollRecv(task) =>
      && !Asleep(s.wakes, s.recv) && !PollRecvResult(s).Closed?
      && (PollRecvResult(s).RecvPending? ==> s.tx != Some(task))
    case _ => false
  }

  /** Exactly when a `recv` that finds nothing sleeps afterwards: it wakes the task
      that the sender registered last, even if that is its own. */
  lemma PendingSleepsIff<T>(s: Chan<T>, task: TaskId)
    requires s.receiverAlive && PollRecvResult(s).RecvPending?
    ensures Asleep(RecvStep(s, task).wakes, RecvStep(s, task).recv) <==> s.tx != Some(task)
  {
    var s' := RecvStep(s, task);
    if s.tx == Some(task) {
      assert s'.wakes[|s.wakes|] == task;
    }
  }

  function Bit(b: bool): nat {
    if b then 1 else 0
  }

  /** What is left to do. */
  ghost function Effort<T>(s: Chan<T>): nat {
    2 * |s.buf| + 3 * Bit(s.active.Sending?)
    + Bit(s.active.Sending? && !Asleep(s.wakes, SendParked(s))) + Bit(!Asleep(s.wakes, s.recv))
  }

  lemma DrainStepDescends<T>(s: Chan<T>, a: Action<T>)
    requires Inv(s) && Enabled(s, a) && Drains(s, a)
    ensures Effort(Step(s, a)) < Effort(s)
  {
    if a.PollRecv? && PollRecvResult(s).RecvPending? {
      PendingSleepsIff(s, a.task);
      WakeEnds(s.wakes, s.tx, SendParked(s));
    }
  }

  ghost predicate IsDrain<T>(states: seq<Chan<T>>, actions: seq<Action<T>>) {
    && |states| == |actions| + 1
    && forall i :: 0 <= i < |actions| ==>
         Enabled(states[i], actions[i]) && Drains(states[i], actions[i]) && states[i + 1] == Step(states[i], actions[i])
  }

  /** With nothing new to send only so many polls are possible, in whatever order
      the two ends are polled. */
  lemma {:induction false} DrainBounded<T>(states: seq<Chan<T>>, actions: seq<Action<T>>)
    requires IsDrain(states, actions) && Inv(states[0])
    ensures Inv(states[|actions|])
    ensures |actions| + Effort(states[|actions|]) <= Effort(states[0]) <= 2 * |states[0].buf| + 5
    decreases |actions|
  {
    if actions != [] {
      var n := |actions| - 1;
      DrainBounded(states[..n + 1], actions[..n]);
      assert Enabled(states[n], actions[n]) && Drains(states[n], actions[n]);
      StepKeepsInv(states[n], actions[n]);
      DrainStepDescends(states[n], actions[n]);
    }
  }

  /** How that ends: the `send` is completed, and if there is still a receiver, it
      has received everything that was accepted. */
  lemma DrainEnds<T>(states: seq<Chan<T>>, actions: seq<Action<T>>)
    requires IsDrain(states, actions) && Inv(states[0])
    requires forall a :: Drains(states[|actions|], a) ==> !Enabled(states[|actions|], a)
    ensures var s := states[|actions|];
            s.active.Idle? && (s.receiverAlive ==> s.received == s.accepted)
  {
    DrainBounded(states, actions);
    Idles(states[|actions|]);
  }

  /** Then, over a whole run, polls of `recv` have returned exactly the accepted values. */
  lemma EverythingReturned<T>(states: seq<Chan<T>>, actions: seq<Action<T>>)
    requires IsRun(states, actions) && states[|actions|].receiverAlive
    requires forall a :: Drains(states[|actions|], a) ==> !Enabled(states[|actions|], a)
    ensures AllReturned(states, actions, |actions|) == AllAccepted(states, actions, |actions|)
  {
    FifoOfAnswers(states, actions, |actions|);
    FifoAlways(states, actions, |actions|);
    Idles(states[|actions|]);
  }

  lemma Idles<T>(s: Chan<T>)
    requires Inv(s) && forall a :: Drains(s, a) ==> !Enabled(s, a)
    ensures s.active.Idle? && (s.receiverAlive ==> s.buf == [])
  {
    var send, recv: Action<T> := PollSend(0), PollRecv(0);
    assert Drains(s, recv) ==> !Enabled(s, recv);
    assert Drains(s, send) ==> !Enabled(s, send);
  }

  /** Both ends are there, and nothing is to be received. */
  ghost predicate Quiet<T>(s: Chan<T>, task: TaskId) {
    s.buf == [] && s.BothPresent() && s.tx == Some(task) && s.active.Idle?
  }

  /** Step `i` polls `recv` in vain, after which it does not sleep. */
  ghost predicate SpinsAt<T>(states: seq<Chan<T>>, actions: seq<Action<T>>, i: nat, task: TaskId)
    requires i < |actions| < |states|
  {
    && actions[i] == PollRecv(task) && PollRecvResult(states[i]).RecvPending?
    && !Asleep(states[i + 1].wakes, states[i + 1].recv)
  }

  /** The premise about tasks is needed: if one task uses both ends, a `recv` that
      finds nothing wakes itself, and can be polled in vain any number of times. */
  lemma {:induction false} SelfWakeSpins<T>(v: T, task: TaskId, n: nat)
    returns (states: seq<Chan<T>>, actions: seq<Action<T>>)
    ensures IsRun(states, actions) && |actions| == 6 + n && Quiet(states[|actions|], task)
    ensures forall i: nat :: 6 <= i < |actions| ==> SpinsAt(states, actions, i, task)
  {
    if n == 0 {
      states, actions := Spinning(v, task);
    } else {
      var before, did := SelfWakeSpins(v, task, n - 1);
      var s := before[|did|];
      PendingSleepsIff(s, task);
      ExtendRun(before, did, PollRecv(task));
      states, actions := before + [RecvStep(s, task)], did + [PollRecv(task)];
      forall i: nat | 6 <= i < |actions| ensures SpinsAt(states, actions, i, task) {
        assert i < |did| ==> SpinsAt(before, did, i, task);
      }
    }
  }

  /** The sender fills the only place, waits for it under `task`, and is done. */
  lemma Spinning<T>(v: T, task: TaskId) returns (states: seq<Chan<T>>, actions: seq<Action<T>>)
    ensures IsRun(states, actions) && |actions| == 6 && Quiet(states[6], task)
  {
    var s0: Chan<T> := New(false, 1);
    var s1 := Push(s0, v);
    var s2 := s1.(active := Sending(v, None));
    var s3 := SendStep(s2, task);
    var s4 := RecvStep(s3, task);
    var s5 := SendStep(s4, task);
    var s6 := RecvStep(s5, task);
    assert s3.active.Sending? && s3.buf == [v];
    actions := [TrySend(v), StartSend(v), PollSend(task), PollRecv(task), PollSend(task), PollRecv(task)];
    states := [s0, s1, s2, s3, s4, s5, s6];
    assert states[0] == New(false, 1);
  }
}
