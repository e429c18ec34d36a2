/**
 What the callers of the broadcast channel are told, over whole runs: the theorems
 about deliveries in terms of what was sent and what polls of `recv` returned.
 */
module BroadcastAnswers {
  import opened Common
  import opened BroadcastModel
  import opened BroadcastRuns
  import opened BroadcastDelivery

  // ----- Histories of answers

  /** The message that the step announces. */
  function AnnouncedBy<T>(a: Action<T>): seq<T> {
    match a
    case TrySend(v) => [v]
    case StartSend(v) => [v]
    case _ => []
  }

  /** The messages that `send` and `try_send` were called with, in order. */
  function Messages<T>(actions: seq<Action<T>>, i: nat): seq<T>
    requires i <= |actions|
  {
    if i == 0 then [] else Messages(actions, i - 1) + AnnouncedBy(actions[i - 1])
  }

  /** The value that the step answers with to the receiver in slot `k`. */
  function ReturnedBy<T>(s: Chan<T>, a: Action<T>, k: nat): seq<T> {
    if a.PollRecv? && a.index == k then (match RecvResult(s, k) case Value(v) => [v] case _ => []) else []
  }

  /** The values that polls of `recv` in slot `k` were answered with since the last subscription there. */
  function Returned<T>(states: seq<Chan<T>>, actions: seq<Action<T>>, i: nat, k: nat): seq<T>
    requires i <= |actions| < |states|
  {
    if i == 0 || (actions[i - 1].Subscribe? && actions[i - 1].index == k) then []
    else Returned(states, actions, i - 1, k) + ReturnedBy(states[i - 1], actions[i - 1], k)
  }

  /** How many messages had been announced when slot `k` was subscribed last. */
  function Missed<T>(actions: seq<Action<T>>, i: nat, k: nat): nat
    requires i <= |actions|
  {
    if i == 0 then 0
    else if actions[i - 1].Subscribe? && actions[i - 1].index == k then |Messages(actions, i - 1)|
    else Missed(actions, i - 1, k)
  }

  lemma StepAnswers<T>(s: Chan<T>, a: Action<T>, k: nat)
    requires Inv(s) && Enabled(s, a) && Occupied(Step(s, a), k)
    ensures var rx' := Step(s, a).slots[k].value;
            if a.Subscribe? && a.index == k then rx'.received == [] && rx'.since == |s.sent|
            else && Occupied(s, k) && rx'.since == s.slots[k].value.since
                 && rx'.received == s.slots[k].value.received + ReturnedBy(s, a, k)
  {
    if !(a.Subscribe? && a.index == k) {
      StaysOccupied(s, a, k);
      if a.PollRecv? && a.index == k {
        RecvExact(s, k, a.task);
        RecvUntouched(s, k, a.task, k);
      } else {
        OthersReceiveNothing(s, a, k);
      }
    }
  }

  lemma OthersReceiveNothing<T>(s: Chan<T>, a: Action<T>, k: nat)
    requires Enabled(s, a) && Occupied(s, k) && Occupied(Step(s, a), k)
    requires !((a.Subscribe? || a.PollRecv?) && a.index == k)
    ensures Step(s, a).slots[k].value.received == s.slots[k].value.received
    ensures Step(s, a).slots[k].value.since == s.slots[k].value.since
  {
  }

  lemma StepAnnounces<T>(s: Chan<T>, a: Action<T>)
    requires Enabled(s, a)
    ensures Step(s, a).sent == s.sent + AnnouncedBy(a)
  {
    assert s.sent + [] == s.sent;
  }

  lemma {:induction false} SentIsAnnounced<T>(states: seq<Chan<T>>, actions: seq<Action<T>>, i: nat)
    requires IsRun(states, actions) && i < |states|
    ensures states[i].sent == Messages(actions, i)
  {
    hide Step;
    if i > 0 {
      SentIsAnnounced(states, actions, i - 1);
      assert StepAt(states, actions, i - 1);
      StepAnnounces(states[i - 1], actions[i - 1]);
    }
  }

  lemma {:induction false} AnswersAreHistory<T>(states: seq<Chan<T>>, actions: seq<Action<T>>, i: nat, k: nat)
    requires IsRun(states, actions) && i < |states| && Occupied(states[i], k)
    ensures states[i].slots[k].value.received == Returned(states, actions, i, k)
    ensures states[i].slots[k].value.since == Missed(actions, i, k)
  {
    hide Step, Inv;
    if i > 0 {
      var s, a := states[i - 1], actions[i - 1];
      InvAlways(states, actions, i - 1);
      SentIsAnnounced(states, actions, i - 1);
      assert StepAt(states, actions, i - 1);
      StepAnswers(s, a, k);
      if !(a.Subscribe? && a.index == k) {
        AnswersAreHistory(states, actions, i - 1, k);
      }
    }
  }

  /** Whatever is sent, cancelled or dropped: what polls of `recv` returned to a
      subscriber, followed by what it has buffered, are messages announced since it
      subscribed, in order, each at most once. */
  lemma ReturnedInOrder<T>(states: seq<Chan<T>>, actions: seq<Action<T>>, i: nat, k: nat) returns (picks: seq<nat>)
    requires IsRun(states, actions) && i < |states| && Occupied(states[i], k)
    ensures Increasing(picks)
    ensures forall j :: 0 <= j < |picks| ==> Missed(actions, i, k) <= picks[j] < |Messages(actions, i)|
    ensures Returned(states, actions, i, k) + states[i].slots[k].value.state.buf == Values(Messages(actions, i), picks)
  {
    DeliveredInOrder(states, actions, i, k);
    SentIsAnnounced(states, actions, i);
    AnswersAreHistory(states, actions, i, k);
    picks := states[i].slots[k].value.got;
  }

  /** Guaranteed delivery: what polls of `recv` returned to a subscriber that every
      step has served, followed by what it has buffered, are exactly the messages
      announced since it subscribed. */
  lemma ReturnedExactly<T>(states: seq<Chan<T>>, actions: seq<Action<T>>, i: nat, k: nat)
    requires IsRun(states, actions) && i < |states| && Occupied(states[i], k)
    requires ServedSince(states, actions, i, k) && states[i].active.Idle?
    ensures Missed(actions, i, k) <= |Messages(actions, i)|
    ensures Returned(states, actions, i, k) + states[i].slots[k].value.state.buf
         == Messages(actions, i)[Missed(actions, i, k)..]
  {
    GuaranteedDelivery(states, actions, i, k);
    SentIsAnnounced(states, actions, i);
    AnswersAreHistory(states, actions, i, k);
  }

  // ----- Capacity

  /** A buffer has as many places as the channel was created with, at least, or no end. */
  ghost predicate Spacious<T>(s: Chan<T>, k: nat) {
    Occupied(s, k) ==>
      var st := s.slots[k].value.state;
      && (st.unbounded <==> s.capacity.None?)
      && (s.capacity.Some? ==> st.room >= s.capacity.value)
  }

  lemma StepKeepsSpacious<T>(s: Chan<T>, a: Action<T>, k: nat)
    requires Enabled(s, a) && Spacious(s, k)
    ensures Step(s, a).capacity == s.capacity && Spacious(Step(s, a), k)
  {
    if a.TrySend? || a.PollSend? {
      RoundKeepsSpacious(s, a, k);
    }
  }

  lemma RoundKeepsSpacious<T>(s: Chan<T>, a: Action<T>, k: nat)
    requires Enabled(s, a) && (a.TrySend? || a.PollSend?) && Spacious(s, k)
    ensures Step(s, a).capacity == s.capacity && Spacious(Step(s, a), k)
  {
  }

  lemma {:induction false} SpaciousAlways<T>(states: seq<Chan<T>>, actions: seq<Action<T>>, i: nat, k: nat)
    requires IsRun(states, actions) && i < |states|
    ensures states[i].capacity == states[0].capacity && Spacious(states[i], k)
  {
    if i > 0 {
      SpaciousAlways(states, actions, i - 1, k);
      assert StepAt(states, actions, i - 1);
      StepKeepsSpacious(states[i - 1], actions[i - 1], k);
    }
  }

  /** Exactly when a subscriber takes no further value: its buffer is bounded and full
      to the last place, and it has at least as many places as the channel's capacity. */
  lemma FullIff<T>(states: seq<Chan<T>>, actions: seq<Action<T>>, i: nat, k: nat)
    requires IsRun(states, actions) && i < |states| && Occupied(states[i], k)
    ensures var s, st := states[i], states[i].slots[k].value.state;
            && (st.AtCapacity() <==> !st.unbounded && |st.buf| >= st.room)
            && (st.AtCapacity() ==> s.capacity.Some? && |st.buf| == st.room >= s.capacity.value)
  {
    DeliveredInOrder(states, actions, i, k);
    SpaciousAlways(states, actions, i, k);
  }

  /** A channel without capacity never makes a sender wait, and no subscriber of it is ever full. */
  lemma {:induction false} UnboundedNeverWaits<T>(states: seq<Chan<T>>, actions: seq<Action<T>>, i: nat)
    requires IsRun(states, actions) && i < |states| && states[0].capacity.None?
    ensures forall k: nat :: Occupied(states[i], k) ==> !states[i].slots[k].value.state.AtCapacity()
    ensures states[i].active.Sending? ==> states[i].active.parked.None?
    ensures i > 0 && actions[i - 1].PollSend? ==> states[i].active.Idle?
  {
    NobodyFull(states, actions, i);
    if i > 0 {
      UnboundedNeverWaits(states, actions, i - 1);
      InvAlways(states, actions, i - 1);
      NobodyFull(states, actions, i - 1);
      assert StepAt(states, actions, i - 1);
      if actions[i - 1].PollSend? {
        SendCompletesIff(states[i - 1], actions[i - 1].task);
      }
    }
  }

  lemma NobodyFull<T>(states: seq<Chan<T>>, actions: seq<Action<T>>, i: nat)
    requires IsRun(states, actions) && i < |states| && states[0].capacity.None?
    ensures forall k: nat :: Occupied(states[i], k) ==> !states[i].slots[k].value.state.AtCapacity()
    ensures forall k: nat :: !Blocks(states[i], k)
  {
    forall k: nat ensures Occupied(states[i], k) ==> !states[i].slots[k].value.state.AtCapacity() {
      SpaciousAlways(states, actions, i, k);
    }
  }
}
