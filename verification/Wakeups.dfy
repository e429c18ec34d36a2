/** Sleeping and waking, for the channels: wakeups are recorded in one sequence. */
module Wakeups {
  import opened Common

  /** A future that returned `Pending` to `task`, which it registered when `mark`
      wakeups had happened. */
  datatype Parked = Parked(task: TaskId, mark: nat)

  /** The effect of waking the task that is registered, if there is one. */
  function WakeOpt(wakes: seq<TaskId>, waker: Option<TaskId>): seq<TaskId> {
    if waker.Some? then wakes + [waker.value] else wakes
  }

  /** The wakeups of several rounds, one after the other. */
  function Flatten(rounds: seq<seq<TaskId>>): seq<TaskId> {
    if rounds == [] then []
    else
      var n := |rounds| - 1;
      Flatten(rounds[..n]) + rounds[n]
  }

  lemma FlattenNext(before: seq<TaskId>, rounds: seq<seq<TaskId>>, i: nat)
    requires i < |rounds|
    ensures before + Flatten(rounds[..i + 1]) == (before + Flatten(rounds[..i])) + rounds[i]
  {
    assert rounds[..i + 1][..i] == rounds[..i];
  }

  lemma {:induction false} NoWakers(rounds: seq<seq<TaskId>>)
    requires forall i :: 0 <= i < |rounds| ==> rounds[i] == []
    ensures Flatten(rounds) == []
  {
    if rounds != [] {
      NoWakers(rounds[..|rounds| - 1]);
    }
  }

  lemma {:induction false} FlattenHas(rounds: seq<seq<TaskId>>, i: nat)
    requires i < |rounds|
    ensures forall t :: t in rounds[i] ==> t in Flatten(rounds)
    decreases |rounds|
  {
    var n := |rounds| - 1;
    if i < n {
      FlattenHas(rounds[..n], i);
    }
  }

  /** Who is woken in some round. */
  lemma {:induction false} FlattenIff(rounds: seq<seq<TaskId>>, t: TaskId)
    ensures t in Flatten(rounds) <==> exists i :: 0 <= i < |rounds| && t in rounds[i]
    decreases |rounds|
  {
    if rounds != [] {
      var n := |rounds| - 1;
      FlattenIff(rounds[..n], t);
      if t in Flatten(rounds[..n]) {
        var i :| 0 <= i < n && t in rounds[..n][i];
        assert t in rounds[i];
      }
      if i :| 0 <= i < |rounds| && t in rounds[i] {
        assert i < n ==> t in rounds[..n][i];
      }
    }
  }

  /** A future that returned pending and has not been woken since it registered. */
  ghost predicate Asleep(wakes: seq<TaskId>, parked: Option<Parked>) {
    parked.Some? && forall j :: parked.value.mark <= j < |wakes| ==> wakes[j] != parked.value.task
  }

  ghost predicate Marked(wakes: seq<TaskId>, parked: Option<Parked>) {
    parked.Some? ==> parked.value.mark <= |wakes|
  }

  /** Whoever still sleeps after some wakeups slept before them and was not among the woken. */
  lemma AsleepBefore(wakes: seq<TaskId>, more: seq<TaskId>, parked: Option<Parked>)
    requires Marked(wakes, parked)
    ensures Marked(wakes + more, parked)
    ensures Asleep(wakes + more, parked) ==> Asleep(wakes, parked) && parked.value.task !in more
  {
    if Asleep(wakes + more, parked) {
      forall j | parked.value.mark <= j < |wakes| ensures wakes[j] != parked.value.task {
        assert (wakes + more)[j] == wakes[j];
      }
      forall j | 0 <= j < |more| ensures more[j] != parked.value.task {
        assert (wakes + more)[|wakes| + j] == more[j];
      }
    }
  }

  lemma WakeEnds(wakes: seq<TaskId>, waker: Option<TaskId>, parked: Option<Parked>)
    requires Marked(wakes, parked)
    ensures Marked(WakeOpt(wakes, waker), parked)
    ensures Asleep(WakeOpt(wakes, waker), parked) ==> Asleep(wakes, parked) && waker != Some(parked.value.task)
  {
    if waker.Some? {
      AsleepBefore(wakes, [waker.value], parked);
      assert waker.value in [waker.value];
    }
  }
}
