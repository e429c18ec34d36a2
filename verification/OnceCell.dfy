/**
 The once cell of `src/once_cell.rs` as objects over the linked wait list. Every
 method takes exactly the steps of `OnceCellModel` that its contract names.
 */
module OnceCells {
  import opened Common
  import opened Ledgers
  import opened WaitLists
  import opened Wakeups
  import opened OnceCellModel

  /** The wakeup value; all that matters about it is who holds it. */
  datatype Baton = Baton

  type Slot = Waiter<(), Baton>

  datatype SetResult<T> = Stored(stored: T) | Busy(value: T) | Occupied(present: T, value: T)

  /** What the user's initializer does when it is polled. */
  datatype Outcome<T, E> = StillPending | Produced(value: T) | Failed(error: E) | Panicked

  datatype Poll<T, E> = Pending | Ready(value: T) | Error(error: E) | Unwound

  class OnceCell<T> {
    var state: Cell<T>
    const waiters: WaitList<(), Baton>

    ghost var model: Once<T, Slot>

    /** The queue of the model is the linked list, and its woken waiters are the unlinked ones. */
    ghost predicate Aligned(queue: seq<Slot>, woken: seq<Handover<Slot>>)
      reads waiters`queue, waiters`live
    {
      && queue == waiters.queue
      && Distinct(Ids(woken))
      && forall i: nat {:trigger WokenAt(woken, i)} :: i < |woken| ==> WokenAt(woken, i)
    }

    ghost predicate WokenAt(woken: seq<Handover<Slot>>, i: nat)
      reads waiters`queue, waiters`live
    {
      i < |woken| && woken[i].id in waiters.live && woken[i].id !in waiters.queue
    }

    /** The list is in order and holds exactly these calls. */
    ghost predicate Holds(queue: seq<Slot>, woken: seq<Handover<Slot>>)
      reads waiters`head, waiters`tail, waiters`queue, waiters`live, waiters`wakes, waiters`books, waiters.live
    {
      waiters.Valid() && Aligned(queue, woken)
    }

    ghost predicate Matches()
      reads this`state, this`model
      reads waiters`head, waiters`tail, waiters`queue, waiters`live, waiters`wakes, waiters`books, waiters.live
    {
      model.cell == state && Holds(model.queue, model.woken)
    }

    ghost predicate Valid()
      reads this`state, this`model, waiters, waiters.live
    {
      Matches() && !waiters.borrowed && Inv(model)
    }

    constructor ()
      ensures Valid() && model == New()
      ensures fresh(waiters) && waiters.live == {}
    {
      state := Uninit;
      waiters := new WaitList();
      model := New();
    }

    function Get(): (value: Option<T>)
      reads this`state
    {
      if state.Initialized? then Some(state.value) else None
    }

    method Set(value: T) returns (result: SetResult<T>)
      requires Valid()
      modifies this`state, this`model
      ensures Valid()
      ensures model == Step(old(model), OnceCellModel.Set(value))
      ensures result == match old(state)
                        case Uninit => Stored(value)
                        case Initializing => Busy(value)
                        case Initialized(present) => Occupied(present, value)
      ensures Get() == Seen(old(model), OnceCellModel.Set(value))
      ensures state == if old(state).Uninit? then Initialized(value) else old(state)
    {
      StepKeepsInv(model, OnceCellModel.Set(value));
      match state {
        case Uninit =>
          state := Initialized(value);
          model := model.(cell := state);
          result := Stored(Get().value);
        case Initializing =>
          result := Busy(value);
        case Initialized(present) =>
          result := Occupied(present, value);
      }
    }

    /** Wake the oldest waiter, which the model records with the given kind of baton. */
    method WakeNext(ghost job: bool) returns (woke: bool)
      requires Matches() && waiters.borrowed
      modifies this`model
      modifies waiters`head, waiters`tail, waiters`queue, waiters`wakes, waiters`books, waiters.live
      ensures Matches()
      ensures waiters.live == old(waiters.live)
      ensures woke == (old(model).queue != [])
      ensures model == if !woke then old(model) else old(model).(
                         queue := old(model).queue[1..],
                         woken := old(model).woken + [Handover(old(model).queue[0], job)])
    {
      assert waiters.queue != [] ==> waiters.Waiting(waiters.queue[0]);
      ghost var after := if model.queue == [] then model else model.(
        queue := model.queue[1..], woken := model.woken + [Handover(model.queue[0], job)]);
      var input := waiters.WakeOne(Baton);
      woke := input.Some?;
      model := after;
      if woke {
        HeadWoken(job);
      } else {
        assert Aligned(model.queue, model.woken) == old(Aligned(model.queue, model.woken));
      }
    }

    /** The model moves the head of the queue to the woken waiters along with the list. */
    twostate lemma HeadWoken(job: bool)
      requires old(Aligned(model.queue, model.woken)) && Distinct(old(waiters.queue)) && old(model).queue != []
      requires old(waiters.queue[0] in waiters.live)
      requires model.queue == old(model).queue[1..]
      requires model.woken == old(model).woken + [Handover(old(model).queue[0], job)]
      requires waiters.queue == Without(old(waiters.queue), 0) && waiters.live == old(waiters.live)
      ensures Aligned(model.queue, model.woken)
    {
      var queue, ids := old(waiters.queue), Ids(old(model).woken);
      WithoutMembers(queue, 0);
      forall i: nat | i < |model.woken| ensures WokenAt(model.woken, i) {
        assert i < |ids| ==> old(WokenAt(model.woken, i));
      }
      assert Ids(model.woken) == ids + [queue[0]];
      AppendDistinct(ids, queue[0]) by {
        forall i: nat | i < |ids| ensures ids[i] != queue[0] {
          assert old(WokenAt(model.woken, i));
        }
      }
    }

    /** `Baton::drop`: nothing unless the job is still open; then the next waiter
        gets it, or the cell is reset. The list is borrowed only while the cell
        is `Initializing`. */
    method DropBaton()
      requires Matches()
      requires state.Initializing? ==> !waiters.borrowed
      modifies this`state, this`model
      modifies waiters`borrowed, waiters`head, waiters`tail, waiters`queue
      modifies waiters`wakes, waiters`books, waiters.live
      ensures Matches()
      ensures waiters.borrowed == old(waiters.borrowed) && waiters.live == old(waiters.live)
      ensures model == OnceCellModel.DropBaton(old(model))
    {
      if !state.Initializing? {
        return;
      }
      var woke := HandOver();
      if !woke {
        state, model := Uninit, model.(cell := Uninit);
      }
    }

    method BorrowWaiters()
      requires Matches() && !waiters.borrowed
      modifies waiters`borrowed
      ensures Matches() && waiters.borrowed
    {
      hide *;
      waiters.Borrow();
      assert Matches() == old(Matches());
    }

    method UnborrowWaiters()
      requires Matches() && waiters.borrowed
      modifies waiters`borrowed
      ensures Matches() && !waiters.borrowed
    {
      hide *;
      waiters.Unborrow();
      assert Matches() == old(Matches());
    }

    method HandOver() returns (woke: bool)
      requires Matches() && !waiters.borrowed
      modifies this`model
      modifies waiters`borrowed, waiters`head, waiters`tail, waiters`queue
      modifies waiters`wakes, waiters`books, waiters.live
      ensures Matches() && !waiters.borrowed && waiters.live == old(waiters.live)
      ensures woke == (old(model).queue != [])
      ensures model == if !woke then old(model) else old(model).(
                         queue := old(model).queue[1..],
                         woken := old(model).woken + [Handover(old(model).queue[0], true)])
    {
      hide *;
      BorrowWaiters();
      woke := WakeNext(true);
      UnborrowWaiters();
    }

    /** The success loop of `get_or_try_init`. The last `wake_one` hands its
        baton back, and dropping that while the list is borrowed is harmless. */
    method WakeEveryone()
      requires Matches() && !waiters.borrowed && state.Initialized?
      modifies this`state, this`model
      modifies waiters`borrowed, waiters`head, waiters`tail, waiters`queue
      modifies waiters`wakes, waiters`books, waiters.live
      ensures Matches() && !waiters.borrowed
      ensures waiters.live == old(waiters.live)
      ensures model == WakeAll(old(model))
    {
      hide Matches;
      BorrowWaiters();
      WakeLoop();
      DropBaton();
      UnborrowWaiters();
    }

    method WakeLoop()
      requires Matches() && waiters.borrowed && state.Initialized?
      modifies this`model
      modifies waiters`head, waiters`tail, waiters`queue, waiters`wakes, waiters`books, waiters.live
      ensures Matches() && waiters.live == old(waiters.live)
      ensures model == WakeAll(old(model))
    {
      while true
        invariant Matches()
        invariant waiters.live == old(waiters.live)
        invariant WakeAll(model) == WakeAll(old(model))
        decreases |waiters.queue|
      {
        var woke := WakeNext(false);
        if !woke {
          break;
        }
      }
    }

    /** A waiter that the list does not know does not wait. */
    lemma UnknownIsNotInLine(slot: Slot)
      requires Matches() && slot !in waiters.live
      ensures slot !in Line(model)
    {
      forall i | 0 <= i < |Line(model)| ensures Line(model)[i] != slot {
        if i < |model.woken| {
          assert WokenAt(model.woken, i);
        } else {
          waiters.QueuedWaits(waiters.queue[i - |model.woken|]);
        }
      }
    }

    /** The first poll of a call: become the initializer, wait, or see the value. */
    method Enter(slot: Slot, task: TaskId) returns (wait: bool)
      requires Valid()
      requires slot !in waiters.live && slot.state == Moved
      modifies this`state, this`model, waiters, waiters.live`next, slot
      ensures Valid()
      ensures model == Step(old(model), Call(slot))
      ensures wait == old(state).Initializing?
      ensures if wait then waiters.live == old(waiters.live) + {slot} && slot.waker == Some(task)
              else waiters.live == old(waiters.live) && slot.state == Moved
      ensures !old(state).Uninit? ==> state == old(state)
    {
      StepKeepsInv(model, Call(slot));
      wait := state.Initializing?;
      if wait {
        Park(slot, task);
      } else if state.Uninit? {
        state, model := Initializing, Step(model, Call(slot));
      }
    }

    /** `wait` up to its suspension. */
    method Park(slot: Slot, task: TaskId)
      requires Valid() && state.Initializing?
      requires slot !in waiters.live && slot.state == Moved
      modifies this`model, waiters, waiters.live`next, slot
      ensures Valid()
      ensures model == old(model).(queue := old(model).queue + [slot])
      ensures waiters.live == old(waiters.live) + {slot} && slot.waker == Some(task)
    {
      waiters.Begin(slot, (), task);
      model := model.(queue := model.queue + [slot]);
      forall i: nat | i < |model.woken| ensures WokenAt(model.woken, i) {
        assert old(WokenAt(model.woken, i));
      }
    }

    /** The model forgets a woken waiter that the list no longer knows. */
    twostate lemma WokenForgotten(k: nat)
      requires old(Aligned(model.queue, model.woken)) && k < |old(model).woken|
      requires waiters.queue == old(waiters.queue)
      requires waiters.live == old(waiters.live) - {old(model).woken[k].id}
      ensures Aligned(old(model).queue, Without(old(model).woken, k))
    {
      var woken, ids := old(model).woken, Ids(old(model).woken);
      assert Ids(Without(woken, k)) == Without(ids, k);
      WithoutMembers(ids, k);
      forall i: nat | i < |woken| - 1 ensures WokenAt(Without(woken, k), i) {
        var j := if i < k then i else i + 1;
        assert old(WokenAt(model.woken, j));
        DistinctFrom(ids, j, k);
      }
    }

    /** Take the baton out of a woken waiter, whose wait is thereby over. */
    method TakeBaton(slot: Slot, ghost k: nat)
      requires Matches() && k < |model.woken| && model.woken[k].id == slot
      modifies this`model, waiters`live, waiters`books, slot`state
      ensures Matches()
      ensures model == old(model).(woken := Without(old(model).woken, k))
      ensures waiters.live == old(waiters.live) - {slot} && slot.state == Moved
    {
      assert WokenAt(model.woken, k);
      var baton := waiters.TakeOutput(slot);
      WokenForgotten(k);
      model := model.(woken := Without(model.woken, k));
    }

    /** A woken waiter resumes with its baton, which it forgets if it takes the
        job over; the `Uninit` branch is the `unreachable!` of the source. */
    method Resume(slot: Slot, ghost k: nat) returns (initializer: bool)
      requires Valid()
      requires k < |model.woken| && model.woken[k].id == slot
      modifies this`model, waiters`live, waiters`books, slot`state
      ensures Valid()
      ensures model == Step(old(model), OnceCellModel.Resume(k))
      ensures waiters.live == old(waiters.live) - {slot} && slot.state == Moved
      ensures initializer == state.Initializing?
      ensures !initializer ==> state.Initialized?
    {
      hide Holds;
      assert !state.Uninit?;
      StepKeepsInv(model, OnceCellModel.Resume(k));
      ghost var after := Step(model, OnceCellModel.Resume(k));
      TakeBaton(slot, k);
      label Taken:
      model := after;
      assert Holds(model.queue, model.woken) == old@Taken(Holds(model.queue, model.woken));
      initializer := state.Initializing?;
    }

    /** The position of a waiting call in the queue or among the woken waiters,
        which the waker of its waiter tells apart. */
    ghost predicate Located(slot: Slot, k: nat)
      reads this`model, waiters`queue, slot`waker
    {
      && (slot.waker.Some? <==> slot in waiters.queue)
      && if slot.waker.Some? then k < |model.queue| && model.queue[k] == slot
         else k < |model.woken| && model.woken[k].id == slot
    }

    lemma Locate(slot: Slot) returns (k: nat)
      requires Matches() && slot in Line(model)
      ensures slot in waiters.live
      ensures slot in model.queue <==> slot.waker.Some?
      ensures Located(slot, k)
    {
      if slot in model.queue {
        k :| k < |model.queue| && model.queue[k] == slot;
        waiters.QueuedWaits(slot);
      } else {
        k :| k < |Line(model)| && Line(model)[k] == slot;
        assert WokenAt(model.woken, k);
      }
      assert waiters.Tagged(slot);
    }

    /** Polling a waiting call: it resumes exactly if it has been woken. */
    method PollWaiter(slot: Slot, task: TaskId, ghost k: nat) returns (ready: bool, initializer: bool)
      requires Valid() && slot in waiters.live && Located(slot, k)
      modifies this`model, waiters, slot`waker, slot`parked, slot`state
      ensures Valid()
      ensures ready == old(slot.waker.None?)
      ensures ready ==>
                && model == Step(old(model), OnceCellModel.Resume(k))
                && waiters.live == old(waiters.live) - {slot} && slot.state == Moved
                && initializer == state.Initializing? && (!initializer ==> state.Initialized?)
      ensures !ready ==> model == old(model) && waiters.live == old(waiters.live) && slot.waker == Some(task)
    {
      initializer := false;
      ready := waiters.PollWait(slot, task);
      assert Aligned(model.queue, model.woken) == old(Aligned(model.queue, model.woken));
      if ready {
        initializer := Resume(slot, k);
      }
    }

    /** The initializer produced a value: store it, disarm the guard, wake everyone. */
    method Succeed(value: T, ghost j: nat)
      requires Valid() && j < |model.runners|
      modifies this`state, this`model
      modifies waiters`borrowed, waiters`head, waiters`tail, waiters`queue
      modifies waiters`wakes, waiters`books, waiters.live
      ensures Valid()
      ensures model == Step(old(model), OnceCellModel.Succeed(j, value))
      ensures state == Initialized(value) && waiters.live == old(waiters.live)
    {
      hide Holds;
      StepKeepsInv(model, OnceCellModel.Succeed(j, value));
      ghost var stored := model.(cell := Initialized(value), runners := Without(model.runners, j));
      assert Step(model, OnceCellModel.Succeed(j, value)) == WakeAll(stored);
      WakeAllExact(stored);
      state, model := Initialized(value), stored;
      assert Holds(model.queue, model.woken) == old(Holds(model.queue, model.woken));
      WakeEveryone();
    }

    /** `Guard::drop`, when the initializer errors, panics or is cancelled. */
    method Fail(ghost j: nat)
      requires Valid() && j < |model.runners|
      modifies this`state, this`model
      modifies waiters`borrowed, waiters`head, waiters`tail, waiters`queue
      modifies waiters`wakes, waiters`books, waiters.live
      ensures Valid()
      ensures model == Step(old(model), OnceCellModel.Fail(j))
      ensures waiters.live == old(waiters.live)
    {
      hide Holds;
      StepKeepsInv(model, OnceCellModel.Fail(j));
      ghost var rest := model.(runners := Without(model.runners, j));
      assert Step(model, OnceCellModel.Fail(j)) == OnceCellModel.DropBaton(rest);
      model := rest;
      assert Holds(model.queue, model.woken) == old(Holds(model.queue, model.woken));
      DropBaton();
    }

    /** Dropping a call that is still queued. */
    method CancelQueued(slot: Slot, ghost k: nat)
      requires Valid()
      requires k < |model.queue| && model.queue[k] == slot
      modifies this`model, waiters, waiters.live
      ensures Valid()
      ensures model == Step(old(model), OnceCellModel.CancelQueued(k))
      ensures waiters.live == old(waiters.live) - {slot} && slot.state == Moved
    {
      hide Inv;
      StepKeepsInv(model, OnceCellModel.CancelQueued(k));
      ghost var after := Step(model, OnceCellModel.CancelQueued(k));
      WithoutMembers(waiters.queue, k);
      waiters.QueuedWaits(slot);
      var aborted, output := waiters.DropWait(slot, k);
      assert !aborted;
      model := after;
      forall i: nat | i < |model.woken| ensures WokenAt(model.woken, i) {
        assert old(WokenAt(model.woken, i));
      }
    }

    /** Dropping a call that was woken but never resumed drops the baton in its slot. */
    method CancelWoken(slot: Slot, ghost k: nat)
      requires Valid()
      requires k < |model.woken| && model.woken[k].id == slot
      modifies this`state, this`model, waiters, waiters.live
      ensures Valid()
      ensures model == Step(old(model), OnceCellModel.CancelWoken(k))
      ensures waiters.live == old(waiters.live) - {slot} && slot.state == Moved
    {
      StepKeepsInv(model, OnceCellModel.CancelWoken(k));
      assert WokenAt(model.woken, k);
      ghost var rest := model.(woken := Without(model.woken, k));
      assert Step(model, OnceCellModel.CancelWoken(k)) == OnceCellModel.DropBaton(rest);
      AbandonBaton(slot, k);
      DropBaton();
    }

    /** Dropping the wait of a woken waiter drops the baton that it was given. */
    method AbandonBaton(slot: Slot, ghost k: nat)
      requires Matches() && !waiters.borrowed
      requires k < |model.woken| && model.woken[k].id == slot
      modifies this`model, waiters, waiters.live`next, waiters.live`prev, slot`state
      ensures Matches() && !waiters.borrowed
      ensures model == old(model).(woken := Without(old(model).woken, k))
      ensures waiters.live == old(waiters.live) - {slot} && slot.state == Moved
    {
      assert WokenAt(model.woken, k);
      var baton := waiters.DropWoken(slot);
      WokenForgotten(k);
      model := model.(woken := Without(model.woken, k));
    }

    /** The cell has taken the given steps since it was as described by `before`
        and `known`: steps of one future. No other waiter has become known to the
        list or unknown. */
    ghost predicate Took(before: Once<T, Slot>, known: set<Slot>, own: Slot, steps: seq<Action<T, Slot>>)
      reads this`model, waiters`live
    {
      && waiters.live <= known + {own} && known <= waiters.live + {own}
      && Reaches(before, steps, own, model)
    }
  }

  /** Where a `get_or_try_init` future is between two polls. */
  datatype Stage = Start | Waiting | Running | Done

  /** The step that ends the run of an initializer, if it ends. */
  ghost function OutcomeStep<T, E>(outcome: Outcome<T, E>): Option<Action<T, Slot>> {
    match outcome
    case StillPending => None
    case Produced(value) => Some(Succeed(0, value))
    case Failed(_) => Some(Fail(0))
    case Panicked => Some(Fail(0))
  }

  ghost function Steps<T>(step: Option<Action<T, Slot>>): seq<Action<T, Slot>> {
    if step.Some? then [step.value] else []
  }

  /** The future returned by `get_or_try_init`. It owns the storage of its waiter. */
  class GetOrTryInit<T> {
    const cell: OnceCell<T>
    const slot: Slot
    var stage: Stage

    /** The future is in the line of the cell exactly while it waits, and a runner
        exactly while it runs its initializer. While it does not wait, its waiter
        is empty and unknown to the list. */
    ghost predicate Registered()
      reads this`stage, cell`model, cell.waiters`live, slot`state
    {
      && (stage.Running? <==> slot in cell.model.runners)
      && if stage.Waiting? then slot in Line(cell.model) else slot !in cell.waiters.live && slot.state == Moved
    }

    ghost predicate Valid()
      reads this`stage, cell`state, cell`model, cell.waiters, cell.waiters.live, slot`state
    {
      cell.Valid() && Registered()
    }

    constructor (cell: OnceCell<T>)
      requires cell.Valid()
      ensures Valid() && stage == Start && this.cell == cell && fresh(slot)
    {
      this.cell, stage := cell, Start;
      slot := new Waiter();
    }

    /** A call that sleeps is queued, and somebody else has the job: one
        initializer is being run or one woken waiter holds the baton. */
    lemma SleeperIsQueued()
      requires Valid() && stage.Waiting?
      requires Asleep(cell.waiters.wakes, Some(slot.parked))
      ensures slot in cell.model.queue && slot.waker == Some(slot.parked.task)
      ensures cell.state.Initializing? && JobHolders(cell.model) == 1
    {
      var k := cell.Locate(slot);
      cell.waiters.SleepersAreQueued(slot);
    }

    /** There is no other initializer beside the one of a running future. */
    lemma RunsAlone()
      requires Valid() && stage.Running?
      ensures cell.model.runners == [slot] && cell.state.Initializing?
    {
      assert JobHolders(cell.model) <= 1;
    }

    /** What another future does leaves this one registered where it was. */
    lemma OthersStep(before: Once<T, Slot>, known: set<Slot>, other: Slot, steps: seq<Action<T, Slot>>)
      requires stage.Running? <==> slot in before.runners
      requires if stage.Waiting? then slot in Line(before) else slot !in known && slot.state == Moved
      requires other != slot && cell.Took(before, known, other, steps)
      ensures Registered()
    {
      OthersStayThrough(before, steps, other, cell.model, slot);
    }

    /** The part of a poll before the user's initializer is polled. Afterwards the
        call waits, runs its initializer, or is done because the value is there. */
    method Approach(task: TaskId) returns (ghost step: Option<Action<T, Slot>>)
      requires Valid() && stage != Done
      modifies this`stage, cell`state, cell`model, cell.waiters, cell.waiters.live, slot
      ensures Valid() && stage != Start
      ensures cell.Took(old(cell.model), old(cell.waiters.live), slot, Steps(step))
      ensures match old(stage)
              case Start => step == Some(Call(slot))
              case Waiting => if old(slot in cell.model.queue) then step == None else step.Some? && step.value.Resume?
              case Running => step == None
      ensures stage.Waiting? ==> slot.waker == Some(task)
      ensures stage.Done? ==> cell.state.Initialized? && cell.state == old(cell.state)
      ensures stage.Running? ==> cell.state.Initializing? && !old(cell.state).Initialized?
    {
      match stage {
        case Start => step := Begin(task);
        case Waiting => step := Awaken(task);
        case Running => step := None; RunsAlone();
      }
    }

    method Begin(task: TaskId) returns (ghost step: Option<Action<T, Slot>>)
      requires Valid() && stage == Start
      modifies this`stage, cell`state, cell`model, cell.waiters, cell.waiters.live`next, slot
      ensures Valid() && stage != Start
      ensures cell.Took(old(cell.model), old(cell.waiters.live), slot, Steps(step))
      ensures step == Some(Call(slot))
      ensures stage.Waiting? ==> slot.waker == Some(task)
      ensures stage.Done? ==> cell.state.Initialized? && cell.state == old(cell.state)
      ensures stage.Running? ==> cell.state.Initializing? && !old(cell.state).Initialized?
    {
      step := Some(Call(slot));
      var wait := cell.Enter(slot, task);
      Settle(if wait then Waiting else if cell.state.Initializing? then Running else Done);
    }

    method Awaken(task: TaskId) returns (ghost step: Option<Action<T, Slot>>)
      requires Valid() && stage == Waiting
      modifies this`stage, cell`model, cell.waiters, cell.waiters.live
      ensures Valid() && stage != Start
      ensures cell.Took(old(cell.model), old(cell.waiters.live), slot, Steps(step))
      ensures if old(slot in cell.model.queue) then step == None else step.Some? && step.value.Resume?
      ensures stage.Waiting? ==> slot.waker == Some(task)
      ensures stage.Done? ==> cell.state.Initialized?
      ensures stage.Running? ==> cell.state.Initializing?
    {
      ghost var k := cell.Locate(slot);
      if slot.waker.None? {
        OneStep(cell.model, OnceCellModel.Resume(k), slot);
      }
      var ready, initializer := cell.PollWaiter(slot, task, k);
      step := if ready then Some(OnceCellModel.Resume(k)) else None;
      Settle(if !ready then Waiting else if initializer then Running else Done);
    }

    /** The future goes on waiting, runs its initializer, or is done. */
    method Settle(stage: Stage)
      requires cell.Valid() && (stage.Running? <==> slot in cell.model.runners)
      requires if stage.Waiting? then slot in Line(cell.model) else slot !in cell.waiters.live && slot.state == Moved
      modifies this`stage
      ensures Valid() && this.stage == stage
    {
      this.stage := stage;
      assert cell.Valid() == old(cell.Valid());
    }

    /** One poll. `outcome` is what the initializer does if it is polled, which
        `ran` reports. The poll takes at most two steps, both of this very future:
        it enters or resumes, and its initializer ends. */
    method Poll<E>(task: TaskId, outcome: Outcome<T, E>)
      returns (poll: Poll<T, E>, ran: bool, ghost step: Option<Action<T, Slot>>)
      requires Valid() && stage != Done
      modifies this`stage, cell`state, cell`model, cell.waiters, cell.waiters.live, slot
      ensures Valid()
      ensures cell.Took(old(cell.model), old(cell.waiters.live), slot,
                        Steps(step) + Steps(if ran then OutcomeStep(outcome) else None))
      ensures match old(stage)
              case Start => step == Some(Call(slot))
              case Waiting => if old(slot in cell.model.queue) then step == None else step.Some? && step.value.Resume?
              case Running => step == None && ran
      ensures poll.Pending? <==> stage != Done
      ensures poll.Pending? ==> if ran then stage == Running && outcome.StillPending?
                                else stage.Waiting? && slot.waker == Some(task)
      ensures poll.Ready? ==> cell.state == Initialized(poll.value)
      ensures ran ==> !old(cell.state).Initialized?
      ensures poll.Ready? ==> if ran then outcome == Produced(poll.value) else old(cell.state) == cell.state
      ensures poll.Error? ==> ran && outcome == Failed(poll.error)
      ensures poll.Unwound? ==> ran && outcome.Panicked?
      ensures ran && outcome.Produced? ==> poll.Ready?
    {
      ran := false;
      step := Approach(task);
      match stage {
        case Waiting =>
          poll := Pending;
          assert Steps(step) + [] == Steps(step);
        case Done =>
          poll := Ready(cell.state.value);
          assert Steps(step) + [] == Steps(step);
        case Running =>
          ran := true;
          ghost var between := cell.model;
          poll := RunInitializer(outcome);
          ReachesConcat(old(cell.model), Steps(step), slot, between, Steps(OutcomeStep(outcome)), cell.model);
      }
    }

    method RunInitializer<E>(outcome: Outcome<T, E>) returns (poll: Poll<T, E>)
      requires Valid() && stage == Running
      modifies this`stage, cell`state, cell`model, cell.waiters, cell.waiters.live
      ensures Valid()
      ensures cell.Took(old(cell.model), old(cell.waiters.live), slot, Steps(OutcomeStep(outcome)))
      ensures poll.Pending? <==> stage != Done
      ensures match outcome
              case StillPending => poll == Pending && stage == Running
              case Produced(value) => poll == Ready(value) && cell.state == Initialized(value)
              case Failed(error) => poll == Error(error)
              case Panicked => poll == Unwound
    {
      match outcome {
        case StillPending =>
          poll := Pending;
        case Produced(value) =>
          Finish(Some(value));
          poll := Ready(value);
        case Failed(error) =>
          Finish(None);
          poll := Error(error);
        case Panicked =>
          Finish(None);
          poll := Unwound;
      }
    }

    /** The initializer ends with a value, or without one. */
    method Finish(value: Option<T>)
      requires Valid() && stage == Running
      modifies this`stage, cell`state, cell`model, cell.waiters, cell.waiters.live
      ensures Valid() && stage == Done
      ensures cell.Took(old(cell.model), old(cell.waiters.live), slot,
                        [if value.Some? then OnceCellModel.Succeed(0, value.value) else OnceCellModel.Fail(0)])
      ensures value.Some? ==> cell.state == Initialized(value.value)
    {
      RunsAlone();
      ghost var step := if value.Some? then OnceCellModel.Succeed(0, value.value) else OnceCellModel.Fail(0);
      OneStep(cell.model, step, slot);
      RunnerLeaves(cell.model, step);
      assert Without([slot], 0) == [];
      if value.Some? {
        cell.Succeed(value.value, 0);
      } else {
        cell.Fail(0);
      }
      Settle(Done);
    }

    /** Dropping the future before it completed cancels its own call, or hands
        the job on if this future had it. */
    method Drop() returns (ghost step: Option<Action<T, Slot>>)
      requires Valid() && stage != Done
      modifies this`stage, cell`state, cell`model, cell.waiters, cell.waiters.live
      ensures Valid() && stage == Done
      ensures cell.Took(old(cell.model), old(cell.waiters.live), slot, Steps(step))
      ensures match old(stage)
              case Start => step == None
              case Waiting => step.Some? && if old(slot in cell.model.queue) then step.value.CancelQueued?
                                            else step.value.CancelWoken?
              case Running => step == Some(OnceCellModel.Fail(0))
    {
      step := None;
      match stage {
        case Start =>
          stage := Done;
        case Waiting =>
          step := DropWaiting();
        case Running =>
          step := Some(OnceCellModel.Fail(0));
          Finish(None);
      }
    }

    method DropWaiting() returns (ghost step: Option<Action<T, Slot>>)
      requires Valid() && stage == Waiting
      modifies this`stage, cell`state, cell`model, cell.waiters, cell.waiters.live
      ensures Valid() && stage == Done
      ensures cell.Took(old(cell.model), old(cell.waiters.live), slot, Steps(step))
      ensures step.Some? && if old(slot in cell.model.queue) then step.value.CancelQueued? else step.value.CancelWoken?
    {
      ghost var k := cell.Locate(slot);
      step := Some(if slot.waker.Some? then OnceCellModel.CancelQueued(k) else OnceCellModel.CancelWoken(k));
      OneStep(cell.model, step.value, slot);
      CancelKeepsRunners(cell.model, step.value);
      if slot.waker.Some? {
        cell.CancelQueued(slot, k);
      } else {
        cell.CancelWoken(slot, k);
      }
      Settle(Done);
    }
  }

  /** Initializers never overlap: there are no two futures that run theirs on one cell. */
  lemma InitializersNeverOverlap<T>(f: GetOrTryInit<T>, g: GetOrTryInit<T>)
    requires f.Valid() && g.Valid() && f.cell == g.cell
    requires f.stage.Running? && g.stage.Running?
    ensures f.slot == g.slot
  {
    f.RunsAlone();
    g.RunsAlone();
  }

  datatype Inserted<T> = Accepted(stored: T) | Rejected(present: T, own: T)

  /** The future returned by `insert`: an initialization whose initializer takes
      the value out of `value` and is ready at once. */
  class Insert<T> {
    const call: GetOrTryInit<T>
    var value: Option<T>

    ghost predicate Valid()
      reads this`value, call`stage, call.cell`state, call.cell`model, call.cell.waiters, call.cell.waiters.live
      reads call.slot`state
    {
      call.Valid() && call.stage != Running && (call.stage != Done ==> value.Some?)
    }

    constructor (call: GetOrTryInit<T>, value: T)
      requires call.Valid() && call.stage == Start
      ensures Valid() && this.call == call && this.value == Some(value)
    {
      this.call, this.value := call, Some(value);
    }

    /** The inserted value is either the one stored by this very poll, or it is
        given back together with the value that is in the cell. */
    method Poll(task: TaskId) returns (result: Option<Inserted<T>>, ghost steps: seq<Action<T, Slot>>)
      requires Valid() && call.stage != Done
      modifies this`value, call`stage, call.cell`state, call.cell`model, call.cell.waiters, call.cell.waiters.live
      modifies call.slot
      ensures Valid()
      ensures call.cell.Took(old(call.cell.model), old(call.cell.waiters.live), call.slot, steps)
      ensures result.Some? <==> call.stage == Done
      ensures result.None? ==> value == old(value)
      ensures result.Some? && result.value.Accepted? ==>
                && Some(result.value.stored) == old(value)
                && call.cell.state == Initialized(result.value.stored) && !old(call.cell.state.Initialized?)
                && steps != [] && steps[|steps| - 1] == Succeed(0, result.value.stored)
      ensures result.Some? && result.value.Rejected? ==>
                && Some(result.value.own) == old(value)
                && call.cell.state == old(call.cell.state) == Initialized(result.value.present)
    {
      hide OnceCell.Valid, Reaches;
      var outcome: Outcome<T, ()> := Produced(value.value);
      ghost var step;
      var poll, ran;
      poll, ran, step := call.Poll(task, outcome);
      steps := Steps(step) + Steps(if ran then OutcomeStep(outcome) else None);
      if ran {
        value := None;
      }
      match poll {
        case Pending =>
          result := None;
        case Ready(reference) =>
          match value {
            case Some(own) => result := Some(Rejected(reference, own));
            case None => result := Some(Accepted(reference));
          }
      }
    }
  }
}
