/**
 The semaphore of `src/semaphore.rs` as objects over the linked wait list. Every
 method is proved to take exactly one step of `SemaphoreModel`, so whatever calls
 are made in whatever order, the states a semaphore goes through form a run.
 */
module Semaphores {
  import opened Common
  import opened Ledgers
  import opened Sums
  import opened WaitLists
  import opened Wakeups
  import opened SemaphoreModel
  import opened SemaphoreLine

  /** The value handed to a woken waiter: a token to contend with, or permits reserved for it. */
  datatype WakeUp = UnfairWoken | FairGrant(permits: usize)

  type Slot = Waiter<usize, WakeUp>

  function WakeUpOf<W>(g: Grant<W>): WakeUp {
    if g.fair then FairGrant(g.request.wanted) else UnfairWoken
  }

  ghost function Slots<W>(woken: seq<Grant<W>>): seq<W> {
    Ids(Requests(woken))
  }

  class Semaphore {
    const waiters: WaitList<usize, WakeUp>
    var permits: usize
    var totalPermits: usize

    ghost var model: Sem<Slot>

    /** The linked waiter at position `i` is the request `i`, with the input it waits for. */
    ghost predicate QueuedAt(queue: seq<Request<Slot>>, i: nat)
      reads waiters`queue, waiters`live, waiters.live`state
    {
      && i < |queue| && i < |waiters.queue| && waiters.queue[i] in waiters.live
      && queue[i].id == waiters.queue[i]
      && waiters.queue[i].state == Input(queue[i].wanted)
    }

    /** The woken waiter `i` is unlinked and holds the wakeup it was given. */
    ghost predicate WokenAt(woken: seq<Grant<Slot>>, i: nat)
      reads waiters`queue, waiters`live, waiters.live`state
    {
      && i < |woken|
      && woken[i].request.id in waiters.live
      && woken[i].request.id !in waiters.queue
      && woken[i].request.id.state == Output(WakeUpOf(woken[i]))
    }

    ghost predicate Aligned(queue: seq<Request<Slot>>, woken: seq<Grant<Slot>>)
      reads waiters`queue, waiters`live, waiters.live`state
    {
      && |queue| == |waiters.queue|
      && (forall i: nat {:trigger QueuedAt(queue, i)} :: i < |queue| ==> QueuedAt(queue, i))
      && (forall i: nat {:trigger WokenAt(woken, i)} :: i < |woken| ==> WokenAt(woken, i))
      && Distinct(Slots(woken))
    }

    /** The list is in order and holds exactly these suspended requests. */
    ghost predicate Holds(queue: seq<Request<Slot>>, woken: seq<Grant<Slot>>)
      reads waiters`head, waiters`tail, waiters`queue, waiters`live, waiters`wakes, waiters`books, waiters.live
    {
      waiters.Valid() && Aligned(queue, woken)
    }

    ghost predicate Matches()
      reads this`model, this`permits, this`totalPermits
      reads waiters`head, waiters`tail, waiters`queue, waiters`live, waiters`wakes, waiters`books, waiters.live
    {
      model.permits == permits && model.total == totalPermits && Holds(model.queue, model.woken)
    }

    ghost predicate Valid()
      reads this, waiters, waiters.live
    {
      Matches() && !waiters.borrowed && Conserved(model)
    }

    constructor (permits: usize)
      ensures Valid() && IsNew(model) && this.permits == totalPermits == permits
      ensures fresh(waiters) && waiters.live == {}
    {
      this.permits, totalPermits := permits, permits;
      waiters := new WaitList();
      model := New(permits);
    }

    method ReleasePermits(amount: usize, fairness: Fairness)
      requires Matches() && !waiters.borrowed
      requires permits + amount <= WORD_MAX
      modifies this`permits, this`model
      modifies waiters`borrowed, waiters`head, waiters`tail, waiters`queue
      modifies waiters`wakes, waiters`books, waiters.live
      ensures Matches() && !waiters.borrowed
      ensures model == Release(old(model), amount, fairness)
      ensures waiters.live == old(waiters.live)
      ensures permits + Granted(model) == old(permits) + Granted(old(model)) + amount
      ensures fairness.Unfair? ==> permits == old(permits) + amount
      ensures model.held == old(model).held && totalPermits == old(totalPermits)
    {
      hide Holds;
      ReleaseMeasures(model, amount, fairness);
      var available: usize := permits + amount;
      ghost var raised := model.(permits := available);
      assert Release(model, amount, fairness) == Wake(raised, available, fairness);
      permits, model := available, raised;
      assert Holds(model.queue, model.woken) == old(Holds(model.queue, model.woken));
      BorrowAndWake(available, fairness);
    }

    method BorrowWaiters()
      requires Matches() && !waiters.borrowed
      modifies waiters`borrowed
      ensures Matches() && waiters.borrowed
    {
      hide *;
      waiters.Borrow();
      assert Matches() == old(Matches());
    }

    method UnborrowWaiters()
      requires Matches() && waiters.borrowed
      modifies waiters`borrowed
      ensures Matches() && !waiters.borrowed
    {
      hide *;
      waiters.Unborrow();
      assert Matches() == old(Matches());
    }

    method BorrowAndWake(available: usize, fairness: Fairness)
      requires Matches() && !waiters.borrowed
      requires permits == available
      modifies this`permits, this`model
      modifies waiters`borrowed, waiters`head, waiters`tail, waiters`queue
      modifies waiters`wakes, waiters`books, waiters.live
      ensures Matches() && !waiters.borrowed
      ensures model == Wake(old(model), available, fairness)
      ensures waiters.live == old(waiters.live)
    {
      hide *;
      BorrowWaiters();
      WakeWaiters(available, fairness);
      UnborrowWaiters();
    }

    /** The wake loop, run while the list is borrowed. */
    method WakeWaiters(available: usize, fairness: Fairness)
      requires Matches() && waiters.borrowed
      requires permits == available
      modifies this`permits, this`model
      modifies waiters`head, waiters`tail, waiters`queue, waiters`wakes, waiters`books, waiters.live
      ensures Matches()
      ensures model == Wake(old(model), available, fairness)
      ensures waiters.live == old(waiters.live)
    {
      hide Holds;
      var left := available;
      while true
        invariant Matches()
        invariant waiters.live == old(waiters.live)
        invariant fairness.Fair? ==> permits == left
        invariant Wake(model, left, fairness) == Wake(old(model), available, fairness)
        decreases |waiters.queue|
      {
        var head := HeadWanted();
        if head.None? || left < head.value {
          break;
        }
        left := left - head.value;
        WakeHead(head.value, left, fairness);
      }
    }

    /** What the head of the queue wants. */
    method HeadWanted() returns (wanted: Option<usize>)
      requires Matches() && waiters.borrowed
      ensures wanted == if model.queue == [] then None else Some(model.queue[0].wanted)
    {
      assert model.queue != [] ==> QueuedAt(model.queue, 0);
      wanted := waiters.HeadInput();
    }

    /** One round of the wake loop: hand the head its wakeup. The failed
        `wake_one` of the source is unreachable, since the list has a head. */
    method WakeHead(wanted: usize, left: usize, fairness: Fairness)
      requires Matches() && waiters.borrowed
      requires model.queue != [] && model.queue[0].wanted == wanted
      modifies this`permits, this`model
      modifies waiters`head, waiters`tail, waiters`queue, waiters`wakes, waiters`books, waiters.live
      ensures Matches()
      ensures waiters.live == old(waiters.live)
      ensures |waiters.queue| < |old(waiters.queue)|
      ensures model == old(model).(
                queue := old(model).queue[1..],
                woken := old(model).woken + [Grant(old(model).queue[0], fairness.Fair?)],
                permits := if fairness.Fair? then left else old(model).permits)
    {
      var wake := if fairness.Fair? then FairGrant(wanted) else UnfairWoken;
      if fairness.Fair? {
        permits := left;
      }
      GrantHead(wake, Grant(model.queue[0], fairness.Fair?));
    }

    method GrantHead(wake: WakeUp, ghost grant: Grant<Slot>)
      requires Holds(model.queue, model.woken) && waiters.borrowed
      requires model.queue != [] && grant.request == model.queue[0] && wake == WakeUpOf(grant)
      modifies this`model
      modifies waiters`head, waiters`tail, waiters`queue, waiters`wakes, waiters`books, waiters.live
      ensures Holds(model.queue, model.woken)
      ensures waiters.live == old(waiters.live) && |waiters.queue| < |old(waiters.queue)|
      ensures model == old(model).(
                queue := old(model).queue[1..], woken := old(model).woken + [grant], permits := permits)
    {
      assert QueuedAt(model.queue, 0) && waiters.Waiting(waiters.queue[0]);
      var input := waiters.WakeOne(wake);
      assert input.Some?;
      model := model.(queue := model.queue[1..], woken := model.woken + [grant], permits := permits);
      HeadGranted(grant);
    }

    /** The model moves the head of the queue to the woken waiters along with the list. */
    twostate lemma HeadGranted(grant: Grant<Slot>)
      requires old(Aligned(model.queue, model.woken)) && Distinct(old(waiters.queue))
      requires old(model).queue != [] && grant.request == old(model).queue[0]
      requires model.queue == old(model).queue[1..] && model.woken == old(model).woken + [grant]
      requires waiters.queue == Without(old(waiters.queue), 0) && waiters.live == old(waiters.live)
      requires grant.request.id.state == Output(WakeUpOf(grant))
      requires forall w :: w in waiters.live && w != grant.request.id ==> w.state == old(w.state)
      ensures Aligned(model.queue, model.woken)
    {
      var queue, slots := old(waiters.queue), Slots(old(model).woken);
      assert old(QueuedAt(model.queue, 0));
      WithoutMembers(queue, 0);
      forall i: nat | i < |model.queue| ensures QueuedAt(model.queue, i) {
        assert old(QueuedAt(model.queue, i + 1));
        DistinctFrom(queue, 0, i + 1);
      }
      forall i: nat | i < |model.woken| ensures WokenAt(model.woken, i) {
        assert i < |old(model).woken| ==> old(WokenAt(model.woken, i));
      }
      assert Slots(model.woken) == slots + [queue[0]];
      AppendDistinct(slots, queue[0]) by {
        forall i: nat | i < |slots| ensures slots[i] != queue[0] {
          assert old(WokenAt(model.woken, i));
        }
      }
    }

    method TryAcquireUnfair(amount: usize) returns (permit: Option<usize>)
      requires Valid()
      modifies this`permits, this`model
      ensures Valid()
      ensures model == Step(old(model), SemaphoreModel.TryAcquireUnfair(amount))
      ensures permit == if amount <= old(permits) then Some(amount) else None
      ensures permit.Some? ==>
                && permits == old(permits) - amount && model.held == old(model).held + [amount]
                && model.queue == old(model).queue && model.woken == old(model).woken
      ensures permit.None? ==> model == old(model) && permits == old(permits)
    {
      if amount <= permits {
        StepConserves(model, SemaphoreModel.TryAcquireUnfair(amount));
        permits := permits - amount;
        model := Take(model, amount);
        permit := Some(amount);
      } else {
        permit := None;
      }
    }

    method TryAcquire(amount: usize) returns (permit: Option<usize>)
      requires Valid()
      modifies this`permits, this`model, waiters`borrowed
      ensures Valid()
      ensures model == Step(old(model), SemaphoreModel.TryAcquire(amount))
      ensures permit == if waiters.queue == [] && amount <= old(permits) then Some(amount) else None
      ensures permit.Some? ==>
                && permits == old(permits) - amount && model.held == old(model).held + [amount]
                && model.queue == old(model).queue && model.woken == old(model).woken
      ensures permit.None? ==> model == old(model) && permits == old(permits)
    {
      waiters.Borrow();
      var empty := waiters.IsEmpty();
      waiters.Unborrow();
      if empty {
        permit := TryAcquireUnfair(amount);
      } else {
        permit := None;
      }
    }

    /** Returns whether the call succeeds; the source panics when it does not. */
    method AddPermits(amount: usize) returns (ok: bool)
      requires Valid()
      modifies this`permits, this`totalPermits, this`model
      modifies waiters`borrowed, waiters`head, waiters`tail, waiters`queue
      modifies waiters`wakes, waiters`books, waiters.live
      ensures Valid()
      ensures ok == (old(totalPermits) + amount <= WORD_MAX)
      ensures model == Step(old(model), SemaphoreModel.AddPermits(amount))
      ensures waiters.live == old(waiters.live)
      ensures totalPermits == old(totalPermits) + if ok then amount else 0
      ensures permits == old(permits) + if ok then amount else 0
      ensures model.held == old(model).held
    {
      hide Holds;
      StepConserves(model, SemaphoreModel.AddPermits(amount));
      ok := totalPermits + amount <= WORD_MAX;
      ghost var raised := model.(total := totalPermits + amount);
      assert Step(model, SemaphoreModel.AddPermits(amount)) == if ok then Release(raised, amount, Unfair) else model;
      if ok {
        totalPermits, model := totalPermits + amount, raised;
        assert Holds(model.queue, model.woken) == old(Holds(model.queue, model.woken));
        ReleasePermits(amount, Unfair);
      }
    }

    method AddPermitsFair(amount: usize) returns (ok: bool)
      requires Valid()
      modifies this`permits, this`totalPermits, this`model
      modifies waiters`borrowed, waiters`head, waiters`tail, waiters`queue
      modifies waiters`wakes, waiters`books, waiters.live
      ensures Valid()
      ensures ok == (old(totalPermits) + amount <= WORD_MAX)
      ensures model == Step(old(model), SemaphoreModel.AddPermitsFair(amount))
      ensures waiters.live == old(waiters.live)
      ensures totalPermits == old(totalPermits) + if ok then amount else 0
      ensures permits + Granted(model) == old(permits) + Granted(old(model)) + if ok then amount else 0
      ensures model.held == old(model).held
    {
      hide Holds;
      StepConserves(model, SemaphoreModel.AddPermitsFair(amount));
      ok := totalPermits + amount <= WORD_MAX;
      ghost var raised := model.(total := totalPermits + amount);
      assert Step(model, SemaphoreModel.AddPermitsFair(amount)) == if ok then Release(raised, amount, Fair) else model;
      if ok {
        totalPermits, model := totalPermits + amount, raised;
        assert Holds(model.queue, model.woken) == old(Holds(model.queue, model.woken));
        ReleasePermits(amount, Fair);
      }
    }

    /** `Permit::drop`. The ghost index says which of the outstanding permits it is. */
    method DropPermit(amount: usize, ghost j: nat)
      requires Valid()
      requires j < |model.held| && model.held[j] == amount
      modifies this`permits, this`model
      modifies waiters`borrowed, waiters`head, waiters`tail, waiters`queue
      modifies waiters`wakes, waiters`books, waiters.live
      ensures Valid()
      ensures model == Step(old(model), SemaphoreModel.DropPermit(j))
      ensures waiters.live == old(waiters.live)
      ensures permits == old(permits) + amount && model.held == Without(old(model).held, j)
    {
      hide Holds;
      StepConserves(model, SemaphoreModel.DropPermit(j));
      TotalWithout(model.held, j);
      ghost var rest := model.(held := Without(model.held, j));
      assert Step(model, SemaphoreModel.DropPermit(j)) == Release(rest, amount, Unfair);
      model := rest;
      assert Holds(model.queue, model.woken) == old(Holds(model.queue, model.woken));
      ReleasePermits(amount, Unfair);
    }

    /** `Permit::release_fair`. */
    method ReleaseFair(amount: usize, ghost j: nat)
      requires Valid()
      requires j < |model.held| && model.held[j] == amount
      modifies this`permits, this`model
      modifies waiters`borrowed, waiters`head, waiters`tail, waiters`queue
      modifies waiters`wakes, waiters`books, waiters.live
      ensures Valid()
      ensures model == Step(old(model), SemaphoreModel.ReleaseFair(j))
      ensures waiters.live == old(waiters.live)
      ensures permits + Granted(model) == old(permits) + Granted(old(model)) + amount
      ensures model.held == Without(old(model).held, j)
    {
      hide Holds;
      StepConserves(model, SemaphoreModel.ReleaseFair(j));
      TotalWithout(model.held, j);
      ghost var rest := model.(held := Without(model.held, j));
      assert Step(model, SemaphoreModel.ReleaseFair(j)) == Release(rest, amount, Fair);
      model := rest;
      assert Holds(model.queue, model.woken) == old(Holds(model.queue, model.woken));
      ReleasePermits(amount, Fair);
    }

    /** `Permit::leak`. */
    method Leak(amount: usize, ghost j: nat)
      requires Valid()
      requires j < |model.held| && model.held[j] == amount
      modifies this`totalPermits, this`model
      ensures Valid()
      ensures model == Step(old(model), SemaphoreModel.Leak(j))
      ensures totalPermits == old(totalPermits) - amount && permits == old(permits)
      ensures model.held == Without(old(model).held, j)
      ensures model.queue == old(model).queue && model.woken == old(model).woken
    {
      StepConserves(model, SemaphoreModel.Leak(j));
      TotalWithout(model.held, j);
      totalPermits := totalPermits - amount;
      model := model.(held := Without(model.held, j), total := totalPermits);
    }

    /** The drop handlers of `UnfairWoken` and `FairGrant`. */
    method DropWakeUp(wake: WakeUp)
      requires Matches() && !waiters.borrowed
      requires wake.FairGrant? ==> permits + wake.permits <= WORD_MAX
      modifies this`permits, this`model
      modifies waiters`borrowed, waiters`head, waiters`tail, waiters`queue
      modifies waiters`wakes, waiters`books, waiters.live
      ensures Matches() && !waiters.borrowed
      ensures model == Release(old(model), if wake.FairGrant? then wake.permits else 0, Unfair)
      ensures waiters.live == old(waiters.live)
    {
      match wake {
        case UnfairWoken => ReleasePermits(0, Unfair);
        case FairGrant(amount) => ReleasePermits(amount, Unfair);
      }
    }

    /** A waiter that the list does not know is not suspended. */
    lemma UnknownIsNotInLine(slot: Slot)
      requires Matches() && slot !in waiters.live
      ensures slot !in Ids(Line(model))
    {
      forall i | 0 <= i < |Line(model)| ensures Line(model)[i].id != slot {
        if i < |model.woken| {
          assert WokenAt(model.woken, i);
        } else {
          assert QueuedAt(model.queue, i - |model.woken|);
        }
      }
    }

    /** The top of the `acquire` loop up to its suspension: either a permit, or
        the future's waiter at the end of the queue, which will wake `task`. */
    method Contend(slot: Slot, amount: usize, barge: bool, task: TaskId) returns (permit: Option<usize>)
      requires Valid()
      requires slot !in waiters.live && slot.state == Moved
      modifies this`permits, this`model, waiters, waiters.live, slot
      ensures Valid()
      ensures Enabled(old(model), Acquire(slot, amount, barge))
      ensures model == Step(old(model), Acquire(slot, amount, barge))
      ensures permit == if Admits(old(model), amount, barge) then Some(amount) else None
      ensures if permit.Some? then waiters.live == old(waiters.live) && slot.state == Moved
              else waiters.live == old(waiters.live) + {slot} && slot.waker == Some(task)
    {
      UnknownIsNotInLine(slot);
      assert Step(model, Acquire(slot, amount, barge)) == SemaphoreModel.Contend(model, slot, amount, barge);
      permit := Attempt(amount, barge);
      if permit.None? {
        Park(Request(slot, amount, barge), task);
      }
    }

    method Attempt(amount: usize, barge: bool) returns (permit: Option<usize>)
      requires Valid()
      modifies this`permits, this`model, waiters`borrowed
      ensures Valid()
      ensures permit == if Admits(old(model), amount, barge) then Some(amount) else None
      ensures model == if permit.Some? then Take(old(model), amount) else old(model)
    {
      if barge {
        permit := TryAcquireUnfair(amount);
      } else {
        permit := TryAcquire(amount);
      }
    }

    /** `wait` up to its suspension. */
    method Park(request: Request<Slot>, task: TaskId)
      requires Valid()
      requires request.id !in waiters.live && request.id.state == Moved
      modifies this`model, waiters, waiters.live`next, request.id
      ensures Valid()
      ensures model == old(model).(queue := old(model).queue + [request])
      ensures waiters.live == old(waiters.live) + {request.id} && request.id.waker == Some(task)
    {
      waiters.Begin(request.id, request.wanted, task);
      model := model.(queue := model.queue + [request]);
      RequestQueued(request);
    }

    /** The model appends a request along with the list. */
    twostate lemma RequestQueued(request: Request<Slot>)
      requires old(Aligned(model.queue, model.woken)) && request.id !in old(waiters.live)
      requires model.queue == old(model).queue + [request] && model.woken == old(model).woken
      requires waiters.queue == old(waiters.queue) + [request.id]
      requires waiters.live == old(waiters.live) + {request.id}
      requires request.id.state == Input(request.wanted)
      requires forall w :: w in old(waiters.live) ==> w.state == old(w.state)
      ensures Aligned(model.queue, model.woken)
    {
      forall i: nat | i < |model.queue| ensures QueuedAt(model.queue, i) {
        assert i < |old(model).queue| ==> old(QueuedAt(model.queue, i));
      }
      forall i: nat | i < |model.woken| ensures WokenAt(model.woken, i) {
        assert old(WokenAt(model.woken, i));
      }
    }

    /** Take the wakeup out of a woken waiter, whose wait is thereby over. */
    method TakeWakeUp(waiter: Slot, ghost k: nat) returns (wake: WakeUp)
      requires Matches() && !waiters.borrowed
      requires k < |model.woken| && model.woken[k].request.id == waiter
      modifies this`model, waiters`live, waiters`books, waiter`state
      ensures Matches()
      ensures wake == WakeUpOf(old(model).woken[k])
      ensures model == old(model).(woken := Without(old(model).woken, k))
      ensures waiters.live == old(waiters.live) - {waiter} && waiter.state == Moved
    {
      assert WokenAt(model.woken, k);
      wake := waiters.TakeOutput(waiter);
      model := model.(woken := Without(model.woken, k));
      WokenForgotten(k);
    }

    /** The model forgets a woken waiter that the list no longer knows. */
    twostate lemma WokenForgotten(k: nat)
      requires old(Aligned(model.queue, model.woken)) && k < |old(model).woken|
      requires model.queue == old(model).queue && model.woken == Without(old(model).woken, k)
      requires waiters.queue == old(waiters.queue)
      requires waiters.live == old(waiters.live) - {old(model).woken[k].request.id}
      requires forall w :: w in waiters.live ==> w.state == old(w.state)
      ensures Aligned(model.queue, model.woken)
    {
      var slots := Slots(old(model).woken);
      assert Slots(model.woken) == Without(slots, k);
      WithoutMembers(slots, k);
      forall i: nat | i < |model.queue| ensures QueuedAt(model.queue, i) {
        assert old(QueuedAt(model.queue, i)) && old(WokenAt(model.woken, k));
        assert waiters.queue[i] in waiters.queue;
      }
      forall i: nat | i < |model.woken| ensures WokenAt(model.woken, i) {
        var j := if i < k then i else i + 1;
        assert old(WokenAt(model.woken, j));
        DistinctFrom(slots, j, k);
      }
    }

    /** The model forgets a queued request along with the list. */
    twostate lemma QueuedForgotten(k: nat)
      requires old(Aligned(model.queue, model.woken)) && Distinct(old(waiters.queue)) && k < |old(model).queue|
      requires model.queue == Without(old(model).queue, k) && model.woken == old(model).woken
      requires waiters.queue == Without(old(waiters.queue), k)
      requires waiters.live == old(waiters.live) - {old(waiters.queue[k])}
      requires forall w :: w in waiters.live ==> w.state == old(w.state)
      ensures Aligned(model.queue, model.woken)
    {
      var queue := old(waiters.queue);
      WithoutMembers(queue, k);
      forall i: nat | i < |model.queue| ensures QueuedAt(model.queue, i) {
        var j := if i < k then i else i + 1;
        assert old(QueuedAt(model.queue, j));
        DistinctFrom(queue, j, k);
      }
      forall i: nat | i < |model.woken| ensures WokenAt(model.woken, i) {
        assert old(WokenAt(model.woken, i));
        assert queue[k] in queue;
      }
    }

    /** Resuming an `acquire` whose waiter was woken: claim the grant, or take
        the permits and forget the token, or drop the token and contend again. */
    method Resume(slot: Slot, amount: usize, barge: bool, task: TaskId, ghost k: nat) returns (permit: Option<usize>)
      requires Valid()
      requires k < |model.woken| && model.woken[k].request == Request(slot, amount, barge)
      modifies this`permits, this`model, waiters, waiters.live
      ensures Valid()
      ensures model == Step(old(model), SemaphoreModel.Resume(k))
      ensures permit == if InVain(old(model).woken[k], old(permits)) then None else Some(amount)
      ensures if permit.Some? then waiters.live == old(waiters.live) - {slot} && slot.state == Moved
              else waiters.live == old(waiters.live) && slot.waker == Some(task)
    {
      StepConserves(model, SemaphoreModel.Resume(k));
      ClaimsWithout(model.woken, k, true);
      assert WokenAt(model.woken, k);
      assert !model.woken[k].fair ==> Conserved(model.(woken := Without(model.woken, k)));
      hide Holds, Conserved;
      var wake := TakeWakeUp(slot, k);
      match wake {
        case FairGrant(_) =>
          Hold(amount);
          permit := Some(amount);
        case UnfairWoken =>
          permit := Reattempt(slot, amount, barge, task);
      }
    }

    /** A grant has become a permit of its waiter. */
    ghost method Hold(amount: usize)
      requires Matches()
      modifies this`model
      ensures Matches() && model == old(model).(held := old(model).held + [amount])
    {
      hide Holds;
      model := model.(held := model.held + [amount]);
      assert Holds(model.queue, model.woken) == old(Holds(model.queue, model.woken));
    }

    /** The attempt of a token holder, with the next round of the loop if it is in vain. */
    method Reattempt(slot: Slot, amount: usize, barge: bool, task: TaskId) returns (permit: Option<usize>)
      requires Valid()
      requires slot !in waiters.live && slot.state == Moved
      modifies this`permits, this`model, waiters, waiters.live, slot
      ensures Valid()
      ensures model == if amount <= old(permits) then Take(old(model), amount)
                       else SemaphoreModel.Contend(Release(old(model), 0, Unfair), slot, amount, barge)
      ensures permit == if amount <= old(permits) then Some(amount) else None
      ensures if permit.Some? then waiters.live == old(waiters.live) && slot.state == Moved
              else waiters.live == old(waiters.live) + {slot} && slot.waker == Some(task)
    {
      hide Holds;
      permit := TryAcquireUnfair(amount);
      if permit.None? {
        WakeMeasures(model, permits, Unfair);
        ReleaseMeasures(model, 0, Unfair);
        DropWakeUp(UnfairWoken);
        permit := Contend(slot, amount, barge, task);
      }
    }

    /** The position of a suspended request in the queue or among the woken
        waiters, which the waker of its waiter tells apart. */
    ghost predicate Located(request: Request<Slot>, k: nat)
      reads this`model, waiters`queue, request.id`waker
    {
      && (request.id.waker.Some? <==> request.id in waiters.queue)
      && if request.id.waker.Some?
         then k < |model.queue| && k < |waiters.queue| && model.queue[k] == request && waiters.queue[k] == request.id
         else k < |model.woken| && model.woken[k].request == request
    }

    lemma Locate(request: Request<Slot>) returns (k: nat)
      requires Matches() && request in Line(model)
      ensures request.id in waiters.live
      ensures request in model.queue <==> request.id.waker.Some?
      ensures Located(request, k)
    {
      var i :| 0 <= i < |Line(model)| && Line(model)[i] == request;
      if i < |model.woken| {
        k := i;
        assert WokenAt(model.woken, k);
      } else {
        k := i - |model.woken|;
        assert QueuedAt(model.queue, k);
        assert request.id in waiters.queue;
      }
      assert waiters.Tagged(request.id);
      if request in model.queue {
        var j :| 0 <= j < |model.queue| && model.queue[j] == request;
        assert QueuedAt(model.queue, j) && waiters.queue[j] in waiters.queue;
      }
    }

    /** Polling the wait of a suspended `acquire`, which resumes exactly if it has been woken. */
    method PollRequest(slot: Slot, amount: usize, barge: bool, task: TaskId, ghost k: nat)
      returns (ready: bool, permit: Option<usize>)
      requires Valid() && slot in waiters.live
      requires Located(Request(slot, amount, barge), k)
      modifies this`permits, this`model, waiters, waiters.live
      ensures Valid()
      ensures ready == old(slot.waker.None?)
      ensures ready ==>
                && model == Step(old(model), SemaphoreModel.Resume(k))
                && permit == if InVain(old(model).woken[k], old(permits)) then None else Some(amount)
      ensures !ready ==> model == old(model) && permit == None
      ensures if permit.Some? then waiters.live == old(waiters.live) - {slot} && slot.state == Moved
              else waiters.live == old(waiters.live) && slot.waker == Some(task)
    {
      permit := None;
      ready := waiters.PollWait(slot, task);
      assert Aligned(model.queue, model.woken) == old(Aligned(model.queue, model.woken));
      if ready {
        permit := Resume(slot, amount, barge, task, k);
      }
    }

    /** Dropping an `acquire` future that is still queued. */
    method CancelQueued(slot: Slot, ghost k: nat)
      requires Valid()
      requires k < |model.queue| && model.queue[k].id == slot
      modifies this`model, waiters, waiters.live
      ensures Valid()
      ensures model == Step(old(model), SemaphoreModel.CancelQueued(k))
      ensures waiters.live == old(waiters.live) - {slot} && slot.state == Moved
    {
      assert QueuedAt(model.queue, k);
      hide Holds;
      StepConserves(model, SemaphoreModel.CancelQueued(k));
      AbandonInput(slot, k);
    }

    /** Dropping the wait of a queued waiter unlinks it. */
    method AbandonInput(waiter: Slot, ghost k: nat)
      requires Matches() && !waiters.borrowed
      requires k < |model.queue| && model.queue[k].id == waiter
      modifies this`model, waiters`borrowed, waiters`head, waiters`tail, waiters`queue, waiters`live, waiters`books
      modifies waiters.live`next, waiters.live`prev, waiter`state
      ensures Matches() && !waiters.borrowed
      ensures model == old(model).(queue := Without(old(model).queue, k))
      ensures waiters.live == old(waiters.live) - {waiter} && waiter.state == Moved
    {
      assert QueuedAt(model.queue, k) && waiters.queue[k] in waiters.queue;
      var aborted, output := waiters.DropWait(waiter, k);
      assert !aborted;
      model := model.(queue := Without(model.queue, k));
      QueuedForgotten(k);
    }

    /** Dropping an `acquire` future that was woken but never resumed runs the
        drop handler of the wakeup it left in its slot. */
    method CancelWoken(slot: Slot, ghost k: nat)
      requires Valid()
      requires k < |model.woken| && model.woken[k].request.id == slot
      modifies this`permits, this`model, waiters, waiters.live
      ensures Valid()
      ensures model == Step(old(model), SemaphoreModel.CancelWoken(k))
      ensures waiters.live == old(waiters.live) - {slot} && slot.state == Moved
    {
      StepConserves(model, SemaphoreModel.CancelWoken(k));
      ClaimsWithout(model.woken, k, true);
      assert WokenAt(model.woken, k);
      assert model.woken[k].fair ==> permits + model.woken[k].request.wanted <= WORD_MAX;
      assert Step(model, SemaphoreModel.CancelWoken(k))
          == Release(model.(woken := Without(model.woken, k)),
                     if model.woken[k].fair then model.woken[k].request.wanted else 0, Unfair);
      hide Holds, Conserved, Step, Release;
      var wake := AbandonWakeUp(slot, k);
      DropWakeUp(wake);
    }

    /** Dropping the wait of a woken waiter drops the wakeup that it was given. */
    method AbandonWakeUp(waiter: Slot, ghost k: nat) returns (wake: WakeUp)
      requires Matches() && !waiters.borrowed
      requires k < |model.woken| && model.woken[k].request.id == waiter
      modifies this`model, waiters`borrowed, waiters`head, waiters`tail, waiters`queue, waiters`live, waiters`books
      modifies waiters.live`next, waiters.live`prev, waiter`state
      ensures Matches() && !waiters.borrowed
      ensures wake == WakeUpOf(old(model).woken[k])
      ensures model == old(model).(woken := Without(old(model).woken, k))
      ensures waiters.live == old(waiters.live) - {waiter} && waiter.state == Moved
    {
      assert WokenAt(model.woken, k);
      wake := waiters.DropWoken(waiter);
      model := model.(woken := Without(model.woken, k));
      WokenForgotten(k);
    }

    /** The semaphore has taken the given step, if any, since it was as described
        by `before` and `known`: a step of the future with this request. No other
        waiter has become known to the list or unknown. */
    ghost predicate Took(before: Sem<Slot>, known: set<Slot>, own: Request<Slot>, step: Option<Action<Slot>>)
      reads this`model, waiters`live
    {
      && waiters.live <= known + {own.id} && known <= waiters.live + {own.id}
      && if step.None? then model == before
         else Enabled(before, step.value) && Names(before, step.value, own.id) && model == Step(before, step.value)
    }
  }

  /** Where an `acquire` future is between two polls. */
  datatype Stage = Start | Waiting | Done

  /** The future returned by `acquire`, or with `barge` by `acquire_unfair`. It
      owns the storage of its waiter. */
  class Acquire {
    const semaphore: Semaphore
    const amount: usize
    const barge: bool
    const slot: Slot
    var stage: Stage

    ghost function Claim(): Request<Slot> {
      Request(slot, amount, barge)
    }

    /** The future is in the line of the semaphore exactly while it waits, and
        otherwise its waiter is empty and unknown to the list. */
    ghost predicate Registered()
      reads this`stage, semaphore`model, semaphore.waiters`live, slot`state
    {
      if stage.Waiting? then Claim() in Line(semaphore.model)
      else slot !in semaphore.waiters.live && slot.state == Moved
    }

    ghost predicate Valid()
      reads this`stage, semaphore, semaphore.waiters, semaphore.waiters.live, slot`state
    {
      semaphore.Valid() && Registered()
    }

    /** An acquire that sleeps has not been passed over: it is still queued for
        its permits, with the task of its last poll to be woken. */
    lemma SleeperIsQueued()
      requires Valid() && stage.Waiting?
      requires Asleep(semaphore.waiters.wakes, Some(slot.parked))
      ensures Claim() in semaphore.model.queue
      ensures slot.waker == Some(slot.parked.task)
    {
      var k := semaphore.Locate(Claim());
      semaphore.waiters.SleepersAreQueued(slot);
    }

    constructor (semaphore: Semaphore, amount: usize, barge: bool)
      requires semaphore.Valid()
      ensures Valid() && stage == Start && fresh(slot)
      ensures this.semaphore == semaphore && this.amount == amount && this.barge == barge
    {
      this.semaphore, this.amount, this.barge, stage := semaphore, amount, barge, Start;
      slot := new Waiter();
    }

    /** What another future does leaves this one registered where it was. */
    lemma OthersStep(before: Sem<Slot>, known: set<Slot>, other: Request<Slot>, step: Option<Action<Slot>>)
      requires if stage.Waiting? then Claim() in Line(before) else slot !in known && slot.state == Moved
      requires other.id != slot && semaphore.Took(before, known, other, step)
      ensures Registered()
    {
      if step.Some? {
        OthersStay(before, step.value, Claim());
      }
    }

    /** One poll: a stutter while the waiter is queued, and otherwise the first
        attempt or the resumption of this very future. */
    method Poll(task: TaskId) returns (permit: Option<usize>, ghost step: Option<Action<Slot>>)
      requires Valid() && stage != Done
      modifies this`stage, semaphore`permits, semaphore`model, semaphore.waiters, semaphore.waiters.live, slot
      ensures Valid() && semaphore.Took(old(semaphore.model), old(semaphore.waiters.live), Claim(), step)
      ensures old(stage) == Start ==> step == Some(SemaphoreModel.Acquire(slot, amount, barge))
      ensures old(stage) == Waiting ==>
                if old(Claim() in semaphore.model.queue) then step == None else step.Some? && step.value.Resume?
      ensures permit.Some? <==> stage == Done
      ensures permit.Some? ==> permit == Some(amount)
      ensures semaphore.model.held == old(semaphore.model).held + if permit.Some? then [amount] else []
      ensures permit.None? ==> stage.Waiting? && slot.waker == Some(task)
    {
      match stage {
        case Start =>
          permit := PollFirst(task);
          step := Some(SemaphoreModel.Acquire(slot, amount, barge));
        case Waiting =>
          permit, step := PollWaiting(task);
      }
    }

    method PollFirst(task: TaskId) returns (permit: Option<usize>)
      requires Valid() && stage == Start
      modifies this`stage, semaphore`permits, semaphore`model, semaphore.waiters, semaphore.waiters.live, slot
      ensures Valid()
      ensures semaphore.Took(old(semaphore.model), old(semaphore.waiters.live), Claim(),
                             Some(SemaphoreModel.Acquire(slot, amount, barge)))
      ensures permit.Some? <==> stage == Done
      ensures permit.Some? ==> permit == Some(amount)
      ensures semaphore.model.held == old(semaphore.model).held + if permit.Some? then [amount] else []
      ensures permit.None? ==> stage.Waiting? && slot.waker == Some(task)
    {
      CallSettles(semaphore.model, slot, amount, barge);
      permit := semaphore.Contend(slot, amount, barge, task);
      Settle(permit.Some?);
    }

    /** The future has its permit, or goes on waiting. */
    method Settle(done: bool)
      requires semaphore.Valid()
      requires if done then slot !in semaphore.waiters.live && slot.state == Moved
               else Claim() in Line(semaphore.model)
      modifies this`stage
      ensures Valid() && stage == if done then Done else Waiting
    {
      stage := if done then Done else Waiting;
      assert semaphore.Valid() == old(semaphore.Valid());
    }

    method PollWaiting(task: TaskId) returns (permit: Option<usize>, ghost step: Option<Action<Slot>>)
      requires Valid() && stage == Waiting
      modifies this`stage, semaphore`permits, semaphore`model, semaphore.waiters, semaphore.waiters.live
      ensures Valid()
      ensures semaphore.Took(old(semaphore.model), old(semaphore.waiters.live), Claim(), step)
      ensures if old(Claim() in semaphore.model.queue) then step == None else step.Some? && step.value.Resume?
      ensures permit.Some? <==> stage == Done
      ensures permit.Some? ==> permit == Some(amount)
      ensures semaphore.model.held == old(semaphore.model).held + if permit.Some? then [amount] else []
      ensures permit.None? ==> stage.Waiting? && slot.waker == Some(task)
    {
      ghost var k := semaphore.Locate(Claim());
      if slot.waker.None? {
        ResumeSettles(semaphore.model, k);
      }
      var ready;
      ready, permit := semaphore.PollRequest(slot, amount, barge, task, k);
      step := if ready then Some(SemaphoreModel.Resume(k)) else None;
      Settle(permit.Some?);
    }

    /** Dropping the future before it completed cancels its own request. */
    method Drop() returns (ghost step: Option<Action<Slot>>)
      requires Valid() && stage != Done
      modifies this`stage, semaphore`permits, semaphore`model, semaphore.waiters, semaphore.waiters.live
      ensures Valid() && stage == Done
      ensures semaphore.Took(old(semaphore.model), old(semaphore.waiters.live), Claim(), step)
      ensures old(stage) == Start ==> step == None
      ensures old(stage) == Waiting ==>
                step.Some? && if old(Claim() in semaphore.model.queue) then step.value.CancelQueued?
                              else step.value.CancelWoken?
    {
      step := None;
      if stage.Waiting? {
        step := DropWaiting();
      } else {
        Settle(true);
      }
    }

    method DropWaiting() returns (ghost step: Option<Action<Slot>>)
      requires Valid() && stage == Waiting
      modifies this`stage, semaphore`permits, semaphore`model, semaphore.waiters, semaphore.waiters.live
      ensures Valid() && stage == Done
      ensures semaphore.Took(old(semaphore.model), old(semaphore.waiters.live), Claim(), step)
      ensures step.Some? && if old(Claim() in semaphore.model.queue) then step.value.CancelQueued?
                            else step.value.CancelWoken?
    {
      ghost var k := semaphore.Locate(Claim());
      if slot.waker.Some? {
        step := Some(SemaphoreModel.CancelQueued(k));
        semaphore.CancelQueued(slot, k);
      } else {
        step := Some(SemaphoreModel.CancelWoken(k));
        semaphore.CancelWoken(slot, k);
      }
      Settle(true);
    }
  }
}
