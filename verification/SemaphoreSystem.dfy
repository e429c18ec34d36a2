/**
 A semaphore with any number of `acquire` futures, polled, dropped and mixed with
 synchronous calls in any order. The steps that the objects report form a run of
 the state machine, so what is proved about runs holds for the objects.
 */
module SemaphoreSystems {
  import opened Common
  import opened Ledgers
  import opened Wakeups
  import opened WaitLists
  import opened SemaphoreModel
  import opened SemaphoreLine
  import opened SemaphoreRuns
  import opened Semaphores
  import opened Sums
  import SemaphoreAccounts

  /** The calls that return at once and concern no future. */
  predicate Synchronous<W>(a: Action<W>) {
    !a.Acquire? && !a.Resume? && !a.CancelQueued? && !a.CancelWoken?
  }

  ghost function AmountOf<W>(s: Sem<W>, a: Action<W>): usize
    requires Enabled(s, a) && Synchronous(a)
  {
    match a
    case TryAcquire(n) => n
    case TryAcquireUnfair(n) => n
    case DropPermit(j) => s.held[j]
    case ReleaseFair(j) => s.held[j]
    case Leak(j) => s.held[j]
    case AddPermits(n) => n
    case AddPermitsFair(n) => n
  }

  /** What such a call gives back to its caller; adding permits panics when the total overflows. */
  datatype Reply = Returned | Permit(permit: Option<usize>) | Panicked

  function ReplyOf<W>(s: Sem<W>, a: Action<W>): Reply {
    match a
    case TryAcquire(n) => Permit(if s.queue == [] && n <= s.permits then Some(n) else None)
    case TryAcquireUnfair(n) => Permit(if n <= s.permits then Some(n) else None)
    case AddPermits(n) => if s.total + n <= WORD_MAX then Returned else Panicked
    case AddPermitsFair(n) => if s.total + n <= WORD_MAX then Returned else Panicked
    case _ => Returned
  }

  /** The permit that the caller has in hand afterwards. */
  function Handed(reply: Reply): seq<usize> {
    match reply
    case Permit(Some(n)) => [n]
    case _ => []
  }

  lemma SynchronousKeepsLine<W>(s: Sem<W>, a: Action<W>)
    requires Enabled(s, a) && Synchronous(a)
    ensures Line(Step(s, a)) == Line(s)
  {
    NobodyMoves(s, a);
  }

  function Steps<W>(step: Option<Action<W>>): seq<Action<W>> {
    if step.Some? then [step.value] else []
  }

  lemma ExtendRun<W>(states: seq<Sem<W>>, actions: seq<Action<W>>, step: Option<Action<W>>, s: Sem<W>)
    returns (states': seq<Sem<W>>, steps: seq<Action<W>>)
    requires IsRun(states, actions)
    requires if step.None? then s == states[|actions|]
             else Enabled(states[|actions|], step.value) && s == Step(states[|actions|], step.value)
    ensures steps == Steps(step)
    ensures IsRun(states', actions + steps) && states'[|actions + steps|] == s
  {
    if step.Some? {
      states', steps := states + [s], [step.value];
      assert states'[0] == states[0];
    } else {
      states', steps := states, [];
      assert actions + steps == actions;
    }
  }

  class System {
    const semaphore: Semaphore
    ghost var futures: set<Acquire>
    /** Their waiters. */
    ghost var slots: set<Slot>
    /** The run so far. */
    ghost var states: seq<Sem<Slot>>
    ghost var actions: seq<Action<Slot>>

    ghost predicate Member(f: Acquire)
      requires f in futures
      reads this`futures, this`slots, futures`stage, semaphore`model, semaphore.waiters`live, slots`state
    {
      f.semaphore == semaphore && f.slot in slots && f.Registered()
    }

    ghost predicate Separate(f: Acquire, g: Acquire) {
      f != g ==> f.slot != g.slot
    }

    /** A suspended request is the request of a future that waits. */
    ghost predicate Owned(r: Request<Slot>)
      reads this`futures, futures`stage
    {
      exists f :: f in futures && f.stage.Waiting? && f.Claim() == r
    }

    /** A waiter that the list knows is that of a future that waits. */
    ghost predicate Attended(w: Slot)
      reads this`futures, futures`stage
    {
      exists f :: f in futures && f.stage.Waiting? && f.slot == w
    }

    ghost predicate Populated()
      reads this`futures, this`slots, semaphore`model, semaphore.waiters`live, futures`stage, slots`state
    {
      && semaphore.waiters.live <= slots
      && (forall f {:trigger Member(f)} :: f in futures ==> Member(f))
      && (forall f, g {:trigger Separate(f, g)} :: f in futures && g in futures ==> Separate(f, g))
      && (forall r {:trigger Owned(r)} :: r in Line(semaphore.model) ==> Owned(r))
      && (forall w {:trigger Attended(w)} :: w in semaphore.waiters.live ==> Attended(w))
    }

    ghost predicate Recorded()
      reads this`states, this`actions, semaphore`model
    {
      IsRun(states, actions) && states[|actions|] == semaphore.model
    }

    ghost predicate Valid()
      reads this, semaphore, semaphore.waiters, semaphore.waiters.live
      reads futures`stage, slots`state
    {
      semaphore.Valid() && Recorded() && Populated()
    }

    constructor (permits: usize)
      ensures Valid() && futures == {} && slots == {} && actions == []
      ensures IsNew(semaphore.model) && semaphore.permits == permits
      ensures fresh(semaphore) && fresh(semaphore.waiters)
    {
      semaphore := new Semaphore(permits);
      futures, slots, states, actions := {}, {}, [New(permits)], [];
    }

    /** Create an `acquire` future, or with `barge` an `acquire_unfair` future. */
    method Call(amount: usize, barge: bool) returns (f: Acquire)
      requires Valid()
      modifies this`futures, this`slots
      ensures Valid() && fresh(f) && futures == old(futures) + {f}
      ensures fresh(f.slot) && slots == old(slots) + {f.slot}
      ensures f.semaphore == semaphore && f.amount == amount && f.barge == barge && f.stage == Start
      ensures actions == old(actions)
    {
      f := new Acquire(semaphore, amount, barge);
      futures, slots := futures + {f}, slots + {f.slot};
      forall g | g in futures ensures Member(g) {
        assert g != f ==> old(Member(g));
      }
      forall g, h | g in futures && h in futures ensures Separate(g, h) {
        assert g != f && h != f ==> Separate(g, h);
      }
      forall r | r in Line(semaphore.model) ensures Owned(r) {
        assert old(Owned(r));
      }
      forall w | w in semaphore.waiters.live ensures Attended(w) {
        assert old(Attended(w));
      }
    }

    /** After a step of one future all the others are where they were, and every
        suspended request still has its owner. */
    twostate lemma StaysPopulated(new own: Acquire, new step: Option<Action<Slot>>)
      requires old(Recorded() && Populated()) && own in futures && futures == old(futures) && slots == old(slots)
      requires semaphore.Valid()
      requires own.semaphore == semaphore && own.Registered()
      requires semaphore.Took(old(semaphore.model), old(semaphore.waiters.live), own.Claim(), step)
      requires forall g :: g in old(futures) && g != own ==> g.stage == old(g.stage)
      requires forall w ::
                 w in old(slots) && w !in old(semaphore.waiters.live) && w != own.slot ==> w.state == old(w.state)
      ensures Populated()
    {
      hide Semaphore.Valid, Unique, Step;
      UniqueAlways(old(states), old(actions), |old(actions)|);
      if step.Some? {
        StepKeepsUnique(old(semaphore.model), step.value);
      }
      forall g | g in futures ensures Member(g) {
        assert old(Member(g)) && Separate(g, own);
        if g != own {
          g.OthersStep(old(semaphore.model), old(semaphore.waiters.live), own.Claim(), step);
        }
      }
      forall r | r in Line(semaphore.model) ensures Owned(r) {
        if r.id == own.slot {
          OwnRequest(own, r);
        } else {
          if step.Some? {
            OthersStay(old(semaphore.model), step.value, r);
          }
          assert old(Owned(r));
        }
      }
      forall w | w in semaphore.waiters.live ensures Attended(w) {
        assert w != own.slot ==> old(Attended(w));
      }
    }

    /** A request with the slot of a future is the request of that future, which waits. */
    lemma OwnRequest(own: Acquire, r: Request<Slot>)
      requires semaphore.Valid() && Unique(semaphore.model)
      requires own.semaphore == semaphore && own.Registered()
      requires r in Line(semaphore.model) && r.id == own.slot
      ensures own.stage.Waiting? && own.Claim() == r
    {
      var line, ids := Line(semaphore.model), Ids(Line(semaphore.model));
      var i :| 0 <= i < |line| && line[i] == r;
      assert ids[i] == own.slot;
      if !own.stage.Waiting? {
        semaphore.UnknownIsNotInLine(own.slot);
      } else {
        var j :| 0 <= j < |line| && line[j] == own.Claim();
        DistinctFrom(ids, i, j);
      }
    }

    /** Poll any future that has not completed: the run goes on with a step of that
        future, unless it is queued. */
    method Poll(f: Acquire, task: TaskId) returns (permit: Option<usize>, ghost step: Option<Action<Slot>>)
      requires Valid() && f in futures && f.stage != Done
      modifies this`states, this`actions, f`stage, semaphore, semaphore.waiters, slots
      ensures Valid() && actions == old(actions) + Steps(step)
      ensures step.None? <==> old(f.stage == Waiting && f.Claim() in semaphore.model.queue)
      ensures step.Some? ==>
                Enabled(old(semaphore.model), step.value) && Names(old(semaphore.model), step.value, f.slot)
      ensures permit == if f.stage == Done then Some(f.amount) else None
      ensures permit.None? ==> f.stage == Waiting && f.slot.waker == Some(task)
      ensures semaphore.model.held == old(semaphore.model).held + if permit.Some? then [f.amount] else []
    {
      permit, step := Drive(f, task);
      Record(step);
    }

    method Drive(f: Acquire, task: TaskId) returns (permit: Option<usize>, ghost step: Option<Action<Slot>>)
      requires semaphore.Valid() && Recorded() && Populated() && f in futures && f.stage != Done
      modifies f`stage, semaphore, semaphore.waiters, slots
      ensures semaphore.Valid() && Populated()
      ensures step.None? <==> old(f.stage == Waiting && f.Claim() in semaphore.model.queue)
      ensures if step.None? then semaphore.model == old(semaphore.model)
              else && Enabled(old(semaphore.model), step.value)
                   && Names(old(semaphore.model), step.value, f.slot)
                   && semaphore.model == Step(old(semaphore.model), step.value)
      ensures permit == if f.stage == Done then Some(f.amount) else None
      ensures permit.None? ==> f.stage == Waiting && f.slot.waker == Some(task)
      ensures semaphore.model.held == old(semaphore.model).held + if permit.Some? then [f.amount] else []
    {
      MembersAreValid(f);
      hide Semaphore.Valid, Populated, Recorded;
      permit, step := f.Poll(task);
      StaysPopulated(f, step);
    }

    lemma MembersAreValid(f: Acquire)
      requires semaphore.Valid() && Populated() && f in futures
      ensures f.Valid() && f.semaphore == semaphore && f.slot in slots
    {
      assert Member(f);
    }

    /** Drop any future that has not completed: the run goes on with the
        cancellation of that future, if it waits. */
    method Cancel(f: Acquire) returns (ghost step: Option<Action<Slot>>)
      requires Valid() && f in futures && f.stage != Done
      modifies this`states, this`actions, f`stage, semaphore, semaphore.waiters, slots
      ensures Valid() && actions == old(actions) + Steps(step) && f.stage == Done
      ensures step.Some? <==> old(f.stage == Waiting)
      ensures step.Some? ==>
                Enabled(old(semaphore.model), step.value) && Names(old(semaphore.model), step.value, f.slot)
    {
      assert Member(f);
      step := f.Drop();
      StaysPopulated(f, step);
      Record(step);
    }

    /** Any of the calls that return at once. `amount` is the number of permits
        it is about; for a permit that is given up, that is what it holds. */
    method Operate(a: Action<Slot>, amount: usize) returns (reply: Reply)
      requires Valid() && Synchronous(a) && Enabled(semaphore.model, a)
      requires amount == AmountOf(semaphore.model, a)
      modifies this`states, this`actions, semaphore, semaphore.waiters, slots
      ensures Valid() && actions == old(actions) + [a]
      ensures reply == ReplyOf(old(semaphore.model), a)
      ensures semaphore.model.held == Remaining(old(semaphore.model).held, SemaphoreAccounts.Spent(a)) + Handed(reply)
    {
      SemaphoreAccounts.StepLedger(semaphore.model, a);
      reply := Perform(a, amount);
      SynchronousKeepsLine(old(semaphore.model), a);
      NobodyMoved();
      Record(Some(a));
    }

    /** A call that leaves the line alone leaves all the futures where they were. */
    twostate lemma NobodyMoved()
      requires old(Populated()) && futures == old(futures) && slots == old(slots)
      requires Line(semaphore.model) == old(Line(semaphore.model))
      requires semaphore.waiters.live == old(semaphore.waiters.live)
      requires forall g :: g in old(futures) ==> g.stage == old(g.stage)
      requires forall w :: w in old(slots) && w !in old(semaphore.waiters.live) ==> w.state == old(w.state)
      ensures Populated()
    {
      forall f | f in futures ensures Member(f) {
        assert old(Member(f));
      }
      forall r | r in Line(semaphore.model) ensures Owned(r) {
        assert old(Owned(r));
      }
      forall w | w in semaphore.waiters.live ensures Attended(w) {
        assert old(Attended(w));
      }
    }

    method Perform(a: Action<Slot>, amount: usize) returns (reply: Reply)
      requires semaphore.Valid() && Synchronous(a) && Enabled(semaphore.model, a)
      requires amount == AmountOf(semaphore.model, a)
      modifies semaphore, semaphore.waiters, semaphore.waiters.live
      ensures semaphore.Valid() && semaphore.model == Step(old(semaphore.model), a)
      ensures semaphore.waiters.live == old(semaphore.waiters.live)
      ensures reply == ReplyOf(old(semaphore.model), a)
    {
      if a.TryAcquire? || a.TryAcquireUnfair? {
        reply := Ask(a, amount);
      } else if a.AddPermits? || a.AddPermitsFair? {
        reply := Add(a, amount);
      } else {
        GiveUp(a, amount);
        reply := Returned;
      }
    }

    method Ask(a: Action<Slot>, amount: usize) returns (reply: Reply)
      requires semaphore.Valid()
      requires a == TryAcquire(amount) || a == TryAcquireUnfair(amount)
      modifies semaphore`permits, semaphore`model, semaphore.waiters`borrowed
      ensures semaphore.Valid() && semaphore.model == Step(old(semaphore.model), a)
      ensures reply == ReplyOf(old(semaphore.model), a)
    {
      var permit;
      if a.TryAcquire? {
        permit := semaphore.TryAcquire(amount);
      } else {
        permit := semaphore.TryAcquireUnfair(amount);
      }
      reply := Permit(permit);
    }

    method Add(a: Action<Slot>, amount: usize) returns (reply: Reply)
      requires semaphore.Valid()
      requires a == AddPermits(amount) || a == AddPermitsFair(amount)
      modifies semaphore, semaphore.waiters, semaphore.waiters.live
      ensures semaphore.Valid() && semaphore.model == Step(old(semaphore.model), a)
      ensures semaphore.waiters.live == old(semaphore.waiters.live)
      ensures reply == ReplyOf(old(semaphore.model), a)
    {
      var ok;
      if a.AddPermits? {
        ok := semaphore.AddPermits(amount);
      } else {
        ok := semaphore.AddPermitsFair(amount);
      }
      reply := if ok then Returned else Panicked;
    }

    method GiveUp(a: Action<Slot>, amount: usize)
      requires semaphore.Valid() && Enabled(semaphore.model, a)
      requires a.DropPermit? || a.ReleaseFair? || a.Leak?
      requires amount == semaphore.model.held[a.j]
      modifies semaphore, semaphore.waiters, semaphore.waiters.live
      ensures semaphore.Valid() && semaphore.model == Step(old(semaphore.model), a)
      ensures semaphore.waiters.live == old(semaphore.waiters.live)
    {
      match a {
        case DropPermit(j) => semaphore.DropPermit(amount, j);
        case ReleaseFair(j) => semaphore.ReleaseFair(amount, j);
        case Leak(j) => semaphore.Leak(amount, j);
      }
    }

    ghost predicate Sleeps(f: Acquire)
      reads f, f.slot, semaphore.waiters`wakes
    {
      Asleep(semaphore.waiters.wakes, Some(f.slot.parked))
    }

    /** A request that has been woken is that of a future that does not sleep. */
    lemma WokenAreAwake()
      requires Valid()
      requires forall f :: f in futures && f.stage.Waiting? ==> Sleeps(f)
      ensures semaphore.model.woken == []
    {
      var s := semaphore.model;
      if s.woken != [] {
        assert Line(s)[0] == s.woken[0].request && Owned(Line(s)[0]);
        var f :| f in futures && f.stage.Waiting? && f.Claim() == s.woken[0].request;
        assert Member(f) && Sleeps(f) && semaphore.WokenAt(s.woken, 0);
        assert semaphore.waiters.Tagged(f.slot);
        f.SleeperIsQueued();
      }
    }

    /** When everybody sleeps, nobody is kept waiting needlessly: once all permits
        are back and no cancellation has stranded any, either no future waits, or
        the oldest one wants more permits than there are. */
    lemma EverybodySleepsRightly()
      requires Valid() && Held(semaphore.model) == 0
      requires Clean(states, actions, |actions|)
      requires forall f :: f in futures && f.stage.Waiting? ==> Sleeps(f)
      ensures semaphore.permits == semaphore.totalPermits
      ensures if semaphore.model.queue == [] then forall f :: f in futures ==> !f.stage.Waiting?
              else exists f :: f in futures && f.stage.Waiting?
                     && f.Claim() == semaphore.model.queue[0] && f.amount > semaphore.totalPermits
    {
      var s := semaphore.model;
      WokenAreAwake();
      DeadlockFree(states, actions, |actions|);
      if s.queue == [] {
        forall f | f in futures ensures !f.stage.Waiting? {
          assert Member(f);
        }
      } else {
        assert Line(s)[0] == s.queue[0] && Owned(Line(s)[0]);
      }
    }

    /** What callers were given and have not given up, what waiters have been granted
        and what is free add up to the total, which is what the semaphore was created
        with, plus what was added, minus what was leaked. */
    lemma PermitsAccounted()
      requires Valid()
      ensures semaphore.totalPermits == SemaphoreAccounts.Budget(states, actions, |actions|)
      ensures semaphore.permits + Granted(semaphore.model)
            + Total(SemaphoreAccounts.Outstanding(states, actions, |actions|)) == semaphore.totalPermits
    {
      SemaphoreAccounts.HeldIsOutstanding(states, actions, |actions|);
      SemaphoreAccounts.PermitsAccounted(states, actions, |actions|);
    }

    lemma SomebodyWaits()
      requires Valid() && semaphore.waiters.live != {}
      ensures exists f :: f in futures && f.stage.Waiting?
    {
      var w :| w in semaphore.waiters.live;
      assert Attended(w);
    }

    /** Once no future waits any more, every input and output of the wait list has
        been used up exactly once: returned, or dropped with its wait. */
    lemma NothingIsLost()
      requires Valid()
      requires forall f :: f in futures ==> !f.stage.Waiting?
      ensures var l := semaphore.waiters.books.ledger;
              l.entered == l.returned + l.withdrawn && l.given == l.claimed + l.forfeited
    {
      if semaphore.waiters.live != {} {
        SomebodyWaits();
      }
      semaphore.waiters.EverythingSettled();
    }

    /** The run goes on with the step that a call has reported. */
    ghost method Record(step: Option<Action<Slot>>)
      requires semaphore.Valid() && Populated() && IsRun(states, actions)
      requires if step.None? then semaphore.model == states[|actions|]
               else && Enabled(states[|actions|], step.value)
                    && semaphore.model == Step(states[|actions|], step.value)
      modifies this`states, this`actions
      ensures Valid()
      ensures actions == old(actions) + Steps(step)
    {
      var extended, steps := ExtendRun(states, actions, step, semaphore.model);
      Write(extended, actions + steps);
    }

    /** What is written down about the past concerns neither the semaphore nor the futures. */
    ghost method Write(states: seq<Sem<Slot>>, actions: seq<Action<Slot>>)
      modifies this`states, this`actions
      ensures this.states == states && this.actions == actions
      ensures semaphore.Valid() == old(semaphore.Valid()) && Populated() == old(Populated())
    {
      hide *;
      this.states, this.actions := states, actions;
    }
  }
}
