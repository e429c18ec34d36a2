/**
 A once cell with any number of `get_or_try_init` futures, polled with any
 outcomes of their initializers, dropped and mixed with calls of `set` in any
 order. The steps that the objects report form a run of the state machine.
 */
module OnceCellSystems {
  import opened Common
  import opened Ledgers
  import opened Wakeups
  import opened WaitLists
  import opened OnceCellModel
  import opened OnceCells

  /** A run goes on with the steps of one poll. */
  lemma {:induction false} ExtendRun<T, W>(
    states: seq<Once<T, W>>, actions: seq<Action<T, W>>, steps: seq<Action<T, W>>, id: W, s: Once<T, W>)
    returns (states': seq<Once<T, W>>)
    requires IsRun(states, actions) && Reaches(states[|actions|], steps, id, s)
    ensures IsRun(states', actions + steps) && states'[|actions + steps|] == s
    ensures states <= states'
    decreases |steps|
  {
    if steps == [] {
      states' := states;
      assert actions + steps == actions;
    } else {
      states' := ExtendRunOnce(states, actions, steps[0]);
      states' := ExtendRun(states', actions + [steps[0]], steps[1..], id, s);
      assert (actions + [steps[0]]) + steps[1..] == actions + steps;
    }
  }

  lemma ExtendRunOnce<T, W>(states: seq<Once<T, W>>, actions: seq<Action<T, W>>, a: Action<T, W>)
    returns (states': seq<Once<T, W>>)
    requires IsRun(states, actions) && Enabled(states[|actions|], a)
    ensures states' == states + [Step(states[|actions|], a)] && IsRun(states', actions + [a])
  {
    states' := states + [Step(states[|actions|], a)];
    assert states'[0] == states[0];
  }

  /** The reference that the caller of `insert` gets to see. */
  function Shown<T>(inserted: Inserted<T>): T {
    match inserted
    case Accepted(stored) => stored
    case Rejected(present, _) => present
  }

  /** That of the caller of `set`, if there is one. */
  function ShownBySet<T>(result: SetResult<T>): seq<T> {
    match result
    case Stored(stored) => [stored]
    case Busy(_) => []
    case Occupied(present, _) => [present]
  }

  class System<T> {
    const cell: OnceCell<T>
    ghost var futures: set<GetOrTryInit<T>>
    /** Their waiters. */
    ghost var slots: set<Slot>
    /** The run so far. */
    ghost var states: seq<Once<T, Slot>>
    ghost var actions: seq<Action<T, Slot>>
    /** The values that calls have handed to their callers, as references into the cell. */
    ghost var handed: seq<T>

    ghost predicate Member(f: GetOrTryInit<T>)
      requires f in futures
      reads this`futures, this`slots, futures`stage, cell`model, cell.waiters`live, slots`state
    {
      f.cell == cell && f.slot in slots && f.Registered()
    }

    ghost predicate Separate(f: GetOrTryInit<T>, g: GetOrTryInit<T>) {
      f != g ==> f.slot != g.slot
    }

    /** Some future with this slot is at this stage. */
    ghost predicate Somebody(id: Slot, stage: Stage)
      reads this`futures, futures`stage
    {
      exists f :: f in futures && f.slot == id && f.stage == stage
    }

    ghost predicate Populated()
      reads this`futures, this`slots, cell`model, cell.waiters`live, futures`stage, slots`state
    {
      && cell.waiters.live <= slots
      && (forall f {:trigger Member(f)} :: f in futures ==> Member(f))
      && (forall f, g {:trigger Separate(f, g)} :: f in futures && g in futures ==> Separate(f, g))
      && (forall id {:trigger Somebody(id, Waiting)} :: id in Line(cell.model) ==> Somebody(id, Waiting))
      && (forall id {:trigger Somebody(id, Running)} :: id in cell.model.runners ==> Somebody(id, Running))
      && (forall w {:trigger Somebody(w, Waiting)} :: w in cell.waiters.live ==> Somebody(w, Waiting))
    }

    ghost predicate Recorded()
      reads this`states, this`actions, cell`model
    {
      IsRun(states, actions) && states[|actions|] == cell.model
    }

    /** Whoever was handed a value was handed the one that is in the cell. */
    ghost predicate Agreed()
      reads this`handed, cell`state
    {
      forall v :: v in handed ==> cell.state == Initialized(v)
    }

    ghost predicate Valid()
      reads this, cell, cell.waiters, cell.waiters.live
      reads futures`stage, slots`state
    {
      cell.Valid() && Recorded() && Populated() && Agreed()
    }

    constructor ()
      ensures Valid() && futures == {} && slots == {} && actions == [] && states == [New()] && handed == []
      ensures fresh(cell) && fresh(cell.waiters)
    {
      cell := new OnceCell();
      futures, slots, states, actions, handed := {}, {}, [New()], [], [];
    }

    /** Create a `get_or_try_init` future. */
    method Call() returns (f: GetOrTryInit<T>)
      requires Valid()
      modifies this`futures, this`slots
      ensures Valid() && fresh(f) && futures == old(futures) + {f}
      ensures fresh(f.slot) && slots == old(slots) + {f.slot}
      ensures f.cell == cell && f.stage == Start && actions == old(actions)
    {
      f := new GetOrTryInit(cell);
      futures, slots := futures + {f}, slots + {f.slot};
      Joined(f);
    }

    /** A future that has not been polled yet joins the others. */
    twostate lemma Joined(new f: GetOrTryInit<T>)
      requires old(Populated()) && futures == old(futures) + {f} && slots == old(slots) + {f.slot}
      requires f.cell == cell && f.Registered() && f.stage == Start && f.slot !in old(slots)
      requires cell.model == old(cell.model) && cell.waiters.live == old(cell.waiters.live)
      requires forall g :: g in old(futures) ==> g.stage == old(g.stage)
      requires forall w :: w in old(slots) ==> w.state == old(w.state)
      ensures Populated()
    {
      forall g | g in futures ensures Member(g) {
        assert g != f ==> old(Member(g));
      }
      forall g, h | g in futures && h in futures ensures Separate(g, h) {
        assert g != f && h != f ==> Separate(g, h);
        assert (g != f ==> old(Member(g))) && (h != f ==> old(Member(h)));
      }
      forall id | id in Line(cell.model) ensures Somebody(id, Waiting) {
        assert old(Somebody(id, Waiting));
      }
      forall id | id in cell.model.runners ensures Somebody(id, Running) {
        assert old(Somebody(id, Running));
      }
      forall w | w in cell.waiters.live ensures Somebody(w, Waiting) {
        assert old(Somebody(w, Waiting));
      }
    }

    lemma OwnWaits(own: GetOrTryInit<T>)
      requires cell.Valid() && own.cell == cell && own.Registered() && own.slot in Line(cell.model)
      ensures own.stage.Waiting?
    {
      if !own.stage.Waiting? {
        cell.UnknownIsNotInLine(own.slot);
      }
    }

    /** After steps of one future all the others are where they were, and whoever
        waits or runs in the cell is still one of the futures. */
    twostate lemma StaysPopulated(new own: GetOrTryInit<T>, new steps: seq<Action<T, Slot>>)
      requires old(Populated()) && own in futures && futures == old(futures) && slots == old(slots)
      requires cell.Valid() && own.cell == cell && own.Registered()
      requires cell.Took(old(cell.model), old(cell.waiters.live), own.slot, steps)
      requires forall g :: g in old(futures) && g != own ==> g.stage == old(g.stage)
      requires forall w :: w in old(slots) && w !in old(cell.waiters.live) && w != own.slot ==> w.state == old(w.state)
      ensures Populated()
    {
      hide OnceCell.Valid, Reaches;
      forall g | g in futures ensures Member(g) {
        assert old(Member(g)) && Separate(g, own);
        if g != own {
          g.OthersStep(old(cell.model), old(cell.waiters.live), own.slot, steps);
        }
      }
      forall id | id in Line(cell.model) ensures Somebody(id, Waiting) {
        if id == own.slot {
          OwnWaits(own);
        } else {
          OthersStayThrough(old(cell.model), steps, own.slot, cell.model, id);
          assert old(Somebody(id, Waiting));
        }
      }
      forall id | id in cell.model.runners ensures Somebody(id, Running) {
        if id != own.slot {
          OthersStayThrough(old(cell.model), steps, own.slot, cell.model, id);
          assert old(Somebody(id, Running));
        }
      }
      forall w | w in cell.waiters.live ensures Somebody(w, Waiting) {
        assert w != own.slot ==> old(Somebody(w, Waiting));
      }
    }

    lemma MembersAreValid(f: GetOrTryInit<T>)
      requires cell.Valid() && Populated() && f in futures
      ensures f.Valid() && f.cell == cell && f.slot in slots
    {
      assert Member(f);
    }

    /** Poll any future that has not completed, whatever its initializer does: the
        run goes on with steps of that future. */
    method Poll<E>(f: GetOrTryInit<T>, task: TaskId, outcome: Outcome<T, E>)
      returns (poll: Poll<T, E>, ran: bool, ghost steps: seq<Action<T, Slot>>)
      requires Valid() && f in futures && f.stage != Done
      modifies this`states, this`actions, this`handed, f`stage, cell, cell.waiters, slots
      ensures Valid() && actions == old(actions) + steps && old(states) <= states
      ensures Reaches(old(cell.model), steps, f.slot, cell.model)
      ensures steps == [] ==> poll.Pending?
      ensures poll.Pending? <==> f.stage != Done
      ensures handed == old(handed) + if poll.Ready? then [poll.value] else []
      ensures poll.Ready? && ran ==> outcome == Produced(poll.value)
      ensures poll.Error? ==> ran && outcome == Failed(poll.error)
      ensures poll.Unwound? ==> ran && outcome.Panicked?
      ensures ran && !poll.Pending? ==> steps != [] && Some(steps[|steps| - 1]) == OutcomeStep(outcome)
    {
      poll, ran, steps := Drive(f, task, outcome);
      Advance(f.slot, steps, if poll.Ready? then [poll.value] else []);
    }

    method Drive<E>(f: GetOrTryInit<T>, task: TaskId, outcome: Outcome<T, E>)
      returns (poll: Poll<T, E>, ran: bool, ghost steps: seq<Action<T, Slot>>)
      requires cell.Valid() && Populated() && f in futures && f.stage != Done
      modifies f`stage, cell, cell.waiters, slots
      ensures cell.Valid() && Populated()
      ensures Reaches(old(cell.model), steps, f.slot, cell.model)
      ensures steps == [] ==> poll.Pending?
      ensures poll.Pending? <==> f.stage != Done
      ensures poll.Ready? ==> cell.state == Initialized(poll.value)
      ensures poll.Ready? && ran ==> outcome == Produced(poll.value)
      ensures poll.Error? ==> ran && outcome == Failed(poll.error)
      ensures poll.Unwound? ==> ran && outcome.Panicked?
      ensures ran && !poll.Pending? ==> steps != [] && Some(steps[|steps| - 1]) == OutcomeStep(outcome)
    {
      MembersAreValid(f);
      hide Populated, OnceCell.Valid, Reaches;
      ghost var step;
      poll, ran, step := f.Poll(task, outcome);
      steps := Steps(step) + Steps(if ran then OutcomeStep(outcome) else None);
      StaysPopulated(f, steps);
    }

    /** Poll an `insert` future. */
    method PollInsert(insert: Insert<T>, task: TaskId)
      returns (result: Option<Inserted<T>>, ghost steps: seq<Action<T, Slot>>)
      requires Valid() && insert.Valid() && insert.call in futures && insert.call.stage != Done
      modifies this`states, this`actions, this`handed, insert`value, insert.call`stage, cell, cell.waiters, slots
      ensures Valid() && insert.Valid() && actions == old(actions) + steps && old(states) <= states
      ensures Reaches(old(cell.model), steps, insert.call.slot, cell.model)
      ensures result.Some? <==> insert.call.stage == Done
      ensures result.Some? && result.value.Accepted? ==> Some(result.value.stored) == old(insert.value)
      ensures result.Some? && result.value.Rejected? ==> Some(result.value.own) == old(insert.value)
      ensures handed == old(handed) + if result.Some? then [Shown(result.value)] else []
    {
      MembersAreValid(insert.call);
      hide OnceCell.Valid;
      result, steps := DriveInsert(insert, task);
      Advance(insert.call.slot, steps, if result.Some? then [Shown(result.value)] else []);
      MembersAreValid(insert.call);
    }

    method DriveInsert(insert: Insert<T>, task: TaskId)
      returns (result: Option<Inserted<T>>, ghost steps: seq<Action<T, Slot>>)
      requires cell.Valid() && Populated() && insert.Valid() && insert.call in futures && insert.call.stage != Done
      modifies insert`value, insert.call`stage, cell, cell.waiters, slots
      ensures cell.Valid() && Populated()
      ensures insert.call.stage != Running && (insert.call.stage != Done ==> insert.value.Some?)
      ensures Reaches(old(cell.model), steps, insert.call.slot, cell.model)
      ensures result.Some? <==> insert.call.stage == Done
      ensures result.Some? && result.value.Accepted? ==> Some(result.value.stored) == old(insert.value)
      ensures result.Some? && result.value.Rejected? ==> Some(result.value.own) == old(insert.value)
      ensures result.Some? ==> cell.state == Initialized(Shown(result.value))
    {
      MembersAreValid(insert.call);
      hide Populated, OnceCell.Valid, Reaches;
      result, steps := insert.Poll(task);
      StaysPopulated(insert.call, steps);
    }

    /** Drop any future that has not completed: the run goes on with the
        cancellation of that future, if it waits, or the end of its initializer. */
    method Cancel(f: GetOrTryInit<T>) returns (ghost step: Option<Action<T, Slot>>)
      requires Valid() && f in futures && f.stage != Done
      modifies this`states, this`actions, this`handed, f`stage, cell, cell.waiters, slots
      ensures Valid() && actions == old(actions) + Steps(step) && old(states) <= states && f.stage == Done
      ensures handed == old(handed)
      ensures Reaches(old(cell.model), Steps(step), f.slot, cell.model)
      ensures step.Some? <==> old(f.stage != Start)
    {
      assert Member(f);
      step := f.Drop();
      StaysPopulated(f, Steps(step));
      Advance(f.slot, Steps(step), []);
    }

    method Set(value: T) returns (result: SetResult<T>)
      requires Valid()
      modifies this`states, this`actions, this`handed, cell`state, cell`model
      ensures Valid() && actions == old(actions) + [OnceCellModel.Set(value)] && old(states) <= states
      ensures result == match old(cell.state)
                        case Uninit => Stored(value)
                        case Initializing => Busy(value)
                        case Initialized(present) => Occupied(present, value)
      ensures handed == old(handed) + ShownBySet(result)
    {
      result := Assign(value);
      ghost var extended := ExtendRunOnce(states, actions, OnceCellModel.Set(value));
      Record(extended, [OnceCellModel.Set(value)], ShownBySet(result));
    }

    method Assign(value: T) returns (result: SetResult<T>)
      requires cell.Valid() && Populated()
      modifies cell`state, cell`model
      ensures cell.Valid() && Populated() && cell.model == Step(old(cell.model), OnceCellModel.Set(value))
      ensures result == match old(cell.state)
                        case Uninit => Stored(value)
                        case Initializing => Busy(value)
                        case Initialized(present) => Occupied(present, value)
    {
      result := cell.Set(value);
      NobodyMoved();
    }

    /** `get` takes no step: its caller is handed the value, if there is one. */
    method Get() returns (value: Option<T>)
      requires Valid()
      modifies this`states, this`actions, this`handed
      ensures Valid() && value == cell.Get() && states == old(states) && actions == old(actions)
      ensures handed == old(handed) + if value.Some? then [value.value] else []
    {
      value := cell.Get();
      Write(states, actions, handed + if value.Some? then [value.value] else []);
    }

    /** A call that concerns no future leaves them all where they were. */
    twostate lemma NobodyMoved()
      requires old(Populated()) && futures == old(futures) && slots == old(slots)
      requires Line(cell.model) == old(Line(cell.model)) && cell.model.runners == old(cell.model.runners)
      requires cell.waiters.live == old(cell.waiters.live)
      requires forall g :: g in old(futures) ==> g.stage == old(g.stage)
      requires forall w :: w in old(slots) ==> w.state == old(w.state)
      ensures Populated()
    {
      forall f | f in futures ensures Member(f) {
        assert old(Member(f));
      }
      forall id | id in Line(cell.model) || id in cell.waiters.live ensures Somebody(id, Waiting) {
        assert old(Somebody(id, Waiting));
      }
      forall id | id in cell.model.runners ensures Somebody(id, Running) {
        assert old(Somebody(id, Running));
      }
    }

    /** The run goes on with the steps that a future has reported. */
    ghost method Advance(own: Slot, steps: seq<Action<T, Slot>>, more: seq<T>)
      requires cell.Valid() && Populated()
      requires IsRun(states, actions) && (forall v :: v in handed ==> states[|actions|].cell == Initialized(v))
      requires Reaches(states[|actions|], steps, own, cell.model)
      requires forall v :: v in more ==> cell.state == Initialized(v)
      modifies this`states, this`actions, this`handed
      ensures Valid() && actions == old(actions) + steps && old(states) <= states && handed == old(handed) + more
    {
      ghost var extended := ExtendRun(states, actions, steps, own, cell.model);
      Record(extended, steps, more);
    }

    /** The run goes on with the steps that a call has reported, and the caller has
        been handed what is in the cell, if anything. */
    ghost method Record(extended: seq<Once<T, Slot>>, steps: seq<Action<T, Slot>>, more: seq<T>)
      requires cell.Valid() && Populated()
      requires IsRun(states, actions) && (forall v :: v in handed ==> states[|actions|].cell == Initialized(v))
      requires IsRun(extended, actions + steps) && extended[|actions + steps|] == cell.model && states <= extended
      requires forall v :: v in more ==> cell.state == Initialized(v)
      modifies this`states, this`actions, this`handed
      ensures Valid() && actions == old(actions) + steps && states == extended && handed == old(handed) + more
    {
      if handed != [] {
        assert handed[0] in handed;
        WriteOnce(extended, actions + steps, |actions|, |actions + steps|);
      }
      Write(extended, actions + steps, handed + more);
    }

    /** What is written down about the past concerns neither the cell nor the futures. */
    ghost method Write(states: seq<Once<T, Slot>>, actions: seq<Action<T, Slot>>, handed: seq<T>)
      modifies this`states, this`actions, this`handed
      ensures this.states == states && this.actions == actions && this.handed == handed
      ensures cell.Valid() == old(cell.Valid()) && Populated() == old(Populated())
    {
      hide *;
      this.states, this.actions, this.handed := states, actions, handed;
    }

    /** All callers agree: any two values that were ever handed out are the same,
        and it is the one in the cell. */
    lemma AllAgree(v: T, w: T)
      requires Valid() && v in handed && w in handed
      ensures v == w && cell.state == Initialized(v)
    {
    }

    /** Initializers never overlap. */
    lemma OneInitializer(f: GetOrTryInit<T>, g: GetOrTryInit<T>)
      requires Valid() && f in futures && g in futures
      requires f.stage.Running? && g.stage.Running?
      ensures f == g
    {
      assert Member(f) && Member(g) && Separate(f, g);
      InitializersNeverOverlap(f, g);
    }

    ghost predicate Sleeps(f: GetOrTryInit<T>)
      reads f, f.slot, cell.waiters`wakes
    {
      Asleep(cell.waiters.wakes, Some(f.slot.parked))
    }

    /** A call that has been woken is that of a future that does not sleep. */
    lemma WokenAreAwake()
      requires Valid()
      requires forall f :: f in futures && f.stage.Waiting? ==> Sleeps(f)
      ensures cell.model.woken == []
    {
      var s := cell.model;
      if s.woken != [] {
        assert Line(s)[0] == s.woken[0].id && Somebody(Line(s)[0], Waiting);
        var f :| f in futures && f.stage.Waiting? && f.slot == s.woken[0].id;
        assert Member(f) && Sleeps(f) && cell.WokenAt(s.woken, 0);
        assert cell.waiters.Tagged(f.slot);
        f.SleeperIsQueued();
      }
    }

    lemma RunnersRun()
      requires Valid()
      ensures cell.model.runners != [] ==> exists f :: f in futures && f.stage.Running?
    {
      if cell.model.runners != [] {
        assert Somebody(cell.model.runners[0], Running);
      }
    }

    /** The job is never lost: while some future waits, either another one runs
        its initializer or one of those that wait has been woken. */
    lemma SomebodyIsAwake()
      requires Valid()
      requires forall f :: f in futures && f.stage.Waiting? ==> Sleeps(f)
      requires forall f :: f in futures ==> !f.stage.Running?
      ensures forall f :: f in futures ==> !f.stage.Waiting?
      ensures !cell.state.Initializing?
    {
      var s := cell.model;
      WokenAreAwake();
      RunnersRun();
      NoWaiterLeftBehind(states, actions, |actions|);
      forall f | f in futures ensures !f.stage.Waiting? {
        assert Member(f);
      }
    }

    lemma SomebodyWaits()
      requires Valid() && cell.waiters.live != {}
      ensures exists f :: f in futures && f.stage.Waiting?
    {
      var w :| w in cell.waiters.live;
      assert Somebody(w, Waiting);
    }

    /** Once no future waits any more, every baton has been used up exactly once. */
    lemma NothingIsLost()
      requires Valid()
      requires forall f :: f in futures ==> !f.stage.Waiting?
      ensures var l := cell.waiters.books.ledger;
              l.entered == l.returned + l.withdrawn && l.given == l.claimed + l.forfeited
    {
      if cell.waiters.live != {} {
        SomebodyWaits();
      }
      cell.waiters.EverythingSettled();
    }

    /** Once the cell has a value, it has that value in every state of the run. */
    lemma ValueIsFinal(i: nat)
      requires Valid() && i < |states| && states[i].cell.Initialized?
      ensures cell.state == states[i].cell
    {
      WriteOnce(states, actions, i, |actions|);
    }
  }
}
