/**
 The once cell of `src/once_cell.rs` as a state machine over values. `W`
 identifies a `get_or_try_init` future.
 */
module OnceCellModel {
  import opened Common
  import opened Sums

  datatype Cell<T> = Uninit | Initializing | Initialized(value: T)

  /** A woken waiter that has not resumed: it holds a baton. `job` records where
      the baton came from: the drop of another baton hands over the job of
      initializing the cell, the wake loop of a success does not. */
  datatype Handover<W> = Handover(id: W, job: bool)

  /** `runners` lists the futures with an armed `Guard`, that is, those that run their initializer. */
  datatype Once<T, W> = Once(cell: Cell<T>, queue: seq<W>, woken: seq<Handover<W>>, runners: seq<W>)

  datatype Action<T, W> =
    | Call(id: W)                // the first poll of `get_or_try_init`
    | Resume(k: nat)             // the next poll of the woken waiter `k`
    | Succeed(j: nat, value: T)  // the initializer of the runner `j` produces the value
    | Fail(j: nat)               // that initializer errors, panics or is cancelled
    | CancelQueued(k: nat)
    | CancelWoken(k: nat)
    | Set(value: T)

  function New<T, W>(): Once<T, W> {
    Once(Uninit, [], [], [])
  }

  /** `Baton::drop`. */
  function DropBaton<T, W>(s: Once<T, W>): Once<T, W> {
    if !s.cell.Initializing? then s
    else if s.queue == [] then s.(cell := Uninit)
    else s.(queue := s.queue[1..], woken := s.woken + [Handover(s.queue[0], true)])
  }

  /** The wake loop of a success. */
  function WakeAll<T, W>(s: Once<T, W>): Once<T, W>
    decreases |s.queue|
  {
    if s.queue == [] then s
    else WakeAll(s.(queue := s.queue[1..], woken := s.woken + [Handover(s.queue[0], false)]))
  }

  predicate Enabled<T, W>(s: Once<T, W>, a: Action<T, W>) {
    match a
    case Resume(k) => k < |s.woken|
    case Succeed(j, _) => j < |s.runners|
    case Fail(j) => j < |s.runners|
    case CancelQueued(k) => k < |s.queue|
    case CancelWoken(k) => k < |s.woken|
    case _ => true
  }

  function Step<T, W>(s: Once<T, W>, a: Action<T, W>): Once<T, W>
    requires Enabled(s, a)
  {
    match a
    case Call(id) =>
      if s.cell.Uninit? then s.(cell := Initializing, runners := s.runners + [id])
      else if s.cell.Initializing? then s.(queue := s.queue + [id])
      else s
    case Resume(k) =>
      var rest := s.(woken := Without(s.woken, k));
      if s.cell.Initializing? then rest.(runners := s.runners + [s.woken[k].id]) else rest
    case Succeed(j, v) => WakeAll(s.(cell := Initialized(v), runners := Without(s.runners, j)))
    case Fail(j) => DropBaton(s.(runners := Without(s.runners, j)))
    case CancelQueued(k) => s.(queue := Without(s.queue, k))
    case CancelWoken(k) => DropBaton(s.(woken := Without(s.woken, k)))
    case Set(v) => if s.cell.Uninit? then s.(cell := Initialized(v)) else s
  }

  ghost predicate IsPath<T, W>(states: seq<Once<T, W>>, actions: seq<Action<T, W>>) {
    && |states| == |actions| + 1
    && forall i :: 0 <= i < |actions| ==>
         Enabled(states[i], actions[i]) && states[i + 1] == Step(states[i], actions[i])
  }

  /** A run of a fresh cell: any tasks, any interleaving, any outcomes. */
  ghost predicate IsRun<T, W>(states: seq<Once<T, W>>, actions: seq<Action<T, W>>) {
    IsPath(states, actions) && states[0] == New()
  }

  // ----- Who is in the cell

  function Ids<W>(woken: seq<Handover<W>>): (r: seq<W>)
    ensures |r| == |woken|
  {
    seq(|woken|, i requires 0 <= i < |woken| => woken[i].id)
  }

  /** The futures that wait: those that have been woken, and behind them the queue. */
  function Line<T, W>(s: Once<T, W>): (r: seq<W>)
    ensures |r| == |s.woken| + |s.queue|
  {
    Ids(s.woken) + s.queue
  }

  /** The step is a poll or the drop of the future `id`. */
  ghost predicate Names<T, W>(s: Once<T, W>, a: Action<T, W>, id: W)
    requires Enabled(s, a)
  {
    match a
    case Call(own) => own == id
    case Resume(k) => s.woken[k].id == id
    case Succeed(j, _) => s.runners[j] == id
    case Fail(j) => s.runners[j] == id
    case CancelQueued(k) => s.queue[k] == id
    case CancelWoken(k) => s.woken[k].id == id
    case Set(_) => false
  }

  /** Several steps of one future in a row, as one poll may take. */
  ghost predicate Reaches<T, W>(s: Once<T, W>, steps: seq<Action<T, W>>, id: W, s': Once<T, W>)
    decreases |steps|
  {
    if steps == [] then s' == s
    else
      && Enabled(s, steps[0]) && Names(s, steps[0], id)
      && Reaches(Step(s, steps[0]), steps[1..], id, s')
  }

  lemma {:induction false} ReachesConcat<T, W>(
    s: Once<T, W>, a: seq<Action<T, W>>, id: W, s': Once<T, W>, b: seq<Action<T, W>>, s'': Once<T, W>)
    requires Reaches(s, a, id, s') && Reaches(s', b, id, s'')
    ensures Reaches(s, a + b, id, s'')
    decreases |a|
  {
    if a == [] {
      assert a + b == b;
    } else {
      assert (a + b)[1..] == a[1..] + b;
      ReachesConcat(Step(s, a[0]), a[1..], id, s', b, s'');
    }
  }

  lemma OneStep<T, W>(s: Once<T, W>, a: Action<T, W>, id: W)
    requires Enabled(s, a) && Names(s, a, id)
    ensures Reaches(s, [a], id, Step(s, a))
  {
    assert [a][1..] == [];
  }

  lemma DropBatonKeepsLine<T, W>(s: Once<T, W>)
    ensures Line(DropBaton(s)) == Line(s) && DropBaton(s).runners == s.runners
  {
  }

  lemma {:induction false} WakeAllKeepsLine<T, W>(s: Once<T, W>)
    ensures Line(WakeAll(s)) == Line(s) && WakeAll(s).runners == s.runners
    decreases |s.queue|
  {
    if s.queue != [] {
      var s' := s.(queue := s.queue[1..], woken := s.woken + [Handover(s.queue[0], false)]);
      assert Line(s') == Line(s);
      WakeAllKeepsLine(s');
    }
  }

  /** The end of an initializer makes its future leave the runners, and nothing else. */
  lemma RunnerLeaves<T, W>(s: Once<T, W>, a: Action<T, W>)
    requires Enabled(s, a) && (a.Succeed? || a.Fail?)
    ensures Step(s, a).runners == Without(s.runners, a.j) && Line(Step(s, a)) == Line(s)
  {
    var rest := s.(runners := Without(s.runners, a.j));
    match a
    case Succeed(_, v) =>
      assert Line(rest.(cell := Initialized(v))) == Line(s);
      WakeAllKeepsLine(rest.(cell := Initialized(v)));
    case Fail(_) =>
      assert Line(rest) == Line(s);
      DropBatonKeepsLine(rest);
  }

  lemma CancelKeepsRunners<T, W>(s: Once<T, W>, a: Action<T, W>)
    requires Enabled(s, a) && (a.CancelQueued? || a.CancelWoken?)
    ensures Step(s, a).runners == s.runners
  {
  }

  /** What others do neither makes a future wait or run nor ends its waiting or running. */
  lemma OthersStay<T, W>(s: Once<T, W>, a: Action<T, W>, id: W)
    requires Enabled(s, a) && !Names(s, a, id)
    ensures id in Line(Step(s, a)) <==> id in Line(s)
    ensures id in Step(s, a).runners <==> id in s.runners
  {
    match a
    case Call(_) =>
    case Resume(k) => WithoutKeeps(Ids(s.woken), k, id); LineWithout(s, k);
    case Succeed(j, _) =>
      WithoutKeeps(s.runners, j, id);
      RunnerLeaves(s, a);
    case Fail(j) =>
      WithoutKeeps(s.runners, j, id);
      RunnerLeaves(s, a);
    case CancelQueued(k) => WithoutKeeps(s.queue, k, id);
    case CancelWoken(k) =>
      WithoutKeeps(Ids(s.woken), k, id);
      LineWithout(s, k);
      DropBatonKeepsLine(s.(woken := Without(s.woken, k)));
    case Set(_) =>
  }

  lemma LineWithout<T, W>(s: Once<T, W>, k: nat)
    requires k < |s.woken|
    ensures Ids(Without(s.woken, k)) == Without(Ids(s.woken), k)
  {
  }

  lemma {:induction false} OthersStayThrough<T, W>(
    s: Once<T, W>, steps: seq<Action<T, W>>, own: W, s': Once<T, W>, id: W)
    requires Reaches(s, steps, own, s') && own != id
    ensures id in Line(s') <==> id in Line(s)
    ensures id in s'.runners <==> id in s.runners
    decreases |steps|
  {
    if steps != [] {
      OthersStay(s, steps[0], id);
      OthersStayThrough(Step(s, steps[0]), steps[1..], own, s', id);
    }
  }

  // ----- Who has the job

  function Jobs<W>(woken: seq<Handover<W>>): (r: seq<nat>)
    ensures |r| == |woken|
  {
    seq(|woken|, i requires 0 <= i < |woken| => if woken[i].job then 1 else 0)
  }

  /** The number of woken waiters whose baton carries the job. */
  function JobBatons<W>(woken: seq<Handover<W>>): nat {
    Total(Jobs(woken))
  }

  function JobHolders<T, W>(s: Once<T, W>): nat {
    |s.runners| + JobBatons(s.woken)
  }

  ghost predicate Inv<T, W>(s: Once<T, W>) {
    && JobHolders(s) == (if s.cell.Initializing? then 1 else 0)
    && (s.cell.Initializing? ==> forall i :: 0 <= i < |s.woken| ==> s.woken[i].job)
    && (s.cell.Uninit? ==> s.woken == [])
    && (!s.cell.Initializing? ==> s.queue == [])
  }

  lemma JobBatonsAppend<W>(woken: seq<Handover<W>>, h: Handover<W>)
    ensures JobBatons(woken + [h]) == JobBatons(woken) + if h.job then 1 else 0
  {
    var x: nat := if h.job then 1 else 0;
    assert Jobs(woken + [h]) == Jobs(woken) + [x];
    TotalAppend(Jobs(woken), x);
  }

  lemma JobBatonsWithout<W>(woken: seq<Handover<W>>, k: nat)
    requires k < |woken|
    ensures JobBatons(Without(woken, k)) == JobBatons(woken) - if woken[k].job then 1 else 0
  {
    assert Jobs(Without(woken, k)) == Without(Jobs(woken), k);
    TotalWithout(Jobs(woken), k);
  }

  lemma AllJobs<W>(woken: seq<Handover<W>>)
    requires forall i :: 0 <= i < |woken| ==> woken[i].job
    ensures JobBatons(woken) == |woken|
  {
    TotalCounts(Jobs(woken));
  }

  lemma {:induction false} WakeAllExact<T, W>(s: Once<T, W>)
    ensures WakeAll(s) == s.(
              queue := [],
              woken := s.woken + seq(|s.queue|, i requires 0 <= i < |s.queue| => Handover(s.queue[i], false)))
    ensures JobBatons(WakeAll(s).woken) == JobBatons(s.woken)
    decreases |s.queue|
  {
    if s.queue != [] {
      JobBatonsAppend(s.woken, Handover(s.queue[0], false));
      WakeAllExact(s.(queue := s.queue[1..], woken := s.woken + [Handover(s.queue[0], false)]));
    }
  }

  lemma SuccessWakesAll<T, W>(s: Once<T, W>, a: Action<T, W>)
    requires Enabled(s, a) && a.Succeed?
    ensures var s' := Step(s, a);
            && s'.cell == Initialized(a.value) && s'.queue == [] && |s'.runners| == |s.runners| - 1
            && |s'.woken| == |s.woken| + |s.queue| && s'.woken[..|s.woken|] == s.woken
            && Ids(s'.woken[|s.woken|..]) == s.queue
  {
    WakeAllExact(s.(cell := Initialized(a.value), runners := Without(s.runners, a.j)));
  }

  /** Dropping the only baton that carries the job hands the job on or closes it;
      dropping one without the job changes nothing. */
  lemma DropBatonKeepsInv<T, W>(s: Once<T, W>)
    requires if s.cell.Initializing? then s.runners == [] && s.woken == [] else Inv(s)
    ensures Inv(DropBaton(s))
  {
    if s.cell.Initializing? && s.queue != [] {
      JobBatonsAppend(s.woken, Handover(s.queue[0], true));
    }
  }

  lemma StepKeepsInv<T, W>(s: Once<T, W>, a: Action<T, W>)
    requires Enabled(s, a) && Inv(s)
    ensures Inv(Step(s, a))
  {
    match a
    case Call(_) =>
    case Resume(k) => JobBatonsWithout(s.woken, k);
    case Succeed(j, v) => WakeAllExact(s.(cell := Initialized(v), runners := Without(s.runners, j)));
    case Fail(j) =>
      AllJobs(s.woken);
      DropBatonKeepsInv(s.(runners := Without(s.runners, j)));
    case CancelQueued(_) =>
    case CancelWoken(k) =>
      if s.cell.Initializing? {
        AllJobs(s.woken);
      }
      JobBatonsWithout(s.woken, k);
      DropBatonKeepsInv(s.(woken := Without(s.woken, k)));
    case Set(_) =>
  }

  /** The initialization job is exclusive and never lost: in every reachable
      state the cell is `Initializing` exactly if one guard or one handed-over
      baton owns the job, and otherwise nobody does. */
  lemma {:induction false} JobIsExclusive<T, W>(states: seq<Once<T, W>>, actions: seq<Action<T, W>>, i: nat)
    requires IsRun(states, actions) && i < |states|
    ensures Inv(states[i])
    ensures states[i].cell.Initializing? <==> JobHolders(states[i]) == 1
    ensures JobHolders(states[i]) <= 1
  {
    if i > 0 {
      JobIsExclusive(states, actions, i - 1);
      StepKeepsInv(states[i - 1], actions[i - 1]);
    }
  }

  /** A waiter that resumes never finds the cell `Uninit`, so the branch that the
      source calls unreachable is; and `set`, which wakes nobody, only ever
      stores a value when there is nobody to wake. */
  lemma NobodyWaitsOutsideInitialization<T, W>(states: seq<Once<T, W>>, actions: seq<Action<T, W>>, i: nat)
    requires IsRun(states, actions) && i < |actions|
    ensures actions[i].Resume? ==> !states[i].cell.Uninit?
    ensures actions[i].Set? && states[i].cell.Uninit? ==> states[i].queue == [] && states[i].woken == []
    ensures actions[i].Succeed? ==>
              states[i + 1].queue == [] && |states[i + 1].woken| == |states[i].woken| + |states[i].queue|
  {
    JobIsExclusive(states, actions, i);
    assert Enabled(states[i], actions[i]);
    if actions[i].Succeed? {
      SuccessWakesAll(states[i], actions[i]);
    }
  }

  /** No waiter is left behind: once nobody is running an initializer or about
      to be resumed, nobody is queued either. */
  lemma NoWaiterLeftBehind<T, W>(states: seq<Once<T, W>>, actions: seq<Action<T, W>>, i: nat)
    requires IsRun(states, actions) && i < |states|
    requires states[i].runners == [] && states[i].woken == []
    ensures states[i].queue == [] && !states[i].cell.Initializing?
  {
    JobIsExclusive(states, actions, i);
  }

  // ----- Progress

  predicate Arrives<T, W>(a: Action<T, W>) {
    a.Call?
  }

  /** The initializers started by a path that makes no new calls. */
  function Starts<T, W>(states: seq<Once<T, W>>, actions: seq<Action<T, W>>): nat
    requires |states| == |actions| + 1
  {
    if actions == [] then 0
    else (if actions[0].Resume? && states[0].cell.Initializing? then 1 else 0) + Starts(states[1..], actions[1..])
  }

  /** Those who may still get to run their initializer. */
  function Candidates<T, W>(s: Once<T, W>): nat {
    if s.cell.Initializing? then |s.queue| + |s.woken| else 0
  }

  lemma DropFirst<T, W>(states: seq<Once<T, W>>, actions: seq<Action<T, W>>)
    requires IsPath(states, actions) && actions != []
    ensures IsPath(states[1..], actions[1..])
    ensures Enabled(states[0], actions[0]) && states[1] == Step(states[0], actions[0])
  {
    forall i | 0 <= i < |actions[1..]|
      ensures Enabled(states[1..][i], actions[1..][i]) && states[1..][i + 1] == Step(states[1..][i], actions[1..][i])
    {
      assert actions[1..][i] == actions[i + 1];
    }
  }

  lemma {:induction false} StartsBounded<T, W>(states: seq<Once<T, W>>, actions: seq<Action<T, W>>)
    requires IsPath(states, actions) && Inv(states[0])
    requires forall i :: 0 <= i < |actions| ==> !Arrives(actions[i])
    ensures Starts(states, actions) <= Candidates(states[0])
    decreases |actions|
  {
    if actions != [] {
      var s, a := states[0], actions[0];
      DropFirst(states, actions);
      StepKeepsInv(s, a);
      StartsBounded(states[1..], actions[1..]);
      if a.Succeed? {
        SuccessWakesAll(s, a);
      }
    }
  }

  /** With `n` queued waiters and no new calls, at most `n + 1` initializers run
      from any point of a run on, counting the one that is running already. */
  lemma AtMostOneInitializerPerWaiter<T, W>(
    states: seq<Once<T, W>>, actions: seq<Action<T, W>>,
    states': seq<Once<T, W>>, actions': seq<Action<T, W>>)
    requires IsRun(states, actions)
    requires IsPath(states', actions') && states'[0] == states[|actions|]
    requires forall i :: 0 <= i < |actions'| ==> !Arrives(actions'[i])
    ensures |states'[0].runners| + Starts(states', actions') <= |states'[0].queue| + 1
  {
    JobIsExclusive(states, actions, |actions|);
    StartsBounded(states', actions');
    if states'[0].cell.Initializing? {
      AllJobs(states'[0].woken);
    }
  }

  function Unfinished<T, W>(s: Once<T, W>): nat {
    2 * (|s.queue| + |s.woken|) + |s.runners|
  }

  /** Every call finishes: without new calls, only boundedly many polls,
      outcomes and cancellations are possible, in whatever order they come. */
  lemma {:induction false} SettlingBounded<T, W>(states: seq<Once<T, W>>, actions: seq<Action<T, W>>)
    requires IsPath(states, actions)
    requires forall i :: 0 <= i < |actions| ==> !Arrives(actions[i]) && !actions[i].Set?
    ensures |actions| + Unfinished(states[|actions|]) <= Unfinished(states[0])
    decreases |actions|
  {
    if actions != [] {
      var s, a := states[0], actions[0];
      DropFirst(states, actions);
      SettlingBounded(states[1..], actions[1..]);
      if a.Succeed? {
        SuccessWakesAll(s, a);
      }
    }
  }

  // ----- Order

  /** The calls that had to wait, in call order. */
  function Waited<T, W>(states: seq<Once<T, W>>, actions: seq<Action<T, W>>): seq<W>
    requires |states| == |actions| + 1
    decreases |actions|
  {
    if actions == [] then []
    else
      var n := |actions| - 1;
      Waited(states[..n + 1], actions[..n]) + CallsInVain(states[n], actions[n])
  }

  function CallsInVain<T, W>(s: Once<T, W>, a: Action<T, W>): seq<W> {
    if a.Call? && s.cell.Initializing? then [a.id] else []
  }

  /** The waiters that the step `a` from `s` wakes, in order: those that it adds to the woken ones. */
  function WokenBy<T, W>(s: Once<T, W>, a: Action<T, W>): seq<W>
    requires Enabled(s, a)
  {
    var kept := if a.Resume? || a.CancelWoken? then |s.woken| - 1 else |s.woken|;
    var woken := Step(s, a).woken;
    if kept <= |woken| then Ids(woken[kept..]) else []
  }

  function WokenInOrder<T, W>(states: seq<Once<T, W>>, actions: seq<Action<T, W>>): seq<W>
    requires |states| == |actions| + 1
    requires forall i :: 0 <= i < |actions| ==> Enabled(states[i], actions[i])
    decreases |actions|
  {
    if actions == [] then []
    else
      var n := |actions| - 1;
      WokenInOrder(states[..n + 1], actions[..n]) + WokenBy(states[n], actions[n])
  }

  lemma WakesFromTheFront<T, W>(s: Once<T, W>, a: Action<T, W>)
    requires Enabled(s, a) && !a.CancelQueued?
    ensures WokenBy(s, a) + Step(s, a).queue == s.queue + CallsInVain(s, a)
  {
    if a.Succeed? {
      SuccessWakesAll(s, a);
      assert WokenBy(s, a) == s.queue;
    }
  }

  /** The oldest waiter goes first: unless queued calls are cancelled, those that
      were woken, followed by those still queued, are the waiting calls in call order. */
  lemma {:induction false} OldestFirst<T, W>(states: seq<Once<T, W>>, actions: seq<Action<T, W>>)
    requires IsPath(states, actions) && states[0].queue == []
    requires forall i :: 0 <= i < |actions| ==> !actions[i].CancelQueued?
    ensures WokenInOrder(states, actions) + states[|actions|].queue == Waited(states, actions)
    decreases |actions|
  {
    hide Step, WokenBy, CallsInVain;
    if actions != [] {
      var n := |actions| - 1;
      var s, a := states[n], actions[n];
      OldestFirst(states[..n + 1], actions[..n]);
      assert !a.CancelQueued? && Enabled(s, a) && states[n + 1] == Step(s, a);
      WakesFromTheFront(s, a);
      Reassociate(WokenInOrder(states[..n + 1], actions[..n]), WokenBy(s, a), states[n + 1].queue, s.queue,
                  CallsInVain(s, a));
    }
  }

  // ----- Values

  /** The value that the caller of a step gets to see: a reference to the value in the cell. */
  function Seen<T, W>(s: Once<T, W>, a: Action<T, W>): Option<T>
    requires Enabled(s, a)
  {
    match a
    case Call(_) => if s.cell.Initialized? then Some(s.cell.value) else None
    case Resume(_) => if s.cell.Initialized? then Some(s.cell.value) else None
    case Succeed(_, v) => Some(v)
    case Set(v) => if s.cell.Uninit? then Some(v) else if s.cell.Initialized? then Some(s.cell.value) else None
    case _ => None
  }

  lemma {:induction false} WriteOnce<T, W>(states: seq<Once<T, W>>, actions: seq<Action<T, W>>, i: nat, j: nat)
    requires IsRun(states, actions) && i <= j < |states|
    requires states[i].cell.Initialized?
    ensures states[j].cell == states[i].cell
    decreases j
  {
    if i < j {
      WriteOnce(states, actions, i, j - 1);
      JobIsExclusive(states, actions, j - 1);
      assert Enabled(states[j - 1], actions[j - 1]);
    }
  }

  lemma SeenIsStored<T, W>(states: seq<Once<T, W>>, actions: seq<Action<T, W>>, i: nat)
    requires IsRun(states, actions) && i < |actions|
    requires Enabled(states[i], actions[i]) && Seen(states[i], actions[i]).Some?
    ensures states[i + 1].cell == Initialized(Seen(states[i], actions[i]).value)
  {
    if actions[i].Succeed? {
      SuccessWakesAll(states[i], actions[i]);
    }
  }

  /** All callers agree: whatever values any two steps of a run let their callers see are the same value. */
  lemma SeenAgree<T, W>(states: seq<Once<T, W>>, actions: seq<Action<T, W>>, i: nat, j: nat)
    requires IsRun(states, actions) && i < j < |actions|
    requires Enabled(states[i], actions[i]) && Enabled(states[j], actions[j])
    requires Seen(states[i], actions[i]).Some? && Seen(states[j], actions[j]).Some?
    ensures Seen(states[i], actions[i]) == Seen(states[j], actions[j])
  {
    SeenIsStored(states, actions, i);
    SeenIsStored(states, actions, j);
    WriteOnce(states, actions, i + 1, j + 1);
  }

  /** At most one step of a run stores a value, so at most one caller is told that its own value was stored. */
  lemma StoredOnce<T, W>(states: seq<Once<T, W>>, actions: seq<Action<T, W>>, i: nat, j: nat)
    requires IsRun(states, actions) && i < j < |actions|
    requires actions[i].Succeed? || (actions[i].Set? && states[i].cell.Uninit?)
    ensures !actions[j].Succeed?
    ensures actions[j].Set? ==> states[j].cell.Initialized?
  {
    assert Enabled(states[i], actions[i]) && Enabled(states[j], actions[j]);
    SeenIsStored(states, actions, i);
    WriteOnce(states, actions, i + 1, j);
    JobIsExclusive(states, actions, j);
  }
}
