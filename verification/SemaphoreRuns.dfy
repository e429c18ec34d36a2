/** What holds over whole runs of the semaphore. */
module SemaphoreRuns {
  import opened Common
  import opened Sums
  import opened SemaphoreModel
  import opened SemaphoreLine

  // ----- Safety

  /** Permits are conserved in every reachable state. */
  lemma {:induction false} ConservationAlways<W>(states: seq<Sem<W>>, actions: seq<Action<W>>, i: nat)
    requires IsRun(states, actions) && i < |states|
    ensures Conserved(states[i])
  {
    if i > 0 {
      ConservationAlways(states, actions, i - 1);
      StepConserves(states[i - 1], actions[i - 1]);
    }
  }

  /** The unchecked arithmetic of the source is safe in every reachable state:
      the addition of `release_permits` does not overflow a word for any permit
      or grant that can be given back, and the subtraction of `leak` does not
      go below zero. */
  lemma ArithmeticNeverOverflows<W>(states: seq<Sem<W>>, actions: seq<Action<W>>, i: nat)
    requires IsRun(states, actions) && i < |states|
    ensures var s := states[i];
            && (forall j :: 0 <= j < |s.held| ==> s.permits + s.held[j] <= WORD_MAX && s.held[j] <= s.total)
            && (forall k :: 0 <= k < |s.woken| && s.woken[k].fair ==> s.permits + s.woken[k].request.wanted <= WORD_MAX)
  {
    ConservationAlways(states, actions, i);
    var s := states[i];
    forall j | 0 <= j < |s.held| ensures s.permits + s.held[j] <= WORD_MAX && s.held[j] <= s.total {
      TotalWithout(s.held, j);
    }
    forall k | 0 <= k < |s.woken| && s.woken[k].fair ensures s.permits + s.woken[k].request.wanted <= WORD_MAX {
      TotalWithout(Claims(s.woken, true), k);
    }
  }

  /** Whether the step `a` from `s` runs the wake loop. */
  predicate Rewakes<W>(s: Sem<W>, a: Action<W>)
    requires Enabled(s, a)
  {
    match a
    case Resume(k) => InVain(s.woken[k], s.permits)
    case CancelWoken(_) => true
    case DropPermit(_) => true
    case ReleaseFair(_) => true
    case AddPermits(n) => s.total + n <= WORD_MAX
    case AddPermitsFair(n) => s.total + n <= WORD_MAX
    case _ => false
  }

  /** No cancellation has stranded permits since the wake loop ran last. */
  ghost predicate Clean<W>(states: seq<Sem<W>>, actions: seq<Action<W>>, i: nat)
    requires |states| == |actions| + 1 && i < |states|
    requires forall j :: 0 <= j < |actions| ==> Enabled(states[j], actions[j])
  {
    i == 0
    || Rewakes(states[i - 1], actions[i - 1])
    || (Clean(states, actions, i - 1) && !Strands(states[i - 1], actions[i - 1]))
  }

  lemma RewakingLeavesNoneStranded<W>(s: Sem<W>, a: Action<W>)
    requires Enabled(s, a) && Rewakes(s, a)
    ensures NoStranded(Step(s, a))
  {
    match a
    case Resume(k) =>
      FailedResumeParks(s, k);
      ReleaseLeavesNoneStranded(s.(woken := Without(s.woken, k)), 0, Unfair);
    case CancelWoken(k) =>
      var g := s.woken[k];
      ReleaseLeavesNoneStranded(s.(woken := Without(s.woken, k)), if g.fair then g.request.wanted else 0, Unfair);
    case DropPermit(j) => ReleaseLeavesNoneStranded(s.(held := Without(s.held, j)), s.held[j], Unfair);
    case ReleaseFair(j) => ReleaseLeavesNoneStranded(s.(held := Without(s.held, j)), s.held[j], Fair);
    case AddPermits(n) => ReleaseLeavesNoneStranded(s.(total := s.total + n), n, Unfair);
    case AddPermitsFair(n) => ReleaseLeavesNoneStranded(s.(total := s.total + n), n, Fair);
  }

  lemma {:induction false} NoStrandedAlways<W>(states: seq<Sem<W>>, actions: seq<Action<W>>, i: nat)
    requires IsRun(states, actions) && i < |states|
    requires Clean(states, actions, i)
    ensures NoStranded(states[i])
  {
    if i > 0 {
      var s, a := states[i - 1], actions[i - 1];
      if Rewakes(s, a) {
        RewakingLeavesNoneStranded(s, a);
      } else {
        NoStrandedAlways(states, actions, i - 1);
        StrandedIff(s, a);
      }
    }
  }

  /** Deadlock freedom: once every permit is back and every woken waiter has
      been polled, a waiter is parked only for more permits than there are. */
  lemma DeadlockFree<W>(states: seq<Sem<W>>, actions: seq<Action<W>>, i: nat)
    requires IsRun(states, actions) && i < |states|
    requires Clean(states, actions, i)
    requires states[i].woken == [] && Held(states[i]) == 0
    ensures states[i].permits == states[i].total
    ensures states[i].queue == [] || states[i].total < states[i].queue[0].wanted
  {
    ConservationAlways(states, actions, i);
    NoStrandedAlways(states, actions, i);
  }

  // ----- Progress

  /** The steps a system that winds down takes: it polls woken waiters and gives permits back. */
  predicate Drains<W>(a: Action<W>) {
    a.Resume? || a.DropPermit? || a.ReleaseFair?
  }

  ghost predicate IsDrain<W>(states: seq<Sem<W>>, actions: seq<Action<W>>) {
    IsPath(states, actions) && forall i :: 0 <= i < |actions| ==> Drains(actions[i])
  }

  function Failures<W>(woken: seq<Grant<W>>, permits: nat): (r: seq<nat>)
    ensures |r| == |woken|
  {
    seq(|woken|, i requires 0 <= i < |woken| => if InVain(woken[i], permits) then 1 else 0)
  }

  /** The number of waiters that would fail if they were polled now. */
  function Doomed<W>(woken: seq<Grant<W>>, permits: nat): nat {
    Total(Failures(woken, permits))
  }

  lemma DoomedAppend<W>(woken: seq<Grant<W>>, g: Grant<W>, permits: nat)
    ensures Doomed(woken + [g], permits) == Doomed(woken, permits) + if InVain(g, permits) then 1 else 0
  {
    var x: nat := if InVain(g, permits) then 1 else 0;
    assert Failures(woken + [g], permits) == Failures(woken, permits) + [x];
    TotalAppend(Failures(woken, permits), x);
  }

  lemma DoomedWithout<W>(woken: seq<Grant<W>>, k: nat, permits: nat)
    requires k < |woken|
    ensures Doomed(Without(woken, k), permits) == Doomed(woken, permits) - if InVain(woken[k], permits) then 1 else 0
  {
    assert Failures(Without(woken, k), permits) == Without(Failures(woken, permits), k);
    TotalWithout(Failures(woken, permits), k);
  }

  lemma DoomedAtMostAll<W>(woken: seq<Grant<W>>, permits: nat)
    ensures Doomed(woken, permits) <= |woken|
  {
    TotalCounts(Failures(woken, permits));
  }

  /** The wake loop only moves futures, and wakes nobody who wants more than is free. */
  lemma {:induction false} WakeDoomsNobody<W>(s: Sem<W>, avail: nat, fairness: Fairness)
    requires avail <= s.permits && fairness.Unfair?
    ensures var r := Wake(s, avail, fairness);
            Line(r) == Line(s) && Doomed(r.woken, s.permits) == Doomed(s.woken, s.permits)
    decreases |s.queue|
  {
    if s.queue != [] && s.queue[0].wanted <= avail {
      var g := Grant(s.queue[0], false);
      DoomedAppend(s.woken, g, s.permits);
      WakeDoomsNobody(s.(queue := s.queue[1..], woken := s.woken + [g]), avail - s.queue[0].wanted, fairness);
    }
  }

  /** What is left to do: a future still has to become a permit and that permit
      to be returned; only then come the polls that fail. */
  function Effort<W>(s: Sem<W>): nat {
    2 * |Line(s)| + |s.held|
  }

  lemma DrainStepDescends<W>(s: Sem<W>, a: Action<W>)
    requires Enabled(s, a) && Drains(a)
    ensures var s' := Step(s, a);
            && |Line(s')| <= |Line(s)|
            && Doomed(s'.woken, s'.permits) <= |Line(s')|
            && (Effort(s') < Effort(s)
                || (Effort(s') == Effort(s) && Doomed(s'.woken, s'.permits) < Doomed(s.woken, s.permits)))
  {
    var s' := Step(s, a);
    DoomedAtMostAll(s'.woken, s'.permits);
    match a
    case Resume(k) =>
      if InVain(s.woken[k], s.permits) {
        var rest := s.(woken := Without(s.woken, k));
        FailedResumeParks(s, k);
        DoomedWithout(s.woken, k, s.permits);
        WakeDoomsNobody(rest, s.permits, Unfair);
        ReleaseFrame(rest, 0, Unfair);
      }
    case DropPermit(j) =>
      ReleaseFrame(s.(held := Without(s.held, j)), s.held[j], Unfair);
    case ReleaseFair(j) =>
      ReleaseFrame(s.(held := Without(s.held, j)), s.held[j], Fair);
  }

  lemma DropFirstDrains<W>(states: seq<Sem<W>>, actions: seq<Action<W>>)
    requires IsDrain(states, actions) && actions != []
    ensures IsDrain(states[1..], actions[1..])
  {
    forall i | 0 <= i < |actions[1..]|
      ensures Enabled(states[1..][i], actions[1..][i]) && states[1..][i + 1] == Step(states[1..][i], actions[1..][i])
    {
      assert actions[1..][i] == actions[i + 1];
    }
  }

  /** A drop in the major component outweighs any rise of the minor one. */
  lemma Lexicographic(x': nat, y': nat, x: nat, y: nat, bound: nat)
    requires y' <= bound
    requires x' < x || (x' == x && y' < y)
    ensures x' * (bound + 1) + y' < x * (bound + 1) + y
  {
    if x' < x {
      assert (x - x' - 1) * (bound + 1) >= 0;
    }
  }

  lemma {:induction false} DrainDescends<W>(states: seq<Sem<W>>, actions: seq<Action<W>>, bound: nat)
    requires IsDrain(states, actions)
    requires |Line(states[0])| <= bound
    ensures |actions| <= Effort(states[0]) * (bound + 1) + Doomed(states[0].woken, states[0].permits)
    decreases |actions|
  {
    var s := states[0];
    if actions == [] {
      assert Effort(s) * (bound + 1) >= 0;
    } else {
      var s' := states[1];
      assert Drains(actions[0]);
      DrainStepDescends(s, actions[0]);
      Lexicographic(Effort(s'), Doomed(s'.woken, s'.permits), Effort(s), Doomed(s.woken, s.permits), bound);
      DropFirstDrains(states, actions);
      DrainDescends(states[1..], actions[1..], bound);
    }
  }

  /** Winding down takes a bounded number of steps, whatever order they are
      taken in: failed polls cannot keep the waiters going round for ever. */
  lemma DrainBounded<W>(states: seq<Sem<W>>, actions: seq<Action<W>>)
    requires IsDrain(states, actions)
    ensures var n := |Line(states[0])|;
            |actions| <= (2 * n + |states[0].held|) * (n + 1) + n
  {
    var s := states[0];
    DoomedAtMostAll(s.woken, s.permits);
    DrainDescends(states, actions, |Line(s)|);
  }

  lemma {:induction false} DrainKeeps<W>(states: seq<Sem<W>>, actions: seq<Action<W>>, i: nat)
    requires IsDrain(states, actions) && i < |states|
    requires Conserved(states[0]) && NoStranded(states[0])
    ensures Conserved(states[i]) && NoStranded(states[i])
    ensures states[i].total == states[0].total
    ensures forall r :: r in Line(states[i]) ==> r in Line(states[0])
  {
    if i > 0 {
      DrainKeeps(states, actions, i - 1);
      var s, a := states[i - 1], actions[i - 1];
      assert Drains(a) && Enabled(s, a) && states[i] == Step(s, a);
      StepConserves(s, a);
      StrandedIff(s, a);
      DrainStepTotal(s, a);
      DrainStepLine(s, a);
    }
  }

  lemma DrainStepTotal<W>(s: Sem<W>, a: Action<W>)
    requires Enabled(s, a) && Drains(a)
    ensures Step(s, a).total == s.total
  {
    match a
    case Resume(k) => ReleaseFrame(s.(woken := Without(s.woken, k)), 0, Unfair);
    case DropPermit(j) => ReleaseFrame(s.(held := Without(s.held, j)), s.held[j], Unfair);
    case ReleaseFair(j) => ReleaseFrame(s.(held := Without(s.held, j)), s.held[j], Fair);
  }

  lemma DrainStepLine<W>(s: Sem<W>, a: Action<W>)
    requires Enabled(s, a) && Drains(a)
    ensures forall r :: r in Line(Step(s, a)) ==> r in Line(s)
  {
    forall r | r in Line(Step(s, a)) ensures r in Line(s) {
      InLineBefore(s, a, r);
    }
  }

  lemma DrainedIsIdle<W>(s: Sem<W>)
    requires forall a :: Drains(a) ==> !Enabled(s, a)
    ensures s.woken == [] && s.held == []
  {
    if s.woken != [] {
      assert Drains(Action<W>.Resume(0)) && Enabled(s, Resume(0));
    }
    if s.held != [] {
      assert Drains(Action<W>.DropPermit(0)) && Enabled(s, DropPermit(0));
    }
  }

  /** How winding down ends: every permit is free, and if somebody is still
      queued, the head wants more permits than there are. */
  lemma DrainEnds<W>(states: seq<Sem<W>>, actions: seq<Action<W>>)
    requires IsDrain(states, actions)
    requires Conserved(states[0]) && NoStranded(states[0])
    requires forall a :: Drains(a) ==> !Enabled(states[|actions|], a)
    ensures var s := states[|actions|];
            && s.woken == [] && s.held == []
            && s.permits == s.total == states[0].total
            && (s.queue == [] || s.total < s.queue[0].wanted)
  {
    DrainKeeps(states, actions, |actions|);
    DrainedIsIdle(states[|actions|]);
  }

  lemma HeadInLine<W>(s: Sem<W>)
    ensures s.queue != [] ==> s.queue[0] in Line(s)
  {
    assert s.queue != [] ==> Line(s)[|s.woken|] == s.queue[0];
  }

  /** Nobody waits for more permits than the semaphore has. */
  ghost predicate Affordable<W>(s: Sem<W>) {
    forall r :: r in Line(s) ==> r.wanted <= s.total
  }

  /** Everybody is served, if nobody waits for more permits than there are. */
  lemma DrainServesAll<W>(states: seq<Sem<W>>, actions: seq<Action<W>>)
    requires IsDrain(states, actions)
    requires Conserved(states[0]) && NoStranded(states[0]) && Affordable(states[0])
    requires forall a :: Drains(a) ==> !Enabled(states[|actions|], a)
    ensures Line(states[|actions|]) == []
    ensures states[|actions|].permits == states[|actions|].total == states[0].total
  {
    DrainEnds(states, actions);
    DrainKeeps(states, actions, |actions|);
    HeadInLine(states[|actions|]);
  }
}
