/** Who is suspended on the semaphore and in which order. */
module SemaphoreLine {
  import opened Common
  import opened SemaphoreModel

  /** The wake loop moves requests from the front of the queue to the end of the
      woken ones: it leaves the line as it is, and takes nothing from anybody. */
  lemma {:induction false} WakeFrame<W>(s: Sem<W>, avail: nat, fairness: Fairness)
    ensures var r := Wake(s, avail, fairness);
            Line(r) == Line(s) && s.woken <= r.woken && r.held == s.held && r.total == s.total
    decreases |s.queue|
  {
    if s.queue != [] && s.queue[0].wanted <= avail {
      var left := avail - s.queue[0].wanted;
      var s' := s.(queue := s.queue[1..], woken := s.woken + [Grant(s.queue[0], fairness.Fair?)],
                   permits := if fairness.Fair? then left else s.permits);
      assert Line(s') == Line(s);
      WakeFrame(s', left, fairness);
    }
  }

  lemma ReleaseFrame<W>(s: Sem<W>, amount: nat, fairness: Fairness)
    ensures var r := Release(s, amount, fairness);
            Line(r) == Line(s) && s.woken <= r.woken && r.held == s.held && r.total == s.total
  {
    var s0 := s.(permits := s.permits + amount);
    assert Line(s0) == Line(s);
    WakeFrame(s0, s.permits + amount, fairness);
  }

  lemma LineWithout<W>(s: Sem<W>, k: nat)
    requires k < |s.woken|
    ensures Line(s.(woken := Without(s.woken, k))) == Without(Line(s), k)
  {
  }

  /** The position in the line of the request that the step takes out. */
  function Leaver<W>(s: Sem<W>, a: Action<W>): Option<nat> {
    match a
    case Resume(k) => Some(k)
    case CancelWoken(k) => Some(k)
    case CancelQueued(k) => Some(|s.woken| + k)
    case _ => None
  }

  /** The requests that the step appends to the line: a new one, or one that was resumed in vain. */
  function Enterers<W>(s: Sem<W>, a: Action<W>): seq<Request<W>> {
    match a
    case Acquire(id, n, barge) => if Admits(s, n, barge) then [] else [Request(id, n, barge)]
    case Resume(k) => if k < |s.woken| && InVain(s.woken[k], s.permits) then [s.woken[k].request] else []
    case _ => []
  }

  function Remaining<T>(line: seq<T>, leaver: Option<nat>): seq<T>
    requires leaver.Some? ==> leaver.value < |line|
  {
    if leaver.Some? then Without(line, leaver.value) else line
  }

  /** What every step does to the line: at most one request leaves, from wherever
      it is, and at most one enters, at the end. Nothing else moves. */
  lemma LineMoves<W>(s: Sem<W>, a: Action<W>)
    requires Enabled(s, a)
    ensures Line(Step(s, a)) == Remaining(Line(s), Leaver(s, a)) + Enterers(s, a)
  {
    hide Release, ResumeWoken;
    match a
    case Resume(k) =>
      ResumeMovesLine(s, k);
    case CancelQueued(_) =>
    case CancelWoken(k) =>
      LineWithout(s, k);
      ReleaseFrame(s.(woken := Without(s.woken, k)), if s.woken[k].fair then s.woken[k].request.wanted else 0, Unfair);
    case _ =>
      NobodyMoves(s, a);
  }

  lemma ResumeMovesLine<W>(s: Sem<W>, k: nat)
    requires k < |s.woken|
    ensures Line(ResumeWoken(s, k)) == Without(Line(s), k) + Enterers(s, Resume(k))
  {
    var rest := s.(woken := Without(s.woken, k));
    LineWithout(s, k);
    if InVain(s.woken[k], s.permits) {
      FailedResumeParks(s, k);
      ReleaseFrame(rest, 0, Unfair);
      var released := Release(rest, 0, Unfair);
      assert Line(ResumeWoken(s, k)) == Line(released) + [s.woken[k].request];
    } else {
      assert Line(ResumeWoken(s, k)) == Line(rest) + [];
    }
  }

  lemma NobodyMoves<W>(s: Sem<W>, a: Action<W>)
    requires Enabled(s, a) && !a.Resume? && !a.CancelQueued? && !a.CancelWoken?
    ensures Line(Step(s, a)) == Line(s) + Enterers(s, a)
  {
    hide Release;
    match a
    case Acquire(_, _, _) =>
    case TryAcquire(_) =>
    case TryAcquireUnfair(_) =>
    case DropPermit(j) => ReleaseFrame(s.(held := Without(s.held, j)), s.held[j], Unfair);
    case ReleaseFair(j) => ReleaseFrame(s.(held := Without(s.held, j)), s.held[j], Fair);
    case Leak(_) =>
    case AddPermits(n) => ReleaseFrame(s.(total := s.total + n), n, Unfair);
    case AddPermitsFair(n) => ReleaseFrame(s.(total := s.total + n), n, Fair);
  }

  /** A call either has its permits at once or stands in line. */
  lemma CallSettles<W>(s: Sem<W>, id: W, amount: usize, barge: bool)
    ensures var next := Contend(s, id, amount, barge);
            if Admits(s, amount, barge) then next.held == s.held + [amount]
            else Request(id, amount, barge) in Line(next) && next.held == s.held
  {
    var next, r := Contend(s, id, amount, barge), Request(id, amount, barge);
    if !Admits(s, amount, barge) {
      assert Line(next)[|Line(next)| - 1] == r;
    }
  }

  /** So does a request that is resumed. */
  lemma ResumeSettles<W>(s: Sem<W>, k: nat)
    requires k < |s.woken|
    ensures var next, r := Step(s, Resume(k)), s.woken[k].request;
            if InVain(s.woken[k], s.permits) then r in Line(next) && next.held == s.held
            else next.held == s.held + [r.wanted]
  {
    if InVain(s.woken[k], s.permits) {
      FailedResumeParks(s, k);
      ReleaseFrame(s.(woken := Without(s.woken, k)), 0, Unfair);
      ResumeMovesLine(s, k);
      assert s.woken[k].request in Enterers(s, Resume(k));
    }
  }

  /** Only a call adds somebody to the line. */
  lemma InLineBefore<W>(s: Sem<W>, a: Action<W>, r: Request<W>)
    requires Enabled(s, a) && !a.Acquire? && r in Line(Step(s, a))
    ensures r in Line(s)
  {
    LineMoves(s, a);
    if r in Enterers(s, a) {
      assert Line(s)[a.k] == r;
    } else {
      RemainingMembers(Line(s), Leaver(s, a), r);
    }
  }

  lemma RemainingMembers<T>(line: seq<T>, leaver: Option<nat>, x: T)
    requires leaver.Some? ==> leaver.value < |line|
    requires x in Remaining(line, leaver)
    ensures x in line
  {
  }

  /** The step is a poll or the drop of the future `id`. */
  ghost predicate Names<W>(s: Sem<W>, a: Action<W>, id: W)
    requires Enabled(s, a)
  {
    match a
    case Acquire(own, _, _) => own == id
    case Resume(k) => s.woken[k].request.id == id
    case CancelQueued(k) => s.queue[k].id == id
    case CancelWoken(k) => s.woken[k].request.id == id
    case _ => false
  }

  /** What others do neither suspends a future nor ends its wait. */
  lemma OthersStay<W>(s: Sem<W>, a: Action<W>, r: Request<W>)
    requires Enabled(s, a) && !Names(s, a, r.id)
    ensures r in Line(Step(s, a)) <==> r in Line(s)
  {
    LineMoves(s, a);
    var leaver := Leaver(s, a);
    if leaver.Some? {
      WithoutKeeps(Line(s), leaver.value, r);
    }
  }

  /** Every future is suspended at most once. */
  ghost predicate Unique<W>(s: Sem<W>) {
    Distinct(Ids(Line(s)))
  }

  lemma StepKeepsUnique<W>(s: Sem<W>, a: Action<W>)
    requires Enabled(s, a) && Unique(s)
    ensures Unique(Step(s, a))
  {
    IdsMove(s, a);
    var ids, leaver, enterers := Ids(Line(s)), Leaver(s, a), Ids(Enterers(s, a));
    if leaver.Some? {
      WithoutMembers(ids, leaver.value);
    }
    if enterers != [] {
      assert enterers == [enterers[0]];
      AppendDistinct(Remaining(ids, leaver), enterers[0]);
    } else {
      assert Remaining(ids, leaver) + [] == Remaining(ids, leaver);
    }
  }

  lemma IdsMove<W>(s: Sem<W>, a: Action<W>)
    requires Enabled(s, a)
    ensures Ids(Line(Step(s, a))) == Remaining(Ids(Line(s)), Leaver(s, a)) + Ids(Enterers(s, a))
  {
    LineMoves(s, a);
    var leaver := Leaver(s, a);
    if leaver.Some? {
      IdsWithout(Line(s), leaver.value);
    }
    IdsConcat(Remaining(Line(s), leaver), Enterers(s, a));
  }

  lemma IdsWithout<W>(line: seq<Request<W>>, k: nat)
    requires k < |line|
    ensures Ids(Without(line, k)) == Without(Ids(line), k)
  {
  }

  lemma IdsConcat<W>(a: seq<Request<W>>, b: seq<Request<W>>)
    ensures Ids(a + b) == Ids(a) + Ids(b)
  {
  }

  lemma {:induction false} UniqueAlways<W>(states: seq<Sem<W>>, actions: seq<Action<W>>, i: nat)
    requires IsRun(states, actions) && i < |states|
    ensures Unique(states[i])
  {
    if i > 0 {
      UniqueAlways(states, actions, i - 1);
      StepKeepsUnique(states[i - 1], actions[i - 1]);
    }
  }
}
