/**
 Where the permits are, going by what the callers of the semaphore are given and
 give back. The effect of every step is stated field by field, without the
 operations that the steps are made of.
 */
module SemaphoreAccounts {
  import opened Common
  import opened Sums
  import opened SemaphoreModel
  import opened SemaphoreLine
  import opened SemaphoreRuns

  // ----- One step

  /** The permit that the step hands to its caller: on the spot if enough are free
      and, for calls that queue up, nobody is queued; a woken waiter has it by its
      grant or takes what is free. */
  function Obtained<W>(s: Sem<W>, a: Action<W>): Option<usize>
    requires Enabled(s, a)
  {
    match a
    case TryAcquire(n) => if s.queue == [] && n <= s.permits then Some(n) else None
    case TryAcquireUnfair(n) => if n <= s.permits then Some(n) else None
    case Acquire(_, n, barge) => if (barge || s.queue == []) && n <= s.permits then Some(n) else None
    case Resume(k) =>
      var g := s.woken[k];
      if g.fair || g.request.wanted <= s.permits then Some(g.request.wanted) else None
    case _ => None
  }

  /** The request that the step parks at the end of the queue. */
  function Parked<W>(s: Sem<W>, a: Action<W>): seq<Request<W>>
    requires Enabled(s, a)
  {
    if Obtained(s, a).Some? then []
    else
      match a
      case Acquire(id, n, barge) => [Request(id, n, barge)]
      case Resume(k) => [s.woken[k].request]
      case _ => []
  }

  /** Which of the permits held its holder gives up. */
  function Spent<W>(a: Action<W>): Option<nat> {
    match a
    case DropPermit(j) => Some(j)
    case ReleaseFair(j) => Some(j)
    case Leak(j) => Some(j)
    case _ => None
  }

  /** The permits that leave the free ones for the caller; a granted permit left them before. */
  function Taken<W>(s: Sem<W>, a: Action<W>): nat
    requires Enabled(s, a)
  {
    if Obtained(s, a).None? || (a.Resume? && s.woken[a.k].fair) then 0 else Obtained(s, a).value
  }

  /** The permits that become free. */
  function Freed<W>(s: Sem<W>, a: Action<W>): nat
    requires Enabled(s, a)
  {
    match a
    case DropPermit(j) => s.held[j]
    case ReleaseFair(j) => s.held[j]
    case CancelWoken(k) => if s.woken[k].fair then s.woken[k].request.wanted else 0
    case AddPermits(n) => if s.total + n <= WORD_MAX then n else 0
    case AddPermitsFair(n) => if s.total + n <= WORD_MAX then n else 0
    case _ => 0
  }

  predicate FairRelease<W>(a: Action<W>) {
    a.ReleaseFair? || a.AddPermitsFair?
  }

  /** Whose wakeup the step uses up. */
  function Settled<W>(a: Action<W>): Option<nat> {
    match a
    case Resume(k) => Some(k)
    case CancelWoken(k) => Some(k)
    case _ => None
  }

  /** What callers hold, and how many permits there are: a permit is held from the
      answer that hands it out until it is given up, and only adding and leaking
      change the total. */
  lemma StepLedger<W>(s: Sem<W>, a: Action<W>)
    requires Enabled(s, a)
    ensures Step(s, a).held == Remaining(s.held, Spent(a)) + if Obtained(s, a).Some? then [Obtained(s, a).value] else []
    ensures Step(s, a).total == match a
                                case AddPermits(n) => if s.total + n <= WORD_MAX then s.total + n else s.total
                                case AddPermitsFair(n) => if s.total + n <= WORD_MAX then s.total + n else s.total
                                case Leak(j) => s.total - s.held[j]
                                case _ => s.total
  {
    hide Release;
    match a
    case Resume(k) =>
      if InVain(s.woken[k], s.permits) {
        FailedResumeParks(s, k);
        ReleaseFrame(s.(woken := Without(s.woken, k)), 0, Unfair);
      }
    case CancelWoken(k) =>
      ReleaseFrame(s.(woken := Without(s.woken, k)), Freed(s, a), Unfair);
    case DropPermit(j) => ReleaseFrame(s.(held := Without(s.held, j)), s.held[j], Unfair);
    case ReleaseFair(j) => ReleaseFrame(s.(held := Without(s.held, j)), s.held[j], Fair);
    case AddPermits(n) => ReleaseFrame(s.(total := s.total + n), n, Unfair);
    case AddPermitsFair(n) => ReleaseFrame(s.(total := s.total + n), n, Fair);
    case _ =>
  }

  /** Who is woken and who is queued, and how many permits are free, if the step
      wakes the first `k` of the queue: fair releases make grants, which are
      deducted, and all others hand out tokens, which are not. */
  ghost predicate Wakes<W>(s: Sem<W>, a: Action<W>, k: nat)
    requires Enabled(s, a)
  {
    var s', rest := Step(s, a), if a.CancelQueued? then Without(s.queue, a.k) else s.queue;
    && k <= |s.queue| && k <= |rest|
    && s'.woken == Remaining(s.woken, Settled(a)) + Grants(s.queue[..k], FairRelease(a))
    && s'.queue == rest[k..] + Parked(s, a)
    && s'.permits == s.permits + Freed(s, a) - Taken(s, a) - (if FairRelease(a) then Total(Wants(s.queue[..k])) else 0)
  }

  /** A step that runs the wake loop wakes exactly the longest prefix of the queue
      that fits in what is free then. No other step wakes anybody. */
  lemma StepWakes<W>(s: Sem<W>, a: Action<W>) returns (k: nat)
    requires Enabled(s, a)
    ensures Wakes(s, a, k)
    ensures if Rewakes(s, a) then LongestFit(s.queue, s.permits + Freed(s, a), k) else k == 0
  {
    if a.Resume? {
      k := ResumeWakes(s, a.k);
    } else if Rewakes(s, a) {
      k := ReleaseWakes(s, a);
    } else {
      k := 0;
      NobodyWoken(s, a);
    }
  }

  lemma NobodyWoken<W>(s: Sem<W>, a: Action<W>)
    requires Enabled(s, a) && !Rewakes(s, a) && !a.Resume?
    ensures Wakes(s, a, 0)
  {
    assert Grants(s.queue[..0], FairRelease(a)) == [] && Wants(s.queue[..0]) == [];
    assert Total([]) == 0;
    hide Release, ResumeWoken, Total, Wants, Grants;
    var rest := if a.CancelQueued? then Without(s.queue, a.k) else s.queue;
    assert rest[0..] == rest && rest + [] == rest && s.woken + [] == s.woken;
  }

  lemma ResumeWakes<W>(s: Sem<W>, i: nat) returns (k: nat)
    requires i < |s.woken|
    ensures Wakes(s, Resume(i), k)
    ensures if InVain(s.woken[i], s.permits) then LongestFit(s.queue, s.permits, k) else k == 0
  {
    hide Release;
    var rest := s.(woken := Without(s.woken, i));
    if InVain(s.woken[i], s.permits) {
      FailedResumeParks(s, i);
      k := ReleaseExact(rest, 0, Unfair);
    } else {
      k := 0;
      assert rest.woken + [] == rest.woken && s.queue[0..] + [] == s.queue;
    }
  }

  lemma ReleaseWakes<W>(s: Sem<W>, a: Action<W>) returns (k: nat)
    requires Enabled(s, a) && Rewakes(s, a) && !a.Resume?
    ensures Wakes(s, a, k) && LongestFit(s.queue, s.permits + Freed(s, a), k)
  {
    hide Release, LongestFit;
    match a
    case CancelWoken(i) => k := ReleaseExact(s.(woken := Without(s.woken, i)), Freed(s, a), Unfair);
    case DropPermit(j) => k := ReleaseExact(s.(held := Without(s.held, j)), s.held[j], Unfair);
    case ReleaseFair(j) => k := ReleaseExact(s.(held := Without(s.held, j)), s.held[j], Fair);
    case AddPermits(n) => k := ReleaseExact(s.(total := s.total + n), n, Unfair);
    case AddPermitsFair(n) => k := ReleaseExact(s.(total := s.total + n), n, Fair);
    assert s.queue[k..] + [] == s.queue[k..];
  }

  // ----- Runs

  /** The permits that were handed to callers and that they have not given up yet. */
  function Outstanding<W>(states: seq<Sem<W>>, actions: seq<Action<W>>, i: nat): seq<usize>
    requires i <= |actions| < |states|
    requires forall j :: 0 <= j < |actions| ==> Enabled(states[j], actions[j])
  {
    if i == 0 then []
    else
      var before, s, a := Outstanding(states, actions, i - 1), states[i - 1], actions[i - 1];
      (if Spent(a).Some? && Spent(a).value < |before| then Without(before, Spent(a).value) else before)
      + if Obtained(s, a).Some? then [Obtained(s, a).value] else []
  }

  /** The permits that the semaphore was created with, and those added and not leaked since. */
  function Budget<W>(states: seq<Sem<W>>, actions: seq<Action<W>>, i: nat): int
    requires i <= |actions| < |states|
    requires forall j :: 0 <= j < |actions| ==> Enabled(states[j], actions[j])
  {
    if i == 0 then states[0].total
    else
      var before, out := Budget(states, actions, i - 1), Outstanding(states, actions, i - 1);
      match actions[i - 1]
      case AddPermits(n) => if before + n <= WORD_MAX then before + n else before
      case AddPermitsFair(n) => if before + n <= WORD_MAX then before + n else before
      case Leak(j) => if j < |out| then before - out[j] else before
      case _ => before
  }

  lemma {:induction false} HeldIsOutstanding<W>(states: seq<Sem<W>>, actions: seq<Action<W>>, i: nat)
    requires IsRun(states, actions) && i < |states|
    ensures states[i].held == Outstanding(states, actions, i)
    ensures states[i].total == Budget(states, actions, i)
  {
    if i > 0 {
      HeldIsOutstanding(states, actions, i - 1);
      StepLedger(states[i - 1], actions[i - 1]);
    }
  }

  /** Where all the permits are: those in the hands of callers, those granted to
      waiters and those that are free add up to what the semaphore was created
      with, plus what was added, minus what was leaked. In particular callers never
      hold more than there are. */
  lemma PermitsAccounted<W>(states: seq<Sem<W>>, actions: seq<Action<W>>, i: nat)
    requires IsRun(states, actions) && i < |states|
    ensures var out := Total(Outstanding(states, actions, i));
            && states[i].permits + Granted(states[i]) + out == Budget(states, actions, i) <= WORD_MAX
            && out <= Budget(states, actions, i)
  {
    ConservationAlways(states, actions, i);
    HeldIsOutstanding(states, actions, i);
  }
}
