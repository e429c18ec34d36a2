/**
 The semaphore of `src/semaphore.rs` as a state machine over values. One step is
 one synchronous call, one poll that makes a difference, or one drop. `W`
 identifies an `acquire` future.
 */
module SemaphoreModel {
  import opened Common
  import opened Sums

  datatype Fairness = Fair | Unfair

  /** An `acquire` (or, with `barge`, an `acquire_unfair`) suspended in the wait list. */
  datatype Request<W> = Request(id: W, wanted: usize, barge: bool)

  /** A waiter that has been woken and not resumed yet: it owns a `FairGrant`
      for its permits, or an `UnfairWoken` token. */
  datatype Grant<W> = Grant(request: Request<W>, fair: bool)

  datatype Sem<W> = Sem(
    permits: nat,
    total: int,
    queue: seq<Request<W>>,
    woken: seq<Grant<W>>,
    held: seq<usize>)

  datatype Action<W> =
    | TryAcquire(amount: usize)
    | TryAcquireUnfair(amount: usize)
    | Acquire(id: W, amount: usize, barge: bool)
    | Resume(k: nat)
    | CancelQueued(k: nat)
    | CancelWoken(k: nat)
    | DropPermit(j: nat)
    | ReleaseFair(j: nat)
    | Leak(j: nat)
    | AddPermits(amount: usize)
    | AddPermitsFair(amount: usize)

  function New<W>(permits: usize): (s: Sem<W>)
    ensures IsNew(s)
  {
    Sem(permits, permits, [], [], [])
  }

  /** All permits are free, and nobody has asked for any. */
  predicate IsNew<W>(s: Sem<W>) {
    s.permits == s.total <= WORD_MAX && s.queue == [] && s.woken == [] && s.held == []
  }

  // ----- The operations

  /** The wake loop: `avail` is the loop's local count, which an unfair release
      lowers without writing it back. */
  function Wake<W>(s: Sem<W>, avail: nat, fairness: Fairness): Sem<W>
    decreases |s.queue|
  {
    if s.queue == [] || avail < s.queue[0].wanted then s
    else
      var left := avail - s.queue[0].wanted;
      Wake(s.(queue := s.queue[1..],
              woken := s.woken + [Grant(s.queue[0], fairness.Fair?)],
              permits := if fairness.Fair? then left else s.permits),
           left, fairness)
  }

  function Release<W>(s: Sem<W>, amount: nat, fairness: Fairness): Sem<W> {
    Wake(s.(permits := s.permits + amount), s.permits + amount, fairness)
  }

  function Take<W>(s: Sem<W>, amount: usize): Sem<W>
    requires amount <= s.permits
  {
    s.(permits := s.permits - amount, held := s.held + [amount])
  }

  /** Whether the non-blocking attempt at the top of `acquire` succeeds. */
  predicate Admits<W>(s: Sem<W>, amount: usize, barge: bool) {
    (barge || s.queue == []) && amount <= s.permits
  }

  /** One round of the `acquire` loop up to its suspension point. */
  function Contend<W>(s: Sem<W>, id: W, amount: usize, barge: bool): Sem<W> {
    if Admits(s, amount, barge) then Take(s, amount)
    else s.(queue := s.queue + [Request(id, amount, barge)])
  }

  /** Polling the woken waiter `k`. A waiter that lost its permits to somebody
      else drops its token, which re-runs the wake loop, and contends again. */
  function ResumeWoken<W>(s: Sem<W>, k: nat): Sem<W>
    requires k < |s.woken|
  {
    var g := s.woken[k];
    var rest := s.(woken := Without(s.woken, k));
    if g.fair then rest.(held := s.held + [g.request.wanted])
    else if g.request.wanted <= s.permits then Take(rest, g.request.wanted)
    else Contend(Release(rest, 0, Unfair), g.request.id, g.request.wanted, g.request.barge)
  }

  /** The suspended requests: those that have been woken, and behind them the queue. */
  function Line<W>(s: Sem<W>): (r: seq<Request<W>>)
    ensures |r| == |s.woken| + |s.queue|
  {
    Requests(s.woken) + s.queue
  }

  function Requests<W>(woken: seq<Grant<W>>): (r: seq<Request<W>>)
    ensures |r| == |woken|
  {
    seq(|woken|, i requires 0 <= i < |woken| => woken[i].request)
  }

  function Ids<W>(requests: seq<Request<W>>): (r: seq<W>)
    ensures |r| == |requests|
  {
    seq(|requests|, i requires 0 <= i < |requests| => requests[i].id)
  }

  /** What the language allows: a future that is suspended does not begin anew,
      and a step acts on something that is there. */
  ghost predicate Enabled<W>(s: Sem<W>, a: Action<W>) {
    match a
    case Acquire(id, _, _) => id !in Ids(Line(s))
    case Resume(k) => k < |s.woken|
    case CancelQueued(k) => k < |s.queue|
    case CancelWoken(k) => k < |s.woken|
    case DropPermit(j) => j < |s.held|
    case ReleaseFair(j) => j < |s.held|
    case Leak(j) => j < |s.held|
    case _ => true
  }

  function Step<W>(s: Sem<W>, a: Action<W>): Sem<W>
    requires Enabled(s, a)
  {
    match a
    case TryAcquire(n) => if Admits(s, n, false) then Take(s, n) else s
    case TryAcquireUnfair(n) => if Admits(s, n, true) then Take(s, n) else s
    case Acquire(id, n, barge) => Contend(s, id, n, barge)
    case Resume(k) => ResumeWoken(s, k)
    case CancelQueued(k) => s.(queue := Without(s.queue, k))
    case CancelWoken(k) =>
      var g := s.woken[k];
      Release(s.(woken := Without(s.woken, k)), if g.fair then g.request.wanted else 0, Unfair)
    case DropPermit(j) => Release(s.(held := Without(s.held, j)), s.held[j], Unfair)
    case ReleaseFair(j) => Release(s.(held := Without(s.held, j)), s.held[j], Fair)
    case Leak(j) =>
      s.(held := Without(s.held, j), total := s.total - s.held[j])
    case AddPermits(n) =>
      if s.total + n <= WORD_MAX then Release(s.(total := s.total + n), n, Unfair) else s
    case AddPermitsFair(n) =>
      if s.total + n <= WORD_MAX then Release(s.(total := s.total + n), n, Fair) else s
  }

  ghost predicate IsPath<W>(states: seq<Sem<W>>, actions: seq<Action<W>>) {
    && |states| == |actions| + 1
    && forall i :: 0 <= i < |actions| ==>
         Enabled(states[i], actions[i]) && states[i + 1] == Step(states[i], actions[i])
  }

  /** A run from a fresh semaphore: any tasks, any interleaving. */
  ghost predicate IsRun<W>(states: seq<Sem<W>>, actions: seq<Action<W>>) {
    IsPath(states, actions) && IsNew(states[0])
  }

  // ----- Measures of a state

  function Wants<W>(queue: seq<Request<W>>): (r: seq<nat>)
    ensures |r| == |queue|
  {
    seq(|queue|, i requires 0 <= i < |queue| => queue[i].wanted)
  }

  /** What the woken waiters of one kind want, with 0 for the other kind. */
  function Claims<W>(woken: seq<Grant<W>>, fair: bool): (r: seq<nat>)
    ensures |r| == |woken|
  {
    seq(|woken|, i requires 0 <= i < |woken| => if woken[i].fair == fair then woken[i].request.wanted else 0)
  }

  function Granted<W>(s: Sem<W>): nat {
    Total(Claims(s.woken, true))
  }

  function Tokens<W>(s: Sem<W>): nat {
    Total(Claims(s.woken, false))
  }

  function Held<W>(s: Sem<W>): nat {
    Total(s.held)
  }

  /** Every permit is in exactly one place, and there are never more than a word can count. */
  predicate Conserved<W>(s: Sem<W>) {
    s.permits + Held(s) + Granted(s) == s.total <= WORD_MAX
  }

  /** The head of the queue is parked only while the free permits are spoken for
      by waiters that hold a token, or are not enough. */
  predicate NoStranded<W>(s: Sem<W>) {
    s.queue != [] ==> s.permits < s.queue[0].wanted + Tokens(s)
  }

  // ----- How the measures move

  lemma ClaimsAppend<W>(s: Sem<W>, g: Grant<W>, fair: bool)
    ensures Total(Claims(s.woken + [g], fair))
         == Total(Claims(s.woken, fair)) + (if g.fair == fair then g.request.wanted else 0)
  {
    var x: nat := if g.fair == fair then g.request.wanted else 0;
    assert Claims(s.woken + [g], fair) == Claims(s.woken, fair) + [x];
    TotalAppend(Claims(s.woken, fair), x);
  }

  lemma ClaimsWithout<W>(woken: seq<Grant<W>>, k: nat, fair: bool)
    requires k < |woken|
    ensures Total(Claims(Without(woken, k), fair))
         == Total(Claims(woken, fair)) - (if woken[k].fair == fair then woken[k].request.wanted else 0)
  {
    assert Claims(Without(woken, k), fair) == Without(Claims(woken, fair), k);
    TotalWithout(Claims(woken, fair), k);
  }

  // ----- The wake loop

  /** `k` is the length of the longest queue prefix that `avail` permits can serve. */
  ghost predicate LongestFit<W>(queue: seq<Request<W>>, avail: nat, k: nat) {
    && k <= |queue|
    && Total(Wants(queue[..k])) <= avail
    && forall j :: k < j <= |queue| ==> avail < Total(Wants(queue[..j]))
  }

  /** The grants handed to a queue prefix, in queue order. */
  function Grants<W>(prefix: seq<Request<W>>, fair: bool): seq<Grant<W>> {
    seq(|prefix|, i requires 0 <= i < |prefix| => Grant(prefix[i], fair))
  }

  lemma PrefixWants<W>(queue: seq<Request<W>>, j: nat)
    requires 0 < j <= |queue|
    ensures Total(Wants(queue[..j])) == queue[0].wanted + Total(Wants(queue[1..][..j - 1]))
  {
    assert Wants(queue[..j])[1..] == Wants(queue[1..][..j - 1]);
  }

  lemma NoneFits<W>(queue: seq<Request<W>>, avail: nat)
    requires queue == [] || avail < queue[0].wanted
    ensures LongestFit(queue, avail, 0)
  {
    forall j | 0 < j <= |queue| ensures avail < Total(Wants(queue[..j])) {
      PrefixWants(queue, j);
    }
  }

  lemma OneMoreFits<W>(queue: seq<Request<W>>, avail: nat, k: nat)
    requires queue != [] && queue[0].wanted <= avail
    requires LongestFit(queue[1..], avail - queue[0].wanted, k)
    ensures LongestFit(queue, avail, k + 1)
    ensures Total(Wants(queue[..k + 1])) == queue[0].wanted + Total(Wants(queue[1..][..k]))
  {
    PrefixWants(queue, k + 1);
    forall j | k + 1 < j <= |queue| ensures avail < Total(Wants(queue[..j])) {
      PrefixWants(queue, j);
      assert avail - queue[0].wanted < Total(Wants(queue[1..][..j - 1]));
    }
  }

  lemma GrantsFromHead<W>(queue: seq<Request<W>>, k: nat, fair: bool)
    requires k < |queue|
    ensures Grants(queue[..k + 1], fair) == [Grant(queue[0], fair)] + Grants(queue[1..][..k], fair)
  {
  }

  lemma {:induction false} WakeExact<W>(s: Sem<W>, avail: nat, fairness: Fairness) returns (k: nat)
    requires fairness.Fair? ==> avail == s.permits
    ensures LongestFit(s.queue, avail, k)
    ensures Wake(s, avail, fairness) == s.(
              queue := s.queue[k..],
              woken := s.woken + Grants(s.queue[..k], fairness.Fair?),
              permits := if fairness.Fair? then avail - Total(Wants(s.queue[..k])) else s.permits)
    decreases |s.queue|
  {
    var q, fair := s.queue, fairness.Fair?;
    if q == [] || avail < q[0].wanted {
      k := 0;
      NoneFits(q, avail);
      assert s.woken + Grants(q[..0], fair) == s.woken;
      assert q[0..] == q;
    } else {
      var left := avail - q[0].wanted;
      var g := Grant(q[0], fair);
      var s' := s.(queue := q[1..], woken := s.woken + [g], permits := if fair then left else s.permits);
      var k' := WakeExact(s', left, fairness);
      k := k' + 1;
      OneMoreFits(q, avail, k');
      GrantsFromHead(q, k', fair);
      assert q[1..][k'..] == q[k..];
      assert s'.woken + Grants(q[1..][..k'], fair) == s.woken + ([g] + Grants(q[1..][..k'], fair));
    }
  }

  /** There is only one longest prefix. */
  lemma LongestFitUnique<W>(queue: seq<Request<W>>, avail: nat, k: nat, k': nat)
    requires LongestFit(queue, avail, k) && LongestFit(queue, avail, k')
    ensures k == k'
  {
  }

  /** `release_permits` wakes exactly the longest prefix of the queue that fits
      in the free permits, in order; a fair release deducts exactly what that
      prefix wants and an unfair one deducts nothing. */
  lemma ReleaseExact<W>(s: Sem<W>, amount: nat, fairness: Fairness) returns (k: nat)
    ensures LongestFit(s.queue, s.permits + amount, k)
    ensures Release(s, amount, fairness) == s.(
              queue := s.queue[k..],
              woken := s.woken + Grants(s.queue[..k], fairness.Fair?),
              permits := s.permits + amount - if fairness.Fair? then Total(Wants(s.queue[..k])) else 0)
  {
    k := WakeExact(s.(permits := s.permits + amount), s.permits + amount, fairness);
  }

  /** The wake loop moves permits between the counter and grants, nowhere else. */
  lemma {:induction false} WakeMeasures<W>(s: Sem<W>, avail: nat, fairness: Fairness)
    requires fairness.Fair? ==> avail == s.permits
    ensures var r := Wake(s, avail, fairness);
            && r.permits + Granted(r) == s.permits + Granted(s)
            && r.held == s.held && r.total == s.total
            && (fairness.Fair? ==>
                  && Tokens(r) == Tokens(s)
                  && (r.queue != [] ==> r.permits < r.queue[0].wanted))
            && (fairness.Unfair? ==>
                  && r.permits == s.permits
                  && (r.queue != [] ==> avail + Tokens(s) < r.queue[0].wanted + Tokens(r)))
    decreases |s.queue|
  {
    if s.queue != [] && s.queue[0].wanted <= avail {
      var left := avail - s.queue[0].wanted;
      var g := Grant(s.queue[0], fairness.Fair?);
      ClaimsAppend(s, g, true);
      ClaimsAppend(s, g, false);
      WakeMeasures(s.(queue := s.queue[1..], woken := s.woken + [g],
                      permits := if fairness.Fair? then left else s.permits), left, fairness);
    }
  }

  lemma ReleaseMeasures<W>(s: Sem<W>, amount: nat, fairness: Fairness)
    ensures var r := Release(s, amount, fairness);
            && r.permits + Granted(r) == s.permits + amount + Granted(s)
            && r.held == s.held && r.total == s.total
            && (fairness.Unfair? ==> r.permits == s.permits + amount)
  {
    WakeMeasures(s.(permits := s.permits + amount), s.permits + amount, fairness);
  }

  /** Every release, of whatever kind and in whatever state, leaves no permit stranded. */
  lemma ReleaseLeavesNoneStranded<W>(s: Sem<W>, amount: nat, fairness: Fairness)
    ensures NoStranded(Release(s, amount, fairness))
  {
    WakeMeasures(s.(permits := s.permits + amount), s.permits + amount, fairness);
  }

  /** The woken waiter holds a token, and too few permits are free for it. */
  predicate InVain<W>(g: Grant<W>, permits: nat) {
    !g.fair && permits < g.request.wanted
  }

  /** The waiter that resumes with a token and too few permits is always parked again. */
  lemma FailedResumeParks<W>(s: Sem<W>, k: nat)
    requires k < |s.woken| && InVain(s.woken[k], s.permits)
    ensures var r := s.woken[k].request;
            var released := Release(s.(woken := Without(s.woken, k)), 0, Unfair);
            && released.permits == s.permits
            && ResumeWoken(s, k) == released.(queue := released.queue + [r])
  {
    WakeMeasures(s.(woken := Without(s.woken, k)), s.permits, Unfair);
  }

  // ----- One step

  lemma ResumeConserves<W>(s: Sem<W>, k: nat)
    requires k < |s.woken| && Conserved(s)
    ensures Conserved(ResumeWoken(s, k))
  {
    var r := s.woken[k].request;
    TotalAppend(s.held, r.wanted);
    ClaimsWithout(s.woken, k, true);
    if InVain(s.woken[k], s.permits) {
      FailedResumeParks(s, k);
      ReleaseMeasures(s.(woken := Without(s.woken, k)), 0, Unfair);
    }
  }

  lemma TakeConserves<W>(s: Sem<W>, n: usize)
    requires n <= s.permits && Conserved(s)
    ensures Conserved(Take(s, n))
  {
    TotalAppend(s.held, n);
  }

  lemma QueueConserves<W>(s: Sem<W>, queue: seq<Request<W>>)
    requires Conserved(s)
    ensures Conserved(s.(queue := queue))
  {
  }

  lemma ReleaseConserves<W>(s: Sem<W>, amount: nat, fairness: Fairness)
    requires s.permits + amount + Held(s) + Granted(s) == s.total <= WORD_MAX
    ensures Conserved(Release(s, amount, fairness))
  {
    ReleaseMeasures(s, amount, fairness);
  }

  lemma CancelWokenConserves<W>(s: Sem<W>, k: nat)
    requires k < |s.woken| && Conserved(s)
    ensures Conserved(Step(s, CancelWoken(k)))
  {
    hide Release;
    var g := s.woken[k];
    ClaimsWithout(s.woken, k, true);
    ReleaseConserves(s.(woken := Without(s.woken, k)), if g.fair then g.request.wanted else 0, Unfair);
  }

  lemma GiveUpConserves<W>(s: Sem<W>, j: nat, fairness: Fairness)
    requires j < |s.held| && Conserved(s)
    ensures Conserved(Release(s.(held := Without(s.held, j)), s.held[j], fairness))
  {
    hide Release;
    TotalWithout(s.held, j);
    ReleaseConserves(s.(held := Without(s.held, j)), s.held[j], fairness);
  }

  lemma LeakConserves<W>(s: Sem<W>, j: nat)
    requires j < |s.held| && Conserved(s)
    ensures Conserved(s.(held := Without(s.held, j), total := s.total - s.held[j]))
  {
    TotalWithout(s.held, j);
  }

  lemma AddConserves<W>(s: Sem<W>, n: nat, fairness: Fairness)
    requires s.total + n <= WORD_MAX && Conserved(s)
    ensures Conserved(Release(s.(total := s.total + n), n, fairness))
  {
    hide Release;
    ReleaseConserves(s.(total := s.total + n), n, fairness);
  }

  lemma StepConserves<W>(s: Sem<W>, a: Action<W>)
    requires Enabled(s, a) && Conserved(s)
    ensures Conserved(Step(s, a))
  {
    hide Conserved, Release, ResumeWoken, Take;
    match a
    case TryAcquire(n) => if n <= s.permits { TakeConserves(s, n); }
    case TryAcquireUnfair(n) => if n <= s.permits { TakeConserves(s, n); }
    case Acquire(id, n, barge) =>
      QueueConserves(s, s.queue + [Request(id, n, barge)]);
      if n <= s.permits {
        TakeConserves(s, n);
      }
    case Resume(k) => ResumeConserves(s, k);
    case CancelQueued(k) => QueueConserves(s, Without(s.queue, k));
    case CancelWoken(k) => CancelWokenConserves(s, k);
    case DropPermit(j) => GiveUpConserves(s, j, Unfair);
    case ReleaseFair(j) => GiveUpConserves(s, j, Fair);
    case Leak(j) => LeakConserves(s, j);
    case AddPermits(n) => if s.total + n <= WORD_MAX { AddConserves(s, n, Unfair); }
    case AddPermitsFair(n) => if s.total + n <= WORD_MAX { AddConserves(s, n, Fair); }
  }

  /** The step that strands permits: the queued head is cancelled while the
      waiter behind it could be served with what the token holders leave over.
      The cancellation unlinks the head and wakes nobody. */
  ghost predicate Strands<W>(s: Sem<W>, a: Action<W>) {
    a == CancelQueued(0) && |s.queue| > 1 && s.queue[1].wanted + Tokens(s) <= s.permits
  }

  /** Exactly when a step strands permits. */
  lemma StrandedIff<W>(s: Sem<W>, a: Action<W>)
    requires Enabled(s, a) && NoStranded(s)
    ensures !NoStranded(Step(s, a)) <==> Strands(s, a)
  {
    match a
    case TryAcquire(_) =>
    case TryAcquireUnfair(_) =>
    case Acquire(_, _, _) =>
    case Resume(k) =>
      ClaimsWithout(s.woken, k, false);
      if InVain(s.woken[k], s.permits) {
        FailedResumeParks(s, k);
        ReleaseLeavesNoneStranded(s.(woken := Without(s.woken, k)), 0, Unfair);
      }
    case CancelQueued(_) =>
      assert s.queue != [] ==> Without(s.queue, 0) == s.queue[1..];
    case CancelWoken(k) =>
      var g := s.woken[k];
      ReleaseLeavesNoneStranded(s.(woken := Without(s.woken, k)), if g.fair then g.request.wanted else 0, Unfair);
    case DropPermit(j) =>
      ReleaseLeavesNoneStranded(s.(held := Without(s.held, j)), s.held[j], Unfair);
    case ReleaseFair(j) =>
      ReleaseLeavesNoneStranded(s.(held := Without(s.held, j)), s.held[j], Fair);
    case Leak(_) =>
    case AddPermits(n) =>
      ReleaseLeavesNoneStranded(s.(total := s.total + n), n, Unfair);
    case AddPermitsFair(n) =>
      ReleaseLeavesNoneStranded(s.(total := s.total + n), n, Fair);
  }

  /** A semaphore of 2 permits, one of them held: `big` waits for 2 and `small`
      for 1. Cancelling `big` leaves `small` parked with a free permit. */
  lemma CancelHeadStrandsExample<W>(big: W, small: W) returns (states: seq<Sem<W>>, actions: seq<Action<W>>)
    requires big != small
    ensures IsRun(states, actions) && |actions| == 4
    ensures actions[3] == CancelQueued(0)
    ensures NoStranded(states[3]) && !NoStranded(states[4])
  {
    var b := Request(big, 2, false);
    var c := Request(small, 1, false);
    actions := [TryAcquire(1), Acquire(big, 2, false), Acquire(small, 1, false), CancelQueued(0)];
    states := [
      New(2),
      Sem(1, 2, [], [], [1]),
      Sem(1, 2, [b], [], [1]),
      Sem(1, 2, [b, c], [], [1]),
      Sem(1, 2, [c], [], [1])];
    forall i | 0 <= i < |actions|
      ensures Enabled(states[i], actions[i]) && states[i + 1] == Step(states[i], actions[i])
    {
      if i == 0 {
      } else if i == 1 {
      } else if i == 2 {
      } else {
      }
    }
  }
}
