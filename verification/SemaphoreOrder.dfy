/** Who gets permits before whom. */
module SemaphoreOrder {
  import opened Common
  import opened SemaphoreModel
  import opened SemaphoreLine

  // ----- Fair runs

  /** The steps of a fair run: releases are fair, permits are only asked for
      through `acquire` and `try_acquire`, and nothing is cancelled. */
  predicate FairStep<W>(a: Action<W>) {
    match a
    case TryAcquire(_) => true
    case Acquire(_, _, barge) => !barge
    case Resume(_) => true
    case ReleaseFair(_) => true
    case Leak(_) => true
    case AddPermitsFair(_) => true
    case _ => false
  }

  /** The ids of the `acquire` calls, in call order. */
  function Called<W>(actions: seq<Action<W>>): seq<W> {
    if actions == [] then []
    else
      var last := actions[|actions| - 1];
      Called(actions[..|actions| - 1]) + if last.Acquire? then [last.id] else []
  }

  /** The calls that the step `a` from `s` commits permits to: the call that is
      served on the spot, the waiter that takes permits when it is polled, and
      the waiters that the wake loop makes grants to. */
  function Commits<W>(s: Sem<W>, a: Action<W>): seq<W>
    requires Enabled(s, a)
  {
    match a
    case Acquire(id, n, barge) => if Admits(s, n, barge) then [id] else []
    case Resume(k) =>
      if !s.woken[k].fair && s.woken[k].request.wanted <= s.permits then [s.woken[k].request.id] else []
    case _ =>
      var s' := Step(s, a);
      if |s.woken| <= |s'.woken| then GrantedIds(s'.woken[|s.woken|..]) else []
  }

  function GrantedIds<W>(grants: seq<Grant<W>>): seq<W> {
    if grants == [] then []
    else (if grants[0].fair then [grants[0].request.id] else []) + GrantedIds(grants[1..])
  }

  /** All commitments of a run, in order. */
  function Committed<W>(states: seq<Sem<W>>, actions: seq<Action<W>>): seq<W>
    requires |states| == |actions| + 1
    requires forall i :: 0 <= i < |actions| ==> Enabled(states[i], actions[i])
    decreases |actions|
  {
    if actions == [] then []
    else
      var n := |actions| - 1;
      Committed(states[..n + 1], actions[..n]) + Commits(states[n], actions[n])
  }

  lemma {:induction false} GrantedIdsOfGrants<W>(prefix: seq<Request<W>>)
    ensures GrantedIds(Grants(prefix, true)) == Ids(prefix)
  {
    if prefix != [] {
      GrantedIdsOfGrants(prefix[1..]);
      assert Grants(prefix, true)[1..] == Grants(prefix[1..], true);
      assert Ids(prefix) == [prefix[0].id] + Ids(prefix[1..]);
    }
  }

  lemma FairReleaseCommits<W>(s: Sem<W>, amount: nat)
    ensures var r := Release(s, amount, Fair);
            && |s.woken| <= |r.woken| && r.woken[..|s.woken|] == s.woken
            && (forall i :: |s.woken| <= i < |r.woken| ==> r.woken[i].fair)
            && GrantedIds(r.woken[|s.woken|..]) + Ids(r.queue) == Ids(s.queue)
  {
    var s0 := s.(permits := s.permits + amount);
    var k := WakeExact(s0, s0.permits, Fair);
    var prefix := s.queue[..k];
    GrantedIdsOfGrants(prefix);
    assert (s.woken + Grants(prefix, true))[|s.woken|..] == Grants(prefix, true);
    assert Ids(s.queue) == Ids(prefix) + Ids(s.queue[k..]);
  }

  ghost predicate AllFair<W>(s: Sem<W>) {
    forall i :: 0 <= i < |s.woken| ==> s.woken[i].fair
  }

  lemma FairStepInOrder<W>(s: Sem<W>, a: Action<W>)
    requires Enabled(s, a) && FairStep(a) && AllFair(s)
    ensures AllFair(Step(s, a))
    ensures Commits(s, a) + Ids(Step(s, a).queue) == Ids(s.queue) + if a.Acquire? then [a.id] else []
  {
    match a
    case TryAcquire(_) =>
    case Acquire(id, n, barge) =>
      if Admits(s, n, barge) {
      } else {
        assert Ids(s.queue + [Request(id, n, barge)]) == Ids(s.queue) + [id];
      }
    case Resume(k) =>
      assert s.woken[k].fair;
    case ReleaseFair(j) =>
      FairReleaseCommits(s.(held := Without(s.held, j)), s.held[j]);
    case Leak(j) =>
    case AddPermitsFair(n) =>
      FairReleaseCommits(s.(total := s.total + n), n);
  }

  lemma PrefixIsPath<W>(states: seq<Sem<W>>, actions: seq<Action<W>>, n: nat)
    requires IsPath(states, actions) && n <= |actions|
    ensures IsPath(states[..n + 1], actions[..n])
  {
  }

  /** No overtaking: in a fair run the calls that were given permits, followed
      by the calls still queued, are exactly the calls made, in call order. */
  lemma {:induction false} FirstComeFirstServed<W>(states: seq<Sem<W>>, actions: seq<Action<W>>)
    requires IsRun(states, actions)
    requires forall i :: 0 <= i < |actions| ==> FairStep(actions[i])
    ensures AllFair(states[|actions|])
    ensures Committed(states, actions) + Ids(states[|actions|].queue) == Called(actions)
    decreases |actions|
  {
    if actions != [] {
      var n := |actions| - 1;
      var s, a := states[n], actions[n];
      PrefixIsPath(states, actions, n);
      FirstComeFirstServed(states[..n + 1], actions[..n]);
      assert FairStep(a) && Enabled(s, a) && states[n + 1] == Step(s, a);
      FairStepInOrder(s, a);
      var call := if a.Acquire? then [a.id] else [];
      assert Called(actions) == Called(actions[..n]) + call;
      var before := Committed(states[..n + 1], actions[..n]);
      Reassociate(before, Commits(s, a), Ids(states[n + 1].queue), Ids(s.queue), call);
    }
  }

  /** Only the poll or the drop of a woken waiter takes its grant away. */
  lemma WokenStay<W>(s: Sem<W>, a: Action<W>)
    requires Enabled(s, a)
    ensures Remaining(s.woken, if a.CancelQueued? then None else Leaver(s, a)) <= Step(s, a).woken
  {
    match a
    case TryAcquire(_) =>
    case TryAcquireUnfair(_) =>
    case Acquire(_, _, _) =>
    case Resume(k) =>
      ReleaseFrame(s.(woken := Without(s.woken, k)), 0, Unfair);
      if InVain(s.woken[k], s.permits) {
        FailedResumeParks(s, k);
      }
    case CancelQueued(_) =>
    case CancelWoken(k) =>
      var n := if s.woken[k].fair then s.woken[k].request.wanted else 0;
      ReleaseFrame(s.(woken := Without(s.woken, k)), n, Unfair);
    case DropPermit(j) =>
      ReleaseFrame(s.(held := Without(s.held, j)), s.held[j], Unfair);
    case ReleaseFair(j) =>
      ReleaseFrame(s.(held := Without(s.held, j)), s.held[j], Fair);
    case Leak(_) =>
    case AddPermits(n) =>
      ReleaseFrame(s.(total := s.total + n), n, Unfair);
    case AddPermitsFair(n) =>
      ReleaseFrame(s.(total := s.total + n), n, Fair);
  }

  /** A waiter that was woken keeps its grant until it is itself polled or
      cancelled: no step of anybody else takes it away. */
  lemma GrantReserved<W>(s: Sem<W>, a: Action<W>, k: nat)
    requires Enabled(s, a) && k < |s.woken|
    requires !((a.Resume? || a.CancelWoken?) && a.k == k)
    ensures var k' := if (a.Resume? || a.CancelWoken?) && a.k < k then k - 1 else k;
            k' < |Step(s, a).woken| && Step(s, a).woken[k'] == s.woken[k]
  {
    WokenStay(s, a);
  }

  // ----- Overtaking

  /** The operations without `unfair` in their name. */
  predicate Default<W>(a: Action<W>) {
    !a.TryAcquireUnfair? && !(a.Acquire? && a.barge)
  }

  /** The step `a` gives permits to somebody who is not at or before position `j`
      of the line, and not to the request at that position. */
  ghost predicate Overtakes<W>(s: Sem<W>, a: Action<W>, j: nat)
    requires Enabled(s, a) && j < |Line(s)|
  {
    && Line(s)[j].id !in Commits(s, a)
    && ((a.TryAcquire? && Step(s, a) != s) || Beyond(Commits(s, a), Ids(Line(s)), j))
  }

  /** Some of `chosen` are not at or before position `j` of `line`. */
  ghost predicate Beyond<T>(chosen: seq<T>, line: seq<T>, j: nat)
    requires j < |line|
  {
    exists i :: 0 <= i < |chosen| && chosen[i] !in line[..j + 1]
  }

  /** The request at position `j` has no permits reserved for it. */
  predicate Unserved<W>(s: Sem<W>, j: nat) {
    j < |s.woken| ==> !s.woken[j].fair
  }

  /** Exactly when a default operation overtakes a suspended request: it must have
      been woken, and then a caller finds the queue empty and enough permits, or
      somebody woken later is polled first and takes them, or a fair release
      makes a grant to the head of the queue. */
  predicate Passes<W>(s: Sem<W>, a: Action<W>, j: nat) {
    j < |s.woken| &&
    match a
    case TryAcquire(n) => Admits(s, n, false)
    case Acquire(_, n, _) => Admits(s, n, false)
    case Resume(k) => j < k < |s.woken| && !s.woken[k].fair && s.woken[k].request.wanted <= s.permits
    case ReleaseFair(i) => s.queue != [] && i < |s.held| && s.queue[0].wanted <= s.permits + s.held[i]
    case AddPermitsFair(n) => s.total + n <= WORD_MAX && s.queue != [] && s.queue[0].wanted <= s.permits + n
    case _ => false
  }

  lemma OvertakenIff<W>(s: Sem<W>, a: Action<W>, j: nat)
    requires Enabled(s, a) && Unique(s) && Default(a)
    requires j < |Line(s)| && Unserved(s, j)
    ensures Overtakes(s, a, j) <==> Passes(s, a, j)
  {
    match a
    case TryAcquire(n) =>
      assert Admits(s, n, false) ==> |Step(s, a).held| > |s.held|;
    case Acquire(id, n, _) =>
      assert Ids(Line(s))[j] != id;
      assert Admits(s, n, false) ==> Commits(s, a)[0] == id;
    case Resume(k) => ResumeOvertakes(s, k, j);
    case ReleaseFair(i) => GrantsOvertake(s, s.(held := Without(s.held, i)), a, s.held[i], j);
    case AddPermitsFair(n) =>
      if s.total + n <= WORD_MAX {
        GrantsOvertake(s, s.(total := s.total + n), a, n, j);
      }
    case CancelWoken(k) =>
      UnfairCommitsNothing(s.(woken := Without(s.woken, k)), if s.woken[k].fair then s.woken[k].request.wanted else 0);
    case DropPermit(i) => UnfairCommitsNothing(s.(held := Without(s.held, i)), s.held[i]);
    case AddPermits(n) => UnfairCommitsNothing(s.(total := s.total + n), n);
    case CancelQueued(_) =>
    case Leak(_) =>
  }

  lemma ResumeOvertakes<W>(s: Sem<W>, k: nat, j: nat)
    requires k < |s.woken| && Unique(s) && j < |Line(s)|
    ensures Overtakes(s, Resume(k), j) <==> Passes(s, Resume(k), j)
  {
    var ids := Ids(Line(s));
    assert ids[k] == s.woken[k].request.id;
    if !s.woken[k].fair && s.woken[k].request.wanted <= s.permits {
      assert Commits(s, Resume(k)) == ids[k..k + 1];
      DistinctStretch(ids, k, 1, j);
    }
  }

  /** A fair release overtakes exactly the waiters that hold a token, and only if it reaches the head of the queue. */
  lemma GrantsOvertake<W>(s: Sem<W>, s0: Sem<W>, a: Action<W>, amount: nat, j: nat)
    requires Enabled(s, a) && (a.ReleaseFair? || a.AddPermitsFair?) && Unique(s)
    requires s0.queue == s.queue && s0.woken == s.woken && s0.permits == s.permits
    requires Step(s, a) == Release(s0, amount, Fair)
    requires j < |Line(s)| && Unserved(s, j)
    ensures Overtakes(s, a, j) <==> j < |s.woken| && s.queue != [] && s.queue[0].wanted <= s.permits + amount
  {
    var n, ids := |s.woken|, Ids(Line(s));
    var k := ReleaseExact(s0, amount, Fair);
    GrantedIdsOfGrants(s.queue[..k]);
    assert Step(s, a).woken[n..] == Grants(s.queue[..k], true);
    assert Commits(s, a) == Ids(s.queue[..k]) == ids[n..n + k];
    assert k > 0 <==> s.queue != [] && s.queue[0].wanted <= s.permits + amount by {
      if s.queue != [] {
        PrefixWants(s.queue, 1);
        assert Wants(s.queue[1..][..0]) == [];
      }
    }
    DistinctStretch(ids, n, k, j);
  }

  /** A stretch of a sequence without duplicates is beyond a position outside of
      it exactly if it begins later and is not empty. */
  lemma DistinctStretch<T>(s: seq<T>, n: nat, k: nat, j: nat)
    requires Distinct(s) && n + k <= |s| && j < |s|
    ensures s[j] !in s[n..n + k] && Beyond(s[n..n + k], s, j) <==> j < n && k > 0
  {
    var stretch, before := s[n..n + k], s[..j + 1];
    if n <= j < n + k {
      assert stretch[j - n] == s[j];
    } else if j < n {
      forall i, l | 0 <= i < k && 0 <= l <= j ensures stretch[i] != before[l] {
        DistinctFrom(s, l, n + i);
      }
      assert forall i :: 0 <= i < k ==> stretch[i] != before[j];
      assert k > 0 ==> stretch[0] !in before;
    } else {
      forall i | 0 <= i < k ensures stretch[i] in before {
        assert before[n + i] == stretch[i];
      }
    }
  }

  lemma QueuePosition<W>(s: Sem<W>, r: Request<W>) returns (p: nat)
    requires r in s.queue
    ensures |s.woken| <= p < |Line(s)| && Line(s)[p] == r && Ids(Line(s))[p] == r.id
  {
    var q :| 0 <= q < |s.queue| && s.queue[q] == r;
    p := |s.woken| + q;
  }

  /** A queued request that stays queued moves up, if anything. */
  lemma QueuedMovesUp<W>(s: Sem<W>, a: Action<W>, p: nat) returns (p': nat)
    requires Enabled(s, a) && Unique(s) && |s.woken| <= p < |Line(s)|
    requires Line(s)[p] in Step(s, a).queue
    ensures |Step(s, a).woken| <= p' < |Line(Step(s, a))| && Line(Step(s, a))[p'] == Line(s)[p]
    ensures forall x :: x in Before(Step(s, a), p') ==> x in Before(s, p)
  {
    var s', r := Step(s, a), Line(s)[p];
    p' := QueuePosition(s', r);
    StepKeepsUnique(s, a);
    IdsMove(s, a);
    if a.CancelQueued? {
      CancelledLeaves(s, a.k);
    }
    MovesUp(Ids(Line(s)), Leaver(s, a), Ids(Enterers(s, a)), Ids(Line(s')), p, p');
  }

  /** The futures before position `p` of the line. */
  function Before<W>(s: Sem<W>, p: nat): seq<W>
    requires p <= |Line(s)|
  {
    Ids(Line(s))[..p]
  }

  lemma CancelledLeaves<W>(s: Sem<W>, k: nat)
    requires Unique(s) && k < |s.queue|
    ensures s.queue[k] !in Without(s.queue, k)
  {
    var rest := Without(s.queue, k);
    forall i | 0 <= i < |rest| ensures rest[i] != s.queue[k] {
      DistinctFrom(Ids(Line(s)), |s.woken| + if i < k then i else i + 1, |s.woken| + k);
    }
  }

  lemma MovesUp<T>(s: seq<T>, leaver: Option<nat>, more: seq<T>, s': seq<T>, p: nat, p': nat)
    requires Distinct(s) && (leaver.Some? ==> leaver.value < |s| && leaver.value != p)
    requires s' == Remaining(s, leaver) + more && Distinct(s')
    requires p < |s| && p' < |s'| && s'[p'] == s[p]
    ensures forall x :: x in s'[..p'] ==> x in s[..p]
  {
    var q := if leaver.Some? && leaver.value < p then p - 1 else p;
    DistinctFrom(s', q, p');
    forall i | 0 <= i < q ensures s'[i] in s[..p] {
      assert s'[i] == s[..p][if leaver.Some? && leaver.value <= i then i + 1 else i];
    }
  }

  /** The request `r` is queued, at position `p` of the line. */
  ghost predicate QueuedAs<W>(s: Sem<W>, r: Request<W>, p: nat) {
    Unique(s) && |s.woken| <= p < |Line(s)| && Line(s)[p] == r
  }

  /** Whoever stays queued is not overtaken: as long as only default operations
      are used, permits go only to requests that were before it in the line. */
  lemma {:induction false} QueuedNeverOvertaken<W>(
    states: seq<Sem<W>>, actions: seq<Action<W>>, r: Request<W>, p: nat) returns (p': nat)
    requires IsPath(states, actions) && QueuedAs(states[0], r, p)
    requires forall i :: 0 <= i < |actions| ==> Default(actions[i])
    requires forall i :: 0 <= i < |states| ==> r in states[i].queue
    ensures QueuedAs(states[|actions|], r, p')
    ensures forall x :: x in Before(states[|actions|], p') ==> x in Before(states[0], p)
    ensures forall x :: x in Committed(states, actions) ==> x in Before(states[0], p)
    ensures forall i :: 0 <= i < |actions| && actions[i].TryAcquire? ==> states[i + 1] == states[i]
    decreases |actions|
  {
    if actions == [] {
      p' := p;
    } else {
      var n := |actions| - 1;
      PrefixIsPath(states, actions, n);
      var q := QueuedNeverOvertaken(states[..n + 1], actions[..n], r, p);
      assert Default(actions[n]) && Enabled(states[n], actions[n]) && r in states[n + 1].queue;
      p' := QueuedStep(states[n], actions[n], r, q);
    }
  }

  lemma QueuedStep<W>(s: Sem<W>, a: Action<W>, r: Request<W>, p: nat) returns (p': nat)
    requires Enabled(s, a) && Default(a) && QueuedAs(s, r, p) && r in Step(s, a).queue
    ensures QueuedAs(Step(s, a), r, p')
    ensures forall x :: x in Before(Step(s, a), p') ==> x in Before(s, p)
    ensures forall x :: x in Commits(s, a) ==> x in Before(s, p)
    ensures a.TryAcquire? ==> Step(s, a) == s
  {
    StepKeepsUnique(s, a);
    p' := QueuedMovesUp(s, a, p);
    QueuedYields(s, a, p);
  }

  lemma CommittedNotQueued<W>(s: Sem<W>, a: Action<W>, r: Request<W>)
    requires Enabled(s, a) && Unique(s) && r in s.queue && r in Step(s, a).queue
    ensures r.id !in Commits(s, a)
  {
    match a
    case Acquire(_, _, _) => var p := QueuePosition(s, r);
    case Resume(k) => WokenNotQueued(s, k, r);
    case _ =>
      StepKeepsUnique(s, a);
      if |s.woken| <= |Step(s, a).woken| {
        GrantedNotQueued(Step(s, a), |s.woken|, r);
      }
  }

  lemma WokenNotQueued<W>(s: Sem<W>, k: nat, r: Request<W>)
    requires Unique(s) && k < |s.woken| && r in s.queue
    ensures s.woken[k].request.id != r.id
  {
    var p := QueuePosition(s, r);
    DistinctFrom(Ids(Line(s)), k, p);
  }

  lemma GrantedNotQueued<W>(s: Sem<W>, n: nat, r: Request<W>)
    requires Unique(s) && n <= |s.woken| && r in s.queue
    ensures r.id !in GrantedIds(s.woken[n..])
  {
    GrantedAreWoken(s.woken[n..]);
    forall k | n <= k < |s.woken| ensures s.woken[k].request.id != r.id {
      WokenNotQueued(s, k, r);
    }
  }

  lemma {:induction false} GrantedAreWoken<W>(grants: seq<Grant<W>>)
    ensures forall x :: x in GrantedIds(grants) ==> exists i :: 0 <= i < |grants| && grants[i].request.id == x
  {
    if grants != [] {
      GrantedAreWoken(grants[1..]);
      assert forall i :: 0 <= i < |grants| - 1 ==> grants[1..][i] == grants[i + 1];
    }
  }

  /** The step gives permits only to requests before a queued one that stays queued. */
  lemma QueuedYields<W>(s: Sem<W>, a: Action<W>, p: nat)
    requires Enabled(s, a) && Unique(s) && Default(a)
    requires |s.woken| <= p < |Line(s)| && Line(s)[p] in Step(s, a).queue
    ensures forall x :: x in Commits(s, a) ==> x in Before(s, p)
  {
    var ids, commits := Ids(Line(s)), Commits(s, a);
    OvertakenIff(s, a, p);
    CommittedNotQueued(s, a, Line(s)[p]);
    forall x | x in commits ensures x in ids[..p] {
      var i :| 0 <= i < |commits| && commits[i] == x;
      assert ids[..p + 1] == ids[..p] + [ids[p]];
    }
  }

  lemma UnfairCommitsNothing<W>(s: Sem<W>, amount: nat)
    ensures forall n: nat :: n <= |Release(s, amount, Unfair).woken| && |s.woken| <= n ==>
              GrantedIds(Release(s, amount, Unfair).woken[n..]) == []
  {
    var k := ReleaseExact(s, amount, Unfair);
    forall n: nat | |s.woken| <= n <= |Release(s, amount, Unfair).woken|
      ensures GrantedIds(Release(s, amount, Unfair).woken[n..]) == []
    {
      TokensOnly(Release(s, amount, Unfair).woken[n..]);
    }
  }

  lemma {:induction false} TokensOnly<W>(grants: seq<Grant<W>>)
    requires forall i :: 0 <= i < |grants| ==> !grants[i].fair
    ensures GrantedIds(grants) == []
  {
    if grants != [] {
      TokensOnly(grants[1..]);
    }
  }

  /** `big`, which wants both permits of the semaphore, is parked while somebody holds one. */
  function Contended<W>(big: Request<W>): Sem<W> {
    Sem(1, 2, [big], [], [1])
  }

  /** Overtaking by a default `acquire`: 2 permits are added, which wakes `big`
      that wants both; before it is polled, `small` calls for 1 and is served at
      once. `big` then resumes in vain and is parked again. */
  lemma OvertakingExample<W>(big: W, small: W) returns (states: seq<Sem<W>>, actions: seq<Action<W>>)
    requires big != small
    ensures IsRun(states, actions) && |actions| == 4
    ensures Line(states[2]) == [Request(big, 2, false)]
    ensures actions[2] == Acquire(small, 1, false) && Overtakes(states[2], actions[2], 0)
    ensures actions[3] == Resume(0) && states[4].queue == [Request(big, 2, false)]
  {
    var b := Request(big, 2, false);
    var s2: Sem<W> := Sem(2, 2, [], [Grant(b, false)], []);
    actions := [Acquire(big, 2, false), AddPermits(2), Acquire(small, 1, false), Resume(0)];
    states := [New(0), Sem(0, 0, [b], [], []), s2, Sem(1, 2, [], [Grant(b, false)], [1]), Contended(b)];
    BigQueues(b);
    WakesAlone(b);
    SmallOvertakes(b, small);
    ResumesInVain(b);
    forall i | 0 <= i < |actions|
      ensures Enabled(states[i], actions[i]) && states[i + 1] == Step(states[i], actions[i])
    {
      if i == 1 {
        assert Step(states[1], AddPermits(2)) == Wake(Sem(2, 2, [b], [], []), 2, Unfair);
      }
    }
  }

  lemma SmallOvertakes<W>(r: Request<W>, small: W)
    requires small != r.id
    ensures var s, a := Sem(2, 2, [], [Grant(r, false)], []), Acquire(small, 1, false);
            && Line(s) == [r] && Enabled(s, a) && Overtakes(s, a, 0)
            && Step(s, a) == Sem(1, 2, [], [Grant(r, false)], [1])
  {
    var s, a := Sem(2, 2, [], [Grant(r, false)], []), Acquire(small, 1, false);
    assert Line(s) == [r];
    OvertakenIff(s, a, 0);
  }

  lemma BigQueues<W>(r: Request<W>)
    requires r.wanted == 2 && !r.barge
    ensures Enabled(New(0), Acquire(r.id, 2, false))
    ensures Step(New(0), Acquire(r.id, 2, false)) == Sem(0, 0, [r], [], [])
  {
    assert Line(New<W>(0)) == [];
  }

  lemma WakesAlone<W>(r: Request<W>)
    requires r.wanted == 2
    ensures Wake(Sem(2, 2, [r], [], []), 2, Unfair) == Sem(2, 2, [], [Grant(r, false)], [])
  {
    var s: Sem<W> := Sem(2, 2, [r], [], []);
    assert [r][1..] == [];
    assert Wake(s, 2, Unfair) == Wake(s.(queue := [], woken := [Grant(r, false)]), 0, Unfair);
  }

  lemma ResumesInVain<W>(r: Request<W>)
    requires r.wanted == 2
    ensures Step(Sem(1, 2, [], [Grant(r, false)], [1]), Resume(0)) == Sem(1, 2, [r], [], [1])
  {
    FailedResumeParks(Sem(1, 2, [], [Grant(r, false)], [1]), 0);
    assert Without([Grant(r, false)], 0) == [];
  }

  // ----- Starvation

  /** Steps `i` to `i + 2`: the permit is dropped, which wakes `big`; before it is
      polled, `small` calls for one permit and is served at once; `big` resumes in
      vain and is parked again. */
  ghost predicate VainRound<W>(
    states: seq<Sem<W>>, actions: seq<Action<W>>, i: nat, big: Request<W>, small: W)
    requires IsPath(states, actions)
  {
    && i + 3 <= |actions|
    && actions[i] == DropPermit(0) && states[i + 1].woken == [Grant(big, false)]
    && actions[i + 1] == Acquire(small, 1, false) && Commits(states[i + 1], actions[i + 1]) == [small]
    && actions[i + 2] == Resume(0) && states[i + 2].woken == [Grant(big, false)]
    && InVain(states[i + 2].woken[0], states[i + 2].permits)
    && states[i + 3] == Contended(big)
  }

  lemma DropWakesBig<W>(big: Request<W>)
    requires big.wanted == 2
    ensures Step(Contended(big), DropPermit(0)) == Sem(2, 2, [], [Grant(big, false)], [])
  {
    assert Without([1 as usize], 0) == [];
    WakesAlone(big);
  }

  lemma StartContended<W>(big: Request<W>) returns (states: seq<Sem<W>>, actions: seq<Action<W>>)
    requires big.wanted == 2 && !big.barge
    ensures IsRun(states, actions) && |actions| == 2 && states[2] == Contended(big)
    ensures forall i :: 0 <= i < |actions| ==> Default(actions[i])
  {
    actions := [TryAcquire(1), Acquire(big.id, 2, false)];
    states := [New(2), Sem(1, 2, [], [], [1]), Contended(big)];
  }

  lemma OneMoreRound<W>(states: seq<Sem<W>>, actions: seq<Action<W>>, big: Request<W>, small: W)
    returns (states': seq<Sem<W>>, actions': seq<Action<W>>)
    requires IsRun(states, actions) && states[|actions|] == Contended(big)
    requires big.wanted == 2 && small != big.id
    ensures IsRun(states', actions') && states <= states' && actions <= actions' && |actions'| == |actions| + 3
    ensures VainRound(states', actions', |actions|, big, small)
    ensures forall i :: |actions| <= i < |actions'| ==> Default(actions'[i])
  {
    hide Step;
    var n := |actions|;
    DropWakesBig(big);
    SmallOvertakes(big, small);
    ResumesInVain(big);
    actions' := actions + [DropPermit(0), Acquire(small, 1, false), Resume(0)];
    states' := states + [
      Sem(2, 2, [], [Grant(big, false)], []), Sem(1, 2, [], [Grant(big, false)], [1]), Contended(big)];
    assert states'[n] == states[n] && states'[0] == states[0];
    forall i | 0 <= i < |actions'|
      ensures Enabled(states'[i], actions'[i]) && states'[i + 1] == Step(states'[i], actions'[i])
    {
      if i < n {
        assert Enabled(states[i], actions[i]) && states[i + 1] == Step(states[i], actions[i]);
      }
    }
  }

  /** There is no bound on overtaking: for every number of callers there is a run of
      default operations in which `big` is woken that many times, and each time
      another caller is served first and `big` resumes in vain. */
  lemma {:induction false} Starvation<W>(big: Request<W>, smalls: seq<W>)
    returns (states: seq<Sem<W>>, actions: seq<Action<W>>)
    requires big.wanted == 2 && !big.barge && big.id !in smalls
    ensures IsRun(states, actions) && |actions| == 2 + 3 * |smalls| && states[|actions|] == Contended(big)
    ensures forall i :: 0 <= i < |actions| ==> Default(actions[i])
    ensures forall k :: 0 <= k < |smalls| ==> VainRound(states, actions, 2 + 3 * k, big, smalls[k])
    decreases |smalls|
  {
    if smalls == [] {
      states, actions := StartContended(big);
    } else {
      var n := |smalls| - 1;
      var before, did := Starvation(big, smalls[..n]);
      states, actions := OneMoreRound(before, did, big, smalls[n]);
      forall k | 0 <= k < |smalls| ensures VainRound(states, actions, 2 + 3 * k, big, smalls[k]) {
        assert k < n ==> VainRound(before, did, 2 + 3 * k, big, smalls[..n][k]);
      }
    }
  }
}
