/**
 The intrusive doubly linked list of `src/wait_list.rs`, on the heap.

 The abstraction is the ghost sequence `queue`: the waiters from the oldest to
 the newest. `live` holds every waiter whose future has been created and neither
 completed nor dropped, so it also contains waiters that have been woken and
 unlinked but not resumed yet.
 */
module WaitLists {
  import opened Common
  import opened Ledgers
  import opened Wakeups

  class Waiter<I, O> {
    var next: Waiter?<I, O>
    var prev: Waiter?<I, O>
    var state: State<I, O>
    var waker: Option<TaskId>

    /** The last poll that returned pending, and the number of the wakeup that ended the wait. */
    ghost var parked: Parked
    ghost var rousedBy: nat
    /** The entry of the current wait in the books of the list. */
    ghost var entry: nat

    /** The storage that a future has for its waiter, before it waits. */
    constructor ()
      ensures next == null && prev == null && state == Moved && waker == None
    {
      next, prev, state, waker := null, null, Moved, None;
      parked, rousedBy, entry := Parked(0, 0), 0, 0;
    }

    /** The waiter that `wait` makes; it never overwrites one that holds something. */
    method Fill(input: I, task: TaskId)
      requires state == Moved
      modifies this
      ensures next == null && prev == null
      ensures state == Input(input) && waker == Some(task)
    {
      next, prev, state, waker := null, null, Input(input), Some(task);
    }

    /** The inner block of `wake_one`: take the waker, which marks the waiter as
        woken, and replace the input by the output. */
    method Resolve(output: O) returns (task: TaskId, input: I)
      requires waker.Some? && state.Input?
      modifies this`waker, this`state
      ensures waker == None && state == Output(output)
      ensures old(waker) == Some(task) && old(state) == Input(input)
    {
      task, input := waker.value, state.input;
      waker, state := None, Output(output);
    }

    /** `Waiter::drop`: drop the union in the variant that the waker selects. An
        output that was handed over but never taken is returned, so that its own
        drop handler can run. */
    method Drop() returns (output: Option<O>)
      requires if waker.Some? then state.Input? else state.Output?
      modifies this`state
      ensures output == if waker.Some? then None else Some(old(state.output))
      ensures state == Moved
    {
      match waker {
        case Some(_) => output := None;
        case None => output := Some(state.output);
      }
      state := Moved;
    }
  }

  class WaitList<I, O> {
    var borrowed: bool
    var head: Waiter?<I, O>
    var tail: Waiter?<I, O>

    ghost var queue: seq<Waiter<I, O>>
    ghost var live: set<Waiter<I, O>>
    /** Every task woken through this list, in order. */
    ghost var wakes: seq<TaskId>

    /** Where every input and every output went. */
    ghost var books: Books<Waiter<I, O>, I, O>

    /** The neighbours of the waiter at position `i` are where its pointers say. */
    ghost predicate Node(i: nat)
      requires i < |queue|
      reads this`queue, this`live, live`next, live`prev
    {
      && queue[i] in live
      && queue[i].next == (if i + 1 < |queue| then queue[i + 1] else null)
      && queue[i].prev == (if 0 < i then queue[i - 1] else null)
    }

    /** The pointers spell out `queue` in both directions. */
    ghost predicate Linked()
      reads this`head, this`tail, this`queue, this`live, live`next, live`prev
    {
      && head == (if queue == [] then null else queue[0])
      && tail == (if queue == [] then null else queue[|queue| - 1])
      && Distinct(queue)
      && forall i: nat {:trigger Node(i)} :: i < |queue| ==> Node(i)
    }

    /** The tag of the union is the waker: a live waiter is linked and holds its
        input iff it still has a waker, and holds an output otherwise. */
    ghost predicate Tagged(w: Waiter<I, O>)
      reads this`queue, w`waker, w`state
    {
      && (w in queue <==> w.waker.Some?)
      && (if w.waker.Some? then w.state.Input? else w.state.Output?)
    }

    /** The waker is that of the last poll; once it is gone, the task of that poll
        has been woken since. */
    ghost predicate Reachable(w: Waiter<I, O>)
      reads this`wakes, w`waker, w`parked, w`rousedBy
    {
      if w.waker.Some? then w.waker == Some(w.parked.task) && w.parked.mark <= |wakes|
      else w.parked.mark <= w.rousedBy < |wakes| && wakes[w.rousedBy] == w.parked.task
    }

    ghost predicate Waiting(w: Waiter<I, O>)
      reads this`live, live`waker, live`state
    {
      w in live && w.waker.Some? && w.state.Input?
    }

    ghost predicate Consistent()
      reads this`queue, this`live, live`waker, live`state
    {
      && (forall i {:trigger Waiting(queue[i])} :: 0 <= i < |queue| ==> Waiting(queue[i]))
      && (forall w {:trigger Tagged(w)} :: w in live ==> Tagged(w))
    }

    ghost predicate NoneForgotten()
      reads this`live, this`wakes, live`waker, live`parked, live`rousedBy
    {
      forall w {:trigger Reachable(w)} :: w in live ==> Reachable(w)
    }

    /** The books have what a live waiter really holds. */
    ghost predicate Booked(w: Waiter<I, O>)
      reads this`books, w`entry, w`state
    {
      && w.entry < |books.contents| == |books.holders|
      && books.holders[w.entry] == w && books.contents[w.entry] == w.state
    }

    /** Only a live waiter still holds something for its wait. */
    ghost predicate Accounted(e: nat)
      reads this`books, this`live, live`entry
    {
      e < |books.contents| == |books.holders| ==>
        books.contents[e].Moved? || (books.holders[e] in live && books.holders[e].entry == e)
    }

    ghost predicate Audited()
      reads this`books, this`live, live`entry, live`state
    {
      && books.Balanced()
      && (forall w {:trigger Booked(w)} :: w in live ==> Booked(w))
      && forall e: nat {:trigger Accounted(e)} :: Accounted(e)
    }

    /** The list without its books. */
    ghost predicate Sound()
      reads this`head, this`tail, this`queue, this`live, this`wakes, live
    {
      Linked() && Consistent() && NoneForgotten()
    }

    ghost predicate Valid()
      reads this`head, this`tail, this`queue, this`live, this`wakes, this`books, live
    {
      Sound() && Audited()
    }

    /** Which waits still hold something: exactly those of the queued waiters hold
        their input, and those of the woken waiters their output. */
    lemma WhoHolds(e: nat)
      requires Valid() && e < |books.contents|
      ensures var holder, content := books.holders[e], books.contents[e];
              && (content.Input? <==> holder in queue && holder.entry == e)
              && (content.Output? <==> holder in live && holder !in queue && holder.entry == e)
              && (!content.Moved? ==> holder.state == content)
    {
      assert Accounted(e);
      QueuedWaits(books.holders[e]);
      if books.holders[e] in live {
        assert Booked(books.holders[e]) && Tagged(books.holders[e]);
      }
    }

    /** Exactly once: when no wait is alive any more, every input that entered was
        either returned by `wake_one` or dropped with its wait, and every output
        that was given was either returned by `wait` or dropped with its wait. */
    lemma EverythingSettled()
      requires Valid() && live == {}
      ensures var l := books.ledger;
              l.entered == l.returned + l.withdrawn && l.given == l.claimed + l.forfeited
    {
      forall e | 0 <= e < |books.contents| ensures books.contents[e].Moved? {
        assert Accounted(e);
      }
      NothingHeld(books.contents);
      Unit(books.ledger.returned + books.ledger.withdrawn);
      Unit(books.ledger.claimed + books.ledger.forfeited);
    }

    /** No lost wakeup: a wait that sleeps is still queued, and the task that
        polled it last is the one that will be woken. */
    lemma SleepersAreQueued(w: Waiter<I, O>)
      requires Valid() && w in live && Asleep(wakes, Some(w.parked))
      ensures w in queue && w.waker == Some(w.parked.task)
    {
      assert Tagged(w) && Reachable(w);
    }

    lemma QueuedWaits(w: Waiter<I, O>)
      requires Consistent()
      ensures w in queue ==> Waiting(w)
    {
      if w in queue {
        var i :| 0 <= i < |queue| && queue[i] == w;
        assert Waiting(queue[i]);
      }
    }

    /** Unlinking position `k` keeps every other waiter's tag right. */
    twostate lemma UnlinkedConsistent(k: nat)
      requires old(Consistent()) && k < |old(queue)| && Distinct(old(queue))
      requires queue == Without(old(queue), k)
      requires live == old(live) || live == old(live) - {old(queue[k])}
      requires forall w :: w in old(live) && w != old(queue[k]) ==> w.waker == old(w.waker) && w.state == old(w.state)
      requires var w0 := old(queue[k]); w0 in live ==> w0.waker.None? && w0.state.Output?
      ensures Consistent()
    {
      var w0 := old(queue[k]);
      WithoutMembers(old(queue), k);
      forall i | 0 <= i < |queue| ensures Waiting(queue[i]) {
        var j := if i < k then i else i + 1;
        DistinctFrom(old(queue), j, k);
        assert queue[i] == old(queue[j]) && old(Waiting(queue[j]));
      }
      forall w | w in live ensures Tagged(w) {
        assert old(Tagged(w));
      }
    }

    /** Forgetting an unlinked waiter keeps every other waiter's tag right. */
    twostate lemma RetiredConsistent(waiter: Waiter<I, O>)
      requires old(Consistent()) && waiter !in queue
      requires queue == old(queue) && live == old(live) - {waiter}
      requires forall w :: w in live ==> w.waker == old(w.waker) && w.state == old(w.state)
      ensures Consistent()
    {
      forall i | 0 <= i < |queue| ensures Waiting(queue[i]) {
        assert old(Waiting(queue[i])) && queue[i] in queue;
      }
      forall w | w in live ensures Tagged(w) {
        assert old(Tagged(w));
      }
    }

    /** Appending a filled-in waiter keeps every other waiter's tag right. */
    twostate lemma EnqueuedConsistent(waiter: Waiter<I, O>)
      requires old(Consistent())
      requires waiter !in old(live) && waiter.state.Input? && waiter.waker.Some?
      requires queue == old(queue) + [waiter] && live == old(live) + {waiter}
      requires forall w :: w in old(live) ==> w.waker == old(w.waker) && w.state == old(w.state)
      ensures Consistent()
    {
      forall i | 0 <= i < |queue| ensures Waiting(queue[i]) {
        if i < |old(queue)| {
          assert queue[i] == old(queue[i]) && old(Waiting(queue[i]));
        }
      }
      assert waiter == queue[|queue| - 1];
      forall w | w in live ensures Tagged(w) {
        if w != waiter {
          assert old(Tagged(w));
        }
      }
    }

    /** After a change of one waiter the books are right again, if its entry was
        changed along and the ledger tells where the content went. */
    twostate lemma Rebooked(waiter: Waiter<I, O>)
      requires old(Audited()) && waiter in old(live) && waiter.entry < |old(books).contents|
      requires live == old(live) || (live == old(live) - {waiter} && waiter.state.Moved?)
      requires books.holders == old(books).holders
      requires books.contents == old(books).contents[waiter.entry := waiter.state]
      requires books.Balanced()
      requires forall w :: w in old(live) ==> w.entry == old(w.entry)
      requires forall w :: w in live && w != waiter ==> w.state == old(w.state)
      ensures Audited()
    {
      assert old(Booked(waiter));
      forall w | w in live ensures Booked(w) {
        assert old(Booked(w));
      }
      forall e: nat ensures Accounted(e) {
        assert old(Accounted(e));
      }
    }

    constructor ()
      ensures Valid() && !borrowed
      ensures queue == [] && live == {} && wakes == [] && books == Opened()
    {
      borrowed, head, tail := false, null, null;
      queue, live, wakes, books := [], {}, [], Opened();
    }

    /** Returns whether the caller now owns the borrow; fails iff somebody else does. */
    method TryBorrow() returns (ok: bool)
      modifies this`borrowed
      ensures ok == !old(borrowed)
      ensures borrowed
    {
      ok := !borrowed;
      borrowed := true;
    }

    /** Panics when the list is already borrowed: every caller must show that it is not. */
    method Borrow()
      requires !borrowed
      modifies this`borrowed
      ensures borrowed
    {
      var ok := TryBorrow();
      assert ok;
    }

    /** `Borrowed::drop`. */
    method Unborrow()
      requires borrowed
      modifies this`borrowed
      ensures !borrowed
    {
      borrowed := false;
    }

    method Enqueue(waiter: Waiter<I, O>)
      requires Linked() && borrowed
      requires waiter !in live && waiter.next == null
      modifies this`head, this`tail, this`queue, this`live, live`next, waiter`prev
      ensures Linked()
      ensures queue == old(queue) + [waiter] && live == old(live) + {waiter}
    {
      assert forall i: nat :: i < |queue| ==> Node(i);
      waiter.prev := tail;
      if tail != null {
        assert old(Node(|queue| - 1));
        tail.next := waiter;
      }
      tail := waiter;
      if head == null {
        head := waiter;
      }
      queue, live := queue + [waiter], live + {waiter};
      AppendDistinct(old(queue), waiter) by {
        forall i: nat | i < |old(queue)| ensures old(queue)[i] != waiter {
          assert old(Node(i));
        }
      }
      forall i: nat | i < |queue| ensures Node(i) {
        if i < |old(queue)| {
          assert old(Node(i));
          DistinctFrom(old(queue), i, |old(queue)| - 1);
        }
      }
    }

    method Dequeue(waiter: Waiter<I, O>, ghost k: nat)
      requires Linked() && borrowed
      requires k < |queue| && queue[k] == waiter
      modifies this`head, this`tail, this`queue, live`next, live`prev
      ensures Linked()
      ensures queue == Without(old(queue), k)
    {
      assert Node(k);
      var next := waiter.next;
      var prev := waiter.prev;
      assert prev != null ==> Node(k - 1);
      assert next != null ==> Node(k + 1);
      if prev != null {
        assert prev.next == waiter;
        prev.next := next;
      } else {
        assert head == waiter;
        head := next;
      }
      if next != null {
        assert next.prev == waiter;
        next.prev := prev;
      } else {
        assert tail == waiter;
        tail := prev;
      }
      queue := Without(queue, k);
      WithoutMembers(old(queue), k);
      forall i: nat | i < |queue| ensures Node(i) {
        var j := if i < k then i else i + 1;
        assert queue[i] == old(queue)[j] && old(Node(j));
        assert i + 1 < |queue| ==> queue[i + 1] == old(queue)[if i + 1 < k then i + 1 else i + 2];
        assert 0 < i ==> queue[i - 1] == old(queue)[if i - 1 < k then i - 1 else i];
        DistinctFrom(old(queue), j, k - 1);
        DistinctFrom(old(queue), j, k + 1);
      }
    }

    /** The future of an unlinked waiter is gone. */
    ghost method Retire(waiter: Waiter<I, O>)
      requires Linked() && NoneForgotten() && waiter !in queue
      modifies this`live
      ensures Linked() && NoneForgotten() && live == old(live) - {waiter}
    {
      live := live - {waiter};
      forall i: nat | i < |queue| ensures Node(i) {
        assert old(Node(i)) && queue[i] in queue;
      }
      forall w | w in live ensures Reachable(w) {
        assert old(Reachable(w));
      }
    }

    /** The same for a waiter that has been woken. */
    ghost method Depart(waiter: Waiter<I, O>)
      requires Sound() && waiter !in queue
      modifies this`live
      ensures Sound() && live == old(live) - {waiter}
    {
      Retire(waiter);
      RetiredConsistent(waiter);
    }

    /** `Borrowed::is_empty`. */
    method IsEmpty() returns (empty: bool)
      requires Valid() && borrowed
      ensures empty == (queue == [])
    {
      empty := head == null;
    }

    /** `Borrowed::head_input`: the union is read as an input, which `Valid` justifies. */
    method HeadInput() returns (input: Option<I>)
      requires Valid() && borrowed
      ensures queue == [] ==> input == None
      ensures queue != [] ==> input.Some? && queue[0].state == Input(input.value)
    {
      if head == null {
        input := None;
      } else {
        assert Waiting(queue[0]);
        input := Some(head.state.input);
      }
    }

    /** Dequeue the oldest waiter, swap its input for `output` and wake the task
        that polled it last. Returns `None` when nobody waits; `output` then
        stays with the caller. */
    method WakeOne(output: O) returns (input: Option<I>)
      requires Valid() && borrowed
      modifies this`head, this`tail, this`queue, this`wakes, this`books, live
      ensures Valid()
      ensures old(queue) == [] ==> input == None && queue == [] && wakes == old(wakes) && books == old(books)
      ensures old(queue) != [] ==>
                var w := old(queue[0]);
                && input.Some? && old(w.state) == Input(input.value)
                && queue == Without(old(queue), 0)
                && w.state == Output(output)
                && books.ledger == old(books).ledger.Exchange(input.value, output)
                && |wakes| == |old(wakes)| + 1 && wakes == old(wakes) + [wakes[|old(wakes)|]]
                && old(w.waker) == Some(wakes[|old(wakes)|])
      ensures forall w :: w in live && w != old(head) ==> w.state == old(w.state) && w.waker == old(w.waker)
    {
      if head == null {
        input := None;
      } else {
        var first := head;
        assert Waiting(queue[0]) && Booked(first);
        var taken := WakeHead(first, output);
        label Woken:
        books.ExchangeBalances(first.entry, output);
        books := books.Exchange(first.entry, taken, output);
        assert Sound() == old@Woken(Sound());
        Rebooked(first);
        input := Some(taken);
      }
    }

    method WakeHead(first: Waiter<I, O>, output: O) returns (input: I)
      requires Sound() && borrowed
      requires first == head
      modifies this`head, this`tail, this`queue, this`wakes
      modifies live`next, live`prev, first`waker, first`state, first`rousedBy
      ensures Sound()
      ensures queue == Without(old(queue), 0)
      ensures old(first.state) == Input(input) && first.state == Output(output)
      ensures |wakes| == |old(wakes)| + 1 && wakes == old(wakes) + [wakes[|old(wakes)|]]
      ensures old(first.waker) == Some(wakes[|old(wakes)|])
    {
      assert Waiting(queue[0]) && Reachable(first);
      var task;
      task, input := first.Resolve(output);
      first.rousedBy := |wakes|;
      wakes := wakes + [task];
      Dequeue(first, 0);
      UnlinkedConsistent(0);
      forall w | w in live ensures Reachable(w) {
        assert old(Reachable(w));
      }
    }

    /** `WaitInner::new` for a slot that `wait` has just filled in. */
    method StartWait(waiter: Waiter<I, O>)
      requires Valid() && !borrowed
      requires waiter !in live
      requires waiter.next == null && waiter.state.Input? && waiter.waker.Some?
      modifies this, live`next, waiter
      ensures Valid() && !borrowed
      ensures queue == old(queue) + [waiter] && wakes == old(wakes)
      ensures live == old(live) + {waiter}
      ensures books == old(books.Enter(waiter, waiter.state.input))
      ensures waiter.state == old(waiter.state) && waiter.waker == old(waiter.waker)
    {
      waiter.entry := |books.contents|;
      Join(waiter);
      forall e: nat ensures Accounted(e) {
        assert old(Accounted(e));
      }
      Register(waiter);
    }

    method Join(waiter: Waiter<I, O>)
      requires Sound() && !borrowed
      requires waiter !in live
      requires waiter.next == null && waiter.state.Input? && waiter.waker.Some?
      modifies this`borrowed, this`head, this`tail, this`queue, this`live
      modifies live`next, waiter`prev, waiter`parked
      ensures Sound() && !borrowed
      ensures queue == old(queue) + [waiter] && live == old(live) + {waiter}
    {
      Borrow();
      Enqueue(waiter);
      Unborrow();
      waiter.parked := Parked(waiter.waker.value, |wakes|);
      EnqueuedConsistent(waiter);
      forall w | w in live ensures Reachable(w) {
        assert w != waiter ==> old(Reachable(w));
      }
    }

    /** Open an entry of the books for a wait that has just joined the list. */
    ghost method Register(waiter: Waiter<I, O>)
      requires waiter in live && waiter.state.Input?
      requires waiter.entry == |books.contents| && books.Balanced()
      requires forall w :: w in live && w != waiter ==> Booked(w)
      requires forall e: nat :: Accounted(e)
      modifies this`books
      ensures Audited()
      ensures books == old(books.Enter(waiter, waiter.state.input))
    {
      books.EnterBalances(waiter, waiter.state.input);
      books := books.Enter(waiter, waiter.state.input);
      forall w | w in live ensures Booked(w) {
        assert w != waiter ==> old(Booked(w));
      }
      forall e: nat ensures Accounted(e) {
        assert old(Accounted(e));
      }
    }

    /** `WaitInner::poll`: ready iff the waiter has been woken; otherwise the
        task that polls last is the one that will be woken. */
    method PollWait(waiter: Waiter<I, O>, task: TaskId) returns (ready: bool)
      requires Valid() && !borrowed
      requires waiter in live
      modifies this`borrowed, waiter`waker, waiter`parked
      ensures Valid() && !borrowed
      ensures ready == (waiter !in queue)
      ensures waiter.waker == if ready then None else Some(task)
      ensures !ready ==> waiter.parked == Parked(task, |wakes|)
    {
      Borrow();
      ready := Recheck(waiter, task);
      Unborrow();
    }

    method Recheck(waiter: Waiter<I, O>, task: TaskId) returns (ready: bool)
      requires Sound() && waiter in live
      modifies waiter`waker, waiter`parked
      ensures Sound()
      ensures ready == (waiter !in queue)
      ensures waiter.waker == if ready then None else Some(task)
      ensures !ready ==> waiter.parked == Parked(task, |wakes|)
    {
      assert Tagged(waiter);
      match waiter.waker {
        case Some(same) =>
          if same != task {
            waiter.waker := Some(task);
          }
          waiter.parked := Parked(task, |wakes|);
          ready := false;
        case None =>
          ready := true;
      }
      forall i | 0 <= i < |queue| ensures Waiting(queue[i]) {
        assert old(Waiting(queue[i]));
      }
      forall w | w in live ensures Tagged(w) && Reachable(w) {
        assert old(Tagged(w)) && old(Reachable(w));
      }
    }

    /** The first poll of `wait`: make the waiter, enqueue it and poll it, which
        leaves it pending. */
    method Begin(waiter: Waiter<I, O>, input: I, task: TaskId)
      requires Valid() && !borrowed
      requires waiter !in live && waiter.state == Moved
      modifies this, live`next, waiter
      ensures Valid() && !borrowed
      ensures queue == old(queue) + [waiter] && live == old(live) + {waiter} && wakes == old(wakes)
      ensures books == old(books.Enter(waiter, input))
      ensures waiter.state == Input(input) && waiter.waker == Some(task)
    {
      hide *;
      Prepare(waiter, input, task);
      StartWait(waiter);
      var ready := PollWait(waiter, task);
      assert waiter == queue[|queue| - 1];
      assert !ready;
    }

    /** A slot that the list does not know is filled in. */
    method Prepare(waiter: Waiter<I, O>, input: I, task: TaskId)
      requires Valid() && waiter !in live && waiter.state == Moved
      modifies waiter
      ensures Valid()
      ensures waiter.next == null && waiter.state == Input(input) && waiter.waker == Some(task)
    {
      hide *;
      waiter.Fill(input, task);
      assert Valid() == old(Valid());
    }

    /** The end of `wait`: move the output out of a waiter that has been woken. */
    method TakeOutput(waiter: Waiter<I, O>) returns (output: O)
      requires Valid()
      requires waiter in live && waiter !in queue
      modifies this`live, this`books, waiter`state
      ensures Valid()
      ensures old(waiter.state) == Output(output) && waiter.state == Moved
      ensures live == old(live) - {waiter}
      ensures books.ledger == old(books).ledger.Claim(output)
    {
      assert Tagged(waiter) && Booked(waiter);
      output := waiter.state.output;
      Depart(waiter);
      label Departed:
      waiter.state := Moved;
      books.ClaimBalances(waiter.entry);
      books := books.Claim(waiter.entry, output);
      assert Sound() == old@Departed(Sound());
      Rebooked(waiter);
    }

    /** Dropping a `wait` future before it completed: `WaitInner::drop` unlinks the
        waiter if it is still queued, and then the waiter itself is dropped.
        The program aborts exactly if somebody holds the borrow. */
    method DropWait(waiter: Waiter<I, O>, ghost k: nat) returns (aborted: bool, output: Option<O>)
      requires Valid()
      requires waiter in live
      requires waiter in queue ==> k < |queue| && queue[k] == waiter
      modifies this`borrowed, this`head, this`tail, this`queue, this`live, this`books
      modifies live`next, live`prev, waiter`state
      ensures aborted == old(borrowed) == borrowed
      ensures !aborted ==>
                && Valid() && live == old(live) - {waiter}
                && queue == (if old(waiter in queue) then Without(old(queue), k) else old(queue))
                && waiter.state == Moved
                && (if old(waiter in queue) then output == None
                    else output.Some? && old(waiter.state) == Output(output.value))
                && books.ledger == old(books.ledger.Discard(waiter.state))
    {
      assert Tagged(waiter) && Booked(waiter);
      aborted := Leave(waiter, k);
      output := None;
      if !aborted {
        label Left:
        books.DiscardBalances(waiter.entry);
        books := books.Discard(waiter.entry);
        output := waiter.Drop();
        assert Sound() == old@Left(Sound());
        Rebooked(waiter);
      }
    }

    /** Dropping a wait that has been woken, which gives its output back. */
    method DropWoken(waiter: Waiter<I, O>) returns (output: O)
      requires Valid() && !borrowed
      requires waiter in live && waiter !in queue
      modifies this`borrowed, this`head, this`tail, this`queue, this`live, this`books
      modifies live`next, live`prev, waiter`state
      ensures Valid() && !borrowed && queue == old(queue) && live == old(live) - {waiter}
      ensures old(waiter.state) == Output(output) && waiter.state == Moved
      ensures books.ledger == old(books.ledger.Discard(waiter.state))
    {
      var aborted, left := DropWait(waiter, 0);
      assert !aborted;
      output := left.value;
    }

    /** `WaitInner::drop`, which aborts if it cannot borrow the list. */
    method Leave(waiter: Waiter<I, O>, ghost k: nat) returns (aborted: bool)
      requires Sound()
      requires waiter in live
      requires waiter in queue ==> k < |queue| && queue[k] == waiter
      modifies this`borrowed, this`head, this`tail, this`queue, this`live, live`next, live`prev
      ensures aborted == old(borrowed) == borrowed
      ensures !aborted ==>
                && Sound() && live == old(live) - {waiter}
                && queue == if old(waiter in queue) then Without(old(queue), k) else old(queue)
    {
      var ok := TryBorrow();
      if !ok {
        return true;
      }
      aborted := false;
      assert Tagged(waiter);
      if waiter.waker.Some? {
        WithoutMembers(queue, k);
        Dequeue(waiter, k);
        Retire(waiter);
        UnlinkedConsistent(k);
      } else {
        Depart(waiter);
      }
      Unborrow();
    }
  }
}
