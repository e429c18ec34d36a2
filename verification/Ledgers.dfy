/**
 Bookkeeping for the inputs and outputs that go through a wait list: where each of
 them went, and which waits still hold one.
 */
module Ledgers {

  /** The union stored in a waiter. `Moved` is what is left once the content has been moved out. */
  datatype State<I, O> = Input(input: I) | Output(output: O) | Moved

  /** Where every input and every output that ever entered the list went. */
  datatype Ledger<I(==), O(==)> = Ledger(
    entered: multiset<I>,    // inputs of waits that were started
    returned: multiset<I>,   // inputs returned to whoever woke the waiter
    withdrawn: multiset<I>,  // inputs dropped with a wait that was still queued
    given: multiset<O>,      // outputs handed to woken waiters
    claimed: multiset<O>,    // outputs returned by `wait`
    forfeited: multiset<O>)  // outputs dropped with a wait that never resumed
  {
    function Enter(i: I): Ledger<I, O> {
      this.(entered := entered + multiset{i})
    }

    function Exchange(i: I, o: O): Ledger<I, O> {
      this.(returned := returned + multiset{i}, given := given + multiset{o})
    }

    function Claim(o: O): Ledger<I, O> {
      this.(claimed := claimed + multiset{o})
    }

    /** The content of a waiter is dropped. */
    function Discard(s: State<I, O>): Ledger<I, O> {
      this.(withdrawn := withdrawn + InputOf(s), forfeited := forfeited + OutputOf(s))
    }
  }

  function InputOf<I(==), O>(s: State<I, O>): multiset<I> {
    if s.Input? then multiset{s.input} else multiset{}
  }

  function OutputOf<I, O(==)>(s: State<I, O>): multiset<O> {
    if s.Output? then multiset{s.output} else multiset{}
  }

  function Inputs<I(==), O>(contents: seq<State<I, O>>): multiset<I> {
    if contents == [] then multiset{} else InputOf(contents[0]) + Inputs(contents[1..])
  }

  function Outputs<I, O(==)>(contents: seq<State<I, O>>): multiset<O> {
    if contents == [] then multiset{} else OutputOf(contents[0]) + Outputs(contents[1..])
  }

  /** `holders` and `contents` have one entry for every wait ever started: its
      waiter, and what that holds for it now. */
  datatype Books<W, I(==), O(==)> = Books(holders: seq<W>, contents: seq<State<I, O>>, ledger: Ledger<I, O>) {

    /** Nothing is lost and nothing is made up: what entered was returned, or was
        withdrawn, or is still held by a waiter; and likewise for the outputs. */
    ghost predicate Balanced() {
      && |holders| == |contents|
      && ledger.entered == ledger.returned + ledger.withdrawn + Inputs(contents)
      && ledger.given == ledger.claimed + ledger.forfeited + Outputs(contents)
    }

    /** A new wait begins with its input. */
    function Enter(w: W, i: I): Books<W, I, O> {
      Books(holders + [w], contents + [Input(i)], ledger.Enter(i))
    }

    /** The wait `e` is woken: it gives its input and gets an output. */
    function Exchange(e: nat, i: I, o: O): Books<W, I, O>
      requires e < |contents|
    {
      Books(holders, contents[e := Output(o)], ledger.Exchange(i, o))
    }

    /** The wait `e` returns its output. */
    function Claim(e: nat, o: O): Books<W, I, O>
      requires e < |contents|
    {
      Books(holders, contents[e := Moved], ledger.Claim(o))
    }

    /** The wait `e` is dropped with its content. */
    function Discard(e: nat): Books<W, I, O>
      requires e < |contents|
    {
      Books(holders, contents[e := Moved], ledger.Discard(contents[e]))
    }

    lemma EnterBalances(w: W, i: I)
      requires Balanced()
      ensures Enter(w, i).Balanced()
    {
      AppendContent(contents, State<I, O>.Input(i));
    }

    lemma ExchangeBalances(e: nat, o: O)
      requires Balanced() && e < |contents| && contents[e].Input?
      ensures Exchange(e, contents[e].input, o).Balanced()
    {
      var contents' := contents[e := Output(o)];
      ReplaceContent(contents, e, Output(o));
      Unit(Inputs(contents));
      Unit(Outputs(contents'));
      MoveFirst(ledger.entered, ledger.returned, ledger.withdrawn,
                Inputs(contents), InputOf(contents[e]), Inputs(contents'));
    }

    lemma ClaimBalances(e: nat)
      requires Balanced() && e < |contents| && contents[e].Output?
      ensures Claim(e, contents[e].output).Balanced()
    {
      var contents' := contents[e := Moved];
      ReplaceContent(contents, e, Moved);
      Unit(Inputs(contents));
      Unit(Inputs(contents'));
      Unit(Outputs(contents));
      MoveFirst(ledger.given, ledger.claimed, ledger.forfeited,
                Outputs(contents), OutputOf(contents[e]), Outputs(contents'));
    }

    lemma DiscardBalances(e: nat)
      requires Balanced() && e < |contents|
      ensures Discard(e).Balanced()
    {
      var contents' := contents[e := Moved];
      ReplaceContent(contents, e, Moved);
      Unit(Inputs(contents));
      Unit(Outputs(contents));
      MoveSecond(ledger.entered, ledger.returned, ledger.withdrawn,
                 Inputs(contents), InputOf(contents[e]), Inputs(contents'));
      MoveSecond(ledger.given, ledger.claimed, ledger.forfeited,
                 Outputs(contents), OutputOf(contents[e]), Outputs(contents'));
    }
  }

  function Opened<W, I(==), O(==)>(): Books<W, I, O> {
    Books([], [], Ledger(multiset{}, multiset{}, multiset{}, multiset{}, multiset{}, multiset{}))
  }

  lemma {:induction false} AppendContent<I, O>(contents: seq<State<I, O>>, s: State<I, O>)
    ensures Inputs(contents + [s]) == Inputs(contents) + InputOf(s)
    ensures Outputs(contents + [s]) == Outputs(contents) + OutputOf(s)
  {
    if contents == [] {
      assert contents + [s] == [s];
    } else {
      assert (contents + [s])[1..] == contents[1..] + [s];
      AppendContent(contents[1..], s);
    }
  }

  lemma {:induction false} ReplaceContent<I, O>(contents: seq<State<I, O>>, k: nat, s: State<I, O>)
    requires k < |contents|
    ensures Inputs(contents[k := s]) + InputOf(contents[k]) == Inputs(contents) + InputOf(s)
    ensures Outputs(contents[k := s]) + OutputOf(contents[k]) == Outputs(contents) + OutputOf(s)
  {
    var contents' := contents[k := s];
    if k == 0 {
      assert contents'[1..] == contents[1..];
      ExchangeEnds(InputOf(s), Inputs(contents[1..]), InputOf(contents[0]));
      ExchangeEnds(OutputOf(s), Outputs(contents[1..]), OutputOf(contents[0]));
    } else {
      assert contents'[1..] == contents[1..][k - 1 := s];
      ReplaceContent(contents[1..], k - 1, s);
      Associate(InputOf(contents[0]), Inputs(contents'[1..]), InputOf(contents[k]));
      Associate(InputOf(contents[0]), Inputs(contents[1..]), InputOf(s));
      Associate(OutputOf(contents[0]), Outputs(contents'[1..]), OutputOf(contents[k]));
      Associate(OutputOf(contents[0]), Outputs(contents[1..]), OutputOf(s));
    }
  }

  lemma Associate<T>(a: multiset<T>, b: multiset<T>, c: multiset<T>)
    ensures (a + b) + c == a + (b + c)
  {
  }

  lemma ExchangeEnds<T>(a: multiset<T>, b: multiset<T>, c: multiset<T>)
    ensures (a + b) + c == (c + b) + a
  {
  }

  /** What leaves the third part of a whole for the first, or for the second. */
  lemma MoveFirst<T>(
    whole: multiset<T>, a: multiset<T>, b: multiset<T>, c: multiset<T>, x: multiset<T>, c': multiset<T>)
    requires whole == a + b + c && c == c' + x
    ensures whole == (a + x) + b + c'
  {
  }

  lemma MoveSecond<T>(
    whole: multiset<T>, a: multiset<T>, b: multiset<T>, c: multiset<T>, x: multiset<T>, c': multiset<T>)
    requires whole == a + b + c && c == c' + x
    ensures whole == a + (b + x) + c'
  {
  }

  lemma Unit<T>(a: multiset<T>)
    ensures a + multiset{} == a
  {
  }

  lemma {:induction false} NothingHeld<I, O>(contents: seq<State<I, O>>)
    requires forall i :: 0 <= i < |contents| ==> contents[i].Moved?
    ensures Inputs(contents) == multiset{} && Outputs(contents) == multiset{}
  {
    if contents != [] {
      NothingHeld(contents[1..]);
    }
  }
}
