/** Small vocabulary shared by all modules. */
module Common {

  datatype Option<+T> = None | Some(value: T)

  /** The width of a machine word on the 64-bit targets the model is about. */
  const WORD_MAX: nat := 0xFFFF_FFFF_FFFF_FFFF

  /** `usize`: storing a value in this type obliges the verifier to show that it did not overflow. */
  type usize = n: nat | n <= WORD_MAX

  /** A waker is the identity of the task it wakes; two wakers wake the same task iff they are equal. */
  type TaskId = nat

  /** A sequence with the element at position `k` taken out. */
  function Without<T>(s: seq<T>, k: nat): seq<T>
    requires k < |s|
  {
    s[..k] + s[k + 1..]
  }

  lemma WithoutKeeps<T>(s: seq<T>, k: nat, x: T)
    requires k < |s| && s[k] != x
    ensures x in Without(s, k) <==> x in s
  {
    assert s == s[..k] + [s[k]] + s[k + 1..];
  }

  /** What leaves a queue at the front and what enters it at the back keep the order of all that ever entered. */
  lemma Reassociate<T>(before: seq<T>, commits: seq<T>, queue': seq<T>, queue: seq<T>, call: seq<T>)
    requires commits + queue' == queue + call
    ensures (before + commits) + queue' == (before + queue) + call
  {
    assert (before + commits) + queue' == before + (commits + queue');
    assert (before + queue) + call == before + (queue + call);
  }

  // ----- Sequences without duplicates

  /** Two positions of a sequence do not hold the same element. */
  ghost predicate Apart<T>(s: seq<T>, i: nat, j: nat)
    requires i < j < |s|
  {
    s[i] != s[j]
  }

  ghost predicate Distinct<T>(s: seq<T>) {
    forall i: nat, j: nat {:trigger Apart(s, i, j)} :: i < j < |s| ==> Apart(s, i, j)
  }

  lemma DistinctFrom<T>(s: seq<T>, i: int, j: int)
    requires Distinct(s)
    ensures 0 <= i < |s| && 0 <= j < |s| && i != j ==> s[i] != s[j]
  {
    if 0 <= i < j < |s| {
      assert Apart(s, i, j);
    } else if 0 <= j < i < |s| {
      assert Apart(s, j, i);
    }
  }

  lemma AppendDistinct<T>(s: seq<T>, x: T)
    requires Distinct(s) && x !in s
    ensures Distinct(s + [x])
  {
    forall i: nat, j: nat | i < j < |s + [x]| ensures Apart(s + [x], i, j) {
      DistinctFrom(s, i, j);
    }
  }

  /** Removing a position of a sequence without duplicates removes exactly that element. */
  lemma WithoutMembers<T>(s: seq<T>, k: nat)
    requires k < |s| && Distinct(s)
    ensures Distinct(Without(s, k))
    ensures forall x :: x in Without(s, k) <==> x in s && x != s[k]
  {
    var r := Without(s, k);
    forall x | x in s && x != s[k] ensures x in r {
      var i :| 0 <= i < |s| && s[i] == x;
      assert x == r[if i < k then i else i - 1];
    }
    forall i: nat, j: nat | i < j < |r| ensures Apart(r, i, j) {
      DistinctFrom(s, if i < k then i else i + 1, if j < k then j else j + 1);
    }
    forall x | x in r ensures x in s && x != s[k] {
      var i :| 0 <= i < |r| && r[i] == x;
      DistinctFrom(s, if i < k then i else i + 1, k);
    }
  }
}
