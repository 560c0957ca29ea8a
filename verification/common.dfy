/** Small shared vocabulary: optional values, results, and the identifier range 0..n-1. */
module Common {

  /** A value that may be absent (the source's `None`). */
  datatype Option<T> = None | Some(value: T)

  /** The outcome of an operation that the source can abort with an exception. */
  datatype Result<T, E> = Ok(value: T) | Err(error: E)

  function Min(a: int, b: int): int {
    if a <= b then a else b
  }

  /** The identifiers 0, 1, ..., n-1 in increasing order. */
  function Range(n: nat): (r: seq<nat>)
    ensures |r| == n
  {
    if n == 0 then [] else Range(n - 1) + [n - 1]
  }

  /** Every identifier below n occurs exactly once in Range(n), and no other value occurs. */
  lemma {:induction false} RangeCount(n: nat, x: nat)
    ensures multiset(Range(n))[x] == if x < n then 1 else 0
  {
    if n > 0 {
      var top: nat := n - 1;
      RangeCount(top, x);
      assert multiset(Range(n))[x] == multiset(Range(top))[x] + (if x == top then 1 else 0) by {
        assert Range(n) == Range(top) + [top];
        assert multiset(Range(n)) == multiset(Range(top)) + multiset{top};
      }
    }
  }

  /** The members of Range(n) are exactly the identifiers below n. */
  lemma RangeMembers(n: nat, x: nat)
    ensures x in Range(n) <==> x < n
  {
    RangeCount(n, x);
  }
}
