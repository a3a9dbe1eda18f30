/** Vocabulary shared by every component of the operator. */
module Base {

  datatype Option<+T> = None | Some(value: T)

  /** The phases a run or a test result can be in. */
  datatype Phase = Pending | Running | Passed | Failed | Error | Skipped | Cancelled {

    /** A finished test result. A run never takes Skipped, so this also serves runs. */
    predicate Terminal() {
      Passed? || Failed? || Error? || Skipped? || Cancelled?
    }
  }

  function Max(a: int, b: int): (r: int)
    ensures r >= a && r >= b && (r == a || r == b)
  {
    if a >= b then a else b
  }

  /** A subset is no larger. */
  lemma {:induction false} SubsetSize<T>(a: set<T>, b: set<T>)
    requires a <= b
    ensures |a| <= |b|
  {
    assert b == a + (b - a);
  }
}
