/** What several layers share: optional values, a fact about sequences, and induction along a run. */
module Common {

  datatype Option<T> = None | Some(value: T)

  ghost predicate Goes(p: nat -> bool, i: nat) {
    p(i) ==> p(i + 1)
  }

  /** What holds at first and is kept by every step up to n holds at n. */
  lemma {:induction false} Climb(p: nat -> bool, n: nat)
    requires p(0) && forall i: nat {:trigger Goes(p, i)} :: i < n ==> Goes(p, i)
    ensures p(n)
    decreases n
  {
    if n > 0 {
      Climb(p, n - 1);
      assert Goes(p, n - 1);
    }
  }

  lemma Regroup<T>(a: seq<T>, b: seq<T>, c: seq<T>)
    ensures a + (b + c) == (a + b) + c
  {
  }
}
