/** What every module may need. */
module Wrappers {
  datatype Option<+T> = None | Some(value: T)

  /** `at` lists, in order, exactly the positions below `n` at which `p` holds. */
  ghost predicate Picks(at: seq<nat>, n: nat, p: int -> bool) {
    && (forall k | 0 <= k < |at| :: at[k] < n && p(at[k]))
    && (forall j, k | 0 <= j < k < |at| :: at[j] < at[k])
    && (forall i | 0 <= i < n && p(i) :: i in at)
  }

  lemma PicksWithin(at: seq<nat>, n: nat, p: int -> bool)
    requires Picks(at, n, p)
    ensures forall k | 0 <= k < |at| :: at[k] < n
  {
  }

  lemma NoPicks(p: int -> bool)
    ensures Picks([], 0, p)
  {
  }

  /** One position further; only what holds below `n + 1` matters. */
  lemma PicksNext(at: seq<nat>, n: nat, p: int -> bool, q: int -> bool)
    requires Picks(at, n, p) && forall i | 0 <= i < n :: p(i) == q(i)
    ensures if q(n) then Picks(at + [n], n + 1, q) else Picks(at, n + 1, q)
  {
    if q(n) {
      var longer := at + [n];
      forall i | 0 <= i < n + 1 && q(i) ensures i in longer {
        assert i == n ==> longer[|at|] == i;
        assert i < n ==> i in at;
      }
    }
  }

  lemma Associates<T>(a: seq<T>, b: seq<T>, c: seq<T>)
    ensures a + b + c == a + (b + c)
  {
  }
}
