/** Sums of ranks and lengths of lists, for the arguments that something ends. */
module Ranks {
  function Total<T>(rank: T -> nat, items: seq<T>): nat {
    if items == [] then 0 else Total(rank, items[..|items| - 1]) + rank(items[|items| - 1])
  }

  lemma {:induction false} TotalUpdate<T>(rank: T -> nat, items: seq<T>, i: nat, z: T)
    requires i < |items|
    ensures Total(rank, items[i := z]) == Total(rank, items) - rank(items[i]) + rank(z)
  {
    var n := |items| - 1;
    if i == n {
      assert items[i := z][..n] == items[..n];
    } else {
      TotalUpdate(rank, items[..n], i, z);
      assert items[i := z][..n] == items[..n][i := z];
    }
  }

  /** Only the ranks matter. */
  lemma {:induction false} TotalIgnores<T>(rank: T -> nat, a: seq<T>, b: seq<T>)
    requires |a| == |b| && forall i :: 0 <= i < |a| ==> rank(a[i]) == rank(b[i])
    ensures Total(rank, a) == Total(rank, b)
  {
    if a != [] { TotalIgnores(rank, a[..|a| - 1], b[..|b| - 1]); }
  }

  lemma AMember(list: seq<nat>) returns (i: nat)
    requires list != []
    ensures i in list
  {
    i := list[0];
  }

  /** A list of different numbers below `n` has at most `n` entries. */
  lemma {:induction false} FewIndices(list: seq<nat>, n: nat)
    requires forall a, b :: 0 <= a < b < |list| ==> list[a] != list[b]
    requires forall i :: i in list ==> i < n
    ensures |list| <= n
    decreases n
  {
    if n > 0 && exists k :: 0 <= k < |list| && list[k] == n - 1 {
      var k :| 0 <= k < |list| && list[k] == n - 1;
      var rest := list[..k] + list[k + 1..];
      forall j | 0 <= j < |rest| ensures rest[j] != n - 1 && rest[j] in list {
        assert rest[j] == list[if j < k then j else j + 1];
      }
      FewIndices(rest, n - 1);
    } else if n > 0 {
      FewIndices(list, n - 1);
    } else if list != [] {
      var i := AMember(list);
    }
  }
}
