/** What several modules share: options, powers of two and counts of sets. */
module Common {

  datatype Option<T> = None | Some(value: T)

  function Pow2(n: nat): (r: nat)
    ensures r >= 1
  {
    if n == 0 then 1 else 2 * Pow2(n - 1)
  }

  lemma {:induction false} Pow2Grows(a: nat, b: nat)
    requires a <= b
    ensures Pow2(a) <= Pow2(b)
    decreases b
  {
    if a < b { Pow2Grows(a, b - 1); }
  }

  lemma SubsetCard<T>(a: set<T>, b: set<T>)
    requires a <= b
    ensures |a| <= |b|
  {
    if a != b { assert |b - a| == |b| - |a|; }
  }

  function Members<T>(list: seq<T>): set<T> { set x | x in list }

  lemma {:induction false} DistinctCard<T>(list: seq<T>)
    requires forall i, j | 0 <= i < j < |list| :: list[i] != list[j]
    ensures |Members(list)| == |list|
  {
    if list == [] {
      assert Members(list) == {};
    } else {
      var front, last := list[..|list| - 1], list[|list| - 1];
      DistinctCard(front);
      assert list == front + [last];
      assert last !in front;
      assert Members(list) == Members(front) + {last};
    }
  }
}
