/** `mmm_forEachPair` and `withParent` from Sources/MMMCommonCore/CommonCore.swift. */
module CommonCore {
  import opened Wrappers

  /** Reference definition of the calls `mmm_forEachPair` makes: every element paired
      with its successor, from the front of the array. */
  function AdjacentPairs<T>(a: seq<T>): (r: seq<(T, T)>)
    ensures |r| == if |a| == 0 then 0 else |a| - 1
  {
    if |a| < 2 then [] else [(a[0], a[1])] + AdjacentPairs(a[1..])
  }

  /** There is one pair fewer than elements (none for an empty array), and pair `i`
      is `(a[i], a[i + 1])`. */
  lemma {:induction false} AdjacentPairsAt<T>(a: seq<T>)
    ensures |AdjacentPairs(a)| == if |a| == 0 then 0 else |a| - 1
    ensures forall i :: 0 <= i < |AdjacentPairs(a)| ==> AdjacentPairs(a)[i] == (a[i], a[i + 1])
    decreases |a|
  {
    if |a| >= 2 {
      AdjacentPairsAt(a[1..]);
      var ps := AdjacentPairs(a);
      forall i | 0 < i < |ps|
        ensures ps[i] == (a[i], a[i + 1])
      {
        assert ps[i] == AdjacentPairs(a[1..])[i - 1];
      }
    }
  }

  /** Consecutive calls overlap: the second element of one call is the first of the next. */
  lemma {:induction false} PairsChain<T>(a: seq<T>)
    ensures forall i :: 0 <= i < |AdjacentPairs(a)| - 1 ==>
      AdjacentPairs(a)[i].1 == AdjacentPairs(a)[i + 1].0
  {
    AdjacentPairsAt(a);
    var ps := AdjacentPairs(a);
    forall i | 0 <= i < |ps| - 1
      ensures ps[i].1 == ps[i + 1].0
    {
      assert ps[i] == (a[i], a[i + 1]) && ps[i + 1] == (a[i + 1], a[i + 2]);
    }
  }

  /** `mmm_forEachPair`: the block's invocations are recorded, in order, in `calls`.
      The early return keeps the range `0..<count - 1` from being formed on an empty
      array, and every index read stays below `|a|`. */
  method ForEachPair<T>(a: seq<T>) returns (calls: seq<(T, T)>)
    ensures |calls| == if |a| == 0 then 0 else |a| - 1
    ensures forall i :: 0 <= i < |calls| ==> calls[i] == (a[i], a[i + 1])
    ensures calls == AdjacentPairs(a)
  {
    AdjacentPairsAt(a);
    calls := [];
    if |a| == 0 {
      return;
    }
    for index := 0 to |a| - 1
      invariant |calls| == index
      invariant forall i :: 0 <= i < index ==> calls[i] == (a[i], a[i + 1])
    {
      calls := calls + [(a[index], a[index + 1])];
    }
    forall i | 0 <= i < |calls|
      ensures calls[i] == AdjacentPairs(a)[i]
    {
      assert AdjacentPairs(a)[i] == (a[i], a[i + 1]);
    }
  }

  /** `withParent`: calls the block on the unwrapped parent. A nil parent is a
      `preconditionFailure`, so callers must pass a present one. */
  function WithParent<P, R>(parent: Option<P>, block: P -> R): (r: R)
    requires parent.Some?
    ensures r == block(parent.value)
  {
    block(parent.value)
  }
}
