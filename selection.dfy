/**
 * Order-preserving selection: `t` is obtained from `s` by keeping some of its
 * positions, in their original order, each at most once.
 */
module Selection {

  /** The positions `idx` pick `t` out of `s`, strictly increasing. */
  ghost predicate SelectsAt<T>(t: seq<T>, s: seq<T>, idx: seq<int>)
  {
    && |idx| == |t|
    && (forall k :: 0 <= k < |idx| ==> 0 <= idx[k] < |s| && t[k] == s[idx[k]])
    && (forall k, l :: 0 <= k < l < |idx| ==> idx[k] < idx[l])
  }

  /** Extending `s` keeps a selection valid; selecting the new last element extends it. */
  lemma SelectsExtend<T>(t: seq<T>, s: seq<T>, idx: seq<int>, x: T, keep: bool)
    requires SelectsAt(t, s, idx)
    ensures keep ==> SelectsAt(t + [x], s + [x], idx + [|s|])
    ensures !keep ==> SelectsAt(t, s + [x], idx)
  {
  }
}
