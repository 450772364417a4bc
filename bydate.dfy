/**
 * `ByDate`: the newest-first ordering of listed entries, and the in-place
 * sort that the main loop applies to folder and file listings.
 */
module ByDate {
  import opened Entries

  /** `time.Time.After`: strictly later. */
  predicate After(t: int, u: int)
  {
    t > u
  }

  function Len(a: array<Entry>): nat
  {
    a.Length
  }

  /** Entry `i` sorts before entry `j` when it is strictly newer. */
  function Less(a: array<Entry>, i: int, j: int): (r: bool)
    requires 0 <= i < Len(a) && 0 <= j < Len(a)
    reads a
    ensures i == j ==> !r
    ensures r ==> a[i].time != a[j].time
    ensures r ==> !After(a[j].time, a[i].time)
  {
    After(a[i].time, a[j].time)
  }

  /** Exchanges two entries of the slice in place. */
  method Swap(a: array<Entry>, i: int, j: int)
    requires 0 <= i < Len(a) && 0 <= j < Len(a)
    modifies a
    ensures a[..] == old(a[..])[i := old(a[j])][j := old(a[i])]
    ensures multiset(a[..]) == old(multiset(a[..]))
  {
    a[i], a[j] := a[j], a[i];
  }

  /**
   * What `sort.Sort` promises of `ByDate`: no later position holds an entry
   * that is `Less` than (newer than) an earlier one.
   */
  ghost predicate NewestFirst(s: seq<Entry>)
  {
    forall p, q :: 0 <= p < q < |s| ==> !After(s[q].time, s[p].time)
  }

  /**
   * `sort.Sort(ByDate(a))`: rearranges the slice, using only `Len`, `Less`
   * and `Swap`, into newest-first order.
   */
  method Sort(a: array<Entry>)
    modifies a
    ensures NewestFirst(a[..])
    ensures multiset(a[..]) == old(multiset(a[..]))
  {
    var n := Len(a);
    var i := 0;
    while i < n
      invariant 0 <= i <= n
      invariant NewestFirst(a[..i])
      invariant forall p, q :: 0 <= p < i <= q < n ==> !After(a[q].time, a[p].time)
      invariant multiset(a[..]) == old(multiset(a[..]))
    {
      var newest := i;
      var k := i + 1;
      while k < n
        invariant i <= newest < n && i < k <= n
        invariant forall q :: i <= q < k ==> !After(a[q].time, a[newest].time)
      {
        if Less(a, k, newest) {
          newest := k;
        }
        k := k + 1;
      }
      Swap(a, i, newest);
      i := i + 1;
    }
  }

  /** Newest-first arrangements of the same entries start with the same timestamp. */
  lemma HeadTimesAgree(s: seq<Entry>, t: seq<Entry>)
    requires NewestFirst(s) && NewestFirst(t)
    requires multiset(s) == multiset(t) && |s| > 0
    ensures |t| > 0 && s[0].time == t[0].time
  {
    assert s[0] in multiset(t);
    assert t[0] in multiset(s);
  }

  /**
   * Moving the entry at `p` to the front of a newest-first `t`, when it is as
   * new as the front, keeps the multiset and every position's timestamp.
   */
  lemma BringToFront(t: seq<Entry>, p: int) returns (t2: seq<Entry>)
    requires NewestFirst(t) && 0 <= p < |t| && t[p].time == t[0].time
    ensures |t2| == |t| && t2[0] == t[p]
    ensures multiset(t2) == multiset(t)
    ensures forall m :: 0 <= m < |t| ==> t2[m].time == t[m].time
    ensures NewestFirst(t2)
  {
    t2 := t[0 := t[p]][p := t[0]];
    assert forall m :: 0 <= m < |t| ==> t2[m].time == t[m].time;
    forall a, b | 0 <= a < b < |t2|
      ensures !After(t2[b].time, t2[a].time)
    {
      assert t2[a].time == t[a].time && t2[b].time == t[b].time;
    }
  }

  /** Dropping equal heads from equal multisets leaves equal multisets. */
  lemma TailsAgree(s: seq<Entry>, t: seq<Entry>)
    requires |s| > 0 && |t| > 0 && s[0] == t[0] && multiset(s) == multiset(t)
    ensures multiset(s[1..]) == multiset(t[1..])
  {
    assert s == [s[0]] + s[1..];
    assert t == [t[0]] + t[1..];
    assert multiset(s[1..]) == multiset(s) - multiset([s[0]]);
    assert multiset(t[1..]) == multiset(t) - multiset([t[0]]);
  }

  /**
   * The sort is not stable, yet its outcome is fixed up to entries that share
   * a timestamp: two newest-first arrangements of the same entries have the
   * same timestamp at every position.
   */
  lemma {:induction false} NewestFirstTimesUnique(s: seq<Entry>, t: seq<Entry>)
    requires NewestFirst(s) && NewestFirst(t)
    requires multiset(s) == multiset(t)
    ensures |s| == |t|
    ensures forall k :: 0 <= k < |s| ==> s[k].time == t[k].time
    decreases |s|
  {
    assert |s| == |multiset(s)| == |multiset(t)| == |t|;
    if |s| > 0 {
      HeadTimesAgree(s, t);
      assert s[0] in multiset(t);
      var p :| 0 <= p < |t| && t[p] == s[0];
      var t2 := BringToFront(t, p);
      TailsAgree(s, t2);
      var s', t2' := s[1..], t2[1..];
      assert NewestFirst(s') && NewestFirst(t2');
      NewestFirstTimesUnique(s', t2');
      forall k | 1 <= k < |s|
        ensures s[k].time == t[k].time
      {
        assert s[k] == s'[k - 1] && t2[k] == t2'[k - 1];
      }
    }
  }
}
