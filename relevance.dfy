/**
 * Relevance filters: which listed folders are dated forecast folders, and
 * which listed files are payload files worth fetching. The two regular
 * expressions are taken as predicates on names.
 */
module Relevance {
  import opened Entries
  import opened Selection

  /** Files whose name contains this marker are index side-cars and are never fetched. */
  const IndexMarker: string := "idx"

  /** `sub` occurs in `s` starting at position `i`. */
  predicate OccursAt(s: string, sub: string, i: int)
  {
    0 <= i && i + |sub| <= |s| && s[i..i + |sub|] == sub
  }

  /** Go's `strings.Contains`: `sub` occurs somewhere in `s` as one contiguous block. */
  function Contains(s: string, sub: string): (r: bool)
    ensures r <==> exists i :: OccursAt(s, sub, i)
    decreases |s|
  {
    if |s| < |sub| then
      assert forall i :: !OccursAt(s, sub, i);
      false
    else if s[..|sub|] == sub then
      assert OccursAt(s, sub, 0);
      true
    else
      ContainsShift(s, sub);
      Contains(s[1..], sub)
  }

  /** Past a non-matching first position, occurrences in `s` are those in `s[1..]`, shifted by one. */
  lemma ContainsShift(s: string, sub: string)
    requires |s| >= |sub| && s[..|sub|] != sub
    ensures (exists i :: OccursAt(s, sub, i)) <==> (exists j :: OccursAt(s[1..], sub, j))
  {
    if exists i :: OccursAt(s, sub, i) {
      var i :| OccursAt(s, sub, i);
      assert i != 0;
      assert s[1..][i - 1..i - 1 + |sub|] == s[i..i + |sub|];
      assert OccursAt(s[1..], sub, i - 1);
    }
    if exists j :: OccursAt(s[1..], sub, j) {
      var j :| OccursAt(s[1..], sub, j);
      assert s[1..][j..j + |sub|] == s[j + 1..j + 1 + |sub|];
      assert OccursAt(s, sub, j + 1);
    }
  }

  /** A string that lacks the first character of `sub` cannot contain `sub`. */
  lemma MissingFirstCharNotContained(s: string, sub: string)
    requires |sub| > 0 && sub[0] !in s
    ensures !Contains(s, sub)
  {
    forall i | 0 <= i && i + |sub| <= |s|
      ensures !OccursAt(s, sub, i)
    {
      assert s[i..i + |sub|][0] == s[i] != sub[0];
    }
  }

  /** `folderIsRelevant`: a folder whose name matches the date pattern. */
  function FolderIsRelevant(l: Entry, dateMatch: string -> bool): bool
  {
    l.kind == Folder && dateMatch(l.name)
  }

  /**
   * The condition of the `listFiles` filter loop: a plain file whose name
   * matches the product pattern and does not contain the index marker.
   */
  predicate IsPayload(e: Entry, productMatch: string -> bool)
  {
    e.kind == File && productMatch(e.name) && !Contains(e.name, IndexMarker)
  }

  /** The payload files of a listing, in listing order. */
  function Payloads(list: seq<Entry>, productMatch: string -> bool): seq<Entry>
    decreases |list|
  {
    if list == [] then []
    else
      var last := list[|list| - 1];
      Payloads(list[..|list| - 1], productMatch) + (if IsPayload(last, productMatch) then [last] else [])
  }

  /**
   * The filter is exact, counting duplicates: every payload file of the
   * listing is kept as often as it is listed, and nothing else is kept.
   */
  lemma {:induction false} PayloadsExact(list: seq<Entry>, productMatch: string -> bool)
    ensures forall e :: multiset(Payloads(list, productMatch))[e]
                        == if IsPayload(e, productMatch) then multiset(list)[e] else 0
    ensures forall e :: e in Payloads(list, productMatch) <==> e in list && IsPayload(e, productMatch)
    decreases |list|
  {
    if list != [] {
      var front, last := list[..|list| - 1], list[|list| - 1];
      PayloadsExact(front, productMatch);
      assert list == front + [last];
      assert multiset(list) == multiset(front) + multiset([last]);
    }
  }

  /** The filter keeps the listing's order: its output is a subsequence of the listing. */
  lemma {:induction false} PayloadsInOrder(list: seq<Entry>, productMatch: string -> bool)
    returns (idx: seq<int>)
    ensures SelectsAt(Payloads(list, productMatch), list, idx)
    ensures forall k :: 0 <= k < |idx| ==> IsPayload(list[idx[k]], productMatch)
    decreases |list|
  {
    if list == [] {
      idx := [];
    } else {
      var front, last := list[..|list| - 1], list[|list| - 1];
      var idx' := PayloadsInOrder(front, productMatch);
      assert list == front + [last];
      SelectsExtend(Payloads(front, productMatch), front, idx', last, IsPayload(last, productMatch));
      idx := if IsPayload(last, productMatch) then idx' + [|front|] else idx';
    }
  }

  /**
   * `listFiles` after the remote listing: a failed listing is passed on as
   * a failure; otherwise the loop appends, in order, each listed payload file.
   */
  method ListFiles(listing: Option<seq<Entry>>, productMatch: string -> bool)
    returns (relevant: Option<seq<Entry>>)
    ensures relevant.Some? <==> listing.Some?
    ensures listing.Some? ==> relevant.value == Payloads(listing.value, productMatch)
  {
    if listing.None? {
      return None;
    }
    var list := listing.value;
    var relevantList: seq<Entry> := [];
    for i := 0 to |list|
      invariant relevantList == Payloads(list[..i], productMatch)
    {
      var e := list[i];
      assert list[..i + 1][..i] == list[..i];
      if e.kind == File && productMatch(e.name) && !Contains(e.name, IndexMarker) {
        relevantList := relevantList + [e];
      }
    }
    assert list[..|list|] == list;
    return Some(relevantList);
  }

  /**
   * A dated folder holding a forecast file (such as
   * `gfs.t00z.pgrb2.1p00.f000`, which has no letter `i`), its index side-car
   * `<name>.idx` and an unrelated file: only the forecast file is kept. The
   * product pattern is unanchored, so it matches the side-car's name too; the
   * index marker is what drops it.
   */
  lemma SideCarScenario(productMatch: string -> bool, dataName: string, otherName: string,
                        sizes: (uint64, uint64, uint64), times: (int, int, int))
    requires 'i' !in dataName
    requires productMatch(dataName) && productMatch(dataName + ".idx") && !productMatch(otherName)
    ensures Payloads([Entry(dataName, File, sizes.0, times.0),
                      Entry(dataName + ".idx", File, sizes.1, times.1),
                      Entry(otherName, File, sizes.2, times.2)], productMatch)
            == [Entry(dataName, File, sizes.0, times.0)]
  {
    var data, index, other := Entry(dataName, File, sizes.0, times.0),
                              Entry(dataName + ".idx", File, sizes.1, times.1),
                              Entry(otherName, File, sizes.2, times.2);
    MissingFirstCharNotContained(data.name, IndexMarker);
    assert index.name[|dataName| + 1..|dataName| + 4] == IndexMarker;
    assert OccursAt(index.name, IndexMarker, |dataName| + 1);
    var list := [data, index, other];
    assert list[..2] == [data, index];
    assert [data, index][..1] == [data];
    assert [data][..0] == [];
    assert IsPayload(data, productMatch);
    assert !IsPayload(index, productMatch) && !IsPayload(other, productMatch);
    assert Payloads([data], productMatch) == [data];
    assert Payloads([data, index], productMatch) == [data];
  }
}
