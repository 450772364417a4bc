/**
 * The dedup planner `putAllEntriesInFolderOnChannel`: for each remote file
 * of one sub-directory it stats the local target path and either enqueues a
 * download intent, deletes a stale file and enqueues, or skips.
 *
 * The local filesystem is a map from path to size plus the set of paths whose
 * stat fails with an error other than "does not exist"; the download channel
 * is the sequence of intents sent on it.
 */
module Planner {
  import opened Entries
  import opened Paths
  import opened Selection
  import opened ByDate

  /** The three outcomes of `os.Stat`: missing, present with a size, or another error. */
  datatype StatResult = NotExist | Exists(size: nat) | Failed

  /** `os.Stat` on a filesystem state; an error other than "not exist" takes precedence. */
  function StatOf(files: map<string, nat>, failing: set<string>, path: string): StatResult
  {
    if path in failing then Failed
    else if path in files then Exists(files[path])
    else NotExist
  }

  /** The local filesystem, as far as the planner observes and changes it. */
  class LocalFileSystem {
    var files: map<string, nat>
    var failing: set<string>

    constructor (files: map<string, nat>, failing: set<string>)
      ensures this.files == files && this.failing == failing
    {
      this.files := files;
      this.failing := failing;
    }

    /** `os.Stat(path)`. */
    function Stat(path: string): (r: StatResult)
      reads this
      ensures r.Failed? <==> path in failing
      ensures r.NotExist? <==> path !in failing && path !in files
      ensures r.Exists? ==> path in files && r.size == files[path]
    {
      StatOf(files, failing, path)
    }

    /** `os.Remove(path)`, whose error is ignored: a missing path is left as is. */
    method Remove(path: string)
      modifies this
      ensures files == old(files) - {path}
      ensures failing == old(failing)
    {
      files := files - {path};
    }
  }

  /** The download channel: the intents sent on it, oldest first. */
  class DownloadChannel {
    var sent: seq<FetchIntent>

    constructor ()
      ensures sent == []
    {
      sent := [];
    }

    method Send(item: FetchIntent)
      modifies this
      ensures sent == old(sent) + [item]
    {
      sent := sent + [item];
    }
  }

  datatype Decision = Fetch | ReplaceAndFetch | Skip

  /**
   * The planner's choice for one entry, from the stat of its target path:
   * missing means fetch; present with a size other than the remote size
   * (converted with `int64(...)`) means delete and fetch; anything else skips.
   */
  function Decide(files: map<string, nat>, failing: set<string>, destinationFolder: string,
                  subDir: string, e: Entry): Decision
  {
    match StatOf(files, failing, FilePath(destinationFolder, e, subDir))
    case NotExist => Fetch
    case Exists(size) => if size != ToInt64(e.size) then ReplaceAndFetch else Skip
    case Failed => Skip
  }

  /** The local copy of `e` is present, readable and of the remote size. */
  predicate UpToDate(files: map<string, nat>, failing: set<string>, destinationFolder: string,
                     subDir: string, e: Entry)
  {
    var st := StatOf(files, failing, FilePath(destinationFolder, e, subDir));
    st.Exists? && st.size == ToInt64(e.size)
  }

  /** The planner state: the filesystem and the intents sent so far. */
  datatype PlanState = PlanState(files: map<string, nat>, intents: seq<FetchIntent>)

  /**
   * What the planner does with one entry, given the state left by the
   * entries before it. A stale file is deleted by `os.Remove(stat.Name())`:
   * the base name of the entry, not its target path.
   */
  function PlanStep(prev: PlanState, failing: set<string>, baseDir: string, subDir: string,
                    e: Entry, destinationFolder: string): PlanState
  {
    var intent := FetchIntent(baseDir, subDir, e, destinationFolder);
    match Decide(prev.files, failing, destinationFolder, subDir, e)
    case Fetch => PlanState(prev.files, prev.intents + [intent])
    case ReplaceAndFetch => PlanState(prev.files - {e.name}, prev.intents + [intent])
    case Skip => prev
  }

  /** What the planner does with `entries`, one after the other. */
  function Plan(files: map<string, nat>, failing: set<string>, baseDir: string, subDir: string,
                entries: seq<Entry>, destinationFolder: string): PlanState
    decreases |entries|
  {
    if entries == [] then PlanState(files, [])
    else
      PlanStep(Plan(files, failing, baseDir, subDir, entries[..|entries| - 1], destinationFolder),
               failing, baseDir, subDir, entries[|entries| - 1], destinationFolder)
  }

  /** Planning one more entry is one more step. */
  lemma PlanAppend(files: map<string, nat>, failing: set<string>, baseDir: string, subDir: string,
                   entries: seq<Entry>, e: Entry, destinationFolder: string)
    ensures Plan(files, failing, baseDir, subDir, entries + [e], destinationFolder)
            == PlanStep(Plan(files, failing, baseDir, subDir, entries, destinationFolder),
                        failing, baseDir, subDir, e, destinationFolder)
  {
    assert (entries + [e])[..|entries|] == entries;
  }

  /** A step sends the entry's intent unless the entry is skipped. */
  lemma StepIntents(prev: PlanState, failing: set<string>, baseDir: string, subDir: string,
                    e: Entry, destinationFolder: string)
    ensures PlanStep(prev, failing, baseDir, subDir, e, destinationFolder).intents
            == if Decide(prev.files, failing, destinationFolder, subDir, e) != Skip
               then prev.intents + [FetchIntent(baseDir, subDir, e, destinationFolder)]
               else prev.intents
  {
  }

  /**
   * The body of the planner's loop for one entry: stat the target, then
   * enqueue, delete the base name and enqueue, or skip.
   */
  method PlanEntry(channel: DownloadChannel, fs: LocalFileSystem, baseDir: string, subDir: string,
                   fileEntry: Entry, destinationFolder: string)
    modifies channel, fs
    ensures fs.failing == old(fs.failing)
    ensures var next := PlanStep(PlanState(old(fs.files), old(channel.sent)), fs.failing,
                                 baseDir, subDir, fileEntry, destinationFolder);
            fs.files == next.files && channel.sent == next.intents
  {
    var intent := FetchIntent(baseDir, subDir, fileEntry, destinationFolder);
    var stat := fs.Stat(FilePath(destinationFolder, fileEntry, subDir));
    if stat.NotExist? {
      channel.Send(intent);
    } else if stat.Exists? && stat.size != ToInt64(fileEntry.size) {
      fs.Remove(fileEntry.name);
      channel.Send(intent);
    }
  }

  /** A step only appends to the intents sent before it. */
  lemma PlanStepAppends(files: map<string, nat>, sent: seq<FetchIntent>, intents: seq<FetchIntent>,
                        failing: set<string>, baseDir: string, subDir: string, e: Entry,
                        destinationFolder: string)
    ensures var next := PlanStep(PlanState(files, intents), failing, baseDir, subDir, e, destinationFolder);
            PlanStep(PlanState(files, sent + intents), failing, baseDir, subDir, e, destinationFolder)
            == PlanState(next.files, sent + next.intents)
  {
    var intent := FetchIntent(baseDir, subDir, e, destinationFolder);
    assert sent + intents + [intent] == sent + (intents + [intent]);
  }

  /** `putAllEntriesInFolderOnChannel`. */
  method PutAllEntriesInFolderOnChannel(channel: DownloadChannel, fs: LocalFileSystem,
                                        baseDir: string, subDir: string, entries: seq<Entry>,
                                        destinationFolder: string)
    modifies channel, fs
    ensures fs.failing == old(fs.failing)
    ensures fs.files == Plan(old(fs.files), fs.failing, baseDir, subDir, entries, destinationFolder).files
    ensures channel.sent
            == old(channel.sent) + Plan(old(fs.files), fs.failing, baseDir, subDir, entries, destinationFolder).intents
  {
    ghost var files0, failing, sent0 := fs.files, fs.failing, channel.sent;
    ghost var state := PlanState(files0, []);
    for i := 0 to |entries|
      invariant state == Plan(files0, failing, baseDir, subDir, entries[..i], destinationFolder)
      invariant fs.failing == failing
      invariant fs.files == state.files && channel.sent == sent0 + state.intents
    {
      var fileEntry := entries[i];
      assert entries[..i + 1] == entries[..i] + [fileEntry];
      PlanAppend(files0, failing, baseDir, subDir, entries[..i], fileEntry, destinationFolder);
      PlanStepAppends(state.files, sent0, state.intents, failing, baseDir, subDir, fileEntry, destinationFolder);
      state := PlanStep(state, failing, baseDir, subDir, fileEntry, destinationFolder);
      PlanEntry(channel, fs, baseDir, subDir, fileEntry, destinationFolder);
    }
    assert entries[..|entries|] == entries;
  }

  // ---------------------------------------------------------------------
  // Properties of the plan
  // ---------------------------------------------------------------------

  /**
   * One entry: a missing target yields exactly one intent carrying the
   * arguments unchanged and leaves the filesystem alone; a target of another
   * size loses the entry's base name and yields one intent; a target of the
   * right size, or one whose stat fails otherwise, yields nothing and
   * changes nothing.
   */
  lemma PlanOneEntry(files: map<string, nat>, failing: set<string>, baseDir: string, subDir: string,
                     e: Entry, destinationFolder: string)
    ensures var p := Plan(files, failing, baseDir, subDir, [e], destinationFolder);
            var target := FilePath(destinationFolder, e, subDir);
            var intent := FetchIntent(baseDir, subDir, e, destinationFolder);
            && (target !in files && target !in failing ==> p == PlanState(files, [intent]))
            && ((target in files && target !in failing && files[target] != ToInt64(e.size))
                ==> p == PlanState(files - {e.name}, [intent]))
            && ((target in failing || (target in files && files[target] == ToInt64(e.size)))
                ==> p == PlanState(files, []))
  {
    assert [e][..0] == [];
  }

  /** Each entry turned into the intent the planner would send for it. */
  function IntentsFor(baseDir: string, subDir: string, destinationFolder: string, es: seq<Entry>)
    : (r: seq<FetchIntent>)
    ensures |r| == |es|
    ensures forall k :: 0 <= k < |es| ==> r[k] == FetchIntent(baseDir, subDir, es[k], destinationFolder)
  {
    seq(|es|, k requires 0 <= k < |es| => FetchIntent(baseDir, subDir, es[k], destinationFolder))
  }

  /**
   * For every input the intents follow the order of `entries`, one entry
   * at most per intent. Each intent carries the given base directory,
   * sub-directory and destination with its entry.
   */
  lemma {:induction false} PlanInOrder(files: map<string, nat>, failing: set<string>, baseDir: string,
                                       subDir: string, entries: seq<Entry>, destinationFolder: string)
    returns (idx: seq<int>)
    ensures SelectsAt(Plan(files, failing, baseDir, subDir, entries, destinationFolder).intents,
                      IntentsFor(baseDir, subDir, destinationFolder, entries), idx)
    decreases |entries|
  {
    if entries == [] {
      idx := [];
    } else {
      var front := entries[..|entries| - 1];
      var e := entries[|entries| - 1];
      var prev := Plan(files, failing, baseDir, subDir, front, destinationFolder);
      var idx' := PlanInOrder(files, failing, baseDir, subDir, front, destinationFolder);
      var intent := FetchIntent(baseDir, subDir, e, destinationFolder);
      var keep := Decide(prev.files, failing, destinationFolder, subDir, e) != Skip;
      assert entries == front + [e];
      PlanAppend(files, failing, baseDir, subDir, front, e, destinationFolder);
      StepIntents(prev, failing, baseDir, subDir, e, destinationFolder);
      IntentsForAppend(baseDir, subDir, destinationFolder, front, e);
      SelectsExtend(prev.intents, IntentsFor(baseDir, subDir, destinationFolder, front), idx', intent, keep);
      idx := if keep then idx' + [|front|] else idx';
    }
  }

  /** For every input the planner sends at most one intent per entry. */
  lemma {:induction false} PlanAtMostOnePerEntry(files: map<string, nat>, failing: set<string>,
                                                 baseDir: string, subDir: string, entries: seq<Entry>, destinationFolder: string)
    ensures |Plan(files, failing, baseDir, subDir, entries, destinationFolder).intents| <= |entries|
  {
    var idx := PlanInOrder(files, failing, baseDir, subDir, entries, destinationFolder);
    SelectionShorter(idx, |entries|);
  }

  /** A strictly increasing sequence of positions below `n` has at most `n` elements. */
  lemma {:induction false} SelectionShorter(idx: seq<int>, n: int)
    requires 0 <= n
    requires forall k :: 0 <= k < |idx| ==> 0 <= idx[k] < n
    requires forall k, l :: 0 <= k < l < |idx| ==> idx[k] < idx[l]
    ensures |idx| <= n
    decreases |idx|
  {
    if |idx| > 0 {
      var last := idx[|idx| - 1];
      var front := idx[..|idx| - 1];
      assert forall k :: 0 <= k < |front| ==> front[k] == idx[k] < last;
      assert forall k, l :: 0 <= k < l < |front| ==> front[k] < front[l];
      SelectionShorter(front, last);
      assert |idx| == |front| + 1 <= last + 1 <= n;
    }
  }

  /**
   * Every intent carries the planner's own base directory, sub-directory
   * and destination, with one of the listed entries; so for a non-empty
   * sub-directory none is the "no intent" sentinel.
   */
  lemma {:induction false} PlanIntentsCarryArguments(files: map<string, nat>, failing: set<string>,
                                                     baseDir: string, subDir: string, entries: seq<Entry>, destinationFolder: string)
    ensures forall i :: i in Plan(files, failing, baseDir, subDir, entries, destinationFolder).intents
                        ==> && i.baseDir == baseDir && i.subDir == subDir
                            && i.destinationFolder == destinationFolder && i.entry in entries
                            && (subDir != "" ==> !IsEmpty(i))
  {
    var idx := PlanInOrder(files, failing, baseDir, subDir, entries, destinationFolder);
    var p := Plan(files, failing, baseDir, subDir, entries, destinationFolder);
    forall i | i in p.intents
      ensures i == FetchIntent(baseDir, subDir, i.entry, destinationFolder) && i.entry in entries
    {
      var k :| 0 <= k < |p.intents| && p.intents[k] == i;
      assert i == FetchIntent(baseDir, subDir, entries[idx[k]], destinationFolder);
    }
  }

  /**
   * With a newest-first listing, the intents are sent newest first: an
   * intent for a later file never follows one for an earlier file.
   */
  lemma PlanNewestFirst(files: map<string, nat>, failing: set<string>, baseDir: string,
                        subDir: string, entries: seq<Entry>, destinationFolder: string)
    requires NewestFirst(entries)
    ensures var intents := Plan(files, failing, baseDir, subDir, entries, destinationFolder).intents;
            forall p, q :: 0 <= p < q < |intents| ==> !After(intents[q].entry.time, intents[p].entry.time)
  {
    var idx := PlanInOrder(files, failing, baseDir, subDir, entries, destinationFolder);
    var intents := Plan(files, failing, baseDir, subDir, entries, destinationFolder).intents;
    forall p, q | 0 <= p < q < |intents|
      ensures !After(intents[q].entry.time, intents[p].entry.time)
    {
      assert intents[p].entry == entries[idx[p]] && intents[q].entry == entries[idx[q]];
    }
  }

  /**
   * For every input the planner only deletes: it never adds a path or changes
   * a size, and every path it deletes is the base name of one of the entries.
   */
  lemma {:induction false} PlanOnlyDeletesBaseNames(files: map<string, nat>, failing: set<string>,
                                                    baseDir: string, subDir: string, entries: seq<Entry>,
                                                    destinationFolder: string)
    ensures var after := Plan(files, failing, baseDir, subDir, entries, destinationFolder).files;
            && after.Keys <= files.Keys
            && (forall path :: path in after ==> after[path] == files[path])
            && (forall path :: path in files && path !in after ==> exists e :: e in entries && e.name == path)
    decreases |entries|
  {
    if entries != [] {
      var front := entries[..|entries| - 1];
      var e := entries[|entries| - 1];
      PlanOnlyDeletesBaseNames(files, failing, baseDir, subDir, front, destinationFolder);
      var prev := Plan(files, failing, baseDir, subDir, front, destinationFolder);
      var after := Plan(files, failing, baseDir, subDir, entries, destinationFolder).files;
      assert after == prev.files || after == prev.files - {e.name};
      forall path | path in files && path !in after
        ensures exists x :: x in entries && x.name == path
      {
        if path in prev.files {
          assert path == e.name && e in entries;
        } else {
          var x :| x in front && x.name == path;
          assert x in entries;
        }
      }
    }
  }

  /**
   * Idempotence: when every entry's local copy is already present with the
   * remote size, nothing is sent and nothing is deleted.
   */
  lemma {:induction false} PlanOnCompleteMirror(files: map<string, nat>, failing: set<string>,
                                                baseDir: string, subDir: string, entries: seq<Entry>,
                                                destinationFolder: string)
    requires forall e :: e in entries ==> UpToDate(files, failing, destinationFolder, subDir, e)
    ensures Plan(files, failing, baseDir, subDir, entries, destinationFolder) == PlanState(files, [])
    decreases |entries|
  {
    if entries != [] {
      var front := entries[..|entries| - 1];
      var e := entries[|entries| - 1];
      assert forall x :: x in front ==> x in entries;
      PlanOnCompleteMirror(files, failing, baseDir, subDir, front, destinationFolder);
      assert UpToDate(files, failing, destinationFolder, subDir, e);
      assert Decide(files, failing, destinationFolder, subDir, e) == Skip;
    }
  }

  // ---------------------------------------------------------------------
  // The plan of a listing of base names
  // ---------------------------------------------------------------------

  /** Listed names are base names: none contains a slash. */
  ghost predicate BaseNames(entries: seq<Entry>)
  {
    forall e :: e in entries ==> '/' !in e.name
  }

  /** The entries that need fetching, judged against the filesystem before planning. */
  function Wanted(files: map<string, nat>, failing: set<string>, destinationFolder: string,
                  subDir: string, entries: seq<Entry>): seq<Entry>
    decreases |entries|
  {
    if entries == [] then []
    else
      var e := entries[|entries| - 1];
      Wanted(files, failing, destinationFolder, subDir, entries[..|entries| - 1])
      + (if Decide(files, failing, destinationFolder, subDir, e) != Skip then [e] else [])
  }

  /** Exactly the entries whose target is missing or of another size are wanted. */
  lemma {:induction false} WantedExact(files: map<string, nat>, failing: set<string>,
                                       destinationFolder: string, subDir: string, entries: seq<Entry>)
    ensures forall e :: e in Wanted(files, failing, destinationFolder, subDir, entries)
                        <==> e in entries && Decide(files, failing, destinationFolder, subDir, e) != Skip
    decreases |entries|
  {
    if entries != [] {
      var front := entries[..|entries| - 1];
      WantedExact(files, failing, destinationFolder, subDir, front);
      assert entries == front + [entries[|entries| - 1]];
    }
  }

  /** The base names of the entries whose target is of another size, judged before planning. */
  function StaleNames(files: map<string, nat>, failing: set<string>, destinationFolder: string,
                      subDir: string, entries: seq<Entry>): set<string>
    decreases |entries|
  {
    if entries == [] then {}
    else
      var e := entries[|entries| - 1];
      StaleNames(files, failing, destinationFolder, subDir, entries[..|entries| - 1])
      + (if Decide(files, failing, destinationFolder, subDir, e) == ReplaceAndFetch then {e.name} else {})
  }

  /** A stale name is the name of a listed entry whose target is of another size. */
  lemma {:induction false} StaleNamesExact(files: map<string, nat>, failing: set<string>,
                                           destinationFolder: string, subDir: string, entries: seq<Entry>)
    ensures forall x :: x in StaleNames(files, failing, destinationFolder, subDir, entries)
                        <==> exists e :: e in entries && e.name == x
                                         && Decide(files, failing, destinationFolder, subDir, e) == ReplaceAndFetch
    decreases |entries|
  {
    if entries != [] {
      var front := entries[..|entries| - 1];
      StaleNamesExact(files, failing, destinationFolder, subDir, front);
      assert entries == front + [entries[|entries| - 1]];
    }
  }

  /** A target path, which contains a slash, is never the base name of a listed entry. */
  lemma TargetNotStale(files: map<string, nat>, failing: set<string>, destinationFolder: string,
                       subDir: string, entries: seq<Entry>, x: Entry)
    requires BaseNames(entries)
    ensures FilePath(destinationFolder, x, subDir) !in StaleNames(files, failing, destinationFolder, subDir, entries)
  {
    var target := FilePath(destinationFolder, x, subDir);
    StaleNamesExact(files, failing, destinationFolder, subDir, entries);
    forall e | e in entries
      ensures e.name != target
    {
      assert '/' in target && '/' !in e.name;
    }
  }

  /** Removing paths other than an entry's target does not change the decision for it. */
  lemma DecideAfterRemoval(files: map<string, nat>, removed: set<string>, failing: set<string>,
                           destinationFolder: string, subDir: string, e: Entry)
    requires FilePath(destinationFolder, e, subDir) !in removed
    ensures Decide(files - removed, failing, destinationFolder, subDir, e)
            == Decide(files, failing, destinationFolder, subDir, e)
  {
    var target := FilePath(destinationFolder, e, subDir);
    assert StatOf(files - removed, failing, target) == StatOf(files, failing, target);
  }

  /** Removing a set of keys and then one more key removes their union. */
  lemma RemoveOneMore<K, V>(m: map<K, V>, removed: set<K>, x: K)
    ensures (m - removed) - {x} == m - (removed + {x})
  {
  }

  /**
   * When the listing holds base names, deleting them never touches a target
   * path, so each entry is judged against the filesystem as it was: the
   * planner deletes exactly the base names of the entries whose target is of
   * another size.
   */
  lemma {:induction false} PlanDeletesStaleNames(files: map<string, nat>, failing: set<string>,
                                                 baseDir: string, subDir: string, entries: seq<Entry>,
                                                 destinationFolder: string)
    requires BaseNames(entries)
    ensures Plan(files, failing, baseDir, subDir, entries, destinationFolder).files
            == files - StaleNames(files, failing, destinationFolder, subDir, entries)
    decreases |entries|
  {
    if entries != [] {
      var front := entries[..|entries| - 1];
      var e := entries[|entries| - 1];
      assert entries == front + [e];
      PlanDeletesStaleNames(files, failing, baseDir, subDir, front, destinationFolder);
      var removed := StaleNames(files, failing, destinationFolder, subDir, front);
      var prev := Plan(files, failing, baseDir, subDir, front, destinationFolder);
      var d := Decide(files, failing, destinationFolder, subDir, e);
      TargetNotStale(files, failing, destinationFolder, subDir, front, e);
      DecideAfterRemoval(files, removed, failing, destinationFolder, subDir, e);
      assert Plan(files, failing, baseDir, subDir, entries, destinationFolder)
             == PlanStep(prev, failing, baseDir, subDir, e, destinationFolder);
      if d == ReplaceAndFetch {
        RemoveOneMore(files, removed, e.name);
      }
    }
  }

  /**
   * When the listing holds base names, the planner sends one intent per entry
   * whose target is missing or of another size, in listing order.
   */
  lemma {:induction false} PlanSendsWanted(files: map<string, nat>, failing: set<string>, baseDir: string,
                                           subDir: string, entries: seq<Entry>, destinationFolder: string)
    requires BaseNames(entries)
    ensures Plan(files, failing, baseDir, subDir, entries, destinationFolder).intents
            == IntentsFor(baseDir, subDir, destinationFolder, Wanted(files, failing, destinationFolder, subDir, entries))
    decreases |entries|
  {
    if entries != [] {
      var front := entries[..|entries| - 1];
      var e := entries[|entries| - 1];
      assert entries == front + [e];
      PlanSendsWanted(files, failing, baseDir, subDir, front, destinationFolder);
      PlanDeletesStaleNames(files, failing, baseDir, subDir, front, destinationFolder);
      var prev := Plan(files, failing, baseDir, subDir, front, destinationFolder);
      TargetNotStale(files, failing, destinationFolder, subDir, front, e);
      DecideAfterRemoval(files, StaleNames(files, failing, destinationFolder, subDir, front),
                         failing, destinationFolder, subDir, e);
      assert Plan(files, failing, baseDir, subDir, entries, destinationFolder)
             == PlanStep(prev, failing, baseDir, subDir, e, destinationFolder);
      var w := Wanted(files, failing, destinationFolder, subDir, front);
      IntentsForAppend(baseDir, subDir, destinationFolder, w, e);
    }
  }

  /** The intents for one more entry are one more intent. */
  lemma IntentsForAppend(baseDir: string, subDir: string, destinationFolder: string, es: seq<Entry>, e: Entry)
    ensures IntentsFor(baseDir, subDir, destinationFolder, es + [e])
            == IntentsFor(baseDir, subDir, destinationFolder, es) + [FetchIntent(baseDir, subDir, e, destinationFolder)]
  {
  }

  // ---------------------------------------------------------------------
  // Re-planning after the downloads have completed
  // ---------------------------------------------------------------------

  /** The local path an intent is downloaded to. */
  function Target(i: FetchIntent): string
  {
    FilePath(i.destinationFolder, i.entry, i.subDir)
  }

  /** Applies the writes to `m` in order; a later write to a key wins. */
  function Overwrite<K, V>(m: map<K, V>, writes: seq<(K, V)>): map<K, V>
    decreases |writes|
  {
    if writes == [] then m
    else
      var last := writes[|writes| - 1];
      Overwrite(m, writes[..|writes| - 1])[last.0 := last.1]
  }

  /** A key that some writes target, all with one value, ends up with that value. */
  lemma {:induction false} OverwriteTargeted<K, V>(m: map<K, V>, writes: seq<(K, V)>, key: K, v: V)
    requires exists k :: 0 <= k < |writes| && writes[k].0 == key
    requires forall k :: 0 <= k < |writes| && writes[k].0 == key ==> writes[k].1 == v
    ensures key in Overwrite(m, writes) && Overwrite(m, writes)[key] == v
    decreases |writes|
  {
    var n := |writes|;
    var front := writes[..n - 1];
    if writes[n - 1].0 != key {
      var k :| 0 <= k < n && writes[k].0 == key;
      assert front[k] == writes[k];
      OverwriteTargeted(m, front, key, v);
    }
  }

  /** A key no write targets keeps what it had. */
  lemma {:induction false} OverwriteUntargeted<K, V>(m: map<K, V>, writes: seq<(K, V)>, key: K)
    requires forall k :: 0 <= k < |writes| ==> writes[k].0 != key
    ensures key in Overwrite(m, writes) <==> key in m
    ensures key in m ==> Overwrite(m, writes)[key] == m[key]
    decreases |writes|
  {
    if writes != [] {
      OverwriteUntargeted(m, writes[..|writes| - 1], key);
    }
  }

  /** What downloading the intents writes: each target path gets the remote size. */
  function Downloads(intents: seq<FetchIntent>): (w: seq<(string, nat)>)
    ensures |w| == |intents|
    ensures forall k :: 0 <= k < |intents| ==> w[k] == (Target(intents[k]), intents[k].entry.size)
  {
    seq(|intents|, k requires 0 <= k < |intents| => (Target(intents[k]), intents[k].entry.size as nat))
  }

  /** The filesystem once every intent has been downloaded successfully, in order. */
  function Fetched(files: map<string, nat>, intents: seq<FetchIntent>): map<string, nat>
  {
    Overwrite(files, Downloads(intents))
  }

  /** Names in the listing are distinct. */
  ghost predicate DistinctNames(entries: seq<Entry>)
  {
    forall p, q :: 0 <= p < q < |entries| ==> entries[p].name != entries[q].name
  }

  /** With distinct names, the only intent aimed at an entry's target is the one for that entry. */
  lemma OnlyIntentForTarget(baseDir: string, subDir: string, destinationFolder: string,
                            wanted: seq<Entry>, entries: seq<Entry>, e: Entry, k: int)
    requires DistinctNames(entries) && e in entries
    requires forall x :: x in wanted ==> x in entries
    requires 0 <= k < |wanted|
    requires Target(IntentsFor(baseDir, subDir, destinationFolder, wanted)[k]) == FilePath(destinationFolder, e, subDir)
    ensures wanted[k] == e
  {
    FilePathInjective(destinationFolder, subDir, wanted[k], e);
    assert wanted[k] in wanted;
    var a :| 0 <= a < |entries| && entries[a] == wanted[k];
    var b :| 0 <= b < |entries| && entries[b] == e;
    assert a == b;
  }

  /**
   * One entry of a listing of distinct base names is up to date once the
   * intents of a planning pass have been downloaded.
   */
  lemma EntryUpToDateAfterDrain(files: map<string, nat>, failing: set<string>, baseDir: string,
                                subDir: string, entries: seq<Entry>, destinationFolder: string, e: Entry)
    requires BaseNames(entries) && DistinctNames(entries) && e in entries
    requires FilePath(destinationFolder, e, subDir) !in failing && e.size < Int64Bound
    ensures var p := Plan(files, failing, baseDir, subDir, entries, destinationFolder);
            UpToDate(Fetched(p.files, p.intents), failing, destinationFolder, subDir, e)
  {
    if Decide(files, failing, destinationFolder, subDir, e) != Skip {
      WantedEntryFetched(files, failing, baseDir, subDir, entries, destinationFolder, e);
    } else {
      SkippedEntryKept(files, failing, baseDir, subDir, entries, destinationFolder, e);
    }
  }

  /** An entry that was fetched has its target written with the remote size. */
  lemma WantedEntryFetched(files: map<string, nat>, failing: set<string>, baseDir: string,
                           subDir: string, entries: seq<Entry>, destinationFolder: string, e: Entry)
    requires BaseNames(entries) && DistinctNames(entries) && e in entries
    requires Decide(files, failing, destinationFolder, subDir, e) != Skip
    ensures var p := Plan(files, failing, baseDir, subDir, entries, destinationFolder);
            var after := Fetched(p.files, p.intents);
            var target := FilePath(destinationFolder, e, subDir);
            target in after && after[target] == e.size
  {
    var p := Plan(files, failing, baseDir, subDir, entries, destinationFolder);
    var w := Wanted(files, failing, destinationFolder, subDir, entries);
    PlanSendsWanted(files, failing, baseDir, subDir, entries, destinationFolder);
    WantedExact(files, failing, destinationFolder, subDir, entries);
    var target := FilePath(destinationFolder, e, subDir);
    var writes := Downloads(p.intents);
    WritesToTarget(baseDir, subDir, destinationFolder, w, entries, e);
    var j :| 0 <= j < |w| && w[j] == e;
    assert writes[j].0 == target;
    OverwriteTargeted(p.files, writes, target, e.size as nat);
  }

  /** An entry that was skipped keeps its target, which no download touches. */
  lemma SkippedEntryKept(files: map<string, nat>, failing: set<string>, baseDir: string,
                         subDir: string, entries: seq<Entry>, destinationFolder: string, e: Entry)
    requires BaseNames(entries) && DistinctNames(entries) && e in entries
    requires Decide(files, failing, destinationFolder, subDir, e) == Skip
    ensures var p := Plan(files, failing, baseDir, subDir, entries, destinationFolder);
            var after := Fetched(p.files, p.intents);
            var target := FilePath(destinationFolder, e, subDir);
            (target in after <==> target in files) && (target in files ==> after[target] == files[target])
  {
    var p := Plan(files, failing, baseDir, subDir, entries, destinationFolder);
    var w := Wanted(files, failing, destinationFolder, subDir, entries);
    PlanDeletesStaleNames(files, failing, baseDir, subDir, entries, destinationFolder);
    PlanSendsWanted(files, failing, baseDir, subDir, entries, destinationFolder);
    WantedExact(files, failing, destinationFolder, subDir, entries);
    var target := FilePath(destinationFolder, e, subDir);
    var writes := Downloads(p.intents);
    WritesToTarget(baseDir, subDir, destinationFolder, w, entries, e);
    TargetNotStale(files, failing, destinationFolder, subDir, entries, e);
    forall k | 0 <= k < |writes|
      ensures writes[k].0 != target
    {
      assert w[k] in w;
    }
    OverwriteUntargeted(p.files, writes, target);
  }

  /** With distinct names, every download aimed at an entry's target writes that entry's size. */
  lemma WritesToTarget(baseDir: string, subDir: string, destinationFolder: string,
                       wanted: seq<Entry>, entries: seq<Entry>, e: Entry)
    requires DistinctNames(entries) && e in entries
    requires forall x :: x in wanted ==> x in entries
    ensures var writes := Downloads(IntentsFor(baseDir, subDir, destinationFolder, wanted));
            forall k :: 0 <= k < |writes| && writes[k].0 == FilePath(destinationFolder, e, subDir)
                        ==> wanted[k] == e && writes[k].1 == e.size
  {
    var writes := Downloads(IntentsFor(baseDir, subDir, destinationFolder, wanted));
    forall k | 0 <= k < |writes| && writes[k].0 == FilePath(destinationFolder, e, subDir)
      ensures wanted[k] == e && writes[k].1 == e.size
    {
      OnlyIntentForTarget(baseDir, subDir, destinationFolder, wanted, entries, e, k);
    }
  }

  /**
   * Once the intents of one planning pass have all been downloaded, every
   * entry of a listing of distinct base names is up to date, provided no
   * target path's stat fails and no remote size reads as negative in `int64`.
   */
  lemma DrainLeavesMirrorUpToDate(files: map<string, nat>, failing: set<string>, baseDir: string,
                                  subDir: string, entries: seq<Entry>, destinationFolder: string)
    requires BaseNames(entries) && DistinctNames(entries)
    requires forall e :: e in entries ==> FilePath(destinationFolder, e, subDir) !in failing
    requires forall e :: e in entries ==> e.size < Int64Bound
    ensures var p := Plan(files, failing, baseDir, subDir, entries, destinationFolder);
            forall e :: e in entries
                        ==> UpToDate(Fetched(p.files, p.intents), failing, destinationFolder, subDir, e)
  {
    forall e | e in entries
      ensures var p := Plan(files, failing, baseDir, subDir, entries, destinationFolder);
              UpToDate(Fetched(p.files, p.intents), failing, destinationFolder, subDir, e)
    {
      EntryUpToDateAfterDrain(files, failing, baseDir, subDir, entries, destinationFolder, e);
    }
  }

  /** When every entry is skipped, the planner changes nothing and sends nothing. */
  lemma {:induction false} PlanAllSkipped(files: map<string, nat>, failing: set<string>, baseDir: string,
                                          subDir: string, entries: seq<Entry>, destinationFolder: string)
    requires forall e :: e in entries ==> Decide(files, failing, destinationFolder, subDir, e) == Skip
    ensures Plan(files, failing, baseDir, subDir, entries, destinationFolder) == PlanState(files, [])
    decreases |entries|
  {
    if entries != [] {
      var front := entries[..|entries| - 1];
      assert forall x :: x in front ==> x in entries;
      PlanAllSkipped(files, failing, baseDir, subDir, front, destinationFolder);
      assert entries[|entries| - 1] in entries;
    }
  }

  /**
   * Running the planner again over the same listing once its downloads have
   * completed sends nothing and deletes nothing. A target whose stat fails
   * is skipped on both passes.
   */
  lemma ReplanAfterDrainIsIdle(files: map<string, nat>, failing: set<string>, baseDir: string,
                               subDir: string, entries: seq<Entry>, destinationFolder: string)
    requires BaseNames(entries) && DistinctNames(entries)
    requires forall e :: e in entries ==> e.size < Int64Bound
    ensures var p := Plan(files, failing, baseDir, subDir, entries, destinationFolder);
            var after := Fetched(p.files, p.intents);
            Plan(after, failing, baseDir, subDir, entries, destinationFolder) == PlanState(after, [])
  {
    var p := Plan(files, failing, baseDir, subDir, entries, destinationFolder);
    var after := Fetched(p.files, p.intents);
    forall e | e in entries
      ensures Decide(after, failing, destinationFolder, subDir, e) == Skip
    {
      if FilePath(destinationFolder, e, subDir) !in failing {
        EntryUpToDateAfterDrain(files, failing, baseDir, subDir, entries, destinationFolder, e);
      }
    }
    PlanAllSkipped(after, failing, baseDir, subDir, entries, destinationFolder);
  }

  // ---------------------------------------------------------------------
  // The deletion of the base name instead of the target path
  // ---------------------------------------------------------------------

  /**
   * As written, a stale target survives planning with its wrong size, while
   * a file named like the entry in the working directory is deleted.
   */
  lemma StaleTargetSurvives(files: map<string, nat>, failing: set<string>, baseDir: string,
                            subDir: string, entries: seq<Entry>, destinationFolder: string, e: Entry)
    requires BaseNames(entries) && e in entries
    requires Decide(files, failing, destinationFolder, subDir, e) == ReplaceAndFetch
    ensures var after := Plan(files, failing, baseDir, subDir, entries, destinationFolder).files;
            var target := FilePath(destinationFolder, e, subDir);
            && target in after && after[target] == files[target] && after[target] != ToInt64(e.size)
            && e.name !in after
  {
    PlanDeletesStaleNames(files, failing, baseDir, subDir, entries, destinationFolder);
    PlanSendsWanted(files, failing, baseDir, subDir, entries, destinationFolder);
    TargetNotStale(files, failing, destinationFolder, subDir, entries, e);
    StaleNamesExact(files, failing, destinationFolder, subDir, entries);
  }

  /** The planner as intended: a stale file is deleted at its target path. */
  function PlanIntended(files: map<string, nat>, failing: set<string>, baseDir: string, subDir: string,
                        entries: seq<Entry>, destinationFolder: string): PlanState
    decreases |entries|
  {
    if entries == [] then PlanState(files, [])
    else
      var prev := PlanIntended(files, failing, baseDir, subDir, entries[..|entries| - 1], destinationFolder);
      var e := entries[|entries| - 1];
      var intent := FetchIntent(baseDir, subDir, e, destinationFolder);
      match Decide(prev.files, failing, destinationFolder, subDir, e)
      case Fetch => PlanState(prev.files, prev.intents + [intent])
      case ReplaceAndFetch => PlanState(prev.files - {FilePath(destinationFolder, e, subDir)}, prev.intents + [intent])
      case Skip => prev
  }

  /**
   * For every input, the intended planner leaves no stale target behind,
   * and deletes nothing but target paths of the entries.
   */
  lemma {:induction false} IntendedLeavesNoStaleTarget(files: map<string, nat>, failing: set<string>,
                                                       baseDir: string, subDir: string, entries: seq<Entry>,
                                                       destinationFolder: string)
    ensures var after := PlanIntended(files, failing, baseDir, subDir, entries, destinationFolder).files;
            && (forall e :: e in entries ==> Decide(after, failing, destinationFolder, subDir, e) != ReplaceAndFetch)
            && after.Keys <= files.Keys
            && (forall path :: path in after ==> after[path] == files[path])
            && (forall path :: path in files && path !in after
                  ==> exists e :: e in entries && path == FilePath(destinationFolder, e, subDir))
    decreases |entries|
  {
    if entries != [] {
      var front := entries[..|entries| - 1];
      var e := entries[|entries| - 1];
      assert entries == front + [e];
      IntendedLeavesNoStaleTarget(files, failing, baseDir, subDir, front, destinationFolder);
      var prev := PlanIntended(files, failing, baseDir, subDir, front, destinationFolder).files;
      var target := FilePath(destinationFolder, e, subDir);
      var d := Decide(prev, failing, destinationFolder, subDir, e);
      var after := PlanIntended(files, failing, baseDir, subDir, entries, destinationFolder).files;
      assert after == if d == ReplaceAndFetch then prev - {target} else prev;
      forall x | x in entries
        ensures Decide(after, failing, destinationFolder, subDir, x) != ReplaceAndFetch
      {
        if d == ReplaceAndFetch {
          if x in front {
            RemovingTargetKeepsFresh(prev, failing, destinationFolder, subDir, target, x);
          } else {
            assert x == e;
          }
        }
      }
      forall path | path in files && path !in after
        ensures exists x :: x in entries && path == FilePath(destinationFolder, x, subDir)
      {
        if path in prev {
          assert path == target && e in entries;
        } else {
          var x :| x in front && path == FilePath(destinationFolder, x, subDir);
          assert x in entries;
        }
      }
    }
  }

  /** Deleting one path never makes an entry's target stale. */
  lemma RemovingTargetKeepsFresh(files: map<string, nat>, failing: set<string>, destinationFolder: string,
                                 subDir: string, path: string, x: Entry)
    requires Decide(files, failing, destinationFolder, subDir, x) != ReplaceAndFetch
    ensures Decide(files - {path}, failing, destinationFolder, subDir, x) != ReplaceAndFetch
  {
    if FilePath(destinationFolder, x, subDir) != path {
      DecideAfterRemoval(files, {path}, failing, destinationFolder, subDir, x);
    }
  }
}
