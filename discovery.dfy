/**
 * The scan in `main`: the whole base-directory listing is sorted newest
 * first; each dated folder's four sub-partitions are listed, filtered,
 * sorted and handed to the planner. Remote listings are a parameter:
 * `remoteListing(path)` is what listing `path` on the server returns, `None`
 * when connecting or listing fails.
 */
module Discovery {
  import opened Entries
  import opened Paths
  import opened ByDate
  import opened Relevance
  import opened Planner

  // ---------------------------------------------------------------------
  // Which sub-directories the scan visits
  // ---------------------------------------------------------------------

  /**
   * The four sub-partition directories of one dated folder, in the order
   * they are tried: each lies inside the folder and ends with its cycle, and
   * no two coincide, so no sub-partition is visited twice.
   */
  function Partitions(folderName: string): (r: seq<string>)
    ensures |r| == |SubFolderNames|
    ensures forall k :: 0 <= k < |r| ==> && |r[k]| == |folderName| + 1 + |SubFolderNames[k]|
                                         && r[k][..|folderName| + 1] == folderName + "/"
                                         && r[k][|folderName| + 1..] == SubFolderNames[k]
    ensures forall j, k :: 0 <= j < k < |r| ==> r[j] != r[k]
  {
    seq(|SubFolderNames|, k requires 0 <= k < |SubFolderNames| => PartitionDir(folderName, SubFolderNames[k]))
  }

  /**
   * The sub-directories the scan visits, in order: for each listed folder in
   * turn that is a dated folder, its four sub-partitions.
   */
  function ScanDirs(folders: seq<Entry>, dateMatch: string -> bool): seq<string>
    decreases |folders|
  {
    if folders == [] then []
    else
      var last := folders[|folders| - 1];
      ScanDirs(folders[..|folders| - 1], dateMatch)
      + (if FolderIsRelevant(last, dateMatch) then Partitions(last.name) else [])
  }

  /** Visiting one more folder of the listing visits its sub-partitions when it is a dated folder. */
  lemma ScanDirsStep(folders: seq<Entry>, dateMatch: string -> bool, n: nat)
    requires n < |folders|
    ensures ScanDirs(folders[..n + 1], dateMatch)
            == ScanDirs(folders[..n], dateMatch)
               + (if FolderIsRelevant(folders[n], dateMatch) then Partitions(folders[n].name) else [])
  {
    assert folders[..n + 1][..n] == folders[..n];
  }

  /** `subDir` is a sub-partition of a listed folder (not a file or link) whose name matches the date pattern. */
  ghost predicate RelevantDir(subDir: string, folders: seq<Entry>, dateMatch: string -> bool)
  {
    exists f, k :: f in folders && f.kind == Folder && dateMatch(f.name) && 0 <= k < |SubFolderNames|
                   && subDir == PartitionDir(f.name, SubFolderNames[k])
  }

  /** The scan visits exactly the sub-partitions of the dated folders. */
  lemma {:induction false} ScanDirsExact(folders: seq<Entry>, dateMatch: string -> bool)
    ensures forall d :: d in ScanDirs(folders, dateMatch) <==> RelevantDir(d, folders, dateMatch)
    decreases |folders|
  {
    if folders != [] {
      var front, last := folders[..|folders| - 1], folders[|folders| - 1];
      ScanDirsExact(front, dateMatch);
      assert folders == front + [last];
      forall d | RelevantDir(d, folders, dateMatch)
        ensures d in ScanDirs(folders, dateMatch)
      {
        var f, k :| f in folders && f.kind == Folder && dateMatch(f.name) && 0 <= k < |SubFolderNames|
                    && d == PartitionDir(f.name, SubFolderNames[k]);
        if f == last {
          assert Partitions(last.name)[k] == d;
        } else {
          assert f in front && RelevantDir(d, front, dateMatch);
        }
      }
      forall d | d in ScanDirs(folders, dateMatch)
        ensures RelevantDir(d, folders, dateMatch)
      {
        if d in ScanDirs(front, dateMatch) {
          var f, k :| f in front && f.kind == Folder && dateMatch(f.name) && 0 <= k < |SubFolderNames|
                      && d == PartitionDir(f.name, SubFolderNames[k]);
          assert f in folders;
        } else {
          var k :| 0 <= k < |SubFolderNames| && Partitions(last.name)[k] == d;
          assert last in folders;
        }
      }
    }
  }

  // ---------------------------------------------------------------------
  // What the scan does with the sub-directories it visits
  // ---------------------------------------------------------------------

  /**
   * `order` is an order the scan may plan `baseDir/subDir` in: when the
   * listing succeeds, a newest-first arrangement of its payload files.
   */
  ghost predicate ValidOrder(baseDir: string, subDir: string, order: seq<Entry>,
                             remoteListing: string -> Option<seq<Entry>>, productMatch: string -> bool)
  {
    remoteListing(baseDir + "/" + subDir).Some?
    ==> NewestFirst(order) && multiset(order) == multiset(Payloads(remoteListing(baseDir + "/" + subDir).value, productMatch))
  }

  /**
   * Planning one sub-directory in `order`, from filesystem `files`: the new
   * filesystem and the intents of this block. A failed listing plans nothing.
   */
  function PartitionStep(files: map<string, nat>, failing: set<string>, baseDir: string, subDir: string,
                         destinationFolder: string, remoteListing: string -> Option<seq<Entry>>,
                         order: seq<Entry>): PlanState
  {
    if remoteListing(baseDir + "/" + subDir).None? then PlanState(files, [])
    else Plan(files, failing, baseDir, subDir, order, destinationFolder)
  }

  /**
   * Planning one sub-directory took the filesystem from `files` to `after`
   * and sent `sent`: the listing's payload files were planned in some
   * newest-first order, or nothing happened when the listing failed.
   */
  ghost predicate PartitionPlanned(files: map<string, nat>, failing: set<string>, baseDir: string,
                                   subDir: string, destinationFolder: string,
                                   remoteListing: string -> Option<seq<Entry>>, productMatch: string -> bool,
                                   after: map<string, nat>, sent: seq<FetchIntent>)
  {
    exists order :: && ValidOrder(baseDir, subDir, order, remoteListing, productMatch)
                    && PartitionStep(files, failing, baseDir, subDir, destinationFolder, remoteListing, order)
                       == PlanState(after, sent)
  }

  /** The filesystem before block `j` of a scan that starts from `files`. */
  function FilesBefore(files: map<string, nat>, blocks: seq<PlanState>, j: nat): map<string, nat>
    requires j <= |blocks|
  {
    if j == 0 then files else blocks[j - 1].files
  }

  /** The filesystem after all blocks of a scan that starts from `files`. */
  function FilesAfter(files: map<string, nat>, blocks: seq<PlanState>): map<string, nat>
  {
    FilesBefore(files, blocks, |blocks|)
  }

  /** The intents of all blocks, block by block. */
  function SentBy(blocks: seq<PlanState>): seq<FetchIntent>
    decreases |blocks|
  {
    if blocks == [] then [] else SentBy(blocks[..|blocks| - 1]) + blocks[|blocks| - 1].intents
  }

  /**
   * Block `j` of a scan of `dirs` from filesystem `files` holds the
   * filesystem after planning `dirs[j]` and the intents sent for it: what
   * planning that sub-directory's payload files in some newest-first order
   * does to the filesystem left by block `j - 1`.
   */
  ghost predicate BlockPlanned(files: map<string, nat>, failing: set<string>, baseDir: string,
                               destinationFolder: string, dirs: seq<string>,
                               remoteListing: string -> Option<seq<Entry>>, productMatch: string -> bool,
                               blocks: seq<PlanState>, j: nat)
    requires j < |dirs| == |blocks|
  {
    PartitionPlanned(FilesBefore(files, blocks, j), failing, baseDir, dirs[j], destinationFolder,
                     remoteListing, productMatch, blocks[j].files, blocks[j].intents)
  }

  /** A scan of `dirs` from filesystem `files`, one planned block per sub-directory. */
  ghost predicate ScanChain(files: map<string, nat>, failing: set<string>, baseDir: string,
                            destinationFolder: string, dirs: seq<string>,
                            remoteListing: string -> Option<seq<Entry>>, productMatch: string -> bool,
                            blocks: seq<PlanState>)
  {
    && |blocks| == |dirs|
    && forall j: nat :: j < |dirs|
                        ==> BlockPlanned(files, failing, baseDir, destinationFolder, dirs, remoteListing,
                                         productMatch, blocks, j)
  }

  lemma SentByAppend(blocks: seq<PlanState>, b: PlanState)
    ensures SentBy(blocks + [b]) == SentBy(blocks) + b.intents
  {
    assert (blocks + [b])[..|blocks|] == blocks;
  }

  /** The intents of two scans one after the other are those of the first, then those of the second. */
  lemma {:induction false} SentByConcat(blocks1: seq<PlanState>, blocks2: seq<PlanState>)
    ensures SentBy(blocks1 + blocks2) == SentBy(blocks1) + SentBy(blocks2)
    decreases |blocks2|
  {
    if blocks2 == [] {
      assert blocks1 + blocks2 == blocks1;
    } else {
      var n := |blocks2| - 1;
      var front, last := blocks2[..n], blocks2[n];
      assert SentBy(blocks1 + front) == SentBy(blocks1) + SentBy(front) by {
        SentByConcat(blocks1, front);
      }
      assert SentBy(blocks1 + blocks2) == SentBy(blocks1 + front) + last.intents by {
        assert blocks1 + blocks2 == (blocks1 + front) + [last];
        SentByAppend(blocks1 + front, last);
      }
      assert SentBy(blocks2) == SentBy(front) + last.intents by {
        assert blocks2 == front + [last];
        SentByAppend(front, last);
      }
    }
  }

  /** Every intent of a scan was sent by one of its blocks. */
  lemma {:induction false} SentByMember(blocks: seq<PlanState>, i: FetchIntent)
    requires i in SentBy(blocks)
    ensures exists j :: 0 <= j < |blocks| && i in blocks[j].intents
    decreases |blocks|
  {
    var n := |blocks| - 1;
    if i !in blocks[n].intents {
      SentByMember(blocks[..n], i);
      var j :| 0 <= j < n && i in blocks[..n][j].intents;
      assert blocks[..n][j] == blocks[j];
    }
  }

  /** A scan followed by planning one more sub-directory is a scan of one more block. */
  lemma ChainAppend(files: map<string, nat>, failing: set<string>, baseDir: string, destinationFolder: string,
                    dirs: seq<string>, remoteListing: string -> Option<seq<Entry>>, productMatch: string -> bool,
                    blocks: seq<PlanState>, subDir: string, b: PlanState)
    requires ScanChain(files, failing, baseDir, destinationFolder, dirs, remoteListing, productMatch, blocks)
    requires PartitionPlanned(FilesAfter(files, blocks), failing, baseDir, subDir, destinationFolder,
                              remoteListing, productMatch, b.files, b.intents)
    ensures ScanChain(files, failing, baseDir, destinationFolder, dirs + [subDir], remoteListing, productMatch,
                      blocks + [b])
    ensures FilesAfter(files, blocks + [b]) == b.files
    ensures SentBy(blocks + [b]) == SentBy(blocks) + b.intents
  {
    var dirs', blocks' := dirs + [subDir], blocks + [b];
    forall j: nat | j < |dirs'|
      ensures BlockPlanned(files, failing, baseDir, destinationFolder, dirs', remoteListing, productMatch, blocks', j)
    {
      assert FilesBefore(files, blocks', j) == FilesBefore(files, blocks, j);
      if j < |dirs| {
        assert BlockPlanned(files, failing, baseDir, destinationFolder, dirs, remoteListing, productMatch, blocks, j);
        assert dirs'[j] == dirs[j] && blocks'[j] == blocks[j];
      }
    }
    SentByAppend(blocks, b);
  }

  /** A scan of `dirs1` followed by a scan of `dirs2` is a scan of `dirs1 + dirs2`. */
  lemma ChainConcat(files: map<string, nat>, failing: set<string>, baseDir: string, destinationFolder: string,
                    remoteListing: string -> Option<seq<Entry>>, productMatch: string -> bool,
                    dirs1: seq<string>, blocks1: seq<PlanState>, dirs2: seq<string>, blocks2: seq<PlanState>)
    requires ScanChain(files, failing, baseDir, destinationFolder, dirs1, remoteListing, productMatch, blocks1)
    requires ScanChain(FilesAfter(files, blocks1), failing, baseDir, destinationFolder, dirs2, remoteListing,
                       productMatch, blocks2)
    ensures ScanChain(files, failing, baseDir, destinationFolder, dirs1 + dirs2, remoteListing, productMatch,
                      blocks1 + blocks2)
    ensures FilesAfter(files, blocks1 + blocks2) == FilesAfter(FilesAfter(files, blocks1), blocks2)
    ensures SentBy(blocks1 + blocks2) == SentBy(blocks1) + SentBy(blocks2)
  {
    var dirs, blocks := dirs1 + dirs2, blocks1 + blocks2;
    forall j: nat | j < |dirs|
      ensures BlockPlanned(files, failing, baseDir, destinationFolder, dirs, remoteListing, productMatch, blocks, j)
    {
      if j < |dirs1| {
        assert BlockPlanned(files, failing, baseDir, destinationFolder, dirs1, remoteListing, productMatch,
                            blocks1, j);
        assert FilesBefore(files, blocks, j) == FilesBefore(files, blocks1, j);
        assert dirs[j] == dirs1[j] && blocks[j] == blocks1[j];
      } else {
        var k := j - |dirs1|;
        assert BlockPlanned(FilesAfter(files, blocks1), failing, baseDir, destinationFolder, dirs2, remoteListing,
                            productMatch, blocks2, k);
        assert FilesBefore(files, blocks, j) == FilesBefore(FilesAfter(files, blocks1), blocks2, k);
        assert dirs[j] == dirs2[k] && blocks[j] == blocks2[k];
      }
    }
    SentByConcat(blocks1, blocks2);
  }

  /**
   * An intent for sub-directory `subDir`: it names the configured base
   * directory and destination, and a payload file that listing
   * `baseDir/subDir` on the server reports.
   */
  ghost predicate ListedPayload(i: FetchIntent, baseDir: string, subDir: string, destinationFolder: string,
                                remoteListing: string -> Option<seq<Entry>>, productMatch: string -> bool)
  {
    && i.baseDir == baseDir
    && i.subDir == subDir
    && i.destinationFolder == destinationFolder
    && remoteListing(baseDir + "/" + subDir).Some?
    && i.entry in remoteListing(baseDir + "/" + subDir).value
    && IsPayload(i.entry, productMatch)
  }

  /** `name` is the name of a payload file that listing `baseDir/subDir` reports. */
  ghost predicate NameListed(name: string, baseDir: string, subDir: string,
                             remoteListing: string -> Option<seq<Entry>>, productMatch: string -> bool)
  {
    && remoteListing(baseDir + "/" + subDir).Some?
    && exists e :: e in remoteListing(baseDir + "/" + subDir).value && IsPayload(e, productMatch) && e.name == name
  }

  /** An entry of a planned order is a listed payload file. */
  lemma PlannedEntryListed(listing: seq<Entry>, productMatch: string -> bool, s: seq<Entry>, e: Entry)
    requires multiset(s) == multiset(Payloads(listing, productMatch)) && e in s
    ensures e in listing && IsPayload(e, productMatch)
  {
    PayloadsExact(listing, productMatch);
    assert e in multiset(s);
  }

  /** Each intent sent for a sub-directory is a payload file listed there. */
  lemma PartitionSendsListed(files: map<string, nat>, failing: set<string>, baseDir: string, subDir: string,
                             destinationFolder: string, remoteListing: string -> Option<seq<Entry>>,
                             productMatch: string -> bool, order: seq<Entry>)
    requires ValidOrder(baseDir, subDir, order, remoteListing, productMatch)
    ensures forall i :: i in PartitionStep(files, failing, baseDir, subDir, destinationFolder, remoteListing, order).intents
                        ==> ListedPayload(i, baseDir, subDir, destinationFolder, remoteListing, productMatch)
  {
    var listing := remoteListing(baseDir + "/" + subDir);
    if listing.Some? {
      PlanIntentsCarryArguments(files, failing, baseDir, subDir, order, destinationFolder);
      forall i | i in Plan(files, failing, baseDir, subDir, order, destinationFolder).intents
        ensures ListedPayload(i, baseDir, subDir, destinationFolder, remoteListing, productMatch)
      {
        PlannedEntryListed(listing.value, productMatch, order, i.entry);
      }
    }
  }

  /**
   * Planning one sub-directory adds no path and changes no size, and each
   * path it deletes is the name of a payload file listed there.
   */
  lemma PartitionShrinks(files: map<string, nat>, failing: set<string>, baseDir: string, subDir: string,
                         destinationFolder: string, remoteListing: string -> Option<seq<Entry>>,
                         productMatch: string -> bool, order: seq<Entry>)
    requires ValidOrder(baseDir, subDir, order, remoteListing, productMatch)
    ensures var after := PartitionStep(files, failing, baseDir, subDir, destinationFolder, remoteListing, order).files;
            && after.Keys <= files.Keys
            && (forall p :: p in after ==> after[p] == files[p])
            && (forall p :: p in files && p !in after ==> NameListed(p, baseDir, subDir, remoteListing, productMatch))
  {
    var listing := remoteListing(baseDir + "/" + subDir);
    if listing.Some? {
      var after := Plan(files, failing, baseDir, subDir, order, destinationFolder).files;
      PlanOnlyDeletesBaseNames(files, failing, baseDir, subDir, order, destinationFolder);
      forall p | p in files && p !in after
        ensures NameListed(p, baseDir, subDir, remoteListing, productMatch)
      {
        var e: Entry :| e in order && e.name == p;
        PlannedEntryListed(listing.value, productMatch, order, e);
      }
    }
  }

  /** Every intent of a scan is a payload file listed in one of the visited sub-directories. */
  lemma ScanSendsListed(files: map<string, nat>, failing: set<string>, baseDir: string,
                        destinationFolder: string, dirs: seq<string>,
                        remoteListing: string -> Option<seq<Entry>>, productMatch: string -> bool,
                        blocks: seq<PlanState>)
    requires ScanChain(files, failing, baseDir, destinationFolder, dirs, remoteListing, productMatch, blocks)
    ensures forall i :: i in SentBy(blocks)
                        ==> && i.subDir in dirs
                            && ListedPayload(i, baseDir, i.subDir, destinationFolder, remoteListing, productMatch)
  {
    forall i | i in SentBy(blocks)
      ensures i.subDir in dirs && ListedPayload(i, baseDir, i.subDir, destinationFolder, remoteListing, productMatch)
    {
      SentByMember(blocks, i);
      var j :| 0 <= j < |blocks| && i in blocks[j].intents;
      var before := FilesBefore(files, blocks, j);
      assert BlockPlanned(files, failing, baseDir, destinationFolder, dirs, remoteListing, productMatch, blocks, j);
      var order :| && ValidOrder(baseDir, dirs[j], order, remoteListing, productMatch)
                   && PartitionStep(before, failing, baseDir, dirs[j], destinationFolder, remoteListing, order)
                      == PlanState(blocks[j].files, blocks[j].intents);
      PartitionSendsListed(before, failing, baseDir, dirs[j], destinationFolder, remoteListing, productMatch, order);
    }
  }

  /**
   * The first `n` blocks of a scan add no path and change no size, and each
   * path they delete is the name of a payload file listed in one of the
   * first `n` sub-directories.
   */
  lemma {:induction false} ShrinksUpTo(files: map<string, nat>, failing: set<string>, baseDir: string,
                                       destinationFolder: string, dirs: seq<string>,
                                       remoteListing: string -> Option<seq<Entry>>, productMatch: string -> bool,
                                       blocks: seq<PlanState>, n: nat)
    requires ScanChain(files, failing, baseDir, destinationFolder, dirs, remoteListing, productMatch, blocks)
    requires n <= |blocks|
    ensures var now := FilesBefore(files, blocks, n);
            && now.Keys <= files.Keys
            && (forall p :: p in now ==> now[p] == files[p])
            && (forall p :: p in files && p !in now
                  ==> exists j :: 0 <= j < n && NameListed(p, baseDir, dirs[j], remoteListing, productMatch))
  {
    if n > 0 {
      var m := n - 1;
      ShrinksUpTo(files, failing, baseDir, destinationFolder, dirs, remoteListing, productMatch, blocks, m);
      var mid, now := FilesBefore(files, blocks, m), FilesBefore(files, blocks, n);
      assert BlockPlanned(files, failing, baseDir, destinationFolder, dirs, remoteListing, productMatch, blocks, m);
      var order :| && ValidOrder(baseDir, dirs[m], order, remoteListing, productMatch)
                   && PartitionStep(mid, failing, baseDir, dirs[m], destinationFolder, remoteListing, order)
                      == PlanState(blocks[m].files, blocks[m].intents);
      PartitionShrinks(mid, failing, baseDir, dirs[m], destinationFolder, remoteListing, productMatch, order);
      forall p | p in files && p !in now
        ensures exists j :: 0 <= j < n && NameListed(p, baseDir, dirs[j], remoteListing, productMatch)
      {
        if p in mid {
          assert NameListed(p, baseDir, dirs[m], remoteListing, productMatch);
        } else {
          var j :| 0 <= j < m && NameListed(p, baseDir, dirs[j], remoteListing, productMatch);
        }
      }
    }
  }

  /**
   * A scan adds no path and changes no size, and each path it deletes is the
   * name of a payload file listed in one of the visited sub-directories.
   */
  lemma ScanShrinks(files: map<string, nat>, failing: set<string>, baseDir: string,
                    destinationFolder: string, dirs: seq<string>,
                    remoteListing: string -> Option<seq<Entry>>, productMatch: string -> bool,
                    blocks: seq<PlanState>)
    requires ScanChain(files, failing, baseDir, destinationFolder, dirs, remoteListing, productMatch, blocks)
    ensures var after := FilesAfter(files, blocks);
            && after.Keys <= files.Keys
            && (forall p :: p in after ==> after[p] == files[p])
            && (forall p :: p in files && p !in after
                  ==> exists d :: d in dirs && NameListed(p, baseDir, d, remoteListing, productMatch))
  {
    ShrinksUpTo(files, failing, baseDir, destinationFolder, dirs, remoteListing, productMatch, blocks, |blocks|);
    var after := FilesAfter(files, blocks);
    forall p | p in files && p !in after
      ensures exists d :: d in dirs && NameListed(p, baseDir, d, remoteListing, productMatch)
    {
      var j :| 0 <= j < |blocks| && NameListed(p, baseDir, dirs[j], remoteListing, productMatch);
      assert dirs[j] in dirs;
    }
  }

  /** Every payload file listed in `baseDir/subDir` is already present with its remote size. */
  ghost predicate MirrorComplete(files: map<string, nat>, failing: set<string>, baseDir: string, subDir: string,
                                 destinationFolder: string, remoteListing: string -> Option<seq<Entry>>,
                                 productMatch: string -> bool)
  {
    remoteListing(baseDir + "/" + subDir).Some?
    ==> forall e :: e in remoteListing(baseDir + "/" + subDir).value && IsPayload(e, productMatch)
                    ==> UpToDate(files, failing, destinationFolder, subDir, e)
  }

  /** Planning an up-to-date sub-directory changes nothing and sends nothing. */
  lemma PartitionOnCompleteMirror(files: map<string, nat>, failing: set<string>, baseDir: string, subDir: string,
                                  destinationFolder: string, remoteListing: string -> Option<seq<Entry>>,
                                  productMatch: string -> bool, order: seq<Entry>)
    requires MirrorComplete(files, failing, baseDir, subDir, destinationFolder, remoteListing, productMatch)
    requires ValidOrder(baseDir, subDir, order, remoteListing, productMatch)
    ensures PartitionStep(files, failing, baseDir, subDir, destinationFolder, remoteListing, order)
            == PlanState(files, [])
  {
    var listing := remoteListing(baseDir + "/" + subDir);
    if listing.Some? {
      forall e | e in order
        ensures UpToDate(files, failing, destinationFolder, subDir, e)
      {
        PlannedEntryListed(listing.value, productMatch, order, e);
      }
      PlanOnCompleteMirror(files, failing, baseDir, subDir, order, destinationFolder);
    }
  }

  /** On a complete mirror, a block that starts from the unchanged filesystem changes nothing and sends nothing. */
  lemma BlockOnCompleteMirror(files: map<string, nat>, failing: set<string>, baseDir: string,
                              destinationFolder: string, dirs: seq<string>,
                              remoteListing: string -> Option<seq<Entry>>, productMatch: string -> bool,
                              blocks: seq<PlanState>, m: nat)
    requires m < |dirs| == |blocks|
    requires MirrorComplete(files, failing, baseDir, dirs[m], destinationFolder, remoteListing, productMatch)
    requires FilesBefore(files, blocks, m) == files
    requires BlockPlanned(files, failing, baseDir, destinationFolder, dirs, remoteListing, productMatch, blocks, m)
    ensures blocks[m] == PlanState(files, [])
  {
    var order :| && ValidOrder(baseDir, dirs[m], order, remoteListing, productMatch)
                 && PartitionStep(files, failing, baseDir, dirs[m], destinationFolder, remoteListing, order)
                    == PlanState(blocks[m].files, blocks[m].intents);
    PartitionOnCompleteMirror(files, failing, baseDir, dirs[m], destinationFolder, remoteListing, productMatch,
                              order);
  }

  /** On a complete mirror, the first `n` blocks of a scan leave the filesystem alone and send nothing. */
  lemma {:induction false} CompleteUpTo(files: map<string, nat>, failing: set<string>, baseDir: string,
                                        destinationFolder: string, dirs: seq<string>,
                                        remoteListing: string -> Option<seq<Entry>>, productMatch: string -> bool,
                                        blocks: seq<PlanState>, n: nat)
    requires forall j :: 0 <= j < |dirs|
                         ==> MirrorComplete(files, failing, baseDir, dirs[j], destinationFolder,
                                            remoteListing, productMatch)
    requires ScanChain(files, failing, baseDir, destinationFolder, dirs, remoteListing, productMatch, blocks)
    requires n <= |blocks|
    ensures FilesBefore(files, blocks, n) == files
    ensures forall j :: 0 <= j < n ==> blocks[j].intents == []
  {
    if n > 0 {
      var m := n - 1;
      CompleteUpTo(files, failing, baseDir, destinationFolder, dirs, remoteListing, productMatch, blocks, m);
      assert MirrorComplete(files, failing, baseDir, dirs[m], destinationFolder, remoteListing, productMatch);
      assert BlockPlanned(files, failing, baseDir, destinationFolder, dirs, remoteListing, productMatch, blocks, m);
      BlockOnCompleteMirror(files, failing, baseDir, destinationFolder, dirs, remoteListing, productMatch, blocks, m);
    }
  }

  /**
   * Idempotence of a whole scan: when every listed payload file of every
   * visited sub-directory is already mirrored, nothing is sent or deleted.
   */
  lemma ScanOnCompleteMirror(files: map<string, nat>, failing: set<string>, baseDir: string,
                             destinationFolder: string, dirs: seq<string>,
                             remoteListing: string -> Option<seq<Entry>>, productMatch: string -> bool,
                             blocks: seq<PlanState>)
    requires forall j :: 0 <= j < |dirs|
                         ==> MirrorComplete(files, failing, baseDir, dirs[j], destinationFolder,
                                            remoteListing, productMatch)
    requires ScanChain(files, failing, baseDir, destinationFolder, dirs, remoteListing, productMatch, blocks)
    ensures FilesAfter(files, blocks) == files
    ensures SentBy(blocks) == []
  {
    CompleteUpTo(files, failing, baseDir, destinationFolder, dirs, remoteListing, productMatch, blocks, |blocks|);
    if SentBy(blocks) != [] {
      SentByMember(blocks, SentBy(blocks)[0]);
    }
  }

  /**
   * An intent the scan may send: a listed payload file of a sub-partition of
   * a dated folder of the listing.
   */
  ghost predicate FromScan(i: FetchIntent, baseDir: string, destinationFolder: string, folders: seq<Entry>,
                           remoteListing: string -> Option<seq<Entry>>,
                           dateMatch: string -> bool, productMatch: string -> bool)
  {
    && RelevantDir(i.subDir, folders, dateMatch)
    && ListedPayload(i, baseDir, i.subDir, destinationFolder, remoteListing, productMatch)
  }

  /** No intent the scan sends is the "no intent" sentinel. */
  lemma ScanNeverSendsSentinel(i: FetchIntent, baseDir: string, destinationFolder: string, folders: seq<Entry>,
                               remoteListing: string -> Option<seq<Entry>>,
                               dateMatch: string -> bool, productMatch: string -> bool)
    requires FromScan(i, baseDir, destinationFolder, folders, remoteListing, dateMatch, productMatch)
    ensures !IsEmpty(i) && '/' in i.subDir
  {
    var f, k :| f in folders && f.kind == Folder && dateMatch(f.name) && 0 <= k < |SubFolderNames|
                && i.subDir == PartitionDir(f.name, SubFolderNames[k]);
    PartitionDirHasSlash(f.name, k);
  }

  /**
   * What a scan of the listing's dated folders sends and deletes: every
   * intent is a listed payload file of a sub-partition of a dated folder, no
   * path is added or resized, and every deleted path is the name of a
   * payload file listed in such a sub-partition.
   */
  lemma ScanProvenance(files: map<string, nat>, failing: set<string>, baseDir: string,
                       destinationFolder: string, folders: seq<Entry>,
                       remoteListing: string -> Option<seq<Entry>>,
                       dateMatch: string -> bool, productMatch: string -> bool, blocks: seq<PlanState>)
    requires ScanChain(files, failing, baseDir, destinationFolder, ScanDirs(folders, dateMatch), remoteListing,
                       productMatch, blocks)
    ensures forall i :: i in SentBy(blocks)
                        ==> FromScan(i, baseDir, destinationFolder, folders, remoteListing, dateMatch, productMatch)
    ensures var after := FilesAfter(files, blocks);
            && after.Keys <= files.Keys
            && (forall p :: p in after ==> after[p] == files[p])
            && (forall p :: p in files && p !in after
                  ==> exists d :: && RelevantDir(d, folders, dateMatch)
                                  && NameListed(p, baseDir, d, remoteListing, productMatch))
  {
    var dirs := ScanDirs(folders, dateMatch);
    ScanDirsExact(folders, dateMatch);
    ScanSendsListed(files, failing, baseDir, destinationFolder, dirs, remoteListing, productMatch, blocks);
    ScanShrinks(files, failing, baseDir, destinationFolder, dirs, remoteListing, productMatch, blocks);
    var after := FilesAfter(files, blocks);
    forall p | p in files && p !in after
      ensures exists d :: RelevantDir(d, folders, dateMatch) && NameListed(p, baseDir, d, remoteListing, productMatch)
    {
      var d :| d in dirs && NameListed(p, baseDir, d, remoteListing, productMatch);
    }
  }

  // ---------------------------------------------------------------------
  // The scan loop
  // ---------------------------------------------------------------------

  /**
   * One sub-partition of the main loop: list `baseDir/subDir`, keep the
   * payload files, sort them newest first and plan their downloads.
   */
  method ScanPartition(channel: DownloadChannel, fs: LocalFileSystem, baseDir: string, subDir: string,
                       destinationFolder: string, remoteListing: string -> Option<seq<Entry>>,
                       productMatch: string -> bool)
    modifies channel, fs
    ensures fs.failing == old(fs.failing)
    ensures old(channel.sent) <= channel.sent
    ensures PartitionPlanned(old(fs.files), fs.failing, baseDir, subDir, destinationFolder, remoteListing,
                             productMatch, fs.files, channel.sent[|old(channel.sent)|..])
  {
    var listing := remoteListing(baseDir + "/" + subDir);
    var gribFiles := ListFiles(listing, productMatch);
    if gribFiles.Some? {
      var files := new Entry[|gribFiles.value|](k requires 0 <= k < |gribFiles.value| => gribFiles.value[k]);
      assert files[..] == gribFiles.value;
      Sort(files);
      ghost var before, filesBefore := channel.sent, fs.files;
      PutAllEntriesInFolderOnChannel(channel, fs, baseDir, subDir, files[..], destinationFolder);
      assert channel.sent[|before|..]
             == Plan(filesBefore, fs.failing, baseDir, subDir, files[..], destinationFolder).intents;
      assert ValidOrder(baseDir, subDir, files[..], remoteListing, productMatch);
    } else {
      assert channel.sent[|channel.sent|..] == [];
      assert ValidOrder(baseDir, subDir, [], remoteListing, productMatch);
    }
  }

  /**
   * The inner loop of `main` for one dated folder: each of its four
   * sub-partitions in order, one block each.
   */
  method ScanFolder(channel: DownloadChannel, fs: LocalFileSystem, folderName: string,
                    baseDir: string, destinationFolder: string,
                    remoteListing: string -> Option<seq<Entry>>, productMatch: string -> bool)
    returns (ghost blocks: seq<PlanState>)
    modifies channel, fs
    ensures fs.failing == old(fs.failing)
    ensures old(channel.sent) <= channel.sent
    ensures ScanChain(old(fs.files), fs.failing, baseDir, destinationFolder, Partitions(folderName),
                      remoteListing, productMatch, blocks)
    ensures FilesAfter(old(fs.files), blocks) == fs.files
    ensures SentBy(blocks) == channel.sent[|old(channel.sent)|..]
  {
    ghost var parts := Partitions(folderName);
    ghost var files0, failing, sent0 := fs.files, fs.failing, channel.sent;
    blocks := [];
    for si := 0 to |SubFolderNames|
      invariant fs.failing == failing
      invariant sent0 <= channel.sent
      invariant ScanChain(files0, failing, baseDir, destinationFolder, parts[..si], remoteListing, productMatch,
                          blocks)
      invariant FilesAfter(files0, blocks) == fs.files
      invariant SentBy(blocks) == channel.sent[|sent0|..]
    {
      var subDir := PartitionDir(folderName, SubFolderNames[si]);
      ghost var before := channel.sent;
      ScanPartition(channel, fs, baseDir, subDir, destinationFolder, remoteListing, productMatch);
      ghost var b := PlanState(fs.files, channel.sent[|before|..]);
      ChainAppend(files0, failing, baseDir, destinationFolder, parts[..si], remoteListing, productMatch,
                  blocks, subDir, b);
      assert channel.sent[|sent0|..] == before[|sent0|..] + b.intents;
      assert parts[..si + 1] == parts[..si] + [subDir];
      blocks := blocks + [b];
    }
    assert parts[..|SubFolderNames|] == parts;
  }

  /**
   * One iteration of the loop of `main` over the listing: a dated folder has
   * its four sub-partitions scanned, any other entry is passed over.
   */
  method VisitFolder(channel: DownloadChannel, fs: LocalFileSystem, folder: Entry,
                     baseDir: string, destinationFolder: string,
                     remoteListing: string -> Option<seq<Entry>>,
                     dateMatch: string -> bool, productMatch: string -> bool)
    returns (ghost blocks: seq<PlanState>)
    modifies channel, fs
    ensures fs.failing == old(fs.failing)
    ensures old(channel.sent) <= channel.sent
    ensures ScanChain(old(fs.files), fs.failing, baseDir, destinationFolder,
                      if FolderIsRelevant(folder, dateMatch) then Partitions(folder.name) else [],
                      remoteListing, productMatch, blocks)
    ensures FilesAfter(old(fs.files), blocks) == fs.files
    ensures SentBy(blocks) == channel.sent[|old(channel.sent)|..]
  {
    if FolderIsRelevant(folder, dateMatch) {
      blocks := ScanFolder(channel, fs, folder.name, baseDir, destinationFolder, remoteListing, productMatch);
    } else {
      blocks := [];
      assert channel.sent[|channel.sent|..] == [];
    }
  }

  /**
   * The loop of `main` over the sorted base-directory listing: for every
   * dated folder in turn, its four sub-partitions. The new filesystem and
   * the intents sent are those of a scan of the visited sub-directories.
   */
  method VisitFolders(channel: DownloadChannel, fs: LocalFileSystem, folderList: array<Entry>,
                      baseDir: string, destinationFolder: string,
                      remoteListing: string -> Option<seq<Entry>>,
                      dateMatch: string -> bool, productMatch: string -> bool)
    returns (ghost blocks: seq<PlanState>)
    modifies channel, fs
    ensures fs.failing == old(fs.failing)
    ensures old(channel.sent) <= channel.sent
    ensures ScanChain(old(fs.files), fs.failing, baseDir, destinationFolder, ScanDirs(folderList[..], dateMatch),
                      remoteListing, productMatch, blocks)
    ensures FilesAfter(old(fs.files), blocks) == fs.files
    ensures SentBy(blocks) == channel.sent[|old(channel.sent)|..]
  {
    ghost var folders := folderList[..];
    ghost var files0, failing, sent0 := fs.files, fs.failing, channel.sent;
    blocks := [];
    for fi := 0 to folderList.Length
      invariant fs.failing == failing
      invariant sent0 <= channel.sent
      invariant ScanChain(files0, failing, baseDir, destinationFolder, ScanDirs(folders[..fi], dateMatch),
                          remoteListing, productMatch, blocks)
      invariant FilesAfter(files0, blocks) == fs.files
      invariant SentBy(blocks) == channel.sent[|sent0|..]
    {
      ghost var before, done := channel.sent, ScanDirs(folders[..fi], dateMatch);
      ghost var block := VisitFolder(channel, fs, folderList[fi], baseDir, destinationFolder, remoteListing,
                                     dateMatch, productMatch);
      ScanDirsStep(folders, dateMatch, fi);
      ChainConcat(files0, failing, baseDir, destinationFolder, remoteListing, productMatch, done, blocks,
                  if FolderIsRelevant(folders[fi], dateMatch) then Partitions(folders[fi].name) else [], block);
      assert channel.sent[|sent0|..] == before[|sent0|..] + channel.sent[|before|..];
      blocks := blocks + block;
    }
    assert folders[..folderList.Length] == folders;
  }

  /**
   * The scan of `main`: sorts the base-directory listing newest first, then
   * for every dated folder and each of its sub-partitions in order, lists
   * the payload files, sorts them and plans their downloads. A failed
   * listing skips that sub-partition only. The new filesystem and the
   * intents sent are those of a scan of the visited sub-directories, one
   * block per sub-directory, each planned in a newest-first order of its
   * payload files.
   */
  method ScanFolders(channel: DownloadChannel, fs: LocalFileSystem, folderList: array<Entry>,
                     baseDir: string, destinationFolder: string,
                     remoteListing: string -> Option<seq<Entry>>,
                     dateMatch: string -> bool, productMatch: string -> bool)
    modifies channel, fs, folderList
    ensures NewestFirst(folderList[..])
    ensures multiset(folderList[..]) == old(multiset(folderList[..]))
    ensures fs.failing == old(fs.failing)
    ensures old(channel.sent) <= channel.sent
    ensures exists blocks :: && ScanChain(old(fs.files), fs.failing, baseDir, destinationFolder,
                                          ScanDirs(folderList[..], dateMatch), remoteListing, productMatch, blocks)
                             && FilesAfter(old(fs.files), blocks) == fs.files
                             && SentBy(blocks) == channel.sent[|old(channel.sent)|..]
    ensures forall k :: |old(channel.sent)| <= k < |channel.sent|
                        ==> FromScan(channel.sent[k], baseDir, destinationFolder, folderList[..],
                                     remoteListing, dateMatch, productMatch)
    ensures fs.files.Keys <= old(fs.files).Keys
    ensures forall p :: p in fs.files ==> fs.files[p] == old(fs.files)[p]
    ensures forall p :: p in old(fs.files) && p !in fs.files
                        ==> exists d :: RelevantDir(d, folderList[..], dateMatch)
                                        && NameListed(p, baseDir, d, remoteListing, productMatch)
  {
    Sort(folderList);
    ghost var files0, sent0 := fs.files, channel.sent;
    ghost var blocks := VisitFolders(channel, fs, folderList, baseDir, destinationFolder, remoteListing,
                                     dateMatch, productMatch);
    ScanProvenance(files0, fs.failing, baseDir, destinationFolder, folderList[..], remoteListing, dateMatch,
                   productMatch, blocks);
    forall k | |sent0| <= k < |channel.sent|
      ensures FromScan(channel.sent[k], baseDir, destinationFolder, folderList[..],
                       remoteListing, dateMatch, productMatch)
    {
      assert channel.sent[k] == SentBy(blocks)[k - |sent0|];
    }
  }
}
