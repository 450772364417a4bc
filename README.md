# ftplistener planning core in Dafny

`ftplistener` mirrors GFS forecast files from an FTP server. It lists every
entry under a base directory and sorts the whole listing newest first. It
then walks that listing, passes over every entry that is not a dated
forecast folder, and for each dated folder visits the four cycle
sub-partitions (`00`, `06`, `12`, `18`). In each one it keeps the listed forecast files, sorts them newest
first, and plans their downloads against the local directory. That planning
is the part modelled here. For each remote file the planner stats the local
target `destination/subDir/name`. If the target is missing, it queues a
download. If it exists with a different size, it deletes a file and queues a
download. Otherwise it skips the file.

Modules:

- `Entries` (`entries.dfy`): the listed entry, the download intent, its "no intent" sentinel and Go's `int64(uint64)` conversion.
- `Paths` (`paths.dfy`): local target paths and the sub-partition directories.
- `ByDate` (`bydate.dfy`): the newest-first ordering and the in-place sort.
- `Relevance` (`relevance.dfy`): the folder and file filters. The two regular expressions are predicates on names.
- `Selection` (`selection.dfy`): order-preserving selection of a subsequence, used to state that filters and the planner keep listing order.
- `Planner` (`planner.dfy`): a class for the local filesystem and one for the download channel. The specification function `Plan` describes the planner. The method `PutAllEntriesInFolderOnChannel` is proved against `Plan`, and lemmas state what `Plan` does.
- `Discovery` (`discovery.dfy`): the scan loop of `main`. A scan is specified as a chain of blocks, one per visited sub-partition. Each block is what `Plan` does to the filesystem left by the block before it, for some newest-first arrangement of that sub-partition's payload files.

The local filesystem is a map from path to size, plus the set of paths whose
stat fails with an error other than "does not exist". The download channel is
the sequence of intents sent on it. Remote listings are a parameter that maps
a remote path to the listing, or to `None` when connecting or listing fails.
Timestamps are integers.

## Model

| member | source | states |
|---|---|---|
| Entries.ToInt64 | main.go:131 | `int64(size)` is the size read as a two's-complement 64-bit value: within the `int64` range, congruent to the size modulo 2^64, and equal to it exactly when the size is below 2^63 |
| Entries.IsEmpty | main.go:26-28 | an intent is the sentinel exactly when it is the zero intent apart from its entry, whatever the entry is; an intent whose sub-directory contains a slash is never the sentinel |
| Paths.FileFolder | main.go:196-198 | the local folder is `folderName`, a slash, `subdir`, a slash: its length, its prefix and where the slashes fall |
| Paths.FilePath | main.go:199-201 | the target path is the folder followed by the entry name, so it is `d + "/" + s + "/" + name`; it starts with the destination, ends with the name and contains a slash |
| Paths.FilePathInjective | main.go:196-201 | within one destination and sub-directory, two entries have the same target path exactly when they have the same name |
| Paths.PartitionDir | main.go:99 | the sub-partition directory is the folder name, a slash, then the cycle |
| Paths.PartitionDirHasSlash | main.go:98-99 | every sub-directory the scan builds, for each of the four cycles, contains a slash and so is non-empty |
| ByDate.Less | main.go:24 | `Less` is the strict "after" on timestamps: irreflexive, only true between different timestamps, and it never holds against the order |
| ByDate.Swap | main.go:23 | exchanges two positions of the slice in place and nothing else; the multiset of entries is kept |
| ByDate.Sort | main.go:63 | `sort.Sort(ByDate(a))` leaves the slice newest first (no entry is newer than one before it) and a permutation of its input |
| ByDate.NewestFirstTimesUnique | main.go:63 | two newest-first arrangements of the same entries have the same length and the same timestamp at every position, so the unstable sort's result is fixed up to ties |
| Relevance.Contains | main.go:221 | `strings.Contains(s, sub)` is true exactly when `sub` occurs in `s` at some position |
| Relevance.MissingFirstCharNotContained | main.go:221 | a name lacking the first character of the marker cannot contain it |
| Relevance.PayloadsExact | main.go:217-226 | the file filter is exact, duplicates included: each listed entry that is a file, matches the product pattern and has no `idx` in its name is kept as often as it is listed, and no other entry is kept |
| Relevance.PayloadsInOrder | main.go:217-226 | the filter's output is an order-preserving subsequence of the listing, every kept position holding a payload file |
| Relevance.ListFiles | main.go:203-228 | a failed listing is reported as a failure; a successful one yields exactly the filtered payload files, in listing order |
| Relevance.SideCarScenario | main.go:215-224 | of a forecast file, its `.idx` side-car and an unrelated file, only the forecast file is kept, although the unanchored pattern also matches the side-car |
| Planner.LocalFileSystem.Stat | main.go:122 | `os.Stat` reports another error for failing paths, "not exist" for absent ones, and otherwise the stored size |
| Planner.LocalFileSystem.Remove | main.go:133 | `os.Remove` deletes exactly the given key; a missing key is left as is and the error ignored |
| Planner.DownloadChannel.Send | main.go:125-130 | sending appends the intent to the channel's contents |
| Planner.PlanEntry | main.go:122-142 | one loop iteration changes the filesystem and the channel exactly as one step of `Plan` does |
| Planner.PutAllEntriesInFolderOnChannel | main.go:120-144 | the planner leaves the filesystem as `Plan` computes it and appends `Plan`'s intents to what was already on the channel; failing paths are untouched |
| Planner.PlanOneEntry | main.go:122-142 | missing target: exactly one intent with the arguments unchanged and no deletion; target of another size: the base name is deleted and one intent sent; matching size or another stat error: nothing sent, nothing deleted |
| Planner.PlanInOrder | main.go:121-143 | the intents are picked in order out of the entries' intents, each carrying the given base directory, sub-directory, destination and its own entry |
| Planner.PlanAtMostOnePerEntry | main.go:121-143 | there are never more intents than entries |
| Planner.PlanIntentsCarryArguments | main.go:125-139 | every intent carries the planner's base directory, sub-directory and destination with a listed entry, so with a non-empty sub-directory none is the sentinel |
| Planner.PlanNewestFirst | main.go:101-103 | with a newest-first listing the intents are sent newest first |
| Planner.PlanOnlyDeletesBaseNames | main.go:131-133 | the planner never adds a path or changes a size, and every path it deletes is the base name of a listed entry |
| Planner.PlanOnCompleteMirror | main.go:140-142 | when every entry's target is present with the remote size, nothing is sent and nothing is deleted |
| Planner.WantedExact | main.go:124-131 | an entry is wanted exactly when its target is missing or of another size |
| Planner.StaleNamesExact | main.go:131-133 | the stale names are exactly the names of entries whose target is of another size |
| Planner.PlanDeletesStaleNames | main.go:121-143 | for a listing of base names, the planner deletes exactly the stale names |
| Planner.PlanSendsWanted | main.go:121-143 | for a listing of base names, the planner sends one intent for each wanted entry, in listing order, and no other |
| Planner.EntryUpToDateAfterDrain | main.go:121-143 | for a listing of distinct base names, once the intents have been downloaded, a listed entry whose target stat does not fail and whose size fits `int64` is up to date |
| Planner.WantedEntryFetched | main.go:180-188 | for a listing of distinct base names, downloading the intents writes each wanted entry's target with its remote size |
| Planner.SkippedEntryKept | main.go:140-142 | for a listing of distinct base names, a skipped entry's target is not deleted and no download writes it |
| Planner.DrainLeavesMirrorUpToDate | main.go:121-143 | after one planning pass and its downloads, every listed entry is up to date |
| Planner.ReplanAfterDrainIsIdle | main.go:121-143 | for a listing of distinct base names whose sizes are below 2^63, planning it again after the downloads sends nothing and deletes nothing; a target whose stat fails is skipped on both passes |
| Planner.PlanAllSkipped | main.go:121-143 | when every entry is skipped, the planner sends nothing and leaves the filesystem unchanged |
| Planner.StaleTargetSurvives | main.go:131-133 | as written, a stale target keeps its wrong size through planning, while the path named like the entry is deleted |
| Planner.IntendedLeavesNoStaleTarget | main.go:131-139 | the corrected planner leaves no target of a listed entry stale, keeps every surviving size, and deletes only target paths of listed entries |
| Discovery.Partitions | main.go:98-99 | a dated folder has four sub-partition directories, one per cycle in the order `00`, `06`, `12`, `18`; each is the folder name and a slash followed by its cycle, and no two coincide, so no sub-partition is visited twice |
| Discovery.ScanDirsStep | main.go:95-99 | walking one more listed entry adds its four sub-partitions when it is a dated folder, and nothing otherwise |
| Discovery.ScanDirsExact | main.go:95-99 | the scan visits a sub-directory exactly when it is a sub-partition of a listed entry that is a folder (not a file or link) and whose name matches the date pattern, as `folderIsRelevant` at main.go:230-232 decides |
| Discovery.SentByConcat | main.go:95-112 | the intents of two scans run one after the other are the first scan's intents followed by the second's |
| Discovery.ChainConcat | main.go:95-112 | scanning one list of sub-directories and then another, each block starting where the previous one ended, is one scan of both lists |
| Discovery.PartitionSendsListed | main.go:100-103 | every intent sent for a sub-partition carries the base directory, that sub-directory and the destination, and names a payload file of that listing |
| Discovery.PartitionShrinks | main.go:100-103 | planning one sub-partition adds no path, keeps every surviving size, and deletes only names of payload files listed there |
| Discovery.PartitionOnCompleteMirror | main.go:100-103 | a sub-partition whose listed payload files are all mirrored with their remote sizes sends nothing and deletes nothing |
| Discovery.ScanSendsListed | main.go:95-112 | every intent of a scan belongs to a visited sub-directory and names a payload file listed there |
| Discovery.ScanShrinks | main.go:95-112 | a scan adds no path, keeps every surviving size, and deletes only names of payload files listed in the visited sub-directories |
| Discovery.ScanOnCompleteMirror | main.go:95-112 | when every visited sub-directory is fully mirrored, a scan leaves the filesystem unchanged and sends nothing |
| Discovery.ScanProvenance | main.go:95-112 | for a scan of the dated folders of a listing, every intent names a payload file listed in a sub-partition of a dated folder; no path is added or resized; every deleted path is the name of such a payload file |
| Discovery.ScanNeverSendsSentinel | main.go:98-103 | no intent the scan can send is the "no intent" sentinel: its sub-directory contains a slash |
| Discovery.ScanPartition | main.go:99-106 | for one sub-partition, a failed listing sends nothing and deletes nothing; a successful one changes the filesystem and sends exactly what `Plan` does for a newest-first arrangement of the listing's payload files |
| Discovery.ScanFolder | main.go:98-108 | the four sub-partitions are scanned in the order `00`, `06`, `12`, `18`, one block each, and the channel gains the blocks' intents in that order |
| Discovery.VisitFolder | main.go:96-111 | a dated folder has its four sub-partitions scanned; any other entry changes nothing and sends nothing |
| Discovery.VisitFolders | main.go:95-112 | the loop scans the sub-partitions of the dated folders in listing order; the filesystem ends as the scan leaves it and the channel gains the scan's intents in order |
| Discovery.ScanFolders | main.go:63-112 | the listing ends newest first and permuted; the filesystem and the new intents are exactly those of a scan of the dated folders' sub-partitions in order, each planned newest first; so every intent names a payload file listed in such a sub-partition, no path is added or resized, and every deleted path is the name of such a payload file |

## Left out

- FTP I/O is not modelled: `ftpConnect`, `List`, `ChangeDir`, `Retr` and `Logout`. A remote listing is a parameter, and `None` stands for a failed connection or listing.
- `downloadSingle` is not modelled as a procedure: no `os.MkdirAll`, `os.Create` or `io.Copy`. Only its effect on success is modelled, by `Planner.Fetched`: the target path holds the remote size.
- The dispatcher goroutine, the retry re-enqueue, the 16-slot download semaphore and the `sync.WaitGroup` are left out, because they coordinate concurrency. The deferred block of `downloadSingle` calls the completion callback on failure as well as on success. No property here depends on that.
- The NATS notifier `postToNatsFunc` is left out. It is external messaging that falls back to logging.
- The regular expression engine is left out. The date and product patterns are uninterpreted predicates. The real patterns are unanchored, which `Relevance.SideCarScenario` takes into account.
- Flag parsing, the credentials map, the start-up `panic`s and all logging are process setup and output only.
- `time.Time` is an integer timestamp.
- The channel's capacity of 1000 is dropped: the channel is an unbounded sequence and sending never blocks.
- The local filesystem stores sizes only. File contents and directories are not modelled.
- Listed entries are values, not shared `*ftp.Entry` references. No code here mutates an entry, so this is not observable.
- ByDate.Sort: the library's own algorithm behind `sort.Sort` is not reproduced. The model uses a selection sort that, like the library, works only through `Len`, `Less` and `Swap`. Its contract is the one `sort.Sort` promises: sorted and a permutation. The exact arrangement of entries with equal timestamps is not modelled.
- ByDate.Len: no contract beyond its body, the array length.
- Discovery.ScanFolders: `sort.Sort` is not stable, so the order of files with equal timestamps within a sub-partition is not fixed. The contract allows any newest-first arrangement of each sub-partition's payload files. Everything else about the sent intents and the filesystem is stated exactly.
- Planner.PlanStep deletes the key `e.name`, where the source deletes `stat.Name()`, the base name of the target path it stat'd. The two agree when the entry name is non-empty and contains no slash, which holds for the names in an FTP directory listing.
- Planner.PlanDeletesStaleNames, Planner.PlanSendsWanted and the drain lemmas assume that listed names contain no slash, as FTP listings report base names. Without that assumption a deleted base name could coincide with another entry's target. `Planner.PlanOnlyDeletesBaseNames` and `Planner.PlanInOrder` hold without it.
- Planner.EntryUpToDateAfterDrain, Planner.WantedEntryFetched and Planner.SkippedEntryKept assume distinct base names. With two listed entries of the same name, both downloads write the same target, and the later one decides its size.
- Planner.DrainLeavesMirrorUpToDate assumes distinct names, no failing target stats, and sizes below 2^63. A larger size converts to a negative `int64`, so no local file can ever match it.
- Planner.ReplanAfterDrainIsIdle assumes distinct base names and sizes below 2^63. With a size of 2^63 or more, the size read as `int64` is negative, so the downloaded target never matches it and is fetched again on every pass.

## Findings

| source | as written | input that shows it | evidently intended | confidence | as-written member | corrected member |
|---|---|---|---|---|---|---|
| main.go:133 | `os.Remove(stat.Name())` removes the base name of the stat'd file, a path relative to the working directory, not the stale target | destination `gribfiles`, sub-directory `gfs.20240101/00`, remote entry `gfs.t00z.pgrb2.1p00.f000` of size 20, local `gribfiles/gfs.20240101/00/gfs.t00z.pgrb2.1p00.f000` of size 10: the stale target stays, and a file `gfs.t00z.pgrb2.1p00.f000` in the working directory, if any, is deleted | remove the target path `filePath(destinationFolder, fileEntry, subDir)` | not executed | Planner.StaleTargetSurvives | Planner.IntendedLeavesNoStaleTarget |

`Planner.PutAllEntriesInFolderOnChannel` and `Planner.Plan` keep the
behaviour as written, deleting the base name. The corrected planner
`Planner.PlanIntended` deletes the target path instead; it sits beside them
and carries the proved property. In practice the later download re-creates
the target with `os.Create`, which truncates it, so the stale file is
replaced once its download succeeds.
