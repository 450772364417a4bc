/**
 * Local path construction (`fileFolder`, `filePath`) and the four forecast
 * cycle sub-partitions that the main loop visits inside each dated folder.
 */
module Paths {
  import opened Entries

  /** The sub-partitions of a dated folder, in the order they are listed. */
  const SubFolderNames: seq<string> := ["00", "06", "12", "18"]

  /** The local directory of a sub-directory: `folderName/subdir/`. */
  function FileFolder(folderName: string, subdir: string): (r: string)
    ensures |r| == |folderName| + |subdir| + 2
    ensures r[..|folderName|] == folderName && r[|folderName|] == '/'
    ensures r[|folderName| + 1..|r| - 1] == subdir && r[|r| - 1] == '/'
  {
    folderName + "/" + subdir + "/"
  }

  /**
   * The local target path of an entry: the folder of `subdir` under
   * `folderName`, followed by the entry's base name.
   */
  function FilePath(folderName: string, entry: Entry, subdir: string): (r: string)
    ensures r == FileFolder(folderName, subdir) + entry.name
    ensures r == folderName + "/" + subdir + "/" + entry.name
    ensures |r| == |folderName| + |subdir| + |entry.name| + 2
    ensures r[..|folderName|] == folderName
    ensures r[|r| - |entry.name|..] == entry.name
    ensures '/' in r
  {
    var folder := FileFolder(folderName, subdir);
    assert folder[|folderName|] == '/';
    assert (folder + entry.name)[|folderName|] == '/';
    folder + entry.name
  }

  /** Within one destination and sub-directory, distinct names give distinct paths. */
  lemma FilePathInjective(folderName: string, subdir: string, e1: Entry, e2: Entry)
    ensures FilePath(folderName, e1, subdir) == FilePath(folderName, e2, subdir)
            <==> e1.name == e2.name
  {
    var prefix := FileFolder(folderName, subdir);
    if FilePath(folderName, e1, subdir) == FilePath(folderName, e2, subdir) {
      assert e1.name == (prefix + e1.name)[|prefix|..];
      assert e2.name == (prefix + e2.name)[|prefix|..];
    }
  }

  /** The sub-directory of a dated folder for one sub-partition: `name/part`. */
  function PartitionDir(folderName: string, part: string): (r: string)
    ensures |r| == |folderName| + 1 + |part|
    ensures r[..|folderName|] == folderName && r[|folderName|] == '/'
    ensures r[|folderName| + 1..] == part
  {
    folderName + "/" + part
  }

  /** Every sub-directory the main loop builds contains a slash, so it is never empty. */
  lemma PartitionDirHasSlash(folderName: string, k: int)
    requires 0 <= k < |SubFolderNames|
    ensures '/' in PartitionDir(folderName, SubFolderNames[k])
    ensures PartitionDir(folderName, SubFolderNames[k]) != ""
  {
    assert PartitionDir(folderName, SubFolderNames[k])[|folderName|] == '/';
  }
}
