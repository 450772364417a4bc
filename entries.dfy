/**
 * Remote directory entries as an FTP listing reports them, and the download
 * intent that the planner puts on the download channel.
 */
module Entries {

  /** The range of Go's `uint64`, the type of an FTP entry's size. */
  const Uint64Bound: int := 0x1_0000_0000_0000_0000
  /** Values of Go's `int64` lie in `[-Int64Bound, Int64Bound)`. */
  const Int64Bound: int := 0x8000_0000_0000_0000

  type uint64 = x: int | 0 <= x < 0x1_0000_0000_0000_0000

  datatype Option<T> = None | Some(value: T)

  datatype EntryType = File | Folder | Link

  /**
   * One listed object: its base name, its kind, its size in bytes and its
   * modification time (an integer standing for `time.Time`).
   */
  datatype Entry = Entry(name: string, kind: EntryType, size: uint64, time: int)

  /**
   * Go's conversion `int64(u)` of an unsigned 64-bit value: the same bits
   * read as a two's complement number.
   */
  function ToInt64(u: uint64): (r: int)
    ensures -Int64Bound <= r < Int64Bound
    ensures (r - u) % Uint64Bound == 0
    ensures r == u <==> u < Int64Bound
  {
    if u < Int64Bound then u else u - Uint64Bound
  }

  /**
   * A download request: the remote directory `baseDir + "/" + subDir` holds
   * `entry`, and the local copy goes under `destinationFolder + "/" + subDir`.
   */
  datatype FetchIntent = FetchIntent(
    baseDir: string,
    subDir: string,
    entry: Entry,
    destinationFolder: string)

  /**
   * The zero intent is the "no intent" sentinel: all three path fields are
   * empty. The entry is not consulted, and an intent naming a sub-directory
   * with a slash in it is never the sentinel.
   */
  function IsEmpty(f: FetchIntent): (r: bool)
    ensures r <==> f == FetchIntent("", "", f.entry, "")
    ensures '/' in f.subDir ==> !r
  {
    f.subDir == "" && f.destinationFolder == "" && f.baseDir == ""
  }
}
