/** What the app reads from the filesystem: directories listed by `listFiles()`
    and the attributes of each `java.io.File` it looks at. */
module Files {
  import opened Wrappers

  /** One `java.io.File`: its absolute path, which identifies the file on
      disk, its name, `isFile`, `lastModified()`, `exists()`, `canRead()`
      and whether `delete()` succeeds on it while it is still there. */
  datatype FileEntry = FileEntry(
    path: string,
    name: string,
    isFile: bool,
    lastModified: int,
    present: bool,
    canRead: bool,
    deletable: bool)

  /** A directory the app scans. `Missing` covers a null `File`, one that does
      not exist, and `NotDirectory` one that is not a directory; `listing` is
      `None` when `listFiles()` returns null. */
  datatype Directory =
    | Missing
    | NotDirectory
    | Listed(listing: Option<seq<FileEntry>>)

  /** The entries of a directory the app walks; the others contribute nothing. */
  function EntriesOf(d: Directory): seq<FileEntry> {
    if d.Listed? && d.listing.Some? then d.listing.value else []
  }
}
