/** What the reconstructor sees of the operating system: a snapshot of the
    file system, taken as an input instead of being queried. */
module Host {

  /** A byte of file content. */
  newtype uint8 = x: int | 0 <= x < 256

  /** The paths that currently name a directory, spelled as they would be
      passed to os.path.exists, and the regular files with their bytes. */
  datatype FileSystem = FileSystem(dirs: set<string>, files: map<string, seq<uint8>>)

  /** os.path.exists: the path names a directory or a file. The empty path
      never exists (Python reports False for it, as the operating system
      refuses to look it up). */
  predicate PathExists(fs: FileSystem, p: string)
    ensures p == "" ==> !PathExists(fs, p)
    ensures p != "" && p in fs.dirs ==> PathExists(fs, p)
  {
    p != "" && (p in fs.dirs || p in fs.files)
  }

  /** os.path.isfile: the path names a regular file. */
  predicate IsFile(fs: FileSystem, p: string)
    ensures IsFile(fs, p) ==> p in fs.files && PathExists(fs, p)
    ensures p == "" ==> !IsFile(fs, p)
  {
    p != "" && p in fs.files
  }
}
