/** The handler's upload directory: which paths exist and how many bytes each holds. */
module Storage {
  import opened Wrappers
  import opened Paths

  class FileSystem {
    /** The files that exist, each with its size in bytes. */
    var files: map<Path, nat>

    constructor (initial: map<Path, nat>)
      ensures files == initial
    {
      files := initial;
    }

    /** Whether a file is at the path. */
    predicate Exists(p: Path)
      reads this
    {
      p in files
    }

    /** Saving the upload: creates the file, or overwrites one already there. */
    method Save(p: Path, size: nat)
      modifies this
      ensures files == old(files)[p := size]
    {
      files := files[p := size];
    }

    /** `os.remove`; `removed` is false where Python raises `FileNotFoundError`,
        and then nothing changes. */
    method Remove(p: Path) returns (removed: bool)
      modifies this
      ensures removed == (p in old(files))
      ensures files == old(files) - {p}
    {
      removed := p in files;
      files := files - {p};
    }

    /** The size `stat` reports; `None` where Python raises `FileNotFoundError`. */
    method Stat(p: Path) returns (size: Option<nat>)
      ensures size.Some? <==> p in files
      ensures size.Some? ==> size.value == files[p]
    {
      size := if p in files then Some(files[p]) else None;
    }
  }
}
