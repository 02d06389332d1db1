/**
 * The part of the host filesystem the runners look at: regular files with
 * their text, directories, and which paths carry the execute permission.
 * Paths are compared as written (Path.resolve is the identity here).
 */
module FileSystems {

  datatype Disk = Disk(files: map<string, string>, dirs: set<string>, executables: set<string>) {

    /** Path.exists. */
    predicate Exists(p: string) {
      p in files || p in dirs
    }

    /** Path.is_file. */
    predicate IsFile(p: string) {
      p in files
    }

    /** Path.is_dir. */
    predicate IsDir(p: string) {
      p in dirs
    }

    /** os.access(p, os.X_OK). */
    predicate IsExecutable(p: string) {
      p in executables
    }

    /** Opening `p` for writing and writing `text`: the file now holds exactly `text`; nothing else changes. */
    function Write(p: string, text: string): (d: Disk)
      ensures d.IsFile(p) && d.files[p] == text
      ensures forall q :: q != p ==> (q in d.files <==> q in files)
      ensures forall q :: q != p && q in files ==> d.files[q] == files[q]
      ensures d.dirs == dirs && d.executables == executables
    {
      Disk(files[p := text], dirs, executables)
    }

    /** Deleting the file `p`, if it is there; nothing else changes. */
    function Remove(p: string): (d: Disk)
      ensures !d.IsFile(p)
      ensures forall q :: q != p ==> (q in d.files <==> q in files)
      ensures forall q :: q != p && q in files ==> d.files[q] == files[q]
      ensures d.dirs == dirs && d.executables == executables
    {
      Disk(files - {p}, dirs, executables)
    }
  }

  /** Writing a path that was not a file and then removing it leaves the disk as it was. */
  lemma RemoveWrite(d: Disk, p: string, text: string)
    requires !d.IsFile(p)
    ensures d.Write(p, text).Remove(p) == d
  {
    assert d.Write(p, text).Remove(p).files == d.files;
  }

  /** The host filesystem, which the runners' pre and post steps change. */
  class FileSystem {
    var disk: Disk

    constructor (disk: Disk)
      ensures this.disk == disk
    {
      this.disk := disk;
    }
  }
}
