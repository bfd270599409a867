/** The world outside the scanner as far as artifacts go: the local disk as
    a map from regular-file paths to contents plus a set of directories,
    the object store as an oracle that says whether an upload of a given
    local file to a given remote name succeeds, and
    `delete_local_directory` (app/gcs_utils.py). */
module FileSystem {
  import opened Wrappers
  import opened Strings

  datatype Disk = Disk(files: map<string, string>, dirs: set<string>)

  /** The object store: `store(local, remote)` is what
      `upload_file_to_gcs(local, remote)` returns when `local` is a readable
      file (client, bucket and network all decided by the oracle). */
  type Store = (string, string) -> bool

  /** One attempted upload: where from, where to, the contents that left
      the machine (none when the file was missing) and the result. */
  datatype Attempt = Attempt(local: string, remote: string, sent: Option<string>, ok: bool)

  /** `upload_file_to_gcs`: a missing local file makes the upload raise
      inside the store client, which the adapter reports as `False`. */
  function Upload(disk: Disk, store: Store, local: string, remote: string): (a: Attempt)
    ensures a.local == local && a.remote == remote
    ensures a.ok ==> local in disk.files
    ensures a.sent.Some? <==> local in disk.files
    ensures a.sent.Some? ==> a.sent.value == disk.files[local]
  {
    if local in disk.files then Attempt(local, remote, Some(disk.files[local]), store(local, remote))
    else Attempt(local, remote, None, false)
  }

  function WriteFile(disk: Disk, path: string, contents: string): Disk
  {
    disk.(files := disk.files[path := contents])
  }

  function MakeDirs(disk: Disk, path: string): Disk
  {
    disk.(dirs := disk.dirs + {path})
  }

  /** `p` lies strictly inside directory `dir`. */
  predicate Within(p: string, dir: string)
  {
    StartsWith(p, dir + "/")
  }

  /** `delete_local_directory`: nothing happens when `dir` is not a
      directory; otherwise the directory and everything below it are gone
      and everything else is left as it was. */
  function DeleteLocalDirectory(disk: Disk, dir: string): (r: Disk)
    ensures dir !in disk.dirs ==> r == disk
    ensures dir in disk.dirs ==> dir !in r.dirs
    ensures dir in disk.dirs ==> forall p :: p in r.files ==> !Within(p, dir)
    ensures dir in disk.dirs ==> forall d :: d in r.dirs ==> !Within(d, dir)
    ensures forall p :: p in disk.files && (dir !in disk.dirs || !Within(p, dir)) ==>
      p in r.files && r.files[p] == disk.files[p]
    ensures forall d :: d in disk.dirs && d != dir && (dir !in disk.dirs || !Within(d, dir)) ==> d in r.dirs
    ensures r.files.Keys <= disk.files.Keys && r.dirs <= disk.dirs
  {
    if dir !in disk.dirs then disk
    else Disk(
      map p | p in disk.files && !Within(p, dir) :: disk.files[p],
      set d | d in disk.dirs && d != dir && !Within(d, dir))
  }

  /** Deleting a directory a second time changes nothing. */
  lemma DeleteLocalDirectoryIdempotent(disk: Disk, dir: string)
    ensures DeleteLocalDirectory(DeleteLocalDirectory(disk, dir), dir) == DeleteLocalDirectory(disk, dir)
  {
  }
}
