/** A remote audio file, named by its URL (HData's `AudioResource`). */
module AudioResources {
  import opened UrlPaths

  datatype AudioResource = AudioResource(url: Url)
}

/**
 * HData's `CacheManager`: one flat cache directory holding one file per
 * remote URL, named by the URL's last path component.
 *
 * The file system is reduced to what sits at the cache directory's path:
 * the directory with its files, nothing, or a plain file. `FileManager`
 * calls that can fail say so through an `FsFaults` value, and the
 * transport's completion handler is an event method that receives what
 * `URLSession` would pass it.
 *
 * A last path component of "" or "/" appended to the cache directory
 * names the directory itself, and ".." names its parent, the documents
 * directory. A "." stays in the location as a component of its own: it
 * resolves to the directory when looked up, but removing or moving onto a
 * location whose last component is "." is refused (as `rmdir` and `rename`
 * refuse it). Lookups, requests and completions treat those names so.
 */
module Cache {
  import opened Wrappers
  import opened UrlPaths

  type Bytes = seq<bv8>

  /**
   * What is at the cache directory's path: whether the directory exists,
   * its files by name, and a plain file standing in its place, if any.
   */
  datatype CacheDir = CacheDir(present: bool, files: map<string, Bytes>, fileAtDirPath: Option<Bytes>)

  /** A directory that does not exist holds no files, and a plain file can only stand where it does not exist. */
  ghost predicate Consistent(d: CacheDir) {
    (!d.present ==> d.files == map[]) && (d.present ==> d.fileAtDirPath.None?)
  }

  /** A name that, appended to the cache directory, names that directory itself. */
  predicate NamesCacheDirectory(name: string) {
    name == "" || name == "/"
  }

  /** The name ".", which is kept in the location and resolves to the cache directory. */
  predicate IsDotComponent(name: string) {
    name == "."
  }

  /** A name that, appended to the cache directory, names the documents directory above it. */
  predicate NamesParent(name: string) {
    name == ".."
  }

  /** A name that denotes a file inside the cache directory. */
  predicate IsEntryName(name: string) {
    !NamesCacheDirectory(name) && !NamesParent(name) && !IsDotComponent(name)
  }

  /**
   * `fileManager.fileExists` for the cache directory joined with `name`.
   * The documents directory is always there; `Media/.` resolves only
   * through a directory, not through a plain file.
   */
  predicate FileExists(d: CacheDir, name: string) {
    if NamesParent(name) then true
    else if IsDotComponent(name) then d.present
    else if NamesCacheDirectory(name) then d.present || d.fileAtDirPath.Some?
    else d.present && name in d.files
  }

  /** Which of the file-system calls made while handling one event throw (or fail). */
  datatype FsFaults = FsFaults(createFails: bool, removeFails: bool, moveFails: bool)

  /**
   * What the transport passes to the completion handler: the downloaded
   * temp file (known by its content), an error, both or neither.
   */
  datatype Completion = Completion(tempFile: Option<Bytes>, error: Option<string>)

  /** A download started by `cache(remoteURL:)`, with the file name its handler will write. */
  datatype DownloadTask = DownloadTask(remote: Url, destination: string)

  /** `createCacheDirectory`: creates the directory when nothing is at its path. */
  function CreateIfMissing(d: CacheDir, createFails: bool): (r: CacheDir)
    ensures r.files == d.files && r.fileAtDirPath == d.fileAtDirPath
    ensures r.present <==> d.present || (d.fileAtDirPath.None? && !createFails)
    ensures Consistent(d) ==> Consistent(r)
  {
    if !d.present && d.fileAtDirPath.None? && !createFails then CacheDir(true, d.files, None) else d
  }

  /**
   * Whether `removeItem` at the cache directory joined with `name` throws:
   * by a fault, or always for a final "." or "..", which `rmdir` refuses.
   */
  predicate RemoveFails(name: string, f: FsFaults) {
    f.removeFails || IsDotComponent(name) || NamesParent(name)
  }

  /** `removeItem` at the cache directory joined with `name`, which exists and is neither "." nor "..". */
  function RemoveItem(d: CacheDir, name: string): CacheDir {
    if IsEntryName(name) then CacheDir(d.present, d.files - {name}, d.fileAtDirPath)
    else CacheDir(false, map[], None)
  }

  /**
   * `moveItem` of a download to the cache directory joined with `name`: it
   * fails when something is already there, the parent is no directory, or
   * the last component is ".". A move onto the documents directory's path
   * is not represented.
   */
  function MoveItem(d: CacheDir, name: string, content: Bytes): CacheDir {
    if IsEntryName(name) then
      (if d.present && name !in d.files then CacheDir(true, d.files[name := content], d.fileAtDirPath) else d)
    else if NamesCacheDirectory(name) then
      (if !d.present && d.fileAtDirPath.None? then CacheDir(false, d.files, Some(content)) else d)
    else d
  }

  /**
   * The completion handler of a download whose destination is `name`: give up
   * on an error or a missing temp file; otherwise re-create the directory,
   * remove what is at the destination, and move the temp file in. A failed
   * step ends the handler (the error is caught and dropped).
   */
  function Finish(d: CacheDir, name: string, c: Completion, f: FsFaults): (r: CacheDir)
    ensures (c.tempFile.None? || c.error.Some?) ==> r == d
    ensures Consistent(d) ==> Consistent(r)
  {
    if c.tempFile.None? || c.error.Some? then d
    else
      var created := CreateIfMissing(d, f.createFails);
      if FileExists(created, name) && RemoveFails(name, f) then created
      else
        var cleared := if FileExists(created, name) then RemoveItem(created, name) else created;
        if f.moveFails then cleared else MoveItem(cleared, name, c.tempFile.value)
  }

  /** Creating the directory twice is the same as once, and an existing directory is never touched. */
  lemma CreateIsIdempotent(d: CacheDir, createFails: bool, anyFails: bool)
    ensures CreateIfMissing(CreateIfMissing(d, createFails), createFails) == CreateIfMissing(d, createFails)
    ensures d.present ==> CreateIfMissing(d, anyFails) == d
  {
  }

  /**
   * A download whose file operations all succeed, for a file name inside an
   * unblocked directory, stores its content under that name, replacing any
   * earlier file there, and leaves every other file alone.
   */
  lemma SuccessfulDownloadStores(d: CacheDir, name: string, c: Completion, f: FsFaults)
    requires IsEntryName(name) && d.fileAtDirPath.None?
    requires c.tempFile.Some? && c.error.None?
    requires !f.createFails && !f.removeFails && !f.moveFails
    ensures Finish(d, name, c, f) == CacheDir(true, d.files[name := c.tempFile.value], None)
  {
    assert (d.files - {name})[name := c.tempFile.value] == d.files[name := c.tempFile.value];
  }

  /** While a plain file stands at the directory's path, no download can be stored under a file name. */
  lemma BlockedDirectoryStoresNothing(d: CacheDir, name: string, c: Completion, f: FsFaults)
    requires Consistent(d) && IsEntryName(name) && d.fileAtDirPath.Some?
    ensures Finish(d, name, c, f) == d
  {
  }

  /**
   * A download whose URL names the cache directory itself deletes the
   * directory with every cached file, and the download takes its place.
   * From then on no file name is found and the directory is never re-created.
   */
  lemma DownloadOntoDirectoryReplacesIt(d: CacheDir, name: string, c: Completion, f: FsFaults, other: string, anyFails: bool)
    requires Consistent(d) && NamesCacheDirectory(name) && IsEntryName(other)
    requires c.tempFile.Some? && c.error.None?
    requires !f.createFails && !f.removeFails && !f.moveFails
    ensures var e := Finish(d, name, c, f);
      e == CacheDir(false, map[], Some(c.tempFile.value)) &&
      !FileExists(e, other) && CreateIfMissing(e, anyFails) == e
  {
  }

  /**
   * A download whose URL ends in "." never lands: removing `Media/.` is
   * refused, and when nothing resolves there the move onto it is refused.
   * Only the re-creation of the directory takes effect.
   */
  lemma DotDownloadOnlyCreates(d: CacheDir, c: Completion, f: FsFaults)
    requires c.tempFile.Some? && c.error.None?
    ensures Finish(d, ".", c, f) == CreateIfMissing(d, f.createFails)
  {
  }

  /**
   * A completion for ".." changes nothing beyond re-creating a missing
   * directory: the documents directory always exists and removing it
   * through `Media/..` is refused. (`cache` never starts such a download.)
   */
  lemma ParentDownloadOnlyCreates(d: CacheDir, c: Completion, f: FsFaults)
    requires c.tempFile.Some? && c.error.None?
    ensures Finish(d, "..", c, f) == CreateIfMissing(d, f.createFails)
  {
  }

  /** When removing the item already at the destination fails, nothing is moved and no file changes. */
  lemma FailedRemovalKeepsOldFile(d: CacheDir, name: string, c: Completion, f: FsFaults)
    requires Consistent(d) && c.tempFile.Some? && c.error.None?
    requires FileExists(d, name) && f.removeFails
    ensures var e := Finish(d, name, c, f);
      e.files == d.files && e.fileAtDirPath == d.fileAtDirPath && (d.present ==> e == d)
  {
  }

  /**
   * When the old item was removed but the move then failed, the destination
   * is left empty: the earlier cached copy is lost and the new one is not
   * stored. This needs a removal that can succeed: not of "." (see
   * `DotDownloadOnlyCreates`) and not of "..", the documents directory,
   * which is always taken to exist.
   */
  lemma FailedMoveEmptiesSlot(d: CacheDir, name: string, c: Completion, f: FsFaults)
    requires !NamesParent(name) && !IsDotComponent(name)
    requires c.tempFile.Some? && c.error.None?
    requires !f.removeFails && f.moveFails
    ensures !FileExists(Finish(d, name, c, f), name)
  {
  }

  /**
   * Whatever happens, a completion for a file name touches no other file and
   * never removes an existing directory.
   */
  lemma FinishIsLocal(d: CacheDir, name: string, c: Completion, f: FsFaults, other: string)
    requires Consistent(d) && IsEntryName(name) && IsEntryName(other) && other != name
    ensures var e := Finish(d, name, c, f);
      (d.present ==> e.present) &&
      (FileExists(e, other) <==> FileExists(d, other)) &&
      (FileExists(d, other) ==> e.files[other] == d.files[other])
  {
  }

  /** Two successful downloads to the same file name: the later one wins. */
  lemma LastWriterWins(d: CacheDir, name: string, c1: Completion, c2: Completion, f: FsFaults)
    requires IsEntryName(name) && d.fileAtDirPath.None?
    requires c1.tempFile.Some? && c1.error.None? && c2.tempFile.Some? && c2.error.None?
    requires !f.createFails && !f.removeFails && !f.moveFails
    ensures var e := Finish(Finish(d, name, c1, f), name, c2, f);
      FileExists(e, name) && e.files[name] == c2.tempFile.value
  {
    SuccessfulDownloadStores(d, name, c1, f);
    SuccessfulDownloadStores(Finish(d, name, c1, f), name, c2, f);
  }

  /**
   * Caching one URL makes every URL with the same last path component hit:
   * after a successful download for `a`, a lookup for `b` finds a file.
   */
  lemma SharedFileNameAliases(d: CacheDir, a: Url, b: Url, c: Completion, f: FsFaults)
    requires Consistent(d) && d.fileAtDirPath.None?
    requires LastPathComponent(a) == LastPathComponent(b)
    requires c.tempFile.Some? && c.error.None?
    requires !f.createFails && !f.removeFails && !f.moveFails
    ensures FileExists(Finish(d, LastPathComponent(a), c, f), LastPathComponent(b))
  {
    if IsEntryName(LastPathComponent(a)) {
      SuccessfulDownloadStores(d, LastPathComponent(a), c, f);
    }
  }

  class CacheManager {
    const documentsDirectory: Path
    /** `Documents/Media`: where every cached file lives. */
    const cacheDirectory: Path
    var dirExists: bool
    var files: map<string, Bytes>
    /** A plain file standing at the cache directory's path, if any. */
    var fileAtDirPath: Option<Bytes>

    ghost predicate Valid()
      reads this
    {
      cacheDirectory == documentsDirectory + ["Media"] && Consistent(Disk())
    }

    function Disk(): CacheDir
      reads this
    {
      CacheDir(dirExists, files, fileAtDirPath)
    }

    /**
     * `cacheDirectory.appendingPathComponent(remoteURL.lastPathComponent)`, as
     * a location: one more component for a file name or ".", the directory
     * itself for "" and "/", and the documents directory for "..".
     */
    function LocalPath(remote: Url): (p: Path)
      requires Valid()
      reads this
      ensures var name := LastPathComponent(remote);
        IsEntryName(name) ==>
          |p| == |cacheDirectory| + 1 && p[..|cacheDirectory|] == cacheDirectory && p[|cacheDirectory|] == name
      ensures NamesCacheDirectory(LastPathComponent(remote)) ==> p == cacheDirectory
      ensures IsDotComponent(LastPathComponent(remote)) ==> p == cacheDirectory + ["."]
      ensures NamesParent(LastPathComponent(remote)) ==> p == documentsDirectory && p + ["Media"] == cacheDirectory
    {
      var name := LastPathComponent(remote);
      if IsEntryName(name) || IsDotComponent(name) then cacheDirectory + [name]
      else if NamesCacheDirectory(name) then cacheDirectory
      else documentsDirectory
    }

    /**
     * Builds the manager over the documents directory and whatever is already
     * on disk there from earlier runs, then creates the cache directory.
     */
    constructor (documents: Path, onDisk: CacheDir, createFails: bool)
      requires Consistent(onDisk)
      ensures Valid() && documentsDirectory == documents && cacheDirectory == documents + ["Media"]
      ensures Disk() == CreateIfMissing(onDisk, createFails)
    {
      documentsDirectory := documents;
      cacheDirectory := documents + ["Media"];
      dirExists, files, fileAtDirPath := onDisk.present, onDisk.files, onDisk.fileAtDirPath;
      new;
      CreateCacheDirectory(createFails);
    }

    /** Creates the directory only when nothing is at its path; a second call changes nothing. */
    method CreateCacheDirectory(createFails: bool)
      requires Valid()
      modifies this`dirExists
      ensures Valid()
      ensures Disk() == CreateIfMissing(old(Disk()), createFails)
      ensures old(dirExists) ==> dirExists
    {
      if !FileExists(Disk(), "") {
        if !createFails {
          dirExists := true;
        }
      }
    }

    /**
     * `getLocalURL(for:)`: the local path when something exists there, else
     * nothing; the store is not changed.
     */
    method GetLocalURL(remote: Url) returns (r: Option<Path>)
      requires Valid()
      ensures r.Some? <==> FileExists(Disk(), LastPathComponent(remote))
      ensures r.Some? ==> r.value == LocalPath(remote)
    {
      var fileName := LastPathComponent(remote);
      var localURL := LocalPath(remote);
      if FileExists(Disk(), fileName) {
        return Some(localURL);
      }
      return None;
    }

    /**
     * `cache(remoteURL:)`: nothing when something is already at the local
     * path; otherwise a new download of `remote` into its file name. It
     * checks only the file system, not whether a download for that name is
     * already running.
     */
    method Cache(remote: Url) returns (started: Option<DownloadTask>)
      requires Valid()
      ensures started.None? <==> FileExists(Disk(), LastPathComponent(remote))
      ensures NamesParent(LastPathComponent(remote)) ==> started.None?
      ensures started.Some? ==> started.value.remote == remote
      ensures started.Some? ==> started.value.destination == LastPathComponent(remote)
    {
      var fileName := LastPathComponent(remote);
      if FileExists(Disk(), fileName) {
        return None;
      }
      return Some(DownloadTask(remote, fileName));
    }

    /** The completion handler of `task`, run as one event. */
    method OnDownloadFinished(task: DownloadTask, c: Completion, faults: FsFaults)
      requires Valid()
      modifies this
      ensures Valid()
      ensures Disk() == Finish(old(Disk()), task.destination, c, faults)
    {
      if c.tempFile.None? || c.error.Some? {
        return;
      }
      CreateCacheDirectory(faults.createFails);
      var name := task.destination;
      if FileExists(Disk(), name) {
        if faults.removeFails || IsDotComponent(name) || NamesParent(name) {
          return;
        }
        if IsEntryName(name) {
          files := files - {name};
        } else {
          dirExists, files, fileAtDirPath := false, map[], None;
        }
      }
      if faults.moveFails {
        return;
      }
      if IsEntryName(name) {
        if dirExists && name !in files {
          files := files[name := c.tempFile.value];
        }
      } else if NamesCacheDirectory(name) {
        if !dirExists && fileAtDirPath.None? {
          fileAtDirPath := Some(c.tempFile.value);
        }
      }
    }
  }

  /**
   * Asking twice before the first download finishes starts two downloads of
   * the same file: `cache` does not track work in flight.
   */
  method CacheTwice(m: CacheManager, remote: Url) returns (first: Option<DownloadTask>, second: Option<DownloadTask>)
    requires m.Valid() && !FileExists(m.Disk(), LastPathComponent(remote))
    ensures first.Some? && second.Some? && first == second
  {
    first := m.Cache(remote);
    second := m.Cache(remote);
  }
}
