/** `findRootPath`: the directory ascent from the working directory to the
    nearest directory holding the package manager's lock file. */
module RootPath {
  import opened Wrappers
  import opened Errors
  import opened PackageManager

  /** An absolute directory: a volume ("" on POSIX, "C:" on Windows) and the
      names below its root. `Path("", [])` is the POSIX root "/". */
  datatype Path = Path(volume: string, segments: seq<string>)

  const PosixRoot := Path("", [])

  /** `path.resolve(p, '../')`: the root of a volume is its own parent. */
  function Parent(p: Path): (q: Path)
    ensures q.volume == p.volume
    ensures if p.segments == [] then q == p else q.segments == p.segments[..|p.segments| - 1]
  {
    if p.segments == [] then p else Path(p.volume, p.segments[..|p.segments| - 1])
  }

  /** `${p}/${name}` */
  function Join(p: Path, name: string): Path {
    Path(p.volume, p.segments + [name])
  }

  /** The ancestor of `cwd` at depth `k` (`cwd` itself at depth |cwd.segments|). */
  function Ancestor(cwd: Path, k: nat): Path
    requires k <= |cwd.segments|
  {
    Path(cwd.volume, cwd.segments[..k])
  }

  /** The shallowest depth the ascent inspects: the POSIX root "/" ends the loop
      before it is inspected, a Windows volume root is inspected. */
  function MinDepth(cwd: Path): nat {
    if cwd.volume == "" then 1 else 0
  }

  /** `findRootPath`: the nearest directory, starting at `cwd` itself, whose lock
      file for `manager` is in `existing`; otherwise it throws. */
  method FindRootPath(cwd: Path, manager: Manager, existing: set<Path>) returns (r: Result<Path, Error>)
    ensures r.Success? ==>
      exists k :: MinDepth(cwd) <= k <= |cwd.segments| && r.value == Ancestor(cwd, k)
    ensures r.Success? ==> Join(r.value, LockFileName(manager)) in existing
    ensures r.Success? ==> forall k :: |r.value.segments| < k <= |cwd.segments| ==>
      Join(Ancestor(cwd, k), LockFileName(manager)) !in existing
    ensures r.Failure? ==> r.error == LockFileNotFound(LockFileName(manager))
    ensures r.Failure? ==> forall k :: MinDepth(cwd) <= k <= |cwd.segments| ==>
      Join(Ancestor(cwd, k), LockFileName(manager)) !in existing
  {
    var currentPath := cwd;
    var lockFile := LockFileName(manager);
    while currentPath != PosixRoot
      invariant |currentPath.segments| <= |cwd.segments|
      invariant currentPath == Ancestor(cwd, |currentPath.segments|)
      invariant forall k :: |currentPath.segments| < k <= |cwd.segments| ==>
        Join(Ancestor(cwd, k), lockFile) !in existing
      decreases |currentPath.segments|
    {
      if Join(currentPath, lockFile) in existing {
        assert MinDepth(cwd) <= |currentPath.segments|;
        return Success(currentPath);
      }
      var parentDir := Parent(currentPath);
      if parentDir == currentPath {
        return Failure(LockFileNotFound(lockFile));
      }
      currentPath := parentDir;
    }
    return Failure(LockFileNotFound(lockFile));
  }
}
