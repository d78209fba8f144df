/**
 * internal/utils/filesystem.go: checks on the host's file system. The host
 * file system is a value: its directories, its regular files with their
 * content, the paths whose stat fails for another reason than absence, and
 * the working directory. Relative paths are resolved against that directory.
 */
module FileSystem {
  import opened Errors
  import opened Paths

  const DirectoryText := "directory "
  const DoesNotExistText := " does not exist"
  const NotADirectoryText := " is not a directory"
  const CheckingPathText := "error checking the path "
  const CheckingFileText := "error checking the file "
  const StatText := ": stat "
  const EmptyFilePathText := "empty file path"
  const NotInCwdText := " does not exist in current directory "
  const ReadingFileText := "error reading file "
  const NotGitText := " is not a git repository"
  const NoSuchFileText := ": no such file or directory"

  datatype HostFs = HostFs(
    dirs: set<string>,
    files: map<string, string>,
    faults: map<string, string>,
    cwd: string)

  /** What os.Stat reports about a path. */
  datatype Stat = Directory | Regular | Missing | StatError(reason: string)

  /** The key a path is looked up under. */
  function Resolve(fs: HostFs, p: string): string {
    Abs(fs.cwd, p)
  }

  function StatOf(fs: HostFs, p: string): Stat {
    if p == "" then Missing
    else
      var k := Resolve(fs, p);
      if k in fs.faults then StatError(fs.faults[k])
      else if k in fs.dirs then Directory
      else if k in fs.files then Regular
      else Missing
  }

  predicate IsDirAt(fs: HostFs, p: string) {
    StatOf(fs, p).Directory?
  }

  /** Passes exactly for an existing directory; the three failures are
    * absence, a failing stat and a path that is not a directory. */
  function IsValidDir(fs: HostFs, path: string): (r: Outcome)
    ensures r.Pass? <==> IsDirAt(fs, path)
    ensures StatOf(fs, path).Missing? ==> r == Fail(Plain(DirectoryText + path + DoesNotExistText))
    ensures StatOf(fs, path).Regular? ==> r == Fail(Plain(path + NotADirectoryText))
    ensures r.Fail? ==> r.error.Plain?
  {
    match StatOf(fs, path)
      case Missing => Fail(Plain(DirectoryText + path + DoesNotExistText))
      case StatError(reason) =>
        Fail(Plain(CheckingPathText + path + StatText + path + ": " + reason))
      case Regular => Fail(Plain(path + NotADirectoryText))
      case Directory => Pass
  }

  /** filepath.Abs: always succeeds here, the working directory being known. */
  function PathToAbsolute(fs: HostFs, path: string): (r: Result<string>)
    ensures r.Ok?
    ensures IsAbs(fs.cwd) ==> IsAbs(r.value)
    ensures IsAbs(path) ==> r.value == Clean(path)
  {
    Ok(Abs(fs.cwd, path))
  }

  /** Despite its name, any existing path passes, a directory included. */
  function FileExistAndItIsAFile(fs: HostFs, filePath: string): (r: Outcome)
    ensures r.Pass? <==> filePath != "" && (StatOf(fs, filePath).Directory? || StatOf(fs, filePath).Regular?)
    ensures filePath == "" ==> r == Fail(Plain(EmptyFilePathText))
  {
    if filePath == "" then Fail(Plain(EmptyFilePathText))
    else match StatOf(fs, filePath)
      case Missing =>
        Fail(Plain("file " + filePath + NotInCwdText + fs.cwd))
      case StatError(reason) =>
        Fail(Plain(CheckingFileText + filePath + StatText + filePath + ": " + reason))
      case _ => Pass
  }

  lemma DirectoryPassesAsFile(fs: HostFs, p: string)
    requires p != "" && IsDirAt(fs, p)
    ensures FileExistAndItIsAFile(fs, p).Pass?
  {
  }

  /** os.ReadFile. */
  function ReadFile(fs: HostFs, p: string): (r: Result<string>)
    ensures r.Ok? <==> StatOf(fs, p).Regular?
    ensures r.Ok? ==> r.value == fs.files[Resolve(fs, p)]
  {
    match StatOf(fs, p)
      case Regular => Ok(fs.files[Resolve(fs, p)])
      case Directory => Err(Plain("read " + p + ": is a directory"))
      case StatError(reason) => Err(Plain("open " + p + ": " + reason))
      case Missing => Err(Plain("open " + p + NoSuchFileText))
  }

  /** Passes exactly for a regular file with content. The read-error message
    * formats the (empty) content instead of the path. */
  function FileIsNotEmpty(fs: HostFs, filepath: string): (r: Outcome)
    ensures r.Pass? <==> StatOf(fs, filepath).Regular? && fs.files[Resolve(fs, filepath)] != ""
    ensures ReadFile(fs, filepath).Err? ==>
      r == Fail(Plain(ReadingFileText + ": " + Message(ReadFile(fs, filepath).error)))
  {
    match ReadFile(fs, filepath)
      // The "%s" of the message receives the nil content, which prints as "".
      case Err(e) => Fail(Plain(ReadingFileText + ": " + Message(e)))
      case Ok(content) =>
        if |content| == 0 then Fail(Plain("file " + filepath + " is empty")) else Pass
  }

  /** Passes for a directory holding a ".git" entry of any kind. */
  function IsGitRepository(fs: HostFs, path: string): (r: Outcome)
    ensures r.Pass? <==>
      (path != "" && IsDirAt(fs, path)
       && (StatOf(fs, Join([path, ".git"])).Directory? || StatOf(fs, Join([path, ".git"])).Regular?))
    ensures path == "" ==> r == Fail(Plain("empty path"))
    ensures path != "" && !IsDirAt(fs, path) ==> r == IsValidDir(fs, path)
  {
    if path == "" then Fail(Plain("empty path"))
    else if IsValidDir(fs, path).Fail? then IsValidDir(fs, path)
    else match StatOf(fs, Join([path, ".git"]))
      case Missing => Fail(Plain("path " + path + NotGitText))
      case StatError(reason) =>
        Fail(Plain(CheckingPathText + path + StatText + Join([path, ".git"]) + ": " + reason))
      case _ => Pass
  }

  predicate HasGitDir(fs: HostFs, dir: string) {
    IsDirAt(fs, Join([dir, ".git"]))
  }

  /** The n-th step up from `p` along `up`. */
  function Ancestor(up: string -> string, p: string, n: nat): string {
    if n == 0 then p else up(Ancestor(up, p, n - 1))
  }

  lemma {:induction false} AncestorFixpoint(up: string -> string, p: string, i: nat, k: nat)
    requires i <= k
    requires up(Ancestor(up, p, i)) == Ancestor(up, p, i)
    ensures Ancestor(up, p, k) == Ancestor(up, p, i)
    decreases k
  {
    if k > i {
      AncestorFixpoint(up, p, i, k - 1);
    }
  }

  lemma {:induction false} AncestorShift(up: string -> string, p: string, n: nat)
    ensures Ancestor(up, p, n + 1) == Ancestor(up, up(p), n)
    decreases n
  {
    if n > 0 {
      AncestorShift(up, p, n - 1);
    }
  }

  /** The test FindGitRepoDir applies to each directory it visits. */
  function GitFinder(fs: HostFs): string -> bool {
    d => HasGitDir(fs, d)
  }

  /** The walk up from `p`: at most `budget` directories are examined and
    * the walk stops at the first one that `found` accepts, or where `up`
    * no longer moves. */
  function Walk(found: string -> bool, up: string -> string, p: string, budget: int): Option<string>
    decreases if budget < 0 then 0 else budget
  {
    if budget <= 0 then None
    else if found(p) then Some(p)
    else if up(p) == p then None
    else Walk(found, up, up(p), budget - 1)
  }

  lemma WalkStep(found: string -> bool, up: string -> string, p: string, budget: int)
    requires budget > 0 && !found(p) && up(p) != p
    ensures Walk(found, up, p, budget) == Walk(found, up, up(p), budget - 1)
  {
  }

  /** The number of steps up the walk takes before it stops. */
  function WalkSteps(found: string -> bool, up: string -> string, p: string, budget: int): nat
    decreases if budget < 0 then 0 else budget
  {
    if budget <= 0 || found(p) || up(p) == p then 0
    else 1 + WalkSteps(found, up, up(p), budget - 1)
  }

  /** A walk that finds something returns the nearest accepted ancestor
    * within the budget; a walk that finds nothing saw no accepted ancestor
    * within the budget. */
  lemma {:induction false} WalkMeaning(found: string -> bool, up: string -> string, p: string, budget: int)
    ensures Walk(found, up, p, budget).None? ==>
      forall n: nat :: n < budget ==> !found(Ancestor(up, p, n))
    ensures Walk(found, up, p, budget).Some? ==>
      var k := WalkSteps(found, up, p, budget);
      k < budget && Walk(found, up, p, budget).value == Ancestor(up, p, k) && found(Ancestor(up, p, k))
      && (forall m: nat :: m < k ==> !found(Ancestor(up, p, m)))
    decreases if budget < 0 then 0 else budget
  {
    assert Ancestor(up, p, 0) == p;
    if budget <= 0 || found(p) {
    } else if up(p) == p {
      forall n: nat | n < budget
        ensures !found(Ancestor(up, p, n))
      {
        AncestorFixpoint(up, p, 0, n);
      }
    } else {
      var q := up(p);
      WalkMeaning(found, up, q, budget - 1);
      forall n: nat
        ensures Ancestor(up, p, n + 1) == Ancestor(up, q, n)
      {
        AncestorShift(up, p, n);
      }
      assert Walk(found, up, p, budget) == Walk(found, up, q, budget - 1);
      forall n: nat | 0 < n < budget
        ensures found(Ancestor(up, p, n)) == found(Ancestor(up, q, n - 1))
      {
        assert Ancestor(up, p, n) == Ancestor(up, q, n - 1);
      }
    }
  }

  /** The loop of FindGitRepoDir: examines `start` and its parents, at
    * most `levels` of them, and stops at the first one `found` accepts or
    * where `up` no longer moves. */
  method WalkUp(found: string -> bool, up: string -> string, start: string, levels: int) returns (r: Option<string>)
    ensures r == Walk(found, up, start, levels)
  {
    var absPath := start;
    var i := 0;
    while i < levels
      invariant 0 <= i
      invariant Walk(found, up, start, levels) == Walk(found, up, absPath, levels - i)
      decreases levels - i
    {
      if found(absPath) {
        return Some(absPath);
      }
      var parentPath := up(absPath);
      if parentPath == absPath {
        return None;
      }
      WalkStep(found, up, absPath, levels - i);
      absPath := parentPath;
      i := i + 1;
    }
    return None;
  }

  /** Walks up from `pathname` at most `levels` times looking for a ".git"
    * directory; stops early at the root. */
  method FindGitRepoDir(fs: HostFs, pathname: string, levels: int) returns (r: Result<string>)
    ensures r.Ok? <==> Walk(GitFinder(fs), Dir, Abs(fs.cwd, pathname), levels).Some?
    ensures r.Ok? ==> r.value == Walk(GitFinder(fs), Dir, Abs(fs.cwd, pathname), levels).value
    ensures r.Err? ==> r.error == Plain("path " + pathname + NotGitText)
  {
    var found := WalkUp(GitFinder(fs), Dir, Abs(fs.cwd, pathname), levels);
    if found.Some? {
      return Ok(found.value);
    }
    return Err(Plain("path " + pathname + NotGitText));
  }

  /** os.ReadFile with the error rephrased. */
  function GetFileContent(fs: HostFs, filePath: string): (r: Result<string>)
    ensures r.Ok? <==> StatOf(fs, filePath).Regular?
    ensures r.Ok? ==> r.value == fs.files[Resolve(fs, filePath)]
    ensures r.Err? ==> r.error == Plain(ReadingFileText + filePath + ": " + Message(ReadFile(fs, filePath).error))
  {
    match ReadFile(fs, filePath)
      case Ok(content) => Ok(content)
      case Err(e) => Err(Plain(ReadingFileText + filePath + ": " + Message(e)))
  }
}
