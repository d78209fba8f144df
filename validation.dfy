/**
 * internal/core/validation/dirs.go: the checks a pipeline runs on the
 * directories it is given before it mounts anything.
 */
module Validation {
  import opened Errors
  import opened Paths
  import opened FileSystem

  const RequiredHint := " argument is required. It can be defined or set as '.' to use the current directory."

  /** The error every check returns: an argument error without a cause. */
  function Refuse(details: string): Outcome {
    Fail(NewArgumentError(details, NoCause))
  }

  /** An existing directory passes; an empty name and any failure of
    * IsValidDir are argument errors, the latter quoting its message. */
  function DirIsValid(fs: HostFs, dirToEvaluate: string): (r: Outcome)
    ensures r.Pass? <==> dirToEvaluate != "" && IsDirAt(fs, dirToEvaluate)
    ensures r.Fail? ==> r.error.Typed? && r.error.kind == Argument && r.error.cause == NoCause
    ensures dirToEvaluate == "" ==> r == Refuse("The 'dir'" + RequiredHint)
    ensures dirToEvaluate != "" && IsValidDir(fs, dirToEvaluate).Fail? ==>
      r == Refuse("Invalid directory passed: " + Message(IsValidDir(fs, dirToEvaluate).error))
  {
    if dirToEvaluate == "" then Refuse("The 'dir'" + RequiredHint)
    else match IsValidDir(fs, dirToEvaluate)
      case Fail(e) => Refuse("Invalid directory passed: " + Message(e))
      case Pass => Pass
  }

  datatype WorkDirIsValidArgs = WorkDirIsValidArgs(baseDir: string, workDir: string, mountDir: string)

  /** "." stands for the working directory. */
  function EffectiveBase(fs: HostFs, baseDir: string): string {
    if baseDir == "." then fs.cwd else baseDir
  }

  function MountDirFullPath(fs: HostFs, opts: WorkDirIsValidArgs): string {
    Join([EffectiveBase(fs, opts.baseDir), opts.mountDir])
  }

  function WorkDirFullPath(fs: HostFs, opts: WorkDirIsValidArgs): string {
    Join([EffectiveBase(fs, opts.baseDir), opts.mountDir, opts.workDir])
  }

  /** The layout WorkDirIsValid accepts: all three names given, the work and
    * mount names relative, the base absolute, and both base/mount and
    * base/mount/work existing directories. */
  predicate WorkDirAccepted(fs: HostFs, opts: WorkDirIsValidArgs) {
    opts.baseDir != "" && opts.workDir != "" && opts.mountDir != ""
    && !IsAbs(opts.workDir) && !IsAbs(opts.mountDir)
    && IsAbs(EffectiveBase(fs, opts.baseDir))
    && IsDirAt(fs, MountDirFullPath(fs, opts))
    && IsDirAt(fs, WorkDirFullPath(fs, opts))
  }

  function WorkDirIsValid(fs: HostFs, opts: WorkDirIsValidArgs): (r: Outcome)
    ensures r.Pass? <==> WorkDirAccepted(fs, opts)
    ensures r.Fail? ==> r.error.Typed? && r.error.kind == Argument && r.error.cause == NoCause
    ensures opts.baseDir == "" ==> r == Refuse("The 'baseDir'" + RequiredHint)
    ensures opts.baseDir != "" && opts.workDir != "" && opts.mountDir != "" && IsAbs(opts.workDir) ==>
      r == Refuse("The 'workDir' argument cannot be an absolute path: " + opts.workDir)
  {
    if opts.baseDir == "" then Refuse("The 'baseDir'" + RequiredHint)
    else if opts.workDir == "" then Refuse("The 'workDir'" + RequiredHint)
    else if opts.mountDir == "" then Refuse("The 'mountDir'" + RequiredHint)
    else
      var base := EffectiveBase(fs, opts.baseDir);
      if IsAbs(opts.workDir) then
        Refuse("The 'workDir' argument cannot be an absolute path: " + opts.workDir)
      else if IsAbs(opts.mountDir) then
        Refuse("The 'mountDir' argument cannot be an absolute path: " + opts.mountDir)
      else if !IsAbs(base) then
        Refuse("The 'baseDir' argument must be an absolute path: " + base)
      else match IsValidDir(fs, MountDirFullPath(fs, opts))
        case Fail(e) => Refuse("Invalid mountdir passed: " + Message(e))
        case Pass =>
          match IsValidDir(fs, WorkDirFullPath(fs, opts))
            case Fail(e) => Refuse("Invalid workdir passed: " + Message(e))
            case Pass => Pass
  }

  /** The checks on the names come before any look-up: a layout refused for
    * its names is refused whatever the file system holds. */
  lemma NameChecksIgnoreFileSystem(fs1: HostFs, fs2: HostFs, opts: WorkDirIsValidArgs)
    requires fs1.cwd == fs2.cwd
    requires opts.baseDir == "" || opts.workDir == "" || opts.mountDir == ""
      || IsAbs(opts.workDir) || IsAbs(opts.mountDir) || !IsAbs(EffectiveBase(fs1, opts.baseDir))
    ensures WorkDirIsValid(fs1, opts) == WorkDirIsValid(fs2, opts)
  {
  }

  /** An accepted layout has an absolute, existing work directory. */
  lemma AcceptedWorkDirIsAbsolute(fs: HostFs, opts: WorkDirIsValidArgs)
    requires WorkDirIsValid(fs, opts).Pass?
    ensures IsAbs(WorkDirFullPath(fs, opts)) && IsDirAt(fs, WorkDirFullPath(fs, opts))
  {
  }
}
