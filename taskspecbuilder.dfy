/**
 * internal/core/specs/taskspec.go and taskspecbuilder.go: the task
 * manifest, the staged builder that reads, renders, parses and validates
 * it, and its conversion into the job builder's task arguments and
 * environment options. The manifest file is read from the host file
 * system; the YAML library and template rendering are parameters, and
 * the logger is not modelled.
 */
module TaskSpecs {
  import opened Errors
  import opened Normaliser
  import opened Paths
  import opened FileSystem
  import opened Validation
  import opened EnvVars
  import opened Entities
  import opened JobEnv
  import JobBuilder
  import EnvFetcher

  // ---------------------------------------------------------------------
  // The manifest

  datatype CommandsSpec = CommandsSpec(binary: string, commands: seq<string>)

  datatype TaskMetadata = TaskMetadata(name: string)

  /** The spec section of a task manifest. `E` is the shape of its
    * environment section, which the newer and the older builder read
    * differently. */
  datatype TaskSpec<E> = TaskSpec(
    containerImage: string,
    workdir: string,
    mountDir: string,
    baseDir: string,
    commandsSpec: seq<CommandsSpec>,
    envVarsSpec: E)

  datatype TaskManifestSpec<E> = TaskManifestSpec(
    apiVersion: string,
    kind: string,
    metadata: TaskMetadata,
    spec: TaskSpec<E>)

  datatype EnvVarsScanOptsSpec = EnvVarsScanOptsSpec(
    enabled: bool,
    failIfNotSet: bool,
    ignoreIfNotSetOrEmpty: seq<string>,
    requiredEnvVars: seq<string>,
    removeEnvVarsIfFound: seq<string>)

  datatype EnvVarsScannedOptsSpec = EnvVarsScannedOptsSpec(
    scanAWSEnvVars: EnvVarsScanOptsSpec,
    scanTerraformEnvVars: EnvVarsScanOptsSpec,
    scanCustomEnvVars: seq<string>)

  datatype EnvVarsSpec = EnvVarsSpec(
    envVars: EnvMap,
    envVarsScanned: EnvVarsScannedOptsSpec,
    dotFiles: seq<string>)

  /** A manifest as taskspec.go declares it. */
  type Manifest = TaskManifestSpec<EnvVarsSpec>

  /** What a manifest converts to: one task's arguments and its environment
    * options. */
  datatype ConvertedTask = ConvertedTask(task: JobBuilder.TaskNewArgs, taskEnvCfg: EnvVarsOptions)

  /** The YAML library as the builders call it: YamlFileIsValid,
    * YamlStructureIsValid and YamlToStructFromFile on a path, and
    * YamlToStructWithContent on a text. */
  datatype Yaml<M> = Yaml(
    fileIsValid: string -> Outcome,
    structureIsValid: string -> Outcome,
    fromFile: string -> Result<M>,
    fromContent: string -> Result<M>)

  const ManifestTypeTask := "MANIFEST_TASK"
  const ManifestTypeJob := "MANIFEST_JOB"
  const ManifestTypeWorkflow := "MANIFEST_WORKFLOW"

  predicate IsManifestType(t: string) {
    t == ManifestTypeTask || t == ManifestTypeJob || t == ManifestTypeWorkflow
  }

  /** The keywords of TmplCfgFuncMaps, each naming one template function map. */
  const TemplateKeywords: seq<string> := ["readEnv", "readPWD", "readHome", "doReplace", "doTrimspace"]

  const NilSpecText := "Cannot convert a manifest to a Task that is empty or nil"
  const NoFileText := "Cannot extract manifest content. The manifest file is required, but it was passed as empty"
  const ReadFailedText := "Cannot extract manifest content. Cannot read the manifest file: "
  const EmptyCompileText := "Cannot compile manifest template functions. The manifest file content is required in order to compile its template functions, but it was passed as empty"
  const CompileFailedText := "Cannot compile manifest template functions. Cannot compile template: "
  const EmptyConstructText := "Cannot construct manifest spec. The manifest file content is required in order to construct its spec, but it was passed as empty"
  const ParseContentText := "Cannot construct manifest spec. Cannot parse yaml file "
  const StructureTypeText := "Cannot compile manifest structure. Invalid manifest type: "
  const InvalidStructureText := "Cannot compile manifest structure. Invalid manifest structure: "
  const ParseFileText := "Cannot compile manifest structure. Cannot parse yaml file "
  const MissingSpecText := "task manifest is required prior to this API execution. Ensure that you've called the WithCompiledManifestStructure method"
  const KindText := "invalid manifest kind: "
  const KindHint := ". Should be 'Job', 'Task' or 'Workflow'"
  const ApiText := "invalid manifest api version: "
  const ApiHint := ". Should be 'v1'"
  const NameText := "manifest name is required. Give it a proper name. E.g.: 'my-task'"
  const ImageText := "container image is required. It's required to bootstrap a container for the 'Dagger' runtime."
  const WorkdirText := "workDir is required. "
  const MountDirText := "mountDir is required. "
  const InvalidDirsText := "The manifest directory configuration is invalid: "
  const NoCommandsText := "The manifest commands are invalid. They should have at least one command"
  const EmptyCommandText := "The manifest commands are invalid. It was detected a configuration, but without any command to execute"
  const BuildFailedText := "cannot build manifest of type '"
  const NoClientText := "A valid client instance is required."
  const NoManifestFileText := "The manifest file is required. Ensure it's passed as a relative path of the current directory"
  const NewBadTypeText := "Cannot create a manifest builder client. Invalid manifest type: "
  const NewInvalidFileText := "Cannot create a manifest builder client. Invalid manifest file: "
  const LegacyBadTypeText := "invalid manifest type: "
  const LegacyInvalidFileText := "invalid manifest file: "

  // ---------------------------------------------------------------------
  // Conversion

  /** The task command a commands entry becomes: its binary, and the last
    * of its command strings (each one overwrites the one before), or the
    * empty string when it has none. */
  function CommandArgsOf(c: CommandsSpec): JobBuilder.TaskNewCMDArgs {
    JobBuilder.TaskNewCMDArgs(c.binary, if |c.commands| == 0 then "" else c.commands[|c.commands| - 1])
  }

  /** The loop of Convert over the commands entries, shared by both builders. */
  method ConvertCommands(cs: seq<CommandsSpec>) returns (args: seq<JobBuilder.TaskNewCMDArgs>)
    ensures |args| == |cs|
    ensures forall i :: 0 <= i < |cs| ==> args[i].binary == cs[i].binary
    ensures forall i :: 0 <= i < |cs| && |cs[i].commands| == 0 ==> args[i].commandArgs == ""
    ensures forall i :: 0 <= i < |cs| && |cs[i].commands| > 0 ==>
      args[i].commandArgs == cs[i].commands[|cs[i].commands| - 1]
  {
    args := [];
    var i := 0;
    while i < |cs|
      invariant 0 <= i <= |cs| && |args| == i
      invariant forall k :: 0 <= k < i ==> args[k] == CommandArgsOf(cs[k])
    {
      var command := cs[i];
      var newCmd := JobBuilder.TaskNewCMDArgs("", "");
      if command.binary != "" {
        newCmd := newCmd.(binary := command.binary);
      }
      var j := 0;
      while j < |command.commands|
        invariant 0 <= j <= |command.commands|
        invariant newCmd.binary == command.binary
        invariant newCmd.commandArgs == if j == 0 then "" else command.commands[j - 1]
      {
        newCmd := newCmd.(commandArgs := command.commands[j]);
        j := j + 1;
      }
      args := args + [newCmd];
      i := i + 1;
    }
  }

  /** A scanned source's options: enabled, with the manifest's four
    * settings, exactly when the manifest enables it. */
  function ScanOption(s: EnvVarsScanOptsSpec): (o: EnvVarBehaviourOptions)
    ensures o.enabled == s.enabled
    ensures s.enabled ==>
      (o.failIfNotSet == s.failIfNotSet && o.requiredEnvVars == s.requiredEnvVars
       && o.ignoreIfNotSetOrEmpty == s.ignoreIfNotSetOrEmpty && o.removeEnvVarsIfFound == s.removeEnvVarsIfFound
       && o.dotFiles == [])
    ensures !s.enabled ==> o == Disabled
  {
    if s.enabled then
      EnvVarBehaviourOptions(s.requiredEnvVars, s.failIfNotSet, true, [], s.ignoreIfNotSetOrEmpty, s.removeEnvVarsIfFound)
    else Disabled
  }

  /** The environment options of a converted task. Only the Terraform and
    * the AWS scans, the explicit map and the ".env" files are carried
    * over: the custom key list is dropped, the host is never scanned as a
    * whole and nothing is inherited from the job. */
  function EnvOptionsOf(e: EnvVarsSpec): (o: EnvVarsOptions)
    ensures o.envVarsTerraformCfg == ScanOption(e.envVarsScanned.scanTerraformEnvVars)
    ensures o.envVarsAWSCfg == ScanOption(e.envVarsScanned.scanAWSEnvVars)
    ensures o.envVarsExplicit == e.envVars
    ensures o.envVarsFromDotFileCfg.enabled <==> |e.dotFiles| > 0
    ensures |e.dotFiles| > 0 ==> o.envVarsFromDotFileCfg.failIfNotSet && o.envVarsFromDotFileCfg.dotFiles == e.dotFiles
    ensures o.envVarsCustomCfg == Disabled && o.envVarsHostCfg == Disabled && !o.inheritEnvVarsFromJob
  {
    var explicit := if !MapIsNulOrEmpty(e.envVars) then e.envVars else map[];
    var dots := if |e.dotFiles| != 0 then EnvVarBehaviourOptions([], true, true, e.dotFiles, [], []) else Disabled;
    EnvVarsOptions(false, Disabled, ScanOption(e.envVarsScanned.scanAWSEnvVars),
      ScanOption(e.envVarsScanned.scanTerraformEnvVars), Disabled, dots, explicit)
  }

  /** A manifest that enables neither scan and lists no ".env" file gives
    * its task the empty environment, whatever the host holds. */
  lemma NoSourceDecoratesEmpty(env: seq<string>, fs: HostFs, e: EnvVarsSpec)
    requires !e.envVarsScanned.scanTerraformEnvVars.enabled && !e.envVarsScanned.scanAWSEnvVars.enabled
    requires |e.dotFiles| == 0
    ensures Decorated(env, fs, EnvOptionsOf(e)) == Ok(map[])
  {
    var o := EnvOptionsOf(e);
    QuietLayers(o, EnvFetcher.ByType(env, AwsOpt(o)), EnvFetcher.ByType(env, TerraformOpt(o)),
      EnvFetcher.FromHost(env, HostOpt(o)), EnvFetcher.SpecificKeys(env, CustomOpt(o)),
      Stack(DotFileSources(fs, o.envVarsFromDotFileCfg.dotFiles)));
  }

  lemma QuietLayers(opts: EnvVarsOptions, aws: Result<EnvMap>, tf: Result<EnvMap>, host: Result<EnvMap>,
                    custom: Result<EnvMap>, dots: Result<EnvMap>)
    requires !opts.envVarsAWSCfg.enabled && !opts.envVarsTerraformCfg.enabled && !opts.envVarsHostCfg.enabled
    requires !opts.envVarsCustomCfg.enabled && !opts.envVarsFromDotFileCfg.enabled
    ensures Stack(Layers(opts, aws, tf, host, custom, dots)) == Ok(map[])
  {
    LayersUnfold(opts, aws, tf, host, custom, dots);
  }

  /** TaskManifestSpec.Convert: a missing manifest is a manifest error;
    * otherwise the names and directories are copied as they are, with one
    * command per commands entry, in order. */
  method Convert(s: Option<Manifest>) returns (r: Result<ConvertedTask>)
    ensures s.None? ==> r == Err(NewManifestError(NilSpecText, NoCause))
    ensures s.Some? ==> r.Ok?
    ensures r.Ok? ==> var m := s.value; var t := r.value.task;
      && t.name == m.metadata.name && t.containerImage == m.spec.containerImage
      && t.workDir == m.spec.workdir && t.mountDir == m.spec.mountDir && t.baseDir == m.spec.baseDir
      && |t.commands| == |m.spec.commandsSpec|
      && (forall i :: 0 <= i < |t.commands| ==> t.commands[i] == CommandArgsOf(m.spec.commandsSpec[i]))
      && r.value.taskEnvCfg == EnvOptionsOf(m.spec.envVarsSpec)
  {
    if s.None? {
      return Err(NewManifestError(NilSpecText, NoCause));
    }
    var m := s.value;
    var taskCommandArgs := ConvertCommands(m.spec.commandsSpec);
    var envVarsOptions := EnvOptionsOf(m.spec.envVarsSpec);
    var task := JobBuilder.TaskNewArgs(m.metadata.name, m.spec.containerImage, taskCommandArgs,
      m.spec.baseDir, m.spec.workdir, m.spec.mountDir);
    return Ok(ConvertedTask(task, envVarsOptions));
  }

  // ---------------------------------------------------------------------
  // Template rendering

  /** `sub` occurs in `s` starting at position i. */
  predicate OccursAt(s: string, sub: string, i: int) {
    0 <= i && i + |sub| <= |s| && s[i..i + |sub|] == sub
  }

  /** strings.Contains. */
  predicate Contains(s: string, sub: string) {
    exists i :: 0 <= i <= |s| && OccursAt(s, sub, i)
  }

  /** The manifest text after the template stage, and the error it records. */
  datatype Compilation = Compilation(content: string, error: Option<Error>)

  /** Each keyword, in the order given, that the current text mentions has
    * the text rendered with its function map; the first rendering failure
    * stops the stage and keeps the text rendered so far. */
  function Compiled(content: string, keys: seq<string>, render: (string, string) -> Result<string>): Compilation
    decreases |keys|
  {
    if |keys| == 0 then Compilation(content, None)
    else if !Contains(content, keys[0]) then Compiled(content, keys[1..], render)
    else match render(keys[0], content)
      case Err(e) => Compilation(content, Some(NewArgumentError(CompileFailedText + Message(e), Caused(e))))
      case Ok(c) => Compiled(c, keys[1..], render)
  }

  /** A text that mentions no keyword is left as it is, without error. */
  lemma {:induction false} CompiledWithoutKeywords(content: string, keys: seq<string>, render: (string, string) -> Result<string>)
    requires forall i :: 0 <= i < |keys| ==> !Contains(content, keys[i])
    ensures Compiled(content, keys, render) == Compilation(content, None)
    decreases |keys|
  {
    if |keys| > 0 {
      assert forall i :: 0 <= i < |keys[1..]| ==> keys[1..][i] == keys[i + 1];
      CompiledWithoutKeywords(content, keys[1..], render);
    }
  }

  /** The stage fails only with an argument error wrapping a rendering
    * error, for a keyword the text mentioned at that point. */
  lemma {:induction false} CompiledFailure(content: string, keys: seq<string>, render: (string, string) -> Result<string>)
    requires Compiled(content, keys, render).error.Some?
    ensures var e := Compiled(content, keys, render).error.value;
      && e.Typed? && e.kind == Argument && e.cause.Caused?
      && e.details == CompileFailedText + Message(e.cause.inner)
      && Contains(Compiled(content, keys, render).content, keys[FailedKey(content, keys, render)])
      && render(keys[FailedKey(content, keys, render)], Compiled(content, keys, render).content) == Err(e.cause.inner)
    decreases |keys|
  {
    if Contains(content, keys[0]) && render(keys[0], content).Err? {
    } else {
      CompiledFailure(if Contains(content, keys[0]) then render(keys[0], content).value else content, keys[1..], render);
    }
  }

  /** The position of the keyword whose rendering failed. */
  function FailedKey(content: string, keys: seq<string>, render: (string, string) -> Result<string>): (k: nat)
    requires Compiled(content, keys, render).error.Some?
    ensures k < |keys|
    decreases |keys|
  {
    if Contains(content, keys[0]) && render(keys[0], content).Err? then 0
    else 1 + FailedKey(if Contains(content, keys[0]) then render(keys[0], content).value else content, keys[1..], render)
  }

  // ---------------------------------------------------------------------
  // Deep validation, shared with the older builder

  function Reject(details: string): Outcome {
    Fail(NewManifestError(details, NoCause))
  }

  predicate IsKind(kind: string) {
    kind == "Task" || kind == "Job" || kind == "Workflow"
  }

  predicate AllHaveCommands(cs: seq<CommandsSpec>) {
    forall i :: 0 <= i < |cs| ==> |cs[i].commands| > 0
  }

  /** The last two checks: at least one commands entry, and none empty. */
  function CommandsCheck(cs: seq<CommandsSpec>): (r: Outcome)
    ensures r.Pass? <==> |cs| > 0 && AllHaveCommands(cs)
  {
    if |cs| == 0 then Reject(NoCommandsText)
    else if !AllHaveCommands(cs) then Reject(EmptyCommandText)
    else Pass
  }

  /** The loop over the commands entries of WithStrictDeepValidation. */
  method CheckCommands(cs: seq<CommandsSpec>) returns (o: Outcome)
    ensures o == CommandsCheck(cs)
  {
    if |cs| == 0 {
      return Reject(NoCommandsText);
    }
    var i := 0;
    while i < |cs|
      invariant 0 <= i <= |cs|
      invariant forall k :: 0 <= k < i ==> |cs[k].commands| > 0
    {
      if |cs[i].commands| == 0 {
        return Reject(EmptyCommandText);
      }
      i := i + 1;
    }
    return Pass;
  }

  /** The checks up to the container image, which the baseDir default
    * follows in the newer builder. */
  predicate HeadPasses<E>(m: TaskManifestSpec<E>) {
    IsKind(m.kind) && m.apiVersion == "v1" && m.metadata.name != "" && m.spec.containerImage != ""
  }

  /** The checks from the work directory on. The directory check's error
    * is quoted in the text but not kept as the cause. */
  function TailCheck<E>(fs: HostFs, m: TaskManifestSpec<E>): Outcome {
    if m.spec.workdir == "" then Reject(WorkdirText)
    else if m.spec.mountDir == "" then Reject(MountDirText)
    else match WorkDirIsValid(fs, WorkDirIsValidArgs(m.spec.baseDir, m.spec.workdir, m.spec.mountDir))
      case Fail(e) => Reject(InvalidDirsText + Message(e))
      case Pass => CommandsCheck(m.spec.commandsSpec)
  }

  /** WithStrictDeepValidation's verdict, in its order: a stored manifest,
    * its kind, version, name and image, then the directories and the
    * commands. `missingSpecText` is the text for a missing manifest. */
  function DeepCheck<E>(fs: HostFs, missingSpecText: string, s: Option<TaskManifestSpec<E>>): Outcome {
    match s
      case None => Reject(missingSpecText)
      case Some(m) =>
        if !IsKind(m.kind) then Reject(KindText + m.kind + KindHint)
        else if m.apiVersion != "v1" then Reject(ApiText + m.apiVersion + ApiHint)
        else if m.metadata.name == "" then Reject(NameText)
        else if m.spec.containerImage == "" then Reject(ImageText)
        else TailCheck(fs, m)
  }

  /** A manifest passes exactly when it is present, of a known kind and
    * version "v1", names itself and an image, gives a work and a mount
    * directory that make a valid layout under its base, and has commands
    * in every entry; every refusal is a manifest error without a cause. */
  lemma DeepCheckMeaning<E>(fs: HostFs, missingSpecText: string, s: Option<TaskManifestSpec<E>>)
    ensures var r := DeepCheck(fs, missingSpecText, s);
      && (r.Pass? <==>
            && s.Some? && HeadPasses(s.value)
            && s.value.spec.workdir != "" && s.value.spec.mountDir != ""
            && WorkDirAccepted(fs, WorkDirIsValidArgs(s.value.spec.baseDir, s.value.spec.workdir, s.value.spec.mountDir))
            && |s.value.spec.commandsSpec| > 0 && AllHaveCommands(s.value.spec.commandsSpec))
      && (r.Fail? ==> r.error.Typed? && r.error.kind == Manifest && r.error.cause == NoCause)
  {
  }

  /** The first failing check names the error: a missing manifest before
    * everything, then kind, version, name, image, work directory, mount
    * directory, layout, and the commands last. */
  lemma DeepCheckOrder<E>(fs: HostFs, missingSpecText: string, s: Option<TaskManifestSpec<E>>)
    requires s.Some?
    ensures var r := DeepCheck(fs, missingSpecText, s); var m := s.value;
      && (!IsKind(m.kind) ==> r.error.details == KindText + m.kind + KindHint)
      && (IsKind(m.kind) && m.apiVersion != "v1" ==> r.error.details == ApiText + m.apiVersion + ApiHint)
      && (IsKind(m.kind) && m.apiVersion == "v1" && m.metadata.name == "" ==> r.error.details == NameText)
      && (IsKind(m.kind) && m.apiVersion == "v1" && m.metadata.name != "" && m.spec.containerImage == "" ==>
            r.error.details == ImageText)
      && (HeadPasses(m) && m.spec.workdir == "" ==> r.error.details == WorkdirText)
      && (HeadPasses(m) && m.spec.workdir != "" && m.spec.mountDir == "" ==> r.error.details == MountDirText)
      && ((HeadPasses(m) && m.spec.workdir != "" && m.spec.mountDir != "" && |m.spec.commandsSpec| == 0)
            ==> r.Fail?)
  {
  }

  /** The newer builder's default: an empty base directory becomes the
    * client's absolute base directory once the first checks pass. */
  function Defaulted<E>(s: Option<TaskManifestSpec<E>>, baseDirAbs: string): Option<TaskManifestSpec<E>> {
    match s
      case None => None
      case Some(m) =>
        if HeadPasses(m) && m.spec.baseDir == "" then Some(m.(spec := m.spec.(baseDir := baseDirAbs)))
        else s
  }

  /** An error a stage records replaces the one before; a passing stage
    * keeps it. */
  function Recorded(prev: Option<Error>, o: Outcome): Option<Error> {
    if o.Fail? then Some(o.error) else prev
  }

  /** A validated manifest converts into task arguments the job builder's
    * checks accept, unless its base directory is "."; the layout check
    * resolves "." against the working directory, the job builder only
    * accepts an absolute base. */
  lemma ValidatedManifestMakesTask<E>(fs: HostFs, missingSpecText: string, m: TaskManifestSpec<E>,
                                      jobBaseAbs: string, id: string, a: JobBuilder.TaskNewArgs)
    requires DeepCheck(fs, missingSpecText, Some(m)).Pass?
    requires a.containerImage == m.spec.containerImage && a.baseDir == m.spec.baseDir
    requires a.workDir == m.spec.workdir && a.mountDir == m.spec.mountDir
    ensures m.spec.baseDir != "." ==> JobBuilder.CheckTask(fs, jobBaseAbs, id, a).Pass?
    ensures m.spec.baseDir == "." ==> JobBuilder.CheckTask(fs, jobBaseAbs, id, a).Fail?
  {
    DeepCheckMeaning(fs, missingSpecText, Some(m));
    JobBuilder.CheckTaskMeaning(fs, jobBaseAbs, id, a);
    assert JobBuilder.TaskBase(jobBaseAbs, a) == m.spec.baseDir;
  }

  // ---------------------------------------------------------------------
  // The builder

  class Builder {
    var manifestFile: string
    var manifestType: string
    var content: string
    var taskManifestSpec: Option<Manifest>
    var client: Client
    var err: Option<Error>
    var baseDir: string
    var baseDirAbs: string

    constructor (manifestType: string, manifestFile: string, client: Client, baseDir: string, baseDirAbs: string)
      ensures this.manifestType == manifestType && this.manifestFile == manifestFile && this.client == client
      ensures this.baseDir == baseDir && this.baseDirAbs == baseDirAbs
      ensures content == "" && taskManifestSpec == None && err == None
    {
      this.manifestType := manifestType;
      this.manifestFile := manifestFile;
      this.client := client;
      this.baseDir := baseDir;
      this.baseDirAbs := baseDirAbs;
      content := "";
      taskManifestSpec := None;
      err := None;
    }

    /** Reads the manifest file into the buffer; an empty name or an
      * unreadable file records an argument error. */
    method WithExtractedManifestContent(fs: HostFs)
      modifies this
      ensures manifestFile == "" ==> err == Some(NewArgumentError(NoFileText, NoCause)) && content == old(content)
      ensures manifestFile != "" && GetFileContent(fs, manifestFile).Err? ==>
        var e := GetFileContent(fs, manifestFile).error;
        err == Some(NewArgumentError(ReadFailedText + Message(e), Caused(e))) && content == old(content)
      ensures manifestFile != "" && GetFileContent(fs, manifestFile).Ok? ==>
        content == fs.files[Resolve(fs, manifestFile)] && err == old(err)
      ensures manifestFile == old(manifestFile) && manifestType == old(manifestType) && taskManifestSpec == old(taskManifestSpec)
      ensures client == old(client) && baseDir == old(baseDir) && baseDirAbs == old(baseDirAbs)
    {
      if manifestFile == "" {
        err := Some(NewArgumentError(NoFileText, NoCause));
        return;
      }
      var manifestContent := GetFileContent(fs, manifestFile);
      if manifestContent.Err? {
        err := Some(NewArgumentError(ReadFailedText + Message(manifestContent.error), Caused(manifestContent.error)));
        return;
      }
      content := manifestContent.value;
    }

    /** Renders the keywords the text mentions, visiting the function maps
      * in `keys` (Go's map order, which is unspecified); an empty buffer
      * records an argument error. */
    method WithCompiledManifestFunctions(keys: seq<string>, render: (string, string) -> Result<string>)
      requires multiset(keys) == multiset(TemplateKeywords)
      modifies this
      ensures old(content) == "" ==> err == Some(NewArgumentError(EmptyCompileText, NoCause)) && content == old(content)
      ensures old(content) != "" ==>
        content == Compiled(old(content), keys, render).content
        && err == (if Compiled(old(content), keys, render).error.Some? then Compiled(old(content), keys, render).error else old(err))
      ensures manifestFile == old(manifestFile) && manifestType == old(manifestType) && taskManifestSpec == old(taskManifestSpec)
      ensures client == old(client) && baseDir == old(baseDir) && baseDirAbs == old(baseDirAbs)
    {
      if content == "" {
        err := Some(NewArgumentError(EmptyCompileText, NoCause));
        return;
      }
      var i := 0;
      while i < |keys|
        invariant 0 <= i <= |keys|
        invariant Compiled(content, keys[i..], render) == Compiled(old(content), keys, render)
        invariant err == old(err)
        invariant manifestFile == old(manifestFile) && manifestType == old(manifestType) && taskManifestSpec == old(taskManifestSpec)
        invariant client == old(client) && baseDir == old(baseDir) && baseDirAbs == old(baseDirAbs)
      {
        assert keys[i..][1..] == keys[i + 1..];
        if Contains(content, keys[i]) {
          var compiled := render(keys[i], content);
          if compiled.Err? {
            err := Some(NewArgumentError(CompileFailedText + Message(compiled.error), Caused(compiled.error)));
            return;
          }
          content := compiled.value;
        }
        i := i + 1;
      }
    }

    /** Parses the buffer into the stored manifest; an empty buffer or a
      * parse failure records an argument error. */
    method WithConstructedSpec(yaml: Yaml<Manifest>)
      modifies this
      ensures content == "" ==> err == Some(NewArgumentError(EmptyConstructText, NoCause)) && taskManifestSpec == old(taskManifestSpec)
      ensures content != "" && yaml.fromContent(content).Err? ==>
        err == Some(NewArgumentError(ParseContentText + manifestFile, Caused(yaml.fromContent(content).error)))
        && taskManifestSpec == old(taskManifestSpec)
      ensures content != "" && yaml.fromContent(content).Ok? ==>
        taskManifestSpec == Some(yaml.fromContent(content).value) && err == old(err)
      ensures manifestFile == old(manifestFile) && manifestType == old(manifestType) && content == old(content)
      ensures client == old(client) && baseDir == old(baseDir) && baseDirAbs == old(baseDirAbs)
    {
      if content == "" {
        err := Some(NewArgumentError(EmptyConstructText, NoCause));
        return;
      }
      var parsed := yaml.fromContent(content);
      if parsed.Err? {
        err := Some(NewArgumentError(ParseContentText + manifestFile, Caused(parsed.error)));
        return;
      }
      taskManifestSpec := Some(parsed.value);
    }

    /** Checks the type and the file's structure and parses it, but keeps
      * nothing: the parsed manifest is a local, so the stored one is never
      * set here. */
    method WithCompiledManifestStructure(yaml: Yaml<Manifest>)
      modifies this
      ensures manifestType != ManifestTypeTask ==> err == Some(NewArgumentError(StructureTypeText + manifestType, NoCause))
      ensures manifestType == ManifestTypeTask && yaml.structureIsValid(manifestFile).Fail? ==>
        var e := yaml.structureIsValid(manifestFile).error;
        err == Some(NewArgumentError(InvalidStructureText + Message(e), Caused(e)))
      ensures manifestType == ManifestTypeTask && yaml.structureIsValid(manifestFile).Pass? && yaml.fromFile(manifestFile).Err? ==>
        err == Some(NewArgumentError(ParseFileText + manifestFile, Caused(yaml.fromFile(manifestFile).error)))
      ensures manifestType == ManifestTypeTask && yaml.structureIsValid(manifestFile).Pass? && yaml.fromFile(manifestFile).Ok? ==>
        err == old(err)
      ensures taskManifestSpec == old(taskManifestSpec)
      ensures manifestFile == old(manifestFile) && manifestType == old(manifestType) && content == old(content)
      ensures client == old(client) && baseDir == old(baseDir) && baseDirAbs == old(baseDirAbs)
    {
      if manifestType != ManifestTypeTask {
        err := Some(NewArgumentError(StructureTypeText + manifestType, NoCause));
        return;
      }
      var structure := yaml.structureIsValid(manifestFile);
      if structure.Fail? {
        err := Some(NewArgumentError(InvalidStructureText + Message(structure.error), Caused(structure.error)));
        return;
      }
      var parsed := yaml.fromFile(manifestFile);
      if parsed.Err? {
        err := Some(NewArgumentError(ParseFileText + manifestFile, Caused(parsed.error)));
        return;
      }
    }

    /** Runs the ordered checks on the stored manifest, defaulting an empty
      * base directory in place once the image check has passed; the first
      * failure is recorded as a manifest error. */
    method WithStrictDeepValidation(fs: HostFs)
      modifies this
      ensures taskManifestSpec == Defaulted(old(taskManifestSpec), baseDirAbs)
      ensures err == Recorded(old(err), DeepCheck(fs, MissingSpecText, taskManifestSpec))
      ensures manifestFile == old(manifestFile) && manifestType == old(manifestType) && content == old(content)
      ensures client == old(client) && baseDir == old(baseDir) && baseDirAbs == old(baseDirAbs)
    {
      if taskManifestSpec.None? {
        err := Some(NewManifestError(MissingSpecText, NoCause));
        return;
      }
      var m := taskManifestSpec.value;
      if !IsKind(m.kind) {
        err := Some(NewManifestError(KindText + m.kind + KindHint, NoCause));
        return;
      }
      if m.apiVersion != "v1" {
        err := Some(NewManifestError(ApiText + m.apiVersion + ApiHint, NoCause));
        return;
      }
      if m.metadata.name == "" {
        err := Some(NewManifestError(NameText, NoCause));
        return;
      }
      if m.spec.containerImage == "" {
        err := Some(NewManifestError(ImageText, NoCause));
        return;
      }
      if m.spec.baseDir == "" {
        m := m.(spec := m.spec.(baseDir := baseDirAbs));
        taskManifestSpec := Some(m);
      }
      var tail := CheckTail(fs, m);
      if tail.Fail? {
        err := Some(tail.error);
      }
    }

    /** Fails with a configuration error wrapping the last recorded error;
      * otherwise copies the stored manifest, which must have been set. */
    method Build() returns (r: Result<Manifest>)
      ensures err.Some? ==> r == Err(NewConfigurationError(BuildFailedText + manifestType + "'", Caused(err.value)))
      ensures err.None? && taskManifestSpec.None? ==> r == Err(NilDereference)
      ensures err.None? && taskManifestSpec.Some? ==> r == Ok(taskManifestSpec.value)
    {
      if err.Some? {
        return Err(NewConfigurationError(BuildFailedText + manifestType + "'", Caused(err.value)));
      }
      if taskManifestSpec.None? {
        return Err(NilDereference);
      }
      var m := taskManifestSpec.value;
      return Ok(TaskManifestSpec(m.apiVersion, m.kind, TaskMetadata(m.metadata.name),
        TaskSpec(m.spec.containerImage, m.spec.workdir, m.spec.mountDir, m.spec.baseDir,
          m.spec.commandsSpec, m.spec.envVarsSpec)));
    }
  }

  /** The checks of WithStrictDeepValidation from the work directory on. */
  method CheckTail<E>(fs: HostFs, m: TaskManifestSpec<E>) returns (o: Outcome)
    ensures o == TailCheck(fs, m)
  {
    if m.spec.workdir == "" {
      return Reject(WorkdirText);
    }
    if m.spec.mountDir == "" {
      return Reject(MountDirText);
    }
    var dirs := WorkDirIsValid(fs, WorkDirIsValidArgs(m.spec.baseDir, m.spec.workdir, m.spec.mountDir));
    if dirs.Fail? {
      return Reject(InvalidDirsText + Message(dirs.error));
    }
    o := CheckCommands(m.spec.commandsSpec);
  }

  datatype NewOpts = NewOpts(manifestType: string, client: Option<Client>, manifestFile: string)

  /** The verdict of NewTaskSpecBuilder, or with `legacy` of the older
    * NewManifestBuilder: a client, then a file name and a known manifest
    * type (the older builder checks the type first), then the client's
    * directories (a nil pointer otherwise) and a valid YAML file at the
    * joined path. The two builders word the type and file errors
    * differently. */
  function NewCheck(opts: NewOpts, fileIsValid: string -> Outcome, legacy: bool): Outcome
  {
    var badType := Fail(NewArgumentError((if legacy then LegacyBadTypeText else NewBadTypeText) + opts.manifestType, NoCause));
    if opts.client.None? then Fail(NewArgumentError(NoClientText, NoCause))
    else if legacy && !IsManifestType(opts.manifestType) then badType
    else if opts.manifestFile == "" then Fail(NewArgumentError(NoManifestFileText, NoCause))
    else if !IsManifestType(opts.manifestType) then badType
    else if opts.client.value.cfgDir.None? then Fail(NilDereference)
    else match fileIsValid(ManifestPath(opts))
      case Fail(e) => Fail(NewArgumentError((if legacy then LegacyInvalidFileText else NewInvalidFileText) + ManifestPath(opts), Caused(e)))
      case Pass => Pass
  }

  /** The manifest file joined to the client's base directory. */
  function ManifestPath(opts: NewOpts): string
    requires opts.client.Some? && opts.client.value.cfgDir.Some?
  {
    Join([opts.client.value.cfgDir.value.baseDir, opts.manifestFile])
  }

  /** A builder is made exactly for a client with directories, a file name,
    * one of the three manifest types and a valid YAML file at the joined
    * path; every refusal but the nil pointer is an argument error. Given
    * both an empty file name and an unknown type, the newer builder
    * reports the file name and the older one the type. */
  lemma NewCheckMeaning(opts: NewOpts, fileIsValid: string -> Outcome, legacy: bool)
    ensures var r := NewCheck(opts, fileIsValid, legacy);
      && (r.Pass? <==>
            && opts.client.Some? && opts.manifestFile != "" && IsManifestType(opts.manifestType)
            && opts.client.value.cfgDir.Some? && fileIsValid(ManifestPath(opts)).Pass?)
      && (r.Fail? && r.error != NilDereference ==> r.error.Typed? && r.error.kind == Argument)
      && (opts.client.None? ==> r == Fail(NewArgumentError(NoClientText, NoCause)))
      && (opts.client.Some? && opts.manifestFile == "" && !IsManifestType(opts.manifestType) ==>
            r == Fail(NewArgumentError(if legacy then LegacyBadTypeText + opts.manifestType else NoManifestFileText, NoCause)))
  {
  }

  /** NewTaskSpecBuilder: on success the builder holds the type, the joined
    * path, the client and its base directories, and nothing else yet. */
  method NewTaskSpecBuilder(opts: NewOpts, yaml: Yaml<Manifest>) returns (r: Result<Builder>)
    ensures var v := NewCheck(opts, yaml.fileIsValid, false);
      && (r.Ok? <==> v.Pass?)
      && (r.Err? ==> r.error == v.error)
    ensures r.Ok? ==> fresh(r.value)
    ensures r.Ok? ==>
      && opts.client.Some? && opts.client.value.cfgDir.Some?
      && r.value.manifestFile == ManifestPath(opts) && r.value.manifestType == opts.manifestType
      && r.value.client == opts.client.value
      && r.value.baseDir == opts.client.value.cfgDir.value.baseDir
      && r.value.baseDirAbs == opts.client.value.cfgDir.value.baseDirAbs
      && r.value.content == "" && r.value.taskManifestSpec == None && r.value.err == None
  {
    if opts.client.None? {
      return Err(NewArgumentError(NoClientText, NoCause));
    }
    if opts.manifestFile == "" {
      return Err(NewArgumentError(NoManifestFileText, NoCause));
    }
    if !IsManifestType(opts.manifestType) {
      return Err(NewArgumentError(NewBadTypeText + opts.manifestType, NoCause));
    }
    var client := opts.client.value;
    if client.cfgDir.None? {
      return Err(NilDereference);
    }
    var manifestFileFull := Join([client.cfgDir.value.baseDir, opts.manifestFile]);
    var valid := yaml.fileIsValid(manifestFileFull);
    if valid.Fail? {
      return Err(NewArgumentError(NewInvalidFileText + manifestFileFull, Caused(valid.error)));
    }
    var b := new Builder(opts.manifestType, manifestFileFull, client, client.cfgDir.value.baseDir, client.cfgDir.value.baseDirAbs);
    return Ok(b);
  }

  /** The chain NewTaskSpecBuilder, WithCompiledManifestStructure,
    * WithStrictDeepValidation, Build never yields a manifest: the structure
    * stage stores none, so validation overwrites whatever error came
    * before with the missing-manifest one. */
  method StructureChain(opts: NewOpts, yaml: Yaml<Manifest>, fs: HostFs) returns (r: Result<Manifest>)
    ensures r.Err?
    ensures NewCheck(opts, yaml.fileIsValid, false).Pass? ==>
      r == Err(NewConfigurationError(BuildFailedText + opts.manifestType + "'", Caused(NewManifestError(MissingSpecText, NoCause))))
  {
    var made := NewTaskSpecBuilder(opts, yaml);
    if made.Err? {
      return Err(made.error);
    }
    var b := made.value;
    b.WithCompiledManifestStructure(yaml);
    b.WithStrictDeepValidation(fs);
    r := b.Build();
  }

  /** The chain NewTaskSpecBuilder, WithExtractedManifestContent,
    * WithCompiledManifestFunctions, WithConstructedSpec,
    * WithStrictDeepValidation, Build: a manifest it yields was read from a
    * readable file and passes every deep check, with its base directory
    * filled in. */
  method ManifestFromFile(opts: NewOpts, yaml: Yaml<Manifest>, fs: HostFs, keys: seq<string>,
                          render: (string, string) -> Result<string>) returns (r: Result<Manifest>)
    requires multiset(keys) == multiset(TemplateKeywords)
    ensures r.Ok? ==> NewCheck(opts, yaml.fileIsValid, false).Pass?
    ensures r.Ok? ==> GetFileContent(fs, ManifestPath(opts)).Ok?
    ensures r.Ok? ==> DeepCheck(fs, MissingSpecText, Some(r.value)).Pass? && r.value.spec.baseDir != ""
  {
    var made := NewTaskSpecBuilder(opts, yaml);
    if made.Err? {
      return Err(made.error);
    }
    var b := made.value;
    b.WithExtractedManifestContent(fs);
    b.WithCompiledManifestFunctions(keys, render);
    b.WithConstructedSpec(yaml);
    b.WithStrictDeepValidation(fs);
    r := b.Build();
    if r.Ok? {
      DeepCheckMeaning(fs, MissingSpecText, Some(r.value));
    }
  }
}
