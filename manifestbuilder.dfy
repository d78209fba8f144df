/**
 * internal/core/specs/builder.go: the older manifest builder. It reads the
 * manifest straight from its file, fills in the base directory when it
 * parses it, and validates it with the same ordered checks as the newer
 * builder. Its conversion reads an environment section of another shape
 * (an `Options` record of scan switches and key lists) than the one
 * taskspec.go declares.
 */
module LegacySpecs {
  import opened Errors
  import opened Paths
  import opened FileSystem
  import opened EnvVars
  import opened Entities
  import opened JobEnv
  import opened TaskSpecs
  import JobBuilder
  import EnvFetcher

  /** The environment section this builder's conversion reads. */
  datatype LegacyOptions = LegacyOptions(
    scanTerraformEnvVars: bool,
    scanAWSEnvVars: seq<string>,
    scanCustomEnvVars: seq<string>,
    dotFiles: seq<string>)

  datatype LegacyEnvVarsSpec = LegacyEnvVarsSpec(options: LegacyOptions)

  type LegacyManifest = TaskManifestSpec<LegacyEnvVarsSpec>

  const LegacyStructureText := "Cannot add task manifests, invalid yaml structure for file "
  const LegacyParseText := "Cannot add task manifests, cannot parse yaml file "
  const LegacyMissingSpecText := "task manifest is required prior to this API execution. Ensure that you've called the WithGeneratedTaskManifest method"

  /** A source enabled with FailIfNotSet and the given required keys. */
  function Required(keys: seq<string>): EnvVarBehaviourOptions {
    EnvVarBehaviourOptions(keys, true, true, [], [], [])
  }

  /** The environment options of a converted task: the Terraform scan when
    * switched on, with no required keys; the AWS and custom sources when
    * their key lists are non-empty, requiring those keys; the ".env" files
    * when listed. Every enabled source fails on a missing variable. */
  function LegacyEnvOptionsOf(e: LegacyEnvVarsSpec): (o: EnvVarsOptions)
    ensures o.envVarsTerraformCfg == (if e.options.scanTerraformEnvVars then Required([]) else Disabled)
    ensures o.envVarsAWSCfg.enabled <==> |e.options.scanAWSEnvVars| > 0
    ensures o.envVarsCustomCfg.enabled <==> |e.options.scanCustomEnvVars| > 0
    ensures o.envVarsFromDotFileCfg.enabled <==> |e.options.dotFiles| > 0
    ensures |e.options.scanAWSEnvVars| > 0 ==>
      o.envVarsAWSCfg.failIfNotSet && o.envVarsAWSCfg.requiredEnvVars == e.options.scanAWSEnvVars
    ensures |e.options.scanCustomEnvVars| > 0 ==>
      o.envVarsCustomCfg.failIfNotSet && o.envVarsCustomCfg.requiredEnvVars == e.options.scanCustomEnvVars
    ensures |e.options.dotFiles| > 0 ==>
      o.envVarsFromDotFileCfg.failIfNotSet && o.envVarsFromDotFileCfg.dotFiles == e.options.dotFiles
    ensures o.envVarsHostCfg == Disabled && !o.inheritEnvVarsFromJob && o.envVarsExplicit == map[]
  {
    var opts := e.options;
    var tf := if opts.scanTerraformEnvVars then Required([]) else Disabled;
    var aws := if |opts.scanAWSEnvVars| != 0 then Required(opts.scanAWSEnvVars) else Disabled;
    var custom := if |opts.scanCustomEnvVars| != 0 then Required(opts.scanCustomEnvVars) else Disabled;
    var dots := if |opts.dotFiles| != 0 then EnvVarBehaviourOptions([], true, true, opts.dotFiles, [], []) else Disabled;
    EnvVarsOptions(false, Disabled, aws, tf, custom, dots, map[])
  }

  /** With no scan switched on and no key or ".env" list, the task's
    * environment is empty whatever the host holds. */
  lemma LegacyNoSourceDecoratesEmpty(env: seq<string>, fs: HostFs, e: LegacyEnvVarsSpec)
    requires !e.options.scanTerraformEnvVars && |e.options.scanAWSEnvVars| == 0
    requires |e.options.scanCustomEnvVars| == 0 && |e.options.dotFiles| == 0
    ensures Decorated(env, fs, LegacyEnvOptionsOf(e)) == Ok(map[])
  {
    var o := LegacyEnvOptionsOf(e);
    QuietLayers(o, EnvFetcher.ByType(env, AwsOpt(o)), EnvFetcher.ByType(env, TerraformOpt(o)),
      EnvFetcher.FromHost(env, HostOpt(o)), EnvFetcher.SpecificKeys(env, CustomOpt(o)),
      Stack(DotFileSources(fs, o.envVarsFromDotFileCfg.dotFiles)));
  }

  /** The older TaskManifestSpec.Convert: as the newer one for the task
    * arguments, with the environment options read from `Options`. */
  method LegacyConvert(s: Option<LegacyManifest>) returns (r: Result<ConvertedTask>)
    ensures s.None? ==> r == Err(NewManifestError(NilSpecText, NoCause))
    ensures s.Some? ==> r.Ok?
    ensures r.Ok? ==> var m := s.value; var t := r.value.task;
      && t.name == m.metadata.name && t.containerImage == m.spec.containerImage
      && t.workDir == m.spec.workdir && t.mountDir == m.spec.mountDir && t.baseDir == m.spec.baseDir
      && |t.commands| == |m.spec.commandsSpec|
      && (forall i :: 0 <= i < |t.commands| ==> t.commands[i] == CommandArgsOf(m.spec.commandsSpec[i]))
      && r.value.taskEnvCfg == LegacyEnvOptionsOf(m.spec.envVarsSpec)
  {
    if s.None? {
      return Err(NewManifestError(NilSpecText, NoCause));
    }
    var m := s.value;
    var taskCommandArgs := ConvertCommands(m.spec.commandsSpec);
    var envVarsOptions := LegacyEnvOptionsOf(m.spec.envVarsSpec);
    var task := JobBuilder.TaskNewArgs(m.metadata.name, m.spec.containerImage, taskCommandArgs,
      m.spec.baseDir, m.spec.workdir, m.spec.mountDir);
    return Ok(ConvertedTask(task, envVarsOptions));
  }

  /** A parsed manifest with an empty base directory given `baseDirAbs`. */
  function WithBase(m: LegacyManifest, baseDirAbs: string): (d: LegacyManifest)
    ensures d.spec.baseDir == (if m.spec.baseDir == "" then baseDirAbs else m.spec.baseDir)
    ensures d == m.(spec := d.spec) && d.spec == m.spec.(baseDir := d.spec.baseDir)
  {
    if m.spec.baseDir == "" then m.(spec := m.spec.(baseDir := baseDirAbs)) else m
  }

  class ManifestBuilder {
    var manifestFile: string
    var manifestType: string
    var taskManifestSpec: Option<LegacyManifest>
    var client: Client
    var err: Option<Error>
    var baseDir: string
    var baseDirAbs: string

    constructor (manifestType: string, manifestFile: string, client: Client, baseDir: string, baseDirAbs: string)
      ensures this.manifestType == manifestType && this.manifestFile == manifestFile && this.client == client
      ensures this.baseDir == baseDir && this.baseDirAbs == baseDirAbs
      ensures taskManifestSpec == None && err == None
    {
      this.manifestType := manifestType;
      this.manifestFile := manifestFile;
      this.client := client;
      this.baseDir := baseDir;
      this.baseDirAbs := baseDirAbs;
      taskManifestSpec := None;
      err := None;
    }

    /** Parses the file of a task manifest into the stored manifest, its
      * base directory filled in; a wrong type, a bad structure or a parse
      * failure records an argument error and stores nothing. */
    method WithGeneratedTaskManifest(yaml: Yaml<LegacyManifest>)
      modifies this
      ensures manifestType != ManifestTypeTask ==>
        err == Some(NewArgumentError(LegacyBadTypeText + manifestType, NoCause)) && taskManifestSpec == old(taskManifestSpec)
      ensures manifestType == ManifestTypeTask && yaml.structureIsValid(manifestFile).Fail? ==>
        err == Some(NewArgumentError(LegacyStructureText + manifestFile, Caused(yaml.structureIsValid(manifestFile).error)))
        && taskManifestSpec == old(taskManifestSpec)
      ensures manifestType == ManifestTypeTask && yaml.structureIsValid(manifestFile).Pass? && yaml.fromFile(manifestFile).Err? ==>
        err == Some(NewArgumentError(LegacyParseText + manifestFile, Caused(yaml.fromFile(manifestFile).error)))
        && taskManifestSpec == old(taskManifestSpec)
      ensures manifestType == ManifestTypeTask && yaml.structureIsValid(manifestFile).Pass? && yaml.fromFile(manifestFile).Ok? ==>
        taskManifestSpec == Some(WithBase(yaml.fromFile(manifestFile).value, baseDirAbs)) && err == old(err)
      ensures manifestFile == old(manifestFile) && manifestType == old(manifestType)
      ensures client == old(client) && baseDir == old(baseDir) && baseDirAbs == old(baseDirAbs)
    {
      if manifestType != ManifestTypeTask {
        err := Some(NewArgumentError(LegacyBadTypeText + manifestType, NoCause));
        return;
      }
      var structure := yaml.structureIsValid(manifestFile);
      if structure.Fail? {
        err := Some(NewArgumentError(LegacyStructureText + manifestFile, Caused(structure.error)));
        return;
      }
      var parsed := yaml.fromFile(manifestFile);
      if parsed.Err? {
        err := Some(NewArgumentError(LegacyParseText + manifestFile, Caused(parsed.error)));
        return;
      }
      var m := parsed.value;
      if m.spec.baseDir == "" {
        m := m.(spec := m.spec.(baseDir := baseDirAbs));
      }
      taskManifestSpec := Some(m);
    }

    /** The ordered checks of the newer builder on the stored manifest,
      * which is left as it is; the first failure is recorded. */
    method WithStrictDeepValidation(fs: HostFs)
      modifies this
      ensures err == Recorded(old(err), DeepCheck(fs, LegacyMissingSpecText, taskManifestSpec))
      ensures taskManifestSpec == old(taskManifestSpec)
      ensures manifestFile == old(manifestFile) && manifestType == old(manifestType)
      ensures client == old(client) && baseDir == old(baseDir) && baseDirAbs == old(baseDirAbs)
    {
      if taskManifestSpec.None? {
        err := Some(NewManifestError(LegacyMissingSpecText, NoCause));
        return;
      }
      var m := taskManifestSpec.value;
      if !IsKind(m.kind) {
        err := Some(NewManifestError(KindText + m.kind + KindHint, NoCause));
        return;
      }
      if m.apiVersion != "v1" {
        err := Some(NewManifestError(ApiText + m.apiVersion + ApiHint, NoCause));
        return;
      }
      if m.metadata.name == "" {
        err := Some(NewManifestError(NameText, NoCause));
        return;
      }
      if m.spec.containerImage == "" {
        err := Some(NewManifestError(ImageText, NoCause));
        return;
      }
      var tail := CheckTail(fs, m);
      if tail.Fail? {
        err := Some(tail.error);
      }
    }

    /** Fails with a configuration error wrapping the recorded error;
      * otherwise copies the stored manifest, which must have been set. */
    method Build() returns (r: Result<LegacyManifest>)
      ensures err.Some? ==> r == Err(NewConfigurationError(BuildFailedText + manifestType + "'", Caused(err.value)))
      ensures err.None? && taskManifestSpec.None? ==> r == Err(NilDereference)
      ensures err.None? && taskManifestSpec.Some? ==> r == Ok(taskManifestSpec.value)
    {
      if err.Some? {
        return Err(NewConfigurationError(BuildFailedText + manifestType + "'", Caused(err.value)));
      }
      if taskManifestSpec.None? {
        return Err(NilDereference);
      }
      var m := taskManifestSpec.value;
      return Ok(TaskManifestSpec(m.apiVersion, m.kind, TaskMetadata(m.metadata.name),
        TaskSpec(m.spec.containerImage, m.spec.workdir, m.spec.mountDir, m.spec.baseDir,
          m.spec.commandsSpec, m.spec.envVarsSpec)));
    }
  }

  /** NewManifestBuilder: the type is checked before the file name; on
    * success the builder holds the type, the joined path, the client and
    * its base directories. */
  method NewManifestBuilder(opts: NewOpts, yaml: Yaml<LegacyManifest>) returns (r: Result<ManifestBuilder>)
    ensures var v := NewCheck(opts, yaml.fileIsValid, true);
      && (r.Ok? <==> v.Pass?)
      && (r.Err? ==> r.error == v.error)
    ensures r.Ok? ==> fresh(r.value)
    ensures r.Ok? ==>
      && opts.client.Some? && opts.client.value.cfgDir.Some?
      && r.value.manifestFile == ManifestPath(opts) && r.value.manifestType == opts.manifestType
      && r.value.client == opts.client.value
      && r.value.baseDir == opts.client.value.cfgDir.value.baseDir
      && r.value.baseDirAbs == opts.client.value.cfgDir.value.baseDirAbs
      && r.value.taskManifestSpec == None && r.value.err == None
  {
    if opts.client.None? {
      return Err(NewArgumentError(NoClientText, NoCause));
    }
    if !IsManifestType(opts.manifestType) {
      return Err(NewArgumentError(LegacyBadTypeText + opts.manifestType, NoCause));
    }
    if opts.manifestFile == "" {
      return Err(NewArgumentError(NoManifestFileText, NoCause));
    }
    var client := opts.client.value;
    if client.cfgDir.None? {
      return Err(NilDereference);
    }
    var manifestFileFull := Join([client.cfgDir.value.baseDir, opts.manifestFile]);
    var valid := yaml.fileIsValid(manifestFileFull);
    if valid.Fail? {
      return Err(NewArgumentError(LegacyInvalidFileText + manifestFileFull, Caused(valid.error)));
    }
    var b := new ManifestBuilder(opts.manifestType, manifestFileFull, client, client.cfgDir.value.baseDir, client.cfgDir.value.baseDirAbs);
    return Ok(b);
  }

  /** Whether the chain below yields a manifest: the builder is made for a
    * task manifest whose file parses, and the parsed manifest, its base
    * directory filled in, passes every deep check. */
  predicate ChainSucceeds(opts: NewOpts, yaml: Yaml<LegacyManifest>, fs: HostFs) {
    && NewCheck(opts, yaml.fileIsValid, true).Pass?
    && opts.manifestType == ManifestTypeTask
    && yaml.structureIsValid(ManifestPath(opts)).Pass?
    && yaml.fromFile(ManifestPath(opts)).Ok?
    && DeepCheck(fs, LegacyMissingSpecText,
         Some(WithBase(yaml.fromFile(ManifestPath(opts)).value, opts.client.value.cfgDir.value.baseDirAbs))).Pass?
  }

  /** The chain NewManifestBuilder, WithGeneratedTaskManifest,
    * WithStrictDeepValidation, Build: it yields a manifest exactly when
    * every stage passes, and then the parsed one with its base directory
    * filled in. */
  method ManifestFromFile(opts: NewOpts, yaml: Yaml<LegacyManifest>, fs: HostFs) returns (r: Result<LegacyManifest>)
    ensures r.Ok? <==> ChainSucceeds(opts, yaml, fs)
    ensures r.Ok? ==>
      r.value == WithBase(yaml.fromFile(ManifestPath(opts)).value, opts.client.value.cfgDir.value.baseDirAbs)
      && r.value.spec.baseDir != ""
  {
    var made := NewManifestBuilder(opts, yaml);
    if made.Err? {
      return Err(made.error);
    }
    var b := made.value;
    b.WithGeneratedTaskManifest(yaml);
    b.WithStrictDeepValidation(fs);
    r := b.Build();
    if r.Ok? {
      DeepCheckMeaning(fs, LegacyMissingSpecText, Some(r.value));
    }
  }
}
