/**
 * internal/core/job/envvars.go: the environment a task or job runs with.
 * Five sources — the AWS_ variables, the TF_ variables, the whole host,
 * a list of specific keys and a list of ".env" files — are consulted in
 * that fixed order, each only when enabled; each result is merged on top
 * of the running one and the first failure ends the decoration.
 */
module JobEnv {
  import opened Errors
  import opened Normaliser
  import opened FileSystem
  import opened EnvVars
  import EnvFetcher

  /** One source's settings. Only Enabled, FailIfNotSet, RequiredEnvVars
    * and DotFiles are ever read. */
  datatype EnvVarBehaviourOptions = EnvVarBehaviourOptions(
    requiredEnvVars: seq<string>,
    failIfNotSet: bool,
    enabled: bool,
    dotFiles: seq<string>,
    ignoreIfNotSetOrEmpty: seq<string>,
    removeEnvVarsIfFound: seq<string>)

  /** The settings of all sources. `envVarsExplicit` is the map the newer
    * manifest conversion stores (the struct in envvars.go does not declare
    * it); nothing here reads it. */
  datatype EnvVarsOptions = EnvVarsOptions(
    inheritEnvVarsFromJob: bool,
    envVarsHostCfg: EnvVarBehaviourOptions,
    envVarsAWSCfg: EnvVarBehaviourOptions,
    envVarsTerraformCfg: EnvVarBehaviourOptions,
    envVarsCustomCfg: EnvVarBehaviourOptions,
    envVarsFromDotFileCfg: EnvVarBehaviourOptions,
    envVarsExplicit: EnvMap)

  /** The zero value of a source's settings: disabled. */
  const Disabled := EnvVarBehaviourOptions([], false, false, [], [], [])

  const AwsPrefix := "AWS_"
  const TerraformPrefix := "TF_"

  // ---------------------------------------------------------------------
  // Layering sources

  /** A source as the decoration sees it: whether it is enabled and what
    * fetching it yields. */
  datatype Source = Source(enabled: bool, fetched: Result<EnvMap>)

  /** MergeEnvVars(acc, m). */
  function MergeOnto(acc: EnvMap, m: EnvMap): EnvMap {
    Merged([acc, m], RemoveDoubleQuotes)
  }

  /** One source laid on the result of the ones before it. */
  function Stage(below: Result<EnvMap>, top: Source): Result<EnvMap> {
    if below.Err? || !top.enabled then below
    else if top.fetched.Err? then Err(top.fetched.error)
    else Ok(MergeOnto(below.value, top.fetched.value))
  }

  /** The sources laid one on the other, in order, from nothing. */
  function Stack(sources: seq<Source>): Result<EnvMap> {
    if |sources| == 0 then Ok(map[])
    else Stage(Stack(sources[..|sources| - 1]), sources[|sources| - 1])
  }

  lemma StackPrefix(sources: seq<Source>, k: int)
    requires 0 <= k < |sources|
    ensures Stack(sources[..k + 1]) == Stage(Stack(sources[..k]), sources[k])
  {
    assert sources[..k + 1][..k] == sources[..k];
  }

  /** Once failed, a stack stays failed with the same error. */
  lemma {:induction false} StackErrPropagates(sources: seq<Source>, k: int)
    requires 0 <= k <= |sources| && Stack(sources[..k]).Err?
    ensures Stack(sources) == Stack(sources[..k])
    decreases |sources|
  {
    if k < |sources| {
      var n := |sources| - 1;
      assert sources[..n][..k] == sources[..k];
      StackErrPropagates(sources[..n], k);
      assert sources[..|sources|] == sources;
    } else {
      assert sources[..k] == sources;
    }
  }

  predicate Broken(s: Source) {
    s.enabled && s.fetched.Err?
  }

  /** The first enabled source whose fetch fails. */
  function FirstFailure(sources: seq<Source>): (r: Option<nat>)
    ensures r.Some? ==> r.value < |sources| && Broken(sources[r.value])
  {
    if |sources| == 0 then None
    else match FirstFailure(sources[..|sources| - 1])
      case Some(i) => Some(i)
      case None => if Broken(sources[|sources| - 1]) then Some(|sources| - 1) else None
  }

  /** The stack fails exactly when an enabled source fails, and then with
    * that first failure's error: no partial result is returned. */
  lemma {:induction false} StackFailsFirst(sources: seq<Source>)
    ensures Stack(sources).Err? <==> FirstFailure(sources).Some?
    ensures Stack(sources).Err? ==> Stack(sources).error == sources[FirstFailure(sources).value].fetched.error
    ensures FirstFailure(sources).Some? ==>
      forall j :: 0 <= j < FirstFailure(sources).value ==> !Broken(sources[j])
    ensures FirstFailure(sources).None? ==> forall j :: 0 <= j < |sources| ==> !Broken(sources[j])
    decreases |sources|
  {
    if |sources| > 0 {
      var n := |sources| - 1;
      var init := sources[..n];
      StackFailsFirst(init);
      assert forall j :: 0 <= j < n ==> init[j] == sources[j];
    }
  }

  /** With every source disabled the result is the empty (nil) map. */
  lemma {:induction false} StackNoneEnabled(sources: seq<Source>)
    requires forall i :: 0 <= i < |sources| ==> !sources[i].enabled
    ensures Stack(sources) == Ok(map[])
    decreases |sources|
  {
    if |sources| > 0 {
      var init := sources[..|sources| - 1];
      assert forall i :: 0 <= i < |init| ==> init[i] == sources[i];
      StackNoneEnabled(init);
    }
  }

  /** Two maps merged: the lower one's usable entries, overridden by the top's. */
  lemma MergedPair(lower: EnvMap, top: EnvMap, clean: string -> string)
    ensures Merged([lower, top], clean) == Filtered(lower, clean) + Filtered(top, clean)
  {
    assert [lower, top][..1] == [lower];
    assert [lower][..0] == [];
    assert Merged([lower], clean) == map[] + Filtered(lower, clean);
    assert map[] + Filtered(lower, clean) == Filtered(lower, clean);
  }

  lemma MergeOntoSplits(acc: EnvMap, m: EnvMap)
    ensures MergeOnto(acc, m) == Filtered(acc, RemoveDoubleQuotes) + Filtered(m, RemoveDoubleQuotes)
  {
    MergedPair(acc, m, RemoveDoubleQuotes);
  }

  /** A key of a merge has a usable entry in one of the two maps. */
  lemma MergeOntoKey(acc: EnvMap, m: EnvMap, k: string)
    requires k in MergeOnto(acc, m)
    ensures k != ""
    ensures (k in m && m[k] != "") || (k in acc && acc[k] != "")
  {
    MergedPair(acc, m, RemoveDoubleQuotes);
    FilteredKey(acc, m, k, RemoveDoubleQuotes);
  }

  lemma FilteredKey(acc: EnvMap, m: EnvMap, k: string, clean: string -> string)
    requires k in Filtered(acc, clean) + Filtered(m, clean)
    ensures k != ""
    ensures (k in m && m[k] != "") || (k in acc && acc[k] != "")
  {
  }

  /** The top map's usable entry wins. */
  lemma MergeOntoTop(acc: EnvMap, m: EnvMap, k: string)
    requires k in m && k != "" && m[k] != ""
    ensures k in MergeOnto(acc, m) && MergeOnto(acc, m)[k] == RemoveDoubleQuotes(m[k])
  {
    MergeOntoSplits(acc, m);
  }

  /** An entry below survives a top map that has no usable entry for it. */
  lemma MergeOntoKeeps(acc: EnvMap, m: EnvMap, k: string)
    requires k in acc && k != "" && acc[k] != ""
    requires k !in m || m[k] == ""
    ensures k in MergeOnto(acc, m) && MergeOnto(acc, m)[k] == RemoveDoubleQuotes(acc[k])
  {
    MergeOntoSplits(acc, m);
  }

  /** The source supplies a usable entry for `k`. */
  predicate SuppliesKey(s: Source, k: string) {
    s.enabled && s.fetched.Ok? && k in s.fetched.value && s.fetched.value[k] != ""
  }

  /** Later sources win: the value of the last enabled source that supplies
    * a key is the one the result holds, provided it does not unquote to
    * nothing. */
  lemma {:induction false} StackLastWins(sources: seq<Source>, i: int, k: string)
    requires 0 <= i < |sources| && k != "" && SuppliesKey(sources[i], k)
    requires RemoveDoubleQuotes(sources[i].fetched.value[k]) != ""
    requires forall j :: i < j < |sources| ==> !SuppliesKey(sources[j], k)
    requires Stack(sources).Ok?
    ensures k in Stack(sources).value
    ensures Stack(sources).value[k] == RemoveDoubleQuotes(sources[i].fetched.value[k])
    decreases |sources|
  {
    var n := |sources| - 1;
    var init := sources[..n];
    var v := RemoveDoubleQuotes(sources[i].fetched.value[k]);
    if Stack(init).Err? {
      assert false;
    }
    if i == n {
      MergeOntoTop(Stack(init).value, sources[n].fetched.value, k);
    } else {
      assert init[i] == sources[i];
      assert forall j :: i < j < |init| ==> init[j] == sources[j];
      StackLastWins(init, i, k);
      if sources[n].enabled {
        assert !SuppliesKey(sources[n], k);
        MergeOntoKeeps(Stack(init).value, sources[n].fetched.value, k);
        RemoveDoubleQuotesIdempotent(sources[i].fetched.value[k]);
      }
    }
  }

  /** Every key of the result comes from some enabled source. */
  lemma {:induction false} StackKeysFromSources(sources: seq<Source>, k: string)
    requires Stack(sources).Ok? && k in Stack(sources).value
    ensures exists i :: 0 <= i < |sources| && SuppliesKey(sources[i], k)
    decreases |sources|
  {
    var n := |sources| - 1;
    var init := sources[..n];
    var below := Stack(init);
    if below.Err? {
      assert false;
    }
    if sources[n].enabled {
      MergeOntoKey(below.value, sources[n].fetched.value, k);
      if k in sources[n].fetched.value && sources[n].fetched.value[k] != "" {
        assert SuppliesKey(sources[n], k);
        return;
      }
    }
    StackKeysFromSources(init, k);
    var i :| 0 <= i < |init| && SuppliesKey(init[i], k);
    assert init[i] == sources[i];
  }

  // ---------------------------------------------------------------------
  // The five sources

  /** The ".env" files as sources, each always enabled. */
  function DotFileSources(fs: HostFs, dotFiles: seq<string>): (s: seq<Source>)
    ensures |s| == |dotFiles|
    ensures forall i :: 0 <= i < |s| ==> s[i] == Source(true, EnvFetcher.FromDotFile(fs, dotFiles[i]))
  {
    seq(|dotFiles|, i requires 0 <= i < |dotFiles| => Source(true, EnvFetcher.FromDotFile(fs, dotFiles[i])))
  }

  /** The five sources in the order DecorateWithEnvVars consults them,
    * given what fetching each yields. */
  function Layers(opts: EnvVarsOptions, aws: Result<EnvMap>, tf: Result<EnvMap>, host: Result<EnvMap>,
                  custom: Result<EnvMap>, dots: Result<EnvMap>): (s: seq<Source>)
    ensures |s| == 5
    ensures s[0] == Source(opts.envVarsAWSCfg.enabled, aws)
    ensures s[1] == Source(opts.envVarsTerraformCfg.enabled, tf)
    ensures s[2] == Source(opts.envVarsHostCfg.enabled, host)
    ensures s[3] == Source(opts.envVarsCustomCfg.enabled, custom)
    ensures s[4] == Source(opts.envVarsFromDotFileCfg.enabled, dots)
  {
    [ Source(opts.envVarsAWSCfg.enabled, aws),
      Source(opts.envVarsTerraformCfg.enabled, tf),
      Source(opts.envVarsHostCfg.enabled, host),
      Source(opts.envVarsCustomCfg.enabled, custom),
      Source(opts.envVarsFromDotFileCfg.enabled, dots) ]
  }

  function AwsOpt(opts: EnvVarsOptions): EnvFetcher.EnvVarsByTypeOpt {
    EnvFetcher.EnvVarsByTypeOpt(opts.envVarsAWSCfg.failIfNotSet, opts.envVarsAWSCfg.requiredEnvVars, AwsPrefix)
  }

  function TerraformOpt(opts: EnvVarsOptions): EnvFetcher.EnvVarsByTypeOpt {
    EnvFetcher.EnvVarsByTypeOpt(opts.envVarsTerraformCfg.failIfNotSet, opts.envVarsTerraformCfg.requiredEnvVars, TerraformPrefix)
  }

  function HostOpt(opts: EnvVarsOptions): EnvFetcher.EnvVarsHostOpt {
    EnvFetcher.EnvVarsHostOpt(opts.envVarsHostCfg.requiredEnvVars, opts.envVarsHostCfg.failIfNotSet)
  }

  /** The custom source's keys are its RequiredEnvVars. */
  function CustomOpt(opts: EnvVarsOptions): EnvFetcher.EnvVarsSpecificKeysOpt {
    EnvFetcher.EnvVarsSpecificKeysOpt(opts.envVarsCustomCfg.failIfNotSet, opts.envVarsCustomCfg.requiredEnvVars)
  }

  /** The sources DecorateWithEnvVars consults, in its order; the ".env"
    * files are merged with each other first. */
  function Sources(env: seq<string>, fs: HostFs, opts: EnvVarsOptions): seq<Source> {
    Layers(opts,
      EnvFetcher.ByType(env, AwsOpt(opts)),
      EnvFetcher.ByType(env, TerraformOpt(opts)),
      EnvFetcher.FromHost(env, HostOpt(opts)),
      EnvFetcher.SpecificKeys(env, CustomOpt(opts)),
      Stack(DotFileSources(fs, opts.envVarsFromDotFileCfg.dotFiles)))
  }

  /** What DecorateWithEnvVars computes. */
  function Decorated(env: seq<string>, fs: HostFs, opts: EnvVarsOptions): Result<EnvMap> {
    Stack(Sources(env, fs, opts))
  }

  /** The stack of the five layers, written out stage by stage. */
  lemma LayersUnfold(opts: EnvVarsOptions, aws: Result<EnvMap>, tf: Result<EnvMap>, host: Result<EnvMap>,
                     custom: Result<EnvMap>, dots: Result<EnvMap>)
    ensures Stack(Layers(opts, aws, tf, host, custom, dots))
         == Stage(Stage(Stage(Stage(Stage(Ok(map[]),
              Source(opts.envVarsAWSCfg.enabled, aws)),
              Source(opts.envVarsTerraformCfg.enabled, tf)),
              Source(opts.envVarsHostCfg.enabled, host)),
              Source(opts.envVarsCustomCfg.enabled, custom)),
              Source(opts.envVarsFromDotFileCfg.enabled, dots))
  {
    var s := Layers(opts, aws, tf, host, custom, dots);
    assert s[..0] == [];
    StackPrefix(s, 0);
    StackPrefix(s, 1);
    StackPrefix(s, 2);
    StackPrefix(s, 3);
    StackPrefix(s, 4);
    assert s[..5] == s;
  }

  /** The ".env" loop: each file's map is merged onto the ones before it;
    * the first file that fails ends the loop. */
  method MergeDotFiles(fs: HostFs, dotFiles: seq<string>) returns (r: Result<EnvMap>)
    ensures r == Stack(DotFileSources(fs, dotFiles))
  {
    ghost var fileSources := DotFileSources(fs, dotFiles);
    var dotFileEnvVars: EnvMap := map[];
    var i := 0;
    while i < |dotFiles|
      invariant 0 <= i <= |dotFiles|
      invariant Stack(fileSources[..i]) == Ok(dotFileEnvVars)
    {
      // The source names this `envVars`, shadowing the outer accumulator.
      var fileEnvVars := EnvFetcher.GetEnvVarsFromDotFile(fs, dotFiles[i]);
      StackPrefix(fileSources, i);
      if fileEnvVars.Err? {
        StackErrPropagates(fileSources, i + 1);
        return Err(fileEnvVars.error);
      }
      dotFileEnvVars := MergeEnvVars([dotFileEnvVars, fileEnvVars.value]);
      i := i + 1;
    }
    assert fileSources[..i] == fileSources;
    return Ok(dotFileEnvVars);
  }

  /** An enabled source laid on a successful result. */
  function Laid(below: EnvMap, fetched: Result<EnvMap>): (r: Result<EnvMap>)
    ensures r == Stage(Ok(below), Source(true, fetched))
  {
    if fetched.Err? then Err(fetched.error) else Ok(MergeOnto(below, fetched.value))
  }

  /** The tail of each `if ...Cfg.Enabled` block of DecorateWithEnvVars: a
    * failed fetch is returned, a successful one merged onto the result. */
  method MergeFetched(below: EnvMap, fetched: Result<EnvMap>) returns (r: Result<EnvMap>)
    ensures r == Laid(below, fetched)
  {
    if fetched.Err? {
      return Err(fetched.error);
    }
    var merged := MergeEnvVars([below, fetched.value]);
    return Ok(merged);
  }

  method AddByType(env: HostEnv, opt: EnvFetcher.EnvVarsByTypeOpt, enabled: bool, below: EnvMap) returns (r: Result<EnvMap>)
    ensures r == Stage(Ok(below), Source(enabled, EnvFetcher.ByType(env, opt)))
  {
    if !enabled {
      return Ok(below);
    }
    var fetched := EnvFetcher.GetEnvVarsByType(env, opt);
    r := MergeFetched(below, fetched);
  }

  method AddFromHost(env: HostEnv, opt: EnvFetcher.EnvVarsHostOpt, enabled: bool, below: EnvMap) returns (r: Result<EnvMap>)
    ensures r == Stage(Ok(below), Source(enabled, EnvFetcher.FromHost(env, opt)))
  {
    if !enabled {
      return Ok(below);
    }
    var fetched := EnvFetcher.GetAllEnvVarsFromHost(env, opt);
    r := MergeFetched(below, fetched);
  }

  method AddSpecificKeys(env: HostEnv, opt: EnvFetcher.EnvVarsSpecificKeysOpt, enabled: bool, below: EnvMap)
    returns (r: Result<EnvMap>)
    ensures r == Stage(Ok(below), Source(enabled, EnvFetcher.SpecificKeys(env, opt)))
  {
    if !enabled {
      return Ok(below);
    }
    var fetched := EnvFetcher.GetEnvVarsBySpecificKeys(env, opt);
    r := MergeFetched(below, fetched);
  }

  method AddDotFiles(fs: HostFs, dotFiles: seq<string>, enabled: bool, below: EnvMap) returns (r: Result<EnvMap>)
    ensures r == Stage(Ok(below), Source(enabled, Stack(DotFileSources(fs, dotFiles))))
  {
    if !enabled {
      return Ok(below);
    }
    var fetched := MergeDotFiles(fs, dotFiles);
    r := MergeFetched(below, fetched);
  }

  /** Consults each enabled source in order and merges it on top of the
    * running result; returns at the first failure. */
  method DecorateWithEnvVars(env: HostEnv, fs: HostFs, opts: EnvVarsOptions) returns (r: Result<EnvMap>)
    ensures r == Decorated(env, fs, opts)
  {
    LayersUnfold(opts, EnvFetcher.ByType(env, AwsOpt(opts)), EnvFetcher.ByType(env, TerraformOpt(opts)),
      EnvFetcher.FromHost(env, HostOpt(opts)), EnvFetcher.SpecificKeys(env, CustomOpt(opts)),
      Stack(DotFileSources(fs, opts.envVarsFromDotFileCfg.dotFiles)));
    var envVars: EnvMap := map[];
    r := AddByType(env, AwsOpt(opts), opts.envVarsAWSCfg.enabled, envVars);
    if r.Err? {
      return;
    }
    r := AddByType(env, TerraformOpt(opts), opts.envVarsTerraformCfg.enabled, r.value);
    if r.Err? {
      return;
    }
    r := AddFromHost(env, HostOpt(opts), opts.envVarsHostCfg.enabled, r.value);
    if r.Err? {
      return;
    }
    r := AddSpecificKeys(env, CustomOpt(opts), opts.envVarsCustomCfg.enabled, r.value);
    if r.Err? {
      return;
    }
    r := AddDotFiles(fs, opts.envVarsFromDotFileCfg.dotFiles, opts.envVarsFromDotFileCfg.enabled, r.value);
  }

  // ---------------------------------------------------------------------
  // Properties of the decoration

  /** Nothing enabled: an empty (nil) map and no error. */
  lemma NothingEnabled(env: seq<string>, fs: HostFs, opts: EnvVarsOptions)
    requires !opts.envVarsAWSCfg.enabled && !opts.envVarsTerraformCfg.enabled && !opts.envVarsHostCfg.enabled
    requires !opts.envVarsCustomCfg.enabled && !opts.envVarsFromDotFileCfg.enabled
    ensures Decorated(env, fs, opts) == Ok(map[])
  {
    LayersNoneEnabled(opts, EnvFetcher.ByType(env, AwsOpt(opts)), EnvFetcher.ByType(env, TerraformOpt(opts)),
      EnvFetcher.FromHost(env, HostOpt(opts)), EnvFetcher.SpecificKeys(env, CustomOpt(opts)),
      Stack(DotFileSources(fs, opts.envVarsFromDotFileCfg.dotFiles)));
  }

  lemma LayersNoneEnabled(opts: EnvVarsOptions, aws: Result<EnvMap>, tf: Result<EnvMap>, host: Result<EnvMap>,
                          custom: Result<EnvMap>, dots: Result<EnvMap>)
    requires !opts.envVarsAWSCfg.enabled && !opts.envVarsTerraformCfg.enabled && !opts.envVarsHostCfg.enabled
    requires !opts.envVarsCustomCfg.enabled && !opts.envVarsFromDotFileCfg.enabled
    ensures Stack(Layers(opts, aws, tf, host, custom, dots)) == Ok(map[])
  {
    var sources := Layers(opts, aws, tf, host, custom, dots);
    assert forall i :: 0 <= i < |sources| ==> !sources[i].enabled;
    StackNoneEnabled(sources);
  }

  /** The settings a source's fetch depends on. */
  function Consulted(b: EnvVarBehaviourOptions): (bool, bool, seq<string>, seq<string>) {
    (b.enabled, b.failIfNotSet, b.requiredEnvVars, b.dotFiles)
  }

  /** InheritEnvVarsFromJob, IgnoreIfNotSetOrEmpty, RemoveEnvVarsIfFound and
    * the explicit map play no part. */
  lemma UnconsultedOptionsDoNotMatter(env: seq<string>, fs: HostFs, o1: EnvVarsOptions, o2: EnvVarsOptions)
    requires Consulted(o1.envVarsAWSCfg) == Consulted(o2.envVarsAWSCfg)
    requires Consulted(o1.envVarsTerraformCfg) == Consulted(o2.envVarsTerraformCfg)
    requires Consulted(o1.envVarsHostCfg) == Consulted(o2.envVarsHostCfg)
    requires Consulted(o1.envVarsCustomCfg) == Consulted(o2.envVarsCustomCfg)
    requires Consulted(o1.envVarsFromDotFileCfg) == Consulted(o2.envVarsFromDotFileCfg)
    ensures Decorated(env, fs, o1) == Decorated(env, fs, o2)
  {
    assert Sources(env, fs, o1) == Sources(env, fs, o2);
  }

  /** The custom source with FailIfNotSet can never succeed, so enabling it
    * that way makes every decoration fail. */
  lemma StrictCustomSourceAlwaysFails(env: seq<string>, fs: HostFs, opts: EnvVarsOptions)
    requires opts.envVarsCustomCfg.enabled && opts.envVarsCustomCfg.failIfNotSet
    ensures Decorated(env, fs, opts).Err?
  {
    var sources := Sources(env, fs, opts);
    EnvFetcher.SpecificKeysSucceeds(env, CustomOpt(opts));
    assert Broken(sources[3]);
    StackFailsFirst(sources);
  }
}
