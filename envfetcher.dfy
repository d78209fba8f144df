/**
 * internal/core/env/envfetcher.go: the four environment sources a job can
 * draw on — the variables with a prefix, the whole host environment, a
 * list of specific keys, and a ".env" file — each with the checks that
 * turn an unusable result into a typed error.
 */
module EnvFetcher {
  import opened Errors
  import opened Normaliser
  import opened FileSystem
  import opened EnvVars

  datatype EnvVarsByTypeOpt = EnvVarsByTypeOpt(failIfNotSet: bool, requiredEnvVars: seq<string>, prefix: string)

  datatype EnvVarsHostOpt = EnvVarsHostOpt(requiredEnvVars: seq<string>, failIfNotSet: bool)

  datatype EnvVarsSpecificKeysOpt = EnvVarsSpecificKeysOpt(failIfNotSet: bool, envVarKeys: seq<string>)

  const NoEnvVarsFound := "No Env Vars found"
  const EnvVarText := "The environment variable "
  const MandatoryText := " is not set, but was declared mandatory"
  const PrefixFetchText := "Could not fetch env vars with prefix '"
  const NoKeysText := "No Env Var Keys provided"
  const NoDotFileText := "No dot file path provided"
  const DotFilePathText := "The dot file path "
  const InvalidText := " is not valid"
  const DotFileFetchText := "Could not fetch env vars from dot file"
  const DotFileEmptyText := "No Env Vars found in dot file "

  function MandatoryMissing(key: string): Error {
    NewConfigurationError(EnvVarText + key + MandatoryText, NoCause)
  }

  // ---------------------------------------------------------------------
  // Required keys

  /** The first position at or after `from` whose key is not in `m`. */
  function FirstMissing(keys: seq<string>, m: EnvMap, from: nat): (r: Option<nat>)
    requires from <= |keys|
    ensures r.Some? ==> from <= r.value < |keys| && keys[r.value] !in m
    decreases |keys| - from
  {
    if from == |keys| then None
    else if keys[from] !in m then Some(from)
    else FirstMissing(keys, m, from + 1)
  }

  /** FirstMissing finds the first missing key, and finds none only when
    * every key is present. */
  lemma {:induction false} FirstMissingMeaning(keys: seq<string>, m: EnvMap, from: nat)
    requires from <= |keys|
    ensures FirstMissing(keys, m, from).Some? ==>
      forall j :: from <= j < FirstMissing(keys, m, from).value ==> keys[j] in m
    ensures FirstMissing(keys, m, from).None? <==> forall j :: from <= j < |keys| ==> keys[j] in m
    decreases |keys| - from
  {
    if from < |keys| && keys[from] in m {
      FirstMissingMeaning(keys, m, from + 1);
    }
  }

  /** `m` when every required key is in it; otherwise the error names the
    * first one, in list order, that is not. */
  function RequireKeys(m: EnvMap, required: seq<string>): Result<EnvMap> {
    match FirstMissing(required, m, 0)
      case Some(i) => Err(MandatoryMissing(required[i]))
      case None => Ok(m)
  }

  lemma RequireKeysMeaning(m: EnvMap, required: seq<string>)
    ensures RequireKeys(m, required).Ok? <==> forall j :: 0 <= j < |required| ==> required[j] in m
    ensures RequireKeys(m, required).Ok? ==> RequireKeys(m, required).value == m
    ensures RequireKeys(m, required).Err? ==>
      exists i :: (0 <= i < |required| && required[i] !in m
        && (forall j :: 0 <= j < i ==> required[j] in m)
        && RequireKeys(m, required).error == MandatoryMissing(required[i]))
  {
    FirstMissingMeaning(required, m, 0);
  }

  /** The loop both fetchers close with. */
  method CheckRequired(m: EnvMap, required: seq<string>) returns (r: Result<EnvMap>)
    ensures r == RequireKeys(m, required)
  {
    var i := 0;
    while i < |required|
      invariant 0 <= i <= |required|
      invariant FirstMissing(required, m, 0) == FirstMissing(required, m, i)
    {
      if required[i] !in m {
        return Err(MandatoryMissing(required[i]));
      }
      i := i + 1;
    }
    return Ok(m);
  }

  // ---------------------------------------------------------------------
  // By prefix

  /** The checks GetEnvVarsByType makes on the outcome of its prefix scan. */
  function AfterScan(scan: Result<EnvMap>, opt: EnvVarsByTypeOpt): Result<EnvMap> {
    match scan
      case Err(e) =>
        Err(NewArgumentError(PrefixFetchText + opt.prefix + "'", Caused(e)))
      case Ok(m) =>
        if MapIsNulOrEmpty(m) && opt.failIfNotSet then Err(NewConfigurationError(NoEnvVarsFound, NoCause))
        else if |opt.requiredEnvVars| == 0 then Ok(m)
        else RequireKeys(m, opt.requiredEnvVars)
  }

  /** What GetEnvVarsByType computes. */
  function ByType(env: seq<string>, opt: EnvVarsByTypeOpt): Result<EnvMap> {
    AfterScan(PrefixScan(env, opt.prefix), opt)
  }

  method GetEnvVarsByType(env: HostEnv, opt: EnvVarsByTypeOpt) returns (r: Result<EnvMap>)
    ensures r == ByType(env, opt)
  {
    var allEnvVarsFound := FetchEnvVarsWithPrefix(env, opt.prefix);
    if allEnvVarsFound.Err? {
      return Err(NewArgumentError(PrefixFetchText + opt.prefix + "'", Caused(allEnvVarsFound.error)));
    }
    var empty := MapIsNulOrEmpty(allEnvVarsFound.value);
    if empty && opt.failIfNotSet {
      return Err(NewConfigurationError(NoEnvVarsFound, NoCause));
    }
    if |opt.requiredEnvVars| == 0 {
      return allEnvVarsFound;
    }
    r := CheckRequired(allEnvVarsFound.value, opt.requiredEnvVars);
  }

  /** A failed prefix scan — no variable with the prefix, or one with an
    * empty value — is an argument error wrapping the scan's error, whatever
    * FailIfNotSet says. */
  lemma ByTypeFailsOnScanFailure(env: seq<string>, opt: EnvVarsByTypeOpt)
    requires PrefixScan(env, opt.prefix).Err?
    ensures ByType(env, opt).Err?
    ensures ByType(env, opt).error
         == NewArgumentError(PrefixFetchText + opt.prefix + "'", Caused(PrefixScan(env, opt.prefix).error))
  {
    AfterScanFails(PrefixScan(env, opt.prefix), opt);
  }

  lemma AfterScanFails(scan: Result<EnvMap>, opt: EnvVarsByTypeOpt)
    requires scan.Err?
    ensures AfterScan(scan, opt) == Err(NewArgumentError(PrefixFetchText + opt.prefix + "'", Caused(scan.error)))
  {
  }

  /** A prefix scan that succeeds has found something. */
  lemma PrefixScanNotEmpty(env: seq<string>, prefix: string)
    ensures PrefixScan(env, prefix).Ok? ==> PrefixScan(env, prefix).value != map[]
  {
  }

  /** A successful scan is never empty, so the FailIfNotSet guard can never
    * fire: the flag does not change the result. */
  lemma ByTypeIgnoresFailIfNotSet(env: seq<string>, opt: EnvVarsByTypeOpt)
    ensures ByType(env, opt) == ByType(env, opt.(failIfNotSet := !opt.failIfNotSet))
  {
    PrefixScanNotEmpty(env, opt.prefix);
    AfterScanIgnoresFlag(PrefixScan(env, opt.prefix), opt);
  }

  lemma AfterScanIgnoresFlag(scan: Result<EnvMap>, opt: EnvVarsByTypeOpt)
    requires scan.Ok? ==> scan.value != map[]
    ensures AfterScan(scan, opt) == AfterScan(scan, opt.(failIfNotSet := !opt.failIfNotSet))
  {
    if scan.Ok? {
      assert !MapIsNulOrEmpty(scan.value);
    }
  }

  /** Success means a clean scan holding every required key; the result is
    * then the whole prefixed map. */
  lemma ByTypeSucceeds(env: seq<string>, opt: EnvVarsByTypeOpt)
    ensures ByType(env, opt).Ok? <==>
      PrefixScan(env, opt.prefix).Ok?
      && forall j :: 0 <= j < |opt.requiredEnvVars| ==> opt.requiredEnvVars[j] in PrefixScan(env, opt.prefix).value
    ensures ByType(env, opt).Ok? ==> ByType(env, opt).value == PrefixScan(env, opt.prefix).value
  {
    PrefixScanNotEmpty(env, opt.prefix);
    AfterScanSucceeds(PrefixScan(env, opt.prefix), opt);
  }

  lemma AfterScanSucceeds(scan: Result<EnvMap>, opt: EnvVarsByTypeOpt)
    requires scan.Ok? ==> scan.value != map[]
    ensures AfterScan(scan, opt).Ok? <==>
      scan.Ok? && forall j :: 0 <= j < |opt.requiredEnvVars| ==> opt.requiredEnvVars[j] in scan.value
    ensures AfterScan(scan, opt).Ok? ==> AfterScan(scan, opt).value == scan.value
  {
    if scan.Ok? {
      assert !MapIsNulOrEmpty(scan.value);
      RequireKeysMeaning(scan.value, opt.requiredEnvVars);
    }
  }

  /** A required key that lacks the prefix can never be satisfied. */
  lemma RequiredKeyWithoutPrefixFails(env: seq<string>, opt: EnvVarsByTypeOpt, i: int)
    requires 0 <= i < |opt.requiredEnvVars| && !StartsWith(opt.requiredEnvVars[i], opt.prefix)
    ensures ByType(env, opt).Err?
  {
    ByTypeSucceeds(env, opt);
    if ByType(env, opt).Ok? {
      PrefixScanRefusesEmpty(env, opt.prefix);
      PrefixScanKeysCarryPrefix(env, opt.prefix, opt.requiredEnvVars[i]);
    }
  }

  // ---------------------------------------------------------------------
  // The whole host

  /** What GetAllEnvVarsFromHost computes; reading the host never fails. */
  function FromHost(env: seq<string>, opt: EnvVarsHostOpt): Result<EnvMap> {
    var m := HostVars(env);
    if MapIsNulOrEmpty(m) && opt.failIfNotSet then Err(NewConfigurationError(NoEnvVarsFound, NoCause))
    else if |opt.requiredEnvVars| == 0 then Ok(m)
    else RequireKeys(m, opt.requiredEnvVars)
  }

  method GetAllEnvVarsFromHost(env: HostEnv, opt: EnvVarsHostOpt) returns (r: Result<EnvMap>)
    ensures r == FromHost(env, opt)
  {
    var allEnvVarsFromHost := FetchAllEnvVarsFromHost(env);
    assert allEnvVarsFromHost == HostVars(env);
    var empty := MapIsNulOrEmpty(allEnvVarsFromHost);
    if empty && opt.failIfNotSet {
      return Err(NewConfigurationError(NoEnvVarsFound, NoCause));
    }
    if |opt.requiredEnvVars| == 0 {
      return Ok(allEnvVarsFromHost);
    }
    r := CheckRequired(allEnvVarsFromHost, opt.requiredEnvVars);
  }

  /** The host map is empty exactly when the environment block is. */
  lemma HostVarsEmpty(env: seq<string>)
    ensures HostVars(env) == map[] <==> |env| == 0
  {
    HostVarsKeys(env);
    if |env| > 0 {
      assert KeyOf(env[0]) in HostVars(env);
    }
  }

  /** Fails on an empty environment when FailIfNotSet is set, or on a
    * missing required key; otherwise returns the whole host map. */
  lemma FromHostSucceeds(env: seq<string>, opt: EnvVarsHostOpt)
    ensures FromHost(env, opt).Ok? <==>
      !(|env| == 0 && opt.failIfNotSet)
      && forall j :: 0 <= j < |opt.requiredEnvVars| ==> opt.requiredEnvVars[j] in HostVars(env)
    ensures FromHost(env, opt).Ok? ==> FromHost(env, opt).value == HostVars(env)
    ensures FromHost(env, opt).Err? ==> FromHost(env, opt).error.Typed? && FromHost(env, opt).error.kind == Configuration
  {
    HostVarsEmpty(env);
    RequireKeysMeaning(HostVars(env), opt.requiredEnvVars);
  }

  // ---------------------------------------------------------------------
  // Specific keys

  /** The reason a write into the never-made result map stops the program. */
  const NilMapWrite := "assignment to entry in nil map"

  /** The key loop from position `from` on: a missing key is skipped, or an
    * error under FailIfNotSet; a present key is written into the nil
    * result map, which panics. */
  function KeysFrom(keys: seq<string>, m: EnvMap, failIfNotSet: bool, from: nat): Result<EnvMap>
    requires from <= |keys|
    decreases |keys| - from
  {
    if from == |keys| then Ok(map[])
    else if keys[from] !in m then
      if failIfNotSet then Err(MandatoryMissing(keys[from]))
      else KeysFrom(keys, m, failIfNotSet, from + 1)
    else Err(Panic(NilMapWrite))
  }

  /** What GetEnvVarsBySpecificKeys computes. */
  function SpecificKeys(env: seq<string>, opt: EnvVarsSpecificKeysOpt): Result<EnvMap> {
    if |opt.envVarKeys| == 0 then Err(NewArgumentError(NoKeysText, NoCause))
    else
      var m := HostVars(env);
      if MapIsNulOrEmpty(m) && opt.failIfNotSet then Err(NewConfigurationError(NoEnvVarsFound, NoCause))
      else KeysFrom(opt.envVarKeys, m, opt.failIfNotSet, 0)
  }

  method GetEnvVarsBySpecificKeys(env: HostEnv, opt: EnvVarsSpecificKeysOpt) returns (r: Result<EnvMap>)
    ensures r == SpecificKeys(env, opt)
  {
    if |opt.envVarKeys| == 0 {
      return Err(NewArgumentError(NoKeysText, NoCause));
    }
    var allEnvVarsFound := FetchAllEnvVarsFromHost(env);
    var empty := MapIsNulOrEmpty(allEnvVarsFound);
    if empty && opt.failIfNotSet {
      return Err(NewConfigurationError(NoEnvVarsFound, NoCause));
    }
    // The second emptiness test of the key list cannot fire here and is not
    // repeated.
    var i := 0;
    while i < |opt.envVarKeys|
      invariant 0 <= i <= |opt.envVarKeys|
      invariant KeysFrom(opt.envVarKeys, allEnvVarsFound, opt.failIfNotSet, 0)
             == KeysFrom(opt.envVarKeys, allEnvVarsFound, opt.failIfNotSet, i)
    {
      var envVar := opt.envVarKeys[i];
      if envVar !in allEnvVarsFound {
        if opt.failIfNotSet {
          return Err(MandatoryMissing(envVar));
        }
      } else {
        return Err(Panic(NilMapWrite));
      }
      i := i + 1;
    }
    return Ok(map[]);
  }

  /** The key loop succeeds exactly when no key is present and none is
    * missing under FailIfNotSet, and then returns the empty map. */
  lemma {:induction false} KeysFromMeaning(keys: seq<string>, m: EnvMap, failIfNotSet: bool, from: nat)
    requires from <= |keys|
    ensures KeysFrom(keys, m, failIfNotSet, from).Ok? <==>
      (from == |keys| || !failIfNotSet) && forall j :: from <= j < |keys| ==> keys[j] !in m
    ensures KeysFrom(keys, m, failIfNotSet, from).Ok? ==> KeysFrom(keys, m, failIfNotSet, from).value == map[]
    decreases |keys| - from
  {
    if from < |keys| && keys[from] !in m && !failIfNotSet {
      KeysFromMeaning(keys, m, failIfNotSet, from + 1);
    }
  }

  /** The fetch succeeds only without FailIfNotSet, with a non-empty key
    * list none of whose keys the host defines, and then returns nothing:
    * no call ever returns a host value. */
  lemma SpecificKeysSucceeds(env: seq<string>, opt: EnvVarsSpecificKeysOpt)
    ensures SpecificKeys(env, opt).Ok? <==>
      |opt.envVarKeys| > 0 && !opt.failIfNotSet
      && forall j :: 0 <= j < |opt.envVarKeys| ==> opt.envVarKeys[j] !in HostVars(env)
    ensures SpecificKeys(env, opt).Ok? ==> SpecificKeys(env, opt).value == map[]
  {
    if |opt.envVarKeys| > 0 {
      KeysFromMeaning(opt.envVarKeys, HostVars(env), opt.failIfNotSet, 0);
    }
  }

  /** A defined key reached by the loop stops it with the nil-map panic. */
  lemma {:induction false} SpecificKeysPanicsOnDefinedKey(env: seq<string>, opt: EnvVarsSpecificKeysOpt, i: int)
    requires 0 <= i < |opt.envVarKeys| && opt.envVarKeys[i] in HostVars(env)
    requires forall j :: 0 <= j < i ==> opt.envVarKeys[j] !in HostVars(env)
    requires !opt.failIfNotSet
    ensures SpecificKeys(env, opt) == Err(Panic(NilMapWrite))
  {
    var keys, m := opt.envVarKeys, HostVars(env);
    var k := i;
    while k > 0
      invariant 0 <= k <= i
      invariant KeysFrom(keys, m, false, k) == Err(Panic(NilMapWrite))
    {
      k := k - 1;
    }
  }

  // ---------------------------------------------------------------------
  // A ".env" file

  /** What GetEnvVarsFromDotFile computes. */
  function FromDotFile(fs: HostFs, dotFilePath: string): Result<EnvMap> {
    if dotFilePath == "" then Err(NewArgumentError(NoDotFileText, NoCause))
    else if FileExistAndItIsAFile(fs, dotFilePath).Fail? then
      Err(NewArgumentError(DotFilePathText + dotFilePath + InvalidText, NoCause))
    else match DotFileEnv(fs, dotFilePath)
      case Err(e) => Err(NewArgumentError(DotFileFetchText, Caused(e)))
      case Ok(m) =>
        if MapIsNulOrEmpty(m) then
          Err(NewConfigurationError(DotFileEmptyText + dotFilePath, NoCause))
        else Ok(m)
  }

  method GetEnvVarsFromDotFile(fs: HostFs, dotFilePath: string) returns (r: Result<EnvMap>)
    ensures r == FromDotFile(fs, dotFilePath)
  {
    if dotFilePath == "" {
      return Err(NewArgumentError(NoDotFileText, NoCause));
    }
    if FileExistAndItIsAFile(fs, dotFilePath).Fail? {
      return Err(NewArgumentError(DotFilePathText + dotFilePath + InvalidText, NoCause));
    }
    var envVarsFound := EnvVars.GetEnvVarsFromDotFile(fs, dotFilePath);
    if envVarsFound.Err? {
      return Err(NewArgumentError(DotFileFetchText, Caused(envVarsFound.error)));
    }
    var empty := MapIsNulOrEmpty(envVarsFound.value);
    if empty {
      return Err(NewConfigurationError(DotFileEmptyText + dotFilePath, NoCause));
    }
    return envVarsFound;
  }

  /** Succeeds exactly for a regular file whose content parses, with the
    * parsed map; every failure is an argument error, because the parser
    * already refuses a file without entries. */
  lemma FromDotFileMeaning(fs: HostFs, dotFilePath: string)
    ensures FromDotFile(fs, dotFilePath).Ok? <==>
      dotFilePath != "" && StatOf(fs, dotFilePath).Regular?
      && ParseDotFile(dotFilePath, fs.files[Resolve(fs, dotFilePath)]).Ok?
    ensures FromDotFile(fs, dotFilePath).Ok? ==>
      FromDotFile(fs, dotFilePath) == ParseDotFile(dotFilePath, fs.files[Resolve(fs, dotFilePath)])
    ensures FromDotFile(fs, dotFilePath).Err? ==>
      FromDotFile(fs, dotFilePath).error.Typed? && FromDotFile(fs, dotFilePath).error.kind == Argument
  {
  }

  /** A directory passes the path check but cannot be read. */
  lemma DotFileDirectoryIsRejected(fs: HostFs, dotFilePath: string)
    requires dotFilePath != "" && IsDirAt(fs, dotFilePath)
    ensures FromDotFile(fs, dotFilePath)
         == Err(NewArgumentError(DotFileFetchText, Caused(Plain("read " + dotFilePath + ": is a directory"))))
  {
  }
}
