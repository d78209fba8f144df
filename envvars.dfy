/**
 * internal/utils/envvars.go: reading the host environment, filtering it by
 * key prefix, merging environment maps and parsing ".env" files.
 * The environment block is an input (os.Environ() is not consulted).
 */
module EnvVars {
  import opened Errors
  import opened Normaliser
  import opened FileSystem

  type EnvMap = map<string, string>

  /** The text of os.Environ(): entries of the form KEY=value. The source
    * indexes the part after the first '=' unguarded, so an entry without
    * '=' is outside what it handles. */
  type HostEnv = env: seq<string> | forall i :: 0 <= i < |env| ==> HasEquals(env[i]) witness []

  predicate HasEquals(entry: string) {
    EqualsAt(entry) < |entry|
  }

  /** Position of the first `c` in `s`, or |s| when there is none. */
  function FirstIndexOf(s: string, c: char): (i: nat)
    ensures i <= |s|
    ensures i < |s| ==> s[i] == c
  {
    if |s| == 0 || s[0] == c then 0 else FirstIndexOf(s[1..], c) + 1
  }

  /** Position of the first '=' in `s`, or |s| when there is none. */
  function EqualsAt(s: string): (i: nat)
    ensures i <= |s|
    ensures i < |s| ==> s[i] == '='
  {
    FirstIndexOf(s, '=')
  }

  /** No `c` comes before FirstIndexOf(s, c): it finds the first one. */
  lemma {:induction false} FirstIndexOfIsFirst(s: string, c: char)
    ensures forall k :: 0 <= k < FirstIndexOf(s, c) ==> s[k] != c
    decreases |s|
  {
    if |s| > 0 && s[0] != c {
      FirstIndexOfIsFirst(s[1..], c);
      forall k | 1 <= k < FirstIndexOf(s, c) ensures s[k] != c {
        assert s[k] == s[1..][k - 1];
      }
    }
  }

  /** The part before the first '=' (element 0 of both Split and SplitN). */
  function KeyOf(entry: string): string {
    entry[..EqualsAt(entry)]
  }

  /** Everything after the first '=' (element 1 of SplitN(entry, "=", 2)). */
  function RestOf(entry: string): string {
    var i := EqualsAt(entry);
    if i < |entry| then entry[i + 1..] else ""
  }

  /** The text between the first and the second '=' (element 1 of Split). */
  function SecondField(entry: string): string {
    KeyOf(RestOf(entry))
  }

  /** Folds the entries that `keep` accepts into a map, in order, each as
    * the key/value pair `pair` makes of it; a later entry overrides an
    * earlier one with the same key. */
  function Collect(entries: seq<string>, keep: string -> bool, pair: string -> (string, string)): EnvMap {
    if |entries| == 0 then map[]
    else
      var m := Collect(entries[..|entries| - 1], keep, pair);
      var e := entries[|entries| - 1];
      if keep(e) then m[pair(e).0 := pair(e).1] else m
  }

  lemma CollectStep(entries: seq<string>, keep: string -> bool, pair: string -> (string, string), i: int)
    requires 0 <= i < |entries|
    ensures Collect(entries[..i + 1], keep, pair)
         == if keep(entries[i]) then Collect(entries[..i], keep, pair)[pair(entries[i]).0 := pair(entries[i]).1]
            else Collect(entries[..i], keep, pair)
  {
    assert entries[..i + 1][..i] == entries[..i];
  }

  /** The keys gathered from the accepted entries. */
  function KeptKeys(entries: seq<string>, keep: string -> bool, pair: string -> (string, string)): set<string> {
    set i | 0 <= i < |entries| && keep(entries[i]) :: pair(entries[i]).0
  }

  /** The i-th entry is accepted and no later accepted entry has its key. */
  predicate LastWithKey(entries: seq<string>, keep: string -> bool, pair: string -> (string, string), i: int)
    requires 0 <= i < |entries|
  {
    keep(entries[i]) && forall j :: i < j < |entries| && keep(entries[j]) ==> pair(entries[j]).0 != pair(entries[i]).0
  }

  /** The map holds exactly the keys of the accepted entries. */
  lemma {:induction false} CollectKeys(entries: seq<string>, keep: string -> bool, pair: string -> (string, string))
    ensures Collect(entries, keep, pair).Keys == KeptKeys(entries, keep, pair)
    decreases |entries|
  {
    if |entries| > 0 {
      var n := |entries| - 1;
      var init := entries[..n];
      CollectKeys(init, keep, pair);
      var extra := if keep(entries[n]) then {pair(entries[n]).0} else {};
      forall k | k in KeptKeys(entries, keep, pair) ensures k in KeptKeys(init, keep, pair) + extra {
        var i :| 0 <= i < |entries| && keep(entries[i]) && pair(entries[i]).0 == k;
        if i < n { assert init[i] == entries[i]; }
      }
      forall k | k in KeptKeys(init, keep, pair) ensures k in KeptKeys(entries, keep, pair) {
        var i :| 0 <= i < |init| && keep(init[i]) && pair(init[i]).0 == k;
        assert entries[i] == init[i];
      }
    }
  }

  /** Each key holds the value of the last accepted entry that carries it. */
  lemma {:induction false} CollectValue(entries: seq<string>, keep: string -> bool, pair: string -> (string, string), i: int)
    requires 0 <= i < |entries| && LastWithKey(entries, keep, pair, i)
    ensures pair(entries[i]).0 in Collect(entries, keep, pair)
    ensures Collect(entries, keep, pair)[pair(entries[i]).0] == pair(entries[i]).1
    decreases |entries|
  {
    var n := |entries| - 1;
    var init := entries[..n];
    if i < n {
      assert init[i] == entries[i];
      assert LastWithKey(init, keep, pair, i) by {
        forall j | i < j < |init| && keep(init[j]) ensures pair(init[j]).0 != pair(init[i]).0 {
          assert init[j] == entries[j];
        }
      }
      CollectValue(init, keep, pair, i);
    }
  }

  /** The map is empty exactly when no entry is accepted. */
  lemma CollectEmpty(entries: seq<string>, keep: string -> bool, pair: string -> (string, string))
    ensures |Collect(entries, keep, pair)| == 0 <==> forall i :: 0 <= i < |entries| ==> !keep(entries[i])
  {
    CollectKeys(entries, keep, pair);
    if exists i :: 0 <= i < |entries| && keep(entries[i]) {
      var i :| 0 <= i < |entries| && keep(entries[i]);
      assert pair(entries[i]).0 in KeptKeys(entries, keep, pair);
    } else {
      assert KeptKeys(entries, keep, pair) == {};
    }
  }

  // ---------------------------------------------------------------------
  // The whole host environment

  function Always(entry: string): bool {
    true
  }

  /** The key and the second '='-separated field, its surrounding quotes
    * removed. */
  function HostPair(entry: string): (string, string) {
    (KeyOf(entry), RemoveDoubleQuotes(SecondField(entry)))
  }

  function HostVars(env: seq<string>): EnvMap {
    Collect(env, Always, HostPair)
  }

  /** Every entry's key is present... */
  lemma HostVarsKeys(env: seq<string>)
    ensures HostVars(env).Keys == set i | 0 <= i < |env| :: KeyOf(env[i])
  {
    CollectKeys(env, Always, HostPair);
  }

  /** ...with the value of its last entry; a value stops at the second '='. */
  lemma HostVarsValue(env: seq<string>, i: int)
    requires 0 <= i < |env| && forall j :: i < j < |env| ==> KeyOf(env[j]) != KeyOf(env[i])
    ensures KeyOf(env[i]) in HostVars(env)
    ensures HostVars(env)[KeyOf(env[i])] == RemoveDoubleQuotes(SecondField(env[i]))
  {
    assert LastWithKey(env, Always, HostPair, i);
    CollectValue(env, Always, HostPair, i);
  }

  /** `vars` is what reading the environment block `env` yields. Stated
    * through a trigger on HostVars, so that proofs which only pass the map
    * along do not unfold how each entry is parsed. */
  ghost predicate ReadFromHost(env: seq<string>, vars: EnvMap) {
    forall e {:trigger HostVars(e)} :: e == env ==> vars == HostVars(e)
  }

  /** Reads every entry of the environment block into a map; never fails. */
  method FetchAllEnvVarsFromHost(env: HostEnv) returns (result: EnvMap)
    ensures ReadFromHost(env, result)
  {
    result := map[];
    var i := 0;
    while i < |env|
      invariant 0 <= i <= |env|
      invariant result == Collect(env[..i], Always, HostPair)
    {
      CollectStep(env, Always, HostPair, i);
      result := result[KeyOf(env[i]) := RemoveDoubleQuotes(SecondField(env[i]))];
      i := i + 1;
    }
    assert env[..i] == env;
  }

  // ---------------------------------------------------------------------
  // Prefix selection

  function HasPrefix(prefix: string): string -> bool {
    entry => StartsWith(KeyOf(entry), prefix)
  }

  /** The key and everything after the first '=', its surrounding quotes
    * removed. */
  function PrefixPair(entry: string): (string, string) {
    (KeyOf(entry), RemoveDoubleQuotes(RestOf(entry)))
  }

  /** An entry whose key carries the prefix and whose value is empty. */
  predicate EmptyPrefixed(entry: string, prefix: string) {
    StartsWith(KeyOf(entry), prefix) && RestOf(entry) == ""
  }

  /** The first position at or after `from` holding an empty prefixed entry. */
  function FirstEmptyPrefixed(env: seq<string>, prefix: string, from: nat): (r: Option<nat>)
    requires from <= |env|
    ensures r.Some? ==> from <= r.value < |env| && EmptyPrefixed(env[r.value], prefix)
    decreases |env| - from
  {
    if from == |env| then None
    else if EmptyPrefixed(env[from], prefix) then Some(from)
    else FirstEmptyPrefixed(env, prefix, from + 1)
  }

  /** FirstEmptyPrefixed finds the first empty prefixed entry, if any. */
  lemma {:induction false} FirstEmptyPrefixedMeaning(env: seq<string>, prefix: string, from: nat)
    requires from <= |env|
    ensures FirstEmptyPrefixed(env, prefix, from).Some? ==>
      var i := FirstEmptyPrefixed(env, prefix, from).value;
      from <= i < |env| && EmptyPrefixed(env[i], prefix)
      && forall j :: from <= j < i ==> !EmptyPrefixed(env[j], prefix)
    ensures FirstEmptyPrefixed(env, prefix, from).None? ==>
      forall j :: from <= j < |env| ==> !EmptyPrefixed(env[j], prefix)
    decreases |env| - from
  {
    if from < |env| && !EmptyPrefixed(env[from], prefix) {
      FirstEmptyPrefixedMeaning(env, prefix, from + 1);
    }
  }

  /** What FetchEnvVarsWithPrefixIncludeEmptyValues computes. */
  function PrefixScanIncludingEmpty(env: seq<string>, prefix: string): Result<EnvMap> {
    var m := Collect(env, HasPrefix(prefix), PrefixPair);
    if |m| == 0 then Err(Plain("No environment variables with the prefix " + prefix + " found"))
    else Ok(m)
  }

  /** What FetchEnvVarsWithPrefix computes: the first prefixed entry with an
    * empty value is an error; otherwise as PrefixScanIncludingEmpty. */
  function PrefixScan(env: seq<string>, prefix: string): Result<EnvMap> {
    match FirstEmptyPrefixed(env, prefix, 0)
      case Some(i) => Err(Plain("Environment variable " + KeyOf(env[i]) + " has an empty value"))
      case None => PrefixScanIncludingEmpty(env, prefix)
  }

  /** The scan keeping empty values succeeds exactly when some key carries
    * the prefix... */
  lemma PrefixScanSucceeds(env: seq<string>, prefix: string)
    ensures PrefixScanIncludingEmpty(env, prefix).Ok? <==>
      exists i :: 0 <= i < |env| && StartsWith(KeyOf(env[i]), prefix)
  {
    CollectEmpty(env, HasPrefix(prefix), PrefixPair);
    if exists i :: 0 <= i < |env| && StartsWith(KeyOf(env[i]), prefix) {
      var i :| 0 <= i < |env| && StartsWith(KeyOf(env[i]), prefix);
      assert HasPrefix(prefix)(env[i]);
    }
  }

  /** ...it then holds only keys that carry the prefix... */
  lemma PrefixScanKeysCarryPrefix(env: seq<string>, prefix: string, k: string)
    requires PrefixScanIncludingEmpty(env, prefix).Ok? && k in PrefixScanIncludingEmpty(env, prefix).value
    ensures StartsWith(k, prefix)
  {
    CollectKeys(env, HasPrefix(prefix), PrefixPair);
    assert k in KeptKeys(env, HasPrefix(prefix), PrefixPair);
    var i :| 0 <= i < |env| && HasPrefix(prefix)(env[i]) && PrefixPair(env[i]).0 == k;
  }

  /** ...and every key that carries it... */
  lemma PrefixScanKeepsPrefixed(env: seq<string>, prefix: string, i: int)
    requires 0 <= i < |env| && StartsWith(KeyOf(env[i]), prefix)
    ensures PrefixScanIncludingEmpty(env, prefix).Ok?
    ensures KeyOf(env[i]) in PrefixScanIncludingEmpty(env, prefix).value
  {
    CollectKeys(env, HasPrefix(prefix), PrefixPair);
    assert HasPrefix(prefix)(env[i]);
    assert PrefixPair(env[i]).0 in KeptKeys(env, HasPrefix(prefix), PrefixPair);
  }

  /** ...each with the unquoted text after the first '=' of its last entry. */
  lemma PrefixScanValue(env: seq<string>, prefix: string, i: int)
    requires 0 <= i < |env| && StartsWith(KeyOf(env[i]), prefix)
    requires forall j :: i < j < |env| && StartsWith(KeyOf(env[j]), prefix) ==> KeyOf(env[j]) != KeyOf(env[i])
    ensures PrefixScanIncludingEmpty(env, prefix).Ok?
    ensures KeyOf(env[i]) in PrefixScanIncludingEmpty(env, prefix).value
    ensures PrefixScanIncludingEmpty(env, prefix).value[KeyOf(env[i])] == RemoveDoubleQuotes(RestOf(env[i]))
  {
    PrefixScanKeepsPrefixed(env, prefix, i);
    var keep, pair := HasPrefix(prefix), PrefixPair;
    forall j | i < j < |env| && keep(env[j]) ensures pair(env[j]).0 != pair(env[i]).0 {
    }
    assert LastWithKey(env, keep, pair, i);
    CollectValue(env, keep, pair, i);
  }

  /** An empty prefixed value is refused, anything else is as when empty
    * values are kept. */
  lemma PrefixScanRefusesEmpty(env: seq<string>, prefix: string)
    ensures PrefixScan(env, prefix).Ok? <==>
      PrefixScanIncludingEmpty(env, prefix).Ok? && forall i :: 0 <= i < |env| ==> !EmptyPrefixed(env[i], prefix)
    ensures PrefixScan(env, prefix).Ok? ==> PrefixScan(env, prefix) == PrefixScanIncludingEmpty(env, prefix)
  {
    FirstEmptyPrefixedMeaning(env, prefix, 0);
  }

  /** The error names the first prefixed entry with an empty value. */
  lemma PrefixScanNamesFirstEmpty(env: seq<string>, prefix: string, i: int)
    requires 0 <= i < |env| && EmptyPrefixed(env[i], prefix)
    requires forall j :: 0 <= j < i ==> !EmptyPrefixed(env[j], prefix)
    ensures PrefixScan(env, prefix) == Err(Plain("Environment variable " + KeyOf(env[i]) + " has an empty value"))
  {
    FirstEmptyPrefixedMeaning(env, prefix, 0);
  }

  /** The scan stops at an empty prefixed entry with none before it. */
  lemma ScanStopsAt(env: seq<string>, prefix: string, i: int)
    requires 0 <= i < |env| && EmptyPrefixed(env[i], prefix)
    requires FirstEmptyPrefixed(env, prefix, 0) == FirstEmptyPrefixed(env, prefix, i)
    ensures PrefixScan(env, prefix) == Err(Plain("Environment variable " + KeyOf(env[i]) + " has an empty value"))
  {
  }

  /** A scan that met no empty prefixed entry is the lenient one. */
  lemma ScanFindsNoEmpty(env: seq<string>, prefix: string)
    requires FirstEmptyPrefixed(env, prefix, 0) == FirstEmptyPrefixed(env, prefix, |env|)
    ensures PrefixScan(env, prefix) == PrefixScanIncludingEmpty(env, prefix)
  {
  }

  /** Selects the entries whose key starts with `prefix`, stopping at the
    * first such entry with an empty value. */
  method FetchEnvVarsWithPrefix(env: HostEnv, prefix: string) returns (r: Result<EnvMap>)
    ensures r == PrefixScan(env, prefix)
  {
    var result: EnvMap := map[];
    var i := 0;
    while i < |env|
      invariant 0 <= i <= |env|
      invariant result == Collect(env[..i], HasPrefix(prefix), PrefixPair)
      invariant FirstEmptyPrefixed(env, prefix, 0) == FirstEmptyPrefixed(env, prefix, i)
    {
      CollectStep(env, HasPrefix(prefix), PrefixPair, i);
      var key := KeyOf(env[i]);
      if StartsWith(key, prefix) {
        var value := RestOf(env[i]);
        if value == "" {
          ScanStopsAt(env, prefix, i);
          return Err(Plain("Environment variable " + key + " has an empty value"));
        }
        result := result[key := RemoveDoubleQuotes(value)];
      }
      i := i + 1;
    }
    assert env[..i] == env;
    ScanFindsNoEmpty(env, prefix);
    if |result| == 0 {
      return Err(Plain("No environment variables with the prefix " + prefix + " found"));
    }
    return Ok(result);
  }

  /** Like FetchEnvVarsWithPrefix, but an empty value is kept. */
  method FetchEnvVarsWithPrefixIncludeEmptyValues(env: HostEnv, prefix: string) returns (r: Result<EnvMap>)
    ensures r == PrefixScanIncludingEmpty(env, prefix)
  {
    var result: EnvMap := map[];
    var i := 0;
    while i < |env|
      invariant 0 <= i <= |env|
      invariant result == Collect(env[..i], HasPrefix(prefix), PrefixPair)
    {
      CollectStep(env, HasPrefix(prefix), PrefixPair, i);
      var key := KeyOf(env[i]);
      if StartsWith(key, prefix) {
        result := result[key := RemoveDoubleQuotes(RestOf(env[i]))];
      }
      i := i + 1;
    }
    assert env[..i] == env;
    if |result| == 0 {
      return Err(Plain("No environment variables with the prefix " + prefix + " found"));
    }
    return Ok(result);
  }

  // ---------------------------------------------------------------------
  // Merging

  /** The entries of `m` among `ks` that MergeEnvVars copies: non-empty key
    * and non-empty value, the value passed through `clean` (MergeEnvVars
    * uses RemoveDoubleQuotes). */
  function FilteredOn(m: EnvMap, ks: set<string>, clean: string -> string): EnvMap {
    map k | k in ks && k in m && k != "" && m[k] != "" :: clean(m[k])
  }

  function Filtered(m: EnvMap, clean: string -> string): EnvMap {
    FilteredOn(m, m.Keys, clean)
  }

  /** The maps merged left to right: a later map's entry overrides. */
  function Merged(envs: seq<EnvMap>, clean: string -> string): EnvMap {
    if |envs| == 0 then map[] else Merged(envs[..|envs| - 1], clean) + Filtered(envs[|envs| - 1], clean)
  }

  /** Adding one key to the keys considered adds its filtered entry. */
  lemma FilteredOnAdd(m: EnvMap, ks: set<string>, key: string, clean: string -> string)
    requires key in m
    ensures FilteredOn(m, ks + {key}, clean)
         == if key != "" && m[key] != "" then FilteredOn(m, ks, clean)[key := clean(m[key])]
            else FilteredOn(m, ks, clean)
  {
  }

  lemma UpdateAfterMerge(a: EnvMap, b: EnvMap, k: string, v: string)
    ensures (a + b)[k := v] == a + b[k := v]
  {
  }

  lemma MergedStep(envs: seq<EnvMap>, clean: string -> string, i: int)
    requires 0 <= i < |envs|
    ensures Merged(envs[..i + 1], clean) == Merged(envs[..i], clean) + Filtered(envs[i], clean)
  {
    assert envs[..i + 1][..i] == envs[..i];
  }

  /** Copies every entry with a non-empty key and value, later maps winning. */
  method MergeEnvVars(envs: seq<EnvMap>) returns (result: EnvMap)
    ensures result == Merged(envs, RemoveDoubleQuotes)
  {
    result := map[];
    var i := 0;
    while i < |envs|
      invariant 0 <= i <= |envs|
      invariant result == Merged(envs[..i], RemoveDoubleQuotes)
    {
      var env := envs[i];
      var remaining := env.Keys;
      ghost var before := result;
      while remaining != {}
        invariant remaining <= env.Keys
        invariant result == before + FilteredOn(env, env.Keys - remaining, RemoveDoubleQuotes)
        decreases remaining
      {
        var key :| key in remaining;
        var value := env[key];
        FilteredOnAdd(env, env.Keys - remaining, key, RemoveDoubleQuotes);
        assert env.Keys - (remaining - {key}) == (env.Keys - remaining) + {key};
        if key != "" && value != "" {
          UpdateAfterMerge(before, FilteredOn(env, env.Keys - remaining, RemoveDoubleQuotes), key, RemoveDoubleQuotes(value));
          result := result[key := RemoveDoubleQuotes(value)];
        }
        remaining := remaining - {key};
      }
      assert env.Keys - remaining == env.Keys;
      MergedStep(envs, RemoveDoubleQuotes, i);
      i := i + 1;
    }
    assert envs[..i] == envs;
  }

  /** The i-th map supplies a usable entry for `k`. */
  predicate Supplies(envs: seq<EnvMap>, i: int, k: string)
    requires 0 <= i < |envs|
  {
    k in envs[i] && k != "" && envs[i][k] != ""
  }

  /** The keys some map supplies a usable entry for. */
  function Supplied(envs: seq<EnvMap>): set<string> {
    set i, k | 0 <= i < |envs| && k in envs[i] && Supplies(envs, i, k) :: k
  }

  /** The i-th map is the last one that supplies `k`. */
  predicate LastSupplier(envs: seq<EnvMap>, i: int, k: string)
    requires 0 <= i < |envs|
  {
    Supplies(envs, i, k) && forall j :: i < j < |envs| ==> !Supplies(envs, j, k)
  }

  /** A key survives exactly when some map supplies a usable entry for it. */
  lemma {:induction false} MergedKeys(envs: seq<EnvMap>, clean: string -> string)
    ensures Merged(envs, clean).Keys == Supplied(envs)
    decreases |envs|
  {
    if |envs| > 0 {
      var n := |envs| - 1;
      var init := envs[..n];
      MergedKeys(init, clean);
      forall k | k in Supplied(envs) ensures k in Supplied(init) + Filtered(envs[n], clean).Keys {
        var i :| 0 <= i < |envs| && k in envs[i] && Supplies(envs, i, k);
        if i < n { assert init[i] == envs[i]; assert Supplies(init, i, k); }
      }
      forall k | k in Supplied(init) ensures k in Supplied(envs) {
        var i :| 0 <= i < |init| && k in init[i] && Supplies(init, i, k);
        assert init[i] == envs[i];
        assert Supplies(envs, i, k);
      }
      forall k | k in Filtered(envs[n], clean).Keys ensures k in Supplied(envs) {
        assert Supplies(envs, n, k);
      }
    }
  }

  /** A surviving key holds the cleaned value of the last map that supplies
    * it: a later map whose value is empty does not erase an earlier one. */
  lemma {:induction false} MergedValue(envs: seq<EnvMap>, clean: string -> string, i: int, k: string)
    requires 0 <= i < |envs| && LastSupplier(envs, i, k)
    ensures k in Merged(envs, clean) && Merged(envs, clean)[k] == clean(envs[i][k])
    decreases |envs|
  {
    var n := |envs| - 1;
    var init := envs[..n];
    if i < n {
      assert init[i] == envs[i];
      assert !Supplies(envs, n, k);
      assert LastSupplier(init, i, k) by {
        forall j | i < j < |init| ensures !Supplies(init, j, k) {
          assert !Supplies(envs, j, k);
          assert init[j] == envs[j];
        }
      }
      MergedValue(init, clean, i, k);
    }
  }

  /** MergeEnvVars does not keep empty values out: a value made only of
    * quotes becomes empty after it was filtered. */
  lemma MergeCanYieldEmptyValue()
    ensures Merged([map["TOKEN" := "\"\""]], RemoveDoubleQuotes) == map["TOKEN" := ""]
  {
    var envs := [map["TOKEN" := "\"\""]];
    QuotesOnlyBecomeEmpty("\"\"");
    MergedKeys(envs, RemoveDoubleQuotes);
    assert Supplied(envs) == {"TOKEN"} by {
      assert Supplies(envs, 0, "TOKEN");
    }
    assert LastSupplier(envs, 0, "TOKEN");
    MergedValue(envs, RemoveDoubleQuotes, 0, "TOKEN");
  }

  /** Merging a merge is not the same as merging once: the entry that an
    * inner merge left empty is dropped by the outer one. */
  lemma NestedMergeDropsEmptiedValues()
    ensures Merged([Merged([map["TOKEN" := "\"\""]], RemoveDoubleQuotes)], RemoveDoubleQuotes) == map[]
  {
    MergeCanYieldEmptyValue();
    var envs := [map["TOKEN" := ""]];
    MergedKeys(envs, RemoveDoubleQuotes);
    assert Supplied(envs) == {};
  }

  // ---------------------------------------------------------------------
  // .env files

  function DropCR(line: string): string {
    if |line| > 0 && line[|line| - 1] == '\r' then line[..|line| - 1] else line
  }

  /** bufio.MaxScanTokenSize: a default Scanner's buffer, in bytes. */
  const MaxScanTokenSize := 64 * 1024

  /** bufio.ErrTooLong, as scanner.Err() reports it. */
  const ErrTooLong := Plain("bufio.Scanner: token too long")

  /** The number of bytes `c` takes in UTF-8. */
  function Utf8Size(c: char): nat {
    if c as int < 0x80 then 1 else if c as int < 0x800 then 2 else if c as int < 0x1_0000 then 3 else 4
  }

  /** The number of bytes `s` takes in UTF-8. */
  function Utf8Length(s: string): nat {
    if |s| == 0 then 0 else Utf8Size(s[0]) + Utf8Length(s[1..])
  }

  /** Every character takes at least one byte. */
  lemma {:induction false} Utf8LengthAtLeast(s: string)
    ensures Utf8Length(s) >= |s|
  {
    if |s| > 0 {
      Utf8LengthAtLeast(s[1..]);
    }
  }

  /** A line (its '\r' included) that together with its newline does not
    * fit the buffer: the Scanner cannot hold it and stops with ErrTooLong.
    * A last line without newline fails the same way, as the buffer fills
    * before the end of the file is seen. */
  predicate TooLong(line: string) {
    Utf8Length(line) >= MaxScanTokenSize
  }

  /** The lines bufio.ScanLines delivers: lines end at '\n', a final '\r'
    * is dropped and a trailing newline does not start another line; the
    * scan stops before the first line that is TooLong. */
  function ScanLines(s: string): seq<string>
    decreases |s|
  {
    if |s| == 0 then []
    else
      var i := FirstIndexOf(s, '\n');
      if TooLong(s[..i]) then []
      else if i == |s| then [DropCR(s)] else [DropCR(s[..i])] + ScanLines(s[i + 1..])
  }

  /** The scan stopped on a TooLong line, so scanner.Err() is ErrTooLong. */
  predicate ScanTooLong(s: string)
    decreases |s|
  {
    |s| > 0 &&
      var i := FirstIndexOf(s, '\n');
      TooLong(s[..i]) || (i < |s| && ScanTooLong(s[i + 1..]))
  }

  /** A non-blank line without '=' makes the whole file invalid. */
  predicate Malformed(line: string) {
    var t := TrimSpace(line);
    t != "" && EqualsAt(t) == |t|
  }

  /** The pair a non-blank line yields: trimmed key, trimmed and unquoted value. */
  function DotPair(line: string): (string, string) {
    var t := TrimSpace(line);
    (TrimSpace(KeyOf(t)), RemoveDoubleQuotes(TrimSpace(RestOf(t))))
  }

  /** Some line at or after `from` satisfies `bad`. */
  predicate AnyFrom(lines: seq<string>, from: nat, bad: string -> bool)
    requires from <= |lines|
    decreases |lines| - from
  {
    from < |lines| && (bad(lines[from]) || AnyFrom(lines, from + 1, bad))
  }

  lemma {:induction false} AnyFromMeaning(lines: seq<string>, from: nat, bad: string -> bool)
    requires from <= |lines|
    ensures AnyFrom(lines, from, bad) <==> exists j :: from <= j < |lines| && bad(lines[j])
    decreases |lines| - from
  {
    if from < |lines| {
      AnyFromMeaning(lines, from + 1, bad);
      if exists j :: from <= j < |lines| && bad(lines[j]) {
        var j :| from <= j < |lines| && bad(lines[j]);
        if j > from { assert AnyFrom(lines, from + 1, bad); }
      }
    }
  }

  function NonBlank(line: string): bool {
    TrimSpace(line) != ""
  }

  /** The lines of a ".env" file's content turned into a map. */
  function ParseDotFile(path: string, content: string): Result<EnvMap> {
    var lines := ScanLines(content);
    if AnyFrom(lines, 0, Malformed) then
      Err(Plain(" .env file " + path + " is not in the correct format"))
    else if ScanTooLong(content) then
      Err(ErrTooLong)
    else
      var m := Collect(lines, NonBlank, DotPair);
      if |m| == 0 then Err(Plain(" .env file " + path + " is empty")) else Ok(m)
  }

  /** What GetEnvVarsFromDotFile computes. */
  function DotFileEnv(fs: HostFs, path: string): Result<EnvMap> {
    match ReadFile(fs, path)
      case Err(e) => Err(e)
      case Ok(content) => ParseDotFile(path, content)
  }

  /** The content is accepted exactly when every non-blank line has an '=',
    * no line is too long for the Scanner and there is at least one
    * non-blank line... */
  lemma ParseDotFileSucceeds(path: string, content: string)
    ensures ParseDotFile(path, content).Ok? <==>
      (forall i :: 0 <= i < |ScanLines(content)| ==> !Malformed(ScanLines(content)[i]))
      && !ScanTooLong(content)
      && (exists i :: 0 <= i < |ScanLines(content)| && NonBlank(ScanLines(content)[i]))
  {
    AnyFromMeaning(ScanLines(content), 0, Malformed);
    CollectEmpty(ScanLines(content), NonBlank, DotPair);
  }

  /** A first line of MaxScanTokenSize characters or more fails the parse
    * with ErrTooLong, whatever follows it. */
  lemma LongFirstLineFails(path: string, content: string)
    requires FirstIndexOf(content, '\n') >= MaxScanTokenSize
    ensures ParseDotFile(path, content) == Err(ErrTooLong)
  {
    Utf8LengthAtLeast(content[..FirstIndexOf(content, '\n')]);
  }

  /** ...it then holds one entry per key that its non-blank lines name... */
  lemma ParseDotFileKeys(path: string, content: string)
    requires ParseDotFile(path, content).Ok?
    ensures ParseDotFile(path, content).value.Keys
         == set i | 0 <= i < |ScanLines(content)| && NonBlank(ScanLines(content)[i]) :: DotPair(ScanLines(content)[i]).0
  {
    ParsedIsCollected(path, content);
    CollectKeys(ScanLines(content), NonBlank, DotPair);
  }

  /** ...each with the value of the last line that names it. */
  lemma ParseDotFileValue(path: string, content: string, i: int)
    requires ParseDotFile(path, content).Ok?
    requires 0 <= i < |ScanLines(content)| && LastWithKey(ScanLines(content), NonBlank, DotPair, i)
    ensures DotPair(ScanLines(content)[i]).0 in ParseDotFile(path, content).value
    ensures ParseDotFile(path, content).value[DotPair(ScanLines(content)[i]).0] == DotPair(ScanLines(content)[i]).1
  {
    var lines := ScanLines(content);
    ParsedIsCollected(path, content);
    CollectValue(lines, NonBlank, DotPair, i);
  }

  /** A successful parse is the map its lines fold into. */
  lemma ParsedIsCollected(path: string, content: string)
    requires ParseDotFile(path, content).Ok?
    ensures ParseDotFile(path, content).value == Collect(ScanLines(content), NonBlank, DotPair)
  {
  }

  /** Reads a ".env" file line by line into a map. */
  method GetEnvVarsFromDotFile(fs: HostFs, path: string) returns (r: Result<EnvMap>)
    ensures r == DotFileEnv(fs, path)
  {
    var file := ReadFile(fs, path);
    if file.Err? {
      return Err(file.error);
    }
    var lines := ScanLines(file.value);
    var env: EnvMap := map[];
    var i := 0;
    while i < |lines|
      invariant 0 <= i <= |lines|
      invariant env == Collect(lines[..i], NonBlank, DotPair)
      invariant AnyFrom(lines, 0, Malformed) == AnyFrom(lines, i, Malformed)
    {
      CollectStep(lines, NonBlank, DotPair, i);
      var line := TrimSpace(lines[i]);
      if line != "" {
        if EqualsAt(line) == |line| {
          assert Malformed(lines[i]);
          return Err(Plain(" .env file " + path + " is not in the correct format"));
        }
        var key := TrimSpace(KeyOf(line));
        var value := TrimSpace(RestOf(line));
        value := RemoveDoubleQuotes(value);
        env := env[key := value];
      }
      i := i + 1;
    }
    assert lines[..i] == lines;
    if ScanTooLong(file.value) {
      return Err(ErrTooLong);
    }
    if |env| == 0 {
      return Err(Plain(" .env file " + path + " is empty"));
    }
    return Ok(env);
  }
}
