# stiletto pipeline core in Dafny

A model of the core of stiletto, a Go tool that runs CI/CD tasks in
containers through the Dagger engine. A task is described by a YAML
manifest. The manifest is read from the host and its template
functions are rendered. It is then parsed, validated in a fixed order and
converted into job-builder arguments. The job builder checks each task's
directories, builds its commands and decorates the task and the job with
environment variables drawn from the host, from prefixed variable sets
(AWS_, TF_), from specific keys and from ".env" files. The scheduler
hands the jobs to the runner. For each task, the runner mounts the base
directory, validates the mount and work directories, sets the
environment and runs the commands in order. It stops at the first
failure. Every failure is a typed error from a small taxonomy.

The model has one module per source file:

- `Errors`: the error taxonomy.
- `Entities`: the records passed between builders.
- `Paths`: Go's `path/filepath` on a Unix host.
- `FileSystem`, `Normaliser`, `Collections`, `EnvVars`: the utilities.
- `EnvFetcher`: the environment sources.
- `JobEnv`: the decoration of tasks and jobs with variables.
- `Validation`: the directory checks.
- `Commands`: the command builder.
- `JobBuilder`: the job/task builder.
- `Clients`: the client builder.
- `Dagger`: the engine, as an abstract object with a call trace.
- `DaggerFs`: the checks on directories handed to the engine.
- `TaskSpecs`: the manifest and its staged builder.
- `LegacySpecs`: the older manifest builder.
- `Scheduler`: the scheduler.
- `Runner`: the runner.
- `RunnerProperties`: what a run promises.

The builders are classes whose methods update their fields, as the Go
builders do. The loops are methods with invariants, proved against
specification functions. Everything outside the process is an input:

- the host environment block;
- the host file system, as a value: directories, files, failing paths
  and the working directory;
- the YAML parser, the template renderer and the shell-style tokenizer,
  as function parameters;
- the engine connection, as a nullable reference whose answers are fixed
  oracles;
- the identifiers GetUUID draws.

## Model

| member | source | states |
|---|---|---|
| Errors.NewArgumentError | internal/errors/arguments.go:19-24 | an argument error holding exactly the given details and cause |
| Errors.NewManifestError | internal/errors/manifest.go:19-24 | a manifest error holding exactly the given details and cause |
| Errors.NewConfigurationError | internal/errors/configuration.go:17-22 | a configuration error whose details are "Unable to start pipeline instance " followed by the caller's text |
| Errors.NewTaskConfigurationError | internal/errors/task.go:20-25 | a task-configuration error holding exactly the given details and cause |
| Errors.NewTaskExecutionError | internal/errors/task.go:39-44 | a task-execution error holding exactly the given details and cause |
| Errors.NewRunnerConfigurationError | internal/errors/runner.go:20-25 | a runner-configuration error holding exactly the given details and cause |
| Errors.NewRunnerExecutionError | internal/errors/runner.go:39-44 | a runner-execution error holding exactly the given details and cause |
| Errors.Wrap | internal/core/job/builder.go:142-148 | wrapping an error in a typed one keeps it as the cause; a panic is not an error value and passes through unchanged |
| Errors.MessageShape | internal/errors/arguments.go:12-17 | an error's text is its kind's prefix, ": ", its details, and then ": " and the wrapped error's text when there is one; a plain error's text is its own |
| Errors.ConfigurationWithoutCauseReadsAsExecution | internal/errors/task.go:13-18 | without a wrapped error, a task- or runner-configuration error prints the execution prefix, so it reads exactly like the execution error with the same details; with one, the two texts differ |
| Normaliser.Trim | internal/utils/normaliser.go:20-22 | strings.Trim with a cutset: the result neither starts nor ends with a cut character |
| Normaliser.TrimIsSlice | internal/utils/normaliser.go:20-22 | the trimmed value is a slice s[i..j] of the input with only cut characters before i and after j |
| Normaliser.TrimIdempotent | internal/utils/normaliser.go:20-22 | trimming twice gives what trimming once gives |
| Normaliser.TrimLeftDropsCut | internal/utils/normaliser.go:20-22 | every character dropped on the left is in the cutset |
| Normaliser.TrimRightDropsCut | internal/utils/normaliser.go:20-22 | every character dropped on the right is in the cutset |
| Normaliser.NormaliseStringUpper | internal/utils/normaliser.go:8-10 | no lower-case ASCII letter and no surrounding white space remain |
| Normaliser.NormaliseStringUpperKeepsNormal | internal/utils/normaliser.go:8-10 | a value already upper case and trimmed is returned unchanged |
| Normaliser.NormaliseStringUpperIsSlice | internal/utils/normaliser.go:8-10 | the result is a slice of the upper-cased input, and only white space of the input lies outside that slice |
| Normaliser.NormaliseStringLower | internal/utils/normaliser.go:12-14 | no upper-case ASCII letter and no surrounding white space remain |
| Normaliser.NormaliseStringLowerIsSlice | internal/utils/normaliser.go:12-14 | the result is a slice of the lower-cased input, and only white space of the input lies outside that slice |
| Normaliser.NormaliseStringLowerKeepsNormal | internal/utils/normaliser.go:12-14 | a value already lower case and trimmed is returned unchanged |
| Normaliser.NormaliseNoSpaces | internal/utils/normaliser.go:16-18 | the result has no surrounding white space |
| Normaliser.NormaliseNoSpacesIsSlice | internal/utils/normaliser.go:16-18 | only leading and trailing white space is removed; the rest of the input is kept as one slice |
| Normaliser.NormaliseNoSpacesKeepsInnerSpaces | internal/utils/normaliser.go:16-18 | a value without surrounding white space is kept whole, inner spaces included |
| Normaliser.RemoveDoubleQuotes | internal/utils/normaliser.go:20-22 | the result neither starts nor ends with a double quote |
| Normaliser.RemoveDoubleQuotesIsSlice | internal/utils/normaliser.go:20-22 | every leading and trailing quote goes (not just one matched pair); inner quotes stay |
| Normaliser.RemoveDoubleQuotesIdempotent | internal/utils/normaliser.go:20-22 | removing quotes twice is removing them once |
| Normaliser.QuotesOnlyBecomeEmpty | internal/utils/normaliser.go:20-22 | a value made only of quotes becomes empty |
| Normaliser.RemoveDoubleQuotesKeepsUnquoted | internal/utils/normaliser.go:20-22 | a value that neither starts nor ends with a quote is unchanged |
| Normaliser.IsKeyInMapOptional | internal/utils/normaliser.go:24-31 | true exactly when the key occurs in the list |
| Normaliser.MapIsNulOrEmpty | internal/utils/normaliser.go:33-35 | true exactly when the map has no entries; nil and empty are one value |
| Normaliser.MergeSlices | internal/utils/normaliser.go:42-48 | the result is the concatenation of the lists in argument order, and its length is the sum of theirs |
| Normaliser.ConcatLength | internal/utils/normaliser.go:42-48 | the merged length is the sum of the input lengths |
| Normaliser.ConcatContains | internal/utils/normaliser.go:42-48 | every element of every input list occurs in the merged list |
| Collections.FindInSlice | internal/utils/collections.go:5-13 | passes exactly when the value is an element of the list (so an empty list always fails); the error names the value |
| Collections.FindInSliceIgnoresOrder | internal/utils/collections.go:5-13 | two lists with the same elements give the same verdict |
| EnvVars.FirstIndexOfIsFirst | internal/utils/envvars.go:30 | the position found is the first occurrence of the character, as the split at the first '=' and the line scan at the first newline use it |
| EnvVars.CollectKeys | internal/utils/envvars.go:29-40 | the keys of a map filled by a "for each entry, if kept, set key" loop are exactly the keys of the kept entries |
| EnvVars.CollectValue | internal/utils/envvars.go:29-40 | for such a loop, a key holds the value of the last kept entry that names it (later entries overwrite earlier ones) |
| EnvVars.CollectEmpty | internal/utils/envvars.go:42-44 | such a map is empty exactly when no entry is kept |
| EnvVars.HostVarsKeys | internal/utils/envvars.go:13-22 | the host map has one key per environment entry: the text before its first '=' |
| EnvVars.HostVarsValue | internal/utils/envvars.go:13-22 | an entry no later entry overrides gives its key the text between its first and second '=', quotes removed |
| EnvVars.FetchAllEnvVarsFromHost | internal/utils/envvars.go:13-22 | the loop builds exactly the host map described by HostVarsKeys and HostVarsValue, and never fails |
| EnvVars.FirstEmptyPrefixedMeaning | internal/utils/envvars.go:29-37 | finds the first entry whose key has the prefix and whose value is empty, or reports that there is none |
| EnvVars.PrefixScanSucceeds | internal/utils/envvars.go:49-67 | the scan keeping empty values succeeds exactly when some key carries the prefix |
| EnvVars.PrefixScanKeysCarryPrefix | internal/utils/envvars.go:56-59 | every key of the result carries the prefix |
| EnvVars.PrefixScanKeepsPrefixed | internal/utils/envvars.go:56-59 | every prefixed key of the environment is in the result |
| EnvVars.PrefixScanValue | internal/utils/envvars.go:56-59 | its value is everything after the entry's first '=' (SplitN with 2), quotes removed, from the last entry naming it |
| EnvVars.PrefixScanRefusesEmpty | internal/utils/envvars.go:26-47 | the strict scan succeeds exactly when the lenient one does and no prefixed key has an empty value; it then returns the same map |
| EnvVars.PrefixScanNamesFirstEmpty | internal/utils/envvars.go:35-37 | the strict scan's error names the first prefixed key with an empty value, so it stops at that entry |
| EnvVars.FetchEnvVarsWithPrefix | internal/utils/envvars.go:26-47 | the loop returns exactly the strict prefix scan, errors included |
| EnvVars.FetchEnvVarsWithPrefixIncludeEmptyValues | internal/utils/envvars.go:49-67 | the loop returns exactly the lenient prefix scan, errors included |
| EnvVars.MergeEnvVars | internal/utils/envvars.go:69-81 | the nested loop returns the merge of the maps in argument order, dropping empty keys and empty values and removing quotes |
| EnvVars.MergedKeys | internal/utils/envvars.go:72-78 | a key is in the merge exactly when some map holds it with a non-empty key and value |
| EnvVars.MergedValue | internal/utils/envvars.go:72-78 | the merged value is the cleaned value from the last map that holds the key (later maps win) |
| EnvVars.MergeCanYieldEmptyValue | internal/utils/envvars.go:74-75 | the emptiness test comes before quote removal, so a value "\"\"" is merged as an empty value |
| EnvVars.NestedMergeDropsEmptiedValues | internal/utils/envvars.go:74-75 | merging that result once more drops the key: merging is not idempotent |
| EnvVars.AnyFromMeaning | internal/utils/envvars.go:92-103 | the check for a malformed line holds exactly when some line from the start on is malformed |
| EnvVars.ParseDotFileSucceeds | internal/utils/envvars.go:90-120 | a ".env" text parses exactly when no non-blank line lacks '=', no line is too long for bufio.Scanner's 64 KiB buffer (counted in UTF-8 bytes) and at least one line is non-blank |
| EnvVars.LongFirstLineFails | internal/utils/envvars.go:91-114 | a first line of 64 KiB or more stops the scanner, and the parse returns bufio.ErrTooLong whatever follows |
| EnvVars.ParseDotFileKeys | internal/utils/envvars.go:93-110 | the keys are the trimmed texts before '=' of the non-blank lines |
| EnvVars.ParseDotFileValue | internal/utils/envvars.go:105-109 | each key holds the trimmed, unquoted text after '=' of the last line naming it |
| EnvVars.GetEnvVarsFromDotFile | internal/utils/envvars.go:83-121 | the loop returns the read error when the file cannot be read, else exactly the parsed file, the scanner's ErrTooLong included |
| EnvFetcher.FirstMissingMeaning | internal/core/env/envfetcher.go:41-46 | finds the first required key the map lacks, or reports that every required key is present |
| EnvFetcher.RequireKeysMeaning | internal/core/env/envfetcher.go:41-48 | passes the map through unchanged exactly when every required key is in it; otherwise the error names the first missing one |
| EnvFetcher.CheckRequired | internal/core/env/envfetcher.go:41-48 | the loop that stops at the first missing key returns exactly that verdict |
| EnvFetcher.GetEnvVarsByType | internal/core/env/envfetcher.go:26-49 | the prefix fetch followed by the emptiness and mandatory-key checks, errors included |
| EnvFetcher.AfterScanFails | internal/core/env/envfetcher.go:29-31 | a failed prefix scan becomes an argument error naming the prefix and wrapping the scan's error |
| EnvFetcher.ByTypeFailsOnScanFailure | internal/core/env/envfetcher.go:27-31 | if the prefix scan fails, the fetch by type fails with that wrapped error |
| EnvFetcher.PrefixScanNotEmpty | internal/core/env/envfetcher.go:27 | a successful strict prefix scan never returns an empty map |
| EnvFetcher.AfterScanIgnoresFlag | internal/core/env/envfetcher.go:33-35 | for a scan that is never empty, the failIfNotSet flag changes nothing |
| EnvFetcher.ByTypeIgnoresFailIfNotSet | internal/core/env/envfetcher.go:33-35 | so the fetch by type gives the same result whichever way failIfNotSet is set |
| EnvFetcher.AfterScanSucceeds | internal/core/env/envfetcher.go:37-48 | the checks after a non-empty scan pass exactly when every required key is present, and return the scan's map |
| EnvFetcher.ByTypeSucceeds | internal/core/env/envfetcher.go:26-49 | the fetch by type succeeds exactly when the prefix scan does and holds every required key, and returns the scan's map |
| EnvFetcher.RequiredKeyWithoutPrefixFails | internal/core/env/envfetcher.go:41-46 | a required key that lacks the prefix can never be found, so the fetch by type always fails |
| EnvFetcher.GetAllEnvVarsFromHost | internal/core/env/envfetcher.go:51-73 | the host fetch followed by the emptiness and mandatory-key checks, errors included |
| EnvFetcher.HostVarsEmpty | internal/core/env/envfetcher.go:57 | the host map is empty exactly when the environment has no entries |
| EnvFetcher.FromHostSucceeds | internal/core/env/envfetcher.go:51-73 | the host fetch succeeds exactly when the environment is non-empty or emptiness is allowed, and every required key is present; it returns the host map, and every failure is a configuration error |
| EnvFetcher.GetEnvVarsBySpecificKeys | internal/core/env/envfetcher.go:75-107 | the loop over the keys returns exactly the specific-keys result, panic on the nil map included |
| EnvFetcher.KeysFromMeaning | internal/core/env/envfetcher.go:95-106 | the key loop succeeds exactly when no remaining key is defined and either none remain or missing keys are tolerated, and then the result is empty |
| EnvFetcher.SpecificKeysSucceeds | internal/core/env/envfetcher.go:75-107 | the specific-keys fetch succeeds exactly when keys are given, failIfNotSet is off and the host defines none of them; it then returns an empty map, so no call ever yields a host value |
| EnvFetcher.SpecificKeysPanicsOnDefinedKey | internal/core/env/envfetcher.go:81-104 | without failIfNotSet, the first key the host defines is written into a nil map, which panics |
| EnvFetcher.GetEnvVarsFromDotFile | internal/core/env/envfetcher.go:109-128 | the path, file, parse and emptiness checks in order, errors included |
| EnvFetcher.FromDotFileMeaning | internal/core/env/envfetcher.go:109-128 | the ".env" fetch succeeds exactly when the path is non-empty, names a regular file and its text parses, and returns the parsed map; every failure is an argument error |
| EnvFetcher.DotFileDirectoryIsRejected | internal/core/env/envfetcher.go:114-121 | a directory passes the file check but fails when read, as an argument error wrapping the read error |
| FileSystem.IsValidDir | internal/utils/filesystem.go:9-21 | passes exactly when the path names a directory; a missing path and a regular file get their own messages, and every failure is a plain error |
| FileSystem.PathToAbsolute | internal/utils/filesystem.go:23-30 | never fails; the result is absolute when the working directory is, and an absolute path is only cleaned |
| FileSystem.FileExistAndItIsAFile | internal/utils/filesystem.go:32-49 | passes exactly when the path is non-empty and exists, whether file or directory; the empty path has its own message |
| FileSystem.DirectoryPassesAsFile | internal/utils/filesystem.go:39-48 | the check never looks at the kind of entry, so a directory passes it |
| FileSystem.ReadFile | internal/utils/filesystem.go:108-112 | reading succeeds exactly on a regular file and gives its content |
| FileSystem.FileIsNotEmpty | internal/utils/filesystem.go:51-62 | passes exactly on a regular file with non-empty content; a read error's message formats the empty byte buffer where the path belongs |
| FileSystem.IsGitRepository | internal/utils/filesystem.go:64-83 | passes exactly when the path is a non-empty directory holding a ".git" entry of either kind; the empty path and a non-directory fail as IsValidDir does |
| FileSystem.AncestorFixpoint | internal/utils/filesystem.go:95-102 | once the parent of a path is itself, climbing further changes nothing |
| FileSystem.AncestorShift | internal/utils/filesystem.go:95-102 | climbing n+1 levels from p is climbing n levels from p's parent |
| FileSystem.WalkStep | internal/utils/filesystem.go:90-103 | a level without ".git" and below the root moves the search one level up with one level less |
| FileSystem.WalkMeaning | internal/utils/filesystem.go:90-104 | the search finds the nearest ancestor within the level budget whose ".git" is a directory, and none below it has one; when it finds nothing, no ancestor within the budget has one |
| FileSystem.WalkUp | internal/utils/filesystem.go:90-104 | the loop over the levels returns exactly the search's answer |
| FileSystem.FindGitRepoDir | internal/utils/filesystem.go:85-105 | succeeds exactly when the search from the absolute path finds a directory, returns it, and otherwise fails with "path … is not a git repository" |
| FileSystem.GetFileContent | internal/utils/filesystem.go:108-115 | succeeds exactly on a regular file and returns its content; the error names the path and the read error |
| Paths.Clean | internal/utils/filesystem.go:95 | the lexical cleaning under filepath.Dir and filepath.Join never yields "" and keeps a path absolute exactly when it was |
| Paths.CleanExamples | internal/utils/filesystem.go:97-99 | "" cleans to "." and "/" to itself, so the root is its own parent and the climb stops there |
| Paths.Join | internal/core/validation/dirs.go:67 | filepath.Join gives "" exactly when every element is empty, and is absolute when its first element is |
| Paths.Dir | internal/utils/filesystem.go:95 | the parent of a path is never "" and stays absolute |
| Paths.Abs | internal/utils/filesystem.go:86 | filepath.Abs against the working directory: absolute whenever the path or the working directory is |
| Validation.DirIsValid | internal/core/validation/dirs.go:12-24 | passes exactly when the path is non-empty and a directory; every failure is an argument error without a cause, the empty path and the IsValidDir failure with their own messages |
| Validation.WorkDirIsValid | internal/core/validation/dirs.go:32-81 | passes exactly when the three names are set, work and mount directories are relative, the base ("." meaning the working directory) is absolute and both joined paths are directories; every failure is an argument error without a cause; a missing base directory and an absolute work directory get their own messages |
| Validation.NameChecksIgnoreFileSystem | internal/core/validation/dirs.go:33-65 | when a name check fails, the verdict does not depend on the file system beyond the working directory |
| Validation.AcceptedWorkDirIsAbsolute | internal/core/validation/dirs.go:62-78 | an accepted work directory's full path is absolute and a directory |
| JobEnv.StackPrefix | internal/core/job/envvars.go:27-107 | stacking one more source is one more stage on top of the stack below it |
| JobEnv.StackErrPropagates | internal/core/job/envvars.go:40-42 | once a failure is in the stack, later sources change nothing: the early return |
| JobEnv.FirstFailure | internal/core/job/envvars.go:40-42 | the index it names is an enabled source whose fetch failed |
| JobEnv.StackFailsFirst | internal/core/job/envvars.go:27-107 | decoration fails exactly when some enabled source fails, with the error of the first such source, and no earlier enabled source failed |
| JobEnv.StackNoneEnabled | internal/core/job/envvars.go:27-107 | with no source enabled the result is the empty map |
| JobEnv.MergedPair | internal/utils/envvars.go:69-81 | merging two maps is filtering each and letting the second override the first |
| JobEnv.MergeOntoSplits | internal/core/job/envvars.go:44 | merging a fetched map onto the running one filters both, fetched entries on top |
| JobEnv.MergeOntoKey | internal/core/job/envvars.go:44 | every key of a merge is non-empty and comes with a non-empty value from one of the two maps |
| JobEnv.FilteredKey | internal/core/job/envvars.go:44 | the same for the filtered union |
| JobEnv.MergeOntoTop | internal/core/job/envvars.go:44 | a usable entry of the fetched map wins, quotes removed |
| JobEnv.MergeOntoKeeps | internal/core/job/envvars.go:44 | a usable entry of the running map that the fetched map does not override survives, quotes removed |
| JobEnv.StackLastWins | internal/core/job/envvars.go:31-104 | in a successful decoration a key holds the value of the last source, in the fixed order, that supplies it |
| JobEnv.StackKeysFromSources | internal/core/job/envvars.go:31-104 | every key of a successful decoration was supplied by some enabled source |
| JobEnv.DotFileSources | internal/core/job/envvars.go:94-101 | one enabled source per ".env" file, in list order, each the ".env" fetch of that file |
| JobEnv.Layers | internal/core/job/envvars.go:31-104 | the five sources in the order AWS, Terraform, host, custom keys, ".env" files, each enabled by its own option |
| JobEnv.LayersUnfold | internal/core/job/envvars.go:31-104 | the decoration is the five stages applied one after the other |
| JobEnv.MergeDotFiles | internal/core/job/envvars.go:93-101 | the loop over the ".env" files stops at the first failing file and otherwise merges them in order |
| JobEnv.Laid | internal/core/job/envvars.go:40-44 | a fetch laid on a map either propagates its error or merges on top |
| JobEnv.MergeFetched | internal/core/job/envvars.go:40-44 | the method does exactly that |
| JobEnv.AddByType | internal/core/job/envvars.go:32-61 | one prefix stage: skipped when disabled; otherwise the fetch by type either fails or is merged on top |
| JobEnv.AddFromHost | internal/core/job/envvars.go:64-75 | the host stage, likewise |
| JobEnv.AddSpecificKeys | internal/core/job/envvars.go:78-89 | the custom-keys stage, likewise; the option's required list is the list of keys |
| JobEnv.AddDotFiles | internal/core/job/envvars.go:92-104 | the ".env" stage, likewise, over the merge of all listed files |
| JobEnv.DecorateWithEnvVars | internal/core/job/envvars.go:27-107 | the method computes exactly the five-stage decoration, so every lemma above applies to it |
| JobEnv.NothingEnabled | internal/core/job/envvars.go:27-107 | with every source disabled the job gets an empty environment |
| JobEnv.LayersNoneEnabled | internal/core/job/envvars.go:27-107 | the same over any fetched values |
| JobEnv.UnconsultedOptionsDoNotMatter | internal/core/job/envvars.go:32-94 | only enabled, failIfNotSet, requiredEnvVars and dotFiles are read; the other options and the job-inheritance flag never change the result |
| JobEnv.StrictCustomSourceAlwaysFails | internal/core/job/envvars.go:78-86 | a custom-keys source enabled with failIfNotSet makes decoration fail whatever the host holds |
| Commands.ParseFailure | internal/core/commands/builder.go:33-36 | the recorded error is a plain formatted message around GetCommandArgs's argument error, which is not kept as a cause |
| Commands.BuildFailure | internal/core/commands/builder.go:49-51 | Build's error is a configuration error caused by the recorded one |
| Commands.Argv | internal/core/commands/builder.go:39-45 | the argument vector is the words alone without a binary, else the binary followed by exactly the words |
| Commands.MakeCmd | internal/core/commands/builder.go:32-57 | a command built in one go succeeds exactly when the tokenizer does; it carries the binary and its argument vector, and a tokenizer failure becomes the wrapped build failure |
| Commands.CMDBuilder.constructor | internal/core/commands/builder.go:59-61 | NewCMD starts with every field at its zero value |
| Commands.CMDBuilder.WithBinary | internal/core/commands/builder.go:27-30 | only the binary changes |
| Commands.CMDBuilder.WithCommands | internal/core/commands/builder.go:32-46 | a tokenizer failure records the parse error and keeps the old words; a success stores the words, prefixed by the binary set so far |
| Commands.CMDBuilder.Build | internal/core/commands/builder.go:48-57 | fails exactly when an error is recorded, with the wrapped error; otherwise the binary and the argument vector |
| Commands.BuildCmd | internal/core/commands/builder.go:27-57 | NewCMD().WithBinary(b).WithCommands(a).Build() is exactly MakeCmd |
| Commands.LateBinaryKeepsCommands | internal/core/commands/builder.go:27-46 | a binary set after the commands changes the reported binary but not the argument vector, which keeps the earlier binary |
| Commands.FailureIsSticky | internal/core/commands/builder.go:34-51 | a later successful WithCommands does not clear a recorded tokenizer failure |
| JobBuilder.CheckTaskMeaning | internal/core/job/builder.go:72-124 | a task's checks pass exactly when it has an image, its base (the job's absolute base when empty) is absolute and the directory layout is accepted; every failure is a task-configuration error, and a missing image comes first, without a cause |
| JobBuilder.TaskCmdsBuildAll | internal/core/job/builder.go:156-174 | a task's commands build exactly when every command line tokenizes; they are then one command per entry, in order, each built as NewCMD().WithBinary().WithCommands() builds it |
| JobBuilder.TaskCmdsFirstFailure | internal/core/job/builder.go:159-170 | a failing command list reports the build error of its first command that does not tokenize |
| JobBuilder.TaskCmdsStops | internal/core/job/builder.go:163-170 | once a prefix of the commands fails, the rest change nothing |
| JobBuilder.BuildCommands | internal/core/job/builder.go:156-174 | the loop over the commands returns exactly the command list above |
| JobBuilder.MakeTaskSucceeds | internal/core/job/builder.go:71-186 | a task is made exactly when its checks pass, its variables are available (inherited from the job, or decorated without error) and its commands build; it carries the drawn id, the argument fields, the effective base as both base directories, those variables and those commands |
| JobBuilder.MakeTaskFails | internal/core/job/builder.go:72-170 | a failed check is the error; a failed decoration becomes an argument error naming the task and wrapping it; a failed command becomes an argument error caused by the command's error |
| JobBuilder.OneFailingTask | internal/core/job/builder.go:71-77 | a single task that cannot be made adds nothing and records its error |
| JobBuilder.MissingImageStops | internal/core/job/builder.go:72-77 | a task without an image always records an error |
| JobBuilder.AddTasksStops | internal/core/job/builder.go:75-76 | the first failing task ends the loop: later arguments change nothing |
| JobBuilder.AddTasksInOrder | internal/core/job/builder.go:71-191 | the tasks added are exactly those made from a prefix of the arguments, in input order, task i with the i-th drawn id; all are added when nothing fails, and otherwise the recorded error is that of the first argument that failed |
| JobBuilder.NoTasksAdded | internal/core/job/builder.go:65-69 | an empty task list adds nothing and records nothing |
| JobBuilder.JobMadeKeepsError | internal/core/job/builder.go:197-230 | WithJob never clears a recorded error |
| JobBuilder.TasksAddedKeepsError | internal/core/job/builder.go:63-194 | WithTasks never clears a recorded error |
| JobBuilder.JobMadeKeepsPanic | internal/core/job/builder.go:205-212 | a panic recorded earlier is still the recorded error after WithJob, since Go never returns from it |
| JobBuilder.JobMadeRecordsPanic | internal/core/job/builder.go:205-212 | a decoration that panics leaves that panic, unwrapped, as the recorded error |
| JobBuilder.TasksAddedKeepsPanic | internal/core/job/builder.go:63-194 | a panic recorded earlier is still the recorded error after WithTasks |
| JobBuilder.DecoratesItself | internal/core/job/envvars.go:27-107 | the decoration of an option set is the one that option set decorates to |
| JobBuilder.ConfigureTask | internal/core/job/builder.go:72-186 | one iteration of the task loop makes exactly the task (or error) that MakeTask describes |
| JobBuilder.Builder.constructor | internal/core/job/builder.go:232-244 | NewDaggerClient: the drawn id, the client, an empty job, no tasks and no variables, the client's base directories, no error |
| JobBuilder.Builder.WithJob | internal/core/job/builder.go:197-230 | a failed decoration records a configuration error naming the job, unless a panic is already recorded, and keeps the old job; otherwise the job is remade with no tasks, the client's directories and the decorated variables; the task list and the rest of the builder stay |
| JobBuilder.Builder.SetJob | internal/core/job/builder.go:205-226 | the same state change, given the decoration |
| JobBuilder.Builder.WithTasks | internal/core/job/builder.go:63-194 | the tasks made (see AddTasksInOrder) are appended to the list, a failure replaces the recorded error unless that is a panic, and the job and the rest of the builder stay |
| JobBuilder.Builder.AppendTasks | internal/core/job/builder.go:71-191 | the loop performs exactly that update |
| JobBuilder.Builder.Build | internal/core/job/builder.go:46-60 | fails with the recorded error; otherwise the job carries the builder's id, the job's name, the client, the tasks and the builder's own directories and variables |
| JobBuilder.MissingImageFailsBuild | internal/core/job/builder.go:72-77 | a task without an image fails the build whatever later WithJob and WithTasks calls do |
| JobBuilder.PanicFailsBuild | internal/core/job/builder.go:197-230 | a panic while decorating the job is the error Build returns, whatever WithTasks and WithJob calls follow |
| JobBuilder.TasksOutliveJob | internal/core/job/builder.go:46-226 | a second WithJob does not reset the tasks, and Build reports the builder's id and its own (empty) variables rather than the job's |
| Clients.Builder.constructor | pkg/clients/builder.go:122-156 | NewClient: the client type trimmed and upper-cased, the host's variables read, and every optional configuration present holding only the looked-up directories |
| Clients.Builder.WithCLI | pkg/clients/builder.go:32-46 | only the CLI configuration changes; an argument without directories takes the builder's |
| Clients.Builder.WithHost | pkg/clients/builder.go:49-78 | nothing changes when a host configuration exists; otherwise the host's variables are read when the core configuration has none, missing directories are looked up, and the new host configuration's variables stay empty (the fetched map is a shadowing variable) |
| Clients.Builder.WithDagger | pkg/clients/builder.go:81-100 | nothing changes when an engine configuration exists; otherwise a failed connection records a configuration error wrapping the adapter's, and a made one becomes the engine configuration |
| Clients.Builder.Build | pkg/clients/builder.go:103-119 | fails with the recorded error; otherwise the client holds a fresh id and each configuration |
| Clients.CliClient | cmd/cli/dagger.go:48-51 | the command line's NewClient(CLI).WithCLI({}).WithHost().Build() never fails, is classified "CLI" and is exactly NewClient's defaults: WithHost changes nothing |
| Clients.DaggerAfterNewClient | pkg/clients/builder.go:81-152 | since NewClient already sets an engine configuration, WithDagger afterwards never connects: the client has no engine connection and no error |
| Clients.NormaliseCliType | pkg/clients/builder.go:132 | normalising "CLI" leaves it unchanged |
| Dagger.FromOf | internal/core/runner/dagger.go:95 | Container().From(image): a container of that image with nothing mounted or set |
| Dagger.WithDirectoryOf | internal/core/runner/dagger.go:96 | WithDirectory adds exactly one mount at the end and changes nothing else |
| Dagger.WithEnvOf | internal/core/daggerio/container.go:18-20 | setting the variables one by one: keys are the union, the given values win, nothing else changes |
| Dagger.WithWorkdirOf | internal/core/runner/dagger.go:128-129 | WithWorkdir sets exactly the working directory |
| Dagger.Engine.constructor | internal/core/adapters/daggerio.go:10-19 | a successful dagger.Connect: the connection starts with an empty trace and the given answers |
| Dagger.Engine.Entries | internal/core/daggerio/fs.go:100-101 | listing a host directory records the call and returns the engine's answer |
| Dagger.Engine.From | internal/core/runner/dagger.go:95 | records the call and returns FromOf |
| Dagger.Engine.WithDirectory | internal/core/runner/dagger.go:96 | records the call and returns WithDirectoryOf |
| Dagger.Engine.WithEnvVariables | internal/core/daggerio/container.go:11-23 | records the call and returns WithEnvOf |
| Dagger.Engine.WithWorkdir | internal/core/runner/dagger.go:129 | records the call and returns WithWorkdirOf |
| Dagger.Engine.Sync | internal/core/runner/dagger.go:133 | records the execution and returns the engine's outcome for it |
| Dagger.Engine.EnvVariables | internal/core/daggerio/container.go:33-36 | records the read and returns the engine's outcome for it |
| Dagger.Engine.Close | internal/core/runner/dagger.go:68 | records that the connection is closed |
| DaggerFs.FsBuilder.constructor | internal/core/daggerio/fs.go:171-175 | NewDaggerFsBuilder starts without logger and without connection |
| DaggerFs.FsBuilder.WithLogger | internal/core/daggerio/fs.go:32-35 | sets only the logger |
| DaggerFs.FsBuilder.WithDaggerClient | internal/core/daggerio/fs.go:37-40 | sets only the connection, null included |
| DaggerFs.FsBuilder.WithDir | internal/core/daggerio/fs.go:42-57 | changes nothing: the "." default is a local variable and an invalid directory is only logged |
| DaggerFs.FsBuilder.Build | internal/core/daggerio/fs.go:59-73 | fails with a configuration error without a connection; otherwise fills in the no-op logger when none was given and yields the helper |
| DaggerFs.ListingOps | internal/core/daggerio/fs.go:76-101 | the engine is asked for the listing exactly when the directory is non-empty and valid on the host |
| DaggerFs.EntriesCheckMeaning | internal/core/daggerio/fs.go:75-120 | a directory passes exactly when it is non-empty, a directory on the host, and the engine lists at least one entry; the empty name is an argument error without a cause, every other failure a configuration error, and an invalid directory keeps IsValidDir's error as the cause |
| DaggerFs.ValidateEntries | internal/core/daggerio/fs.go:75-120 | returns exactly that verdict and makes exactly those engine calls; a relative directory is listed as given, since its absolute form is a shadowing variable |
| DaggerFs.GetDaggerDir | internal/core/daggerio/fs.go:122-133 | succeeds exactly on a non-empty name and returns it; the empty name is an argument error without a cause |
| DaggerFs.GetMntDir | internal/core/daggerio/fs.go:135-137 | the mount point is the absolute path "/mnt" |
| DaggerFs.PrintCheck | internal/core/daggerio/fs.go:139-169 | passes exactly when a directory is given and the engine lists at least one entry in it; a missing directory is an argument error |
| DaggerFs.PrintEntries | internal/core/daggerio/fs.go:139-169 | returns exactly that verdict and lists the directory once when one is given |
| Runner.Chain | internal/core/runner/dagger.go:70-140 | a run over no element makes no call and passes |
| Runner.FirstFailingMeaning | internal/core/runner/dagger.go:70-140 | names the first element whose step fails, with every earlier one passing, or reports that all pass |
| Runner.ChainMeaning | internal/core/runner/dagger.go:70-140 | a run in order makes every element's calls and passes when none fails; otherwise it makes the calls up to and including the first failing element and ends with its outcome |
| Runner.ChainSkipsIdle | internal/core/runner/dagger.go:71-77 | an element that makes no call and passes can be dropped without changing the run |
| Runner.ChainFailureStops | internal/core/runner/dagger.go:88-137 | once a prefix of the run fails, the remaining elements change nothing: every failure returns at once |
| Runner.ExecStep | internal/core/runner/dagger.go:132-137 | one command is one execution on the prepared container, and fails exactly when the engine's run fails |
| Runner.CommandFailure | internal/core/runner/dagger.go:134-136 | a failed command is a task-execution error caused by the engine's error |
| Runner.TaskFailure | internal/core/runner/dagger.go:88-118 | a failed directory check or variable read is a task-execution error caused by it |
| Runner.ViewOf | internal/core/runner/dagger.go:85-104 | the host view built from the host and the connection answers exactly as ValidateEntries and filepath.Join do |
| Runner.Then | internal/core/runner/dagger.go:88-129 | a failed preparation stage ends the preparation; a passed one is followed by the next stage's calls |
| Runner.TaskRunOfRunsTasks | internal/core/runner/dagger.go:83-139 | the task runner handed to the job loop runs every task as TaskRun describes |
| Runner.Unconnected | internal/core/runner/dagger.go:51-66 | without a runner connection the run always fails: a missing engine configuration panics, no connection anywhere is a runner-configuration error, and a connection only in the client still fails when the directory helper is built |
| Runner.DaggerRunner.constructor | internal/core/runner/dagger.go:192-202 | the runner holds exactly the builder's id, client, jobs, connection, directories and options |
| Runner.DaggerRunner.RunInDagger | internal/core/runner/dagger.go:46-145 | no jobs is a runner-configuration error; no runner connection ends as Unconnected says; otherwise the jobs run in order, the engine's trace grows by exactly the run's calls followed by the deferred Close, and the outcome is the run's |
| Runner.RunJobs | internal/core/runner/dagger.go:70-140 | the job loop makes exactly the calls of the jobs' run and returns its outcome |
| Runner.RunJob | internal/core/runner/dagger.go:71-139 | a job without tasks makes no call and passes; otherwise its tasks run in order from the job's absolute base directory |
| Runner.RunTask | internal/core/runner/dagger.go:84-138 | one task makes exactly the calls of its run and returns its outcome |
| Runner.PrepareTask | internal/core/runner/dagger.go:84-129 | the preparation of a task makes exactly the preparation's calls and yields its container |
| Runner.MountTask | internal/core/runner/dagger.go:85-98 | the mount directory is validated; on success the container is made from the image, the directory is mounted at "/mnt" and listed again |
| Runner.WorkTask | internal/core/runner/dagger.go:101-129 | the work directory is validated and listed; non-empty variables are set; with the show option they are read back and a read failure ends the task; the working directory becomes "/mnt" joined with the task's |
| Runner.Validate | internal/core/runner/dagger.go:88-104 | the validation's verdict is the view's, a passing directory is non-empty, and its calls are the view's listing |
| Runner.ListAgain | internal/core/runner/dagger.go:98-109 | PrintEntries's listing is one engine call whose result is ignored |
| Runner.JoinPath | internal/core/runner/dagger.go:85-128 | the path join is the view's |
| Runner.RunCommands | internal/core/runner/dagger.go:132-138 | the command loop makes exactly the executions of the commands' run, in order, stopping at the first failure |
| Runner.DaggerRunnerBuilder.constructor | internal/core/runner/dagger.go:205-219 | NewRunnerDagger: the drawn id, no jobs, the scheduler's client and connection, the client's directories, default options, no error |
| Runner.DaggerRunnerBuilder.WithOptions | internal/core/runner/dagger.go:147-155 | sets only the options |
| Runner.DaggerRunnerBuilder.WithDaggerClient | internal/core/runner/dagger.go:157-185 | an explicit connection wins; else a held one is kept; else, when the client has none either, a new connection is made and a failure recorded; when the client has one, the runner still holds none |
| Runner.DaggerRunnerBuilder.Build | internal/core/runner/dagger.go:187-203 | fails with the recorded error; otherwise a new runner with the builder's fields |
| RunnerProperties.FirstFailingAt | internal/core/runner/dagger.go:70-140 | the first failing element is the one before which everything passes |
| RunnerProperties.ChainAgrees | internal/core/runner/dagger.go:70-140 | two step functions that agree on every element give the same run |
| RunnerProperties.CommandCallsAreExecs | internal/core/runner/dagger.go:132-138 | the command loop makes only executions, all on the one prepared container |
| RunnerProperties.EmptyJobIsSkipped | internal/core/runner/dagger.go:71-77 | a job without tasks can be removed from the list without changing the run |
| RunnerProperties.ValidatedPaths | internal/core/runner/dagger.go:85-128 | the mount path is base/mountDir, the work path is base/mountDir/workdir, and the container working directory is "/mnt"/workdir, each as filepath.Join gives them |
| RunnerProperties.ValidatesListsOnly | internal/core/daggerio/fs.go:100-101 | validation makes no engine call other than listing the directory it checks |
| RunnerProperties.MountFailureCreatesNoContainer | internal/core/runner/dagger.go:88-90 | when the mount directory fails its check the task makes only that listing, creates no container, and fails with a task-execution error |
| RunnerProperties.WorkFailureRunsNoCommand | internal/core/runner/dagger.go:104-106 | when the work directory fails its check the task stops after mounting, before any variable or command |
| RunnerProperties.MountStageCalls | internal/core/runner/dagger.go:85-98 | the mount stage only lists, creates and mounts, and passes with the image's container holding one mount at "/mnt" |
| RunnerProperties.WorkStageCalls | internal/core/runner/dagger.go:101-129 | the work stage runs no command; it sets variables only when the task has some, and does so when its check passes; it keeps image and mounts and sets the working directory |
| RunnerProperties.PreparationCalls | internal/core/runner/dagger.go:84-129 | preparation runs no command, sets variables exactly for a task that has some once both checks pass, and yields the image's container with the one mount and the working directory |
| RunnerProperties.TaskCalls | internal/core/runner/dagger.go:84-138 | every call of a task is a preparation call or, after a passed preparation, an execution on the prepared container |
| RunnerProperties.EnvSetOnlyWhenPresent | internal/core/runner/dagger.go:111-113 | variables are set in the container exactly when the task has some and both checks pass |
| RunnerProperties.CommandsRunInPreparedContainer | internal/core/runner/dagger.go:95-133 | every command runs in a container of the task's image, with only the mount directory at "/mnt" and the working directory set |
| RunnerProperties.FailingCommandEndsTask | internal/core/runner/dagger.go:132-137 | the first failing command ends the task: no later command runs and the task fails with that command's error |
| RunnerProperties.TaskBaseDirIsUnused | internal/core/runner/dagger.go:80-85 | a task's own base directories never change its run; only the job's absolute base is used |
| RunnerProperties.FailingJobEndsRun | internal/core/runner/dagger.go:70-140 | the first failing job ends the run with its outcome; later jobs make no call |
| Scheduler.Builder.constructor | internal/core/scheduler/builder.go:99-107 | NewScheduler: the drawn id, no client, jobs or connection, no error |
| Scheduler.Builder.WithDaggerEngine | internal/core/scheduler/builder.go:56-72 | a failed connection records a configuration error and keeps the old connection; a made one is stored |
| Scheduler.Builder.WithJobsToRun | internal/core/scheduler/builder.go:74-90 | without a client the jobs are refused with a configuration error; with one they replace the list |
| Scheduler.Builder.WithClient | internal/core/scheduler/builder.go:92-97 | sets only the client |
| Scheduler.Builder.Build | internal/core/scheduler/builder.go:41-54 | fails with the recorded error; otherwise the scheduled jobs hold the id, client, jobs and connection |
| Scheduler.JobsBeforeClientAreRefused | internal/core/scheduler/builder.go:74-90 | setting jobs before the client fails the build even after the client is set |
| Scheduler.ScheduleInOrder | internal/core/scheduler/builder.go:41-97 | client, then jobs, then a successful connection builds the scheduled jobs with all three |
| TaskSpecs.ConvertCommands | internal/core/specs/taskspecbuilder.go:52-64 | one command argument set per command entry, in order, carrying its binary; the command line is the entry's last string (each pass of the inner loop overwrites it), or "" for an entry without strings |
| TaskSpecs.ScanOption | internal/core/specs/taskspecbuilder.go:68-86 | a scanned source is enabled exactly when the manifest enables it, and then carries the manifest's four settings and no ".env" files; otherwise it is the disabled option |
| TaskSpecs.EnvOptionsOf | internal/core/specs/taskspecbuilder.go:66-110 | Terraform and AWS follow ScanOption; the explicit variables are copied; the ".env" source is enabled exactly when files are listed, failing when unset, with those files; custom keys and host stay disabled and nothing is inherited |
| TaskSpecs.NoSourceDecoratesEmpty | internal/core/specs/taskspecbuilder.go:66-110 | a manifest that scans neither Terraform nor AWS and lists no ".env" file gives its task an empty environment: its explicit variables are never used |
| TaskSpecs.QuietLayers | internal/core/job/envvars.go:27-107 | with every source disabled, the stack is empty whatever the fetches would return |
| TaskSpecs.Convert | internal/core/specs/taskspecbuilder.go:46-111 | a nil manifest is a manifest error; otherwise the task arguments copy name, image and directories, have one command per entry as ConvertCommands makes them, and the options are EnvOptionsOf |
| TaskSpecs.CompiledWithoutKeywords | internal/core/specs/taskspecbuilder.go:154-158 | a text that contains none of the keywords comes out unchanged and without error |
| TaskSpecs.CompiledFailure | internal/core/specs/taskspecbuilder.go:166-173 | a failed compilation is an argument error caused by the renderer's error, its details the source text followed by that error's text; the failing keyword occurs in the text it was rendered on |
| TaskSpecs.FailedKey | internal/core/specs/taskspecbuilder.go:154-174 | the keyword at which compilation stopped is one of the keywords |
| TaskSpecs.CommandsCheck | internal/core/specs/taskspecbuilder.go:332-348 | the command list passes exactly when it is non-empty and every entry has at least one command string |
| TaskSpecs.CheckCommands | internal/core/specs/taskspecbuilder.go:340-348 | the loop returns exactly that verdict |
| TaskSpecs.CheckTail | internal/core/specs/taskspecbuilder.go:304-348 | the directory and command checks done by the method are exactly TailCheck |
| TaskSpecs.DeepCheckMeaning | internal/core/specs/taskspecbuilder.go:251-351 | strict validation passes exactly when a spec exists, its kind is Task, Job or Workflow, its version "v1", it has a name, an image, a work and a mount directory, the directory layout is accepted and every command entry has a command; every failure is a manifest error without a cause |
| TaskSpecs.DeepCheckOrder | internal/core/specs/taskspecbuilder.go:251-351 | the checks report in the source's order: kind, version, name, image, work directory, mount directory, each with its own message; a spec without commands fails |
| TaskSpecs.ValidatedManifestMakesTask | internal/core/specs/taskspecbuilder.go:297-330 | a validated manifest's task passes the job builder's checks unless its base directory is ".", which validation accepts and the job builder refuses as relative |
| TaskSpecs.Builder.constructor | internal/core/specs/taskspecbuilder.go:415-423 | the builder holds the type, the joined manifest path, the client and its directories, with no content, no spec and no error |
| TaskSpecs.Builder.WithExtractedManifestContent | internal/core/specs/taskspecbuilder.go:114-136 | an empty manifest path or an unreadable file records an argument error (the read error as cause); otherwise the content is the file's; nothing else changes |
| TaskSpecs.Builder.WithCompiledManifestFunctions | internal/core/specs/taskspecbuilder.go:141-187 | empty content records an argument error; otherwise every keyword the text contains is rendered in turn (in Go's map order, a permutation of the five keywords) until one fails, and the content and error are the compilation's |
| TaskSpecs.Builder.WithConstructedSpec | internal/core/specs/taskspecbuilder.go:190-214 | empty content records an argument error; a parse failure records one naming the file, caused by it; otherwise the parsed spec is stored |
| TaskSpecs.Builder.WithCompiledManifestStructure | internal/core/specs/taskspecbuilder.go:217-248 | a type other than Task, an invalid structure or a parse failure records an argument error; the parsed spec is never stored |
| TaskSpecs.Builder.WithStrictDeepValidation | internal/core/specs/taskspecbuilder.go:251-351 | a spec passing the head checks with no base directory gets the builder's absolute one; then the strict validation's failure, if any, replaces the recorded error |
| TaskSpecs.Builder.Build | internal/core/specs/taskspecbuilder.go:354-375 | a recorded error becomes a configuration error naming the manifest type, caused by it; with no error and no spec the dereference panics; otherwise the spec |
| TaskSpecs.NewCheckMeaning | internal/core/specs/taskspecbuilder.go:378-413 | the constructor's checks pass exactly when a client is given, the file is named, the type is one of the three, the client has directories and the joined path is valid; every failure other than the directory dereference's panic is an argument error; a missing client is reported first, and with a bad type and no file the new builder reports the missing file where the legacy one reports the type |
| TaskSpecs.NewTaskSpecBuilder | internal/core/specs/taskspecbuilder.go:378-424 | succeeds exactly when the constructor's checks pass, with their error otherwise; a new builder holds the joined path, the type, the client and its directories |
| TaskSpecs.StructureChain | internal/core/specs/taskspecbuilder.go:217-375 | the chain through WithCompiledManifestStructure and strict validation never succeeds: with valid options it fails with the missing-spec manifest error wrapped by Build |
| TaskSpecs.ManifestFromFile | internal/core/specs/taskspecbuilder.go:114-424 | a manifest read through extraction, compilation, construction and strict validation comes only from valid options and a readable file, passes strict validation and has a base directory |
| LegacySpecs.LegacyEnvOptionsOf | internal/core/specs/builder.go:64-94 | Terraform scanning is required, without keys, exactly when enabled; AWS, custom keys and ".env" files are each enabled exactly when listed, and then fail when unset and carry the listed keys or files; host stays disabled, nothing is inherited and there are no explicit variables |
| LegacySpecs.LegacyNoSourceDecoratesEmpty | internal/core/specs/builder.go:64-94 | a legacy manifest that scans nothing and lists no key or file gives its task an empty environment |
| LegacySpecs.LegacyConvert | internal/core/specs/builder.go:42-107 | a nil manifest is a manifest error; otherwise the task copies name, image and directories, has one command per entry as in the newer builder, and the options are LegacyEnvOptionsOf |
| LegacySpecs.WithBase | internal/core/specs/builder.go:139-142 | an unset base directory becomes the builder's absolute one; everything else in the manifest stays |
| LegacySpecs.ManifestBuilder.constructor | internal/core/specs/builder.go:303-311 | the builder holds the type, the joined path, the client and its directories, with no spec and no error |
| LegacySpecs.ManifestBuilder.WithGeneratedTaskManifest | internal/core/specs/builder.go:110-148 | a type other than Task, an invalid structure or a parse failure records an argument error (the parser's as cause) and stores nothing; otherwise the parsed manifest, its base directory defaulted, is stored |
| LegacySpecs.ManifestBuilder.WithStrictDeepValidation | internal/core/specs/builder.go:151-244 | the stored manifest is unchanged and the strict validation's failure, if any, replaces the recorded error |
| LegacySpecs.ManifestBuilder.Build | internal/core/specs/builder.go:247-268 | a recorded error becomes a configuration error naming the type, caused by it; with no error and no manifest the dereference panics; otherwise a copy of the manifest |
| LegacySpecs.NewManifestBuilder | internal/core/specs/builder.go:271-312 | succeeds exactly when the constructor's checks pass (client, then type, then file, then the joined path's validity), with their error otherwise; a new builder holds the joined path, the type, the client and its directories |
| LegacySpecs.ManifestFromFile | internal/core/specs/builder.go:110-312 | the legacy chain succeeds exactly when the options are valid, the type is Task, the file parses and the defaulted manifest passes strict validation, and then gives that manifest with a base directory set |

## Left out

- Logging, contexts and the terminal-UI helpers are not modelled. Neither are the zap logger and the progress output. A nil logger is not modelled either: every logger is assumed present.
- I/O is replaced by inputs: the environment block stands for `os.Environ`, the `cwd` field of the host file system for `os.Getwd`, a parameter for the directories `GetDirCfg` looks up, and values for file contents and `os.Stat` results.
- GetUUID's identifiers are parameters: task i gets the i-th one.
- Template rendering, YAML parsing and validation, `shlex.Split` and `dagger.Connect` are parameters. Their internals are not part of this model.
- Go's map iteration order in WithCompiledManifestFunctions is the `keys` parameter. Its only constraint is being a permutation of the five template keywords, as nothing else fixes it.
- Setting a container's variables with SetEnvVarsInContainer is one SetEnv operation carrying the whole map. The per-variable calls in Go map order are not modelled.
- Case mapping in the upper/lower normalisers is ASCII-only.
- File contents are text, so a ".env" line's size for bufio.Scanner's 64 KiB limit is its UTF-8 length. Invalid UTF-8 bytes are not modelled.
- Host environment entries without '=' are excluded by the HostEnv type. The source indexes the missing value and panics on them.
- Clients.Builder.WithHost has an error branch for a failing host fetch. That fetch never fails, so the branch is unreachable and not modelled.
- A Go panic ends the program, and the source never recovers from one. The job builder models it as a recorded error that nothing later replaces (JobBuilder.Record), so Build returns it; the builder calls after it still update the job and the task list, which no caller can observe.
- Dagger.Engine: a closed connection is not marked as closed, so the model does not refuse calls made on it after Close. RunInDagger makes none.
- Runner.WorkTask: with the show option, the Name and Value lookups on each variable read back are not traced. Their results only feed the log, and the list of variables itself is not modelled.
- Several members require a present client, or present client directories: JobBuilder.NewDaggerClient, JobBuilder.Builder.WithJob, Runner.DaggerRunnerBuilder.constructor (NewRunnerDagger), Runner.DaggerRunnerBuilder.WithDaggerClient and Scheduler.Builder.WithDaggerEngine. The Go code dereferences these pointers without a check and panics when they are nil.
- Nil pointers inside manifests are not modelled, for example a nil commands entry. Optional records that the source does test for nil are `Option`s.
- The `Error` field of the command record is not modelled, since nothing reads it.
- The results of DaggerFs.PrintEntries are ignored by their callers. The model keeps them but proves nothing about their use.
- The runner's checks take the engine's view of the host (HostView) as a parameter. This relates what the engine lists to what the host file system holds.
- The explicit variables a manifest lists are stored by TaskSpecs.Convert but never read during decoration. This is modelled as written (TaskSpecs.NoSourceDecoratesEmpty).
- The package internal/core/specs does not compile as given: Convert is declared twice, and builder.go reads an `Options` record that does not exist in taskspec.go. The two builders are therefore separate modules, and the older one has its own manifest type.
- internal/core/job/envvars.go sets an `IgnoreIfNotSetOrEmpty` option on a type that envfetcher.go does not declare. Only the fields envfetcher.go declares are modelled.
- The command-line layer under cmd/ is not modelled, apart from the client chain in Clients.CliClient.
- Go's `path/filepath` is not part of this repository. Paths models its Unix behaviour lexically, with no symbolic links.
- TaskSpecs.ManifestFromFile: states only what a successful chain implies (valid options, a readable file, a validated manifest with a base directory), not the converse. The converse depends on the rendering order and the parser's answers.
- TaskSpecs.Builder.WithStrictDeepValidation: the directory check's own error appears only as text in the recorded error. The source drops it as a cause, as written.
