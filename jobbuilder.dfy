/**
 * internal/core/job/builder.go: the builder of one job and its tasks. The
 * host environment and file system, the command-line tokenizer and the
 * identifiers GetUUID draws are parameters; logging is not modelled.
 */
module JobBuilder {
  import opened Errors
  import opened Paths
  import opened FileSystem
  import opened Validation
  import opened Commands
  import opened Entities
  import opened EnvVars
  import opened JobEnv

  datatype TaskNewCMDArgs = TaskNewCMDArgs(binary: string, commandArgs: string)

  datatype TaskNewArgs = TaskNewArgs(
    name: string,
    containerImage: string,
    commands: seq<TaskNewCMDArgs>,
    baseDir: string,
    workDir: string,
    mountDir: string)

  datatype NewArgs = NewArgs(name: string)

  const ImageRequiredText := "The 'containerImage' argument is required for task '"
  const WithIdText := "' with id '"
  const WorkDirAbsText := "The 'workDir' argument cannot be an absolute path: "
  const MountDirAbsText := "The 'mountDir' argument cannot be an absolute path: "
  const BaseDirRelText := "The 'baseDir' argument must be an absolute path: "
  const CannotConfigureText := "Cannot configure task '"
  const TaskDecorateText := "Error decorating env vars for task '"
  const CmdBuildText := "Error building jobcmd for task '"
  const JobDecorateText := "Error decorating env vars for job '"

  /** The zero values the builder starts from: a job with no fields set,
    * pointing at no client. */
  const NoClient := Client("", None, None, None, None, None, None)
  const EmptyJob := Job("", "", NoClient, [], "", "", map[])

  // ---------------------------------------------------------------------
  // One task

  /** The base directory a task is checked and run with: its own, or the
    * job's absolute base directory when it has none. */
  function TaskBase(jobBaseAbs: string, a: TaskNewArgs): string {
    if a.baseDir == "" then jobBaseAbs else a.baseDir
  }

  function TaskLayout(jobBaseAbs: string, a: TaskNewArgs): WorkDirIsValidArgs {
    WorkDirIsValidArgs(TaskBase(jobBaseAbs, a), a.workDir, a.mountDir)
  }

  /** The checks made of a task's arguments, in order: an image, a relative
    * work directory, a relative mount directory, an absolute base, and the
    * layout the directory validation accepts. */
  function CheckTask(fs: HostFs, jobBaseAbs: string, id: string, a: TaskNewArgs): Outcome {
    if a.containerImage == "" then
      Fail(NewTaskConfigurationError(ImageRequiredText + a.name + WithIdText + id + "'.", NoCause))
    else if IsAbs(a.workDir) then
      Fail(NewTaskConfigurationError(WorkDirAbsText + a.workDir, NoCause))
    else if IsAbs(a.mountDir) then
      Fail(NewTaskConfigurationError(MountDirAbsText + a.mountDir, NoCause))
    else if !IsAbs(TaskBase(jobBaseAbs, a)) then
      Fail(NewTaskConfigurationError(BaseDirRelText + TaskBase(jobBaseAbs, a), NoCause))
    else match WorkDirIsValid(fs, TaskLayout(jobBaseAbs, a))
      case Fail(e) => Fail(NewTaskConfigurationError(CannotConfigureText + a.name + WithIdText + id + "', ", Caused(e)))
      case Pass => Pass
  }

  /** A task passes exactly when it names an image, its base directory is
    * absolute and the directory validation accepts its layout; every
    * refusal is a task configuration error, and a missing image is reported
    * before anything else. */
  lemma CheckTaskMeaning(fs: HostFs, jobBaseAbs: string, id: string, a: TaskNewArgs)
    ensures var r := CheckTask(fs, jobBaseAbs, id, a);
      && (r.Pass? <==> a.containerImage != "" && IsAbs(TaskBase(jobBaseAbs, a)) && WorkDirAccepted(fs, TaskLayout(jobBaseAbs, a)))
      && (r.Fail? ==> r.error.Typed? && r.error.kind == TaskConfiguration)
      && (a.containerImage == "" ==> r.error.cause == NoCause && StartsWith(r.error.details, ImageRequiredText))
  {
    var r := CheckTask(fs, jobBaseAbs, id, a);
    if a.containerImage == "" {
      assert (ImageRequiredText + a.name + WithIdText + id + "'.")[..|ImageRequiredText|] == ImageRequiredText;
    }
  }

  /** A task's variables: the job's, as they are, in inherit mode (an empty
    * map stays empty), the decoration otherwise, whose failure becomes an
    * argument error. */
  function TaskEnv(inherit: bool, jobEnv: EnvMap, decorated: Result<EnvMap>, name: string, taskId: string): Result<EnvMap> {
    if inherit then Ok(jobEnv)
    else match decorated
      case Err(e) => Err(Wrap(Argument, TaskDecorateText + name + WithIdText + taskId + "'.", e))
      case Ok(m) => Ok(m)
  }

  /** Each element built in order by `f`; the first failure ends the list. */
  function Built<A, B>(f: A -> Result<B>, xs: seq<A>): Result<seq<B>>
    decreases |xs|
  {
    if |xs| == 0 then Ok([])
    else match Built(f, xs[..|xs| - 1])
      case Err(e) => Err(e)
      case Ok(built) =>
        match f(xs[|xs| - 1])
          case Err(e) => Err(e)
          case Ok(c) => Ok(built + [c])
  }

  lemma {:induction false} BuiltOk<A, B>(f: A -> Result<B>, xs: seq<A>)
    ensures Built(f, xs).Ok? <==> forall i :: 0 <= i < |xs| ==> f(xs[i]).Ok?
    decreases |xs|
  {
    if |xs| > 0 {
      var n := |xs| - 1;
      var front := xs[..n];
      BuiltOk(f, front);
      assert forall i :: 0 <= i < n ==> front[i] == xs[i];
      if Built(f, front).Err? {
        var k :| 0 <= k < n && f(front[k]).Err?;
        assert f(xs[k]).Err?;
      }
    }
  }

  lemma {:induction false} BuiltValues<A, B>(f: A -> Result<B>, xs: seq<A>)
    requires Built(f, xs).Ok?
    ensures var r := Built(f, xs).value;
      |r| == |xs| && forall i :: 0 <= i < |xs| ==> f(xs[i]).Ok? && r[i] == f(xs[i]).value
    decreases |xs|
  {
    if |xs| > 0 {
      var n := |xs| - 1;
      var front := xs[..n];
      BuiltValues(f, front);
      assert forall i :: 0 <= i < n ==> front[i] == xs[i];
      assert Built(f, xs).value == Built(f, front).value + [f(xs[n]).value];
    }
  }

  lemma {:induction false} BuiltFirstFailure<A, B>(f: A -> Result<B>, xs: seq<A>) returns (k: nat)
    requires Built(f, xs).Err?
    ensures k < |xs| && f(xs[k]).Err? && Built(f, xs).error == f(xs[k]).error
    ensures forall i :: 0 <= i < k ==> f(xs[i]).Ok?
    decreases |xs|
  {
    var n := |xs| - 1;
    var front := xs[..n];
    assert forall i :: 0 <= i < n ==> front[i] == xs[i];
    if Built(f, front).Err? {
      k := BuiltFirstFailure(f, front);
    } else {
      BuiltOk(f, front);
      k := n;
    }
  }

  lemma {:induction false} BuiltStops<A, B>(f: A -> Result<B>, xs: seq<A>, i: int)
    requires 0 <= i <= |xs| && Built(f, xs[..i]).Err?
    ensures Built(f, xs) == Built(f, xs[..i])
    decreases |xs| - i
  {
    if i < |xs| {
      var n := |xs| - 1;
      assert xs[..n][..i] == xs[..i];
      BuiltStops(f, xs[..n], i);
    } else {
      assert xs[..i] == xs;
    }
  }

  /** One command, as one pass of the command builder makes it. */
  function CmdOf(split: Tokenizer): TaskNewCMDArgs -> Result<Cmd> {
    (c: TaskNewCMDArgs) => MakeCmd(split, c.binary, c.commandArgs)
  }

  /** A task's commands, built in order by one command builder: the first
    * that fails ends the list. */
  function TaskCmds(split: Tokenizer, cmds: seq<TaskNewCMDArgs>): Result<seq<Cmd>> {
    Built(CmdOf(split), cmds)
  }

  /** Every command becomes one Cmd, in order, when each tokenizes. */
  lemma TaskCmdsBuildAll(split: Tokenizer, cmds: seq<TaskNewCMDArgs>)
    ensures var r := TaskCmds(split, cmds);
      && (r.Ok? <==> forall i :: 0 <= i < |cmds| ==> split(cmds[i].commandArgs).Ok?)
      && (r.Ok? ==> |r.value| == |cmds| && forall i :: 0 <= i < |cmds| ==>
            r.value[i] == MakeCmd(split, cmds[i].binary, cmds[i].commandArgs).value)
  {
    BuiltOk(CmdOf(split), cmds);
    if TaskCmds(split, cmds).Ok? {
      BuiltValues(CmdOf(split), cmds);
    }
  }

  /** A failed list fails with the error of its first command that does
    * not tokenize. */
  lemma TaskCmdsFirstFailure(split: Tokenizer, cmds: seq<TaskNewCMDArgs>)
    requires TaskCmds(split, cmds).Err?
    ensures exists k :: (0 <= k < |cmds| && split(cmds[k].commandArgs).Err?
      && (forall i :: 0 <= i < k ==> split(cmds[i].commandArgs).Ok?)
      && TaskCmds(split, cmds).error == MakeCmd(split, cmds[k].binary, cmds[k].commandArgs).error)
  {
    var k := BuiltFirstFailure(CmdOf(split), cmds);
    assert forall i :: 0 <= i < k ==> CmdOf(split)(cmds[i]).Ok?;
  }

  /** Where the checks, the variables and the commands of one task meet. */
  datatype TaskContext = TaskContext(
    fs: HostFs,
    split: Tokenizer,
    jobBaseAbs: string,
    jobEnv: EnvMap,
    builderId: string,
    inherit: bool,
    decorated: Result<EnvMap>)

  /** The task WithTasks makes of one argument set, the checks passing, or
    * the error it records. */
  function MakeTask(ctx: TaskContext, a: TaskNewArgs, taskId: string): Result<Task> {
    match CheckTask(ctx.fs, ctx.jobBaseAbs, ctx.builderId, a)
      case Fail(e) => Err(e)
      case Pass =>
        match TaskEnv(ctx.inherit, ctx.jobEnv, ctx.decorated, a.name, taskId)
          case Err(e) => Err(e)
          case Ok(env) =>
            match TaskCmds(ctx.split, a.commands)
              case Err(e) => Err(Wrap(Argument, CmdBuildText + a.name + WithIdText + taskId + "'.", e))
              case Ok(cmds) =>
                var base := TaskBase(ctx.jobBaseAbs, a);
                Ok(Task(taskId, a.name, a.containerImage, a.workDir, a.mountDir, base, base, env, cmds))
  }

  function TaskMaker(ctx: TaskContext): (TaskNewArgs, string) -> Result<Task> {
    (a, taskId) => MakeTask(ctx, a, taskId)
  }

  /** `r` is what MakeTask gives for these inputs. The trigger keeps
    * MakeTask's definition out of the loop that builds the task list. */
  ghost predicate Made(ctx: TaskContext, a: TaskNewArgs, taskId: string, r: Result<Task>) {
    forall c {:trigger MakeTask(c, a, taskId)} :: c == ctx ==> r == MakeTask(c, a, taskId)
  }

  /** `make` makes every task as MakeTask does in `ctx`. */
  ghost predicate IsMaker(make: (TaskNewArgs, string) -> Result<Task>, ctx: TaskContext) {
    forall a, taskId {:trigger make(a, taskId)} :: Made(ctx, a, taskId, make(a, taskId))
  }

  lemma MadeOnce(ctx: TaskContext, a: TaskNewArgs, taskId: string, r: Result<Task>, q: Result<Task>)
    requires Made(ctx, a, taskId, r) && Made(ctx, a, taskId, q)
    ensures r == q
  {
    assert r == MakeTask(ctx, a, taskId);
  }

  lemma TaskMakerMakes(ctx: TaskContext)
    ensures IsMaker(TaskMaker(ctx), ctx)
  {
  }

  /** A task is made exactly when its checks pass, its variables are found
    * and its commands build. It then carries the drawn id, the arguments'
    * names, the resolved base directory as both base directories, the
    * variables (the job's when inherited) and the commands. */
  lemma MakeTaskSucceeds(ctx: TaskContext, a: TaskNewArgs, taskId: string)
    ensures var r := MakeTask(ctx, a, taskId);
      var cmds := TaskCmds(ctx.split, a.commands);
      && (r.Ok? <==> CheckTask(ctx.fs, ctx.jobBaseAbs, ctx.builderId, a).Pass?
                     && (ctx.inherit || ctx.decorated.Ok?) && cmds.Ok?)
      && (r.Ok? ==>
            && r.value.id == taskId && r.value.name == a.name && r.value.containerImage == a.containerImage
            && r.value.workdir == a.workDir && r.value.mountDir == a.mountDir
            && r.value.baseDir == TaskBase(ctx.jobBaseAbs, a) && r.value.baseDirAbs == TaskBase(ctx.jobBaseAbs, a)
            && r.value.envVars == (if ctx.inherit then ctx.jobEnv else ctx.decorated.value)
            && r.value.commandsCfg == cmds.value)
  {
  }

  /** The checks' refusal is the task's error; a failed decoration or
    * command build after them is an argument error wrapping the cause (a
    * panic passes through). */
  lemma MakeTaskFails(ctx: TaskContext, a: TaskNewArgs, taskId: string)
    ensures var r := MakeTask(ctx, a, taskId);
      var checked := CheckTask(ctx.fs, ctx.jobBaseAbs, ctx.builderId, a);
      var cmds := TaskCmds(ctx.split, a.commands);
      && (checked.Fail? ==> r == Err(checked.error))
      && (checked.Pass? && !ctx.inherit && ctx.decorated.Err? ==>
            r == Err(Wrap(Argument, TaskDecorateText + a.name + WithIdText + taskId + "'.", ctx.decorated.error)))
      && (checked.Pass? && (ctx.inherit || ctx.decorated.Ok?) && cmds.Err? ==>
            r.error.Typed? && r.error.kind == Argument && r.error.cause == Caused(cmds.error))
  {
    if TaskCmds(ctx.split, a.commands).Err? {
      TaskCmdsFirstFailure(ctx.split, a.commands);
    }
  }

  // ---------------------------------------------------------------------
  // The task list

  /** What one WithTasks call adds: the tasks made, and the error that
    * stopped it, if any. */
  datatype Added = Added(tasks: seq<Task>, error: Option<Error>)

  /** Tasks are made in input order, task i with the i-th drawn id, until
    * the first that fails. */
  function AddTasks(make: (TaskNewArgs, string) -> Result<Task>, args: seq<TaskNewArgs>, ids: seq<string>): Added
    requires |ids| == |args|
    decreases |args|
  {
    if |args| == 0 then Added([], None)
    else
      var n := |args| - 1;
      var prev := AddTasks(make, args[..n], ids[..n]);
      if prev.error.Some? then prev
      else match make(args[n], ids[n])
        case Err(e) => Added(prev.tasks, Some(e))
        case Ok(t) => Added(prev.tasks + [t], None)
  }

  /** A single task that cannot be made records its error. */
  lemma OneFailingTask(make: (TaskNewArgs, string) -> Result<Task>, a: TaskNewArgs, taskId: string)
    requires make(a, taskId).Err?
    ensures AddTasks(make, [a], [taskId]) == Added([], Some(make(a, taskId).error))
  {
    assert [a][..0] == [] && [taskId][..0] == [];
  }

  /** A task without an image stops the list at once. */
  lemma MissingImageStops(ctx: TaskContext, a: TaskNewArgs, taskId: string)
    requires a.containerImage == ""
    ensures AddTasks(TaskMaker(ctx), [a], [taskId]).error.Some?
  {
    assert TaskMaker(ctx)(a, taskId).Err?;
    OneFailingTask(TaskMaker(ctx), a, taskId);
  }

  /** One more argument set either adds its task or records its error. */
  lemma AddTasksStep(make: (TaskNewArgs, string) -> Result<Task>, args: seq<TaskNewArgs>, ids: seq<string>, i: int)
    requires |ids| == |args| && 0 <= i < |args|
    requires AddTasks(make, args[..i], ids[..i]).error.None?
    ensures make(args[i], ids[i]).Ok? ==>
      AddTasks(make, args[..i + 1], ids[..i + 1]) == Added(AddTasks(make, args[..i], ids[..i]).tasks + [make(args[i], ids[i]).value], None)
    ensures make(args[i], ids[i]).Err? ==>
      AddTasks(make, args[..i + 1], ids[..i + 1]) == Added(AddTasks(make, args[..i], ids[..i]).tasks, Some(make(args[i], ids[i]).error))
  {
    assert args[..i + 1][..i] == args[..i] && ids[..i + 1][..i] == ids[..i];
  }

  /** A failure in a prefix is the failure of the whole list. */
  lemma {:induction false} AddTasksStops(make: (TaskNewArgs, string) -> Result<Task>, args: seq<TaskNewArgs>, ids: seq<string>, i: int)
    requires |ids| == |args| && 0 <= i <= |args|
    requires AddTasks(make, args[..i], ids[..i]).error.Some?
    ensures AddTasks(make, args, ids) == AddTasks(make, args[..i], ids[..i])
    decreases |args| - i
  {
    if i < |args| {
      var n := |args| - 1;
      assert args[..n][..i] == args[..i] && ids[..n][..i] == ids[..i];
      AddTasksStops(make, args[..n], ids[..n], i);
    } else {
      assert args[..i] == args && ids[..i] == ids;
    }
  }

  /** Tasks are made in order, each from its arguments and its drawn id;
    * without a failure every task is made, and a failure at the task after
    * the ones made records that task's error. */
  lemma AddTasksInOrder(make: (TaskNewArgs, string) -> Result<Task>, args: seq<TaskNewArgs>, ids: seq<string>)
    requires |ids| == |args|
    ensures var added := AddTasks(make, args, ids);
      && |added.tasks| <= |args|
      && (forall i :: 0 <= i < |added.tasks| ==> make(args[i], ids[i]).Ok? && added.tasks[i] == make(args[i], ids[i]).value)
      && (added.error.None? ==> |added.tasks| == |args|)
      && (added.error.Some? ==>
            var k := |added.tasks|;
            k < |args| && make(args[k], ids[k]).Err? && added.error == Some(make(args[k], ids[k]).error))
  {
    AddTasksMade(make, args, ids);
    AddTasksEnd(make, args, ids);
  }

  /** Each task made is the one its arguments and id make. */
  lemma {:induction false} AddTasksMade(make: (TaskNewArgs, string) -> Result<Task>, args: seq<TaskNewArgs>, ids: seq<string>)
    requires |ids| == |args|
    ensures var added := AddTasks(make, args, ids);
      && |added.tasks| <= |args|
      && forall i :: 0 <= i < |added.tasks| ==> make(args[i], ids[i]).Ok? && added.tasks[i] == make(args[i], ids[i]).value
    decreases |args|
  {
    if |args| > 0 {
      var n := |args| - 1;
      var prev := AddTasks(make, args[..n], ids[..n]);
      var added := AddTasks(make, args, ids);
      AddTasksMade(make, args[..n], ids[..n]);
      AddTasksEnd(make, args[..n], ids[..n]);
      forall i | 0 <= i < |added.tasks|
        ensures make(args[i], ids[i]).Ok? && added.tasks[i] == make(args[i], ids[i]).value
      {
        if i < |prev.tasks| {
          assert args[..n][i] == args[i] && ids[..n][i] == ids[i];
          assert added.tasks[i] == prev.tasks[i];
        }
      }
    }
  }

  /** The list stops either at its end, with no error, or at the first
    * task that cannot be made, with that task's error. */
  lemma {:induction false} AddTasksEnd(make: (TaskNewArgs, string) -> Result<Task>, args: seq<TaskNewArgs>, ids: seq<string>)
    requires |ids| == |args|
    ensures var added := AddTasks(make, args, ids);
      && (added.error.None? ==> |added.tasks| == |args|)
      && (added.error.Some? ==>
            var k := |added.tasks|;
            k < |args| && make(args[k], ids[k]).Err? && added.error == Some(make(args[k], ids[k]).error))
    decreases |args|
  {
    if |args| > 0 {
      var n := |args| - 1;
      var prev := AddTasks(make, args[..n], ids[..n]);
      AddTasksEnd(make, args[..n], ids[..n]);
      if prev.error.Some? {
        var k := |prev.tasks|;
        assert args[..n][k] == args[k] && ids[..n][k] == ids[k];
      }
    }
  }

  // ---------------------------------------------------------------------
  // The builder

  /** A task's commands, built in order with one command builder: it sets
    * the binary and tokenizes the line for each, and the first failing
    * build ends the list. */
  method BuildCommands(split: Tokenizer, cmds: seq<TaskNewCMDArgs>) returns (r: Result<seq<Cmd>>)
    ensures r == TaskCmds(split, cmds)
  {
    var taskCommands: seq<Cmd> := [];
    if |cmds| == 0 {
      return Ok(taskCommands);
    }
    var cmdBuilder := new CMDBuilder();
    var i := 0;
    while i < |cmds|
      invariant 0 <= i <= |cmds|
      invariant cmdBuilder.error == None
      invariant TaskCmds(split, cmds[..i]) == Ok(taskCommands)
    {
      assert cmds[..i + 1][..i] == cmds[..i];
      cmdBuilder.WithBinary(cmds[i].binary);
      cmdBuilder.WithCommands(split, cmds[i].commandArgs);
      var newCMD := cmdBuilder.Build();
      if newCMD.Err? {
        TaskCmdsStops(split, cmds, i + 1);
        return Err(newCMD.error);
      }
      taskCommands := taskCommands + [newCMD.value];
      i := i + 1;
    }
    assert cmds[..i] == cmds;
    return Ok(taskCommands);
  }

  /** A failure in a prefix is the failure of the whole command list. */
  lemma TaskCmdsStops(split: Tokenizer, cmds: seq<TaskNewCMDArgs>, i: int)
    requires 0 <= i <= |cmds| && TaskCmds(split, cmds[..i]).Err?
    ensures TaskCmds(split, cmds) == TaskCmds(split, cmds[..i])
  {
    BuiltStops(CmdOf(split), cmds, i);
  }

  /** `d` is what DecorateWithEnvVars yields for `opts`. The trigger keeps
    * the decoration's definition out of proofs that never compute it. */
  ghost predicate Decorates(env: seq<string>, fs: HostFs, opts: EnvVarsOptions, d: Result<EnvMap>) {
    forall o {:trigger Decorated(env, fs, o)} :: o == opts ==> d == Decorated(env, fs, o)
  }

  lemma DecoratesItself(env: seq<string>, fs: HostFs, opts: EnvVarsOptions)
    ensures Decorates(env, fs, opts, Decorated(env, fs, opts))
  {
  }

  /** One loop turn of WithTasks: the checks, the id drawn, the variables
    * (decorated afresh unless inherited) and the commands. */
  method ConfigureTask(env: HostEnv, fs: HostFs, split: Tokenizer, opts: EnvVarsOptions, jobBaseAbs: string, jobEnv: EnvMap,
                       builderId: string, ghost decorated: Result<EnvMap>, a: TaskNewArgs, taskId: string)
    returns (r: Result<Task>)
    requires Decorates(env, fs, opts, decorated)
    ensures Made(TaskContext(fs, split, jobBaseAbs, jobEnv, builderId, opts.inheritEnvVarsFromJob, decorated), a, taskId, r)
  {
    var checked := CheckTask(fs, jobBaseAbs, builderId, a);
    if checked.Fail? {
      return Err(checked.error);
    }
    var taskEnvVars: EnvMap;
    if opts.inheritEnvVarsFromJob {
      taskEnvVars := jobEnv;
    } else {
      var tempEnvVars := DecorateWithEnvVars(env, fs, opts);
      if tempEnvVars.Err? {
        return Err(Wrap(Argument, TaskDecorateText + a.name + WithIdText + taskId + "'.", tempEnvVars.error));
      }
      taskEnvVars := tempEnvVars.value;
    }
    var taskCommands := BuildCommands(split, a.commands);
    if taskCommands.Err? {
      return Err(Wrap(Argument, CmdBuildText + a.name + WithIdText + taskId + "'.", taskCommands.error));
    }
    var base := TaskBase(jobBaseAbs, a);
    return Ok(Task(taskId, a.name, a.containerImage, a.workDir, a.mountDir, base, base, taskEnvVars, taskCommands.value));
  }

  /** The error recorded when `e` happens after `error`: `e` replaces it,
    * unless `error` is a panic, which ended the Go program before `e` could
    * happen. */
  function Record(error: Option<Error>, e: Error): Option<Error> {
    if error.Some? && error.value.Panic? then error else Some(e)
  }

  /** The job and the recorded error after WithJob: a failed decoration is
    * recorded as a configuration error wrapping it (see Record), the job
    * staying as it was; otherwise the job is made afresh with no tasks, the client's base
    * directories and the decorated variables. */
  function JobMade(job: Job, error: Option<Error>, id: string, client: Client, args: NewArgs, decorated: Result<EnvMap>): (Job, Option<Error>)
    requires client.cfgDir.Some?
  {
    match decorated
      case Err(e) => (job, Record(error, Wrap(Configuration, JobDecorateText + args.name + WithIdText + id + "'.", e)))
      case Ok(m) => (Job(id, args.name, client, [], client.cfgDir.value.baseDir, client.cfgDir.value.baseDirAbs, m), error)
  }

  /** The task list and the recorded error after WithTasks: the tasks made
    * are appended, and a failure is recorded (see Record). */
  function TasksAdded(tasks: seq<Task>, error: Option<Error>, args: seq<TaskNewArgs>, ids: seq<string>,
                      make: (TaskNewArgs, string) -> Result<Task>): (seq<Task>, Option<Error>)
    requires |ids| == |args|
  {
    var added := AddTasks(make, args, ids);
    (tasks + added.tasks, if added.error.Some? then Record(error, added.error.value) else error)
  }

  /** An empty list adds nothing and records nothing. */
  lemma NoTasksAdded(tasks: seq<Task>, error: Option<Error>, make: (TaskNewArgs, string) -> Result<Task>)
    ensures TasksAdded(tasks, error, [], [], make) == (tasks, error)
  {
    assert tasks + [] == tasks;
  }

  /** WithJob never clears a recorded error. */
  lemma JobMadeKeepsError(job: Job, error: Option<Error>, id: string, client: Client, args: NewArgs, decorated: Result<EnvMap>)
    requires client.cfgDir.Some? && error.Some?
    ensures JobMade(job, error, id, client, args, decorated).1.Some?
  {
  }

  /** Nor does WithTasks. */
  lemma TasksAddedKeepsError(tasks: seq<Task>, error: Option<Error>, args: seq<TaskNewArgs>, ids: seq<string>,
                             make: (TaskNewArgs, string) -> Result<Task>)
    requires |ids| == |args| && error.Some?
    ensures TasksAdded(tasks, error, args, ids, make).1.Some?
  {
  }

  /** A panic recorded before WithJob is still the recorded error after it,
    * whatever the decoration gives. */
  lemma JobMadeKeepsPanic(job: Job, error: Option<Error>, id: string, client: Client, args: NewArgs, decorated: Result<EnvMap>)
    requires client.cfgDir.Some? && error.Some? && error.value.Panic?
    ensures JobMade(job, error, id, client, args, decorated).1 == error
  {
  }

  /** A failed decoration that panics records that panic itself: wrapping
    * leaves it as it is, and only an earlier panic can precede it. */
  lemma JobMadeRecordsPanic(job: Job, error: Option<Error>, id: string, client: Client, args: NewArgs, decorated: Result<EnvMap>)
    requires client.cfgDir.Some? && decorated.Err? && decorated.error.Panic?
    requires error.None? || !error.value.Panic?
    ensures JobMade(job, error, id, client, args, decorated).1 == Some(decorated.error)
  {
  }

  /** A panic recorded before WithTasks is still the recorded error after
    * it, whatever the tasks give. */
  lemma TasksAddedKeepsPanic(tasks: seq<Task>, error: Option<Error>, args: seq<TaskNewArgs>, ids: seq<string>,
                             make: (TaskNewArgs, string) -> Result<Task>)
    requires |ids| == |args| && error.Some? && error.value.Panic?
    ensures TasksAdded(tasks, error, args, ids, make).1 == error
  {
  }

  class Builder {
    var id: string
    var client: Client
    var job: Job
    var tasks: seq<Task>
    var baseDir: string
    var baseDirAbs: string
    var envVars: EnvMap
    var error: Option<Error>

    /** NewDaggerClient: a fresh id, an empty job and task list, no
      * variables, and the client's base directories (the client's
      * directory configuration is dereferenced, so it must be present). */
    constructor (client: Client, id: string)
      requires client.cfgDir.Some?
      ensures this.id == id && this.client == client && job == EmptyJob && tasks == [] && envVars == map[]
      ensures baseDir == client.cfgDir.value.baseDir && baseDirAbs == client.cfgDir.value.baseDirAbs
      ensures error == None
    {
      this.id := id;
      this.client := client;
      job := EmptyJob;
      tasks := [];
      envVars := map[];
      baseDir := client.cfgDir.value.baseDir;
      baseDirAbs := client.cfgDir.value.baseDirAbs;
      error := None;
    }

    /** Decorates the job's variables. A failure is recorded as a
      * configuration error wrapping the cause (a panic recorded earlier
      * stays) and the job is left alone;
      * otherwise the job is made afresh, with no tasks, the client's base
      * directories and the decorated variables. The task list, the
      * builder's own variables and a recorded error are not touched. */
    method WithJob(env: HostEnv, fs: HostFs, args: NewArgs, opts: EnvVarsOptions)
      requires client.cfgDir.Some?
      modifies this
      ensures id == old(id) && client == old(client) && tasks == old(tasks)
      ensures baseDir == old(baseDir) && baseDirAbs == old(baseDirAbs) && envVars == old(envVars)
      ensures (job, error) == JobMade(old(job), old(error), id, client, args, Decorated(env, fs, opts))
    {
      var envVars := DecorateWithEnvVars(env, fs, opts);
      SetJob(args, envVars);
    }

    /** The job part of WithJob, once the variables are decorated. */
    method SetJob(args: NewArgs, decorated: Result<EnvMap>)
      requires client.cfgDir.Some?
      modifies this
      ensures id == old(id) && client == old(client) && tasks == old(tasks)
      ensures baseDir == old(baseDir) && baseDirAbs == old(baseDirAbs) && envVars == old(envVars)
      ensures (job, error) == JobMade(old(job), old(error), id, client, args, decorated)
    {
      if decorated.Err? {
        error := Record(error, Wrap(Configuration, JobDecorateText + args.name + WithIdText + id + "'.", decorated.error));
        return;
      }
      job := Job(id, args.name, client, [], client.cfgDir.value.baseDir, client.cfgDir.value.baseDirAbs, decorated.value);
    }

    /** Appends the tasks made from `args`, in order, task i drawing the
      * i-th id, until one fails; that failure is recorded (a panic
      * recorded earlier stays), the tasks
      * before it staying appended. An empty list changes nothing. The
      * recorded error is neither checked nor cleared. */
    method WithTasks(env: HostEnv, fs: HostFs, split: Tokenizer, args: seq<TaskNewArgs>, opts: EnvVarsOptions, ids: seq<string>)
      requires |ids| == |args|
      modifies this
      ensures id == old(id) && client == old(client) && job == old(job)
      ensures baseDir == old(baseDir) && baseDirAbs == old(baseDirAbs) && envVars == old(envVars)
      ensures (tasks, error) == TasksAdded(old(tasks), old(error), args, ids,
        TaskMaker(TaskContext(fs, split, job.baseDirAbs, job.envVars, id, opts.inheritEnvVarsFromJob, Decorated(env, fs, opts))))
    {
      ghost var ctx := TaskContext(fs, split, job.baseDirAbs, job.envVars, id, opts.inheritEnvVarsFromJob, Decorated(env, fs, opts));
      if |args| == 0 {
        NoTasksAdded(tasks, error, TaskMaker(ctx));
        return;
      }
      DecoratesItself(env, fs, opts);
      TaskMakerMakes(ctx);
      AppendTasks(env, fs, split, args, opts, ids, Decorated(env, fs, opts), TaskMaker(ctx));
    }

    /** The loop of WithTasks, for a decoration given as `decorated` and a
      * `make` that makes tasks as MakeTask does. */
    method AppendTasks(env: HostEnv, fs: HostFs, split: Tokenizer, args: seq<TaskNewArgs>, opts: EnvVarsOptions,
                       ids: seq<string>, ghost decorated: Result<EnvMap>, ghost make: (TaskNewArgs, string) -> Result<Task>)
      requires |ids| == |args| && Decorates(env, fs, opts, decorated)
      requires IsMaker(make, TaskContext(fs, split, job.baseDirAbs, job.envVars, id, opts.inheritEnvVarsFromJob, decorated))
      modifies this
      ensures id == old(id) && client == old(client) && job == old(job)
      ensures baseDir == old(baseDir) && baseDirAbs == old(baseDirAbs) && envVars == old(envVars)
      ensures (tasks, error) == TasksAdded(old(tasks), old(error), args, ids, make)
    {
      ghost var ctx := TaskContext(fs, split, job.baseDirAbs, job.envVars, id, opts.inheritEnvVarsFromJob, decorated);
      ghost var before := tasks;
      var i := 0;
      while i < |args|
        invariant 0 <= i <= |args|
        invariant id == old(id) && client == old(client) && job == old(job) && error == old(error)
        invariant baseDir == old(baseDir) && baseDirAbs == old(baseDirAbs) && envVars == old(envVars)
        invariant AddTasks(make, args[..i], ids[..i]).error.None?
        invariant tasks == before + AddTasks(make, args[..i], ids[..i]).tasks
      {
        var task := ConfigureTask(env, fs, split, opts, job.baseDirAbs, job.envVars, id, decorated, args[i], ids[i]);
        MadeOnce(ctx, args[i], ids[i], task, make(args[i], ids[i]));
        AddTasksStep(make, args, ids, i);
        if task.Err? {
          error := Record(error, task.error);
          AddTasksStops(make, args, ids, i + 1);
          return;
        }
        ghost var prev := AddTasks(make, args[..i], ids[..i]).tasks;
        assert before + prev + [task.value] == before + (prev + [task.value]);
        tasks := tasks + [task.value];
        i := i + 1;
      }
      assert args[..i] == args && ids[..i] == ids;
    }

    /** Fails with the recorded error, if any; otherwise the job carries
      * the builder's id, the job's name, the builder-wide task list and
      * the builder's own (empty) variables, not the job's. */
    method Build() returns (r: Result<Job>)
      ensures error.Some? ==> r == Err(error.value)
      ensures error.None? ==> r == Ok(Job(id, job.name, client, tasks, baseDir, baseDirAbs, envVars))
    {
      if error.Some? {
        return Err(error.value);
      }
      return Ok(Job(id, job.name, client, tasks, baseDir, baseDirAbs, envVars));
    }
  }

  /** A task without an image fails the build whatever WithJob and later
    * WithTasks calls do: no call clears the recorded error. */
  method MissingImageFailsBuild(client: Client, id: string, env: HostEnv, fs: HostFs, split: Tokenizer,
                                opts: EnvVarsOptions, args: NewArgs, a: TaskNewArgs, taskId: string,
                                more: seq<TaskNewArgs>, moreIds: seq<string>)
    returns (r: Result<Job>)
    requires client.cfgDir.Some? && a.containerImage == "" && |moreIds| == |more|
    ensures r.Err?
  {
    var b := new Builder(client, id);
    ghost var ctx := TaskContext(fs, split, b.job.baseDirAbs, b.job.envVars, id, opts.inheritEnvVarsFromJob, Decorated(env, fs, opts));
    MissingImageStops(ctx, a, taskId);
    b.WithTasks(env, fs, split, [a], opts, [taskId]);
    JobMadeKeepsError(b.job, b.error, id, client, args, Decorated(env, fs, opts));
    b.WithJob(env, fs, args, opts);
    ghost var later := TaskContext(fs, split, b.job.baseDirAbs, b.job.envVars, id, opts.inheritEnvVarsFromJob, Decorated(env, fs, opts));
    TasksAddedKeepsError(b.tasks, b.error, more, moreIds, TaskMaker(later));
    b.WithTasks(env, fs, split, more, opts, moreIds);
    r := b.Build();
  }

  /** Go has no recover here: a panic while decorating the job's variables
    * ends the program. In the model it stays the recorded error through any
    * later WithTasks and WithJob calls, and Build returns it. */
  method PanicFailsBuild(client: Client, id: string, env: HostEnv, fs: HostFs, split: Tokenizer,
                         opts: EnvVarsOptions, args: NewArgs, decorated: Result<EnvMap>,
                         more: seq<TaskNewArgs>, moreIds: seq<string>, next: NewArgs)
    returns (r: Result<Job>)
    requires client.cfgDir.Some? && decorated.Err? && decorated.error.Panic? && |moreIds| == |more|
    ensures r == Err(decorated.error)
  {
    var b := new Builder(client, id);
    JobMadeRecordsPanic(b.job, b.error, id, client, args, decorated);
    b.SetJob(args, decorated);
    ghost var ctx := TaskContext(fs, split, b.job.baseDirAbs, b.job.envVars, id, opts.inheritEnvVarsFromJob, Decorated(env, fs, opts));
    TasksAddedKeepsPanic(b.tasks, b.error, more, moreIds, TaskMaker(ctx));
    b.WithTasks(env, fs, split, more, opts, moreIds);
    JobMadeKeepsPanic(b.job, b.error, id, client, next, Decorated(env, fs, opts));
    b.WithJob(env, fs, next, opts);
    r := b.Build();
  }

  /** WithJob does not reset the task list, and Build reports the builder's
    * id and its own variables, empty, rather than the job's: after
    * WithJob, WithTasks and a second WithJob, a successful build carries
    * every task made, the second job's name and no variables. */
  method TasksOutliveJob(client: Client, id: string, env: HostEnv, fs: HostFs, split: Tokenizer,
                         opts: EnvVarsOptions, first: NewArgs, second: NewArgs,
                         args: seq<TaskNewArgs>, ids: seq<string>)
    returns (r: Result<Job>)
    requires client.cfgDir.Some? && |ids| == |args|
    ensures r.Ok? ==>
      && |r.value.tasks| == |args| && r.value.name == second.name
      && r.value.id == id && r.value.envVars == map[]
      && r.value.baseDirAbs == client.cfgDir.value.baseDirAbs
  {
    var b := new Builder(client, id);
    b.WithJob(env, fs, first, opts);
    ghost var ctx := TaskContext(fs, split, b.job.baseDirAbs, b.job.envVars, id, opts.inheritEnvVarsFromJob, Decorated(env, fs, opts));
    b.WithTasks(env, fs, split, args, opts, ids);
    b.WithJob(env, fs, second, opts);
    OutliveFacts(client, id, first, second, Decorated(env, fs, opts), TaskMaker(ctx), args, ids);
    r := b.Build();
  }

  /** The state reasoning of TasksOutliveJob, for any decoration and any
    * task maker. */
  lemma OutliveFacts(client: Client, id: string, first: NewArgs, second: NewArgs, d: Result<EnvMap>,
                     make: (TaskNewArgs, string) -> Result<Task>, args: seq<TaskNewArgs>, ids: seq<string>)
    requires client.cfgDir.Some? && |ids| == |args|
    ensures var made1 := JobMade(EmptyJob, None, id, client, first, d);
      var added := TasksAdded([], made1.1, args, ids, make);
      var made2 := JobMade(made1.0, added.1, id, client, second, d);
      made2.1.None? ==> |added.0| == |args| && made2.0.name == second.name
  {
    AddTasksInOrder(make, args, ids);
  }
}
