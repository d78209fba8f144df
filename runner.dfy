/**
 * internal/core/runner/dagger.go: the runner that drives the engine through
 * every job, task and command in order, stopping at the first failure, and
 * the builder that picks the engine connection it uses.
 */
module Runner {
  import opened Errors
  import opened Paths
  import opened FileSystem
  import opened Dagger
  import opened DaggerFs
  import opened Entities
  import opened Commands
  import opened Scheduler

  const WithIdText := " with id "
  const FailedToRunText := " failed to run"
  const FailedTaskText := "Failed to run task "
  const EnvReadText := "Could not get the environment variables from the container"
  const NoJobsText := "No jobs to run"
  const NoEngineText := "No Dagger engine (or client) found in either the client instance or the scheduler."
  const FsFailedText := "Failed to run jobs in Dagger"
  const NewClientFailedText := "Failed to create a new dagger client"

  /** The engine calls a piece of work makes and how it ends. */
  datatype Step = Step(ops: seq<Op>, outcome: Outcome)

  /** Runs `f` on each element in order and stops at the first failing one:
    * its calls are the last ones in the trace and its outcome is the
    * result. */
  function Chain<X>(f: X -> Step, xs: seq<X>): (s: Step)
    ensures |xs| == 0 ==> s == Step([], Pass)
    decreases |xs|
  {
    if |xs| == 0 then Step([], Pass)
    else
      var before := Chain(f, xs[..|xs| - 1]);
      if before.outcome.Fail? then before
      else Step(before.ops + f(xs[|xs| - 1]).ops, f(xs[|xs| - 1]).outcome)
  }

  /** The calls of every element's work, concatenated in order. */
  function AllOps<X>(f: X -> Step, xs: seq<X>): seq<Op>
    decreases |xs|
  {
    if |xs| == 0 then [] else AllOps(f, xs[..|xs| - 1]) + f(xs[|xs| - 1]).ops
  }

  /** The index of the first element whose work fails. */
  function FirstFailing<X>(f: X -> Step, xs: seq<X>): Option<nat>
    decreases |xs|
  {
    if |xs| == 0 then None
    else match FirstFailing(f, xs[..|xs| - 1])
      case Some(k) => Some(k)
      case None => if f(xs[|xs| - 1]).outcome.Fail? then Some(|xs| - 1) else None
  }

  /** FirstFailing finds the first failing element, or there is none. */
  lemma {:induction false} FirstFailingMeaning<X>(f: X -> Step, xs: seq<X>)
    ensures FirstFailing(f, xs).None? ==> forall i :: 0 <= i < |xs| ==> f(xs[i]).outcome.Pass?
    ensures FirstFailing(f, xs).Some? ==>
      var k := FirstFailing(f, xs).value;
      k < |xs| && f(xs[k]).outcome.Fail? && forall i :: 0 <= i < k ==> f(xs[i]).outcome.Pass?
    decreases |xs|
  {
    if |xs| > 0 {
      var init := xs[..|xs| - 1];
      FirstFailingMeaning(f, init);
      assert forall i :: 0 <= i < |init| ==> xs[i] == init[i];
    }
  }

  /** Fail-fast: when every element passes, the trace is every element's
    * calls and the run passes; otherwise it is the calls up to and including
    * the first failing element, and the run ends with that element's
    * outcome. Nothing after the failure runs. */
  lemma {:induction false} ChainMeaning<X>(f: X -> Step, xs: seq<X>)
    ensures FirstFailing(f, xs).None? ==> Chain(f, xs) == Step(AllOps(f, xs), Pass)
    ensures FirstFailing(f, xs).Some? ==>
      var k := FirstFailing(f, xs).value;
      k < |xs| && Chain(f, xs) == Step(AllOps(f, xs[..k + 1]), f(xs[k]).outcome)
    decreases |xs|
  {
    if |xs| > 0 {
      var init := xs[..|xs| - 1];
      ChainMeaning(f, init);
      FirstFailingMeaning(f, init);
      match FirstFailing(f, init)
        case Some(k) =>
          assert init[..k + 1] == xs[..k + 1] && init[k] == xs[k];
        case None =>
          assert xs[..|xs|] == xs;
    }
  }

  /** An element whose work does nothing and passes can be dropped. */
  lemma {:induction false} ChainSkipsIdle<X>(f: X -> Step, xs: seq<X>, i: int)
    requires 0 <= i < |xs| && f(xs[i]) == Step([], Pass)
    ensures Chain(f, xs) == Chain(f, xs[..i] + xs[i + 1..])
    decreases |xs|
  {
    var n := |xs| - 1;
    if i == n {
      assert xs[..i] + xs[i + 1..] == xs[..n];
    } else {
      var init := xs[..n];
      ChainSkipsIdle(f, init, i);
      var dropped := xs[..i] + xs[i + 1..];
      assert dropped[..|dropped| - 1] == init[..i] + init[i + 1..];
      assert dropped[|dropped| - 1] == xs[n];
    }
  }

  /** One command's run: WithExec(args).Sync on the prepared container. */
  function ExecStep(run: (Container, seq<string>) -> Outcome, c: Container, t: Task, cmd: Cmd): (s: Step)
    ensures s.ops == [Exec(c, cmd.commands)]
    ensures s.outcome.Pass? <==> run(c, cmd.commands).Pass?
  {
    match run(c, cmd.commands)
      case Pass => Step([Exec(c, cmd.commands)], Pass)
      case Fail(e) => Step([Exec(c, cmd.commands)], Fail(CommandFailure(t, e)))
  }

  function ExecOf(run: (Container, seq<string>) -> Outcome, c: Container, t: Task): Cmd -> Step {
    cmd => ExecStep(run, c, t, cmd)
  }

  function CommandFailure(t: Task, e: Error): (f: Error)
    ensures f.Typed? && f.kind == TaskExecution && f.cause == Caused(e)
  {
    NewTaskExecutionError("Task " + t.name + WithIdText + t.id + FailedToRunText, Caused(e))
  }

  function TaskFailure(t: Task, e: Error): (f: Error)
    ensures f.Typed? && f.kind == TaskExecution && f.cause == Caused(e)
  {
    NewTaskExecutionError(FailedTaskText + t.name + WithIdText + t.id, Caused(e))
  }

  function EnvReadFailure(e: Error): Error {
    NewRunnerExecutionError(EnvReadText, Caused(e))
  }

  /** What the runner sees of the host: the verdict of validating a
    * directory, the engine calls that validation makes, and the host's
    * path join. */
  datatype HostView = HostView(verdict: string -> Outcome, listing: string -> seq<Op>, join: seq<string> -> string)

  /** `v` answers as ValidateEntries and filepath.Join do on this host and
    * connection. Each equation is made available only where the concrete
    * operation is mentioned, so reasoning about whole runs never unfolds
    * it. */
  ghost predicate Validates(v: HostView, host: HostFs, e: Engine) {
    && (forall d {:trigger EntriesCheck(host, e.entries, d)} :: v.verdict(d) == EntriesCheck(host, e.entries, d))
    && (forall d {:trigger ListingOps(host, d)} :: v.listing(d) == ListingOps(host, d))
    && (forall xs {:trigger Join(xs)} :: v.join(xs) == Join(xs))
  }

  /** The view of `host` through `e`. */
  function ViewOf(host: HostFs, e: Engine): (v: HostView)
    ensures Validates(v, host, e)
  {
    HostView(d => EntriesCheck(host, e.entries, d), d => ListingOps(host, d), xs => Join(xs))
  }

  /** The host directory mounted into the task's container: the job's
    * absolute base directory joined with the mount directory. */
  function MountPath(v: HostView, base: string, t: Task): string {
    v.join([base, t.mountDir])
  }

  /** The host directory the task works in: the mount path joined with the
    * work directory. */
  function WorkPath(v: HostView, base: string, t: Task): string {
    v.join([MountPath(v, base, t), t.workdir])
  }

  /** The container's working directory. */
  function ContainerWorkdir(v: HostView, t: Task): string {
    v.join([GetMntDir(), t.workdir])
  }

  /** A task's work before its commands: the calls, how it ends, and the
    * container the commands run in. */
  datatype Prep = Prep(ops: seq<Op>, outcome: Outcome, container: Container)

  /** Joins two stages: the second runs only if the first passed. */
  function Then(p: Prep, q: Prep): (r: Prep)
    ensures p.outcome.Fail? ==> r == p
    ensures p.outcome.Pass? ==> r == Prep(p.ops + q.ops, q.outcome, q.container)
  {
    if p.outcome.Fail? then p else Prep(p.ops + q.ops, q.outcome, q.container)
  }

  /** The mount stage: the mount directory is validated; on success the
    * container is created from the image, the directory placed at /mnt,
    * and its entries listed once more. */
  function MountStage(v: HostView, mount: string, t: Task): Prep {
    if v.verdict(mount).Fail? then Prep(v.listing(mount), Fail(TaskFailure(t, v.verdict(mount).error)), FromOf(t.containerImage))
    else
      Prep(v.listing(mount) + [FromImage(t.containerImage)] + [MountDir(GetMntDir(), mount)] + [ListEntries(mount)],
           Pass, WithDirectoryOf(FromOf(t.containerImage), GetMntDir(), mount))
  }

  /** The work stage on container `c`: the work directory is validated and
    * its entries listed once more, the task's variables set when there are
    * any, read back with `showEnv`, and last the working directory set. */
  function WorkStage(v: HostView, work: string, readEnv: Container -> Outcome, showEnv: bool, c: Container, t: Task): Prep {
    if v.verdict(work).Fail? then Prep(v.listing(work), Fail(TaskFailure(t, v.verdict(work).error)), c)
    else
      var listed := v.listing(work) + [ListEntries(work)];
      var withEnv := if t.envVars == map[] then c else WithEnvOf(c, t.envVars);
      var envSet := if t.envVars == map[] then listed else listed + [SetEnv(t.envVars)];
      if showEnv && readEnv(withEnv).Fail? then
        Prep(envSet + [ReadEnv(withEnv)], Fail(TaskFailure(t, EnvReadFailure(readEnv(withEnv).error))), withEnv)
      else
        var read := if showEnv then envSet + [ReadEnv(withEnv)] else envSet;
        Prep(read + [SetWorkdir(ContainerWorkdir(v, t))], Pass, WithWorkdirOf(withEnv, ContainerWorkdir(v, t)))
  }

  /** A task up to its commands: the mount stage, then the work stage. */
  function Preparation(v: HostView, e: Engine, showEnv: bool, base: string, t: Task): Prep {
    var m := MountStage(v, MountPath(v, base, t), t);
    Then(m, WorkStage(v, WorkPath(v, base, t), e.readEnv, showEnv, m.container, t))
  }

  /** One task: its preparation, then its commands in order. */
  function TaskRun(v: HostView, e: Engine, showEnv: bool, base: string, t: Task): Step {
    var p := Preparation(v, e, showEnv, base, t);
    if p.outcome.Fail? then Step(p.ops, p.outcome)
    else
      var cmds := Chain(ExecOf(e.run, p.container, t), t.commandsCfg);
      Step(p.ops + cmds.ops, cmds.outcome)
  }

  /** The run of a task from a base directory, as a value. */
  function TaskRunOf(v: HostView, e: Engine, showEnv: bool): (string, Task) -> Step {
    (base, t) => TaskRun(v, e, showEnv, base, t)
  }

  /** `task` is TaskRun on this view and connection. Like Validates, each
    * equation is made available only where TaskRun itself is mentioned. */
  ghost predicate RunsTasks(task: (string, Task) -> Step, v: HostView, e: Engine, showEnv: bool) {
    forall base, t {:trigger TaskRun(v, e, showEnv, base, t)} :: task(base, t) == TaskRun(v, e, showEnv, base, t)
  }

  lemma TaskRunOfRunsTasks(v: HostView, e: Engine, showEnv: bool)
    ensures RunsTasks(TaskRunOf(v, e, showEnv), v, e, showEnv)
  {
  }

  /** The tasks of a job, each run from the job's absolute base directory. */
  function TasksOf(task: (string, Task) -> Step, j: Job): Task -> Step {
    t => task(j.baseDirAbs, t)
  }

  /** One job, each task run as `task` says: skipped when it has no tasks,
    * otherwise its tasks in order until one fails. */
  function JobRun(task: (string, Task) -> Step, j: Job): Step {
    if |j.tasks| == 0 then Step([], Pass)
    else Chain(TasksOf(task, j), j.tasks)
  }

  function JobOf(task: (string, Task) -> Step): Job -> Step {
    j => JobRun(task, j)
  }

  /** Every job in order, stopping at the first failure. */
  function JobsRun(task: (string, Task) -> Step, jobs: seq<Job>): Step {
    Chain(JobOf(task), jobs)
  }

  const NoJobs := NewRunnerConfigurationError(NoJobsText, NoCause)

  const NoEngine := NewRunnerConfigurationError(NoEngineText, NoCause)

  /** How RunInDagger ends when the runner holds no connection: both
    * connections missing is reported as such; a connection only in the
    * client configuration still fails, since the helper is built from the
    * runner's own connection. */
  function Unconnected(client: Client): (o: Outcome)
    ensures o.Fail?
    ensures client.cfgDagger.Some? ==> o.error.Typed? && o.error.kind == RunnerConfiguration
  {
    if client.cfgDagger.None? then Fail(NilDereference)
    else if client.cfgDagger.value.client == null then Fail(NoEngine)
    else Fail(NewRunnerConfigurationError(FsFailedText, Caused(MissingClient)))
  }

  datatype DaggerRunnerOptions = DaggerRunnerOptions(showEnvVars: bool)

  class DaggerRunner {
    var id: string
    var client: Client
    var jobs: seq<Job>
    var daggerClient: Engine?
    var baseDir: string
    var baseDirAbs: string
    var options: DaggerRunnerOptions

    constructor (id: string, client: Client, jobs: seq<Job>, daggerClient: Engine?,
                 baseDir: string, baseDirAbs: string, options: DaggerRunnerOptions)
      ensures this.id == id && this.client == client && this.jobs == jobs
      ensures this.daggerClient == daggerClient && this.baseDir == baseDir
      ensures this.baseDirAbs == baseDirAbs && this.options == options
    {
      this.id := id;
      this.client := client;
      this.jobs := jobs;
      this.daggerClient := daggerClient;
      this.baseDir := baseDir;
      this.baseDirAbs := baseDirAbs;
      this.options := options;
    }

    /** Runs `jobs` (not the runner's own job list) on the runner's
      * connection. No jobs, or no connection, fails before the engine is
      * called; otherwise the engine sees the calls of JobsRun, then the
      * deferred Close whether the run passed or failed, and the run ends as
      * JobsRun does. */
    method RunInDagger(host: HostFs, jobs: seq<Job>, ghost v: HostView) returns (o: Outcome)
      requires daggerClient != null ==> Validates(v, host, daggerClient)
      modifies daggerClient
      ensures |jobs| == 0 ==> o == Fail(NoJobs)
      ensures |jobs| > 0 && daggerClient == null ==> o == Unconnected(client)
      ensures daggerClient != null && |jobs| == 0 ==> daggerClient.trace == old(daggerClient.trace)
      ensures daggerClient != null && |jobs| > 0 ==>
        var run := JobsRun(TaskRunOf(v, daggerClient, options.showEnvVars), jobs);
        daggerClient.trace == old(daggerClient.trace) + run.ops + [CloseConnection] && o == run.outcome
    {
      if |jobs| == 0 {
        return Fail(NoJobs);
      }
      var engine := daggerClient;
      if engine == null {
        if client.cfgDagger.None? {
          return Fail(NilDereference);
        }
        if client.cfgDagger.value.client == null {
          return Fail(NoEngine);
        }
      }
      var fsBuilder := new FsBuilder();
      fsBuilder.WithLogger(Some(Given(id)));
      fsBuilder.WithDaggerClient(engine);
      var built := fsBuilder.Build();
      if built.Err? {
        return Fail(NewRunnerConfigurationError(FsFailedText, Caused(built.error)));
      }
      TaskRunOfRunsTasks(v, built.value.daggerClient, options.showEnvVars);
      o := RunJobs(built.value, v, host, options.showEnvVars, jobs, TaskRunOf(v, built.value.daggerClient, options.showEnvVars));
      built.value.daggerClient.Close();
    }
  }

  /** The jobs through the engine, in order until one fails. */
  method RunJobs(h: Fs, ghost v: HostView, host: HostFs, showEnv: bool, jobs: seq<Job>, ghost task: (string, Task) -> Step)
    returns (o: Outcome)
    requires Validates(v, host, h.daggerClient) && RunsTasks(task, v, h.daggerClient, showEnv)
    modifies h.daggerClient
    ensures h.daggerClient.trace == old(h.daggerClient.trace) + JobsRun(task, jobs).ops
    ensures o == JobsRun(task, jobs).outcome
  {
    ghost var start := h.daggerClient.trace;
    ghost var f := JobOf(task);
    var i := 0;
    while i < |jobs|
      invariant 0 <= i <= |jobs|
      invariant Chain(f, jobs[..i]).outcome.Pass?
      invariant h.daggerClient.trace == start + Chain(f, jobs[..i]).ops
    {
      var r := RunJob(h, v, host, showEnv, jobs[i], task);
      Regroup(start, Chain(f, jobs[..i]).ops, f(jobs[i]).ops);
      assert jobs[..i + 1][..i] == jobs[..i];
      if r.Fail? {
        ChainFailureStops(f, jobs, i + 1);
        return r;
      }
      i := i + 1;
    }
    assert jobs[..i] == jobs;
    return Pass;
  }

  /** Once a prefix fails, the rest of the list changes nothing. */
  lemma {:induction false} ChainFailureStops<X>(f: X -> Step, xs: seq<X>, n: int)
    requires 0 <= n <= |xs| && Chain(f, xs[..n]).outcome.Fail?
    ensures Chain(f, xs) == Chain(f, xs[..n])
    decreases |xs| - n
  {
    if n < |xs| {
      assert xs[..n + 1][..n] == xs[..n];
      ChainFailureStops(f, xs, n + 1);
    } else {
      assert xs[..n] == xs;
    }
  }

  /** One job through the engine: skipped without tasks, otherwise its tasks
    * in order until one fails. */
  method RunJob(h: Fs, ghost v: HostView, host: HostFs, showEnv: bool, j: Job, ghost task: (string, Task) -> Step)
    returns (o: Outcome)
    requires Validates(v, host, h.daggerClient) && RunsTasks(task, v, h.daggerClient, showEnv)
    modifies h.daggerClient
    ensures h.daggerClient.trace == old(h.daggerClient.trace) + JobRun(task, j).ops
    ensures o == JobRun(task, j).outcome
  {
    if |j.tasks| == 0 {
      return Pass;
    }
    var baseDirAbs := j.baseDirAbs;
    ghost var start := h.daggerClient.trace;
    ghost var f := TasksOf(task, j);
    var i := 0;
    while i < |j.tasks|
      invariant 0 <= i <= |j.tasks|
      invariant Chain(f, j.tasks[..i]).outcome.Pass?
      invariant h.daggerClient.trace == start + Chain(f, j.tasks[..i]).ops
    {
      var r := RunTask(h, v, host, showEnv, baseDirAbs, j.tasks[i], task);
      Regroup(start, Chain(f, j.tasks[..i]).ops, f(j.tasks[i]).ops);
      assert j.tasks[..i + 1][..i] == j.tasks[..i];
      if r.Fail? {
        ChainFailureStops(f, j.tasks, i + 1);
        return r;
      }
      i := i + 1;
    }
    assert j.tasks[..i] == j.tasks;
    return Pass;
  }

  /** One task through the engine, as TaskRun says. */
  method RunTask(h: Fs, ghost v: HostView, host: HostFs, showEnv: bool, base: string, t: Task,
                 ghost task: (string, Task) -> Step) returns (o: Outcome)
    requires Validates(v, host, h.daggerClient) && RunsTasks(task, v, h.daggerClient, showEnv)
    modifies h.daggerClient
    ensures h.daggerClient.trace == old(h.daggerClient.trace) + task(base, t).ops
    ensures o == task(base, t).outcome
  {
    assert task(base, t) == TaskRun(v, h.daggerClient, showEnv, base, t);
    ghost var start := h.daggerClient.trace;
    var p, container := PrepareTask(h, v, host, showEnv, base, t);
    if p.Fail? {
      return p;
    }
    ghost var prepared := Preparation(v, h.daggerClient, showEnv, base, t).ops;
    o := RunCommands(h.daggerClient, container, t);
    Regroup(start, prepared, Chain(ExecOf(h.daggerClient.run, container, t), t.commandsCfg).ops);
  }

  /** A task's work up to its commands, as Preparation says. */
  method PrepareTask(h: Fs, ghost v: HostView, host: HostFs, showEnv: bool, base: string, t: Task)
    returns (o: Outcome, container: Container)
    requires Validates(v, host, h.daggerClient)
    modifies h.daggerClient
    ensures var p := Preparation(v, h.daggerClient, showEnv, base, t);
      h.daggerClient.trace == old(h.daggerClient.trace) + p.ops && o == p.outcome
      && (o.Pass? ==> container == p.container)
  {
    ghost var start := h.daggerClient.trace;
    var mountDirPathAbs := JoinPath(h, v, host, [base, t.mountDir]);
    o, container := MountTask(h, v, host, mountDirPathAbs, t);
    if o.Fail? {
      return;
    }
    ghost var m := MountStage(v, mountDirPathAbs, t);
    var workDirPathAbs := JoinPath(h, v, host, [mountDirPathAbs, t.workdir]);
    o, container := WorkTask(h, v, host, workDirPathAbs, showEnv, container, t);
    Regroup(start, m.ops, WorkStage(v, workDirPathAbs, h.daggerClient.readEnv, showEnv, m.container, t).ops);
  }

  /** The mount stage through the engine. */
  method MountTask(h: Fs, ghost v: HostView, host: HostFs, mount: string, t: Task) returns (o: Outcome, container: Container)
    requires Validates(v, host, h.daggerClient)
    modifies h.daggerClient
    ensures var p := MountStage(v, mount, t);
      h.daggerClient.trace == old(h.daggerClient.trace) + p.ops && o == p.outcome && container == p.container
  {
    var e := h.daggerClient;
    ghost var start := e.trace;
    var mountCheck := Validate(h, v, host, mount);
    if mountCheck.Fail? {
      return Fail(TaskFailure(t, mountCheck.error)), FromOf(t.containerImage);
    }
    var mountDir := GetDaggerDir(mount);
    ghost var done := v.listing(mount);
    container := e.From(t.containerImage);
    Regroup(start, done, [FromImage(t.containerImage)]);
    done := done + [FromImage(t.containerImage)];
    container := e.WithDirectory(container, GetMntDir(), mountDir.value);
    Regroup(start, done, [MountDir(GetMntDir(), mount)]);
    done := done + [MountDir(GetMntDir(), mount)];
    ListAgain(h, mountDir.value);
    Regroup(start, done, [ListEntries(mount)]);
    return Pass, container;
  }

  /** The work stage through the engine. */
  method WorkTask(h: Fs, ghost v: HostView, host: HostFs, work: string, showEnv: bool, c: Container, t: Task)
    returns (o: Outcome, container: Container)
    requires Validates(v, host, h.daggerClient)
    modifies h.daggerClient
    ensures var p := WorkStage(v, work, h.daggerClient.readEnv, showEnv, c, t);
      h.daggerClient.trace == old(h.daggerClient.trace) + p.ops && o == p.outcome && container == p.container
  {
    var e := h.daggerClient;
    ghost var start := e.trace;
    container := c;
    var workCheck := Validate(h, v, host, work);
    if workCheck.Fail? {
      return Fail(TaskFailure(t, workCheck.error)), container;
    }
    var workDir := GetDaggerDir(work);
    ghost var done := v.listing(work);
    ListAgain(h, workDir.value);
    Regroup(start, done, [ListEntries(work)]);
    done := done + [ListEntries(work)];
    if t.envVars != map[] {
      container := e.WithEnvVariables(container, t.envVars);
      Regroup(start, done, [SetEnv(t.envVars)]);
      done := done + [SetEnv(t.envVars)];
    }
    if showEnv {
      var read := e.EnvVariables(container);
      Regroup(start, done, [ReadEnv(container)]);
      done := done + [ReadEnv(container)];
      if read.Fail? {
        return Fail(TaskFailure(t, EnvReadFailure(read.error))), container;
      }
    }
    var workdir := JoinPath(h, v, host, [GetMntDir(), t.workdir]);
    container := e.WithWorkdir(container, workdir);
    Regroup(start, done, [SetWorkdir(workdir)]);
    return Pass, container;
  }

  /** ValidateEntries, as the view reports it. */
  method Validate(h: Fs, ghost v: HostView, host: HostFs, dir: string) returns (o: Outcome)
    requires Validates(v, host, h.daggerClient)
    modifies h.daggerClient
    ensures o == v.verdict(dir) && (o.Pass? ==> dir != "")
    ensures h.daggerClient.trace == old(h.daggerClient.trace) + v.listing(dir)
  {
    o := ValidateEntries(h, host, dir);
  }

  /** PrintEntries on a directory handle; the runner drops its verdict. */
  method ListAgain(h: Fs, dir: string)
    modifies h.daggerClient
    ensures h.daggerClient.trace == old(h.daggerClient.trace) + [ListEntries(dir)]
  {
    var printed := PrintEntries(h, Some(dir));
  }

  /** filepath.Join, as the view reports it. */
  method JoinPath(h: Fs, ghost v: HostView, host: HostFs, elems: seq<string>) returns (p: string)
    requires Validates(v, host, h.daggerClient)
    ensures p == v.join(elems)
  {
    p := Join(elems);
  }

  /** A task's commands in order on one container definition, stopping at
    * the first failure. */
  method RunCommands(e: Engine, c: Container, t: Task) returns (o: Outcome)
    modifies e
    ensures e.trace == old(e.trace) + Chain(ExecOf(e.run, c, t), t.commandsCfg).ops
    ensures o == Chain(ExecOf(e.run, c, t), t.commandsCfg).outcome
  {
    ghost var f := ExecOf(e.run, c, t);
    var cmds := t.commandsCfg;
    var i := 0;
    while i < |cmds|
      invariant 0 <= i <= |cmds|
      invariant Chain(f, cmds[..i]).outcome.Pass?
      invariant e.trace == old(e.trace) + Chain(f, cmds[..i]).ops
    {
      var r := e.Sync(c, cmds[i].commands);
      Regroup(old(e.trace), Chain(f, cmds[..i]).ops, f(cmds[i]).ops);
      assert cmds[..i + 1][..i] == cmds[..i];
      if r.Fail? {
        ChainFailureStops(f, cmds, i + 1);
        return Fail(CommandFailure(t, r.error));
      }
      i := i + 1;
    }
    assert cmds[..i] == cmds;
    return Pass;
  }

  class DaggerRunnerBuilder {
    var id: string
    var client: Client
    var jobs: seq<Job>
    var daggerClient: Engine?
    var error: Option<Error>
    var baseDir: string
    var baseDirAbs: string
    var options: DaggerRunnerOptions

    /** NewRunnerDagger: the scheduler's client and connection, the client's
      * directories, no jobs and no error. The client is dereferenced, so
      * it must be set and carry its directories. */
    constructor (s: ScheduledJobs, id: string)
      requires s.client.Some? && s.client.value.cfgDir.Some?
      ensures this.id == id && client == s.client.value && jobs == [] && error == None
      ensures daggerClient == s.daggerClient
      ensures baseDir == s.client.value.cfgDir.value.baseDir
      ensures baseDirAbs == s.client.value.cfgDir.value.baseDirAbs
      ensures options == DaggerRunnerOptions(false)
    {
      this.id := id;
      client := s.client.value;
      jobs := [];
      daggerClient := s.daggerClient;
      error := None;
      baseDir := s.client.value.cfgDir.value.baseDir;
      baseDirAbs := s.client.value.cfgDir.value.baseDirAbs;
      options := DaggerRunnerOptions(false);
    }

    method WithOptions(opt: DaggerRunnerOptions)
      modifies this
      ensures options == opt
      ensures id == old(id) && client == old(client) && jobs == old(jobs) && daggerClient == old(daggerClient)
      ensures error == old(error) && baseDir == old(baseDir) && baseDirAbs == old(baseDirAbs)
    {
      options := opt;
    }

    /** Picks the connection: an explicit one wins; otherwise the one held
      * is kept; otherwise a new one is made only when the client
      * configuration has none (a failure is recorded); otherwise the runner
      * stays without one. `connected` is what connecting would yield. */
    method WithDaggerClient(c: Engine?, connected: Engine?)
      requires c == null && daggerClient == null ==> client.cfgDagger.Some?
      modifies this
      ensures id == old(id) && client == old(client) && jobs == old(jobs) && options == old(options)
      ensures baseDir == old(baseDir) && baseDirAbs == old(baseDirAbs)
      ensures c != null ==> daggerClient == c && error == old(error)
      ensures c == null && old(daggerClient) != null ==> daggerClient == old(daggerClient) && error == old(error)
      ensures c == null && old(daggerClient) == null && client.cfgDagger.value.client != null ==>
        daggerClient == null && error == old(error)
      ensures c == null && old(daggerClient) == null && client.cfgDagger.value.client == null ==>
        daggerClient == connected
        && error == (if connected == null then Some(ConnectionFailure) else old(error))
    {
      if c != null {
        daggerClient := c;
        return;
      }
      if daggerClient != null {
        return;
      }
      if client.cfgDagger.value.client == null {
        if connected == null {
          error := Some(ConnectionFailure);
          return;
        }
        daggerClient := connected;
      }
    }

    /** Fails with the recorded error, if any; otherwise a runner with the
      * builder's fields. */
    method Build() returns (r: Result<DaggerRunner>)
      ensures error.Some? ==> r.Err? && r.error == error.value
      ensures error.None? ==>
        (r.Ok? && fresh(r.value)
         && r.value.id == id && r.value.client == client && r.value.jobs == jobs
         && r.value.daggerClient == daggerClient && r.value.baseDir == baseDir
         && r.value.baseDirAbs == baseDirAbs && r.value.options == options)
    {
      if error.Some? {
        return Err(error.value);
      }
      var runner := new DaggerRunner(id, client, jobs, daggerClient, baseDir, baseDirAbs, options);
      return Ok(runner);
    }
  }

  const ConnectionFailure := NewConfigurationError(NewClientFailedText, Caused(ConnectFailure))
}
