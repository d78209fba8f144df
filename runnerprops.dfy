/**
 * What a run of internal/core/runner/dagger.go promises, stated on the
 * specification functions of the Runner module.
 */
module RunnerProperties {
  import opened Errors
  import opened Paths
  import opened FileSystem
  import opened Dagger
  import opened DaggerFs
  import opened Entities
  import opened Commands
  import opened Runner

  /** The element that fails with every earlier one passing is the one
    * FirstFailing finds. */
  lemma {:induction false} FirstFailingAt<X>(f: X -> Step, xs: seq<X>, k: int)
    requires 0 <= k < |xs| && f(xs[k]).outcome.Fail?
    requires forall i :: 0 <= i < k ==> f(xs[i]).outcome.Pass?
    ensures FirstFailing(f, xs) == Some(k)
    decreases |xs|
  {
    var init := xs[..|xs| - 1];
    if k < |xs| - 1 {
      assert init[k] == xs[k];
      assert forall i :: 0 <= i < k ==> init[i] == xs[i];
      FirstFailingAt(f, init, k);
    } else {
      FirstFailingMeaning(f, init);
      match FirstFailing(f, init)
        case Some(j) =>
          assert init[j] == xs[j];
        case None =>
    }
  }

  /** Steps that agree on every element give the same run. */
  lemma {:induction false} ChainAgrees<X>(f: X -> Step, g: X -> Step, xs: seq<X>)
    requires forall i :: 0 <= i < |xs| ==> f(xs[i]) == g(xs[i])
    ensures Chain(f, xs) == Chain(g, xs)
    decreases |xs|
  {
    if |xs| > 0 {
      var init := xs[..|xs| - 1];
      assert forall i :: 0 <= i < |init| ==> init[i] == xs[i];
      ChainAgrees(f, g, init);
    }
  }

  /** A task's commands make nothing but Exec calls, each on the prepared
    * container. */
  lemma {:induction false} CommandCallsAreExecs(run: (Container, seq<string>) -> Outcome, c: Container, t: Task, cmds: seq<Cmd>)
    ensures forall op :: op in Chain(ExecOf(run, c, t), cmds).ops ==> op.Exec? && op.container == c
    decreases |cmds|
  {
    if |cmds| > 0 {
      CommandCallsAreExecs(run, c, t, cmds[..|cmds| - 1]);
    }
  }

  /** A job without tasks is skipped: dropping it from the list changes
    * neither the engine calls nor the outcome. */
  lemma EmptyJobIsSkipped(task: (string, Task) -> Step, jobs: seq<Job>, i: int)
    requires 0 <= i < |jobs| && |jobs[i].tasks| == 0
    ensures JobsRun(task, jobs) == JobsRun(task, jobs[..i] + jobs[i + 1..])
  {
    ChainSkipsIdle(JobOf(task), jobs, i);
  }

  /** What a view that validates against the host says of a task's paths:
    * the mount path is the base joined with the task's mount directory, the
    * work path that joined with its work directory, and the container's
    * working directory /mnt joined with the work directory. */
  lemma ValidatedPaths(v: HostView, host: HostFs, e: Engine, base: string, t: Task)
    requires Validates(v, host, e)
    ensures MountPath(v, base, t) == Join([base, t.mountDir])
    ensures WorkPath(v, base, t) == Join([Join([base, t.mountDir]), t.workdir])
    ensures ContainerWorkdir(v, t) == Join([GetMntDir(), t.workdir])
  {
    assert MountPath(v, base, t) == Join([base, t.mountDir]);
  }

  /** Validation makes no engine call but the listing of the directory
    * validated. */
  ghost predicate ListsOnly(v: HostView) {
    forall d, op :: op in v.listing(d) ==> op == ListEntries(d)
  }

  lemma ValidatesListsOnly(v: HostView, host: HostFs, e: Engine)
    requires Validates(v, host, e)
    ensures ListsOnly(v)
  {
    forall d, op | op in v.listing(d)
      ensures op == ListEntries(d)
    {
      assert v.listing(d) == ListingOps(host, d);
    }
  }

  /** The mount directory is validated first: when that fails, the task
    * makes no call but the validation's own listing (no container is
    * created) and fails with a task execution error wrapping the check's. */
  lemma MountFailureCreatesNoContainer(v: HostView, e: Engine, showEnv: bool, base: string, t: Task)
    requires ListsOnly(v)
    requires v.verdict(MountPath(v, base, t)).Fail?
    ensures var run := TaskRun(v, e, showEnv, base, t);
      var mount := MountPath(v, base, t);
      run.ops == v.listing(mount)
      && (forall op :: op in run.ops ==> op == ListEntries(mount))
      && run.outcome == Fail(TaskFailure(t, v.verdict(mount).error))
      && run.outcome.error.kind == TaskExecution
  {
  }

  /** The work directory, the mount path joined with the task's work
    * directory, is validated next: when that fails, the container has been
    * defined and the mount listed, but no variable is set and no command
    * runs. */
  lemma WorkFailureRunsNoCommand(v: HostView, e: Engine, showEnv: bool, base: string, t: Task)
    requires v.verdict(MountPath(v, base, t)).Pass? && v.verdict(WorkPath(v, base, t)).Fail?
    ensures var run := TaskRun(v, e, showEnv, base, t);
      var mount := MountPath(v, base, t);
      var work := WorkPath(v, base, t);
      run.ops == v.listing(mount) + [FromImage(t.containerImage), MountDir(GetMntDir(), mount), ListEntries(mount)]
                 + v.listing(work)
      && run.outcome == Fail(TaskFailure(t, v.verdict(work).error))
  {
  }

  /** The mount stage defines the container but runs nothing in it. */
  lemma MountStageCalls(v: HostView, mount: string, t: Task)
    requires ListsOnly(v)
    ensures forall op :: op in MountStage(v, mount, t).ops ==> op.ListEntries? || op.FromImage? || op.MountDir?
    ensures var m := MountStage(v, mount, t);
      m.outcome.Pass? ==> m.container == WithDirectoryOf(FromOf(t.containerImage), GetMntDir(), mount)
  {
    var m := MountStage(v, mount, t);
    if v.verdict(mount).Pass? {
      var pre := v.listing(mount) + [FromImage(t.containerImage)] + [MountDir(GetMntDir(), mount)];
      assert m.ops == pre + [ListEntries(mount)];
      assert forall op :: op in pre ==> op.ListEntries? || op.FromImage? || op.MountDir?;
    }
  }

  /** The work stage runs nothing either; it sets variables exactly when
    * the task has some and the work directory validates, and leaves the
    * container's image and mounts alone while setting its working
    * directory. */
  lemma WorkStageCalls(v: HostView, work: string, readEnv: Container -> Outcome, showEnv: bool, c: Container, t: Task)
    requires ListsOnly(v)
    ensures forall op :: op in WorkStage(v, work, readEnv, showEnv, c, t).ops ==> !op.Exec?
    ensures t.envVars == map[] ==> forall op :: op in WorkStage(v, work, readEnv, showEnv, c, t).ops ==> !op.SetEnv?
    ensures t.envVars != map[] && v.verdict(work).Pass? ==> SetEnv(t.envVars) in WorkStage(v, work, readEnv, showEnv, c, t).ops
    ensures var w := WorkStage(v, work, readEnv, showEnv, c, t);
      w.outcome.Pass? ==>
        w.container.image == c.image && w.container.mounts == c.mounts && w.container.workdir == ContainerWorkdir(v, t)
  {
    if v.verdict(work).Pass? {
      var listed := v.listing(work) + [ListEntries(work)];
      assert forall op :: op in listed ==> op.ListEntries?;
      var withEnv := if t.envVars == map[] then c else WithEnvOf(c, t.envVars);
      var envSet := if t.envVars == map[] then listed else listed + [SetEnv(t.envVars)];
      assert forall op :: op in envSet ==> op.ListEntries? || op.SetEnv?;
      assert t.envVars != map[] ==> SetEnv(t.envVars) in envSet;
      var read := envSet + [ReadEnv(withEnv)];
      assert forall op :: op in read ==> op.ListEntries? || op.SetEnv? || op.ReadEnv?;
      assert t.envVars != map[] ==> SetEnv(t.envVars) in read;
      var last := (if showEnv then read else envSet) + [SetWorkdir(ContainerWorkdir(v, t))];
      assert t.envVars != map[] ==> SetEnv(t.envVars) in last;
    } else {
      assert WorkStage(v, work, readEnv, showEnv, c, t).ops == v.listing(work);
      assert forall op :: op in v.listing(work) ==> op.ListEntries?;
    }
  }

  /** A task's preparation runs nothing, sets variables exactly when the
    * task has some and both directories validate, and hands the commands
    * the container made from the image with the mount path at /mnt. */
  lemma PreparationCalls(v: HostView, e: Engine, showEnv: bool, base: string, t: Task)
    requires ListsOnly(v)
    ensures forall op :: op in Preparation(v, e, showEnv, base, t).ops ==> !op.Exec?
    ensures t.envVars == map[] ==> forall op :: op in Preparation(v, e, showEnv, base, t).ops ==> !op.SetEnv?
    ensures t.envVars != map[] && v.verdict(MountPath(v, base, t)).Pass? && v.verdict(WorkPath(v, base, t)).Pass? ==>
      SetEnv(t.envVars) in Preparation(v, e, showEnv, base, t).ops
    ensures var p := Preparation(v, e, showEnv, base, t);
      p.outcome.Pass? ==>
        p.container.image == t.containerImage && p.container.mounts == [Mount(GetMntDir(), MountPath(v, base, t))]
        && p.container.workdir == ContainerWorkdir(v, t)
  {
    var m := MountStage(v, MountPath(v, base, t), t);
    MountStageCalls(v, MountPath(v, base, t), t);
    WorkStageCalls(v, WorkPath(v, base, t), e.readEnv, showEnv, m.container, t);
  }

  /** A task's calls: the preparation's, then only Exec calls on the
    * prepared container. */
  lemma TaskCalls(v: HostView, e: Engine, showEnv: bool, base: string, t: Task)
    requires ListsOnly(v)
    ensures var run := TaskRun(v, e, showEnv, base, t);
      var p := Preparation(v, e, showEnv, base, t);
      forall op :: op in run.ops ==> op in p.ops || (p.outcome.Pass? && op.Exec? && op.container == p.container)
  {
    var p := Preparation(v, e, showEnv, base, t);
    CommandCallsAreExecs(e.run, p.container, t, t.commandsCfg);
  }

  /** Variables are set on the container only when the task has some, and
    * then with the task's whole map, when both directories validate. */
  lemma EnvSetOnlyWhenPresent(v: HostView, e: Engine, showEnv: bool, base: string, t: Task)
    requires ListsOnly(v)
    ensures t.envVars == map[] ==> forall op :: op in TaskRun(v, e, showEnv, base, t).ops ==> !op.SetEnv?
    ensures t.envVars != map[] && v.verdict(MountPath(v, base, t)).Pass? && v.verdict(WorkPath(v, base, t)).Pass? ==>
      SetEnv(t.envVars) in TaskRun(v, e, showEnv, base, t).ops
  {
    PreparationCalls(v, e, showEnv, base, t);
    TaskCalls(v, e, showEnv, base, t);
  }

  /** Every command runs in the container made from the task's image, with
    * the mount path placed at /mnt and the container's working directory
    * set (by ValidatedPaths, /mnt joined with the task's work directory). */
  lemma CommandsRunInPreparedContainer(v: HostView, e: Engine, showEnv: bool, base: string, t: Task)
    requires ListsOnly(v)
    ensures forall op :: op in TaskRun(v, e, showEnv, base, t).ops && op.Exec? ==>
      op.container.image == t.containerImage
      && op.container.mounts == [Mount(GetMntDir(), MountPath(v, base, t))]
      && op.container.workdir == ContainerWorkdir(v, t)
  {
    PreparationCalls(v, e, showEnv, base, t);
    TaskCalls(v, e, showEnv, base, t);
  }

  /** The first failing command ends the task: the commands before it and
    * it ran, none after, and the task fails with a task execution error
    * wrapping the engine's. */
  lemma FailingCommandEndsTask(v: HostView, e: Engine, showEnv: bool, base: string, t: Task, k: int)
    requires Preparation(v, e, showEnv, base, t).outcome.Pass?
    requires var c := Preparation(v, e, showEnv, base, t).container;
      0 <= k < |t.commandsCfg| && e.run(c, t.commandsCfg[k].commands).Fail?
      && forall i :: 0 <= i < k ==> e.run(c, t.commandsCfg[i].commands).Pass?
    ensures var p := Preparation(v, e, showEnv, base, t);
      var run := TaskRun(v, e, showEnv, base, t);
      run.ops == p.ops + AllOps(ExecOf(e.run, p.container, t), t.commandsCfg[..k + 1])
      && run.outcome == Fail(CommandFailure(t, e.run(p.container, t.commandsCfg[k].commands).error))
  {
    var p := Preparation(v, e, showEnv, base, t);
    var f := ExecOf(e.run, p.container, t);
    FirstFailingAt(f, t.commandsCfg, k);
    ChainMeaning(f, t.commandsCfg);
  }

  /** A task's own base directories play no part in its run: only the
    * job's absolute base directory does. */
  lemma TaskBaseDirIsUnused(v: HostView, e: Engine, showEnv: bool, base: string, t: Task, baseDir: string, baseDirAbs: string)
    ensures TaskRun(v, e, showEnv, base, t) == TaskRun(v, e, showEnv, base, t.(baseDir := baseDir, baseDirAbs := baseDirAbs))
  {
    var u := t.(baseDir := baseDir, baseDirAbs := baseDirAbs);
    var p := Preparation(v, e, showEnv, base, t);
    assert Preparation(v, e, showEnv, base, u) == p;
    ChainAgrees(ExecOf(e.run, p.container, t), ExecOf(e.run, p.container, u), t.commandsCfg);
  }

  /** The first failing job ends the run: every earlier job ran to the end,
    * no later job runs, and the run fails as that job did. */
  lemma FailingJobEndsRun(task: (string, Task) -> Step, jobs: seq<Job>, k: int)
    requires 0 <= k < |jobs| && JobRun(task, jobs[k]).outcome.Fail?
    requires forall i :: 0 <= i < k ==> JobRun(task, jobs[i]).outcome.Pass?
    ensures JobsRun(task, jobs) ==
      Step(AllOps(JobOf(task), jobs[..k + 1]), JobRun(task, jobs[k]).outcome)
  {
    FirstFailingAt(JobOf(task), jobs, k);
    ChainMeaning(JobOf(task), jobs);
  }
}
