/**
 * The container engine (a dagger.Client connection) as an abstract object.
 * Each call the pipeline makes on it is appended to a trace (the Name and
 * Value lookups on variables read back, which only feed the log, are not
 * modelled); what the engine
 * answers — the entries of a host directory, the outcome of running a
 * command, the outcome of reading a container's variables — is fixed by
 * three oracle functions given when the connection is made. Container
 * definitions are values: Dagger builds them lazily.
 */
module Dagger {
  import opened Errors
  import opened EnvVars

  /** A host directory placed at `path` inside the container. */
  datatype Mount = Mount(path: string, hostDir: string)

  /** A container definition: its image, mounts, variables and working
    * directory. */
  datatype Container = Container(image: string, mounts: seq<Mount>, env: EnvMap, workdir: string)

  /** One call on the engine, in the order it was made. */
  datatype Op =
    | ListEntries(dir: string)
    | FromImage(image: string)
    | MountDir(path: string, hostDir: string)
    | SetEnv(vars: EnvMap)
    | SetWorkdir(path: string)
    | Exec(container: Container, args: seq<string>)
    | ReadEnv(container: Container)
    | CloseConnection

  /** Container().From(image): a new container with nothing mounted or set. */
  function FromOf(image: string): (c: Container)
    ensures c.image == image && c.mounts == [] && c.env == map[]
  {
    Container(image, [], map[], "")
  }

  /** The definition after WithDirectory(path, hostDir). */
  function WithDirectoryOf(c: Container, path: string, hostDir: string): (d: Container)
    ensures d.mounts == c.mounts + [Mount(path, hostDir)]
    ensures d.image == c.image && d.env == c.env && d.workdir == c.workdir
  {
    c.(mounts := c.mounts + [Mount(path, hostDir)])
  }

  /** The definition after one WithEnvVariable per entry of `vars`. */
  function WithEnvOf(c: Container, vars: EnvMap): (d: Container)
    ensures d.env.Keys == c.env.Keys + vars.Keys
    ensures forall k :: k in vars ==> d.env[k] == vars[k]
    ensures d.image == c.image && d.mounts == c.mounts && d.workdir == c.workdir
  {
    c.(env := c.env + vars)
  }

  /** The definition after WithWorkdir(path). */
  function WithWorkdirOf(c: Container, path: string): (d: Container)
    ensures d.workdir == path
    ensures d.image == c.image && d.mounts == c.mounts && d.env == c.env
  {
    c.(workdir := path)
  }

  /** Regrouping a trace that grows one call at a time. */
  lemma Regroup(a: seq<Op>, b: seq<Op>, c: seq<Op>)
    ensures a + b + c == a + (b + c)
  {
  }

  class Engine {
    /** Every call made on this connection so far. */
    var trace: seq<Op>
    /** Host().Directory(dir).Entries(). */
    const entries: string -> Result<seq<string>>
    /** WithExec(args).Sync() on a container definition. */
    const run: (Container, seq<string>) -> Outcome
    /** EnvVariables() of a container definition. */
    const readEnv: Container -> Outcome

    /** A fresh connection (dagger.Connect succeeding). */
    constructor (entries: string -> Result<seq<string>>, run: (Container, seq<string>) -> Outcome,
                 readEnv: Container -> Outcome)
      ensures trace == []
      ensures this.entries == entries && this.run == run && this.readEnv == readEnv
    {
      trace := [];
      this.entries := entries;
      this.run := run;
      this.readEnv := readEnv;
    }

    method Entries(dir: string) returns (r: Result<seq<string>>)
      modifies this
      ensures r == entries(dir)
      ensures trace == old(trace) + [ListEntries(dir)]
    {
      r := entries(dir);
      trace := trace + [ListEntries(dir)];
    }

    method From(image: string) returns (c: Container)
      modifies this
      ensures c == FromOf(image)
      ensures trace == old(trace) + [FromImage(image)]
    {
      c := FromOf(image);
      trace := trace + [FromImage(image)];
    }

    method WithDirectory(c: Container, path: string, hostDir: string) returns (d: Container)
      modifies this
      ensures d == WithDirectoryOf(c, path, hostDir)
      ensures trace == old(trace) + [MountDir(path, hostDir)]
    {
      d := WithDirectoryOf(c, path, hostDir);
      trace := trace + [MountDir(path, hostDir)];
    }

    /** SetEnvVarsInContainer on a non-empty map; the per-key calls are
      * recorded as one step, since Go visits a map in no fixed order. */
    method WithEnvVariables(c: Container, vars: EnvMap) returns (d: Container)
      modifies this
      ensures d == WithEnvOf(c, vars)
      ensures trace == old(trace) + [SetEnv(vars)]
    {
      d := WithEnvOf(c, vars);
      trace := trace + [SetEnv(vars)];
    }

    method WithWorkdir(c: Container, path: string) returns (d: Container)
      modifies this
      ensures d == WithWorkdirOf(c, path)
      ensures trace == old(trace) + [SetWorkdir(path)]
    {
      d := WithWorkdirOf(c, path);
      trace := trace + [SetWorkdir(path)];
    }

    method Sync(c: Container, args: seq<string>) returns (o: Outcome)
      modifies this
      ensures o == run(c, args)
      ensures trace == old(trace) + [Exec(c, args)]
    {
      o := run(c, args);
      trace := trace + [Exec(c, args)];
    }

    method EnvVariables(c: Container) returns (o: Outcome)
      modifies this
      ensures o == readEnv(c)
      ensures trace == old(trace) + [ReadEnv(c)]
    {
      o := readEnv(c);
      trace := trace + [ReadEnv(c)];
    }

    /** Close(): ends the connection. */
    method Close()
      modifies this
      ensures trace == old(trace) + [CloseConnection]
    {
      trace := trace + [CloseConnection];
    }
  }
}
