/**
 * internal/core/entities: the records the builders pass around. Go pointers
 * that may be nil are `Option`s; the engine connection is a nullable
 * reference. Contexts, loggers and the terminal-UI helpers are not modelled.
 */
module Entities {
  import opened Errors
  import opened EnvVars
  import opened Commands
  import opened Dagger

  /** The directories GetDirCfg looks up on the host. */
  datatype DirCfg = DirCfg(
    baseDir: string,
    baseDirAbs: string,
    homeDir: string,
    homeDirAbs: string,
    isGitRepo: bool,
    gitDirAbs: string)

  datatype HostConfig = HostConfig(envVars: EnvMap, dirCfg: Option<DirCfg>)

  datatype DaggerConfig = DaggerConfig(dirCfg: Option<DirCfg>, client: Engine?)

  datatype CLIConfigArgs = CLIConfigArgs(dirCfg: Option<DirCfg>)

  datatype CLIConfig = CLIConfig(dirCfg: Option<DirCfg>)

  datatype ClientConfig = ClientConfig(hostEnvVars: EnvMap, classification: string, dirCfg: Option<DirCfg>)

  datatype APIConfig = APIConfig(clientToken: string)

  datatype Client = Client(
    id: string,
    cfgDagger: Option<DaggerConfig>,
    cfgCore: Option<ClientConfig>,
    cfgCLI: Option<CLIConfig>,
    cfgHost: Option<HostConfig>,
    cfgAPI: Option<APIConfig>,
    cfgDir: Option<DirCfg>)

  datatype Task = Task(
    id: string,
    name: string,
    containerImage: string,
    workdir: string,
    mountDir: string,
    baseDir: string,
    baseDirAbs: string,
    envVars: EnvMap,
    commandsCfg: seq<Cmd>)

  datatype Job = Job(
    id: string,
    name: string,
    client: Client,
    tasks: seq<Task>,
    baseDir: string,
    baseDirAbs: string,
    envVars: EnvMap)

  /** The engine's answer to a failed dagger.Connect. */
  const ConnectFailure := NewConfigurationError("Unable to connect to dagger client (no rootDir passed to be mounted", NoCause)
}
