/**
 * pkg/clients/builder.go: the builder of the pipeline client. The host
 * environment (os.Environ), the directories GetDirCfg looks up, the
 * engine connection dagger.Connect makes (null when it fails) and the
 * identifiers GetUUID draws are parameters; the logger and the context are
 * not modelled.
 */
module Clients {
  import opened Errors
  import opened Normaliser
  import opened EnvVars
  import opened Entities
  import opened Dagger

  const DaggerFailure := NewConfigurationError("Could not create this client with Dagger", Caused(ConnectFailure))

  class Builder {
    var id: string
    var clientCfg: ClientConfig
    var cliCfg: Option<CLIConfig>
    var apiCfg: Option<APIConfig>
    var hostCfg: Option<HostConfig>
    var daggerCfg: Option<DaggerConfig>
    var dirCfg: Option<DirCfg>
    var error: Option<Error>

    /** NewClient: the classification is the client type trimmed and upper
      * cased, the host's variables are read, and every optional
      * configuration starts out present, holding only the directories. */
    constructor (clientType: string, id: string, hostEnv: HostEnv, dirs: DirCfg)
      ensures this.id == id
      ensures ReadFromHost(hostEnv, clientCfg.hostEnvVars)
      ensures clientCfg == ClientConfig(clientCfg.hostEnvVars, NormaliseStringUpper(clientType), Some(dirs))
      ensures cliCfg == Some(CLIConfig(Some(dirs)))
      ensures hostCfg == Some(HostConfig(map[], Some(dirs)))
      ensures apiCfg == Some(APIConfig(""))
      ensures daggerCfg == Some(DaggerConfig(Some(dirs), null))
      ensures dirCfg == Some(dirs) && error == None
    {
      var envVarsFromHost := FetchAllEnvVarsFromHost(hostEnv);
      this.id := id;
      clientCfg := ClientConfig(envVarsFromHost, NormaliseStringUpper(clientType), Some(dirs));
      cliCfg := Some(CLIConfig(Some(dirs)));
      hostCfg := Some(HostConfig(map[], Some(dirs)));
      apiCfg := Some(APIConfig(""));
      daggerCfg := Some(DaggerConfig(Some(dirs), null));
      dirCfg := Some(dirs);
      error := None;
    }

    /** Replaces the CLI configuration; an argument without directories
      * takes the builder's. */
    method WithCLI(opt: CLIConfigArgs)
      modifies this
      ensures cliCfg == Some(CLIConfig(if opt.dirCfg.None? then old(dirCfg) else opt.dirCfg))
      ensures id == old(id) && clientCfg == old(clientCfg) && apiCfg == old(apiCfg) && hostCfg == old(hostCfg)
      ensures daggerCfg == old(daggerCfg) && dirCfg == old(dirCfg) && error == old(error)
    {
      var dirs := opt.dirCfg;
      if dirs.None? {
        dirs := dirCfg;
      }
      cliCfg := Some(CLIConfig(dirs));
    }

    /** Does nothing when a host configuration is present. Otherwise the
      * host's variables are read into the client configuration when it has
      * none, missing directories are looked up, and a host configuration
      * is made. Its variables stay empty: the map read at the fetch is a
      * second variable shadowing the one the configuration is built from.
      * Reading the host never fails, so no error is recorded. */
    method WithHost(hostEnv: HostEnv, lookedUp: DirCfg)
      modifies this
      ensures old(hostCfg).Some? ==>
        hostCfg == old(hostCfg) && clientCfg == old(clientCfg) && dirCfg == old(dirCfg)
      ensures old(hostCfg).None? ==>
        && (old(clientCfg).hostEnvVars != map[] ==> clientCfg == old(clientCfg))
        && (old(clientCfg).hostEnvVars == map[] ==>
              ReadFromHost(hostEnv, clientCfg.hostEnvVars) && clientCfg == old(clientCfg).(hostEnvVars := clientCfg.hostEnvVars))
        && dirCfg == (if old(dirCfg).None? then Some(lookedUp) else old(dirCfg))
        && hostCfg == Some(HostConfig(map[], dirCfg))
      ensures id == old(id) && cliCfg == old(cliCfg) && apiCfg == old(apiCfg) && daggerCfg == old(daggerCfg)
      ensures error == old(error)
    {
      if hostCfg.Some? {
        return;
      }
      var envVarsFromHost: EnvMap := map[];
      if MapIsNulOrEmpty(clientCfg.hostEnvVars) {
        var fetched := FetchAllEnvVarsFromHost(hostEnv);
        clientCfg := clientCfg.(hostEnvVars := fetched);
      }
      if dirCfg.None? {
        dirCfg := Some(lookedUp);
      }
      hostCfg := Some(HostConfig(envVarsFromHost, dirCfg));
    }

    /** Does nothing when an engine configuration is present. Otherwise a
      * failed connection is recorded as a configuration error wrapping the
      * adapter's, and a made one becomes the engine configuration. */
    method WithDagger(connected: Engine?)
      modifies this
      ensures old(daggerCfg).Some? ==> daggerCfg == old(daggerCfg) && error == old(error)
      ensures old(daggerCfg).None? && connected == null ==> daggerCfg == None && error == Some(DaggerFailure)
      ensures old(daggerCfg).None? && connected != null ==>
        daggerCfg == Some(DaggerConfig(dirCfg, connected)) && error == old(error)
      ensures id == old(id) && clientCfg == old(clientCfg) && cliCfg == old(cliCfg) && apiCfg == old(apiCfg)
      ensures hostCfg == old(hostCfg) && dirCfg == old(dirCfg)
    {
      if daggerCfg.Some? {
        return;
      }
      if connected == null {
        error := Some(DaggerFailure);
        return;
      }
      daggerCfg := Some(DaggerConfig(dirCfg, connected));
    }

    /** Fails with the recorded error, if any; otherwise the client carries
      * a fresh identifier and each configuration. */
    method Build(uuid: string) returns (r: Result<Client>)
      ensures error.Some? ==> r == Err(error.value)
      ensures error.None? ==> r == Ok(Client(uuid, daggerCfg, Some(clientCfg), cliCfg, hostCfg, apiCfg, dirCfg))
    {
      if error.Some? {
        return Err(error.value);
      }
      return Ok(Client(uuid, daggerCfg, Some(clientCfg), cliCfg, hostCfg, apiCfg, dirCfg));
    }
  }

  /** The client NewClient's defaults describe: the directories everywhere,
    * the host's variables in the core configuration only, and no engine
    * connection. */
  function DefaultClient(uuid: string, clientType: string, hostVars: EnvMap, dirs: DirCfg): Client {
    Client(uuid, Some(DaggerConfig(Some(dirs), null)),
      Some(ClientConfig(hostVars, NormaliseStringUpper(clientType), Some(dirs))),
      Some(CLIConfig(Some(dirs))), Some(HostConfig(map[], Some(dirs))), Some(APIConfig("")), Some(dirs))
  }

  /** The command line's chain NewClient(CLI).WithCLI({}).WithHost().Build()
    * cannot fail, and WithHost changes nothing: the defaults are the
    * client. */
  method CliClient(id: string, uuid: string, hostEnv: HostEnv, dirs: DirCfg, lookedUp: DirCfg, laterEnv: HostEnv)
    returns (r: Result<Client>)
    ensures r.Ok? && r.value.cfgCore.Some? && ReadFromHost(hostEnv, r.value.cfgCore.value.hostEnvVars)
    ensures r.value == DefaultClient(uuid, "CLI", r.value.cfgCore.value.hostEnvVars, dirs)
    ensures r.value.cfgCore.value.classification == "CLI"
  {
    var b := new Builder("CLI", id, hostEnv, dirs);
    b.WithCLI(CLIConfigArgs(None));
    b.WithHost(laterEnv, lookedUp);
    r := b.Build(uuid);
    NormaliseCliType();
  }

  /** After NewClient, WithDagger never connects: whatever dagger.Connect
    * would give, the client has no engine connection and no error. */
  method DaggerAfterNewClient(clientType: string, id: string, uuid: string, hostEnv: HostEnv, dirs: DirCfg, connected: Engine?)
    returns (r: Result<Client>)
    ensures r.Ok? && r.value.cfgCore.Some? && ReadFromHost(hostEnv, r.value.cfgCore.value.hostEnvVars)
    ensures r.value == DefaultClient(uuid, clientType, r.value.cfgCore.value.hostEnvVars, dirs)
    ensures r.value.cfgDagger.value.client == null
  {
    var b := new Builder(clientType, id, hostEnv, dirs);
    b.WithDagger(connected);
    r := b.Build(uuid);
  }

  lemma NormaliseCliType()
    ensures NormaliseStringUpper("CLI") == "CLI"
  {
    NormaliseStringUpperKeepsNormal("CLI");
  }
}
