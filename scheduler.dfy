/**
 * internal/core/scheduler/builder.go: collects the client, the jobs and an
 * engine connection for the runner. Connecting is an input: the connection
 * dagger.Connect would make, or null when it fails.
 */
module Scheduler {
  import opened Errors
  import opened Entities
  import opened Dagger

  /** What Build hands to the runner. */
  datatype ScheduledJobs = ScheduledJobs(id: string, client: Option<Client>, jobs: seq<Job>, daggerClient: Engine?)

  const NoClient := NewConfigurationError("No client instance found. " +
    "The scheduler requires a valid 'Client' instance. " +
    "Ensure you're calling the WithClient() API/Function first!", NoCause)

  const EngineFailure := NewConfigurationError("Failed to create a new dagger engine as part of this scheduler", Caused(ConnectFailure))

  class Builder {
    var id: string
    var client: Option<Client>
    var jobs: seq<Job>
    var daggerClient: Engine?
    var error: Option<Error>

    /** NewScheduler: a fresh id, and no client, jobs, connection or error. */
    constructor (id: string)
      ensures this.id == id && client == None && jobs == [] && daggerClient == null && error == None
    {
      this.id := id;
      client := None;
      jobs := [];
      daggerClient := null;
      error := None;
    }

    /** Asks for a connection of its own. The client's context is read
      * first, so a client must be set. A failure is recorded and the
      * connection left as it was. */
    method WithDaggerEngine(connected: Engine?)
      requires client.Some?
      modifies this
      ensures id == old(id) && client == old(client) && jobs == old(jobs)
      ensures connected == null ==> error == Some(EngineFailure) && daggerClient == old(daggerClient)
      ensures connected != null ==> daggerClient == connected && error == old(error)
    {
      if connected == null {
        error := Some(EngineFailure);
        return;
      }
      daggerClient := connected;
    }

    /** Without a client the jobs are refused and an error recorded;
      * otherwise the job list is replaced. */
    method WithJobsToRun(jobs: seq<Job>)
      modifies this
      ensures id == old(id) && client == old(client) && daggerClient == old(daggerClient)
      ensures old(client).None? ==> error == Some(NoClient) && this.jobs == old(this.jobs)
      ensures old(client).Some? ==> this.jobs == jobs && error == old(error)
    {
      if client.None? {
        error := Some(NoClient);
        return;
      }
      this.jobs := jobs;
    }

    method WithClient(c: Client)
      modifies this
      ensures client == Some(c)
      ensures id == old(id) && jobs == old(jobs) && daggerClient == old(daggerClient) && error == old(error)
    {
      client := Some(c);
    }

    /** Fails with the recorded error, if any; otherwise copies the fields. */
    method Build() returns (r: Result<ScheduledJobs>)
      ensures error.Some? ==> r == Err(error.value)
      ensures error.None? ==> r == Ok(ScheduledJobs(id, client, jobs, daggerClient))
    {
      if error.Some? {
        return Err(error.value);
      }
      return Ok(ScheduledJobs(id, client, jobs, daggerClient));
    }
  }

  /** Jobs given before the client are lost: the call only records an
    * error, which a later WithClient does not clear. */
  method JobsBeforeClientAreRefused(id: string, c: Client, jobs: seq<Job>) returns (r: Result<ScheduledJobs>)
    ensures r == Err(NoClient)
  {
    var b := new Builder(id);
    b.WithJobsToRun(jobs);
    b.WithClient(c);
    b.WithJobsToRun(jobs);
    r := b.Build();
  }

  /** In the documented order, the scheduled jobs carry the client, the jobs
    * and the connection. */
  method ScheduleInOrder(id: string, c: Client, jobs: seq<Job>, connected: Engine)
    returns (r: Result<ScheduledJobs>)
    ensures r == Ok(ScheduledJobs(id, Some(c), jobs, connected))
  {
    var b := new Builder(id);
    b.WithClient(c);
    b.WithJobsToRun(jobs);
    b.WithDaggerEngine(connected);
    r := b.Build();
  }
}
