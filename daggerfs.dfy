/**
 * internal/core/daggerio/fs.go: checks on host directories made before they
 * are handed to the engine. The existence check looks at the host file
 * system; the entry listing asks the engine.
 */
module DaggerFs {
  import opened Errors
  import opened Paths
  import opened FileSystem
  import opened Dagger

  /** A zap logger: the one handed in, or the no-op logger. */
  datatype Logger = Given(name: string) | Nop

  /** The host-side helper Build yields: a connection and a logger. */
  datatype Fs = Fs(daggerClient: Engine, logger: Logger)

  const NoEntriesDir := "Cannot validate entries. No directory was passed to the DaggerIOHost instance"
  const InvalidEntryText := "Failed to validate dagger entry for dir "
  const ListingFailedText := "Could not get entries of directory "
  const NoEntriesText := "No entries found in directory "
  const NoDaggerDir := "Cannot get Dagger directory. No directory was passed to the DaggerIOHost instance"
  const NoPrintDir := "Cannot print entries. No directory was passed to the DaggerIOHost instance"
  const PrintListingFailedText := "Could not get entries of directory. The 'dir.Entries' function in Dagger returned an error: "
  const PrintNoEntries := "No entries found in directory. The entries counted 0 (empty)."
  const MissingClient := NewConfigurationError("No dagger client was passed to the DaggerIO Fs builder", NoCause)

  class FsBuilder {
    var logger: Option<Logger>
    var daggerClient: Engine?

    /** NewDaggerFsBuilder: no logger and no connection yet. */
    constructor ()
      ensures logger == None && daggerClient == null
    {
      logger := None;
      daggerClient := null;
    }

    method WithLogger(logger: Option<Logger>)
      modifies this
      ensures this.logger == logger && daggerClient == old(daggerClient)
    {
      this.logger := logger;
    }

    method WithDaggerClient(c: Engine?)
      modifies this
      ensures daggerClient == c && logger == old(logger)
    {
      daggerClient := c;
    }

    /** Only logs: the "." it substitutes for an empty directory is a local
      * and the validity check's verdict is dropped, so nothing changes. */
    method WithDir(host: HostFs, dir: string)
      ensures unchanged(this)
    {
      if dir == "" {
        var local := ".";
        return;
      }
      var verdict := IsValidDir(host, dir);
    }

    /** Fails without a connection; otherwise fills in the no-op logger
      * when none was given and yields the helper. */
    method Build() returns (r: Result<Fs>)
      modifies this
      ensures daggerClient == old(daggerClient)
      ensures old(daggerClient) == null ==> r == Err(MissingClient) && logger == old(logger)
      ensures old(daggerClient) != null ==>
        logger == Some(if old(logger).None? then Nop else old(logger).value)
        && r == Ok(Fs(daggerClient, logger.value))
    {
      if daggerClient == null {
        return Err(MissingClient);
      }
      if logger.None? {
        logger := Some(Nop);
      }
      return Ok(Fs(daggerClient, logger.value));
    }
  }

  /** Whether ValidateEntries gets as far as asking the engine. */
  predicate Lists(host: HostFs, dir: string) {
    dir != "" && IsValidDir(host, dir).Pass?
  }

  /** The engine calls ValidateEntries makes. */
  function ListingOps(host: HostFs, dir: string): (ops: seq<Op>)
    ensures Lists(host, dir) ==> ops == [ListEntries(dir)]
    ensures !Lists(host, dir) ==> ops == []
  {
    if Lists(host, dir) then [ListEntries(dir)] else []
  }

  /** The verdict of ValidateEntries, the engine answering with `entries`.
    * A relative path is made absolute into a shadowing variable, so the
    * engine is asked about the path as given. */
  function EntriesCheck(host: HostFs, entries: string -> Result<seq<string>>, dir: string): Outcome {
    if dir == "" then
      Fail(NewArgumentError(NoEntriesDir, NoCause))
    else match IsValidDir(host, dir)
      case Fail(e) =>
        Fail(NewConfigurationError(InvalidEntryText + dir + ", error: " + Message(e), Caused(e)))
      case Pass =>
        match entries(dir)
          case Err(e) => Fail(NewConfigurationError(ListingFailedText + dir, Caused(e)))
          case Ok(found) =>
            if |found| == 0 then Fail(NewConfigurationError(NoEntriesText + dir, NoCause))
            else Pass
  }

  /** The check passes exactly for a host directory the engine lists as
    * non-empty; an empty path is an argument error, every other failure a
    * configuration error, wrapping the existence check's error when the
    * path is not a directory. */
  lemma EntriesCheckMeaning(host: HostFs, entries: string -> Result<seq<string>>, dir: string)
    ensures var r := EntriesCheck(host, entries, dir);
      && (r.Pass? <==> dir != "" && IsDirAt(host, dir) && entries(dir).Ok? && |entries(dir).value| > 0)
      && (dir == "" ==> r.error.Typed? && r.error.kind == Argument && r.error.cause == NoCause)
      && (dir != "" && r.Fail? ==> r.error.Typed? && r.error.kind == Configuration)
      && (dir != "" && !IsDirAt(host, dir) ==> r.Fail? && r.error.cause == Caused(IsValidDir(host, dir).error))
  {
  }

  /** Fs.ValidateEntries: an empty path, then a path that is not a host
    * directory, then a failed or empty listing, each fail. */
  method ValidateEntries(h: Fs, host: HostFs, dir: string) returns (o: Outcome)
    modifies h.daggerClient
    ensures o == EntriesCheck(host, h.daggerClient.entries, dir)
    ensures h.daggerClient.trace == old(h.daggerClient.trace) + ListingOps(host, dir)
  {
    if dir == "" {
      return Fail(NewArgumentError(NoEntriesDir, NoCause));
    }
    var valid := IsValidDir(host, dir);
    if valid.Fail? {
      return Fail(NewConfigurationError(InvalidEntryText + dir + ", error: " + Message(valid.error), Caused(valid.error)));
    }
    if !IsAbs(dir) {
      var absolute := PathToAbsolute(host, dir);
      var cleaned := Clean(absolute.value);
    }
    var found := h.daggerClient.Entries(dir);
    if found.Err? {
      return Fail(NewConfigurationError(ListingFailedText + dir, Caused(found.error)));
    }
    if |found.value| == 0 {
      return Fail(NewConfigurationError(NoEntriesText + dir, NoCause));
    }
    return Pass;
  }

  /** Fs.GetDaggerDir: the engine's handle on a host directory, named by
    * its path; only the empty path is refused. */
  function GetDaggerDir(dir: string): (r: Result<string>)
    ensures r.Ok? <==> dir != ""
    ensures r.Ok? ==> r.value == dir
    ensures r.Err? ==> r.error.Typed? && r.error.kind == Argument && r.error.cause == NoCause
  {
    if dir == "" then
      Err(NewArgumentError(NoDaggerDir, NoCause))
    else Ok(dir)
  }

  /** Fs.GetMntDir: the fixed, absolute mount point inside containers. */
  function GetMntDir(): (m: string)
    ensures m == "/mnt" && IsAbs(m)
  {
    "/mnt"
  }

  /** The verdict of PrintEntries on a directory handle. */
  function PrintCheck(entries: string -> Result<seq<string>>, dir: Option<string>): (r: Outcome)
    ensures r.Pass? <==> dir.Some? && entries(dir.value).Ok? && |entries(dir.value).value| > 0
    ensures dir.None? ==> r.error.Typed? && r.error.kind == Argument
  {
    match dir
      case None =>
        Fail(NewArgumentError(NoPrintDir, NoCause))
      case Some(d) =>
        match entries(d)
          case Err(e) =>
            Fail(NewConfigurationError(PrintListingFailedText + Message(e), Caused(e)))
          case Ok(found) =>
            if |found| == 0 then Fail(NewConfigurationError(PrintNoEntries, NoCause))
            else Pass
  }

  /** Fs.PrintEntries: lists a handle's entries; a missing handle is refused
    * without asking the engine. */
  method PrintEntries(h: Fs, dir: Option<string>) returns (o: Outcome)
    modifies h.daggerClient
    ensures o == PrintCheck(h.daggerClient.entries, dir)
    ensures h.daggerClient.trace == old(h.daggerClient.trace) + (if dir.Some? then [ListEntries(dir.value)] else [])
  {
    if dir.None? {
      return Fail(NewArgumentError(NoPrintDir, NoCause));
    }
    var found := h.daggerClient.Entries(dir.value);
    if found.Err? {
      return Fail(NewConfigurationError(PrintListingFailedText + Message(found.error), Caused(found.error)));
    }
    if |found.value| == 0 {
      return Fail(NewConfigurationError(PrintNoEntries, NoCause));
    }
    return Pass;
  }
}
