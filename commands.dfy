/**
 * internal/core/commands/builder.go: the builder of one container command.
 * The command line is split into words by a shell-style tokenizer
 * (shlex.Split), which is a parameter here; the binary, when set, is put in
 * front of the words.
 */
module Commands {
  import opened Errors

  /** shlex.Split: the words of a command line, or a parse error. */
  type Tokenizer = string -> Result<seq<string>>

  /** A built command: the binary and the full argument vector. The Go
    * struct's third field, an error, is never set by the builder. */
  datatype Cmd = Cmd(binary: string, commands: seq<string>)

  /** The error utils.GetCommandArgs makes of a tokenizer failure. */
  function ArgsError(e: Error): Error {
    NewArgumentError("Could not parse the jobcmd: " + Message(e), NoCause)
  }

  /** The plain error WithCommands records: it formats the argument error's
    * message, so the wrapped error itself is lost. */
  function ParseFailure(e: Error): (f: Error)
    ensures f.Plain?
  {
    Plain("could not parse the jobcmd: " + Message(ArgsError(e)))
  }

  /** The error Build reports for a recorded error. */
  function BuildFailure(recorded: Error): (f: Error)
    ensures f.Typed? && f.kind == Configuration && f.cause == Caused(recorded)
  {
    NewConfigurationError("Could not create a valid 'jobcmd' instance", Caused(recorded))
  }

  /** The argument vector: the words alone when there is no binary, the
    * binary followed by the words otherwise. */
  function Argv(binary: string, words: seq<string>): (argv: seq<string>)
    ensures binary == "" ==> argv == words
    ensures binary != "" ==> |argv| == |words| + 1 && argv[0] == binary && argv[1..] == words
  {
    if binary == "" then words else [binary] + words
  }

  /** What a builder without a recorded error yields for `binary` and the
    * command line `args`: a tokenizer failure fails the build. */
  function MakeCmd(split: Tokenizer, binary: string, args: string): (r: Result<Cmd>)
    ensures r.Ok? <==> split(args).Ok?
    ensures r.Ok? ==> r.value.binary == binary && r.value.commands == Argv(binary, split(args).value)
    ensures r.Err? ==> r.error == BuildFailure(ParseFailure(split(args).error))
  {
    match split(args)
      case Err(e) => Err(BuildFailure(ParseFailure(e)))
      case Ok(words) => Ok(Cmd(binary, Argv(binary, words)))
  }

  class CMDBuilder {
    var binary: string
    var commandArgs: string
    var commands: seq<string>
    var error: Option<Error>

    /** NewCMD: every field at its zero value. */
    constructor ()
      ensures binary == "" && commandArgs == "" && commands == [] && error == None
    {
      binary := "";
      commandArgs := "";
      commands := [];
      error := None;
    }

    /** Sets the binary and nothing else: commands already stored keep the
      * binary they were built with. */
    method WithBinary(binary: string)
      modifies this
      ensures this.binary == binary
      ensures commandArgs == old(commandArgs) && commands == old(commands) && error == old(error)
    {
      this.binary := binary;
    }

    /** Tokenizes `commandArgs`. On failure an error is recorded and the
      * commands stay as they were; on success the commands become the words,
      * behind the binary set at this moment when there is one. A recorded
      * error is never cleared, and the line itself is not stored. */
    method WithCommands(split: Tokenizer, commandArgs: string)
      modifies this
      ensures binary == old(binary) && this.commandArgs == old(this.commandArgs)
      ensures split(commandArgs).Err? ==>
        error == Some(ParseFailure(split(commandArgs).error)) && commands == old(commands)
      ensures split(commandArgs).Ok? ==> error == old(error)
      ensures split(commandArgs).Ok? && old(binary) == "" ==> commands == split(commandArgs).value
      ensures split(commandArgs).Ok? && old(binary) != "" ==>
        commands == [old(binary)] + split(commandArgs).value
    {
      var words := split(commandArgs);
      if words.Err? {
        error := Some(ParseFailure(words.error));
        return;
      }
      if binary == "" {
        commands := words.value;
        return;
      }
      commands := [binary] + words.value;
    }

    /** Fails exactly when an error was recorded; otherwise yields the
      * current binary and commands. */
    method Build() returns (r: Result<Cmd>)
      ensures r.Err? <==> error.Some?
      ensures error.Some? ==> r.error == BuildFailure(error.value)
      ensures error.None? ==> r.value == Cmd(binary, commands)
    {
      if error.Some? {
        return Err(BuildFailure(error.value));
      }
      return Ok(Cmd(binary, commands));
    }
  }

  /** NewCMD().WithBinary(binary).WithCommands(args).Build() is MakeCmd. */
  method BuildCmd(split: Tokenizer, binary: string, args: string) returns (r: Result<Cmd>)
    ensures r == MakeCmd(split, binary, args)
  {
    var b := new CMDBuilder();
    b.WithBinary(binary);
    b.WithCommands(split, args);
    r := b.Build();
  }

  /** A WithBinary after WithCommands changes the reported binary but not
    * the argument vector, which keeps the earlier binary. */
  method LateBinaryKeepsCommands(split: Tokenizer, first: string, second: string, args: string)
    returns (r: Result<Cmd>)
    requires split(args).Ok?
    ensures r == Ok(Cmd(second, Argv(first, split(args).value)))
  {
    var b := new CMDBuilder();
    b.WithBinary(first);
    b.WithCommands(split, args);
    b.WithBinary(second);
    r := b.Build();
  }

  /** A tokenizer failure is never cleared: a later successful WithCommands
    * still leaves Build failing with the first recorded error. */
  method FailureIsSticky(split: Tokenizer, bad: string, good: string) returns (r: Result<Cmd>)
    requires split(bad).Err? && split(good).Ok?
    ensures r == Err(BuildFailure(ParseFailure(split(bad).error)))
  {
    var b := new CMDBuilder();
    b.WithCommands(split, bad);
    b.WithCommands(split, good);
    r := b.Build();
  }
}
