/**
 * The error taxonomy of internal/errors: seven typed errors, each holding
 * a free-form detail text and an optional wrapped error, plus the plain
 * errors built by fmt.Errorf/errors.New and the runtime panics that a few
 * code paths reach.
 */
module Errors {

  /** The seven typed errors of internal/errors. */
  datatype Kind =
    | Argument
    | Manifest
    | Configuration
    | TaskConfiguration
    | TaskExecution
    | RunnerConfiguration
    | RunnerExecution

  /** An error value. `Panic` stands for a Go runtime panic: it unwinds
    * through every caller, so wrapping never changes it, and since nothing
    * recovers from it the program ends there; a builder that records one
    * keeps it as its error (JobBuilder.Record). */
  datatype Error =
    | Typed(kind: Kind, details: string, cause: Cause)
    | Plain(text: string)
    | Panic(reason: string)

  /** The wrapped error of a typed error (Go's `Err error` field, nil or not). */
  datatype Cause = NoCause | Caused(inner: Error)

  /** The outcome of an operation that returns only an `error`. */
  datatype Outcome = Pass | Fail(error: Error)

  /** The `(value, error)` pair of a Go function, with exactly one side set. */
  datatype Result<T> = Ok(value: T) | Err(error: Error)

  datatype Option<T> = None | Some(value: T)

  const ArgumentPrefix := "Argument or input error: "
  const ManifestPrefix := "Manifest error: "
  const ConfigurationPrefix := "PipelineCfg configuration error"
  const TaskConfigPrefix := "Task configuration error: "
  const TaskExecPrefix := "Task execution error: "
  const RunnerConfigPrefix := "Runner configuration error: "
  const RunnerExecPrefix := "Runner execution error: "

  /** Text the configuration-error constructor puts before the caller's details. */
  const PipelineStartText := "Unable to start pipeline instance "

  /** The runtime panic of dereferencing a nil pointer. */
  const NilDereferenceText := "invalid memory address or nil pointer dereference"
  const NilDereference := Panic(NilDereferenceText)

  predicate StartsWith(s: string, prefix: string) {
    |prefix| <= |s| && s[..|prefix|] == prefix
  }

  function NewArgumentError(details: string, cause: Cause): (e: Error)
    ensures e.Typed? && e.kind == Argument
    ensures e.details == details && e.cause == cause
  {
    Typed(Argument, details, cause)
  }

  function NewManifestError(details: string, cause: Cause): (e: Error)
    ensures e.Typed? && e.kind == Manifest
    ensures e.details == details && e.cause == cause
  {
    Typed(Manifest, details, cause)
  }

  /** The only constructor that rewrites its details: it prepends a fixed text. */
  function NewConfigurationError(details: string, cause: Cause): (e: Error)
    ensures e.Typed? && e.kind == Configuration && e.cause == cause
    ensures StartsWith(e.details, PipelineStartText)
    ensures e.details[|PipelineStartText|..] == details
  {
    Typed(Configuration, PipelineStartText + details, cause)
  }

  function NewTaskConfigurationError(details: string, cause: Cause): (e: Error)
    ensures e.Typed? && e.kind == TaskConfiguration
    ensures e.details == details && e.cause == cause
  {
    Typed(TaskConfiguration, details, cause)
  }

  function NewTaskExecutionError(details: string, cause: Cause): (e: Error)
    ensures e.Typed? && e.kind == TaskExecution
    ensures e.details == details && e.cause == cause
  {
    Typed(TaskExecution, details, cause)
  }

  function NewRunnerConfigurationError(details: string, cause: Cause): (e: Error)
    ensures e.Typed? && e.kind == RunnerConfiguration
    ensures e.details == details && e.cause == cause
  {
    Typed(RunnerConfiguration, details, cause)
  }

  function NewRunnerExecutionError(details: string, cause: Cause): (e: Error)
    ensures e.Typed? && e.kind == RunnerExecution
    ensures e.details == details && e.cause == cause
  {
    Typed(RunnerExecution, details, cause)
  }

  /** Wraps `e` as the cause of a new typed error; a panic is not an error
    * value and passes through untouched. */
  function Wrap(kind: Kind, details: string, e: Error): (w: Error)
    ensures e.Panic? ==> w == e
    ensures !e.Panic? ==> w.Typed? && w.kind == kind && w.cause == Caused(e)
  {
    if e.Panic? then e
    else match kind
      case Configuration => NewConfigurationError(details, Caused(e))
      case _ => Typed(kind, details, Caused(e))
  }

  /** The heading an error's message starts with. Configuration and task or
    * runner configuration errors without a wrapped error do not use their
    * own prefix: the latter two print the execution prefix instead. */
  function Heading(kind: Kind, hasCause: bool): string {
    match kind
      case Argument => ArgumentPrefix + ": "
      case Manifest => ManifestPrefix + ": "
      case Configuration => ConfigurationPrefix + ": "
      case TaskConfiguration => (if hasCause then TaskConfigPrefix else TaskExecPrefix) + ": "
      case TaskExecution => TaskExecPrefix + ": "
      case RunnerConfiguration => (if hasCause then RunnerConfigPrefix else RunnerExecPrefix) + ": "
      case RunnerExecution => RunnerExecPrefix + ": "
  }

  /** The text `Error()` returns. Typed messages are heading, details,
    * then ": " and the wrapped message when there is one. */
  function Message(e: Error): (m: string) {
    match e
      case Typed(kind, details, cause) =>
        var head := Heading(kind, cause.Caused?) + details;
        if cause.Caused? then head + ": " + Message(cause.inner) else head
      case Plain(text) => text
      case Panic(reason) => "panic: " + reason
  }

  /** A typed message starts with its heading and details; a plain one is
    * its text. */
  lemma MessageShape(e: Error)
    ensures e.Typed? ==> StartsWith(Message(e), Heading(e.kind, e.cause.Caused?) + e.details)
    ensures e.Typed? && e.cause.Caused? ==>
      Message(e) == Heading(e.kind, true) + e.details + ": " + Message(e.cause.inner)
    ensures e.Typed? && e.cause.NoCause? ==> Message(e) == Heading(e.kind, false) + e.details
    ensures e.Plain? ==> Message(e) == e.text
  {
    if e.Typed? {
      var head := Heading(e.kind, e.cause.Caused?) + e.details;
      assert Message(e)[..|head|] == head;
    }
  }

  /** A task configuration error without a wrapped error prints exactly what
    * a task execution error with the same details prints; the runner pair
    * behaves the same way. With a wrapped error the two texts differ. */
  lemma ConfigurationWithoutCauseReadsAsExecution(details: string, inner: Error)
    ensures Message(NewTaskConfigurationError(details, NoCause))
         == Message(NewTaskExecutionError(details, NoCause))
    ensures Message(NewRunnerConfigurationError(details, NoCause))
         == Message(NewRunnerExecutionError(details, NoCause))
    ensures Message(NewTaskConfigurationError(details, Caused(inner)))
         != Message(NewTaskExecutionError(details, Caused(inner)))
    ensures Message(NewRunnerConfigurationError(details, Caused(inner)))
         != Message(NewRunnerExecutionError(details, Caused(inner)))
  {
    var tc := Message(NewTaskConfigurationError(details, Caused(inner)));
    var te := Message(NewTaskExecutionError(details, Caused(inner)));
    assert tc[5] == 'c' && te[5] == 'e';
    var rc := Message(NewRunnerConfigurationError(details, Caused(inner)));
    var re := Message(NewRunnerExecutionError(details, Caused(inner)));
    assert rc[7] == 'c' && re[7] == 'e';
  }
}
