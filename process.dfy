/**
 * The process runner of the build driver (`run_command`), with the outside
 * world abstracted: a spawned command is known only by what it writes and by
 * the return code the driver sees once it has waited for it.
 */
module Process {
  import opened Results

  /** An argument vector, as handed to the operating system. */
  type Command = seq<string>

  /** How a child process behaves: what it writes to standard output and to
      standard error, and its return code after the driver's bounded wait
      (None when it has not terminated by then). */
  datatype ProcessRun = ProcessRun(stdout: string, stderr: string, returncode: Option<int>)

  /** The behaviour of every command the driver may spawn. */
  type System = Command -> ProcessRun

  /** The ways a step fails; each is an exception raised by the driver. */
  datatype StepError =
    | Hanging(cmd: Command)               // no return code after the wait
    | ExitStatus(code: int, cmd: Command) // StepFailed carrying a non-zero return code
    | MissingVariable(name: string)       // StepFailed: a required variable is unset or empty
    | GitStderr(stderr: string)           // StepFailed: a git command wrote to standard error
    | NoReference                         // StepFailed: the reference could not be discovered

  datatype Outcome = Pass | Fail(error: StepError)

  /** What a run of the driver reads and changes: the environment, the paths
      that exist, the contents of the files it writes, and every command it
      has spawned so far, oldest first. */
  datatype World = World(env: map<string, string>, paths: set<string>, files: map<string, string>, issued: seq<Command>)

  /** The outcome of an action together with the world it leaves behind. */
  datatype Effect = Effect(outcome: Outcome, world: World)

  /** Python truthiness of an optional string: present and non-empty. */
  predicate Truthy(s: Option<string>)
  {
    s.Some? && s.value != ""
  }

  /** The text of an optional string, empty when absent. */
  function Text(s: Option<string>): string
  {
    match s
    case Some(t) => t
    case None => ""
  }

  /** The classification `run_command` applies to the return code it sees. */
  function Classify(cmd: Command, returncode: Option<int>): (r: Outcome)
    ensures r.Pass? <==> returncode == Some(0)
    ensures r.Fail? ==> r.error.Hanging? || r.error.ExitStatus?
    ensures r.Fail? ==> r.error.cmd == cmd
    ensures r.Fail? && r.error.Hanging? <==> returncode.None?
    ensures r.Fail? && r.error.ExitStatus? ==> returncode == Some(r.error.code) && r.error.code != 0
  {
    if returncode.None? then Fail(Hanging(cmd))
    else if returncode.value != 0 then Fail(ExitStatus(returncode.value, cmd))
    else Pass
  }

  /** Spawning `cmd`: it joins the trace of issued commands and its return
      code is classified. */
  function RunCommand(sys: System, cmd: Command, w: World): Effect
  {
    Effect(Classify(cmd, sys(cmd).returncode), w.(issued := w.issued + [cmd]))
  }

  /** A hang and a non-zero exit are different failures, and neither is a success. */
  lemma HangIsNotExitFailure(cmd: Command, code: int)
    requires code != 0
    ensures Classify(cmd, None) != Classify(cmd, Some(code))
    ensures Classify(cmd, None).Fail? && Classify(cmd, Some(code)).Fail?
    ensures Classify(cmd, Some(code)) == Fail(ExitStatus(code, cmd))
  {
  }
}
