# Build driver model

A Dafny model of `build.py`, a small build-pipeline driver. It visits three steps in a fixed order:
`make`, `build-image` and `push-image`. Each step runs only when its predicate holds, and the first
failing step aborts the run. The image steps read `DOCKER_IMAGE` and `GO_PIPELINE_COUNTER` from the
environment. They derive a build identity (prefix `master` with an extra `latest` tag, or prefix
`pr`) from a comparison against `origin/master`, and then issue `docker build` or `docker push`.
The build step records `prefix-counter` in `artifacts/build-id.txt`.

The outside world is a value:

- `World` holds the environment (a `map<string, string>`), the existing paths (a `set<string>`), the
  contents of written files (a `map<string, string>`) and the trace of every command spawned.
- `System` (`Command -> ProcessRun`) gives each command's behaviour: what it writes to standard
  output and standard error, and its return code after the wait. `None` means it had not
  terminated by then.

Modules, following the driver's components:

- `Process` models `run_command`: the three-way classification of a return code, plus spawning,
  which appends the command to the trace.
- `Refs` models `is_master` as written. Both git commands are spawned with only standard output
  piped, so the standard-error checks never fire. The result compares the two literal argument
  vectors, so it is always `false`.
- `Config` models the two environment checks, image first, then counter.
- `Images` models the identity choice, the exact `docker build` and `docker push` argument vectors
  and the two image steps. `BuildImage` and `PushImage` are the specification functions.
  `DoBuildImage` is the imperative version: it grows the argument vector by reassignment and
  writes the build-id file.
- `Steps` models the predicates (`Needed`), `do_make` (`DoMake`), the step `Table`, the run
  specification `Run` and the loop `RunSteps`. `Run` is generic in the action semantics
  (`Performer`); the driver's own is `Actions(sys)`.

Two behaviours of the code are modelled as written, although the code itself suggests they are not what its authors meant: `is_master` computes the two git outputs and then discards them, and `needs_build_image` is defined but never used by the table.

- `is_master` can never answer true. So every build is tagged `pr-<counter>` without `latest`
  (`IsMasterAlwaysFalse`, `BuildImageAsWritten`, `PushImageAsWritten`). The `master` branch of the
  identity choice is still modelled and proved (`ChooseIdentity`, `BuildCommandTags`,
  `MasterIdentityCommands`).
- The `build-image` step is gated on the makefile predicate, not on the Dockerfile one. With only
  a Dockerfile, the image is pushed but never built (`TableGating`, `OnlyDockerfile`).

How the code reports failures, followed here:

- A hang raises a plain exception; every other failure raises `StepFailed`.
- A missing variable is reported through `StepFailed` with the variable's name.

## Model

| member | source | states |
|---|---|---|
| `Process.Classify` | build.py:25-28 | success exactly for return code 0; a missing code is a hang naming the command; a non-zero code fails carrying that code; no other failure kind |
| `Process.HangIsNotExitFailure` | build.py:25-28 | a hang and a non-zero exit are distinct failures of the same command |
| `Refs.Communicate` | build.py:41-42 | only piped streams are captured; with stdout piped, the captured stdout is the child's output |
| `Refs.IsMaster` | build.py:36-53 | only the command trace changes, and it grows by the git command(s) spawned, in order |
| `Refs.IsMasterAlwaysFalse` | build.py:37-53 | for any git behaviour, both commands are spawned, no error is raised and the answer is false |
| `Config.ReadSettings` | build.py:68-73 | succeeds iff both variables are set and non-empty, with their values; otherwise fails naming `DOCKER_IMAGE` first, then `GO_PIPELINE_COUNTER` |
| `Images.ChooseIdentity` | build.py:98-103 | prefix `master` with the latest flag exactly on the master tip, prefix `pr` without it otherwise; the counter is kept |
| `Images.ImageTags` | build.py:105-107 | the image gets `image:prefix-counter` first and `image:latest` second, only when the latest flag is set |
| `Images.BuildCommand` | build.py:105-108 | `docker build -t image:prefix-counter`, then `-t image:latest` only with the latest flag, then `-f docker/Dockerfile .` |
| `Images.Build` | build.py:105-113 | issues exactly the build command; passes iff it exits 0; the build-id file gets `prefix-counter` only on success; on failure files and paths are unchanged |
| `Images.Push` | build.py:82-87 | issues a non-empty prefix of the push commands, counter tag first; every push before the last one issued exited 0, so a failed push stops the step; the outcome is that of the last one issued; passes iff every push exits 0, having issued them all |
| `Images.DoBuildImage` | build.py:90-113 | the step-by-step construction of the command and the write agree with `BuildImage` for every world and command behaviour |
| `Images.SettingsCheckedFirst` | build.py:91-96 | with a variable missing, both image steps fail with that variable's error and spawn and change nothing |
| `Images.BuildCommandTags` | build.py:105-108 | the `-t` values of the build command are exactly the image's tags, in order |
| `Images.PushCommandsTags` | build.py:82-87 | the pushes publish exactly the image's tags, the same tags the build command named, in order |
| `Images.BuildImageAsWritten` | build.py:90-113 | with valid settings: git, git, then `docker build -t image:pr-counter -f docker/Dockerfile .`; passes iff that exits 0, writing `pr-counter` then and only then |
| `Images.PushImageAsWritten` | build.py:64-87 | with valid settings: git, git, then one push of `image:pr-counter` and nothing else; its outcome is that push's classification |
| `Steps.MakeRunsMakeAll` | build.py:116-118 | the make step spawns exactly `make all`, its outcome is that command's classification, and only the trace changes |
| `Steps.Act` | build.py:132 | invoking a step's action has the effect `Perform` specifies |
| `Steps.RunSteps` | build.py:128-134 | the loop over the table produces the outcome, world and visits `Run` specifies |
| `Steps.PerformKeepsInputs` | build.py:64-118 | in the model, no action changes the environment or whether `makefile` or `docker/Dockerfile` exists, and each only extends the command trace; spawned commands have no filesystem effect here, and build-image adds only `artifacts` and its build-id file |
| `Steps.RunVisitsInOrder` | build.py:129 | the visited steps are a prefix of the table, in its order, each at most once |
| `Steps.RunPassedBeforeLast` | build.py:130-132 | every visited step before the last was skipped or passed, and all were when the run passes |
| `Steps.RunEndsAtFailure` | build.py:128-134 | a passing run visits every step; a failing run ends at the step whose action failed, with its error |
| `Steps.RunStopsAtFirstFailure` | build.py:128-134 | steps visited in table order, at most once each; all but the last visited were skipped or passed; a passing run visits all; a failing run ends at the failing step with its error |
| `Steps.RunGatedByStartingPaths` | build.py:129-132 | a step's action runs exactly when its predicate holds, given actions that keep the predicates' inputs |
| `Steps.TableGating` | build.py:121-125 | make and build-image run iff `makefile` is among the starting paths, push-image iff `docker/Dockerfile` is, in that order (the model's commands do not create or delete files) |
| `Steps.NothingToDo` | build.py:121-134 | with neither file, all three steps are skipped, the run passes and nothing is spawned or written |
| `Steps.OnlyDockerfile` | build.py:121-125 | with only the Dockerfile, make and build-image are skipped and the run is the push step alone |
| `Steps.PipelineRun` | build.py:121-134 | image `registry/app`, counter 42, both files, all exits 0: the exact seven-command trace, `pr-42` recorded, every step passes |
| `Steps.MasterIdentityCommands` | build.py:98-108 | on the master identity the build names `master-42` and `latest` and both are pushed, in that order |

The specification functions without contracts of their own are covered by the rows above:
`Process.RunCommand` (build.py:19-28), `Steps.Needed` (build.py:31-33, 56-61), `Steps.DoMake`
(build.py:116-118), `Images.BuildImage` and `Images.PushImage` (build.py:64-113) and `Steps.Run`
(build.py:128-134).

## Left out

- Spawning with `Popen` and streaming the child's output with the `[make] ` echo (build.py:20-22): a command is known only by its behaviour in `System`. So the model never produces the `UnicodeDecodeError` that `line.decode()` (build.py:22) raises on output that is not valid UTF-8, a failure that happens before the return code is classified, even for a command that exits 0.
- The timing of `proc.poll()` and `proc.wait(10)` (build.py:23-24): in Python, `wait(10)` raises `TimeoutExpired` rather than leaving the return code unset. The model classifies a given optional return code only.
- Error message texts (`" ".join(cmd)` and the like): errors carry the command vector, the code or the variable name instead.
- Exceptions raised by `Popen` itself, such as a missing executable; captured output is modelled as text rather than bytes.
- Logging (build.py:131, build.py:134): line 131 lacks the f-string prefix and logs the literal text `{step_name}`. The visits of a run record the same skipped/running decision.
- The filesystem side of `mkdir` and `write_text` (build.py:111-113): modelled as adding `artifacts` and `artifacts/build-id.txt` to the paths and updating the file map. Failures of either call, and the deprecated use of a `Path` as a context manager (build.py:112), are not modelled.
- Steps.PerformKeepsInputs: spawned commands are modelled without effects on the filesystem. `System` gives a command only its output and return code, so this lemma holds of the model, not of arbitrary `make all` recipes, which may create or delete files in the working directory.
- Steps.TableGating: because of that abstraction, gating is stated against the starting paths. The code checks the paths again before each step (build.py:130), so a `make all` that creates `docker/Dockerfile` makes push-image run in the code while the model skips it; `Steps.OnlyDockerfile` and `Steps.NothingToDo` rest on the same abstraction.
- Paths are POSIX-style: `str(DOCKER_FILE)` (build.py:11, build.py:108) is modelled as `docker/Dockerfile`, as on POSIX systems; the Windows spelling `docker\Dockerfile` is not modelled.
- `main` (build.py:137-138): it only calls `run_steps`.
