/**
 * The step table and the orchestrator (`steps`, `run_steps`): three steps
 * visited in a fixed order, each run only when its predicate holds at that
 * moment, the whole run aborted by the first step that fails.
 */
module Steps {
  import opened Results
  import opened Process
  import opened Refs
  import Config
  import Images

  const Makefile := "makefile"

  /** The step predicates, each an existence check on one path. */
  datatype Need = NeedsMake | NeedsBuildImage | NeedsPushImage

  predicate Needed(n: Need, paths: set<string>)
  {
    match n
    case NeedsMake => Makefile in paths
    case NeedsBuildImage => Images.DockerFile in paths
    case NeedsPushImage => Images.DockerFile in paths
  }

  /** The step actions. */
  datatype Action = Make | BuildImage | PushImage

  const MakeAll: Command := ["make", "all"]

  /** `do_make`: one run of the build tool's `all` target. */
  function DoMake(sys: System, w: World): Effect
  {
    RunCommand(sys, MakeAll, w)
  }

  /** The make step spawns `make all` and nothing else, and its outcome is
      that command's classification; nothing but the trace changes. */
  lemma MakeRunsMakeAll(sys: System, w: World)
    ensures DoMake(sys, w).world == w.(issued := w.issued + [["make", "all"]])
    ensures DoMake(sys, w).outcome == Classify(["make", "all"], sys(["make", "all"]).returncode)
  {
  }

  function Perform(a: Action, sys: System, w: World): Effect
  {
    match a
    case Make => DoMake(sys, w)
    case BuildImage => Images.BuildImage(sys, w)
    case PushImage => Images.PushImage(sys, w)
  }

  /** The semantics of the actions a run is driven by. */
  type Performer = (Action, World) -> Effect

  /** The driver's own actions, against a given behaviour of the commands. */
  function Actions(sys: System): Performer
  {
    (a: Action, w: World) => Perform(a, sys, w)
  }

  datatype Step = Step(name: string, need: Need, action: Action)

  /** The table as the driver declares it: the build-image step is gated on
      the makefile predicate, not on the one for the Dockerfile. */
  const Table: seq<Step> := [
    Step("make", NeedsMake, Make),
    Step("build-image", NeedsMake, BuildImage),
    Step("push-image", NeedsPushImage, PushImage)
  ]

  /** What happened to one visited step. */
  datatype Visit = Skipped(name: string) | Ran(name: string, outcome: Outcome)

  /** The result of a run, the world it leaves and the steps it visited. */
  datatype Report = Report(outcome: Outcome, world: World, visits: seq<Visit>)

  function Prefixed(visits: seq<Visit>, rep: Report): Report
  {
    rep.(visits := visits + rep.visits)
  }

  /** Running a list of steps: evaluate the first step's predicate against
      the current world, skip it or perform its action, stop on failure. */
  function Run(act: Performer, steps: seq<Step>, w: World): Report
    decreases |steps|
  {
    if steps == [] then Report(Pass, w, [])
    else
      var s := steps[0];
      if !Needed(s.need, w.paths) then Prefixed([Skipped(s.name)], Run(act, steps[1..], w))
      else
        var e := act(s.action, w);
        if e.outcome.Fail? then Report(e.outcome, e.world, [Ran(s.name, e.outcome)])
        else Prefixed([Ran(s.name, Pass)], Run(act, steps[1..], e.world))
  }

  /** One action, as the orchestrator invokes it. */
  method Act(a: Action, sys: System, w: World) returns (r: Outcome, w': World)
    ensures Effect(r, w') == Perform(a, sys, w)
  {
    match a {
      case Make =>
        var e := DoMake(sys, w);
        r, w' := e.outcome, e.world;
      case BuildImage =>
        r, w' := Images.DoBuildImage(sys, w);
      case PushImage =>
        var e := Images.PushImage(sys, w);
        r, w' := e.outcome, e.world;
    }
  }

  /** `run_steps`: the loop over the table. */
  method RunSteps(sys: System, w0: World) returns (r: Outcome, w: World, visits: seq<Visit>)
    ensures Report(r, w, visits) == Run(Actions(sys), Table, w0)
  {
    r, w, visits := Pass, w0, [];
    var i := 0;
    while i < |Table|
      invariant 0 <= i <= |Table|
      invariant r == Pass
      invariant Run(Actions(sys), Table, w0) == Prefixed(visits, Run(Actions(sys), Table[i..], w))
    {
      var step := Table[i];
      RunFirst(Actions(sys), Table[i..], w);
      assert Table[i..][0] == step && Table[i..][1..] == Table[i + 1..];
      if Needed(step.need, w.paths) {
        ghost var before := w;
        assert Actions(sys)(step.action, before) == Perform(step.action, sys, before);
        r, w := Act(step.action, sys, w);
        if r.Fail? {
          assert Run(Actions(sys), Table[i..], before) == Report(r, w, [Ran(step.name, r)]);
          visits := visits + [Ran(step.name, r)];
          return;
        }
        PrefixedTwice(visits, [Ran(step.name, Pass)], Run(Actions(sys), Table[i + 1..], w));
        visits := visits + [Ran(step.name, Pass)];
      } else {
        PrefixedTwice(visits, [Skipped(step.name)], Run(Actions(sys), Table[i + 1..], w));
        visits := visits + [Skipped(step.name)];
      }
      i := i + 1;
    }
    assert Table[i..] == [];
  }

  /** One unfolding of Run on a non-empty list of steps. */
  lemma RunFirst(act: Performer, steps: seq<Step>, w: World)
    requires steps != []
    ensures !Needed(steps[0].need, w.paths) ==>
      Run(act, steps, w) == Prefixed([Skipped(steps[0].name)], Run(act, steps[1..], w))
    ensures Needed(steps[0].need, w.paths) ==>
      var e := act(steps[0].action, w);
      Run(act, steps, w) ==
        if e.outcome.Fail? then Report(e.outcome, e.world, [Ran(steps[0].name, e.outcome)])
        else Prefixed([Ran(steps[0].name, Pass)], Run(act, steps[1..], e.world))
  {
  }

  lemma PrefixedTwice(a: seq<Visit>, b: seq<Visit>, rep: Report)
    ensures Prefixed(a, Prefixed(b, rep)) == Prefixed(a + b, rep)
  {
    assert a + (b + rep.visits) == (a + b) + rep.visits;
  }

  /** An action leaves the environment and everything the predicates look
      at as it was, and only appends to the trace of issued commands. */
  ghost predicate KeepsInputs(w: World, w': World)
  {
    && w'.env == w.env
    && (forall n :: Needed(n, w'.paths) == Needed(n, w.paths))
    && w.issued <= w'.issued
  }

  /** In the model, none of the driver's actions changes the environment or
      whether the makefile or the Dockerfile exists: a spawned command has
      no effect on the paths, and build-image adds only the artifacts
      directory and the build-id file. */
  lemma PerformKeepsInputs(a: Action, sys: System, w: World)
    ensures KeepsInputs(w, Perform(a, sys, w).world)
  {
    IsMasterAlwaysFalse(sys, w);
  }

  lemma ActionsKeepInputs(sys: System)
    ensures forall a, x :: KeepsInputs(x, Actions(sys)(a, x).world)
  {
    forall a, x ensures KeepsInputs(x, Actions(sys)(a, x).world) {
      PerformKeepsInputs(a, sys, x);
    }
  }

  /** Steps are visited in table order and never twice. */
  lemma {:induction false} RunVisitsInOrder(act: Performer, steps: seq<Step>, w: World)
    ensures var v := Run(act, steps, w).visits;
      && |v| <= |steps|
      && (forall k :: 0 <= k < |v| ==> v[k].name == steps[k].name)
    decreases |steps|
  {
    if steps != [] {
      var s := steps[0];
      if !Needed(s.need, w.paths) {
        RunVisitsInOrder(act, steps[1..], w);
      } else {
        var e := act(s.action, w);
        if e.outcome.Pass? {
          RunVisitsInOrder(act, steps[1..], e.world);
        }
      }
    }
  }

  /** Every visited step but the last one was skipped or passed, and so was
      the last one when the run passes. */
  lemma {:induction false} RunPassedBeforeLast(act: Performer, steps: seq<Step>, w: World)
    ensures var rep := Run(act, steps, w); var v := rep.visits;
      && (forall k :: 0 <= k < |v| - 1 ==> v[k].Skipped? || v[k].outcome == Pass)
      && (rep.outcome.Pass? ==> forall k :: 0 <= k < |v| ==> v[k].Skipped? || v[k].outcome == Pass)
    decreases |steps|
  {
    if steps != [] {
      var s := steps[0];
      if !Needed(s.need, w.paths) {
        RunPassedBeforeLast(act, steps[1..], w);
      } else {
        var e := act(s.action, w);
        if e.outcome.Pass? {
          RunPassedBeforeLast(act, steps[1..], e.world);
        }
      }
    }
  }

  /** A run that passes visits every step; a run that fails ends with the
      step whose action failed, carrying its error. */
  lemma {:induction false} RunEndsAtFailure(act: Performer, steps: seq<Step>, w: World)
    ensures var rep := Run(act, steps, w); var v := rep.visits;
      && |v| <= |steps|
      && (rep.outcome.Pass? ==> |v| == |steps|)
      && (rep.outcome.Fail? ==> |v| > 0 && v[|v| - 1] == Ran(steps[|v| - 1].name, rep.outcome))
    decreases |steps|
  {
    RunVisitsInOrder(act, steps, w);
    if steps != [] {
      var s := steps[0];
      if !Needed(s.need, w.paths) {
        RunEndsAtFailure(act, steps[1..], w);
      } else {
        var e := act(s.action, w);
        if e.outcome.Pass? {
          RunEndsAtFailure(act, steps[1..], e.world);
        }
      }
    }
  }

  /** Fail-fast, as a whole: steps are visited in table order and never
      twice; every visited step but the last one was skipped or passed; a
      run that passes visits every step; a run that fails ends with the step
      whose action failed. */
  lemma RunStopsAtFirstFailure(act: Performer, steps: seq<Step>, w: World)
    ensures var rep := Run(act, steps, w); var v := rep.visits;
      && |v| <= |steps|
      && (forall k :: 0 <= k < |v| ==> v[k].name == steps[k].name)
      && (forall k :: 0 <= k < |v| - 1 ==> v[k].Skipped? || v[k].outcome == Pass)
      && (rep.outcome.Pass? ==> |v| == |steps| && forall k :: 0 <= k < |v| ==> v[k].Skipped? || v[k].outcome == Pass)
      && (rep.outcome.Fail? ==> |v| > 0 && v[|v| - 1] == Ran(steps[|v| - 1].name, rep.outcome))
  {
    RunVisitsInOrder(act, steps, w);
    RunPassedBeforeLast(act, steps, w);
    RunEndsAtFailure(act, steps, w);
  }

  /** Predicates are evaluated afresh before each step; when no action
      changes what they look at, a step is run exactly when its predicate
      holds for the paths the run started with. */
  lemma {:induction false} RunGatedByStartingPaths(act: Performer, steps: seq<Step>, w: World)
    requires forall a, x :: KeepsInputs(x, act(a, x).world)
    ensures |Run(act, steps, w).visits| <= |steps|
    ensures var v := Run(act, steps, w).visits;
      forall k :: 0 <= k < |v| ==> (v[k].Ran? <==> Needed(steps[k].need, w.paths))
    ensures KeepsInputs(w, Run(act, steps, w).world)
    decreases |steps|
  {
    if steps != [] {
      var s := steps[0];
      if !Needed(s.need, w.paths) {
        RunGatedByStartingPaths(act, steps[1..], w);
      } else {
        var e := act(s.action, w);
        assert KeepsInputs(w, e.world);
        if e.outcome.Pass? {
          RunGatedByStartingPaths(act, steps[1..], e.world);
        }
      }
    }
  }

  /** For the driver's table: make and build-image both run exactly when
      the makefile exists, push-image exactly when the Dockerfile exists,
      in that order, and the run goes on past a step only if it passed.
      The predicates are read from the starting paths, which the model's
      actions do not change. */
  lemma TableGating(sys: System, w: World)
    ensures var rep := Run(Actions(sys), Table, w); var v := rep.visits;
      && 1 <= |v| <= 3
      && (rep.outcome.Pass? ==> |v| == 3)
      && v[0].name == "make" && (v[0].Ran? <==> Makefile in w.paths)
      && (|v| > 1 ==> v[1].name == "build-image" && (v[1].Ran? <==> Makefile in w.paths))
      && (|v| > 2 ==> v[2].name == "push-image" && (v[2].Ran? <==> Images.DockerFile in w.paths))
  {
    RunStopsAtFirstFailure(Actions(sys), Table, w);
    ActionsKeepInputs(sys);
    RunGatedByStartingPaths(Actions(sys), Table, w);
  }

  /** Without a makefile and a Dockerfile every step is skipped, the run
      passes and nothing is spawned or written. */
  lemma NothingToDo(sys: System, w: World)
    requires Makefile !in w.paths && Images.DockerFile !in w.paths
    ensures Run(Actions(sys), Table, w) == Report(Pass, w, [Skipped("make"), Skipped("build-image"), Skipped("push-image")])
  {
    assert Table[1..][1..][1..] == [];
  }

  /** With a Dockerfile but no makefile only the push step runs: the image
      is pushed although this run never built it. */
  lemma OnlyDockerfile(sys: System, w: World)
    requires Makefile !in w.paths && Images.DockerFile in w.paths
    ensures var e := Images.PushImage(sys, w);
      Run(Actions(sys), Table, w) == Report(e.outcome, e.world, [Skipped("make"), Skipped("build-image"), Ran("push-image", e.outcome)])
  {
    var e := Images.PushImage(sys, w);
    assert Actions(sys)(PushImage, w) == e;
    RunFirst(Actions(sys), Table, w);
    RunFirst(Actions(sys), Table[1..], w);
    RunFirst(Actions(sys), Table[1..][1..], w);
    assert Table[1..][1..][1..] == [];
    assert Run(Actions(sys), Table[1..][1..], w).visits == [Ran("push-image", e.outcome)];
  }

  /** The settings of the pipeline run below. */
  const PipelineEnv := map[Config.DockerImage := "registry/app", Config.PipelineCounter := "42"]

  /** A pipeline run with both files present, image `registry/app`, counter
      42 and every command exiting 0: make, then the pr build, then the pr
      push; `pr-42` is recorded and the run passes. */
  lemma PipelineRun(sys: System, w: World)
    requires w.env == PipelineEnv
    requires Makefile in w.paths && Images.DockerFile in w.paths
    requires forall c :: sys(c).returncode == Some(0)
    ensures var rep := Run(Actions(sys), Table, w);
      && rep.outcome == Pass
      && rep.visits == [Ran("make", Pass), Ran("build-image", Pass), Ran("push-image", Pass)]
      && rep.world.issued == w.issued + [
           ["make", "all"],
           ShowRef, RevParse, ["docker", "build", "-t", "registry/app:pr-42", "-f", "docker/Dockerfile", "."],
           ShowRef, RevParse, ["docker", "push", "registry/app:pr-42"]]
      && rep.world.files == w.files[Images.BuildIdFile := "pr-42"]
  {
    var build: Command := ["docker", "build", "-t", "registry/app:pr-42", "-f", "docker/Dockerfile", "."];
    var push: Command := ["docker", "push", "registry/app:pr-42"];
    var act := Actions(sys);
    var w1 := act(Make, w).world;
    PerformKeepsInputs(Make, sys, w);
    var w2 := act(BuildImage, w1).world;
    PipelineBuild(sys, w1);
    PerformKeepsInputs(BuildImage, sys, w1);
    var w3 := act(PushImage, w2).world;
    PipelinePush(sys, w2);
    RunFirst(act, Table, w);
    RunFirst(act, Table[1..], w1);
    RunFirst(act, Table[1..][1..], w2);
    assert Table[1..][1..][1..] == [];
    assert Run(act, Table, w) == Report(Pass, w3, [Ran("make", Pass), Ran("build-image", Pass), Ran("push-image", Pass)]);
    TraceGrowth(w.issued, MakeAll, build, push);
  }

  lemma PipelineBuild(sys: System, w: World)
    requires w.env == PipelineEnv
    requires forall c :: sys(c).returncode == Some(0)
    ensures var e := Actions(sys)(BuildImage, w);
      && e.outcome == Pass
      && e.world.issued == w.issued + [ShowRef, RevParse, ["docker", "build", "-t", "registry/app:pr-42", "-f", "docker/Dockerfile", "."]]
      && e.world.files == w.files[Images.BuildIdFile := "pr-42"]
  {
    assert Config.ReadSettings(w.env) == Ok(Config.Settings("registry/app", "42"));
    Images.BuildImageAsWritten(sys, w);
    assert "registry/app" + ":" + ("pr-" + "42") == "registry/app:pr-42";
    assert "pr-" + "42" == "pr-42";
  }

  lemma PipelinePush(sys: System, w: World)
    requires w.env == PipelineEnv
    requires forall c :: sys(c).returncode == Some(0)
    ensures var e := Actions(sys)(PushImage, w);
      && e.outcome == Pass
      && e.world == w.(issued := w.issued + [ShowRef, RevParse, ["docker", "push", "registry/app:pr-42"]])
  {
    assert Config.ReadSettings(w.env) == Ok(Config.Settings("registry/app", "42"));
    Images.PushImageAsWritten(sys, w);
    assert "registry/app" + ":" + ("pr-" + "42") == "registry/app:pr-42";
  }

  lemma TraceGrowth(before: seq<Command>, make: Command, build: Command, push: Command)
    ensures before + [make] + [ShowRef, RevParse, build] + [ShowRef, RevParse, push]
      == before + [make, ShowRef, RevParse, build, ShowRef, RevParse, push]
  {
  }

  /** On the master tip (which the comparison as written never reports) the
      image would be built and pushed under both `master-42` and `latest`. */
  lemma MasterIdentityCommands()
    ensures var id := Images.ChooseIdentity(true, "42");
      && Images.BuildCommand("registry/app", id)
         == ["docker", "build", "-t", "registry/app:master-42", "-t", "registry/app:latest", "-f", "docker/Dockerfile", "."]
      && Images.PushCommands("registry/app", id)
         == [["docker", "push", "registry/app:master-42"], ["docker", "push", "registry/app:latest"]]
  {
    assert "master" + "-" + "42" == "master-42";
    assert "registry/app" + ":" + "master-42" == "registry/app:master-42";
    assert "registry/app" + ":" + "latest" == "registry/app:latest";
  }
}
