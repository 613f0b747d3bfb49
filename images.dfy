/**
 * The two image steps (`do_build_image`, `do_push_image`): the build
 * identity they derive, the exact commands they issue, and the build-id
 * file the build step leaves behind.
 */
module Images {
  import opened Results
  import opened Process
  import opened Refs
  import opened Config

  /** The container build descriptor, relative to the working directory,
      in its POSIX spelling. */
  const DockerFile := "docker/Dockerfile"
  const ArtifactsDir := "artifacts"
  const BuildIdFile := "artifacts/build-id.txt"

  /** The prefix and counter an image is tagged with, and whether it is
      also tagged `latest`. */
  datatype Identity = Identity(prefix: string, counter: string, latest: bool)

  /** Both image steps choose their identity from the comparison the same way. */
  function ChooseIdentity(master: bool, counter: string): (id: Identity)
    ensures id.counter == counter
    ensures id.latest <==> master
    ensures master ==> id.prefix == "master"
    ensures !master ==> id.prefix == "pr"
  {
    if master then Identity("master", counter, true) else Identity("pr", counter, false)
  }

  /** The build identifier `prefix-counter`. */
  function BuildId(id: Identity): string
  {
    id.prefix + "-" + id.counter
  }

  function Tag(image: string, name: string): string
  {
    image + ":" + name
  }

  function LatestTag(image: string): string
  {
    Tag(image, "latest")
  }

  /** The tags an image with this identity receives, in order. */
  function ImageTags(image: string, id: Identity): (tags: seq<string>)
    ensures |tags| == (if id.latest then 2 else 1)
    ensures tags[0] == Tag(image, BuildId(id))
    ensures id.latest ==> tags[1] == LatestTag(image)
  {
    [Tag(image, BuildId(id))] + if id.latest then [LatestTag(image)] else []
  }

  /** The `docker build` argument vector. */
  function BuildCommand(image: string, id: Identity): (cmd: Command)
    ensures |cmd| == (if id.latest then 9 else 7)
    ensures cmd[..3] == ["docker", "build", "-t"] && cmd[3] == Tag(image, BuildId(id))
    ensures id.latest ==> cmd[4..6] == ["-t", LatestTag(image)]
    ensures cmd[|cmd| - 3..] == ["-f", DockerFile, "."]
  {
    ["docker", "build", "-t", Tag(image, BuildId(id))]
    + (if id.latest then ["-t", LatestTag(image)] else [])
    + ["-f", DockerFile, "."]
  }

  function PushCommand(tag: string): Command
  {
    ["docker", "push", tag]
  }

  /** Every push the push step may issue, in the order it issues them. */
  function PushCommands(image: string, id: Identity): seq<Command>
  {
    [PushCommand(Tag(image, BuildId(id)))] + if id.latest then [PushCommand(LatestTag(image))] else []
  }

  /** The values given to `-t` in an argument vector. */
  function TagArgs(cmd: Command): seq<string>
    decreases |cmd|
  {
    if |cmd| < 2 then []
    else if cmd[0] == "-t" then [cmd[1]] + TagArgs(cmd[2..])
    else TagArgs(cmd[1..])
  }

  /** The image each push command publishes. */
  function PushedTags(cmds: seq<Command>): seq<string>
    requires forall k :: 0 <= k < |cmds| ==> |cmds[k]| == 3
  {
    seq(|cmds|, k requires 0 <= k < |cmds| => cmds[k][2])
  }

  /** The build step once its identity is known: build the image and, only
      when that succeeds, record the build identifier. */
  function Build(sys: System, image: string, id: Identity, w: World): (e: Effect)
    ensures e.world.env == w.env
    ensures e.world.issued == w.issued + [BuildCommand(image, id)]
    ensures e.outcome.Pass? <==> sys(BuildCommand(image, id)).returncode == Some(0)
    ensures e.outcome.Fail? ==> e.outcome == Classify(BuildCommand(image, id), sys(BuildCommand(image, id)).returncode)
    ensures e.outcome.Pass? ==> e.world.files == w.files[BuildIdFile := BuildId(id)]
    ensures e.outcome.Pass? ==> e.world.paths == w.paths + {ArtifactsDir, BuildIdFile}
    ensures e.outcome.Fail? ==> e.world.files == w.files && e.world.paths == w.paths
  {
    var run := RunCommand(sys, BuildCommand(image, id), w);
    if run.outcome.Fail? then run
    else
      var made := run.world.(paths := run.world.paths + {ArtifactsDir});
      Effect(Pass, made.(paths := made.paths + {BuildIdFile}, files := made.files[BuildIdFile := BuildId(id)]))
  }

  /** The push step once its identity is known: push the counter tag, then
      the `latest` tag when the identity has one and the first push passed. */
  function Push(sys: System, image: string, id: Identity, w: World): (e: Effect)
    ensures e.world == w.(issued := e.world.issued)
    ensures |w.issued| < |e.world.issued| && e.world.issued[..|w.issued|] == w.issued
    ensures e.world.issued[|w.issued|..] <= PushCommands(image, id)
    ensures e.outcome == Classify(e.world.issued[|e.world.issued| - 1], sys(e.world.issued[|e.world.issued| - 1]).returncode)
    ensures forall k :: |w.issued| <= k < |e.world.issued| - 1 ==> sys(e.world.issued[k]).returncode == Some(0)
    ensures e.outcome.Pass? ==> e.world.issued == w.issued + PushCommands(image, id)
    ensures e.outcome.Pass? <==> forall c | c in PushCommands(image, id) :: sys(c).returncode == Some(0)
  {
    var first := RunCommand(sys, PushCommand(Tag(image, BuildId(id))), w);
    if first.outcome.Fail? || !id.latest then first
    else RunCommand(sys, PushCommand(LatestTag(image)), first.world)
  }

  /** `do_build_image`: settings, then the comparison, then the build. */
  function BuildImage(sys: System, w: World): Effect
  {
    match ReadSettings(w.env)
    case Err(e) => Effect(Fail(e), w)
    case Ok(s) =>
      var probe := IsMaster(sys, w);
      match probe.answer
      case Err(e) => Effect(Fail(e), probe.world)
      case Ok(master) => Build(sys, s.image, ChooseIdentity(master, s.counter), probe.world)
  }

  /** `do_push_image`: settings, then the comparison, then the pushes. */
  function PushImage(sys: System, w: World): Effect
  {
    match ReadSettings(w.env)
    case Err(e) => Effect(Fail(e), w)
    case Ok(s) =>
      var probe := IsMaster(sys, w);
      match probe.answer
      case Err(e) => Effect(Fail(e), probe.world)
      case Ok(master) => Push(sys, s.image, ChooseIdentity(master, s.counter), probe.world)
  }

  /** `do_build_image` step by step: the argument vector grows by
      reassignment, and the build-id file is written after the build. */
  method DoBuildImage(sys: System, w0: World) returns (r: Outcome, w: World)
    ensures Effect(r, w) == BuildImage(sys, w0)
  {
    w := w0;
    var settings := ReadSettings(w.env);
    var image, counter;
    match settings {
      case Err(e) =>
        r := Fail(e);
        return;
      case Ok(s) =>
        image, counter := s.image, s.counter;
    }
    var probe := IsMaster(sys, w);
    w := probe.world;
    var master;
    match probe.answer {
      case Err(e) =>
        r := Fail(e);
        return;
      case Ok(m) =>
        master := m;
    }
    var prefix, addLatest;
    if master {
      prefix, addLatest := "master", true;
    } else {
      prefix, addLatest := "pr", false;
    }
    var cmd := ["docker", "build", "-t", image + ":" + (prefix + "-" + counter)];
    if addLatest {
      cmd := cmd + ["-t", image + ":latest"];
    }
    cmd := cmd + ["-f", DockerFile, "."];
    assert cmd == BuildCommand(image, ChooseIdentity(master, counter));
    var run := RunCommand(sys, cmd, w);
    r, w := run.outcome, run.world;
    if r.Fail? {
      return;
    }
    w := w.(paths := w.paths + {ArtifactsDir});
    w := w.(paths := w.paths + {BuildIdFile}, files := w.files[BuildIdFile := prefix + "-" + counter]);
  }

  /** With settings missing, both image steps fail naming the variable
      before any command is spawned and change nothing. */
  lemma SettingsCheckedFirst(sys: System, w: World)
    requires ReadSettings(w.env).Err?
    ensures BuildImage(sys, w) == Effect(Fail(ReadSettings(w.env).error), w)
    ensures PushImage(sys, w) == Effect(Fail(ReadSettings(w.env).error), w)
    ensures ReadSettings(w.env).error == MissingVariable(DockerImage) || ReadSettings(w.env).error == MissingVariable(PipelineCounter)
  {
  }

  lemma TagArgsFlag(t: string, rest: Command)
    ensures TagArgs(["-t", t] + rest) == [t] + TagArgs(rest)
  {
    assert (["-t", t] + rest)[2..] == rest;
  }

  lemma TagArgsBuildHead(t: string, rest: Command)
    ensures TagArgs(["docker", "build", "-t", t] + rest) == [t] + TagArgs(rest)
  {
    var cmd := ["docker", "build", "-t", t] + rest;
    assert cmd[1..] == ["build", "-t", t] + rest;
    assert cmd[1..][1..] == ["-t", t] + rest;
    TagArgsFlag(t, rest);
  }

  lemma TagArgsBuildTail()
    ensures TagArgs(["-f", DockerFile, "."]) == []
  {
    assert "-f"[1] != "-t"[1] && DockerFile[0] != "-t"[0];
    assert ["-f", DockerFile, "."][1..] == [DockerFile, "."];
    assert [DockerFile, "."][1..] == ["."];
    assert TagArgs([DockerFile, "."]) == TagArgs(["."]) == [];
  }

  /** The build command names exactly the image's tags, in order. */
  lemma BuildCommandTags(image: string, id: Identity)
    ensures TagArgs(BuildCommand(image, id)) == ImageTags(image, id)
  {
    var main := Tag(image, BuildId(id));
    var tail: Command := ["-f", DockerFile, "."];
    var rest: Command := (if id.latest then ["-t", LatestTag(image)] else []) + tail;
    TagArgsBuildTail();
    if id.latest {
      TagArgsFlag(LatestTag(image), tail);
    } else {
      assert rest == tail;
    }
    TagArgsBuildHead(main, rest);
    assert BuildCommand(image, id) == ["docker", "build", "-t", main] + rest;
  }

  /** The push step's commands publish exactly the image's tags, in order:
      what is built is what is pushed, for either identity. */
  lemma PushCommandsTags(image: string, id: Identity)
    ensures forall k :: 0 <= k < |PushCommands(image, id)| ==> |PushCommands(image, id)[k]| == 3
    ensures PushedTags(PushCommands(image, id)) == ImageTags(image, id)
    ensures PushedTags(PushCommands(image, id)) == TagArgs(BuildCommand(image, id))
  {
    BuildCommandTags(image, id);
  }

  lemma PrBuildId(counter: string)
    ensures BuildId(ChooseIdentity(false, counter)) == "pr-" + counter
  {
    assert "pr" + "-" == "pr-";
  }

  /** Because the comparison always answers false, a successful settings
      check makes the build step spawn the two git commands and then exactly
      `docker build -t IMAGE:pr-COUNTER -f docker/Dockerfile .`, and write
      `pr-COUNTER` to the build-id file exactly when that build exits 0. */
  lemma BuildImageAsWritten(sys: System, w: World)
    requires ReadSettings(w.env).Ok?
    ensures var s := ReadSettings(w.env).value;
      var cmd := ["docker", "build", "-t", s.image + ":" + ("pr-" + s.counter), "-f", "docker/Dockerfile", "."];
      var e := BuildImage(sys, w);
      && e.world.issued == w.issued + [ShowRef, RevParse, cmd]
      && e.world.env == w.env
      && (e.outcome.Pass? <==> sys(cmd).returncode == Some(0))
      && (e.outcome.Fail? ==> e.outcome == Classify(cmd, sys(cmd).returncode) && e.world.files == w.files)
      && (e.outcome.Pass? ==> e.world.files == w.files[BuildIdFile := "pr-" + s.counter])
  {
    IsMasterAlwaysFalse(sys, w);
    var s := ReadSettings(w.env).value;
    PrBuildId(s.counter);
    assert BuildCommand(s.image, ChooseIdentity(false, s.counter))
      == ["docker", "build", "-t", s.image + ":" + ("pr-" + s.counter), "-f", "docker/Dockerfile", "."];
  }

  /** Likewise the push step spawns the two git commands and then pushes
      `IMAGE:pr-COUNTER` and nothing else; `latest` is never pushed. */
  lemma PushImageAsWritten(sys: System, w: World)
    requires ReadSettings(w.env).Ok?
    ensures var s := ReadSettings(w.env).value;
      var cmd := ["docker", "push", s.image + ":" + ("pr-" + s.counter)];
      var e := PushImage(sys, w);
      && e.world == w.(issued := w.issued + [ShowRef, RevParse, cmd])
      && e.outcome == Classify(cmd, sys(cmd).returncode)
  {
    IsMasterAlwaysFalse(sys, w);
    var s := ReadSettings(w.env).value;
    PrBuildId(s.counter);
  }
}
