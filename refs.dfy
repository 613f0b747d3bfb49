/**
 * The reference comparison (`is_master`): whether the checked-out commit is
 * the tip of origin/master, as the driver computes it.
 */
module Refs {
  import opened Results
  import opened Process

  const ShowRef: Command := ["git", "show-ref", "origin/master", "--hash"]
  const RevParse: Command := ["git", "rev-parse", "HEAD"]

  /** Which of a child's output streams the driver captures through a pipe. */
  datatype Pipes = Pipes(stdout: bool, stderr: bool)

  /** Both git commands are spawned with only standard output piped. */
  const StdoutOnly := Pipes(true, false)

  /** What `communicate()` hands back: the captured streams, None for a
      stream that was not piped. */
  datatype Captured = Captured(stdout: Option<string>, stderr: Option<string>)

  function Communicate(run: ProcessRun, pipes: Pipes): (c: Captured)
    ensures c.stderr.Some? <==> pipes.stderr
    ensures c.stdout.Some? <==> pipes.stdout
    ensures pipes.stdout ==> c.stdout.value == run.stdout
  {
    Captured(if pipes.stdout then Some(run.stdout) else None,
             if pipes.stderr then Some(run.stderr) else None)
  }

  /** The answer of the comparison and the world after its two commands. */
  datatype Probe = Probe(answer: Result<bool, StepError>, world: World)

  /** `is_master` as written: both git commands are run and their output
      captured, but the comparison is between the two argument vectors. */
  function IsMaster(sys: System, w: World): (p: Probe)
    ensures p.world.env == w.env && p.world.paths == w.paths && p.world.files == w.files
    ensures p.world.issued == w.issued + [ShowRef] || p.world.issued == w.issued + [ShowRef, RevParse]
  {
    var w1 := w.(issued := w.issued + [ShowRef]);
    var c1 := Communicate(sys(ShowRef), StdoutOnly);
    if Truthy(c1.stderr) then Probe(Err(GitStderr(Text(c1.stderr))), w1)
    else
      var w2 := w1.(issued := w1.issued + [RevParse]);
      var c2 := Communicate(sys(RevParse), StdoutOnly);
      if Truthy(c2.stderr) then Probe(Err(GitStderr(Text(c2.stderr))), w2)
      else if ShowRef == [] || RevParse == [] then Probe(Err(NoReference), w2)
      else Probe(Ok(ShowRef == RevParse), w2)
  }

  /** Whatever git prints, `is_master` spawns both commands, raises nothing
      and answers false: standard error is never captured, both vectors are
      non-empty, and they differ. */
  lemma IsMasterAlwaysFalse(sys: System, w: World)
    ensures IsMaster(sys, w) == Probe(Ok(false), w.(issued := w.issued + [ShowRef, RevParse]))
  {
    assert ShowRef[1] != RevParse[1];
  }
}
