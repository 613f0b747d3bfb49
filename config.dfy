/**
 * The configuration both image steps read from the environment before they
 * do anything else.
 */
module Config {
  import opened Results
  import opened Process

  const DockerImage := "DOCKER_IMAGE"
  const PipelineCounter := "GO_PIPELINE_COUNTER"

  /** The image repository and the pipeline counter, both non-empty. */
  datatype Settings = Settings(image: string, counter: string)

  /** `os.getenv`: the value of a variable, None when it is unset. */
  function GetEnv(env: map<string, string>, name: string): Option<string>
  {
    if name in env then Some(env[name]) else None
  }

  /** A variable counts as provided when it is set to a non-empty value. */
  predicate Provided(env: map<string, string>, name: string)
  {
    Truthy(GetEnv(env, name))
  }

  /** Reads both variables and checks the image first, then the counter. */
  function ReadSettings(env: map<string, string>): (r: Result<Settings, StepError>)
    ensures r.Ok? <==> Provided(env, DockerImage) && Provided(env, PipelineCounter)
    ensures !Provided(env, DockerImage) ==> r == Err(MissingVariable(DockerImage))
    ensures Provided(env, DockerImage) && !Provided(env, PipelineCounter) ==> r == Err(MissingVariable(PipelineCounter))
    ensures r.Ok? ==> r.value == Settings(env[DockerImage], env[PipelineCounter])
    ensures r.Ok? ==> r.value.image != "" && r.value.counter != ""
  {
    var image := GetEnv(env, DockerImage);
    var counter := GetEnv(env, PipelineCounter);
    if !Truthy(image) then Err(MissingVariable(DockerImage))
    else if !Truthy(counter) then Err(MissingVariable(PipelineCounter))
    else Ok(Settings(Text(image), Text(counter)))
  }
}
