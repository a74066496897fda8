/** The pure parts of `build` (cmd/build.go): filling missing flags from the
    environment, the ignore list handed to kaniko, and the fallback passwd line. */
module BuildParams {
  import opened Base
  import opened Environment

  /** The flags of `build`. */
  datatype BuildFlags = BuildFlags(
    dockerfile: string,
    context: string,
    buildArgs: seq<string>,
    target: string,
    insecure: bool,
    ignorePaths: seq<string>)

  const DockerfileVar: string := "DOCKERLESS_DOCKERFILE"
  const ContextVar: string := "DOCKERLESS_CONTEXT"
  const TargetVar: string := "DOCKERLESS_TARGET"
  const BuildArgsVar: string := "DOCKERLESS_BUILD_ARGS"

  /** A flag left empty takes the value of its environment variable. */
  function FlagOrEnv(flag: string, env: map<string, string>, key: string): (s: string)
    ensures flag != "" ==> s == flag
    ensures flag == "" ==> s == Getenv(env, key)
  {
    if flag != "" then flag else Getenv(env, key)
  }

  /** The flags after cmd/build.go:60-81. `decode` stands for json.Unmarshal of a
      string array, None when the text is not one. */
  function ResolveBuild(flags: BuildFlags, env: map<string, string>, decode: string -> Option<seq<string>>): (r: Result<BuildFlags>)
    ensures r.Ok? <==> FlagOrEnv(flags.dockerfile, env, DockerfileVar) != "" && FlagOrEnv(flags.context, env, ContextVar) != ""
    ensures FlagOrEnv(flags.dockerfile, env, DockerfileVar) == "" ==> r == Err(DockerfileMissing)
    ensures FlagOrEnv(flags.dockerfile, env, DockerfileVar) != "" && FlagOrEnv(flags.context, env, ContextVar) == "" ==> r == Err(ContextMissing)
    ensures r.Ok? ==> r.value.dockerfile != "" && r.value.context != ""
    ensures r.Ok? ==> r.value.dockerfile == FlagOrEnv(flags.dockerfile, env, DockerfileVar)
    ensures r.Ok? ==> r.value.context == FlagOrEnv(flags.context, env, ContextVar)
    ensures r.Ok? ==> r.value.target == FlagOrEnv(flags.target, env, TargetVar)
    ensures r.Ok? && |flags.buildArgs| > 0 ==> r.value.buildArgs == flags.buildArgs
    ensures r.Ok? && |flags.buildArgs| == 0 && Getenv(env, BuildArgsVar) != "" && decode(Getenv(env, BuildArgsVar)).Some?
            ==> r.value.buildArgs == decode(Getenv(env, BuildArgsVar)).value
    ensures r.Ok? && (Getenv(env, BuildArgsVar) == "" || decode(Getenv(env, BuildArgsVar)).None?) ==> r.value.buildArgs == flags.buildArgs
    ensures r.Ok? ==> r.value.insecure == flags.insecure && r.value.ignorePaths == flags.ignorePaths
  {
    var dockerfile := FlagOrEnv(flags.dockerfile, env, DockerfileVar);
    if dockerfile == "" then Err(DockerfileMissing)
    else
      var context := FlagOrEnv(flags.context, env, ContextVar);
      if context == "" then Err(ContextMissing)
      else
        var args := Getenv(env, BuildArgsVar);
        var buildArgs := if |flags.buildArgs| == 0 && args != "" then decode(args).GetOr(flags.buildArgs) else flags.buildArgs;
        Ok(flags.(dockerfile := dockerfile, context := context, target := FlagOrEnv(flags.target, env, TargetVar), buildArgs := buildArgs))
  }

  /** The paths buildIgnorePaths always adds for kaniko. */
  const DefaultIgnorePaths: seq<string> := ["/.dockerless", "/workspaces", "/etc/envfile.json", "/etc/resolv.conf", "/var/run"]

  /** What buildIgnorePaths(extra) adds to the ignore list, in order. */
  function IgnorePaths(extra: seq<string>): (r: seq<string>)
    ensures |r| == |DefaultIgnorePaths| + |extra|
    ensures r[..|DefaultIgnorePaths|] == DefaultIgnorePaths && r[|DefaultIgnorePaths|..] == extra
  {
    DefaultIgnorePaths + extra
  }

  /** The line addPasswd writes to /etc/passwd when the build fails. */
  const PasswdFallback: string := "root:x:0:0:root:/root:/.dockerless/bin/sh"
}
