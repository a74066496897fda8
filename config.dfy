/** The image/container configuration document and the merge start applies to it
    (cmd/start.go:88-123). The JSON encoding of the document is not modelled: a file
    holds either a configuration or text json.Unmarshal rejects. */
module Config {
  import opened Base
  import opened Text
  import opened KeyValue

  /** The fields of v1.Config the commands read or write. Labels is None for a
      nil map, which is not the same as an empty one. */
  datatype Config = Config(
    entrypoint: seq<string>,
    cmd: seq<string>,
    env: seq<string>,
    user: string,
    workingDir: string,
    labels: Option<map<string, string>>)

  /** v1.ConfigFile: the container id, the creation time as its String() renders
      it, and the configuration. */
  datatype ConfigFile = ConfigFile(container: string, created: string, config: Config)

  /** The content of image.json or container.json. */
  datatype Document = Doc(file: ConfigFile) | Unparsable

  /** The flags of `start`. */
  datatype StartFlags = StartFlags(
    entrypoint: seq<string>,
    cmd: seq<string>,
    user: string,
    env: seq<string>,
    labels: seq<string>,
    wait: bool)

  /** A label is set whatever its key and value. */
  predicate AnyLabel(k: string, v: string) {
    true
  }

  /** The label map after start's label loop: untouched when no label was given,
      otherwise created if nil and then assigned every "k=v" label in order. */
  function MergedLabels(labels: Option<map<string, string>>, given: seq<string>): Option<map<string, string>> {
    if |given| > 0 then Some(Assign(labels.GetOr(map[]), given, AnyLabel)) else labels
  }

  /** The label loop of start (cmd/start.go:99-110). */
  method AddLabels(labels: Option<map<string, string>>, given: seq<string>) returns (r: Option<map<string, string>>)
    ensures r == MergedLabels(labels, given)
  {
    r := labels;
    if |given| > 0 {
      var m := if labels.None? then map[] else labels.value;
      var i := 0;
      while i < |given|
        invariant 0 <= i <= |given|
        invariant m == Assign(labels.GetOr(map[]), given[..i], AnyLabel)
      {
        assert given[..i + 1][..i] == given[..i];
        var split := SplitOnce(given[i]);
        if split.Some? {
          m := m[split.value.0 := split.value.1];
        }
        i := i + 1;
      }
      assert given[..|given|] == given;
      r := Some(m);
    }
  }

  /** The configuration start writes to container.json (cmd/start.go:88-123). */
  function MergeConfig(c: Config, f: StartFlags): (r: Config)
    ensures r.workingDir == if c.workingDir == "" then "/" else c.workingDir
    ensures |r.env| == |c.env| + |f.env| && r.env[..|c.env|] == c.env && r.env[|c.env|..] == f.env
    ensures r.labels.Some? <==> c.labels.Some? || |f.labels| > 0
  {
    Config(
      if |f.entrypoint| > 0 then f.entrypoint else c.entrypoint,
      if |f.cmd| > 0 then f.cmd else c.cmd,
      c.env + f.env,
      if f.user != "" then f.user else c.user,
      if c.workingDir == "" then "/" else c.workingDir,
      MergedLabels(c.labels, f.labels))
  }

  /** The merge loop of start (cmd/start.go:88-123), before the working directory
      is created. */
  method MergeFlags(image: Config, flags: StartFlags) returns (config: Config)
    ensures config == MergeConfig(image, flags)
  {
    config := image;
    if |flags.entrypoint| > 0 {
      config := config.(entrypoint := flags.entrypoint);
    }
    if |flags.cmd| > 0 {
      config := config.(cmd := flags.cmd);
    }
    var labels := AddLabels(config.labels, flags.labels);
    config := config.(labels := labels);
    config := config.(env := config.env + flags.env);
    if flags.user != "" {
      config := config.(user := flags.user);
    }
    if config.workingDir == "" {
      config := config.(workingDir := "/");
    }
  }

  /** The command line start runs: the entrypoint followed by the cmd. */
  function CommandLine(c: Config): (r: seq<string>)
    ensures |r| == |c.entrypoint| + |c.cmd|
    ensures r[..|c.entrypoint|] == c.entrypoint && r[|c.entrypoint|..] == c.cmd
  {
    c.entrypoint + c.cmd
  }

  /** Each override replaces its field only when given, independently of the others. */
  lemma MergeOverrides(c: Config, f: StartFlags)
    ensures MergeConfig(c, f).entrypoint == if f.entrypoint == [] then c.entrypoint else f.entrypoint
    ensures MergeConfig(c, f).cmd == if f.cmd == [] then c.cmd else f.cmd
    ensures MergeConfig(c, f).user == if f.user == "" then c.user else f.user
    ensures f.labels == [] ==> MergeConfig(c, f).labels == c.labels
  {
  }

  /** With every override empty, only the environment and the working directory
      default can differ from the image configuration. */
  lemma MergeWithoutOverrides(c: Config, f: StartFlags)
    requires f.entrypoint == [] && f.cmd == [] && f.user == "" && f.labels == [] && f.env == []
    ensures MergeConfig(c, f) == c.(workingDir := if c.workingDir == "" then "/" else c.workingDir)
  {
  }

  /** After the merge, a label key holds the value of the last "key=value" label given
      for it, and otherwise its image value; labels without '=' have no effect. */
  lemma MergedLabelLookup(c: Config, f: StartFlags, k: string)
    requires |f.labels| > 0
    ensures MergeConfig(c, f).labels.Some?
    ensures Get(MergeConfig(c, f).labels.value, k)
         == if Winner(f.labels, k, AnyLabel).Some? then Winner(f.labels, k, AnyLabel)
            else if c.labels.Some? then Get(c.labels.value, k) else None
  {
    AssignLookup(c.labels.GetOr(map[]), f.labels, AnyLabel, k);
  }

  /** The command line is empty exactly when both merged parts are. */
  lemma CommandLineEmpty(c: Config, f: StartFlags)
    ensures CommandLine(MergeConfig(c, f)) == [] <==> (f.entrypoint == [] && c.entrypoint == [] && f.cmd == [] && c.cmd == [])
  {
    var m := MergeConfig(c, f);
    if CommandLine(m) == [] {
      assert |CommandLine(m)| == |m.entrypoint| + |m.cmd|;
    }
  }
}
