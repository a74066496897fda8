/** The single-container lifecycle: the commands build, start, stop, exec and remove
    (the cmd package) as guarded transitions over the host's files.

    `Host` is what outlives one invocation of dockerless: the three files under
    /.dockerless, /etc/passwd, the processes alive (as the zero-signal probe sees
    them), the directories, the user database and the paths the OS refuses to write.
    `Process` is the dockerless process running one command: its environment, its
    working directory, kaniko's process-global ignore list and its own pid. */
module Lifecycle {
  import opened Base
  import opened Text
  import opened Environment
  import opened Config
  import opened Identity
  import opened Supervisor
  import opened BuildParams

  datatype Path = ImageConfig | ContainerConfig | PidRecord | Passwd

  function PathName(p: Path): string {
    match p
    case ImageConfig => "/.dockerless/image.json"
    case ContainerConfig => "/.dockerless/container.json"
    case PidRecord => "/.dockerless/pid"
    case Passwd => "/etc/passwd"
  }

  datatype Sig = SIGTERM | SIGKILL

  /** A signal sent with syscall.Kill. */
  datatype Signal = Signal(pid: int, sig: Sig)

  /** What build reports without an error: the image was there already (the
      "skip building" message), or it was built now. */
  datatype BuildReport = SkippedBuild | BuiltImage

  /** What start does without an error: it keeps polling for image.json (--wait),
      or it runs the container's command in the foreground. */
  datatype Started = Polling | Spawned(launch: Launch)

  /** The outcomes of the kaniko calls of build: util.InitIgnoreList,
      util.DeleteFilesystem and executor.DoBuild followed by image.ConfigFile(). */
  datatype Kaniko = Kaniko(initIgnoreList: Outcome, deleteFilesystem: Outcome, doBuild: Result<ConfigFile>)

  class Process {
    /** os.Getpid() */
    const pid: int
    var env: map<string, string>
    var cwd: string
    /** kaniko's default ignore list, which util.AddToDefaultIgnoreList extends. */
    var ignoreList: seq<string>

    constructor (pid: int, env: map<string, string>, cwd: string, ignoreList: seq<string>)
      ensures this.pid == pid && this.env == env && this.cwd == cwd && this.ignoreList == ignoreList
    {
      this.pid := pid;
      this.env := env;
      this.cwd := cwd;
      this.ignoreList := ignoreList;
    }

    /** os.Setenv, whose error the commands discard. */
    method Setenv(k: string, v: string)
      modifies this`env
      ensures env == if SetenvAccepts(k, v) then old(env)[k := v] else old(env)
    {
      if SetenvAccepts(k, v) {
        env := env[k := v];
      }
    }

    /** setPath (cmd/start.go:220-227). */
    method SetPath(entries: seq<string>)
      modifies this`env
      ensures env == PathApplied(old(env), entries)
    {
      var i := 0;
      while i < |entries|
        invariant 0 <= i <= |entries|
        invariant env == PathApplied(old(env), entries[..i])
      {
        assert entries[..i + 1][..i] == entries[..i];
        var split := SplitOnce(entries[i]);
        if split.Some? && IsPathKey(split.value.0) {
          Setenv(split.value.0, split.value.1);
        }
        i := i + 1;
      }
      assert entries[..|entries|] == entries;
    }

    /** The export loop of start (cmd/start.go:167-175). */
    method ExportAll(entries: seq<string>)
      modifies this`env
      ensures env == Exported(old(env), entries)
    {
      var i := 0;
      while i < |entries|
        invariant 0 <= i <= |entries|
        invariant env == Exported(old(env), entries[..i])
      {
        assert entries[..i + 1][..i] == entries[..i];
        var split := SplitOnce(entries[i]);
        if split.Some? {
          Setenv(split.value.0, split.value.1);
        }
        i := i + 1;
      }
      assert entries[..|entries|] == entries;
    }

    /** buildIgnorePaths (cmd/build.go:172-187). */
    method AddIgnorePaths(extra: seq<string>)
      modifies this`ignoreList
      ensures ignoreList == old(ignoreList) + IgnorePaths(extra)
    {
      var paths := IgnorePaths(extra);
      var i := 0;
      while i < |paths|
        invariant 0 <= i <= |paths|
        invariant ignoreList == old(ignoreList) + paths[..i]
      {
        assert paths[..i + 1] == paths[..i] + [paths[i]];
        ignoreList := ignoreList + [paths[i]];
        i := i + 1;
      }
      assert paths[..|paths|] == paths;
    }
  }

  class Host {
    var imageJson: Option<Document>
    var containerJson: Option<Document>
    var pidFile: Option<string>
    var passwd: Option<string>
    /** The pids a zero signal reaches. */
    var live: set<int>
    var dirs: set<string>
    /** How many times util.DeleteFilesystem has wiped the root filesystem. */
    var wipes: nat
    var signals: seq<Signal>
    const users: UserDb
    /** Paths the OS refuses to create, write or remove (EACCES). */
    const locked: set<Path>

    constructor (users: UserDb, locked: set<Path>, live: set<int>, dirs: set<string>)
      ensures this.users == users && this.locked == locked && this.live == live && this.dirs == dirs
      ensures imageJson.None? && containerJson.None? && pidFile.None? && passwd.None?
      ensures wipes == 0 && signals == []
      ensures Consistent()
    {
      this.users := users;
      this.locked := locked;
      this.live := live;
      this.dirs := dirs;
      imageJson, containerJson, pidFile, passwd := None, None, None, None;
      wipes, signals := 0, [];
    }

    /** isContainerRunning() on this host. */
    function Running(): bool
      reads this
    {
      IsContainerRunning(pidFile, live)
    }

    /** A pid file is only ever present together with container.json: start writes
        the config before the pid, stop removes the pid before the config. */
    predicate Consistent()
      reads this
    {
      pidFile.Some? ==> containerJson.Some?
    }

    /** The error of os.WriteFile on `p`, if it fails. */
    function WriteFailure(p: Path): Option<Error> {
      if p in locked then Some(Io("open", PathName(p), EACCES)) else None
    }

    /** The error of os.Remove on `p`, if it fails. */
    function RemoveFailure(p: Path, present: bool): Option<Error> {
      if !present then Some(Io("remove", PathName(p), ENOENT))
      else if p in locked then Some(Io("remove", PathName(p), EACCES))
      else None
    }

    /** BuildCmd.Run and BuildCmd.build (cmd/build.go:52-166). */
    method Build(p: Process, flags: BuildFlags, decode: string -> Option<seq<string>>, kaniko: Kaniko) returns (r: Result<BuildReport>)
      modifies this`imageJson, this`passwd, this`wipes, p`ignoreList, p`cwd
      ensures old(Consistent()) ==> Consistent()
      ensures old(imageJson).Some? ==> r == Ok(SkippedBuild) && unchanged(this) && unchanged(p)
      ensures old(imageJson).None? && ResolveBuild(flags, old(p.env), decode).Err? ==>
        r == Err(ResolveBuild(flags, old(p.env), decode).error) && unchanged(this) && unchanged(p)
      ensures old(imageJson).None? && ResolveBuild(flags, old(p.env), decode).Ok? ==>
        var q := ResolveBuild(flags, old(p.env), decode).value;
        var wiped := kaniko.initIgnoreList.Pass? && kaniko.deleteFilesystem.Pass?;
        && p.ignoreList == old(p.ignoreList) + IgnorePaths(q.ignorePaths)
        && (kaniko.initIgnoreList.Fail? ==> r == Err(Wrap("init ignore list", kaniko.initIgnoreList.cause)))
        && (kaniko.initIgnoreList.Pass? && kaniko.deleteFilesystem.Fail? ==> r == Err(Wrap("delete filesystem", kaniko.deleteFilesystem.cause)))
        && (!wiped ==> wipes == old(wipes) && imageJson == old(imageJson) && passwd == old(passwd) && p.cwd == old(p.cwd))
        && (wiped ==> wipes == old(wipes) + 1)
        && (wiped && q.context !in dirs ==>
              r == Err(Wrap("change dir", Io("chdir", q.context, ENOENT))) && imageJson == old(imageJson) && passwd == old(passwd) && p.cwd == old(p.cwd))
        && (wiped && q.context in dirs ==> p.cwd == q.context)
        && (wiped && q.context in dirs && kaniko.doBuild.Err? ==>
              && r == Err(kaniko.doBuild.error) && imageJson == old(imageJson)
              && passwd == (if Passwd in locked then old(passwd) else Some(PasswdFallback)))
        && (wiped && q.context in dirs && kaniko.doBuild.Ok? ==>
              && passwd == old(passwd)
              && (ImageConfig in locked ==> r == Err(Io("open", PathName(ImageConfig), EACCES)) && imageJson == old(imageJson))
              && (ImageConfig !in locked ==> r == Ok(BuiltImage) && imageJson == Some(Doc(kaniko.doBuild.value))))
      ensures r == Ok(BuiltImage) ==> imageJson.Some?
    {
      if imageJson.Some? {
        return Ok(SkippedBuild);
      }
      var resolved := ResolveBuild(flags, p.env, decode);
      if resolved.Err? {
        return Err(resolved.error);
      }
      var q := resolved.value;
      // build()
      p.AddIgnorePaths(q.ignorePaths);
      if kaniko.initIgnoreList.Fail? {
        return Err(Wrap("init ignore list", kaniko.initIgnoreList.cause));
      }
      if kaniko.deleteFilesystem.Fail? {
        return Err(Wrap("delete filesystem", kaniko.deleteFilesystem.cause));
      }
      wipes := wipes + 1;
      if q.context !in dirs {
        return Err(Wrap("change dir", Io("chdir", q.context, ENOENT)));
      }
      p.cwd := q.context;
      if kaniko.doBuild.Err? {
        // addPasswd, whose error is discarded
        if WriteFailure(Passwd).None? {
          passwd := Some(PasswdFallback);
        }
        return Err(kaniko.doBuild.error);
      }
      // back in Run: write image.json
      var e := WriteFailure(ImageConfig);
      if e.Some? {
        return Err(e.value);
      }
      imageJson := Some(Doc(kaniko.doBuild.value));
      r := Ok(BuiltImage);
    }

    /** StartCmd.Run (cmd/start.go:56-187) up to the spawn of the container's command,
        which the result describes. `mkdir` is the outcome of os.MkdirAll. */
    method Start(p: Process, flags: StartFlags, mkdir: Outcome) returns (r: Result<Started>)
      modifies this`containerJson, this`pidFile, this`dirs, p`env
      ensures old(Consistent()) ==> Consistent()
      ensures old(Running()) ==> r == Err(AlreadyRunning) && unchanged(this) && unchanged(p)
      ensures !old(Running()) && old(imageJson).None? ==>
        && r == (if flags.wait then Ok(Polling) else Err(Io("open", PathName(ImageConfig), ENOENT)))
        && unchanged(this) && unchanged(p)
      ensures !old(Running()) && old(imageJson) == Some(Unparsable) ==> r == Err(JsonSyntax) && unchanged(this) && unchanged(p)
      ensures !old(Running()) && old(imageJson).Some? && old(imageJson).value.Doc? ==>
        StartedFrom(p, old(imageJson).value.file, flags, mkdir, r)
      ensures r.Ok? && r.value.Spawned? ==> p.env == Exported(old(p.env), r.value.launch.env)
      ensures r.Ok? && r.value.Spawned? && p.pid in live && 0 < p.pid <= MaxInt64 ==> Running()
    {
      if Running() {
        return Err(AlreadyRunning);
      }
      if imageJson.None? {
        if flags.wait {
          return Ok(Polling);
        }
        return Err(Io("open", PathName(ImageConfig), ENOENT));
      }
      if imageJson.value.Unparsable? {
        return Err(JsonSyntax);
      }
      r := StartImage(p, imageJson.value.file, flags, mkdir);
      if r.Ok? && p.pid in live && 0 < p.pid <= MaxInt64 {
        RecordedPidRunning(p.pid, live);
      }
    }

    /** What start does once it has read the image's configuration `file`: each
        failing step returns its wrapped error and leaves the later steps undone. */
    twostate predicate StartedFrom(p: Process, file: ConfigFile, flags: StartFlags, mkdir: Outcome, new r: Result<Started>)
      reads this, p
    {
      var c := MergeConfig(file.config, flags);
      var made := file.config.workingDir == "" || mkdir.Pass?;
      var id := ResolveIdentity(users, c.user);
      && (!made ==> r == Err(Wrap("create workspace folder", mkdir.cause)) && unchanged(this) && unchanged(p))
      && (made ==> dirs == old(dirs) + (if file.config.workingDir == "" then {} else {file.config.workingDir}))
      && (made && id.Err? ==>
            r == Err(Wrap("get user", id.error)) && containerJson == old(containerJson) && pidFile == old(pidFile) && p.env == old(p.env))
      && (made && id.Ok? && CommandLine(c) == [] ==>
            r == Err(NoEntrypoint) && containerJson == old(containerJson) && pidFile == old(pidFile) && p.env == old(p.env))
      && (made && id.Ok? && CommandLine(c) != [] ==> Launched(p, file.(config := c), id.value, r))
    }

    /** What start does once the configuration `file` is merged and the user resolved:
        PATH is set, container.json then the pid are written, the container
        environment is exported, and argv is launched. */
    twostate predicate Launched(p: Process, file: ConfigFile, info: UserInfo, new r: Result<Started>)
      reads this, p
      requires CommandLine(file.config) != []
    {
      var c := file.config;
      var ce := ContainerEnv(info.home, c.env);
      var pathed := PathApplied(old(p.env), ce);
      && (ContainerConfig in locked ==>
            && r == Err(Wrap("write container config", Io("open", PathName(ContainerConfig), EACCES)))
            && containerJson == old(containerJson) && pidFile == old(pidFile) && p.env == pathed)
      && (ContainerConfig !in locked ==> containerJson == Some(Doc(file)))
      && (ContainerConfig !in locked && PidRecord in locked ==>
            r == Err(Wrap("write container pid", Io("open", PathName(PidRecord), EACCES))) && pidFile == old(pidFile) && p.env == pathed)
      && (ContainerConfig !in locked && PidRecord !in locked ==>
            && pidFile == Some(Itoa(p.pid))
            && p.env == Exported(pathed, ce)
            && r == Ok(Spawned(Launch(CommandLine(c)[0], CommandLine(c)[1..], c.workingDir, ce, info.credential))))
    }

    /** cmd/start.go:88-143: merge, working directory, user and command line. */
    method StartImage(p: Process, file: ConfigFile, flags: StartFlags, mkdir: Outcome) returns (r: Result<Started>)
      modifies this`containerJson, this`pidFile, this`dirs, p`env
      ensures old(Consistent()) ==> Consistent()
      ensures StartedFrom(p, file, flags, mkdir, r)
      ensures r.Ok? ==> r.value.Spawned? && pidFile == Some(Itoa(p.pid)) && p.env == Exported(old(p.env), r.value.launch.env)
    {
      var config := MergeFlags(file.config, flags);
      if file.config.workingDir != "" {
        if mkdir.Fail? {
          return Err(Wrap("create workspace folder", mkdir.cause));
        }
        dirs := dirs + {config.workingDir};
      }
      var info := GetUserInfo(users, config.user);
      if info.Err? {
        return Err(Wrap("get user", info.error));
      }
      var argv := config.entrypoint + config.cmd;
      if |argv| == 0 {
        return Err(NoEntrypoint);
      }
      r := WriteAndLaunch(p, file.(config := config), info.value);
    }

    /** cmd/start.go:145-186: PATH, the two files, the export and the command. */
    method WriteAndLaunch(p: Process, file: ConfigFile, info: UserInfo) returns (r: Result<Started>)
      requires CommandLine(file.config) != []
      modifies this`containerJson, this`pidFile, p`env
      ensures old(Consistent()) ==> Consistent()
      ensures Launched(p, file, info, r)
      ensures r.Ok? ==> r.value.Spawned? && pidFile == Some(Itoa(p.pid)) && p.env == Exported(old(p.env), r.value.launch.env)
    {
      var config := file.config;
      var argv := config.entrypoint + config.cmd;
      var containerEnv := ContainerEnv(info.home, config.env);
      p.SetPath(containerEnv);
      var e := WriteFailure(ContainerConfig);
      if e.Some? {
        return Err(Wrap("write container config", e.value));
      }
      containerJson := Some(Doc(file));
      e := WriteFailure(PidRecord);
      if e.Some? {
        return Err(Wrap("write container pid", e.value));
      }
      pidFile := Some(Itoa(p.pid));
      p.ExportAll(containerEnv);
      ExportSubsumesSetPath(old(p.env), containerEnv);
      r := Ok(Spawned(Launch(argv[0], argv[1..], config.workingDir, containerEnv, info.credential)));
    }

    /** StopCmd.Run (cmd/stop.go:32-69). */
    method Stop() returns (r: Outcome)
      modifies this`pidFile, this`containerJson, this`signals
      ensures old(Consistent()) ==> Consistent()
      ensures !old(Running()) ==> r == Fail(NotRunning) && unchanged(this)
      ensures old(Running()) ==>
        var pid := ParseInt(old(pidFile).value).value;
        && pid != 0 && pid != -1
        && signals == old(signals) + [Signal(pid, SIGTERM), Signal(pid, SIGKILL)]
        && (PidRecord in locked ==>
              && r == Fail(Wrap("remove pid file", Io("remove", PathName(PidRecord), EACCES)))
              && pidFile == old(pidFile) && containerJson == old(containerJson))
        && (PidRecord !in locked ==> pidFile.None?)
        && (PidRecord !in locked && old(containerJson).None? ==>
              r == Fail(Wrap("remove config file", Io("remove", PathName(ContainerConfig), ENOENT))) && containerJson.None?)
        && (PidRecord !in locked && old(containerJson).Some? && ContainerConfig in locked ==>
              r == Fail(Wrap("remove config file", Io("remove", PathName(ContainerConfig), EACCES))) && containerJson == old(containerJson))
        && (PidRecord !in locked && old(containerJson).Some? && ContainerConfig !in locked ==> r == Pass && containerJson.None?)
      ensures r == Pass ==> pidFile.None? && containerJson.None? && !Running()
      ensures old(Running()) && old(Consistent()) && PidRecord !in locked && ContainerConfig !in locked ==> r == Pass
    {
      if !Running() {
        return Fail(NotRunning);
      }
      // The pid file is present and parses (RunningHasPid), so the os.Stat, ReadFile
      // and Atoi of lines 39-52 succeed.
      var pid := ParseInt(pidFile.value).value;
      signals := signals + [Signal(pid, SIGTERM)];
      signals := signals + [Signal(pid, SIGKILL)];
      var e := RemoveFailure(PidRecord, pidFile.Some?);
      if e.Some? {
        return Fail(Wrap("remove pid file", e.value));
      }
      pidFile := None;
      e := RemoveFailure(ContainerConfig, containerJson.Some?);
      if e.Some? {
        return Fail(Wrap("remove config file", e.value));
      }
      containerJson := None;
      r := Pass;
    }

    /** ExecCmd.Run (cmd/exec.go:36-87) up to the spawn of `args`, which the result
        describes. */
    method Exec(p: Process, user: string, args: seq<string>) returns (r: Result<Launch>)
      modifies p`env
      ensures !old(Running()) ==> r == Err(NotRunning) && p.env == old(p.env)
      ensures Running() && Consistent() ==> r != Err(Wrap("read container config", Io("open", PathName(ContainerConfig), ENOENT)))
      ensures old(Running()) && containerJson.None? ==>
        r == Err(Wrap("read container config", Io("open", PathName(ContainerConfig), ENOENT))) && p.env == old(p.env)
      ensures old(Running()) && containerJson == Some(Unparsable) ==>
        r == Err(Wrap("parse container config", JsonSyntax)) && p.env == old(p.env)
      ensures old(Running()) && containerJson.Some? && containerJson.value.Doc? ==>
        var c := containerJson.value.file.config;
        var id := ResolveIdentity(users, if user != "" then user else c.user);
        && (id.Err? ==> r == Err(Wrap("get user", id.error)) && p.env == old(p.env))
        && (id.Ok? && args == [] ==> r == Err(NoEntrypoint) && p.env == old(p.env))
        && (id.Ok? && args != [] ==>
              var ce := ContainerEnv(id.value.home, c.env);
              r == Ok(Launch(args[0], args[1..], c.workingDir, ce, id.value.credential)) && p.env == PathApplied(old(p.env), ce))
    {
      if !Running() {
        return Err(NotRunning);
      }
      if containerJson.None? {
        return Err(Wrap("read container config", Io("open", PathName(ContainerConfig), ENOENT)));
      }
      if containerJson.value.Unparsable? {
        return Err(Wrap("parse container config", JsonSyntax));
      }
      var config := containerJson.value.file.config;
      if user != "" {
        config := config.(user := user);
      }
      var info := GetUserInfo(users, config.user);
      if info.Err? {
        return Err(Wrap("get user", info.error));
      }
      if |args| == 0 {
        return Err(NoEntrypoint);
      }
      var containerEnv := ContainerEnv(info.value.home, config.env);
      p.SetPath(containerEnv);
      r := Ok(Launch(args[0], args[1..], config.workingDir, containerEnv, info.value.credential));
    }

    /** RemoveCmd.Run (cmd/remove.go:30-46). */
    method Remove(p: Process, deleteFilesystem: Outcome) returns (r: Outcome)
      modifies this`imageJson, this`wipes, p`ignoreList
      ensures old(Consistent()) ==> Consistent()
      ensures old(Running()) ==> r == Fail(StillRunning) && unchanged(this) && unchanged(p)
      ensures !old(Running()) ==> p.ignoreList == old(p.ignoreList) + DefaultIgnorePaths
      ensures !old(Running()) && deleteFilesystem.Fail? ==>
        r == Fail(Wrap("error deleting filesystem", deleteFilesystem.cause)) && imageJson == old(imageJson) && wipes == old(wipes)
      ensures !old(Running()) && deleteFilesystem.Pass? ==>
        && wipes == old(wipes) + 1
        && (old(imageJson).None? ==> r == Fail(Io("remove", PathName(ImageConfig), ENOENT)) && imageJson.None?)
        && (old(imageJson).Some? && ImageConfig in locked ==> r == Fail(Io("remove", PathName(ImageConfig), EACCES)) && imageJson == old(imageJson))
        && (old(imageJson).Some? && ImageConfig !in locked ==> r == Pass && imageJson.None?)
    {
      if Running() {
        return Fail(StillRunning);
      }
      p.AddIgnorePaths([]);
      assert IgnorePaths([]) == DefaultIgnorePaths;
      if deleteFilesystem.Fail? {
        return Fail(Wrap("error deleting filesystem", deleteFilesystem.cause));
      }
      wipes := wipes + 1;
      var e := RemoveFailure(ImageConfig, imageJson.Some?);
      if e.Some? {
        return Fail(e.value);
      }
      imageJson := None;
      r := Pass;
    }
  }

  /** What the commands promise one another on one host: once start has launched
      the container from a live process, the container counts as running, a second
      start is refused, exec reaches past the running check, and a successful stop
      leaves nothing running. */
  method StartThenStartAgain(h: Host, p: Process, flags: StartFlags, argv: seq<string>)
    requires p.pid in h.live && 0 < p.pid <= MaxInt64 && h.Consistent()
    requires PidRecord !in h.locked && ContainerConfig !in h.locked
    modifies h, p
  {
    var started := h.Start(p, flags, Pass);
    if started.Ok? && started.value.Spawned? {
      assert h.Running() && h.Consistent();
      var again := h.Start(p, flags, Pass);
      assert again == Err(AlreadyRunning);
      var exec := h.Exec(p, "", argv);
      assert exec != Err(NotRunning);
      assert exec != Err(Wrap("read container config", Io("open", PathName(ContainerConfig), ENOENT)));
      StopThenStart(h, p, flags);
    }
  }

  /** Stopping a running container with writable files succeeds, and afterwards
      start is no longer refused as already running. */
  method StopThenStart(h: Host, p: Process, flags: StartFlags)
    requires h.Running() && h.Consistent()
    requires PidRecord !in h.locked && ContainerConfig !in h.locked
    modifies h, p
  {
    var stopped := h.Stop();
    assert stopped == Pass;
    assert !h.Running();
    var restart := h.Start(p, flags, Pass);
    assert restart != Err(AlreadyRunning);
  }
}
