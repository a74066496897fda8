# dockerless lifecycle, modelled in Dafny

dockerless runs one container as an ordinary process inside an existing machine.
There is no daemon and no namespace. `build` uses kaniko to unpack an image into the
root filesystem and records the image's configuration in `/.dockerless/image.json`.
`start` merges that configuration with its flags and writes the result to
`/.dockerless/container.json`. It writes its own pid to `/.dockerless/pid` and then runs
the entrypoint in the foreground as the configured user.

The other commands work from those files:
- `exec` runs another command in the same environment.
- `stop` signals the recorded pid and removes the two container files.
- `remove` wipes the filesystem again and deletes `image.json`.
- `inspect` reports the two configurations.
- `main` turns the error a command returns into the process exit status.

The model has the following parts:

- `Base`: Option, Result and Outcome, and the errors the commands return. `Wrap(context, cause)` stands for `fmt.Errorf("context: %w", cause)`.
- `Text`: the Go library functions the commands rely on. These are `strings.SplitN(s, "=", 2)`, `strconv.Atoi` (optional sign, digits, int64 range, no trimming), `strconv.Itoa`, conversion to `uint32` (mod 2^32) and the ASCII upper-casing that recognises a PATH entry.
- `KeyValue`: a last-wins fold of `"K=V"` entries into a map. It is shared by three things: start's label loop, `setPath` and start's export of the container environment.
- `Environment`: `os.Getenv` and `os.Setenv` acceptance, `getContainerEnv`, and the process environment after `setPath` and after the export loop.
- `Config`: the configuration document and the merge start applies to it. The label loop is a method proved against its fold.
- `Identity`: `getUser` and `getUserInfo` over a user database value. The group-id loop is a method proved against its specification function.
- `Supervisor`: the running check (`isProcessRunning` and `isContainerRunning`) over the set of pids a zero signal reaches, and the child process a command launches.
- `BuildParams`: how build fills its flags from the environment, the paths it adds to kaniko's ignore list, and the fallback passwd line.
- `Inspect`: `inspect container|image` as a function of the files.
- `Exit`: `main`'s mapping from the returned error to the exit status and stderr.
- `Lifecycle`: two classes.
  - `Host` holds what outlives one invocation: the three files under `/.dockerless`, `/etc/passwd`, the live pids, the directories, the user database, the paths the OS refuses to write, a log of signals sent and a count of filesystem wipes.
  - `Process` is one dockerless invocation: its environment, working directory, kaniko ignore list and own pid.
  - build, start, stop, exec and remove are methods that update this state in the source's order, with every error branch the source has.

Calls into code that is not part of this model are parameters. Their outcomes are given
to the methods:
- `Kaniko` for kaniko's `InitIgnoreList`, `DeleteFilesystem` and `DoBuild`.
- `mkdir` for `os.MkdirAll`.
- `decode` for `json.Unmarshal` of the build-args variable.

File writes and removals fail with EACCES exactly on the host's `locked` paths. Removing an
absent file fails with ENOENT.

Three facts about the code shape the model:
- The pid start records is its own `os.Getpid()`. The container's command runs as its child.
- start exports every `K=V` entry of the container environment into its own process, not only PATH. A declared `HOME` entry therefore overrides the resolved home directory in the dockerless process (`ExportedHome`).
- `cmd/root.go` registers only `build` and `start`. The other commands are modelled as the code in their files defines them.

## Model

| member | source | states |
|---|---|---|
| Text.SplitOnce | cmd/start.go:105-106 | Splitting at the first '=' fails exactly when there is no '='; otherwise the key holds no '=' and key + "=" + value is the input |
| Text.SplitOnceJoin | cmd/start.go:169-170 | An entry built as key=value, with no '=' in the key, splits back into that key and value |
| Text.ParseInt | cmd/start.go:202-205 | strconv.Atoi accepts only an optional sign followed by digits, with no trimming, and only values in the int64 range |
| Text.Digits | cmd/start.go:162 | The decimal digits of n are all digits and have the value n |
| Text.ParseItoa | cmd/start.go:162 | strconv.Atoi reads back what strconv.Itoa wrote, for every int64 |
| Text.ParseRejectsNewline | cmd/start.go:190-192 | A pid text with a trailing newline never parses |
| Text.Itoa | cmd/start.go:162 | strconv.Itoa writes '-' for a negative number, then the decimal digits of its magnitude with no leading zero; 0 is written "0" |
| Text.PathKeySpellings | cmd/start.go:223 | strings.ToUpper(k) == "PATH" holds exactly for the sixteen letter-case spellings of PATH |
| Text.UpperAsciiInverse | cmd/start.go:223 | An upper-case letter comes only from itself or its lower-case form |
| Text.Uint32 | cmd/start.go:259 | uint32(x) lies in [0, 2^32), equals x when x is already in range, and is congruent to x mod 2^32 |
| KeyValue.Assign | cmd/start.go:104-109 | Folding entries into a map keeps every key already present |
| KeyValue.Winner | cmd/start.go:104-109 | The value a key ends with is accepted for that key and comes from an entry "key=value" of the input |
| KeyValue.AssignLookup | cmd/start.go:104-109 | After the fold, a key holds the value of its last accepted entry, or its old value when there is none |
| KeyValue.WinnerAppend | cmd/start.go:104-109 | An accepted entry appended last wins for its key |
| KeyValue.WinnerAppendOther | cmd/start.go:104-109 | An entry appended for another key, or one not accepted, changes no key's winner |
| KeyValue.WinnerCons | cmd/start.go:168-175 | A later entry for a key overrides an earlier one; an earlier entry matters only when no later one is accepted |
| KeyValue.MapsEqual | cmd/start.go:168-175 | Two environments that agree on every lookup are equal |
| Environment.Getenv | cmd/build.go:62 | os.Getenv gives the value, or "" when the variable is unset |
| Environment.SplitEntryAccepted | cmd/start.go:168-174 | os.Setenv refuses a split K=V entry only when its key is empty or the entry holds NUL |
| Environment.ContainerEnv | cmd/start.go:229-235 | The container environment is HOME=<home> followed by the declared entries, unchanged and in order |
| Environment.WinnerPathKey | cmd/start.go:220-227 | For a key that upper-cases to PATH, setPath picks the same winner as exporting every entry |
| Environment.WinnerNonPathKey | cmd/start.go:223 | setPath assigns no key that does not upper-case to PATH |
| Environment.SetPathOnlyPath | cmd/start.go:220-227 | setPath leaves every variable whose name is not PATH in some letter case unchanged |
| Environment.ExportSubsumesSetPath | cmd/start.go:146-175 | Exporting every entry after setPath gives the same process environment as exporting them alone |
| Environment.ExportedHome | cmd/start.go:168-175 | After the export, HOME is the last declared HOME entry os.Setenv accepts, or the resolved home when there is none |
| Environment.PathExample | cmd/start.go:229-235 | For home /h and [A=1, PATH=/x], the environment is [HOME=/h, A=1, PATH=/x] and PATH becomes /x |
| Config.AddLabels | cmd/start.go:98-110 | The label loop yields the last-wins fold of the given labels over the image's labels, creating the map only when labels are given |
| Config.MergeFlags | cmd/start.go:88-123 | The merge steps of start compute exactly the specified merged configuration |
| Config.MergeConfig | cmd/start.go:88-123 | An empty working directory becomes "/" and a non-empty one is kept; the env is the image's followed by --env; labels exist iff the image had some or labels were given |
| Config.MergeOverrides | cmd/start.go:88-118 | Entrypoint, cmd and user are each replaced only when the flag is given; labels are untouched without --labels |
| Config.MergeWithoutOverrides | cmd/start.go:88-123 | With no flags the merge changes only an empty working directory, to "/" |
| Config.MergedLabelLookup | cmd/start.go:99-110 | After the merge, a label holds its last given value, or the image's value when none was given |
| Config.CommandLine | cmd/start.go:138-140 | The command line is the entrypoint followed by the cmd, nothing else |
| Config.CommandLineEmpty | cmd/start.go:137-143 | The command line is empty exactly when entrypoint and cmd are empty in both the flags and the image |
| Identity.GetUser | cmd/start.go:276-287 | "" means root; a reference that parses as an integer gives the account of that id or an unknown-id error, any other the account of that name or an unknown-user error |
| Identity.EmptyUserIsRoot | cmd/start.go:277-279 | Looking up "" is looking up "root" |
| Identity.ParsedGroupIds | cmd/start.go:253-262 | The kept group ids are at most as many as the account's, and each is a uint32 |
| Identity.ParsedGroupIdsSound | cmd/start.go:256-260 | Every kept group id is the uint32 of an account group id that parses |
| Identity.ParsedGroupIdsComplete | cmd/start.go:256-260 | When every group id parses, all are kept, in order |
| Identity.ParsedGroupIdsAppend | cmd/start.go:256-260 | The kept ids of a list are those of its first part followed by those of its second, so an id that parses is kept in its place whatever surrounds it |
| Identity.ParsedGroupIdsSingle | cmd/start.go:257-260 | One id is kept, as its uint32, exactly when it parses |
| Identity.ResolveIdentity | cmd/start.go:237-274 | Lookup errors pass through; an unparsable uid, then gid, gives its wrapped parse error; otherwise the home is the account's or "/root" when empty, uid and gid are the uint32 of the parsed numbers, and the groups are the kept group ids, or none when GroupIds() fails |
| Identity.NumericNameById | cmd/start.go:282-285 | A numeric reference resolves only through the id table, and fails with an unknown-id error when the id is absent |
| Identity.ParseGroupIds | cmd/start.go:253-262 | The group-id loop computes exactly the specified list of kept ids |
| Identity.GetUserInfo | cmd/start.go:237-274 | getUserInfo returns exactly the specified resolution: the errors, the /root fallback and the credential values stated for ResolveIdentity |
| Supervisor.IsProcessRunning | cmd/start.go:201-218 | A pid text that does not parse is an error naming it; otherwise the process runs iff the parsed pid is neither 0 nor -1 (which os.Process.Signal refuses) and the zero signal reaches it |
| Supervisor.IsContainerRunning | cmd/start.go:189-199 | The container runs iff the pid file exists and parses to a pid other than 0 and -1 that the zero signal reaches |
| Supervisor.UnprobedPidsNeverRun | cmd/start.go:207-214 | A pid file holding "0" or "-1" never reads as running |
| Supervisor.RecordedPidRunning | cmd/start.go:162 | The pid start writes reads as running while that process is live |
| Supervisor.NewlineNeverRunning | cmd/start.go:189-199 | A pid file ending in a newline never reads as running |
| Supervisor.RunningHasPid | cmd/stop.go:34-52 | When the container runs, the pid file is present and parses to a pid other than 0 and -1, so stop's later stat, read and parse succeed |
| Supervisor.Wait | cmd/start.go:186 | Running the child fails exactly when it did not exit with status 0: a non-zero status gives an exit error with that code, a signal one with code -1, a failed start its own error |
| BuildParams.FlagOrEnv | cmd/build.go:61-75 | An empty flag takes its environment variable; a given one is kept |
| BuildParams.ResolveBuild | cmd/build.go:60-81 | Build proceeds iff dockerfile and context are non-empty after the fallback, with dockerfile checked first; build args come from the variable only when none were given and it decodes |
| BuildParams.IgnorePaths | cmd/build.go:172-180 | The ignore paths are the five defaults followed by the extra paths |
| Inspect.Inspect | cmd/inspect.go:31-89 | Usage error iff the target is neither container nor image; an absent file gives an empty list; an unparsable one a parse error; a parsed one exactly one entry with its id and config (and, for a container, its creation time and a status that is running iff the running check holds) |
| Inspect.StatusIsRunningCheck | cmd/inspect.go:50-53 | The reported status is "running" exactly when the running check holds, and "exited" otherwise |
| Exit.ExitCodeThroughWraps | main.go:24-25 | errors.As finds the child's exit error through any chain of %w wrapping |
| Exit.ExitOf | main.go:22-35 | The exit status is in 0..255: 0 on success, the child's exit code (low 8 bits) with nothing printed, or 1 with the error printed |
| Exit.ChildCodesNonZero | main.go:24-27 | A child exit code found through the wrap chain never yields status 0 |
| Exit.WaitChildCodes | cmd/start.go:186 | An error from running a child whose status is 0-255 carries only a non-zero status or -1 |
| Exit.ZeroExactlyOnSuccess | main.go:22-35 | dockerless exits 0 exactly when the command returned no error |
| Exit.ChildStatusPropagates | main.go:24-27 | A child's exit status becomes dockerless's, a signal gives 255, a child that did not start gives 1 |
| Lifecycle.Process.Setenv | cmd/start.go:174 | The os.Setenv call of the export and setPath loops sets the variable when the key is non-empty without '=' or NUL and the value has no NUL, and otherwise leaves the environment as it was |
| Lifecycle.Process.SetPath | cmd/start.go:220-227 | The setPath loop leaves the environment as the PATH-only fold of the entries |
| Lifecycle.Process.ExportAll | cmd/start.go:167-175 | The export loop leaves the environment as the fold of every entry os.Setenv accepts |
| Lifecycle.Process.AddIgnorePaths | cmd/build.go:172-187 | The ignore list gains the five defaults then the extra paths, in order, and nothing else |
| Lifecycle.Host.Build | cmd/build.go:52-166 | Skips when image.json exists; otherwise resolves flags, extends the ignore list, and stops at the first failing step (init, wipe, chdir, build, write) with its wrapped error; a failed build writes the fallback passwd; success records the image config |
| Lifecycle.Host.Start | cmd/start.go:56-187 | Refuses when running; polls or fails without image.json; fails on bad JSON; then merges, creates the work dir, resolves the user, requires a command, sets PATH, writes container.json then the pid, exports the env, and launches argv with that env and credential; after a launch the process env is the export of the container env, a launched start from a live pid runs, and consistency is kept |
| Lifecycle.Host.StartImage | cmd/start.go:88-143 | After the image is read: a failed MkdirAll, user lookup or empty command line returns its error with no file written; otherwise the write-and-launch stage follows |
| Lifecycle.Host.WriteAndLaunch | cmd/start.go:145-186 | PATH is set first; container.json is written before the pid, each failed write returns its wrapped error and stops; on success the pid file holds the own pid and the env is exported |
| Lifecycle.Host.Stop | cmd/stop.go:32-69 | Refuses when not running; otherwise sends TERM then KILL to the recorded pid and removes the pid file then container.json, failing at the first removal that fails; the signalled pid is never 0 or -1; with both files writable and the pid file accompanied by container.json stop succeeds; on success neither file exists and nothing runs |
| Lifecycle.Host.Exec | cmd/exec.go:36-87 | Refuses when not running; reads and parses container.json, resolves the user (a --user overrides), requires a command, sets PATH, and launches it in the container's env and working directory; while the pid file is accompanied by container.json, reading it never fails |
| Lifecycle.Host.Remove | cmd/remove.go:30-46 | Refuses while running; extends the ignore list with the defaults, wipes, then removes image.json, reporting ENOENT when it is absent |

## Left out

- Kaniko itself is left out. That covers ignore-list detection, the filesystem wipe, the image build and unpacking, and the registry and TLS options. Its outcomes are parameters, and a wipe is only counted; which files it deletes is not modelled.
- image.ConfigFile() failing after a successful DoBuild is left out. The build outcome is the config file or the DoBuild error.
- JSON encoding and decoding are left out. A configuration file is either a parsed document or unparsable, and the marshal errors of start, build and printObj cannot be reached.
- Lifecycle.Host.Start: with --wait and no image.json, the model returns `Polling` after one read. It does not model the one-second sleep loop that repeats the read.
- Lifecycle.Host.Stop: the sleep between the two signals and the signals' effect on the live pids are left out. The signals are logged, and which pids are live is a parameter of the host.
- The re-stat, re-read and re-parse of the pid file in stop (cmd/stop.go:38-52) cannot fail after the running check in a sequential model (`RunningHasPid`). So the model has no branches for them.
- Races with other processes between the running check and the writes are left out.
- signal.NotifyContext and the release of its stop function in main are left out. They carry no state the commands read.
- Cobra flag parsing and command registration are left out. The flag values are the inputs of each method.
- Printing is left out: build's "skip building" message, inspect's JSON output and the stderr line. The exit status and the printed error are modelled by `Exit.ExitOf`.
- Spawning and waiting for the child are left out: stdio wiring, executable lookup along PATH and running as the credential. Start and Exec return the `Launch` they would run, and `Supervisor.Wait` maps how the child ended to the returned error.
- os.MkdirAll is a parameter. A created working directory is added to the host's directories, and chdir in build fails exactly on a directory the host does not have.
- File reads never fail for permission reasons. Only writes and removals of `locked` paths fail.
- The error of `getContainerEnv` (cmd/start.go:147-149) can never be non-nil, so the model has no branch for it.
