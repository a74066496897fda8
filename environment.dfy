/** The container environment of start and exec (cmd/start.go:220-235) and the
    effect of os.Setenv on the dockerless process's own environment. */
module Environment {
  import opened Base
  import opened Text
  import opened KeyValue

  /** os.Getenv: the value, or "" when the variable is unset. */
  function Getenv(env: map<string, string>, key: string): (s: string)
    ensures key in env ==> s == env[key]
    ensures key !in env ==> s == ""
  {
    if key in env then env[key] else ""
  }

  /** os.Setenv succeeds unless the key is empty or holds '=' or NUL, or the value
      holds NUL; a refused call leaves the environment as it was. */
  predicate SetenvAccepts(k: string, v: string) {
    k != "" && '=' !in k && '\0' !in k && '\0' !in v
  }

  /** An entry split at its first '=' is refused by os.Setenv only for an empty key
      or a NUL somewhere in the entry. */
  lemma SplitEntryAccepted(e: string)
    requires SplitOnce(e).Some?
    ensures SetenvAccepts(SplitOnce(e).value.0, SplitOnce(e).value.1) <==> SplitOnce(e).value.0 != "" && '\0' !in e
  {
    var (k, v) := SplitOnce(e).value;
    assert e == k + "=" + v;
    if '\0' in e {
      var i :| 0 <= i < |e| && e[i] == '\0';
      if i < |k| {
        assert k[i] == '\0';
      } else {
        assert v[i - |k| - 1] == '\0';
      }
    }
    if '\0' in k {
      var i :| 0 <= i < |k| && k[i] == '\0';
      assert e[i] == '\0';
    }
    if '\0' in v {
      var i :| 0 <= i < |v| && v[i] == '\0';
      assert e[|k| + 1 + i] == '\0';
    }
  }

  /** The entries setPath applies: those whose key upper-cases to PATH. */
  predicate PathEntry(k: string, v: string) {
    IsPathKey(k) && SetenvAccepts(k, v)
  }

  /** getContainerEnv: HOME first, then the declared entries as they are. */
  function ContainerEnv(home: string, declared: seq<string>): (r: seq<string>)
    ensures |r| == |declared| + 1 && r[0] == "HOME=" + home
    ensures forall i :: 0 <= i < |declared| ==> r[i + 1] == declared[i]
  {
    ["HOME=" + home] + declared
  }

  /** The process environment after setPath(entries). */
  function PathApplied(env: map<string, string>, entries: seq<string>): map<string, string> {
    Assign(env, entries, PathEntry)
  }

  /** The process environment after os.Setenv of every "K=V" entry, in order. */
  function Exported(env: map<string, string>, entries: seq<string>): map<string, string> {
    Assign(env, entries, SetenvAccepts)
  }

  lemma {:induction false} WinnerPathKey(entries: seq<string>, k: string)
    requires IsPathKey(k)
    ensures Winner(entries, k, PathEntry) == Winner(entries, k, SetenvAccepts)
    decreases |entries|
  {
    if entries != [] {
      WinnerPathKey(entries[..|entries| - 1], k);
    }
  }

  lemma {:induction false} WinnerNonPathKey(entries: seq<string>, k: string)
    requires !IsPathKey(k)
    ensures Winner(entries, k, PathEntry) == None
    decreases |entries|
  {
    if entries != [] {
      WinnerNonPathKey(entries[..|entries| - 1], k);
    }
  }

  /** setPath changes no variable whose name is not PATH in some letter case. */
  lemma SetPathOnlyPath(env: map<string, string>, entries: seq<string>, k: string)
    requires !IsPathKey(k)
    ensures Get(PathApplied(env, entries), k) == Get(env, k)
  {
    AssignLookup(env, entries, PathEntry, k);
    WinnerNonPathKey(entries, k);
  }

  /** Exporting every entry after setPath ends in the same environment as exporting
      every entry alone: setPath's early PATH update is subsumed by start's loop. */
  lemma ExportSubsumesSetPath(env: map<string, string>, entries: seq<string>)
    ensures Exported(PathApplied(env, entries), entries) == Exported(env, entries)
  {
    forall k ensures Get(Exported(PathApplied(env, entries), entries), k) == Get(Exported(env, entries), k) {
      AssignLookup(PathApplied(env, entries), entries, SetenvAccepts, k);
      AssignLookup(env, entries, SetenvAccepts, k);
      AssignLookup(env, entries, PathEntry, k);
      if IsPathKey(k) {
        WinnerPathKey(entries, k);
      } else {
        WinnerNonPathKey(entries, k);
      }
    }
    MapsEqual(Exported(PathApplied(env, entries), entries), Exported(env, entries));
  }

  /** After start exports the container environment, HOME holds the value of the
      last declared HOME entry if there is one, and the resolved home otherwise: a
      declared HOME does override the resolved one in the process environment. */
  lemma ExportedHome(env: map<string, string>, home: string, declared: seq<string>)
    ensures Get(Exported(env, ContainerEnv(home, declared)), "HOME")
         == if Winner(declared, "HOME", SetenvAccepts).Some? then Winner(declared, "HOME", SetenvAccepts)
            else if SetenvAccepts("HOME", home) then Some(home) else Get(env, "HOME")
  {
    var first := "HOME" + "=" + home;
    assert first == "HOME=" + home;
    AssignLookup(env, ContainerEnv(home, declared), SetenvAccepts, "HOME");
    WinnerCons(first, declared, "HOME", SetenvAccepts);
    assert [first] == [] + [first];
    if SetenvAccepts("HOME", home) {
      WinnerAppend([], "HOME", home, SetenvAccepts);
    } else {
      SplitOnceJoin("HOME", home);
      WinnerAppendOther([], first, "HOME", SetenvAccepts);
    }
  }

  /** Building the environment from home "/h" and ["A=1", "PATH=/x"] gives
      ["HOME=/h", "A=1", "PATH=/x"], and PATH becomes "/x" in the process. */
  lemma PathExample(env: map<string, string>)
    ensures ContainerEnv("/h", ["A=1", "PATH=/x"]) == ["HOME=/h", "A=1", "PATH=/x"]
    ensures Get(PathApplied(env, ContainerEnv("/h", ["A=1", "PATH=/x"])), "PATH") == Some("/x")
    ensures Get(Exported(env, ContainerEnv("/h", ["A=1", "PATH=/x"])), "PATH") == Some("/x")
  {
    var es := ContainerEnv("/h", ["A=1", "PATH=/x"]);
    assert "HOME=" + "/h" == "HOME=/h";
    assert "PATH" + "=" + "/x" == "PATH=/x";
    assert es == ["HOME=/h", "A=1"] + ["PATH" + "=" + "/x"];
    assert IsPathKey("PATH");
    assert '=' !in "PATH" && '\0' !in "PATH" && '\0' !in "/x";
    WinnerAppend(["HOME=/h", "A=1"], "PATH", "/x", PathEntry);
    WinnerAppend(["HOME=/h", "A=1"], "PATH", "/x", SetenvAccepts);
    AssignLookup(env, es, PathEntry, "PATH");
    AssignLookup(env, es, SetenvAccepts, "PATH");
  }
}
