/**
 * The shell runner (src/os_heat_agent/runners/shell.py): runs a deployment's
 * script with one of the configured interpreters, either inline (`bash -c
 * <script>`) or from a temporary file it writes in `pre` and deletes in
 * `post`. The module-global table of enabled interpreters is the state of a
 * ShellRunner object, rebuilt by Init.
 */
module Shell {
  import opened Wrappers
  import opened Errors
  import opened Dicts
  import opened Values
  import opened FileSystems
  import opened Runners

  /** The deployment classes this runner accepts. */
  const SupportedConfigs: seq<string> := ["SoftwareConfig", "StructuredConfig", "SoftwareComponent"]

  /** The flag each known interpreter takes before an inline script. */
  const KnownModifiers: Dict<string> := [("bash", "-c"), ("python", "-e")]

  /** The configuration section that lists the interpreters. */
  const RunnersSection := "tools.shell.runners"

  function Supports(kind: string): (r: bool)
    ensures r <==> kind == "SoftwareConfig" || kind == "StructuredConfig" || kind == "SoftwareComponent"
  {
    kind in SupportedConfigs
  }

  /** An interpreter passes init's checks: the path exists, is a regular file and is executable. */
  predicate Usable(disk: Disk, path: string) {
    disk.Exists(path) && disk.IsFile(path) && disk.IsExecutable(path)
  }

  /**
   * The table init builds from the configured (name, path) pairs, taken in
   * order: each usable pair is entered, a later pair for the same name
   * overriding an earlier one.
   */
  function EnabledFrom(configured: Dict<string>, disk: Disk): (r: Dict<string>)
    ensures Wf(r)
    ensures forall n :: Get(r, n).Some? ==> (n, Get(r, n).value) in configured && Usable(disk, Get(r, n).value)
  {
    if |configured| == 0 then []
    else
      var prev := EnabledFrom(configured[..|configured| - 1], disk);
      var (name, path) := configured[|configured| - 1];
      if Usable(disk, path) then SetWf(prev, name, path); Set(prev, name, path) else prev
  }

  /** Every usable interpreter of a well-formed configuration is enabled under its own name. */
  lemma {:induction false} EnabledComplete(configured: Dict<string>, disk: Disk, name: string, path: string)
    requires Wf(configured)
    requires (name, path) in configured && Usable(disk, path)
    ensures Get(EnabledFrom(configured, disk), name) == Some(path)
  {
    var last := configured[|configured| - 1];
    var init := configured[..|configured| - 1];
    assert configured == init + [last];
    if last != (name, path) {
      assert (name, path) in init;
      var i :| 0 <= i < |init| && init[i] == (name, path);
      assert Keys(configured)[i] == name && Keys(configured)[|configured| - 1] == last.0;
      InitWf(configured);
      EnabledComplete(init, disk, name, path);
    }
  }

  /** Dropping the last pair of a well-formed configuration keeps it well-formed. */
  lemma InitWf(configured: Dict<string>)
    requires Wf(configured) && |configured| > 0
    ensures Wf(configured[..|configured| - 1])
  {
    var init := configured[..|configured| - 1];
    forall a, b | 0 <= a < b < |init| ensures Keys(init)[a] != Keys(init)[b] {
      assert Keys(init)[a] == Keys(configured)[a] && Keys(init)[b] == Keys(configured)[b];
    }
  }

  /** init finds no interpreter exactly when no configured path is usable. */
  lemma {:induction false} EnabledEmpty(configured: Dict<string>, disk: Disk)
    ensures EnabledFrom(configured, disk) == [] <==> forall i :: 0 <= i < |configured| ==> !Usable(disk, configured[i].1)
  {
    if |configured| > 0 {
      var init := configured[..|configured| - 1];
      EnabledEmpty(init, disk);
      assert forall i :: 0 <= i < |init| ==> init[i] == configured[i];
    }
  }

  class ShellRunner {
    /** enabled_runners: interpreter name to the path of its executable. */
    var enabledRunners: Dict<string>

    constructor ()
      ensures enabledRunners == []
    {
      enabledRunners := [];
    }

    /**
     * init: discards the previous table and rebuilds it from the configured
     * section (None when the section is missing), checking each path in turn.
     */
    method Init(configured: Option<Dict<string>>, disk: Disk) returns (r: Result<(), Error>)
      modifies this
      ensures configured.None? ==> enabledRunners == [] && r == Failure(KeyError(RunnersSection))
      ensures configured.Some? ==> enabledRunners == EnabledFrom(configured.value, disk)
      ensures configured.Some? ==> r == if enabledRunners == [] then Failure(NoEnabledRunners) else Success(())
    {
      enabledRunners := [];
      if configured.None? {
        return Failure(KeyError(RunnersSection));
      }
      var pairs := configured.value;
      var i := 0;
      while i < |pairs|
        invariant 0 <= i <= |pairs|
        invariant enabledRunners == EnabledFrom(pairs[..i], disk)
      {
        var (name, path) := pairs[i];
        assert pairs[..i + 1][..i] == pairs[..i];
        if !disk.Exists(path) {
        } else if !disk.IsFile(path) {
        } else if !disk.IsExecutable(path) {
        } else {
          enabledRunners := Set(enabledRunners, name, path);
        }
        i := i + 1;
      }
      assert pairs[..|pairs|] == pairs;
      r := if enabledRunners == [] then Failure(NoEnabledRunners) else Success(());
    }

    /** normalize: checks data against the table and, on success, records the interpreter's path under "runner". */
    method Normalize(data: Manifest) returns (r: Result<(), Error>)
      modifies data
      ensures NormalizeSpec(old(data.entries), enabledRunners).Success? ==>
        r.Success? && data.entries == NormalizeSpec(old(data.entries), enabledRunners).value
      ensures NormalizeSpec(old(data.entries), enabledRunners).Failure? ==>
        data.entries == old(data.entries) && r == Failure(NormalizeSpec(old(data.entries), enabledRunners).error)
    {
      var group := Get(data.entries, "group");
      if group.None? || !group.value.VList? {
        return Failure(MissingRunner);
      }
      var items := group.value.items;
      if |items| == 0 {
        return Failure(IndexError);
      }
      if !Hashable(items[0]) {
        return Failure(TypeError);
      }
      if !items[0].VStr? || !HasKey(enabledRunners, items[0].s) {
        return Failure(MissingRunner);
      }
      if !Truthy(Lookup(data.entries, "command", VNone)) {
        return Failure(RunnerError);
      }
      data.entries := Set(data.entries, "runner", VPath(Get(enabledRunners, items[0].s).value));
      r := Success(());
    }

    /**
     * run: normalizes data, builds the command and runs it with a copy of the
     * caller's environment that also carries the agent's PATH.
     */
    method Run(data: Manifest, environment: Dict<Value>, hostPath: string, exec: Exec) returns (r: Result<Output, Error>)
      modifies data
      ensures (data.entries, r) == RunSpec(old(data.entries), enabledRunners, environment, hostPath, exec)
    {
      var n := Normalize(data);
      if n.Failure? {
        return Failure(n.error);
      }
      NormalizePrepares(old(data.entries), enabledRunners);
      var cmd := Command(data);
      if cmd.Failure? {
        return Failure(cmd.error);
      }
      var env := ExecEnvironment(environment, hostPath);
      r := Success(exec(cmd.value, env));
    }
  }

  /** normalize's checks, in the order the source makes them, and the dict it leaves on success. */
  function NormalizeSpec(data: Dict<Value>, enabled: Dict<string>): (r: Result<Dict<Value>, Error>)
    ensures Get(data, "group").None? ==> r == Failure(MissingRunner)
    ensures Get(data, "group").Some? && !Get(data, "group").value.VList? ==> r == Failure(MissingRunner)
    ensures Get(data, "group").Some? && Get(data, "group").value.VList? && |Get(data, "group").value.items| == 0 ==> r == Failure(IndexError)
    ensures var g := Get(data, "group");
      g.Some? && g.value.VList? && |g.value.items| > 0 && g.value.items[0].VStr? ==>
        && (!HasKey(enabled, g.value.items[0].s) ==> r == Failure(MissingRunner))
        && (HasKey(enabled, g.value.items[0].s) && !Truthy(Lookup(data, "command", VNone)) ==> r == Failure(RunnerError))
    ensures var g := Get(data, "group");
      g.Some? && g.value.VList? && |g.value.items| > 0 && !g.value.items[0].VStr? ==>
        && (!Hashable(g.value.items[0]) ==> r == Failure(TypeError))
        && (Hashable(g.value.items[0]) ==> r == Failure(MissingRunner))
  {
    match Get(data, "group")
    case None => Failure(MissingRunner)
    case Some(g) =>
      if !g.VList? then Failure(MissingRunner)
      else if |g.items| == 0 then Failure(IndexError)
      else if !Hashable(g.items[0]) then Failure(TypeError)
      else if !g.items[0].VStr? || !HasKey(enabled, g.items[0].s) then Failure(MissingRunner)
      else if !Truthy(Lookup(data, "command", VNone)) then Failure(RunnerError)
      else Success(Set(data, "runner", VPath(Get(enabled, g.items[0].s).value)))
  }

  /**
   * normalize succeeds exactly when the group is a list headed by the name of
   * an enabled interpreter and the command is non-empty; it then adds the path
   * of that interpreter under "runner" and changes no other key.
   */
  lemma NormalizeSucceeds(data: Dict<Value>, enabled: Dict<string>, name: string)
    requires Get(data, "group").Some? && Get(data, "group").value.VList?
    requires |Get(data, "group").value.items| > 0 && Get(data, "group").value.items[0] == VStr(name)
    ensures NormalizeSpec(data, enabled).Success? <==> HasKey(enabled, name) && Truthy(Lookup(data, "command", VNone))
    ensures NormalizeSpec(data, enabled).Success? ==>
      var d := NormalizeSpec(data, enabled).value;
      Get(d, "runner") == Some(VPath(Get(enabled, name).value)) &&
      forall k :: k != "runner" ==> Get(d, k) == Get(data, k)
    ensures NormalizeSpec(data, enabled).Success? && Wf(data) ==> Wf(NormalizeSpec(data, enabled).value)
  {
    if NormalizeSpec(data, enabled).Success? && Wf(data) {
      SetWf(data, "runner", VPath(Get(enabled, name).value));
    }
  }

  /** What command needs of the dict: a runner path and a group list headed by a name. */
  predicate Prepared(data: Dict<Value>) {
    && Get(data, "runner").Some? && Get(data, "runner").value.VPath?
    && Get(data, "group").Some? && Get(data, "group").value.VList?
    && |Get(data, "group").value.items| > 0 && Get(data, "group").value.items[0].VStr?
  }

  /** A dict normalize accepts is ready for command. */
  lemma NormalizePrepares(data: Dict<Value>, enabled: Dict<string>)
    requires NormalizeSpec(data, enabled).Success?
    ensures Prepared(NormalizeSpec(data, enabled).value)
  {
  }

  /** Normalizing twice is normalizing once: the second pass finds the same interpreter and rewrites the same path. */
  lemma NormalizeIdempotent(data: Dict<Value>, enabled: Dict<string>)
    requires NormalizeSpec(data, enabled).Success?
    ensures NormalizeSpec(NormalizeSpec(data, enabled).value, enabled) == NormalizeSpec(data, enabled)
  {
    var g := Get(data, "group").value;
    var d := NormalizeSpec(data, enabled).value;
    var path := VPath(Get(enabled, g.items[0].s).value);
    assert Get(d, "group") == Get(data, "group");
    assert Lookup(d, "command", VNone) == Lookup(data, "command", VNone);
    SetPresent(d, "runner", path);
  }

  /**
   * The argument vector command builds: the interpreter's path followed by the
   * temporary file's name when serialized, else by the interpreter's inline
   * flag and the command text as given.
   */
  function CommandSpec(data: Dict<Value>): (r: Result<seq<string>, Error>)
    requires Prepared(data)
    ensures r.Success? ==> |r.value| >= 2 && r.value[0] == Get(data, "runner").value.path
    ensures Truthy(Lookup(data, "serialize", VNone)) ==>
      (r.Success? <==> Get(data, "filehandle").Some? && Get(data, "filehandle").value.VFile?)
    ensures Truthy(Lookup(data, "serialize", VNone)) && r.Success? ==>
      r.value == [Get(data, "runner").value.path, Get(data, "filehandle").value.name]
    ensures !Truthy(Lookup(data, "serialize", VNone)) && r.Success? ==>
      && |r.value| == 3
      && Get(KnownModifiers, Get(data, "group").value.items[0].s) == Some(r.value[1])
      && Get(data, "command").Some? && Echoed(Get(data, "command").value) == Success(r.value[2])
  {
    var runner := Get(data, "runner").value.path;
    if Truthy(Lookup(data, "serialize", VNone)) then FileCommand(runner, data)
    else InlineCommand(runner, Get(data, "group").value.items[0].s, data)
  }

  /** The serialized form: the interpreter reads the script from the temporary file pre wrote. */
  function FileCommand(runner: string, data: Dict<Value>): (r: Result<seq<string>, Error>)
    ensures r.Success? <==> Get(data, "filehandle").Some? && Get(data, "filehandle").value.VFile?
    ensures r.Success? ==> r.value == [runner, Get(data, "filehandle").value.name]
    ensures Get(data, "filehandle").None? ==> r == Failure(KeyError("filehandle"))
  {
    match Get(data, "filehandle")
    case None => Failure(KeyError("filehandle"))
    case Some(h) => if h.VFile? then Success([runner, h.name]) else Failure(AttributeError)
  }

  /** The inline form: the interpreter's flag, then the script text. */
  function InlineCommand(runner: string, name: string, data: Dict<Value>): (r: Result<seq<string>, Error>)
    ensures r.Success? <==> HasKey(KnownModifiers, name) && Get(data, "command").Some? && Echoed(Get(data, "command").value).Success?
    ensures r.Success? ==>
      && |r.value| == 3 && r.value[0] == runner
      && Get(KnownModifiers, name) == Some(r.value[1])
      && Echoed(Get(data, "command").value) == Success(r.value[2])
    ensures !HasKey(KnownModifiers, name) ==> r == Failure(KeyError(name))
    ensures HasKey(KnownModifiers, name) && Get(data, "command").None? ==> r == Failure(KeyError("command"))
  {
    match Get(KnownModifiers, name)
    case None => Failure(KeyError(name))
    case Some(flag) =>
      match Get(data, "command")
      case None => Failure(KeyError("command"))
      case Some(c) =>
        match Echoed(c)
        case Failure(e) => Failure(e)
        case Success(text) => Success([runner, flag, text])
  }

  /** Inline scripts reach the interpreter after its flag, character for character. */
  lemma CommandInline(data: Dict<Value>, flag: string, script: string)
    requires Prepared(data) && !Truthy(Lookup(data, "serialize", VNone))
    requires Get(KnownModifiers, Get(data, "group").value.items[0].s) == Some(flag)
    requires Get(data, "command") == Some(VStr(script))
    ensures CommandSpec(data) == Success([Get(data, "runner").value.path, flag, script])
  {
  }

  /** The two interpreters' inline flags: bash takes -c and python -e; no other name has one. */
  lemma KnownFlags(name: string)
    ensures Get(KnownModifiers, "bash") == Some("-c")
    ensures Get(KnownModifiers, "python") == Some("-e")
    ensures HasKey(KnownModifiers, name) <==> name == "bash" || name == "python"
  {
  }

  /** A serialized script is run from the file pre wrote: the interpreter's path, then the file's name. */
  lemma CommandSerialized(data: Dict<Value>, file: string)
    requires Prepared(data) && Truthy(Lookup(data, "serialize", VNone))
    requires Get(data, "filehandle") == Some(VFile(file))
    ensures CommandSpec(data) == Success([Get(data, "runner").value.path, file])
  {
  }

  /** command, building the list by appending. */
  method Command(data: Manifest) returns (r: Result<seq<string>, Error>)
    requires Prepared(data.entries)
    ensures r == CommandSpec(data.entries)
  {
    var d := data.entries;
    var runner := Get(d, "runner").value.path;
    if Truthy(Lookup(d, "serialize", VNone)) {
      r := FileArgv(runner, d);
    } else {
      r := InlineArgv(runner, Get(d, "group").value.items[0].s, d);
    }
  }

  /** The serialized argv, appended element by element. */
  method FileArgv(runner: string, d: Dict<Value>) returns (r: Result<seq<string>, Error>)
    ensures r == FileCommand(runner, d)
  {
    var cmd := [runner];
    var h := Get(d, "filehandle");
    if h.None? {
      return Failure(KeyError("filehandle"));
    }
    if !h.value.VFile? {
      return Failure(AttributeError);
    }
    cmd := cmd + [h.value.name];
    assert cmd == [runner, h.value.name];
    r := Success(cmd);
  }

  /** The inline argv, appended element by element. */
  method InlineArgv(runner: string, name: string, d: Dict<Value>) returns (r: Result<seq<string>, Error>)
    ensures r == InlineCommand(runner, name, d)
  {
    var cmd := [runner];
    var flag := Get(KnownModifiers, name);
    if flag.None? {
      return Failure(KeyError(name));
    }
    cmd := cmd + [flag.value];
    var c := Get(d, "command");
    if c.None? {
      return Failure(KeyError("command"));
    }
    var text := Echoed(c.value);
    if text.Failure? {
      return Failure(text.error);
    }
    cmd := cmd + [text.value];
    assert cmd == [runner, flag.value, text.value];
    r := Success(cmd);
  }

  /** The child's environment: a copy of the caller's with PATH set to the agent's own. */
  function ExecEnvironment(environment: Dict<Value>, hostPath: string): (env: Dict<Value>)
    ensures Get(env, "PATH") == Some(VStr(hostPath))
    ensures forall k :: k != "PATH" ==> Get(env, k) == Get(environment, k)
  {
    Set(environment, "PATH", VStr(hostPath))
  }

  /** run: normalize, command, then the process with the extended environment. */
  function RunSpec(data: Dict<Value>, enabled: Dict<string>, environment: Dict<Value>, hostPath: string, exec: Exec): (r: (Dict<Value>, Result<Output, Error>))
    ensures NormalizeSpec(data, enabled).Failure? ==> r == (data, Failure(NormalizeSpec(data, enabled).error))
    ensures NormalizeSpec(data, enabled).Success? ==> r.0 == NormalizeSpec(data, enabled).value
    ensures r.1.Success? ==>
      && Prepared(r.0) && CommandSpec(r.0).Success?
      && r.1.value == exec(CommandSpec(r.0).value, ExecEnvironment(environment, hostPath))
  {
    match NormalizeSpec(data, enabled)
    case Failure(e) => (data, Failure(e))
    case Success(d) =>
      NormalizePrepares(data, enabled);
      match CommandSpec(d)
      case Failure(e) => (d, Failure(e))
      case Success(cmd) => (d, Success(exec(cmd, ExecEnvironment(environment, hostPath))))
  }

  /**
   * pre: when "serialize" is truthy, writes the command to a new temporary
   * file and keeps its handle under "filehandle"; otherwise does nothing.
   */
  function PreSpec(data: Dict<Value>, disk: Disk, tempName: string): (s: Step<bool>)
    ensures s.result == Success(true) <==> Truthy(Lookup(data, "serialize", VBool(false))) && Get(data, "command").Some? && Get(data, "command").value.VStr?
    ensures s.result == Success(true) ==>
      s.entries == Set(data, "filehandle", VFile(tempName)) && s.disk == disk.Write(tempName, Get(data, "command").value.s)
    ensures s.result != Success(true) ==> s.entries == data && s.disk == disk
    ensures s.result == Success(false) <==> !Truthy(Lookup(data, "serialize", VBool(false)))
  {
    if Truthy(Lookup(data, "serialize", VBool(false))) then
      match Get(data, "command")
      case None => Step(data, disk, Failure(KeyError("command")))
      case Some(c) =>
        if c.VStr? then Step(Set(data, "filehandle", VFile(tempName)), disk.Write(tempName, c.s), Success(true))
        else Step(data, disk, Failure(TypeError))
    else Step(data, disk, Success(false))
  }

  /**
   * post: when "filehandle" is truthy, closes the file (which deletes it) and
   * removes the key; otherwise does nothing.
   */
  function PostSpec(data: Dict<Value>, disk: Disk): (s: Step<bool>)
    ensures s.result == Success(true) <==> Get(data, "filehandle").Some? && Get(data, "filehandle").value.VFile?
    ensures s.result == Success(true) ==> !HasKey(s.entries, "filehandle") && !s.disk.IsFile(Get(data, "filehandle").value.name)
    ensures s.result == Success(true) ==>
      s.entries == Delete(data, "filehandle") && s.disk == disk.Remove(Get(data, "filehandle").value.name)
    ensures s.result != Success(true) ==> s.entries == data && s.disk == disk
    ensures s.result == Failure(AttributeError) <==>
      Get(data, "filehandle").Some? && Truthy(Get(data, "filehandle").value) && !Get(data, "filehandle").value.VFile?
    ensures s.result.Success? || s.result == Failure(AttributeError)
  {
    match Get(data, "filehandle")
    case None => Step(data, disk, Success(false))
    case Some(h) =>
      if !Truthy(h) then Step(data, disk, Success(false))
      else if h.VFile? then Step(Delete(data, "filehandle"), disk.Remove(h.name), Success(true))
      else Step(data, disk, Failure(AttributeError))
  }

  /**
   * pre then post on a dict without a file handle, with a fresh temporary
   * name: the dict and the disk end as they began, and post reports that it
   * cleaned up exactly when pre serialized.
   */
  lemma PrePostRoundTrip(data: Dict<Value>, disk: Disk, tempName: string)
    requires !HasKey(data, "filehandle") && !disk.IsFile(tempName)
    requires PreSpec(data, disk, tempName).result.Success?
    ensures var pre := PreSpec(data, disk, tempName);
      var post := PostSpec(pre.entries, pre.disk);
      post.entries == data && post.disk == disk && post.result == pre.result
  {
    var pre := PreSpec(data, disk, tempName);
    if pre.result == Success(true) {
      DeleteSetNew(data, "filehandle", VFile(tempName));
      RemoveWrite(disk, tempName, Get(data, "command").value.s);
    }
  }

  /**
   * post is idempotent: a second call changes nothing and reports no clean-up;
   * after a first call that returned, the second returns False (a handle that
   * is not a file raises AttributeError both times).
   */
  lemma PostIdempotent(data: Dict<Value>, disk: Disk)
    ensures var once := PostSpec(data, disk);
      var twice := PostSpec(once.entries, once.disk);
      && twice.entries == once.entries && twice.disk == once.disk && twice.result != Success(true)
      && (once.result.Success? ==> twice.result == Success(false))
  {
  }

  /** pre, on the dict and the disk. */
  method Pre(data: Manifest, fs: FileSystem, tempName: string) returns (r: Result<bool, Error>)
    modifies data, fs
    ensures var s := PreSpec(old(data.entries), old(fs.disk), tempName);
      data.entries == s.entries && fs.disk == s.disk && r == s.result
  {
    if !Truthy(Lookup(data.entries, "serialize", VBool(false))) {
      return Success(false);
    }
    var c := Get(data.entries, "command");
    if c.None? {
      return Failure(KeyError("command"));
    }
    if !c.value.VStr? {
      return Failure(TypeError);
    }
    fs.disk := fs.disk.Write(tempName, c.value.s);
    data.entries := Set(data.entries, "filehandle", VFile(tempName));
    r := Success(true);
  }

  /** post, on the dict and the disk. */
  method Post(data: Manifest, fs: FileSystem) returns (r: Result<bool, Error>)
    modifies data, fs
    ensures var s := PostSpec(old(data.entries), old(fs.disk));
      data.entries == s.entries && fs.disk == s.disk && r == s.result
  {
    var h := Get(data.entries, "filehandle");
    if h.None? || !Truthy(h.value) {
      return Success(false);
    }
    if !h.value.VFile? {
      return Failure(AttributeError);
    }
    fs.disk := fs.disk.Remove(h.value.name);
    data.entries := Delete(data.entries, "filehandle");
    r := Success(true);
  }
}
