/**
 * The Babashka runner (src/os_heat_agent/runners/babashka.py): runs a
 * Babashka function, optionally pointing Babashka at a directory, after
 * writing the deployment's inputs as Bash variable assignments to a file in
 * the configured variables directory.
 */
module Babashka {
  import opened Wrappers
  import opened Errors
  import opened Strings
  import opened Dicts
  import opened Values
  import opened FileSystems
  import opened Runners

  /** The deployment classes this runner accepts. */
  const SupportedConfigs: seq<string> := ["StructuredConfig", "SoftwareComponent"]

  function Supports(kind: string): (r: bool)
    ensures r <==> kind == "StructuredConfig" || kind == "SoftwareComponent"
  {
    kind in SupportedConfigs
  }

  /** The runner's configuration: the `path` and `variables` options of the tools.babashka section. */
  datatype Settings = Settings(path: string, variables: string)

  /** The Babashka executable must exist and must not be a directory. */
  function CheckExecutable(settings: Settings, disk: Disk): (r: Result<(), Error>)
    ensures r.Success? <==> disk.Exists(settings.path) && !disk.IsDir(settings.path)
    ensures r.Failure? ==> r.error == FileNotFoundError(settings.path)
  {
    if !disk.Exists(settings.path) || disk.IsDir(settings.path) then Failure(FileNotFoundError(settings.path))
    else Success(())
  }

  /** The variables path must exist and be a directory. */
  function CheckVariables(settings: Settings, disk: Disk): (r: Result<(), Error>)
    ensures r.Success? <==> disk.IsDir(settings.variables)
    ensures r.Failure? ==> r.error == FileNotFoundError(settings.variables)
  {
    if !disk.Exists(settings.variables) then Failure(FileNotFoundError(settings.variables))
    else if !disk.IsDir(settings.variables) then Failure(FileNotFoundError(settings.variables))
    else Success(())
  }

  // ---------------------------------------------------------------------
  // normalize
  // ---------------------------------------------------------------------

  /**
   * normalize on a configuration dict: the checks in source order, with the
   * dict as each check leaves it ("runner" is written as soon as the
   * executable is found, before the variables path is checked).
   */
  function NormalizeSpec(data: Dict<Value>, settings: Settings, disk: Disk): (s: Step<bool>)
    ensures s.disk == disk
    ensures s.result.Success? ==> s.result.value
    ensures CheckExecutable(settings, disk).Failure? ==> s == Step(data, disk, Failure(FileNotFoundError(settings.path)))
    ensures CheckExecutable(settings, disk).Success? ==> Get(s.entries, "runner") == Some(VPath(settings.path))
    ensures CheckExecutable(settings, disk).Success? && CheckVariables(settings, disk).Failure? ==>
      s == Step(Set(data, "runner", VPath(settings.path)), disk, Failure(FileNotFoundError(settings.variables)))
    ensures s.result.Success? <==>
      CheckExecutable(settings, disk).Success? && CheckVariables(settings, disk).Success? && DirectoryAccepted(data, disk)
  {
    if CheckExecutable(settings, disk).Failure? then Step(data, disk, Failure(CheckExecutable(settings, disk).error))
    else
      var withRunner := Set(data, "runner", VPath(settings.path));
      if CheckVariables(settings, disk).Failure? then Step(withRunner, disk, Failure(CheckVariables(settings, disk).error))
      else
        assert DirectoryAccepted(withRunner, disk) == DirectoryAccepted(data, disk) by {
          assert Lookup(withRunner, "directory", VStr("")) == Lookup(data, "directory", VStr(""));
          assert Lookup(withRunner, "function", VNone) == Lookup(data, "function", VNone);
        }
        NormalizeDirectory(withRunner, disk)
  }

  /**
   * What the directory step accepts: no directory at all, or a path naming
   * an existing directory together with a non-empty "function".
   */
  predicate DirectoryAccepted(data: Dict<Value>, disk: Disk) {
    var dir := Lookup(data, "directory", VStr(""));
    !Truthy(dir) || (PathArg(dir).Success? && disk.IsDir(PathArg(dir).value) && Truthy(Lookup(data, "function", VNone)))
  }

  /**
   * The directory part of normalize: a non-empty "directory" must name an
   * existing directory, is stored back as a path, and then requires a
   * non-empty "function".
   */
  function NormalizeDirectory(data: Dict<Value>, disk: Disk): (s: Step<bool>)
    ensures s.disk == disk
    ensures s.result.Success? ==> s.result.value
    ensures !Truthy(Lookup(data, "directory", VStr(""))) ==> s == Step(data, disk, Success(true))
    ensures Get(s.entries, "runner") == Get(data, "runner")
    ensures var dir := Lookup(data, "directory", VStr(""));
      Truthy(dir) && PathArg(dir).Failure? ==> s == Step(data, disk, Failure(PathArg(dir).error))
    ensures var dir := Lookup(data, "directory", VStr(""));
      Truthy(dir) && PathArg(dir).Success? && !disk.IsDir(PathArg(dir).value) ==>
        s == Step(data, disk, Failure(FileNotFoundError(PathArg(dir).value)))
    ensures var dir := Lookup(data, "directory", VStr(""));
      Truthy(dir) && PathArg(dir).Success? && disk.IsDir(PathArg(dir).value) ==>
        && s.entries == Set(data, "directory", VPath(PathArg(dir).value))
        && (Truthy(Lookup(data, "function", VNone)) ==> s.result == Success(true))
        && (!Truthy(Lookup(data, "function", VNone)) ==> s.result == Failure(RunnerError))
    ensures s.result.Success? <==> DirectoryAccepted(data, disk)
  {
    var dir := Lookup(data, "directory", VStr(""));
    if !Truthy(dir) then Step(data, disk, Success(true))
    else
      match PathArg(dir)
      case Failure(e) => Step(data, disk, Failure(e))
      case Success(p) =>
        if !disk.Exists(p) then Step(data, disk, Failure(FileNotFoundError(p)))
        else if !disk.IsDir(p) then Step(data, disk, Failure(FileNotFoundError(p)))
        else
          var withDir := Set(data, "directory", VPath(p));
          assert Lookup(withDir, "function", VNone) == Lookup(data, "function", VNone);
          if !Truthy(Lookup(withDir, "function", VNone)) then Step(withDir, disk, Failure(RunnerError))
          else Step(withDir, disk, Success(true))
  }

  /**
   * With no directory, an installed runner and a variables directory are all
   * normalize asks for: "function" is not looked at.
   */
  lemma NormalizeWithoutDirectory(data: Dict<Value>, settings: Settings, disk: Disk)
    requires !Truthy(Lookup(data, "directory", VStr("")))
    requires CheckExecutable(settings, disk).Success? && CheckVariables(settings, disk).Success?
    ensures NormalizeSpec(data, settings, disk) == Step(Set(data, "runner", VPath(settings.path)), disk, Success(true))
  {
    assert Lookup(Set(data, "runner", VPath(settings.path)), "directory", VStr("")) == Lookup(data, "directory", VStr(""));
  }

  /** What command needs of the dict: a runner path, and a path for a non-empty directory. */
  predicate Prepared(data: Dict<Value>) {
    && Get(data, "runner").Some? && Get(data, "runner").value.VPath?
    && (Truthy(Lookup(data, "directory", VStr(""))) ==> Lookup(data, "directory", VStr("")).VPath?)
  }

  /**
   * A dict normalize accepts is ready for command: its runner is the
   * configured executable, and a non-empty directory is an existing
   * directory with a function beside it.
   */
  lemma NormalizePrepares(data: Dict<Value>, settings: Settings, disk: Disk)
    requires NormalizeSpec(data, settings, disk).result.Success?
    ensures var d := NormalizeSpec(data, settings, disk).entries;
      && Prepared(d)
      && Get(d, "runner") == Some(VPath(settings.path))
      && (Truthy(Lookup(d, "directory", VStr(""))) ==>
            disk.IsDir(Lookup(d, "directory", VStr("")).path) && Truthy(Lookup(d, "function", VNone)))
  {
    var withRunner := Set(data, "runner", VPath(settings.path));
    assert NormalizeSpec(data, settings, disk) == NormalizeDirectory(withRunner, disk);
    DirectoryPrepares(withRunner, disk);
  }

  /** A directory normalize accepts is stored as the path of an existing directory, with a function beside it. */
  lemma DirectoryPrepares(data: Dict<Value>, disk: Disk)
    requires NormalizeDirectory(data, disk).result.Success?
    ensures var d := NormalizeDirectory(data, disk).entries;
      Truthy(Lookup(d, "directory", VStr(""))) ==>
        && Lookup(d, "directory", VStr("")).VPath?
        && disk.IsDir(Lookup(d, "directory", VStr("")).path)
        && Truthy(Lookup(d, "function", VNone))
  {
    var dir := Lookup(data, "directory", VStr(""));
    if Truthy(dir) {
      var p := PathArg(dir).value;
      var d := Set(data, "directory", VPath(p));
      assert NormalizeDirectory(data, disk).entries == d;
      assert Lookup(d, "directory", VStr("")) == VPath(p);
    }
  }

  /** normalize is idempotent: a normalized dict normalizes to itself. */
  lemma NormalizeIdempotent(data: Dict<Value>, settings: Settings, disk: Disk)
    requires NormalizeSpec(data, settings, disk).result.Success?
    ensures var d := NormalizeSpec(data, settings, disk).entries;
      NormalizeSpec(d, settings, disk) == Step(d, disk, Success(true))
  {
    var withRunner := Set(data, "runner", VPath(settings.path));
    var d := NormalizeDirectory(withRunner, disk).entries;
    SetPresent(d, "runner", VPath(settings.path));
    DirectoryIdempotent(withRunner, disk);
  }

  lemma DirectoryIdempotent(data: Dict<Value>, disk: Disk)
    requires NormalizeDirectory(data, disk).result.Success?
    ensures var d := NormalizeDirectory(data, disk).entries;
      NormalizeDirectory(d, disk) == Step(d, disk, Success(true))
  {
    var dir := Lookup(data, "directory", VStr(""));
    if Truthy(dir) {
      var p := PathArg(dir).value;
      var d := Set(data, "directory", VPath(p));
      assert Lookup(d, "directory", VStr("")) == VPath(p);
      SetPresent(d, "directory", VPath(p));
    }
  }

  /** normalize, on the dict. */
  method Normalize(data: Manifest, settings: Settings, disk: Disk) returns (r: Result<bool, Error>)
    modifies data
    ensures var s := NormalizeSpec(old(data.entries), settings, disk);
      data.entries == s.entries && r == s.result
  {
    if !disk.Exists(settings.path) || disk.IsDir(settings.path) {
      return Failure(FileNotFoundError(settings.path));
    }
    data.entries := Set(data.entries, "runner", VPath(settings.path));
    if !disk.Exists(settings.variables) || !disk.IsDir(settings.variables) {
      return Failure(FileNotFoundError(settings.variables));
    }
    var dir := Lookup(data.entries, "directory", VStr(""));
    if Truthy(dir) {
      var p := PathArg(dir);
      if p.Failure? {
        return Failure(p.error);
      }
      if !disk.Exists(p.value) || !disk.IsDir(p.value) {
        return Failure(FileNotFoundError(p.value));
      }
      data.entries := Set(data.entries, "directory", VPath(p.value));
      if !Truthy(Lookup(data.entries, "function", VNone)) {
        return Failure(RunnerError);
      }
    }
    r := Success(true);
  }

  // ---------------------------------------------------------------------
  // command and run
  // ---------------------------------------------------------------------

  /**
   * The argument vector command builds: the runner, then "-d" and the
   * directory when one is set, then the function (a string or path; any
   * other value is refused as an argument).
   */
  function CommandSpec(data: Dict<Value>): (r: Result<seq<string>, Error>)
    requires Prepared(data)
    ensures var dir := Lookup(data, "directory", VStr(""));
      r.Success? ==>
        && |r.value| >= 2
        && r.value[0] == Get(data, "runner").value.path
        && (Truthy(dir) ==> |r.value| == 4 && r.value[1] == "-d" && r.value[2] == dir.path)
        && (!Truthy(dir) ==> |r.value| == 2)
        && HasKey(data, "function")
        && Success(r.value[|r.value| - 1]) == PathArg(Get(data, "function").value)
    ensures !HasKey(data, "function") ==> r == Failure(KeyError("function"))
  {
    var runner := Get(data, "runner").value.path;
    var dir := Lookup(data, "directory", VStr(""));
    var prefix := if Truthy(dir) then [runner, "-d", dir.path] else [runner];
    match Get(data, "function")
    case None => Failure(KeyError("function"))
    case Some(f) =>
      match PathArg(f)
      case Failure(e) => Failure(e)
      case Success(name) => Success(prefix + [name])
  }

  /** command, building the list by appending. */
  method Command(data: Manifest) returns (r: Result<seq<string>, Error>)
    requires Prepared(data.entries)
    ensures r == CommandSpec(data.entries)
  {
    var d := data.entries;
    var runner := Get(d, "runner").value.path;
    var cmd := [runner];
    var dir := Lookup(d, "directory", VStr(""));
    if Truthy(dir) {
      cmd := cmd + ["-d", dir.path];
    }
    var f := Get(d, "function");
    if f.None? {
      return Failure(KeyError("function"));
    }
    var name := PathArg(f.value);
    if name.Failure? {
      return Failure(name.error);
    }
    cmd := cmd + [name.value];
    assert cmd == (if Truthy(dir) then [runner, "-d", dir.path] else [runner]) + [name.value];
    r := Success(cmd);
  }

  /** run: normalize, command, then the process with the caller's environment as given. */
  function RunSpec(data: Dict<Value>, settings: Settings, disk: Disk, environment: Dict<Value>, exec: Exec): (r: (Dict<Value>, Result<Output, Error>))
    ensures r.0 == NormalizeSpec(data, settings, disk).entries
    ensures NormalizeSpec(data, settings, disk).result.Failure? ==> r.1 == Failure(NormalizeSpec(data, settings, disk).result.error)
    ensures r.1.Success? ==>
      && Prepared(r.0) && CommandSpec(r.0).Success?
      && r.1.value == exec(CommandSpec(r.0).value, environment)
  {
    var n := NormalizeSpec(data, settings, disk);
    if n.result.Failure? then (n.entries, Failure(n.result.error))
    else
      NormalizePrepares(data, settings, disk);
      match CommandSpec(n.entries)
      case Failure(e) => (n.entries, Failure(e))
      case Success(cmd) => (n.entries, Success(exec(cmd, environment)))
  }

  /** run, on the dict. */
  method Run(data: Manifest, settings: Settings, disk: Disk, environment: Dict<Value>, exec: Exec) returns (r: Result<Output, Error>)
    modifies data
    ensures (data.entries, r) == RunSpec(old(data.entries), settings, disk, environment, exec)
  {
    var n := Normalize(data, settings, disk);
    if n.Failure? {
      return Failure(n.error);
    }
    NormalizePrepares(old(data.entries), settings, disk);
    var cmd := Command(data);
    if cmd.Failure? {
      return Failure(cmd.error);
    }
    r := Success(exec(cmd.value, environment));
  }

  // ---------------------------------------------------------------------
  // pre and post
  // ---------------------------------------------------------------------

  /**
   * The file pre writes: only the final component of the requested name,
   * placed in the variables directory, so a name carrying directories cannot
   * reach below it. A final component ".." is kept, and then the target is
   * the variables directory's parent (see ParentTarget).
   */
  function VariableTarget(variables: string, requested: string): (t: string)
    ensures var name := Basename(requested);
      && '/' !in name
      && (name == "" ==> t == variables)
      && (name != "" ==> t == PathJoin(variables, name))
  {
    PathJoin(variables, Basename(requested))
  }

  /** A requested name of ".." is not resolved: the target is ".." joined to the variables directory. */
  lemma ParentTarget()
    ensures Basename("..") == ".."
    ensures VariableTarget("/vars", "..") == "/vars/.."
  {
    assert !Occurs("..", "/") by { assert ".."[..1] != "/" && ".."[1..][..1] != "/"; }
    SplitAbsent("..", "/");
  }

  /**
   * pre: writes bashify of the inputs, one assignment per line, to the
   * variables file the configuration names, after refusing a target that is
   * a directory and then empty inputs. The file is opened (and so emptied)
   * before the inputs are serialized.
   */
  function PreSpec(data: Dict<Value>, input: Dict<Value>, settings: Settings, disk: Disk): (s: Step<bool>)
    ensures s.entries == data
    ensures !Truthy(Lookup(data, "variable_file", VNone)) ==> s == Step(data, disk, Success(false))
    ensures s.result == Success(true) ==> |input| > 0 && BashifySpec(input).Success?
  {
    var p := Lookup(data, "variable_file", VNone);
    if !Truthy(p) then Step(data, disk, Success(false))
    else
      match PathArg(p)
      case Failure(e) => Step(data, disk, Failure(e))
      case Success(requested) =>
        var target := VariableTarget(settings.variables, requested);
        if disk.IsDir(target) then Step(data, disk, Failure(RuntimeError))
        else if |input| == 0 then Step(data, disk, Failure(RuntimeError))
        else
          match BashifySpec(input)
          case Failure(e) => Step(data, disk.Write(target, ""), Failure(e))
          case Success(lines) => Step(data, disk.Write(target, Join(lines, "\n")), Success(true))
  }

  /**
   * For a named variables file: a directory in the way is refused first
   * (even with no inputs), then empty inputs; otherwise the target file ends
   * up holding the joined lines, or nothing when serializing fails. In every
   * case no other file changes.
   */
  lemma PreOutcomes(data: Dict<Value>, input: Dict<Value>, settings: Settings, disk: Disk, requested: string)
    requires Lookup(data, "variable_file", VNone) == VStr(requested) && requested != ""
    ensures var t := VariableTarget(settings.variables, requested);
      var s := PreSpec(data, input, settings, disk);
      && (disk.IsDir(t) ==> s == Step(data, disk, Failure(RuntimeError)))
      && (!disk.IsDir(t) && |input| == 0 ==> s == Step(data, disk, Failure(RuntimeError)))
      && (!disk.IsDir(t) && |input| > 0 && BashifySpec(input).Success? ==>
            s.result == Success(true) && s.disk == disk.Write(t, Join(BashifySpec(input).value, "\n")))
      && (!disk.IsDir(t) && |input| > 0 && BashifySpec(input).Failure? ==>
            s.result == Failure(BashifySpec(input).error) && s.disk == disk.Write(t, ""))
  {
  }

  /** A pre that completes with a named variables file wrote the joined lines there. */
  lemma PreWrites(data: Dict<Value>, input: Dict<Value>, settings: Settings, disk: Disk, requested: string)
    requires Lookup(data, "variable_file", VNone) == VStr(requested) && requested != ""
    requires PreSpec(data, input, settings, disk).result.Success?
    ensures BashifySpec(input).Success?
    ensures PreSpec(data, input, settings, disk).disk == disk.Write(VariableTarget(settings.variables, requested), Join(BashifySpec(input).value, "\n"))
  {
    PreOutcomes(data, input, settings, disk, requested);
  }

  /** pre, on the disk; the configuration dict is only read. */
  method Pre(data: Manifest, input: Dict<Value>, settings: Settings, fs: FileSystem) returns (r: Result<bool, Error>)
    modifies fs
    ensures var s := PreSpec(data.entries, input, settings, old(fs.disk));
      fs.disk == s.disk && r == s.result
  {
    var p := Lookup(data.entries, "variable_file", VNone);
    if !Truthy(p) {
      return Success(false);
    }
    var requested := PathArg(p);
    if requested.Failure? {
      return Failure(requested.error);
    }
    var target := VariableTarget(settings.variables, requested.value);
    if fs.disk.IsDir(target) {
      return Failure(RuntimeError);
    }
    if |input| == 0 {
      return Failure(RuntimeError);
    }
    r := WriteVariables(target, input, fs);
  }

  /** pre's last steps: the variables file is opened (and so emptied), then filled with the serialized inputs. */
  method WriteVariables(target: string, input: Dict<Value>, fs: FileSystem) returns (r: Result<bool, Error>)
    modifies fs
    ensures BashifySpec(input).Failure? ==> fs.disk == old(fs.disk).Write(target, "") && r == Failure(BashifySpec(input).error)
    ensures BashifySpec(input).Success? ==>
      fs.disk == old(fs.disk).Write(target, Join(BashifySpec(input).value, "\n")) && r == Success(true)
  {
    fs.disk := fs.disk.Write(target, "");
    var lines := Bashify(input);
    if lines.Failure? {
      return Failure(lines.error);
    }
    fs.disk := fs.disk.Write(target, Join(lines.value, "\n"));
    r := Success(true);
  }

  /** post: Babashka needs no clean-up; nothing changes. */
  method Post(data: Manifest)
    ensures data.entries == old(data.entries)
  {
  }

  // ---------------------------------------------------------------------
  // bashify
  // ---------------------------------------------------------------------

  function Quote(s: string): string {
    "\"" + s + "\""
  }

  /** A value as it appears between the quotes of an assignment: echoed through the shell, then stripped. */
  function Escaped(v: Value): (r: Result<string, Error>)
    ensures r.Success? <==> v.VStr? || !Truthy(v)
    ensures v.VStr? ==> r == Success(Trim(v.s))
  {
    match Echoed(v)
    case Failure(e) => Failure(e)
    case Success(text) => Success(Trim(text))
  }

  /** f"{value}" for a value that is not a string, list or dict. */
  function Scalar(v: Value): string {
    match v
    case VNone => "None"
    case VBool(b) => if b then "True" else "False"
    case VInt(i) => IntToString(i)
    case VPath(p) => p
    case VFile(n) => n
    case VStr(s) => s
    case VList(_) => ""
    case VDict(_) => ""
  }

  /** The assignment for one entry of a nested dict: `key["k"]="v"`; a nested container is refused. */
  function DictLine(key: string, k: string, v: Value): (r: Result<string, Error>)
    ensures (v.VDict? || v.VList?) ==> r == Failure(SerializerError)
  {
    if v.VDict? || v.VList? then Failure(SerializerError)
    else
      match Escaped(v)
      case Failure(e) => Failure(e)
      case Success(ev) => Success(Assignment(key, k, ev))
  }

  /** `key["k"]="v"`: the key stripped, both sides quoted. */
  function Assignment(key: string, k: string, ev: string): string {
    key + "[" + Quote(Trim(k)) + "]=" + Quote(ev)
  }

  /** The assignments for a nested dict, in its order. */
  function DictLines(key: string, es: seq<(string, Value)>): (r: Result<seq<string>, Error>)
    ensures r.Success? ==> Assigns(key, es, r.value)
  {
    if |es| == 0 then Success([])
    else
      match DictLines(key, es[..|es| - 1])
      case Failure(e) => Failure(e)
      case Success(prev) =>
        match DictLine(key, es[|es| - 1].0, es[|es| - 1].1)
        case Failure(e) => Failure(e)
        case Success(line) =>
          AssignsAppend(key, es, prev, line);
          Success(prev + [line])
  }

  /** The lines of a nested dict: one per entry, in order, each `key["k"]="v"` for a flat value. */
  predicate Assigns(key: string, es: seq<(string, Value)>, lines: seq<string>) {
    && |lines| == |es|
    && forall j :: 0 <= j < |es| ==> Flat(es[j].1) && lines[j] == Assignment(key, es[j].0, Escaped(es[j].1).value)
  }

  /** The line of one more entry extends the lines of those before it. */
  lemma AssignsAppend(key: string, es: seq<(string, Value)>, prev: seq<string>, line: string)
    requires |es| > 0 && Assigns(key, es[..|es| - 1], prev)
    requires DictLine(key, es[|es| - 1].0, es[|es| - 1].1) == Success(line)
    ensures Assigns(key, es, prev + [line])
  {
    var init := es[..|es| - 1];
    forall j | 0 <= j < |es| ensures Flat(es[j].1) && (prev + [line])[j] == Assignment(key, es[j].0, Escaped(es[j].1).value) {
      if j < |init| {
        assert init[j] == es[j];
      }
    }
  }

  /** The quoted words of a Bash array, in list order. */
  function ListWords(items: seq<Value>): (r: Result<seq<string>, Error>)
    ensures r.Success? ==> |r.value| == |items|
    ensures r.Success? ==> forall j :: 0 <= j < |items| ==> Echoable(items[j]) && r.value[j] == Quote(Escaped(items[j]).value)
  {
    if |items| == 0 then Success([])
    else
      match ListWords(items[..|items| - 1])
      case Failure(e) => Failure(e)
      case Success(prev) =>
        match Escaped(items[|items| - 1])
        case Failure(e) => Failure(e)
        case Success(w) => Success(prev + [Quote(w)])
  }

  /** The lines for one top-level entry: an associative array, an array, a quoted string or a bare scalar. */
  function EntryLines(key: string, value: Value): (r: Result<seq<string>, Error>)
    ensures r.Success? ==> |r.value| == LineCount(value)
  {
    match value
    case VDict(es) =>
      (match DictLines(key, es)
       case Failure(e) => Failure(e)
       case Success(ls) => Success(["declare -A " + key] + ls))
    case VList(items) =>
      (match ListWords(items)
       case Failure(e) => Failure(e)
       case Success(ws) => Success([key + "=(" + Join(ws, " ") + ")"]))
    case VStr(s) => Success([key + "=" + Quote(Trim(s))])
    case _ => Success([key + "=" + Scalar(value)])
  }

  /** bashify: the lines of every entry, in the dict's order; the first entry that cannot be serialized raises. */
  function BashifySpec(config: Dict<Value>): (r: Result<seq<string>, Error>)
    ensures r.Success? ==> |r.value| == TotalLines(config)
  {
    if |config| == 0 then Success([])
    else
      match BashifySpec(config[..|config| - 1])
      case Failure(e) => Failure(e)
      case Success(prev) =>
        match EntryLines(config[|config| - 1].0, config[|config| - 1].1)
        case Failure(e) => Failure(e)
        case Success(lines) => Success(prev + lines)
  }

  /** How many lines a top-level value becomes: a dict one per entry plus its declaration, anything else one. */
  function LineCount(v: Value): nat {
    if v.VDict? then 1 + |v.entries| else 1
  }

  function TotalLines(config: Dict<Value>): nat {
    if |config| == 0 then 0 else TotalLines(config[..|config| - 1]) + LineCount(config[|config| - 1].1)
  }

  /** A value bashify can echo: a string, or anything falsy. */
  predicate Echoable(v: Value) {
    v.VStr? || !Truthy(v)
  }

  /** A value a nested dict may hold: an echoable scalar. */
  predicate Flat(v: Value) {
    !v.VDict? && !v.VList? && Echoable(v)
  }

  /** The values bashify accepts, stated independently of how it builds its lines. */
  predicate Serializable(v: Value) {
    match v
    case VDict(es) => forall i :: 0 <= i < |es| ==> Flat(es[i].1)
    case VList(items) => forall i :: 0 <= i < |items| ==> Echoable(items[i])
    case _ => true
  }

  lemma DictLineSucceeds(key: string, k: string, v: Value)
    ensures DictLine(key, k, v).Success? <==> Flat(v)
  {
  }

  /** One more entry keeps the nested dict serializable exactly when its value is flat. */
  lemma DictLinesStep(key: string, es: seq<(string, Value)>)
    requires |es| > 0
    ensures DictLines(key, es).Success? <==> DictLines(key, es[..|es| - 1]).Success? && Flat(es[|es| - 1].1)
  {
    DictLineSucceeds(key, es[|es| - 1].0, es[|es| - 1].1);
  }

  lemma {:induction false} DictLinesSucceed(key: string, es: seq<(string, Value)>)
    ensures DictLines(key, es).Success? <==> forall i :: 0 <= i < |es| ==> Flat(es[i].1)
  {
    if |es| > 0 {
      var init := es[..|es| - 1];
      DictLinesSucceed(key, init);
      DictLinesStep(key, es);
      FlatPrefix(init, es);
    }
  }

  /** Every value of a non-empty dict is flat exactly when those before the last are and the last is. */
  lemma FlatPrefix(init: seq<(string, Value)>, es: seq<(string, Value)>)
    requires |es| > 0 && init == es[..|es| - 1]
    ensures (forall i :: 0 <= i < |es| ==> Flat(es[i].1)) <==> (forall i :: 0 <= i < |init| ==> Flat(init[i].1)) && Flat(es[|es| - 1].1)
  {
    assert forall i :: 0 <= i < |init| ==> init[i] == es[i];
  }

  /** One more item keeps a list serializable exactly when it is echoable. */
  lemma ListWordsStep(items: seq<Value>)
    requires |items| > 0
    ensures ListWords(items).Success? <==> ListWords(items[..|items| - 1]).Success? && Echoable(items[|items| - 1])
  {
  }

  lemma {:induction false} ListWordsSucceed(items: seq<Value>)
    ensures ListWords(items).Success? <==> forall i :: 0 <= i < |items| ==> Echoable(items[i])
  {
    if |items| > 0 {
      var init := items[..|items| - 1];
      ListWordsSucceed(init);
      ListWordsStep(items);
      if ListWords(items).Success? {
        forall i | 0 <= i < |items| ensures Echoable(items[i]) {
          if i < |init| {
            assert init[i] == items[i];
          }
        }
      } else if ListWords(init).Failure? {
        var i :| 0 <= i < |init| && !Echoable(init[i]);
        assert init[i] == items[i];
      }
    }
  }

  /**
   * bashify succeeds exactly when every top-level value is serializable: a
   * dict holding only echoable scalars, a list of echoable items, or any
   * other value.
   */
  lemma {:induction false} BashifySucceeds(config: Dict<Value>)
    ensures BashifySpec(config).Success? <==> forall i :: 0 <= i < |config| ==> Serializable(config[i].1)
  {
    if |config| > 0 {
      var init := config[..|config| - 1];
      BashifySucceeds(init);
      BashifyStep(config);
      EntrySucceeds(config[|config| - 1].0, config[|config| - 1].1);
      SerializablePrefix(init, config);
    }
  }

  /** One entry serializes exactly when its value is serializable. */
  lemma EntrySucceeds(key: string, value: Value)
    ensures EntryLines(key, value).Success? <==> Serializable(value)
  {
    match value {
      case VDict(es) => DictLinesSucceed(key, es);
      case VList(items) => ListWordsSucceed(items);
      case _ =>
    }
  }

  /** One more entry keeps bashify succeeding exactly when its own lines can be built. */
  lemma BashifyStep(config: Dict<Value>)
    requires |config| > 0
    ensures BashifySpec(config).Success?
        <==> BashifySpec(config[..|config| - 1]).Success? && EntryLines(config[|config| - 1].0, config[|config| - 1].1).Success?
  {
  }

  /** Every top-level value is serializable exactly when those before the last are and the last is. */
  lemma SerializablePrefix(init: Dict<Value>, config: Dict<Value>)
    requires |config| > 0 && init == config[..|config| - 1]
    ensures (forall i :: 0 <= i < |config| ==> Serializable(config[i].1))
        <==> (forall i :: 0 <= i < |init| ==> Serializable(init[i].1)) && Serializable(config[|config| - 1].1)
  {
    assert forall i :: 0 <= i < |init| ==> init[i] == config[i];
  }

  /** A container nested in a top-level dict makes bashify raise, whatever surrounds it. */
  lemma NestedRejected(config: Dict<Value>, i: nat, j: nat)
    requires i < |config| && config[i].1.VDict? && j < |config[i].1.entries|
    requires config[i].1.entries[j].1.VDict? || config[i].1.entries[j].1.VList?
    ensures BashifySpec(config).Failure?
  {
    BashifySucceeds(config);
    assert !Serializable(config[i].1);
  }

  /** In a nested dict, the first container after flat entries is a SerializerError. */
  lemma DictLinesNested(key: string, es: seq<(string, Value)>, j: nat)
    requires j < |es| && forall k :: 0 <= k < j ==> Flat(es[k].1)
    requires es[j].1.VDict? || es[j].1.VList?
    ensures DictLines(key, es) == Failure(SerializerError)
  {
    var init := es[..j];
    assert forall k :: 0 <= k < j ==> init[k] == es[k];
    DictLinesSucceed(key, init);
    assert DictLine(key, es[j].0, es[j].1) == Failure(SerializerError);
    DictLinesStop(key, es, j);
    DictLinesPrefixFailure(key, es, j + 1);
  }

  /** After entries that serialize, the first line that fails is the dict's error. */
  lemma DictLinesStop(key: string, es: seq<(string, Value)>, j: nat)
    requires j < |es| && DictLines(key, es[..j]).Success? && DictLine(key, es[j].0, es[j].1).Failure?
    ensures DictLines(key, es[..j + 1]) == Failure(DictLine(key, es[j].0, es[j].1).error)
  {
    assert es[..j + 1][..j] == es[..j];
    assert es[..j + 1][j] == es[j];
  }

  /** The first entry that fails, after entries that serialize, decides bashify's error. */
  lemma BashifyEntryFailure(config: Dict<Value>, i: nat)
    requires i < |config| && BashifySpec(config[..i]).Success?
    requires EntryLines(config[i].0, config[i].1).Failure?
    ensures BashifySpec(config) == EntryLines(config[i].0, config[i].1)
  {
    assert config[..i + 1][..i] == config[..i];
    assert config[..i + 1][i] == config[i];
    BashifyPrefixFailure(config, i + 1);
  }

  /**
   * The error itself: when the entries before i serialize and the first
   * container inside the dict at i sits at position j, bashify fails with a
   * SerializerError.
   */
  lemma NestedSerializerError(config: Dict<Value>, i: nat, j: nat)
    requires i < |config| && BashifySpec(config[..i]).Success?
    requires config[i].1.VDict? && j < |config[i].1.entries|
    requires forall k :: 0 <= k < j ==> Flat(config[i].1.entries[k].1)
    requires config[i].1.entries[j].1.VDict? || config[i].1.entries[j].1.VList?
    ensures BashifySpec(config) == Failure(SerializerError)
  {
    DictLinesNested(config[i].0, config[i].1.entries, j);
    BashifyEntryFailure(config, i);
  }

  /**
   * The four line formats of one entry: a dict declares an associative array
   * and assigns each of its keys, a list becomes an array of quoted words, a
   * string is quoted after trimming, and any other scalar is written bare.
   */
  lemma EntryFormats(key: string, value: Value)
    ensures value.VDict? && EntryLines(key, value).Success? ==>
      && EntryLines(key, value).value[0] == "declare -A " + key
      && Assigns(key, value.entries, EntryLines(key, value).value[1..])
    ensures value.VList? && EntryLines(key, value).Success? ==>
      && ListWords(value.items).Success?
      && EntryLines(key, value).value == [key + "=(" + Join(ListWords(value.items).value, " ") + ")"]
    ensures value.VStr? ==> EntryLines(key, value) == Success([key + "=" + Quote(Trim(value.s))])
    ensures !value.VDict? && !value.VList? && !value.VStr? ==> EntryLines(key, value) == Success([key + "=" + Scalar(value)])
  {
    if value.VDict? && EntryLines(key, value).Success? {
      var ls := DictLines(key, value.entries).value;
      assert EntryLines(key, value).value[1..] == ls;
    }
  }

  /** A successful bashify is its last entry's lines after the lines of the entries before it. */
  lemma BashifyLast(config: Dict<Value>)
    requires |config| > 0 && BashifySpec(config).Success?
    ensures BashifySpec(config[..|config| - 1]).Success?
    ensures EntryLines(config[|config| - 1].0, config[|config| - 1].1).Success?
    ensures BashifySpec(config).value
         == BashifySpec(config[..|config| - 1]).value + EntryLines(config[|config| - 1].0, config[|config| - 1].1).value
  {
  }

  lemma SliceConcat(p: seq<string>, l: seq<string>, a: nat, b: nat)
    requires a <= b <= |p|
    ensures (p + l)[a..b] == p[a..b]
  {
  }

  lemma SliceTail(p: seq<string>, l: seq<string>)
    ensures (p + l)[|p|..|p| + |l|] == l
  {
  }

  /**
   * bashify keeps the dict's order: the lines of entry i follow the lines of
   * every entry before it, so they start at the line count of those entries.
   */
  lemma {:induction false} BashifyInOrder(config: Dict<Value>, i: nat)
    requires BashifySpec(config).Success? && i < |config|
    ensures EntryLines(config[i].0, config[i].1).Success?
    ensures TotalLines(config[..i]) + LineCount(config[i].1) <= |BashifySpec(config).value|
    ensures BashifySpec(config).value[TotalLines(config[..i])..TotalLines(config[..i]) + LineCount(config[i].1)]
         == EntryLines(config[i].0, config[i].1).value
    decreases |config|, 1
  {
    if i == |config| - 1 {
      InOrderLast(config);
    } else {
      InOrderEarlier(config, i);
    }
  }

  /** The last entry's lines close the output. */
  lemma InOrderLast(config: Dict<Value>)
    requires BashifySpec(config).Success? && |config| > 0
    ensures var i := |config| - 1;
      && EntryLines(config[i].0, config[i].1).Success?
      && TotalLines(config[..i]) + LineCount(config[i].1) <= |BashifySpec(config).value|
      && BashifySpec(config).value[TotalLines(config[..i])..TotalLines(config[..i]) + LineCount(config[i].1)]
         == EntryLines(config[i].0, config[i].1).value
  {
    var init := config[..|config| - 1];
    BashifyLast(config);
    var prev := BashifySpec(init).value;
    var last := EntryLines(config[|config| - 1].0, config[|config| - 1].1).value;
    assert |prev| == TotalLines(init);
    SliceTail(prev, last);
  }

  /** An earlier entry's lines sit where they sat before the last entry was added. */
  lemma {:induction false} InOrderEarlier(config: Dict<Value>, i: nat)
    requires BashifySpec(config).Success? && i < |config| - 1
    ensures EntryLines(config[i].0, config[i].1).Success?
    ensures TotalLines(config[..i]) + LineCount(config[i].1) <= |BashifySpec(config).value|
    ensures BashifySpec(config).value[TotalLines(config[..i])..TotalLines(config[..i]) + LineCount(config[i].1)]
         == EntryLines(config[i].0, config[i].1).value
    decreases |config|, 0
  {
    var init := config[..|config| - 1];
    BashifyLast(config);
    var prev := BashifySpec(init).value;
    var last := EntryLines(config[|config| - 1].0, config[|config| - 1].1).value;
    assert BashifySpec(config).value == prev + last;
    BashifyInOrder(init, i);
    PrefixOfInit(config, i);
    SliceConcat(prev, last, TotalLines(config[..i]), TotalLines(config[..i]) + LineCount(config[i].1));
  }

  /** Entry i and the entries before it are the same in the dict and in all of it but its last entry. */
  lemma PrefixOfInit(config: Dict<Value>, i: nat)
    requires i < |config| - 1
    ensures config[..|config| - 1][..i] == config[..i]
    ensures config[..|config| - 1][i] == config[i]
  {
  }

  /** Once a prefix of the dict fails, bashify fails with the same error. */
  lemma {:induction false} BashifyPrefixFailure(config: Dict<Value>, n: nat)
    requires n <= |config| && BashifySpec(config[..n]).Failure?
    ensures BashifySpec(config) == BashifySpec(config[..n])
    decreases |config| - n
  {
    if n < |config| {
      assert config[..n + 1][..n] == config[..n];
      BashifyPrefixFailure(config, n + 1);
    } else {
      assert config[..n] == config;
    }
  }

  /** Once a prefix of a nested dict fails, its lines fail with the same error. */
  lemma {:induction false} DictLinesPrefixFailure(key: string, es: seq<(string, Value)>, n: nat)
    requires n <= |es| && DictLines(key, es[..n]).Failure?
    ensures DictLines(key, es) == DictLines(key, es[..n])
    decreases |es| - n
  {
    if n < |es| {
      assert es[..n + 1][..n] == es[..n];
      DictLinesPrefixFailure(key, es, n + 1);
    } else {
      assert es[..n] == es;
    }
  }

  /** Once a prefix of a list fails, its words fail with the same error. */
  lemma {:induction false} ListWordsPrefixFailure(items: seq<Value>, n: nat)
    requires n <= |items| && ListWords(items[..n]).Failure?
    ensures ListWords(items) == ListWords(items[..n])
    decreases |items| - n
  {
    if n < |items| {
      assert items[..n + 1][..n] == items[..n];
      ListWordsPrefixFailure(items, n + 1);
    } else {
      assert items[..n] == items;
    }
  }

  /** bashify, appending to the list of lines in nested loops as the source does. */
  method Bashify(config: Dict<Value>) returns (r: Result<seq<string>, Error>)
    ensures r == BashifySpec(config)
  {
    var lines: seq<string> := [];
    var i := 0;
    while i < |config|
      invariant 0 <= i <= |config|
      invariant BashifySpec(config[..i]) == Success(lines)
    {
      var (key, value) := config[i];
      assert config[..i + 1][..i] == config[..i];
      assert config[..i + 1][i] == (key, value);
      var entry := EntryLinesOf(key, value);
      if entry.Failure? {
        BashifyPrefixFailure(config, i + 1);
        return Failure(entry.error);
      }
      lines := lines + entry.value;
      i := i + 1;
    }
    assert config[..i] == config;
    r := Success(lines);
  }

  /** The lines for one top-level entry, built with the source's inner loops. */
  method EntryLinesOf(key: string, value: Value) returns (r: Result<seq<string>, Error>)
    ensures r == EntryLines(key, value)
  {
    if value.VDict? {
      var ls := NestedDictLines(key, value.entries);
      if ls.Failure? {
        return Failure(ls.error);
      }
      r := Success(["declare -A " + key] + ls.value);
    } else if value.VList? {
      var words := ArrayWords(value.items);
      if words.Failure? {
        return Failure(words.error);
      }
      r := Success([key + "=(" + Join(words.value, " ") + ")"]);
    } else if value.VStr? {
      r := Success([key + "=" + Quote(Trim(value.s))]);
    } else {
      r := Success([key + "=" + Scalar(value)]);
    }
  }

  /** The lines of one more entry of a nested dict, given those before it. */
  lemma DictLinesExtend(key: string, es: seq<(string, Value)>, j: nat)
    requires j < |es| && DictLines(key, es[..j]).Success?
    ensures DictLines(key, es[..j + 1]) ==
      match DictLine(key, es[j].0, es[j].1)
      case Failure(e) => Failure(e)
      case Success(line) => Success(DictLines(key, es[..j]).value + [line])
  {
    assert es[..j + 1][..j] == es[..j];
  }

  /** The inner loop over a nested dict. */
  method NestedDictLines(key: string, es: seq<(string, Value)>) returns (r: Result<seq<string>, Error>)
    ensures r == DictLines(key, es)
  {
    var lines: seq<string> := [];
    var j := 0;
    while j < |es|
      invariant 0 <= j <= |es|
      invariant DictLines(key, es[..j]) == Success(lines)
    {
      var (k, v) := es[j];
      DictLinesExtend(key, es, j);
      if v.VDict? || v.VList? {
        DictLinesPrefixFailure(key, es, j + 1);
        return Failure(SerializerError);
      }
      var ev := Escaped(v);
      if ev.Failure? {
        DictLinesPrefixFailure(key, es, j + 1);
        return Failure(ev.error);
      }
      lines := lines + [key + "[" + Quote(Trim(k)) + "]=" + Quote(ev.value)];
      j := j + 1;
    }
    assert es[..j] == es;
    r := Success(lines);
  }

  /** The inner loop over a list. */
  method ArrayWords(items: seq<Value>) returns (r: Result<seq<string>, Error>)
    ensures r == ListWords(items)
  {
    var words: seq<string> := [];
    var j := 0;
    while j < |items|
      invariant 0 <= j <= |items|
      invariant ListWords(items[..j]) == Success(words)
    {
      assert items[..j + 1][..j] == items[..j];
      var w := Escaped(items[j]);
      if w.Failure? {
        ListWordsPrefixFailure(items, j + 1);
        return Failure(w.error);
      }
      words := words + [Quote(w.value)];
      j := j + 1;
    }
    assert items[..j] == items;
    r := Success(words);
  }
}
