/**
 * Deployments (src/os_heat_agent/deployments.py): one software deployment as
 * Heat hands it to the agent. Construction files the deployment's inputs into
 * four buckets, splits the group into a group name and a tool, and lets the
 * deployment's kind normalize its configuration; validation checks the
 * agent's options and outputs; running hands the configuration dict to the
 * runner the tool names.
 */
module Deployments {
  import opened Wrappers
  import opened Errors
  import opened Strings
  import opened Dicts
  import opened Values
  import opened FileSystems
  import opened Runners
  import Shell
  import Babashka

  /** The inputs OpenStack Heat itself supplies. */
  const HeatInputs: seq<string> := [
    "deploy_server_id", "deploy_action", "deploy_stack_id", "deploy_resource_name",
    "deploy_signal_transport", "deploy_signal_id", "deploy_signal_verb"
  ]

  /** The agent's own options a SoftwareConfig must carry. */
  const AgentOptions: seq<string> := ["os_heat_agent_tool", "os_heat_agent_serialize"]

  /** The outputs every deployment must declare. */
  const AgentOutputs: seq<string> := ["os_heat_agent_is_error"]

  const InternalPrefix := "os_heat_agent_"
  const EnvPrefix := "envar_"

  /** The TOOLS registry: runner names to runner modules. */
  const Tools: map<string, RunnerId> := map["babashka" := BabashkaTool, "shell" := ShellTool]

  /** The three deployment classes. */
  datatype Kind = SoftwareConfig | StructuredConfig | SoftwareComponent {

    /** self.__class__.__name__, the name the runners' supports checks. */
    function Name(): string {
      match this
      case SoftwareConfig => "SoftwareConfig"
      case StructuredConfig => "StructuredConfig"
      case SoftwareComponent => "SoftwareComponent"
    }

    /** The class's required_options. */
    function RequiredOptions(): seq<string> {
      if this == SoftwareConfig then AgentOptions else []
    }
  }

  /** runner.supports(kind) for the runner module the registry names. */
  function RunnerSupports(id: RunnerId, kind: Kind): (r: bool)
    ensures r <==> (id == ShellTool || kind != SoftwareConfig)
  {
    match id
    case ShellTool => Shell.Supports(kind.Name())
    case BabashkaTool => Babashka.Supports(kind.Name())
  }

  // ---------------------------------------------------------------------
  // Filing the inputs
  // ---------------------------------------------------------------------

  datatype Bucket = HeatBucket | InternalBucket | EnvironmentBucket | PassthroughBucket

  /** `name in names`, one list element at a time. */
  predicate Among(name: string, names: seq<string>)
    decreases |names|
  {
    |names| > 0 && (names[0] == name || Among(name, names[1..]))
  }

  lemma {:induction false} AmongIn(name: string, names: seq<string>)
    ensures Among(name, names) <==> name in names
    decreases |names|
  {
    if |names| > 0 {
      AmongIn(name, names[1..]);
      assert names == [names[0]] + names[1..];
    }
  }

  /**
   * Where __init__ files an input of this name: Heat's own names first, then
   * by prefix. The tests never overlap, so each prefix decides its bucket
   * whatever comes before it.
   */
  function BucketOf(name: string): (r: Bucket)
    ensures r == InternalBucket <==> StartsWith(name, InternalPrefix)
    ensures r == EnvironmentBucket <==> StartsWith(name, EnvPrefix)
  {
    BucketTestsDisjoint(name);
    AmongIn(name, HeatInputs);
    if Among(name, HeatInputs) then HeatBucket
    else if StartsWith(name, InternalPrefix) then InternalBucket
    else if StartsWith(name, EnvPrefix) then EnvironmentBucket
    else PassthroughBucket
  }

  /**
   * The three tests never overlap: no Heat name carries either prefix and no
   * name carries both, so the order in which __init__ makes them does not
   * matter.
   */
  lemma BucketTestsDisjoint(name: string)
    ensures name in HeatInputs ==> !StartsWith(name, InternalPrefix) && !StartsWith(name, EnvPrefix)
    ensures !(StartsWith(name, InternalPrefix) && StartsWith(name, EnvPrefix))
  {
    if StartsWith(name, InternalPrefix) {
      assert name[0] == name[..|InternalPrefix|][0] == 'o';
    }
    if StartsWith(name, EnvPrefix) {
      assert name[0] == name[..|EnvPrefix|][0] == 'e';
    }
    AmongIn(name, HeatInputs);
    if name in HeatInputs {
      assert name[0] == 'd';
    }
  }

  /** The other two buckets: Heat's own names go to the Heat bucket, and every name no test claims is passed through. */
  lemma BucketNames(name: string)
    ensures BucketOf(name) == HeatBucket <==> name in HeatInputs
    ensures BucketOf(name) == PassthroughBucket <==>
      name !in HeatInputs && !StartsWith(name, InternalPrefix) && !StartsWith(name, EnvPrefix)
  {
    AmongIn(name, HeatInputs);
    BucketTestsDisjoint(name);
  }

  /** The four dicts __init__ fills. */
  datatype Inputs = Inputs(heat: Dict<Value>, internal: Dict<Value>, environment: Dict<Value>, passthrough: Dict<Value>) {

    function Of(b: Bucket): Dict<Value> {
      match b
      case HeatBucket => heat
      case InternalBucket => internal
      case EnvironmentBucket => environment
      case PassthroughBucket => passthrough
    }
  }

  /** input["name"], which must then be a string for the prefix tests. */
  function InputName(item: Value): (r: Result<string, Error>)
    ensures r.Success? <==> item.VDict? && Get(item.entries, "name").Some? && Get(item.entries, "name").value.VStr?
    ensures r.Success? ==> Get(item.entries, "name") == Some(VStr(r.value))
  {
    match Index(item, "name")
    case Failure(e) => Failure(e)
    case Success(n) => if n.VStr? then Success(n.s) else Failure(AttributeError)
  }

  /**
   * One bucket after filing: a well-formed dict whose every key is filed
   * there by BucketOf and, except for passthrough inputs, maps to the whole
   * input record of that name.
   */
  ghost predicate BucketHolds(d: Dict<Value>, b: Bucket) {
    && Wf(d)
    && forall k :: HasKey(d, k) ==> BucketOf(k) == b && (b != PassthroughBucket ==> InputName(Get(d, k).value) == Success(k))
  }

  /** What the buckets hold after filing. */
  ghost predicate Classified(inputs: Inputs) {
    && BucketHolds(inputs.heat, HeatBucket)
    && BucketHolds(inputs.internal, InternalBucket)
    && BucketHolds(inputs.environment, EnvironmentBucket)
    && BucketHolds(inputs.passthrough, PassthroughBucket)
  }

  /** Storing a value under a name that belongs in the bucket keeps what the bucket holds. */
  lemma SetHolds(d: Dict<Value>, b: Bucket, name: string, v: Value)
    requires BucketHolds(d, b) && BucketOf(name) == b
    requires b != PassthroughBucket ==> InputName(v) == Success(name)
    ensures BucketHolds(Set(d, name, v), b)
  {
    var r := Set(d, name, v);
    SetWf(d, name, v);
    forall k | HasKey(r, k) ensures BucketOf(k) == b && (b != PassthroughBucket ==> InputName(Get(r, k).value) == Success(k)) {
      if k != name {
        assert Get(r, k) == Get(d, k);
      }
    }
  }

  /** The input has a name, and the bucket that name selects holds it. */
  predicate Filed(inputs: Inputs, item: Value) {
    InputName(item).Success? && HasKey(inputs.Of(BucketOf(InputName(item).value)), InputName(item).value)
  }

  /** One turn of __init__'s loop: the input under its name in its bucket (a passthrough input only by its value). */
  function File(acc: Inputs, item: Value): (r: Result<Inputs, Error>)
    ensures r.Success? ==> Filed(r.value, item)
  {
    match InputName(item)
    case Failure(e) => Failure(e)
    case Success(name) =>
      match BucketOf(name)
      case HeatBucket => Success(acc.(heat := Set(acc.heat, name, item)))
      case InternalBucket => Success(acc.(internal := Set(acc.internal, name, item)))
      case EnvironmentBucket => Success(acc.(environment := Set(acc.environment, name, item)))
      case PassthroughBucket =>
        match Index(item, "value")
        case Failure(e) => Failure(e)
        case Success(v) => Success(acc.(passthrough := Set(acc.passthrough, name, v)))
  }

  /** Filing one input keeps what every bucket holds. */
  lemma FileClassified(acc: Inputs, item: Value)
    requires Classified(acc) && File(acc, item).Success?
    ensures Classified(File(acc, item).value)
  {
    var name := InputName(item).value;
    match BucketOf(name)
    case HeatBucket => SetHolds(acc.heat, HeatBucket, name, item);
    case InternalBucket => SetHolds(acc.internal, InternalBucket, name, item);
    case EnvironmentBucket => SetHolds(acc.environment, EnvironmentBucket, name, item);
    case PassthroughBucket => SetHolds(acc.passthrough, PassthroughBucket, name, Get(item.entries, "value").value);
  }

  /** Filing one more input loses no name already filed. */
  lemma FileGrows(acc: Inputs, item: Value, x: Value)
    requires File(acc, item).Success? && Filed(acc, x)
    ensures Filed(File(acc, item).value, x)
  {
    var name := InputName(item).value;
    var k := InputName(x).value;
    var b := BucketOf(k);
    var d := acc.Of(b);
    if BucketOf(name) == b {
      var v := if b == PassthroughBucket then Get(item.entries, "value").value else item;
      assert File(acc, item).value.Of(b) == Set(d, name, v);
      assert Get(Set(d, name, v), k).Some? by {
        if k != name {
          assert Get(Set(d, name, v), k) == Get(d, k);
        }
      }
    } else {
      assert File(acc, item).value.Of(b) == d;
    }
  }

  /** __init__'s loop over the inputs, in order; the first input that cannot be filed raises. */
  function SortInputs(items: seq<Value>): (r: Result<Inputs, Error>)
    ensures r.Success? ==> Wf(r.value.heat) && Wf(r.value.internal) && Wf(r.value.environment) && Wf(r.value.passthrough)
  {
    if |items| == 0 then Success(Inputs([], [], [], []))
    else
      match SortInputs(items[..|items| - 1])
      case Failure(e) => Failure(e)
      case Success(acc) =>
        FileWf(acc, items[|items| - 1]);
        File(acc, items[|items| - 1])
  }

  /** Filing one input keeps every bucket a dict. */
  lemma FileWf(acc: Inputs, item: Value)
    requires Wf(acc.heat) && Wf(acc.internal) && Wf(acc.environment) && Wf(acc.passthrough)
    ensures File(acc, item).Success? ==>
      var r := File(acc, item).value;
      Wf(r.heat) && Wf(r.internal) && Wf(r.environment) && Wf(r.passthrough)
  {
    if File(acc, item).Success? {
      var name := InputName(item).value;
      SetWf(acc.heat, name, item);
      SetWf(acc.internal, name, item);
      SetWf(acc.environment, name, item);
      if BucketOf(name) == PassthroughBucket {
        SetWf(acc.passthrough, name, Index(item, "value").value);
      }
    }
  }

  /** Filing all the inputs leaves every bucket holding what it should. */
  lemma {:induction false} SortInputsClassified(items: seq<Value>)
    requires SortInputs(items).Success?
    ensures Classified(SortInputs(items).value)
  {
    if |items| > 0 {
      var init := items[..|items| - 1];
      SortInputsClassified(init);
      FileClassified(SortInputs(init).value, items[|items| - 1]);
    }
  }

  /** An input __init__ can file: a dict with a string name, and a value when it is passed through. */
  predicate Fileable(item: Value) {
    && item.VDict? && Get(item.entries, "name").Some? && Get(item.entries, "name").value.VStr?
    && (BucketOf(Get(item.entries, "name").value.s) == PassthroughBucket ==> HasKey(item.entries, "value"))
  }

  /** Filing succeeds exactly when every input is fileable. */
  lemma {:induction false} SortInputsSucceeds(items: seq<Value>)
    ensures SortInputs(items).Success? <==> forall i :: 0 <= i < |items| ==> Fileable(items[i])
  {
    if |items| > 0 {
      var init := items[..|items| - 1];
      SortInputsSucceeds(init);
      SortInputsStepSucceeds(items);
      FileablePrefix(init, items);
    }
  }

  /** One input files exactly when it is fileable. */
  lemma FileSucceeds(acc: Inputs, item: Value)
    ensures File(acc, item).Success? <==> Fileable(item)
  {
  }

  /** The loop gets through all the inputs when it gets through all but the last and the last is fileable. */
  lemma SortInputsStepSucceeds(items: seq<Value>)
    requires |items| > 0
    ensures SortInputs(items).Success? <==> SortInputs(items[..|items| - 1]).Success? && Fileable(items[|items| - 1])
  {
    if SortInputs(items[..|items| - 1]).Success? {
      FileSucceeds(SortInputs(items[..|items| - 1]).value, items[|items| - 1]);
    }
  }

  /** Every input is fileable when every input but the last is and the last is. */
  lemma FileablePrefix(init: seq<Value>, items: seq<Value>)
    requires |items| > 0 && init == items[..|items| - 1]
    ensures (forall i :: 0 <= i < |items| ==> Fileable(items[i])) <==>
            (forall i :: 0 <= i < |init| ==> Fileable(init[i])) && Fileable(items[|items| - 1])
  {
    assert forall i :: 0 <= i < |init| ==> init[i] == items[i];
  }

  /** Filing keeps every input: its name is a key of the bucket its name selects. */
  lemma {:induction false} SortInputsComplete(items: seq<Value>, i: nat)
    requires SortInputs(items).Success? && i < |items|
    ensures Filed(SortInputs(items).value, items[i])
  {
    if i == |items| - 1 {
      SortInputsLast(items);
    } else {
      var init := items[..|items| - 1];
      SortInputsInit(items);
      SortInputsComplete(init, i);
      assert init[i] == items[i];
      SortInputsGrows(items, items[i]);
    }
  }

  /** The last input is filed by the last turn of the loop. */
  lemma SortInputsLast(items: seq<Value>)
    requires SortInputs(items).Success? && |items| > 0
    ensures Filed(SortInputs(items).value, items[|items| - 1])
  {
    var r := File(SortInputs(items[..|items| - 1]).value, items[|items| - 1]);
    assert SortInputs(items) == r;
  }

  /** A loop that got through all the inputs got through all but the last. */
  lemma SortInputsInit(items: seq<Value>)
    requires SortInputs(items).Success? && |items| > 0
    ensures SortInputs(items[..|items| - 1]).Success?
  {
  }

  /** The last turn of the loop loses no name filed before it. */
  lemma SortInputsGrows(items: seq<Value>, x: Value)
    requires SortInputs(items).Success? && |items| > 0
    requires Filed(SortInputs(items[..|items| - 1]).value, x)
    ensures Filed(SortInputs(items).value, x)
  {
    var acc := SortInputs(items[..|items| - 1]).value;
    assert SortInputs(items) == File(acc, items[|items| - 1]);
    FileGrows(acc, items[|items| - 1], x);
  }

  /** What a bucket stores for a filed input: the passthrough bucket its "value", the others the whole record. */
  function Stored(item: Value, b: Bucket): Option<Value> {
    if b == PassthroughBucket then Index(item, "value").ToOption() else Some(item)
  }

  /** The turn that files an input stores it under its name in its bucket. */
  lemma FileStores(acc: Inputs, item: Value)
    requires File(acc, item).Success?
    ensures var n := InputName(item).value;
      Get(File(acc, item).value.Of(BucketOf(n)), n) == Stored(item, BucketOf(n))
  {
  }

  /** A turn filing another name leaves what every bucket stores under this one. */
  lemma FileKeeps(acc: Inputs, item: Value, n: string, b: Bucket)
    requires File(acc, item).Success? && InputName(item) != Success(n)
    ensures Get(File(acc, item).value.Of(b), n) == Get(acc.Of(b), n)
  {
    var m := InputName(item).value;
    if b == BucketOf(m) {
      FileSame(acc, item);
    } else {
      FileOther(acc, item, b);
    }
  }

  /** Filing sets the input's name in its own bucket. */
  lemma FileSame(acc: Inputs, item: Value)
    requires File(acc, item).Success?
    ensures var m := InputName(item).value;
      && Stored(item, BucketOf(m)).Some?
      && File(acc, item).value.Of(BucketOf(m)) == Set(acc.Of(BucketOf(m)), m, Stored(item, BucketOf(m)).value)
  {
  }

  /** Filing leaves the other buckets alone. */
  lemma FileOther(acc: Inputs, item: Value, b: Bucket)
    requires File(acc, item).Success? && b != BucketOf(InputName(item).value)
    ensures File(acc, item).value.Of(b) == acc.Of(b)
  {
  }

  /**
   * The value __init__ leaves under a name is what the last input of that
   * name carried: the whole input record in the Heat, internal and
   * environment buckets, and its "value" in the passthrough bucket.
   */
  lemma {:induction false} SortInputsValue(items: seq<Value>, i: nat)
    requires SortInputs(items).Success? && i < |items|
    requires forall j :: i < j < |items| ==> InputName(items[j]) != InputName(items[i])
    ensures InputName(items[i]).Success?
    ensures var n := InputName(items[i]).value;
      Get(SortInputs(items).value.Of(BucketOf(n)), n) == Stored(items[i], BucketOf(n))
  {
    var init := items[..|items| - 1];
    var last := items[|items| - 1];
    SortInputsInit(items);
    var acc := SortInputs(init).value;
    assert SortInputs(items) == File(acc, last);
    if i == |items| - 1 {
      FileStores(acc, last);
    } else {
      assert init[i] == items[i];
      forall j | i < j < |init| ensures InputName(init[j]) != InputName(init[i]) {
        assert init[j] == items[j];
      }
      SortInputsValue(init, i);
      var n := InputName(items[i]).value;
      FileKeeps(acc, last, n, BucketOf(n));
    }
  }

  /** Filing adds at most the input's own name: any other key of a bucket was there before. */
  lemma FileSound(acc: Inputs, item: Value, b: Bucket, k: string)
    requires File(acc, item).Success? && Get(File(acc, item).value.Of(b), k).Some?
    ensures Get(acc.Of(b), k).Some? || InputName(item) == Success(k)
  {
    var m := InputName(item).value;
    if b == BucketOf(m) {
      FileSame(acc, item);
      if k != m {
        assert Get(Set(acc.Of(b), m, Stored(item, b).value), k) == Get(acc.Of(b), k);
      }
    } else {
      FileOther(acc, item, b);
    }
  }

  /** The buckets hold nothing but the inputs: every key of every bucket is the name of some input. */
  lemma {:induction false} SortInputsSound(items: seq<Value>, b: Bucket, k: string)
    requires SortInputs(items).Success? && Get(SortInputs(items).value.Of(b), k).Some?
    ensures exists i :: 0 <= i < |items| && InputName(items[i]) == Success(k)
  {
    if |items| > 0 {
      var init := items[..|items| - 1];
      var last := items[|items| - 1];
      SortInputsInit(items);
      var acc := SortInputs(init).value;
      assert SortInputs(items) == File(acc, last);
      FileSound(acc, last, b, k);
      if Get(acc.Of(b), k).Some? {
        SortInputsSound(init, b, k);
        var i :| 0 <= i < |init| && InputName(init[i]) == Success(k);
        assert items[i] == init[i];
      } else {
        assert InputName(items[|items| - 1]) == Success(k);
      }
    }
  }

  /** When filing raises at input n, the rest of the inputs are never looked at. */
  lemma {:induction false} SortInputsPrefixFailure(items: seq<Value>, n: nat)
    requires n <= |items| && SortInputs(items[..n]).Failure?
    ensures SortInputs(items) == SortInputs(items[..n])
    decreases |items| - n
  {
    if n < |items| {
      assert items[..n + 1][..n] == items[..n];
      SortInputsPrefixFailure(items, n + 1);
    } else {
      assert items[..n] == items;
    }
  }

  /** One more turn of the loop files the next input into what the earlier turns built. */
  lemma SortInputsExtend(items: seq<Value>, i: nat)
    requires i < |items| && SortInputs(items[..i]).Success?
    ensures SortInputs(items[..i + 1]) == File(SortInputs(items[..i]).value, items[i])
  {
    assert items[..i + 1][..i] == items[..i];
  }

  // ---------------------------------------------------------------------
  // The group and the tool
  // ---------------------------------------------------------------------

  /**
   * data["group"].split("::"): the first part is the group name, the rest,
   * lower-cased, is the tool (the runner's name followed by its arguments).
   */
  function SplitGroup(group: Option<Value>): (r: Result<(string, seq<string>), Error>)
    ensures group.None? ==> r == Failure(KeyError("group"))
    ensures r.Success? <==> group.Some? && group.value.VStr?
    ensures group.Some? && !group.value.VStr? ==> r == Failure(AttributeError)
    ensures r.Success? ==>
      var parts := Split(group.value.s, "::");
      r.value.0 == parts[0] && |r.value.1| == |parts| - 1 &&
      forall i :: 0 <= i < |r.value.1| ==> r.value.1[i] == Lower(parts[i + 1])
  {
    match group
    case None => Failure(KeyError("group"))
    case Some(g) =>
      if g.VStr? then
        var parts := Split(g.s, "::");
        Success((parts[0], LowerAll(parts[1..])))
      else Failure(AttributeError)
  }

  /**
   * For any group string: the group name is the string's beginning, kept as
   * written, and the tool joined back with "::" is the rest of the string
   * lower-cased; every tool segment is lower case.
   */
  lemma {:induction false} GroupToolSplit(s: string)
    ensures SplitGroup(Some(VStr(s))).Success?
    ensures var (group, tool) := SplitGroup(Some(VStr(s))).value;
      && StartsWith(s, group)
      && Join([group] + tool, "::") == group + Lower(s[|group|..])
      && forall i :: 0 <= i < |tool| ==> IsLower(tool[i])
  {
    var parts := Split(s, "::");
    var g := parts[0];
    var tool := LowerAll(parts[1..]);
    assert SplitGroup(Some(VStr(s))).value == (g, tool);
    JoinSplit(s, "::");
    if |parts| == 1 {
      SplitSingle(s, parts);
    } else {
      SplitMany(s, parts);
    }
  }

  /** With no "::" the whole string is the group and the tool is empty. */
  lemma SplitSingle(s: string, parts: seq<string>)
    requires |parts| == 1 && Join(parts, "::") == s
    ensures StartsWith(s, parts[0])
    ensures Join([parts[0]] + LowerAll(parts[1..]), "::") == parts[0] + Lower(s[|parts[0]|..])
  {
    assert s == parts[0];
    assert s[|parts[0]|..] == [];
    assert [parts[0]] + LowerAll(parts[1..]) == [parts[0]];
  }

  /** Past the group, the string is "::" and the rest of the parts joined, which lower-cases part by part. */
  lemma SplitMany(s: string, parts: seq<string>)
    requires |parts| > 1 && Join(parts, "::") == s
    ensures StartsWith(s, parts[0])
    ensures Join([parts[0]] + LowerAll(parts[1..]), "::") == parts[0] + Lower(s[|parts[0]|..])
  {
    var g := parts[0];
    var tail := parts[1..];
    var rest := Join(tail, "::");
    assert parts == [g] + tail;
    JoinCons(g, tail, "::");
    assert s == g + ("::" + rest);
    assert s[|g|..] == "::" + rest;
    LowerAfterSep(g, tail, rest);
  }

  /** Lower-casing "::" and the joined parts is joining the lower-cased parts. */
  lemma LowerAfterSep(g: string, tail: seq<string>, rest: string)
    requires |tail| > 0 && Join(tail, "::") == rest
    ensures Join([g] + LowerAll(tail), "::") == g + Lower("::" + rest)
  {
    var lowered := LowerAll(tail);
    JoinCons(g, lowered, "::");
    LowerJoined(tail, rest);
    LowerSep(rest);
    Regroup(g, "::", Lower(rest));
  }

  /** Concatenation regroups. */
  lemma Regroup(a: string, b: string, c: string)
    ensures a + b + c == a + (b + c)
  {
  }

  /** The lower-cased parts joined are the joined parts lower-cased. */
  lemma LowerJoined(tail: seq<string>, rest: string)
    requires Join(tail, "::") == rest
    ensures Join(LowerAll(tail), "::") == Lower(rest)
  {
    assert IsLower("::");
    JoinLowerAll(tail, "::");
  }

  /** "::" is already lower case. */
  lemma LowerSep(rest: string)
    ensures Lower("::" + rest) == "::" + Lower(rest)
  {
    LowerAppend("::", rest);
    assert IsLower("::");
  }

  /** A lower-case group string is recovered by joining the group name and the tool with "::". */
  lemma ToolingRoundTrip(s: string)
    requires IsLower(s)
    ensures SplitGroup(Some(VStr(s))).Success?
    ensures var (group, tool) := SplitGroup(Some(VStr(s))).value;
      Join([group] + tool, "::") == s
  {
    GroupToolSplit(s);
    var g := SplitGroup(Some(VStr(s))).value.0;
    assert s == g + s[|g|..];
    assert IsLower(s[|g|..]) by {
      forall i | 0 <= i < |s[|g|..]| ensures !('A' <= s[|g|..][i] <= 'Z') {
        assert s[|g|..][i] == s[|g| + i];
      }
    }
  }

  /** tool[1:], which Python also allows on an empty list. */
  function Rest(tool: seq<string>): (r: seq<string>)
    ensures |tool| > 0 ==> r == tool[1..]
    ensures |tool| == 0 ==> r == []
  {
    if |tool| == 0 then [] else tool[1..]
  }

  // ---------------------------------------------------------------------
  // Construction and normalize
  // ---------------------------------------------------------------------

  /** The fields of a deployment object. */
  datatype State = State(
    data: Dict<Value>,
    inputs: Inputs,
    group: string,
    tool: seq<string>,
    outputs: Value,
    options: Value)

  /** for input in data["inputs"]: the inputs, which must be there and be iterable. */
  function InputItems(data: Dict<Value>): (r: Result<seq<Value>, Error>)
    ensures Get(data, "inputs").None? ==> r == Failure(KeyError("inputs"))
  {
    match Get(data, "inputs")
    case None => Failure(KeyError("inputs"))
    case Some(v) => Iterate(v)
  }

  /** The deployment object __init__ builds: inputs filed, group split, defaults taken, then normalize. */
  function ConstructSpec(data: Dict<Value>, kind: Kind): (r: Result<State, Error>)
    ensures Get(data, "inputs").None? ==> r == Failure(KeyError("inputs"))
    ensures InputItems(data).Success? && SortInputs(InputItems(data).value).Success? && Get(data, "group").None? ==>
      r == Failure(KeyError("group"))
    ensures r.Success? ==>
      && InputItems(data).Success? && SortInputs(InputItems(data).value) == Success(r.value.inputs)
      && SplitGroup(Get(data, "group")).Success? && r.value.group == SplitGroup(Get(data, "group")).value.0
      && r.value.outputs == Lookup(data, "outputs", VDict([]))
      && r.value.options == Lookup(data, "options", VDict([]))
      && forall k :: k != "config" ==> Get(r.value.data, k) == Get(data, k)
  {
    var items :- InputItems(data);
    var inputs :- SortInputs(items);
    var g :- SplitGroup(Get(data, "group"));
    NormalizeSpec(kind, State(data, inputs, g.0, g.1, Lookup(data, "outputs", VDict([])), Lookup(data, "options", VDict([]))))
  }

  /** Path(options["os_heat_agent_tool"]).name, for an ungrouped SoftwareConfig: the shell runner with that interpreter. */
  function UngroupedTool(options: Value): (r: Result<seq<string>, Error>)
    ensures r.Success? <==> Index(options, "os_heat_agent_tool").Success? && PathArg(Index(options, "os_heat_agent_tool").value).Success?
    ensures Index(options, "os_heat_agent_tool").Failure? ==> r == Failure(Index(options, "os_heat_agent_tool").error)
    ensures r.Success? ==>
      r.value == ["shell", Basename(PathArg(Index(options, "os_heat_agent_tool").value).value)]
  {
    var t :- Index(options, "os_heat_agent_tool");
    var p :- PathArg(t);
    Success(["shell", Basename(p)])
  }

  /** should_serialize: the option's value, or False when reading it raises. */
  function ShouldSerialize(options: Value): (r: Value)
    ensures options.VDict? && HasKey(options.entries, "os_heat_agent_serialize") ==> Some(r) == Get(options.entries, "os_heat_agent_serialize")
    ensures !(options.VDict? && HasKey(options.entries, "os_heat_agent_serialize")) ==> r == VBool(false)
  {
    match Index(options, "os_heat_agent_serialize")
    case Success(v) => v
    case Failure(_) => VBool(false)
  }

  /** The configuration dict a SoftwareConfig builds around its command for the shell runner. */
  function LegacyConfig(command: Value, tool: seq<string>, options: Value): Value {
    VDict([("command", command), ("group", StrList(Rest(tool))), ("serialize", ShouldSerialize(options))])
  }

  /** What the wrapped configuration holds under each of its three keys. */
  lemma LegacyConfigFields(command: Value, tool: seq<string>, options: Value)
    ensures var cfg := LegacyConfig(command, tool, options).entries;
      && Get(cfg, "command") == Some(command)
      && Get(cfg, "group") == Some(StrList(Rest(tool)))
      && Get(cfg, "serialize") == Some(ShouldSerialize(options))
  {
    var s := ShouldSerialize(options);
    var g := StrList(Rest(tool));
    GetCons(("command", command), [("group", g), ("serialize", s)], "command");
    GetCons(("command", command), [("group", g), ("serialize", s)], "group");
    GetCons(("group", g), [("serialize", s)], "group");
    GetCons(("command", command), [("group", g), ("serialize", s)], "serialize");
    GetCons(("group", g), [("serialize", s)], "serialize");
    GetCons(("serialize", s), [], "serialize");
  }

  /**
   * normalize for each kind. A SoftwareConfig maps the ungrouped tool to the
   * shell runner and wraps a command that is not already a dict; a
   * StructuredConfig records the tool's arguments as its config's group; a
   * SoftwareComponent keeps everything as it is.
   */
  function NormalizeSpec(kind: Kind, st: State): (r: Result<State, Error>)
    ensures r.Success? ==> r.value.inputs == st.inputs && r.value.group == st.group
    ensures r.Success? ==> r.value.outputs == st.outputs && r.value.options == st.options
    ensures r.Success? ==> forall k :: k != "config" ==> Get(r.value.data, k) == Get(st.data, k)
  {
    match kind
    case SoftwareConfig =>
      if |st.tool| == 0 then Failure(IndexError)
      else
        var tool :- if st.tool[0] == "ungrouped" then UngroupedTool(st.options) else Success(st.tool);
        (match Get(st.data, "config")
         case None => Failure(KeyError("config"))
         case Some(c) =>
           if c.VDict? then Success(st.(tool := tool))
           else Success(st.(tool := tool, data := Set(st.data, "config", LegacyConfig(c, tool, st.options)))))
    case StructuredConfig =>
      (match Get(st.data, "config")
       case None => Failure(KeyError("config"))
       case Some(c) =>
         if c.VDict? then Success(st.(data := Set(st.data, "config", VDict(Set(c.entries, "group", StrList(Rest(st.tool)))))))
         else Failure(TypeError))
    case SoftwareComponent => Success(st)
  }

  /**
   * A SoftwareConfig that normalizes has a tool naming a runner other than
   * "ungrouped" (the shell runner when it was ungrouped) and a dict config;
   * a command that was not a dict is now the command of that dict, beside the
   * tool's arguments as the group and the serialize option.
   */
  lemma SoftwareConfigNormalized(st: State)
    requires NormalizeSpec(SoftwareConfig, st).Success?
    ensures var r := NormalizeSpec(SoftwareConfig, st).value;
      && |st.tool| > 0 && |r.tool| > 0 && r.tool[0] != "ungrouped"
      && (st.tool[0] == "ungrouped" ==> r.tool == ["shell", Basename(PathArg(Index(st.options, "os_heat_agent_tool").value).value)])
      && (st.tool[0] != "ungrouped" ==> r.tool == st.tool)
      && Get(r.data, "config").Some? && Get(r.data, "config").value.VDict?
      && (Get(st.data, "config").value.VDict? ==> r.data == st.data)
      && (!Get(st.data, "config").value.VDict? ==>
            var cfg := Get(r.data, "config").value.entries;
            && Get(cfg, "command") == Get(st.data, "config")
            && Get(cfg, "group") == Some(StrList(Rest(r.tool)))
            && Get(cfg, "serialize") == Some(ShouldSerialize(st.options)))
  {
    var r := NormalizeSpec(SoftwareConfig, st).value;
    var c := Get(st.data, "config").value;
    if !c.VDict? {
      LegacyConfigFields(c, r.tool, st.options);
    }
  }

  /** A StructuredConfig that normalizes has a dict config whose group is the tool's arguments, other keys kept. */
  lemma StructuredConfigNormalized(st: State)
    requires NormalizeSpec(StructuredConfig, st).Success?
    ensures var r := NormalizeSpec(StructuredConfig, st).value;
      && r.tool == st.tool
      && Get(st.data, "config").Some? && Get(st.data, "config").value.VDict?
      && Get(r.data, "config").Some? && Get(r.data, "config").value.VDict?
      && var cfg := Get(r.data, "config").value.entries;
      && Get(cfg, "group") == Some(StrList(Rest(st.tool)))
      && forall k :: k != "group" ==> Get(cfg, k) == Get(Get(st.data, "config").value.entries, k)
  {
  }

  /** normalize is idempotent: normalizing a normalized deployment changes nothing. */
  lemma NormalizeIdempotent(kind: Kind, st: State)
    requires NormalizeSpec(kind, st).Success?
    ensures NormalizeSpec(kind, NormalizeSpec(kind, st).value) == NormalizeSpec(kind, st)
  {
    var r := NormalizeSpec(kind, st).value;
    match kind
    case SoftwareConfig =>
      SoftwareConfigNormalized(st);
      SetPresent(r.data, "config", Get(r.data, "config").value);
    case StructuredConfig =>
      StructuredConfigNormalized(st);
      var cfg := Get(r.data, "config").value.entries;
      SetPresent(cfg, "group", StrList(Rest(st.tool)));
      SetPresent(r.data, "config", VDict(cfg));
    case SoftwareComponent =>
  }

  /** Every deployment that normalizes holds a dict as its config, the dict its runner will receive. */
  lemma NormalizedConfigIsDict(kind: Kind, st: State)
    requires NormalizeSpec(kind, st).Success?
    requires kind == SoftwareComponent ==> Get(st.data, "config").Some? && Get(st.data, "config").value.VDict?
    ensures var r := NormalizeSpec(kind, st).value;
      Get(r.data, "config").Some? && Get(r.data, "config").value.VDict?
  {
    match kind
    case SoftwareConfig => SoftwareConfigNormalized(st);
    case StructuredConfig => StructuredConfigNormalized(st);
    case SoftwareComponent =>
  }

  /** What __init__ leaves in the data is what normalize leaves there: a construction that succeeds keeps every other key. */
  lemma ConstructKeepsData(data: Dict<Value>, kind: Kind)
    requires ConstructSpec(data, kind).Success?
    ensures var st := ConstructSpec(data, kind).value;
      && (forall k :: k != "config" ==> Get(st.data, k) == Get(data, k))
      && Classified(st.inputs)
      && st.inputs == SortInputs(InputItems(data).value).value
  {
    SortInputsClassified(InputItems(data).value);
  }

  // ---------------------------------------------------------------------
  // get_deployment
  // ---------------------------------------------------------------------

  /**
   * get_deployment's choice of class: a string config is a SoftwareConfig; a
   * dict config is a SoftwareComponent when the data also carries a list of
   * "configs", else a StructuredConfig; any other config gives no deployment.
   */
  function Classify(data: Dict<Value>): (r: Result<Option<Kind>, Error>)
    ensures Get(data, "config").None? <==> r == Failure(KeyError("config"))
    ensures Get(data, "config").Some? ==> r.Success?
    ensures r == Success(Some(SoftwareConfig)) <==> Get(data, "config").Some? && Get(data, "config").value.VStr?
    ensures r == Success(Some(SoftwareComponent)) <==>
      Get(data, "config").Some? && Get(data, "config").value.VDict? && Lookup(data, "configs", VNone).VList?
    ensures r == Success(Some(StructuredConfig)) <==>
      Get(data, "config").Some? && Get(data, "config").value.VDict? && !Lookup(data, "configs", VNone).VList?
    ensures r == Success(None) <==>
      Get(data, "config").Some? && !Get(data, "config").value.VStr? && !Get(data, "config").value.VDict?
  {
    match Get(data, "config")
    case None => Failure(KeyError("config"))
    case Some(c) =>
      if c.VStr? then Success(Some(SoftwareConfig))
      else if c.VDict? then
        if Lookup(data, "configs", VNone).VList? then Success(Some(SoftwareComponent)) else Success(Some(StructuredConfig))
      else Success(None)
  }

  /**
   * get_deployment with every class constructible: the class Classify chose
   * and the object built for it, or the first error; no object for a config
   * that is neither a string nor a dict.
   */
  function GetDeploymentSpec(data: Dict<Value>): (r: Result<Option<(Kind, State)>, Error>)
    ensures Get(data, "config").None? ==> r == Failure(KeyError("config"))
    ensures r.Success? && r.value.Some? ==>
      Classify(data) == Success(Some(r.value.value.0)) && ConstructSpec(data, r.value.value.0) == Success(r.value.value.1)
    ensures r.Success? && r.value.None? <==> Classify(data) == Success(None)
    ensures Classify(data).Success? && Classify(data).value.Some? && ConstructSpec(data, Classify(data).value.value).Failure? ==>
      r == Failure(ConstructSpec(data, Classify(data).value.value).error)
  {
    var k :- Classify(data);
    match k
    case None => Success(None)
    case Some(kind) =>
      var st :- ConstructSpec(data, kind);
      Success(Some((kind, st)))
  }

  /**
   * get_deployment as the classes are declared: SoftwareComponent does not
   * implement the abstract normalize of its base class, so instantiating it
   * raises TypeError before __init__ runs.
   */
  function GetDeploymentAsWritten(data: Dict<Value>): (r: Result<Option<(Kind, State)>, Error>)
    ensures Classify(data) == Success(Some(SoftwareComponent)) ==> r == Failure(TypeError)
    ensures Classify(data) != Success(Some(SoftwareComponent)) ==> r == GetDeploymentSpec(data)
  {
    var k :- Classify(data);
    match k
    case None => Success(None)
    case Some(kind) =>
      if kind == SoftwareComponent then Failure(TypeError)
      else
        var st :- ConstructSpec(data, kind);
        Success(Some((kind, st)))
  }

  /**
   * The class get_deployment builds follows the shape of the config alone: a
   * string gives a SoftwareConfig, a dict beside a list of "configs" a
   * SoftwareComponent, any other dict a StructuredConfig.
   */
  lemma GetDeploymentClass(data: Dict<Value>)
    requires GetDeploymentSpec(data).Success? && GetDeploymentSpec(data).value.Some?
    ensures var kind := GetDeploymentSpec(data).value.value.0;
      var c := Get(data, "config").value;
      && Get(data, "config").Some?
      && (kind == SoftwareConfig <==> c.VStr?)
      && (kind == SoftwareComponent <==> c.VDict? && Lookup(data, "configs", VNone).VList?)
      && (kind == StructuredConfig <==> c.VDict? && !Lookup(data, "configs", VNone).VList?)
  {
    var kind := GetDeploymentSpec(data).value.value.0;
    assert Classify(data) == Success(Some(kind));
  }

  /** As declared, no data ever yields a SoftwareComponent: it is refused whatever else the data holds. */
  lemma ComponentNeverBuiltAsWritten(data: Dict<Value>)
    requires Classify(data) == Success(Some(SoftwareComponent))
    ensures GetDeploymentAsWritten(data) == Failure(TypeError)
    ensures GetDeploymentSpec(data).Success? <==> ConstructSpec(data, SoftwareComponent).Success?
  {
  }

  /** A SoftwareComponent description: a dict config beside a list of configs. */
  const ComponentExample: Dict<Value> := [
    ("config", VDict([])), ("configs", VList([])), ("inputs", VList([])), ("group", VStr("Heat"))
  ]

  /** The example is refused as declared and built once normalize is the identity. */
  lemma ComponentExampleRefused()
    ensures GetDeploymentAsWritten(ComponentExample) == Failure(TypeError)
    ensures GetDeploymentSpec(ComponentExample).Success? && GetDeploymentSpec(ComponentExample).value.Some?
    ensures GetDeploymentSpec(ComponentExample).value.value.0 == SoftwareComponent
  {
    ComponentExampleClassified();
    ComponentExampleConstructs();
    ComponentNeverBuiltAsWritten(ComponentExample);
  }

  /** The example's dict config beside a list of configs selects SoftwareComponent. */
  lemma ComponentExampleClassified()
    ensures Classify(ComponentExample) == Success(Some(SoftwareComponent))
  {
    assert Get(ComponentExample, "config") == Some(VDict([]));
    assert Lookup(ComponentExample, "configs", VNone) == VList([]);
  }

  /** __init__ gets through the example: no inputs, a string group, and normalize changes nothing. */
  lemma ComponentExampleConstructs()
    ensures ConstructSpec(ComponentExample, SoftwareComponent).Success?
  {
    assert InputItems(ComponentExample) == Success([]);
    assert Get(ComponentExample, "group") == Some(VStr("Heat"));
  }

  /** Every deployment get_deployment builds holds a dict config, the dict its runner will be handed. */
  lemma DeploymentConfigIsDict(data: Dict<Value>)
    requires GetDeploymentSpec(data).Success? && GetDeploymentSpec(data).value.Some?
    ensures var (kind, st) := GetDeploymentSpec(data).value.value;
      Get(st.data, "config").Some? && Get(st.data, "config").value.VDict?
  {
    var kind := Classify(data).value.value;
    var items := InputItems(data).value;
    var inputs := SortInputs(items).value;
    var g := SplitGroup(Get(data, "group")).value;
    var st0 := State(data, inputs, g.0, g.1, Lookup(data, "outputs", VDict([])), Lookup(data, "options", VDict([])));
    NormalizedConfigIsDict(kind, st0);
  }

  // ---------------------------------------------------------------------
  // validate
  // ---------------------------------------------------------------------

  /** [output["name"] for output in outputs]. */
  function OutputNames(items: seq<Value>): (r: Result<seq<Value>, Error>)
    ensures r.Success? ==> |r.value| == |items|
  {
    if |items| == 0 then Success([])
    else
      match OutputNames(items[..|items| - 1])
      case Failure(e) => Failure(e)
      case Success(prev) =>
        match Index(items[|items| - 1], "name")
        case Failure(e) => Failure(e)
        case Success(n) => Success(prev + [n])
  }

  /** set(required_options) - set(options.keys()). */
  function MissingOptions(kind: Kind, options: Dict<Value>): set<string> {
    set o | o in kind.RequiredOptions() && !HasKey(options, o)
  }

  /** set(agent_outputs) - set(outputs). */
  function AbsentOutputs(names: seq<Value>): set<string> {
    set o | o in AgentOutputs && VStr(o) !in names
  }

  /** The outputs part of validate: the names are collected, put in a set, and must include the agent's. */
  function CheckOutputs(outputs: Value): (r: Result<(), Error>)
  {
    var items :- Iterate(outputs);
    var names :- OutputNames(items);
    if exists i :: 0 <= i < |names| && !Hashable(names[i]) then Failure(TypeError)
    else if AbsentOutputs(names) != {} then Failure(MissingOutputs(AbsentOutputs(names)))
    else Success(())
  }

  /**
   * validate, in the source's order: the options must be a dict holding the
   * required options, every output must be a dict with a hashable name,
   * os_heat_agent_is_error must be among the names, and the tool must be in
   * the registry. StructuredConfig's override calls it and returns None.
   */
  function ValidateSpec(kind: Kind, st: State): (r: Result<Option<bool>, Error>)
    ensures r.Success? ==> r.value == (if kind == StructuredConfig then None else Some(true))
  {
    if !st.options.VDict? then Failure(AttributeError)
    else if MissingOptions(kind, st.options.entries) != {} then Failure(MissingInputs(MissingOptions(kind, st.options.entries)))
    else
      var _ :- CheckOutputs(st.outputs);
      if |st.tool| == 0 then Failure(IndexError)
      else if st.tool[0] !in Tools then Failure(NoSuchRunner(st.tool[0]))
      else if kind == StructuredConfig then Success(None)
      else Success(Some(true))
  }

  /** An output validate accepts: a dict whose name is hashable. */
  predicate NamedOutput(o: Value) {
    o.VDict? && HasKey(o.entries, "name") && Hashable(Get(o.entries, "name").value)
  }

  /** The outputs validate accepts: a list of dicts with hashable names, one of them the agent's. */
  predicate OutputsDeclared(outputs: Value) {
    && outputs.VList?
    && (forall i :: 0 <= i < |outputs.items| ==> NamedOutput(outputs.items[i]))
    && (exists i :: 0 <= i < |outputs.items| && outputs.items[i].VDict? && Get(outputs.items[i].entries, "name") == Some(VStr("os_heat_agent_is_error")))
  }

  /** The deployments validate accepts, stated without the order of its checks. */
  predicate Validated(kind: Kind, st: State) {
    && st.options.VDict?
    && (forall o :: o in kind.RequiredOptions() ==> HasKey(st.options.entries, o))
    && OutputsDeclared(st.outputs)
    && |st.tool| > 0 && st.tool[0] in Tools
  }

  /** Collecting the names succeeds exactly when every output is a dict with a name, and keeps them in order. */
  lemma {:induction false} OutputNamesSucceed(items: seq<Value>)
    ensures OutputNames(items).Success? <==> forall i :: 0 <= i < |items| ==> items[i].VDict? && HasKey(items[i].entries, "name")
    ensures OutputNames(items).Success? ==> forall i :: 0 <= i < |items| ==> Some(OutputNames(items).value[i]) == Get(items[i].entries, "name")
  {
    if |items| > 0 {
      var init := items[..|items| - 1];
      OutputNamesSucceed(init);
      assert forall i :: 0 <= i < |init| ==> init[i] == items[i];
      if OutputNames(items).Success? {
        var names := OutputNames(items).value;
        assert names == OutputNames(init).value + [Index(items[|items| - 1], "name").value];
        forall i | 0 <= i < |items| ensures items[i].VDict? && HasKey(items[i].entries, "name") && Some(names[i]) == Get(items[i].entries, "name") {
          if i < |init| {
            assert names[i] == OutputNames(init).value[i];
          }
        }
      }
    }
  }

  /** The names of outputs that are all dicts with a name are hashable exactly when every output is a named output. */
  lemma NamesHashable(items: seq<Value>, names: seq<Value>)
    requires |names| == |items|
    requires forall i :: 0 <= i < |items| ==> items[i].VDict? && Get(items[i].entries, "name") == Some(names[i])
    ensures (exists i :: 0 <= i < |names| && !Hashable(names[i])) <==> !(forall i :: 0 <= i < |items| ==> NamedOutput(items[i]))
  {
    if !(forall i :: 0 <= i < |items| ==> NamedOutput(items[i])) {
      var i :| 0 <= i < |items| && !NamedOutput(items[i]);
      assert !Hashable(names[i]);
    }
  }

  /** The agent's output is among the names exactly when some output carries that name. */
  lemma NamesDeclareAgentOutput(items: seq<Value>, names: seq<Value>)
    requires |names| == |items|
    requires forall i :: 0 <= i < |items| ==> items[i].VDict? && Get(items[i].entries, "name") == Some(names[i])
    ensures AbsentOutputs(names) == {} <==>
      exists i :: 0 <= i < |items| && items[i].VDict? && Get(items[i].entries, "name") == Some(VStr("os_heat_agent_is_error"))
  {
    var err := "os_heat_agent_is_error";
    AbsentOutputsEmpty(names);
    if VStr(err) in names {
      var i :| 0 <= i < |names| && names[i] == VStr(err);
      assert items[i].VDict? && Get(items[i].entries, "name") == Some(VStr(err));
    }
    if exists i :: 0 <= i < |items| && items[i].VDict? && Get(items[i].entries, "name") == Some(VStr(err)) {
      var i :| 0 <= i < |items| && items[i].VDict? && Get(items[i].entries, "name") == Some(VStr(err));
      assert names[i] == VStr(err);
    }
  }

  /** No agent output is missing exactly when the agent's one output name is among the names. */
  lemma AbsentOutputsEmpty(names: seq<Value>)
    ensures AbsentOutputs(names) == {} <==> VStr("os_heat_agent_is_error") in names
  {
    var err := "os_heat_agent_is_error";
    if VStr(err) !in names {
      assert err in AbsentOutputs(names);
    } else {
      assert forall o :: o in AgentOutputs ==> o == err;
    }
  }

  /** The outputs pass exactly when they are declared as the agent needs. */
  lemma CheckOutputsSucceeds(outputs: Value)
    ensures CheckOutputs(outputs).Success? <==> OutputsDeclared(outputs)
  {
    match Iterate(outputs)
    case Failure(_) =>
    case Success(items) =>
      OutputNamesSucceed(items);
      if !outputs.VList? {
        assert items == [];
        assert "os_heat_agent_is_error" in AbsentOutputs([]);
      } else if OutputNames(items).Success? {
        NamesHashable(items, OutputNames(items).value);
        NamesDeclareAgentOutput(items, OutputNames(items).value);
      } else {
        var i :| 0 <= i < |items| && !(items[i].VDict? && HasKey(items[i].entries, "name"));
        assert !NamedOutput(items[i]);
      }
  }

  /** validate succeeds exactly on validated deployments. */
  lemma ValidateSucceeds(kind: Kind, st: State)
    ensures ValidateSpec(kind, st).Success? <==> Validated(kind, st)
  {
    CheckOutputsSucceeds(st.outputs);
    if st.options.VDict? {
      if MissingOptions(kind, st.options.entries) == {} {
        forall o | o in kind.RequiredOptions() ensures HasKey(st.options.entries, o) {
          assert o !in MissingOptions(kind, st.options.entries);
        }
      } else {
        var o :| o in MissingOptions(kind, st.options.entries);
        assert !HasKey(st.options.entries, o);
      }
    }
  }

  /** Outputs that are a list of dicts with hashable names, whether or not the agent's is among them. */
  predicate NamedOutputs(outputs: Value) {
    outputs.VList? && forall i :: 0 <= i < |outputs.items| ==> NamedOutput(outputs.items[i])
  }

  /**
   * validate's errors and their order. A missing option raises MissingInputs
   * whatever the outputs and the tool; with the options complete, named
   * outputs without os_heat_agent_is_error raise MissingOutputs whatever the
   * tool; with both complete, a tool outside the registry raises NoSuchRunner.
   */
  lemma ValidateErrors(kind: Kind, st: State)
    ensures st.options.VDict? && MissingOptions(kind, st.options.entries) != {} ==>
      ValidateSpec(kind, st) == Failure(MissingInputs(MissingOptions(kind, st.options.entries)))
    ensures st.options.VDict? && MissingOptions(kind, st.options.entries) == {} && NamedOutputs(st.outputs) && !OutputsDeclared(st.outputs) ==>
      ValidateSpec(kind, st) == Failure(MissingOutputs({"os_heat_agent_is_error"}))
    ensures st.options.VDict? && MissingOptions(kind, st.options.entries) == {} && OutputsDeclared(st.outputs) && |st.tool| > 0 && st.tool[0] !in Tools ==>
      ValidateSpec(kind, st) == Failure(NoSuchRunner(st.tool[0]))
  {
    CheckOutputsSucceeds(st.outputs);
    if NamedOutputs(st.outputs) && !OutputsDeclared(st.outputs) {
      var items := st.outputs.items;
      OutputNamesSucceed(items);
      var names := OutputNames(items).value;
      NamesHashable(items, names);
      NamesDeclareAgentOutput(items, names);
      assert "os_heat_agent_is_error" in AbsentOutputs(names);
      assert AbsentOutputs(names) == {"os_heat_agent_is_error"};
      assert CheckOutputs(st.outputs) == Failure(MissingOutputs({"os_heat_agent_is_error"}));
    }
  }

  // ---------------------------------------------------------------------
  // environment
  // ---------------------------------------------------------------------

  /**
   * The environment property: each environment input, in order, under its
   * name with every "envar_" removed, holding the input's "value"; a later
   * input whose name reduces to the same variable overrides an earlier one.
   */
  function EnvironmentOf(vars: Dict<Value>): (r: Result<Dict<Value>, Error>)
    ensures r.Success? ==> Wf(r.value)
  {
    if |vars| == 0 then Success([])
    else
      match EnvironmentOf(vars[..|vars| - 1])
      case Failure(e) => Failure(e)
      case Success(env) =>
        match Index(vars[|vars| - 1].1, "value")
        case Failure(e) => Failure(e)
        case Success(v) =>
          SetWf(env, RemoveAll(vars[|vars| - 1].0, EnvPrefix), v);
          Success(Set(env, RemoveAll(vars[|vars| - 1].0, EnvPrefix), v))
  }

  /** The environment can be built exactly when every environment input is a dict with a value. */
  lemma {:induction false} EnvironmentSucceeds(vars: Dict<Value>)
    ensures EnvironmentOf(vars).Success? <==> forall i :: 0 <= i < |vars| ==> vars[i].1.VDict? && HasKey(vars[i].1.entries, "value")
  {
    if |vars| > 0 {
      var init := vars[..|vars| - 1];
      EnvironmentSucceeds(init);
      assert forall i :: 0 <= i < |init| ==> init[i] == vars[i];
      if EnvironmentOf(vars).Success? {
        forall i | 0 <= i < |vars| ensures vars[i].1.VDict? && HasKey(vars[i].1.entries, "value") {
          if i == |vars| - 1 {
            assert Index(vars[|vars| - 1].1, "value").Success?;
          } else {
            assert init[i] == vars[i];
          }
        }
      }
    }
  }

  /**
   * Each environment input sets its variable to its value unless a later
   * input reduces to the same variable name.
   */
  lemma {:induction false} EnvironmentValue(vars: Dict<Value>, i: nat)
    requires EnvironmentOf(vars).Success? && i < |vars|
    requires forall j :: i < j < |vars| ==> RemoveAll(vars[j].0, EnvPrefix) != RemoveAll(vars[i].0, EnvPrefix)
    ensures vars[i].1.VDict? && HasKey(vars[i].1.entries, "value")
    ensures Get(EnvironmentOf(vars).value, RemoveAll(vars[i].0, EnvPrefix)) == Get(vars[i].1.entries, "value")
  {
    var init := vars[..|vars| - 1];
    var last := vars[|vars| - 1];
    var env := EnvironmentOf(init).value;
    var v := Index(last.1, "value").value;
    assert EnvironmentOf(vars).value == Set(env, RemoveAll(last.0, EnvPrefix), v);
    if i < |init| {
      assert init[i] == vars[i];
      forall j | i < j < |init| ensures RemoveAll(init[j].0, EnvPrefix) != RemoveAll(init[i].0, EnvPrefix) {
        assert init[j] == vars[j];
      }
      EnvironmentValue(init, i);
    }
  }

  /** The environment holds nothing else: every variable in it is the reduced name of some environment input. */
  lemma {:induction false} EnvironmentSound(vars: Dict<Value>, k: string)
    requires EnvironmentOf(vars).Success? && Get(EnvironmentOf(vars).value, k).Some?
    ensures exists i :: 0 <= i < |vars| && RemoveAll(vars[i].0, EnvPrefix) == k
  {
    if |vars| > 0 {
      var init := vars[..|vars| - 1];
      var last := vars[|vars| - 1];
      var env := EnvironmentOf(init).value;
      var v := Index(last.1, "value").value;
      assert EnvironmentOf(vars).value == Set(env, RemoveAll(last.0, EnvPrefix), v);
      if RemoveAll(last.0, EnvPrefix) != k {
        assert Get(EnvironmentOf(vars).value, k) == Get(env, k);
        EnvironmentSound(init, k);
        var i :| 0 <= i < |init| && RemoveAll(init[i].0, EnvPrefix) == k;
        assert init[i] == vars[i];
      }
    }
  }

  /** An input named "envar_" followed by a name free of "envar_" sets exactly that name. */
  lemma EnvironmentStripsPrefix(vars: Dict<Value>, i: nat, rest: string)
    requires EnvironmentOf(vars).Success? && i < |vars| && vars[i].0 == EnvPrefix + rest && !Occurs(rest, EnvPrefix)
    requires forall j :: i < j < |vars| ==> RemoveAll(vars[j].0, EnvPrefix) != rest
    ensures vars[i].1.VDict?
    ensures Get(EnvironmentOf(vars).value, rest) == Get(vars[i].1.entries, "value")
  {
    StripLeading(EnvPrefix, rest);
    var name := vars[i].0;
    assert RemoveAll(name, EnvPrefix) == rest;
    EnvironmentValue(vars, i);
  }

  /** When building the environment raises at input n, the later inputs are never looked at. */
  lemma {:induction false} EnvironmentPrefixFailure(vars: Dict<Value>, n: nat)
    requires n <= |vars| && EnvironmentOf(vars[..n]).Failure?
    ensures EnvironmentOf(vars) == EnvironmentOf(vars[..n])
    decreases |vars| - n
  {
    if n < |vars| {
      assert vars[..n + 1][..n] == vars[..n];
      EnvironmentPrefixFailure(vars, n + 1);
    } else {
      assert vars[..n] == vars;
    }
  }

  // ---------------------------------------------------------------------
  // signal
  // ---------------------------------------------------------------------

  /** The HTTP request signal hands to requests.request. */
  datatype Request = Request(verb: Value, url: Value, payload: Value)

  /** input.get("value", "POST") on an input record. */
  function VerbOf(input: Value): (r: Result<Value, Error>)
    ensures input.VDict? <==> r.Success?
    ensures input == VDict([]) ==> r == Success(VStr("POST"))
  {
    if input.VDict? then Success(Lookup(input.entries, "value", VStr("POST"))) else Failure(AttributeError)
  }

  /**
   * signal as written: nothing to do without a deploy_signal_id input;
   * otherwise its value is the URL and the verb is looked up among the
   * agent's internal inputs.
   */
  function SignalAsWritten(inputs: Inputs, payload: Value): (r: Result<Option<Request>, Error>)
    ensures !HasKey(inputs.heat, "deploy_signal_id") ==> r == Success(None)
    ensures r == Success(None) <==> !Truthy(Lookup(inputs.heat, "deploy_signal_id", VNone))
    ensures r.Success? && r.value.Some? ==>
      && Get(inputs.heat, "deploy_signal_id").Some?
      && Index(Get(inputs.heat, "deploy_signal_id").value, "value") == Success(r.value.value.url)
      && r.value.value.payload == payload
      && VerbOf(Lookup(inputs.internal, "deploy_signal_verb", VDict([]))) == Success(r.value.value.verb)
  {
    var signal := Lookup(inputs.heat, "deploy_signal_id", VNone);
    if !Truthy(signal) then Success(None)
    else
      var url :- Index(signal, "value");
      var verb :- VerbOf(Lookup(inputs.internal, "deploy_signal_verb", VDict([])));
      Success(Some(Request(verb, url, payload)))
  }

  /** signal with the verb read from deploy_signal_verb, the Heat input where __init__ files it. */
  function Signal(inputs: Inputs, payload: Value): (r: Result<Option<Request>, Error>)
    ensures !HasKey(inputs.heat, "deploy_signal_id") ==> r == Success(None)
    ensures r == Success(None) <==> !Truthy(Lookup(inputs.heat, "deploy_signal_id", VNone))
    ensures r.Success? && r.value.Some? ==>
      && Get(inputs.heat, "deploy_signal_id").Some?
      && Index(Get(inputs.heat, "deploy_signal_id").value, "value") == Success(r.value.value.url)
      && r.value.value.payload == payload
      && VerbOf(Lookup(inputs.heat, "deploy_signal_verb", VDict([]))) == Success(r.value.value.verb)
  {
    var signal := Lookup(inputs.heat, "deploy_signal_id", VNone);
    if !Truthy(signal) then Success(None)
    else
      var url :- Index(signal, "value");
      var verb :- VerbOf(Lookup(inputs.heat, "deploy_signal_verb", VDict([])));
      Success(Some(Request(verb, url, payload)))
  }

  /** deploy_signal_verb is a Heat input, so __init__ never files it among the internal inputs. */
  lemma NoInternalVerb(inputs: Inputs)
    requires Classified(inputs)
    ensures !HasKey(inputs.internal, "deploy_signal_verb")
  {
    AmongIn("deploy_signal_verb", HeatInputs);
    assert BucketOf("deploy_signal_verb") == HeatBucket;
  }

  /** As written, every signal of a constructed deployment is a POST, whatever verb Heat asked for. */
  lemma SignalAlwaysPost(inputs: Inputs, payload: Value)
    requires Classified(inputs)
    requires SignalAsWritten(inputs, payload).Success? && SignalAsWritten(inputs, payload).value.Some?
    ensures SignalAsWritten(inputs, payload).value.value.verb == VStr("POST")
  {
    NoInternalVerb(inputs);
  }

  /**
   * The corrected signal of a constructed deployment: every deploy_signal_id
   * input (always a non-empty dict) is signalled, to its value, with the
   * verb Heat gave, or POST when it gave none.
   */
  lemma SignalUsesHeatVerb(inputs: Inputs, payload: Value)
    requires Classified(inputs)
    requires HasKey(inputs.heat, "deploy_signal_id")
    requires HasKey(Get(inputs.heat, "deploy_signal_id").value.entries, "value")
    ensures Signal(inputs, payload).Success? && Signal(inputs, payload).value.Some?
    ensures var req := Signal(inputs, payload).value.value;
      && Some(req.url) == Get(Get(inputs.heat, "deploy_signal_id").value.entries, "value")
      && (!HasKey(inputs.heat, "deploy_signal_verb") ==> req.verb == VStr("POST"))
      && (HasKey(inputs.heat, "deploy_signal_verb") ==>
            req.verb == Lookup(Get(inputs.heat, "deploy_signal_verb").value.entries, "value", VStr("POST")))
  {
    var signal := Get(inputs.heat, "deploy_signal_id").value;
    assert InputName(signal).Success?;
    assert HasKey(signal.entries, "name");
    assert Truthy(signal);
    if HasKey(inputs.heat, "deploy_signal_verb") {
      assert InputName(Get(inputs.heat, "deploy_signal_verb").value).Success?;
    }
  }

  /** The Heat inputs of a deployment that asks to be signalled with PUT. */
  const PutSignal: Inputs := Inputs(
    [("deploy_signal_id", VDict([("name", VStr("deploy_signal_id")), ("value", VStr("http://heat/signal"))])),
     ("deploy_signal_verb", VDict([("name", VStr("deploy_signal_verb")), ("value", VStr("PUT"))]))],
    [], [], [])

  /** As written the PUT is sent as a POST; the corrected signal sends the PUT. */
  lemma SignalVerbIgnored()
    ensures SignalAsWritten(PutSignal, VNone) == Success(Some(Request(VStr("POST"), VStr("http://heat/signal"), VNone)))
    ensures Signal(PutSignal, VNone) == Success(Some(Request(VStr("PUT"), VStr("http://heat/signal"), VNone)))
  {
    var id := VDict([("name", VStr("deploy_signal_id")), ("value", VStr("http://heat/signal"))]);
    var verb := VDict([("name", VStr("deploy_signal_verb")), ("value", VStr("PUT"))]);
    assert Get(PutSignal.heat, "deploy_signal_id") == Some(id);
    assert Get(PutSignal.heat, "deploy_signal_verb") == Some(verb);
    assert Get(id.entries, "value") == Some(VStr("http://heat/signal"));
    assert Get(verb.entries, "value") == Some(VStr("PUT"));
  }

  // ---------------------------------------------------------------------
  // run
  // ---------------------------------------------------------------------

  /** What run hands the configuration to: nothing (a SoftwareComponent), or a runner module and the config dict. */
  datatype Dispatch = Skip | Use(runner: RunnerId, config: Dict<Value>)

  /**
   * run's checks before it touches the runner, in the source's order: the
   * lower-cased tool must be registered (NoSuchRunner), then the tool as
   * given, the runner must support the class, and the config must be there
   * and be a dict whose .get the runners call. SoftwareComponent overrides
   * run with a method that does nothing.
   */
  function DispatchSpec(kind: Kind, st: State): (r: Result<Dispatch, Error>)
    ensures r.Success? && r.value.Use? ==> kind != SoftwareComponent && RunnerSupports(r.value.runner, kind)
    ensures r.Success? && r.value.Use? ==> Get(st.data, "config") == Some(VDict(r.value.config))
    ensures kind == SoftwareComponent <==> r == Success(Skip)
    ensures kind != SoftwareComponent && |st.tool| > 0 && Lower(st.tool[0]) !in Tools ==> r == Failure(NoSuchRunner(Lower(st.tool[0])))
    ensures kind != SoftwareComponent && |st.tool| > 0 && st.tool[0] in Tools && Lower(st.tool[0]) in Tools ==>
      && (!RunnerSupports(Tools[st.tool[0]], kind) ==> r == Failure(NotImplementedError))
      && (RunnerSupports(Tools[st.tool[0]], kind) && Get(st.data, "config").Some? && Get(st.data, "config").value.VDict? ==>
            r == Success(Use(Tools[st.tool[0]], Get(st.data, "config").value.entries)))
  {
    if kind == SoftwareComponent then Success(Skip)
    else if |st.tool| == 0 then Failure(IndexError)
    else if Lower(st.tool[0]) !in Tools then Failure(NoSuchRunner(Lower(st.tool[0])))
    else if st.tool[0] !in Tools then Failure(KeyError(st.tool[0]))
    else if !RunnerSupports(Tools[st.tool[0]], kind) then Failure(NotImplementedError)
    else
      match Get(st.data, "config")
      case None => Failure(KeyError("config"))
      case Some(c) => if c.VDict? then Success(Use(Tools[st.tool[0]], c.entries)) else Failure(AttributeError)
  }

  /** The tools of a constructed deployment start with a lower-case runner name. */
  lemma ConstructedToolLower(data: Dict<Value>, kind: Kind)
    requires ConstructSpec(data, kind).Success? && |ConstructSpec(data, kind).value.tool| > 0
    ensures IsLower(ConstructSpec(data, kind).value.tool[0])
  {
    var items := InputItems(data).value;
    var inputs := SortInputs(items).value;
    var g := SplitGroup(Get(data, "group")).value;
    var st0 := State(data, inputs, g.0, g.1, Lookup(data, "outputs", VDict([])), Lookup(data, "options", VDict([])));
    assert ConstructSpec(data, kind) == NormalizeSpec(kind, st0);
    NormalizedToolLower(kind, st0);
  }

  /** normalize keeps the runner name lower-case: it either keeps the tool or makes it the shell runner. */
  lemma NormalizedToolLower(kind: Kind, st: State)
    requires NormalizeSpec(kind, st).Success? && |NormalizeSpec(kind, st).value.tool| > 0
    requires forall i :: 0 <= i < |st.tool| ==> IsLower(st.tool[i])
    ensures IsLower(NormalizeSpec(kind, st).value.tool[0])
  {
    NormalizedToolHead(kind, st);
    ShellIsLower();
    var t := NormalizeSpec(kind, st).value.tool;
    if t[0] != "shell" {
      assert t[0] == st.tool[0];
    }
  }

  /** The shell runner's name has no upper-case letter. */
  lemma ShellIsLower()
    ensures IsLower("shell")
  {
    forall i | 0 <= i < 5 ensures !('A' <= "shell"[i] <= 'Z') {
    }
  }

  /** After normalize the runner name is the shell runner or the runner the group named. */
  lemma NormalizedToolHead(kind: Kind, st: State)
    requires NormalizeSpec(kind, st).Success? && |NormalizeSpec(kind, st).value.tool| > 0
    ensures var t := NormalizeSpec(kind, st).value.tool;
      t[0] == "shell" || (|st.tool| > 0 && t[0] == st.tool[0])
  {
    if kind == SoftwareConfig && st.tool[0] == "ungrouped" {
      assert UngroupedTool(st.options).Success?;
    }
  }

  /**
   * A deployment get_deployment built and validate accepted reaches its
   * runner unless the runner does not support its class: none of run's
   * lookups can fail.
   */
  lemma ValidatedDispatch(data: Dict<Value>)
    requires GetDeploymentSpec(data).Success? && GetDeploymentSpec(data).value.Some?
    requires var (kind, st) := GetDeploymentSpec(data).value.value; ValidateSpec(kind, st).Success?
    ensures var (kind, st) := GetDeploymentSpec(data).value.value;
      kind != SoftwareComponent ==>
        && |st.tool| > 0 && st.tool[0] in Tools && Get(st.data, "config").Some? && Get(st.data, "config").value.VDict?
        && DispatchSpec(kind, st) ==
          if RunnerSupports(Tools[st.tool[0]], kind) then Success(Use(Tools[st.tool[0]], Get(st.data, "config").value.entries))
          else Failure(NotImplementedError)
  {
    var (kind, st) := GetDeploymentSpec(data).value.value;
    ValidateSucceeds(kind, st);
    ConstructedToolLower(data, kind);
    DeploymentConfigIsDict(data);
  }

  /** The shell runner's part of run: pre, the environment, the runner's run, then post, on the config dict and the disk. */
  function ShellSteps(config: Dict<Value>, vars: Dict<Value>, enabled: Dict<string>, disk: Disk, hostPath: string, tempName: string, exec: Exec): (s: Step<Output>)
    ensures var pre := Shell.PreSpec(config, disk, tempName);
      pre.result.Failure? ==> s == Step(pre.entries, pre.disk, Failure(pre.result.error))
    ensures var pre := Shell.PreSpec(config, disk, tempName);
      s.result.Success? ==>
        && pre.result.Success? && EnvironmentOf(vars).Success?
        && var (ran, out) := Shell.RunSpec(pre.entries, enabled, EnvironmentOf(vars).value, hostPath, exec);
        && var post := Shell.PostSpec(ran, pre.disk);
        && out == s.result && post.result.Success? && s.entries == post.entries && s.disk == post.disk
  {
    var pre := Shell.PreSpec(config, disk, tempName);
    if pre.result.Failure? then Step(pre.entries, pre.disk, Failure(pre.result.error))
    else
      match EnvironmentOf(vars)
      case Failure(e) => Step(pre.entries, pre.disk, Failure(e))
      case Success(env) =>
        var (ran, out) := Shell.RunSpec(pre.entries, enabled, env, hostPath, exec);
        if out.Failure? then Step(ran, pre.disk, Failure(out.error))
        else
          var post := Shell.PostSpec(ran, pre.disk);
          if post.result.Failure? then Step(post.entries, post.disk, Failure(post.result.error))
          else Step(post.entries, post.disk, Success(out.value))
  }

  /** The Babashka runner's part of run: pre with the passthrough inputs, the environment, the runner's run; post does nothing. */
  function BabashkaSteps(config: Dict<Value>, vars: Dict<Value>, passthrough: Dict<Value>, settings: Babashka.Settings, disk: Disk, exec: Exec): (s: Step<Output>)
    ensures var pre := Babashka.PreSpec(config, passthrough, settings, disk);
      pre.result.Failure? ==> s == Step(pre.entries, pre.disk, Failure(pre.result.error))
    ensures var pre := Babashka.PreSpec(config, passthrough, settings, disk);
      s.result.Success? ==>
        && pre.result.Success? && EnvironmentOf(vars).Success?
        && var (ran, out) := Babashka.RunSpec(pre.entries, settings, pre.disk, EnvironmentOf(vars).value, exec);
        && out == s.result && s.entries == ran && s.disk == pre.disk
  {
    var pre := Babashka.PreSpec(config, passthrough, settings, disk);
    if pre.result.Failure? then Step(pre.entries, pre.disk, Failure(pre.result.error))
    else
      match EnvironmentOf(vars)
      case Failure(e) => Step(pre.entries, pre.disk, Failure(e))
      case Success(env) =>
        var (ran, out) := Babashka.RunSpec(pre.entries, settings, pre.disk, env, exec);
        if out.Failure? then Step(ran, pre.disk, Failure(out.error))
        else Step(ran, pre.disk, Success(out.value))
  }

  /** The steps of the runner run selected, on the config dict and the disk. */
  function RunnerSteps(id: RunnerId, config: Dict<Value>, inputs: Inputs, enabled: Dict<string>, settings: Babashka.Settings, disk: Disk,
                       hostPath: string, tempName: string, exec: Exec): (s: Step<Output>)
  {
    match id
    case ShellTool => ShellSteps(config, inputs.environment, enabled, disk, hostPath, tempName, exec)
    case BabashkaTool => BabashkaSteps(config, inputs.environment, inputs.passthrough, settings, disk, exec)
  }

  /**
   * run on a deployment: the data as left (the config dict is the object the
   * runner changed, so its changes show in the data also when a step raises),
   * the disk, and the runner's output (None for a SoftwareComponent).
   */
  function RunSpec(kind: Kind, st: State, enabled: Dict<string>, settings: Babashka.Settings, disk: Disk,
                   hostPath: string, tempName: string, exec: Exec): (s: Step<Option<Output>>)
    ensures DispatchSpec(kind, st).Failure? ==> s == Step(st.data, disk, Failure(DispatchSpec(kind, st).error))
    ensures kind == SoftwareComponent ==> s == Step(st.data, disk, Success(None))
    ensures DispatchSpec(kind, st).Success? && DispatchSpec(kind, st).value.Use? ==>
      var d := DispatchSpec(kind, st).value;
      var steps := RunnerSteps(d.runner, d.config, st.inputs, enabled, settings, disk, hostPath, tempName, exec);
      && Get(s.entries, "config") == Some(VDict(steps.entries))
      && (forall k :: k != "config" ==> Get(s.entries, k) == Get(st.data, k))
      && s.disk == steps.disk
      && (s.result.Success? <==> steps.result.Success?)
      && (steps.result.Success? ==> s.result.value == Some(steps.result.value))
      && (steps.result.Failure? ==> s.result.error == steps.result.error)
  {
    match DispatchSpec(kind, st)
    case Failure(e) => Step(st.data, disk, Failure(e))
    case Success(Skip) => Step(st.data, disk, Success(None))
    case Success(Use(id, config)) =>
      var steps := RunnerSteps(id, config, st.inputs, enabled, settings, disk, hostPath, tempName, exec);
      Step(Set(st.data, "config", VDict(steps.entries)),
           steps.disk,
           if steps.result.Success? then Success(Some(steps.result.value)) else Failure(steps.result.error))
  }

  /** run on a deployment whose checks pass: the runner's steps, their config dict written back into the data. */
  lemma RunSpecUse(kind: Kind, st: State, enabled: Dict<string>, settings: Babashka.Settings, disk: Disk,
                   hostPath: string, tempName: string, exec: Exec)
    requires DispatchSpec(kind, st).Success? && DispatchSpec(kind, st).value.Use?
    ensures var d := DispatchSpec(kind, st).value;
      var steps := RunnerSteps(d.runner, d.config, st.inputs, enabled, settings, disk, hostPath, tempName, exec);
      RunSpec(kind, st, enabled, settings, disk, hostPath, tempName, exec) ==
        Step(Set(st.data, "config", VDict(steps.entries)), steps.disk,
             if steps.result.Success? then Success(Some(steps.result.value)) else Failure(steps.result.error))
  {
  }

  /** The keys normalize leaves alone. */
  lemma ShellNormalizeKeeps(data: Dict<Value>, enabled: Dict<string>, k: string)
    requires Shell.NormalizeSpec(data, enabled).Success? && k != "runner"
    ensures Get(Shell.NormalizeSpec(data, enabled).value, k) == Get(data, k)
  {
    var g := Get(data, "group").value;
    Shell.NormalizeSucceeds(data, enabled, g.items[0].s);
  }

  /**
   * A shell run that completes leaves the disk as it found it: a command pre
   * serialized to a fresh temporary file is deleted again by post, and the
   * config dict no longer holds the file handle.
   */
  lemma ShellStepsRestoreDisk(config: Dict<Value>, vars: Dict<Value>, enabled: Dict<string>, disk: Disk, hostPath: string, tempName: string, exec: Exec)
    requires !HasKey(config, "filehandle") && !disk.IsFile(tempName)
    requires ShellSteps(config, vars, enabled, disk, hostPath, tempName, exec).result.Success?
    ensures var s := ShellSteps(config, vars, enabled, disk, hostPath, tempName, exec);
      s.disk == disk && !HasKey(s.entries, "filehandle")
  {
    var pre := Shell.PreSpec(config, disk, tempName);
    var env := EnvironmentOf(vars).value;
    var ran := Shell.RunSpec(pre.entries, enabled, env, hostPath, exec).0;
    assert ran == Shell.NormalizeSpec(pre.entries, enabled).value;
    ShellNormalizeKeeps(pre.entries, enabled, "filehandle");
    if pre.result == Success(true) {
      assert Get(ran, "filehandle") == Some(VFile(tempName));
      RemoveWrite(disk, tempName, Get(config, "command").value.s);
    } else {
      assert Get(ran, "filehandle") == None;
    }
  }

  /**
   * A Babashka run that completes leaves the variables file pre wrote (its
   * lines joined by newlines) and changes no other file.
   */
  lemma BabashkaStepsWriteVariables(config: Dict<Value>, vars: Dict<Value>, passthrough: Dict<Value>, settings: Babashka.Settings,
                                    disk: Disk, exec: Exec, requested: string)
    requires Lookup(config, "variable_file", VNone) == VStr(requested) && requested != ""
    requires BabashkaSteps(config, vars, passthrough, settings, disk, exec).result.Success?
    ensures Babashka.BashifySpec(passthrough).Success?
    ensures var t := Babashka.VariableTarget(settings.variables, requested);
      BabashkaSteps(config, vars, passthrough, settings, disk, exec).disk == disk.Write(t, Join(Babashka.BashifySpec(passthrough).value, "\n"))
  {
    BabashkaStepsAfterPre(config, vars, passthrough, settings, disk, exec);
    Babashka.PreWrites(config, passthrough, settings, disk, requested);
  }

  /** The disk a Babashka run leaves is the one pre left, and the run completes only when pre did. */
  lemma BabashkaStepsAfterPre(config: Dict<Value>, vars: Dict<Value>, passthrough: Dict<Value>, settings: Babashka.Settings,
                              disk: Disk, exec: Exec)
    ensures var s := BabashkaSteps(config, vars, passthrough, settings, disk, exec);
      var pre := Babashka.PreSpec(config, passthrough, settings, disk);
      s.disk == pre.disk && (s.result.Success? ==> pre.result.Success?)
  {
  }

  /** Run of a shell deployment that completes leaves the disk as it was. */
  lemma ShellRunRestoresDisk(kind: Kind, st: State, enabled: Dict<string>, settings: Babashka.Settings, disk: Disk,
                             hostPath: string, tempName: string, exec: Exec)
    requires DispatchSpec(kind, st).Success? && DispatchSpec(kind, st).value.Use? && DispatchSpec(kind, st).value.runner == ShellTool
    requires !HasKey(DispatchSpec(kind, st).value.config, "filehandle") && !disk.IsFile(tempName)
    requires RunSpec(kind, st, enabled, settings, disk, hostPath, tempName, exec).result.Success?
    ensures RunSpec(kind, st, enabled, settings, disk, hostPath, tempName, exec).disk == disk
  {
    var config := DispatchSpec(kind, st).value.config;
    ShellStepsRestoreDisk(config, st.inputs.environment, enabled, disk, hostPath, tempName, exec);
  }

  // ---------------------------------------------------------------------
  // The deployment object
  // ---------------------------------------------------------------------

  /** __init__'s loop over the inputs, filing them one at a time; the first input that cannot be filed raises. */
  method FileInputs(xs: seq<Value>) returns (r: Result<Inputs, Error>)
    ensures r == SortInputs(xs)
  {
    var acc := Inputs([], [], [], []);
    var i := 0;
    assert xs[..0] == [];
    while i < |xs|
      invariant 0 <= i <= |xs|
      invariant SortInputs(xs[..i]) == Success(acc)
    {
      SortInputsExtend(xs, i);
      var next := FileInput(acc, xs[i]);
      assert SortInputs(xs[..i + 1]) == next;
      if next.Failure? {
        SortInputsPrefixFailure(xs, i + 1);
        return Failure(next.error);
      }
      acc := next.value;
      i := i + 1;
    }
    assert xs[..|xs|] == xs;
    r := Success(acc);
  }

  /** The body of __init__'s loop: the input's name, then the bucket it goes into. */
  method FileInput(acc: Inputs, item: Value) returns (r: Result<Inputs, Error>)
    ensures r == File(acc, item)
  {
    var name := InputName(item);
    if name.Failure? {
      return Failure(name.error);
    }
    var n := name.value;
    if Among(n, HeatInputs) {
      assert BucketOf(n) == HeatBucket;
      r := Success(acc.(heat := Set(acc.heat, n, item)));
    } else if StartsWith(n, InternalPrefix) {
      assert BucketOf(n) == InternalBucket;
      r := Success(acc.(internal := Set(acc.internal, n, item)));
    } else if StartsWith(n, EnvPrefix) {
      assert BucketOf(n) == EnvironmentBucket;
      r := Success(acc.(environment := Set(acc.environment, n, item)));
    } else {
      assert BucketOf(n) == PassthroughBucket;
      var v := Index(item, "value");
      if v.Failure? {
        return Failure(v.error);
      }
      r := Success(acc.(passthrough := Set(acc.passthrough, n, v.value)));
    }
  }

  /** A deployment object: its class and the fields __init__ sets and normalize updates. */
  class Deployment {
    const kind: Kind
    /** The data dict the deployment was built from; normalize and run update its config. */
    var data: Dict<Value>
    var heatInputs: Dict<Value>
    var internalInputs: Dict<Value>
    var environmentVariables: Dict<Value>
    var passthroughInputs: Dict<Value>
    var group: string
    var tool: seq<string>
    var outputs: Value
    var options: Value

    function Snapshot(): State
      reads this
    {
      State(data, Inputs(heatInputs, internalInputs, environmentVariables, passthroughInputs), group, tool, outputs, options)
    }

    /** The fields as __init__ has filled them, before normalize. */
    constructor (kind: Kind, st: State)
      ensures this.kind == kind && Snapshot() == st
    {
      this.kind := kind;
      data := st.data;
      heatInputs := st.inputs.heat;
      internalInputs := st.inputs.internal;
      environmentVariables := st.inputs.environment;
      passthroughInputs := st.inputs.passthrough;
      group := st.group;
      tool := st.tool;
      outputs := st.outputs;
      options := st.options;
    }

    /** normalize of the deployment's class, updating the tool and the config in place. */
    method Normalize() returns (r: Result<(), Error>)
      modifies this
      ensures NormalizeSpec(kind, old(Snapshot())).Success? ==>
        r == Success(()) && Snapshot() == NormalizeSpec(kind, old(Snapshot())).value
      ensures NormalizeSpec(kind, old(Snapshot())).Failure? ==> r == Failure(NormalizeSpec(kind, old(Snapshot())).error)
    {
      match kind
      case SoftwareConfig =>
        if |tool| == 0 {
          return Failure(IndexError);
        }
        if tool[0] == "ungrouped" {
          var t := Index(options, "os_heat_agent_tool");
          if t.Failure? {
            return Failure(t.error);
          }
          var p := PathArg(t.value);
          if p.Failure? {
            return Failure(p.error);
          }
          tool := ["shell", Basename(p.value)];
        }
        var c := Get(data, "config");
        if c.None? {
          return Failure(KeyError("config"));
        }
        if !c.value.VDict? {
          data := Set(data, "config", LegacyConfig(c.value, tool, options));
        }
        r := Success(());
      case StructuredConfig =>
        var c := Get(data, "config");
        if c.None? {
          return Failure(KeyError("config"));
        }
        if !c.value.VDict? {
          return Failure(TypeError);
        }
        data := Set(data, "config", VDict(Set(c.value.entries, "group", StrList(Rest(tool)))));
        r := Success(());
      case SoftwareComponent =>
        r := Success(());
    }

    /**
     * Deployment(data) for a class: files the inputs one by one, splits the
     * group, takes the outputs and options with their defaults, then
     * normalizes.
     */
    static method Create(data: Dict<Value>, kind: Kind) returns (r: Result<Deployment, Error>)
      ensures r.Success? <==> ConstructSpec(data, kind).Success?
      ensures r.Success? ==> fresh(r.value) && r.value.kind == kind && r.value.Snapshot() == ConstructSpec(data, kind).value
      ensures r.Failure? ==> r.error == ConstructSpec(data, kind).error
    {
      var items := InputItems(data);
      if items.Failure? {
        return Failure(items.error);
      }
      var acc := FileInputs(items.value);
      if acc.Failure? {
        return Failure(acc.error);
      }
      var g := SplitGroup(Get(data, "group"));
      if g.Failure? {
        return Failure(g.error);
      }
      var st := State(data, acc.value, g.value.0, g.value.1, Lookup(data, "outputs", VDict([])), Lookup(data, "options", VDict([])));
      var d := new Deployment(kind, st);
      var n := d.Normalize();
      if n.Failure? {
        return Failure(n.error);
      }
      r := Success(d);
    }

    /** The environment property, building the dict one variable at a time. */
    method Environment() returns (r: Result<Dict<Value>, Error>)
      ensures r == EnvironmentOf(environmentVariables)
    {
      var vars := environmentVariables;
      var env: Dict<Value> := [];
      var i := 0;
      while i < |vars|
        invariant 0 <= i <= |vars|
        invariant EnvironmentOf(vars[..i]) == Success(env)
      {
        assert vars[..i + 1][..i] == vars[..i];
        var (name, obj) := vars[i];
        var v := Index(obj, "value");
        if v.Failure? {
          EnvironmentPrefixFailure(vars, i + 1);
          return Failure(v.error);
        }
        env := Set(env, RemoveAll(name, EnvPrefix), v.value);
        i := i + 1;
      }
      assert vars[..|vars|] == vars;
      r := Success(env);
    }

    /** The shell runner's steps on the config dict. */
    method RunShell(m: Manifest, shell: Shell.ShellRunner, fs: FileSystem, hostPath: string, tempName: string, exec: Exec)
      returns (out: Result<Output, Error>)
      modifies m, fs
      ensures var s := ShellSteps(old(m.entries), environmentVariables, shell.enabledRunners, old(fs.disk), hostPath, tempName, exec);
        m.entries == s.entries && fs.disk == s.disk && out == s.result
    {
      var pre := Shell.Pre(m, fs, tempName);
      if pre.Failure? {
        return Failure(pre.error);
      }
      var env := Environment();
      if env.Failure? {
        return Failure(env.error);
      }
      var ran := shell.Run(m, env.value, hostPath, exec);
      if ran.Failure? {
        return Failure(ran.error);
      }
      var post := Shell.Post(m, fs);
      if post.Failure? {
        return Failure(post.error);
      }
      out := Success(ran.value);
    }

    /** The Babashka runner's steps on the config dict. */
    method RunBabashka(m: Manifest, settings: Babashka.Settings, fs: FileSystem, exec: Exec) returns (out: Result<Output, Error>)
      modifies m, fs
      ensures var s := BabashkaSteps(old(m.entries), environmentVariables, passthroughInputs, settings, old(fs.disk), exec);
        m.entries == s.entries && fs.disk == s.disk && out == s.result
    {
      var pre := Babashka.Pre(m, passthroughInputs, settings, fs);
      if pre.Failure? {
        return Failure(pre.error);
      }
      var env := Environment();
      if env.Failure? {
        return Failure(env.error);
      }
      var ran := Babashka.Run(m, settings, fs.disk, env.value, exec);
      if ran.Failure? {
        return Failure(ran.error);
      }
      Babashka.Post(m);
      out := Success(ran.value);
    }

    /** The selected runner's pre, run and post on a dict holding the config: the dict as they leave it, and the output. */
    method RunRunner(id: RunnerId, config: Dict<Value>, shell: Shell.ShellRunner, settings: Babashka.Settings, fs: FileSystem,
                     hostPath: string, tempName: string, exec: Exec)
      returns (entries: Dict<Value>, out: Result<Output, Error>)
      modifies fs
      ensures var s := RunnerSteps(id, config, Snapshot().inputs, shell.enabledRunners, settings, old(fs.disk), hostPath, tempName, exec);
        entries == s.entries && fs.disk == s.disk && out == s.result
    {
      var m := new Manifest(config);
      if id == ShellTool {
        out := RunShell(m, shell, fs, hostPath, tempName, exec);
      } else {
        out := RunBabashka(m, settings, fs, exec);
      }
      entries := m.entries;
    }

    /**
     * run: looks the runner up, checks it supports this class, and runs pre,
     * run and post on the config dict, whose changes stay in the data.
     */
    method Run(shell: Shell.ShellRunner, settings: Babashka.Settings, fs: FileSystem, hostPath: string, tempName: string, exec: Exec)
      returns (r: Result<Option<Output>, Error>)
      modifies this, fs
      ensures var s := RunSpec(kind, old(Snapshot()), shell.enabledRunners, settings, old(fs.disk), hostPath, tempName, exec);
        data == s.entries && fs.disk == s.disk && r == s.result
      ensures Snapshot() == old(Snapshot()).(data := data)
    {
      ghost var st := Snapshot();
      var d := Dispatch();
      if d.Failure? {
        return Failure(d.error);
      }
      if d.value.Skip? {
        return Success(None);
      }
      RunSpecUse(kind, st, shell.enabledRunners, settings, fs.disk, hostPath, tempName, exec);
      var entries, out := RunRunner(d.value.runner, d.value.config, shell, settings, fs, hostPath, tempName, exec);
      assert Snapshot() == st;
      data := Set(data, "config", VDict(entries));
      r := if out.Success? then Success(Some(out.value)) else Failure(out.error);
    }

    /** run's checks before any runner step: the runner named by the tool, its support for this class, the config dict. */
    method Dispatch() returns (r: Result<Dispatch, Error>)
      ensures r == DispatchSpec(kind, Snapshot())
    {
      if kind == SoftwareComponent {
        return Success(Skip);
      }
      if |tool| == 0 {
        return Failure(IndexError);
      }
      var name := Lower(tool[0]);
      if name !in Tools {
        return Failure(NoSuchRunner(name));
      }
      if tool[0] !in Tools {
        return Failure(KeyError(tool[0]));
      }
      var id := Tools[tool[0]];
      if !RunnerSupports(id, kind) {
        return Failure(NotImplementedError);
      }
      var c := Get(data, "config");
      if c.None? {
        return Failure(KeyError("config"));
      }
      if !c.value.VDict? {
        return Failure(AttributeError);
      }
      r := Success(Use(id, c.value.entries));
    }
  }

  /** get_deployment: the class the data describes, built; no deployment for a config of any other type. */
  method GetDeployment(data: Dict<Value>) returns (r: Result<Option<Deployment>, Error>)
    ensures r.Success? <==> GetDeploymentSpec(data).Success?
    ensures r.Success? ==> (r.value.Some? <==> GetDeploymentSpec(data).value.Some?)
    ensures r.Success? && r.value.Some? ==>
      fresh(r.value.value) && (r.value.value.kind, r.value.value.Snapshot()) == GetDeploymentSpec(data).value.value
    ensures r.Failure? ==> r.error == GetDeploymentSpec(data).error
  {
    var k := Classify(data);
    if k.Failure? {
      return Failure(k.error);
    }
    if k.value.None? {
      return Success(None);
    }
    var d := Deployment.Create(data, k.value.value);
    if d.Failure? {
      return Failure(d.error);
    }
    r := Success(Some(d.value));
  }
}
