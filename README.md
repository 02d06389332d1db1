# os-heat-agent deployment engine in Dafny

os-heat-agent runs software deployments that OpenStack Heat sends to a server.
This project models three parts of it:

- **The deployment engine** (`deployments.py`). `get_deployment` decides from
  the shape of `config` whether a deployment descriptor is a SoftwareConfig,
  a StructuredConfig or a SoftwareComponent. The `Deployment` constructor then:
  - sorts every input into one of four buckets (Heat, agent-internal,
    environment variable, passthrough);
  - splits the `group` string into a group and a lower-cased tool path;
  - runs the class's `normalize`.

  `validate`, `environment`, `signal` and `run` work on the resulting object.
  `run` looks the runner up in the `TOOLS` registry, checks that the runner
  supports the deployment's class, and calls the runner's `pre`, `run` and
  `post` on the config dict, in that order.
- **The shell runner** (`runners/shell.py`). It has:
  - the `enabled_runners` table that `init` rebuilds;
  - `normalize`, which checks the group and the command;
  - `pre` and `post`, which create and remove the serialized script file;
  - the argv builder `command`;
  - `run`.
- **The Babashka runner** (`runners/babashka.py`). It has:
  - `normalize`, which checks the executable, the variables directory, the
    directory and the function;
  - `command` and `run`;
  - `pre`, which writes the variables file under the base name of
    `variable_file`;
  - `post`;
  - `bashify`, which turns a one-level dict into Bash assignment lines.

## How the model is built

**Values.** Python values are modelled by the `Value` datatype.
- A Python dict is an insertion-ordered `Dict<V>`, a sequence of key/value
  pairs. `Set` overwrites in place or appends, and `Delete` removes.
- A dict that the code mutates in place (the config dict the runners receive)
  is a `Manifest` object.
- The disk is a `Disk` value inside a `FileSystem` object.

**Runner steps.** Each runner step is a pure specification function that
returns a `Step`:
- the new dict;
- the new disk;
- the return value or the error raised.

Each step's method on `Manifest`/`FileSystem` objects is proved equal to its
specification function.

**The Deployment class.** It keeps the fields the Python object keeps:
`_data`, the four buckets, `_group`, `_tool`, `_outputs` and `_options`.
- `Deployment.Create` files the inputs in a loop that is proved against
  `SortInputs`.
- `Deployment.Normalize` and `Deployment.Run` are proved against
  `NormalizeSpec` and `RunSpec`.

**Parameters instead of globals.** The module-global state and the outside
world become parameters:
- the shell runner's `enabled_runners` is a field of `ShellRunner`;
- the Babashka configuration (executable path, variables directory) is a
  `Settings` value;
- `subprocess.run` is an `Exec` oracle from argv and environment to `Output`;
- the host `PATH` and the name of the temporary script file are parameters;
- `signal` returns the `Request` it would send instead of sending it.

## Model

| member | source | states |
|---|---|---|
| Shell.Supports | src/os_heat_agent/runners/shell.py:27-41 | true exactly for SoftwareConfig, StructuredConfig and SoftwareComponent |
| Shell.EnabledFrom | src/os_heat_agent/runners/shell.py:59-74 | every enabled runner is a configured name/path pair whose path exists, is a file and is executable; the table has distinct keys |
| Shell.EnabledComplete | src/os_heat_agent/runners/shell.py:59-74 | conversely, every configured runner whose path is usable is enabled under its name with its path |
| Shell.EnabledEmpty | src/os_heat_agent/runners/shell.py:59-77 | the rebuilt table is empty exactly when no configured path is usable, which is when init raises NoEnabledRunners |
| Shell.ShellRunner.constructor | src/os_heat_agent/runners/shell.py:29 | the table starts empty |
| Shell.ShellRunner.Init | src/os_heat_agent/runners/shell.py:55-77 | the old table is discarded and rebuilt from the configuration only; a missing runners section leaves it empty and raises KeyError; an empty result raises NoEnabledRunners |
| Shell.ShellRunner.Normalize | src/os_heat_agent/runners/shell.py:95-109 | on success the config is exactly NormalizeSpec's; on failure it is unchanged and the error is NormalizeSpec's |
| Shell.ShellRunner.Run | src/os_heat_agent/runners/shell.py:171-205 | the config and the result are RunSpec's: normalize, then command, then the oracle with the caller's environment plus PATH |
| Shell.NormalizeSpec | src/os_heat_agent/runners/shell.py:95-109 | a missing group or one that is not a list raises MissingRunner; an empty group raises IndexError; a string group[0] that is not enabled raises MissingRunner, and an enabled one with a falsy command raises RunnerError; a non-string group[0] raises TypeError when it is unhashable and MissingRunner otherwise |
| Shell.NormalizeSucceeds | src/os_heat_agent/runners/shell.py:102-109 | for a group led by a string, success holds iff that runner is enabled and the command is truthy; then runner is set to the enabled path, every other key is unchanged, and the keys stay distinct |
| Shell.NormalizePrepares | src/os_heat_agent/runners/shell.py:102-109 | a normalized dict has what command needs: a runner path and a list group headed by a string |
| Shell.NormalizeIdempotent | src/os_heat_agent/runners/shell.py:102-109 | normalizing a normalized dict succeeds and changes nothing |
| Shell.CommandSpec | src/os_heat_agent/runners/shell.py:158-168 | the argv starts with the runner path; when serialize is truthy it is exactly [runner, filehandle name] and succeeds iff a file handle is present; otherwise it is [runner, known_modifiers[group[0]], the echoed command] |
| Shell.FileCommand | src/os_heat_agent/runners/shell.py:161-163 | succeeds iff a file handle is stored, and is then exactly [runner, its name]; a missing handle is a KeyError |
| Shell.InlineCommand | src/os_heat_agent/runners/shell.py:164-166 | succeeds iff the group name is a known modifier and the command can be echoed; the argv is then [runner, the modifier, the echoed command]; an unknown name or a missing command is a KeyError |
| Shell.CommandInline | src/os_heat_agent/runners/shell.py:164-166 | a bash script that is not serialized gives exactly [runner, "-c", script], the script text unchanged |
| Shell.KnownFlags | src/os_heat_agent/runners/shell.py:31-34 | known_modifiers maps bash to -c and python to -e, and has no other key |
| Shell.CommandSerialized | src/os_heat_agent/runners/shell.py:161-163 | with serialize truthy and a stored file, the argv is [runner, the file name] |
| Shell.Command | src/os_heat_agent/runners/shell.py:152-168 | the argv built by appending equals CommandSpec |
| Shell.FileArgv | src/os_heat_agent/runners/shell.py:158-163 | the serialized argv built by appending equals FileCommand |
| Shell.InlineArgv | src/os_heat_agent/runners/shell.py:158-166 | the inline argv built by appending equals InlineCommand |
| Shell.ExecEnvironment | src/os_heat_agent/runners/shell.py:187-188 | the child's environment has PATH set to the host's and every other variable as the caller gave it |
| Shell.PreSpec | src/os_heat_agent/runners/shell.py:122-133 | returns True iff serialize is truthy and the command is a string, and then adds filehandle and writes the command to the temporary file; returns False iff serialize is falsy; otherwise the dict and the disk are unchanged |
| Shell.PostSpec | src/os_heat_agent/runners/shell.py:143-148 | returns True iff the stored filehandle is a file, and then the new dict is the old one without the key and the new disk the old one without that file; a truthy handle that is not a file raises AttributeError; otherwise False with the dict and the disk unchanged |
| Shell.PrePostRoundTrip | src/os_heat_agent/runners/shell.py:122-148 | post after a successful pre restores the original dict and disk and returns what pre returned |
| Shell.PostIdempotent | src/os_heat_agent/runners/shell.py:143-148 | a second post changes nothing and does not report a clean-up; after a first post that returned, the second returns False |
| Shell.Pre | src/os_heat_agent/runners/shell.py:112-133 | the config, the disk and the result are PreSpec's |
| Shell.RunSpec | src/os_heat_agent/runners/shell.py:171-205 | a normalize failure leaves the dict as given and returns its error; otherwise the dict is the normalized one, and an output is the oracle's result for CommandSpec's argv and the caller's environment with PATH |
| Shell.Post | src/os_heat_agent/runners/shell.py:136-148 | the config, the disk and the result are PostSpec's |
| Babashka.Supports | src/os_heat_agent/runners/babashka.py:21-74 | true exactly for StructuredConfig and SoftwareComponent |
| Babashka.CheckExecutable | src/os_heat_agent/runners/babashka.py:102-107 | passes iff the executable exists and is not a directory, else FileNotFoundError |
| Babashka.CheckVariables | src/os_heat_agent/runners/babashka.py:111-119 | passes iff the variables path is a directory, else FileNotFoundError |
| Babashka.NormalizeSpec | src/os_heat_agent/runners/babashka.py:98-138 | never touches the disk and returns True on success; a missing or directory executable raises FileNotFoundError(path) with the dict unchanged; otherwise runner is set, and a missing or non-directory variables path then raises FileNotFoundError(variables); success holds iff both checks pass and the directory step accepts the dict |
| Babashka.NormalizeDirectory | src/os_heat_agent/runners/babashka.py:121-137 | with no directory nothing is checked or changed; a directory that is not a path raises TypeError, one that is not an existing directory raises FileNotFoundError(p); an existing one is stored back as VPath(p), and then a falsy function raises RunnerError and a truthy one returns True; runner is never touched |
| Babashka.NormalizeWithoutDirectory | src/os_heat_agent/runners/babashka.py:121-138 | without a directory, function is not checked and the only change is runner |
| Babashka.NormalizePrepares | src/os_heat_agent/runners/babashka.py:108-137 | after success runner is the executable, and a set directory is an existing directory with a truthy function |
| Babashka.DirectoryPrepares | src/os_heat_agent/runners/babashka.py:120-137 | after the directory step, a truthy directory is a path naming an existing directory and the function is truthy |
| Babashka.NormalizeIdempotent | src/os_heat_agent/runners/babashka.py:98-138 | normalizing a normalized dict succeeds and changes nothing |
| Babashka.DirectoryIdempotent | src/os_heat_agent/runners/babashka.py:121-131 | resolving an already resolved directory changes nothing |
| Babashka.Normalize | src/os_heat_agent/runners/babashka.py:77-138 | the dict and the result are NormalizeSpec's |
| Babashka.CommandSpec | src/os_heat_agent/runners/babashka.py:152-158 | [runner, "-d", directory, function] when a directory is set, [runner, function] otherwise; a missing function is a KeyError |
| Babashka.Command | src/os_heat_agent/runners/babashka.py:141-158 | the argv built by appending equals CommandSpec |
| Babashka.Run | src/os_heat_agent/runners/babashka.py:162-207 | the dict and the result are RunSpec's: normalize, then command, then the oracle |
| Babashka.RunSpec | src/os_heat_agent/runners/babashka.py:162-207 | the dict is the one normalize leaves; a normalize failure is returned as is; an output is the oracle's result for CommandSpec's argv and the caller's environment unchanged |
| Babashka.VariableTarget | src/os_heat_agent/runners/babashka.py:234-240 | the target is the variables directory joined with a base name that holds no slash (the directory itself when the name is empty) |
| Babashka.ParentTarget | src/os_heat_agent/runners/babashka.py:234-240 | a requested name ".." keeps ".." as its base name, so the target is the variables directory joined with "..", its parent |
| Babashka.PreSpec | src/os_heat_agent/runners/babashka.py:229-261 | never changes the dict; no variable_file gives False and no effect; True only with non-empty inputs that bashify accepts |
| Babashka.PreOutcomes | src/os_heat_agent/runners/babashka.py:242-261 | a directory target raises RuntimeError before the empty-input check; empty inputs raise RuntimeError; otherwise the file is opened (truncated) and holds the joined bashify lines, or bashify's error is raised |
| Babashka.PreWrites | src/os_heat_agent/runners/babashka.py:242-261 | a pre that completes with a named variables file has serialized the inputs and left exactly their joined lines in the target |
| Babashka.Pre | src/os_heat_agent/runners/babashka.py:210-261 | the disk and the result are PreSpec's |
| Babashka.WriteVariables | src/os_heat_agent/runners/babashka.py:258-259 | the target file is emptied and then holds the serialized lines joined by newlines, or stays empty with the serializer's error |
| Babashka.Post | src/os_heat_agent/runners/babashka.py:264-267 | the config is unchanged |
| Babashka.Escaped | src/os_heat_agent/runners/babashka.py:284-299 | escaping succeeds iff the value is a string or falsy, and a string comes back stripped |
| Babashka.DictLine | src/os_heat_agent/runners/babashka.py:279-286 | a nested dict or list value raises SerializerError |
| Babashka.DictLines | src/os_heat_agent/runners/babashka.py:279-286 | on success there is one line per entry, in order, each `key["k"]="v"` with the stripped key and the escaped value of a flat value |
| Babashka.AssignsAppend | src/os_heat_agent/runners/babashka.py:279-286 | the line of one more flat entry extends the assignments of the entries before it |
| Babashka.ListWords | src/os_heat_agent/runners/babashka.py:289-294 | on success one word per item, in order, each the item's escaped text in double quotes |
| Babashka.EntryLines | src/os_heat_agent/runners/babashka.py:274-302 | the number of lines an entry yields: one per scalar, string or list, one plus one per entry for a dict |
| Babashka.EntryFormats | src/os_heat_agent/runners/babashka.py:274-302 | a dict entry declares `declare -A key` and then assigns each key; a list is `key=(words)` joined by spaces; a string is `key="stripped text"`; any other value is `key=value` |
| Babashka.BashifySpec | src/os_heat_agent/runners/babashka.py:271-303 | a successful bashify has exactly TotalLines lines: one per scalar, string or list entry, and one per nested entry plus a declaration per dict |
| Babashka.BashifyLast | src/os_heat_agent/runners/babashka.py:274-303 | a successful bashify is the lines of the entries before the last followed by the last entry's lines |
| Babashka.BashifyInOrder | src/os_heat_agent/runners/babashka.py:274-303 | entry i's lines appear, unchanged, starting right after the lines of the entries before it |
| Babashka.DictLineSucceeds | src/os_heat_agent/runners/babashka.py:281-285 | a dict entry serializes iff its value is flat: not a dict or list, and a string or falsy |
| Babashka.DictLinesStep | src/os_heat_agent/runners/babashka.py:279-286 | a dict's lines succeed iff those of its prefix do and its last value is flat |
| Babashka.FlatPrefix | src/os_heat_agent/runners/babashka.py:279-286 | every value of a dict is flat iff every value of its prefix is and its last value is |
| Babashka.DictLinesExtend | src/os_heat_agent/runners/babashka.py:279-286 | one more entry adds its line to the lines of the entries before it, or raises its error |
| Babashka.DictLinesSucceed | src/os_heat_agent/runners/babashka.py:279-286 | a dict's lines succeed iff every value in it is flat |
| Babashka.ListWordsSucceed | src/os_heat_agent/runners/babashka.py:290-294 | a list serializes iff every item is a string or falsy |
| Babashka.ListWordsStep | src/os_heat_agent/runners/babashka.py:290-294 | a list's words succeed iff those of its prefix do and its last item quotes |
| Babashka.BashifySucceeds | src/os_heat_agent/runners/babashka.py:271-303 | bashify succeeds iff every top-level value is serializable |
| Babashka.NestedRejected | src/os_heat_agent/runners/babashka.py:279-282 | any dict or list inside a top-level dict, even an empty one, makes bashify fail |
| Babashka.DictLinesNested | src/os_heat_agent/runners/babashka.py:279-282 | in a nested dict, the first container after flat entries raises SerializerError |
| Babashka.BashifyEntryFailure | src/os_heat_agent/runners/babashka.py:274-303 | the first entry that cannot be serialized decides bashify's error |
| Babashka.NestedSerializerError | src/os_heat_agent/runners/babashka.py:279-282 | a container nested in a dict, after entries that serialize, makes bashify raise SerializerError |
| Babashka.BashifyPrefixFailure | src/os_heat_agent/runners/babashka.py:274-303 | the first failing entry decides the error |
| Babashka.DictLinesPrefixFailure | src/os_heat_agent/runners/babashka.py:279-286 | the first failing dict entry decides the error |
| Babashka.ListWordsPrefixFailure | src/os_heat_agent/runners/babashka.py:290-294 | the first failing list item decides the error |
| Babashka.Bashify | src/os_heat_agent/runners/babashka.py:271-303 | the lines appended in the nested loops equal BashifySpec |
| Babashka.EntryLinesOf | src/os_heat_agent/runners/babashka.py:275-302 | one entry's lines equal EntryLines |
| Babashka.NestedDictLines | src/os_heat_agent/runners/babashka.py:278-286 | the declare and per-key lines equal DictLines |
| Babashka.ArrayWords | src/os_heat_agent/runners/babashka.py:289-296 | the quoted words equal ListWords |
| BashifyExamples.SimpleBashify | tests/runners/babashka/test_bashifier.py:5-19 | test_bashify: a string, an integer and a nested dict give exactly a="b", b=1, declare -A d, d["q"]="r" |
| BashifyExamples.SimpleText | tests/runners/babashka/test_bashifier.py:5-19 | test_bashify: those lines joined with newlines are the expected text |
| BashifyExamples.ComplexBashify | tests/runners/babashka/test_bashifier.py:21-39 | test_bashify_complex: a string with spaces and a list add c="b b b" and foo=("bar" "baz" "bar baz") in key order |
| BashifyExamples.DictException | tests/runners/babashka/test_bashifier.py:41-50 | test_bashify_dict_exception: a dict inside a dict raises SerializerError |
| BashifyExamples.ListException | tests/runners/babashka/test_bashifier.py:52-59 | test_bashify_list_exception: a list inside a dict raises SerializerError |
| Deployments.RunnerSupports | src/os_heat_agent/deployments.py:257-258 | a runner supports a class iff it is the shell runner or the class is not SoftwareConfig |
| Deployments.AmongIn | src/os_heat_agent/deployments.py:72 | the Heat-input membership test is list membership |
| Deployments.BucketOf | src/os_heat_agent/deployments.py:72-79 | an input goes to the internal bucket iff its name starts with os_heat_agent_, to the environment bucket iff it starts with envar_, whatever the earlier tests |
| Deployments.BucketTestsDisjoint | src/os_heat_agent/deployments.py:72-77 | no Heat input name carries either prefix, and no name carries both, so the buckets are disjoint |
| Deployments.BucketNames | src/os_heat_agent/deployments.py:72-79 | an input goes to the Heat bucket iff its name is one of heat_inputs, and to the passthrough bucket iff no test claims it |
| Deployments.InputName | src/os_heat_agent/deployments.py:71-79 | an input has a name iff it is a dict with a string name, which is that name |
| Deployments.SetHolds | src/os_heat_agent/deployments.py:73-79 | filing a name into its own bucket keeps the bucket classified |
| Deployments.File | src/os_heat_agent/deployments.py:71-79 | a filed input's name is a key of the bucket its name selects |
| Deployments.FileClassified | src/os_heat_agent/deployments.py:70-79 | filing one input keeps every bucket holding only names that belong to it |
| Deployments.FileGrows | src/os_heat_agent/deployments.py:70-79 | filing never removes a name from any bucket |
| Deployments.FileSound | src/os_heat_agent/deployments.py:71-79 | one filing turn adds no key but the input's own name |
| Deployments.SortInputsClassified | src/os_heat_agent/deployments.py:70-79 | after the loop every bucket holds only names that BucketOf sends there, with distinct keys; Heat, internal and environment names map to the whole input record of that name |
| Deployments.SortInputs | src/os_heat_agent/deployments.py:70-79 | after a completed loop each bucket is a dict with distinct keys |
| Deployments.SortInputsValue | src/os_heat_agent/deployments.py:70-79 | the last input of a name decides what its bucket holds: the whole record in the Heat, internal and environment buckets, its value in the passthrough bucket |
| Deployments.SortInputsSound | src/os_heat_agent/deployments.py:70-79 | every key of every bucket is the name of some input: the loop puts nothing else there |
| Deployments.SortInputsSucceeds | src/os_heat_agent/deployments.py:70-79 | the loop completes iff every input has a string name and every passthrough input has a value |
| Deployments.FileSucceeds | src/os_heat_agent/deployments.py:70-79 | one input files iff it has a string name and, when passed through, a value |
| Deployments.SortInputsStepSucceeds | src/os_heat_agent/deployments.py:70-79 | the loop completes iff it completes on all but the last input and the last is fileable |
| Deployments.FileablePrefix | src/os_heat_agent/deployments.py:70-79 | all inputs are fileable iff all but the last are and the last is |
| Deployments.SortInputsComplete | src/os_heat_agent/deployments.py:70-79 | every input's name ends up in the bucket its name selects |
| Deployments.SortInputsLast | src/os_heat_agent/deployments.py:70-79 | the last input is filed by the last turn |
| Deployments.SortInputsInit | src/os_heat_agent/deployments.py:70-79 | a loop that completes also completes on all but the last input |
| Deployments.SortInputsGrows | src/os_heat_agent/deployments.py:70-79 | the last turn keeps every name filed before it |
| Deployments.SortInputsExtend | src/os_heat_agent/deployments.py:70-79 | one more turn files the next input into what the earlier turns built |
| Deployments.SortInputsPrefixFailure | src/os_heat_agent/deployments.py:70-79 | the first failing input decides the error |
| Deployments.SplitGroup | src/os_heat_agent/deployments.py:82-88 | a missing group is a KeyError, a non-string one an AttributeError; otherwise the group is the first "::" part and the tool is the remaining parts, each lower-cased, in order |
| Deployments.ToolingRoundTrip | src/os_heat_agent/deployments.py:82-88 | for a lower-case group string, joining the group and the tool with "::" gives the string back |
| Deployments.GroupToolSplit | src/os_heat_agent/deployments.py:82-88 | for any group string, the group is a prefix of it kept as written, and joining group and tool with "::" gives the group followed by the rest lower-cased |
| Deployments.Rest | src/os_heat_agent/deployments.py:311 | tool[1:], and the empty list for an empty tool |
| Deployments.InputItems | src/os_heat_agent/deployments.py:70 | a missing inputs key is a KeyError |
| Deployments.UngroupedTool | src/os_heat_agent/deployments.py:304-305 | an ungrouped tool becomes ["shell", Path(tool).name] exactly when the options hold a path-like os_heat_agent_tool; a missing option raises its lookup error, a non-path value TypeError |
| Deployments.ShouldSerialize | src/os_heat_agent/deployments.py:315-320 | the serialize option when present, else False |
| Deployments.LegacyConfigFields | src/os_heat_agent/deployments.py:309-313 | the legacy config holds the command, tool[1:] as group, and should_serialize |
| Deployments.NormalizeSpec | src/os_heat_agent/deployments.py:301-313 | normalize changes only the tool and the config: buckets, group, outputs, options and every other data key are untouched |
| Deployments.SoftwareConfigNormalized | src/os_heat_agent/deployments.py:301-313 | ungrouped becomes ["shell", basename(os_heat_agent_tool)], other tools are kept; a dict config is kept with the data; a string config becomes {command, group: tool[1:], serialize} |
| Deployments.StructuredConfigNormalized | src/os_heat_agent/deployments.py:410-411 | only config["group"] changes, to tool[1:]; the config must be a dict |
| Deployments.NormalizeIdempotent | src/os_heat_agent/deployments.py:301-313 | normalizing twice equals normalizing once |
| Deployments.NormalizedConfigIsDict | src/os_heat_agent/deployments.py:307-313 | after normalize the config is a dict |
| Deployments.ConstructKeepsData | src/os_heat_agent/deployments.py:61-101 | construction changes no data key but config, and the buckets are the classified inputs |
| Deployments.ConstructSpec | src/os_heat_agent/deployments.py:61-101 | a missing inputs key is a KeyError before the group is read, then a missing group is a KeyError; a built state holds SortInputs' buckets, the split group, outputs and options defaulting to an empty dict, and every data key but config as given |
| Deployments.Classify | src/os_heat_agent/deployments.py:466-478 | a missing config is exactly the KeyError case; a string config selects SoftwareConfig, a dict config with a list configs SoftwareComponent, any other dict config StructuredConfig, and any other config no deployment |
| Deployments.GetDeploymentClass | src/os_heat_agent/deployments.py:466-478 | a built deployment's class is SoftwareConfig iff the config is a string, SoftwareComponent iff it is a dict beside a configs list, StructuredConfig iff it is a dict without one |
| Deployments.GetDeploymentSpec | src/os_heat_agent/deployments.py:466-478 | the corrected get_deployment: a missing config is a KeyError; no deployment exactly when no class is chosen; otherwise the chosen class with ConstructSpec's state, or its error |
| Deployments.GetDeploymentAsWritten | src/os_heat_agent/deployments.py:101-105 | as written, a SoftwareComponent descriptor raises TypeError; every other descriptor gives what the corrected get_deployment gives |
| Deployments.ComponentNeverBuiltAsWritten | src/os_heat_agent/deployments.py:101-105 | as written, every SoftwareComponent descriptor raises TypeError; the corrected form builds one whenever construction succeeds |
| Deployments.ComponentExampleRefused | src/os_heat_agent/deployments.py:473-475 | a concrete component descriptor refused as written and built as a SoftwareComponent when corrected |
| Deployments.ComponentExampleClassified | src/os_heat_agent/deployments.py:473-475 | the example's dict config beside a configs list selects SoftwareComponent |
| Deployments.ComponentExampleConstructs | src/os_heat_agent/deployments.py:61-101 | __init__ gets through the example |
| Deployments.DeploymentConfigIsDict | src/os_heat_agent/deployments.py:466-478 | every built deployment has a dict config |
| Deployments.OutputNames | src/os_heat_agent/deployments.py:131 | one name per output |
| Deployments.OutputNamesSucceed | src/os_heat_agent/deployments.py:131 | the names can be read iff every output is a dict with a name, and they are those names in order |
| Deployments.NamesHashable | src/os_heat_agent/deployments.py:131-133 | the output-name set cannot be built iff some output name is a list or dict |
| Deployments.NamesDeclareAgentOutput | src/os_heat_agent/deployments.py:133-136 | no agent output is missing iff some output is named os_heat_agent_is_error |
| Deployments.AbsentOutputsEmpty | src/os_heat_agent/deployments.py:133-136 | no agent output is missing iff the name os_heat_agent_is_error is among the names |
| Deployments.CheckOutputsSucceeds | src/os_heat_agent/deployments.py:131-136 | the output check passes iff the outputs are declared as required |
| Deployments.ValidateSpec | src/os_heat_agent/deployments.py:111-144 | success returns True, and None for a StructuredConfig |
| Deployments.ValidateErrors | src/os_heat_agent/deployments.py:126-143 | the errors come in the source's order: missing options raise MissingInputs whatever the outputs and tool; then a missing os_heat_agent_is_error output raises MissingOutputs whatever the tool; then an unregistered tool[0] raises NoSuchRunner |
| Deployments.ValidateSucceeds | src/os_heat_agent/deployments.py:126-144 | validate succeeds iff the options are a dict holding the class's required options, the outputs are a list of dicts with hashable names one of which is os_heat_agent_is_error, and tool[0] is a registry key |
| Deployments.EnvironmentSucceeds | src/os_heat_agent/deployments.py:146-154 | the environment can be built iff every environment input is a dict with a value |
| Deployments.EnvironmentValue | src/os_heat_agent/deployments.py:149-153 | each variable maps to its value unless a later input yields the same name |
| Deployments.EnvironmentSound | src/os_heat_agent/deployments.py:149-153 | the environment holds nothing else: every variable set in it is the name of some input with `envar_` removed |
| Deployments.EnvironmentStripsPrefix | src/os_heat_agent/deployments.py:153 | an envar_-prefixed name appears without the prefix |
| Deployments.EnvironmentPrefixFailure | src/os_heat_agent/deployments.py:149-153 | the first failing variable decides the error |
| Deployments.EnvironmentOf | src/os_heat_agent/deployments.py:146-154 | a built environment has distinct variable names |
| Deployments.VerbOf | src/os_heat_agent/deployments.py:183 | an empty input yields POST |
| Deployments.SignalAsWritten | src/os_heat_agent/deployments.py:173-184 | no request exactly when deploy_signal_id is absent or falsy; a request goes to that input's value, carries the payload, and takes its verb from the internal inputs, POST by default |
| Deployments.Signal | src/os_heat_agent/deployments.py:173-184 | the corrected signal: no request exactly when deploy_signal_id is absent or falsy; a request goes to that input's value, carries the payload, and takes its verb from the Heat input deploy_signal_verb, POST by default |
| Deployments.NoInternalVerb | src/os_heat_agent/deployments.py:72-75 | deploy_signal_verb is never an internal input |
| Deployments.SignalAlwaysPost | src/os_heat_agent/deployments.py:173-184 | as written, every request signal makes is a POST |
| Deployments.SignalUsesHeatVerb | src/os_heat_agent/deployments.py:173-184 | corrected, a signal with a deploy_signal_id goes to its value with the Heat input's verb, POST by default |
| Deployments.SignalVerbIgnored | src/os_heat_agent/deployments.py:183 | a concrete PUT signal that is sent as POST as written and as PUT when corrected |
| Deployments.DispatchSpec | src/os_heat_agent/deployments.py:245-260 | a SoftwareComponent is exactly the case with no runner; otherwise a lower-cased name missing from TOOLS raises NoSuchRunner with that name, a registered runner that does not support the class raises NotImplementedError, and a supporting one is used with the config's entries |
| Deployments.ConstructedToolLower | src/os_heat_agent/deployments.py:88 | the tool name of a constructed deployment is lower case, so the lower-case and as-is registry lookups agree |
| Deployments.NormalizedToolLower | src/os_heat_agent/deployments.py:304-305 | normalize keeps the tool name lower case |
| Deployments.NormalizedToolHead | src/os_heat_agent/deployments.py:304-305 | after normalize the runner name is "shell" or the name the group gave |
| Deployments.ValidatedDispatch | src/os_heat_agent/deployments.py:245-258 | after validate, run picks TOOLS[tool[0]] and fails only when that runner does not support the class |
| Deployments.ShellNormalizeKeeps | src/os_heat_agent/runners/shell.py:108 | the shell normalize changes only runner |
| Deployments.ShellSteps | src/os_heat_agent/deployments.py:260-263 | a failed shell pre stops there with its dict, disk and error; an output means pre, the environment, run and post all succeeded, and the dict and disk are what post leaves after run after pre |
| Deployments.BabashkaSteps | src/os_heat_agent/deployments.py:260-263 | a failed Babashka pre stops there with its dict, disk and error; an output means pre and the environment succeeded and is run's output, with the dict run leaves and the disk pre left |
| Deployments.RunSpec | src/os_heat_agent/deployments.py:239-269 | a dispatch error and a SoftwareComponent leave data and disk as given; otherwise config is replaced by the dict the runner steps leave, every other data key is kept, and the output or the error is the steps' |
| Deployments.ShellStepsRestoreDisk | src/os_heat_agent/deployments.py:260-263 | a shell pre, run and post that succeed leave the disk as before and no filehandle |
| Deployments.BabashkaStepsWriteVariables | src/os_heat_agent/deployments.py:260-263 | a Babashka run that succeeds leaves the variables file holding the bashified passthrough inputs |
| Deployments.BabashkaStepsAfterPre | src/os_heat_agent/deployments.py:260-263 | a Babashka run leaves the disk pre left, and completes only when pre did |
| Deployments.ShellRunRestoresDisk | src/os_heat_agent/deployments.py:239-269 | a successful run through the shell runner leaves the disk as before |
| Deployments.Deployment.constructor | src/os_heat_agent/deployments.py:61-99 | the fields hold the given state |
| Deployments.Deployment.Normalize | src/os_heat_agent/deployments.py:301-313 | the fields become NormalizeSpec's on success, and the error is NormalizeSpec's otherwise |
| Deployments.Deployment.Create | src/os_heat_agent/deployments.py:61-101 | a fresh object whose fields are ConstructSpec's, or ConstructSpec's error |
| Deployments.FileInputs | src/os_heat_agent/deployments.py:70-79 | the loop's buckets, or its first error, are SortInputs' |
| Deployments.FileInput | src/os_heat_agent/deployments.py:71-79 | one input filed into its bucket, or the missing name or value raised, is File's |
| Deployments.Deployment.Environment | src/os_heat_agent/deployments.py:146-154 | the dict built in the loop is EnvironmentOf |
| Deployments.Deployment.RunShell | src/os_heat_agent/deployments.py:260-263 | the config, disk and output are ShellSteps' |
| Deployments.Deployment.RunBabashka | src/os_heat_agent/deployments.py:260-263 | the config, disk and output are BabashkaSteps' |
| Deployments.Deployment.RunRunner | src/os_heat_agent/deployments.py:260-263 | the config the selected runner leaves, the disk and the output are RunnerSteps' |
| Deployments.Deployment.Run | src/os_heat_agent/deployments.py:239-269 | data, disk and result are RunSpec's, and no other field changes |
| Deployments.Deployment.Dispatch | src/os_heat_agent/deployments.py:245-258 | the outcome of the checks before any runner step is DispatchSpec's on the object's state |
| Deployments.GetDeployment | src/os_heat_agent/deployments.py:466-478 | a fresh deployment of GetDeploymentSpec's class and state, no deployment, or GetDeploymentSpec's error |

## Left out

- Process execution: `subprocess.run` is the `Exec` oracle, and the `bash -c printf %s` escaping subprocess is modelled on its result. It is the identity in the shell runner's `command`, and whitespace trimming in `bashify`.
- HTTP: `signal` returns the `Request` (verb, URL, payload) it would send; the response is not modelled.
- The host `PATH` (`os.environ`) and the temporary file name chosen by `tempfile` are parameters.
- The configuration file: `configparser` values are parameters (the shell runners section, the Babashka `Settings`).
- Babashka `init` and `init_config` are not modelled. They only check the same paths as `normalize` and set configuration defaults. `init_config` writes the key `variables_path` while the code reads `variables`, which is a configuration matter.
- `Path.resolve` is taken as the identity, and file-system checks are predicates over a `Disk` value. `OSError` from opening a file is not modelled.
- Lower-casing is ASCII-only. Floats, logging and the `Runner` base class are not modelled.
- str() of a file handle in a command line is rendered as the file's name.
- Shell.PreSpec: the source creates the temporary file before it reads and writes the command. When the command is missing (a KeyError) or is not a string (a TypeError), the model leaves the disk unchanged; the source would leave an empty temporary file until it is garbage-collected.
- Babashka.NormalizeSpec: the non-dict branch (NotImplementedError) cannot arise, because the config is always a dict (`Deployments.DeploymentConfigIsDict`). The stored directory is the path as given, since `Path.resolve` is the identity here.
- Babashka.PreSpec: a requested base name of ".." is not resolved to the parent directory. Paths are compared as written, so the `Disk` alone decides whether the variables directory joined with ".." counts as a directory and makes pre raise RuntimeError.
- Aliasing: the source's deployment shares its `data` dict with the caller and with the config it hands to the runner. The model keeps `data` as a field of the object and writes the runner's config back into it.
- The code after `return response` in `run` (deployments.py:271-281) is unreachable and is not modelled.
- `MissingInputs` and `MissingOutputs` carry the missing names as a set rather than a list in arbitrary order.
- A `Deployment` object after a failed `normalize` is not modelled: the source raises from the constructor and the object is never returned.
- `environment` removes every occurrence of `envar_` from a name (`str.replace`), not only the prefix. The model follows the code; `Deployments.EnvironmentStripsPrefix` states the prefix case.
- `bashify` does not check list items for nesting. A non-empty nested list or dict item reaches the escaping step and raises the TypeError of a non-string argument, not SerializerError. An empty one is falsy and is written as an empty string. The model follows the code.

## Findings

| source | as written | input that shows it | evidently intended | confidence | as-written member | corrected member |
|---|---|---|---|---|---|---|
| src/os_heat_agent/deployments.py:101-105 | `SoftwareComponent` overrides only `run`, so the abstract `normalize` makes the class abstract and `SoftwareComponent(data)` raises TypeError | a descriptor with a dict `config`, a list `configs`, empty inputs and group "Heat" (`Deployments.ComponentExample`) | a SoftwareComponent is built with `normalize` doing nothing, and its `run` returns None | not executed | Deployments.ComponentNeverBuiltAsWritten | Deployments.GetDeploymentSpec |
| src/os_heat_agent/deployments.py:183 | the signal verb is read from the internal inputs, but `deploy_signal_verb` is a Heat input (lines 27-35), so the lookup always misses and every signal is a POST | a deploy_signal_id input plus a deploy_signal_verb input with value "PUT" (`Deployments.PutSignal`) | the verb is taken from the Heat inputs, POST by default | not executed | Deployments.SignalVerbIgnored | Deployments.SignalUsesHeatVerb |
