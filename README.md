# biobb_common configuration and building-block core, in Dafny

This project models the part of `biobb_common` that turns a workflow
configuration document into per-step settings, and the state every
building block keeps.

- **`ConfReader`** (`ConfSettings`, `conf_reader.dfy`) is the current
  reader of a parsed YAML/JSON document, optionally narrowed to one system.
  It has three parts.
  - `__init__` stores the resolved working directory.
  - `get_prop_dic` builds one properties dictionary for a no-step document,
    one per step otherwise, or a fallback over the whole document.
  - `get_paths_dic` builds the paths view: a flat table, or one table per
    step with every `dependency/<step>/<key>` reference followed.
- **`YamlReader`** (`YamlSettings`, `yaml_reader.dfy`) is the older reader.
  Its `__init__` renames the system's `workflow_path` to a fresh path with
  `get_workflow_path`. As written, that call always raises (see
  "## Findings"), so the constructor and everything after it are modelled
  over the corrected `get_workflow_path`. Its getters place each step under that path with
  `create_name`.
- **`create_name` and `get_workflow_path`** (`FileUtils`, `file_utils.dfy`).
- **The path-resolution pass** both readers share (`PathResolution`,
  `path_resolution.dfy`).
  - Entries are rewritten in place, in loop order.
  - A reference chain reads the table as earlier rewrites left it.
  - A chain that revisits a value makes the source loop forever. The model
    reports this as the outcome `NonTerminating`, and it is proved to occur
    exactly when the loop never exits.
- **`BiobbObject`** (`Biobb`, `biobb_object.dfy`) covers four operations.
  - The constructor's defaults.
  - The unknown-property check.
  - `copy_to_container`, which renames host files into the container volume.
  - `create_cmd_line`, for both the no-container and docker branches.

Supporting modules:

- `Values`: Python values. A `dict` is a sequence of bindings in insertion
  order.
- `PyStrings`: `strip`, `rstrip`, `split`, `join`, `startswith`, `endswith`
  and decimal rendering.
- `PosixPath`: `os.path.join` and the parts of `pathlib` the container
  staging uses.
- `Wrappers`: `Option` and `Result`.

A Python exception is the `Err` case of a `Result`, carrying a `PyError`.
Three inputs come from outside the code:

- the file system, as the finite set of paths that exist;
- the working-directory resolver `fu.get_working_dir_path`, as a function
  parameter;
- the unique directory made by `fu.create_unique_dir`, as a parameter.

Where the repository's documented behaviour differs from its code, the
model follows the code:

- **Dependency cycles:** the code never rejects a cycle. Its `while` loop
  spins forever.
- **Relative base:** a reference resolves to the target's path under the
  named step only when the working directory (or workflow path) is
  absolute. With a relative base, a reference to an entry the loop has
  already rewritten gets the base twice (`out/A/out/A/foo`).
- **Working directory and log level:** `ConfReader` stores whatever
  `fu.get_working_dir_path` returns. The resolver is a parameter of the
  model, so any numbering of an existing directory happens inside it and is
  not modelled. In a
  no-step document, a true `log_level` in the settings overrides the
  document's own `properties`.
- **Errors:** a missing working directory or a dangling reference raises
  Python's `KeyError`/`IndexError`, not a dedicated error type.

## Model

| member | source | states |
|---|---|---|
| ConfSettings.NormalisePrefix | biobb_common/configuration/settings.py:68 | `None` becomes `''`; otherwise the result is a slice of the prefix with only whitespace cut off either side, and it neither starts nor ends with whitespace |
| ConfSettings.NormalisePrefixIdempotent | biobb_common/configuration/settings.py:160 | normalising a normalised prefix changes nothing |
| ConfSettings.InitProperties | biobb_common/configuration/settings.py:23-30 | a named system that is missing raises KeyError; the init fails exactly when the system's entry is not a mapping; afterwards the working-directory slot holds the resolver's answer for the original value; every other key of the document and of the system table is unchanged, and the document's key order is kept |
| ConfSettings.ConfReader.constructor | biobb_common/configuration/settings.py:23-30 | the reader holds the system and the document as `__init__` leaves it, and its working directory is the resolver's answer |
| ConfSettings.ConfReader.WorkingDirPath | biobb_common/configuration/settings.py:43-47 | returns the working directory `__init__` stored, read from the system's table or from the root |
| ConfSettings.ConfReader.GetPropDic | biobb_common/configuration/settings.py:67-143 | the result is the properties view `PropDic` of the reader's state for the normalised prefix |
| ConfSettings.StepEntryLayers | biobb_common/configuration/settings.py:99-123 | every key of a step dictionary has the value of the first layer that defines it: the step's properties, then the console flag, then `log_level`, then the system table (or the root's working directory and console flag), then the generated keys |
| ConfSettings.NoStepLayersHold | biobb_common/configuration/settings.py:71-93 | every key of the no-step dictionary takes the first of these that defines it: the settings' `log_level`, the document's `properties`, the system table or the root's working directory, then the generated keys |
| ConfSettings.FallbackLayersHold | biobb_common/configuration/settings.py:125-140 | every key of the fallback dictionary takes the first of these that defines it: the settings, the generated keys, then the document |
| ConfSettings.GeneratedLookup | biobb_common/configuration/settings.py:74-80 | the generated keys are exactly `path`, `step`, `prefix`, `global_log` and `system`, with their values |
| ConfSettings.SettingsLayerLookup | biobb_common/configuration/settings.py:110-112 | without a system the settings add only the root's `working_dir_path` and, for steps, `can_write_console_log`, which defaults to True |
| ConfSettings.SettingsCarryWorkingDir | biobb_common/configuration/settings.py:108-111 | the settings of a valid reader carry its working directory |
| ConfSettings.StepBelowProperties | biobb_common/configuration/settings.py:99-123 | a key that is not set by the step's properties or by the two settings flags comes from the settings, then from the generated keys |
| ConfSettings.StepPropertiesWin | biobb_common/configuration/settings.py:123 | every key of a step's own `properties` keeps the step's value |
| ConfSettings.StepConsoleLog | biobb_common/configuration/settings.py:118-123 | for a step with properties, `can_write_console_log` comes from the properties, then the settings, then defaults to True |
| ConfSettings.StepWorkingDir | biobb_common/configuration/settings.py:108-111 | a step carries the reader's working directory unless its properties override it |
| ConfSettings.StepPathAndName | biobb_common/configuration/settings.py:99-104 | a step's `path` is `join(wd, prefix, key)` and its `step` is its name, unless its properties or the system table define them |
| ConfSettings.NoStepLogLevelWins | biobb_common/configuration/settings.py:86-93 | a true settings `log_level` overrides the document's properties; every other key of the properties is kept |
| ConfSettings.UnnamedPath | biobb_common/configuration/settings.py:71-140 | the no-step and fallback dictionaries carry `path = join(wd, prefix)` and `step = None` unless a higher layer defines those keys |
| ConfSettings.FallbackUnnamed | biobb_common/configuration/settings.py:128-132 | the fallback's `path` and `step` are the generated ones when the system table does not define them |
| ConfSettings.NoStepUnnamed | biobb_common/configuration/settings.py:73-77 | the no-step `path` and `step` are the generated ones when neither the system table nor the properties define them |
| ConfSettings.FallbackKeepsDocument | biobb_common/configuration/settings.py:126-127 | the fallback keeps every document key that neither the settings nor the generated keys define |
| ConfSettings.StepEntriesOutside | biobb_common/configuration/settings.py:96-99 | only top-level keys can become steps |
| ConfSettings.StepEntriesGet | biobb_common/configuration/settings.py:96-123 | each top-level step gets the dictionary `StepEntry` builds; a non-step entry gets none |
| ConfSettings.StepEntriesKeys | biobb_common/configuration/settings.py:96-99 | the step dictionaries come in document order, one per step |
| ConfSettings.PropDicSteps | biobb_common/configuration/settings.py:94-127 | without top-level `paths`/`properties`, the view is the fallback exactly when there is no step; otherwise it has exactly the steps, in order, each built by `StepEntry` |
| ConfSettings.BuildSteps | biobb_common/configuration/settings.py:96-123 | the loop over the document builds the step dictionaries `StepEntries` describes |
| ConfSettings.ConfReader.GetPathsDic | biobb_common/configuration/settings.py:159-210 | the result is the paths view `PathsDicOf` of the reader's state for the normalised prefix |
| ConfSettings.ResolveFlatEntries | biobb_common/configuration/settings.py:180-188 | a no-step table resolves iff every entry does; with a system only `file:` entries survive and any other raises NameError; each entry keeps its key and gets its resolved value |
| ConfSettings.ResolveFlatTable | biobb_common/configuration/settings.py:180-188 | the loop over the no-step table gives `ResolveFlat` |
| ConfSettings.PrependStep | biobb_common/configuration/settings.py:181-183 | prepending the entries resolved so far commutes with resolving one more entry |
| ConfSettings.CollectPathsOutside | biobb_common/configuration/settings.py:171-172 | only top-level keys get a paths table |
| ConfSettings.CollectPathsGet | biobb_common/configuration/settings.py:171-176 | every top-level mapping gets its `paths` table, or `{}` if it has none; other entries get no table |
| ConfSettings.CollectPathsKeys | biobb_common/configuration/settings.py:171-176 | the tables come in document order, one per top-level mapping |
| ConfSettings.CollectTables | biobb_common/configuration/settings.py:169-176 | the collecting loop gives `CollectPaths` |
| ConfSettings.DepBaseIsWorkingDir | biobb_common/configuration/settings.py:198-201 | followed references are joined under the reader's working directory, except when the system is `''` and the document has a true `''` entry |
| ConfSettings.StringsGet | biobb_common/configuration/settings.py:174 | the copied paths table has a value for exactly the keys of the mapping, and each value is the mapping's string |
| PathResolution.Hop | biobb_common/configuration/settings.py:196-197 | a successful hop lands on a value stored in the table |
| PathResolution.Follow | biobb_common/configuration/settings.py:195-197 | a chain that ends returns a value that is not a reference |
| PathResolution.ReferenceFormsExclusive | biobb_common/configuration/settings.py:194-202 | no value is both a `dependency` reference and a `file:` literal |
| PathResolution.FileLiteralField | biobb_common/configuration/settings.py:203 | `file:p` yields the part of `p` before its first `:`, or all of `p` |
| PathResolution.FileLiteralWhole | biobb_common/configuration/settings.py:203 | `file:p` yields `p` itself when `p` contains no `:` |
| PathResolution.SplitAtLeastTwo | biobb_common/configuration/settings.py:196 | a string containing the separator splits into at least two parts |
| PathResolution.NonTerminatingIffSpins | biobb_common/configuration/settings.py:195-197 | the model reports `NonTerminating` exactly when the source's `while` loop never exits |
| PathResolution.NonTerminatingSpins | biobb_common/configuration/settings.py:195-197 | a `NonTerminating` report means every value met on the chain makes the loop spin |
| PathResolution.SpinsNonTerminating | biobb_common/configuration/settings.py:195-197 | a value on which the loop spins is reported `NonTerminating` |
| PathResolution.ClosedWalk | biobb_common/configuration/settings.py:195-197 | from a set of references each leading into the set, every number of turns succeeds inside the set |
| PathResolution.ClosedSpins | biobb_common/configuration/settings.py:195-197 | such a set makes the loop spin |
| PathResolution.FollowReference | biobb_common/configuration/settings.py:195-197 | the `while` loop as a method computes `Follow` |
| PathResolution.ResolveEntry | biobb_common/configuration/settings.py:194-208 | one entry is resolved as `ResolveValue` says: a followed reference, a `file:` literal or a joined path |
| PathResolution.ResolvePaths | biobb_common/configuration/settings.py:192-208 | the nested loops compute `ResolveFrom` from the first entry |
| PathResolution.SetAt | biobb_common/configuration/settings.py:199 | assigning one entry keeps the table's shape and every other entry |
| PathResolution.ResolveFromEntries | biobb_common/configuration/settings.py:192-208 | a successful pass keeps the shape, and each entry is the resolution of its raw value against the table as the loop saw it then |
| PathResolution.ResolvedFromEarlier | biobb_common/configuration/settings.py:192-208 | what holds after rewriting one entry holds from that entry |
| PathResolution.ResolvedFromStepEnd | biobb_common/configuration/settings.py:192-193 | the end of one step's entries is the start of the next step |
| PathResolution.ResolveFromNextStep | biobb_common/configuration/settings.py:192-193 | the pass moves from one step's last entry to the next step |
| PathResolution.ResolveFromEntry | biobb_common/configuration/settings.py:193-208 | one entry of the pass is resolved, assigned, and the pass continues or stops on the error |
| PathResolution.SnapshotAtStart | biobb_common/configuration/settings.py:192-193 | before the pass, the table the loop sees is the raw one |
| PathResolution.SnapshotIgnoresResolved | biobb_common/configuration/settings.py:199-208 | later views of the table do not depend on the rewritten entry's pre-pass value |
| PathResolution.SnapshotEntry | biobb_common/configuration/settings.py:192-208 | at each point the loop sees earlier entries resolved and later ones raw |
| PathResolution.SameShapeKeys | biobb_common/configuration/settings.py:192-208 | the resolved table has the same steps and keys, in the same order |
| PathResolution.SameShapeTrans | biobb_common/configuration/settings.py:192-208 | having the same shape is transitive |
| PathResolution.PlainEntriesResolved | biobb_common/configuration/settings.py:202-208 | a non-reference entry becomes its `file:` literal, or `join(wd, prefix, step, value)` |
| PathResolution.ReferenceParts | biobb_common/configuration/settings.py:196-197 | `dependency/<step>/<key>` splits into its three parts |
| PathResolution.ReferenceLookup | biobb_common/configuration/settings.py:195-197 | a reference to a plain entry ends in one hop at that entry's value |
| PathResolution.ResolveFollowed | biobb_common/configuration/settings.py:198-201 | a followed reference is joined as (base, prefix, last step, value) |
| PathResolution.ReferenceResolved | biobb_common/configuration/settings.py:194-201 | when the working directory (or workflow path) is absolute, `dependency/<step>/<key>` pointing at a plain entry resolves to `join(wd, prefix, step, value)`, whichever of the two the loop reaches first |
| PathResolution.DoomedAfterSet | biobb_common/configuration/settings.py:197-199 | a reference doomed to fail stays doomed after another entry is rewritten |
| PathResolution.DoomedFails | biobb_common/configuration/settings.py:192-208 | a pass that reaches a doomed reference fails |
| PathResolution.MissingStepFails | biobb_common/configuration/settings.py:197 | a reference to a step with no table makes the pass fail |
| PathResolution.MissingKeyFails | biobb_common/configuration/settings.py:197 | a reference to a key the step lacks makes the pass fail |
| PathResolution.SelfReferenceSpins | biobb_common/configuration/settings.py:195-197 | an entry referring to itself makes the loop spin |
| PathResolution.SelfReferenceFails | biobb_common/configuration/settings.py:192-201 | such an entry makes the whole pass fail, with `NonTerminating` standing for the endless loop |
| FileUtils.CreateNameParts | tools/file_utils.py:144-169 | the name is `"_".join` of the given prefix, step and stripped name, joined under the path when a path is given; an empty name leaves just the path |
| FileUtils.UnderscoreStem | tools/file_utils.py:153-163 | the prefix/step/name chain is `"_".join` of its non-empty parts |
| FileUtils.GetWorkflowPath | tools/file_utils.py:20-35 | the result does not exist; a missing path comes back unchanged; otherwise the result is the first candidate `stem_n` that does not exist |
| FileUtils.FirstFreeUnique | tools/file_utils.py:20-35 | only one path satisfies that description |
| FileUtils.CandidateStem | tools/file_utils.py:33 | stripping a candidate gives back its stem, so numbering restarts from the stem each time |
| FileUtils.CandidatesDistinct | tools/file_utils.py:33 | different numbers give different candidates |
| FileUtils.CandidateNumberBound | tools/file_utils.py:32-34 | a candidate no longer than the longest existing path has a bounded number, so the loop ends |
| FileUtils.NextTried | tools/file_utils.py:32-34 | one turn of the loop on an existing name tries the next candidate |
| FileUtils.NextCandidate | tools/file_utils.py:33 | one turn turns the current name into the next candidate |
| FileUtils.GetWorkflowPathAsWritten | tools/file_utils.py:28 | the function as written raises NameError on `dir_path` |
| FileUtils.WorkflowPathAsWrittenRaises | tools/file_utils.py:28-29 | even a path that does not exist does not come back unchanged |
| YamlSettings.SystemEntry | configuration/settings.py:26 | a missing system raises KeyError; the result succeeds exactly when the system's entry is a mapping |
| YamlSettings.WorkflowPathIn | configuration/settings.py:26 | errors propagate from the system lookup; a missing `workflow_path` raises KeyError; succeeds exactly when it is a string |
| YamlSettings.WithWorkflowPath | configuration/settings.py:26 | afterwards the system's `workflow_path` is the new path, and nothing else in the document or the system table changes |
| YamlSettings.WithWorkflowPathKeys | configuration/settings.py:26 | the assignment keeps the key order of the document and of the system table |
| YamlSettings.YamlReader.constructor | configuration/settings.py:22-26 | the document's system `workflow_path` is replaced by the path the corrected `get_workflow_path` picks: the first one that does not exist (as written, the call raises) |
| YamlSettings.YamlReader.GetPropDic | configuration/settings.py:52-71 | the result is `YamlPropDic` for the normalised prefix |
| YamlSettings.YamlStepEntryLayers | configuration/settings.py:57-69 | every key of a step dictionary takes the first of these that defines it: the step's properties, the system table, `log_level`, `rm_tmp`, then the generated keys |
| YamlSettings.FirstOfOne | configuration/settings.py:58-62 | a single layer is looked up directly |
| YamlSettings.YamlGeneratedLookup | configuration/settings.py:58-62 | the generated keys are exactly `path = create_name(wp, prefix, key)`, `step`, `prefix` and `global_log` |
| YamlSettings.YamlStepPropertiesWin | configuration/settings.py:69 | every key of a step's properties keeps the step's value |
| YamlSettings.YamlSystemNext | configuration/settings.py:68 | a key the properties lack but the system table has comes from the system table |
| YamlSettings.YamlStepNamed | configuration/settings.py:58-62 | a key no higher layer defines comes from the generated keys |
| YamlSettings.YamlStepsOutside | configuration/settings.py:55-58 | only top-level keys become steps |
| YamlSettings.YamlStepsGet | configuration/settings.py:55-69 | each top-level step gets the dictionary `YamlStepEntry` builds; other entries get none |
| YamlSettings.YamlStepsKeys | configuration/settings.py:55-58 | the step dictionaries come in document order, one per step |
| YamlSettings.YamlPropDicSteps | configuration/settings.py:52-71 | the view has exactly the steps, in order, each built by `YamlStepEntry` |
| YamlSettings.BuildYamlSteps | configuration/settings.py:55-69 | the loop builds `YamlSteps` |
| YamlSettings.YamlReader.GetPathsDic | configuration/settings.py:87-108 | the result is `YamlPathsDic`: the shared resolution pass under the workflow path |
| YamlSettings.YamlCollectOutside | configuration/settings.py:90-93 | only top-level keys get a paths table |
| YamlSettings.YamlCollectGet | configuration/settings.py:90-93 | every top-level mapping with `paths` gets that table; other entries get none |
| YamlSettings.YamlCollectKeys | configuration/settings.py:90-93 | the tables come in document order, one per step with `paths` |
| YamlSettings.CollectYamlTables | configuration/settings.py:90-93 | the collecting loop gives `YamlCollect` |
| YamlSettings.YamlPathsSteps | configuration/settings.py:87-108 | a resolved view has exactly the steps with `paths`, in order, and each keeps its keys |
| Biobb.OptionalString | biobb_common/generic/biobb_object.py:36-41 | an absent property gives the default; a present one gives its string, or `None` |
| Biobb.BiobbObject.constructor | biobb_common/generic/biobb_object.py:29-57 | every attribute gets the property's value or its default (`/data`, `/bin/bash`, True, `''`, True, False); logs, environment and return code are `None`; command and temporary files are empty |
| Biobb.Flagged | biobb_common/generic/biobb_object.py:60-64 | a key is flagged iff it is supplied, is not an attribute, is not reserved, and is not `system` or `working_dir_path` |
| Biobb.FlaggedMonotone | biobb_common/generic/biobb_object.py:63-64 | removing an attribute can only add a warning about that name |
| Biobb.BiobbObject.CheckProperties | biobb_common/generic/biobb_object.py:59-69 | one warning for each flagged key and for no other key, never two for the same key |
| Biobb.StageOutside | biobb_common/generic/biobb_object.py:84-97 | only references in the `io_dict` table get a container path |
| Biobb.StageGet | biobb_common/generic/biobb_object.py:84-97 | an empty entry is dropped; an output file, or an input file that exists, is renamed into the volume; a missing input file is kept as it is |
| Biobb.StageNext | biobb_common/generic/biobb_object.py:85-92 | one more `io_dict` entry is skipped or assigned its container path |
| Biobb.StageFiles | biobb_common/generic/biobb_object.py:84-97 | the loop over one `io_dict` table gives `Stage` |
| Biobb.CopyToContainerFiles | biobb_common/generic/biobb_object.py:78-99 | with a container the new dictionary records the unique directory; every non-empty file has an entry; a missing input keeps its path |
| Biobb.InContainerShape | biobb_common/generic/biobb_object.py:89 | a renamed file keeps its name and sits directly inside the volume, which keeps its own root |
| Biobb.BiobbObject.CopyToContainer | biobb_common/generic/biobb_object.py:78-99 | the container's dictionary becomes `AfterCopy`, or the host's dictionary when there is no container |
| Biobb.CmdLineBranches | biobb_common/generic/biobb_object.py:101-170 | an empty or unknown container path keeps the command; singularity and pcocc always raise |
| Biobb.DockerCmdShape | biobb_common/generic/biobb_object.py:132-149 | a docker line is `[path, run]`, then `-w`, `-v host:volume` and `--user` for those that are set, then the image, the shell, `-c` and the quoted command |
| Biobb.DockerCommandRoundTrip | biobb_common/generic/biobb_object.py:147-149 | the last element is the command in double quotes; when no word contains a space, splitting it gives the command back |
| Biobb.AppendOption | biobb_common/generic/biobb_object.py:135-143 | an option and its argument are appended exactly when the argument is set |
| Biobb.BuildDockerCmd | biobb_common/generic/biobb_object.py:132-149 | the docker branch computes `DockerCmd` |
| Biobb.BiobbObject.CreateCmdLine | biobb_common/generic/biobb_object.py:101-170 | the container path becomes `''` if unset; the command becomes the one `CmdLine` builds, or stays unchanged when `CmdLine` raises |

## Left out

- Reading the configuration: the model starts from the parsed document. `_read_config` and `_read_yaml` are not modelled, so there is no file, YAML or JSON I/O.
- `fu.get_working_dir_path`, `fu.create_unique_dir` and the file copies are left out; `tools/file_utils.py` outside `create_name` and `get_workflow_path` is not part of this model. The first two are parameters. Existence checks are a finite set of paths.
- `check_restart`, `execute_command`, `copy_to_host`, `remove_tmp_files`, logging through `fu.log`, and the warning text are left out. The `difflib` closest match is also left out: `CheckProperties` returns which keys are warned about.
- Singularity and pcocc branches of `create_cmd_line`: both read an undefined name (`container_image`, `container_shell_path`). The model covers only the exception each raises, not the command they evidently meant to build.
- ConfSettings.ConfReader.constructor: requires an `__init__` that does not raise. `InitProperties` models the raising cases.
- YamlSettings.YamlReader.constructor: runs the corrected `get_workflow_path` (`FileUtils.GetWorkflowPath`). As written, every construction that gets past the two lookups raises UnboundLocalError at tools/file_utils.py:28; `FileUtils.WorkflowPathAsWrittenRaises` shows that call failing.
- YamlSettings.YamlReader.constructor: requires a system table with a string `workflow_path`. `WorkflowPathIn` models the KeyError and TypeError cases.
- ConfSettings.ConfReader.GetPathsDic: requires every `paths` table to be a mapping, of strings for step tables. A non-string path value, which the source would join and fail on, is not modelled.
- YamlSettings.YamlReader.GetPathsDic: requires the same well-typed `paths` tables.
- Biobb.BiobbObject.constructor: requires every container property to be absent, `None` or a string.
- Biobb.BiobbObject.CopyToContainer: requires a volume path when a container path is set, so the `None` volume that Python would fail on is not modelled.
- Biobb.BiobbObject.CheckProperties: the object's attribute set is the 21 base attributes plus `extraAttributes`, the attributes a subclass sets before calling. A non-list `reserved_properties` is not modelled.
- Aliasing: `container_io_dict = io_dict` makes the two dictionaries one object in Python. The model copies the value.
- `NonTerminating` is not an exception. It marks a value on which the source's `while` loop never returns.
- A `dict` with duplicate keys cannot come out of a parser. The step builders read each binding's own value, which matches Python only when keys are distinct.
- ConfSettings.DepBaseIsWorkingDir: does not cover the system `''` with a true `''` entry in the document. `DepBase` models that case as written.
- Python 2 specifics of the older reader (`iteritems`, `basestring`) are read as their Python 3 counterparts, and dict iteration as insertion order. Under Python 2 `for key in prop_dic` runs in hash order, so the document order that `YamlStepsKeys` and `YamlCollectKeys` state, and the order of the in-place rewrite, rest on that reading.
- PathResolution.ReferenceResolved: requires an absolute base. With a relative base, a reference to an entry the loop has already rewritten gets the base twice. For example, with base `out`, step `A` holding `x: "foo"` and a later step `B` holding `y: "dependency/A/x"`, `A.x` first becomes `out/A/foo` and then `B.y` becomes `out/A/out/A/foo`. `ResolveFrom` models that case as written.
- PosixPath.Render: collapses every run of leading slashes to one. `pathlib` keeps exactly two leading slashes (`str(Path("//data"))` is `//data`), so a container volume that starts with exactly `//` is rendered differently from the source.

## Findings

| source | as written | input that shows it | evidently intended | confidence | as-written member | corrected member |
|---|---|---|---|---|---|---|
| tools/file_utils.py:28-35 | the body reads `dir_path`, which is assigned only inside the loop, so every call raises UnboundLocalError, and so does every `YamlReader` construction that reaches it (configuration/settings.py:26) | `get_workflow_path("/tmp/wf")` with nothing on disk | work on `workflow_path`: return it when it does not exist, otherwise the first free `stem_n` | not executed | FileUtils.WorkflowPathAsWrittenRaises | FileUtils.GetWorkflowPath |
