/**
 * The state `BiobbObject` (`biobb_common/generic/biobb_object.py`) keeps for
 * every building block: the constructor's defaults, the unknown-property
 * check, the host-to-container renaming of input and output files, and the
 * command line a container runs. Logging, copying files and running the
 * command are left to the caller; which paths exist is a finite set.
 */
module Biobb {
  import opened Wrappers
  import opened Values
  import opened PyStrings
  import opened PosixPath

  /** `{"in": {...}, "out": {...}}`, with `"unique_dir"` once files are staged for a container. */
  datatype IoDict = IoDict(inFiles: Dict<Option<string>>, outFiles: Dict<Option<string>>, uniqueDir: Option<string>)

  /** The attribute names `__init__` gives every block (`self.__dict__.keys()` before a subclass adds its own). */
  const BaseAttributes: set<string> := {
    "io_dict", "container_path", "container_image", "container_volume_path", "container_working_dir",
    "container_user_id", "container_shell_path", "container_io_dict", "can_write_console_log", "global_log",
    "out_log", "err_log", "prefix", "step", "path", "remove_tmp", "restart", "cmd", "environment",
    "return_code", "tmp_files"}

  // ---------------------------------------------------------------------
  // __init__
  // ---------------------------------------------------------------------

  /** A property the container code uses as a string: absent, `None` or a string. */
  predicate StringOrAbsent(props: Dict<Value>, key: string) {
    match Get(props, key)
    case None => true
    case Some(v) => v.Null? || v.Str?
  }

  predicate ContainerPropertiesTyped(props: Dict<Value>) {
    && StringOrAbsent(props, "container_path")
    && StringOrAbsent(props, "container_image")
    && StringOrAbsent(props, "container_volume_path")
    && StringOrAbsent(props, "container_working_dir")
    && StringOrAbsent(props, "container_user_id")
    && StringOrAbsent(props, "container_shell_path")
  }

  /** `properties.get(key, default)` of a string property. */
  function OptionalString(props: Dict<Value>, key: string, default: Option<string>): (r: Option<string>)
    requires StringOrAbsent(props, key)
    ensures !Has(props, key) ==> r == default
    ensures Has(props, key) ==> (r.Some? <==> Get(props, key).value.Str?)
    ensures r.Some? && Has(props, key) ==> Get(props, key) == Some(Str(r.value))
  {
    match Get<Value>(props, key)
    case None => default
    case Some(Str(s)) => Some(s)
    case Some(_) => None
  }

  /** A string property as the object stores it: the string, or `None`. */
  function AsValue(s: Option<string>): Value {
    if s.Some? then Str(s.value) else Null
  }

  // ---------------------------------------------------------------------
  // check_properties
  // ---------------------------------------------------------------------

  /**
   * The properties `check_properties` warns about: supplied keys that name
   * no attribute of the object and are neither reserved nor `system` nor
   * `working_dir_path`.
   */
  function Flagged(supplied: seq<string>, attributes: set<string>, reserved: seq<string>): (r: set<string>)
    ensures forall k :: k in r <==>
      (k in supplied && k !in attributes && k !in reserved && k != "system" && k != "working_dir_path")
  {
    (set k | k in supplied && k !in attributes) - ({"system", "working_dir_path"} + set k | k in reserved)
  }

  /** Renaming an attribute away can only add warnings, and only about that name. */
  lemma FlaggedMonotone(supplied: seq<string>, attributes: set<string>, reserved: seq<string>, a: string)
    ensures Flagged(supplied, attributes - {a}, reserved) - Flagged(supplied, attributes, reserved) <= {a}
    ensures Flagged(supplied, attributes, reserved) <= Flagged(supplied, attributes - {a}, reserved)
  {
  }

  // ---------------------------------------------------------------------
  // copy_to_container
  // ---------------------------------------------------------------------

  /** `str(Path(volume).joinpath(Path(file).name))`: where a file appears inside the container. */
  function InContainer(volume: string, file: string): string {
    JoinName(volume, PathName(file))
  }

  /**
   * The container's table for the first `n` entries of an `io_dict` table:
   * empty entries are skipped; an output file, or an input file that exists,
   * is renamed into the volume; an input file that does not exist (a default
   * file the program finds on its own) is passed as it is.
   */
  function Stage(files: Dict<Option<string>>, n: nat, volume: string, existing: set<string>, isInput: bool): Dict<Option<string>>
    requires n <= |files|
  {
    if n == 0 then []
    else
      var prev := Stage(files, n - 1, volume, existing, isInput);
      var (ref, file) := files[n - 1];
      if !Given(file) then prev
      else Set(prev, ref, Some(if !isInput || file.value in existing then InContainer(volume, file.value) else file.value))
  }

  /** `container_io_dict` after `copy_to_container`. */
  function AfterCopy(containerPath: Option<string>, volume: Option<string>, io: IoDict, existing: set<string>, uniqueDir: string): IoDict
    requires Given(containerPath) ==> volume.Some?
  {
    if Given(containerPath) then
      IoDict(Stage(io.inFiles, |io.inFiles|, volume.value, existing, true),
             Stage(io.outFiles, |io.outFiles|, volume.value, existing, false),
             Some(uniqueDir))
    else io
  }

  /** A reference none of the first `n` entries has gets no container path. */
  lemma {:induction false} StageOutside(files: Dict<Option<string>>, n: nat, volume: string, existing: set<string>, isInput: bool, ref: string)
    requires n <= |files| && forall i :: 0 <= i < n ==> files[i].0 != ref
    ensures !Has(Stage(files, n, volume, existing, isInput), ref)
  {
    if n > 0 {
      StageOutside(files, n - 1, volume, existing, isInput, ref);
    }
  }

  /** Each entry of the `io_dict` table gets the container path `Stage` describes. */
  lemma {:induction false} StageGet(files: Dict<Option<string>>, n: nat, volume: string, existing: set<string>, isInput: bool, i: nat)
    requires DistinctKeys(files) && i < n <= |files|
    ensures var file := files[i].1;
      Get(Stage(files, n, volume, existing, isInput), files[i].0)
        == if !Given(file) then None
           else Some(Some(if !isInput || file.value in existing then InContainer(volume, file.value) else file.value))
  {
    if i == n - 1 {
      StageOutside(files, n - 1, volume, existing, isInput, files[i].0);
    } else {
      StageGet(files, n - 1, volume, existing, isInput, i);
    }
  }

  /**
   * With a container, every non-empty output file, and every input file
   * that exists, sits directly in the volume under its own name; an input
   * file that does not exist is kept; empty entries are dropped.
   */
  lemma CopyToContainerFiles(volume: string, io: IoDict, existing: set<string>, uniqueDir: string, containerPath: string, i: nat, j: nat)
    requires containerPath != ""
    requires DistinctKeys(io.inFiles) && DistinctKeys(io.outFiles) && i < |io.inFiles| && j < |io.outFiles|
    ensures var c := AfterCopy(Some(containerPath), Some(volume), io, existing, uniqueDir);
      && c.uniqueDir == Some(uniqueDir)
      && (Given(io.inFiles[i].1) <==> Has(c.inFiles, io.inFiles[i].0))
      && (Given(io.inFiles[i].1) && io.inFiles[i].1.value !in existing ==> Get(c.inFiles, io.inFiles[i].0) == Some(io.inFiles[i].1))
      && (Given(io.outFiles[j].1) <==> Has(c.outFiles, io.outFiles[j].0))
  {
    StageGet(io.inFiles, |io.inFiles|, volume, existing, true, i);
    StageGet(io.outFiles, |io.outFiles|, volume, existing, false, j);
  }

  /** A renamed file keeps its name and sits directly inside the volume, which keeps its own root. */
  lemma InContainerShape(volume: string, file: string)
    requires PathName(file) != ""
    ensures Segments(InContainer(volume, file)) == Segments(volume) + [PathName(file)]
    ensures PathName(InContainer(volume, file)) == PathName(file)
    ensures StartsWith(InContainer(volume, file), "/") == StartsWith(volume, "/")
  {
    RenderRoundTrip(StartsWith(volume, "/"), Segments(volume) + [PathName(file)]);
  }

  /** One more entry of the table: skipped when empty, otherwise assigned its container path. */
  lemma StageNext(files: Dict<Option<string>>, i: nat, volume: string, existing: set<string>, isInput: bool)
    requires i < |files|
    ensures var file := files[i].1;
      Stage(files, i + 1, volume, existing, isInput)
        == if !Given(file) then Stage(files, i, volume, existing, isInput)
           else Set(Stage(files, i, volume, existing, isInput), files[i].0,
                    Some(if !isInput || file.value in existing then InContainer(volume, file.value) else file.value))
  {
  }

  /** The loop of `copy_to_container` over one `io_dict` table. */
  method StageFiles(files: Dict<Option<string>>, volume: string, existing: set<string>, isInput: bool) returns (staged: Dict<Option<string>>)
    ensures staged == Stage(files, |files|, volume, existing, isInput)
  {
    staged := [];
    var i := 0;
    while i < |files|
      invariant i <= |files|
      invariant staged == Stage(files, i, volume, existing, isInput)
    {
      var (ref, file) := files[i];
      StageNext(files, i, volume, existing, isInput);
      if Given(file) {
        var target := if !isInput || file.value in existing then InContainer(volume, file.value) else file.value;
        staged := Set(staged, ref, Some(target));
      }
      i := i + 1;
    }
  }

  // ---------------------------------------------------------------------
  // create_cmd_line
  // ---------------------------------------------------------------------

  /** The strings of a command whose elements are all strings. */
  function CmdStrings(cmd: seq<Value>): (r: seq<string>)
    requires forall i :: 0 <= i < |cmd| ==> cmd[i].Str?
    ensures |r| == |cmd| && forall i :: 0 <= i < |cmd| ==> cmd[i] == Str(r[i])
  {
    seq(|cmd|, i requires 0 <= i < |cmd| => cmd[i].s)
  }

  /** `'"' + " ".join(cmd) + '"'`, which raises `TypeError` on an element that is not a string. */
  function Quoted(cmd: seq<Value>): Result<string, PyError> {
    if forall i :: 0 <= i < |cmd| ==> cmd[i].Str? then Ok("\"" + JoinWith(CmdStrings(cmd), " ") + "\"")
    else Err(TypeError)
  }

  /** An option and its argument, when the argument is given. */
  function OptionPair(flag: string, arg: Option<string>): seq<Value> {
    if Given(arg) then [Str(flag), Str(arg.value)] else []
  }

  /**
   * The docker branch: `[path, "run"]`, `-w wd`, `-v host:volume`,
   * `--user uid` for the ones set, then the image, the shell, `-c` and the
   * quoted old command. A volume without a host directory fails on
   * `None + ':'`.
   */
  function DockerCmd(cp: string, workingDir: Option<string>, volume: Option<string>, hostVolume: Option<string>,
                     userId: Option<string>, image: Option<string>, shell: Option<string>, cmd: seq<Value>): Result<seq<Value>, PyError>
  {
    if Given(volume) && hostVolume.None? then Err(TypeError)
    else
      var mount := if Given(volume) then Some(hostVolume.value + ":" + volume.value) else None;
      var q :- Quoted(cmd);
      Ok([Str(cp), Str("run")] + OptionPair("-w", workingDir) + OptionPair("-v", mount) + OptionPair("--user", userId)
         + [AsValue(image), AsValue(shell), Str("-c"), Str(q)])
  }

  /**
   * `create_cmd_line` once `container_path` is the string `cp`: the
   * singularity branch reads the unbound name `container_image`; the pcocc
   * branch fails on the host volume or the old command, and otherwise on
   * the unbound name `container_shell_path`; a path with none of the three
   * endings keeps the command.
   */
  function CmdLine(cp: string, workingDir: Option<string>, volume: Option<string>, hostVolume: Option<string>,
                   userId: Option<string>, image: Option<string>, shell: Option<string>, cmd: seq<Value>): Result<seq<Value>, PyError>
  {
    if EndsWith(cp, "singularity") then Err(NameError("container_image"))
    else if EndsWith(cp, "docker") then DockerCmd(cp, workingDir, volume, hostVolume, userId, image, shell, cmd)
    else if EndsWith(cp, "pcocc") then
      if Given(volume) && hostVolume.None? then Err(TypeError)
      else if Quoted(cmd).Err? then Err(TypeError)
      else Err(NameError("container_shell_path"))
    else Ok(cmd)
  }

  /** Without a known container the command is left alone; singularity and pcocc never produce one. */
  lemma CmdLineBranches(cp: string, workingDir: Option<string>, volume: Option<string>, hostVolume: Option<string>,
                        userId: Option<string>, image: Option<string>, shell: Option<string>, cmd: seq<Value>)
    ensures !EndsWith(cp, "singularity") && !EndsWith(cp, "docker") && !EndsWith(cp, "pcocc") ==>
      CmdLine(cp, workingDir, volume, hostVolume, userId, image, shell, cmd) == Ok(cmd)
    ensures EndsWith(cp, "singularity") || (!EndsWith(cp, "docker") && EndsWith(cp, "pcocc")) ==>
      CmdLine(cp, workingDir, volume, hostVolume, userId, image, shell, cmd).Err?
    ensures CmdLine("", workingDir, volume, hostVolume, userId, image, shell, cmd) == Ok(cmd)
  {
  }

  /**
   * A docker command line starts with `[path, "run"]`, ends with the image,
   * the shell, `-c` and the quoted command, and has two elements between for
   * each of working directory, volume and user that is set.
   */
  lemma {:induction false} DockerCmdShape(cp: string, workingDir: Option<string>, volume: Option<string>, hostVolume: Option<string>,
                                          userId: Option<string>, image: Option<string>, shell: Option<string>, cmd: seq<Value>)
    requires DockerCmd(cp, workingDir, volume, hostVolume, userId, image, shell, cmd).Ok?
    ensures var r := DockerCmd(cp, workingDir, volume, hostVolume, userId, image, shell, cmd).value;
      var options := (if Given(workingDir) then 2 else 0) + (if Given(volume) then 2 else 0) + (if Given(userId) then 2 else 0);
      && |r| == 6 + options
      && r[..2] == [Str(cp), Str("run")]
      && r[2 + options..5 + options] == [AsValue(image), AsValue(shell), Str("-c")]
      && (Given(workingDir) ==> r[2..4] == [Str("-w"), Str(workingDir.value)])
      && (Given(volume) ==> var at := if Given(workingDir) then 4 else 2;
            r[at..at + 2] == [Str("-v"), Str(hostVolume.value + ":" + volume.value)])
      && (Given(userId) ==> r[options..options + 2] == [Str("--user"), Str(userId.value)])
  {
    var mount := if Given(volume) then Some(hostVolume.value + ":" + volume.value) else None;
    var w := OptionPair("-w", workingDir);
    var v := OptionPair("-v", mount);
    var u := OptionPair("--user", userId);
    var tail := [AsValue(image), AsValue(shell), Str("-c"), Str(Quoted(cmd).value)];
    ConcatParts([Str(cp), Str("run")], w, v, u, tail);
  }

  /** Where each part of a five-part concatenation lies. */
  lemma ConcatParts<T>(a: seq<T>, b: seq<T>, c: seq<T>, d: seq<T>, e: seq<T>)
    ensures var r := a + b + c + d + e;
      && r[..|a|] == a
      && r[|a|..|a| + |b|] == b
      && r[|a| + |b|..|a| + |b| + |c|] == c
      && r[|a| + |b| + |c|..|a| + |b| + |c| + |d|] == d
      && r[|a| + |b| + |c| + |d|..] == e
  {
  }

  /**
   * The last element of a docker command line is the old command in double
   * quotes; when no word of it contains a space, splitting the quoted text
   * on spaces gives the old command back.
   */
  lemma DockerCommandRoundTrip(cp: string, workingDir: Option<string>, volume: Option<string>, hostVolume: Option<string>,
                               userId: Option<string>, image: Option<string>, shell: Option<string>, cmd: seq<Value>)
    requires DockerCmd(cp, workingDir, volume, hostVolume, userId, image, shell, cmd).Ok?
    requires |cmd| >= 1 && forall i, j :: 0 <= i < |cmd| && cmd[i].Str? && 0 <= j < |cmd[i].s| ==> cmd[i].s[j] != ' '
    ensures var r := DockerCmd(cp, workingDir, volume, hostVolume, userId, image, shell, cmd).value;
      var last := r[|r| - 1];
      && last.Str? && |last.s| >= 2 && last.s[0] == '"' && last.s[|last.s| - 1] == '"'
      && (forall i :: 0 <= i < |cmd| ==> cmd[i].Str?)
      && Split(last.s[1..|last.s| - 1], ' ') == CmdStrings(cmd)
  {
    var words := CmdStrings(cmd);
    var inner := JoinWith(words, " ");
    var q := "\"" + inner + "\"";
    assert q[1..|q| - 1] == inner;
    assert forall i, j :: 0 <= i < |words| && 0 <= j < |words[i]| ==> words[i][j] != ' ' by {
      forall i, j | 0 <= i < |words| && 0 <= j < |words[i]|
        ensures words[i][j] != ' '
      {
        assert cmd[i] == Str(words[i]);
      }
    }
    SplitJoin(words, ' ');
  }

  /** `cmd.extend([flag, arg])` when `arg` is set. */
  method AppendOption(cmd: seq<Value>, flag: string, arg: Option<string>) returns (r: seq<Value>)
    ensures r == cmd + OptionPair(flag, arg)
  {
    r := cmd;
    if Given(arg) {
      r := r + [Str(flag), Str(arg.value)];
    }
  }

  /** The docker branch of `create_cmd_line`, appending to the list as the source does. */
  method BuildDockerCmd(cp: string, workingDir: Option<string>, volume: Option<string>, hostVolume: Option<string>,
                        userId: Option<string>, image: Option<string>, shell: Option<string>, cmd: seq<Value>)
    returns (r: Result<seq<Value>, PyError>)
    ensures r == DockerCmd(cp, workingDir, volume, hostVolume, userId, image, shell, cmd)
  {
    var dockerCmd := AppendOption([Str(cp), Str("run")], "-w", workingDir);
    if Given(volume) && hostVolume.None? {
      return Err(TypeError);
    }
    var mount := if Given(volume) then Some(hostVolume.value + ":" + volume.value) else None;
    dockerCmd := AppendOption(dockerCmd, "-v", mount);
    dockerCmd := AppendOption(dockerCmd, "--user", userId);
    dockerCmd := dockerCmd + [AsValue(image)];
    var q := Quoted(cmd);
    if q.Err? {
      return Err(q.error);
    }
    ghost var head := [Str(cp), Str("run")] + OptionPair("-w", workingDir) + OptionPair("-v", mount) + OptionPair("--user", userId);
    assert dockerCmd == head + [AsValue(image)];
    dockerCmd := dockerCmd + [AsValue(shell), Str("-c"), Str(q.value)];
    assert dockerCmd == head + [AsValue(image), AsValue(shell), Str("-c"), Str(q.value)];
    return Ok(dockerCmd);
  }

  // ---------------------------------------------------------------------
  // The object
  // ---------------------------------------------------------------------

  class BiobbObject {
    var io: IoDict
    var containerPath: Option<string>
    var containerImage: Option<string>
    var containerVolumePath: Option<string>
    var containerWorkingDir: Option<string>
    var containerUserId: Option<string>
    var containerShellPath: Option<string>
    var containerIo: IoDict
    var canWriteConsoleLog: Value
    var globalLog: Value
    var outLog: Value
    var errLog: Value
    var prefix: Value
    var step: Value
    var path: Value
    var removeTmp: Value
    var restart: Value
    var cmd: seq<Value>
    var environment: Value
    var returnCode: Value
    var tmpFiles: seq<Value>

    /** `BiobbObject(properties)`; `None` and `{}` both read as no properties. */
    constructor (properties: Option<Dict<Value>>)
      requires properties.Some? ==> ContainerPropertiesTyped(properties.value)
      ensures var props := properties.GetOr([]);
        && io == IoDict([], [], None) && containerIo == IoDict([], [], None)
        && containerPath == OptionalString(props, "container_path", None)
        && containerImage == OptionalString(props, "container_image", None)
        && containerVolumePath == OptionalString(props, "container_volume_path", Some("/data"))
        && containerWorkingDir == OptionalString(props, "container_working_dir", None)
        && containerUserId == OptionalString(props, "container_user_id", None)
        && containerShellPath == OptionalString(props, "container_shell_path", Some("/bin/bash"))
        && canWriteConsoleLog == GetOr(props, "can_write_console_log", Bool(true))
        && globalLog == GetOr(props, "global_log", Null)
        && prefix == GetOr(props, "prefix", Null)
        && step == GetOr(props, "step", Null)
        && path == GetOr(props, "path", Str(""))
        && removeTmp == GetOr(props, "remove_tmp", Bool(true))
        && restart == GetOr(props, "restart", Bool(false))
      ensures outLog == Null && errLog == Null && environment == Null && returnCode == Null
      ensures cmd == [] && tmpFiles == []
    {
      var props := if properties.Some? && properties.value != [] then properties.value else [];
      io := IoDict([], [], None);
      containerPath := OptionalString(props, "container_path", None);
      containerImage := OptionalString(props, "container_image", None);
      containerVolumePath := OptionalString(props, "container_volume_path", Some("/data"));
      containerWorkingDir := OptionalString(props, "container_working_dir", None);
      containerUserId := OptionalString(props, "container_user_id", None);
      containerShellPath := OptionalString(props, "container_shell_path", Some("/bin/bash"));
      containerIo := IoDict([], [], None);
      canWriteConsoleLog := GetOr(props, "can_write_console_log", Bool(true));
      globalLog := GetOr(props, "global_log", Null);
      outLog := Null;
      errLog := Null;
      prefix := GetOr(props, "prefix", Null);
      step := GetOr(props, "step", Null);
      path := GetOr(props, "path", Str(""));
      removeTmp := GetOr(props, "remove_tmp", Bool(true));
      restart := GetOr(props, "restart", Bool(false));
      cmd := [];
      environment := Null;
      returnCode := Null;
      tmpFiles := [];
    }

    /**
     * `check_properties(properties, reserved_properties)`: the keys warned
     * about, one warning each, in the set's iteration order.
     * `extraAttributes` are the attributes a subclass set before calling.
     */
    method CheckProperties(properties: Dict<Value>, reserved: Option<seq<string>>, extraAttributes: set<string>) returns (warned: seq<string>)
      ensures forall k :: k in warned <==> k in Flagged(Keys(properties), BaseAttributes + extraAttributes, reserved.GetOr([]))
      ensures forall i, j :: 0 <= i < j < |warned| ==> warned[i] != warned[j]
    {
      var reservedList := if reserved.Some? && reserved.value != [] then reserved.value else [];
      var flagged := Flagged(Keys(properties), BaseAttributes + extraAttributes, reservedList);
      var remaining := flagged;
      warned := [];
      while remaining != {}
        invariant remaining <= flagged
        invariant forall k :: k in warned <==> k in flagged && k !in remaining
        invariant forall i, j :: 0 <= i < j < |warned| ==> warned[i] != warned[j]
        decreases |remaining|
      {
        var k :| k in remaining;
        warned := warned + [k];
        remaining := remaining - {k};
      }
    }

    /**
     * `copy_to_container()`, with `existing` the paths that exist and
     * `uniqueDir` the resolved directory `fu.create_unique_dir()` made.
     */
    method CopyToContainer(existing: set<string>, uniqueDir: string)
      requires Given(containerPath) ==> containerVolumePath.Some?
      modifies this`containerIo
      ensures containerIo == AfterCopy(containerPath, containerVolumePath, io, existing, uniqueDir)
    {
      if containerPath.Some? && containerPath.value != "" {
        var staged := StageFiles(io.inFiles, containerVolumePath.value, existing, true);
        var stagedOut := StageFiles(io.outFiles, containerVolumePath.value, existing, false);
        containerIo := IoDict(staged, stagedOut, Some(uniqueDir));
      } else {
        containerIo := io;
      }
    }

    /** `create_cmd_line()`: the exception it raises, if any. */
    method CreateCmdLine() returns (raised: Option<PyError>)
      modifies this`containerPath, this`cmd
      ensures containerPath == Some(old(containerPath).GetOr(""))
      ensures var r := CmdLine(old(containerPath).GetOr(""), containerWorkingDir, containerVolumePath, containerIo.uniqueDir,
                               containerUserId, containerImage, containerShellPath, old(cmd));
        && (r.Err? ==> raised == Some(r.error) && cmd == old(cmd))
        && (r.Ok? ==> raised == None && cmd == r.value)
    {
      var cp := if containerPath.Some? then containerPath.value else "";
      containerPath := Some(cp);
      var hostVolume := containerIo.uniqueDir;
      if EndsWith(cp, "singularity") {
        return Some(NameError("container_image"));
      } else if EndsWith(cp, "docker") {
        var built := BuildDockerCmd(cp, containerWorkingDir, containerVolumePath, hostVolume, containerUserId,
                                    containerImage, containerShellPath, cmd);
        if built.Err? {
          return Some(built.error);
        }
        cmd := built.value;
        return None;
      } else if EndsWith(cp, "pcocc") {
        if Given(containerVolumePath) && hostVolume.None? {
          return Some(TypeError);
        }
        if Quoted(cmd).Err? {
          return Some(TypeError);
        }
        return Some(NameError("container_shell_path"));
      }
      return None;
    }
  }
}
