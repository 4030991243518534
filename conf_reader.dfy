/**
 * `ConfReader`, the current configuration reader: a parsed workflow
 * document, optionally narrowed to one system of it, and the two views built
 * from it, the properties of every step and the resolved paths of every step.
 *
 * A document has up to three shapes. With a top-level `paths` or `properties`
 * key it describes a single unnamed step ("no-step"). Otherwise every
 * top-level mapping holding `paths` or `properties` is a step. When no step
 * qualifies, the properties view falls back to the whole document.
 */
module ConfSettings {
  import opened Wrappers
  import opened Values
  import opened PyStrings
  import opened PosixPath
  import opened PathResolution

  /** `'' if prefix is None else prefix.strip()`, as both getters normalise their prefix. */
  function NormalisePrefix(prefix: Option<string>): (r: string)
    ensures prefix.None? ==> r == ""
    ensures r == [] || (!IsSpace(r[0]) && !IsSpace(r[|r| - 1]))
    ensures prefix.Some? ==> TrimmedFrom(prefix.value, r)
  {
    if prefix.None? then ""
    else
      StripTrims(prefix.value);
      StripTrimmed(prefix.value);
      Strip(prefix.value)
  }

  /** Normalising an already normalised prefix changes nothing. */
  lemma NormalisePrefixIdempotent(prefix: Option<string>)
    ensures NormalisePrefix(Some(NormalisePrefix(prefix))) == NormalisePrefix(prefix)
  {
    if prefix.Some? {
      StripIdempotent(prefix.value);
    }
  }

  /** `self.system` stored in a dictionary: the name, or `None`. */
  function SystemValue(system: Option<string>): Value {
    if system.Some? then Str(system.value) else Null
  }

  /**
   * The `working_dir_path` entry of the table the reader works in: the
   * system's table when a system is given, the document root otherwise.
   */
  function WorkingDirSlot(root: Dict<Value>, system: Option<string>): Option<Value> {
    if Given(system) then
      match Get<Value>(root, system.value)
      case Some(Map(t)) => Get(t, "working_dir_path")
      case _ => None
    else Get(root, "working_dir_path")
  }

  /** The value `__init__` hands to the working-directory resolver (`None` when absent). */
  function OriginalWorkingDir(doc: Dict<Value>, system: Option<string>): Value {
    WorkingDirSlot(doc, system).GetOr(Null)
  }

  /**
   * What `__init__` does to the parsed document: the working directory of
   * the system's table (or of the root) is replaced by what `resolveWd`
   * (`fu.get_working_dir_path`) returns for it.
   */
  function InitProperties(doc: Dict<Value>, system: Option<string>, resolveWd: Value -> string): (r: Result<Dict<Value>, PyError>)
    ensures Given(system) && !Has(doc, system.value) ==> r == Err(KeyError(system.value))
    ensures r.Err? <==> Given(system) && !(Get(doc, system.value).Some? && Get(doc, system.value).value.Map?)
    ensures r.Ok? ==> WorkingDirSlot(r.value, system) == Some(Str(resolveWd(OriginalWorkingDir(doc, system))))
    ensures r.Ok? && Given(system) ==> forall k :: k != system.value ==> Get(r.value, k) == Get(doc, k)
    ensures r.Ok? && Given(system) ==> Keys(r.value) == Keys(doc)
    ensures r.Ok? && Given(system) ==> forall k :: k != "working_dir_path" ==>
      Get(Get(r.value, system.value).value.entries, k) == Get(Get(doc, system.value).value.entries, k)
    ensures r.Ok? && !Given(system) ==> forall k :: k != "working_dir_path" ==> Get(r.value, k) == Get(doc, k)
  {
    if Given(system) then
      match Get<Value>(doc, system.value)
      case None => Err(KeyError(system.value))
      case Some(Map(t)) =>
        var wd := Str(resolveWd(GetOr(t, "working_dir_path", Null)));
        Ok(Set(doc, system.value, Map(Set(t, "working_dir_path", wd))))
      case Some(_) => Err(AttributeError("get"))
    else
      Ok(Set(doc, "working_dir_path", Str(resolveWd(GetOr(doc, "working_dir_path", Null)))))
  }

  /** A reader's state as a value: the document after `__init__`, the system, and the working directory stored in it. */
  datatype Conf = Conf(root: Dict<Value>, system: Option<string>, wd: string)

  /** The working directory sits where `get_working_dir_path` looks for it. */
  predicate ValidConf(c: Conf) {
    WorkingDirSlot(c.root, c.system) == Some(Str(c.wd))
  }

  /** `self.properties[self.system]`, empty when no system is given. */
  function SystemTable(c: Conf): Dict<Value> {
    if Given(c.system) then
      match Get<Value>(c.root, c.system.value)
      case Some(Map(t)) => t
      case _ => []
    else []
  }

  /** The table `log_level` and `can_write_console_log` are read from: the system's, or the root. */
  function Settings(c: Conf): Dict<Value> {
    if Given(c.system) then SystemTable(c) else c.root
  }

  /** The `properties` mapping of a table, when it has one. */
  function PropertiesOf(t: Dict<Value>): Option<Dict<Value>> {
    match Get<Value>(t, "properties")
    case Some(Map(p)) => Some(p)
    case _ => None
  }

  /** A top-level value that is a step: a mapping holding `paths` or `properties`. */
  predicate IsStep(v: Value) {
    v.Map? && (Has(v.entries, "paths") || Has(v.entries, "properties"))
  }

  // ---------------------------------------------------------------------
  // The properties view. A run of `prop_dic[k] = v` assignments is the
  // update with the mapping of those bindings, in the order assigned.
  // ---------------------------------------------------------------------

  /** The keys every properties dictionary gets, in the order assigned. */
  function Generated(path: string, step: Value, prefix: string, globalLog: Value, system: Option<string>): Dict<Value> {
    [("path", Str(path)), ("step", step), ("prefix", Str(prefix)), ("global_log", globalLog), ("system", SystemValue(system))]
  }

  /**
   * What the settings contribute: the system's table; without a system, the
   * root's `working_dir_path` and, where `consoleLog`, its
   * `can_write_console_log` (default `True`).
   */
  function SettingsLayer(c: Conf, consoleLog: bool): Dict<Value> {
    if Given(c.system) then SystemTable(c)
    else
      [("working_dir_path", GetOr(c.root, "working_dir_path", Null))]
        + if consoleLog then [("can_write_console_log", GetOr(c.root, "can_write_console_log", Bool(true)))] else []
  }

  /** `log_level` of the settings table, when it is set and true. */
  function LogLevelLayer(src: Dict<Value>): Dict<Value> {
    if Truthy(GetOr(src, "log_level", Null)) then [("log_level", GetOr(src, "log_level", Null))] else []
  }

  /** `can_write_console_log` of the settings table, default `True`. */
  function ConsoleLogLayer(src: Dict<Value>): Dict<Value> {
    [("can_write_console_log", GetOr(src, "can_write_console_log", Bool(true)))]
  }

  /** The single dictionary of a no-step document. */
  function NoStepProps(c: Conf, prefix: string, globalLog: Value): Dict<Value> {
    var e := Update(Update([], Generated(Join([c.wd, prefix]), Null, prefix, globalLog, c.system)), SettingsLayer(c, false));
    match PropertiesOf(c.root)
    case None => e
    case Some(p) => Update(Update(e, p), LogLevelLayer(Settings(c)))
  }

  /** The dictionary of step `key`, whose table is `t`. */
  function StepEntry(c: Conf, prefix: string, globalLog: Value, key: string, t: Dict<Value>): Dict<Value> {
    var e := Update(Update([], Generated(Join([c.wd, prefix, key]), Str(key), prefix, globalLog, c.system)), SettingsLayer(c, true));
    match PropertiesOf(t)
    case None => e
    case Some(p) => Update(Update(Update(e, LogLevelLayer(Settings(c))), ConsoleLogLayer(Settings(c))), p)
  }

  /**
   * The step dictionaries built from the first `n` top-level entries, as the
   * loop over the document builds them. The source's `for key in d: d[key]`
   * reads each binding's own value, which is what `c.root[n - 1]` holds for
   * a mapping with distinct keys.
   */
  function StepEntries(c: Conf, n: nat, prefix: string, globalLog: Value): Dict<Dict<Value>>
    requires n <= |c.root|
  {
    if n == 0 then []
    else
      var prev := StepEntries(c, n - 1, prefix, globalLog);
      var (key, v) := c.root[n - 1];
      if IsStep(v) then Set(prev, key, StepEntry(c, prefix, globalLog, key, v.entries)) else prev
  }

  /** The whole document, stamped like a step without a name. */
  function FallbackProps(c: Conf, prefix: string, globalLog: Value): Dict<Value> {
    Update(Update(Update([], c.root), Generated(Join([c.wd, prefix]), Null, prefix, globalLog, c.system)), SettingsLayer(c, true))
  }

  /** The result of `get_prop_dic`: one flat dictionary, or one dictionary per step. */
  datatype PropView = Flat(props: Dict<Value>) | PerStep(steps: Dict<Dict<Value>>)

  /** `get_prop_dic(prefix, global_log)` with the prefix already normalised. */
  function PropDic(c: Conf, prefix: string, globalLog: Value): PropView {
    if Has(c.root, "paths") || Has(c.root, "properties") then Flat(NoStepProps(c, prefix, globalLog))
    else
      var steps := StepEntries(c, |c.root|, prefix, globalLog);
      if steps == [] then Flat(FallbackProps(c, prefix, globalLog)) else PerStep(steps)
  }

  // ---------------------------------------------------------------------
  // Precedence: each key of a properties dictionary has the value of the
  // first layer that defines it.
  // ---------------------------------------------------------------------

  /** `k` looked up in the first layer that has it; earlier layers take precedence. */
  function FirstOf(layers: seq<Dict<Value>>, k: string): (r: Option<Value>)
    ensures r.Some? <==> exists i :: 0 <= i < |layers| && Has(layers[i], k)
  {
    if layers == [] then None
    else if Has(layers[0], k) then Get(layers[0], k)
    else
      var r := FirstOf(layers[1..], k);
      assert forall i :: 1 <= i < |layers| ==> layers[1..][i - 1] == layers[i];
      r
  }

  /**
   * A step dictionary from the top: the step's own properties, then the
   * settings' `can_write_console_log` and `log_level`, then the system's
   * table (or the root's working directory and console flag), then the
   * generated keys.
   */
  function StepLayers(c: Conf, prefix: string, globalLog: Value, key: string, t: Dict<Value>): seq<Dict<Value>> {
    var gen := Generated(Join([c.wd, prefix, key]), Str(key), prefix, globalLog, c.system);
    match PropertiesOf(t)
    case None => [SettingsLayer(c, true), gen]
    case Some(p) => [p, ConsoleLogLayer(Settings(c)), LogLevelLayer(Settings(c)), SettingsLayer(c, true), gen]
  }

  /**
   * The no-step dictionary from the top: the settings' `log_level` first, so
   * it overrides the document's own `properties`, which override the
   * system's table (or the root's working directory), then the generated keys.
   */
  function NoStepLayers(c: Conf, prefix: string, globalLog: Value): seq<Dict<Value>> {
    var gen := Generated(Join([c.wd, prefix]), Null, prefix, globalLog, c.system);
    match PropertiesOf(c.root)
    case None => [SettingsLayer(c, false), gen]
    case Some(p) => [LogLevelLayer(Settings(c)), p, SettingsLayer(c, false), gen]
  }

  /** The fallback dictionary from the top: settings, generated keys, then the document itself. */
  function FallbackLayers(c: Conf, prefix: string, globalLog: Value): seq<Dict<Value>> {
    [SettingsLayer(c, true), Generated(Join([c.wd, prefix]), Null, prefix, globalLog, c.system), c.root]
  }

  lemma FirstOfCons(l: Dict<Value>, rest: seq<Dict<Value>>, k: string)
    ensures FirstOf([l] + rest, k) == if Has(l, k) then Get(l, k) else FirstOf(rest, k)
  {
    assert ([l] + rest)[1..] == rest;
  }

  lemma FirstOfTwo(a: Dict<Value>, b: Dict<Value>, k: string)
    ensures FirstOf([a, b], k) == if Has(a, k) then Get(a, k) else Get(b, k)
  {
    FirstOfCons(a, [b], k);
    assert [a, b] == [a] + [b];
    FirstOfCons(b, [], k);
    assert [b] == [b] + [];
  }

  lemma NamesDistinct()
    ensures "path" != "step" && "path" != "prefix" && "path" != "global_log" && "path" != "system"
    ensures "step" != "prefix" && "step" != "global_log" && "step" != "system"
    ensures "prefix" != "global_log" && "prefix" != "system" && "global_log" != "system"
  {
    assert "path"[0] == 'p' && "step"[0] == 's';
    assert "prefix"[1] == 'r' && "system"[1] == 'y';
  }

  /** The generated keys and their values; no other key is generated. */
  lemma GeneratedLookup(path: string, step: Value, prefix: string, globalLog: Value, system: Option<string>, k: string)
    ensures Get(Generated(path, step, prefix, globalLog, system), k) ==
      if k == "path" then Some(Str(path)) else if k == "step" then Some(step)
      else if k == "prefix" then Some(Str(prefix)) else if k == "global_log" then Some(globalLog)
      else if k == "system" then Some(SystemValue(system)) else None
  {
    NamesDistinct();
    var g1 := [] + [("path", Str(path))];
    var g2 := g1 + [("step", step)];
    var g3 := g2 + [("prefix", Str(prefix))];
    var g4 := g3 + [("global_log", globalLog)];
    assert Generated(path, step, prefix, globalLog, system) == g4 + [("system", SystemValue(system))];
    GetLast(g4, "system", SystemValue(system), k);
    GetLast(g3, "global_log", globalLog, k);
    GetLast(g2, "prefix", Str(prefix), k);
    GetLast(g1, "step", step, k);
    GetLast([], "path", Str(path), k);
  }

  /** Without a system, the settings contribute the root's working directory and, where asked, its console flag. */
  lemma SettingsLayerLookup(c: Conf, consoleLog: bool, k: string)
    requires !Given(c.system)
    ensures Get(SettingsLayer(c, consoleLog), k) ==
      if k == "working_dir_path" then Some(GetOr(c.root, "working_dir_path", Null))
      else if consoleLog && k == "can_write_console_log" then Some(GetOr(c.root, "can_write_console_log", Bool(true)))
      else None
  {
    var w := [] + [("working_dir_path", GetOr(c.root, "working_dir_path", Null))];
    GetLast([], "working_dir_path", GetOr(c.root, "working_dir_path", Null), k);
    if consoleLog {
      GetLast(w, "can_write_console_log", GetOr(c.root, "can_write_console_log", Bool(true)), k);
    } else {
      assert SettingsLayer(c, consoleLog) == w;
    }
  }

  /** Every key of a step dictionary has the value of the first layer that defines it. */
  lemma StepEntryLayers(c: Conf, prefix: string, globalLog: Value, key: string, t: Dict<Value>, k: string)
    ensures Get(StepEntry(c, prefix, globalLog, key, t), k) == FirstOf(StepLayers(c, prefix, globalLog, key, t), k)
  {
    var gen := Generated(Join([c.wd, prefix, key]), Str(key), prefix, globalLog, c.system);
    var settings := SettingsLayer(c, true);
    FirstOfTwo(settings, gen, k);
    match PropertiesOf(t)
    case None =>
    case Some(p) =>
      var src := Settings(c);
      var cw := ConsoleLogLayer(src);
      var ll := LogLevelLayer(src);
      FirstOfCons(p, [cw, ll, settings, gen], k);
      FirstOfCons(cw, [ll, settings, gen], k);
      FirstOfCons(ll, [settings, gen], k);
  }

  /** Every key of the no-step dictionary has the value of the first layer that defines it. */
  lemma NoStepLayersHold(c: Conf, prefix: string, globalLog: Value, k: string)
    ensures Get(NoStepProps(c, prefix, globalLog), k) == FirstOf(NoStepLayers(c, prefix, globalLog), k)
  {
    var gen := Generated(Join([c.wd, prefix]), Null, prefix, globalLog, c.system);
    var settings := SettingsLayer(c, false);
    FirstOfTwo(settings, gen, k);
    match PropertiesOf(c.root)
    case None =>
    case Some(p) =>
      var ll := LogLevelLayer(Settings(c));
      FirstOfCons(ll, [p, settings, gen], k);
      FirstOfCons(p, [settings, gen], k);
  }

  /** Every key of the fallback dictionary has the value of the first layer that defines it. */
  lemma FallbackLayersHold(c: Conf, prefix: string, globalLog: Value, k: string)
    ensures Get(FallbackProps(c, prefix, globalLog), k) == FirstOf(FallbackLayers(c, prefix, globalLog), k)
  {
    var gen := Generated(Join([c.wd, prefix]), Null, prefix, globalLog, c.system);
    FirstOfCons(SettingsLayer(c, true), [gen, c.root], k);
    FirstOfTwo(gen, c.root, k);
    assert Get<Value>([], k) == None;
  }

  /** The working directory of a valid reader is what the settings carry. */
  lemma SettingsCarryWorkingDir(c: Conf, consoleLog: bool)
    requires ValidConf(c)
    ensures Get(SettingsLayer(c, consoleLog), "working_dir_path") == Some(Str(c.wd))
  {
    if !Given(c.system) {
      SettingsLayerLookup(c, consoleLog, "working_dir_path");
    }
  }

  /** Below the step's own properties and the two settings flags, a step dictionary reads the settings, then the generated keys. */
  lemma StepBelowProperties(c: Conf, prefix: string, globalLog: Value, key: string, t: Dict<Value>, k: string)
    requires k != "can_write_console_log" && k != "log_level"
    requires PropertiesOf(t).None? || !Has(PropertiesOf(t).value, k)
    ensures Get(StepEntry(c, prefix, globalLog, key, t), k)
      == FirstOf([SettingsLayer(c, true), Generated(Join([c.wd, prefix, key]), Str(key), prefix, globalLog, c.system)], k)
  {
    var gen := Generated(Join([c.wd, prefix, key]), Str(key), prefix, globalLog, c.system);
    var settings := SettingsLayer(c, true);
    StepEntryLayers(c, prefix, globalLog, key, t, k);
    match PropertiesOf(t)
    case None =>
    case Some(p) =>
      var cw := ConsoleLogLayer(Settings(c));
      var ll := LogLevelLayer(Settings(c));
      FirstOfCons(p, [cw, ll, settings, gen], k);
      FirstOfCons(cw, [ll, settings, gen], k);
      FirstOfCons(ll, [settings, gen], k);
      GetLast([], "can_write_console_log", GetOr(Settings(c), "can_write_console_log", Bool(true)), k);
      if Truthy(GetOr(Settings(c), "log_level", Null)) {
        GetLast([], "log_level", GetOr(Settings(c), "log_level", Null), k);
      }
  }

  /** In a step dictionary every key of the step's own `properties` has the step's value. */
  lemma StepPropertiesWin(c: Conf, prefix: string, globalLog: Value, key: string, t: Dict<Value>, k: string)
    requires PropertiesOf(t).Some? && Has(PropertiesOf(t).value, k)
    ensures Get(StepEntry(c, prefix, globalLog, key, t), k) == Get(PropertiesOf(t).value, k)
  {
    var gen := Generated(Join([c.wd, prefix, key]), Str(key), prefix, globalLog, c.system);
    var p := PropertiesOf(t).value;
    StepEntryLayers(c, prefix, globalLog, key, t, k);
    FirstOfCons(p, [ConsoleLogLayer(Settings(c)), LogLevelLayer(Settings(c)), SettingsLayer(c, true), gen], k);
  }

  /** A step with `properties` gets `can_write_console_log` from them, else from the settings, else `True`. */
  lemma StepConsoleLog(c: Conf, prefix: string, globalLog: Value, key: string, t: Dict<Value>)
    requires PropertiesOf(t).Some?
    ensures Get(StepEntry(c, prefix, globalLog, key, t), "can_write_console_log")
      == Some(GetOr(PropertiesOf(t).value, "can_write_console_log", GetOr(Settings(c), "can_write_console_log", Bool(true))))
  {
    var gen := Generated(Join([c.wd, prefix, key]), Str(key), prefix, globalLog, c.system);
    var p := PropertiesOf(t).value;
    var cw := ConsoleLogLayer(Settings(c));
    var k := "can_write_console_log";
    StepEntryLayers(c, prefix, globalLog, key, t, k);
    FirstOfCons(p, [cw, LogLevelLayer(Settings(c)), SettingsLayer(c, true), gen], k);
    FirstOfCons(cw, [LogLevelLayer(Settings(c)), SettingsLayer(c, true), gen], k);
    GetLast([], k, GetOr(Settings(c), k, Bool(true)), k);
  }

  /** A step dictionary carries the reader's working directory unless the step's `properties` override it. */
  lemma StepWorkingDir(c: Conf, prefix: string, globalLog: Value, key: string, t: Dict<Value>)
    requires ValidConf(c)
    requires PropertiesOf(t).None? || !Has(PropertiesOf(t).value, "working_dir_path")
    ensures Get(StepEntry(c, prefix, globalLog, key, t), "working_dir_path") == Some(Str(c.wd))
  {
    var gen := Generated(Join([c.wd, prefix, key]), Str(key), prefix, globalLog, c.system);
    StepBelowProperties(c, prefix, globalLog, key, t, "working_dir_path");
    SettingsCarryWorkingDir(c, true);
    FirstOfTwo(SettingsLayer(c, true), gen, "working_dir_path");
  }

  /**
   * A step's `path` is `join(wd, prefix, key)` and its `step` is its name,
   * unless the step's `properties` or the system's table define them.
   */
  lemma StepPathAndName(c: Conf, prefix: string, globalLog: Value, key: string, t: Dict<Value>, k: string)
    requires k == "path" || k == "step"
    requires (PropertiesOf(t).None? || !Has(PropertiesOf(t).value, k)) && !Has(SystemTable(c), k)
    ensures Get(StepEntry(c, prefix, globalLog, key, t), k)
      == Some(if k == "path" then Str(Join([c.wd, prefix, key])) else Str(key))
  {
    var gen := Generated(Join([c.wd, prefix, key]), Str(key), prefix, globalLog, c.system);
    StepBelowProperties(c, prefix, globalLog, key, t, k);
    GeneratedLookup(Join([c.wd, prefix, key]), Str(key), prefix, globalLog, c.system, k);
    if !Given(c.system) {
      SettingsLayerLookup(c, true, k);
    }
    FirstOfTwo(SettingsLayer(c, true), gen, k);
  }

  /**
   * With a `properties` mapping in a no-step document, a true `log_level` of
   * the settings table wins even over the document's own `log_level`; every
   * other key of those properties is kept.
   */
  lemma NoStepLogLevelWins(c: Conf, prefix: string, globalLog: Value)
    requires PropertiesOf(c.root).Some?
    ensures var e := NoStepProps(c, prefix, globalLog);
      && (Truthy(GetOr(Settings(c), "log_level", Null)) ==> Get(e, "log_level") == Get(Settings(c), "log_level"))
      && forall k :: Has(PropertiesOf(c.root).value, k) && (k != "log_level" || !Truthy(GetOr(Settings(c), "log_level", Null)))
           ==> Get(e, k) == Get(PropertiesOf(c.root).value, k)
  {
    var p := PropertiesOf(c.root).value;
    var ll := LogLevelLayer(Settings(c));
    var gen := Generated(Join([c.wd, prefix]), Null, prefix, globalLog, c.system);
    var settings := SettingsLayer(c, false);
    forall k
      ensures Get(NoStepProps(c, prefix, globalLog), k)
        == if Has(ll, k) then Get(ll, k) else if Has(p, k) then Get(p, k) else FirstOf([settings, gen], k)
    {
      NoStepLayersHold(c, prefix, globalLog, k);
      FirstOfCons(ll, [p, settings, gen], k);
      FirstOfCons(p, [settings, gen], k);
    }
    forall k
      ensures Get(ll, k) == if k == "log_level" && Truthy(GetOr(Settings(c), "log_level", Null)) then Some(GetOr(Settings(c), "log_level", Null)) else None
    {
      if Truthy(GetOr(Settings(c), "log_level", Null)) {
        GetLast([], "log_level", GetOr(Settings(c), "log_level", Null), k);
      }
    }
  }

  /**
   * The no-step and fallback dictionaries carry `path = join(wd, prefix)` and
   * `step = None` unless a higher layer defines those keys.
   */
  lemma UnnamedPath(c: Conf, prefix: string, globalLog: Value)
    requires !Has(SystemTable(c), "path") && !Has(SystemTable(c), "step")
    ensures var e := FallbackProps(c, prefix, globalLog);
      Get(e, "path") == Some(Str(Join([c.wd, prefix]))) && Get(e, "step") == Some(Null)
    ensures var e := NoStepProps(c, prefix, globalLog);
      PropertiesOf(c.root).None? || (!Has(PropertiesOf(c.root).value, "path") && !Has(PropertiesOf(c.root).value, "step")) ==>
        Get(e, "path") == Some(Str(Join([c.wd, prefix]))) && Get(e, "step") == Some(Null)
  {
    FallbackUnnamed(c, prefix, globalLog, "path");
    FallbackUnnamed(c, prefix, globalLog, "step");
    if PropertiesOf(c.root).None? || (!Has(PropertiesOf(c.root).value, "path") && !Has(PropertiesOf(c.root).value, "step")) {
      NoStepUnnamed(c, prefix, globalLog, "path");
      NoStepUnnamed(c, prefix, globalLog, "step");
    }
  }

  /** In the fallback dictionary `path` and `step` come from the generated keys. */
  lemma FallbackUnnamed(c: Conf, prefix: string, globalLog: Value, k: string)
    requires k == "path" || k == "step"
    requires !Has(SystemTable(c), k)
    ensures Get(FallbackProps(c, prefix, globalLog), k) == Some(if k == "path" then Str(Join([c.wd, prefix])) else Null)
  {
    var gen := Generated(Join([c.wd, prefix]), Null, prefix, globalLog, c.system);
    GeneratedLookup(Join([c.wd, prefix]), Null, prefix, globalLog, c.system, k);
    if !Given(c.system) {
      SettingsLayerLookup(c, true, k);
    }
    FallbackLayersHold(c, prefix, globalLog, k);
    FirstOfCons(SettingsLayer(c, true), [gen, c.root], k);
    FirstOfTwo(gen, c.root, k);
  }

  /** In the no-step dictionary `path` and `step` come from the generated keys unless the document's `properties` define them. */
  lemma NoStepUnnamed(c: Conf, prefix: string, globalLog: Value, k: string)
    requires k == "path" || k == "step"
    requires !Has(SystemTable(c), k)
    requires PropertiesOf(c.root).None? || !Has(PropertiesOf(c.root).value, k)
    ensures Get(NoStepProps(c, prefix, globalLog), k) == Some(if k == "path" then Str(Join([c.wd, prefix])) else Null)
  {
    var gen := Generated(Join([c.wd, prefix]), Null, prefix, globalLog, c.system);
    GeneratedLookup(Join([c.wd, prefix]), Null, prefix, globalLog, c.system, k);
    if !Given(c.system) {
      SettingsLayerLookup(c, false, k);
    }
    NoStepLayersHold(c, prefix, globalLog, k);
    var settings := SettingsLayer(c, false);
    FirstOfTwo(settings, gen, k);
    if PropertiesOf(c.root).Some? {
      var p := PropertiesOf(c.root).value;
      var ll := LogLevelLayer(Settings(c));
      if Truthy(GetOr(Settings(c), "log_level", Null)) {
        GetLast([], "log_level", GetOr(Settings(c), "log_level", Null), k);
      }
      FirstOfCons(ll, [p, settings, gen], k);
      FirstOfCons(p, [settings, gen], k);
    }
  }

  /** The fallback dictionary keeps every key of the document that neither the settings nor the generated keys define. */
  lemma FallbackKeepsDocument(c: Conf, prefix: string, globalLog: Value, k: string)
    requires !Has(SettingsLayer(c, true), k)
    requires k !in {"path", "step", "prefix", "global_log", "system"}
    ensures Get(FallbackProps(c, prefix, globalLog), k) == Get(c.root, k)
  {
    var gen := Generated(Join([c.wd, prefix]), Null, prefix, globalLog, c.system);
    GeneratedLookup(Join([c.wd, prefix]), Null, prefix, globalLog, c.system, k);
    FallbackLayersHold(c, prefix, globalLog, k);
    FirstOfCons(SettingsLayer(c, true), [gen, c.root], k);
    FirstOfTwo(gen, c.root, k);
  }

  // ---------------------------------------------------------------------
  // Which steps the properties view has
  // ---------------------------------------------------------------------

  /** The names of the top-level entries that are steps, in document order. */
  function StepNames(root: Dict<Value>): seq<string> {
    if root == [] then []
    else StepNames(root[..|root| - 1]) + (if IsStep(root[|root| - 1].1) then [root[|root| - 1].0] else [])
  }

  /** A key none of the first `n` top-level entries has gets no step dictionary. */
  lemma {:induction false} StepEntriesOutside(c: Conf, n: nat, prefix: string, globalLog: Value, k: string)
    requires n <= |c.root| && forall i :: 0 <= i < n ==> c.root[i].0 != k
    ensures !Has(StepEntries(c, n, prefix, globalLog), k)
  {
    if n > 0 {
      StepEntriesOutside(c, n - 1, prefix, globalLog, k);
    }
  }

  /** Each of the first `n` top-level entries has the dictionary `StepEntry` builds when it is a step, and none otherwise. */
  lemma {:induction false} StepEntriesGet(c: Conf, n: nat, prefix: string, globalLog: Value, i: nat)
    requires DistinctKeys(c.root) && i < n <= |c.root|
    ensures Get(StepEntries(c, n, prefix, globalLog), c.root[i].0)
      == if IsStep(c.root[i].1) then Some(StepEntry(c, prefix, globalLog, c.root[i].0, c.root[i].1.entries)) else None
  {
    GetDistinct(c.root, n - 1);
    if i == n - 1 {
      StepEntriesOutside(c, n - 1, prefix, globalLog, c.root[i].0);
    } else {
      StepEntriesGet(c, n - 1, prefix, globalLog, i);
    }
  }

  /** The step dictionaries come in document order, one per step. */
  lemma {:induction false} StepEntriesKeys(c: Conf, n: nat, prefix: string, globalLog: Value)
    requires DistinctKeys(c.root) && n <= |c.root|
    ensures Keys(StepEntries(c, n, prefix, globalLog)) == StepNames(c.root[..n])
  {
    if n > 0 {
      StepEntriesKeys(c, n - 1, prefix, globalLog);
      var key := c.root[n - 1].0;
      assert c.root[..n][..n - 1] == c.root[..n - 1];
      GetDistinct(c.root, n - 1);
      StepEntriesOutside(c, n - 1, prefix, globalLog, key);
      if IsStep(c.root[n - 1].1) {
        SetKeys(StepEntries(c, n - 1, prefix, globalLog), key, StepEntry(c, prefix, globalLog, key, c.root[n - 1].1.entries));
      }
    }
  }

  /**
   * The properties view of a document without top-level `paths` or
   * `properties`: one dictionary per step, exactly the steps in document
   * order, each built by `StepEntry`; the fallback when there is none.
   */
  lemma PropDicSteps(c: Conf, prefix: string, globalLog: Value)
    requires DistinctKeys(c.root)
    requires !Has(c.root, "paths") && !Has(c.root, "properties")
    ensures StepNames(c.root) == [] ==> PropDic(c, prefix, globalLog) == Flat(FallbackProps(c, prefix, globalLog))
    ensures StepNames(c.root) != [] ==> PropDic(c, prefix, globalLog).PerStep?
    ensures StepNames(c.root) != [] ==> Keys(PropDic(c, prefix, globalLog).steps) == StepNames(c.root)
    ensures StepNames(c.root) != [] ==> forall i :: 0 <= i < |c.root| && IsStep(c.root[i].1) ==>
      Get(PropDic(c, prefix, globalLog).steps, c.root[i].0) == Some(StepEntry(c, prefix, globalLog, c.root[i].0, c.root[i].1.entries))
  {
    StepEntriesKeys(c, |c.root|, prefix, globalLog);
    assert c.root[..|c.root|] == c.root;
    forall i | 0 <= i < |c.root| && IsStep(c.root[i].1)
      ensures Get(StepEntries(c, |c.root|, prefix, globalLog), c.root[i].0)
        == Some(StepEntry(c, prefix, globalLog, c.root[i].0, c.root[i].1.entries))
    {
      StepEntriesGet(c, |c.root|, prefix, globalLog, i);
    }
  }

  // ---------------------------------------------------------------------
  // The paths view
  // ---------------------------------------------------------------------

  /** A step value whose `paths`, if any, is a mapping of strings. */
  predicate StepPathsWellTyped(v: Value) {
    v.Map? && Has(v.entries, "paths") ==>
      match Get<Value>(v.entries, "paths")
      case Some(Map(m)) => forall j :: 0 <= j < |m| ==> m[j].1.Str?
      case _ => false
  }

  /** The documents whose paths view the model covers: every table the getter iterates is a mapping, of strings for step tables. */
  predicate PathsWellTyped(root: Dict<Value>) {
    if Has(root, "paths") then Get(root, "paths").value.Map?
    else forall i :: 0 <= i < |root| ==> StepPathsWellTyped(root[i].1)
  }

  /** A mapping of strings as a paths table. */
  function Strings(m: seq<(string, Value)>): (r: PathsTable)
    requires forall j :: 0 <= j < |m| ==> m[j].1.Str?
    ensures |r| == |m| && forall j :: 0 <= j < |m| ==> r[j] == (m[j].0, m[j].1.s)
  {
    seq(|m|, j requires 0 <= j < |m| => (m[j].0, m[j].1.s))
  }

  /** The paths table answers for the same keys as the mapping it was read from, with the same strings. */
  lemma {:induction false} StringsGet(m: seq<(string, Value)>, k: string)
    requires forall j :: 0 <= j < |m| ==> m[j].1.Str?
    ensures Get(Strings(m), k).Some? <==> Get(m, k).Some?
    ensures Get(m, k).Some? ==> Get(m, k) == Some(Str(Get(Strings(m), k).value))
    decreases |m|
  {
    if m != [] && m[|m| - 1].0 != k {
      var front := m[..|m| - 1];
      assert Strings(m)[..|m| - 1] == Strings(front);
      StringsGet(front, k);
    }
  }

  /** `self.properties[key]['paths'].copy()` of a step, or `{}` when it has none. */
  function PathsOf(t: Dict<Value>): PathsTable
    requires StepPathsWellTyped(Map(t))
  {
    match Get<Value>(t, "paths")
    case Some(Map(m)) => Strings(m)
    case _ => []
  }

  /** The tables collected from the first `n` top-level entries: one per mapping. */
  function CollectPaths(root: Dict<Value>, n: nat): PathsDic
    requires n <= |root| && forall i :: 0 <= i < |root| ==> StepPathsWellTyped(root[i].1)
  {
    if n == 0 then []
    else
      var prev := CollectPaths(root, n - 1);
      var (key, v) := root[n - 1];
      if v.Map? then Set(prev, key, PathsOf(v.entries)) else prev
  }

  /**
   * One entry of a no-step `paths` table: a `file:` string is its literal;
   * with a system the source reads the unbound local `key` and raises;
   * otherwise the value is joined under the working directory.
   */
  function FlatValue(c: Conf, prefix: string, v: Value): Result<string, PyError> {
    if v.Str? && IsFileLiteral(v.s) then Ok(FileLiteral(v.s))
    else if Given(c.system) then Err(NameError("key"))
    else if v.Str? then Ok(Join([c.wd, prefix, v.s]))
    else Err(TypeError)
  }

  /** The no-step `paths` table, entry by entry; the first failing entry decides the error. */
  function ResolveFlat(c: Conf, prefix: string, m: seq<(string, Value)>): Result<PathsTable, PyError> {
    if m == [] then Ok([])
    else
      var v :- FlatValue(c, prefix, m[0].1);
      var rest :- ResolveFlat(c, prefix, m[1..]);
      Ok([(m[0].0, v)] + rest)
  }

  /** `out` followed by a result's entries. */
  function Prepend(out: PathsTable, r: Result<PathsTable, PyError>): Result<PathsTable, PyError> {
    if r.Ok? then Ok(out + r.value) else r
  }

  lemma PrependStep(out: PathsTable, e: (string, string), r: Result<PathsTable, PyError>)
    ensures Prepend(out, if r.Ok? then Ok([e] + r.value) else r) == Prepend(out + [e], r)
  {
    if r.Ok? {
      assert out + ([e] + r.value) == out + [e] + r.value;
    }
  }

  /**
   * The directory a followed dependency is joined under:
   * `self.properties[self.system]['working_dir_path']` when
   * `self.properties.get(self.system)` is true, the root's otherwise.
   */
  function DepBase(c: Conf): Result<string, PyError> {
    var t := if c.system.Some? then GetOr(c.root, c.system.value, Null) else Null;
    var table := if Truthy(t) then t else Map(c.root);
    match table
    case Map(d) =>
      (match Get<Value>(d, "working_dir_path")
       case Some(Str(w)) => Ok(w)
       case Some(_) => Err(TypeError)
       case None => Err(KeyError("working_dir_path")))
    case _ => Err(TypeError)
  }

  /** The result of `get_paths_dic`: the single no-step table, or one table per step. */
  datatype PathsView = FlatPaths(paths: PathsTable) | StepPaths(steps: PathsDic)

  /** `get_paths_dic(prefix)` with the prefix already normalised. */
  function PathsDicOf(c: Conf, prefix: string): Result<PathsView, PyError>
    requires PathsWellTyped(c.root)
  {
    if Has(c.root, "paths") then
      var f :- ResolveFlat(c, prefix, Get(c.root, "paths").value.entries);
      Ok(FlatPaths(f))
    else
      var r :- ResolveFrom(CollectPaths(c.root, |c.root|), 0, 0, c.wd, DepBase(c), prefix);
      Ok(StepPaths(r))
  }

  /**
   * A no-step `paths` table resolves exactly when every entry does: with a
   * system only `file:` entries survive and any other raises NameError; without
   * one, `file:` entries become their literal and the others `join(wd, prefix, v)`.
   */
  lemma {:induction false} ResolveFlatEntries(c: Conf, prefix: string, m: seq<(string, Value)>)
    ensures ResolveFlat(c, prefix, m).Ok? <==> forall j :: 0 <= j < |m| ==> FlatValue(c, prefix, m[j].1).Ok?
    ensures Given(c.system) ==> (ResolveFlat(c, prefix, m).Ok? <==> forall j :: 0 <= j < |m| ==> m[j].1.Str? && IsFileLiteral(m[j].1.s))
    ensures Given(c.system) && ResolveFlat(c, prefix, m).Err? ==> ResolveFlat(c, prefix, m) == Err(NameError("key"))
    ensures ResolveFlat(c, prefix, m).Ok? ==> var f := ResolveFlat(c, prefix, m).value;
      |f| == |m| && forall j :: 0 <= j < |m| ==> f[j].0 == m[j].0 && FlatValue(c, prefix, m[j].1) == Ok(f[j].1)
  {
    if m != [] {
      ResolveFlatEntries(c, prefix, m[1..]);
      assert forall j :: 1 <= j < |m| ==> m[1..][j - 1] == m[j];
    }
  }

  /** The names of the top-level entries that are mappings, in document order. */
  function TableNames(root: Dict<Value>): seq<string> {
    if root == [] then []
    else TableNames(root[..|root| - 1]) + (if root[|root| - 1].1.Map? then [root[|root| - 1].0] else [])
  }

  /** A key none of the first `n` top-level entries has gets no table. */
  lemma {:induction false} CollectPathsOutside(root: Dict<Value>, n: nat, k: string)
    requires n <= |root| && forall i :: 0 <= i < |root| ==> StepPathsWellTyped(root[i].1)
    requires forall i :: 0 <= i < n ==> root[i].0 != k
    ensures !Has(CollectPaths(root, n), k)
  {
    if n > 0 {
      CollectPathsOutside(root, n - 1, k);
    }
  }

  /** Each of the first `n` top-level mappings has its `paths` table, or `{}`; other entries have none. */
  lemma {:induction false} CollectPathsGet(root: Dict<Value>, n: nat, i: nat)
    requires DistinctKeys(root) && i < n <= |root| && forall i :: 0 <= i < |root| ==> StepPathsWellTyped(root[i].1)
    ensures Get(CollectPaths(root, n), root[i].0) == if root[i].1.Map? then Some(PathsOf(root[i].1.entries)) else None
  {
    GetDistinct(root, n - 1);
    if i == n - 1 {
      CollectPathsOutside(root, n - 1, root[i].0);
    } else {
      CollectPathsGet(root, n - 1, i);
    }
  }

  /** The tables come in document order, one per top-level mapping. */
  lemma {:induction false} CollectPathsKeys(root: Dict<Value>, n: nat)
    requires DistinctKeys(root) && n <= |root| && forall i :: 0 <= i < |root| ==> StepPathsWellTyped(root[i].1)
    ensures Keys(CollectPaths(root, n)) == TableNames(root[..n])
  {
    if n > 0 {
      CollectPathsKeys(root, n - 1);
      var key := root[n - 1].0;
      assert root[..n][..n - 1] == root[..n - 1];
      GetDistinct(root, n - 1);
      CollectPathsOutside(root, n - 1, key);
      if root[n - 1].1.Map? {
        SetKeys(CollectPaths(root, n - 1), key, PathsOf(root[n - 1].1.entries));
      }
    }
  }

  /**
   * A reader whose document is as `__init__` leaves it joins followed
   * dependencies under its working directory, unless the system is the
   * empty string and the document has a true entry under the key `''`.
   */
  lemma DepBaseIsWorkingDir(c: Conf)
    requires ValidConf(c)
    requires !(c.system == Some("") && Truthy(GetOr(c.root, "", Null)))
    ensures DepBase(c) == Ok(c.wd)
  {
  }

  // ---------------------------------------------------------------------
  // The getters' loops
  // ---------------------------------------------------------------------

  /** The loop of `get_prop_dic` over the top-level entries of a document without top-level `paths` or `properties`. */
  method BuildSteps(c: Conf, prefix: string, globalLog: Value) returns (steps: Dict<Dict<Value>>)
    ensures steps == StepEntries(c, |c.root|, prefix, globalLog)
  {
    steps := [];
    var i := 0;
    while i < |c.root|
      invariant i <= |c.root|
      invariant steps == StepEntries(c, i, prefix, globalLog)
    {
      var (key, v) := c.root[i];
      if v.Map? && (Has(v.entries, "paths") || Has(v.entries, "properties")) {
        steps := Set(steps, key, StepEntry(c, prefix, globalLog, key, v.entries));
      }
      i := i + 1;
    }
  }

  /** The loop of `get_paths_dic` over a no-step `paths` table. The source rewrites the copied table in place; its entries do not read each other. */
  method ResolveFlatTable(c: Conf, prefix: string, m: seq<(string, Value)>) returns (r: Result<PathsTable, PyError>)
    ensures r == ResolveFlat(c, prefix, m)
  {
    var out: PathsTable := [];
    var j := 0;
    assert m[0..] == m;
    var whole := ResolveFlat(c, prefix, m);
    assert whole.Ok? ==> [] + whole.value == whole.value;
    while j < |m|
      invariant j <= |m|
      invariant ResolveFlat(c, prefix, m) == Prepend(out, ResolveFlat(c, prefix, m[j..]))
    {
      assert m[j..][1..] == m[j + 1..];
      var nv := FlatValue(c, prefix, m[j].1);
      if nv.Err? {
        return Err(nv.error);
      }
      PrependStep(out, (m[j].0, nv.value), ResolveFlat(c, prefix, m[j + 1..]));
      out := out + [(m[j].0, nv.value)];
      j := j + 1;
    }
    assert m[|m|..] == [];
    assert out + [] == out;
    return Ok(out);
  }

  /** The loop of `get_paths_dic` collecting one table per top-level mapping. */
  method CollectTables(root: Dict<Value>) returns (pd: PathsDic)
    requires forall i :: 0 <= i < |root| ==> StepPathsWellTyped(root[i].1)
    ensures pd == CollectPaths(root, |root|)
  {
    pd := [];
    var i := 0;
    while i < |root|
      invariant i <= |root|
      invariant pd == CollectPaths(root, i)
    {
      var (key, v) := root[i];
      if v.Map? {
        pd := Set(pd, key, PathsOf(v.entries));
      }
      i := i + 1;
    }
  }

  // ---------------------------------------------------------------------
  // The reader
  // ---------------------------------------------------------------------

  class ConfReader {
    var system: Option<string>
    /** The parsed document, rewritten by `__init__`. */
    var properties: Dict<Value>
    /** The working directory `__init__` stored. */
    ghost var workingDir: string

    ghost function State(): Conf
      reads this
    {
      Conf(properties, system, workingDir)
    }

    ghost predicate Valid()
      reads this
    {
      ValidConf(State())
    }

    /** `ConfReader(config, system)` for the document `config` parses to. */
    constructor (doc: Dict<Value>, system: Option<string>, resolveWd: Value -> string)
      requires InitProperties(doc, system, resolveWd).Ok?
      ensures Valid()
      ensures this.system == system && properties == InitProperties(doc, system, resolveWd).value
      ensures workingDir == resolveWd(OriginalWorkingDir(doc, system))
    {
      this.system := system;
      properties := InitProperties(doc, system, resolveWd).value;
      workingDir := resolveWd(OriginalWorkingDir(doc, system));
    }

    /** `get_working_dir_path()`: the system's working directory, or the root's. */
    function WorkingDirPath(): (r: Value)
      reads this
      requires Valid()
      ensures r == Str(workingDir)
    {
      WorkingDirSlot(properties, system).value
    }

    /** `get_prop_dic(prefix, global_log)` */
    method GetPropDic(prefix: Option<string>, globalLog: Value) returns (r: PropView)
      requires Valid()
      ensures r == PropDic(State(), NormalisePrefix(prefix), globalLog)
    {
      var c := Conf(properties, system, WorkingDirPath().s);
      var p := NormalisePrefix(prefix);
      if Has(properties, "paths") || Has(properties, "properties") {
        return Flat(NoStepProps(c, p, globalLog));
      }
      var steps := BuildSteps(c, p, globalLog);
      if steps == [] {
        return Flat(FallbackProps(c, p, globalLog));
      }
      return PerStep(steps);
    }

    /** `get_paths_dic(prefix)` */
    method GetPathsDic(prefix: Option<string>) returns (r: Result<PathsView, PyError>)
      requires Valid() && PathsWellTyped(properties)
      ensures r == PathsDicOf(State(), NormalisePrefix(prefix))
    {
      var c := Conf(properties, system, WorkingDirPath().s);
      var p := NormalisePrefix(prefix);
      if Has(properties, "paths") {
        var flat := ResolveFlatTable(c, p, Get(properties, "paths").value.entries);
        if flat.Err? {
          return Err(flat.error);
        }
        return Ok(FlatPaths(flat.value));
      }
      var pd := CollectTables(properties);
      var resolved := ResolvePaths(pd, c.wd, DepBase(c), p);
      if resolved.Err? {
        return Err(resolved.error);
      }
      return Ok(StepPaths(resolved.value));
    }
  }
}
