/**
 * The older settings reader, `YamlReader` of `configuration/settings.py`.
 * It always works in a system: `__init__` renames the system's
 * `workflow_path` to a path that does not exist yet, and both getters put
 * every step under that path. The parsed document is an input; which paths
 * exist on disk is a finite set.
 */
module YamlSettings {
  import opened Wrappers
  import opened Values
  import opened PosixPath
  import opened FileUtils
  import opened PathResolution
  import opened ConfSettings

  // ---------------------------------------------------------------------
  // __init__
  // ---------------------------------------------------------------------

  /** `self.properties[system]`: a missing system raises `KeyError`, a value that is not a mapping cannot be subscripted by a string. */
  function SystemEntry(doc: Dict<Value>, system: string): (r: Result<Dict<Value>, PyError>)
    ensures !Has(doc, system) ==> r == Err(KeyError(system))
    ensures r.Ok? <==> Get(doc, system).Some? && Get(doc, system).value.Map?
    ensures r.Ok? ==> Get(doc, system) == Some(Map(r.value))
  {
    match Get<Value>(doc, system)
    case None => Err(KeyError(system))
    case Some(Map(t)) => Ok(t)
    case Some(_) => Err(TypeError)
  }

  /**
   * `self.properties[system]['workflow_path']` as `get_workflow_path` needs
   * it: a missing key raises `KeyError`, a value that is not a string makes
   * the existence test raise `TypeError`.
   */
  function WorkflowPathIn(doc: Dict<Value>, system: string): (r: Result<string, PyError>)
    ensures SystemEntry(doc, system).Err? ==> r == Err(SystemEntry(doc, system).error)
    ensures SystemEntry(doc, system).Ok? && !Has(SystemEntry(doc, system).value, "workflow_path") ==> r == Err(KeyError("workflow_path"))
    ensures r.Ok? <==> (SystemEntry(doc, system).Ok? && Get(SystemEntry(doc, system).value, "workflow_path").Some?
      && Get(SystemEntry(doc, system).value, "workflow_path").value.Str?)
    ensures r.Ok? ==> Get(SystemEntry(doc, system).value, "workflow_path") == Some(Str(r.value))
  {
    var t :- SystemEntry(doc, system);
    match Get<Value>(t, "workflow_path")
    case None => Err(KeyError("workflow_path"))
    case Some(Str(s)) => Ok(s)
    case Some(_) => Err(TypeError)
  }

  /**
   * `self.properties[system]['workflow_path'] = wp`: the system's table gets
   * the new path and nothing else in the document changes.
   */
  function WithWorkflowPath(doc: Dict<Value>, system: string, wp: string): (r: Dict<Value>)
    requires SystemEntry(doc, system).Ok?
    ensures WorkflowPathIn(r, system) == Ok(wp)
    ensures forall k :: k != system ==> Get(r, k) == Get(doc, k)
    ensures forall k :: k != "workflow_path" ==> Get(SystemEntry(r, system).value, k) == Get(SystemEntry(doc, system).value, k)
  {
    var t := SystemEntry(doc, system).value;
    Set(doc, system, Map(Set(t, "workflow_path", Str(wp))))
  }

  /** The update leaves the document's keys, and the system table's keys, where they were. */
  lemma WithWorkflowPathKeys(doc: Dict<Value>, system: string, wp: string)
    requires SystemEntry(doc, system).Ok? && Has(SystemEntry(doc, system).value, "workflow_path")
    ensures Keys(WithWorkflowPath(doc, system, wp)) == Keys(doc)
    ensures Keys(SystemEntry(WithWorkflowPath(doc, system, wp), system).value) == Keys(SystemEntry(doc, system).value)
  {
    var t := SystemEntry(doc, system).value;
    SetKeys(doc, system, Map(Set(t, "workflow_path", Str(wp))));
    SetKeys(t, "workflow_path", Str(wp));
  }

  // ---------------------------------------------------------------------
  // The properties view
  // ---------------------------------------------------------------------

  /** The keys every step dictionary gets, in the order assigned. */
  function YamlGenerated(wp: string, prefix: string, globalLog: Value, key: string): Dict<Value> {
    [("path", Str(CreateName(Some(wp), Some(prefix), Some(key), None))), ("step", Str(key)), ("prefix", Str(prefix)), ("global_log", globalLog)]
  }

  /** `rm_tmp` of the system's table, when it is set and true. */
  function RmTmpLayer(sys: Dict<Value>): Dict<Value> {
    if Truthy(GetOr(sys, "rm_tmp", Null)) then [("rm_tmp", GetOr(sys, "rm_tmp", Null))] else []
  }

  /**
   * The dictionary of step `key` with table `t`; a step with a `properties`
   * mapping then gets `rm_tmp` and `log_level`, the system's table and its
   * own properties, in that order.
   */
  function YamlStepEntry(sys: Dict<Value>, wp: string, prefix: string, globalLog: Value, key: string, t: Dict<Value>): Dict<Value> {
    var e := Update([], YamlGenerated(wp, prefix, globalLog, key));
    match PropertiesOf(t)
    case None => e
    case Some(p) => Update(Update(Update(Update(e, RmTmpLayer(sys)), LogLevelLayer(sys)), sys), p)
  }

  /** The step dictionaries built from the first `n` top-level entries (see `YamlCollect` on reading each binding's value). */
  function YamlSteps(root: Dict<Value>, sys: Dict<Value>, wp: string, prefix: string, globalLog: Value, n: nat): Dict<Dict<Value>>
    requires n <= |root|
  {
    if n == 0 then []
    else
      var prev := YamlSteps(root, sys, wp, prefix, globalLog, n - 1);
      var (key, v) := root[n - 1];
      if IsStep(v) then Set(prev, key, YamlStepEntry(sys, wp, prefix, globalLog, key, v.entries)) else prev
  }

  /** `get_prop_dic(prefix, global_log)` of a document `__init__` has prepared, the prefix already normalised. */
  function YamlPropDic(root: Dict<Value>, system: string, prefix: string, globalLog: Value): Dict<Dict<Value>>
    requires WorkflowPathIn(root, system).Ok?
  {
    YamlSteps(root, SystemEntry(root, system).value, WorkflowPathIn(root, system).value, prefix, globalLog, |root|)
  }

  /** A step dictionary from the top: the step's own properties, the system's table, `log_level`, `rm_tmp`, the generated keys. */
  function YamlStepLayers(sys: Dict<Value>, wp: string, prefix: string, globalLog: Value, key: string, t: Dict<Value>): seq<Dict<Value>> {
    var gen := YamlGenerated(wp, prefix, globalLog, key);
    match PropertiesOf(t)
    case None => [gen]
    case Some(p) => [p, sys, LogLevelLayer(sys), RmTmpLayer(sys), gen]
  }

  lemma FirstOfOne(a: Dict<Value>, k: string)
    ensures FirstOf([a], k) == Get(a, k)
  {
    FirstOfCons(a, [], k);
    assert [a] == [a] + [];
  }

  /** Every key of a step dictionary has the value of the first layer that defines it. */
  lemma YamlStepEntryLayers(sys: Dict<Value>, wp: string, prefix: string, globalLog: Value, key: string, t: Dict<Value>, k: string)
    ensures Get(YamlStepEntry(sys, wp, prefix, globalLog, key, t), k) == FirstOf(YamlStepLayers(sys, wp, prefix, globalLog, key, t), k)
  {
    var gen := YamlGenerated(wp, prefix, globalLog, key);
    FirstOfOne(gen, k);
    match PropertiesOf(t)
    case None =>
    case Some(p) =>
      var ll := LogLevelLayer(sys);
      var rt := RmTmpLayer(sys);
      FirstOfCons(p, [sys, ll, rt, gen], k);
      FirstOfCons(sys, [ll, rt, gen], k);
      FirstOfCons(ll, [rt, gen], k);
      FirstOfTwo(rt, gen, k);
  }

  /** The generated keys and their values; no other key is generated. */
  lemma YamlGeneratedLookup(wp: string, prefix: string, globalLog: Value, key: string, k: string)
    ensures Get(YamlGenerated(wp, prefix, globalLog, key), k) ==
      if k == "path" then Some(Str(CreateName(Some(wp), Some(prefix), Some(key), None)))
      else if k == "step" then Some(Str(key))
      else if k == "prefix" then Some(Str(prefix))
      else if k == "global_log" then Some(globalLog)
      else None
  {
    NamesDistinct();
    var g1 := [] + [("path", Str(CreateName(Some(wp), Some(prefix), Some(key), None)))];
    var g2 := g1 + [("step", Str(key))];
    var g3 := g2 + [("prefix", Str(prefix))];
    assert YamlGenerated(wp, prefix, globalLog, key) == g3 + [("global_log", globalLog)];
    GetLast(g3, "global_log", globalLog, k);
    GetLast(g2, "prefix", Str(prefix), k);
    GetLast(g1, "step", Str(key), k);
    GetLast([], "path", Str(CreateName(Some(wp), Some(prefix), Some(key), None)), k);
  }

  /** In a step dictionary every key of the step's own `properties` has the step's value. */
  lemma YamlStepPropertiesWin(sys: Dict<Value>, wp: string, prefix: string, globalLog: Value, key: string, t: Dict<Value>, k: string)
    requires PropertiesOf(t).Some? && Has(PropertiesOf(t).value, k)
    ensures Get(YamlStepEntry(sys, wp, prefix, globalLog, key, t), k) == Get(PropertiesOf(t).value, k)
  {
    var p := PropertiesOf(t).value;
    YamlStepEntryLayers(sys, wp, prefix, globalLog, key, t, k);
    FirstOfCons(p, [sys, LogLevelLayer(sys), RmTmpLayer(sys), YamlGenerated(wp, prefix, globalLog, key)], k);
  }

  /** A key the step's `properties` leave out but the system's table has comes from the system's table. */
  lemma YamlSystemNext(sys: Dict<Value>, wp: string, prefix: string, globalLog: Value, key: string, t: Dict<Value>, k: string)
    requires PropertiesOf(t).Some? && !Has(PropertiesOf(t).value, k) && Has(sys, k)
    ensures Get(YamlStepEntry(sys, wp, prefix, globalLog, key, t), k) == Get(sys, k)
  {
    var p := PropertiesOf(t).value;
    var gen := YamlGenerated(wp, prefix, globalLog, key);
    YamlStepEntryLayers(sys, wp, prefix, globalLog, key, t, k);
    FirstOfCons(p, [sys, LogLevelLayer(sys), RmTmpLayer(sys), gen], k);
    FirstOfCons(sys, [LogLevelLayer(sys), RmTmpLayer(sys), gen], k);
  }

  /**
   * A step's `path` is `create_name(workflow_path, prefix, key)` and its
   * `step` is its name, unless its `properties` or the system's table
   * define them; a step without `properties` has exactly the four generated keys.
   */
  lemma YamlStepNamed(sys: Dict<Value>, wp: string, prefix: string, globalLog: Value, key: string, t: Dict<Value>, k: string)
    requires PropertiesOf(t).None? || (!Has(PropertiesOf(t).value, k) && !Has(sys, k))
    requires k != "rm_tmp" && k != "log_level"
    ensures Get(YamlStepEntry(sys, wp, prefix, globalLog, key, t), k) == Get(YamlGenerated(wp, prefix, globalLog, key), k)
  {
    var gen := YamlGenerated(wp, prefix, globalLog, key);
    YamlStepEntryLayers(sys, wp, prefix, globalLog, key, t, k);
    match PropertiesOf(t)
    case None =>
    case Some(p) =>
      var ll := LogLevelLayer(sys);
      var rt := RmTmpLayer(sys);
      FirstOfCons(p, [sys, ll, rt, gen], k);
      FirstOfCons(sys, [ll, rt, gen], k);
      FirstOfCons(ll, [rt, gen], k);
      FirstOfTwo(rt, gen, k);
      if Truthy(GetOr(sys, "log_level", Null)) {
        GetLast([], "log_level", GetOr(sys, "log_level", Null), k);
      }
      if Truthy(GetOr(sys, "rm_tmp", Null)) {
        GetLast([], "rm_tmp", GetOr(sys, "rm_tmp", Null), k);
      }
  }

  /** A key none of the first `n` top-level entries has gets no step dictionary. */
  lemma {:induction false} YamlStepsOutside(root: Dict<Value>, sys: Dict<Value>, wp: string, prefix: string, globalLog: Value, n: nat, k: string)
    requires n <= |root| && forall i :: 0 <= i < n ==> root[i].0 != k
    ensures !Has(YamlSteps(root, sys, wp, prefix, globalLog, n), k)
  {
    if n > 0 {
      YamlStepsOutside(root, sys, wp, prefix, globalLog, n - 1, k);
    }
  }

  /** Each of the first `n` top-level entries has the dictionary `YamlStepEntry` builds when it is a step, and none otherwise. */
  lemma {:induction false} YamlStepsGet(root: Dict<Value>, sys: Dict<Value>, wp: string, prefix: string, globalLog: Value, n: nat, i: nat)
    requires DistinctKeys(root) && i < n <= |root|
    ensures Get(YamlSteps(root, sys, wp, prefix, globalLog, n), root[i].0)
      == if IsStep(root[i].1) then Some(YamlStepEntry(sys, wp, prefix, globalLog, root[i].0, root[i].1.entries)) else None
  {
    GetDistinct(root, n - 1);
    if i == n - 1 {
      YamlStepsOutside(root, sys, wp, prefix, globalLog, n - 1, root[i].0);
    } else {
      YamlStepsGet(root, sys, wp, prefix, globalLog, n - 1, i);
    }
  }

  /** The step dictionaries come in document order, one per step. */
  lemma {:induction false} YamlStepsKeys(root: Dict<Value>, sys: Dict<Value>, wp: string, prefix: string, globalLog: Value, n: nat)
    requires DistinctKeys(root) && n <= |root|
    ensures Keys(YamlSteps(root, sys, wp, prefix, globalLog, n)) == StepNames(root[..n])
  {
    if n > 0 {
      YamlStepsKeys(root, sys, wp, prefix, globalLog, n - 1);
      var key := root[n - 1].0;
      assert root[..n][..n - 1] == root[..n - 1];
      GetDistinct(root, n - 1);
      YamlStepsOutside(root, sys, wp, prefix, globalLog, n - 1, key);
      if IsStep(root[n - 1].1) {
        SetKeys(YamlSteps(root, sys, wp, prefix, globalLog, n - 1), key, YamlStepEntry(sys, wp, prefix, globalLog, key, root[n - 1].1.entries));
      }
    }
  }

  /** The properties view has one dictionary per step, in document order, each built by `YamlStepEntry`. */
  lemma YamlPropDicSteps(root: Dict<Value>, system: string, prefix: string, globalLog: Value)
    requires DistinctKeys(root) && WorkflowPathIn(root, system).Ok?
    ensures Keys(YamlPropDic(root, system, prefix, globalLog)) == StepNames(root)
    ensures forall i :: 0 <= i < |root| && IsStep(root[i].1) ==>
      Get(YamlPropDic(root, system, prefix, globalLog), root[i].0)
        == Some(YamlStepEntry(SystemEntry(root, system).value, WorkflowPathIn(root, system).value, prefix, globalLog, root[i].0, root[i].1.entries))
  {
    var sys := SystemEntry(root, system).value;
    var wp := WorkflowPathIn(root, system).value;
    YamlStepsKeys(root, sys, wp, prefix, globalLog, |root|);
    assert root[..|root|] == root;
    forall i | 0 <= i < |root| && IsStep(root[i].1)
      ensures Get(YamlSteps(root, sys, wp, prefix, globalLog, |root|), root[i].0)
        == Some(YamlStepEntry(sys, wp, prefix, globalLog, root[i].0, root[i].1.entries))
    {
      YamlStepsGet(root, sys, wp, prefix, globalLog, |root|, i);
    }
  }

  // ---------------------------------------------------------------------
  // The paths view
  // ---------------------------------------------------------------------

  /** Whether a top-level value is a mapping with a `paths` key. */
  predicate HasPaths(v: Value) {
    v.Map? && Has(v.entries, "paths")
  }

  /** The names of the top-level mappings with a `paths` key, in document order. */
  function PathStepNames(root: Dict<Value>): seq<string> {
    if root == [] then []
    else PathStepNames(root[..|root| - 1]) + (if HasPaths(root[|root| - 1].1) then [root[|root| - 1].0] else [])
  }

  /**
   * The `paths` tables of the first `n` top-level entries, for the steps that
   * have one. The source's `for key in d: d[key]` reads each binding's own
   * value, which is what `root[n - 1]` holds for a mapping with distinct keys.
   */
  function YamlCollect(root: Dict<Value>, n: nat): PathsDic
    requires n <= |root| && forall i :: 0 <= i < |root| ==> StepPathsWellTyped(root[i].1)
  {
    if n == 0 then []
    else
      var prev := YamlCollect(root, n - 1);
      var (key, v) := root[n - 1];
      if HasPaths(v) then Set(prev, key, PathsOf(v.entries)) else prev
  }

  /** `get_paths_dic(prefix)` of a document `__init__` has prepared, the prefix already normalised: every path lands under the workflow path. */
  function YamlPathsDic(root: Dict<Value>, system: string, prefix: string): Result<PathsDic, PyError>
    requires WorkflowPathIn(root, system).Ok? && forall i :: 0 <= i < |root| ==> StepPathsWellTyped(root[i].1)
  {
    var wp := WorkflowPathIn(root, system).value;
    ResolveFrom(YamlCollect(root, |root|), 0, 0, wp, Ok(wp), prefix)
  }

  /** A key none of the first `n` top-level entries has gets no table. */
  lemma {:induction false} YamlCollectOutside(root: Dict<Value>, n: nat, k: string)
    requires n <= |root| && forall i :: 0 <= i < |root| ==> StepPathsWellTyped(root[i].1)
    requires forall i :: 0 <= i < n ==> root[i].0 != k
    ensures !Has(YamlCollect(root, n), k)
  {
    if n > 0 {
      YamlCollectOutside(root, n - 1, k);
    }
  }

  /** Each of the first `n` top-level mappings with `paths` has its table; other entries have none. */
  lemma {:induction false} YamlCollectGet(root: Dict<Value>, n: nat, i: nat)
    requires DistinctKeys(root) && i < n <= |root| && forall i :: 0 <= i < |root| ==> StepPathsWellTyped(root[i].1)
    ensures Get(YamlCollect(root, n), root[i].0) == if HasPaths(root[i].1) then Some(PathsOf(root[i].1.entries)) else None
  {
    GetDistinct(root, n - 1);
    if i == n - 1 {
      YamlCollectOutside(root, n - 1, root[i].0);
    } else {
      YamlCollectGet(root, n - 1, i);
    }
  }

  /** The tables come in document order, one per step with `paths`. */
  lemma {:induction false} YamlCollectKeys(root: Dict<Value>, n: nat)
    requires DistinctKeys(root) && n <= |root| && forall i :: 0 <= i < |root| ==> StepPathsWellTyped(root[i].1)
    ensures Keys(YamlCollect(root, n)) == PathStepNames(root[..n])
  {
    if n > 0 {
      YamlCollectKeys(root, n - 1);
      var key := root[n - 1].0;
      assert root[..n][..n - 1] == root[..n - 1];
      GetDistinct(root, n - 1);
      YamlCollectOutside(root, n - 1, key);
      if HasPaths(root[n - 1].1) {
        SetKeys(YamlCollect(root, n - 1), key, PathsOf(root[n - 1].1.entries));
      }
    }
  }

  /**
   * A resolved paths view has exactly the steps with `paths`, in document
   * order, and each keeps its keys in order.
   */
  lemma YamlPathsSteps(root: Dict<Value>, system: string, prefix: string, r: PathsDic)
    requires DistinctKeys(root) && WorkflowPathIn(root, system).Ok? && forall i :: 0 <= i < |root| ==> StepPathsWellTyped(root[i].1)
    requires YamlPathsDic(root, system, prefix) == Ok(r)
    ensures Keys(r) == PathStepNames(root)
    ensures SameShape(YamlCollect(root, |root|), r)
  {
    var pd := YamlCollect(root, |root|);
    var wp := WorkflowPathIn(root, system).value;
    ResolveFromEntries(pd, 0, 0, wp, Ok(wp), prefix, r);
    SameShapeKeys(pd, r);
    YamlCollectKeys(root, |root|);
    assert root[..|root|] == root;
  }

  // ---------------------------------------------------------------------
  // The getters' loops
  // ---------------------------------------------------------------------

  /** The loop of `get_prop_dic` over the top-level entries. */
  method BuildYamlSteps(root: Dict<Value>, sys: Dict<Value>, wp: string, prefix: string, globalLog: Value) returns (steps: Dict<Dict<Value>>)
    ensures steps == YamlSteps(root, sys, wp, prefix, globalLog, |root|)
  {
    steps := [];
    var i := 0;
    while i < |root|
      invariant i <= |root|
      invariant steps == YamlSteps(root, sys, wp, prefix, globalLog, i)
    {
      var (key, v) := root[i];
      if v.Map? && (Has(v.entries, "paths") || Has(v.entries, "properties")) {
        steps := Set(steps, key, YamlStepEntry(sys, wp, prefix, globalLog, key, v.entries));
      }
      i := i + 1;
    }
  }

  /** The first loop of `get_paths_dic`: the `paths` table of every step that has one. */
  method CollectYamlTables(root: Dict<Value>) returns (pd: PathsDic)
    requires forall i :: 0 <= i < |root| ==> StepPathsWellTyped(root[i].1)
    ensures pd == YamlCollect(root, |root|)
  {
    pd := [];
    var i := 0;
    while i < |root|
      invariant i <= |root|
      invariant pd == YamlCollect(root, i)
    {
      var (key, v) := root[i];
      if v.Map? && Has(v.entries, "paths") {
        pd := Set(pd, key, PathsOf(v.entries));
      }
      i := i + 1;
    }
  }

  // ---------------------------------------------------------------------
  // The reader
  // ---------------------------------------------------------------------

  class YamlReader {
    var system: string
    /** The parsed document, with the system's `workflow_path` replaced by `__init__`. */
    var properties: Dict<Value>

    ghost predicate Valid()
      reads this
    {
      WorkflowPathIn(properties, system).Ok?
    }

    /**
     * `YamlReader(yaml_path, system)` for the document the file parses to,
     * with `existing` the paths that exist on disk.
     */
    constructor (doc: Dict<Value>, system: string, existing: set<string>)
      requires WorkflowPathIn(doc, system).Ok?
      ensures Valid() && this.system == system
      ensures properties == WithWorkflowPath(doc, system, WorkflowPathIn(properties, system).value)
      ensures FirstFree(WorkflowPathIn(doc, system).value, existing, WorkflowPathIn(properties, system).value)
    {
      this.system := system;
      var wp := GetWorkflowPath(WorkflowPathIn(doc, system).value, existing);
      properties := WithWorkflowPath(doc, system, wp);
    }

    /** `get_prop_dic(prefix, global_log)` */
    method GetPropDic(prefix: Option<string>, globalLog: Value) returns (r: Dict<Dict<Value>>)
      requires Valid()
      ensures r == YamlPropDic(properties, system, NormalisePrefix(prefix), globalLog)
    {
      var p := NormalisePrefix(prefix);
      r := BuildYamlSteps(properties, SystemEntry(properties, system).value, WorkflowPathIn(properties, system).value, p, globalLog);
    }

    /** `get_paths_dic(prefix)` */
    method GetPathsDic(prefix: Option<string>) returns (r: Result<PathsDic, PyError>)
      requires Valid() && forall i :: 0 <= i < |properties| ==> StepPathsWellTyped(properties[i].1)
      ensures r == YamlPathsDic(properties, system, NormalisePrefix(prefix))
    {
      var p := NormalisePrefix(prefix);
      var wp := WorkflowPathIn(properties, system).value;
      var pd := CollectYamlTables(properties);
      r := ResolvePaths(pd, wp, Ok(wp), p);
    }
  }
}
