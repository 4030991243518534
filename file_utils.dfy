/**
 * The two string helpers of `tools/file_utils.py` that the older settings
 * reader uses: `create_name` and the numbering loop of `get_workflow_path`.
 * The file system is a finite set of the paths that exist.
 */
module FileUtils {
  import opened Wrappers
  import opened Values
  import opened PyStrings
  import opened PosixPath

  /** `create_name(path, prefix, step, name)` */
  function CreateName(path: Option<string>, prefix: Option<string>, step: Option<string>, name: Option<string>): string {
    var n0 := if name.None? then "" else Strip(name.value);
    var n1 := if Given(step) then (if n0 != "" then step.value + "_" + n0 else step.value) else n0;
    var n2 := if Given(prefix) then (if n1 != "" then prefix.value + "_" + n1 else prefix.value) else n1;
    if Given(path) then (if n2 != "" then Join([path.value, n2]) else path.value) else n2
  }

  /**
   * The file name is the given ones of prefix, step and stripped name joined
   * by `_`, in that order; it is joined under `path` when a path is given,
   * and an empty name leaves just the path.
   */
  lemma CreateNameParts(path: Option<string>, prefix: Option<string>, step: Option<string>, name: Option<string>)
    ensures var stem := JoinWith(NonEmpty([prefix.GetOr(""), step.GetOr(""), if name.None? then "" else Strip(name.value)]), "_");
      CreateName(path, prefix, step, name)
        == if Given(path) then (if stem != "" then Join([path.value, stem]) else path.value) else stem
  {
    var n := if name.None? then "" else Strip(name.value);
    UnderscoreStem(prefix.GetOr(""), step.GetOr(""), n);
  }

  /** The prefix/step/name chain of `create_name` is `"_".join` of the non-empty parts. */
  lemma UnderscoreStem(p: string, s: string, n: string)
    ensures var n1 := if s != "" then (if n != "" then s + "_" + n else s) else n;
      var n2 := if p != "" then (if n1 != "" then p + "_" + n1 else p) else n1;
      n2 == JoinWith(NonEmpty([p, s, n]), "_")
  {
    assert [p, s, n][..2] == [p, s];
    assert [p, s][..1] == [p];
    assert [p][..0] == [];
    assert NonEmpty([p]) == (if p == "" then [] else [p]);
    assert NonEmpty([p, s]) == NonEmpty([p]) + (if s == "" then [] else [s]);
    var ne := NonEmpty([p, s, n]);
    assert ne == (if p == "" then [] else [p]) + (if s == "" then [] else [s]) + (if n == "" then [] else [n]);
    if p != "" && s != "" && n != "" {
      assert ne == [p, s, n];
      assert JoinWith(ne, "_") == p + "_" + JoinWith([s, n], "_");
      assert JoinWith([s, n], "_") == s + "_" + JoinWith([n], "_");
    } else if p != "" && s != "" {
      assert ne == [p, s];
      assert JoinWith(ne, "_") == p + "_" + JoinWith([s], "_");
    } else if p != "" && n != "" {
      assert ne == [p, n];
      assert JoinWith(ne, "_") == p + "_" + JoinWith([n], "_");
    } else if s != "" && n != "" {
      assert ne == [s, n];
      assert JoinWith(ne, "_") == s + "_" + JoinWith([n], "_");
    }
  }

  /** The characters `get_workflow_path` strips before appending a new suffix. */
  const SuffixChars: set<char> := {'\\', '/', '0', '1', '2', '3', '4', '5', '6', '7', '8', '9', '_'}

  /** The n-th name `get_workflow_path` tries: the stripped stem, `_`, and `n`. */
  function Candidate(workflowPath: string, n: nat): string {
    RStripChars(workflowPath, SuffixChars) + "_" + DecimalString(n)
  }

  /** Stripping a candidate gives back the stem it was built from. */
  lemma CandidateStem(workflowPath: string, n: nat)
    ensures RStripChars(Candidate(workflowPath, n), SuffixChars) == RStripChars(workflowPath, SuffixChars)
  {
    var stem := RStripChars(workflowPath, SuffixChars);
    var suffix := "_" + DecimalString(n);
    assert Candidate(workflowPath, n) == stem + suffix;
    RStripCharsAppend(stem, suffix, SuffixChars);
  }

  /** Different numbers give different candidates. */
  lemma CandidatesDistinct(workflowPath: string, m: nat, n: nat)
    requires m != n
    ensures Candidate(workflowPath, m) != Candidate(workflowPath, n)
  {
    var stem := RStripChars(workflowPath, SuffixChars);
    if Candidate(workflowPath, m) == Candidate(workflowPath, n) {
      var k := |stem| + 1;
      assert DecimalString(m) == Candidate(workflowPath, m)[k..];
      assert DecimalString(n) == Candidate(workflowPath, n)[k..];
      DecimalStringInjective(m, n);
    }
  }

  ghost function MaxLength(paths: set<string>): (m: nat)
    ensures forall p :: p in paths ==> |p| <= m
  {
    if paths == {} then 0
    else
      var p :| p in paths;
      var m := MaxLength(paths - {p});
      if |p| > m then |p| else m
  }

  /** A candidate no longer than `limit` has a number below 10^limit. */
  lemma CandidateNumberBound(workflowPath: string, n: nat, limit: nat)
    requires |Candidate(workflowPath, n)| <= limit
    ensures n < Pow10(limit)
  {
    if n >= Pow10(limit) {
      DecimalStringLength(n, limit);
    }
  }

  /**
   * `get_workflow_path(workflow_path)` with its body reading the parameter
   * (see `GetWorkflowPathAsWritten`): a path that does not exist is returned
   * as it is; otherwise the first candidate `stem_1`, `stem_2`, ... that does
   * not exist.
   */
  method GetWorkflowPath(workflowPath: string, existing: set<string>) returns (r: string)
    ensures r !in existing
    ensures workflowPath !in existing ==> r == workflowPath
    ensures workflowPath in existing ==>
      exists n :: 1 <= n && r == Candidate(workflowPath, n)
        && forall m :: 1 <= m < n ==> Candidate(workflowPath, m) in existing
  {
    r := workflowPath;
    if r !in existing {
      return;
    }
    ghost var limit := MaxLength(existing);
    var cont := 1;
    while r in existing
      invariant Tried(workflowPath, existing, r, cont, limit)
      decreases Pow10(limit) + 1 - cont
    {
      var next := RStripChars(r, SuffixChars) + "_" + DecimalString(cont);
      NextTried(workflowPath, existing, r, cont, limit);
      r := next;
      cont := cont + 1;
    }
    assert cont > 1;
    ghost var n := cont - 1;
    assert r == Candidate(workflowPath, n);
  }

  /**
   * `r` is what `get_workflow_path` returns for `workflowPath`: the path
   * itself when it does not exist, otherwise the first candidate that does not.
   */
  ghost predicate FirstFree(workflowPath: string, existing: set<string>, r: string) {
    && r !in existing
    && (workflowPath !in existing ==> r == workflowPath)
    && (workflowPath in existing ==>
          exists n :: 1 <= n && r == Candidate(workflowPath, n)
            && forall m :: 1 <= m < n ==> Candidate(workflowPath, m) in existing)
  }

  /** Only one path answers `get_workflow_path` for a given path and file system. */
  lemma FirstFreeUnique(workflowPath: string, existing: set<string>, r1: string, r2: string)
    requires FirstFree(workflowPath, existing, r1) && FirstFree(workflowPath, existing, r2)
    ensures r1 == r2
  {
    if workflowPath in existing {
      var n1 :| 1 <= n1 && r1 == Candidate(workflowPath, n1)
        && forall m :: 1 <= m < n1 ==> Candidate(workflowPath, m) in existing;
      var n2 :| 1 <= n2 && r2 == Candidate(workflowPath, n2)
        && forall m :: 1 <= m < n2 ==> Candidate(workflowPath, m) in existing;
      assert n1 == n2;
    }
  }

  /**
   * The state of the numbering loop: `cont` is the next number to try, `r`
   * the last name tried, and every candidate before it exists.
   */
  ghost predicate Tried(workflowPath: string, existing: set<string>, r: string, cont: int, limit: nat) {
    && 1 <= cont <= Pow10(limit) + 1
    && (cont == 1 ==> r == workflowPath)
    && (cont > 1 ==> r == Candidate(workflowPath, cont - 1))
    && (forall m :: 1 <= m < cont - 1 ==> Candidate(workflowPath, m) in existing)
  }

  /** A turn of the loop on a name that exists tries the next candidate. */
  lemma NextTried(workflowPath: string, existing: set<string>, r: string, cont: int, limit: nat)
    requires limit == MaxLength(existing)
    requires Tried(workflowPath, existing, r, cont, limit) && r in existing
    ensures RStripChars(r, SuffixChars) + "_" + DecimalString(cont) == Candidate(workflowPath, cont)
    ensures Tried(workflowPath, existing, Candidate(workflowPath, cont), cont + 1, limit)
    ensures Pow10(limit) + 1 - (cont + 1) < Pow10(limit) + 1 - cont
  {
    if cont > 1 {
      assert |r| <= limit;
      CandidateNumberBound(workflowPath, cont - 1, limit);
    }
    NextCandidate(workflowPath, r, cont);
    forall m | 1 <= m < cont
      ensures Candidate(workflowPath, m) in existing
    {
      if m == cont - 1 {
        assert Candidate(workflowPath, m) == r;
      }
    }
  }

  /** One turn of the loop turns the current name into the next candidate. */
  lemma NextCandidate(workflowPath: string, current: string, cont: nat)
    requires cont >= 1
    requires cont == 1 ==> current == workflowPath
    requires cont > 1 ==> current == Candidate(workflowPath, cont - 1)
    ensures RStripChars(current, SuffixChars) + "_" + DecimalString(cont) == Candidate(workflowPath, cont)
  {
    if cont > 1 {
      CandidateStem(workflowPath, cont - 1);
    }
  }

  /**
   * `get_workflow_path` as the source has it: the body reads `dir_path`,
   * which the function assigns further down but never before that first
   * read, so every call raises `UnboundLocalError` (a `NameError`).
   */
  function GetWorkflowPathAsWritten(workflowPath: string, existing: set<string>): (r: Result<string, PyError>)
    ensures r.Err? && r.error == NameError("dir_path")
  {
    Err(NameError("dir_path"))
  }

  /** The discrepancy: even a path that does not exist, which should come back unchanged, raises. */
  lemma WorkflowPathAsWrittenRaises()
    ensures GetWorkflowPathAsWritten("/tmp/wf", {}) != Ok("/tmp/wf")
  {
  }
}
