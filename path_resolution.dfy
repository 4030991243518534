/**
 * The path-resolution pass that both settings readers run over their paths
 * view: every entry of every step, in order, is rewritten in place as
 *   - a `dependency/<step>/<key>` reference: followed through the current
 *     table until the value no longer starts with `dependency`, then joined
 *     as (dependency base, prefix, last step followed, value);
 *   - a `file:` literal: the text between the first and the second `:`;
 *   - anything else: joined as (base, prefix, owning step, value).
 * The reference chain reads the table as it is at that moment, so entries
 * resolved earlier are seen resolved and later ones raw.
 */
module PathResolution {
  import opened Wrappers
  import opened Values
  import opened PyStrings
  import opened PosixPath

  /** One step's paths: path key to path string. */
  type PathsTable = Dict<string>

  /** The paths view: step name to its paths table. */
  type PathsDic = Dict<PathsTable>

  predicate IsDependency(v: string) {
    StartsWith(v, "dependency")
  }

  predicate IsFileLiteral(v: string) {
    StartsWith(v, "file:")
  }

  /** No value is both a dependency reference and a `file:` literal. */
  lemma ReferenceFormsExclusive(v: string)
    ensures IsDependency(v) ==> !IsFileLiteral(v)
  {
    if IsDependency(v) {
      assert v[0] == 'd';
    }
  }

  lemma {:induction false} SplitAtLeastTwo(s: string, c: char, k: nat)
    requires k < |s| && s[k] == c
    ensures |Split(s, c)| >= 2
  {
  }

  /** `value.split(':')[1]` of a `file:` value. */
  function FileLiteral(v: string): string
    requires IsFileLiteral(v)
  {
    assert v[4] == ':';
    SplitAtLeastTwo(v, ':', 4);
    Split(v, ':')[1]
  }

  /**
   * A `file:` literal resolves to the text after `file:` up to the next `:`:
   * a prefix of it without `:`, which is the whole rest or is followed by `:`.
   */
  lemma FileLiteralField(p: string)
    ensures IsFileLiteral("file:" + p)
    ensures var f := FileLiteral("file:" + p);
      && f <= p
      && (forall k :: 0 <= k < |f| ==> f[k] != ':')
      && (f == p || p[|f|] == ':')
  {
    var v := "file:" + p;
    assert v == "file" + [':'] + p;
    SplitAt("file", p, ':');
    var r := Split(p, ':');
    assert JoinWith(r, [':']) == p;
    if |r| > 1 {
      assert p == r[0] + [':'] + JoinWith(r[1..], [':']);
    }
  }

  /** In particular `file:<path>` with no further `:` resolves to `<path>` itself. */
  lemma FileLiteralWhole(p: string)
    requires forall k :: 0 <= k < |p| ==> p[k] != ':'
    ensures IsFileLiteral("file:" + p) && FileLiteral("file:" + p) == p
  {
    FileLiteralField(p);
  }

  /** Every value stored in the table. */
  ghost function AllValues(pd: PathsDic): set<string> {
    set a, b | 0 <= a < |pd| && 0 <= b < |pd[a].1| :: pd[a].1[b].1
  }

  /**
   * One turn of the reference loop: `dependency_step = value.split('/')[1]`
   * then `value = prop_dic[value.split('/')[1]][value.split('/')[2]]`, with
   * the `IndexError`/`KeyError` each subscript can raise, in Python's order.
   */
  function Hop(pd: PathsDic, v: string): (r: Result<(string, string), PyError>)
    ensures r.Ok? ==> r.value.1 in AllValues(pd)
  {
    var parts := Split(v, '/');
    if |parts| < 2 then Err(IndexError)
    else match Get(pd, parts[1])
      case None => Err(KeyError(parts[1]))
      case Some(table) =>
        if |parts| < 3 then Err(IndexError)
        else match Get(table, parts[2])
          case None => Err(KeyError(parts[2]))
          case Some(w) =>
            assert w in AllValues(pd) by {
              GetBinding(pd, parts[1]);
              GetBinding(table, parts[2]);
              var a :| 0 <= a < |pd| && pd[a] == (parts[1], table);
              var b :| 0 <= b < |table| && table[b] == (parts[2], w);
              assert pd[a].1[b].1 == w;
            }
            Ok((parts[1], w))
  }

  /**
   * The reference loop `while value.startswith('dependency')`, returning the
   * last step named and the final value. `seen` holds the values met so far:
   * the next value depends only on the current one, so meeting a value again
   * means the source's loop cycles forever, reported as `NonTerminating`.
   */
  function Follow(pd: PathsDic, v: string, step: string, seen: set<string>): (r: Result<(string, string), PyError>)
    ensures r.Ok? ==> !IsDependency(r.value.1)
    decreases AllValues(pd) - seen
  {
    if !IsDependency(v) then Ok((step, v))
    else match Hop(pd, v)
      case Err(e) => Err(e)
      case Ok(sw) => if sw.1 in seen then Err(NonTerminating) else Follow(pd, sw.1, sw.0, seen + {sw.1})
  }

  /** The value after `n` turns of the loop body, whatever the loop condition says. */
  function Walk(pd: PathsDic, v: string, n: nat): Result<string, PyError>
    decreases n
  {
    if n == 0 then Ok(v)
    else match Hop(pd, v)
      case Err(e) => Err(e)
      case Ok(sw) => Walk(pd, sw.1, n - 1)
  }

  /** The source's loop never exits: every turn succeeds and leaves another reference. */
  ghost predicate Spins(pd: PathsDic, v: string) {
    forall n: nat :: Walk(pd, v, n).Ok? && IsDependency(Walk(pd, v, n).value)
  }

  /** A set of references each of which leads to another one in the set. */
  ghost predicate Closed(pd: PathsDic, refs: set<string>) {
    && (forall u :: u in refs ==> IsDependency(u))
    && (forall u {:trigger LeadsInto(pd, u, refs)} :: u in refs ==> LeadsInto(pd, u, refs))
  }

  /** One turn from `u` succeeds and lands in `refs`. */
  ghost predicate LeadsInto(pd: PathsDic, u: string, refs: set<string>) {
    Hop(pd, u).Ok? && Hop(pd, u).value.1 in refs
  }

  lemma {:induction false} ClosedWalk(pd: PathsDic, refs: set<string>, v: string, n: nat)
    requires Closed(pd, refs) && v in refs
    ensures Walk(pd, v, n).Ok? && Walk(pd, v, n).value in refs
    decreases n
  {
    if n > 0 {
      assert LeadsInto(pd, v, refs);
      var h := Hop(pd, v);
      assert Walk(pd, v, n) == Walk(pd, h.value.1, n - 1);
      ClosedWalk(pd, refs, h.value.1, n - 1);
    }
  }

  lemma ClosedSpins(pd: PathsDic, refs: set<string>, v: string)
    requires Closed(pd, refs) && v in refs
    ensures Spins(pd, v)
  {
    forall n: nat ensures Walk(pd, v, n).Ok? && IsDependency(Walk(pd, v, n).value) {
      ClosedWalk(pd, refs, v, n);
    }
  }

  /** `seen` is a chain in progress: every value but the current one led to a value in `seen`. */
  ghost predicate ChainSoFar(pd: PathsDic, seen: set<string>, cur: string) {
    && cur in seen
    && (forall u :: u in seen ==> IsDependency(u))
    && (forall u {:trigger LeadsInto(pd, u, seen)} :: u in seen && u != cur ==> LeadsInto(pd, u, seen))
  }

  lemma {:induction false} NonTerminatingSpins(pd: PathsDic, cur: string, step: string, seen: set<string>)
    requires ChainSoFar(pd, seen, cur)
    requires Follow(pd, cur, step, seen) == Err(NonTerminating)
    ensures forall u :: u in seen ==> Spins(pd, u)
    decreases AllValues(pd) - seen
  {
    var sw := Hop(pd, cur).value;
    if sw.1 in seen {
      forall u | u in seen ensures LeadsInto(pd, u, seen) {
        if u != cur {
          assert LeadsInto(pd, u, seen);
        }
      }
      assert Closed(pd, seen);
      forall u | u in seen ensures Spins(pd, u) {
        ClosedSpins(pd, seen, u);
      }
    } else {
      var seen' := seen + {sw.1};
      forall u | u in seen' && u != sw.1 ensures LeadsInto(pd, u, seen') {
        if u != cur {
          assert LeadsInto(pd, u, seen);
        }
      }
      NonTerminatingSpins(pd, sw.1, sw.0, seen');
    }
  }

  lemma {:induction false} SpinsNonTerminating(pd: PathsDic, cur: string, step: string, seen: set<string>)
    requires Spins(pd, cur)
    ensures Follow(pd, cur, step, seen) == Err(NonTerminating)
    decreases AllValues(pd) - seen
  {
    assert Walk(pd, cur, 0).Ok? && IsDependency(Walk(pd, cur, 0).value);
    assert Walk(pd, cur, 1).Ok?;
    var sw := Hop(pd, cur).value;
    if sw.1 !in seen {
      forall n: nat ensures Walk(pd, sw.1, n).Ok? && IsDependency(Walk(pd, sw.1, n).value) {
        assert Walk(pd, cur, n + 1) == Walk(pd, sw.1, n);
      }
      SpinsNonTerminating(pd, sw.1, sw.0, seen + {sw.1});
    }
  }

  /**
   * The model reports `NonTerminating` for a reference exactly when the
   * source's `while` loop on it would run forever.
   */
  lemma NonTerminatingIffSpins(pd: PathsDic, v: string)
    requires IsDependency(v)
    ensures Follow(pd, v, "", {v}) == Err(NonTerminating) <==> Spins(pd, v)
  {
    if Follow(pd, v, "", {v}) == Err(NonTerminating) {
      NonTerminatingSpins(pd, v, "", {v});
    }
    if Spins(pd, v) {
      SpinsNonTerminating(pd, v, "", {v});
    }
  }

  /**
   * The new value of an entry of step `key` whose value is `v`, with `pd` the
   * table as the loop sees it at that moment. `base` is the directory relative
   * entries are joined under; `depBase` is the one a followed reference is
   * joined under, or the error reading it raises (it is read after the chain).
   */
  function ResolveValue(pd: PathsDic, key: string, v: string, base: string, depBase: Result<string, PyError>, prefix: string): Result<string, PyError>
  {
    if IsDependency(v) then
      var sw :- Follow(pd, v, "", {v});
      var b :- depBase;
      Ok(Join([b, prefix, sw.0, sw.1]))
    else if IsFileLiteral(v) then Ok(FileLiteral(v))
    else Ok(Join([base, prefix, key, v]))
  }

  /** Both tables have the same steps, the same keys, in the same places. */
  predicate SameShape(pd: PathsDic, r: PathsDic) {
    && |r| == |pd|
    && (forall a :: 0 <= a < |pd| ==> r[a].0 == pd[a].0 && |r[a].1| == |pd[a].1|)
    && (forall a, b :: 0 <= a < |pd| && 0 <= b < |pd[a].1| ==> r[a].1[b].0 == pd[a].1[b].0)
  }

  /** `prop_dic[key][key2] = nv` for the entry at step position `a`, key position `b`. */
  function SetAt(pd: PathsDic, a: nat, b: nat, nv: string): (r: PathsDic)
    requires a < |pd| && b < |pd[a].1|
    ensures SameShape(pd, r) && SameShape(r, pd)
    ensures r[a].1[b].1 == nv
    ensures forall k, l :: 0 <= k < |pd| && 0 <= l < |pd[k].1| && (k, l) != (a, b) ==> r[k].1[l] == pd[k].1[l]
  {
    pd[a := (pd[a].0, pd[a].1[b := (pd[a].1[b].0, nv)])]
  }

  /** Entry `(a, b)` comes before entry `(i, j)` in the loops' order. */
  predicate Before(a: nat, b: nat, i: nat, j: nat) {
    a < i || (a == i && b < j)
  }

  /**
   * The resolution pass from entry `(i, j)` on, in the loops' order: each
   * entry is resolved against the table as earlier entries left it, and the
   * first error stops the pass.
   */
  function ResolveFrom(pd: PathsDic, i: nat, j: nat, base: string, depBase: Result<string, PyError>, prefix: string): Result<PathsDic, PyError>
    requires i <= |pd| && (i < |pd| ==> j <= |pd[i].1|)
    decreases |pd| - i, if i < |pd| then |pd[i].1| - j else 0
  {
    if i == |pd| then Ok(pd)
    else if j == |pd[i].1| then ResolveFrom(pd, i + 1, 0, base, depBase, prefix)
    else
      var nv :- ResolveValue(pd, pd[i].0, pd[i].1[j].1, base, depBase, prefix);
      ResolveFrom(SetAt(pd, i, j, nv), i, j + 1, base, depBase, prefix)
  }

  /**
   * The table the loop sees when it reaches entry `(a, b)`: entries before it
   * as they end up in `r`, the others still as in `pd`.
   */
  ghost function Snapshot(pd: PathsDic, r: PathsDic, a: nat, b: nat): (s: PathsDic)
    requires SameShape(pd, r) && a < |pd| && b <= |pd[a].1|
    ensures SameShape(pd, s)
  {
    seq(|pd|, k requires 0 <= k < |pd| =>
      if k < a then r[k]
      else if k > a then pd[k]
      else (pd[k].0, r[k].1[..b] + pd[k].1[b..]))
  }

  lemma SnapshotAtStart(pd: PathsDic, r: PathsDic, i: nat, j: nat)
    requires SameShape(pd, r) && i < |pd| && j <= |pd[i].1|
    requires forall a, b :: 0 <= a < |pd| && 0 <= b < |pd[a].1| && Before(a, b, i, j) ==> r[a].1[b] == pd[a].1[b]
    ensures Snapshot(pd, r, i, j) == pd
  {
    var s := Snapshot(pd, r, i, j);
    forall k | 0 <= k < |pd| ensures s[k] == pd[k] {
      if k < i {
        assert r[k].1 == pd[k].1 by {
          forall l | 0 <= l < |pd[k].1| ensures r[k].1[l] == pd[k].1[l] {
            assert Before(k, l, i, j);
          }
        }
      } else if k == i {
        assert r[k].1[..j] == pd[k].1[..j] by {
          forall l | 0 <= l < j ensures r[k].1[l] == pd[k].1[l] {
            assert Before(k, l, i, j);
          }
        }
        assert pd[k].1[..j] + pd[k].1[j..] == pd[k].1;
      }
    }
  }

  lemma SnapshotIgnoresResolved(pd: PathsDic, i: nat, j: nat, nv: string, r: PathsDic, a: nat, b: nat)
    requires i < |pd| && j < |pd[i].1| && SameShape(pd, r)
    requires a < |pd| && b <= |pd[a].1| && !Before(a, b, i, j + 1)
    ensures Snapshot(SetAt(pd, i, j, nv), r, a, b) == Snapshot(pd, r, a, b)
  {
    var pd' := SetAt(pd, i, j, nv);
    var s', s := Snapshot(pd', r, a, b), Snapshot(pd, r, a, b);
    forall k | 0 <= k < |pd| ensures s'[k] == s[k] {
      if k > a {
        assert pd'[k] == pd[k];
      } else if k == a && a != i {
        assert pd'[k] == pd[k];
      } else if k == a {
        assert pd'[k].1[b..] == pd[k].1[b..];
      }
    }
  }

  /** The pass from `(i, j)`, when it succeeds, does what `ResolvedFrom` says. */
  lemma {:induction false} ResolveFromEntries(pd: PathsDic, i: nat, j: nat, base: string, depBase: Result<string, PyError>, prefix: string, r: PathsDic)
    requires i <= |pd| && (i < |pd| ==> j <= |pd[i].1|)
    requires ResolveFrom(pd, i, j, base, depBase, prefix) == Ok(r)
    ensures ResolvedFrom(pd, i, j, base, depBase, prefix, r)
    decreases |pd| - i, if i < |pd| then |pd[i].1| - j else 0
  {
    if i == |pd| {
      assert r == pd;
    } else if j == |pd[i].1| {
      ResolveFromNextStep(pd, i, base, depBase, prefix);
      ResolveFromEntries(pd, i + 1, 0, base, depBase, prefix, r);
      ResolvedFromStepEnd(pd, i, base, depBase, prefix, r);
    } else {
      ResolveFromEntry(pd, i, j, base, depBase, prefix);
      var nv := ResolveValue(pd, pd[i].0, pd[i].1[j].1, base, depBase, prefix).value;
      ResolveFromEntries(SetAt(pd, i, j, nv), i, j + 1, base, depBase, prefix, r);
      ResolvedFromEarlier(pd, i, j, nv, base, depBase, prefix, r);
    }
  }

  /** Past the last key of step `i` is the same place as before the first key of step `i + 1`. */
  lemma ResolvedFromStepEnd(pd: PathsDic, i: nat, base: string, depBase: Result<string, PyError>, prefix: string, r: PathsDic)
    requires i < |pd|
    requires ResolvedFrom(pd, i + 1, 0, base, depBase, prefix, r)
    ensures ResolvedFrom(pd, i, |pd[i].1|, base, depBase, prefix, r)
  {
    assert forall a, b :: 0 <= a < |pd| && 0 <= b < |pd[a].1| ==> (Before(a, b, i + 1, 0) <==> Before(a, b, i, |pd[i].1|));
  }

  /**
   * What the pass from `(i, j)` does when it ends with `r`: the steps and
   * keys stay where they are, entries before `(i, j)` are untouched, and
   * every later entry holds its value resolved against the table as the
   * loop saw it at that entry.
   */
  ghost predicate ResolvedFrom(pd: PathsDic, i: nat, j: nat, base: string, depBase: Result<string, PyError>, prefix: string, r: PathsDic) {
    && SameShape(pd, r)
    && (forall a, b :: 0 <= a < |pd| && 0 <= b < |pd[a].1| && Before(a, b, i, j) ==> r[a].1[b] == pd[a].1[b])
    && (forall a, b :: 0 <= a < |pd| && 0 <= b < |pd[a].1| && !Before(a, b, i, j) ==>
         ResolveValue(Snapshot(pd, r, a, b), pd[a].0, pd[a].1[b].1, base, depBase, prefix) == Ok(r[a].1[b].1))
  }

  /** One step back in the pass: what holds from `(i, j + 1)` after rewriting `(i, j)` holds from `(i, j)`. */
  lemma ResolvedFromEarlier(pd: PathsDic, i: nat, j: nat, nv: string, base: string, depBase: Result<string, PyError>, prefix: string, r: PathsDic)
    requires i < |pd| && j < |pd[i].1|
    requires ResolveValue(pd, pd[i].0, pd[i].1[j].1, base, depBase, prefix) == Ok(nv)
    requires ResolvedFrom(SetAt(pd, i, j, nv), i, j + 1, base, depBase, prefix, r)
    ensures ResolvedFrom(pd, i, j, base, depBase, prefix, r)
  {
    var pd' := SetAt(pd, i, j, nv);
    SameShapeTrans(pd, pd', r);
    assert forall a, b :: 0 <= a < |pd| && 0 <= b < |pd[a].1| && Before(a, b, i, j) ==> r[a].1[b] == pd[a].1[b] by {
      forall a, b | 0 <= a < |pd| && 0 <= b < |pd[a].1| && Before(a, b, i, j) ensures r[a].1[b] == pd[a].1[b] {
        assert Before(a, b, i, j + 1);
      }
    }
    SnapshotAtStart(pd, r, i, j);
    forall a, b | 0 <= a < |pd| && 0 <= b < |pd[a].1| && !Before(a, b, i, j)
      ensures ResolveValue(Snapshot(pd, r, a, b), pd[a].0, pd[a].1[b].1, base, depBase, prefix) == Ok(r[a].1[b].1)
    {
      if (a, b) != (i, j) {
        SnapshotIgnoresResolved(pd, i, j, nv, r, a, b);
      }
    }
  }

  /**
   * The `while value.startswith('dependency')` loop of `get_paths_dic` on a
   * reference, returning the last step named and the final value. `visited`
   * is not in the source; it turns a reference cycle, on which the source
   * spins forever, into a `NonTerminating` outcome.
   */
  method FollowReference(pd: PathsDic, value: string) returns (r: Result<(string, string), PyError>)
    requires IsDependency(value)
    ensures r == Follow(pd, value, "", {value})
  {
    var cur, dependencyStep := value, "";
    var visited := {value};
    while IsDependency(cur)
      invariant Follow(pd, cur, dependencyStep, visited) == Follow(pd, value, "", {value})
      decreases AllValues(pd) - visited
    {
      var parts := Split(cur, '/');
      if |parts| < 2 {
        return Err(IndexError);
      }
      dependencyStep := parts[1];
      var table := Get(pd, parts[1]);
      if table.None? {
        return Err(KeyError(parts[1]));
      }
      if |parts| < 3 {
        return Err(IndexError);
      }
      var next := Get(table.value, parts[2]);
      if next.None? {
        return Err(KeyError(parts[2]));
      }
      assert Hop(pd, cur) == Ok((parts[1], next.value));
      if next.value in visited {
        return Err(NonTerminating);
      }
      cur := next.value;
      visited := visited + {cur};
    }
    return Ok((dependencyStep, cur));
  }

  lemma ResolveFromNextStep(pd: PathsDic, i: nat, base: string, depBase: Result<string, PyError>, prefix: string)
    requires i < |pd|
    ensures ResolveFrom(pd, i, |pd[i].1|, base, depBase, prefix) == ResolveFrom(pd, i + 1, 0, base, depBase, prefix)
  {
  }

  lemma ResolveFromEntry(pd: PathsDic, i: nat, j: nat, base: string, depBase: Result<string, PyError>, prefix: string)
    requires i < |pd| && j < |pd[i].1|
    ensures ResolveFrom(pd, i, j, base, depBase, prefix) ==
      match ResolveValue(pd, pd[i].0, pd[i].1[j].1, base, depBase, prefix)
      case Err(e) => Err(e)
      case Ok(nv) => ResolveFrom(SetAt(pd, i, j, nv), i, j + 1, base, depBase, prefix)
  {
  }

  /** The body of the inner loop of `get_paths_dic`: the new value of one entry. */
  method ResolveEntry(pd: PathsDic, key: string, value: string, base: string, depBase: Result<string, PyError>, prefix: string)
    returns (r: Result<string, PyError>)
    ensures r == ResolveValue(pd, key, value, base, depBase, prefix)
  {
    if IsDependency(value) {
      var found := FollowReference(pd, value);
      if found.Err? {
        return Err(found.error);
      }
      if depBase.Err? {
        return Err(depBase.error);
      }
      r := Ok(Join([depBase.value, prefix, found.value.0, found.value.1]));
    } else if IsFileLiteral(value) {
      r := Ok(FileLiteral(value));
    } else {
      r := Ok(Join([base, prefix, key, value]));
    }
  }

  /**
   * The resolution loops of `get_paths_dic`: steps in order, each step's
   * entries in order, each entry rewritten in place.
   */
  method ResolvePaths(pd0: PathsDic, base: string, depBase: Result<string, PyError>, prefix: string) returns (r: Result<PathsDic, PyError>)
    ensures r == ResolveFrom(pd0, 0, 0, base, depBase, prefix)
  {
    var pd := pd0;
    var i := 0;
    while i < |pd|
      invariant i <= |pd| == |pd0|
      invariant ResolveFrom(pd, i, 0, base, depBase, prefix) == ResolveFrom(pd0, 0, 0, base, depBase, prefix)
    {
      var key := pd[i].0;
      var j := 0;
      while j < |pd[i].1|
        invariant i < |pd| == |pd0| && j <= |pd[i].1| && key == pd[i].0
        invariant ResolveFrom(pd, i, j, base, depBase, prefix) == ResolveFrom(pd0, 0, 0, base, depBase, prefix)
      {
        ResolveFromEntry(pd, i, j, base, depBase, prefix);
        var nv := ResolveEntry(pd, key, pd[i].1[j].1, base, depBase, prefix);
        if nv.Err? {
          return Err(nv.error);
        }
        pd := SetAt(pd, i, j, nv.value);
        j := j + 1;
      }
      ResolveFromNextStep(pd, i, base, depBase, prefix);
      i := i + 1;
    }
    return Ok(pd);
  }

  /** The steps' names and each step's keys, as `Keys` sees them, agree between tables of the same shape. */
  lemma SameShapeKeys(pd: PathsDic, s: PathsDic)
    requires SameShape(pd, s)
    ensures Keys(s) == Keys(pd)
    ensures forall k :: 0 <= k < |pd| ==> Keys(s[k].1) == Keys(pd[k].1)
  {
  }

  /**
   * Entries that are not references: a `file:` literal becomes its path, any
   * other value is joined under the base, the prefix and its own step.
   */
  lemma PlainEntriesResolved(pd: PathsDic, base: string, depBase: Result<string, PyError>, prefix: string, r: PathsDic, a: nat, b: nat)
    requires ResolveFrom(pd, 0, 0, base, depBase, prefix) == Ok(r)
    requires a < |pd| && b < |pd[a].1| && !IsDependency(pd[a].1[b].1)
    ensures SameShape(pd, r)
    ensures var v := pd[a].1[b].1;
      r[a].1[b].1 == if IsFileLiteral(v) then FileLiteral(v) else Join([base, prefix, pd[a].0, v])
  {
    ResolveFromEntries(pd, 0, 0, base, depBase, prefix, r);
    assert !Before(a, b, 0, 0);
  }

  /** An entry of the table the loop sees at `(a, b)`: resolved if it comes earlier, raw otherwise. */
  lemma SnapshotEntry(pd: PathsDic, r: PathsDic, a: nat, b: nat, k: nat, l: nat)
    requires SameShape(pd, r) && a < |pd| && b <= |pd[a].1|
    requires k < |pd| && l < |pd[k].1|
    ensures Snapshot(pd, r, a, b)[k].0 == pd[k].0
    ensures Snapshot(pd, r, a, b)[k].1[l] == if Before(k, l, a, b) then r[k].1[l] else pd[k].1[l]
  {
  }

  /** `dependency/<step>/<key>` splits on `/` into its three parts. */
  lemma ReferenceParts(step: string, key: string)
    requires '/' !in step && '/' !in key
    ensures Split("dependency/" + step + "/" + key, '/') == ["dependency", step, key]
  {
    var v := "dependency/" + step + "/" + key;
    assert v == "dependency" + ['/'] + (step + ['/'] + key);
    SplitAt("dependency", step + ['/'] + key, '/');
    SplitAt(step, key, '/');
    SplitNoSeparator(key, '/');
  }

  /**
   * In a table with distinct steps and keys, following
   * `dependency/<step>/<key>` to a value that is not a reference stops there
   * after one turn.
   */
  lemma ReferenceLookup(s: PathsDic, step: string, key: string, ia: nat, jb: nat)
    requires DistinctKeys(s) && ia < |s| && s[ia].0 == step && DistinctKeys(s[ia].1)
    requires jb < |s[ia].1| && s[ia].1[jb].0 == key
    requires '/' !in step && '/' !in key
    requires !IsDependency(s[ia].1[jb].1)
    ensures var v := "dependency/" + step + "/" + key;
      IsDependency(v) && Follow(s, v, "", {v}) == Ok((step, s[ia].1[jb].1))
  {
    var v := "dependency/" + step + "/" + key;
    var w := s[ia].1[jb].1;
    ReferenceParts(step, key);
    GetDistinct(s, ia);
    GetDistinct(s[ia].1, jb);
    assert Hop(s, v) == Ok((step, w));
    assert IsDependency(v);
    assert Follow(s, w, step, {v} + {w}) == Ok((step, w));
  }

  lemma ResolveFollowed(s: PathsDic, key: string, v: string, base: string, depBase: string, prefix: string, step: string, w: string)
    requires IsDependency(v) && Follow(s, v, "", {v}) == Ok((step, w))
    ensures ResolveValue(s, key, v, base, Ok(depBase), prefix) == Ok(Join([depBase, prefix, step, w]))
  {
  }

  /**
   * A reference `dependency/<step>/<key>` to an entry holding a relative
   * path resolves to that path under the base, the prefix and the named step,
   * whether the loops reach the target before or after the reference, as
   * long as the base is absolute and references are joined under it too.
   * With a relative base the order matters: a reference to an entry the
   * loops have already rewritten gets the base twice (base `out`, no
   * prefix, entry `A/f` already rewritten to `out/A/f`, gives
   * `out/A/out/A/f`), because `os.path.join` only discards what comes before
   * an absolute part.
   */
  lemma ReferenceResolved(pd: PathsDic, base: string, prefix: string, r: PathsDic, a: nat, b: nat, step: string, key: string, ia: nat, jb: nat)
    requires ResolveFrom(pd, 0, 0, base, Ok(base), prefix) == Ok(r)
    requires StartsWith(base, "/")
    requires DistinctKeys(pd) && ia < |pd| && pd[ia].0 == step && DistinctKeys(pd[ia].1)
    requires jb < |pd[ia].1| && pd[ia].1[jb].0 == key
    requires '/' !in step && '/' !in key
    requires a < |pd| && b < |pd[a].1| && pd[a].1[b].1 == "dependency/" + step + "/" + key
    requires !IsDependency(pd[ia].1[jb].1) && !IsFileLiteral(pd[ia].1[jb].1)
    ensures SameShape(pd, r)
    ensures r[a].1[b].1 == Join([base, prefix, step, pd[ia].1[jb].1])
  {
    var v := pd[a].1[b].1;
    var w := pd[ia].1[jb].1;
    var resolved := Join([base, prefix, step, w]);
    ResolveFromEntries(pd, 0, 0, base, Ok(base), prefix, r);
    assert !Before(a, b, 0, 0) && !Before(ia, jb, 0, 0);
    assert r[ia].1[jb].1 == resolved;
    var snap := Snapshot(pd, r, a, b);
    SnapshotEntry(pd, r, a, b, ia, jb);
    var w' := snap[ia].1[jb].1;
    assert w' == w || w' == resolved;
    JoinStaysAbsolute([base, prefix, step, w]);
    assert !IsDependency(w') by {
      if w' == resolved {
        assert w'[0] == '/';
      }
    }
    ReferenceLookup(snap, step, key, ia, jb);
    ResolveFollowed(snap, pd[a].0, v, base, base, prefix, step, w');
    if w' == resolved {
      JoinAbsoluteLast([base, prefix, step, w']);
    }
  }

  lemma SameShapeTrans(x: PathsDic, y: PathsDic, z: PathsDic)
    requires SameShape(x, y) && SameShape(y, z)
    ensures SameShape(x, z) && SameShape(z, x)
  {
  }

  /**
   * Entry `(a, b)`, as long as it still holds its own value, fails to
   * resolve whatever the rest of the table holds.
   */
  ghost predicate Doomed(pd: PathsDic, a: nat, b: nat, base: string, depBase: Result<string, PyError>, prefix: string)
    requires a < |pd| && b < |pd[a].1|
  {
    forall s: PathsDic :: SameShape(pd, s) && s[a].1[b] == pd[a].1[b] ==>
      ResolveValue(s, pd[a].0, pd[a].1[b].1, base, depBase, prefix).Err?
  }

  /** Rewriting another entry leaves a doomed entry doomed. */
  lemma DoomedAfterSet(pd: PathsDic, i: nat, j: nat, nv: string, base: string, depBase: Result<string, PyError>, prefix: string, a: nat, b: nat)
    requires i < |pd| && j < |pd[i].1| && a < |pd| && b < |pd[a].1| && (a, b) != (i, j)
    requires Doomed(pd, a, b, base, depBase, prefix)
    ensures Doomed(SetAt(pd, i, j, nv), a, b, base, depBase, prefix)
  {
    var pd' := SetAt(pd, i, j, nv);
    forall s: PathsDic | SameShape(pd', s) && s[a].1[b] == pd'[a].1[b]
      ensures ResolveValue(s, pd'[a].0, pd'[a].1[b].1, base, depBase, prefix).Err?
    {
      SameShapeTrans(pd, pd', s);
    }
  }

  /** A doomed entry that the pass has yet to reach makes it fail. */
  lemma {:induction false} DoomedFails(pd: PathsDic, i: nat, j: nat, base: string, depBase: Result<string, PyError>, prefix: string, a: nat, b: nat)
    requires i <= |pd| && (i < |pd| ==> j <= |pd[i].1|)
    requires a < |pd| && b < |pd[a].1| && !Before(a, b, i, j)
    requires Doomed(pd, a, b, base, depBase, prefix)
    ensures ResolveFrom(pd, i, j, base, depBase, prefix).Err?
    decreases |pd| - i, if i < |pd| then |pd[i].1| - j else 0
  {
    if j == |pd[i].1| {
      ResolveFromNextStep(pd, i, base, depBase, prefix);
      DoomedFails(pd, i + 1, 0, base, depBase, prefix, a, b);
    } else {
      ResolveFromEntry(pd, i, j, base, depBase, prefix);
      var rv := ResolveValue(pd, pd[i].0, pd[i].1[j].1, base, depBase, prefix);
      if (i, j) == (a, b) {
        assert SameShape(pd, pd);
        assert rv.Err?;
      } else if rv.Ok? {
        DoomedAfterSet(pd, i, j, rv.value, base, depBase, prefix, a, b);
        DoomedFails(SetAt(pd, i, j, rv.value), i, j + 1, base, depBase, prefix, a, b);
      }
    }
  }

  /** A reference to a step the table does not have makes the whole pass fail. */
  lemma MissingStepFails(pd: PathsDic, base: string, depBase: Result<string, PyError>, prefix: string, a: nat, b: nat)
    requires a < |pd| && b < |pd[a].1| && IsDependency(pd[a].1[b].1)
    requires var parts := Split(pd[a].1[b].1, '/'); |parts| >= 2 && !Has(pd, parts[1])
    ensures ResolveFrom(pd, 0, 0, base, depBase, prefix).Err?
  {
    forall s: PathsDic | SameShape(pd, s) && s[a].1[b] == pd[a].1[b]
      ensures ResolveValue(s, pd[a].0, pd[a].1[b].1, base, depBase, prefix).Err?
    {
      SameShapeKeys(pd, s);
      var parts := Split(pd[a].1[b].1, '/');
      GetBinding(pd, parts[1]);
      GetBinding(s, parts[1]);
    }
    DoomedFails(pd, 0, 0, base, depBase, prefix, a, b);
  }

  /** A reference to a key that the named step does not have makes the whole pass fail. */
  lemma MissingKeyFails(pd: PathsDic, base: string, depBase: Result<string, PyError>, prefix: string, a: nat, b: nat)
    requires a < |pd| && b < |pd[a].1| && IsDependency(pd[a].1[b].1)
    requires var parts := Split(pd[a].1[b].1, '/');
      |parts| >= 3 && forall k :: 0 <= k < |pd| && pd[k].0 == parts[1] ==> !Has(pd[k].1, parts[2])
    ensures ResolveFrom(pd, 0, 0, base, depBase, prefix).Err?
  {
    var v := pd[a].1[b].1;
    var parts := Split(v, '/');
    forall s: PathsDic | SameShape(pd, s) && s[a].1[b] == pd[a].1[b]
      ensures ResolveValue(s, pd[a].0, v, base, depBase, prefix).Err?
    {
      SameShapeKeys(pd, s);
      var g := Get(s, parts[1]);
      if g.Some? {
        GetBinding(s, parts[1]);
        var k :| 0 <= k < |s| && s[k] == (parts[1], g.value);
        assert Keys(s)[k] == Keys(pd)[k];
        GetBinding(pd[k].1, parts[2]);
        GetBinding(g.value, parts[2]);
        assert !Has(g.value, parts[2]);
        assert Hop(s, v) == Err(KeyError(parts[2]));
      }
    }
    DoomedFails(pd, 0, 0, base, depBase, prefix, a, b);
  }

  /** The source's loop on an entry that refers to itself never exits. */
  lemma SelfReferenceSpins(pd: PathsDic, a: nat, b: nat)
    requires DistinctKeys(pd) && a < |pd| && DistinctKeys(pd[a].1) && b < |pd[a].1|
    requires '/' !in pd[a].0 && '/' !in pd[a].1[b].0
    requires pd[a].1[b].1 == "dependency/" + pd[a].0 + "/" + pd[a].1[b].0
    ensures Spins(pd, pd[a].1[b].1)
  {
    var v := pd[a].1[b].1;
    ReferenceParts(pd[a].0, pd[a].1[b].0);
    GetDistinct(pd, a);
    GetDistinct(pd[a].1, b);
    assert Hop(pd, v) == Ok((pd[a].0, v));
    assert Closed(pd, {v}) by {
      assert LeadsInto(pd, v, {v});
    }
    ClosedSpins(pd, {v}, v);
  }

  /** An entry that refers to itself makes the pass fail (see `SelfReferenceSpins`). */
  lemma SelfReferenceFails(pd: PathsDic, base: string, depBase: Result<string, PyError>, prefix: string, a: nat, b: nat)
    requires DistinctKeys(pd) && a < |pd| && DistinctKeys(pd[a].1) && b < |pd[a].1|
    requires '/' !in pd[a].0 && '/' !in pd[a].1[b].0
    requires pd[a].1[b].1 == "dependency/" + pd[a].0 + "/" + pd[a].1[b].0
    ensures ResolveFrom(pd, 0, 0, base, depBase, prefix).Err?
  {
    var v := pd[a].1[b].1;
    ReferenceParts(pd[a].0, pd[a].1[b].0);
    forall s: PathsDic | SameShape(pd, s) && s[a].1[b] == pd[a].1[b]
      ensures ResolveValue(s, pd[a].0, v, base, depBase, prefix).Err?
    {
      SameShapeKeys(pd, s);
      GetDistinct(s, a);
      GetDistinct(s[a].1, b);
      assert Hop(s, v) == Ok((pd[a].0, v));
    }
    DoomedFails(pd, 0, 0, base, depBase, prefix, a, b);
  }
}
