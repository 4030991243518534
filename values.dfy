/**
 * Python values as the configuration code sees them: the nodes of a parsed
 * YAML/JSON document, Python's truthiness, and `dict` with its insertion order.
 *
 * A `dict` is a sequence of key/value bindings in insertion order. `Get`
 * reads the last binding of a key and `Set` rebinds every binding of the key
 * in place (or appends a new one), so for a mapping whose keys are distinct,
 * which is all Python ever builds, they behave as `d.get(k)` and `d[k] = v`.
 */
module Values {
  import opened Wrappers

  /** A node of a parsed document, or an object the code only passes along. */
  datatype Value =
    | Null
    | Bool(b: bool)
    | Int(i: int)
    | Str(s: string)
    | List(items: seq<Value>)
    | Map(entries: seq<(string, Value)>)
    | Handle(id: nat)  // an opaque object such as a logger

  type Dict<V> = seq<(string, V)>

  /** The exceptions the modelled code can raise, and the one way it can fail to return. */
  datatype PyError =
    | KeyError(key: string)
    | IndexError
    | TypeError
    | NameError(name: string)
    | AttributeError(name: string)
    | NonTerminating  // the source's loop never exits; Python raises nothing here

  /** Python's truth value of an object (`if x:`). */
  predicate Truthy(v: Value) {
    match v
    case Null => false
    case Bool(b) => b
    case Int(i) => i != 0
    case Str(s) => s != ""
    case List(xs) => xs != []
    case Map(es) => es != []
    case Handle(_) => true
  }

  /** An optional string (`None` or a `str`) that Python treats as true: given and non-empty. */
  predicate Given(s: Option<string>) {
    s.Some? && s.value != ""
  }

  function Keys<V>(d: Dict<V>): (ks: seq<string>)
    ensures |ks| == |d|
    ensures forall i :: 0 <= i < |d| ==> ks[i] == d[i].0
  {
    seq(|d|, i requires 0 <= i < |d| => d[i].0)
  }

  /** `d.get(k)`: the value of the last binding of `k`, if any. */
  function Get<V>(d: Dict<V>, k: string): Option<V> {
    if d == [] then None
    else if d[|d| - 1].0 == k then Some(d[|d| - 1].1)
    else Get(d[..|d| - 1], k)
  }

  /** `k in d` */
  predicate Has<V>(d: Dict<V>, k: string) {
    Get(d, k).Some?
  }

  predicate DistinctKeys<V>(d: Dict<V>) {
    forall i, j :: 0 <= i < j < |d| ==> d[i].0 != d[j].0
  }

  /** A key is present exactly when some binding has it, and `Get` returns one of its bindings. */
  lemma {:induction false} GetBinding<V>(d: Dict<V>, k: string)
    ensures Has(d, k) <==> k in Keys(d)
    ensures Has(d, k) ==> exists i :: 0 <= i < |d| && d[i] == (k, Get(d, k).value)
  {
    if d != [] && d[|d| - 1].0 != k {
      GetBinding(d[..|d| - 1], k);
      assert Keys(d) == Keys(d[..|d| - 1]) + [d[|d| - 1].0];
    }
  }

  /** A binding appended last is the one `Get` finds for its key. */
  lemma GetLast<V>(d: Dict<V>, k: string, v: V, k': string)
    ensures Get(d + [(k, v)], k') == if k' == k then Some(v) else Get(d, k')
  {
    assert (d + [(k, v)])[..|d|] == d;
  }

  /** `d.get(k, default)` */
  function GetOr<V>(d: Dict<V>, k: string, default: V): V {
    Get(d, k).GetOr(default)
  }

  /** Every binding of `k` gets the value `v`; positions and other bindings stay. */
  function Rebind<V>(d: Dict<V>, k: string, v: V): (r: Dict<V>)
    ensures |r| == |d| && forall i :: 0 <= i < |d| ==> r[i].0 == d[i].0
    ensures Has(d, k) ==> Get(r, k) == Some(v)
    ensures forall k' :: k' != k ==> Get(r, k') == Get(d, k')
  {
    if d == [] then []
    else
      var init := Rebind(d[..|d| - 1], k, v);
      var last := d[|d| - 1];
      var r := init + [if last.0 == k then (k, v) else last];
      assert r[..|r| - 1] == init;
      r
  }

  /** `d[k] = v`: an existing key keeps its position, a new one goes last. */
  function Set<V>(d: Dict<V>, k: string, v: V): (r: Dict<V>)
    ensures Get(r, k) == Some(v)
    ensures forall k' :: k' != k ==> Get(r, k') == Get(d, k')
  {
    if Has(d, k) then Rebind(d, k, v)
    else
      var r := d + [(k, v)];
      assert r[..|d|] == d;
      r
  }

  /** `d[k] = v` leaves the order of keys alone and appends a new key last. */
  lemma SetKeys<V>(d: Dict<V>, k: string, v: V)
    ensures Keys(Set(d, k, v)) == if Has(d, k) then Keys(d) else Keys(d) + [k]
  {
  }

  /** `d.update(e)`: the bindings of `e` assigned one after the other. */
  function Update<V>(d: Dict<V>, e: Dict<V>): (r: Dict<V>)
    ensures forall k :: Get(r, k) == if Has(e, k) then Get(e, k) else Get(d, k)
  {
    if e == [] then d
    else Set(Update(d, e[..|e| - 1]), e[|e| - 1].0, e[|e| - 1].1)
  }

  /** `d.update(e)` keeps the keys of `d` first, in their order. */
  lemma {:induction false} UpdateKeys<V>(d: Dict<V>, e: Dict<V>)
    ensures |Keys(d)| <= |Keys(Update(d, e))| && Keys(Update(d, e))[..|Keys(d)|] == Keys(d)
  {
    if e != [] {
      UpdateKeys(d, e[..|e| - 1]);
      SetKeys(Update(d, e[..|e| - 1]), e[|e| - 1].0, e[|e| - 1].1);
    }
  }

  /** In a mapping with distinct keys, every binding is the one `Get` finds. */
  lemma {:induction false} GetDistinct<V>(d: Dict<V>, i: nat)
    requires DistinctKeys(d) && i < |d|
    ensures Get(d, d[i].0) == Some(d[i].1)
  {
    if i < |d| - 1 {
      GetDistinct(d[..|d| - 1], i);
    }
  }
}
