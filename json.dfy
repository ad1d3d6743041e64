/**
 * The configuration model and the other JSON documents the scripts read, as
 * values: what `json.load` produces (objects keep their key order), the
 * dictionary operations the scripts apply to them (`d.get`, `d[k]`,
 * `d[k] = v`, a chain of lookups) and the Python built-ins they call on them
 * (`str`, `repr`, `==`, `in`, `> 0`).
 */
module Json {
  import opened Wrappers
  import opened PyText

  /** A JSON value; numbers are integers. */
  datatype Json =
    | JNull
    | JBool(b: bool)
    | JInt(n: int)
    | JStr(s: string)
    | JArr(items: seq<Json>)
    | JObj(fields: seq<Field>)

  /** One key/value entry of an object, in insertion order. */
  datatype Field = Field(key: string, val: Json)

  function Keys(fs: seq<Field>): (ks: seq<string>)
    ensures |ks| == |fs|
    ensures forall i :: 0 <= i < |fs| ==> ks[i] == fs[i].key
  {
    if fs == [] then [] else [fs[0].key] + Keys(fs[1..])
  }

  /** Every key occurs once, as in any dictionary `json.load` builds. */
  predicate DistinctKeys(fs: seq<Field>)
  {
    forall i, j :: 0 <= i < j < |fs| ==> fs[i].key != fs[j].key
  }

  /** `d.get(k)`: the value stored under `k`, or `None` when there is none. */
  function Get(fs: seq<Field>, k: string): (r: Option<Json>)
    ensures r.None? <==> k !in Keys(fs)
  {
    if fs == [] then None
    else if fs[0].key == k then Some(fs[0].val)
    else Get(fs[1..], k)
  }

  /** What `d.get(k)` returns is the value of an entry with key `k`. */
  lemma {:induction false} GetFinds(fs: seq<Field>, k: string)
    requires Get(fs, k).Some?
    ensures exists i :: 0 <= i < |fs| && fs[i] == Field(k, Get(fs, k).value)
  {
    if fs[0].key != k {
      GetFinds(fs[1..], k);
      var i :| 0 <= i < |fs| - 1 && fs[1..][i] == Field(k, Get(fs, k).value);
      assert fs[i + 1] == fs[1..][i];
    }
  }

  /** `d[k]` for the key at position `i`, when no earlier entry has that key. */
  lemma {:induction false} GetAt(fs: seq<Field>, i: nat)
    requires i < |fs| && forall j :: 0 <= j < i ==> fs[j].key != fs[i].key
    ensures Get(fs, fs[i].key) == Some(fs[i].val)
    decreases i
  {
    if i > 0 {
      GetAt(fs[1..], i - 1);
    }
  }

  /** `d[k] = v`: an existing key gets the new value, a new key is added. */
  function Put(fs: seq<Field>, k: string, v: Json): (r: seq<Field>)
  {
    if fs == [] then [Field(k, v)]
    else if fs[0].key == k then [Field(k, v)] + fs[1..]
    else [fs[0]] + Put(fs[1..], k, v)
  }

  /** An existing key keeps its position; a new key goes last. */
  lemma {:induction false} PutKeys(fs: seq<Field>, k: string, v: Json)
    ensures k in Keys(fs) ==> Keys(Put(fs, k, v)) == Keys(fs)
    ensures k !in Keys(fs) ==> Keys(Put(fs, k, v)) == Keys(fs) + [k]
  {
    if fs != [] && fs[0].key != k {
      PutKeys(fs[1..], k, v);
      assert Keys([fs[0]] + Put(fs[1..], k, v))[1..] == Keys(Put(fs[1..], k, v));
    }
  }

  /** Reading back after `d[k] = v`: `k` now holds `v`, every other key what it held before. */
  lemma {:induction false} PutThenGet(fs: seq<Field>, k: string, v: Json, k': string)
    ensures Get(Put(fs, k, v), k') == if k' == k then Some(v) else Get(fs, k')
  {
    if fs != [] && fs[0].key != k {
      PutThenGet(fs[1..], k, v, k');
      assert ([fs[0]] + Put(fs[1..], k, v))[1..] == Put(fs[1..], k, v);
    }
  }

  /** A second `d[k] = v2` replaces the first one completely. */
  lemma {:induction false} PutOverwrites(fs: seq<Field>, k: string, v1: Json, v2: Json)
    ensures Put(Put(fs, k, v1), k, v2) == Put(fs, k, v2)
  {
    if fs != [] && fs[0].key != k {
      PutOverwrites(fs[1..], k, v1, v2);
      assert ([fs[0]] + Put(fs[1..], k, v1))[1..] == Put(fs[1..], k, v1);
    }
  }

  /** `d[k] = v` keeps a dictionary's keys distinct. */
  lemma PutKeepsDistinct(fs: seq<Field>, k: string, v: Json)
    requires DistinctKeys(fs)
    ensures DistinctKeys(Put(fs, k, v))
  {
    var r := Put(fs, k, v);
    PutKeys(fs, k, v);
    assert forall i :: 0 <= i < |r| ==> r[i].key == Keys(r)[i];
  }

  /** The value reached by indexing with each key of `path` in turn, if every step finds an object with that key. */
  function Lookup(j: Json, path: seq<string>): Option<Json>
    decreases |path|
  {
    if path == [] then Some(j)
    else match j
      case JObj(fs) => (match Get(fs, path[0]) case Some(c) => Lookup(c, path[1..]) case None => None)
      case _ => None
  }

  /**
   * `obj[path[0]]...[path[n-1]][k] = v`, done in place in the source: the new
   * whole value, or `None` when a step of the walk meets a missing key or a
   * value that is not an object, or the final container is not an object
   * (Python raises and changes nothing). An absent `k` is added at the end.
   */
  function PutAt(j: Json, path: seq<string>, k: string, v: Json): Option<Json>
    decreases |path|
  {
    match j
    case JObj(fs) =>
      if path == [] then Some(JObj(Put(fs, k, v)))
      else (match Get(fs, path[0])
        case None => None
        case Some(c) => (match PutAt(c, path[1..], k, v)
          case None => None
          case Some(c') => Some(JObj(Put(fs, path[0], c')))))
    case _ => None
  }

  /** The update succeeds exactly when the path leads to an object. */
  lemma {:induction false} PutAtDefined(j: Json, path: seq<string>, k: string, v: Json)
    ensures PutAt(j, path, k, v).Some? <==> (Lookup(j, path).Some? && Lookup(j, path).value.JObj?)
    decreases |path|
  {
    if path != [] && j.JObj? && Get(j.fields, path[0]).Some? {
      PutAtDefined(Get(j.fields, path[0]).value, path[1..], k, v);
    }
  }

  /** After the update, the key under the path holds the new value. */
  lemma {:induction false} PutAtStores(j: Json, path: seq<string>, k: string, v: Json)
    requires PutAt(j, path, k, v).Some?
    ensures Lookup(PutAt(j, path, k, v).value, path + [k]) == Some(v)
    decreases |path|
  {
    var fs := j.fields;
    if path == [] {
      PutThenGet(fs, k, v, k);
      assert ([] + [k])[1..] == [];
    } else {
      var c := Get(fs, path[0]).value;
      var c' := PutAt(c, path[1..], k, v).value;
      PutAtStores(c, path[1..], k, v);
      PutThenGet(fs, path[0], c', path[0]);
      assert (path + [k])[1..] == path[1..] + [k];
    }
  }

  /** Updating the same key twice leaves the model as the second update alone would. */
  lemma {:induction false} PutAtOverwrites(j: Json, path: seq<string>, k: string, v1: Json, v2: Json)
    requires PutAt(j, path, k, v1).Some?
    ensures PutAt(PutAt(j, path, k, v1).value, path, k, v2) == PutAt(j, path, k, v2)
    decreases |path|
  {
    var fs := j.fields;
    if path == [] {
      PutOverwrites(fs, k, v1, v2);
    } else {
      var c := Get(fs, path[0]).value;
      var c1 := PutAt(c, path[1..], k, v1).value;
      var c2 := PutAt(c, path[1..], k, v2);
      PutAtOverwrites(c, path[1..], k, v1, v2);
      var j1 := JObj(Put(fs, path[0], c1));
      assert PutAt(j, path, k, v1).value == j1;
      PutThenGet(fs, path[0], c1, path[0]);
      assert Get(j1.fields, path[0]) == Some(c1);
      if c2.Some? {
        PutOverwrites(fs, path[0], c1, c2.value);
        assert PutAt(j1, path, k, v2) == Some(JObj(Put(Put(fs, path[0], c1), path[0], c2.value)));
      }
    }
  }

  /** Two paths with the same first key are prefix-related exactly when their tails are. */
  lemma PrefixTail(q: seq<string>, p: seq<string>)
    requires q != [] && p != [] && q[0] == p[0]
    ensures q <= p <==> q[1..] <= p[1..]
    ensures p <= q <==> p[1..] <= q[1..]
  {
    assert q == [q[0]] + q[1..];
    assert p == [p[0]] + p[1..];
  }

  /**
   * Nothing else changes: every path that is neither a prefix nor an extension
   * of the updated one looks up the same value as before.
   */
  lemma {:induction false} PutAtKeepsOthers(j: Json, path: seq<string>, k: string, v: Json, q: seq<string>)
    requires PutAt(j, path, k, v).Some?
    requires !(q <= path + [k]) && !(path + [k] <= q)
    ensures Lookup(PutAt(j, path, k, v).value, q) == Lookup(j, q)
    decreases |path|
  {
    var fs := j.fields;
    var full := path + [k];
    assert q != [];
    if path == [] {
      assert full == [k];
      PutThenGet(fs, k, v, q[0]);
      if q[0] == k {
        PrefixTail(q, full);
      }
    } else {
      var c := Get(fs, path[0]).value;
      var c' := PutAt(c, path[1..], k, v).value;
      assert PutAt(j, path, k, v).value == JObj(Put(fs, path[0], c'));
      PutThenGet(fs, path[0], c', q[0]);
      if q[0] == path[0] {
        PrefixTail(q, full);
        assert full[1..] == path[1..] + [k];
        PutAtKeepsOthers(c, path[1..], k, v, q[1..]);
      }
    }
  }

  /** `repr(s)` for a string: single quotes unless only double quotes avoid escaping one. */
  function StrRepr(s: string): string
  {
    var q := if '\'' in s && '"' !in s then '"' else '\'';
    [q] + ReprBody(s, q) + [q]
  }

  function ReprBody(s: string, q: char): string
  {
    if s == [] then "" else ReprChar(s[0], q) + ReprBody(s[1..], q)
  }

  function ReprChar(c: char, q: char): string
  {
    if c == q || c == '\\' then ['\\', c]
    else if c == '\t' then "\\t"
    else if c == '\n' then "\\n"
    else if c == '\r' then "\\r"
    else if c < ' ' || c == '\U{7f}' then "\\x" + HexFixed(c as int, 2)
    else [c]
  }

  /** `str(value)`, which f-strings and `str.replace` arguments use. */
  function PyStr(j: Json): string
    decreases j, 2
  {
    match j
    case JNull => "None"
    case JBool(b) => if b then "True" else "False"
    case JInt(n) => IntToDecimal(n)
    case JStr(s) => s
    case JArr(xs) => "[" + ReprItems(xs) + "]"
    case JObj(fs) => "{" + ReprFields(fs) + "}"
  }

  /** `repr(value)`, used for the elements of a list or dictionary being printed. */
  function PyRepr(j: Json): string
    decreases j, 3
  {
    if j.JStr? then StrRepr(j.s) else PyStr(j)
  }

  function ReprItems(xs: seq<Json>): string
    decreases xs, 1
  {
    if xs == [] then ""
    else if |xs| == 1 then PyRepr(xs[0])
    else PyRepr(xs[0]) + ", " + ReprItems(xs[1..])
  }

  function ReprFields(fs: seq<Field>): string
    decreases fs, 1
  {
    if fs == [] then ""
    else
      var entry := StrRepr(fs[0].key) + ": " + PyRepr(fs[0].val);
      if |fs| == 1 then entry else entry + ", " + ReprFields(fs[1..])
  }

  /** The number a `bool` or `int` stands for in Python arithmetic and comparison. */
  function NumVal(j: Json): int
    requires j.JBool? || j.JInt?
  {
    if j.JBool? then (if j.b then 1 else 0) else j.n
  }

  /** Python's `a == b` on two JSON values (`True == 1`, dictionaries compare without regard to order). */
  function PyEq(a: Json, b: Json): bool
    decreases a
  {
    if (a.JBool? || a.JInt?) && (b.JBool? || b.JInt?) then NumVal(a) == NumVal(b)
    else match (a, b)
      case (JNull, JNull) => true
      case (JStr(x), JStr(y)) => x == y
      case (JArr(xs), JArr(ys)) => |xs| == |ys| && forall i :: 0 <= i < |xs| ==> PyEq(xs[i], ys[i])
      case (JObj(fa), JObj(fb)) =>
        && |fa| == |fb|
        && forall i :: 0 <= i < |fa| ==>
             exists j :: 0 <= j < |fb| && fb[j].key == fa[i].key && PyEq(fa[i].val, fb[j].val)
      case _ => false
  }

  /** Comparing with a string literal: only that very string is equal to it. */
  lemma PyEqString(j: Json, t: string)
    ensures PyEq(j, JStr(t)) <==> j == JStr(t)
  {
  }

  /** Python's `needle in container` for a string needle; `None` where Python raises `TypeError`. */
  function PyIn(needle: string, container: Json): (r: Option<bool>)
    ensures r.Some? <==> (container.JStr? || container.JArr? || container.JObj?)
    ensures container.JStr? ==> r == Some(Contains(container.s, needle))
  {
    match container
    case JStr(s) => Some(Contains(s, needle))
    case JArr(xs) => Some(exists i :: 0 <= i < |xs| && PyEq(xs[i], JStr(needle)))
    case JObj(fs) => Some(needle in Keys(fs))
    case _ => None
  }

  /** Python's `value > 0`; `None` where Python raises `TypeError` (no ordering against an int). */
  function PyGreaterThanZero(j: Json): (r: Option<bool>)
    ensures r.Some? <==> (j.JBool? || j.JInt?)
    ensures r.Some? ==> (r.value <==> NumVal(j) > 0)
  {
    match j
    case JBool(b) => Some(b)
    case JInt(n) => Some(n > 0)
    case _ => None
  }
}
