/**
 * `calculate_model_hash`: the first 16 hex digits of the SHA-256 digest of
 * `json.dumps(model, sort_keys=True, indent=2)`. The serialisation is modelled
 * exactly (sorted keys at every level, two-space indentation, `ensure_ascii`
 * escaping); SHA-256 itself is a parameter of type `seq<byte> -> Digest`.
 */
module JsonHash {
  import opened PyText
  import opened Json

  newtype byte = x: int | 0 <= x < 256

  /** A SHA-256 digest: 32 bytes. */
  type Digest = d: seq<byte> | |d| == 32 witness seq(32, _ => 0 as byte)

  // ---- Key order: Python compares strings code point by code point ----

  predicate StrLt(a: string, b: string)
  {
    if a == [] then b != []
    else if b == [] then false
    else if a[0] == b[0] then StrLt(a[1..], b[1..])
    else a[0] < b[0]
  }

  lemma {:induction false} StrLtIrreflexive(a: string)
    ensures !StrLt(a, a)
  {
    if a != [] { StrLtIrreflexive(a[1..]); }
  }

  lemma {:induction false} StrLtTransitive(a: string, b: string, c: string)
    requires StrLt(a, b) && StrLt(b, c)
    ensures StrLt(a, c)
  {
    if a != [] && a[0] == b[0] && b[0] == c[0] {
      StrLtTransitive(a[1..], b[1..], c[1..]);
    }
  }

  lemma {:induction false} StrLtTotal(a: string, b: string)
    requires a != b
    ensures StrLt(a, b) || StrLt(b, a)
  {
    if a != [] && b != [] && a[0] == b[0] {
      assert a == [a[0]] + a[1..] && b == [b[0]] + b[1..];
      StrLtTotal(a[1..], b[1..]);
    }
  }

  lemma StrLtAsymmetric(a: string, b: string)
    requires StrLt(a, b)
    ensures !StrLt(b, a)
  {
    if StrLt(b, a) {
      StrLtTransitive(a, b, a);
      StrLtIrreflexive(a);
    }
  }

  /** Keys strictly increasing: the order `sort_keys=True` writes a dictionary in. */
  predicate StrictlySorted(fs: seq<Field>)
  {
    forall i, j :: 0 <= i < j < |fs| ==> StrLt(fs[i].key, fs[j].key)
  }

  function Insert(f: Field, s: seq<Field>): (r: seq<Field>)
    ensures multiset(r) == multiset(s) + multiset{f}
  {
    if s == [] then [f]
    else if StrLt(f.key, s[0].key) then [f] + s
    else
      var t := Insert(f, s[1..]);
      assert s == [s[0]] + s[1..];
      [s[0]] + t
  }

  /** `sorted(d.items())`: the entries of a dictionary in key order (insertion sort). */
  function SortFields(fs: seq<Field>): (r: seq<Field>)
    ensures multiset(r) == multiset(fs)
  {
    if fs == [] then []
    else
      assert fs == [fs[0]] + fs[1..];
      Insert(fs[0], SortFields(fs[1..]))
  }

  lemma {:induction false} InsertSorted(f: Field, s: seq<Field>)
    requires StrictlySorted(s)
    requires forall i :: 0 <= i < |s| ==> s[i].key != f.key
    ensures StrictlySorted(Insert(f, s))
  {
    if s != [] {
      StrLtTotal(f.key, s[0].key);
      if StrLt(f.key, s[0].key) {
        forall j | 0 <= j < |s| ensures StrLt(f.key, s[j].key) {
          if j > 0 { StrLtTransitive(f.key, s[0].key, s[j].key); }
        }
        SortedCons(f, s);
      } else {
        InsertSorted(f, s[1..]);
        var t := Insert(f, s[1..]);
        forall j | 0 <= j < |t| ensures StrLt(s[0].key, t[j].key) {
          InsertedFrom(f, s[1..], j);
        }
        SortedCons(s[0], t);
      }
    }
  }

  /** An entry below every key of a sorted list can be put in front. */
  lemma SortedCons(x: Field, t: seq<Field>)
    requires StrictlySorted(t) && forall j :: 0 <= j < |t| ==> StrLt(x.key, t[j].key)
    ensures StrictlySorted([x] + t)
  {
    var r := [x] + t;
    assert forall i :: 0 < i < |r| ==> r[i] == t[i - 1];
  }

  /** Every entry after an insertion is the inserted one or came from the list. */
  lemma InsertedFrom(f: Field, s: seq<Field>, j: nat)
    requires j < |Insert(f, s)|
    ensures Insert(f, s)[j] == f || exists m :: 0 <= m < |s| && s[m] == Insert(f, s)[j]
  {
    var x := Insert(f, s)[j];
    assert x in multiset(Insert(f, s));
    assert x in multiset(s) || x == f;
    if x != f {
      assert x in s;
    }
  }

  /** With distinct keys the sort puts them in strictly increasing order. */
  lemma {:induction false} SortFieldsSorted(fs: seq<Field>)
    requires DistinctKeys(fs)
    ensures StrictlySorted(SortFields(fs))
  {
    if fs != [] {
      var rest := SortFields(fs[1..]);
      SortFieldsSorted(fs[1..]);
      forall i | 0 <= i < |rest| ensures rest[i].key != fs[0].key {
        assert rest[i] in multiset(fs[1..]);
        var m :| 0 <= m < |fs[1..]| && fs[1..][m] == rest[i];
        assert fs[m + 1] == rest[i];
      }
      InsertSorted(fs[0], rest);
    }
  }

  /** Two key-sorted entry lists holding the same entries are the same list. */
  lemma {:induction false} SortedUnique(x: seq<Field>, y: seq<Field>)
    requires StrictlySorted(x) && StrictlySorted(y)
    requires forall f :: f in x <==> f in y
    ensures x == y
  {
    if x == [] {
      assert forall i :: 0 <= i < |y| ==> y[i] in y;
    } else {
      assert x[0] in x;
      var k :| 0 <= k < |y| && y[k] == x[0];
      assert y[0] in y;
      var m :| 0 <= m < |x| && x[m] == y[0];
      if k > 0 && m > 0 {
        StrLtAsymmetric(y[0].key, x[0].key);
      } else if k > 0 {
        StrLtIrreflexive(y[0].key);
      }
      assert k == 0;
      forall f ensures f in x[1..] ==> f in y[1..] {
        if f in x[1..] {
          var a :| 0 <= a < |x| - 1 && x[1..][a] == f;
          StrLtIrreflexive(f.key);
          assert StrLt(x[0].key, x[a + 1].key);
          assert f in y;
          var b :| 0 <= b < |y| && y[b] == f;
          assert y[1..][b - 1] == f;
        }
      }
      forall f ensures f in y[1..] ==> f in x[1..] {
        if f in y[1..] {
          var b :| 0 <= b < |y| - 1 && y[1..][b] == f;
          StrLtIrreflexive(f.key);
          assert StrLt(y[0].key, y[b + 1].key);
          assert f in x;
          var a :| 0 <= a < |x| && x[a] == f;
          assert x[1..][a - 1] == f;
        }
      }
      SortedUnique(x[1..], y[1..]);
    }
  }

  // ---- The canonical form: every object's entries sorted by key ----

  function Canonical(j: Json): Json
    decreases j, 1
  {
    match j
    case JArr(xs) => JArr(CanonicalItems(xs))
    case JObj(fs) => JObj(SortFields(CanonicalFields(fs)))
    case _ => j
  }

  function CanonicalItems(xs: seq<Json>): (r: seq<Json>)
    decreases xs, 0
    ensures |r| == |xs| && forall i :: 0 <= i < |xs| ==> r[i] == Canonical(xs[i])
  {
    if xs == [] then [] else [Canonical(xs[0])] + CanonicalItems(xs[1..])
  }

  function CanonicalFields(fs: seq<Field>): (r: seq<Field>)
    decreases fs, 0
    ensures |r| == |fs| && forall i :: 0 <= i < |fs| ==> r[i] == Field(fs[i].key, Canonical(fs[i].val))
  {
    if fs == [] then [] else [Field(fs[0].key, Canonical(fs[0].val))] + CanonicalFields(fs[1..])
  }

  /**
   * Two models that hold the same data: objects with the same keys mapped to
   * the same content (in any order), arrays with the same content position by
   * position, and equal scalars.
   */
  predicate SameContent(a: Json, b: Json)
    decreases a
  {
    match a
    case JArr(xs) =>
      b.JArr? && |xs| == |b.items| && forall i :: 0 <= i < |xs| ==> SameContent(xs[i], b.items[i])
    case JObj(fa) =>
      && b.JObj? && DistinctKeys(fa) && DistinctKeys(b.fields)
      && (forall i :: 0 <= i < |fa| ==>
            exists j :: 0 <= j < |b.fields| && b.fields[j].key == fa[i].key && SameContent(fa[i].val, b.fields[j].val))
      && (forall j :: 0 <= j < |b.fields| ==> b.fields[j].key in Keys(fa))
    case _ => a == b
  }

  /** Insertion order does not reach the canonical form. */
  lemma {:induction false} SameContentCanonical(a: Json, b: Json)
    requires SameContent(a, b)
    ensures Canonical(a) == Canonical(b)
    decreases a
  {
    match a
    case JArr(xs) =>
      var ys := b.items;
      forall i | 0 <= i < |xs| ensures Canonical(xs[i]) == Canonical(ys[i]) {
        SameContentCanonical(xs[i], ys[i]);
      }
      assert CanonicalItems(xs) == CanonicalItems(ys);
    case JObj(fa) =>
      var fb := b.fields;
      forall i | 0 <= i < |fa| ensures CanonicalMatch(fa[i], fb) {
        var j :| 0 <= j < |fb| && fb[j].key == fa[i].key && SameContent(fa[i].val, fb[j].val);
        SameContentCanonical(fa[i].val, fb[j].val);
      }
      CanonicalEntriesAgree(fa, fb);
    case _ =>
  }

  /** Entry `f` has a counterpart in `fb` under the same key whose value has the same canonical form. */
  predicate CanonicalMatch(f: Field, fb: seq<Field>)
  {
    exists j :: 0 <= j < |fb| && fb[j].key == f.key && Canonical(f.val) == Canonical(fb[j].val)
  }

  /** The object step of `SameContentCanonical`, once the values are known to agree. */
  lemma CanonicalEntriesAgree(fa: seq<Field>, fb: seq<Field>)
    requires DistinctKeys(fa) && DistinctKeys(fb)
    requires forall i :: 0 <= i < |fa| ==> CanonicalMatch(fa[i], fb)
    requires forall j :: 0 <= j < |fb| ==> fb[j].key in Keys(fa)
    ensures SortFields(CanonicalFields(fa)) == SortFields(CanonicalFields(fb))
  {
    var ca, cb := CanonicalFields(fa), CanonicalFields(fb);
    AllForward(fa, fb);
    AllBackward(fa, fb);
    CanonicalKeysDistinct(fa);
    CanonicalKeysDistinct(fb);
    SortedFromSameEntries(ca, cb);
  }

  /** Every entry of the first object's canonical form is in the second's. */
  lemma AllForward(fa: seq<Field>, fb: seq<Field>)
    requires forall i :: 0 <= i < |fa| ==> CanonicalMatch(fa[i], fb)
    ensures forall f :: f in CanonicalFields(fa) ==> f in CanonicalFields(fb)
  {
    var ca := CanonicalFields(fa);
    forall f | f in ca ensures f in CanonicalFields(fb) {
      var i :| 0 <= i < |ca| && ca[i] == f;
      ForwardEntry(fa, fb, i);
    }
  }

  /** Every entry of the second object's canonical form is in the first's. */
  lemma AllBackward(fa: seq<Field>, fb: seq<Field>)
    requires DistinctKeys(fb)
    requires forall i :: 0 <= i < |fa| ==> CanonicalMatch(fa[i], fb)
    requires forall j :: 0 <= j < |fb| ==> fb[j].key in Keys(fa)
    ensures forall f :: f in CanonicalFields(fb) ==> f in CanonicalFields(fa)
  {
    var cb := CanonicalFields(fb);
    forall f | f in cb ensures f in CanonicalFields(fa) {
      var j :| 0 <= j < |cb| && cb[j] == f;
      BackwardEntry(fa, fb, j);
    }
  }

  lemma CanonicalKeysDistinct(fs: seq<Field>)
    requires DistinctKeys(fs)
    ensures DistinctKeys(CanonicalFields(fs))
  {
    var c := CanonicalFields(fs);
    assert forall i :: 0 <= i < |c| ==> c[i].key == fs[i].key;
  }

  lemma ForwardEntry(fa: seq<Field>, fb: seq<Field>, i: nat)
    requires i < |fa| && CanonicalMatch(fa[i], fb)
    ensures CanonicalFields(fa)[i] in CanonicalFields(fb)
  {
    var j :| 0 <= j < |fb| && fb[j].key == fa[i].key && Canonical(fa[i].val) == Canonical(fb[j].val);
    assert CanonicalFields(fb)[j] == CanonicalFields(fa)[i];
  }

  lemma BackwardEntry(fa: seq<Field>, fb: seq<Field>, j: nat)
    requires DistinctKeys(fb)
    requires forall i :: 0 <= i < |fa| ==> CanonicalMatch(fa[i], fb)
    requires j < |fb| && fb[j].key in Keys(fa)
    ensures CanonicalFields(fb)[j] in CanonicalFields(fa)
  {
    var i :| 0 <= i < |fa| && Keys(fa)[i] == fb[j].key;
    assert CanonicalMatch(fa[i], fb);
    var j' :| 0 <= j' < |fb| && fb[j'].key == fa[i].key && Canonical(fa[i].val) == Canonical(fb[j'].val);
    assert j' == j;
    assert CanonicalFields(fa)[i] == CanonicalFields(fb)[j];
  }

  /** Sorting two key-distinct entry lists that hold the same entries gives the same list. */
  lemma SortedFromSameEntries(ca: seq<Field>, cb: seq<Field>)
    requires DistinctKeys(ca) && DistinctKeys(cb)
    requires forall f :: f in ca <==> f in cb
    ensures SortFields(ca) == SortFields(cb)
  {
    SortFieldsSorted(ca);
    SortFieldsSorted(cb);
    var sa, sb := SortFields(ca), SortFields(cb);
    forall f ensures f in sa <==> f in sb {
      calc {
        f in sa;
        f in multiset(sa);
        f in multiset(ca);
        f in ca;
        f in cb;
        f in multiset(cb);
        f in multiset(sb);
        f in sb;
      }
    }
    SortedUnique(sa, sb);
  }

  // ---- json.dumps(..., indent=2) with ensure_ascii ----

  predicate AsciiText(s: string)
  {
    forall i :: 0 <= i < |s| ==> s[i] as int < 128
  }

  /** One character inside a JSON string literal, as `ensure_ascii` writes it. */
  function EscapeChar(c: char): (r: string)
    ensures AsciiText(r)
    ensures ' ' <= c <= '~' && c != '"' && c != '\\' ==> r == [c]
  {
    if c == '"' then "\\\""
    else if c == '\\' then "\\\\"
    else if c == '\n' then "\\n"
    else if c == '\r' then "\\r"
    else if c == '\t' then "\\t"
    else if c == '\U{8}' then "\\b"
    else if c == '\U{c}' then "\\f"
    else if ' ' <= c <= '~' then [c]
    else if c as int < 0x1_0000 then "\\u" + HexFixed(c as int, 4)
    else
      var n := c as int - 0x1_0000;
      "\\u" + HexFixed(0xd800 + n / 0x400, 4) + "\\u" + HexFixed(0xdc00 + n % 0x400, 4)
  }

  function EscapeText(s: string): (r: string)
    ensures AsciiText(r)
  {
    if s == [] then "" else EscapeChar(s[0]) + EscapeText(s[1..])
  }

  function Quote(s: string): (r: string)
    ensures AsciiText(r)
  {
    "\"" + EscapeText(s) + "\""
  }

  function Indent(level: nat): (r: string)
    ensures |r| == 2 * level && AsciiText(r)
  {
    if level == 0 then "" else "  " + Indent(level - 1)
  }

  /** The text `json.dumps` writes for `j` when it starts at nesting depth `level`. */
  function Dump(j: Json, level: nat): string
    decreases j, 1
  {
    match j
    case JNull => "null"
    case JBool(b) => if b then "true" else "false"
    case JInt(n) => IntToDecimal(n)
    case JStr(s) => Quote(s)
    case JArr(xs) => if xs == [] then "[]" else "[\n" + DumpItems(xs, level + 1) + "\n" + Indent(level) + "]"
    case JObj(fs) => if fs == [] then "{}" else "{\n" + DumpFields(fs, level + 1) + "\n" + Indent(level) + "}"
  }

  function DumpItems(xs: seq<Json>, level: nat): string
    requires xs != []
    decreases xs, 0
  {
    var first := Indent(level) + Dump(xs[0], level);
    if |xs| == 1 then first else first + ",\n" + DumpItems(xs[1..], level)
  }

  function DumpFields(fs: seq<Field>, level: nat): string
    requires fs != []
    decreases fs, 0
  {
    var first := Indent(level) + Quote(fs[0].key) + ": " + Dump(fs[0].val, level);
    if |fs| == 1 then first else first + ",\n" + DumpFields(fs[1..], level)
  }

  lemma AsciiCat(a: string, b: string)
    requires AsciiText(a) && AsciiText(b)
    ensures AsciiText(a + b)
  {
    assert forall i :: |a| <= i < |a + b| ==> (a + b)[i] == b[i - |a|];
  }

  lemma AsciiDecimal(n: int)
    ensures AsciiText(IntToDecimal(n))
  {
    if n < 0 { AsciiCat("-", NatToDecimal(-n)); }
  }

  /** `ensure_ascii`: the serialisation is pure ASCII whatever the model holds. */
  lemma {:induction false} DumpAscii(j: Json, level: nat)
    ensures AsciiText(Dump(j, level))
    decreases j, 1
  {
    match j
    case JInt(n) => AsciiDecimal(n);
    case JArr(xs) =>
      if xs != [] {
        DumpItemsAscii(xs, level + 1);
        AsciiCat("[\n", DumpItems(xs, level + 1));
        AsciiCat("[\n" + DumpItems(xs, level + 1), "\n");
        AsciiCat("[\n" + DumpItems(xs, level + 1) + "\n", Indent(level));
        AsciiCat("[\n" + DumpItems(xs, level + 1) + "\n" + Indent(level), "]");
      }
    case JObj(fs) =>
      if fs != [] {
        DumpFieldsAscii(fs, level + 1);
        AsciiCat("{\n", DumpFields(fs, level + 1));
        AsciiCat("{\n" + DumpFields(fs, level + 1), "\n");
        AsciiCat("{\n" + DumpFields(fs, level + 1) + "\n", Indent(level));
        AsciiCat("{\n" + DumpFields(fs, level + 1) + "\n" + Indent(level), "}");
      }
    case _ =>
  }

  lemma {:induction false} DumpItemsAscii(xs: seq<Json>, level: nat)
    requires xs != []
    ensures AsciiText(DumpItems(xs, level))
    decreases xs, 0
  {
    DumpAscii(xs[0], level);
    var first := Indent(level) + Dump(xs[0], level);
    AsciiCat(Indent(level), Dump(xs[0], level));
    if |xs| > 1 {
      DumpItemsAscii(xs[1..], level);
      AsciiCat(first, ",\n");
      AsciiCat(first + ",\n", DumpItems(xs[1..], level));
    }
  }

  lemma {:induction false} DumpFieldsAscii(fs: seq<Field>, level: nat)
    requires fs != []
    ensures AsciiText(DumpFields(fs, level))
    decreases fs, 0
  {
    DumpAscii(fs[0].val, level);
    var head := Indent(level) + Quote(fs[0].key);
    AsciiCat(Indent(level), Quote(fs[0].key));
    AsciiCat(head, ": ");
    AsciiCat(head + ": ", Dump(fs[0].val, level));
    var first := head + ": " + Dump(fs[0].val, level);
    if |fs| > 1 {
      DumpFieldsAscii(fs[1..], level);
      AsciiCat(first, ",\n");
      AsciiCat(first + ",\n", DumpFields(fs[1..], level));
    }
  }

  /** `json.dumps(model, sort_keys=True, indent=2)`. */
  function ModelText(model: Json): (r: string)
    ensures AsciiText(r)
  {
    DumpAscii(Canonical(model), 0);
    Dump(Canonical(model), 0)
  }

  /** `str.encode()`: for ASCII text, UTF-8 is one byte per character, holding its code point. */
  function Encode(s: string): (r: seq<byte>)
    requires AsciiText(s)
    ensures |r| == |s| && forall i :: 0 <= i < |s| ==> r[i] as int == s[i] as int
  {
    if s == [] then [] else [s[0] as int as byte] + Encode(s[1..])
  }

  /** `hexdigest()`: two lowercase hex digits per byte, high nibble first. */
  function HexDigest(d: seq<byte>): (r: string)
    ensures |r| == 2 * |d|
    ensures forall i :: 0 <= i < |r| ==> IsLowerHexDigit(r[i])
  {
    if d == [] then "" else HexFixed(d[0] as int, 2) + HexDigest(d[1..])
  }

  lemma {:induction false} HexDigestPrefix(d: seq<byte>, n: nat)
    requires n <= |d|
    ensures HexDigest(d)[..2 * n] == HexDigest(d[..n])
  {
    if n > 0 {
      HexDigestPrefix(d[1..], n - 1);
      assert d[..n][1..] == d[1..][..n - 1];
    }
  }

  /** A model hash: 16 lowercase hex digits. */
  predicate IsModelHash(h: string)
  {
    |h| == 16 && forall i :: 0 <= i < 16 ==> IsLowerHexDigit(h[i])
  }

  /** `calculate_model_hash(model)` of both the deploy generator and the version verifier. */
  function ModelHash(sha: seq<byte> -> Digest, model: Json): (h: string)
    ensures IsModelHash(h)
  {
    HexDigest(sha(Encode(ModelText(model))))[..16]
  }

  /** The 16 characters kept are exactly the hex of the digest's first 8 bytes. */
  lemma ModelHashIsFirstEightBytes(sha: seq<byte> -> Digest, model: Json)
    ensures ModelHash(sha, model) == HexDigest(sha(Encode(ModelText(model)))[..8])
  {
    HexDigestPrefix(sha(Encode(ModelText(model))), 8);
  }

  /** Sorting the keys makes the hash independent of the order the model's keys were written in. */
  lemma ModelHashIgnoresKeyOrder(sha: seq<byte> -> Digest, a: Json, b: Json)
    requires SameContent(a, b)
    ensures ModelHash(sha, a) == ModelHash(sha, b)
  {
    SameContentCanonical(a, b);
  }
}
