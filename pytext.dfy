/**
 * The Python `str` operations the scripts rely on, stated on Dafny strings:
 * `isspace`, `strip`/`lstrip`/`rstrip`, `startswith`, `in`, `replace`,
 * `split` with a separator, `sep.join(parts)` and `str(int)`.
 */
module PyText {

  /** Python's `str.isspace()` on one character (the Unicode whitespace set CPython uses). */
  predicate IsSpace(c: char)
  {
    || ('\t' <= c <= '\r')
    || ('\U{1c}' <= c <= ' ')
    || c == '\U{85}' || c == '\U{a0}' || c == '\U{1680}'
    || ('\U{2000}' <= c <= '\U{200a}')
    || c == '\U{2028}' || c == '\U{2029}' || c == '\U{202f}' || c == '\U{205f}' || c == '\U{3000}'
  }

  predicate AllSpace(s: string)
  {
    forall i :: 0 <= i < |s| ==> IsSpace(s[i])
  }

  /** `s.lstrip()`: the longest suffix of `s` that does not start with whitespace. */
  function LStrip(s: string): (r: string)
    ensures |r| <= |s| && r == s[|s| - |r|..]
    ensures r == [] || !IsSpace(r[0])
  {
    if s != [] && IsSpace(s[0]) then LStrip(s[1..]) else s
  }

  /** `s.rstrip()`: the longest prefix of `s` that does not end with whitespace. */
  function RStrip(s: string): (r: string)
    ensures |r| <= |s| && r == s[..|r|]
    ensures r == [] || !IsSpace(r[|r| - 1])
  {
    if s != [] && IsSpace(s[|s| - 1]) then RStrip(s[..|s| - 1]) else s
  }

  /** `s.strip()`: whitespace removed from both ends. */
  function Strip(s: string): (r: string)
    ensures |r| <= |s|
    ensures r == [] || (!IsSpace(r[0]) && !IsSpace(r[|r| - 1]))
  {
    RStrip(LStrip(s))
  }

  /** What `strip` removes is whitespace, and only from the two ends. */
  lemma StripSlice(s: string)
    ensures exists i, j :: 0 <= i <= j <= |s| && Strip(s) == s[i..j] && AllSpace(s[..i]) && AllSpace(s[j..])
  {
    var l := LStrip(s);
    var r := RStrip(l);
    var i := |s| - |l|;
    var j := i + |r|;
    assert r == s[i..j];
    LStripFront(s);
    RStripBack(l);
    assert s[j..] == l[|r|..];
    assert 0 <= i <= j <= |s| && Strip(s) == s[i..j] && AllSpace(s[..i]) && AllSpace(s[j..]);
  }

  /** What `lstrip` removes is whitespace. */
  lemma {:induction false} LStripFront(s: string)
    ensures AllSpace(s[..|s| - |LStrip(s)|])
    decreases |s|
  {
    if s != [] && IsSpace(s[0]) {
      LStripFront(s[1..]);
      var front, rest := s[..|s| - |LStrip(s)|], s[1..][..|s| - 1 - |LStrip(s)|];
      forall k | 0 <= k < |front| ensures IsSpace(front[k]) {
        if k > 0 {
          assert front[k] == rest[k - 1];
        }
      }
    }
  }

  /** What `rstrip` removes is whitespace. */
  lemma {:induction false} RStripBack(s: string)
    ensures AllSpace(s[|RStrip(s)|..])
    decreases |s|
  {
    if s != [] && IsSpace(s[|s| - 1]) {
      var t := s[..|s| - 1];
      RStripBack(t);
      var back, rest := s[|RStrip(s)|..], t[|RStrip(t)|..];
      forall k | 0 <= k < |back| ensures IsSpace(back[k]) {
        if k < |rest| {
          assert back[k] == rest[k];
        }
      }
    }
  }

  /** Stripping a string that neither starts nor ends with whitespace changes nothing. */
  lemma StripClean(s: string)
    requires s == [] || (!IsSpace(s[0]) && !IsSpace(s[|s| - 1]))
    ensures Strip(s) == s
  {
  }

  /** Removing trailing whitespace ignores any extra whitespace already at the end. */
  lemma {:induction false} RStripIgnoresTrailingSpace(s: string, ws: string)
    requires AllSpace(ws)
    ensures RStrip(s + ws) == RStrip(s)
    decreases |ws|
  {
    if ws != [] {
      var t := s + ws[..|ws| - 1];
      assert (s + ws)[..|s + ws| - 1] == t;
      RStripIgnoresTrailingSpace(s, ws[..|ws| - 1]);
    } else {
      assert s + ws == s;
    }
  }

  predicate StartsWith(s: string, p: string)
  {
    |p| <= |s| && s[..|p|] == p
  }

  /** `p` occurs in `s` starting at index `i`. */
  predicate OccursAt(s: string, p: string, i: int)
  {
    0 <= i && i + |p| <= |s| && s[i..i + |p|] == p
  }

  /** An occurrence fixes the characters it covers. */
  lemma OccursAtChar(s: string, p: string, i: nat, k: nat)
    requires OccursAt(s, p, i) && k < |p|
    ensures s[i + k] == p[k]
  {
    assert s[i..i + |p|][k] == p[k];
  }

  /** Python's `p in s` on two strings. */
  predicate Contains(s: string, p: string)
  {
    exists i :: 0 <= i <= |s| && OccursAt(s, p, i)
  }

  /**
   * `s.replace(p, r)`: scanning left to right, every occurrence of `p` that
   * does not overlap an earlier replaced one becomes `r`.
   */
  function ReplaceAll(s: string, p: string, r: string): string
    requires |p| > 0
    decreases |s|
  {
    if s == [] then []
    else if StartsWith(s, p) then r + ReplaceAll(s[|p|..], p, r)
    else [s[0]] + ReplaceAll(s[1..], p, r)
  }

  /** `s.split(p)`: the pieces between the occurrences `replace` would rewrite; never empty. */
  function Split(s: string, p: string): (parts: seq<string>)
    requires |p| > 0
    ensures |parts| >= 1
    decreases |s|
  {
    if s == [] then [""]
    else if StartsWith(s, p) then [""] + Split(s[|p|..], p)
    else
      var t := Split(s[1..], p);
      [[s[0]] + t[0]] + t[1..]
  }

  /** `sep.join(parts)`. */
  function Join(parts: seq<string>, sep: string): string
  {
    if parts == [] then ""
    else if |parts| == 1 then parts[0]
    else parts[0] + sep + Join(parts[1..], sep)
  }

  lemma JoinCons(x: string, rest: seq<string>, sep: string)
    requires rest != []
    ensures Join([x] + rest, sep) == x + sep + Join(rest, sep)
  {
    assert ([x] + rest)[1..] == rest;
  }

  lemma JoinAfterFirstChar(c: char, t: seq<string>, sep: string)
    requires t != []
    ensures Join([[c] + t[0]] + t[1..], sep) == [c] + Join(t, sep)
  {
    if |t| > 1 {
      JoinCons([c] + t[0], t[1..], sep);
      JoinCons(t[0], t[1..], sep);
      assert [t[0]] + t[1..] == t;
    }
  }

  /** Python's documented identity: `s.replace(p, r) == r.join(s.split(p))`. */
  lemma {:induction false} ReplaceIsJoinOfSplit(s: string, p: string, r: string)
    requires |p| > 0
    ensures ReplaceAll(s, p, r) == Join(Split(s, p), r)
    decreases |s|
  {
    if s == [] {
    } else if StartsWith(s, p) {
      var t := Split(s[|p|..], p);
      assert Split(s, p) == [""] + t;
      assert ReplaceAll(s, p, r) == r + ReplaceAll(s[|p|..], p, r);
      ReplaceIsJoinOfSplit(s[|p|..], p, r);
      JoinCons("", t, r);
    } else {
      var t := Split(s[1..], p);
      assert Split(s, p) == [[s[0]] + t[0]] + t[1..];
      assert ReplaceAll(s, p, r) == [s[0]] + ReplaceAll(s[1..], p, r);
      ReplaceIsJoinOfSplit(s[1..], p, r);
      JoinAfterFirstChar(s[0], t, r);
    }
  }

  /** Replacing a pattern by itself is the identity. */
  lemma {:induction false} ReplaceBySelf(s: string, p: string)
    requires |p| > 0
    ensures ReplaceAll(s, p, p) == s
    decreases |s|
  {
    if s == [] {
    } else if StartsWith(s, p) {
      ReplaceBySelf(s[|p|..], p);
      assert s == s[..|p|] + s[|p|..];
    } else {
      ReplaceBySelf(s[1..], p);
      assert s == [s[0]] + s[1..];
    }
  }

  /** Splitting on `p` and joining with `p` gives the text back. */
  lemma SplitJoinRoundTrip(s: string, p: string)
    requires |p| > 0
    ensures Join(Split(s, p), p) == s
  {
    ReplaceIsJoinOfSplit(s, p, p);
    ReplaceBySelf(s, p);
  }

  /** Text without an occurrence of the pattern is left as it is. */
  lemma {:induction false} ReplaceAbsent(s: string, p: string, r: string)
    requires |p| > 0 && !Contains(s, p)
    ensures ReplaceAll(s, p, r) == s
    decreases |s|
  {
    if s != [] {
      assert !OccursAt(s, p, 0);
      assert StartsWith(s, p) ==> OccursAt(s, p, 0);
      forall i | OccursAt(s[1..], p, i) ensures OccursAt(s, p, i + 1) {
        assert s[1..][i..i + |p|] == s[i + 1..i + 1 + |p|];
      }
      ReplaceAbsent(s[1..], p, r);
      assert s == [s[0]] + s[1..];
    }
  }

  /** When no occurrence of `p` starts before position `k`, the first `k` characters are copied. */
  lemma {:induction false} ReplaceKeepsPrefix(s: string, p: string, r: string, k: nat)
    requires |p| > 0 && k <= |s|
    requires forall i :: 0 <= i < k ==> !OccursAt(s, p, i)
    ensures ReplaceAll(s, p, r) == s[..k] + ReplaceAll(s[k..], p, r)
    decreases k
  {
    if k > 0 {
      assert !OccursAt(s, p, 0);
      assert StartsWith(s, p) ==> OccursAt(s, p, 0);
      forall i | 0 <= i < k - 1 ensures !OccursAt(s[1..], p, i) {
        if OccursAt(s[1..], p, i) {
          assert s[1..][i..i + |p|] == s[i + 1..i + 1 + |p|];
          assert OccursAt(s, p, i + 1);
        }
      }
      ReplaceKeepsPrefix(s[1..], p, r, k - 1);
      assert s[1..][k - 1..] == s[k..];
      assert [s[0]] + s[1..][..k - 1] == s[..k];
    }
  }

  /** A text that is exactly `p` becomes exactly `r`. */
  lemma ReplaceWhole(p: string, r: string)
    requires |p| > 0
    ensures ReplaceAll(p, p, r) == r
  {
    assert StartsWith(p, p);
    assert p[|p|..] == [];
    assert r + [] == r;
  }

  /** A pattern longer than the text does not occur, so `replace` changes nothing. */
  lemma ReplaceLonger(s: string, p: string, r: string)
    requires |p| > |s|
    ensures ReplaceAll(s, p, r) == s
  {
    ReplaceAbsent(s, p, r);
  }

  /** `u` occurs in `a + u + b` right after `a`. */
  lemma OccursAfter(a: string, u: string, b: string)
    ensures OccursAt(a + u + b, u, |a|)
  {
    assert (a + u + b)[|a|..|a| + |u|] == u;
  }

  /** Replacing in `pre + p + post`, when `p` first occurs right after `pre`: `pre` is kept and that occurrence becomes `r`. */
  lemma ReplaceAtFirstOccurrence(pre: string, p: string, post: string, r: string)
    requires |p| > 0
    requires forall i :: 0 <= i < |pre| ==> !OccursAt(pre + p + post, p, i)
    ensures ReplaceAll(pre + p + post, p, r) == pre + r + ReplaceAll(post, p, r)
  {
    var s := pre + p + post;
    ReplaceKeepsPrefix(s, p, r, |pre|);
    assert s[..|pre|] == pre;
    var rest := s[|pre|..];
    assert rest == p + post;
    assert StartsWith(rest, p);
    assert rest[|p|..] == post;
  }

  /**
   * An occurrence of `u` that no occurrence of `p` overlaps is still present
   * after `replace(p, r)`.
   */
  lemma {:induction false} OccurrenceSurvives(s: string, p: string, r: string, u: string, j: nat)
    requires |p| > 0 && |u| > 0 && OccursAt(s, u, j)
    requires forall i :: OccursAt(s, p, i) ==> i + |p| <= j || j + |u| <= i
    ensures Contains(ReplaceAll(s, p, r), u)
    decreases |s|
  {
    if StartsWith(s, p) {
      assert OccursAt(s, p, 0);
      var d := |p|;
      OccursInSuffix(s, u, j, d);
      forall i | OccursAt(s[d..], p, i) ensures i + |p| <= j - d || j - d + |u| <= i {
        OccursFromSuffix(s, p, i, d);
      }
      OccurrenceSurvives(s[d..], p, r, u, j - d);
      ContainsAfter(r, ReplaceAll(s[d..], p, r), u);
    } else if j == 0 {
      assert forall i :: 0 <= i < |u| ==> !OccursAt(s, p, i);
      ReplaceKeepsPrefix(s, p, r, |u|);
      var out := ReplaceAll(s, p, r);
      assert out[0..|u|] == s[..|u|];
      assert OccursAt(out, u, 0);
    } else {
      OccursInSuffix(s, u, j, 1);
      forall i | OccursAt(s[1..], p, i) ensures i + |p| <= j - 1 || j - 1 + |u| <= i {
        OccursFromSuffix(s, p, i, 1);
      }
      OccurrenceSurvives(s[1..], p, r, u, j - 1);
      ContainsAfter([s[0]], ReplaceAll(s[1..], p, r), u);
    }
  }

  /** An occurrence at or after `d` is one of the suffix from `d`. */
  lemma OccursInSuffix(s: string, u: string, j: nat, d: nat)
    requires d <= j && OccursAt(s, u, j)
    ensures OccursAt(s[d..], u, j - d)
  {
    assert s[d..][j - d..j - d + |u|] == s[j..j + |u|];
  }

  /** An occurrence in the suffix from `d` is one of the whole text. */
  lemma OccursFromSuffix(s: string, p: string, i: nat, d: nat)
    requires d <= |s| && OccursAt(s[d..], p, i)
    ensures OccursAt(s, p, i + d)
  {
    assert s[d..][i..i + |p|] == s[i + d..i + d + |p|];
  }

  /** Text put in front keeps every occurrence. */
  lemma ContainsAfter(x: string, t: string, u: string)
    requires Contains(t, u)
    ensures Contains(x + t, u)
  {
    var w :| 0 <= w <= |t| && OccursAt(t, u, w);
    assert (x + t)[|x| + w..|x| + w + |u|] == t[w..w + |u|];
    assert OccursAt(x + t, u, |x| + w);
  }

  /** Splitting on a one-character separator a text that does not contain it gives the text alone. */
  lemma {:induction false} SplitWithoutSeparator(s: string, c: char)
    requires c !in s
    ensures Split(s, [c]) == [s]
    decreases |s|
  {
    if s != [] {
      assert !StartsWith(s, [c]) by { assert s[0] != c; }
      SplitWithoutSeparator(s[1..], c);
      assert [s[0]] + s[1..] == s;
    }
  }

  /** Splitting `a + c + b` on `c`, with `c` not in `a`, cuts right after `a`. */
  lemma {:induction false} SplitAtFirstSeparator(a: string, b: string, c: char)
    requires c !in a
    ensures Split(a + [c] + b, [c]) == [a] + Split(b, [c])
    decreases |a|
  {
    var s := a + [c] + b;
    if a == [] {
      assert StartsWith(s, [c]);
      assert s[1..] == b;
    } else {
      assert s[0] == a[0] && a[0] != c;
      assert !StartsWith(s, [c]);
      assert s[1..] == a[1..] + [c] + b;
      SplitAtFirstSeparator(a[1..], b, c);
      assert [a[0]] + a[1..] == a;
    }
  }

  /** Joining pieces free of a one-character separator and splitting on it again is the identity. */
  lemma {:induction false} SplitOfJoin(parts: seq<string>, c: char)
    requires |parts| >= 1
    requires forall i :: 0 <= i < |parts| ==> c !in parts[i]
    ensures Split(Join(parts, [c]), [c]) == parts
    decreases |parts|
  {
    if |parts| == 1 {
      SplitWithoutSeparator(parts[0], c);
    } else {
      SplitOfJoin(parts[1..], c);
      SplitAtFirstSeparator(parts[0], Join(parts[1..], [c]), c);
      assert [parts[0]] + parts[1..] == parts;
    }
  }

  /** No piece `split` returns contains a one-character separator. */
  lemma {:induction false} SplitPiecesLackSeparator(s: string, c: char)
    ensures forall i :: 0 <= i < |Split(s, [c])| ==> c !in Split(s, [c])[i]
    decreases |s|
  {
    if s != [] {
      SplitPiecesLackSeparator(s[1..], c);
      if !StartsWith(s, [c]) {
        assert s[0] != c by { assert [s[0]] == s[..1]; }
      }
    }
  }

  /** `sep.join(parts)` starts with the first part and ends with the last. */
  lemma {:induction false} JoinEnds(parts: seq<string>, sep: string)
    requires parts != []
    ensures |Join(parts, sep)| >= |parts[0]| && |Join(parts, sep)| >= |parts[|parts| - 1]|
    ensures Join(parts, sep)[..|parts[0]|] == parts[0]
    ensures Join(parts, sep)[|Join(parts, sep)| - |parts[|parts| - 1]|..] == parts[|parts| - 1]
  {
    if |parts| > 1 {
      JoinEnds(parts[1..], sep);
      var rest := Join(parts[1..], sep);
      var j := parts[0] + sep + rest;
      assert j[|j| - |rest|..] == rest;
      var last := parts[|parts| - 1];
      assert last == parts[1..][|parts[1..]| - 1];
      assert j[|j| - |last|..] == rest[|rest| - |last|..];
    }
  }

  /** A join whose first part starts, and whose last part ends, with a non-space character is already stripped. */
  lemma StripJoin(parts: seq<string>, sep: string)
    requires parts != [] && parts[0] != [] && parts[|parts| - 1] != []
    requires !IsSpace(parts[0][0]) && !IsSpace(parts[|parts| - 1][|parts[|parts| - 1]| - 1])
    ensures Strip(Join(parts, sep)) == Join(parts, sep)
  {
    var text := Join(parts, sep);
    var first, last := parts[0], parts[|parts| - 1];
    JoinEnds(parts, sep);
    assert text[0] == first[0] by { assert text[..|first|][0] == first[0]; }
    assert text[|text| - 1] == last[|last| - 1] by {
      assert text[|text| - |last|..][|last| - 1] == last[|last| - 1];
    }
    StripClean(text);
  }

  /** Stripping twice is stripping once. */
  lemma StripIdempotent(s: string)
    ensures Strip(Strip(s)) == Strip(s)
  {
    StripClean(Strip(s));
  }

  /** `strip` only removes characters: one the text lacks, the result lacks too. */
  lemma StripLacks(s: string, c: char)
    requires c !in s
    ensures c !in Strip(s)
  {
    var l := LStrip(s);
    var r := RStrip(l);
    var i := |s| - |l|;
    assert r == s[i..i + |r|];
    forall k | 0 <= k < |r| ensures r[k] != c {
      assert r[k] == s[i + k];
    }
  }

  /** The pieces written one after another: `''.join(parts)`. */
  function Concat(parts: seq<string>): (r: string)
    ensures |parts| == 1 ==> r == parts[0]
  {
    if parts == [] then "" else parts[0] + Concat(parts[1..])
  }

  lemma {:induction false} ConcatAppend(a: seq<string>, b: seq<string>)
    ensures Concat(a + b) == Concat(a) + Concat(b)
  {
    if a == [] {
      assert a + b == b;
    } else {
      assert (a + b)[0] == a[0] && (a + b)[1..] == a[1..] + b;
      ConcatAppend(a[1..], b);
    }
  }

  /** Changing one piece changes the length of the concatenation by the difference. */
  lemma {:induction false} ConcatUpdateLength(parts: seq<string>, k: nat, x: string)
    requires k < |parts|
    ensures |Concat(parts[k := x])| == |Concat(parts)| - |parts[k]| + |x|
  {
    if k > 0 {
      ConcatUpdateLength(parts[1..], k - 1, x);
      assert parts[k := x][1..] == parts[1..][k - 1 := x];
    } else {
      assert parts[k := x][1..] == parts[1..];
    }
  }

  /** A character none of the pieces has is not in their concatenation. */
  lemma {:induction false} ConcatLacks(parts: seq<string>, c: char)
    requires forall i :: 0 <= i < |parts| ==> c !in parts[i]
    ensures c !in Concat(parts)
  {
    if parts != [] {
      ConcatLacks(parts[1..], c);
    }
  }

  /** A lowercase hexadecimal digit, the alphabet of `hexdigest()` and of `'{:x}'` formatting. */
  predicate IsLowerHexDigit(c: char)
  {
    ('0' <= c <= '9') || ('a' <= c <= 'f')
  }

  function HexDigit(d: nat): (c: char)
    requires d < 16
    ensures IsLowerHexDigit(c)
  {
    "0123456789abcdef"[d]
  }

  /** `'{0:0<w>x}'.format(n)` for a value that fits in `w` digits: exactly `w` lowercase hex digits. */
  function HexFixed(n: nat, w: nat): (r: string)
    ensures |r| == w
    ensures forall i :: 0 <= i < |r| ==> IsLowerHexDigit(r[i])
  {
    if w == 0 then "" else HexFixed(n / 16, w - 1) + [HexDigit(n % 16)]
  }

  /** The decimal digit character for `d`. */
  function DigitChar(d: nat): (c: char)
    requires d < 10
    ensures '0' <= c <= '9' && c as int - '0' as int == d
  {
    ('0' as int + d) as char
  }

  /** `str(n)` for a natural number: its decimal digits, most significant first. */
  function NatToDecimal(n: nat): (r: string)
    ensures |r| >= 1
    ensures forall i :: 0 <= i < |r| ==> '0' <= r[i] <= '9'
    decreases n
  {
    if n < 10 then [DigitChar(n)] else NatToDecimal(n / 10) + [DigitChar(n % 10)]
  }

  /** Value of a string of decimal digits. */
  function DecimalValue(s: string): nat
    requires forall i :: 0 <= i < |s| ==> '0' <= s[i] <= '9'
  {
    if s == [] then 0 else 10 * DecimalValue(s[..|s| - 1]) + (s[|s| - 1] as int - '0' as int)
  }

  /** Reading back the decimal digits of `n` gives `n`. */
  lemma {:induction false} DecimalRoundTrip(n: nat)
    ensures DecimalValue(NatToDecimal(n)) == n
    decreases n
  {
    var r := NatToDecimal(n);
    if n >= 10 {
      DecimalRoundTrip(n / 10);
      assert r[..|r| - 1] == NatToDecimal(n / 10);
      assert r[|r| - 1] == DigitChar(n % 10);
    } else {
      assert r == [DigitChar(n)];
    }
  }

  /** `str(i)` for any integer. */
  function IntToDecimal(i: int): (r: string)
    ensures |r| >= 1
    ensures i >= 0 ==> r == NatToDecimal(i)
    ensures i < 0 ==> r == "-" + NatToDecimal(-i)
  {
    if i < 0 then "-" + NatToDecimal(-i) else NatToDecimal(i)
  }
}
