/**
 * `verify-script-version.py`: reads the `MODEL VERSION` hash out of a
 * generated script and compares it with the hash of the current model.
 */
module VersionCheck {
  import opened Wrappers
  import opened PyText
  import opened Json
  import opened JsonHash
  import DeployScript

  /** The literal part of the pattern `MODEL VERSION: ([a-f0-9]{16})`. */
  const Marker: string := "MODEL VERSION: "

  /** The pattern matches at `i`: the marker, then 16 lowercase hex digits (what follows them does not matter). */
  predicate VersionAt(s: string, i: int)
  {
    0 <= i && i + 31 <= |s| && s[i..i + 15] == Marker &&
    forall k :: i + 15 <= k < i + 31 ==> IsLowerHexDigit(s[k])
  }

  /** `re.search` scanning from `i`: the leftmost position at or after `i` where the pattern matches. */
  function FirstVersionFrom(s: string, i: nat): (r: Option<nat>)
    requires i <= |s|
    ensures r.Some? ==> i <= r.value && VersionAt(s, r.value)
    ensures r.Some? ==> forall k :: i <= k < r.value ==> !VersionAt(s, k)
    ensures r.None? ==> forall k :: i <= k <= |s| ==> !VersionAt(s, k)
    decreases |s| - i
  {
    if VersionAt(s, i) then Some(i)
    else if i == |s| then None
    else FirstVersionFrom(s, i + 1)
  }

  /** `match.group(1)` of the first match, or `None` when the pattern does not occur. */
  function FindVersion(s: string): (r: Option<string>)
    ensures r.Some? ==> IsModelHash(r.value) && Contains(s, Marker + r.value)
    ensures r.None? <==> forall k :: 0 <= k <= |s| ==> !VersionAt(s, k)
  {
    match FirstVersionFrom(s, 0)
    case None => None
    case Some(i) =>
      var h := s[i + 15..i + 31];
      assert s[i..i + 31] == Marker + h;
      assert OccursAt(s, Marker + h, i);
      Some(h)
  }

  /** What opening the script path gives. */
  datatype ScriptFile =
    | Missing             // the path does not exist
    | Unreadable          // opening or decoding it raises
    | Present(content: string)

  /**
   * `extract_script_version`: any failure to read yields `None`, like a script
   * without a version line. A version found is a model hash that the script
   * holds right after the marker.
   */
  function ExtractScriptVersion(script: ScriptFile): (r: Option<string>)
    ensures r.Some? ==> script.Present? && IsModelHash(r.value) && Contains(script.content, Marker + r.value)
    ensures r.None? <==> !script.Present? || forall k :: 0 <= k <= |script.content| ==> !VersionAt(script.content, k)
    ensures script.Present? ==> r == FindVersion(script.content)
  {
    match script
    case Present(content) => FindVersion(content)
    case _ => None
  }

  /** `verify_script_version`: true exactly when the script carries a hash and it is the current one. */
  function VerifyScriptVersion(script: ScriptFile, currentHash: string): (ok: bool)
    ensures ok <==> ExtractScriptVersion(script) == Some(currentHash)
  {
    var scriptHash := ExtractScriptVersion(script);
    if scriptHash.None? || scriptHash.value == "" then false
    else scriptHash.value == currentHash
  }

  /** What `load_project_model` finds. */
  datatype Registry =
    | NotFound                // the registry file does not exist
    | Malformed               // `json.load` raises `JSONDecodeError`
    | Loaded(model: Json)

  /**
   * `main` with `sys.exit` folded into its status: 1 for a wrong argument
   * count, a missing script or an unusable registry, otherwise 0 exactly when
   * the script's version is the current one. `argv` includes the program name.
   */
  function ExitCode(argv: seq<string>, script: ScriptFile, registry: Registry, sha: seq<byte> -> Digest): (code: int)
    ensures code == 0 || code == 1
    ensures code == 0 <==>
      |argv| == 2 && !script.Missing? && registry.Loaded? &&
      ExtractScriptVersion(script) == Some(ModelHash(sha, registry.model))
  {
    if |argv| != 2 then 1
    else if script.Missing? then 1
    else match registry
      case NotFound => 1
      case Malformed => 1
      case Loaded(model) =>
        if VerifyScriptVersion(script, ModelHash(sha, model)) then 0 else 1
  }

  // ---- The version the deploy generator writes is the one found ----

  /** No match starts inside a prefix that has no marker. */
  lemma NoMatchInPrefix(s: string, pre: string, k: nat)
    requires |pre| <= |s| && s[..|pre|] == pre && !Contains(pre, Marker)
    requires k + 15 <= |pre|
    ensures !VersionAt(s, k)
  {
    assert s[k..k + 15] == pre[k..k + 15];
    assert !OccursAt(pre, Marker, k);
  }

  /** No match runs across a `#`, which the marker does not contain. */
  lemma NoMatchAcrossHash(s: string, a: nat, k: nat)
    requires a < |s| && s[a] == '#'
    requires k < a < k + 15
    ensures !VersionAt(s, k)
  {
    if k + 15 <= |s| {
      assert s[k..k + 15][a - k] == s[a];
      assert '#' !in Marker;
    }
  }

  /** No match starts where the seventh character is not the `V` of `VERSION`. */
  lemma NoMatchWithoutV(s: string, k: nat)
    requires k + 6 < |s| && s[k + 6] != 'V'
    ensures !VersionAt(s, k)
  {
    if k + 15 <= |s| {
      assert s[k..k + 15][6] == s[k + 6];
    }
  }

  /**
   * No match starts before the marker of a line `# MODEL ...` at `b` that follows
   * marker-free text up to `a`, then a `#` at `a` and no `V` from `a` to `b`.
   */
  lemma NoMatchBeforeLine(s: string, pre: string, a: nat, b: nat)
    requires a == |pre| < b && b + 8 <= |s| && s[..a] == pre && !Contains(pre, Marker)
    requires s[a] == '#' && forall m :: a <= m < b ==> s[m] != 'V'
    requires s[b..b + 8] == "# MODEL "
    ensures forall k: nat :: k < b + 2 ==> !VersionAt(s, k)
  {
    forall k: nat | k < b + 2
      ensures !VersionAt(s, k)
    {
      if k + 15 <= a {
        NoMatchInPrefix(s, pre, k);
      } else if k < a {
        NoMatchAcrossHash(s, a, k);
      } else if k + 6 < b {
        NoMatchWithoutV(s, k);
      } else {
        assert s[b..b + 8][k + 6 - b] == s[k + 6];
        NoMatchWithoutV(s, k);
      }
    }
  }

  /**
   * In `pre + (title + (lineStart + h) + trailer) + rest`, where `lineStart`
   * is `# MODEL VERSION: `, the title starts with `#` and has no `V`, and
   * `pre` has no marker, the first match is the one right after the title.
   */
  lemma FirstMatchAfterTitle(pre: string, title: string, lineStart: string, h: string, trailer: string, rest: string)
    requires !Contains(pre, Marker)
    requires |title| > 0 && title[0] == '#' && 'V' !in title
    requires lineStart == "# " + Marker
    requires IsModelHash(h)
    ensures FindVersion(pre + (title + (lineStart + h) + trailer) + rest) == Some(h)
  {
    HeaderLayout(title, lineStart, h, trailer);
    FoundInEmbeddedHeader(pre, title + (lineStart + h) + trailer, rest, |title|, h);
  }

  /**
   * A header that starts with `#`, has no `V` before position `n` and a line
   * `# MODEL VERSION: <h>` at `n`, placed after marker-free text, yields `h`.
   */
  lemma FoundInEmbeddedHeader(pre: string, header: string, rest: string, n: nat, h: string)
    requires !Contains(pre, Marker) && IsModelHash(h)
    requires 0 < n && n + 33 <= |header| && header[0] == '#'
    requires forall m :: 0 <= m < n ==> header[m] != 'V'
    requires header[n..n + 8] == "# MODEL " && header[n + 2..n + 33] == Marker + h
    ensures FindVersion(pre + header + rest) == Some(h)
  {
    var s := pre + header + rest;
    var a := |pre|;
    EmbeddedSlice(pre, header, rest, n, n + 8);
    EmbeddedSlice(pre, header, rest, n + 2, n + 33);
    assert s[..a] == pre;
    forall m | a <= m < a + n ensures s[m] != 'V' {
      assert s[m] == header[m - a];
    }
    NoMatchBeforeLine(s, pre, a, a + n);
    FirstMatchIs(s, a + n + 2, h);
  }

  /** A slice of the middle part of `pre + x + rest`, read in the whole. */
  lemma EmbeddedSlice(pre: string, x: string, rest: string, i: nat, j: nat)
    requires i <= j <= |x|
    ensures (pre + x + rest)[|pre| + i..|pre| + j] == x[i..j]
  {
    var s := pre + x + rest;
    forall m | 0 <= m < j - i ensures s[|pre| + i..|pre| + j][m] == x[i..j][m] {
      assert s[|pre| + i + m] == x[i + m];
    }
  }

  /** Inside the header: `#` first, no `V` in the title, then `# MODEL VERSION: <h>`. */
  lemma HeaderLayout(title: string, lineStart: string, h: string, trailer: string)
    requires |title| > 0 && title[0] == '#' && 'V' !in title
    requires lineStart == "# " + Marker
    requires IsModelHash(h)
    ensures var header := title + (lineStart + h) + trailer;
      && |title| + 33 <= |header| && header[0] == '#'
      && (forall m :: 0 <= m < |title| ==> header[m] != 'V')
      && header[|title|..|title| + 8] == "# MODEL "
      && header[|title| + 2..|title| + 33] == Marker + h
  {
    var header := title + (lineStart + h) + trailer;
    var n := |title|;
    assert header[..n] == title;
    assert header[n..n + 33] == lineStart + h;
    assert header[n..n + 8] == (lineStart + h)[..8];
    assert header[n + 2..n + 33] == (lineStart + h)[2..];
  }

  /** The hash found is the one of the leftmost match. */
  lemma FirstMatchIs(s: string, j: nat, h: string)
    requires j + 31 <= |s| && IsModelHash(h) && s[j..j + 31] == Marker + h
    requires forall k: nat :: k < j ==> !VersionAt(s, k)
    ensures FindVersion(s) == Some(h)
  {
    assert s[j..j + 15] == (Marker + h)[..15] == Marker;
    forall k | j + 15 <= k < j + 31 ensures IsLowerHexDigit(s[k]) {
      assert s[k] == s[j..j + 31][k - j] == (Marker + h)[k - j] == h[k - j - 15];
    }
    assert VersionAt(s, j);
    var r := FirstVersionFrom(s, 0);
    assert r.Some? && r.value <= j;
    assert r == Some(j);
    assert s[j + 15..j + 31] == (Marker + h)[15..];
  }

  /** A version header placed after text without a marker is found, whatever follows it. */
  lemma FindVersionInHeader(pre: string, modelHash: string, timestamp: string, rest: string)
    requires !Contains(pre, Marker)
    requires IsModelHash(modelHash)
    ensures FindVersion(pre + DeployScript.VersionHeader(modelHash, timestamp) + rest) == Some(modelHash)
  {
    DeployScript.TitleBlockLacksV();
    DeployScript.TitleBlockStartsWithHash();
    assert DeployScript.VersionLineStart == "# " + Marker;
    FirstMatchAfterTitle(pre, DeployScript.TitleBlock, DeployScript.VersionLineStart, modelHash,
      DeployScript.VersionTrailer(timestamp), rest);
  }

  /** The same with nothing around the header. */
  lemma FirstMatchInHeader(title: string, lineStart: string, h: string, trailer: string)
    requires |title| > 0 && title[0] == '#' && 'V' !in title
    requires lineStart == "# " + Marker
    requires IsModelHash(h)
    ensures FindVersion(title + (lineStart + h) + trailer) == Some(h)
  {
    var header := title + (lineStart + h) + trailer;
    FirstMatchAfterTitle([], title, lineStart, h, trailer, []);
    assert [] + header + [] == header;
  }

  /** The version header on its own carries its hash. */
  lemma FindVersionOfHeader(modelHash: string, timestamp: string)
    requires IsModelHash(modelHash)
    ensures FindVersion(DeployScript.VersionHeader(modelHash, timestamp)) == Some(modelHash)
  {
    DeployScript.TitleBlockLacksV();
    DeployScript.TitleBlockStartsWithHash();
    assert DeployScript.VersionLineStart == "# " + Marker;
    FirstMatchInHeader(DeployScript.TitleBlock, DeployScript.VersionLineStart, modelHash, DeployScript.VersionTrailer(timestamp));
  }

  /** Text without a capital `V` holds no version. */
  lemma NoVersionWithoutV(s: string)
    requires 'V' !in s
    ensures FindVersion(s).None?
  {
    forall k: nat | k <= |s|
      ensures !VersionAt(s, k)
    {
      if k + 6 < |s| {
        assert s[k + 6] in s;
        NoMatchWithoutV(s, k);
      }
    }
  }

  /**
   * Stamping a base script whose first occurrence of the header literal
   * follows text without a marker yields a script whose version is the
   * stamped hash.
   */
  lemma StampedScriptCarriesHash(pre: string, header: string, post: string, modelHash: string, timestamp: string)
    requires |header| > 0 && !Contains(pre, Marker)
    requires forall i :: 0 <= i < |pre| ==> !OccursAt(pre + header + post, header, i)
    requires IsModelHash(modelHash)
    ensures FindVersion(DeployScript.Stamp(pre + header + post, header, modelHash, timestamp)) == Some(modelHash)
  {
    DeployScript.StampInsertsHeader(pre, header, post, modelHash, timestamp);
    FindVersionInHeader(pre, modelHash, timestamp,
      ReplaceAll(post, header, DeployScript.VersionHeader(modelHash, timestamp)));
  }

  /** A script stamped with a hash verifies against that hash and against no other. */
  lemma StampedScriptVerifiesOnlyItsHash(pre: string, header: string, post: string, modelHash: string, timestamp: string, currentHash: string)
    requires |header| > 0 && !Contains(pre, Marker)
    requires forall i :: 0 <= i < |pre| ==> !OccursAt(pre + header + post, header, i)
    requires IsModelHash(modelHash)
    ensures VerifyScriptVersion(Present(DeployScript.Stamp(pre + header + post, header, modelHash, timestamp)), currentHash)
      <==> currentHash == modelHash
  {
    StampedScriptCarriesHash(pre, header, post, modelHash, timestamp);
  }

  /**
   * The generator and the verifier agree: a script stamped with the hash of
   * a model passes verification against a registry holding that model, and
   * fails against a registry whose model hashes differently.
   */
  lemma GeneratedScriptPassesForItsModel(
    argv: seq<string>, pre: string, header: string, post: string, timestamp: string,
    sha: seq<byte> -> Digest, model: Json, current: Json)
    requires |argv| == 2
    requires |header| > 0 && !Contains(pre, Marker)
    requires forall i :: 0 <= i < |pre| ==> !OccursAt(pre + header + post, header, i)
    ensures var script := Present(DeployScript.Stamp(pre + header + post, header, ModelHash(sha, model), timestamp));
      ExitCode(argv, script, Loaded(current), sha) == 0 <==> ModelHash(sha, current) == ModelHash(sha, model)
  {
    StampedScriptCarriesHash(pre, header, post, ModelHash(sha, model), timestamp);
  }

  /** Reordering the keys of the model does not make a generated script outdated. */
  lemma ReorderedModelKeepsScriptValid(
    argv: seq<string>, pre: string, header: string, post: string, timestamp: string,
    sha: seq<byte> -> Digest, model: Json, reordered: Json)
    requires |argv| == 2
    requires |header| > 0 && !Contains(pre, Marker)
    requires forall i :: 0 <= i < |pre| ==> !OccursAt(pre + header + post, header, i)
    requires SameContent(model, reordered)
    ensures ExitCode(argv, Present(DeployScript.Stamp(pre + header + post, header, ModelHash(sha, model), timestamp)),
      Loaded(reordered), sha) == 0
  {
    ModelHashIgnoresKeyOrder(sha, model, reordered);
    GeneratedScriptPassesForItsModel(argv, pre, header, post, timestamp, sha, model, reordered);
  }

  /** A base without the header literal is not stamped, so the script keeps whatever version it had. */
  lemma UnstampedScriptKeepsVersion(content: string, header: string, modelHash: string, timestamp: string)
    requires |header| > 0 && !Contains(content, header)
    ensures FindVersion(DeployScript.Stamp(content, header, modelHash, timestamp)) == FindVersion(content)
  {
    DeployScript.StampWithoutHeader(content, header, modelHash, timestamp);
  }

  // ---- The header literal as written ----

  /** As written, the deploy generator leaves the intended header in place, and the result carries no version. */
  lemma AsWrittenScriptHasNoVersion(modelHash: string, timestamp: string, currentHash: string)
    ensures |DeployScript.OldHeaderAsWritten| > 0
    ensures !VerifyScriptVersion(Present(DeployScript.Stamp(DeployScript.OldHeader, DeployScript.OldHeaderAsWritten, modelHash, timestamp)), currentHash)
  {
    DeployScript.AsWrittenMissesIntendedHeader(modelHash, timestamp);
    DeployScript.OldHeaderLacksV();
    NoVersionWithoutV(DeployScript.OldHeader);
  }

  /** With the corrected literal, the same base script is stamped and verifies against its hash. */
  lemma CorrectedScriptVerifies(modelHash: string, timestamp: string)
    requires IsModelHash(modelHash)
    ensures |DeployScript.OldHeader| > 0
    ensures VerifyScriptVersion(Present(DeployScript.Stamp(DeployScript.OldHeader, DeployScript.OldHeader, modelHash, timestamp)), modelHash)
  {
    DeployScript.CorrectedStampsIntendedHeader(modelHash, timestamp);
    FindVersionOfHeader(modelHash, timestamp);
    VerifiesWhenFound(DeployScript.Stamp(DeployScript.OldHeader, DeployScript.OldHeader, modelHash, timestamp), modelHash);
  }

  /** A script whose version line carries a hash verifies against that hash. */
  lemma VerifiesWhenFound(content: string, modelHash: string)
    requires FindVersion(content) == Some(modelHash)
    ensures VerifyScriptVersion(Present(content), modelHash)
  {
  }
}
