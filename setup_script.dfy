/**
 * `generate-setup-script.py`: renders `setup-gcp-project.sh` from the
 * `script_template` definition of the project model, and compares a
 * generated script with a reference copy line by line.
 */
module SetupScript {
  import opened Wrappers
  import opened PyText
  import opened Json
  import opened Templates

  /** `extract_script_template`: the template definition at the fixed path of the model. */
  function ExtractScriptTemplate(model: Json): (r: Result<Json, LocateError>)
    ensures r.Ok? <==>
      Lookup(model, ["domains", "hackathon", "hackathon_mapping", "gke_turns_10", "gcp_project_setup", "script_template"]).Some?
    ensures r.Ok? ==>
      Lookup(model, ["domains", "hackathon", "hackathon_mapping", "gke_turns_10", "gcp_project_setup", "script_template"]) == Some(r.value)
    ensures r.Err? && r.error.KeyNotFound? ==>
      && model.JObj?
      && (r.error.available.Some? <==> "domains" in Keys(model.fields))
      && (r.error.available.Some? ==> r.error.available.value == Keys(model.fields))
  {
    assert ProjectSetupPath + ["script_template"] ==
      ["domains", "hackathon", "hackathon_mapping", "gke_turns_10", "gcp_project_setup", "script_template"];
    Locate(model, "script_template")
  }

  // ---- Array variables: `required_apis` and `excluded_apis` ----

  predicate IsArrayVariable(name: string)
  {
    name == "required_apis" || name == "excluded_apis"
  }

  /** An API name as the array rendering keeps it: non-empty, already stripped, one line. */
  predicate CleanEntry(x: string)
  {
    x != "" && Strip(x) == x && '\n' !in x
  }

  /** What the comprehension keeps of one piece: the stripped piece, unless it is empty. */
  function Kept(part: string): (r: seq<string>)
    ensures |r| <= 1
  {
    var x := Strip(part);
    if x != "" then [x] else []
  }

  /** `[api.strip() for api in parts if api.strip()]`. */
  function CleanEntries(parts: seq<string>): (r: seq<string>)
    ensures |r| <= |parts|
  {
    if parts == [] then [] else Kept(parts[0]) + CleanEntries(parts[1..])
  }

  /** The comprehension keeps order: it works piece by piece. */
  lemma {:induction false} CleanEntriesAppend(a: seq<string>, b: seq<string>)
    ensures CleanEntries(a + b) == CleanEntries(a) + CleanEntries(b)
  {
    if a == [] {
      assert a + b == b;
    } else {
      assert (a + b)[0] == a[0] && (a + b)[1..] == a[1..] + b;
      CleanEntriesAppend(a[1..], b);
    }
  }

  /** Pieces that are already clean pass through unchanged. */
  lemma {:induction false} CleanEntriesOfClean(xs: seq<string>)
    requires forall i :: 0 <= i < |xs| ==> CleanEntry(xs[i])
    ensures CleanEntries(xs) == xs
  {
    if xs != [] {
      CleanEntriesOfClean(xs[1..]);
      assert [xs[0]] + xs[1..] == xs;
    }
  }

  /** Each kept piece is stripped and non-empty, and lacks whatever character every piece lacks. */
  lemma {:induction false} CleanEntriesAreClean(parts: seq<string>)
    requires forall i :: 0 <= i < |parts| ==> '\n' !in parts[i]
    ensures forall i :: 0 <= i < |CleanEntries(parts)| ==> CleanEntry(CleanEntries(parts)[i])
  {
    if parts != [] {
      CleanEntriesAreClean(parts[1..]);
      StripIdempotent(parts[0]);
      StripLacks(parts[0], '\n');
    }
  }

  /** `[api.strip() for api in value.strip().split('\n') if api.strip()]`. */
  function ApiList(value: string): (r: seq<string>)
    ensures forall i :: 0 <= i < |r| ==> CleanEntry(r[i])
  {
    var parts := Split(Strip(value), "\n");
    SplitPiecesLackSeparator(Strip(value), '\n');
    CleanEntriesAreClean(parts);
    CleanEntries(parts)
  }

  /** Names joined by newlines, the first and the last of them clean, neither start nor end with whitespace. */
  lemma JoinedCleanIsStripped(xs: seq<string>)
    requires xs != [] ==> CleanEntry(xs[0]) && CleanEntry(xs[|xs| - 1])
    ensures Strip(Join(xs, "\n")) == Join(xs, "\n")
  {
    if xs == [] {
      StripClean("");
    } else {
      StripJoin(xs, "\n");
    }
  }

  /**
   * The unfolding step of `ApiList` (the comprehension over the stripped
   * lines), used by `ApiListRoundTrip`; it states nothing beyond the definition.
   */
  lemma ApiListUnfold(value: string)
    ensures ApiList(value) == CleanEntries(Split(Strip(value), "\n"))
  {
  }

  /** Writing clean API names one per line and reading them back gives the same list, in order. */
  lemma ApiListRoundTrip(xs: seq<string>)
    requires forall i :: 0 <= i < |xs| ==> CleanEntry(xs[i])
    ensures ApiList(Join(xs, "\n")) == xs
  {
    var text := Join(xs, "\n");
    if xs != [] {
      assert CleanEntry(xs[0]) && CleanEntry(xs[|xs| - 1]);
    }
    JoinedCleanIsStripped(xs);
    if xs == [] {
      assert Split("", "\n") == [""];
      assert Kept("") == [];
    } else {
      SplitOfJoin(xs, '\n');
      CleanEntriesOfClean(xs);
    }
    ApiListUnfold(text);
  }

  /** One line of the rendered setup array: four spaces and the quoted name. */
  function Quoted(api: string): string
  {
    "    \"" + api + "\""
  }

  lemma QuotedLacksNewline(api: string)
    requires '\n' !in api
    ensures '\n' !in Quoted(api)
  {
    var pre, post := "    \"", "\"";
    assert '\n' !in pre && '\n' !in post;
    assert Quoted(api) == pre + api + post;
  }

  function QuotedLines(apis: seq<string>): (r: seq<string>)
    ensures |r| == |apis| && forall i :: 0 <= i < |apis| ==> r[i] == Quoted(apis[i])
  {
    if apis == [] then [] else [Quoted(apis[0])] + QuotedLines(apis[1..])
  }

  /** `'    "' + '"\n    "'.join(api_list) + '"'`. */
  function SetupArray(apis: seq<string>): string
  {
    "    \"" + Join(apis, "\"\n    \"") + "\""
  }

  /**
   * The rendered array is one quoted, four-space-indented line per API in
   * input order, with no trailing newline; an empty list renders as `    ""`.
   */
  lemma {:induction false} SetupArrayLines(apis: seq<string>)
    ensures apis == [] ==> SetupArray(apis) == "    \"\""
    ensures apis != [] ==> SetupArray(apis) == Join(QuotedLines(apis), "\n")
  {
    if |apis| > 1 {
      SetupArrayLines(apis[1..]);
      var rest := Join(apis[1..], "\"\n    \"");
      calc {
        SetupArray(apis);
        "    \"" + (apis[0] + "\"\n    \"" + rest) + "\"";
        Quoted(apis[0]) + "\n" + ("    \"" + rest + "\"");
        Quoted(apis[0]) + "\n" + Join(QuotedLines(apis[1..]), "\n");
        { JoinCons(Quoted(apis[0]), QuotedLines(apis[1..]), "\n");
          assert [Quoted(apis[0])] + QuotedLines(apis[1..]) == QuotedLines(apis); }
        Join(QuotedLines(apis), "\n");
      }
    }
  }

  /** Read back line by line, a rendered non-empty array gives exactly one line per API. */
  lemma SetupArraySplits(apis: seq<string>)
    requires apis != [] && forall i :: 0 <= i < |apis| ==> '\n' !in apis[i]
    ensures Split(SetupArray(apis), "\n") == QuotedLines(apis)
  {
    SetupArrayLines(apis);
    var q := QuotedLines(apis);
    forall i | 0 <= i < |q| ensures '\n' !in q[i] {
      QuotedLacksNewline(apis[i]);
    }
    SplitOfJoin(q, '\n');
  }

  /** The text `generate_script` substitutes for one variable of the setup template. */
  function SetupRender(v: Field): (r: Result<string, RenderError>)
    ensures IsArrayVariable(v.key) && v.val.JStr? ==> r == Ok(SetupArray(ApiList(v.val.s)))
    ensures IsArrayVariable(v.key) && !v.val.JStr? ==> r == Err(ArrayValueNotText(v.key))
    ensures !IsArrayVariable(v.key) ==> r == Ok(PyStr(v.val))
  {
    if IsArrayVariable(v.key) then
      if v.val.JStr? then Ok(SetupArray(ApiList(v.val.s))) else Err(ArrayValueNotText(v.key))
    else Ok(PyStr(v.val))
  }

  /**
   * An array variable renders exactly when its value is a string. Read back
   * line by line, the rendering is one quoted line per API of the normalised
   * list; a list without APIs renders as the single line `    ""`.
   */
  lemma SetupArrayRendering(v: Field)
    requires IsArrayVariable(v.key)
    ensures SetupRender(v).Ok? <==> v.val.JStr?
    ensures v.val.JStr? && ApiList(v.val.s) == [] ==> SetupRender(v) == Ok("    \"\"")
    ensures v.val.JStr? && ApiList(v.val.s) != [] ==>
      Split(SetupRender(v).value, "\n") == QuotedLines(ApiList(v.val.s))
  {
    if v.val.JStr? {
      var apis := ApiList(v.val.s);
      SetupArrayLines(apis);
      if apis != [] {
        assert forall i :: 0 <= i < |apis| ==> CleanEntry(apis[i]);
        SetupArraySplits(apis);
      }
    }
  }

  /** `generate_script(template_data)`: the variables applied in order to the template. */
  method GenerateScript(td: Json) returns (r: Result<string, RenderError>)
    ensures r == Generate(td, SetupRender)
  {
    var data := Unpack(td);
    if data.Err? {
      return Err(data.error);
    }
    var vars := data.value.variables;
    var content := data.value.template;
    assert Generate(td, SetupRender) == Fill(content, vars, SetupRender);
    var i := 0;
    while i < |vars|
      invariant 0 <= i <= |vars|
      invariant Fill(content, vars[i..], SetupRender) == Generate(td, SetupRender)
    {
      var name, value := vars[i].key, vars[i].val;
      var placeholder := Token(name);
      FillStep(content, vars, i, SetupRender);
      if name == "required_apis" || name == "excluded_apis" {
        if !value.JStr? {
          return Err(ArrayValueNotText(name));
        }
        var apiList := ApiList(value.s);
        var bashArray := SetupArray(apiList);
        content := ReplaceAll(content, placeholder, bashArray);
      } else {
        content := ReplaceAll(content, placeholder, PyStr(value));
      }
      i := i + 1;
    }
    assert vars[i..] == [];
    return Ok(content);
  }

  /** Every `{{name}}` of a plain variable becomes `str(value)`. */
  lemma PlainVariableReplaced(content: string, v: Field)
    requires !IsArrayVariable(v.key)
    ensures Fill(content, [v], SetupRender) == Ok(Join(Split(content, Token(v.key)), PyStr(v.val)))
  {
    OneVariable(content, v, SetupRender);
  }

  /** A placeholder naming no variable survives generation verbatim. */
  lemma GenerateKeepsUnknownPlaceholder(td: Json, x: string)
    requires Unpack(td).Ok?
    requires BraceFree(x) && Contains(Unpack(td).value.template, Token(x))
    requires forall i :: 0 <= i < |Unpack(td).value.variables| ==>
      BraceFree(Unpack(td).value.variables[i].key) && Unpack(td).value.variables[i].key != x
    requires Generate(td, SetupRender).Ok?
    ensures Contains(Generate(td, SetupRender).value, Token(x))
  {
    UnknownPlaceholderSurvives(Unpack(td).value.template, Unpack(td).value.variables, SetupRender, x);
  }

  // ---- verify_script_generation ----

  /** The first line, counted from 1, where the two scripts differ. */
  datatype LineDiff = LineDiff(line: nat, original: string, generated: string)

  /** What the check reports: a file could not be read, the scripts match, or how they differ. */
  datatype Comparison =
    | Unreadable
    | Identical
    | Differs(originalLines: nat, generatedLines: nat, firstDifference: Option<LineDiff>)

  /** The two scripts are the same once trailing whitespace is removed from the end of each. */
  predicate SameScript(original: string, generated: string)
  {
    RStrip(original) == RStrip(generated)
  }

  /** Whitespace or blank lines added at the end of either file never change the verdict. */
  lemma SameScriptIgnoresTrailingSpace(original: string, generated: string, ws1: string, ws2: string)
    requires AllSpace(ws1) && AllSpace(ws2)
    ensures SameScript(original + ws1, generated + ws2) <==> SameScript(original, generated)
  {
    RStripIgnoresTrailingSpace(original, ws1);
    RStripIgnoresTrailingSpace(generated, ws2);
  }

  /** The comparison loop: the first line (counted from 1) where the two lists differ, if any. */
  method FirstDifference(ol: seq<string>, gl: seq<string>) returns (found: Option<LineDiff>)
    ensures found.Some? ==>
      var d := found.value;
      && 1 <= d.line <= |ol| && d.line <= |gl|
      && d.original == ol[d.line - 1] && d.generated == gl[d.line - 1] && d.original != d.generated
      && forall k :: 0 <= k < d.line - 1 ==> ol[k] == gl[k]
    ensures found.None? ==> forall k :: 0 <= k < |ol| && k < |gl| ==> ol[k] == gl[k]
  {
    var k := 0;
    while k < |ol| && k < |gl|
      invariant 0 <= k <= |ol| && k <= |gl|
      invariant forall m :: 0 <= m < k ==> ol[m] == gl[m]
    {
      if ol[k] != gl[k] {
        return Some(LineDiff(k + 1, ol[k], gl[k]));
      }
      k := k + 1;
    }
    return None;
  }

  /**
   * `verify_script_generation`, with the two files' contents given (`None`
   * for a file that cannot be read). The result is true exactly when
   * `Identical` is returned.
   */
  method VerifyScriptGeneration(original: Option<string>, generated: Option<string>) returns (c: Comparison)
    ensures c.Unreadable? <==> original.None? || generated.None?
    ensures c.Identical? <==> original.Some? && generated.Some? && SameScript(original.value, generated.value)
    ensures c.Differs? ==>
      var ol, gl := Split(RStrip(original.value), "\n"), Split(RStrip(generated.value), "\n");
      && c.originalLines == |ol| && c.generatedLines == |gl|
      && (c.firstDifference.Some? ==>
            var d := c.firstDifference.value;
            && 1 <= d.line <= |ol| && d.line <= |gl|
            && d.original == ol[d.line - 1] && d.generated == gl[d.line - 1] && d.original != d.generated
            && forall k :: 0 <= k < d.line - 1 ==> ol[k] == gl[k])
      && (c.firstDifference.None? ==>
            && (forall k :: 0 <= k < |ol| && k < |gl| ==> ol[k] == gl[k])
            && |ol| != |gl|)
  {
    if original.None? || generated.None? {
      return Unreadable;
    }
    var originalClean := RStrip(original.value);
    var generatedClean := RStrip(generated.value);
    if originalClean == generatedClean {
      return Identical;
    }
    var ol := Split(originalClean, "\n");
    var gl := Split(generatedClean, "\n");
    var found := FirstDifference(ol, gl);
    if found.None? {
      assert |ol| == |gl| ==> ol == gl;
      SplitJoinRoundTrip(originalClean, "\n");
      SplitJoinRoundTrip(generatedClean, "\n");
    }
    return Differs(|ol|, |gl|, found);
  }
}
