/**
 * What the setup and teardown generators share: finding the
 * `{template, variables}` pair at a fixed key path of the project model, and
 * applying the variables to the template one after another, each replacing
 * every `{{name}}` token by the text the generator renders for its value.
 */
module Templates {
  import opened Wrappers
  import opened PyText
  import opened Json

  /** `model['domains']['hackathon']['hackathon_mapping']['gke_turns_10']['gcp_project_setup']`. */
  const ProjectSetupPath: seq<string> := ["domains", "hackathon", "hackathon_mapping", "gke_turns_10", "gcp_project_setup"]

  /** Why a chain of `d[key]` lookups stopped: the key is absent (`KeyError`), or the value indexed is not a dictionary. */
  datatype WalkError = MissingKey(key: string) | NotAnObject(key: string)

  /** A chain of `d[key]` lookups, stopping at the first one that fails. */
  function Walk(j: Json, path: seq<string>): (r: Result<Json, WalkError>)
    ensures r.Ok? <==> Lookup(j, path).Some?
    ensures r.Ok? ==> Lookup(j, path) == Some(r.value)
    ensures path != [] && !j.JObj? ==> r == Err(NotAnObject(path[0]))
    ensures r.Err? ==> r.error.key in path
    decreases |path|
  {
    if path == [] then Ok(j)
    else match j
      case JObj(fs) =>
        (match Get(fs, path[0])
          case None => Err(MissingKey(path[0]))
          case Some(c) =>
            var r := Walk(c, path[1..]);
            assert r.Err? ==> r.error.key in path by { assert path == [path[0]] + path[1..]; }
            r)
      case _ => Err(NotAnObject(path[0]))
  }

  /**
   * A failed template lookup. On a missing key the generators report the key
   * and `list(model.keys())` when the model has `domains`, or "No domains"
   * (`available == None`); a step into a value that is not a dictionary raises
   * uncaught.
   */
  datatype LocateError =
    | KeyNotFound(key: string, available: Option<seq<string>>)
    | NotADictionary(key: string)

  /** `extract_*_template`: the value under `gcp_project_setup[leaf]`. */
  function Locate(model: Json, leaf: string): (r: Result<Json, LocateError>)
    ensures r.Ok? <==> Lookup(model, ProjectSetupPath + [leaf]).Some?
    ensures r.Ok? ==> Lookup(model, ProjectSetupPath + [leaf]) == Some(r.value)
    ensures r.Err? && r.error.KeyNotFound? ==>
      && model.JObj?
      && r.error.key in ProjectSetupPath + [leaf]
      && (r.error.available.Some? <==> "domains" in Keys(model.fields))
      && (r.error.available.Some? ==> r.error.available.value == Keys(model.fields))
  {
    match Walk(model, ProjectSetupPath + [leaf])
    case Ok(t) => Ok(t)
    case Err(NotAnObject(k)) => Err(NotADictionary(k))
    case Err(MissingKey(k)) =>
      var keys := Keys(model.fields);
      Err(KeyNotFound(k, if "domains" in keys then Some(keys) else None))
  }

  /** The placeholder `f"{{{{{name}}}}}"`, i.e. `{{name}}`. */
  function Token(name: string): (t: string)
    ensures |t| == |name| + 4 && t[..2] == "{{" && t[2..|name| + 2] == name && t[|name| + 2..] == "}}"
  {
    "{{" + name + "}}"
  }

  /** Why `generate_script` raises. */
  datatype RenderError =
    | TemplateDataNotObject       // `template_data[...]` on a value that is not a dictionary
    | MissingField(field: string) // `template_data['template']` or `['variables']` absent
    | VariablesNotObject          // `variables.items()` on a value that is not a dictionary
    | TemplateNotText             // `template.replace` on a value that is not a string
    | ArrayValueNotText(name: string)  // `var_value.strip()` on an array variable that is not a string
    | UnhashableApi(name: string) // `api_comments.get(api)` on a list or dictionary element

  /** The `template` string and the `variables` entries of a template definition, in order. */
  datatype TemplateData = TemplateData(template: string, variables: seq<Field>)

  function Unpack(td: Json): (r: Result<TemplateData, RenderError>)
    ensures r.Ok? <==>
      && td.JObj?
      && Get(td.fields, "template").Some? && Get(td.fields, "template").value.JStr?
      && Get(td.fields, "variables").Some? && Get(td.fields, "variables").value.JObj?
    ensures r.Ok? ==>
      && r.value.template == Get(td.fields, "template").value.s
      && r.value.variables == Get(td.fields, "variables").value.fields
  {
    match td
    case JObj(fs) =>
      (match (Get(fs, "template"), Get(fs, "variables"))
        case (None, _) => Err(MissingField("template"))
        case (_, None) => Err(MissingField("variables"))
        case (Some(t), Some(v)) =>
          if !v.JObj? then Err(VariablesNotObject)
          else if !t.JStr? then Err(TemplateNotText)
          else Ok(TemplateData(t.s, v.fields)))
    case _ => Err(TemplateDataNotObject)
  }

  /**
   * The loop over `variables.items()`: each variable in turn replaces every
   * `{{name}}` in the text produced so far by the text `render` gives for it.
   * The first variable `render` rejects stops the loop.
   */
  function Fill(content: string, vars: seq<Field>, render: Field -> Result<string, RenderError>): Result<string, RenderError>
    decreases vars
  {
    if vars == [] then Ok(content)
    else match render(vars[0])
      case Err(e) => Err(e)
      case Ok(text) => Fill(ReplaceAll(content, Token(vars[0].key), text), vars[1..], render)
  }

  /** One step of the fold at position `i`: the variable's rendering, then every `{{name}}` replaced by it. */
  lemma FillStep(content: string, vars: seq<Field>, i: nat, render: Field -> Result<string, RenderError>)
    requires i < |vars|
    ensures render(vars[i]).Err? ==> Fill(content, vars[i..], render) == Err(render(vars[i]).error)
    ensures render(vars[i]).Ok? ==>
      Fill(content, vars[i..], render) == Fill(ReplaceAll(content, Token(vars[i].key), render(vars[i]).value), vars[i + 1..], render)
  {
    assert vars[i..][0] == vars[i] && vars[i..][1..] == vars[i + 1..];
  }

  /** `generate_script(template_data)` for the generator whose value rendering is `render`. */
  function Generate(td: Json, render: Field -> Result<string, RenderError>): Result<string, RenderError>
  {
    match Unpack(td)
    case Err(e) => Err(e)
    case Ok(data) => Fill(data.template, data.variables, render)
  }

  /** The left fold splits at any point: the variables before it, then the ones after. */
  lemma {:induction false} FillSplits(content: string, a: seq<Field>, b: seq<Field>, render: Field -> Result<string, RenderError>)
    ensures Fill(content, a + b, render) ==
      match Fill(content, a, render)
      case Err(e) => Err(e)
      case Ok(mid) => Fill(mid, b, render)
    decreases a
  {
    if a == [] {
      assert a + b == b;
    } else {
      assert (a + b)[0] == a[0] && (a + b)[1..] == a[1..] + b;
      if render(a[0]).Ok? {
        FillSplits(ReplaceAll(content, Token(a[0].key), render(a[0]).value), a[1..], b, render);
      }
    }
  }

  /** One variable: every non-overlapping `{{name}}`, left to right, becomes the rendered text. */
  lemma OneVariable(content: string, v: Field, render: Field -> Result<string, RenderError>)
    requires render(v).Ok?
    ensures Fill(content, [v], render) == Ok(Join(Split(content, Token(v.key)), render(v).value))
  {
    ReplaceIsJoinOfSplit(content, Token(v.key), render(v).value);
  }

  /** A template mentioning none of the variables' tokens comes back unchanged. */
  lemma {:induction false} FillWithoutTokens(content: string, vars: seq<Field>, render: Field -> Result<string, RenderError>)
    requires forall i :: 0 <= i < |vars| ==> !Contains(content, Token(vars[i].key))
    requires forall i :: 0 <= i < |vars| ==> render(vars[i]).Ok?
    ensures Fill(content, vars, render) == Ok(content)
    decreases vars
  {
    if vars != [] {
      ReplaceAbsent(content, Token(vars[0].key), render(vars[0]).value);
      FillWithoutTokens(content, vars[1..], render);
    }
  }

  /** Names made of anything but curly braces, as in every template of the model. */
  predicate BraceFree(name: string)
  {
    '{' !in name && '}' !in name
  }

  /** Inside a token of a brace-free name, `{` appears exactly at indices 0 and 1. */
  lemma TokenOpenBraces(name: string, k: nat)
    requires BraceFree(name) && k < |Token(name)|
    ensures Token(name)[k] == '{' <==> k < 2
  {
    var t := Token(name);
    if 2 <= k < |name| + 2 { assert t[k] == t[2..|name| + 2][k - 2] == name[k - 2]; }
    else if k >= |name| + 2 { assert t[k] == t[|name| + 2..][k - |name| - 2]; }
  }

  /** Inside a token of a brace-free name, the first `}` is at index `|name| + 2`. */
  lemma TokenCloseBrace(name: string, k: nat)
    requires BraceFree(name) && k <= |name| + 2
    ensures Token(name)[k] == '}' <==> k == |name| + 2
  {
    var t := Token(name);
    if 2 <= k < |name| + 2 { assert t[k] == t[2..|name| + 2][k - 2] == name[k - 2]; }
    else if k == |name| + 2 { assert t[k] == t[|name| + 2..][0]; }
  }

  /** Tokens of two different brace-free names never overlap in any text. */
  lemma TokensDisjoint(s: string, x: string, n: string, j: nat, i: nat)
    requires BraceFree(x) && BraceFree(n) && x != n
    requires OccursAt(s, Token(x), j) && OccursAt(s, Token(n), i)
    ensures i + |Token(n)| <= j || j + |Token(x)| <= i
  {
    if i < j {
      NoTokenStartsInside(s, n, x, i, j);
    } else if j < i {
      NoTokenStartsInside(s, x, n, j, i);
    } else {
      SameStartSameName(s, x, n, j);
    }
  }

  /** A later token of a brace-free name starts only after an earlier one has ended. */
  lemma NoTokenStartsInside(s: string, x: string, n: string, j: nat, i: nat)
    requires BraceFree(x) && BraceFree(n) && j < i
    requires OccursAt(s, Token(x), j) && OccursAt(s, Token(n), i)
    ensures j + |Token(x)| <= i
  {
    if i < j + |Token(x)| {
      OccursAtChar(s, Token(n), i, 0);
      OccursAtChar(s, Token(x), j, i - j);
      TokenOpenBraces(n, 0);
      TokenOpenBraces(x, i - j);
      OccursAtChar(s, Token(n), i, 1);
      OccursAtChar(s, Token(x), j, i - j + 1);
      TokenOpenBraces(n, 1);
      TokenOpenBraces(x, i - j + 1);
    }
  }

  /** Two tokens of brace-free names starting at the same place name the same variable. */
  lemma SameStartSameName(s: string, x: string, n: string, j: nat)
    requires BraceFree(x) && BraceFree(n)
    requires OccursAt(s, Token(x), j) && OccursAt(s, Token(n), j)
    ensures x == n
  {
    var tx, tn := Token(x), Token(n);
    if |x| < |n| {
      OccursAtChar(s, tx, j, |x| + 2);
      OccursAtChar(s, tn, j, |x| + 2);
      TokenCloseBrace(x, |x| + 2);
    } else if |n| < |x| {
      OccursAtChar(s, tn, j, |n| + 2);
      OccursAtChar(s, tx, j, |n| + 2);
      TokenCloseBrace(n, |n| + 2);
    } else {
      assert tx == s[j..j + |tx|] == tn;
      assert x == tx[2..|x| + 2] == tn[2..|n| + 2] == n;
    }
  }

  /**
   * A placeholder `{{x}}` that names no variable survives the whole
   * substitution verbatim (names brace-free).
   */
  lemma {:induction false} UnknownPlaceholderSurvives(content: string, vars: seq<Field>, render: Field -> Result<string, RenderError>, x: string)
    requires BraceFree(x) && forall i :: 0 <= i < |vars| ==> BraceFree(vars[i].key) && vars[i].key != x
    requires Contains(content, Token(x))
    requires Fill(content, vars, render).Ok?
    ensures Contains(Fill(content, vars, render).value, Token(x))
    decreases vars
  {
    if vars != [] {
      var n := vars[0].key;
      var j :| 0 <= j <= |content| && OccursAt(content, Token(x), j);
      forall i | OccursAt(content, Token(n), i) ensures i + |Token(n)| <= j || j + |Token(x)| <= i {
        TokensDisjoint(content, x, n, j, i);
      }
      OccurrenceSurvives(content, Token(n), render(vars[0]).value, Token(x), j);
      UnknownPlaceholderSurvives(ReplaceAll(content, Token(n), render(vars[0]).value), vars[1..], render, x);
    }
  }
}
