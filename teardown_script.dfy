/**
 * `generate-teardown-script.py`: renders the teardown script from the
 * `teardown_template` definition of the project model. Array variables may be
 * JSON lists or newline-separated strings, and known API names get a comment
 * from a fixed table.
 */
module TeardownScript {
  import opened Wrappers
  import opened PyText
  import opened Json
  import opened Templates
  import SetupScript

  /** `extract_teardown_template`: the template definition at the fixed path of the model. */
  function ExtractTeardownTemplate(model: Json): (r: Result<Json, LocateError>)
    ensures r.Ok? <==>
      Lookup(model, ["domains", "hackathon", "hackathon_mapping", "gke_turns_10", "gcp_project_setup", "teardown_template"]).Some?
    ensures r.Ok? ==>
      Lookup(model, ["domains", "hackathon", "hackathon_mapping", "gke_turns_10", "gcp_project_setup", "teardown_template"]) == Some(r.value)
    ensures r.Err? && r.error.KeyNotFound? ==>
      && model.JObj?
      && (r.error.available.Some? <==> "domains" in Keys(model.fields))
      && (r.error.available.Some? ==> r.error.available.value == Keys(model.fields))
  {
    assert ProjectSetupPath + ["teardown_template"] ==
      ["domains", "hackathon", "hackathon_mapping", "gke_turns_10", "gcp_project_setup", "teardown_template"];
    Locate(model, "teardown_template")
  }

  /** The comments written beside the APIs of `required_apis`. */
  const RequiredApiComments: map<string, string> := map[
    "container.googleapis.com" := "GKE clusters",
    "compute.googleapis.com" := "VM instances, networking",
    "monitoring.googleapis.com" := "Metrics, alerts, dashboards",
    "logging.googleapis.com" := "Log aggregation",
    "cloudresourcemanager.googleapis.com" := "Project management",
    "iam.googleapis.com" := "Identity and access management"
  ]

  /** The comments written beside the APIs of `excluded_apis`. */
  const ExcludedApiComments: map<string, string> := map[
    "cloudfunctions.googleapis.com" := "Not using serverless",
    "run.googleapis.com" := "Not using Cloud Run",
    "firestore.googleapis.com" := "Not using Firestore",
    "pubsub.googleapis.com" := "Not using messaging",
    "storage.googleapis.com" := "Not using Cloud Storage"
  ]

  /** Each array variable has its own table; every comment in it is non-empty and fits on one line. */
  function CommentTable(name: string): (t: map<string, string>)
    requires SetupScript.IsArrayVariable(name)
    ensures forall api :: api in t ==> t[api] != "" && '\n' !in t[api]
  {
    RequiredCommentsOneLine();
    ExcludedCommentsOneLine();
    if name == "required_apis" then RequiredApiComments else ExcludedApiComments
  }

  /** Every comment of `RequiredApiComments` is non-empty and holds no line break. */
  lemma RequiredCommentsOneLine()
    ensures forall api :: api in RequiredApiComments ==> RequiredApiComments[api] != "" && '\n' !in RequiredApiComments[api]
  {
    InfrastructureCommentsOneLine();
    ManagementCommentsOneLine();
  }

  /** The first three comments of `RequiredApiComments` hold no line break. */
  lemma InfrastructureCommentsOneLine()
    ensures '\n' !in "GKE clusters"
    ensures '\n' !in "VM instances, networking"
    ensures '\n' !in "Metrics, alerts, dashboards"
  {
  }

  /** The last three comments of `RequiredApiComments` hold no line break. */
  lemma ManagementCommentsOneLine()
    ensures '\n' !in "Log aggregation"
    ensures '\n' !in "Project management"
    ensures '\n' !in "Identity and access management"
  {
  }

  /** Every comment of `ExcludedApiComments` is non-empty and holds no line break. */
  lemma ExcludedCommentsOneLine()
    ensures forall api :: api in ExcludedApiComments ==> ExcludedApiComments[api] != "" && '\n' !in ExcludedApiComments[api]
  {
    UnusedServiceCommentsOneLine();
  }

  /** The comments of `ExcludedApiComments` hold no line break. */
  lemma UnusedServiceCommentsOneLine()
    ensures '\n' !in "Not using serverless"
    ensures '\n' !in "Not using Cloud Run"
    ensures '\n' !in "Not using Firestore"
    ensures '\n' !in "Not using messaging"
    ensures '\n' !in "Not using Cloud Storage"
  {
  }

  /** The APIs of a string, as the JSON strings a list would hold; all of them can be looked up. */
  function AsJsonStrings(xs: seq<string>): (r: seq<Json>)
    ensures |r| == |xs| && forall i :: 0 <= i < |xs| ==> r[i] == JStr(xs[i])
    ensures AllHashable(r)
  {
    if xs == [] then [] else [JStr(xs[0])] + AsJsonStrings(xs[1..])
  }

  /** `api_list`: a list is used as it is; a string goes through the same clean-up as in the setup generator. */
  function ApiItems(name: string, value: Json): (r: Result<seq<Json>, RenderError>)
    ensures value.JArr? ==> r == Ok(value.items)
    ensures value.JStr? ==> r == Ok(AsJsonStrings(SetupScript.ApiList(value.s)))
    ensures !value.JArr? && !value.JStr? ==> r == Err(ArrayValueNotText(name))
  {
    match value
    case JArr(xs) => Ok(xs)
    case JStr(s) => Ok(AsJsonStrings(SetupScript.ApiList(s)))
    case _ => Err(ArrayValueNotText(name))
  }

  /** A value `dict.get` accepts as a key: lists and dictionaries raise `TypeError`. */
  predicate Hashable(api: Json)
  {
    !api.JArr? && !api.JObj?
  }

  /** Every API of the list can be looked up in the comment table. */
  predicate AllHashable(apis: seq<Json>)
  {
    forall i :: 0 <= i < |apis| ==> Hashable(apis[i])
  }

  /** The comment for an API, `""` when its table has none. */
  function Comment(table: map<string, string>, api: Json): string
  {
    if api.JStr? && api.s in table then table[api.s] else ""
  }

  /**
   * One line of the teardown array: the quoted API, then the comment after
   * exactly eleven spaces when there is one. The line always starts with the
   * four-space indentation and the opening quote, holds the API right after
   * it, and is a single line when the API and its comment are.
   */
  function ArrayLine(table: map<string, string>, api: Json): (line: string)
    ensures Comment(table, api) != "" ==>
      line == SetupScript.Quoted(PyStr(api)) + "           # " + Comment(table, api)
    ensures Comment(table, api) == "" ==> line == SetupScript.Quoted(PyStr(api))
    ensures |line| >= |PyStr(api)| + 6 && line[..5] == "    \"" && line[5..|PyStr(api)| + 5] == PyStr(api)
    ensures '\n' !in PyStr(api) && '\n' !in Comment(table, api) ==> '\n' !in line
  {
    var comment := Comment(table, api);
    if comment != "" then "    \"" + PyStr(api) + "\"           # " + comment else "    \"" + PyStr(api) + "\""
  }

  /** `bash_array_lines`: exactly one line per API, in input order. */
  function ArrayLines(table: map<string, string>, apis: seq<Json>): (lines: seq<string>)
    ensures |lines| == |apis| && forall i :: 0 <= i < |apis| ==> lines[i] == ArrayLine(table, apis[i])
  {
    if apis == [] then [] else [ArrayLine(table, apis[0])] + ArrayLines(table, apis[1..])
  }

  /** The lines of a list followed by one more API: one more line at the end. */
  lemma {:induction false} ArrayLinesSnoc(table: map<string, string>, apis: seq<Json>, api: Json)
    ensures ArrayLines(table, apis + [api]) == ArrayLines(table, apis) + [ArrayLine(table, api)]
  {
    if apis != [] {
      assert (apis + [api])[1..] == apis[1..] + [api];
      ArrayLinesSnoc(table, apis[1..], api);
    }
  }

  /** The lines of a prefix one API longer. */
  lemma ArrayLinesStep(table: map<string, string>, apis: seq<Json>, k: nat)
    requires k < |apis|
    ensures ArrayLines(table, apis[..k + 1]) == ArrayLines(table, apis[..k]) + [ArrayLine(table, apis[k])]
  {
    assert apis[..k + 1] == apis[..k] + [apis[k]];
    ArrayLinesSnoc(table, apis[..k], apis[k]);
  }

  /**
   * The text substituted for one variable of the teardown template. It fails
   * exactly for an array variable whose value is neither a list nor a string,
   * or is a list holding a list or a dictionary.
   */
  function TeardownRender(v: Field): (r: Result<string, RenderError>)
    ensures r.Err? <==>
      SetupScript.IsArrayVariable(v.key) &&
      (!(v.val.JArr? || v.val.JStr?) || (v.val.JArr? && !AllHashable(v.val.items)))
    ensures SetupScript.IsArrayVariable(v.key) && ApiItems(v.key, v.val).Err? ==> r == Err(ArrayValueNotText(v.key))
    ensures !SetupScript.IsArrayVariable(v.key) ==> r == Ok(PyStr(v.val))
    ensures SetupScript.IsArrayVariable(v.key) && ApiItems(v.key, v.val).Ok? ==>
      var items := ApiItems(v.key, v.val).value;
      r == if AllHashable(items)
           then Ok(Join(ArrayLines(CommentTable(v.key), items), "\n"))
           else Err(UnhashableApi(v.key))
  {
    if !SetupScript.IsArrayVariable(v.key) then Ok(PyStr(v.val))
    else match ApiItems(v.key, v.val)
      case Err(e) => Err(e)
      case Ok(items) =>
        if AllHashable(items)
        then Ok(Join(ArrayLines(CommentTable(v.key), items), "\n"))
        else Err(UnhashableApi(v.key))
  }

  /** One more hashable API keeps the prefix hashable; an unhashable one spoils the whole list. */
  lemma HashableStep(apis: seq<Json>, k: nat)
    requires k < |apis| && AllHashable(apis[..k])
    ensures Hashable(apis[k]) ==> AllHashable(apis[..k + 1])
    ensures !Hashable(apis[k]) ==> !AllHashable(apis)
  {
    assert apis[..k + 1] == apis[..k] + [apis[k]];
  }

  /** The inner loop of `generate_script`: one line appended per API, stopping at an unhashable one. */
  method BuildArrayLines(name: string, table: map<string, string>, apiList: seq<Json>) returns (r: Result<seq<string>, RenderError>)
    ensures AllHashable(apiList) ==> r == Ok(ArrayLines(table, apiList))
    ensures !AllHashable(apiList) ==> r == Err(UnhashableApi(name))
  {
    var lines: seq<string> := [];
    var k := 0;
    while k < |apiList|
      invariant 0 <= k <= |apiList|
      invariant AllHashable(apiList[..k])
      invariant lines == ArrayLines(table, apiList[..k])
    {
      var api := apiList[k];
      HashableStep(apiList, k);
      if !Hashable(api) {
        return Err(UnhashableApi(name));
      }
      var comment := if api.JStr? && api.s in table then table[api.s] else "";
      var line;
      if comment != "" {
        line := "    \"" + PyStr(api) + "\"           # " + comment;
      } else {
        line := "    \"" + PyStr(api) + "\"";
      }
      ArrayLinesStep(table, apiList, k);
      lines := lines + [line];
      k := k + 1;
    }
    assert apiList[..k] == apiList;
    return Ok(lines);
  }

  /** The array branch of `generate_script`: the API list, then its lines joined by newlines. */
  method RenderArray(name: string, value: Json) returns (r: Result<string, RenderError>)
    requires SetupScript.IsArrayVariable(name)
    ensures r == TeardownRender(Field(name, value))
  {
    var apiList: seq<Json>;
    if value.JArr? {
      apiList := value.items;
    } else if value.JStr? {
      apiList := AsJsonStrings(SetupScript.ApiList(value.s));
    } else {
      return Err(ArrayValueNotText(name));
    }
    var lines := BuildArrayLines(name, CommentTable(name), apiList);
    if lines.Err? {
      return Err(lines.error);
    }
    return Ok(Join(lines.value, "\n"));
  }

  /**
   * `generate_script(template_data)`: the outer loop applies the variables in
   * order, each replacing every `{{name}}` in the text so far.
   */
  method GenerateScript(td: Json) returns (r: Result<string, RenderError>)
    ensures r == Generate(td, TeardownRender)
  {
    var data := Unpack(td);
    if data.Err? {
      return Err(data.error);
    }
    var vars := data.value.variables;
    var content := data.value.template;
    assert Generate(td, TeardownRender) == Fill(content, vars, TeardownRender);
    var i := 0;
    while i < |vars|
      invariant 0 <= i <= |vars|
      invariant Fill(content, vars[i..], TeardownRender) == Generate(td, TeardownRender)
    {
      var name, value := vars[i].key, vars[i].val;
      var placeholder := Token(name);
      FillStep(content, vars, i, TeardownRender);
      if name == "required_apis" || name == "excluded_apis" {
        var bashArray := RenderArray(name, value);
        if bashArray.Err? {
          return Err(bashArray.error);
        }
        content := ReplaceAll(content, placeholder, bashArray.value);
      } else {
        content := ReplaceAll(content, placeholder, PyStr(value));
      }
      i := i + 1;
    }
    assert vars[i..] == [];
    return Ok(content);
  }

  /** An API listed in its variable's table always gets that table's comment. */
  lemma ListedApiCommented(name: string, api: string)
    requires SetupScript.IsArrayVariable(name) && api in CommentTable(name)
    ensures ArrayLine(CommentTable(name), JStr(api)) ==
      SetupScript.Quoted(api) + "           # " + CommentTable(name)[api]
  {
  }

  /** The rendered array read back line by line gives one line per API; an empty list renders as "". */
  lemma TeardownArraySplits(table: map<string, string>, apis: seq<Json>)
    requires forall i :: 0 <= i < |apis| ==> '\n' !in ArrayLine(table, apis[i])
    ensures apis == [] ==> Join(ArrayLines(table, apis), "\n") == ""
    ensures apis != [] ==> Split(Join(ArrayLines(table, apis), "\n"), "\n") == ArrayLines(table, apis)
  {
    if apis != [] {
      SplitOfJoin(ArrayLines(table, apis), '\n');
    }
  }

  /**
   * Without comments the teardown rendering of a non-empty string list is the
   * setup rendering of the same list.
   */
  lemma {:induction false} UncommentedMatchesSetup(table: map<string, string>, apis: seq<string>)
    requires apis != [] && forall i :: 0 <= i < |apis| ==> apis[i] !in table
    ensures Join(ArrayLines(table, AsJsonStrings(apis)), "\n") == SetupScript.SetupArray(apis)
  {
    SetupScript.SetupArrayLines(apis);
    var items := AsJsonStrings(apis);
    assert ArrayLines(table, items) == SetupScript.QuotedLines(apis) by {
      forall i | 0 <= i < |apis| ensures ArrayLines(table, items)[i] == SetupScript.QuotedLines(apis)[i] {
        assert Comment(table, items[i]) == "";
      }
    }
  }

  /** APIs and comments without line breaks give array lines without line breaks. */
  lemma OneLineArrayLines(table: map<string, string>, apis: seq<Json>)
    requires forall api :: api in table ==> '\n' !in table[api]
    requires forall i :: 0 <= i < |apis| ==> '\n' !in PyStr(apis[i])
    ensures forall i :: 0 <= i < |apis| ==> '\n' !in ArrayLine(table, apis[i])
  {
    forall i | 0 <= i < |apis| ensures '\n' !in ArrayLine(table, apis[i]) {
      assert '\n' !in Comment(table, apis[i]);
    }
  }

  /**
   * A non-empty list of hashable APIs, none holding a line break, renders for
   * an array variable; read back line by line it is one array line per API, in
   * order, commented from the variable's table.
   */
  lemma TeardownArrayRendering(v: Field)
    requires SetupScript.IsArrayVariable(v.key) && ApiItems(v.key, v.val).Ok?
    requires var items := ApiItems(v.key, v.val).value;
      items != [] && AllHashable(items) && forall i :: 0 <= i < |items| ==> '\n' !in PyStr(items[i])
    ensures TeardownRender(v).Ok?
    ensures Split(TeardownRender(v).value, "\n") == ArrayLines(CommentTable(v.key), ApiItems(v.key, v.val).value)
  {
    var items := ApiItems(v.key, v.val).value;
    OneLineArrayLines(CommentTable(v.key), items);
    TeardownArraySplits(CommentTable(v.key), items);
  }

  /** A string value of an array variable renders as the lines of its normalised API list. */
  lemma StringApisRender(v: Field)
    requires SetupScript.IsArrayVariable(v.key) && v.val.JStr?
    ensures TeardownRender(v) ==
      Ok(Join(ArrayLines(CommentTable(v.key), AsJsonStrings(SetupScript.ApiList(v.val.s))), "\n"))
  {
    assert AllHashable(AsJsonStrings(SetupScript.ApiList(v.val.s)));
  }

  /**
   * A string of APIs that are all missing from the comment table renders in
   * the teardown script exactly as in the setup script.
   */
  lemma StringApisRenderAsSetup(v: Field)
    requires SetupScript.IsArrayVariable(v.key) && v.val.JStr?
    requires var apis := SetupScript.ApiList(v.val.s);
      apis != [] && forall i :: 0 <= i < |apis| ==> apis[i] !in CommentTable(v.key)
    ensures TeardownRender(v) == SetupScript.SetupRender(v)
  {
    StringApisRender(v);
    UncommentedMatchesSetup(CommentTable(v.key), SetupScript.ApiList(v.val.s));
  }
}
