/**
 * `generate-deploy-script.py`: takes the existing deploy script as a base,
 * rewrites its six default configuration assignments with the model's
 * values, and swaps its fixed header block for a version header carrying the
 * model hash.
 */
module DeployScript {
  import opened Wrappers
  import opened PyText
  import opened Json
  import Templates

  /** `extract_deploy_template`: the template definition at the fixed path of the model. */
  function ExtractDeployTemplate(model: Json): (r: Result<Json, Templates.LocateError>)
    ensures r.Ok? <==>
      Lookup(model, ["domains", "hackathon", "hackathon_mapping", "gke_turns_10", "gcp_project_setup", "deploy_template"]).Some?
    ensures r.Ok? ==>
      Lookup(model, ["domains", "hackathon", "hackathon_mapping", "gke_turns_10", "gcp_project_setup", "deploy_template"]) == Some(r.value)
    ensures r.Err? && r.error.KeyNotFound? ==>
      && model.JObj?
      && (r.error.available.Some? <==> "domains" in Keys(model.fields))
      && (r.error.available.Some? ==> r.error.available.value == Keys(model.fields))
  {
    assert Templates.ProjectSetupPath + ["deploy_template"] ==
      ["domains", "hackathon", "hackathon_mapping", "gke_turns_10", "gcp_project_setup", "deploy_template"];
    Templates.Locate(model, "deploy_template")
  }

  // ---- The configuration assignments ----

  /** A shell assignment the generator rewrites: `name="default"` becomes `name="<value of variable>"`. */
  datatype Setting = Setting(name: string, default: string, variable: string)

  /** The six assignments, in the order they are rewritten. */
  const Settings: seq<Setting> := [
    Setting("CLUSTER_NAME", "ghostbusters-hackathon", "cluster_name"),
    Setting("PROJECT_ID", "ghostbusters-hackathon-2025", "project_id"),
    Setting("REGION", "us-central1", "region"),
    Setting("ZONE", "us-central1-a", "zone"),
    Setting("MAX_NODES", "3", "max_nodes"),
    Setting("MAX_PODS_PER_SERVICE", "3", "max_pods_per_service")
  ]

  /** `f'{name}="{value}"'`. */
  function Assignment(name: string, value: string): (a: string)
    ensures |a| == |name| + |value| + 3
  {
    name + "=\"" + value + "\""
  }

  /** Why the deploy generator stops. */
  datatype DeployError =
    | BaseScriptMissing              // `deploy-ghostbusters.sh` does not exist
    | TemplateDataNotObject          // `template_data['variables']` on a value that is not a dictionary
    | NoVariables                    // `template_data` has no `variables` key
    | VariablesNotObject             // `variables[...]` on a value that is not a dictionary
    | MissingVariable(name: string)  // `variables[name]` raises `KeyError`

  /** `template_data['variables']`, which must be a dictionary for the lookups that follow. */
  function VariablesOf(td: Json): (r: Result<seq<Field>, DeployError>)
    ensures r.Ok? <==> td.JObj? && Get(td.fields, "variables").Some? && Get(td.fields, "variables").value.JObj?
    ensures r.Ok? ==> r.value == Get(td.fields, "variables").value.fields
  {
    match td
    case JObj(fs) =>
      (match Get(fs, "variables")
        case None => Err(NoVariables)
        case Some(JObj(vs)) => Ok(vs)
        case Some(_) => Err(VariablesNotObject))
    case _ => Err(TemplateDataNotObject)
  }

  /**
   * The configuration replaces from the `k`-th on, in order; the first variable
   * missing from the model stops them.
   */
  function Configure(content: string, settings: seq<Setting>, k: nat, vars: seq<Field>): Result<string, DeployError>
    requires k <= |settings|
    decreases |settings| - k
  {
    if k == |settings| then Ok(content)
    else
      var s := settings[k];
      match Get(vars, s.variable)
      case None => Err(MissingVariable(s.variable))
      case Some(v) =>
        Configure(ReplaceAll(content, Assignment(s.name, s.default), Assignment(s.name, PyStr(v))), settings, k + 1, vars)
  }

  /** The replaces succeed exactly when the model defines every variable they use. */
  lemma {:induction false} ConfigureDefined(content: string, settings: seq<Setting>, k: nat, vars: seq<Field>)
    requires k <= |settings|
    ensures Configure(content, settings, k, vars).Ok? <==>
      forall i :: k <= i < |settings| ==> settings[i].variable in Keys(vars)
    decreases |settings| - k
  {
    if k < |settings| {
      var s := settings[k];
      if Get(vars, s.variable).Some? {
        ConfigureDefined(ReplaceAll(content, Assignment(s.name, s.default), Assignment(s.name, PyStr(Get(vars, s.variable).value))), settings, k + 1, vars);
      }
    }
  }

  /** Only the exact default assignments are rewritten: a script with none of them passes through. */
  lemma {:induction false} ConfigureWithoutDefaults(content: string, settings: seq<Setting>, k: nat, vars: seq<Field>)
    requires k <= |settings|
    requires forall i :: k <= i < |settings| ==> !Contains(content, Assignment(settings[i].name, settings[i].default))
    requires forall i :: k <= i < |settings| ==> settings[i].variable in Keys(vars)
    ensures Configure(content, settings, k, vars) == Ok(content)
    decreases |settings| - k
  {
    if k < |settings| {
      var s := settings[k];
      ReplaceAbsent(content, Assignment(s.name, s.default), Assignment(s.name, PyStr(Get(vars, s.variable).value)));
      ConfigureWithoutDefaults(content, settings, k + 1, vars);
    }
  }

  /** One assignment: every occurrence of `name="default"`, left to right, becomes `name="<str(value)>"`. */
  lemma ConfigureOne(content: string, s: Setting, vars: seq<Field>)
    requires s.variable in Keys(vars)
    ensures Configure(content, [s], 0, vars) ==
      Ok(Join(Split(content, Assignment(s.name, s.default)), Assignment(s.name, PyStr(Get(vars, s.variable).value))))
  {
    ReplaceIsJoinOfSplit(content, Assignment(s.name, s.default), Assignment(s.name, PyStr(Get(vars, s.variable).value)));
  }

  // ---- The headers ----
  //
  // The constants below are written as short pieces of text.
  // Joined in order, they give exactly the header literal of
  // `generate-deploy-script.py` lines 92-121 (the header with the version line)
  // and the literal on lines 125-126 (the header the stamp looks for), the
  // latter as intended: `OldHeaderAsWritten` below keeps the line
  // continuation that literal holds inside its gcloud line.

  /** The first three lines both headers share. */
  const TitleBlock: string :=
    "# \U{1f680} Ghostbusters AI " + "Microservices Deployment Script\n" + "# GKE Hackathon Implementation\n" + "#\n"

  /** The line carrying the hash, up to the hash itself. */
  const VersionLineStart: string := "# MODEL VERSION: "

  const GeneratedFromLines: string := "\n# GENERATED FROM: project_model_registry.json\n# GENERATION TIMESTAMP: "

  const NoticeLines: seq<string> := [
    "\n#\n",
    "# \U{26a0}\U{fe0f}  IMPORTANT: This script was",
    " generated from a specific model",
    " version\n",
    "# \U{26a0}\U{fe0f}  DO NOT EDIT MANUALLY -",
    " regenerate from model instead\n",
    "# \U{26a0}\U{fe0f}  Version mismatch between",
    " deploy/teardown = BROKEN CLEANUP\n",
    "#\n"
  ]

  // The dependency notes that close both headers, as short pieces.

  /** Pieces of the dependencies list; its second piece is the gcloud line. */
  const DependencyNotes: seq<string> := [
    "# Dependencies:\n",
    "# - gcloud CLI (Google Cloud SDK)\n",
    "# - kubectl (Kubernetes CLI) -",
    " install via: gcloud components",
    " install kubectl --quiet\n",
    "# - Note: Docker not required for",
    " GKE deployment (only needed for",
    " local container builds)\n"
  ]

  /** Pieces of the prerequisites list. */
  const PrerequisiteNotes: seq<string> := [
    "#\n",
    "# Prerequisites:\n",
    "# - GCP project created and",
    " configured\n",
    "# - Required APIs enabled\n",
    "# - User authenticated and",
    " authorized\n",
    "#\n"
  ]

  /** Pieces of the cost notes. */
  const CostNotes: seq<string> := [
    "# Note: This script uses",
    " cost-effective GKE approaches:\n",
    "# - IPv4 stack type (no advanced",
    " datapath costs)\n",
    "# - Simplified cluster creation",
    " with essential flags only\n",
    "# - Accepts kubelet readonly port",
    " deprecation warnings (expected",
    " behavior)\n"
  ]

  /** Pieces of the pointers to further documentation. */
  const ReferenceNotes: seq<string> := [
    "# - See Google docs:",
    " https://cloud.google.com/kubernetes",
    "-engine/docs/deprecations\n",
    "#\n",
    "# See",
    " GKE_DEPLOYMENT_DEPENDENCIES.md for",
    " detailed setup instructions\n",
    "\n"
  ]

  /** The notes after the dependencies list, which the two header literals share. */
  const LaterNotes: string := Concat(PrerequisiteNotes) + Concat(CostNotes) + Concat(ReferenceNotes)

  const DependenciesBlock: string := Concat(DependencyNotes) + LaterNotes

  /** The header of the base script that gets replaced: the title lines, then the dependency notes. */
  const OldHeader: string := TitleBlock + DependenciesBlock

  /** `version_header`: the title lines, the version lines with hash and timestamp, then the dependency notes. */
  function VersionHeader(modelHash: string, timestamp: string): string
  {
    TitleBlock + (VersionLineStart + modelHash) + VersionTrailer(timestamp)
  }

  /** Everything after the hash: the origin and timestamp lines, the notices, the dependency notes. */
  function VersionTrailer(timestamp: string): string
  {
    GeneratedFromLines + timestamp + Concat(NoticeLines) + DependenciesBlock
  }

  /** The header replace: every occurrence of the header literal `header` becomes the version header. */
  function Stamp(content: string, header: string, modelHash: string, timestamp: string): string
    requires |header| > 0
  {
    ReplaceAll(content, header, VersionHeader(modelHash, timestamp))
  }

  /**
   * `generate_script(template_data, model_hash)`, with the base script's content
   * given (`None` when it is missing) and the header literal it looks for as
   * `header` (`OldHeader` is the intended one).
   */
  function Deploy(base: Option<string>, td: Json, header: string, modelHash: string, timestamp: string): Result<string, DeployError>
    requires |header| > 0
  {
    if base.None? then Err(BaseScriptMissing)
    else match VariablesOf(td)
      case Err(e) => Err(e)
      case Ok(vars) =>
        match Configure(base.value, Settings, 0, vars)
        case Err(e) => Err(e)
        case Ok(configured) => Ok(Stamp(configured, header, modelHash, timestamp))
  }

  /** Without the exact header literal the header step changes nothing. */
  lemma StampWithoutHeader(content: string, header: string, modelHash: string, timestamp: string)
    requires |header| > 0 && !Contains(content, header)
    ensures Stamp(content, header, modelHash, timestamp) == content
  {
    ReplaceAbsent(content, header, VersionHeader(modelHash, timestamp));
  }

  /** The first occurrence of the header literal becomes the version header; the text before it is untouched. */
  lemma StampInsertsHeader(pre: string, header: string, post: string, modelHash: string, timestamp: string)
    requires |header| > 0
    requires forall i :: 0 <= i < |pre| ==> !OccursAt(pre + header + post, header, i)
    ensures Stamp(pre + header + post, header, modelHash, timestamp) ==
      pre + VersionHeader(modelHash, timestamp) + ReplaceAll(post, header, VersionHeader(modelHash, timestamp))
  {
    ReplaceAtFirstOccurrence(pre, header, post, VersionHeader(modelHash, timestamp));
  }

  /** The version header carries the line `# MODEL VERSION: <hash>`. */
  lemma VersionHeaderCarriesHash(modelHash: string, timestamp: string)
    ensures OccursAt(VersionHeader(modelHash, timestamp), VersionLineStart + modelHash, |TitleBlock|)
  {
    OccursAfter(TitleBlock, VersionLineStart + modelHash, VersionTrailer(timestamp));
  }

  /**
   * One configuration replace: `variables[s.variable]` is looked up, then
   * `NAME="default"` is rewritten to carry its value. `goal` is what the
   * replaces from the `k`-th on produce from `content`; it is what they still
   * produce from the result.
   */
  method ReplaceSetting(content: string, settings: seq<Setting>, k: nat, vars: seq<Field>,
                        ghost goal: Result<string, DeployError>)
    returns (r: Result<string, DeployError>)
    requires k < |settings|
    requires Configure(content, settings, k, vars) == goal
    ensures r.Err? ==> r == goal && r.error == MissingVariable(settings[k].variable)
    ensures r.Ok? ==> Configure(r.value, settings, k + 1, vars) == goal
  {
    var s := settings[k];
    var value := Get(vars, s.variable);
    if value.None? {
      return Err(MissingVariable(s.variable));
    }
    return Ok(ReplaceAll(content, Assignment(s.name, s.default), Assignment(s.name, PyStr(value.value))));
  }

  /**
   * The configuration replaces of `generate_script`: the source writes six
   * consecutive `replace` statements, one per row of `Settings`; here they are
   * one pass over `settings`, row by row in that order, each stopping the run
   * when its variable is missing.
   */
  method ConfigureScript(content: string, settings: seq<Setting>, vars: seq<Field>) returns (r: Result<string, DeployError>)
    ensures r == Configure(content, settings, 0, vars)
  {
    ghost var goal := Configure(content, settings, 0, vars);
    var scriptContent := content;
    var k := 0;
    while k < |settings|
      invariant 0 <= k <= |settings|
      invariant Configure(scriptContent, settings, k, vars) == goal
    {
      var step := ReplaceSetting(scriptContent, settings, k, vars, goal);
      if step.Err? {
        return step;
      }
      scriptContent := step.value;
      k := k + 1;
    }
    return Ok(scriptContent);
  }

  /**
   * `generate_script`: the base check, the six replaces one after another, then
   * the header replace.
   */
  method GenerateScript(base: Option<string>, td: Json, header: string, modelHash: string, timestamp: string)
    returns (r: Result<string, DeployError>)
    requires |header| > 0
    ensures r == Deploy(base, td, header, modelHash, timestamp)
  {
    if base.None? {
      return Err(BaseScriptMissing);
    }
    var variables := VariablesOf(td);
    if variables.Err? {
      return Err(variables.error);
    }
    var configured := ConfigureScript(base.value, Settings, variables.value);
    if configured.Err? {
      return Err(configured.error);
    }
    var versionHeader := VersionHeader(modelHash, timestamp);
    var scriptContent := ReplaceAll(configured.value, header, versionHeader);
    return Ok(scriptContent);
  }

  // ---- The header literal as written ----

  /**
   * The gcloud line of the old-header literal as the source spells it: a
   * backslash-newline continuation inside the quoted string joins `( ` with the
   * next line's four-space indentation, giving five spaces after the parenthesis.
   */
  const GcloudLineAsWritten: string := "# - gcloud CLI (     Google Cloud SDK)\n"

  const OldHeaderAsWritten: string := TitleBlock + Concat(DependencyNotes[1 := GcloudLineAsWritten]) + LaterNotes

  /** The literal searched for is five characters longer than the header the generator itself writes below its version lines. */
  lemma AsWrittenHeaderLonger()
    ensures |OldHeaderAsWritten| == |OldHeader| + 5
  {
    ConcatUpdateLength(DependencyNotes, 1, GcloudLineAsWritten);
    assert |DependencyNotes[1]| + 5 == |GcloudLineAsWritten|;
  }

  /** As written (searching for `OldHeaderAsWritten`), a base script carrying the intended header is not stamped at all. */
  lemma AsWrittenMissesIntendedHeader(modelHash: string, timestamp: string)
    ensures |OldHeaderAsWritten| > 0
    ensures Stamp(OldHeader, OldHeaderAsWritten, modelHash, timestamp) == OldHeader
  {
    AsWrittenHeaderLonger();
    ReplaceLonger(OldHeader, OldHeaderAsWritten, VersionHeader(modelHash, timestamp));
  }

  /** With the corrected literal, the intended header is replaced by the version header. */
  lemma CorrectedStampsIntendedHeader(modelHash: string, timestamp: string)
    ensures |OldHeader| > 0
    ensures Stamp(OldHeader, OldHeader, modelHash, timestamp) == VersionHeader(modelHash, timestamp)
  {
    OldHeaderNonEmpty();
    ReplaceWhole(OldHeader, VersionHeader(modelHash, timestamp));
  }

  /** No capital V in the title lines: the first `V` of a version header is the one of `MODEL VERSION`. */
  lemma TitleBlockLacksV()
    ensures 'V' !in TitleBlock
  {
  }

  /** No capital V in the old header either, so it carries no `MODEL VERSION` text. */
  lemma OldHeaderLacksV()
    ensures 'V' !in OldHeader
  {
    TitleBlockLacksV();
    DependencyNotesLackV();
    PrerequisiteNotesLackV();
    CostNotesLackV();
    ReferenceNotesLackV();
  }

  lemma DependencyNotesLackV()
    ensures 'V' !in Concat(DependencyNotes)
  {
    DependencyNotesHeadLackV();
    DependencyNotesTailLackV();
    ConcatLacks(DependencyNotes, 'V');
  }

  lemma DependencyNotesHeadLackV()
    ensures forall k :: 0 <= k < 4 ==> 'V' !in DependencyNotes[k]
  {
    assert forall i :: 0 <= i < |DependencyNotes[0]| ==> DependencyNotes[0][i] != 'V';
    assert forall i :: 0 <= i < |DependencyNotes[1]| ==> DependencyNotes[1][i] != 'V';
    assert forall i :: 0 <= i < |DependencyNotes[2]| ==> DependencyNotes[2][i] != 'V';
    assert forall i :: 0 <= i < |DependencyNotes[3]| ==> DependencyNotes[3][i] != 'V';
  }

  lemma DependencyNotesTailLackV()
    ensures forall k :: 4 <= k < |DependencyNotes| ==> 'V' !in DependencyNotes[k]
  {
    assert forall i :: 0 <= i < |DependencyNotes[4]| ==> DependencyNotes[4][i] != 'V';
    assert forall i :: 0 <= i < |DependencyNotes[5]| ==> DependencyNotes[5][i] != 'V';
    assert forall i :: 0 <= i < |DependencyNotes[6]| ==> DependencyNotes[6][i] != 'V';
    assert forall i :: 0 <= i < |DependencyNotes[7]| ==> DependencyNotes[7][i] != 'V';
  }

  lemma PrerequisiteNotesLackV()
    ensures 'V' !in Concat(PrerequisiteNotes)
  {
    PrerequisiteNotesHeadLackV();
    PrerequisiteNotesTailLackV();
    ConcatLacks(PrerequisiteNotes, 'V');
  }

  lemma PrerequisiteNotesHeadLackV()
    ensures forall k :: 0 <= k < 4 ==> 'V' !in PrerequisiteNotes[k]
  {
    assert forall i :: 0 <= i < |PrerequisiteNotes[0]| ==> PrerequisiteNotes[0][i] != 'V';
    assert forall i :: 0 <= i < |PrerequisiteNotes[1]| ==> PrerequisiteNotes[1][i] != 'V';
    assert forall i :: 0 <= i < |PrerequisiteNotes[2]| ==> PrerequisiteNotes[2][i] != 'V';
    assert forall i :: 0 <= i < |PrerequisiteNotes[3]| ==> PrerequisiteNotes[3][i] != 'V';
  }

  lemma PrerequisiteNotesTailLackV()
    ensures forall k :: 4 <= k < |PrerequisiteNotes| ==> 'V' !in PrerequisiteNotes[k]
  {
    assert forall i :: 0 <= i < |PrerequisiteNotes[4]| ==> PrerequisiteNotes[4][i] != 'V';
    assert forall i :: 0 <= i < |PrerequisiteNotes[5]| ==> PrerequisiteNotes[5][i] != 'V';
    assert forall i :: 0 <= i < |PrerequisiteNotes[6]| ==> PrerequisiteNotes[6][i] != 'V';
    assert forall i :: 0 <= i < |PrerequisiteNotes[7]| ==> PrerequisiteNotes[7][i] != 'V';
  }

  lemma CostNotesLackV()
    ensures 'V' !in Concat(CostNotes)
  {
    CostNotesHeadLackV();
    CostNotesTailLackV();
    ConcatLacks(CostNotes, 'V');
  }

  lemma CostNotesHeadLackV()
    ensures forall k :: 0 <= k < 4 ==> 'V' !in CostNotes[k]
  {
    assert forall i :: 0 <= i < |CostNotes[0]| ==> CostNotes[0][i] != 'V';
    assert forall i :: 0 <= i < |CostNotes[1]| ==> CostNotes[1][i] != 'V';
    assert forall i :: 0 <= i < |CostNotes[2]| ==> CostNotes[2][i] != 'V';
    assert forall i :: 0 <= i < |CostNotes[3]| ==> CostNotes[3][i] != 'V';
  }

  lemma CostNotesTailLackV()
    ensures forall k :: 4 <= k < |CostNotes| ==> 'V' !in CostNotes[k]
  {
    assert forall i :: 0 <= i < |CostNotes[4]| ==> CostNotes[4][i] != 'V';
    assert forall i :: 0 <= i < |CostNotes[5]| ==> CostNotes[5][i] != 'V';
    assert forall i :: 0 <= i < |CostNotes[6]| ==> CostNotes[6][i] != 'V';
    assert forall i :: 0 <= i < |CostNotes[7]| ==> CostNotes[7][i] != 'V';
    assert forall i :: 0 <= i < |CostNotes[8]| ==> CostNotes[8][i] != 'V';
  }

  lemma ReferenceNotesLackV()
    ensures 'V' !in Concat(ReferenceNotes)
  {
    ReferenceNotesHeadLackV();
    ReferenceNotesTailLackV();
    ConcatLacks(ReferenceNotes, 'V');
  }

  lemma ReferenceNotesHeadLackV()
    ensures forall k :: 0 <= k < 4 ==> 'V' !in ReferenceNotes[k]
  {
    assert forall i :: 0 <= i < |ReferenceNotes[0]| ==> ReferenceNotes[0][i] != 'V';
    assert forall i :: 0 <= i < |ReferenceNotes[1]| ==> ReferenceNotes[1][i] != 'V';
    assert forall i :: 0 <= i < |ReferenceNotes[2]| ==> ReferenceNotes[2][i] != 'V';
    assert forall i :: 0 <= i < |ReferenceNotes[3]| ==> ReferenceNotes[3][i] != 'V';
  }

  lemma ReferenceNotesTailLackV()
    ensures forall k :: 4 <= k < |ReferenceNotes| ==> 'V' !in ReferenceNotes[k]
  {
    assert forall i :: 0 <= i < |ReferenceNotes[4]| ==> ReferenceNotes[4][i] != 'V';
    assert forall i :: 0 <= i < |ReferenceNotes[5]| ==> ReferenceNotes[5][i] != 'V';
    assert forall i :: 0 <= i < |ReferenceNotes[6]| ==> ReferenceNotes[6][i] != 'V';
    assert forall i :: 0 <= i < |ReferenceNotes[7]| ==> ReferenceNotes[7][i] != 'V';
  }

  /** The title lines start with `#`. */
  lemma TitleBlockStartsWithHash()
    ensures |TitleBlock| > 0 && TitleBlock[0] == '#'
  {
  }

  /** The old header starts with the title lines, hence with `#`. */
  lemma OldHeaderNonEmpty()
    ensures |OldHeader| > 0
  {
    TitleBlockStartsWithHash();
  }
}
