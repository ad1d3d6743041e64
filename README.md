# Model-driven GKE script generation, version check and deployment state

This project models, in Dafny, the model-driven tooling of a GKE hackathon
repository. All of it is driven by one nested JSON document, the project
model registry:

- **Setup and teardown script generators.** They look up a
  `{template, variables}` definition at the fixed key path
  `domains.hackathon.hackathon_mapping.gke_turns_10.gcp_project_setup.<name>`.
  Then, for each variable in order, they replace every `{{name}}` placeholder
  with its value. The reserved names `required_apis` and `excluded_apis` are
  rendered as indented shell-array lines. The teardown generator adds a
  comment taken from a fixed table.
- **Setup equivalence check.** It compares a generated script with a
  reference script after trailing whitespace is removed, and reports the
  line counts and the first line that differs.
- **Deploy script generator.** It rewrites six `KEY="default"` assignments of
  an existing base script with the model's values. Then it swaps that
  script's fixed header block for a version header. Its version line
  reads `# MODEL VERSION: <hash>`, where the hash is the first 16 hex digits
  of the SHA-256 of `json.dumps(model, sort_keys=True, indent=2)`.
- **Version verifier.** It finds the first `MODEL VERSION: [a-f0-9]{16}` in a
  script, compares it with the current model's hash, and turns the answer
  into an exit code.
- **Deployment-state updater.** It classifies the Kubernetes Deployments as
  Running, Mixed or Pending, and keeps the `ghostbusters` services and the
  `kube-system` ones. It derives an overall health line and stores a new
  `deployment_state` object in the model, in place.

Modules:

- `Wrappers`: `Option` and `Result`.
- `PyText`: the Python string operations the scripts use, namely `strip`,
  `rstrip`, `split`, `join`, `replace`, `str(int)` and hex formatting, with
  their algebra (split and join round trips, replace as split then join,
  strip idempotence).
- `Json`: the JSON value model and the pieces of Python it needs. These are
  `dict.get`, item assignment, nested lookup, `str()` and `repr()`, and `==`
  with `True == 1`. The comparisons `in` and `> 0` return `None` where Python
  raises `TypeError`.
- `JsonHash`: `json.dumps(..., sort_keys=True, indent=2)` with `ensure_ascii`,
  and the model hash.
- `Templates`: the key-path lookup and the placeholder fold shared by both
  template generators.
- `SetupScript`, `TeardownScript`, `DeployScript`, `VersionCheck` and
  `DeploymentState`: one module per script.

The loops of the source are methods with loop invariants, each proved
against a specification function; the properties the scripts promise are
proved about those functions. The object the updater changes in place is a
class, `DeploymentState.ProjectModel`, whose `root` field holds the model.

## Model

| member | source | states |
|---|---|---|
| PyText.StripSlice | scripts/generate-setup-script.py:54-55 | `strip()` keeps a contiguous middle slice of the text: everything cut off in front of it and behind it is whitespace |
| PyText.StripIdempotent | scripts/generate-setup-script.py:55 | stripping twice is stripping once |
| PyText.RStripIgnoresTrailingSpace | scripts/generate-setup-script.py:96-97 | appending whitespace to a text does not change its `rstrip()` |
| PyText.ReplaceIsJoinOfSplit | scripts/generate-setup-script.py:57 | `s.replace(old, new)` of a non-empty `old` is `new.join(s.split(old))`: every occurrence is replaced, left to right, without overlaps |
| PyText.SplitJoinRoundTrip | scripts/generate-setup-script.py:106-107 | splitting a text on a separator and joining the pieces with it gives the text back |
| PyText.SplitOfJoin | scripts/generate-setup-script.py:56 | joining pieces that do not contain the separator, then splitting on it, gives the pieces back |
| PyText.DecimalRoundTrip | scripts/generate-deploy-script.py:84 | `str(n)` of a natural number is a decimal numeral that reads back as n |
| Json.GetFinds | scripts/update-deployment-state.py:82-92 | a value `dict.get(key)` finds is the value of an entry stored under that key |
| Json.PutThenGet | scripts/update-deployment-state.py:212 | after `d[k] = v`, `d.get(k)` is `v` and every other key reads what it read before |
| Json.PutKeys | scripts/update-deployment-state.py:212 | `d[k] = v` keeps the key order and appends `k` at the end only when it was absent |
| Json.PutOverwrites | scripts/update-deployment-state.py:212 | a second assignment to the same key replaces the first |
| Json.PutAtDefined | scripts/update-deployment-state.py:166-167 | the nested assignment succeeds exactly when the path leads through objects to an object |
| Json.PutAtStores | scripts/update-deployment-state.py:212 | after the nested assignment, looking up the path and the key gives the stored value |
| Json.PutAtOverwrites | scripts/update-deployment-state.py:212 | a second nested assignment to the same place replaces the first |
| Json.PutAtKeepsOthers | scripts/update-deployment-state.py:212-214 | every lookup path that is neither a prefix nor an extension of the assigned path reads the same value as before |
| Json.PyEqString | scripts/update-deployment-state.py:83 | Python `==` against a string holds exactly for that same string |
| JsonHash.SortFieldsSorted | scripts/generate-deploy-script.py:31 | `sort_keys=True` puts the entries of an object with distinct keys in strictly increasing key order |
| JsonHash.SameContentCanonical | scripts/generate-deploy-script.py:31 | two models with the same content in different key orders have the same sorted serialisation input |
| JsonHash.DumpAscii | scripts/generate-deploy-script.py:31 | with `ensure_ascii`, `json.dumps` writes only ASCII characters, whatever the model holds |
| JsonHash.Encode | scripts/generate-deploy-script.py:32 | `encode()` of ASCII text gives one byte per character, holding its code point |
| JsonHash.HexDigest | scripts/generate-deploy-script.py:32 | `hexdigest()` gives two lowercase hex digits per byte |
| JsonHash.ModelHash | scripts/generate-deploy-script.py:28-32 | `calculate_model_hash` always gives 16 lowercase hex digits |
| JsonHash.ModelHashIsFirstEightBytes | scripts/verify-script-version.py:30-33 | the 16 characters kept are exactly the hex of the first 8 bytes of the digest |
| JsonHash.ModelHashIgnoresKeyOrder | scripts/generate-deploy-script.py:31 | models that differ only in the order of their keys have the same hash |
| Templates.Walk | scripts/generate-setup-script.py:31-32 | chained `model[k1][k2]...` succeeds exactly when the nested lookup finds a value, and returns it; otherwise it fails at a key of the path |
| Templates.Locate | scripts/generate-setup-script.py:29-38 | a template is found exactly when the whole path exists; a missing key reports the top-level keys only when `domains` is present |
| Templates.Token | scripts/generate-setup-script.py:49 | the placeholder is `{{`, the name, then `}}` |
| Templates.Unpack | scripts/generate-setup-script.py:42-43 | unpacking succeeds exactly when the definition is an object whose `template` is a string and whose `variables` is an object, and returns those two |
| Templates.FillStep | scripts/generate-setup-script.py:48-66 | each step of the loop replaces every placeholder of the current variable by its rendering, or stops at the first rendering that fails |
| Templates.FillSplits | scripts/generate-setup-script.py:46-68 | the variables are applied one after another: the fold over `a + b` is the fold over `b` applied to the result of the fold over `a` |
| Templates.OneVariable | scripts/generate-setup-script.py:57 | one variable's step is the split of the text on its placeholder, joined with its rendering |
| Templates.FillWithoutTokens | scripts/generate-setup-script.py:46-68 | a text holding no placeholder of any variable comes out unchanged |
| Templates.TokensDisjoint | scripts/generate-setup-script.py:49 | occurrences of placeholders of two different brace-free names never overlap |
| Templates.SameStartSameName | scripts/generate-setup-script.py:49 | two placeholders of brace-free names that start at the same position have the same name |
| Templates.UnknownPlaceholderSurvives | scripts/generate-setup-script.py:48-66 | a `{{x}}` whose name is not a variable's survives every replacement |
| SetupScript.ExtractScriptTemplate | scripts/generate-setup-script.py:27-38 | the script template is found exactly when the path through `gcp_project_setup.script_template` exists, and it is the value there; the error lists keys exactly when `domains` is present, and the keys it lists are the model's top-level keys |
| SetupScript.ApiList | scripts/generate-setup-script.py:54-55 | every entry of the normalised API list is non-empty, stripped and free of newlines |
| SetupScript.CleanEntriesAppend | scripts/generate-setup-script.py:55 | the filter works piece by piece, so it keeps the order of the pieces |
| SetupScript.ApiListRoundTrip | scripts/generate-setup-script.py:54-55 | a list of clean entries joined with newlines normalises back to the same list |
| SetupScript.QuotedLines | scripts/generate-setup-script.py:56 | one quoted, four-space-indented line per API, in order |
| SetupScript.SetupArrayLines | scripts/generate-setup-script.py:56 | the rendered array is the quoted lines joined by newlines, with no trailing newline; an empty list renders as `    ""` |
| SetupScript.SetupArraySplits | scripts/generate-setup-script.py:56 | a non-empty rendered array splits back into exactly one line per API |
| SetupScript.SetupArrayRendering | scripts/generate-setup-script.py:52-63 | an array variable renders exactly when its value is a string (`strip()` of anything else raises); read back line by line, the rendering is one quoted line per API of the normalised list, and a list without APIs renders as the single line `    ""` |
| SetupScript.GenerateScript | scripts/generate-setup-script.py:40-68 | the loop over the variables computes the left fold of the placeholder replaces over the template |
| SetupScript.PlainVariableReplaced | scripts/generate-setup-script.py:64-66 | a non-array variable replaces every occurrence of its placeholder by `str(value)` |
| SetupScript.GenerateKeepsUnknownPlaceholder | scripts/generate-setup-script.py:48-66 | a generated setup script keeps every placeholder that names no variable |
| SetupScript.SameScriptIgnoresTrailingSpace | scripts/generate-setup-script.py:96-99 | scripts that differ only in trailing whitespace are the same script |
| SetupScript.FirstDifference | scripts/generate-setup-script.py:113-119 | the first line index, 1-based, within the common length where the lines differ, with both lines; or none when the shorter file is a prefix of the longer |
| SetupScript.VerifyScriptGeneration | scripts/generate-setup-script.py:86-125 | an unreadable file gives `Unreadable`; identical exactly when the `rstrip()`ped texts are equal; otherwise both line counts, and the first differing line or, if none, a strict prefix |
| TeardownScript.ExtractTeardownTemplate | scripts/generate-teardown-script.py:27-38 | the template is found exactly when the path through `gcp_project_setup.teardown_template` exists, and it is the value there; the error lists keys exactly when `domains` is present, and the keys it lists are the model's top-level keys |
| TeardownScript.CommentTable | scripts/generate-teardown-script.py:62-69 | each array variable has its own comment table, and every comment in it is non-empty and holds no line break |
| TeardownScript.RequiredCommentsOneLine | scripts/generate-teardown-script.py:62-69 | every comment of the `required_apis` table is non-empty and holds no line break |
| TeardownScript.ExcludedCommentsOneLine | scripts/generate-teardown-script.py:92-98 | every comment of the `excluded_apis` table is non-empty and holds no line break |
| TeardownScript.ArrayLine | scripts/generate-teardown-script.py:73-77 | an API with a comment becomes its quoted line, eleven spaces, `# ` and the comment; one without a comment becomes the quoted line alone; every line starts with four spaces, a quote and the API, and is a single line when the API and its comment are |
| TeardownScript.ArrayLines | scripts/generate-teardown-script.py:71-77 | exactly one line per API, in input order |
| TeardownScript.ArrayLinesSnoc | scripts/generate-teardown-script.py:72-77 | each iteration appends the line of the next API |
| TeardownScript.ListedApiCommented | scripts/generate-teardown-script.py:62-75 | an API listed in its variable's table is written with that table's comment |
| TeardownScript.TeardownArraySplits | scripts/generate-teardown-script.py:79 | the lines are joined by newlines with no trailing newline; an empty list renders as the empty string |
| TeardownScript.UncommentedMatchesSetup | scripts/generate-teardown-script.py:77 | when no API has a comment, the teardown array is the setup generator's array |
| TeardownScript.TeardownRender | scripts/generate-teardown-script.py:52-113 | rendering fails exactly for an array variable whose value is neither a list nor a string (`strip()` raises) or is a list holding a list or a dictionary (the table lookup raises `TypeError`); a non-array variable renders as `str(value)` |
| TeardownScript.OneLineArrayLines | scripts/generate-teardown-script.py:73-77 | APIs and comments without line breaks give array lines without line breaks |
| TeardownScript.TeardownArrayRendering | scripts/generate-teardown-script.py:52-80 | a non-empty list of hashable APIs without line breaks renders, and read back line by line it is one array line per API, in order, commented from the variable's table |
| TeardownScript.StringApisRender | scripts/generate-teardown-script.py:54-59 | a string value of an array variable renders as the lines of its normalised API list, so it never fails |
| TeardownScript.StringApisRenderAsSetup | scripts/generate-teardown-script.py:54-79 | a string of APIs none of which has a comment renders in the teardown script exactly as in the setup script |
| TeardownScript.BuildArrayLines | scripts/generate-teardown-script.py:71-78 | the append loop, with the table lookup and the f-string of each iteration, yields exactly `ArrayLines`, or fails when some API is a list or an object |
| TeardownScript.RenderArray | scripts/generate-teardown-script.py:52-80 | the array branch of the loop computes the rendering of `TeardownRender` |
| TeardownScript.GenerateScript | scripts/generate-teardown-script.py:40-115 | the loop over the variables computes the left fold of the teardown rendering over the template |
| DeployScript.ExtractDeployTemplate | scripts/generate-deploy-script.py:35-46 | the template is found exactly when the path through `gcp_project_setup.deploy_template` exists, and it is the value there; the error lists keys exactly when `domains` is present, and the keys it lists are the model's top-level keys |
| DeployScript.VariablesOf | scripts/generate-deploy-script.py:63 | `template_data['variables']` succeeds exactly when it is an object, and gives its entries |
| DeployScript.ConfigureDefined | scripts/generate-deploy-script.py:66-89 | the configuration replaces succeed exactly when every one of the six variables is in the model |
| DeployScript.ConfigureWithoutDefaults | scripts/generate-deploy-script.py:66-89 | a script without any of the six default assignments is not changed by them |
| DeployScript.ConfigureOne | scripts/generate-deploy-script.py:66-69 | one replace turns every `KEY="default"` into `KEY="<str(value)>"` |
| DeployScript.ReplaceSetting | scripts/generate-deploy-script.py:66-89 | one replace statement either stops on the missing variable, as the whole sequence does, or leaves a text from which the remaining replaces reach the same result |
| DeployScript.ConfigureScript | scripts/generate-deploy-script.py:66-89 | the six replaces, in order, compute `Configure` of the base script |
| DeployScript.VersionHeaderCarriesHash | scripts/generate-deploy-script.py:92-95 | the version header holds `# MODEL VERSION: <hash>` right after its three title lines |
| DeployScript.StampWithoutHeader | scripts/generate-deploy-script.py:124-128 | without the exact header text, the header replace changes nothing |
| DeployScript.StampInsertsHeader | scripts/generate-deploy-script.py:124-128 | the first occurrence of the header becomes the version header, and so does every later one |
| DeployScript.GenerateScript | scripts/generate-deploy-script.py:48-130 | a missing base script or missing variables are errors; otherwise the result is the configured base script with its header replaced |
| DeployScript.AsWrittenHeaderLonger | scripts/generate-deploy-script.py:125-126 | the header literal as written is five characters longer than the intended header |
| DeployScript.AsWrittenMissesIntendedHeader | scripts/generate-deploy-script.py:125-126 | as written, a base script holding the intended header is not stamped |
| DeployScript.CorrectedStampsIntendedHeader | scripts/generate-deploy-script.py:92-128 | with the corrected literal, the intended header becomes the version header |
| VersionCheck.FirstVersionFrom | scripts/verify-script-version.py:43 | the regex scan from a position finds the first match at or after it, and there is no earlier one |
| VersionCheck.FindVersion | scripts/verify-script-version.py:43-47 | a match gives 16 lowercase hex digits that follow `MODEL VERSION: ` in the text, and there is no match exactly when no position starts one |
| VersionCheck.ExtractScriptVersion | scripts/verify-script-version.py:36-50 | a version found is a model hash (16 lowercase hex digits) that the readable script holds right after `MODEL VERSION: `; none is found exactly when the script is missing or unreadable or the pattern occurs nowhere in it; otherwise it is the first match |
| VersionCheck.VerifyScriptVersion | scripts/verify-script-version.py:53-69 | true exactly when a version was extracted and it equals the current hash |
| VersionCheck.ExitCode | scripts/verify-script-version.py:72-108 | the exit code is 0 or 1, and 0 exactly when there is one argument, the script exists, the registry loads and the script's version equals the model's hash |
| VersionCheck.FindVersionOfHeader | scripts/generate-deploy-script.py:92-95 | the version header's first match is its own hash |
| VersionCheck.FindVersionInHeader | scripts/verify-script-version.py:43-45 | the hash of a version header is found even after text without a `MODEL VERSION: ` and whatever follows the header |
| VersionCheck.NoVersionWithoutV | scripts/verify-script-version.py:46-47 | a text without a capital `V` has no version |
| VersionCheck.StampedScriptCarriesHash | scripts/verify-script-version.py:43-45 | a stamped script whose text before the header has no `MODEL VERSION: ` yields exactly the stamped hash |
| VersionCheck.StampedScriptVerifiesOnlyItsHash | scripts/verify-script-version.py:53-69 | such a script verifies against a hash exactly when it is the stamped one |
| VersionCheck.GeneratedScriptPassesForItsModel | scripts/verify-script-version.py:72-108 | a script stamped from one model exits 0 against a model exactly when the two models have the same hash |
| VersionCheck.ReorderedModelKeepsScriptValid | scripts/verify-script-version.py:30-33 | reordering the keys of the registry does not invalidate a stamped script |
| VersionCheck.UnstampedScriptKeepsVersion | scripts/generate-deploy-script.py:124-128 | when the header literal is absent, the output carries whatever version the base script had |
| VersionCheck.AsWrittenScriptHasNoVersion | scripts/generate-deploy-script.py:125-126 | a base script that holds the intended header comes out of the generator as written without any version, so it fails verification against every hash |
| VersionCheck.CorrectedScriptVerifies | scripts/verify-script-version.py:53-69 | with the corrected literal, the same script verifies against its model's hash |
| VersionCheck.VerifiesWhenFound | scripts/verify-script-version.py:55-63 | finding the current hash in the script's text is enough to verify |
| DeploymentState.Iterate | scripts/update-deployment-state.py:82 | a `for` loop over a list gives its items; over an object or a string it gives strings; any other value cannot be iterated |
| DeploymentState.Classify | scripts/update-deployment-state.py:98-104 | Running exactly when ready equals total under Python `==`; otherwise Mixed exactly when ready is a number above 0, Pending when it is a number not above 0, and an error when it is not a number |
| DeploymentState.MissingCountsAreRunning | scripts/update-deployment-state.py:87-104 | a Deployment whose status has neither replica count is recorded as Running with 0 of 0 pods |
| DeploymentState.ServiceJson | scripts/update-deployment-state.py:87-96 | a deployed-service record has the eight keys in the source's order; a system-service record has the first six |
| DeploymentState.ReadDeployment | scripts/update-deployment-state.py:82-106 | non-Deployment items are skipped; a record comes only from a Deployment with dictionary metadata and carries that metadata's name and namespace and the status of its pod counts; an item that is not a dictionary raises |
| DeploymentState.ReadSystemDeployment | scripts/update-deployment-state.py:127-151 | exactly the Deployments in namespace `kube-system` are kept; a record carries the metadata's name, the namespace `kube-system` and the status of its pod counts; an item that is not a dictionary raises |
| DeploymentState.Gather | scripts/update-deployment-state.py:78-106 | the loop succeeds exactly when no item raises, and collects at most one service per item |
| DeploymentState.GatherStep | scripts/update-deployment-state.py:82-106 | each iteration raises, skips the item, or appends its service |
| DeploymentState.GatherSound | scripts/update-deployment-state.py:106 | every collected service comes from a parsed item |
| DeploymentState.GatherComplete | scripts/update-deployment-state.py:106 | every parsed item's service is collected |
| DeploymentState.GatherAppend | scripts/update-deployment-state.py:82-106 | collecting over `a + b` is collecting over `a` followed by collecting over `b`, so the output follows the input order |
| DeploymentState.ParseItems | scripts/update-deployment-state.py:82 | the items are what iterating `resources["items"]` gives, no items when the key is missing, and the parse fails when the resources are not an object |
| DeploymentState.Keep | scripts/update-deployment-state.py:111 | a service is kept exactly when its namespace is `ghostbusters-ai` and `ghostbusters` is in its name; the substring test can only fail once the namespace matched |
| DeploymentState.GhostbustersOnly | scripts/update-deployment-state.py:109-112 | the filter fails exactly when some name cannot be searched |
| DeploymentState.GhostbustersOnlySound | scripts/update-deployment-state.py:109-112 | every kept service is a ghostbusters service from the input |
| DeploymentState.GhostbustersOnlyComplete | scripts/update-deployment-state.py:109-112 | every ghostbusters service of the input is kept |
| DeploymentState.GhostbustersOnlySingle | scripts/update-deployment-state.py:109-112 | one record is kept when its namespace is `ghostbusters-ai` and its name contains `ghostbusters`, dropped when the condition is false, and the filter raises when the name cannot be searched |
| DeploymentState.GhostbustersOnlyAppend | scripts/update-deployment-state.py:109-112 | the filter of `a + b` is the filter of `a` followed by the filter of `b`, and it raises exactly when either part raises; so kept records stay in input order, repeated records included |
| DeploymentState.ServiceFromItem | scripts/update-deployment-state.py:82-106 | every collected service is what some item of the listing parses to |
| DeploymentState.DeployedServicesAreGhostbusters | scripts/update-deployment-state.py:82-114 | every deployed-service record is the record of a ghostbusters service, read from some Deployment of the listing |
| DeploymentState.DeployedServicesComplete | scripts/update-deployment-state.py:82-114 | when nothing raises, the record of every ghostbusters Deployment of the listing is reported |
| DeploymentState.DeployedServicesEmptyWhenItemRaises | scripts/update-deployment-state.py:80-118 | an item of the listing that raises (not a dictionary, metadata or status not a dictionary, uncomparable ready count) makes the deployed list empty |
| DeploymentState.DeployedServicesEmptyWhenNameUnsearchable | scripts/update-deployment-state.py:109-118 | a parsed `ghostbusters-ai` Deployment whose name is `None`, a number or a boolean makes the filter raise, so the deployed list is empty |
| DeploymentState.NoServicesWithoutItems | scripts/update-deployment-state.py:82-118 | resources that are not a dictionary, or whose `items` cannot be iterated, give an empty list from both parsers |
| DeploymentState.SystemServicesAreKubeSystem | scripts/update-deployment-state.py:127-153 | every system-service record is the record of a `kube-system` service whose status is that of its pod counts, read from some Deployment of the listing |
| DeploymentState.SystemServicesEmptyWhenItemRaises | scripts/update-deployment-state.py:125-157 | an item of the listing that raises makes the system list empty |
| DeploymentState.SystemServicesComplete | scripts/update-deployment-state.py:127-153 | when nothing raises, the record of every `kube-system` Deployment of the listing is reported |
| DeploymentState.DeployedRecordType | scripts/update-deployment-state.py:94 | every deployed-service record has type `ClusterIP` |
| DeploymentState.DeployedRecordPorts | scripts/update-deployment-state.py:95 | every deployed-service record has ports `[8080, 9090]` |
| DeploymentState.CollectServices | scripts/update-deployment-state.py:78-106 | the append loop over the items computes `Gather` of their outcomes |
| DeploymentState.ParseDeployedServices | scripts/update-deployment-state.py:76-118 | `parse_deployed_services` computes `DeployedServices` |
| DeploymentState.ParseSystemServices | scripts/update-deployment-state.py:121-157 | `parse_system_services` computes `SystemServices` |
| DeploymentState.CountStatus | scripts/update-deployment-state.py:173-174 | the count of services with a status is 0 exactly when none has it, and the whole list exactly when all have it |
| DeploymentState.CountsPartition | scripts/update-deployment-state.py:173-174 | the Running, Mixed and Pending counts add up to the number of services |
| DeploymentState.Health | scripts/update-deployment-state.py:176-183 | "No services deployed" exactly for no services; "All services running" exactly when all are Running; "All services pending" exactly when none is Running; the Mixed line with the running and pending counts exactly when some are Running and some are not |
| DeploymentState.HealthLinesDistinct | scripts/update-deployment-state.py:176-183 | the four health lines are different texts |
| DeploymentState.MixedCounts | scripts/update-deployment-state.py:180-181 | in the Mixed case at least one service runs, and Mixed-status services are counted in neither number |
| DeploymentState.StateLayout | scripts/update-deployment-state.py:185-209 | the new state has the eleven keys in the source's order |
| DeploymentState.StateClusterStatus | scripts/update-deployment-state.py:186 | `cluster_status` is the cluster's status |
| DeploymentState.StateClusterVersion | scripts/update-deployment-state.py:187 | `cluster_version` is the cluster's version |
| DeploymentState.StateNodeCount | scripts/update-deployment-state.py:188 | `node_count` is the cluster's node count |
| DeploymentState.NewStateClusterDefaults | scripts/update-deployment-state.py:186-188 | the new state's `cluster_status`, `cluster_version` and `node_count` are the cluster's `status`, `version` and `node_count`, or "Unknown", "Unknown" and 0 where the cluster information lacks the key |
| DeploymentState.StateDeploymentTimestamp | scripts/update-deployment-state.py:189 | `deployment_timestamp` is the timestamp given |
| DeploymentState.StateLastUpdated | scripts/update-deployment-state.py:207 | `last_updated` is the same timestamp |
| DeploymentState.StateHealth | scripts/update-deployment-state.py:208 | `deployment_health` is the health line |
| DeploymentState.ProjectModel.UpdateDeploymentState | scripts/update-deployment-state.py:160-214 | succeeds exactly when the path to `gcp_project_setup` leads to an object; then the model becomes the nested assignment of the new state and is returned; otherwise the model is unchanged |
| DeploymentState.UpdateStoresState | scripts/update-deployment-state.py:212 | after the update, `gcp_project_setup.deployment_state` is the new state |
| DeploymentState.UpdateKeepsOtherPaths | scripts/update-deployment-state.py:212-214 | every other path of the model reads what it read before |
| DeploymentState.UpdateReplacesEarlierState | scripts/update-deployment-state.py:212 | updating twice gives the same model as updating once with the later state |

## Left out

- File and process side effects are not modelled. This covers `load_project_model`, `write_script` with its `chmod`, `save_project_model`, `print` and `sys.exit`. Whether a file exists or can be read or parsed is an input (`Option`, `ScriptFile`, `Registry`), and each fatal exit becomes an error value.
- SHA-256 is a parameter `sha: seq<byte> -> Digest` with 32-byte digests. The properties follow from determinism alone. `json.dumps` itself is modelled.
- Floating-point JSON numbers are not modelled; the `Json` type has integers only.
- Python's `repr` is approximated for non-ASCII characters: all of them are treated as printable. This only matters for `str()` of lists and dictionaries holding such characters.
- `datetime.now()` is a `timestamp` parameter of the deploy generator and of the updater.
- The base script `deploy-ghostbusters.sh` is a parameter of the deploy generator: its content, or `None` when it is missing.
- `get_gke_cluster_status` and `get_k8s_resources` run `gcloud` and `kubectl`. Their results are inputs. The `"error"` checks of the updater's `main`, its summary printing, and its lookup of `project_id` are not modelled.
- `calculate_model_hash` is written once, in `JsonHash`, because the two scripts define the same function.
- `DeploymentState.ProjectModel.UpdateDeploymentState` takes the parsed services as `Service` values rather than dictionaries. It renders them as the dictionaries the source builds. It takes the cluster status as the entries of its dictionary.
- `DeploymentState.ProjectModel.UpdateDeploymentState`: the dictionary updated in place is modelled by replacing the whole `root` value. The replacement is the nested assignment, and `Json.PutAtKeepsOthers` says nothing else changes. Aliasing of inner dictionaries is not modelled.
- `DeployScript.ConfigureScript`: the source writes six consecutive `replace` statements. The model runs one loop over the `Settings` table, whose rows are the six assignments in source order. Each iteration is the corresponding statement, including its `KeyError` on a missing variable.
- `DeployScript.Deploy` and `DeployScript.GenerateScript` take the header literal as a parameter (`|header| > 0`), so that both the literal as written and the corrected one can be stated.
- `DeployScript.StampInsertsHeader` and `VersionCheck.StampedScriptCarriesHash` cover only base scripts whose text up to the first header has no `MODEL VERSION: ` and no earlier header. Other scripts are covered only by the general `Stamp` definition.
- `Templates.Unpack` reports a template that is not a string as an error even when there are no variables. Python would return the non-string and fail later, when it writes the file. When the template is not a string and an array value is also in error, the model reports the template error. Python reports the one it meets first.
- `Json.Get` returns the first entry for a key. An object with a repeated key stands for no Python dictionary (`json.load` keeps the last value), and the model does not exclude such objects.
- The `except Exception` of the two service parsers is modelled as returning the empty list on the errors Python can raise here. These are an item, metadata or status that is not a dictionary, resources that are not a dictionary, an `items` value that cannot be iterated, a ready count that cannot be compared with 0, and, in the deployed-service filter, a name that is `None`, a number or a boolean.

## Findings

| source | as written | input that shows it | evidently intended | confidence | as-written member | corrected member |
|---|---|---|---|---|---|---|
| scripts/generate-deploy-script.py:125-126 | the header literal to replace contains a backslash-newline continuation inside the string, so its gcloud line reads `(     Google Cloud SDK)` with five spaces | a base script starting with the header the generator itself writes below its version lines, whose gcloud line reads `(Google Cloud SDK)`: the replace finds nothing, so the output carries no `MODEL VERSION` line and fails verification | the literal with `(Google Cloud SDK)`, as in the version header at lines 103-104 | not executed | DeployScript.AsWrittenMissesIntendedHeader, VersionCheck.AsWrittenScriptHasNoVersion | DeployScript.CorrectedStampsIntendedHeader, VersionCheck.CorrectedScriptVerifies |
