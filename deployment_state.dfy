/**
 * `update-deployment-state.py`: turns the `kubectl get all` listing into
 * service records, classifies each by its replica counts, summarises their
 * health, and writes a fresh `deployment_state` entry into the project model.
 * The cluster description, the resource listing and the timestamp are inputs.
 */
module DeploymentState {
  import opened Wrappers
  import opened PyText
  import opened Json
  import Templates

  /** `d.get(k, default)` on a dictionary. */
  function GetOr(fs: seq<Field>, k: string, default: Json): (r: Json)
    ensures Get(fs, k).Some? ==> r == Get(fs, k).value
    ensures Get(fs, k).None? ==> r == default
  {
    match Get(fs, k)
    case Some(v) => v
    case None => default
  }

  /** `for item in value`: what iterating a JSON value yields (a dictionary gives its keys, a string its characters); `None` where Python raises `TypeError`. */
  function Iterate(v: Json): (r: Option<seq<Json>>)
    ensures r.Some? <==> v.JArr? || v.JObj? || v.JStr?
    ensures v.JArr? ==> r == Some(v.items)
    ensures r.Some? && !v.JArr? ==> forall i :: 0 <= i < |r.value| ==> r.value[i].JStr?
  {
    match v
    case JArr(xs) => Some(xs)
    case JObj(fs) => Some(seq(|fs|, i requires 0 <= i < |fs| => JStr(fs[i].key)))
    case JStr(s) => Some(seq(|s|, i requires 0 <= i < |s| => JStr([s[i]])))
    case _ => None
  }

  // ---- One service ----

  datatype Status = Running | Mixed | Pending

  function StatusName(s: Status): string
  {
    match s
    case Running => "Running"
    case Mixed => "Mixed"
    case Pending => "Pending"
  }

  /**
   * The status rule: Running when the ready count equals the desired count,
   * else Mixed when some pods are ready, else Pending; `None` where `ready > 0`
   * raises because the ready count is not a number.
   */
  function Classify(ready: Json, total: Json): (r: Option<Status>)
    ensures r == Some(Running) <==> PyEq(ready, total)
    ensures r == Some(Mixed) <==> !PyEq(ready, total) && (ready.JBool? || ready.JInt?) && NumVal(ready) > 0
    ensures r == Some(Pending) <==> !PyEq(ready, total) && (ready.JBool? || ready.JInt?) && NumVal(ready) <= 0
    ensures r.None? <==> !PyEq(ready, total) && !(ready.JBool? || ready.JInt?)
  {
    if PyEq(ready, total) then Some(Running)
    else match PyGreaterThanZero(ready)
      case None => None
      case Some(positive) => if positive then Some(Mixed) else Some(Pending)
  }

  /** The fields of a service record that vary. */
  datatype Service = Service(name: Json, namespace: Json, status: Status, readyPods: Json, totalPods: Json)

  /** The keys of a deployed service's `service_info`, in the order it is written; system services stop after `age`. */
  const DeployedKeys: seq<string> := ["name", "namespace", "status", "ready_pods", "total_pods", "age", "service_type", "ports"]

  /** `service_info` as a dictionary; deployed services carry the fixed type and default ports. */
  function ServiceJson(s: Service, deployed: bool): (j: Json)
    ensures j.JObj?
    ensures deployed ==> Keys(j.fields) == DeployedKeys
    ensures !deployed ==> Keys(j.fields) == DeployedKeys[..6]
  {
    var common := [
      Field("name", s.name), Field("namespace", s.namespace), Field("status", JStr(StatusName(s.status))),
      Field("ready_pods", s.readyPods), Field("total_pods", s.totalPods), Field("age", JStr("unknown"))];
    if deployed then
      JObj(common + [Field("service_type", JStr("ClusterIP")), Field("ports", JArr([JInt(8080), JInt(9090)]))])
    else JObj(common)
  }

  /** What the loop body does with one item: skip it, build a record, or raise (which makes the whole parse give `[]`). */
  datatype ItemOutcome = Skipped | Parsed(service: Service) | Raises

  /**
   * `item.get("kind") == "Deployment"` on a dictionary. Python's `==` against
   * a string holds exactly for that string (`Json.PyEqString`), so the
   * comparisons with literals below are written with `==`.
   */
  predicate IsDeployment(fs: seq<Field>)
  {
    GetOr(fs, "kind", JNull) == JStr("Deployment")
  }

  /**
   * The `service_info` record both loops build from a Deployment's metadata
   * and status; it raises when `status` is not a dictionary or the pod counts
   * cannot be compared.
   */
  function Record(metadata: seq<Field>, status: Json, namespace: Json): (r: ItemOutcome)
    ensures !r.Skipped?
    ensures r.Parsed? <==>
      status.JObj? && Classify(GetOr(status.fields, "readyReplicas", JInt(0)), GetOr(status.fields, "replicas", JInt(0))).Some?
    ensures r.Parsed? ==>
      r.service.name == GetOr(metadata, "name", JNull) &&
      r.service.namespace == namespace &&
      r.service.readyPods == GetOr(status.fields, "readyReplicas", JInt(0)) &&
      r.service.totalPods == GetOr(status.fields, "replicas", JInt(0)) &&
      Classify(r.service.readyPods, r.service.totalPods) == Some(r.service.status)
  {
    if !status.JObj? then Raises
    else
      var ready := GetOr(status.fields, "readyReplicas", JInt(0));
      var total := GetOr(status.fields, "replicas", JInt(0));
      match Classify(ready, total)
      case None => Raises
      case Some(st) => Parsed(Service(GetOr(metadata, "name", JNull), namespace, st, ready, total))
  }

  /**
   * Missing counts default to 0 on both sides, so a Deployment whose status
   * has no replica counts is recorded as Running with 0 of 0 pods.
   */
  lemma MissingCountsAreRunning(metadata: seq<Field>, status: seq<Field>, namespace: Json)
    requires Get(status, "readyReplicas").None? && Get(status, "replicas").None?
    ensures Record(metadata, JObj(status), namespace) ==
      Parsed(Service(GetOr(metadata, "name", JNull), namespace, Running, JInt(0), JInt(0)))
  {
    assert PyEq(JInt(0), JInt(0));
  }

  /**
   * The body of the loop of `parse_deployed_services` for one item. A record
   * comes only from a Deployment with dictionary metadata, and carries the
   * name and namespace of that metadata and the status of its pod counts.
   */
  function ReadDeployment(item: Json): (r: ItemOutcome)
    ensures r.Parsed? ==>
      item.JObj? && IsDeployment(item.fields) &&
      var metadata := GetOr(item.fields, "metadata", JObj([]));
      metadata.JObj? &&
      r.service.name == GetOr(metadata.fields, "name", JNull) &&
      r.service.namespace == GetOr(metadata.fields, "namespace", JNull) &&
      Classify(r.service.readyPods, r.service.totalPods) == Some(r.service.status)
    ensures !item.JObj? ==> r.Raises?
    ensures r.Skipped? <==> item.JObj? && !IsDeployment(item.fields)
    ensures item.JObj? && !r.Skipped? ==>
      var metadata := GetOr(item.fields, "metadata", JObj([]));
      (!metadata.JObj? ==> r.Raises?) &&
      (metadata.JObj? ==> r == Record(metadata.fields, GetOr(item.fields, "status", JObj([])), GetOr(metadata.fields, "namespace", JNull)))
  {
    match item
    case JObj(fs) =>
      if !IsDeployment(fs) then Skipped
      else
        var metadata := GetOr(fs, "metadata", JObj([]));
        if !metadata.JObj? then Raises
        else Record(metadata.fields, GetOr(fs, "status", JObj([])), GetOr(metadata.fields, "namespace", JNull))
    case _ => Raises
  }

  /**
   * The body of the loop of `parse_system_services`: Deployments whose
   * metadata namespace is `kube-system`. A record comes only from such a
   * Deployment, carries its name and the status of its pod counts, and is
   * always in `kube-system`.
   */
  function ReadSystemDeployment(item: Json): (r: ItemOutcome)
    ensures r.Parsed? ==>
      item.JObj? && IsDeployment(item.fields) &&
      var metadata := GetOr(item.fields, "metadata", JObj([]));
      metadata.JObj? &&
      GetOr(metadata.fields, "namespace", JNull) == JStr("kube-system") &&
      r.service.name == GetOr(metadata.fields, "name", JNull) &&
      r.service.namespace == JStr("kube-system") &&
      Classify(r.service.readyPods, r.service.totalPods) == Some(r.service.status)
    ensures !item.JObj? ==> r.Raises?
    ensures r.Skipped? <==>
      item.JObj? &&
      (!IsDeployment(item.fields) ||
       (GetOr(item.fields, "metadata", JObj([])).JObj? &&
        GetOr(GetOr(item.fields, "metadata", JObj([])).fields, "namespace", JNull) != JStr("kube-system")))
    ensures item.JObj? && !r.Skipped? ==>
      var metadata := GetOr(item.fields, "metadata", JObj([]));
      (!metadata.JObj? ==> r.Raises?) &&
      (metadata.JObj? ==> r == Record(metadata.fields, GetOr(item.fields, "status", JObj([])), JStr("kube-system")))
  {
    match item
    case JObj(fs) =>
      if !IsDeployment(fs) then Skipped
      else
        var metadata := GetOr(fs, "metadata", JObj([]));
        if !metadata.JObj? then Raises
        else if GetOr(metadata.fields, "namespace", JNull) != JStr("kube-system") then Skipped
        else Record(metadata.fields, GetOr(fs, "status", JObj([])), JStr("kube-system"))
    case _ => Raises
  }

  function Read(item: Json, system: bool): ItemOutcome
  {
    if system then ReadSystemDeployment(item) else ReadDeployment(item)
  }

  // ---- The loop over the items ----

  /** What the loop body does with each item, in order. */
  function Outcomes(items: seq<Json>, system: bool): (os: seq<ItemOutcome>)
    ensures |os| == |items| && forall i :: 0 <= i < |items| ==> os[i] == Read(items[i], system)
  {
    seq(|items|, i requires 0 <= i < |items| => Read(items[i], system))
  }

  /**
   * The loop as a whole: the records appended in the order of the items, or
   * `None` as soon as one item raises.
   */
  function Gather(os: seq<ItemOutcome>): (r: Option<seq<Service>>)
    ensures r.Some? <==> forall i :: 0 <= i < |os| ==> !os[i].Raises?
    ensures r.Some? ==> |r.value| <= |os|
    decreases |os|
  {
    if os == [] then Some([])
    else
      var init := os[..|os| - 1];
      assert forall i :: 0 <= i < |init| ==> init[i] == os[i];
      match Gather(init)
      case None => None
      case Some(ss) =>
        match os[|os| - 1]
        case Raises => None
        case Skipped => Some(ss)
        case Parsed(s) => Some(ss + [s])
  }

  /** One more turn of the loop: the outcome of the next item decides the next state. */
  lemma GatherStep(os: seq<ItemOutcome>, i: nat)
    requires i < |os|
    ensures Gather(os[..i + 1]) ==
      match Gather(os[..i])
      case None => None
      case Some(ss) => (match os[i] case Raises => None case Skipped => Some(ss) case Parsed(s) => Some(ss + [s]))
  {
    assert os[..i + 1][..i] == os[..i];
  }

  /** Every record comes from an item that parsed to it. */
  lemma {:induction false} GatherSound(os: seq<ItemOutcome>)
    requires Gather(os).Some?
    ensures forall j :: 0 <= j < |Gather(os).value| ==> Parsed(Gather(os).value[j]) in os
    decreases |os|
  {
    if os != [] {
      var init := os[..|os| - 1];
      GatherSound(init);
      assert forall x :: x in init ==> x in os;
    }
  }

  /** Every item that parsed contributes its record. */
  lemma {:induction false} GatherComplete(os: seq<ItemOutcome>)
    requires Gather(os).Some?
    ensures forall i :: 0 <= i < |os| && os[i].Parsed? ==> os[i].service in Gather(os).value
    decreases |os|
  {
    if os != [] {
      var init := os[..|os| - 1];
      GatherComplete(init);
      assert forall i :: 0 <= i < |init| ==> init[i] == os[i];
    }
  }

  /** The loop is compositional: the records of `a + b` are those of `a` followed by those of `b`, so listing order is kept. */
  lemma {:induction false} GatherAppend(a: seq<ItemOutcome>, b: seq<ItemOutcome>)
    ensures Gather(a + b) ==
      if Gather(a).Some? && Gather(b).Some? then Some(Gather(a).value + Gather(b).value) else None
    decreases |b|
  {
    if b == [] {
      assert a + b == a;
      assert Gather(a).Some? ==> Gather(a).value + [] == Gather(a).value;
    } else {
      var b' := b[..|b| - 1];
      GatherAppend(a, b');
      assert (a + b)[..|a + b| - 1] == a + b';
      assert (a + b)[|a + b| - 1] == b[|b| - 1];
      if Gather(a).Some? && Gather(b').Some? && b[|b| - 1].Parsed? {
        var x, y, s := Gather(a).value, Gather(b').value, b[|b| - 1].service;
        assert x + y + [s] == x + (y + [s]);
      }
    }
  }

  /** The items of `resources.get("items", [])`, with `None` where the parse raises before the loop. */
  function ParseItems(resources: Json): (r: Option<seq<Json>>)
    ensures resources.JObj? && Get(resources.fields, "items").None? ==> r == Some([])
    ensures resources.JObj? && Get(resources.fields, "items").Some? ==> r == Iterate(Get(resources.fields, "items").value)
    ensures !resources.JObj? ==> r.None?
  {
    match resources
    case JObj(fs) => Iterate(GetOr(fs, "items", JArr([])))
    case _ => None
  }

  /** The records before the namespace/name filter, or `None` when the parse raises. */
  function ParseServices(resources: Json, system: bool): Option<seq<Service>>
  {
    match ParseItems(resources)
    case None => None
    case Some(items) => Gather(Outcomes(items, system))
  }

  /** `s["namespace"] == "ghostbusters-ai" and "ghostbusters" in s["name"]` holds. */
  predicate IsGhostbusters(s: Service)
  {
    s.namespace == JStr("ghostbusters-ai") && PyIn("ghostbusters", s.name) == Some(true)
  }

  /** The comprehension's condition evaluated on one record; `None` where `in` raises on the name. */
  function Keep(s: Service): (r: Option<bool>)
    ensures r == Some(true) <==> IsGhostbusters(s)
    ensures r.None? ==> s.namespace == JStr("ghostbusters-ai")
  {
    if s.namespace != JStr("ghostbusters-ai") then Some(false)
    else PyIn("ghostbusters", s.name)
  }

  /** The comprehension keeping the ghostbusters services; `None` where the condition raises. */
  function GhostbustersOnly(ss: seq<Service>): (r: Option<seq<Service>>)
    ensures r.Some? <==> forall i :: 0 <= i < |ss| ==> Keep(ss[i]).Some?
    decreases |ss|
  {
    if ss == [] then Some([])
    else
      assert forall i :: 1 <= i < |ss| ==> ss[1..][i - 1] == ss[i];
      match GhostbustersOnly(ss[1..])
      case None => None
      case Some(rest) =>
        match Keep(ss[0])
        case None => None
        case Some(keep) => if keep then Some([ss[0]] + rest) else Some(rest)
  }

  /** Only ghostbusters services are kept, each one from the list. */
  lemma {:induction false} GhostbustersOnlySound(ss: seq<Service>)
    requires GhostbustersOnly(ss).Some?
    ensures forall i :: 0 <= i < |GhostbustersOnly(ss).value| ==>
      IsGhostbusters(GhostbustersOnly(ss).value[i]) && GhostbustersOnly(ss).value[i] in ss
    decreases |ss|
  {
    if ss != [] {
      var rest := GhostbustersOnly(ss[1..]).value;
      var r := GhostbustersOnly(ss).value;
      GhostbustersOnlySound(ss[1..]);
      var d := if Keep(ss[0]) == Some(true) then 1 else 0;
      assert r == (if d == 1 then [ss[0]] else []) + rest;
      forall i | 0 <= i < |r|
        ensures IsGhostbusters(r[i]) && r[i] in ss
      {
        if i >= d {
          assert r[i] == rest[i - d];
          assert rest[i - d] in ss[1..];
        }
      }
    }
  }

  /** Every ghostbusters service of the list is kept. */
  lemma {:induction false} GhostbustersOnlyComplete(ss: seq<Service>)
    requires GhostbustersOnly(ss).Some?
    ensures forall i :: 0 <= i < |ss| && IsGhostbusters(ss[i]) ==> ss[i] in GhostbustersOnly(ss).value
    decreases |ss|
  {
    if ss != [] {
      GhostbustersOnlyComplete(ss[1..]);
      assert forall i :: 1 <= i < |ss| ==> ss[i] == ss[1..][i - 1];
    }
  }

  /** On one record the comprehension keeps it, drops it or raises, as its condition says. */
  lemma GhostbustersOnlySingle(s: Service)
    ensures GhostbustersOnly([s]) ==
      match Keep(s)
      case None => None
      case Some(keep) => Some(if keep then [s] else [])
  {
    assert [s][1..] == [];
    assert [s][0] == s;
    assert GhostbustersOnly([s][1..]) == Some([]);
    assert [s] + [] == [s];
  }

  /**
   * The comprehension distributes over concatenation: the kept records of
   * `a + b` are those of `a` followed by those of `b`, so the input order and
   * repeated records survive, and it raises exactly when either part does.
   */
  lemma {:induction false} GhostbustersOnlyAppend(a: seq<Service>, b: seq<Service>)
    ensures GhostbustersOnly(a + b) ==
      if GhostbustersOnly(a).Some? && GhostbustersOnly(b).Some?
      then Some(GhostbustersOnly(a).value + GhostbustersOnly(b).value) else None
    decreases |a|
  {
    if a == [] {
      assert a + b == b;
      assert GhostbustersOnly(b).Some? ==> [] + GhostbustersOnly(b).value == GhostbustersOnly(b).value;
    } else {
      GhostbustersOnlyAppend(a[1..], b);
      assert (a + b)[1..] == a[1..] + b;
      assert (a + b)[0] == a[0];
      if GhostbustersOnly(a[1..]).Some? && GhostbustersOnly(b).Some? && Keep(a[0]) == Some(true) {
        var x, y := GhostbustersOnly(a[1..]).value, GhostbustersOnly(b).value;
        assert [a[0]] + (x + y) == ([a[0]] + x) + y;
      }
    }
  }

  function ServicesJson(ss: seq<Service>, deployed: bool): (js: seq<Json>)
    ensures |js| == |ss| && forall i :: 0 <= i < |ss| ==> js[i] == ServiceJson(ss[i], deployed)
  {
    seq(|ss|, i requires 0 <= i < |ss| => ServiceJson(ss[i], deployed))
  }

  /**
   * `parse_deployed_services`: the ghostbusters Deployments of
   * `ghostbusters-ai` in listing order, as dictionaries; `[]` when anything
   * on the way raises. The order is kept by the loop (`GatherAppend`) and
   * by the filter (`GhostbustersOnlyAppend`).
   */
  function DeployedServices(resources: Json): (r: seq<Json>)
    ensures ParseServices(resources, false).None? ==> r == []
    ensures ParseServices(resources, false).Some? ==>
      var ss := ParseServices(resources, false).value;
      (GhostbustersOnly(ss).Some? ==> r == ServicesJson(GhostbustersOnly(ss).value, true)) &&
      (GhostbustersOnly(ss).None? ==> r == [])
  {
    match ParseServices(resources, false)
    case None => []
    case Some(ss) =>
      match GhostbustersOnly(ss)
      case None => []
      case Some(kept) => ServicesJson(kept, true)
  }

  /** `parse_system_services`: the Deployments of `kube-system` in listing order; `[]` when anything raises. */
  function SystemServices(resources: Json): (r: seq<Json>)
    ensures ParseServices(resources, true).None? ==> r == []
    ensures ParseServices(resources, true).Some? ==> r == ServicesJson(ParseServices(resources, true).value, false)
  {
    match ParseServices(resources, true)
    case None => []
    case Some(ss) => ServicesJson(ss, false)
  }

  /** Every service the loop collects is what some item of the listing parses to. */
  lemma ServiceFromItem(resources: Json, system: bool, s: Service)
    requires ParseServices(resources, system).Some? && s in ParseServices(resources, system).value
    ensures ParseItems(resources).Some? &&
      exists i :: 0 <= i < |ParseItems(resources).value| && Read(ParseItems(resources).value[i], system) == Parsed(s)
  {
    var items := ParseItems(resources).value;
    var os := Outcomes(items, system);
    var ss := Gather(os).value;
    GatherSound(os);
    var j :| 0 <= j < |ss| && ss[j] == s;
    assert Parsed(ss[j]) in os;
    var i :| 0 <= i < |os| && os[i] == Parsed(s);
  }

  /**
   * Every deployed service is the record of a ghostbusters service of
   * `ghostbusters-ai`, read from some Deployment of the listing.
   */
  lemma DeployedServicesAreGhostbusters(resources: Json, k: nat)
    requires k < |DeployedServices(resources)|
    ensures exists s: Service :: IsGhostbusters(s) && DeployedServices(resources)[k] == ServiceJson(s, true)
    ensures ParseItems(resources).Some? &&
      exists i :: 0 <= i < |ParseItems(resources).value| &&
        ReadDeployment(ParseItems(resources).value[i]).Parsed? &&
        IsGhostbusters(ReadDeployment(ParseItems(resources).value[i]).service) &&
        DeployedServices(resources)[k] == ServiceJson(ReadDeployment(ParseItems(resources).value[i]).service, true)
  {
    var ss := ParseServices(resources, false).value;
    var kept := GhostbustersOnly(ss).value;
    GhostbustersOnlySound(ss);
    assert DeployedServices(resources)[k] == ServiceJson(kept[k], true);
    ServiceFromItem(resources, false, kept[k]);
  }

  /** An item that raises, such as a Deployment whose status is not a dictionary, makes the deployed list empty. */
  lemma DeployedServicesEmptyWhenItemRaises(resources: Json, i: nat)
    requires ParseItems(resources).Some?
    requires i < |ParseItems(resources).value| && ReadDeployment(ParseItems(resources).value[i]).Raises?
    ensures DeployedServices(resources) == []
  {
    var os := Outcomes(ParseItems(resources).value, false);
    assert os[i].Raises?;
  }

  /**
   * A Deployment of `ghostbusters-ai` whose name is `None`, a number or a
   * boolean makes the filter raise, so the deployed list is empty.
   */
  lemma DeployedServicesEmptyWhenNameUnsearchable(resources: Json, i: nat)
    requires ParseServices(resources, false).Some?
    requires i < |ParseItems(resources).value| && ReadDeployment(ParseItems(resources).value[i]).Parsed?
    requires var s := ReadDeployment(ParseItems(resources).value[i]).service;
      s.namespace == JStr("ghostbusters-ai") && (s.name.JNull? || s.name.JInt? || s.name.JBool?)
    ensures DeployedServices(resources) == []
  {
    var os := Outcomes(ParseItems(resources).value, false);
    var ss := Gather(os).value;
    GatherComplete(os);
    var s := os[i].service;
    var j :| 0 <= j < |ss| && ss[j] == s;
    assert Keep(ss[j]).None?;
  }

  /** Resources that are not a dictionary, or whose `items` cannot be iterated, give no services of either kind. */
  lemma NoServicesWithoutItems(resources: Json)
    requires !resources.JObj? || (Get(resources.fields, "items").Some? && Iterate(Get(resources.fields, "items").value).None?)
    ensures DeployedServices(resources) == [] && SystemServices(resources) == []
  {
  }

  /**
   * When neither the parse nor the filter raises, every ghostbusters
   * Deployment of the listing is reported.
   */
  lemma DeployedServicesComplete(resources: Json, i: nat)
    requires ParseServices(resources, false).Some? && GhostbustersOnly(ParseServices(resources, false).value).Some?
    requires i < |ParseItems(resources).value| && ReadDeployment(ParseItems(resources).value[i]).Parsed?
    requires IsGhostbusters(ReadDeployment(ParseItems(resources).value[i]).service)
    ensures ServiceJson(ReadDeployment(ParseItems(resources).value[i]).service, true) in DeployedServices(resources)
  {
    var items := ParseItems(resources).value;
    var os := Outcomes(items, false);
    GatherComplete(os);
    var s := os[i].service;
    var ss := Gather(os).value;
    var k :| 0 <= k < |ss| && ss[k] == s;
    GhostbustersOnlyComplete(ss);
    var kept := GhostbustersOnly(ss).value;
    var j :| 0 <= j < |kept| && kept[j] == s;
    assert DeployedServices(resources)[j] == ServiceJson(s, true);
  }

  /** Every system-service record is the record of a `kube-system` Deployment of the listing, with the status of its pod counts. */
  lemma SystemServicesAreKubeSystem(resources: Json, k: nat)
    requires k < |SystemServices(resources)|
    ensures exists s: Service ::
      s.namespace == JStr("kube-system") && Classify(s.readyPods, s.totalPods) == Some(s.status) &&
      SystemServices(resources)[k] == ServiceJson(s, false)
    ensures ParseItems(resources).Some? &&
      exists i :: 0 <= i < |ParseItems(resources).value| &&
        ReadSystemDeployment(ParseItems(resources).value[i]).Parsed? &&
        SystemServices(resources)[k] == ServiceJson(ReadSystemDeployment(ParseItems(resources).value[i]).service, false)
  {
    var ss := ParseServices(resources, true).value;
    assert SystemServices(resources)[k] == ServiceJson(ss[k], false);
    ServiceFromItem(resources, true, ss[k]);
    var i :| 0 <= i < |ParseItems(resources).value| && ReadSystemDeployment(ParseItems(resources).value[i]) == Parsed(ss[k]);
  }

  /** An item that raises makes the system list empty. */
  lemma SystemServicesEmptyWhenItemRaises(resources: Json, i: nat)
    requires ParseItems(resources).Some?
    requires i < |ParseItems(resources).value| && ReadSystemDeployment(ParseItems(resources).value[i]).Raises?
    ensures SystemServices(resources) == []
  {
    var os := Outcomes(ParseItems(resources).value, true);
    assert os[i].Raises?;
  }

  /** When the parse does not raise, every `kube-system` Deployment of the listing is reported. */
  lemma SystemServicesComplete(resources: Json, i: nat)
    requires ParseServices(resources, true).Some?
    requires i < |ParseItems(resources).value| && ReadSystemDeployment(ParseItems(resources).value[i]).Parsed?
    ensures ServiceJson(ReadSystemDeployment(ParseItems(resources).value[i]).service, false) in SystemServices(resources)
  {
    var items := ParseItems(resources).value;
    var os := Outcomes(items, true);
    GatherComplete(os);
    var s := os[i].service;
    var ss := Gather(os).value;
    var j :| 0 <= j < |ss| && ss[j] == s;
    assert SystemServices(resources)[j] == ServiceJson(s, false);
  }

  /** A deployed record has type `ClusterIP`. */
  lemma DeployedRecordType(s: Service)
    ensures Get(ServiceJson(s, true).fields, "service_type") == Some(JStr("ClusterIP"))
  {
    var fs := ServiceJson(s, true).fields;
    GetAt(fs, 6);
  }

  /** A deployed record has the default ports 8080 and 9090. */
  lemma DeployedRecordPorts(s: Service)
    ensures Get(ServiceJson(s, true).fields, "ports") == Some(JArr([JInt(8080), JInt(9090)]))
  {
    var fs := ServiceJson(s, true).fields;
    GetAt(fs, 7);
  }

  // ---- The loops as written ----

  /**
   * The `for item in ...` loop both parsers run: each item's record is
   * appended in turn; an item that raises ends the parse.
   */
  method CollectServices(items: seq<Json>, system: bool) returns (r: Option<seq<Service>>)
    ensures r == Gather(Outcomes(items, system))
  {
    ghost var os := Outcomes(items, system);
    var found: seq<Service> := [];
    var i := 0;
    while i < |items|
      invariant 0 <= i <= |items|
      invariant Gather(os[..i]) == Some(found)
    {
      var outcome := Read(items[i], system);
      assert outcome == os[i];
      GatherStep(os, i);
      if outcome.Raises? {
        assert !Gather(os).Some?;
        return None;
      }
      if outcome.Parsed? {
        assert Gather(os[..i + 1]) == Some(found + [outcome.service]);
        found := found + [outcome.service];
      } else {
        assert Gather(os[..i + 1]) == Some(found);
      }
      i := i + 1;
    }
    assert os[..i] == os;
    return Some(found);
  }

  /** `parse_deployed_services`: the loop, then the filter; `[]` when anything raises. */
  method ParseDeployedServices(resources: Json) returns (services: seq<Json>)
    ensures services == DeployedServices(resources)
  {
    var items := ParseItems(resources);
    if items.None? {
      return [];
    }
    var found := CollectServices(items.value, false);
    if found.None? {
      return [];
    }
    var kept := GhostbustersOnly(found.value);
    if kept.None? {
      return [];
    }
    return ServicesJson(kept.value, true);
  }

  /** `parse_system_services`: the loop alone; `[]` when an item raises. */
  method ParseSystemServices(resources: Json) returns (services: seq<Json>)
    ensures services == SystemServices(resources)
  {
    var items := ParseItems(resources);
    if items.None? {
      return [];
    }
    var found := CollectServices(items.value, true);
    if found.None? {
      return [];
    }
    return ServicesJson(found.value, false);
  }

  // ---- Overall health ----

  /** How many services have status `st`. */
  function CountStatus(ss: seq<Service>, st: Status): (n: nat)
    ensures n <= |ss|
    ensures n == 0 <==> forall i :: 0 <= i < |ss| ==> ss[i].status != st
    ensures n == |ss| <==> forall i :: 0 <= i < |ss| ==> ss[i].status == st
    decreases |ss|
  {
    if ss == [] then 0
    else
      assert forall i :: 1 <= i < |ss| ==> ss[1..][i - 1] == ss[i];
      (if ss[0].status == st then 1 else 0) + CountStatus(ss[1..], st)
  }

  /** Every service is counted under exactly one status. */
  lemma {:induction false} CountsPartition(ss: seq<Service>)
    ensures CountStatus(ss, Running) + CountStatus(ss, Mixed) + CountStatus(ss, Pending) == |ss|
    decreases |ss|
  {
    if ss != [] {
      CountsPartition(ss[1..]);
    }
  }

  const NoServicesDeployed: string := "\U{274c} No services deployed"
  const AllServicesRunning: string := "\U{2705} All services running"
  const AllServicesPending: string := "\U{274c} All services pending"

  /** `f"⚠️ Mixed - {len(running_services)} running, {len(pending_services)} pending"`. */
  function MixedHealth(running: nat, pending: nat): (h: string)
    ensures |h| > 0 && h[0] == '\U{26a0}'
  {
    "\U{26a0}\U{fe0f} Mixed - " + NatToDecimal(running) + " running, " + NatToDecimal(pending) + " pending"
  }

  /** The `deployment_health` line. Mixed-status services count neither as running nor as pending. */
  function Health(ss: seq<Service>): (h: string)
    ensures h == NoServicesDeployed <==> ss == []
    ensures h == AllServicesRunning <==> ss != [] && forall i :: 0 <= i < |ss| ==> ss[i].status == Running
    ensures h == AllServicesPending <==> ss != [] && forall i :: 0 <= i < |ss| ==> ss[i].status != Running
    ensures h == MixedHealth(CountStatus(ss, Running), CountStatus(ss, Pending)) <==>
      (exists i :: 0 <= i < |ss| && ss[i].status == Running) && (exists i :: 0 <= i < |ss| && ss[i].status != Running)
  {
    var running := CountStatus(ss, Running);
    var pending := CountStatus(ss, Pending);
    HealthLinesDistinct(running, pending);
    if ss == [] then NoServicesDeployed
    else if forall i :: 0 <= i < |ss| ==> ss[i].status == Running then AllServicesRunning
    else if running > 0 then MixedHealth(running, pending)
    else AllServicesPending
  }

  lemma HealthLinesDistinct(running: nat, pending: nat)
    ensures NoServicesDeployed != AllServicesRunning && NoServicesDeployed != AllServicesPending
    ensures AllServicesRunning != AllServicesPending
    ensures MixedHealth(running, pending) !in {NoServicesDeployed, AllServicesRunning, AllServicesPending}
  {
    assert NoServicesDeployed[0] == '\U{274c}' && AllServicesRunning[0] == '\U{2705}';
    assert AllServicesPending[0] == '\U{274c}';
    assert NoServicesDeployed[2] == 'N' && AllServicesPending[2] == 'A';
  }

  /**
   * The mixed line is chosen when some service is running and some is not
   * (`Health`'s contract); then at least one is running, and the two counts
   * it shows leave out the Mixed ones.
   */
  lemma MixedCounts(ss: seq<Service>)
    requires exists i :: 0 <= i < |ss| && ss[i].status == Running
    requires exists i :: 0 <= i < |ss| && ss[i].status != Running
    ensures CountStatus(ss, Running) >= 1
    ensures CountStatus(ss, Running) + CountStatus(ss, Pending) == |ss| - CountStatus(ss, Mixed)
    ensures CountStatus(ss, Pending) < |ss|
  {
    var i :| 0 <= i < |ss| && ss[i].status == Running;
    assert ss[i].status != Pending;
    CountsPartition(ss);
  }

  // ---- The new state and the update in place ----

  /** The keys of `new_deployment_state`, in the order it is written. */
  const StateKeys: seq<string> := [
    "cluster_status", "cluster_version", "node_count", "deployment_timestamp", "deployed_services",
    "system_services", "monitoring_stack", "resource_utilization", "cost_tracking", "last_updated",
    "deployment_health"]

  /** The fixed monitoring entry (the source's default assumption). */
  const MonitoringStack: Json := JObj([
    Field("gmp-operator", JStr("Running")),
    Field("collector", JStr("Mixed (2/3 Running)")),
    Field("alertmanager", JStr("Pending"))])

  const ResourceUtilization: Json := JObj([
    Field("cpu_usage_percent", JStr("unknown")),
    Field("memory_usage_percent", JStr("unknown")),
    Field("disk_usage_percent", JStr("unknown"))])

  const CostTracking: Json := JObj([
    Field("current_monthly_cost", JStr("unknown")),
    Field("budget_remaining", JStr("unknown")),
    Field("cost_trend", JStr("unknown"))])

  /**
   * The layout of `new_deployment_state`, given the three values read from
   * the cluster description, the two service lists, the health line and the
   * timestamp.
   */
  function StateFields(status: Json, version: Json, nodes: Json, deployed: seq<Json>, system: seq<Json>, health: string, timestamp: string): seq<Field>
  {
    [ Field("cluster_status", status),
      Field("cluster_version", version),
      Field("node_count", nodes),
      Field("deployment_timestamp", JStr(timestamp)),
      Field("deployed_services", JArr(deployed)),
      Field("system_services", JArr(system)),
      Field("monitoring_stack", MonitoringStack),
      Field("resource_utilization", ResourceUtilization),
      Field("cost_tracking", CostTracking),
      Field("last_updated", JStr(timestamp)),
      Field("deployment_health", JStr(health)) ]
  }

  /**
   * `new_deployment_state`, with the timestamp given: the cluster entries are
   * copied with the defaults "Unknown", "Unknown" and 0.
   */
  function NewDeploymentState(cluster: seq<Field>, deployed: seq<Service>, system: seq<Service>, timestamp: string): (state: Json)
  {
    JObj(StateFields(
      GetOr(cluster, "status", JStr("Unknown")), GetOr(cluster, "version", JStr("Unknown")), GetOr(cluster, "node_count", JInt(0)),
      ServicesJson(deployed, true), ServicesJson(system, false), Health(deployed), timestamp))
  }

  /**
   * The new state copies the cluster's status, version and node count, with
   * "Unknown", "Unknown" and 0 where the cluster information lacks them.
   */
  lemma NewStateClusterDefaults(cluster: seq<Field>, deployed: seq<Service>, system: seq<Service>, timestamp: string)
    ensures NewDeploymentState(cluster, deployed, system, timestamp).JObj?
    ensures var fs := NewDeploymentState(cluster, deployed, system, timestamp).fields;
      Get(fs, "cluster_status") == Some(GetOr(cluster, "status", JStr("Unknown"))) &&
      Get(fs, "cluster_version") == Some(GetOr(cluster, "version", JStr("Unknown"))) &&
      Get(fs, "node_count") == Some(GetOr(cluster, "node_count", JInt(0)))
  {
    var status, version, nodes := GetOr(cluster, "status", JStr("Unknown")), GetOr(cluster, "version", JStr("Unknown")), GetOr(cluster, "node_count", JInt(0));
    var ds, ys, health := ServicesJson(deployed, true), ServicesJson(system, false), Health(deployed);
    StateClusterStatus(status, version, nodes, ds, ys, health, timestamp);
    StateClusterVersion(status, version, nodes, ds, ys, health, timestamp);
    StateNodeCount(status, version, nodes, ds, ys, health, timestamp);
  }

  /** The state's keys, in order; hence it is a dictionary with distinct keys. */
  lemma StateLayout(status: Json, version: Json, nodes: Json, deployed: seq<Json>, system: seq<Json>, health: string, timestamp: string)
    ensures Keys(StateFields(status, version, nodes, deployed, system, health, timestamp)) == StateKeys
  {
    var ks := Keys(StateFields(status, version, nodes, deployed, system, health, timestamp));
    assert forall i :: 0 <= i < |ks| ==> ks[i] == StateKeys[i];
  }

  /** The cluster status is stored as read. */
  lemma StateClusterStatus(status: Json, version: Json, nodes: Json, deployed: seq<Json>, system: seq<Json>, health: string, timestamp: string)
    ensures Get(StateFields(status, version, nodes, deployed, system, health, timestamp), "cluster_status") == Some(status)
  {
    GetAt(StateFields(status, version, nodes, deployed, system, health, timestamp), 0);
  }

  /** The cluster version is stored as read. */
  lemma StateClusterVersion(status: Json, version: Json, nodes: Json, deployed: seq<Json>, system: seq<Json>, health: string, timestamp: string)
    ensures Get(StateFields(status, version, nodes, deployed, system, health, timestamp), "cluster_version") == Some(version)
  {
    GetAt(StateFields(status, version, nodes, deployed, system, health, timestamp), 1);
  }

  /** The node count is stored as read. */
  lemma StateNodeCount(status: Json, version: Json, nodes: Json, deployed: seq<Json>, system: seq<Json>, health: string, timestamp: string)
    ensures Get(StateFields(status, version, nodes, deployed, system, health, timestamp), "node_count") == Some(nodes)
  {
    GetAt(StateFields(status, version, nodes, deployed, system, health, timestamp), 2);
  }

  /** The deployment timestamp is the given instant. */
  lemma StateDeploymentTimestamp(status: Json, version: Json, nodes: Json, deployed: seq<Json>, system: seq<Json>, health: string, timestamp: string)
    ensures Get(StateFields(status, version, nodes, deployed, system, health, timestamp), "deployment_timestamp") == Some(JStr(timestamp))
  {
    GetAt(StateFields(status, version, nodes, deployed, system, health, timestamp), 3);
  }

  /** `last_updated` is the same instant as `deployment_timestamp`. */
  lemma StateLastUpdated(status: Json, version: Json, nodes: Json, deployed: seq<Json>, system: seq<Json>, health: string, timestamp: string)
    ensures Get(StateFields(status, version, nodes, deployed, system, health, timestamp), "last_updated") == Some(JStr(timestamp))
  {
    GetAt(StateFields(status, version, nodes, deployed, system, health, timestamp), 9);
  }

  /** The health line is stored as computed. */
  lemma StateHealth(status: Json, version: Json, nodes: Json, deployed: seq<Json>, system: seq<Json>, health: string, timestamp: string)
    ensures Get(StateFields(status, version, nodes, deployed, system, health, timestamp), "deployment_health") == Some(JStr(health))
  {
    GetAt(StateFields(status, version, nodes, deployed, system, health, timestamp), 10);
  }

  /** Why `update_deployment_state` raises before changing anything. */
  datatype UpdateError =
    | PathError(error: Templates.WalkError)  // a step of `model['domains']...['gcp_project_setup']` fails
    | SetupNotObject                         // `gcp_setup["deployment_state"] = ...` on a value that is not a dictionary

  /** The registry being updated; the source changes the loaded dictionary in place. */
  class ProjectModel {
    var root: Json

    constructor (model: Json)
      ensures root == model
    {
      root := model;
    }

    /**
     * `update_deployment_state`: stores the new state under
     * `gcp_project_setup["deployment_state"]`, replacing what was there, and
     * returns the model; on failure the model is left as it was.
     */
    method UpdateDeploymentState(cluster: seq<Field>, deployed: seq<Service>, system: seq<Service>, timestamp: string)
      returns (r: Result<Json, UpdateError>)
      modifies this
      ensures r.Ok? <==> Lookup(old(root), Templates.ProjectSetupPath).Some? && Lookup(old(root), Templates.ProjectSetupPath).value.JObj?
      ensures r.Ok? ==> PutAt(old(root), Templates.ProjectSetupPath, "deployment_state", NewDeploymentState(cluster, deployed, system, timestamp)) == Some(root)
      ensures r.Ok? ==> r.value == root
      ensures r.Err? ==> root == old(root)
    {
      var setup := Templates.Walk(root, Templates.ProjectSetupPath);
      if setup.Err? {
        return Err(PathError(setup.error));
      }
      if !setup.value.JObj? {
        return Err(SetupNotObject);
      }
      var state := NewDeploymentState(cluster, deployed, system, timestamp);
      PutAtDefined(root, Templates.ProjectSetupPath, "deployment_state", state);
      root := PutAt(root, Templates.ProjectSetupPath, "deployment_state", state).value;
      return Ok(root);
    }
  }

  /** After the update the entry holds the new state, whatever it held before. */
  lemma UpdateStoresState(model: Json, state: Json)
    requires PutAt(model, Templates.ProjectSetupPath, "deployment_state", state).Some?
    ensures Lookup(PutAt(model, Templates.ProjectSetupPath, "deployment_state", state).value,
      Templates.ProjectSetupPath + ["deployment_state"]) == Some(state)
  {
    PutAtStores(model, Templates.ProjectSetupPath, "deployment_state", state);
  }

  /** Nothing else in the model changes: every path not through the entry looks up the same value. */
  lemma UpdateKeepsOtherPaths(model: Json, state: Json, q: seq<string>)
    requires PutAt(model, Templates.ProjectSetupPath, "deployment_state", state).Some?
    requires !(q <= Templates.ProjectSetupPath + ["deployment_state"]) && !(Templates.ProjectSetupPath + ["deployment_state"] <= q)
    ensures Lookup(PutAt(model, Templates.ProjectSetupPath, "deployment_state", state).value, q) == Lookup(model, q)
  {
    PutAtKeepsOthers(model, Templates.ProjectSetupPath, "deployment_state", state, q);
  }

  /** A later update replaces an earlier one entirely: running the updater twice equals running it once with the later data. */
  lemma UpdateReplacesEarlierState(model: Json, earlier: Json, later: Json)
    requires PutAt(model, Templates.ProjectSetupPath, "deployment_state", earlier).Some?
    ensures PutAt(PutAt(model, Templates.ProjectSetupPath, "deployment_state", earlier).value, Templates.ProjectSetupPath, "deployment_state", later)
      == PutAt(model, Templates.ProjectSetupPath, "deployment_state", later)
  {
    PutAtOverwrites(model, Templates.ProjectSetupPath, "deployment_state", earlier, later);
  }
}
