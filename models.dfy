/**
 * The persisted records of internal/agent/models.go and their YAML field tags:
 * which keys are always written, which are omitted when empty (`omitempty`),
 * and how a mapping is read back (absent keys give zero values, unknown keys
 * are ignored).
 */
module Models {
  import opened Wrappers
  import opened Yaml

  datatype Architecture = Architecture(style: string, version: string, notes: string)

  datatype HealthSnapshot = HealthSnapshot(status: string, issues: seq<string>)

  datatype Project = Project(name: string, summary: string, template: string)

  datatype Context = Context(
    project: Project,
    architecture: Architecture,
    standards: map<string, seq<string>>,
    constraints: seq<string>,
    qualityGates: seq<string>)

  datatype State = State(
    activeWorkItem: string,
    lastSummary: string,
    branchSuggestion: string,
    health: HealthSnapshot)

  datatype PromptProfile = PromptProfile(
    description: string,
    includeArchitecture: bool,
    includeStandards: bool,
    detail: string)

  datatype PromptProfileSet = PromptProfileSet(profiles: map<string, PromptProfile>)

  /** A creation time in its RFC 3339 text; "" stands for Go's zero time. */
  type Timestamp = string

  datatype WorkItem = WorkItem(
    id: string,
    title: string,
    intent: seq<string>,
    status: string,
    createdAt: Timestamp,
    evidence: seq<string>,
    lastSummary: string,
    acceptanceCriteria: seq<string>,
    branchSuggestion: string)

  /** Front-matter metadata together with the free-form body; the body is not YAML. */
  datatype WorkItemFile = WorkItemFile(meta: WorkItem, body: string)

  // ---------------------------------------------------------------------
  // Architecture
  // ---------------------------------------------------------------------

  function EncodeArchitecture(a: Architecture): (n: Node)
    ensures n.Mapping?
    ensures "style" in n.fields
    ensures "version" in n.fields <==> a.version != ""
    ensures "notes" in n.fields <==> a.notes != ""
    ensures n.fields.Keys <= {"style", "version", "notes"}
  {
    var f := map["style" := Scalar(a.style)];
    var f := if a.version != "" then f["version" := Scalar(a.version)] else f;
    var f := if a.notes != "" then f["notes" := Scalar(a.notes)] else f;
    Mapping(f)
  }

  /**
   * yaml.v3 decoding into `Architecture`: a mapping whose known keys hold
   * scalars; absent keys give "", other keys are ignored.
   */
  function DecodeArchitecture(n: Node): (r: Result<Architecture>)
    ensures r.Ok? <==> (n.Mapping?
      && ScalarOrAbsent(n.fields, "style") && ScalarOrAbsent(n.fields, "version") && ScalarOrAbsent(n.fields, "notes"))
    ensures n == Mapping(map[]) ==> r == Ok(Architecture("", "", ""))
  {
    match n
    case Mapping(f) =>
      var style :- GetString(f, "style");
      var version :- GetString(f, "version");
      var notes :- GetString(f, "notes");
      Ok(Architecture(style, version, notes))
    case _ => Err(YamlError("architecture is not a mapping"))
  }

  lemma ArchitectureRoundTrip(a: Architecture)
    ensures DecodeArchitecture(EncodeArchitecture(a)) == Ok(a)
  {
  }

  // ---------------------------------------------------------------------
  // HealthSnapshot
  // ---------------------------------------------------------------------

  function EncodeHealth(h: HealthSnapshot): (n: Node)
    ensures n.Mapping?
    ensures "status" in n.fields <==> h.status != ""
    ensures "issues" in n.fields <==> |h.issues| > 0
    ensures n.fields.Keys <= {"status", "issues"}
  {
    var f: map<string, Node> := map[];
    var f := if h.status != "" then f["status" := Scalar(h.status)] else f;
    var f := if |h.issues| > 0 then f["issues" := List(h.issues)] else f;
    Mapping(f)
  }

  /** yaml.v3 decoding into `HealthSnapshot`; absent keys give "" and the empty list. */
  function DecodeHealth(n: Node): (r: Result<HealthSnapshot>)
    ensures r.Ok? <==> n.Mapping? && ScalarOrAbsent(n.fields, "status") && ListOrAbsent(n.fields, "issues")
    ensures n == Mapping(map[]) ==> r == Ok(HealthSnapshot("", []))
  {
    match n
    case Mapping(f) =>
      var status :- GetString(f, "status");
      var issues :- GetList(f, "issues");
      Ok(HealthSnapshot(status, issues))
    case _ => Err(YamlError("health is not a mapping"))
  }

  lemma HealthRoundTrip(h: HealthSnapshot)
    ensures DecodeHealth(EncodeHealth(h)) == Ok(h)
  {
  }

  // ---------------------------------------------------------------------
  // Context
  // ---------------------------------------------------------------------

  function EncodeProject(p: Project): (n: Node)
    ensures n.Mapping?
    ensures "name" in n.fields && "summary" in n.fields
    ensures "template" in n.fields <==> p.template != ""
    ensures n.fields.Keys <= {"name", "summary", "template"}
  {
    var f := map["name" := Scalar(p.name), "summary" := Scalar(p.summary)];
    var f := if p.template != "" then f["template" := Scalar(p.template)] else f;
    Mapping(f)
  }

  /** yaml.v3 decoding into `Project`; absent keys give "". */
  function DecodeProject(n: Node): (r: Result<Project>)
    ensures r.Ok? <==> (n.Mapping?
      && ScalarOrAbsent(n.fields, "name") && ScalarOrAbsent(n.fields, "summary") && ScalarOrAbsent(n.fields, "template"))
    ensures n == Mapping(map[]) ==> r == Ok(Project("", "", ""))
  {
    match n
    case Mapping(f) =>
      var name :- GetString(f, "name");
      var summary :- GetString(f, "summary");
      var template :- GetString(f, "template");
      Ok(Project(name, summary, template))
    case _ => Err(YamlError("project is not a mapping"))
  }

  function EncodeStandards(s: map<string, seq<string>>): (n: Node)
    ensures n.Mapping? && n.fields.Keys == s.Keys
  {
    Mapping(map k | k in s :: List(s[k]))
  }

  /** yaml.v3 decoding into `map[string][]string`: every value must be a list. */
  function DecodeStandards(f: map<string, Node>): (r: Result<map<string, seq<string>>>)
    ensures r.Ok? <==> forall k :: k in f ==> f[k].List?
    ensures r.Ok? ==> r.value.Keys == f.Keys && forall k :: k in f ==> r.value[k] == f[k].items
  {
    if forall k :: k in f ==> f[k].List? then Ok(map k | k in f :: f[k].items)
    else Err(YamlError("standards must map names to lists"))
  }

  function EncodeContext(c: Context): (n: Node)
    ensures n.Mapping?
    ensures "project" in n.fields && "architecture" in n.fields
    ensures "standards" in n.fields <==> |c.standards| > 0
    ensures "constraints" in n.fields <==> |c.constraints| > 0
    ensures "quality_gates" in n.fields <==> |c.qualityGates| > 0
    ensures n.fields.Keys <= {"project", "architecture", "standards", "constraints", "quality_gates"}
  {
    var f := map["project" := EncodeProject(c.project), "architecture" := EncodeArchitecture(c.architecture)];
    var f := if |c.standards| > 0 then f["standards" := EncodeStandards(c.standards)] else f;
    var f := if |c.constraints| > 0 then f["constraints" := List(c.constraints)] else f;
    var f := if |c.qualityGates| > 0 then f["quality_gates" := List(c.qualityGates)] else f;
    Mapping(f)
  }

  /**
   * yaml.v3 decoding into `Context`: a mapping whose nested records and lists
   * have their shapes; an empty document gives the zero Context.
   */
  function DecodeContext(n: Node): (r: Result<Context>)
    ensures !n.Mapping? ==> r.Err?
    ensures r.Ok? ==> (n.Mapping?
      && MappingOrAbsent(n.fields, "project") && MappingOrAbsent(n.fields, "architecture")
      && MappingOrAbsent(n.fields, "standards")
      && ListOrAbsent(n.fields, "constraints") && ListOrAbsent(n.fields, "quality_gates"))
    ensures n == Mapping(map[]) ==>
      r == Ok(Context(Project("", "", ""), Architecture("", "", ""), map[], [], []))
  {
    match n
    case Mapping(f) =>
      var pf :- GetMapping(f, "project");
      var project :- DecodeProject(Mapping(pf));
      var af :- GetMapping(f, "architecture");
      var architecture :- DecodeArchitecture(Mapping(af));
      var sf :- GetMapping(f, "standards");
      var standards :- DecodeStandards(sf);
      var constraints :- GetList(f, "constraints");
      var gates :- GetList(f, "quality_gates");
      Ok(Context(project, architecture, standards, constraints, gates))
    case _ => Err(YamlError("context is not a mapping"))
  }

  lemma ContextRoundTrip(c: Context)
    ensures DecodeContext(EncodeContext(c)) == Ok(c)
  {
    var n := EncodeContext(c);
    assert DecodeProject(EncodeProject(c.project)) == Ok(c.project);
    ArchitectureRoundTrip(c.architecture);
    var sf := if |c.standards| > 0 then EncodeStandards(c.standards).fields else map[];
    assert GetMapping(n.fields, "standards") == Ok(sf);
    assert DecodeStandards(sf) == Ok(c.standards) by {
      if |c.standards| == 0 {
        assert c.standards == map[];
      } else {
        assert (map k | k in sf :: sf[k].items) == c.standards;
      }
    }
  }

  // ---------------------------------------------------------------------
  // State
  // ---------------------------------------------------------------------

  function EncodeState(s: State): (n: Node)
    ensures n.Mapping?
    ensures "active_work_item" in n.fields
    ensures "last_summary" in n.fields <==> s.lastSummary != ""
    ensures "branch_suggestion" in n.fields <==> s.branchSuggestion != ""
    ensures "health" in n.fields <==> s.health.status != "" || |s.health.issues| > 0
    ensures n.fields.Keys <= {"active_work_item", "last_summary", "branch_suggestion", "health"}
  {
    var f := map["active_work_item" := Scalar(s.activeWorkItem)];
    var f := if s.lastSummary != "" then f["last_summary" := Scalar(s.lastSummary)] else f;
    var f := if s.branchSuggestion != "" then f["branch_suggestion" := Scalar(s.branchSuggestion)] else f;
    var f := if s.health.status != "" || |s.health.issues| > 0 then f["health" := EncodeHealth(s.health)] else f;
    Mapping(f)
  }

  /** yaml.v3 decoding into `State`; an empty document gives the zero State. */
  function DecodeState(n: Node): (r: Result<State>)
    ensures r.Ok? <==> (n.Mapping?
      && ScalarOrAbsent(n.fields, "active_work_item") && ScalarOrAbsent(n.fields, "last_summary")
      && ScalarOrAbsent(n.fields, "branch_suggestion") && MappingOrAbsent(n.fields, "health")
      && DecodeHealth(Mapping(GetMapping(n.fields, "health").value)).Ok?)
    ensures n == Mapping(map[]) ==> r == Ok(State("", "", "", HealthSnapshot("", [])))
  {
    match n
    case Mapping(f) =>
      var active :- GetString(f, "active_work_item");
      var last :- GetString(f, "last_summary");
      var branch :- GetString(f, "branch_suggestion");
      var hf :- GetMapping(f, "health");
      var health :- DecodeHealth(Mapping(hf));
      Ok(State(active, last, branch, health))
    case _ => Err(YamlError("state is not a mapping"))
  }

  lemma StateRoundTrip(s: State)
    ensures DecodeState(EncodeState(s)) == Ok(s)
  {
    HealthRoundTrip(s.health);
  }

  // ---------------------------------------------------------------------
  // Prompt profiles
  // ---------------------------------------------------------------------

  function EncodePromptProfile(p: PromptProfile): (n: Node)
    ensures n.Mapping?
    ensures "description" in n.fields && "include_architecture" in n.fields && "include_standards" in n.fields
    ensures "detail" in n.fields <==> p.detail != ""
    ensures n.fields.Keys <= {"description", "include_architecture", "include_standards", "detail"}
  {
    var f := map[
      "description" := Scalar(p.description),
      "include_architecture" := Scalar(BoolText(p.includeArchitecture)),
      "include_standards" := Scalar(BoolText(p.includeStandards))];
    var f := if p.detail != "" then f["detail" := Scalar(p.detail)] else f;
    Mapping(f)
  }

  /** yaml.v3 decoding into `PromptProfile`; absent keys give "" and false. */
  function DecodePromptProfile(n: Node): (r: Result<PromptProfile>)
    ensures !n.Mapping? ==> r.Err?
    ensures r.Ok? ==> (ScalarOrAbsent(n.fields, "description") && ScalarOrAbsent(n.fields, "include_architecture")
      && ScalarOrAbsent(n.fields, "include_standards") && ScalarOrAbsent(n.fields, "detail"))
    ensures n == Mapping(map[]) ==> r == Ok(PromptProfile("", false, false, ""))
  {
    match n
    case Mapping(f) =>
      var description :- GetString(f, "description");
      var arch :- GetBool(f, "include_architecture");
      var standards :- GetBool(f, "include_standards");
      var detail :- GetString(f, "detail");
      Ok(PromptProfile(description, arch, standards, detail))
    case _ => Err(YamlError("profile is not a mapping"))
  }

  lemma PromptProfileRoundTrip(p: PromptProfile)
    ensures DecodePromptProfile(EncodePromptProfile(p)) == Ok(p)
  {
  }

  function EncodePromptProfileSet(s: PromptProfileSet): (n: Node)
    ensures n.Mapping? && n.fields.Keys == {"profiles"}
    ensures n.fields["profiles"].Mapping? && n.fields["profiles"].fields.Keys == s.profiles.Keys
  {
    Mapping(map["profiles" := Mapping(map k | k in s.profiles :: EncodePromptProfile(s.profiles[k]))])
  }

  /** yaml.v3 decoding into `PromptProfileSet`: one profile per key of `profiles`. */
  function DecodePromptProfileSet(n: Node): (r: Result<PromptProfileSet>)
    ensures !n.Mapping? ==> r.Err?
    ensures r.Ok? ==> (n.Mapping? && MappingOrAbsent(n.fields, "profiles")
      && r.value.profiles.Keys == GetMapping(n.fields, "profiles").value.Keys)
    ensures n == Mapping(map[]) ==> r == Ok(PromptProfileSet(map[]))
  {
    match n
    case Mapping(f) =>
      var pf :- GetMapping(f, "profiles");
      if forall k :: k in pf ==> DecodePromptProfile(pf[k]).Ok? then
        Ok(PromptProfileSet(map k | k in pf :: DecodePromptProfile(pf[k]).value))
      else Err(YamlError("invalid prompt profile"))
    case _ => Err(YamlError("profiles document is not a mapping"))
  }

  lemma PromptProfileSetRoundTrip(s: PromptProfileSet)
    ensures DecodePromptProfileSet(EncodePromptProfileSet(s)) == Ok(s)
  {
    var n := EncodePromptProfileSet(s);
    var pf := n.fields["profiles"].fields;
    ProfilesDecode(s.profiles, pf);
    assert GetMapping(n.fields, "profiles") == Ok(pf);
  }

  /** Each encoded profile decodes back, so the whole map does. */
  lemma ProfilesDecode(profiles: map<string, PromptProfile>, pf: map<string, Node>)
    requires pf == map k | k in profiles :: EncodePromptProfile(profiles[k])
    ensures forall k :: k in pf ==> DecodePromptProfile(pf[k]).Ok?
    ensures (map k | k in pf :: DecodePromptProfile(pf[k]).value) == profiles
  {
    forall k | k in pf ensures DecodePromptProfile(pf[k]) == Ok(profiles[k]) {
      PromptProfileRoundTrip(profiles[k]);
    }
  }

  // ---------------------------------------------------------------------
  // WorkItem front matter
  // ---------------------------------------------------------------------

  function EncodeWorkItem(w: WorkItem): (n: Node)
    ensures n.Mapping?
    ensures "id" in n.fields && "title" in n.fields && "status" in n.fields && "created_at" in n.fields
    ensures n.fields.Keys <= {"id", "title", "intent", "status", "created_at", "evidence",
                              "last_summary", "acceptance_criteria", "branch_suggestion"}
  {
    var f := map[
      "id" := Scalar(w.id), "title" := Scalar(w.title),
      "status" := Scalar(w.status), "created_at" := Scalar(w.createdAt)];
    var f := if |w.intent| > 0 then f["intent" := List(w.intent)] else f;
    var f := if |w.evidence| > 0 then f["evidence" := List(w.evidence)] else f;
    var f := if w.lastSummary != "" then f["last_summary" := Scalar(w.lastSummary)] else f;
    var f := if |w.acceptanceCriteria| > 0 then f["acceptance_criteria" := List(w.acceptanceCriteria)] else f;
    var f := if w.branchSuggestion != "" then f["branch_suggestion" := Scalar(w.branchSuggestion)] else f;
    Mapping(f)
  }

  /** The `omitempty` fields of a work item are written exactly when they are not empty. */
  lemma WorkItemOmitsEmpty(w: WorkItem)
    ensures var f := EncodeWorkItem(w).fields;
      && ("intent" in f <==> |w.intent| > 0)
      && ("evidence" in f <==> |w.evidence| > 0)
      && ("last_summary" in f <==> w.lastSummary != "")
      && ("acceptance_criteria" in f <==> |w.acceptanceCriteria| > 0)
      && ("branch_suggestion" in f <==> w.branchSuggestion != "")
  {
  }

  /** yaml.v3 decoding into `WorkItem`; absent keys give "" and empty lists. */
  function DecodeWorkItem(n: Node): (r: Result<WorkItem>)
    ensures r.Ok? <==> (n.Mapping?
      && ScalarOrAbsent(n.fields, "id") && ScalarOrAbsent(n.fields, "title") && ListOrAbsent(n.fields, "intent")
      && ScalarOrAbsent(n.fields, "status") && ScalarOrAbsent(n.fields, "created_at")
      && ListOrAbsent(n.fields, "evidence") && ScalarOrAbsent(n.fields, "last_summary")
      && ListOrAbsent(n.fields, "acceptance_criteria") && ScalarOrAbsent(n.fields, "branch_suggestion"))
    ensures n == Mapping(map[]) ==> r == Ok(WorkItem("", "", [], "", "", [], "", [], ""))
  {
    match n
    case Mapping(f) =>
      var id :- GetString(f, "id");
      var title :- GetString(f, "title");
      var intent :- GetList(f, "intent");
      var status :- GetString(f, "status");
      var createdAt :- GetString(f, "created_at");
      var evidence :- GetList(f, "evidence");
      var lastSummary :- GetString(f, "last_summary");
      var criteria :- GetList(f, "acceptance_criteria");
      var branch :- GetString(f, "branch_suggestion");
      Ok(WorkItem(id, title, intent, status, createdAt, evidence, lastSummary, criteria, branch))
    case _ => Err(YamlError("work item front matter is not a mapping"))
  }

  lemma WorkItemRoundTrip(w: WorkItem)
    ensures DecodeWorkItem(EncodeWorkItem(w)) == Ok(w)
  {
    var f := EncodeWorkItem(w).fields;
    WorkItemOmitsEmpty(w);
    assert GetString(f, "id") == Ok(w.id);
    assert GetString(f, "title") == Ok(w.title);
    assert GetList(f, "intent") == Ok(w.intent);
    assert GetString(f, "status") == Ok(w.status);
    assert GetString(f, "created_at") == Ok(w.createdAt);
    assert GetList(f, "evidence") == Ok(w.evidence);
    assert GetString(f, "last_summary") == Ok(w.lastSummary);
    assert GetList(f, "acceptance_criteria") == Ok(w.acceptanceCriteria);
    assert GetString(f, "branch_suggestion") == Ok(w.branchSuggestion);
  }
}
