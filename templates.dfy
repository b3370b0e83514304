/**
 * Project templates (internal/agent/templates.go): the built-in registry,
 * repo-local templates under `.agent/templates`, resolution with fallback to
 * "default", and installation of a built-in into the repository.
 */
module Templates {
  import opened Wrappers
  import opened Text
  import opened Yaml
  import opened Models
  import opened FileSystem
  import opened Layout

  const DefaultTemplate := Context(
    Project("default",
            "Project context placeholder. Capture architecture, standards, and risks here.",
            "default"),
    Architecture("general", "v1", "Update this section with your system's architecture overview."),
    map[
      "process" := [
        "Keep prompts token-cheap; prefer summaries over full dumps.",
        "Reference evidence paths; do not inline logs."],
      "code" := ["Maintain compatibility across supported platforms."]],
    [ "Keep prompts token-cheap; expand context only when profile requests.",
      "Maintain portable state inside the repo for agent switching and parallel work."],
    [ "All tests pass and lint is clean.",
      "No breaking API changes.",
      "Prompt written to .agent/exports/current.prompt.md."])

  const ReactSpringTemplate := Context(
    Project("react-spring", "Full-stack React + Spring Boot application.", "react-spring"),
    Architecture("layered", "v1",
      "React + TypeScript frontend talking to Spring Boot REST APIs; separate client/server modules with shared contracts."),
    map[
      "frontend" := [
        "React + TypeScript with functional components and hooks.",
        "Feature-oriented folder structure with co-located tests and styles.",
        "Use lint/format defaults; keep API clients typed and surface errors to users."],
      "backend" := [
        "Spring Boot REST controllers -> services -> repositories with constructor injection.",
        "DTOs decoupled from persistence models; validate inputs at boundaries.",
        "JUnit/Mockito tests for services/controllers; consistent API error responses."],
      "shared" := ["Document API contracts and align client/server versions."]],
    [ "Keep prompts token-cheap; expand context only when profile requests.",
      "Maintain portable state inside the repo for agent switching and parallel work."],
    [ "All tests pass and lint is clean.",
      "No breaking API changes.",
      "Prompt written to .agent/exports/current.prompt.md."])

  /** The built-in registry. It is a constant: nothing the tool does can change it. */
  const BuiltIns: map<string, Context> := map["default" := DefaultTemplate, "react-spring" := ReactSpringTemplate]

  /** Every built-in names itself in its project name and template fields. */
  lemma BuiltInsNameThemselves()
    ensures "default" in BuiltIns
    ensures forall name :: name in BuiltIns ==>
      BuiltIns[name].project.name == name && BuiltIns[name].project.template == name
  {
  }

  /**
   * `finalizeTemplateMetadata`: record the requested name as the project name
   * when the template has none or when a different template stood in for it,
   * and fill in an empty template field with the template actually used.
   */
  function FinalizeTemplateMetadata(ctx: Context, resolved: string, requested: string): (r: Context)
    ensures r.architecture == ctx.architecture && r.standards == ctx.standards
    ensures r.constraints == ctx.constraints && r.qualityGates == ctx.qualityGates
    ensures r.project.summary == ctx.project.summary
    ensures requested != "" && resolved != requested ==> r.project.name == requested
    ensures requested != "" && ctx.project.name == "" ==> r.project.name == requested
    ensures (requested == "" || (ctx.project.name != "" && resolved == requested)) ==>
      r.project.name == ctx.project.name
    ensures ctx.project.template != "" ==> r.project.template == ctx.project.template
    ensures ctx.project.template == "" ==> r.project.template == resolved
  {
    var name := if requested != "" && (ctx.project.name == "" || resolved != requested)
      then requested else ctx.project.name;
    var template := if ctx.project.template == "" then resolved else ctx.project.template;
    ctx.(project := ctx.project.(name := name, template := template))
  }

  /** Finalizing twice with the same names changes nothing more. */
  lemma FinalizeIdempotent(ctx: Context, resolved: string, requested: string)
    ensures FinalizeTemplateMetadata(FinalizeTemplateMetadata(ctx, resolved, requested), resolved, requested)
         == FinalizeTemplateMetadata(ctx, resolved, requested)
  {
  }

  /** `cloneContext`: a copy of every field, the standards entry by entry. */
  method CloneContext(ctx: Context) returns (out: Context)
    ensures out == ctx
  {
    var standards: map<string, seq<string>> := map[];
    var pending := ctx.standards.Keys;
    while pending != {}
      invariant pending <= ctx.standards.Keys
      invariant standards.Keys == ctx.standards.Keys - pending
      invariant forall k :: k in standards ==> standards[k] == ctx.standards[k]
      decreases pending
    {
      var k :| k in pending;
      standards := standards[k := ctx.standards[k]];
      pending := pending - {k};
    }
    out := Context(ctx.project, ctx.architecture, standards, ctx.constraints[..], ctx.qualityGates[..]);
  }

  /** `builtInTemplate(name)`: a copy of the registry entry, if there is one. */
  method BuiltInTemplate(name: string) returns (ctx: Context, ok: bool)
    ensures ok <==> name in BuiltIns
    ensures ok ==> ctx == BuiltIns[name]
    ensures !ok ==> ctx == Context(Project("", "", ""), Architecture("", "", ""), map[], [], [])
  {
    if name !in BuiltIns {
      return Context(Project("", "", ""), Architecture("", "", ""), map[], [], []), false;
    }
    ctx := CloneContext(BuiltIns[name]);
    ok := true;
  }

  /** `BuiltInTemplateNames`: the registry's names in ascending order. */
  method BuiltInTemplateNames() returns (names: seq<string>)
    ensures Sorted(names) && multiset(names) == multiset(BuiltIns.Keys)
    ensures "default" in names
  {
    names := SortedKeys(BuiltIns.Keys);
    SortedKeysMembers(names, BuiltIns.Keys);
  }

  /** `loadRepoTemplate(name)`: read and decode `.agent/templates/<name>.yaml`. */
  function LoadRepoTemplate(d: Disk, name: string): (r: Result<Context>)
    reads d
    ensures RepoTemplatePath(name) !in d.files ==> r.Err?
    ensures !d.Exists(RepoTemplatePath(name)) ==> r == Err(d.StatError(RepoTemplatePath(name)))
  {
    var data :- d.ReadFile(RepoTemplatePath(name));
    var node :- d.syntax.unmarshal(data);
    DecodeContext(node)
  }

  /** A resolved template and the name of the template actually used. */
  datatype Resolved = Resolved(context: Context, source: string)

  /** The name `ResolveTemplate` looks up: "" means "default". */
  function RequestedName(templateName: string): string
  {
    if templateName == "" then "default" else templateName
  }

  /**
   * `ResolveTemplate`: a repo-local template wins; when there is no such file
   * the built-in of that name is used, and then "default"; any other failure
   * to read or decode the repo-local template, a directory in its place or a
   * regular file where one of its directories should be, is reported.
   */
  function ResolveTemplate(d: Disk, templateName: string): (r: Result<Resolved>)
    reads d
    ensures var name := RequestedName(templateName);
      var path := RepoTemplatePath(name);
      && (!d.Missing(path) ==> match LoadRepoTemplate(d, name)
            case Ok(ctx) => r == Ok(Resolved(FinalizeTemplateMetadata(ctx, name, name), name))
            case Err(e) => r == Err(e))
      && (!d.Missing(path) && path !in d.files ==> r.Err? && !r.error.NotFound?)
      && (d.Missing(path) ==>
            r.Ok? && r.value.context.project.name == name
            && (r.value.source == if name in BuiltIns then name else "default")
            && r.value.context.project.template == r.value.source)
      && (d.Missing(path) && name in BuiltIns ==>
            r == Ok(Resolved(FinalizeTemplateMetadata(BuiltIns[name], name, name), name)))
  {
    var name := RequestedName(templateName);
    if !d.Missing(RepoTemplatePath(name)) then
      match LoadRepoTemplate(d, name)
      case Ok(ctx) => Ok(Resolved(FinalizeTemplateMetadata(ctx, name, name), name))
      case Err(e) => Err(e)
    else if name in BuiltIns then Ok(Resolved(FinalizeTemplateMetadata(BuiltIns[name], name, name), name))
    else Ok(Resolved(FinalizeTemplateMetadata(BuiltIns["default"], "default", name), "default"))
  }

  /** An empty name and "default" resolve alike. */
  lemma EmptyNameMeansDefault(d: Disk)
    ensures ResolveTemplate(d, "") == ResolveTemplate(d, "default")
  {
  }

  /**
   * Without a repo-local copy, an unknown name resolves to the default
   * template under the requested project name.
   */
  lemma UnknownNameFallsBack(d: Disk, name: string)
    requires name != "" && name !in BuiltIns
    requires d.Missing(RepoTemplatePath(name))
    ensures ResolveTemplate(d, name) ==
      Ok(Resolved(DefaultTemplate.(project := DefaultTemplate.project.(name := name)), "default"))
  {
  }

  /** The file-name filter of `ListRepoTemplates`. */
  predicate IsYamlName(name: string)
  {
    Ext(name) == ".yaml"
  }

  /** The template names the `.yaml` files in `.agent/templates` offer. */
  ghost function RepoTemplateNames(d: Disk): set<string>
    reads d
  {
    StemsOf(d.FileChildren(TemplatesDir), IsYamlName, ".yaml")
  }

  /**
   * `ListRepoTemplates`: the names of the `.yaml` files in
   * `.agent/templates`, in ascending order; none when the directory is
   * missing, and an error when a regular file stands in its place or in the
   * place of `.agent`.
   */
  method ListRepoTemplates(d: Disk) returns (r: Result<seq<string>>)
    ensures d.Missing(TemplatesDir) ==> r == Ok([])
    ensures TemplatesDir !in d.dirs && !d.Missing(TemplatesDir) ==> r == Err(NotADirectory(TemplatesDir))
    ensures r.Ok? ==> Sorted(r.value)
    ensures TemplatesDir in d.dirs ==> r.Ok? && multiset(r.value) == multiset(RepoTemplateNames(d))
  {
    var listing := d.ReadDir(TemplatesDir);
    if listing.Err? {
      if listing.error.NotFound? {
        return Ok([]);
      }
      return Err(listing.error);
    }
    var entries := listing.value;
    var names: seq<string> := [];
    var i := 0;
    while i < |entries|
      invariant i <= |entries|
      invariant multiset(names) == multiset(Stems(entries[..i], IsYamlName, ".yaml"))
    {
      var e := entries[i];
      StemStep(entries, i, IsYamlName, ".yaml");
      if !e.isDir && Ext(e.name) == ".yaml" {
        var stem := TrimSuffix(e.name, ".yaml");
        MultisetOfSetAdd(Stems(entries[..i], IsYamlName, ".yaml"), stem);
        names := names + [stem];
      }
      i := i + 1;
    }
    assert entries[..i] == entries;
    StemsOfListing(d.FileChildren(TemplatesDir), entries, IsYamlName, ".yaml");
    r := Ok(SortStrings(names));
  }

  /**
   * `InstallTemplate`: write a built-in, with its metadata finalized, to
   * `.agent/templates/<name>.yaml`; an existing file is kept unless `force`.
   */
  method InstallTemplate(d: Disk, name: string, force: bool) returns (r: Result<string>)
    modifies d
    ensures name !in BuiltIns ==> r == Err(TemplateNotFound(name))
    ensures r.Ok? ==> name in BuiltIns && r.value == RepoTemplatePath(name)
    ensures r.Ok? ==> d.files == old(d.files)[RepoTemplatePath(name) :=
      d.syntax.marshal(EncodeContext(FinalizeTemplateMetadata(BuiltIns[name], name, name)))]
    ensures r.Ok? ==> d.dirs == old(d.dirs) + DirChain(TemplatesDir)
    ensures r.Err? ==> d.files == old(d.files)
    ensures !force && old(d.Exists(RepoTemplatePath(name))) ==> r.Err?
  {
    var ctx, ok := BuiltInTemplate(name);
    if !ok {
      return Err(TemplateNotFound(name));
    }
    var err := d.MkdirAll(TemplatesDir);
    if err.Some? {
      return Err(err.value);
    }
    var dest := RepoTemplatePath(name);
    if !force && d.Exists(dest) {
      return Err(TemplateExists(name));
    }
    ctx := FinalizeTemplateMetadata(ctx, name, name);
    var data := d.syntax.marshal(EncodeContext(ctx));
    err := d.WriteFile(dest, data);
    if err.Some? {
      return Err(err.value);
    }
    r := Ok(dest);
  }

  /** An installed built-in resolves to exactly what the built-in itself resolves to. */
  lemma InstalledTemplateResolvesAsBuiltIn(d: Disk, name: string)
    requires name != "" && name in BuiltIns
    requires var ctx := FinalizeTemplateMetadata(BuiltIns[name], name, name);
      && RepoTemplatePath(name) in d.files
      && d.files[RepoTemplatePath(name)] == d.syntax.marshal(EncodeContext(ctx))
      && Faithful(d.syntax, EncodeContext(ctx))
    ensures ResolveTemplate(d, name) == Ok(Resolved(FinalizeTemplateMetadata(BuiltIns[name], name, name), name))
  {
    var ctx := FinalizeTemplateMetadata(BuiltIns[name], name, name);
    ContextRoundTrip(ctx);
    assert LoadRepoTemplate(d, name) == Ok(ctx);
    FinalizeIdempotent(BuiltIns[name], name, name);
  }
}
