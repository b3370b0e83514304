/**
 * Where the tool keeps its state: the `.agent` directory, its files and
 * sub-directories (internal/agent/storage.go and templates.go).
 */
module Layout {
  import opened Text

  const AgentDir := ".agent"
  const ContextPath := ".agent/context.yaml"
  const StatePath := ".agent/state.yaml"
  const ProfilesPath := ".agent/prompt_profiles.yaml"
  const TemplatesDir := ".agent/templates"
  const WorkItemsDir := ".agent/workitems"
  const EvidenceDir := ".agent/evidence"
  const ExportsDir := ".agent/exports"
  const PromptPath := ".agent/exports/current.prompt.md"

  /** `WorkItemPath(id)`: `.agent/workitems/<id>.md`. */
  function WorkItemPath(id: string): string
  {
    WorkItemsDir + "/" + id + ".md"
  }

  /** `RepoTemplatePath(name)`: `.agent/templates/<name>.yaml`. */
  function RepoTemplatePath(name: string): string
  {
    TemplatesDir + "/" + name + ".yaml"
  }

  /** Distinct work items live in distinct files. */
  lemma WorkItemPathInjective(a: string, b: string)
    requires WorkItemPath(a) == WorkItemPath(b)
    ensures a == b
  {
    var n := |WorkItemsDir| + 1;
    assert |a| == |b|;
    assert a == WorkItemPath(a)[n..n + |a|];
    assert b == WorkItemPath(b)[n..n + |b|];
  }

  /** Distinct template names live in distinct files. */
  lemma RepoTemplatePathInjective(a: string, b: string)
    requires RepoTemplatePath(a) == RepoTemplatePath(b)
    ensures a == b
  {
    var n := |TemplatesDir| + 1;
    assert |a| == |b|;
    assert a == RepoTemplatePath(a)[n..n + |a|];
    assert b == RepoTemplatePath(b)[n..n + |b|];
  }
}
