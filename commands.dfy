/**
 * The session commands of cmd/work.go, cmd/issue.go and cmd/evidence.go.
 * Each one loads the State and a work item, changes a few fields, and saves
 * them back in a fixed order, stopping at the first error. A failed write
 * leaves what was saved before it in place.
 */
module Commands {
  import opened Wrappers
  import opened Text
  import opened Yaml
  import opened Models
  import opened FileSystem
  import opened Layout
  import opened Storage
  import Workflow
  import Intent

  // ---------------------------------------------------------------------
  // The record transitions
  // ---------------------------------------------------------------------

  /** The State `work start` saves: `id` is active, with the branch suggested for its item. */
  function StartState(st: State, id: string, meta: WorkItem): State
  {
    st.(activeWorkItem := id, branchSuggestion := Workflow.SuggestBranchName(meta))
  }

  /** The item `work start` saves: active, carrying the State's branch suggestion. */
  function StartItem(wi: WorkItemFile, branch: string): WorkItemFile
  {
    wi.(meta := wi.meta.(status := "active", branchSuggestion := branch))
  }

  /** The item `work stop` saves: paused, with the handoff summary. */
  function StopItem(wi: WorkItemFile, summary: string): WorkItemFile
  {
    wi.(meta := wi.meta.(lastSummary := summary, status := "paused"))
  }

  /** The State `work stop` saves: no active item, no branch, the handoff summary. */
  function StopState(st: State, summary: string): State
  {
    st.(lastSummary := summary, activeWorkItem := "", branchSuggestion := "")
  }

  /** The State `issue` saves: the new item is active, branch and summary are cleared. */
  function IssueState(st: State, id: string): State
  {
    st.(activeWorkItem := id, branchSuggestion := "", lastSummary := "")
  }

  /** The item `evidence add` saves: one more evidence path, at the end. */
  function WithEvidence(wi: WorkItemFile, rel: string): WorkItemFile
  {
    wi.(meta := wi.meta.(evidence := wi.meta.evidence + [rel]))
  }

  /** The files after `SaveState(st)` succeeds. */
  function StateSaved(y: Syntax, files: map<string, string>, st: State): map<string, string>
  {
    files[StatePath := y.marshal(EncodeState(NormalizeHealth(st)))]
  }

  /** The files after `SaveWorkItem(wi)` succeeds. */
  function ItemSaved(y: Syntax, files: map<string, string>, wi: WorkItemFile): map<string, string>
  {
    files[WorkItemPath(wi.meta.id) := Document(y.marshal(EncodeWorkItem(wi.meta)), StoredBody(wi))]
  }

  /** A work-item file is never the state file. */
  lemma WorkItemPathIsNotStatePath(id: string)
    ensures WorkItemPath(id) != StatePath
  {
    assert WorkItemPath(id)[7] == 'w';
    assert StatePath[7] == 's';
  }

  // ---------------------------------------------------------------------
  // work start
  // ---------------------------------------------------------------------

  /**
   * `work start <id>`: load the item, then the State; save the State first
   * and the item second. The item file written is the one its front matter
   * names.
   */
  method WorkStart(d: Disk, id: string) returns (err: Option<Error>)
    modifies d
    ensures d.dirs == old(d.dirs)
    ensures old(EnsureAgentExists(d)).Some? ==> err == Some(AgentMissing) && d.files == old(d.files)
    ensures old(EnsureAgentExists(d)).None? && old(LoadWorkItem(d, id)).Err? ==>
      err == Some(CouldNotLoad(id, old(LoadWorkItem(d, id)).error)) && d.files == old(d.files)
    ensures old(EnsureAgentExists(d)).None? && old(LoadWorkItem(d, id)).Ok? && old(LoadState(d)).Err? ==>
      err == Some(old(LoadState(d)).error) && d.files == old(d.files)
    ensures err.None? ==> old(EnsureAgentExists(d)).None? && old(LoadWorkItem(d, id)).Ok? && old(LoadState(d)).Ok?
    ensures old(LoadWorkItem(d, id)).Ok? && old(LoadState(d)).Ok? ==>
      var wi := old(LoadWorkItem(d, id)).value;
      var st := StartState(old(LoadState(d)).value, id, wi.meta);
      && (err.Some? ==> d.files == old(d.files) || d.files == StateSaved(d.syntax, old(d.files), st))
      && (err.None? ==> d.files == ItemSaved(d.syntax, StateSaved(d.syntax, old(d.files), st), StartItem(wi, st.branchSuggestion)))
      && (err.None? && Faithful(d.syntax, EncodeState(NormalizeHealth(st))) ==> LoadState(d) == Ok(NormalizeHealth(st)))
  {
    err := EnsureAgentExists(d);
    if err.Some? {
      return;
    }
    var loaded := LoadWorkItem(d, id);
    if loaded.Err? {
      return Some(CouldNotLoad(id, loaded.error));
    }
    var wi := loaded.value;
    var stLoaded := LoadState(d);
    if stLoaded.Err? {
      return Some(stLoaded.error);
    }
    var st := stLoaded.value;
    st := st.(activeWorkItem := id);
    st := st.(branchSuggestion := Workflow.SuggestBranchName(wi.meta));
    wi := wi.(meta := wi.meta.(status := "active"));
    wi := wi.(meta := wi.meta.(branchSuggestion := st.branchSuggestion));
    err := SaveStateThenItem(d, st, wi);
  }

  /**
   * Save `st`, then `wi`. A failed first save writes nothing; a failed
   * second save leaves the new State in place. With a faithful YAML syntax
   * the State reads back afterwards.
   */
  method SaveStateThenItem(d: Disk, st: State, wi: WorkItemFile) returns (err: Option<Error>)
    modifies d
    ensures d.dirs == old(d.dirs)
    ensures err.Some? ==> d.files == old(d.files) || d.files == StateSaved(d.syntax, old(d.files), st)
    ensures err.None? ==> d.files == ItemSaved(d.syntax, StateSaved(d.syntax, old(d.files), st), wi)
    ensures err.None? && Faithful(d.syntax, EncodeState(NormalizeHealth(st))) ==> LoadState(d) == Ok(NormalizeHealth(st))
  {
    err := SaveState(d, st);
    if err.Some? {
      return;
    }
    ghost var afterState := d.files;
    err := SaveWorkItem(d, wi);
    if err.None? {
      WorkItemPathIsNotStatePath(wi.meta.id);
      assert d.files[StatePath] == afterState[StatePath];
      if Faithful(d.syntax, EncodeState(NormalizeHealth(st))) {
        StateSurvivesSave(d, st);
      }
    }
  }

  // ---------------------------------------------------------------------
  // work stop
  // ---------------------------------------------------------------------

  /**
   * `work stop`, with the line read from standard input as `line`: the State
   * must name an active item; that item is saved paused with the trimmed
   * summary, then the State is saved with no active item.
   */
  method WorkStop(d: Disk, line: string) returns (err: Option<Error>)
    modifies d
    ensures d.dirs == old(d.dirs)
    ensures old(EnsureAgentExists(d)).Some? ==> err == Some(AgentMissing) && d.files == old(d.files)
    ensures old(EnsureAgentExists(d)).None? && old(LoadState(d)).Err? ==>
      err == Some(old(LoadState(d)).error) && d.files == old(d.files)
    ensures old(EnsureAgentExists(d)).None? && old(LoadState(d)).Ok? && old(LoadState(d)).value.activeWorkItem == "" ==>
      err == Some(NoActiveWorkItem) && d.files == old(d.files)
    ensures (old(EnsureAgentExists(d)).None? && old(LoadState(d)).Ok? && old(LoadState(d)).value.activeWorkItem != ""
             && old(LoadWorkItem(d, LoadState(d).value.activeWorkItem)).Err?) ==>
      err == Some(old(LoadWorkItem(d, LoadState(d).value.activeWorkItem)).error) && d.files == old(d.files)
    ensures err.None? ==>
      && old(EnsureAgentExists(d)).None? && old(LoadState(d)).Ok?
      && old(LoadState(d)).value.activeWorkItem != "" && old(LoadWorkItem(d, LoadState(d).value.activeWorkItem)).Ok?
    ensures old(LoadState(d)).Ok? && old(LoadWorkItem(d, LoadState(d).value.activeWorkItem)).Ok? ==>
      var summary := TrimSpace(line);
      var st := StopState(old(LoadState(d)).value, summary);
      var wi := StopItem(old(LoadWorkItem(d, LoadState(d).value.activeWorkItem)).value, summary);
      && (err.Some? ==> d.files == old(d.files) || d.files == ItemSaved(d.syntax, old(d.files), wi))
      && (err.None? ==> d.files == StateSaved(d.syntax, ItemSaved(d.syntax, old(d.files), wi), st))
      && (err.None? && Faithful(d.syntax, EncodeState(NormalizeHealth(st))) ==> LoadState(d) == Ok(NormalizeHealth(st)))
  {
    err := EnsureAgentExists(d);
    if err.Some? {
      return;
    }
    var stLoaded := LoadState(d);
    if stLoaded.Err? {
      return Some(stLoaded.error);
    }
    var st := stLoaded.value;
    if st.activeWorkItem == "" {
      return Some(NoActiveWorkItem);
    }
    var summary := TrimSpace(line);
    var loaded := LoadWorkItem(d, st.activeWorkItem);
    if loaded.Err? {
      return Some(loaded.error);
    }
    var wi := loaded.value;
    wi := wi.(meta := wi.meta.(lastSummary := summary));
    wi := wi.(meta := wi.meta.(status := "paused"));
    st := st.(lastSummary := summary);
    st := st.(activeWorkItem := "");
    st := st.(branchSuggestion := "");
    err := SaveItemThenState(d, wi, st);
  }

  /**
   * Save `wi`, then `st`. A failed first save writes nothing; a failed
   * second save leaves the new item in place. With a faithful YAML syntax
   * the State reads back afterwards.
   */
  method SaveItemThenState(d: Disk, wi: WorkItemFile, st: State) returns (err: Option<Error>)
    modifies d
    ensures d.dirs == old(d.dirs)
    ensures err.Some? ==> d.files == old(d.files) || d.files == ItemSaved(d.syntax, old(d.files), wi)
    ensures err.None? ==> d.files == StateSaved(d.syntax, ItemSaved(d.syntax, old(d.files), wi), st)
    ensures err.None? && Faithful(d.syntax, EncodeState(NormalizeHealth(st))) ==> LoadState(d) == Ok(NormalizeHealth(st))
  {
    err := SaveWorkItem(d, wi);
    if err.Some? {
      return;
    }
    err := SaveState(d, st);
    if err.None? && Faithful(d.syntax, EncodeState(NormalizeHealth(st))) {
      StateSurvivesSave(d, st);
    }
  }

  // ---------------------------------------------------------------------
  // issue
  // ---------------------------------------------------------------------

  /**
   * `issue <text...>`: the words joined by spaces and trimmed are the title;
   * a new item with the next free ID and the title's intent tags is saved,
   * then the State is loaded and saved with that item active. `now` is the
   * creation time, `created` the item built.
   */
  method Issue(d: Disk, args: seq<string>, now: Timestamp) returns (err: Option<Error>, ghost created: WorkItemFile)
    modifies d
    ensures d.dirs == old(d.dirs)
    ensures old(EnsureAgentExists(d)).Some? ==> err == Some(AgentMissing) && d.files == old(d.files)
    ensures old(EnsureAgentExists(d)).None? && IsBlank(Join(args, " ")) ==> err == Some(EmptyText) && d.files == old(d.files)
    ensures old(EnsureAgentExists(d)).None? && !IsBlank(Join(args, " ")) && WorkItemsDir !in old(d.dirs) ==>
      err.Some? && d.files == old(d.files)
    ensures err.None? ==>
      && old(EnsureAgentExists(d)).None? && !IsBlank(Join(args, " "))
      && WorkItemsDir in old(d.dirs) && old(LoadState(d)).Ok?
    ensures old(EnsureAgentExists(d)).None? && !IsBlank(Join(args, " ")) && WorkItemsDir in old(d.dirs) ==>
      && IsIssueItem(created, old(d.FileChildren(WorkItemsDir)), TrimSpace(Join(args, " ")), now)
      && (WorkItemPath(created.meta.id) in old(d.files) ==> WorkItemPath(created.meta.id) in old(d.dirs))
      && (err.Some? ==> d.files == old(d.files) || d.files == ItemSaved(d.syntax, old(d.files), created))
      && (err.None? ==> d.files == StateSaved(d.syntax, ItemSaved(d.syntax, old(d.files), created),
                                              IssueState(old(LoadState(d)).value, created.meta.id)))
  {
    created := NewWorkItemFile("", "", [], now);
    err := EnsureAgentExists(d);
    if err.Some? {
      return;
    }
    var title := TrimSpace(Join(args, " "));
    TrimSpaceEmptyIffBlank(Join(args, " "));
    if title == "" {
      return Some(EmptyText), created;
    }
    var next := NewIssueItem(d, title, now);
    if next.Err? {
      return Some(next.error), created;
    }
    var wi := next.value;
    created := wi;
    err := SaveItemThenIssueState(d, wi);
  }

  /**
   * The item `issue` creates for `title` when the work-item directory lists
   * `names`: the next free ID, the title's intent tags (just "general" when
   * none match), active, created `now`.
   */
  ghost predicate IsIssueItem(wi: WorkItemFile, names: set<string>, title: string, now: Timestamp)
  {
    && wi.meta.id == FormatId(MaxNumber(names) + 1)
    && wi == NewWorkItemFile(wi.meta.id, title, wi.meta.intent, now)
    && (wi.meta.intent == [Intent.General] <==> Intent.Tags(title) == {})
    && (Intent.Tags(title) != {} ==> forall t :: t in wi.meta.intent <==> t in Intent.Tags(title))
  }

  /** Build the item `issue` saves: number it, classify its title. */
  method NewIssueItem(d: Disk, title: string, now: Timestamp) returns (r: Result<WorkItemFile>)
    ensures WorkItemsDir !in d.dirs ==> r.Err?
    ensures WorkItemsDir in d.dirs ==>
      && r.Ok?
      && IsIssueItem(r.value, old(d.FileChildren(WorkItemsDir)), title, now)
      && (WorkItemPath(r.value.meta.id) in old(d.files) ==> WorkItemPath(r.value.meta.id) in old(d.dirs))
  {
    var next := NextWorkItemID(d);
    if next.Err? {
      return Err(next.error);
    }
    NextIdFileIsNew(d);
    var intents := Intent.ClassifyIntent(title);
    r := Ok(NewWorkItemFile(next.value, title, intents, now));
  }

  /** A work-item file name has no '/'. */
  lemma WorkItemFileNameHasNoSlash(name: string)
    requires IsWorkItemFileName(name)
    ensures NoSlash(name)
  {
    forall i | 0 <= i < |name|
      ensures name[i] != '/'
    {
      if i < 3 {
        assert name[i] == name[..3][i];
      } else if i >= |name| - 3 {
        assert name[i] == name[|name| - 3..][i - (|name| - 3)];
      } else {
        assert name[i] == name[3..|name| - 3][i - 3];
      }
    }
  }

  /** An ID whose file name is not listed names no regular file of the directory. */
  lemma IdFileNotListed(d: Disk, id: string)
    requires IsWorkItemFileName(id + ".md") && id + ".md" !in d.FileChildren(WorkItemsDir)
    ensures WorkItemPath(id) in d.files ==> WorkItemPath(id) in d.dirs
  {
    WorkItemFileNameHasNoSlash(id + ".md");
    d.FileChildrenMembers(WorkItemsDir, id + ".md");
    assert JoinPath(WorkItemsDir, id + ".md") == WorkItemPath(id);
  }

  /** The next ID names no regular file of `.agent/workitems`: `issue` never overwrites an item. */
  lemma NextIdFileIsNew(d: Disk)
    ensures var id := FormatId(MaxNumber(d.FileChildren(WorkItemsDir)) + 1);
      WorkItemPath(id) in d.files ==> WorkItemPath(id) in d.dirs
  {
    var names := d.FileChildren(WorkItemsDir);
    NextIdIsFresh(names);
    IdFileNotListed(d, FormatId(MaxNumber(names) + 1));
  }

  /**
   * Save the new item `wi`, then load the State and save it with `wi`
   * active. The State read is the one before the item was written.
   */
  method SaveItemThenIssueState(d: Disk, wi: WorkItemFile) returns (err: Option<Error>)
    modifies d
    ensures d.dirs == old(d.dirs)
    ensures err.Some? ==> d.files == old(d.files) || d.files == ItemSaved(d.syntax, old(d.files), wi)
    ensures err.None? ==>
      && old(LoadState(d)).Ok?
      && d.files == StateSaved(d.syntax, ItemSaved(d.syntax, old(d.files), wi), IssueState(old(LoadState(d)).value, wi.meta.id))
  {
    err := SaveWorkItem(d, wi);
    if err.Some? {
      return;
    }
    WorkItemPathIsNotStatePath(wi.meta.id);
    assert LoadState(d) == old(LoadState(d));
    var stLoaded := LoadState(d);
    if stLoaded.Err? {
      return Some(stLoaded.error);
    }
    var st := stLoaded.value;
    st := st.(activeWorkItem := wi.meta.id);
    st := st.(branchSuggestion := "");
    st := st.(lastSummary := "");
    err := SaveState(d, st);
  }

  // ---------------------------------------------------------------------
  // evidence add
  // ---------------------------------------------------------------------

  /**
   * `evidence add <src>`: with an active item and an existing source, copy
   * the source into `.agent/evidence`, then load the active item and save it
   * with the copy's path appended to its evidence. The State is read, never
   * written. `copy` is the path of the copy once it is made, `linked` the
   * item saved.
   */
  method EvidenceAdd(d: Disk, src: string) returns (err: Option<Error>, ghost copy: Option<string>, ghost linked: Option<WorkItemFile>)
    modifies d
    ensures old(EnsureAgentExists(d)).Some? ==> err == Some(AgentMissing) && d.files == old(d.files) && d.dirs == old(d.dirs)
    ensures old(EnsureAgentExists(d)).None? && old(LoadState(d)).Err? ==>
      err == Some(old(LoadState(d)).error) && d.files == old(d.files) && d.dirs == old(d.dirs)
    ensures old(EnsureAgentExists(d)).None? && old(LoadState(d)).Ok? && old(LoadState(d)).value.activeWorkItem == "" ==>
      err == Some(NoActiveWorkItem) && d.files == old(d.files) && d.dirs == old(d.dirs)
    ensures (old(EnsureAgentExists(d)).None? && old(LoadState(d)).Ok? && old(LoadState(d)).value.activeWorkItem != ""
             && !old(d.Exists(src))) ==>
      err == Some(SourceNotFound(src, old(d.StatError(src)))) && d.files == old(d.files) && d.dirs == old(d.dirs)
    ensures StatePath in old(d.files) ==> StatePath in d.files && d.files[StatePath] == old(d.files)[StatePath]
    ensures copy.None? ==> err.Some? && linked.None?
    ensures copy.Some? ==> d.dirs == old(d.dirs) + DirChain(EvidenceDir)
    ensures copy.None? ==> d.dirs == old(d.dirs) || d.dirs == old(d.dirs) + DirChain(EvidenceDir)
    ensures copy.None? ==> d.files == old(d.files) || exists p :: !old(d.Exists(p)) && d.files == old(d.files)[p := ""]
    ensures copy.Some? ==>
      && old(LoadState(d)).Ok? && src in old(d.files) && !old(d.Exists(copy.value))
      && (IsPlainName(Base(src)) && !old(d.Exists(JoinPath(EvidenceDir, Base(src)))) ==>
            RelToAgent(copy.value) == "evidence/" + Base(src))
    ensures copy.Some? && linked.None? ==> err.Some? && d.files == old(d.files)[copy.value := old(d.files)[src]]
    ensures linked.Some? ==>
      && copy.Some? && old(LoadState(d)).Ok?
      && var copied := old(d.files)[copy.value := old(d.files)[src]];
      && var path := WorkItemPath(old(LoadState(d)).value.activeWorkItem);
      && path in copied && ParseWorkItem(d.syntax, copied[path]).Ok?
      && linked.value == WithEvidence(ParseWorkItem(d.syntax, copied[path]).value, RelToAgent(copy.value))
      && (err.Some? ==> d.files == copied)
      && (err.None? ==> d.files == ItemSaved(d.syntax, copied, linked.value))
    ensures err.None? ==> linked.Some?
    ensures (err.None? && linked.Some? && Faithful(d.syntax, EncodeWorkItem(linked.value.meta))
             && FrontMatterSafe(d.syntax.marshal(EncodeWorkItem(linked.value.meta)))) ==>
      LoadWorkItem(d, linked.value.meta.id) == Ok(WorkItemFile(linked.value.meta, TrimLeft(StoredBody(linked.value), {'\n'})))
  {
    copy, linked := None, None;
    err := EnsureAgentExists(d);
    if err.Some? {
      return;
    }
    var stLoaded := LoadState(d);
    if stLoaded.Err? {
      return Some(stLoaded.error), copy, linked;
    }
    var st := stLoaded.value;
    if st.activeWorkItem == "" {
      return Some(NoActiveWorkItem), copy, linked;
    }
    if !d.Exists(src) {
      return Some(SourceNotFound(src, d.StatError(src))), copy, linked;
    }
    var copied := CopyEvidence(d, src);
    if copied.Err? {
      return Some(copied.error), copy, linked;
    }
    var rel := copied.value;
    ghost var p :| RelToAgent(p) == rel && !old(d.Exists(p)) && p !in old(d.dirs) + DirChain(EvidenceDir)
                   && d.files == old(d.files)[p := old(d.files)[src]];
    copy := Some(p);
    err, linked := LinkEvidence(d, st.activeWorkItem, rel);
  }

  /**
   * Load item `id`, append `rel` to its evidence and save it. `linked` is
   * the item saved, once it is loaded.
   */
  method LinkEvidence(d: Disk, id: string, rel: string) returns (err: Option<Error>, ghost linked: Option<WorkItemFile>)
    modifies d
    ensures d.dirs == old(d.dirs)
    ensures old(LoadWorkItem(d, id)).Err? ==> err == Some(old(LoadWorkItem(d, id)).error) && linked.None?
    ensures linked.None? ==> err.Some? && d.files == old(d.files)
    ensures linked.Some? ==>
      && old(LoadWorkItem(d, id)).Ok? && linked.value == WithEvidence(old(LoadWorkItem(d, id)).value, rel)
      && (err.Some? ==> d.files == old(d.files))
      && (err.None? ==> d.files == ItemSaved(d.syntax, old(d.files), linked.value))
    ensures (err.None? && linked.Some? && Faithful(d.syntax, EncodeWorkItem(linked.value.meta))
             && FrontMatterSafe(d.syntax.marshal(EncodeWorkItem(linked.value.meta)))) ==>
      LoadWorkItem(d, linked.value.meta.id) == Ok(WorkItemFile(linked.value.meta, TrimLeft(StoredBody(linked.value), {'\n'})))
  {
    linked := None;
    var loaded := LoadWorkItem(d, id);
    if loaded.Err? {
      return Some(loaded.error), linked;
    }
    var wi := loaded.value;
    wi := wi.(meta := wi.meta.(evidence := wi.meta.evidence + [rel]));
    linked := Some(wi);
    err := SaveWorkItem(d, wi);
    if err.None? && Faithful(d.syntax, EncodeWorkItem(wi.meta)) && FrontMatterSafe(d.syntax.marshal(EncodeWorkItem(wi.meta))) {
      WorkItemSurvivesSave(d, wi);
    }
  }

  // ---------------------------------------------------------------------
  // Properties of the transitions
  // ---------------------------------------------------------------------

  /** Stopping clears what starting set: start then stop leaves the State as stop alone does. */
  lemma StopUndoesStart(st: State, id: string, meta: WorkItem, summary: string)
    ensures StopState(StartState(st, id, meta), summary) == StopState(st, summary)
    ensures StopState(st, summary).health == st.health
  {
  }

  /** The branch `work start` records is the item's lower-case ID, a dash and a sanitised title. */
  lemma StartBranch(st: State, id: string, meta: WorkItem)
    ensures var b := StartState(st, id, meta).branchSuggestion;
      HasPrefix(b, ToLower(meta.id) + "-") && Workflow.IsBranchSegment(b[|meta.id| + 1..])
    ensures StartState(st, id, meta).branchSuggestion ==
      ToLower(meta.id) + "-" + Workflow.SanitizeBranch(ToLower(meta.title))
    ensures StartState(st, id, meta).lastSummary == st.lastSummary && StartState(st, id, meta).health == st.health
  {
  }

  /**
   * On the item, `work stop` keeps the branch suggestion that `work start`
   * recorded, while the State forgets it.
   */
  lemma StopKeepsItemBranch(wi: WorkItemFile, branch: string, summary: string)
    ensures StopItem(StartItem(wi, branch), summary).meta.branchSuggestion == branch
    ensures StopItem(StartItem(wi, branch), summary).meta.status == "paused"
    ensures StopItem(StartItem(wi, branch), summary).body == wi.body
  {
  }

  /** Adding evidence keeps the earlier entries in order, appends exactly one, and changes nothing else. */
  lemma EvidenceAppends(wi: WorkItemFile, rel: string)
    ensures var e := WithEvidence(wi, rel).meta.evidence;
      |e| == |wi.meta.evidence| + 1 && e[..|wi.meta.evidence|] == wi.meta.evidence && e[|e| - 1] == rel
    ensures WithEvidence(wi, rel).meta.(evidence := wi.meta.evidence) == wi.meta
    ensures WithEvidence(wi, rel).body == wi.body
  {
  }

  /** A new issue starts with no branch and no summary, unlike `work start`. */
  lemma IssueClears(st: State, id: string)
    ensures IssueState(st, id).activeWorkItem == id
    ensures IssueState(st, id).branchSuggestion == "" && IssueState(st, id).lastSummary == ""
    ensures IssueState(st, id).health == st.health
  {
  }
}
