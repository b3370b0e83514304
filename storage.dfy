/**
 * Persistence of the `.agent` directory (internal/agent/storage.go): the YAML
 * documents, work-item files with YAML front matter, sequential work-item
 * IDs, evidence copies that never overwrite, and the initial layout.
 */
module Storage {
  import opened Wrappers
  import opened Text
  import opened Yaml
  import opened Models
  import opened FileSystem
  import opened Layout
  import opened Templates

  // ---------------------------------------------------------------------
  // Defaults
  // ---------------------------------------------------------------------

  /** `DefaultState`: nothing active, health "unknown" with no issues. */
  function DefaultState(): (st: State)
    ensures st.activeWorkItem == "" && st.lastSummary == "" && st.branchSuggestion == ""
    ensures st.health == HealthSnapshot("unknown", [])
  {
    State("", "", "", HealthSnapshot("unknown", []))
  }

  /** The names of the profiles every repository starts with. */
  const DefaultProfileNames: set<string> := {"cheap", "standard", "deep"}

  /** `DefaultPromptProfiles`: the three profiles every repository starts with. */
  function DefaultPromptProfiles(): (p: PromptProfileSet)
    ensures p.profiles.Keys == DefaultProfileNames
  {
    PromptProfileSet(map name | name in DefaultProfileNames :: StarterProfile(name))
  }

  /** The entry of the default profile set for one of its names. */
  function StarterProfile(name: string): PromptProfile
  {
    if name == "cheap" then PromptProfile("Summaries only; minimal context and references.", false, false, "summary")
    else if name == "standard" then PromptProfile("Include architecture and standards for balanced prompts.", true, true, "balanced")
    else PromptProfile("Full context disclosure; include architecture, standards, and constraints.", true, true, "full")
  }

  /**
   * The cheap profile leaves architecture and standards out and keeps to
   * summaries; the standard and deep ones include both, at balanced and full
   * detail.
   */
  lemma DefaultProfilesShape()
    ensures var p := DefaultPromptProfiles().profiles;
      && !p["cheap"].includeArchitecture && !p["cheap"].includeStandards && p["cheap"].detail == "summary"
      && p["standard"].includeArchitecture && p["standard"].includeStandards && p["standard"].detail == "balanced"
      && p["deep"].includeArchitecture && p["deep"].includeStandards && p["deep"].detail == "full"
  {
    var p := DefaultPromptProfiles().profiles;
    assert p["cheap"] == StarterProfile("cheap");
    assert p["standard"] == StarterProfile("standard");
    assert p["deep"] == StarterProfile("deep");
  }

  // ---------------------------------------------------------------------
  // State, context and profiles documents
  // ---------------------------------------------------------------------

  /** The health normalisation of `SaveState` and `LoadState`. */
  function NormalizeHealth(st: State): (r: State)
    ensures r.health.status != "" || |r.health.issues| > 0
    ensures (st.health.status != "" || |st.health.issues| > 0) ==> r == st
    ensures r == st.(health := st.health.(status := r.health.status))
    ensures st.health.status == "" && |st.health.issues| == 0 ==> r.health.status == "unknown"
  {
    if st.health.status == "" && |st.health.issues| == 0 then st.(health := st.health.(status := "unknown"))
    else st
  }

  lemma NormalizeHealthIdempotent(st: State)
    ensures NormalizeHealth(NormalizeHealth(st)) == NormalizeHealth(st)
  {
  }

  /** An empty status next to recorded issues is kept as it is. */
  lemma EmptyStatusWithIssuesKept(st: State)
    requires st.health.status == "" && |st.health.issues| > 0
    ensures NormalizeHealth(st).health.status == ""
  {
  }

  /** `readYAML`: read a file and parse it. */
  function ReadYaml(d: Disk, path: string): (r: Result<Node>)
    reads d
    ensures path !in d.files ==> r.Err?
  {
    var data :- d.ReadFile(path);
    d.syntax.unmarshal(data)
  }

  /** `LoadContext`. */
  function LoadContext(d: Disk): (r: Result<Context>)
    reads d
    ensures ContextPath !in d.files ==> r.Err?
  {
    var node :- ReadYaml(d, ContextPath);
    DecodeContext(node)
  }

  /** `LoadState`: the stored state with its health normalised. */
  function LoadState(d: Disk): (r: Result<State>)
    reads d
    ensures StatePath !in d.files ==> r.Err?
    ensures r.Ok? ==> r.value.health.status != "" || |r.value.health.issues| > 0
  {
    var node :- ReadYaml(d, StatePath);
    var st :- DecodeState(node);
    Ok(NormalizeHealth(st))
  }

  /** `LoadPromptProfiles`. */
  function LoadPromptProfiles(d: Disk): (r: Result<PromptProfileSet>)
    reads d
    ensures ProfilesPath !in d.files ==> r.Err?
  {
    var node :- ReadYaml(d, ProfilesPath);
    DecodePromptProfileSet(node)
  }

  /** `SaveContext`: write `.agent/context.yaml`. */
  method SaveContext(d: Disk, ctx: Context) returns (err: Option<Error>)
    modifies d
    ensures d.dirs == old(d.dirs)
    ensures err.None? ==> d.files == old(d.files)[ContextPath := d.syntax.marshal(EncodeContext(ctx))]
    ensures err.Some? ==> d.files == old(d.files)
  {
    err := d.WriteFile(ContextPath, d.syntax.marshal(EncodeContext(ctx)));
  }

  /** `SaveState`: normalise the health, then write `.agent/state.yaml`. */
  method SaveState(d: Disk, st: State) returns (err: Option<Error>)
    modifies d
    ensures d.dirs == old(d.dirs)
    ensures err.None? ==> d.files == old(d.files)[StatePath := d.syntax.marshal(EncodeState(NormalizeHealth(st)))]
    ensures err.Some? ==> d.files == old(d.files)
  {
    var normalized := st;
    if normalized.health.status == "" && |normalized.health.issues| == 0 {
      normalized := normalized.(health := normalized.health.(status := "unknown"));
    }
    err := d.WriteFile(StatePath, d.syntax.marshal(EncodeState(normalized)));
  }

  /** `SavePromptProfiles`: write `.agent/prompt_profiles.yaml`. */
  method SavePromptProfiles(d: Disk, p: PromptProfileSet) returns (err: Option<Error>)
    modifies d
    ensures d.dirs == old(d.dirs)
    ensures err.None? ==> d.files == old(d.files)[ProfilesPath := d.syntax.marshal(EncodePromptProfileSet(p))]
    ensures err.Some? ==> d.files == old(d.files)
  {
    err := d.WriteFile(ProfilesPath, d.syntax.marshal(EncodePromptProfileSet(p)));
  }

  /** What `SaveState` wrote, `LoadState` reads back. */
  lemma StateSurvivesSave(d: Disk, st: State)
    requires Faithful(d.syntax, EncodeState(NormalizeHealth(st)))
    requires StatePath in d.files && d.files[StatePath] == d.syntax.marshal(EncodeState(NormalizeHealth(st)))
    ensures LoadState(d) == Ok(NormalizeHealth(st))
  {
    StateRoundTrip(NormalizeHealth(st));
  }

  /** What `SaveContext` wrote, `LoadContext` reads back. */
  lemma ContextSurvivesSave(d: Disk, ctx: Context)
    requires Faithful(d.syntax, EncodeContext(ctx))
    requires ContextPath in d.files && d.files[ContextPath] == d.syntax.marshal(EncodeContext(ctx))
    ensures LoadContext(d) == Ok(ctx)
  {
    ContextRoundTrip(ctx);
  }

  /** What `SavePromptProfiles` wrote, `LoadPromptProfiles` reads back. */
  lemma ProfilesSurviveSave(d: Disk, p: PromptProfileSet)
    requires Faithful(d.syntax, EncodePromptProfileSet(p))
    requires ProfilesPath in d.files && d.files[ProfilesPath] == d.syntax.marshal(EncodePromptProfileSet(p))
    ensures LoadPromptProfiles(d) == Ok(p)
  {
    PromptProfileSetRoundTrip(p);
  }

  // ---------------------------------------------------------------------
  // Work-item files: YAML front matter between "---" lines, then a body
  // ---------------------------------------------------------------------

  const BodyHeading := "# Work Item "
  const BodySummary := "\n\n## Summary\n"
  const BodyTail := "\n\n## Acceptance Criteria\n- Add criteria as you work.\n\n## Notes\n- Capture decisions, scope, and dependencies here.\n"

  /** `defaultWorkItemBody`: the Markdown skeleton written for a blank body. */
  function DefaultWorkItemBody(meta: WorkItem): (r: string)
    ensures |r| > 0 && r[0] == '#' && !IsBlank(r)
    ensures Contains(r, meta.id) && Contains(r, meta.title)
  {
    var rest := BodySummary + meta.title + BodyTail;
    var r := BodyHeading + meta.id + rest;
    DefaultBodyMentions(meta.id, meta.title);
    assert r[0] == '#';
    assert r[0] !in Spaces;
    r
  }

  lemma DefaultBodyMentions(id: string, title: string)
    ensures var r := BodyHeading + id + (BodySummary + title + BodyTail);
      Contains(r, id) && Contains(r, title)
  {
    MentionsId(id, title);
    MentionsTitle(id, title);
  }

  lemma MentionsId(id: string, title: string)
    ensures Contains(BodyHeading + id + (BodySummary + title + BodyTail), id)
  {
    OccursInMiddle(BodyHeading, id, BodySummary + title + BodyTail);
  }

  lemma MentionsTitle(id: string, title: string)
    ensures Contains(BodyHeading + id + (BodySummary + title + BodyTail), title)
  {
    ContainsInTail(BodyHeading + id, BodySummary, title, BodyTail);
  }

  /** The body `SaveWorkItem` writes: the given one, or the skeleton when it is blank. */
  function StoredBody(wi: WorkItemFile): (r: string)
    ensures !IsBlank(r)
    ensures !IsBlank(wi.body) ==> r == wi.body
    ensures IsBlank(wi.body) ==> r == DefaultWorkItemBody(wi.meta)
  {
    if IsBlank(wi.body) then DefaultWorkItemBody(wi.meta) else wi.body
  }

  /** The file `SaveWorkItem` writes for front matter text `metaText` and a body. */
  function Document(metaText: string, body: string): string
  {
    "---\n" + metaText + "---\n" + (Separator(body) + body)
  }

  /** The blank line `SaveWorkItem` puts after the front matter unless the body starts with one. */
  function Separator(body: string): string
  {
    if HasPrefix(body, "\n") then "" else "\n"
  }

  /** Reading drops the separator together with the body's own leading newlines. */
  lemma SeparatorDropped(body: string)
    ensures TrimLeft("\n" + (Separator(body) + body), {'\n'}) == TrimLeft(body, {'\n'})
  {
    var sb := Separator(body) + body;
    assert ("\n" + sb)[0] == '\n' && ("\n" + sb)[1..] == sb;
    if Separator(body) != "" {
      assert sb[0] == '\n' && sb[1..] == body;
    } else {
      assert sb == body;
    }
  }

  /**
   * `parseWorkItem`: the text must start with "---"; the front matter runs to
   * the next "---", is trimmed and decoded; the rest, without its leading
   * newlines, is the body. Later "---" lines belong to the body.
   */
  function ParseWorkItem(y: Syntax, data: string): (r: Result<WorkItemFile>)
    ensures !HasPrefix(data, "---") ==> r == Err(MissingFrontMatter)
    ensures HasPrefix(data, "---") && Index(data[3..], "---") < 0 ==> r == Err(InvalidWorkItemFormat)
    ensures HasPrefix(data, "---") && Index(data[3..], "---") >= 0 ==>
      var k := Index(data[3..], "---");
      && (r.Ok? <==> y.unmarshal(TrimSpace(data[3..3 + k])).Ok?
                     && DecodeWorkItem(y.unmarshal(TrimSpace(data[3..3 + k])).value).Ok?)
      && (r.Ok? ==> r.value == WorkItemFile(DecodeWorkItem(y.unmarshal(TrimSpace(data[3..3 + k])).value).value,
                                            TrimLeft(data[6 + k..], {'\n'})))
  {
    if !HasPrefix(data, "---") then Err(MissingFrontMatter)
    else
      SplitAtDelimiters(data);
      var parts := SplitN(data, "---", 3);
      if |parts| < 3 then Err(InvalidWorkItemFormat)
      else
        var front := TrimSpace(parts[1]);
        var body := TrimLeft(parts[2], {'\n'});
        var node :- y.unmarshal(front);
        var meta :- DecodeWorkItem(node);
        Ok(WorkItemFile(meta, body))
  }

  /** `strings.SplitN(data, "---", 3)` on a text that starts with "---". */
  lemma SplitAtDelimiters(data: string)
    requires HasPrefix(data, "---")
    ensures var parts := SplitN(data, "---", 3); var k := Index(data[3..], "---");
      && (|parts| == 3 <==> k >= 0)
      && (k >= 0 ==> parts[1] == data[3..3 + k] && parts[2] == data[6 + k..])
  {
    assert OccursAt(data, "---", 0);
    var rest := data[3..];
    assert SplitN(data, "---", 3) == [data[..0]] + SplitN(rest, "---", 2);
    var k := Index(rest, "---");
    if k >= 0 {
      assert SplitN(rest, "---", 2) == [rest[..k]] + SplitN(rest[k + 3..], "---", 1);
      assert rest[k + 3..] == data[6 + k..];
    }
  }

  /**
   * Front matter text that `parseWorkItem` can find again: it holds no "---"
   * and does not end in '-', so the closing "---" is the first one after it.
   */
  predicate FrontMatterSafe(text: string)
  {
    !Contains(text, "---") && (text == "" || text[|text| - 1] != '-')
  }

  /** No "---" starts before the closing delimiter of a saved document. */
  lemma NoDelimiterBefore(t: string, rest: string, j: int)
    requires FrontMatterSafe(t) && 0 <= j < 1 + |t|
    ensures !OccursAt("\n" + t + "---\n" + rest, "---", j)
  {
    var s := "\n" + t + "---\n" + rest;
    if j == 0 {
      assert s[0] == '\n';
    } else if j + 3 <= 1 + |t| {
      assert !OccursAt(t, "---", j - 1) by {
        ContainsIffOccurs(t, "---");
      }
      forall m | j <= m < j + 3
        ensures s[m] == t[m - 1]
      {
      }
      assert s[j..j + 3] == t[j - 1..j + 2];
    } else {
      assert s[|t|] == t[|t| - 1];
      assert s[j..j + 3][|t| - j] == s[|t|];
    }
  }

  /** In a saved document the closing delimiter is the first "---" after the opening one. */
  lemma ClosingDelimiter(t: string, rest: string)
    requires FrontMatterSafe(t)
    ensures Index("\n" + t + "---\n" + rest, "---") == 1 + |t|
  {
    var s := "\n" + t + "---\n" + rest;
    assert s[1 + |t|..4 + |t|] == "---";
    assert OccursAt(s, "---", 1 + |t|);
    forall j | 0 <= j < 1 + |t|
      ensures !OccursAt(s, "---", j)
    {
      NoDelimiterBefore(t, rest, j);
    }
  }

  /** Where the pieces of a saved document sit. */
  lemma DocumentShape(t: string, rest: string)
    ensures var data := "---\n" + t + "---\n" + rest;
      && HasPrefix(data, "---")
      && data[3..] == "\n" + t + "---\n" + rest
      && data[3..4 + |t|] == "\n" + t
      && data[7 + |t|..] == "\n" + rest
  {
    var data := "---\n" + t + "---\n" + rest;
    assert data[..3] == "---";
    assert data[3..] == "\n" + t + "---\n" + rest;
  }

  /** A document whose front matter text is safe parses into that front matter and the rest. */
  lemma ParseDocument(y: Syntax, t: string, rest: string, meta: WorkItem)
    requires FrontMatterSafe(t)
    requires y.unmarshal(TrimSpace(t)).Ok? && DecodeWorkItem(y.unmarshal(TrimSpace(t)).value) == Ok(meta)
    ensures ParseWorkItem(y, "---\n" + t + "---\n" + rest) == Ok(WorkItemFile(meta, TrimLeft("\n" + rest, {'\n'})))
  {
    DocumentShape(t, rest);
    ClosingDelimiter(t, rest);
    TrimSpaceLeadingNewline(t);
  }

  /**
   * A saved work item reads back with the same metadata and the stored body
   * without its leading newlines.
   */
  lemma WorkItemFileRoundTrip(y: Syntax, wi: WorkItemFile)
    requires Faithful(y, EncodeWorkItem(wi.meta))
    requires FrontMatterSafe(y.marshal(EncodeWorkItem(wi.meta)))
    ensures ParseWorkItem(y, Document(y.marshal(EncodeWorkItem(wi.meta)), StoredBody(wi)))
         == Ok(WorkItemFile(wi.meta, TrimLeft(StoredBody(wi), {'\n'})))
  {
    var t := y.marshal(EncodeWorkItem(wi.meta));
    var b := StoredBody(wi);
    WorkItemRoundTrip(wi.meta);
    ParseDocument(y, t, Separator(b) + b, wi.meta);
    SeparatorDropped(b);
  }

  /** A body that is not blank and does not start with a newline survives exactly. */
  lemma WorkItemBodyPreserved(y: Syntax, wi: WorkItemFile)
    requires Faithful(y, EncodeWorkItem(wi.meta))
    requires FrontMatterSafe(y.marshal(EncodeWorkItem(wi.meta)))
    requires !IsBlank(wi.body) && !HasPrefix(wi.body, "\n")
    ensures ParseWorkItem(y, Document(y.marshal(EncodeWorkItem(wi.meta)), StoredBody(wi))) == Ok(wi)
  {
    WorkItemFileRoundTrip(y, wi);
    assert wi.body[0] != '\n';
  }

  /** `LoadWorkItem(id)`: read and parse `.agent/workitems/<id>.md`. */
  function LoadWorkItem(d: Disk, id: string): (r: Result<WorkItemFile>)
    reads d
    ensures WorkItemPath(id) !in d.files ==> r.Err?
    ensures WorkItemPath(id) in d.files ==> r == ParseWorkItem(d.syntax, d.files[WorkItemPath(id)])
  {
    var data :- d.ReadFile(WorkItemPath(id));
    ParseWorkItem(d.syntax, data)
  }

  /** `SaveWorkItem`: front matter, delimiter lines and body, written to the item's file. */
  method SaveWorkItem(d: Disk, wi: WorkItemFile) returns (err: Option<Error>)
    modifies d
    ensures d.dirs == old(d.dirs)
    ensures err.None? ==> d.files == old(d.files)[WorkItemPath(wi.meta.id) :=
      Document(d.syntax.marshal(EncodeWorkItem(wi.meta)), StoredBody(wi))]
    ensures err.Some? ==> d.files == old(d.files)
  {
    var metaText := d.syntax.marshal(EncodeWorkItem(wi.meta));
    var body := if IsBlank(wi.body) then DefaultWorkItemBody(wi.meta) else wi.body;
    var buf := "---\n";
    buf := buf + metaText;
    buf := buf + "---\n";
    if !HasPrefix(body, "\n") {
      buf := buf + "\n";
    }
    buf := buf + body;
    assert buf == Document(metaText, StoredBody(wi));
    err := d.WriteFile(WorkItemPath(wi.meta.id), buf);
  }

  /** What `SaveWorkItem` wrote, `LoadWorkItem` reads back. */
  lemma WorkItemSurvivesSave(d: Disk, wi: WorkItemFile)
    requires Faithful(d.syntax, EncodeWorkItem(wi.meta))
    requires FrontMatterSafe(d.syntax.marshal(EncodeWorkItem(wi.meta)))
    requires WorkItemPath(wi.meta.id) in d.files
    requires d.files[WorkItemPath(wi.meta.id)] == Document(d.syntax.marshal(EncodeWorkItem(wi.meta)), StoredBody(wi))
    ensures LoadWorkItem(d, wi.meta.id) == Ok(WorkItemFile(wi.meta, TrimLeft(StoredBody(wi), {'\n'})))
  {
    WorkItemFileRoundTrip(d.syntax, wi);
  }

  /**
   * `UpdateWorkItemStatus`: load, set the status, save. The file written is
   * the one named by the loaded front matter's ID.
   */
  method UpdateWorkItemStatus(d: Disk, id: string, status: string) returns (err: Option<Error>)
    modifies d
    ensures d.dirs == old(d.dirs)
    ensures old(LoadWorkItem(d, id)).Err? ==> err.Some? && d.files == old(d.files)
    ensures err.Some? ==> d.files == old(d.files)
    ensures err.None? ==> old(LoadWorkItem(d, id)).Ok?
    ensures err.None? ==> var wi := old(LoadWorkItem(d, id)).value.(meta := old(LoadWorkItem(d, id)).value.meta.(status := status));
      d.files == old(d.files)[WorkItemPath(wi.meta.id) := Document(d.syntax.marshal(EncodeWorkItem(wi.meta)), StoredBody(wi))]
  {
    var loaded := LoadWorkItem(d, id);
    if loaded.Err? {
      return Some(loaded.error);
    }
    var wi := loaded.value;
    wi := wi.(meta := wi.meta.(status := status));
    err := SaveWorkItem(d, wi);
  }

  /** `NewWorkItemFile`: an active item with at least one intent and an empty body. */
  function NewWorkItemFile(id: string, title: string, intents: seq<string>, now: Timestamp): (wi: WorkItemFile)
    ensures wi.meta.id == id && wi.meta.title == title && wi.meta.createdAt == now
    ensures wi.meta.status == "active" && wi.body == ""
    ensures |intents| > 0 ==> wi.meta.intent == intents
    ensures |intents| == 0 ==> wi.meta.intent == ["general"]
    ensures wi.meta.evidence == [] && wi.meta.acceptanceCriteria == []
    ensures wi.meta.lastSummary == "" && wi.meta.branchSuggestion == ""
  {
    var intent := if |intents| == 0 then ["general"] else intents;
    WorkItemFile(WorkItem(id, title, intent, "active", now, [], "", [], ""), "")
  }

  // ---------------------------------------------------------------------
  // Work-item numbering and listing
  // ---------------------------------------------------------------------

  /** `workItemPattern`: `WI-`, three or more ASCII digits, `.md`. */
  predicate IsWorkItemFileName(name: string)
  {
    |name| >= 9 && name[..3] == "WI-" && name[|name| - 3..] == ".md" && AllDigits(name[3..|name| - 3])
  }

  /** The names the pattern accepts are exactly `WI-`, a run of three or more digits, `.md`. */
  lemma WorkItemFileNameShape(name: string)
    ensures IsWorkItemFileName(name) <==>
      exists digits :: |digits| >= 3 && AllDigits(digits) && name == "WI-" + digits + ".md"
  {
    if IsWorkItemFileName(name) {
      assert name == "WI-" + name[3..|name| - 3] + ".md";
    }
    if exists digits :: |digits| >= 3 && AllDigits(digits) && name == "WI-" + digits + ".md" {
      var digits :| |digits| >= 3 && AllDigits(digits) && name == "WI-" + digits + ".md";
      assert name[3..|name| - 3] == digits;
    }
  }

  /** The number a work-item file name carries (`fmt.Sscanf` with `%d`). */
  function Number(name: string): nat
    requires IsWorkItemFileName(name)
  {
    ParseDigits(name[3..|name| - 3])
  }

  /** The digits of a work-item file name are its number printed, after leading zeros. */
  lemma NumberDigits(name: string)
    requires IsWorkItemFileName(name)
    ensures exists k: nat :: name == "WI-" + Zeros(k) + Itoa(Number(name)) + ".md"
  {
    var digits := name[3..|name| - 3];
    DigitsAreZerosAndItoa(digits);
    var k: nat :| digits == Zeros(k) + Itoa(ParseDigits(digits));
    assert name == "WI-" + digits + ".md";
    assert name == "WI-" + Zeros(k) + Itoa(Number(name)) + ".md";
  }

  /** `fmt.Sprintf("WI-%03d", n)`: `WI-` and at least three digits, exactly three below 1000. */
  function FormatId(n: nat): (r: string)
    ensures |r| >= 6 && r[..3] == "WI-" && AllDigits(r[3..])
    ensures n < 1000 <==> |r| == 6
  {
    ItoaLength(n);
    "WI-" + PadZero(Itoa(n), 3)
  }

  /** Every formatted ID names a work-item file that carries the same number. */
  lemma FormatIdParses(n: nat)
    ensures IsWorkItemFileName(FormatId(n) + ".md")
    ensures Number(FormatId(n) + ".md") == n
  {
    var digits := PadZero(Itoa(n), 3);
    var name := FormatId(n) + ".md";
    ParsePadded(n, 3);
    assert name[3..|name| - 3] == digits;
  }

  /** Distinct numbers give distinct IDs. */
  lemma FormatIdInjective(a: nat, b: nat)
    requires FormatId(a) == FormatId(b)
    ensures a == b
  {
    FormatIdParses(a);
    FormatIdParses(b);
  }

  /** `m` is the largest number among the work-item file names, or 0 when there is none. */
  predicate IsMaxNumber(m: nat, names: set<string>)
  {
    && (forall n :: n in names && IsWorkItemFileName(n) ==> Number(n) <= m)
    && (m == 0 || exists n :: n in names && IsWorkItemFileName(n) && Number(n) == m)
  }

  lemma MaxNumberUnique(a: nat, b: nat, names: set<string>)
    requires IsMaxNumber(a, names) && IsMaxNumber(b, names)
    ensures a == b
  {
  }

  /** The largest work-item number in a set of file names. */
  ghost function MaxNumber(names: set<string>): (m: nat)
    ensures IsMaxNumber(m, names)
    decreases names
  {
    if names == {} then 0
    else
      var n :| n in names;
      var rest := MaxNumber(names - {n});
      if IsWorkItemFileName(n) && Number(n) > rest then Number(n) else rest
  }

  /** The ID after the largest number names a work-item file that is not there yet. */
  lemma {:induction false} AfterMaxIsFresh(names: set<string>, m: nat)
    requires IsMaxNumber(m, names)
    ensures var name := FormatId(m + 1) + ".md";
      IsWorkItemFileName(name) && Number(name) == m + 1 && name !in names
  {
    FormatIdParses(m + 1);
  }

  /** The next ID names a work-item file that is not there yet. */
  lemma {:induction false} NextIdIsFresh(names: set<string>)
    ensures var name := FormatId(MaxNumber(names) + 1) + ".md";
      IsWorkItemFileName(name) && Number(name) == MaxNumber(names) + 1 && name !in names
  {
    var m := MaxNumber(names);
    AfterMaxIsFresh(names, m);
  }

  /** The first work item of an empty directory is WI-001. */
  lemma FirstIdIsWI001()
    ensures FormatId(MaxNumber({}) + 1) == "WI-001"
  {
    assert Itoa(1) == "1";
    assert Zeros(2) == "00";
  }

  /**
   * `NextWorkItemID`: one more than the largest number among the work-item
   * files in `.agent/workitems`, zero-padded to three digits.
   */
  method NextWorkItemID(d: Disk) returns (r: Result<string>)
    ensures WorkItemsDir !in d.dirs ==> r.Err?
    ensures WorkItemsDir in d.dirs ==> r == Ok(FormatId(MaxNumber(d.FileChildren(WorkItemsDir)) + 1))
  {
    var listing := d.ReadDir(WorkItemsDir);
    if listing.Err? {
      return Err(listing.error);
    }
    var entries := listing.value;
    var max := 0;
    var i := 0;
    while i < |entries|
      invariant i <= |entries|
      invariant forall k :: 0 <= k < i && !entries[k].isDir && IsWorkItemFileName(entries[k].name) ==>
        Number(entries[k].name) <= max
      invariant max == 0 || exists k :: (0 <= k < i && !entries[k].isDir &&
        IsWorkItemFileName(entries[k].name) && Number(entries[k].name) == max)
    {
      var e := entries[i];
      if !e.isDir && IsWorkItemFileName(e.name) {
        var num := Number(e.name);
        if num > max {
          max := num;
        }
      }
      i := i + 1;
    }
    var names := d.FileChildren(WorkItemsDir);
    assert IsMaxNumber(max, names) by {
      forall n | n in names && IsWorkItemFileName(n) ensures Number(n) <= max {
        var k :| 0 <= k < |entries| && entries[k] == DirEntry(n, false);
      }
      if max != 0 {
        var k :| 0 <= k < i && !entries[k].isDir && IsWorkItemFileName(entries[k].name) && Number(entries[k].name) == max;
        assert DirEntry(entries[k].name, false) == entries[k];
        assert entries[k].name in names;
      }
    }
    MaxNumberUnique(max, MaxNumber(names), names);
    r := Ok(FormatId(max + 1));
  }

  /** The IDs the work-item files in `.agent/workitems` carry. */
  ghost function WorkItemIds(d: Disk): set<string>
    reads d
  {
    StemsOf(d.FileChildren(WorkItemsDir), IsWorkItemFileName, ".md")
  }

  /** `ListWorkItems`: the IDs of the work-item files, in ascending string order. */
  method ListWorkItems(d: Disk) returns (r: Result<seq<string>>)
    ensures WorkItemsDir !in d.dirs ==> r.Err?
    ensures WorkItemsDir in d.dirs ==> r.Ok? && Sorted(r.value) && multiset(r.value) == multiset(WorkItemIds(d))
  {
    var listing := d.ReadDir(WorkItemsDir);
    if listing.Err? {
      return Err(listing.error);
    }
    var entries := listing.value;
    var ids: seq<string> := [];
    var i := 0;
    while i < |entries|
      invariant i <= |entries|
      invariant multiset(ids) == multiset(Stems(entries[..i], IsWorkItemFileName, ".md"))
    {
      var e := entries[i];
      StemStep(entries, i, IsWorkItemFileName, ".md");
      if !e.isDir && IsWorkItemFileName(e.name) {
        var id := TrimSuffix(e.name, ".md");
        MultisetOfSetAdd(Stems(entries[..i], IsWorkItemFileName, ".md"), id);
        ids := ids + [id];
      }
      i := i + 1;
    }
    assert entries[..i] == entries;
    StemsOfListing(d.FileChildren(WorkItemsDir), entries, IsWorkItemFileName, ".md");
    r := Ok(SortStrings(ids));
  }

  /** Sorting compares text: with four digits, WI-1000 sorts before WI-999. */
  lemma ListingOrderIsTextual()
    ensures LessEq("WI-1000", "WI-999") && !LessEq("WI-999", "WI-1000")
  {
    assert "WI-1000"[1..] == "I-1000" && "WI-999"[1..] == "I-999";
    assert "I-1000"[1..] == "-1000" && "I-999"[1..] == "-999";
    assert "-1000"[1..] == "1000" && "-999"[1..] == "999";
  }

  // ---------------------------------------------------------------------
  // Evidence
  // ---------------------------------------------------------------------

  /** `base-<i>ext` for `name` = `base` + `ext` (`ext` as `filepath.Ext` finds it). */
  function CandidateName(name: string, i: nat): string
  {
    TrimSuffix(name, Ext(name)) + "-" + Itoa(i) + Ext(name)
  }

  /** `filepath.Join(dir, name)` where `dir` is "." for the working directory. */
  function JoinDir(dir: string, name: string): string
  {
    if dir == "." then name else JoinPath(dir, name)
  }

  /** The `uniquePath` candidates for `dir/name`. */
  function Candidate(dir: string, name: string, i: nat): string
  {
    JoinDir(dir, CandidateName(name, i))
  }

  lemma CandidateInjective(dir: string, name: string, i: nat, j: nat)
    requires Candidate(dir, name, i) == Candidate(dir, name, j)
    ensures i == j
  {
    var a := CandidateName(name, i);
    var b := CandidateName(name, j);
    var pre := if dir == "." then "" else dir + "/";
    assert Candidate(dir, name, i) == pre + a && Candidate(dir, name, j) == pre + b;
    assert a == (pre + a)[|pre|..];
    assert b == (pre + b)[|pre|..];
    var stem := TrimSuffix(name, Ext(name)) + "-";
    var ext := Ext(name);
    assert a == stem + Itoa(i) + ext && b == stem + Itoa(j) + ext;
    assert |Itoa(i)| == |Itoa(j)|;
    assert Itoa(i) == a[|stem|..|stem| + |Itoa(i)|];
    assert Itoa(j) == b[|stem|..|stem| + |Itoa(j)|];
    ItoaInjective(i, j);
  }

  /**
   * `uniquePath(dir/name)`: the first of `base-1ext`, `base-2ext`, ... that
   * does not exist yet.
   */
  method UniquePath(d: Disk, dir: string, name: string) returns (path: string)
    ensures !d.Exists(path)
    ensures exists i :: (i >= 1 && path == Candidate(dir, name, i) &&
      forall j :: 1 <= j < i ==> d.Exists(Candidate(dir, name, j)))
  {
    var existing := d.files.Keys + d.dirs;
    ghost var tried: set<string> := {};
    var i := 1;
    while d.Exists(Candidate(dir, name, i))
      invariant i >= 1
      invariant tried == set j | 1 <= j < i :: Candidate(dir, name, j)
      invariant |tried| == i - 1
      invariant tried <= existing
      invariant forall j :: 1 <= j < i ==> d.Exists(Candidate(dir, name, j))
      decreases |existing| - |tried|
    {
      var c := Candidate(dir, name, i);
      assert c !in tried by {
        if c in tried {
          var j :| 1 <= j < i && Candidate(dir, name, j) == c;
          CandidateInjective(dir, name, i, j);
        }
      }
      SubsetCard(tried + {c}, existing);
      tried := tried + {c};
      i := i + 1;
    }
    path := Candidate(dir, name, i);
  }

  lemma SubsetCard(a: set<string>, b: set<string>)
    requires a <= b
    ensures |a| <= |b|
  {
    assert b == a + (b - a);
  }

  /** A base name that `filepath.Join` keeps as it is. */
  predicate IsPlainName(base: string)
  {
    base != "." && base != ".." && base != "/"
  }

  /** Where `CopyEvidence` first tries to put `base`, after `filepath.Join` cleans the path. */
  function EvidenceDest(base: string): (r: string)
    ensures IsPlainName(base) ==> r == JoinPath(EvidenceDir, base)
  {
    if base == "." || base == "/" then EvidenceDir
    else if base == ".." then AgentDir
    else JoinPath(EvidenceDir, base)
  }

  /** `filepath.Rel(".agent", dest)` for a clean `dest`. */
  function RelToAgent(dest: string): string
  {
    if HasPrefix(dest, AgentDir + "/") then dest[|AgentDir| + 1..] else "../" + dest
  }

  /**
   * `copyFile(src, dest)`: opening a missing source fails before anything is
   * created; a directory opens, so `dest` is created empty before the copy fails.
   */
  method CopyFile(d: Disk, src: string, dest: string) returns (err: Option<Error>)
    modifies d
    ensures d.dirs == old(d.dirs)
    ensures err.None? ==> src in old(d.files) && d.files == old(d.files)[dest := old(d.files)[src]]
    ensures err.Some? ==> d.files == old(d.files) || (src !in old(d.files) && d.files == old(d.files)[dest := ""])
    ensures src !in old(d.files) ==> err.Some?
  {
    if src in d.files {
      err := d.WriteFile(dest, d.files[src]);
    } else if src in d.dirs {
      err := d.WriteFile(dest, "");
      if err.None? {
        err := Some(IsADirectory(src));
      }
    } else {
      err := Some(d.StatError(src));
    }
  }

  /** Every directory `MkdirAll(p)` creates is `p` or shorter. */
  lemma DirChainShorter(p: string, q: string)
    requires q in DirChain(p)
    ensures |q| <= |p|
  {
  }

  /** An entry of the evidence directory is not one of the directories `MkdirAll` creates for it. */
  lemma EvidenceEntryNotInChain(x: string)
    ensures JoinPath(EvidenceDir, x) !in DirChain(EvidenceDir)
  {
    if JoinPath(EvidenceDir, x) in DirChain(EvidenceDir) {
      DirChainShorter(EvidenceDir, JoinPath(EvidenceDir, x));
    }
  }

  /** `filepath.Rel(".agent", ".agent/evidence/x")` is `evidence/x`. */
  lemma RelToAgentEvidence(x: string)
    ensures RelToAgent(JoinPath(EvidenceDir, x)) == "evidence/" + x
  {
    var p := JoinPath(EvidenceDir, x);
    assert p == AgentDir + "/" + ("evidence/" + x);
    assert HasPrefix(p, AgentDir + "/");
    assert p[|AgentDir| + 1..] == "evidence/" + x;
  }

  /**
   * The destination choice of `CopyEvidence` once `.agent/evidence` exists:
   * `.agent/evidence/<base>` when that is free, otherwise `uniquePath` of it.
   */
  method EvidenceDestination(d: Disk, base: string) returns (dest: string)
    ensures !d.Exists(dest)
    ensures IsPlainName(base) && !d.Exists(JoinPath(EvidenceDir, base)) ==> dest == JoinPath(EvidenceDir, base)
    ensures IsPlainName(base) && d.Exists(JoinPath(EvidenceDir, base)) ==>
      exists i :: (i >= 1 && dest == JoinPath(EvidenceDir, CandidateName(base, i)) &&
        forall j :: 1 <= j < i ==> d.Exists(JoinPath(EvidenceDir, CandidateName(base, j))))
  {
    dest := EvidenceDest(base);
    if d.Exists(dest) {
      if base == ".." {
        dest := UniquePath(d, ".", AgentDir);
      } else if base == "." || base == "/" {
        dest := UniquePath(d, AgentDir, "evidence");
      } else {
        dest := UniquePath(d, EvidenceDir, base);
        var i :| i >= 1 && dest == Candidate(EvidenceDir, base, i) &&
          forall j :: 1 <= j < i ==> d.Exists(Candidate(EvidenceDir, base, j));
        assert dest == JoinPath(EvidenceDir, CandidateName(base, i));
        assert forall j :: 1 <= j < i ==> d.Exists(JoinPath(EvidenceDir, CandidateName(base, j))) by {
          forall j | 1 <= j < i
            ensures d.Exists(JoinPath(EvidenceDir, CandidateName(base, j)))
          {
            assert Candidate(EvidenceDir, base, j) == JoinPath(EvidenceDir, CandidateName(base, j));
          }
        }
      }
    }
  }

  /**
   * `CopyEvidence(src)`: copy into `.agent/evidence` under the source's base
   * name, or the first free `base-<i>ext` when that is taken, and return the
   * copy's path relative to `.agent`. An existing file is never overwritten.
   */
  method CopyEvidence(d: Disk, src: string) returns (r: Result<string>)
    modifies d
    ensures old(!(DirChain(EvidenceDir) !! d.files.Keys)) ==> r.Err? && d.files == old(d.files) && d.dirs == old(d.dirs)
    ensures r.Ok? ==> d.dirs == old(d.dirs) + DirChain(EvidenceDir)
    ensures r.Err? ==> d.dirs == old(d.dirs) || d.dirs == old(d.dirs) + DirChain(EvidenceDir)
    ensures r.Ok? ==> src in old(d.files)
    ensures r.Ok? ==> exists p :: RelToAgent(p) == r.value && !old(d.Exists(p)) && p !in old(d.dirs) + DirChain(EvidenceDir)
                           && d.files == old(d.files)[p := old(d.files)[src]]
    ensures var base := Base(src); var first := JoinPath(EvidenceDir, base);
      r.Ok? && IsPlainName(base) ==>
        (!old(d.Exists(first)) ==> r.value == "evidence/" + base)
        && (old(d.Exists(first)) ==> exists i :: (i >= 1 && r.value == "evidence/" + CandidateName(base, i)
              && forall j :: 1 <= j < i ==> old(d.Exists(JoinPath(EvidenceDir, CandidateName(base, j))))))
    ensures r.Err? ==> d.files == old(d.files) || exists p :: !old(d.Exists(p)) && d.files == old(d.files)[p := ""]
  {
    var err := d.MkdirAll(EvidenceDir);
    if err.Some? {
      assert d.files == old(d.files);
      return Err(err.value);
    }
    // Below `.agent/evidence`, existence is the same before and after `MkdirAll`.
    forall x
      ensures d.Exists(JoinPath(EvidenceDir, x)) == old(d.Exists(JoinPath(EvidenceDir, x)))
    {
      EvidenceEntryNotInChain(x);
    }
    var base := Base(src);
    var dest := EvidenceDestination(d, base);
    assert !old(d.Exists(dest));
    assert dest !in old(d.dirs) + DirChain(EvidenceDir);
    ghost var dirs1 := d.dirs;
    err := CopyFile(d, src, dest);
    if err.Some? {
      return Err(err.value);
    }
    r := Ok(RelToAgent(dest));
    if IsPlainName(base) {
      if !old(d.Exists(JoinPath(EvidenceDir, base))) {
        RelToAgentEvidence(base);
      } else {
        var i :| i >= 1 && dest == JoinPath(EvidenceDir, CandidateName(base, i)) &&
          forall j :: 1 <= j < i ==> old(d.Exists(JoinPath(EvidenceDir, CandidateName(base, j))));
        RelToAgentEvidence(CandidateName(base, i));
      }
    }
  }

  // ---------------------------------------------------------------------
  // Bootstrap
  // ---------------------------------------------------------------------

  /** `EnsureAgentExists`: the `.agent` path must exist. */
  function EnsureAgentExists(d: Disk): (err: Option<Error>)
    reads d
    ensures err.None? <==> d.Exists(AgentDir)
    ensures err.Some? ==> err.value == AgentMissing
  {
    if !d.Exists(AgentDir) then Some(AgentMissing) else None
  }

  /** `TouchPromptFile`: make sure `.agent/exports` exists and name the prompt file. */
  method TouchPromptFile(d: Disk) returns (r: Result<string>)
    modifies d
    ensures d.files == old(d.files)
    ensures r.Ok? <==> DirChain(ExportsDir) !! old(d.files).Keys
    ensures r.Ok? ==> r.value == PromptPath && d.dirs == old(d.dirs) + DirChain(ExportsDir)
    ensures r.Err? ==> d.dirs == old(d.dirs) && r.error.NotADirectory?
  {
    var err := d.MkdirAll(ExportsDir);
    if err.Some? {
      return Err(err.value);
    }
    r := Ok(PromptPath);
  }

  /** The files `init` writes and never overwrites. */
  predicate Initialized(d: Disk)
    reads d
  {
    d.Exists(ContextPath) || d.Exists(StatePath) || d.Exists(ProfilesPath)
  }

  /** `ensureFreshAgentLayout`: refuse a non-directory `.agent` and an initialised one. */
  function FreshLayoutError(d: Disk): (err: Option<Error>)
    reads d
    ensures !d.Exists(AgentDir) ==> err.None?
    ensures AgentDir in d.files && AgentDir !in d.dirs ==> err == Some(NotADirectory(AgentDir))
    ensures AgentDir in d.dirs ==> (err.Some? <==> Initialized(d))
    ensures err.Some? && AgentDir in d.dirs ==> err.value == AlreadyInitialized
  {
    if !d.Exists(AgentDir) then None
    else if AgentDir !in d.dirs then Some(NotADirectory(AgentDir))
    else if Initialized(d) then Some(AlreadyInitialized)
    else None
  }

  /** Every directory `os.MkdirAll` creates for each of `paths`. */
  function Chains(paths: seq<string>): set<string>
  {
    if paths == [] then {} else Chains(paths[..|paths| - 1]) + DirChain(paths[|paths| - 1])
  }

  /** The directories `init` creates. */
  function LayoutDirs(): set<string>
  {
    Chains([AgentDir, WorkItemsDir, EvidenceDir, ExportsDir, TemplatesDir])
  }

  /** The directory loop of `EnsureAgentLayout`: stop at the first failure. */
  method CreateLayoutDirs(d: Disk) returns (err: Option<Error>)
    modifies d
    ensures d.files == old(d.files)
    ensures err.None? ==> d.dirs == old(d.dirs) + LayoutDirs()
  {
    var layout := [AgentDir, WorkItemsDir, EvidenceDir, ExportsDir, TemplatesDir];
    var i := 0;
    err := None;
    while i < |layout|
      invariant i <= |layout|
      invariant d.files == old(d.files)
      invariant d.dirs == old(d.dirs) + Chains(layout[..i])
    {
      assert layout[..i + 1] == layout[..i] + [layout[i]];
      err := d.MkdirAll(layout[i]);
      if err.Some? {
        return err;
      }
      i := i + 1;
    }
    assert layout[..i] == layout;
  }

  /** The files `init` writes. */
  const InitialFiles: set<string> := {ContextPath, StatePath, ProfilesPath}

  /** `after` holds every file of `before` outside `written`, with the same content. */
  ghost predicate KeepsOthers(before: map<string, string>, after: map<string, string>, written: set<string>)
  {
    forall p :: p in before && p !in written ==> p in after && after[p] == before[p]
  }

  /** Writing one file of `written` (or nothing) keeps the others, and so does a sequence of such writes. */
  lemma UpdateKeepsOthers(before: map<string, string>, after: map<string, string>, k: string, v: string, written: set<string>)
    requires k in written
    requires after == before || after == before[k := v]
    ensures KeepsOthers(before, after, written)
  {
  }

  lemma KeepsOthersTrans(a: map<string, string>, b: map<string, string>, c: map<string, string>, written: set<string>)
    requires KeepsOthers(a, b, written) && KeepsOthers(b, c, written)
    ensures KeepsOthers(a, c, written)
  {
  }

  /** The files of `before` after `init` writes the context `ctx`, the default state and the default profiles. */
  function InitialLayoutFiles(before: map<string, string>, syntax: Syntax, ctx: Context): map<string, string>
  {
    before
      [ContextPath := syntax.marshal(EncodeContext(ctx))]
      [StatePath := syntax.marshal(EncodeState(DefaultState()))]
      [ProfilesPath := syntax.marshal(EncodePromptProfileSet(DefaultPromptProfiles()))]
  }

  /** The three writes of `EnsureAgentLayout`: context, default state, default profiles. */
  method WriteInitialFiles(d: Disk, ctx: Context) returns (err: Option<Error>)
    modifies d
    ensures d.dirs == old(d.dirs)
    ensures err.None? ==> d.files == InitialLayoutFiles(old(d.files), d.syntax, ctx)
    ensures KeepsOthers(old(d.files), d.files, InitialFiles)
  {
    ghost var files0 := d.files;
    err := SaveContext(d, ctx);
    UpdateKeepsOthers(files0, d.files, ContextPath, d.syntax.marshal(EncodeContext(ctx)), InitialFiles);
    if err.Some? {
      return err;
    }
    ghost var files1 := d.files;
    var st := DefaultState();
    assert NormalizeHealth(st) == st;
    err := SaveState(d, st);
    UpdateKeepsOthers(files1, d.files, StatePath, d.syntax.marshal(EncodeState(st)), InitialFiles);
    KeepsOthersTrans(files0, files1, d.files, InitialFiles);
    if err.Some? {
      return err;
    }
    ghost var files2 := d.files;
    var profiles := DefaultPromptProfiles();
    err := SavePromptProfiles(d, profiles);
    UpdateKeepsOthers(files2, d.files, ProfilesPath, d.syntax.marshal(EncodePromptProfileSet(profiles)), InitialFiles);
    KeepsOthersTrans(files0, files2, d.files, InitialFiles);
  }

  /** Create the directories, then write the three files; stop at the first failure. */
  method InitializeLayout(d: Disk, ctx: Context) returns (err: Option<Error>)
    modifies d
    ensures err.None? ==> d.dirs == old(d.dirs) + LayoutDirs() && d.files == InitialLayoutFiles(old(d.files), d.syntax, ctx)
    ensures KeepsOthers(old(d.files), d.files, InitialFiles)
  {
    err := CreateLayoutDirs(d);
    if err.Some? {
      return err;
    }
    err := WriteInitialFiles(d, ctx);
  }

  /**
   * `EnsureAgentLayout(templateName)`: on a fresh repository, create the
   * directories and write the resolved template as the context, the default
   * state and the default profiles. Nothing else is written, and nothing is
   * written at all when the repository is already initialised.
   */
  method EnsureAgentLayout(d: Disk, templateName: string) returns (err: Option<Error>)
    modifies d
    ensures old(FreshLayoutError(d)).Some? ==>
      err == old(FreshLayoutError(d)) && d.files == old(d.files) && d.dirs == old(d.dirs)
    ensures old(AgentDir in d.dirs && Initialized(d)) ==>
      err == Some(AlreadyInitialized) && d.files == old(d.files)
    ensures old(FreshLayoutError(d)).None? && old(ResolveTemplate(d, templateName)).Err? ==>
      err == Some(old(ResolveTemplate(d, templateName)).error) && d.files == old(d.files) && d.dirs == old(d.dirs)
    ensures old(ResolveTemplate(d, templateName)).Err? ==> err.Some? && d.files == old(d.files)
    ensures err.None? ==> old(FreshLayoutError(d)).None? && old(ResolveTemplate(d, templateName)).Ok?
    ensures err.None? ==> d.dirs == old(d.dirs) + LayoutDirs()
    ensures err.None? ==>
      d.files == InitialLayoutFiles(old(d.files), d.syntax, old(ResolveTemplate(d, templateName)).value.context)
    ensures KeepsOthers(old(d.files), d.files, InitialFiles)
  {
    var guard := FreshLayoutError(d);
    if guard.Some? {
      return guard;
    }
    var resolved := ResolveTemplate(d, templateName);
    if resolved.Err? {
      return Some(resolved.error);
    }
    err := InitializeLayout(d, resolved.value.context);
  }
}
