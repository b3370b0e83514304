# ctx agent core, modelled in Dafny

`ctx` is an offline command-line tool. It keeps an agent's working context
for a repository in a `.agent/` directory:

- `context.yaml` holds the slow-changing project context: project, architecture, standards, constraints and quality gates.
- `state.yaml` holds the session state: the active work item, the last handoff summary, a branch suggestion and a health snapshot.
- `prompt_profiles.yaml` holds the prompt profiles `cheap`, `standard` and `deep`.
- `workitems/WI-NNN.md` holds the work items: YAML front matter between `---` lines, then a free-text body.
- `evidence/` holds copied evidence files.
- `exports/current.prompt.md` holds the last prompt that was built.

The project models the logic of the `internal/agent` package and of the
three session commands `work start|stop`, `issue` and `evidence add`. It
proves what they promise.

Modules:

- **Wrappers**: `Option`, `Result` and the error kinds the tool reports.
- **Text**: the Go `strings` helpers the code uses, decimal formatting and parsing, byte-wise string order and sorting.
- **Yaml**:
  - A YAML document is a `Node` tree.
  - The library's text syntax is a parameter `Syntax(marshal, unmarshal)`.
  - `Faithful(y, n)` is the premise that decoding what was encoded gives `n` back.
- **Models**:
  - The records of `models.go` as datatypes, with their encoding into `Node`s.
  - Which keys are always written and which `omitempty` drops.
  - Decode-after-encode round trips.
- **FileSystem**:
  - Class `Disk`: a map from file path to contents, plus a set of directories, updated in place by `WriteFile` and `MkdirAll`.
  - `ReadDir` is a loop over both.
  - A write may also fail unpredictably, so the order of saves stays observable.
- **Layout**: the paths under `.agent/`.
- **Storage** (`storage.go`):
  - The bootstrap guard and layout.
  - Loading and saving the YAML records, with health normalisation.
  - The work-item front-matter codec.
  - ID allocation ("max + 1") and listing.
  - Evidence copying with the "smallest free `-i` suffix" search.
- **Templates** (`templates.go`):
  - The built-in templates.
  - The precedence chain repo file → exact built-in → `default`.
  - Metadata reconciliation, listing and installing.
- **Prompt** (`prompt.go`):
  - The list and string combinators.
  - The prompt template written out as string concatenation that follows the template literal.
  - `BuildPrompt`, which checks preconditions, fills in defaults, renders and writes the export.
- **Workflow** (`workflow.go`): branch-name sanitising.
- **Intent** (`intent.go`): whole-word keyword classification.
- **Commands** (`cmd/work.go`, `cmd/issue.go`, `cmd/evidence.go`): each command loads, mutates and saves against a `Disk`, in the command's own order. Each stops at the first error.

The code is imperative where the source is. These operations are methods with loops and invariants, proved against specification functions:

- `NextWorkItemID`, `ListWorkItems`, `uniquePath`, `EnsureAgentLayout`
- `bulletList`, `mergeUnique`, `dedupe`, `likelyFiles`, `scopedList`, `BuildPrompt`
- `cloneContext`, `ListRepoTemplates`, `InstallTemplate`
- `ClassifyIntent`
- the commands

The pure parts are functions with lemmas: `parseWorkItem`, `archSummary`, `sanitizeBranch`, `finalizeTemplateMetadata`, `ResolveTemplate` and the encodings.

Where the code and the written description of the tool disagree, the model follows the code:

- **Health normalisation.** `LoadState` and `SaveState` replace the health status by `"unknown"` only when the status is empty *and* there are no issues (`internal/agent/storage.go:153-155, 165-167`). An empty status with issues stays empty. The description says the status is never empty.
- **Project Context block.** The block is shown when the project summary is a *non-empty* string, which is template truthiness (`internal/agent/prompt.go:49`). A summary of spaces is shown too. The description says "non-blank".

## Model

| member | source | states |
|---|---|---|
| Storage.EnsureAgentLayout | internal/agent/storage.go:41-74 | If the guard fails, the same error is returned and nothing is written. An already-initialised `.agent` gives `AlreadyInitialized` and leaves the files untouched. A template error is returned as it is and creates no directory and no file. On success the five layout directories exist, and exactly `context.yaml`, `state.yaml` and `prompt_profiles.yaml` are written, with the resolved context, `DefaultState()` and `DefaultPromptProfiles()`. Every other file is unchanged on every path. |
| Storage.FreshLayoutError | internal/agent/storage.go:77-101 | No `.agent` passes the guard. A regular file named `.agent` fails with NotADirectory. A directory `.agent` fails exactly when one of the three protected files exists, and then with `AlreadyInitialized`. |
| Storage.CreateLayoutDirs | internal/agent/storage.go:51-62 | On success the directories are the old ones plus the chains of all five layout directories. Files are never touched. |
| Storage.WriteInitialFiles | internal/agent/storage.go:64-72 | On success the files are the old ones with exactly the three initial files replaced. On failure only those three paths may differ. Directories are unchanged. |
| Storage.InitializeLayout | internal/agent/storage.go:51-73 | On success the layout directories are added and the three initial files written. No other file is ever changed. |
| Storage.DefaultState | internal/agent/storage.go:104-109 | No active item, summary or branch. Health is `"unknown"` with no issues. |
| Storage.DefaultPromptProfiles | internal/agent/storage.go:112-135 | The profile set has exactly the keys `cheap`, `standard` and `deep`. |
| Storage.DefaultProfilesShape | internal/agent/storage.go:112-135 | `cheap` includes neither architecture nor standards and has detail `summary`. `standard` includes both, with detail `balanced`. `deep` includes both, with detail `full`. |
| Storage.NormalizeHealth | internal/agent/storage.go:153-155 | The result's health is never both status-empty and issue-free. A state that already has a status or issues is returned unchanged. An empty status with no issues becomes `"unknown"`. Only the health status can change. |
| Storage.NormalizeHealthIdempotent | internal/agent/storage.go:165-167 | Normalising twice is normalising once. |
| Storage.EmptyStatusWithIssuesKept | internal/agent/storage.go:165-167 | An empty status that comes with issues stays empty. |
| Storage.ReadYaml | internal/agent/storage.go:193-199 | A missing file is an error. |
| Storage.LoadContext | internal/agent/storage.go:143-149 | A missing `context.yaml` is an error. |
| Storage.LoadState | internal/agent/storage.go:160-169 | A missing `state.yaml` is an error. A loaded state is always normalised. |
| Storage.LoadPromptProfiles | internal/agent/storage.go:177-183 | A missing `prompt_profiles.yaml` is an error. |
| Storage.SaveContext | internal/agent/storage.go:138-140 | On success only `context.yaml` changes, to the encoded context. On failure nothing changes. |
| Storage.SaveState | internal/agent/storage.go:152-157 | On success only `state.yaml` changes, to the encoding of the normalised state. On failure nothing changes. |
| Storage.SavePromptProfiles | internal/agent/storage.go:172-174 | On success only `prompt_profiles.yaml` changes, to the encoded set. On failure nothing changes. |
| Storage.StateSurvivesSave | internal/agent/storage.go:152-169 | Loading a saved state gives back the normalised state. |
| Storage.ContextSurvivesSave | internal/agent/storage.go:138-149 | Loading a saved context gives back the same context. |
| Storage.ProfilesSurviveSave | internal/agent/storage.go:172-183 | Loading saved profiles gives back the same set. |
| Storage.DefaultWorkItemBody | internal/agent/storage.go:290-302 | The default body starts with `#`, is not blank, and contains the item's ID and title. |
| Storage.StoredBody | internal/agent/storage.go:242-247 | The body `SaveWorkItem` writes is never blank. A non-blank body is kept verbatim, and a blank one is replaced by `DefaultWorkItemBody` of the item's metadata. |
| Storage.SeparatorDropped | internal/agent/storage.go:253-256 | The newline inserted after the closing `---` disappears again once leading newlines are trimmed. |
| Storage.ParseWorkItem | internal/agent/storage.go:267-288 | Text without a leading `---` fails with "missing front matter". Text without a second `---` fails with "invalid work item format". Otherwise the result succeeds exactly when the trimmed front matter decodes. The body is everything after the second `---` with leading newlines removed, so later `---` lines stay in the body. |
| Storage.SplitAtDelimiters | internal/agent/storage.go:272-277 | `SplitN(data, "---", 3)` has three parts exactly when a second `---` occurs. The parts are the front matter and the rest. |
| Storage.ClosingDelimiter | internal/agent/storage.go:249-252 | If the encoded metadata contains no `---`, the first `---` after the opening one is the closing line. |
| Storage.ParseDocument | internal/agent/storage.go:267-288 | A document built from decodable, delimiter-free front matter parses to that metadata and its body. |
| Storage.WorkItemFileRoundTrip | internal/agent/storage.go:236-288 | Parsing what `SaveWorkItem` writes gives the same metadata, and the stored body without leading newlines. |
| Storage.WorkItemBodyPreserved | internal/agent/storage.go:236-288 | For a non-blank body that does not start with a newline, parse after save is the identity. |
| Storage.LoadWorkItem | internal/agent/storage.go:226-233 | A missing file is an error. Otherwise the result is the parse of the file's text. |
| Storage.SaveWorkItem | internal/agent/storage.go:236-259 | On success only the item's path changes, to `---\n` + metadata + `---\n` + (a newline unless the body starts with one) + the stored body. On failure nothing changes. |
| Storage.WorkItemSurvivesSave | internal/agent/storage.go:226-259 | Loading a saved item gives back its metadata, with the stored body minus leading newlines. |
| Storage.UpdateWorkItemStatus | internal/agent/storage.go:366-373 | If the load fails, nothing is written. On success the item file is rewritten with the loaded item, whose status is replaced and whose other fields and body are kept. |
| Storage.NewWorkItemFile | internal/agent/storage.go:404-417 | The new item has the given ID, title and creation time, status `active` and an empty body. Empty intents become `["general"]`. There is no evidence, acceptance criteria, summary or branch. |
| Storage.FormatIdParses | internal/agent/storage.go:222 | `WI-%03d` of `n`, plus `.md`, matches the work-item pattern and carries the number `n`. |
| Storage.WorkItemFileNameShape | internal/agent/storage.go:30-32 | A name matches `^WI-(\d{3,})\.md$` exactly when it is `WI-`, three or more ASCII digits and `.md`. |
| Storage.NumberDigits | internal/agent/storage.go:213-216 | The number `%d` reads from a matching name's digits: the digit run is that number printed, after leading zeros. |
| Storage.FormatId | internal/agent/storage.go:222 | `WI-` and at least three digits; exactly three for numbers below 1000. |
| Text.DigitsAreZerosAndItoa | internal/agent/storage.go:216 | Every digit string is its `%d` value printed, after some leading zeros. |
| Text.ItoaLength | internal/agent/storage.go:222 | A number prints in at most three digits exactly when it is below 1000. |
| Storage.FormatIdInjective | internal/agent/storage.go:222 | Distinct numbers give distinct IDs. |
| Storage.MaxNumber | internal/agent/storage.go:208-221 | The result is the largest number among the matching names, or 0 when none match. |
| Storage.MaxNumberUnique | internal/agent/storage.go:208-221 | That maximum is unique. |
| Storage.AfterMaxIsFresh | internal/agent/storage.go:208-222 | The name formatted from max + 1 matches the pattern, carries max + 1, and is not among the existing names. |
| Storage.NextIdIsFresh | internal/agent/storage.go:208-222 | The next ID's file name is new to the listing. |
| Storage.FirstIdIsWI001 | internal/agent/storage.go:222 | An empty store gives `WI-001`. |
| Storage.NextWorkItemID | internal/agent/storage.go:202-223 | A missing work-items directory is an error. Otherwise the result is `WI-` followed by the maximum number over the non-directory matching names plus one. |
| Storage.ListWorkItems | internal/agent/storage.go:376-393 | A missing directory is an error. Otherwise the result is sorted and is a permutation of the matching non-directory names with `.md` stripped. |
| Storage.ListingOrderIsTextual | internal/agent/storage.go:391 | Listing order is byte order: `WI-1000` sorts before `WI-999`. |
| Storage.CandidateInjective | internal/agent/storage.go:330-331 | Distinct suffix numbers give distinct candidate paths. |
| Storage.UniquePath | internal/agent/storage.go:326-336 | The result does not exist. It is the candidate `dir/base-i+ext` for some `i ≥ 1`, and every smaller candidate exists, so `i` is the smallest free one. |
| Storage.EvidenceDest | internal/agent/storage.go:309-310 | For a plain base name the destination is `evidence/<base>` under `.agent`. |
| Storage.CopyFile | internal/agent/storage.go:338-355 | On success the source exists and the destination gets its contents. A missing source always fails and creates nothing. A directory source fails after creating an empty destination. Any other failure changes nothing. |
| Storage.EvidenceDestination | internal/agent/storage.go:309-314 | The destination is free. It is the plain name when that is free. Otherwise it is the smallest free `-i` variant. |
| Storage.EvidenceEntryNotInChain | internal/agent/storage.go:306-310 | A file inside the evidence directory is never one of the directories `MkdirAll` creates. |
| Storage.RelToAgentEvidence | internal/agent/storage.go:319 | The path relative to `.agent` of `evidence/x` is `evidence/x`. |
| Storage.CopyEvidence | internal/agent/storage.go:305-324 | If the evidence directory chain is blocked by a file, the result is an error and nothing changes. On success the chain exists, the source existed, and exactly one previously absent path receives the source's contents. The returned relative path is `evidence/<base>` when that name was free, else the smallest free `-i` variant. A later failure leaves the directories as they were or with the chain added. |
| Storage.EnsureAgentExists | internal/agent/storage.go:358-363 | The result is an error exactly when `.agent` does not exist, and then it is `AgentMissing`. |
| Storage.TouchPromptFile | internal/agent/storage.go:396-401 | Succeeds exactly when the exports chain is not blocked by a file. It then returns the prompt path and creates the chain. Otherwise the error is NotADirectory and no directory is created. Files are never changed. |
| Layout.WorkItemPathInjective | internal/agent/storage.go:262-265 | Distinct IDs have distinct work-item paths. |
| Layout.RepoTemplatePathInjective | internal/agent/templates.go:147-150 | Distinct names have distinct template paths. |
| Models.EncodeArchitecture | internal/agent/models.go:6-10 | `style` is always written. `version` and `notes` are written exactly when non-empty. No other key is written. |
| Models.ArchitectureRoundTrip | internal/agent/models.go:6-10 | Decoding the encoding gives the same Architecture. |
| Models.DecodeArchitecture | internal/agent/models.go:6-10 | Decoding succeeds exactly on a mapping whose `style`, `version` and `notes` are absent or scalars; other keys are ignored. An empty mapping gives the zero Architecture. |
| Models.EncodeHealth | internal/agent/models.go:13-16 | `status` and `issues` are each written exactly when non-empty. |
| Models.HealthRoundTrip | internal/agent/models.go:13-16 | Decoding the encoding gives the same HealthSnapshot. |
| Models.DecodeHealth | internal/agent/models.go:13-16 | Decoding succeeds exactly on a mapping whose `status` is absent or a scalar and whose `issues` is absent or a list. An empty mapping gives the zero snapshot. |
| Models.EncodeProject | internal/agent/models.go:20-24 | `name` and `summary` are always written. `template` is written exactly when non-empty. |
| Models.DecodeProject | internal/agent/models.go:20-24 | Decoding succeeds exactly on a mapping whose three keys are absent or scalars. An empty mapping gives the zero Project. |
| Models.EncodeStandards | internal/agent/models.go:26 | One key per standards scope. |
| Models.DecodeStandards | internal/agent/models.go:26 | Decoding succeeds exactly when every scope holds a list; the result has the same scopes and those lists. |
| Models.EncodeContext | internal/agent/models.go:19-29 | `project` and `architecture` are always written. `standards`, `constraints` and `quality_gates` are written exactly when non-empty. |
| Models.ContextRoundTrip | internal/agent/models.go:19-29 | Decoding the encoding gives the same Context. |
| Models.DecodeContext | internal/agent/models.go:19-29 | A non-mapping is an error. Success needs the nested records to be absent or mappings and the lists absent or lists. An empty document gives the zero Context. |
| Models.EncodeState | internal/agent/models.go:32-37 | `active_work_item` is always written, even when empty. `last_summary` and `branch_suggestion` are written exactly when non-empty. `health` is written exactly when it is not the zero value. |
| Models.StateRoundTrip | internal/agent/models.go:32-37 | Decoding the encoding gives the same State. |
| Models.DecodeState | internal/agent/models.go:32-37 | Decoding succeeds exactly on a mapping whose string keys are absent or scalars and whose `health` is absent or a decodable mapping. An empty document gives the zero State. |
| Models.EncodePromptProfile | internal/agent/models.go:40-45 | `description` and both switches are always written. `detail` is written exactly when non-empty. |
| Models.PromptProfileRoundTrip | internal/agent/models.go:40-45 | Decoding the encoding gives the same profile. |
| Models.DecodePromptProfile | internal/agent/models.go:40-45 | A non-mapping is an error. Success needs each known key absent or a scalar. An empty mapping gives the zero profile, with both switches off. The switches read yaml.v3's boolean words: the true/yes/on forms and the false/no/off forms (`Yaml.GetBool`). |
| Models.EncodePromptProfileSet | internal/agent/models.go:48-50 | The only key is `profiles`, which holds one key per profile. |
| Models.PromptProfileSetRoundTrip | internal/agent/models.go:48-50 | Decoding the encoding gives the same set. |
| Models.DecodePromptProfileSet | internal/agent/models.go:48-50 | A non-mapping is an error. On success there is one profile per key of `profiles`. An empty document gives no profiles. |
| Models.EncodeWorkItem | internal/agent/models.go:53-63 | `id`, `title`, `status` and `created_at` are always written. No key outside the nine fields is written. The body is not part of it. |
| Models.WorkItemOmitsEmpty | internal/agent/models.go:53-63 | `intent`, `evidence`, `last_summary`, `acceptance_criteria` and `branch_suggestion` are each written exactly when non-empty. |
| Models.WorkItemRoundTrip | internal/agent/models.go:53-63 | Decoding the encoding gives the same WorkItem. |
| Models.DecodeWorkItem | internal/agent/models.go:53-63 | Decoding succeeds exactly on a mapping whose nine known keys are absent or of their kind, scalar or list; other keys are ignored. An empty mapping gives the zero WorkItem. `created_at` is read as text, not checked as a timestamp (see Left out). |
| FileSystem.Disk.ReadFile | internal/agent/storage.go:193-199 | Reading succeeds exactly for existing files and returns their contents. A directory gives IsADirectory. A missing path gives the error `os.Stat` would give: NotADirectory when a regular file stands where one of its directories should be (ENOTDIR), else NotFound. The error is NotFound exactly when `os.IsNotExist` holds. |
| FileSystem.Disk.StatError | internal/agent/templates.go:107-110 | The error for a path that does not exist is NotFound exactly when no regular file stands above it; otherwise it is NotADirectory, which `errors.Is(err, fs.ErrNotExist)` rejects. |
| FileSystem.Disk.ReadDir | internal/agent/storage.go:204-207 | Listing succeeds exactly for directories. A file is NotADirectory. A missing path gives the `os.Stat` error, NotADirectory below a regular file and NotFound otherwise; NotFound exactly when `os.IsNotExist` holds. The entries have distinct names and are exactly the file and directory children. |
| FileSystem.Disk.WriteFile | internal/agent/storage.go:185-191 | On success only `p` changes. On failure nothing changes. Writing onto a directory or under a missing parent always fails, with ENOTDIR when a regular file stands where a parent directory should be. |
| FileSystem.Disk.MkdirAll | internal/agent/storage.go:58-62 | Succeeds exactly when no directory of the chain is a regular file, and then adds the chain. On failure nothing changes. |
| FileSystem.Disk.FileChildrenMembers | internal/agent/storage.go:209-212 | A name is a file child exactly when it has no slash and its joined path is a file. |
| FileSystem.Base | internal/agent/storage.go:309 | The base name is never empty and has no slash, apart from `/` itself. |
| FileSystem.Ext | internal/agent/storage.go:328 | The extension is empty, or starts with `.`, has no slash and is a suffix of the path. |
| FileSystem.StemsOfListing | internal/agent/templates.go:133-140 | Collecting names from the listing in order gives the same set as filtering the directory's file names. |
| Templates.BuiltInsNameThemselves | internal/agent/templates.go:15-90 | `default` is a built-in, and each built-in's project name and template equal its key. |
| Templates.FinalizeTemplateMetadata | internal/agent/templates.go:214-222 | Every field but the project name and template is kept. The name becomes the requested name exactly when that is non-empty and either the name was empty or resolved ≠ requested. The template becomes the resolved name only when it was empty. |
| Templates.FinalizeIdempotent | internal/agent/templates.go:214-222 | Finalizing twice is finalizing once. |
| Templates.CloneContext | internal/agent/templates.go:201-212 | The clone equals the original. |
| Templates.BuiltInTemplate | internal/agent/templates.go:193-199 | Found exactly for registry keys, with the registry's value. Otherwise the result is the zero Context. |
| Templates.BuiltInTemplateNames | internal/agent/templates.go:93-100 | The result is sorted, is a permutation of the registry keys, and includes `default`. |
| Templates.LoadRepoTemplate | internal/agent/templates.go:180-191 | A missing template file is an error. With nothing at the path the error is the one `os.Stat` reports: NotFound, or NotADirectory below a regular file. |
| Templates.ResolveTemplate | internal/agent/templates.go:103-120 | Unless the repo path is missing in the `os.IsNotExist` sense, the result is the repo file's finalized content under the requested name, or its load error with no fall-through; a directory at the path or a regular file above it is such an error. When the path is missing, resolution succeeds with the requested name as project name. An exact built-in is then used whole, finalized under the requested name. Otherwise the source is `default`, and the template field names the source. |
| Templates.EmptyNameMeansDefault | internal/agent/templates.go:104-106 | Resolving `""` is resolving `default`. |
| Templates.UnknownNameFallsBack | internal/agent/templates.go:115-119 | An unknown name whose repo path is missing gives the default template renamed to the requested name, with source `default`. |
| Templates.ListRepoTemplates | internal/agent/templates.go:123-144 | A missing directory gives an empty list without error. A regular file in its place, or in place of `.agent`, gives NotADirectory. Otherwise the result is sorted and is a permutation of the non-directory `.yaml` names without the extension. |
| Templates.InstallTemplate | internal/agent/templates.go:153-178 | An unknown built-in fails. An existing destination without `force` fails. Success writes exactly the finalized built-in to `templates/<name>.yaml` and creates the templates chain. A failure writes no file. |
| Templates.InstalledTemplateResolvesAsBuiltIn | internal/agent/templates.go:103-113 | An installed template resolves to the same context as its built-in. |
| Prompt.NonBlank | internal/agent/prompt.go:174-177 | Keeps only non-blank items, in order and drawn from the input. |
| Prompt.NonBlankKeeps | internal/agent/prompt.go:204-212 | Every non-blank input item is kept. |
| Prompt.EvidenceList | internal/agent/prompt.go:204-212 | The result is the non-blank evidence entries in order. |
| Prompt.CleanedShape | internal/agent/prompt.go:192-196 | Trimmed items are non-empty and already trimmed. Every non-blank input's trimmed form survives. |
| Prompt.UniqueFrom | internal/agent/prompt.go:242-253 | The result has no duplicates and holds exactly the items not already seen. |
| Prompt.Unique | internal/agent/prompt.go:242-253 | The result has no duplicates and holds exactly the input's items. |
| Prompt.UniqueFromAppend | internal/agent/prompt.go:191-200 | Deduplicating a concatenation processes the second part with the first part already seen. |
| Prompt.UniquePrefix | internal/agent/prompt.go:188-202 | Deduplicating `a + b` starts with deduplicated `a`. |
| Prompt.MergedShape | internal/agent/prompt.go:188-202 | Every merged item is trimmed, non-empty and distinct. Every non-blank input appears trimmed. The primary list's items come first. |
| Prompt.MergeList | internal/agent/prompt.go:192-199 | One pass over a list appends exactly its cleaned, unseen items and keeps `seen` equal to the output's items. |
| Prompt.MergeUnique | internal/agent/prompt.go:188-202 | The result is the merge of primary then extras. |
| Prompt.Dedupe | internal/agent/prompt.go:242-253 | The result is the first-occurrence deduplication of the input. |
| Prompt.Terminated | internal/agent/prompt.go:178-181 | Newline-terminated lines are empty exactly for no lines, and otherwise end with a newline. |
| Prompt.TrimTerminated | internal/agent/prompt.go:185 | Trimming trailing newlines from terminated lines gives the lines joined by newlines, when the last line has no trailing newline. |
| Prompt.BulletLinesShape | internal/agent/prompt.go:174-181 | There is one `- item` line per non-blank item, in order and untrimmed. |
| Prompt.BulletsNone | internal/agent/prompt.go:170-184 | An empty or all-blank list renders as `- None`. |
| Prompt.BulletsLines | internal/agent/prompt.go:173-185 | Otherwise the bullets are the `- item` lines joined by newlines, when the last kept item has no trailing newline. |
| Prompt.BulletList | internal/agent/prompt.go:169-186 | The builder loop produces exactly the bullet text. |
| Prompt.ScopeLinesShape | internal/agent/prompt.go:288-299 | There is one `- scope: r1; r2` line per key, in key order, with `None` for an empty rule list. |
| Prompt.ScopeLineAt | internal/agent/prompt.go:288-299 | The same fact for one line. |
| Prompt.ScopedLines | internal/agent/prompt.go:277-301 | An empty map renders as `- None`. Otherwise the output is the scope lines of the sorted keys. |
| Prompt.ScopeLinesJoined | internal/agent/prompt.go:300 | When the last rule text has no trailing newline, the trimmed result is the lines joined by newlines. |
| Prompt.ScopeLine | internal/agent/prompt.go:289-298 | One iteration writes exactly the scope's line. |
| Prompt.WriteScopeLines | internal/agent/prompt.go:287-299 | The loop writes exactly the terminated scope lines. |
| Prompt.ScopedList | internal/agent/prompt.go:277-301 | The result is the scoped-list text of the map. |
| Text.SortedKeys | internal/agent/prompt.go:281-285 | The collected keys are sorted and are a permutation of the key set. |
| Prompt.ContainsAny | internal/agent/prompt.go:233-240 | True exactly when some term is a substring of the text. |
| Prompt.Candidates | internal/agent/prompt.go:214-229 | The candidate list is never empty. |
| Prompt.LikelyFiles | internal/agent/prompt.go:214-231 | The result is the deduplicated candidate list for the lower-cased title and intents. |
| Prompt.LikelyFilesShape | internal/agent/prompt.go:214-231 | The result is non-empty and free of duplicates. Each matching set contributes all its prefixes, and nothing outside the four sets appears. The fallback is used exactly when no set matches. |
| Prompt.BackendFixFiles | internal/agent/prompt.go:221-230 | Backend and test keywords without UI ones give `cmd/ internal/ api/ server/ tests/`. |
| Prompt.OnlyTestsIsNew | internal/agent/prompt.go:224-230 | After the backend set, the test set adds only `tests/`. |
| Prompt.SubstringsMatch | internal/agent/prompt.go:218 | Matching is by substring: `build` counts as a UI word because it contains `ui`. |
| Prompt.ArchSummary | internal/agent/prompt.go:255-275 | All-blank gives `Not documented.`. Otherwise the result is non-blank, starts with a non-blank style, contains a non-blank version and ends with non-blank notes. |
| Prompt.ArchSummaryExact | internal/agent/prompt.go:255-275 | The exact summary in each of the seven non-blank cases: style and version joined by one space, then ` — ` and the notes; the notes alone when style and version are blank. |
| Prompt.ArchTextFacts | internal/agent/prompt.go:256-270 | The same shape facts for the joined text before the fallback. |
| Prompt.HealthLine | internal/agent/prompt.go:143-148 | Never blank. A non-blank status is shown as is, and a blank one as `unknown`. |
| Prompt.FirstNonBlankIsFirst | internal/agent/prompt.go:133-140 | The summary is the first non-blank part, or `Not provided.` when all parts are blank. |
| Prompt.SummaryLine | internal/agent/prompt.go:133-140 | The loop returns the first non-blank part. |
| Prompt.RenderHead | internal/agent/prompt.go:28-47 | The fixed part of the template filled in from the data. |
| Prompt.RenderSections | internal/agent/prompt.go:49-58 | The conditional blocks, switched by the summary, the profile and the issues. |
| Prompt.RenderPrompt | internal/agent/prompt.go:28-59 | The whole template executed on the data. |
| Prompt.RenderFor | internal/agent/prompt.go:62-157 | Loads profiles, state, item and context in the source's order. It stops at the first error or renders the prompt. |
| Prompt.PromptText | internal/agent/prompt.go:92-157 | Fills in the defaults: merged constraints, default gates and acceptance, non-blank evidence, likely files. Then it renders. |
| Prompt.BuildPrompt | internal/agent/prompt.go:62-167 | An error before rendering is returned as met and changes nothing. On any error no file is written. On success exactly the export file receives the rendered prompt, its path is returned, and the only new directories are those of `.agent/exports`. A file blocking that chain gives NotADirectory and no new directory. |
| Prompt.EmptyProfileIsCheap | internal/agent/prompt.go:63-65 | An empty profile name behaves exactly like `cheap`. |
| Prompt.UnknownProfileFirst | internal/agent/prompt.go:66-73 | An unknown profile fails before the state is read. |
| Prompt.NoActiveWorkItemFails | internal/agent/prompt.go:75-81 | A known profile with no active work item fails with "no active work item". |
| Prompt.RenderFrame | internal/agent/prompt.go:28-59 | The prompt opens with `Task: title (id)` and ends with a newline. |
| Prompt.ArchitectureToggle | internal/agent/prompt.go:51-53 | The architecture switch inserts exactly the Architecture block and changes nothing else. |
| Prompt.RenderWithArch | internal/agent/prompt.go:51-53 | With the switch set either way, the block or nothing sits between the same two parts. |
| Prompt.StandardsToggle | internal/agent/prompt.go:53-55 | The standards switch inserts exactly the Standards block and changes nothing else. |
| Prompt.RenderWithStandards | internal/agent/prompt.go:53-55 | With the switch set either way, the block or nothing sits between the same two parts. |
| Prompt.IssuesBlock | internal/agent/prompt.go:55-58 | The Health Issues block is present exactly for a non-empty list. The rest of the prompt does not depend on the issues. |
| Prompt.ProjectContextShown | internal/agent/prompt.go:49-51 | Any non-empty summary, even a blank one, appears in the Project Context block. |
| Prompt.ProjectContextToggle | internal/agent/prompt.go:49-51 | The summary switches exactly the Project Context block: a non-empty summary inserts `Project Context:` and the summary between the same two parts, and the empty summary leaves those parts joined. |
| Workflow.ReplaceAmpersand | internal/agent/workflow.go:17 | No `&` survives, and text without `&` is unchanged. |
| Workflow.CollapseRuns | internal/agent/workflow.go:18-19 | Empty exactly for empty input. A run of other characters becomes `-`. |
| Workflow.CollapseRunsShape | internal/agent/workflow.go:18-19 | After collapsing there are only `a-z`, `0-9` and `-`, and no two dashes in a row. |
| Workflow.CollapseRunsKeeps | internal/agent/workflow.go:18-19 | Collapsing keeps the letters and digits, in order. |
| Workflow.CollapseRunsFixed | internal/agent/workflow.go:18-19 | Clean text is unchanged by collapsing. |
| Workflow.TrimShape | internal/agent/workflow.go:20 | Trimming dashes leaves clean text with no dash at either end. |
| Workflow.Collapsed | internal/agent/workflow.go:17-20 | Clean text with no dash at either end, keeping the letters and digits of the input. |
| Workflow.FallbackIsClean | internal/agent/workflow.go:21-23 | `work` is a clean segment. |
| Workflow.SanitizeBranch | internal/agent/workflow.go:16-28 | The result is non-empty, at most 32 characters, made of `a-z0-9-` with no double dash and no leading dash. It ends with a dash only when the 32-character cut happened. |
| Workflow.SanitizeKeeps | internal/agent/workflow.go:16-28 | Input with no letters or digits gives `work`. Otherwise, without a cut the letters and digits are kept exactly, and with a cut a prefix of them is kept. |
| Workflow.SanitizeCuts | internal/agent/workflow.go:24-26 | A long result is the first 32 characters. |
| Workflow.TruncationLeavesDash | internal/agent/workflow.go:24-26 | 31 characters, a space and a word give 31 characters and a trailing dash. |
| Workflow.CollapseSpaceWord | internal/agent/workflow.go:19 | A space before a word becomes one dash. |
| Workflow.SanitizeFixedPoint | internal/agent/workflow.go:16-28 | A clean segment without a trailing dash is unchanged. |
| Workflow.SanitizeIdempotent | internal/agent/workflow.go:16-28 | Sanitising a result without a trailing dash again changes nothing. |
| Workflow.SuggestBranchName | internal/agent/workflow.go:10-14 | The result is the lower-cased ID, a dash and `SanitizeBranch` of the lower-cased title. That segment is clean, so the result is at most 33 characters longer than the ID. |
| Intent.WordFrom | internal/agent/intent.go:21-22 | The keyword occurs with a word boundary on both sides at some position from `k` on. |
| Intent.IsWordChar | internal/agent/intent.go:21 | `\w` is the ASCII letters of either case, the digits and `_`. |
| Intent.WholeWordAt | internal/agent/intent.go:21-22 | A whole-word match at `i` is an occurrence of the keyword at `i`. |
| Intent.HasWord | internal/agent/intent.go:21-22 | The pattern matches exactly when the keyword occurs as a whole word at some position. |
| Intent.MatchesRule | internal/agent/intent.go:20-26 | A rule matches exactly when one of its keywords matches; a rule without keywords never does. |
| Intent.Tags | internal/agent/intent.go:16-32 | A tag is in the result exactly when it is a rule table key whose rule matches the lower-cased text. |
| Intent.RuleMatches | internal/agent/intent.go:20-26 | The keyword loop answers true exactly when some keyword matches as a whole word. |
| Intent.MatchingTags | internal/agent/intent.go:19-27 | Each tag whose rule matches appears, once, and no other tag does. |
| Intent.ClassifyIntent | internal/agent/intent.go:16-32 | The result is never empty. It is `["general"]` exactly when no rule matches. Otherwise it holds exactly the matching tags. There are no duplicates, and every tag is a rule key or `general`. |
| Intent.GeneralIsNotARule | internal/agent/intent.go:8-13 | `general` is not a rule tag, so it never mixes with matches. |
| Intent.KeywordsAreWords | internal/agent/intent.go:8-13 | Every keyword starts and ends with a word character. |
| Intent.TagsIgnoreCase | internal/agent/intent.go:17 | The tags do not depend on letter case. |
| Intent.InsideWordDoesNotMatch | internal/agent/intent.go:21-22 | `fix` does not match inside `prefix`. |
| Intent.PunctuationIsBoundary | internal/agent/intent.go:21-22 | `fix` matches in `hot-fix!`. |
| Commands.WorkStart | cmd/work.go:28-56 | A missing `.agent` fails with AgentMissing. An unloadable item fails with a wrapped error, and a state load error is returned; both write nothing. Otherwise the State is saved first, with the item active and its suggested branch. Then the item is saved, active and carrying that branch. A failure between the two keeps the saved State. |
| Commands.SaveStateThenItem | cmd/work.go:44-50 | State is saved before the item. A failed item save leaves the State saved. |
| Commands.WorkStop | cmd/work.go:62-100 | Fails, writing nothing, on a missing `.agent`, a state error, no active item, or an unloadable item. Otherwise the item is saved first, paused with the trimmed summary. Then the State is saved with that summary and no active item or branch. |
| Commands.SaveItemThenState | cmd/work.go:86-96 | The item is saved before the State. A failed State save leaves the item saved. |
| Commands.Issue | cmd/issue.go:19-50 | Fails on a missing `.agent` and on blank text, writing nothing. A missing work-items directory fails too. Otherwise a new item with the next ID, the classified intents and status `active` is saved. Then the State makes it active, with branch and summary cleared. |
| Commands.NewIssueItem | cmd/issue.go:27-32 | The new item has ID max + 1 over the listing. Its intents are `general` exactly when no rule matches the title, and otherwise exactly the matching tags. Its path names no regular file of the work-items directory. |
| Commands.SaveItemThenIssueState | cmd/issue.go:33-46 | The item is saved before the State is loaded and updated. |
| Commands.NextIdFileIsNew | cmd/issue.go:27-33 | The next ID's path names no regular file of the work-items directory, so `issue` never overwrites an item. |
| Commands.EvidenceAdd | cmd/evidence.go:25-58 | Fails, changing nothing, on a missing `.agent`, a state error, no active item, or a missing source; the source error is the one `os.Stat` reports. The copy comes before the item load, so a failed load leaves the copy. Once a copy is made, the only new directories are those of `.agent/evidence`. On success the item's evidence gains the copy's relative path. `state.yaml` is never rewritten. |
| Commands.LinkEvidence | cmd/evidence.go:47-54 | The loaded item gains one evidence entry and is saved. If the load fails, nothing is written. |
| Commands.StopUndoesStart | cmd/work.go:92-96 | Stop after start leaves the State as stop alone does. Health is never touched. |
| Commands.StartBranch | cmd/work.go:42-44 | The recorded branch is the lower-cased ID, a dash and the sanitised lower-cased title, so its tail is a clean segment. The summary and health are kept. |
| Commands.StopKeepsItemBranch | cmd/work.go:86-88 | On the item, stop keeps the branch start recorded, sets it `paused` and keeps the body. |
| Commands.EvidenceAppends | cmd/evidence.go:51 | Exactly one entry is appended at the end. Earlier entries, other metadata and the body are unchanged. |
| Commands.IssueClears | cmd/issue.go:41-45 | The new ID becomes active, branch and summary are cleared, and health is kept. |

## Left out

- **YAML text syntax.** `gopkg.in/yaml.v3` is a foreign library. Its marshal and unmarshal are the `Syntax` parameter, and the round-trip lemmas take `Faithful` as a premise. Only key presence, the `Node` shape and the boolean words yaml.v3 accepts for a `bool` field are modelled. The text of other typed scalars is not checked: `created_at` is the one such field (see `Models.DecodeWorkItem` below). `Node` has no null case, so `Syntax.unmarshal` is taken to drop null-valued keys, which yaml.v3 decodes as zero values. A `Scalar` carries no quoting style, so a quoted `"true"` in a boolean field, which yaml.v3 rejects, is read as true.
- **OS errors.**
  - Any write may fail unpredictably, and the contracts say what is left behind.
  - Permission bits are not modelled.
  - `copyFile` is modelled as a whole-contents copy. A failure of `io.Copy` or `Sync` on a regular source counts as an unpredictable write failure, so the empty destination it would leave is not modelled.
- **Paths.** `filepath` separators are fixed to `/`, so `filepath.ToSlash` in `evidenceList` is the identity. `WorkItemPath`, `RepoTemplatePath` and the other `.agent` paths are plain concatenation, without the `filepath.Clean` that `filepath.Join` applies. The two agree when the ID or template name has no `/`. An ID such as `./WI-001` names `.agent/workitems/WI-001.md` in the source but an uncleaned path in the model, so `work start ./WI-001` is modelled as not found.
- **OS errors of `os.Stat`.** A regular file where a directory of the path should be (ENOTDIR) is modelled. Permission and other I/O errors are not. Only `ResolveTemplate` and `ListRepoTemplates` tell such an error from a missing path; the other `os.Stat` calls look inside directories just created or at `.agent` itself.
- **Models.DecodeWorkItem:** `created_at` is opaque text, since `Timestamp` is a string. The source decodes it into a `time.Time`, and yaml.v3 rejects text that is not a timestamp. So an item with `created_at: yesterday` or `created_at: ""` fails to load in the source but loads in the model. `LoadWorkItem` and the commands that begin with it (`work start`, `work stop`, `evidence add`, building a prompt) share the gap. The zero time, which the source writes as `0001-01-01T00:00:00Z`, is the empty string in the model.
- **Time and input.** `time.Now()` in `NewWorkItemFile` is a parameter. The line read from stdin by `work stop` is a parameter, and so its read error is not modelled.
- **Integers.** `fmt.Sscanf` overflow on absurdly long digit runs in work-item names is not modelled; numbers are unbounded.
- **Case.** `strings.ToLower` is ASCII only.
- **Map iteration order.** Go's random map order in `ClassifyIntent` is modelled by picking any remaining key. Contracts fix the set of tags, not their order.
- **The template engine.** It is not modelled; the rendered text is written out from the template literal.
- **Concurrency.** Concurrent runs racing on `NextWorkItemID` are not modelled.
- **CLI wiring.** Argument parsing and the printed messages of the commands are not modelled, nor are the other CLI commands.
- **Prompt.BulletsLines, Prompt.ScopeLinesJoined, Prompt.TrimTerminated:** the join-by-newline shape is proved only when the last item does not itself end in a newline. With such an item, Go's `TrimRight` removes those newlines too; `Bullets` and `Scoped` still model that exactly.
- **Storage.WorkItemFileRoundTrip, Storage.WorkItemBodyPreserved:** these hold under the premise that the encoded metadata contains no `---` (`FrontMatterSafe`), as the code needs.
- **Layout.WorkItemPathInjective:** distinct IDs give distinct paths only as concatenated. Go's `filepath.Join` maps `a` and `./a` to one file, so the source keeps this promise only for IDs without `/`.
- **Layout.RepoTemplatePathInjective:** the same holds for template names. Go maps `a` and `./a` to one template file, so the promise holds of the source only for names without `/`.
- **Templates.ResolveTemplate:** the "default template not available" error cannot happen, because `default` is a built-in constant, so it is not a reachable case.
- **Prompt.RenderFor:** `includeArch` and `includeStandards` look the profile up by the requested name, which `BuildPrompt` has already checked. The zero-value profile for a missing name is modelled but not reachable from `BuildPrompt`.
