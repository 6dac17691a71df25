# possum model commands — a Dafny model

This project models the core of the `possum` command-line client for a
model-hosting registry (the Hugging Face Hub REST API): the URL builders
behind its `model download`, `model metadata`, `model search` and
`model revisions` commands; the download selection pipeline, which lists a
repository's files, skips legacy `.pt`/`.bin` weights whenever consolidated
`model*.safetensors` weights are listed, and fetches the rest; the
extraction of branch names and model ids from registry JSON; and the
success and error policy of each command.

Networking is replaced by an abstract `Json.Reply`. A request either fails
outright, or it yields a response with a success flag and a body that may
not be parseable. The batch download is a sequential map over abstract
per-task outcomes (`ModelDownload.FileOutcome`), one task per scheduled entry. Rust's `format!` is
interpreted by a small template renderer (`Fmt.Format`), and each URL
builder is written as the template from the source. Its contract gives the
closed-form concatenation. The `glob` crate's matcher is modelled for
patterns built from `*` and literal characters (`Glob.Matches`). The proof
that `*<suffix>` matches exactly the names ending in the suffix is what
makes the ignore filter a suffix test.

Modules: `Wrappers` (Option, Result, Error), `Strings` (prefix and suffix
tests, `join`, `split`), `Fmt`, `Glob`, `Json` (the JSON subset, its
accessors, the `filter_map` string collector, `Reply`), and one module per
core file: `ModelDownload`, `ModelRevisions`, `ModelSearch` and
`ModelMetadata`.

The integration test for `download` expects files under
`<to>/test/model/`, but the code writes each file to `to.join(file)`. The
model follows the code: `DownloadRun.written` holds file names relative to
the destination directory.

## Model

| member | source | states |
|---|---|---|
| `ModelDownload.BuildFileListUrl` | cli/src/commands/model/download.rs:148-154 | the listing URL is `{base}/api/models/{repo}`, followed by `/revision/{rev}` exactly when a revision is given |
| `ModelDownload.FileListUrlWithRevision` | cli/src/commands/model/download.rs:150-153 | a revision appends `/revision/{rev}` to the revision-less URL, which is therefore a prefix of it |
| `ModelDownload.FileListUrlUnescaped` | cli/src/commands/model/download.rs:148-153 | nothing is escaped: repo `o/revision/r` without a revision gives the same URL as repo `o` at revision `r` |
| `ModelDownload.BuildDownloadUrl` | cli/src/commands/model/download.rs:156-164 | the resolve URL is `{base}/{repo}/resolve/{rev}/{file}`, with `main` standing in for a missing revision |
| `ModelDownload.DownloadUrlNamesFile` | cli/src/commands/model/download.rs:156-164 | the file name is the whole tail of its resolve URL, so different names give different URLs |
| `ModelDownload.DownloadUrlDefaultsToMain` | cli/src/commands/model/download.rs:162-163 | no revision and revision `main` give the same resolve URL |
| `ModelDownload.FileListUrlNoRevisionExample` | cli/src/commands/model/download.rs:182-193 | the unit test's expected listing URL without a revision |
| `ModelDownload.FileListUrlWithRevisionExample` | cli/src/commands/model/download.rs:195-203 | the unit test's expected listing URL with a revision |
| `ModelDownload.DownloadUrlMainBranchExample` | cli/src/commands/model/download.rs:205-217 | the unit test's expected resolve URL on the default branch |
| `ModelDownload.DownloadUrlWithRevisionExample` | cli/src/commands/model/download.rs:219-228 | the unit test's expected resolve URL at a revision |
| `ModelDownload.FileListUrlCustomBaseExample` | cli/src/commands/model/download.rs:230-234 | the unit test's expected listing URL against a custom base |
| `ModelDownload.DownloadUrlCustomBaseExample` | cli/src/commands/model/download.rs:236-243 | the unit test's expected resolve URL against a custom base |
| `ModelDownload.HasSafetensor` | cli/src/commands/model/download.rs:69-71 | the modern-weights flag is set only when some listed name starts with `model` and ends with `.safetensors` |
| `ModelDownload.HasSafetensorIff` | cli/src/commands/model/download.rs:69-71 | the modern-weights flag holds iff some listed name starts with `model` and ends with `.safetensors` |
| `ModelDownload.ShouldIgnoreFile` | cli/src/commands/model/download.rs:166-176 | a name is skipped only when the flag is set; the patterns are applied only then |
| `ModelDownload.ShouldIgnoreFileIff` | cli/src/commands/model/download.rs:166-176 | a file is skipped iff the flag is set and its name ends in `.pt` or `.bin`; with the flag clear nothing is skipped |
| `ModelDownload.NeverIgnoresSafetensorsOrJson` | cli/src/commands/model/download.rs:166-176 | names ending in `.safetensors` or `.json` are never skipped, whatever the flag |
| `ModelDownload.IgnoreWithoutSafetensorsExample` | cli/src/commands/model/download.rs:245-250 | the unit test's decisions with the flag clear |
| `ModelDownload.LegacyIgnored` | cli/src/commands/model/download.rs:166-176 | any `.pt` or `.bin` name is skipped once modern weights are present |
| `ModelDownload.IgnoreWithSafetensorsExample` | cli/src/commands/model/download.rs:252-259 | the unit test's decisions with the flag set |
| `ModelDownload.IgnorePatternsExample` | cli/src/commands/model/download.rs:261-267 | the unit test's decisions for arbitrary stems |
| `ModelDownload.Keep` | cli/src/commands/model/download.rs:75-77 | the filter never lengthens the listing and keeps only listed names |
| `ModelDownload.FilesToDownload` | cli/src/commands/model/download.rs:69-77 | the schedule is no longer than the listing, and is the whole listing when no `model*.safetensors` is listed |
| `ModelDownload.KeepAppend` | cli/src/commands/model/download.rs:75-77 | filtering a concatenation is the concatenation of the filtered parts, so order is kept |
| `ModelDownload.KeepMultiplicity` | cli/src/commands/model/download.rs:75-77 | each name occurs as often as it is listed, duplicates included, unless skipped, and then not at all |
| `ModelDownload.KeepMembers` | cli/src/commands/model/download.rs:75-77 | a name is scheduled iff it is listed and not skipped |
| `ModelDownload.KeepIsSubsequence` | cli/src/commands/model/download.rs:75-77 | the scheduled files are a subsequence of the listing |
| `ModelDownload.KeepAllWithoutSafetensors` | cli/src/commands/model/download.rs:75-77 | with the flag clear the whole listing is scheduled |
| `ModelDownload.FilesToDownloadSpec` | cli/src/commands/model/download.rs:69-77 | the schedule is a subsequence of the listing with the same multiplicities for kept names. It is the whole listing when no `model*.safetensors` is listed. Otherwise it has no `.pt`/`.bin` name and keeps every `.safetensors`/`.json` one |
| `ModelDownload.ScheduleConfigAndWeights` | cli/src/commands/model/download.rs:69-77 | `config.json` and `model.safetensors` are both scheduled, in order |
| `ModelDownload.ScheduleLegacyBesideModern` | cli/src/commands/model/download.rs:69-77 | beside `model.safetensors`, `pytorch_model.bin` is dropped |
| `ModelDownload.SiblingFiles` | cli/src/commands/model/download.rs:34-48 | no `siblings` array gives no files; otherwise at most one name per sibling |
| `ModelDownload.SiblingFilesSpec` | cli/src/commands/model/download.rs:34-48 | no `siblings` array gives no files; otherwise a string is listed iff some sibling has it as `rfilename` |
| `ModelDownload.ListFiles` | cli/src/commands/model/download.rs:11-53 | the listing URL is requested. A success with a JSON body gives the sibling names. A non-success status gives the error "Failed to list files for {repo}". Transport and parse failures propagate |
| `ModelDownload.ResolveUrls` | cli/src/commands/model/download.rs:87-93 | one resolve URL per scheduled file, in schedule order |
| `ModelDownload.TaskResult` | cli/src/commands/model/download.rs:95-127 | a non-success status is only logged, so the task still returns `Ok`; only a failed send, create, chunk read or write returns an error, a transport error for the first and third, an I/O error otherwise |
| `ModelDownload.TaskResults` | cli/src/commands/model/download.rs:95-127 | one discarded task value per spawned task, as that task's outcome gives it |
| `ModelDownload.WrittenFiles` | cli/src/commands/model/download.rs:101-124 | the files this run creates are at most the scheduled ones, and only scheduled names |
| `ModelDownload.WrittenFilesMembers` | cli/src/commands/model/download.rs:101-124 | a name is created by this run iff some task for one of its scheduled occurrences created its local file (complete or truncated) |
| `ModelDownload.Download` | cli/src/commands/model/download.rs:55-146 | a directory failure ends the run before listing. A listing error is returned before any file is requested. After a successful listing, exactly the scheduled files are requested, in order, and the run returns `Ok` whatever the per-file outcomes. Task `i` ends as `fetch(i, url)`, independently of other tasks for the same name, and a name is created iff one of its tasks created the file |
| `ModelDownload.DownloadIgnoresFileOutcomes` | cli/src/commands/model/download.rs:122-145 | the run's result and its requests do not depend on how individual downloads end |
| `ModelDownload.ConfigAndWeightsScenario` | cli/src/commands/model/download.rs:67-137 | listing `config.json` and `model.safetensors` requests both, in order, and creates both |
| `ModelDownload.LegacyWeightsSkippedScenario` | cli/src/commands/model/download.rs:69-77 | listing `pytorch_model.bin` beside `model.safetensors` requests only the latter and creates nothing for the former |
| `ModelDownload.MissingFileScenario` | cli/src/commands/model/download.rs:101-124 | a 404 for one file leaves the run `Ok`, with only the served file created |
| `ModelDownload.DuplicateEntriesScenario` | cli/src/commands/model/download.rs:75-93 | a name listed twice gets two tasks requesting the same URL; they can end differently, and the file is created when either task creates it |
| `ModelDownload.ListingFailureScenario` | cli/src/commands/model/download.rs:49-52 | a failed listing gives "Failed to list files for test/model" and requests nothing |
| `Json.StringsAt` | cli/src/commands/model/download.rs:35-38 | the collected strings are never more than the elements |
| `Json.StringsAtAppend` | cli/src/commands/model/download.rs:35-38 | collecting from a concatenation concatenates the results, so array order is kept |
| `Json.StringsAtSingle` | cli/src/commands/model/download.rs:37 | one element contributes its string field, or nothing when it has none |
| `Json.StringsAtMembers` | cli/src/commands/model/download.rs:35-38 | a string is collected iff some element has it as the field's string value |
| `Json.StringsAtAllPresent` | cli/src/commands/model/download.rs:35-38 | when every element has the field, the result is their values one for one, in order |
| `Json.StringsAtNonePresent` | cli/src/commands/model/download.rs:35-38 | when no element has the field, nothing is collected |
| `Strings.Join` | cli/src/commands/model/search.rs:45 | joining adds one separator between consecutive pieces: the length is the pieces' total plus one separator fewer than there are pieces |
| `Fmt.FormatLength` | cli/src/commands/model/download.rs:149-163 | `format!` copies the literal text and inserts each argument at most once: the rendering is at least the literal text's length and at most that plus the arguments' |
| `Glob.LiteralMatches` | cli/src/commands/model/download.rs:171-175 | a pattern without `*` matches exactly itself |
| `Glob.StarSuffix` | cli/src/commands/model/download.rs:171-175 | `*<literal>` matches exactly the names ending in the literal, including names with `/` and the bare literal |
| `ModelRevisions.BuildRevisionsUrl` | cli/src/commands/model/revisions.rs:41-43 | the refs URL is `{base}/api/models/{repo}/refs` |
| `ModelRevisions.RevisionsUrlExtendsListingUrl` | cli/src/commands/model/revisions.rs:41-43 | the refs URL is the revision-less listing URL followed by `/refs` |
| `ModelRevisions.RevisionsUrlExample` | cli/src/commands/model/revisions.rs:66-73 | the unit test's expected refs URL |
| `ModelRevisions.RevisionsUrlCustomBaseExample` | cli/src/commands/model/revisions.rs:75-79 | the unit test's expected refs URL against a custom base |
| `ModelRevisions.ParseBranchesFromJson` | cli/src/commands/model/revisions.rs:49-64 | unparsable text is an error; otherwise the result is `Ok` with the branch names, in order, skipping unnamed elements, and empty when there is no `branches` array |
| `ModelRevisions.ExtractBranchNames` | cli/src/commands/model/revisions.rs:5-17 | always `Ok`. It prints each branch name in order, nothing for an empty array, and only "No branches found." when there is no `branches` array |
| `ModelRevisions.Revisions` | cli/src/commands/model/revisions.rs:21-39 | the refs URL is requested. A non-success status gives the error "Failed to fetch refs for '{repo}'". A success with a JSON body prints the branch lines and succeeds |
| `ModelRevisions.BranchNames` | cli/src/commands/model/revisions.rs:55-61 | no `branches` array gives no names; otherwise at most one name per element |
| `ModelRevisions.BranchLines` | cli/src/commands/model/revisions.rs:6-14 | nothing is printed only for a `branches` array with no named element; without the array exactly one line is printed |
| `ModelRevisions.BranchNamesSpec` | cli/src/commands/model/revisions.rs:55-61 | branch names are the elements' string `name`s. A string is listed iff some element has it. With every element named, the names come one for one in array order |
| `ModelRevisions.UnnamedBranchSkipped` | cli/src/commands/model/revisions.rs:57 | an element without a string `name` is skipped: removing it changes nothing |
| `ModelRevisions.MissingOrEmptyBranches` | cli/src/commands/model/revisions.rs:6-14 | a missing `branches` array gives no names and the one line "No branches found."; an empty array gives no names and prints nothing |
| `ModelRevisions.ThreeBranchesExample` | cli/src/commands/model/revisions.rs:81-96 | the unit test's three branch names, in order |
| `ModelRevisions.NoBranchesFieldExample` | cli/src/commands/model/revisions.rs:105-110 | the unit test's document without `branches` gives no names |
| `ModelRevisions.UnnamedBranchExample` | cli/src/commands/model/revisions.rs:112-117 | the unit test's element without `name` gives no names |
| `ModelSearch.BuildSearchUrl` | cli/src/commands/model/search.rs:44-53 | the in-place construction yields `{base}/api/models?search={keywords joined by " "}`, followed by `&filter={f}` exactly when a filter is given |
| `ModelSearch.Search` | cli/src/commands/model/search.rs:5-42 | it builds the same URL as `build_search_url`. A non-success status gives the error naming the query. On success it prints each string `modelId` of an array body in order, or "No models found for '{query}'." for a non-array body |
| `ModelSearch.SearchQuery` | cli/src/commands/model/search.rs:45 | no keywords give the empty query; otherwise the query is the keywords' total length plus one space between consecutive keywords |
| `ModelSearch.SearchUrl` | cli/src/commands/model/search.rs:44-53 | the URL starts with `{base}/api/models?search={query}` and, when a filter is given, ends with `&filter={f}` |
| `ModelSearch.ModelLines` | cli/src/commands/model/search.rs:26-35 | an array body prints at most one line per element; any other body prints exactly one line |
| `ModelSearch.SearchUrlWithFilter` | cli/src/commands/model/search.rs:48-50 | a filter appends `&filter={f}` to the unfiltered URL, which is a prefix of it |
| `ModelSearch.SearchUrlEmptyKeywords` | cli/src/commands/model/search.rs:45-46 | no keywords give an empty query: `search=` ends the URL or is followed directly by `&filter=` |
| `ModelSearch.SearchUrlSingleKeyword` | cli/src/commands/model/search.rs:45 | a single keyword is inserted as is |
| `ModelSearch.SearchQuerySeparators` | cli/src/commands/model/search.rs:45 | the query starts with the first keyword and ends with the last. Each added keyword adds one space. Splitting at spaces recovers space-free keywords |
| `ModelSearch.KeywordsOnlyExample` | cli/src/commands/model/search.rs:59-68 | the unit test's expected URL for two keywords |
| `ModelSearch.WithFilterExample` | cli/src/commands/model/search.rs:70-79 | the unit test's expected URL with a filter |
| `ModelSearch.SingleKeywordExample` | cli/src/commands/model/search.rs:81-110 | the unit tests' expected URLs for one keyword, on two bases |
| `ModelSearch.EmptyKeywordsExample` | cli/src/commands/model/search.rs:89-102 | the unit test's expected URL for no keywords and a filter |
| `ModelSearch.TwoModelsExample` | cli/tests/integration_test.rs:6-50 | a reply with two models prints both ids, in order |
| `ModelMetadata.BuildMetadataUrl` | cli/src/commands/model/metadata.rs:22-24 | the metadata URL is `{base}/api/models/{repo}` |
| `ModelMetadata.MetadataUrlIsListingUrl` | cli/src/commands/model/metadata.rs:22-24 | the metadata URL equals the revision-less file-listing URL |
| `ModelMetadata.MetadataUrlEmbedsRepository` | cli/src/commands/model/metadata.rs:23 | the repository id is the verbatim tail after `{base}/api/models/`, so different ids give different URLs |
| `ModelMetadata.Metadata` | cli/src/commands/model/metadata.rs:5-20 | it requests exactly `build_metadata_url`'s URL. A non-success status gives "Failed to get metadata for {repo}". On success it prints the JSON body and succeeds |
| `ModelMetadata.MetadataUrlExample` | cli/src/commands/model/metadata.rs:30-37 | the unit test's expected URL |
| `ModelMetadata.MetadataUrlSimpleNameExample` | cli/src/commands/model/metadata.rs:39-43 | the unit test's expected URL for an id without an owner |
| `ModelMetadata.MetadataUrlSpecialCharsExample` | cli/src/commands/model/metadata.rs:45-52 | the unit test's id with `/` and `-` is embedded unescaped |
| `ModelMetadata.MetadataUrlCustomBaseExample` | cli/src/commands/model/metadata.rs:54-58 | the unit test's expected URL against a custom base |

## Left out

- HTTP: `reqwest` requests and bearer-token authentication (download.rs:25-31, :95-100) are not modelled. The reply is a parameter, and the token changes nothing else that is modelled.
- Concurrency: `task::spawn` and `join_all` are not modelled. The batch is a sequential map over per-task outcomes, one task per scheduled entry, since the tasks share nothing that is modelled. Two tasks for the same name write the same path; which content survives is not modelled, only that the file was created.
- Files from earlier runs: `download` does not clear an existing directory (download.rs:62). `DownloadRun.written` lists only what this run created, not everything in the directory afterwards.
- The chunk-copy loop in a download task (download.rs:114-120) and the progress bars (download.rs:74, :105-121) are not modelled. A file's content is not tracked, only whether a task created it (`FileOutcome`).
- Filesystem: `to.exists()` and `fs::create_dir_all` (download.rs:62-65) are reduced to one flag, `dirReady`. Path joining is not modelled, so a file name that is an absolute path, which `join` would treat differently, is not distinguished.
- Logging and output: `tracing` logs are left out. The lines printed on a non-success status (revisions.rs:36, search.rs:39, metadata.rs:17) are left out because they show the status text, and the status is only a success flag here. `Value::to_string` in `metadata` is left out, so the printed document is the JSON value itself.
- JSON: the `serde_json` parser is left out, and a body either parses (`Some(value)`) or does not (`None`). Numbers are unbounded integers, since no consumed field is a number.
- Glob: `?`, `[...]` classes and escapes of `glob::Pattern` are not modelled, because the two patterns used contain none of them.
- `Fmt.Format`: a placeholder without an argument renders as nothing. Rust rejects such a template at compile time, and none of the templates used has one.
- `ModelRevisions.Revisions`: on a failure the printed lines are not stated, because the status line is left out.
- `ModelSearch.Search`: on a failure the printed lines are not stated, because the status line is left out.
- cli/src/main.rs, cli/src/commands/download.rs and cli/src/commands/model/mod.rs are not part of this model: they are argument parsing, a stub that prints its arguments, and re-exports.
- cli/tests/integration_test.rs is not modelled as a whole. It runs the binary against mock servers. Its search scenario appears as `ModelSearch.TwoModelsExample`, and its download scenario (without the `test/model` sub-directory it expects) as `ModelDownload.ConfigAndWeightsScenario`.
