# QAI core logic in Dafny

This project models the logic core of Profilist/QAI, an automated QA system. A CI pipeline asks a model to generate test scenarios for a pull request, groups them into one suite per persona and records them in the database. Computer-use agents then run the suites. The agents narrate their work as `STEP:` lines, record the screen and upload the video. Their results flow back into the `suites`, `tests` and `results` tables. A frontend shows breadcrumbs and a side navigation.

Every operation is stated in Dafny: a datatype or class per entity, a function or method per operation, and lemmas for the properties the code promises. The modules follow the source files:

- `Wrappers`, `Text`: `Option` and the string primitives the code relies on. The primitives are `strip`, `lower`/`upper` (ASCII), `splitlines`, `split`/`join` on one character, decimal printing and parsing, and `slice(-n)`.
- `AgentUtils`: `backend/agents/utils.py`.
  - Pure functions: slugs and recording directories.
  - Imperative parts: `normalize_tests`; `extract_major_steps` as nested loops; `process_item` appending to a caller-owned list object (`StepLog`).
- `Multipart`: the upload request both recorders build.
  - UTF-8 encoding, proved to decode back.
  - The boundary, valid per section 5.1.1 of RFC 2046.
  - The body framed by delimiter and close-delimiter as RFC 7578 uses them, and its Content-Length.
- `Recorder`: `backend/agents/record.py` and `backend/record_lib.py`, as one `Recorder` class.
  - State: the persisted ticket (`state`), the set of live pids, the SIGTERMs sent, the liveness probes and the upload requests.
  - The two files differ only in the upload target (`Variant`).
  - Process launch, the file system and the network are parameters.
- `Runner`: `backend/agents/runner.py`.
  - Spec validation and naming.
  - The `_execute` stream fold into `texts` and pruned `steps`, with error capture.
  - The ordered aggregation of `run_agents`.
  - The stream is a finite sequence of results plus an optional exception.
- `Prompts`: `backend/agents/prompts.py`, the instruction text built by a loop of `+=`.
- `ResultStore`: `backend/agents/database.py`.
  - The `suites` and `tests` tables are map fields of a class.
  - The name-to-id index, and the per-test updates until a call raises.
- `Pipeline`: the pure fragments of `backend/cicd/qai-pipeline.js`.
  - PR-number precedence, persona grouping, suite and test records, suite runs and their tally, the verdict rules, `test-cases.json` and the 500-line summary truncation.
  - The fields `resultId`, `suiteIds` and the `results` rows live in a `QaiPipeline` class.
- `Breadcrumbs`: `generateBreadcrumbs`.
- `SideNavbar`: `isLinkActive`, the `RouteLink` href and the route tables.

The two recorder files map onto the same members:

| record_lib.py | record.py | model |
|---|---|---|
| `start_recording` (24-104) | 11-91 | `Recorder.Recorder.Start` |
| `stop_recording` (107-197) | 94-191 | `Recorder.Recorder.Stop` with `Variant.LibRecorder` |
| `status` (200-221) | 194-215 | `Recorder.Recorder.Status` |
| `_pid_alive` (224-231) | — | `Recorder.PidAlive` |

## Model

| member | source | states |
|---|---|---|
| AgentUtils.KeepSlugChars | backend/agents/utils.py:7 | the filtered text keeps only characters of `a-z0-9-_` |
| AgentUtils.KeepSlugCharsAppend | backend/agents/utils.py:7 | filtering a concatenation is concatenating the filtered parts, so the characters kept keep their order |
| AgentUtils.KeepSlugCharsOne | backend/agents/utils.py:7 | one character is kept iff it is in `a-z0-9-_` |
| AgentUtils.KeepSlugCharsMembers | backend/agents/utils.py:7 | a character is in the result iff it is in the input and allowed |
| AgentUtils.SlugifyFallback | backend/agents/utils.py:6-7 | "agent" when the trimmed, lower-cased, hyphenated value has no allowed character; otherwise that value filtered |
| AgentUtils.SlugifyOfSlug | backend/agents/utils.py:4-7 | a non-empty text of allowed characters is its own slug |
| AgentUtils.Slugify | backend/agents/utils.py:4-7 | a slug is never empty and holds only allowed characters (the "agent" fallback) |
| AgentUtils.SlugifyIdempotent | backend/agents/utils.py:6-7 | slugifying a slug returns it unchanged |
| AgentUtils.SlugHasNoSlash | backend/agents/utils.py:5 | a slug contains no `/` |
| AgentUtils.RecordingDirShape | backend/agents/utils.py:32-35 | the directory is `/tmp/replays/<suite_id>/` followed by the slug of the test name, which is its last path segment |
| AgentUtils.RecordingDirInjective | backend/agents/utils.py:32-35 | within a suite, two tests share a directory exactly when their names have the same slug |
| AgentUtils.DefaultNamesDistinct | backend/agents/utils.py:21 | default names `test-<idx+1>` of different positions differ |
| AgentUtils.NormalizeTests | backend/agents/utils.py:14-29 | a non-empty `tests` list gives one entry per test in order, with default name and instructions; otherwise exactly one test named `suite_name` or "Standard" with the top-level instructions; every name is non-empty |
| AgentUtils.FirstFault | backend/agents/utils.py:86-89 | index of the first block whose text raises on `str()`, every block before it converts |
| AgentUtils.AfterStepPrefix | backend/agents/utils.py:91-92 | for a STEP line the first colon is the prefix's, so the text after it is the rest of the line |
| AgentUtils.LineStepSpec | backend/agents/utils.py:89-95 | a line yields a step iff its trimmed upper-cased form starts with `STEP:` and a non-blank text follows; the step is that text trimmed |
| AgentUtils.LineStepShape | backend/agents/utils.py:89-95 | a step of one line is non-empty, trimmed and holds no line break |
| AgentUtils.TextStepsShape | backend/agents/utils.py:89-95 | every step of a block's text is non-empty, trimmed and one line |
| AgentUtils.BlocksStepsShape | backend/agents/utils.py:86-95 | every step of a content list is non-empty, trimmed and one line |
| AgentUtils.ItemStepsShape | backend/agents/utils.py:79-98 | every step extracted from an item is non-empty, trimmed and one line |
| AgentUtils.BlocksStepsAppend | backend/agents/utils.py:86 | block order is preserved: the steps of two runs of blocks are concatenated |
| AgentUtils.BlocksStepsStopAtFault | backend/agents/utils.py:96-97 | a block that raises ends the extraction: the steps gathered before it are returned and later blocks add nothing |
| AgentUtils.CollectLineSteps | backend/agents/utils.py:89-95 | the line loop collects exactly the steps of the lines, in line order |
| AgentUtils.CollectBlockSteps | backend/agents/utils.py:87-95 | one block gives its text's steps, and reports whether converting the text raises |
| AgentUtils.ExtractMajorSteps | backend/agents/utils.py:79-98 | the result is the item's steps; any non-message item gives `[]`; a raising block returns the steps gathered so far |
| AgentUtils.ProcessItem | backend/agents/utils.py:38-76 | it raises iff the item is a `computer_call` whose `action` is truthy but not a dictionary; otherwise the caller's list gets exactly the item's steps appended, earlier entries untouched, and the same list object is returned |
| Multipart.EncodeChar | backend/agents/record.py:165 | one character encodes to 1 to 4 bytes, one byte exactly for ASCII |
| Multipart.Utf8RoundTrip | backend/agents/record.py:165-166 | decoding the UTF-8 bytes of any text gives the text back |
| Multipart.Utf8Ascii | backend/agents/record.py:165-166 | ASCII text encodes byte for byte |
| Multipart.BoundaryValid | backend/agents/record.py:154 | `----WebKitFormBoundary` followed by a UUID hex is a valid boundary of section 5.1.1 of RFC 2046, and ASCII |
| Multipart.Basename | backend/agents/record.py:162 | the base name holds no `/`, ends the path, and is the whole path or follows a `/` |
| Multipart.BasenameOfJoin | backend/agents/record.py:162 | the base name of `dir/name` is `name` for a slash-free name |
| Multipart.BodyFraming | backend/agents/record.py:159-167 | the body opens with `--boundary CRLF`, closes with `CRLF --boundary-- CRLF`, and carries exactly the file bytes between headers and close-delimiter |
| Multipart.UploadRequestConsistent | backend/agents/record.py:169-177 | the Content-Length header parses back to the body's length, the body carries the file, and the Content-Type names the boundary |
| Recorder.FpsValue | backend/agents/record.py:45 | a truthy `fps` wins; otherwise `CUA_REPLAY_FPS` parsed as an integer (an error if it is not one); otherwise 5 |
| Recorder.FpsFromEnvironment | backend/agents/record.py:45 | a decimal frame rate in the environment is used as is |
| Recorder.OutputPathBasename | backend/agents/record.py:46-49 | the uploaded file name is `session_<stamp>.mp4`, whatever the directory, including an empty `REPLAY_DIR` that leaves the bare file name |
| Recorder.UploadUrl | backend/agents/record.py:145-150 | a non-empty `upload_url` overrides the fixed default; record_lib.py always targets `http://localhost:3000/upload-video`; the URL is never empty |
| Recorder.SentRequests | backend/agents/record.py:153-178 | a stop sends one request exactly when the path is non-empty, exists and the file can be read |
| Recorder.UploadOutcome | backend/agents/record.py:143-186 | the upload is not attempted exactly when the path is empty or missing; it succeeds exactly when the file is read and the server replies |
| Recorder.SentRequestsWellFormed | backend/agents/record.py:153-177 | every request goes to the chosen URL, carries the video framed by a valid boundary, and declares the body's true length |
| Recorder.PollCount | backend/agents/record.py:128-136 | the poll loop probes between 1 and 20 times and stops at the first probe that finds the process gone |
| Recorder.Recorder.Status | backend/agents/record.py:194-215 | `running` iff the ticket's pid is an integer and alive; path, pid and fps come from the ticket; `record_lib.py` (200-221) reports the same way |
| Recorder.Recorder.Start | backend/agents/record.py:11-91 | a live ticketed pid gives `already_recording` with the prior path and pid and changes nothing; otherwise the fps is computed, then a launch creates a live pid, a written ticket `{pid, path, fps, started_at}` and `ok` with that pid and path; a failed launch changes nothing; `record_lib.py` (24-104) starts the same way |
| Recorder.Recorder.AwaitExit | backend/agents/record.py:128-136 | the loop makes `PollCount` probes and changes nothing else |
| Recorder.PostRecording | backend/agents/record.py:143-186 | the upload's outcome is `UploadOutcome` and the requests it sends are exactly `SentRequests`; `record_lib.py` (153-193) uploads the same way, to the local server |
| Recorder.Recorder.Stop | backend/agents/record.py:94-191 | no live int pid gives `not_recording` with nothing touched; otherwise one SIGTERM, `PollCount` probes, no force-kill, the ticket reset to `{}`, and `ok` with the saved path whatever the upload outcome; `record_lib.py` (107-197) stops the same way |
| Recorder.StartTwice | backend/agents/record.py:35-42 | while a recording runs, a second start is refused with the first start's path and pid |
| Recorder.RestartAfterStop | backend/agents/record.py:137-141 | after a stop that clears the ticket, the next start launches and writes a new ticket, even if the old process is still alive |
| Runner.PersonaOf | backend/agents/runner.py:13 | `persona`, else `id`, else "agent"; never empty |
| Runner.ContainerNameParts | backend/agents/runner.py:33 | the container name is `<base>-<slug>-<short_id>`, and the slug reads back from it |
| Runner.PruneSpec | backend/agents/runner.py:75-82 | pruning keeps the item kind and every field but `image_url`, which becomes "[omitted]"; it is idempotent and leaves other items unchanged |
| Runner.CollectTexts | backend/agents/runner.py:68-71 | the texts of a message's dict blocks with truthy text, in order |
| Runner.FoldOutput | backend/agents/runner.py:64-82 | one result's output folds into its message texts and the pruned copies of its tool calls, in order |
| Runner.Execute | backend/agents/runner.py:55-85 | texts and steps are those of every yielded result in order; a stream exception sets status "error" with its repr and keeps what was collected |
| Runner.StreamPrefix | backend/agents/runner.py:83-85 | what is collected before a failure is a prefix of what a run that carries on collects |
| Runner.StepsAreToolCalls | backend/agents/runner.py:74-82 | every kept step is one of the four tool-call kinds and carries no screenshot URL |
| Runner.TextsFromMessages | backend/agents/runner.py:66-71 | every collected text is the truthy text of a dict block of a message item |
| Runner.RunSingleAgent | backend/agents/runner.py:12-102 | a missing API key, then missing or empty messages, raise before any directory or session; then a failed trajectory-directory `mkdir`, a failed session or a timeout raise; otherwise the record carries persona, slug, model, container name, the trajectory directory `<run_dir>/<slug>` and the fold of the stream |
| Runner.EntryOf | backend/agents/runner.py:116-124 | a raised agent becomes an error entry under its persona; otherwise its record is kept |
| Runner.RunAgents | backend/agents/runner.py:105-143 | one entry per spec in spec order: an error entry with the reason its agent raised (no key, no messages, no directory, no session, timeout), else the agent's record (persona, slug, model, container name, trajectory directory under the run's artifacts directory, status and error of its stream, texts, steps); the summary carries the run id, both clock readings, the artifacts root `<base>/artifacts/run-<id>` and `num_agents`, the number of specs; it is returned whether or not the file write succeeds |
| Prompts.Priority | backend/agents/prompts.py:41 | HIGH iff "critical" occurs in the lower-cased summary, else MEDIUM |
| Prompts.AppendEntries | backend/agents/prompts.py:37-42 | the loop appends each test's entry, numbered from 1, in order |
| Prompts.BuildAgentInstructions | backend/agents/prompts.py:8-56 | the text is the header, the entries and the footer |
| Prompts.PromptNamesSuite | backend/agents/prompts.py:16-17 | the text contains `SUITE: <name>` and `TOTAL TESTS: <count>` |
| Prompts.PromptNamesBaseUrl | backend/agents/prompts.py:14-29 | the base URL appears in the opening sentence and in approach step 1 |
| Prompts.PromptMandatesFormat | backend/agents/prompts.py:20-26 | the text mandates `STEP:` lines and one `RESULT:` line per scenario |
| Prompts.PromptEndsWithFooter | backend/agents/prompts.py:44-56 | the text always ends with the guidelines and the final-verdict block |
| Prompts.PromptListsTest | backend/agents/prompts.py:37-42 | test i appears as entry i+1, headed `<i+1>. <name>`, with its description and priority |
| Prompts.MissingSummary | backend/agents/prompts.py:40-41 | no summary gives "No description provided" and MEDIUM |
| Prompts.PriorityIgnoresCase | backend/agents/prompts.py:41 | the priority does not depend on the summary's letter case |
| ResultStore.Repr | backend/agents/database.py:33-35 | `str()` of a value: a string is itself and `None` prints "None" |
| ResultStore.SuiteUpdate | backend/agents/database.py:17-21 | the suite update writes exactly `suite_status` and `suite_result` from the input |
| ResultStore.TestUpdate | backend/agents/database.py:38-42 | a test update writes exactly three columns; `test_result` is true iff `status` equals "passed" |
| ResultStore.UpdateWhere | backend/agents/database.py:43 | the row with the id takes the updated columns and keeps the others; no other row changes |
| ResultStore.WriteOf | backend/agents/database.py:35-43 | a test leads to one update iff its name has a row with a truthy id, otherwise none |
| ResultStore.ApplyWrites | backend/agents/database.py:34-43 | applying updates never adds or removes rows |
| ResultStore.WritesDone | backend/agents/database.py:46-47 | the number of test updates made before the raising call; all of them when none raises |
| ResultStore.ResultTables.BuildNameIndex | backend/agents/database.py:30-33 | the loop builds the name-to-id index of the selected rows, taken in query order |
| ResultStore.ResultTables.SaveAgentResults | backend/agents/database.py:11-47 | the suite row gets its two columns unless the first call raises; the tests table gets the matched updates in order up to the first raising call; it completes iff no call raises, and never raises |
| ResultStore.ResultTables.UpdateTests | backend/agents/database.py:34-43 | the per-test loop on the tests field leaves the suites untouched |
| ResultStore.ApplyTestUpdates | backend/agents/database.py:34-43 | the matched updates are applied in order until a call raises |
| ResultStore.NameIndexKeys | backend/agents/database.py:29-33 | a name is in the index iff some row of the suite, among those the query returned, carries it |
| ResultStore.NameIndexComplete | backend/agents/database.py:29-33 | when the query returns every row of the suite, a name is in the index iff some row of the suite carries it |
| ResultStore.LastDuplicateWins | backend/agents/database.py:31-33 | with duplicate names the id of the last row carrying the name is kept |
| ResultStore.NameIndexSelected | backend/agents/database.py:29 | every indexed id is a row of the same suite, so no other suite's row is updated |
| ResultStore.WritesFromTests | backend/agents/database.py:34-43 | an update is made iff some test's name maps to a truthy id, and it carries that test's columns |
| ResultStore.UntouchedRows | backend/agents/database.py:43 | a row no update names is unchanged |
| ResultStore.OnlyTestColumns | backend/agents/database.py:38-43 | the test updates change no column except the three written |
| ResultStore.LastWriteDecides | backend/agents/database.py:34-43 | the last update naming a row decides its updated columns |
| Pipeline.GetPRNumber | backend/cicd/qai-pipeline.js:21-27 | `GITHUB_EVENT_NUMBER` wins; else the event file's `number`, throwing when the file cannot be read or parsed; else null |
| Pipeline.PersonaKey | backend/cicd/qai-pipeline.js:263 | the persona, or "default" when falsy; never empty |
| Pipeline.GroupByPersona | backend/cicd/qai-pipeline.js:262-267 | the accumulator loop throws iff a persona names an `Object.prototype` member; otherwise it computes the groups and their first-appearance order |
| Pipeline.OfPersonaMembers | backend/cicd/qai-pipeline.js:262-267 | a scenario is in persona p's list iff it is a scenario of persona p |
| Pipeline.GroupedSpec | backend/cicd/qai-pipeline.js:262-267 | a group exists iff some scenario has that persona, and each group holds exactly its persona's scenarios in their order |
| Pipeline.PersonaOrderDistinct | backend/cicd/qai-pipeline.js:271 | each persona is listed once in the group order |
| Pipeline.GroupedAsWrittenSpec | backend/cicd/qai-pipeline.js:262-267 | the grouping as written throws iff some persona names an `Object.prototype` member, and otherwise equals the intended grouping |
| Pipeline.ConstructorPersonaThrows | backend/cicd/qai-pipeline.js:264-265 | a scenario with persona "constructor" makes the grouping throw |
| Pipeline.PendingResult | backend/cicd/qai-pipeline.js:240-245 | the result row is PENDING with an empty overall result, and its link is on github.com and ends with the PR number |
| Pipeline.GroupTestsMember | backend/cicd/qai-pipeline.js:291-297 | a group's test rows are exactly the pending rows (name = description, no outcome, PENDING, no steps) of its scenarios |
| Pipeline.CreatedTestsSpec | backend/cicd/qai-pipeline.js:270-306 | the inserted test rows are exactly the pending rows of the scenarios whose persona's suite was created and whose tests insert succeeded; a failed suite or tests insert loses only that persona's rows |
| Pipeline.CreateSuites | backend/cicd/qai-pipeline.js:270-306 | one `<persona> Agent Suite` insert per persona in order; the ids of the created suites, kept even when their tests insert fails; the test rows of the created suites whose tests insert succeeded |
| Pipeline.QaiPipeline.UploadScenarios | backend/cicd/qai-pipeline.js:237-312 | a failed result insert changes nothing; otherwise the PENDING row and the result id; then, when the grouping throws, the error is caught and no suite is created, and otherwise the suite ids, the suite records and the test rows that were inserted |
| Pipeline.QaiPipeline.RunTests | backend/cicd/qai-pipeline.js:97-235 | no result id gives false; no suites marks the row FAILED and gives false; otherwise one entry per suite in query order; a failed write of `test-results.json` marks the row FAILED and gives false; otherwise success iff the final record verifies |
| Pipeline.QaiPipeline.UpdateTestResults | backend/cicd/qai-pipeline.js:314-374 | the result row gets the verdict and tally when there are tests, nothing otherwise |
| Pipeline.RunSuite | backend/cicd/qai-pipeline.js:159-195 | a suite succeeds iff its process exits with 0, and then carries its output; otherwise the message names the exit code (`null` after a signal) and the error output, the start error, or the timeout |
| Pipeline.RunSuites | backend/cicd/qai-pipeline.js:130-196 | one entry per suite in query order; a failing suite does not stop the loop |
| Pipeline.Passed | backend/cicd/qai-pipeline.js:203 | the printed passed count is at most the number of suites |
| Pipeline.PassedFailed | backend/cicd/qai-pipeline.js:203-204 | the printed counts: passed + failed is the number of entries, and all passed iff every entry succeeded |
| Pipeline.MarkFailed | backend/cicd/qai-pipeline.js:225-231 | only the result row's status changes, to FAILED |
| Pipeline.CountTrue | backend/cicd/qai-pipeline.js:357 | the passed count is at most the number of tests |
| Pipeline.CountTrueAll | backend/cicd/qai-pipeline.js:357-358 | all tests pass iff every `test_success` is true |
| Pipeline.ResultUpdate | backend/cicd/qai-pipeline.js:356-368 | nothing is written when there are no tests; otherwise PASSED or FAILED with the tally |
| Pipeline.ResultUpdateVerdict | backend/cicd/qai-pipeline.js:358-364 | the status is PASSED iff every test passed |
| Pipeline.SetOutcome | backend/cicd/qai-pipeline.js:361-367 | only the status and overall result of the row change |
| Pipeline.SumsOverSuites | backend/cicd/qai-pipeline.js:440-442 | the per-suite sums equal the counts over all tests together |
| Pipeline.VerifyFinalResults | backend/cicd/qai-pipeline.js:429-459 | there is no verdict exactly when there is no record |
| Pipeline.FinalSuccessSpec | backend/cicd/qai-pipeline.js:439-445 | success iff the run status is PASSED, or there are tests and every one passed |
| Pipeline.TestCases | backend/cicd/qai-pipeline.js:413-422 | one case per scenario |
| Pipeline.TestCasesSpec | backend/cicd/qai-pipeline.js:414-421 | case i has id `suite_<i+1>`, name `<persona> - <type> testing`, and its scenario's priority, type, description and steps; ids are distinct |
| Pipeline.UpdatedSummaryTail | backend/cicd/qai-pipeline.js:465 | the result is a tail of summary plus entry, and the whole text when it has at most 500 lines |
| Pipeline.UpdatedSummaryLines | backend/cicd/qai-pipeline.js:465 | the result's lines are the last 500 lines, so there are at most 500 |
| Pipeline.EntryLines | backend/cicd/qai-pipeline.js:464 | the entry splits into its title line, its note line and the empty rest |
| Pipeline.EntryKept | backend/cicd/qai-pipeline.js:464-465 | the new entry always survives the truncation |
| Breadcrumbs.SegmentsShape | frontend/src/lib/components/content/utilities/Breadcrumbs.tsx:17 | the segments are non-empty and contain no `/` |
| Breadcrumbs.SegmentLabel | frontend/src/lib/components/content/utilities/Breadcrumbs.tsx:29-46 | the five known pages get their fixed labels |
| Breadcrumbs.SegmentLabelSpec | frontend/src/lib/components/content/utilities/Breadcrumbs.tsx:40-46 | a digit segment gives `Suite <digits>`; any other unknown segment is capitalised with later hyphens as spaces |
| Breadcrumbs.GenerateBreadcrumbs | frontend/src/lib/components/content/utilities/Breadcrumbs.tsx:16-52 | Home first, then one crumb per segment, labelled after it and linking to the path of the segments up to it |
| Breadcrumbs.HrefPrefix | frontend/src/lib/components/content/utilities/Breadcrumbs.tsx:24-26 | each crumb's href is a prefix of the next one's |
| Breadcrumbs.TrailingSlash | frontend/src/lib/components/content/utilities/Breadcrumbs.tsx:17 | a trailing slash adds no crumb |
| Breadcrumbs.RepeatedSlash | frontend/src/lib/components/content/utilities/Breadcrumbs.tsx:17 | a doubled slash adds no crumb |
| Breadcrumbs.SegmentsOfPath | frontend/src/lib/components/content/utilities/Breadcrumbs.tsx:17-26 | the path built from segments splits back into them |
| Breadcrumbs.CrumbLeadsBack | frontend/src/lib/components/content/utilities/Breadcrumbs.tsx:17-48 | following crumb k gives a page whose trail is the first k+1 crumbs |
| SideNavbar.LinkHref | frontend/src/lib/components/SideNavbar.tsx:76 | the link starts with `/<prefix>` and ends with the route's href |
| SideNavbar.ActiveIffPrefix | frontend/src/lib/components/SideNavbar.tsx:83-85 | for an href not ending in `/`, a link is active iff the pathname starts with the href |
| SideNavbar.TableHrefs | frontend/src/lib/components/SideNavbar.tsx:52-63 | every route of the tables is `/<name>` with no trailing slash |
| SideNavbar.LooseMatch | frontend/src/lib/components/SideNavbar.tsx:84 | `/dashboard-old` activates the Dashboard link |
| SideNavbar.PrefixedPageNotActive | frontend/src/lib/components/SideNavbar.tsx:76-84 | the Dashboard link with prefix 1000 leads to `/1000/dashboard`, where it is not active |

## Left out

- Operating system, network and files: `Popen`, `os.kill`, `time.sleep`, `strftime`, the ffmpeg command line, state-file writes and HTTP are parameters or flags of the methods. Their effects are the `Recorder` fields.
- Recorder: a `pid` stored as a boolean counts as an integer in Python (`isinstance(True, int)`). The model treats it as a non-integer pid.
- Recorder: path normalisation by `pathlib` (repeated or trailing slashes) is not modelled. `OutputPath` joins with one `/`; only an empty or `.` directory is dropped.
- Recorder.FpsValue: `int()` also accepts digit underscores and non-ASCII whitespace and digits. The model parses surrounding ASCII whitespace, one sign and ASCII digits only.
- Recorder: `mkdir` raising (no permission, a file in the way) is not modelled; the model assumes the directory can be made.
- Recorder: a state file whose JSON is not an object (a list, a number) makes `prior.get` raise outside the `try`. The model's state file is missing, unreadable or an object.
- Recorder: the response body of an upload and its JSON parsing are kept as one string.
- Runner: the usage snapshots (a JSON round trip of opaque values) are not modelled, so a record has no `usage` field.
- Runner.RunAgents: a raising `mkdir` of the run's artifacts directory (runner.py:110) makes `run_agents` itself raise; the model assumes that directory can be made. `CUA_OUTPUT_PATH` only moves the summary file, which is the `written` result.
- Runner: `asyncio.gather` concurrency and `wait_for` timeouts are modelled as per-agent flags; `short_id` and the clock are parameters.
- Runner.RunSingleAgent: a fractional `max_duration_sec` is an integer in the model.
- Runner: the printed JSON summary is not modelled.
- Prompts: the fixed prose of the instructions is a parameter of the lemmas. Only `BuildAgentInstructions` fixes it to the source text.
- Prompts: a missing `suite['name']` or test `name` (a KeyError) is not modelled.
- Prompts.Priority: a `summary` key present with value `None` would raise on `.lower()`. The model treats it as absent.
- ResultStore: the order in which the service returns the selected rows is a parameter.
- ResultStore: a `tests` value that is not a list, and names that are not scalars, are not modelled.
- ResultStore: the suite update's response is only printed, so it is not modelled.
- Pipeline: Octokit, OpenAI and Supabase calls, `spawn`, timers and file writes are outside the model. Their answers are parameters. A failed write of `test-results.json` is the `saveOk` parameter of `RunTests`; the write in `updateCodebaseSummary` swallows its error, which the model does not represent either way.
- Pipeline.QaiPipeline.RunTests: a failed write in `createAgentFiles` happens before the `try`, so it escapes to `main`, which exits with 1. That path is not modelled.
- Pipeline.GetPRNumber: an event `number` that is not an integer is not modelled.
- Pipeline: `Object.entries` lists integer-like keys first. The model takes first-appearance order for every persona.
- Pipeline.QaiPipeline.RunTests: a result id of 0 is falsy in JavaScript. The model treats only a missing id as absent.
- Pipeline.QaiPipeline.UpdateTestResults: the per-scenario test updates (by name) and the per-suite queries, whose results are unused, are not modelled.
- Pipeline.VerifyFinalResults: a query that throws (returning false) is not modelled. `undefined` and `false` differ only in the printed output.
- Pipeline: the system prompt and `options.json` of `createAgentFiles` are constant files and are not modelled.
- Text: case mapping, whitespace and digits are ASCII only. Non-ASCII letters are left unchanged.
- SideNavbar: where the prefix comes from (the page's `resultId` parameter) is outside the component and is a parameter.

## Findings

| source | as written | input that shows it | evidently intended | confidence | as-written member | corrected member |
|---|---|---|---|---|---|---|
| backend/cicd/qai-pipeline.js:262-267 | the grouping `reduce` starts from the object literal `{}`. `groups[persona]` then finds an inherited `Object.prototype` member for a persona such as "constructor" or "toString", so no list is created and `push` throws. The upload's `catch` swallows the error after the PENDING result row exists, so no suite is created and the result is never linked to any. | one scenario with persona "constructor" | one fresh list per persona, whatever its name | not executed | Pipeline.GroupedAsWrittenSpec, Pipeline.ConstructorPersonaThrows | Pipeline.GroupedSpec |
