# GitLab pipeline backend: a Dafny model of its deterministic core

The backend takes a GitLab repository URL. It analyses the repository, produces a GitLab CI
pipeline, validates the pipeline, deploys it and reviews the code. Each HTTP request starts a
background operation. The operation stores its result in a JSON file under an id of the form
`kind_YYYYmmdd_HHMMSS`, and a client polls for that result by id.

This project models the sequential logic under that machinery:

- the operation store (a class over a map-valued backing file);
- the request gateway every agent shares: result records, chat messages, and the one-at-a-time
  FIFO processing with a minimum spacing between requests, with time in integer milliseconds;
- the analysis rules: URL to project path, manifest-first language detection, the
  most-common-extension count and the build-step table;
- the YAML fence clean-up and the fence-line filter of the pipeline generator;
- the table-driven pipeline template;
- the validation agent's suggestion cache, the mock validator and the keyword hints;
- the deployment agent's file upsert and get-or-create of its cloud resources;
- the code-review loop of `main.py`, operation ids and polling.

GitLab, OpenAI, Google Cloud and the YAML, JSON and Python-literal parsers are oracles. They are
passed as function-valued parameters, or as the failure each call may raise.

Files, one module each: `wrappers.dfy`, `json.dfy` (Python values and truthiness), `strings.dfy`
(`split`, `join`, `strip`, `lower`), `string_order.dfy` (`sorted` on strings),
`operation_store.dfy`, `base_agent.dfy`, `gitlab.dfy` (URL parsing), `code_analysis.dfy`,
`pipeline_gen.dfy`, `pipeline_template.dfy`, `validation.dfy`, `deployment.dfy`,
`code_review.dfy` and `operations.dfy` (ids, polling and the endpoints' background tasks).

Three behaviours of the code are easy to misread; the model follows the code:

- Language detection on an extension tie is deterministic. Python's `max` keeps the first
  maximal item, and the dict's keys are in first-seen order, so the first-seen extension wins.
- A manifest found for JavaScript projects yields the language `"node"`, which none of the
  later tables knows.
- The validation agent's linter is a stand-in that accepts everything, so it never asks for
  suggestions.

## Model

| member | source | states |
|---|---|---|
| OperationStore.Read | operation_store.py:8-15 | A missing or unparseable backing file reads as the empty map; a parsed file reads as its contents |
| OperationStore.Lookup | operation_store.py:21-23 | The payload stored for a present id, None for an absent one, and None for every id when the file is missing or corrupt |
| OperationStore.AfterSet | operation_store.py:25-28 | After a set, the id holds the new payload; every other id keeps its presence and value; on a missing or corrupt file the store holds exactly that one entry |
| OperationStore.AfterDelete | operation_store.py:30-34 | After a delete, the id is absent and every other entry is unchanged; deleting an absent id writes nothing; deleting a present id leaves one entry fewer |
| OperationStore.LastWriteWins | operation_store.py:25-28 | Two sets to the same id leave the store as the second set alone would |
| OperationStore.DistinctWritesBothKept | operation_store.py:25-28 | Sequential sets to two different ids both stay readable |
| OperationStore.SetOnEmptyLeavesOneEntry | operation_store.py:9-15 | A set on a missing or unparseable file leaves exactly one entry |
| OperationStore.DeleteUndoesSet | operation_store.py:25-34 | Deleting a freshly set id restores the previous entries |
| OperationStore.Store.Get | operation_store.py:21-23 | Returns the lookup of the id; it has no modifies clause, so it never changes the store |
| OperationStore.Store.Set | operation_store.py:25-28 | The new store is the old map with the id bound to the payload |
| OperationStore.Store.Delete | operation_store.py:30-34 | The id is removed when present; the file is untouched when the id is absent |
| BaseAgent.FormatError | agents/base_agent.py:39-46 | Status "error", the exception text as message, data None |
| BaseAgent.FormatSuccess | agents/base_agent.py:48-54 | Status "success" with the given message and data |
| BaseAgent.ReplyRoundTrip | agents/base_agent.py:39-54 | Every result record survives conversion to its three-key dict and back |
| BaseAgent.ErrorIsNotSuccess | agents/base_agent.py:39-54 | An error record and a success record never coincide |
| BaseAgent.ChatMessages | agents/base_agent.py:112-115 | One or two messages; a system message comes first iff the system prompt is non-empty; the user prompt always comes last |
| BaseAgent.Outcome | agents/base_agent.py:107-126 | An unset key fails with "OPENAI_API_KEY is not set." before the SDK is asked; otherwise it succeeds iff the SDK does, and returns the stripped answer |
| BaseAgent.MakeRequest | agents/base_agent.py:107-126 | Builds the messages step by step and returns what the request specification gives |
| BaseAgent.Wait | agents/base_agent.py:92-96 | The processor sleeps `min_interval - elapsed` when fewer than 1000 ms have passed since the last success, and not at all otherwise |
| BaseAgent.Step | agents/base_agent.py:86-105 | One turn: the request starts at the clock or at last success + interval, whichever is later; `last_request_time` moves only on success; the loop then sleeps 100 ms |
| BaseAgent.DrainIsFifo | agents/base_agent.py:86-105 | Every queued request is answered exactly once, in queue order, with its own outcome; a failure does not stop the later ones |
| BaseAgent.DrainStartsLate | agents/base_agent.py:93-100 | No request starts before the clock or within the interval of the last success; the recorded time never goes back |
| BaseAgent.DrainOneAtATime | agents/base_agent.py:88-105 | Requests never overlap: each starts after the previous one has finished and the loop has slept |
| BaseAgent.DrainSpacing | agents/base_agent.py:93-100 | Any request starts at least the minimum interval after the end of every earlier successful request |
| BaseAgent.Gateway.constructor | agents/base_agent.py:34-36 | `last_request_time` starts at the construction time, with an empty queue |
| BaseAgent.Gateway.Call | agents/base_agent.py:128-135 | A call joins the back of the queue and changes nothing else |
| BaseAgent.Gateway.Serve | agents/base_agent.py:89-104 | Takes the head of the queue and performs exactly one step of the specification |
| BaseAgent.Gateway.ProcessQueue | agents/base_agent.py:86-105 | Empties the queue, and the trace, clock and last-success time equal the FIFO specification's |
| GitLab.ExtractProjectPath | agents/code_analysis_agent.py:82-106 | A refusal reads "Error parsing GitLab URL: Invalid GitLab URL format: " followed by the URL; when it refuses and what path it gives are the rows below |
| GitLab.ExtractProjectPathFails | agents/code_analysis_agent.py:86-90 | The URL is refused iff no "/" follows its last "//"; the error reads "Error parsing GitLab URL: Invalid GitLab URL format: " followed by the URL |
| GitLab.ExtractProjectPathShape | agents/code_analysis_agent.py:93-100 | The path holds no "//"; it is the non-empty segments after the host joined by "/", with a trailing ".git" (four characters, once) removed |
| GitLab.NonEmpty | agents/code_analysis_agent.py:93-93 | Keeps exactly the non-empty segments |
| GitLab.ExtractProjectPathRoundTrip | agents/code_analysis_agent.py:86-103 | For a URL built from scheme, host and segments, with or without ".git", the parse gives back the joined segments |
| GitLab.DoubledSlashInPathIsRefused | agents/code_analysis_agent.py:86-90 | A "//" inside the path moves the cut to it, so such a URL is refused |
| GitLab.SimpleProjectPath | agents/deployment_agent.py:70-73 | The text after the first "/" that follows the last "//", or "" when there is no such "/" (validation_agent.py has the same cut) |
| GitLab.SimpleProjectPathRoundTrip | agents/deployment_agent.py:70-73 | The validation and deployment cut keeps every segment after the host: empty segments and ".git" stay |
| CodeAnalysis.FirstHit | agents/code_analysis_agent.py:133-139 | The content of the first fetchable manifest of a language, or none iff none can be fetched |
| CodeAnalysis.Manifests | agents/code_analysis_agent.py:119-141 | At most one entry per language; empty iff no manifest can be fetched; every language with a manifest is listed with its first hit |
| CodeAnalysis.HitRows | agents/code_analysis_agent.py:132-137 | The rows whose manifest list has a fetchable file, strictly increasing, and every such row is listed |
| CodeAnalysis.PrefixManifestsAreHits | agents/code_analysis_agent.py:132-141 | After any number of rows, the entries are those rows with a manifest, in order, each with its first hit |
| CodeAnalysis.ManifestsAreHits | agents/code_analysis_agent.py:119-141 | The entries are exactly the rows with a manifest, in table order, each paired with its first fetchable manifest |
| CodeAnalysis.ManifestKeysDistinct | agents/code_analysis_agent.py:123-141 | Distinct languages in the table give each language at most once in the result |
| CodeAnalysis.FirstManifest | agents/code_analysis_agent.py:123-141 | The first key is the first language in the order python, node, java, ruby, php that has a manifest |
| CodeAnalysis.AnalyzeDependencies | agents/code_analysis_agent.py:119-143 | The nested loop with `break` computes the first-hit-per-language table |
| CodeAnalysis.PackageJsonMeansNode | agents/code_analysis_agent.py:123-129 | A package.json with no Python manifest yields language "node" |
| CodeAnalysis.ExtWithoutDot | agents/code_analysis_agent.py:183-183 | A name without a dot is its own extension, lower-cased |
| CodeAnalysis.Count | agents/code_analysis_agent.py:181-184 | An occurrence count, positive iff the value occurs |
| CodeAnalysis.Distinct | agents/code_analysis_agent.py:181-184 | The dict's keys are exactly the extensions seen |
| CodeAnalysis.DistinctNoRepeats | agents/code_analysis_agent.py:181-184 | No key is listed twice |
| CodeAnalysis.DistinctFirstSeen | agents/code_analysis_agent.py:181-184 | Keys are in first-seen order |
| CodeAnalysis.FirstMaxIndex | agents/code_analysis_agent.py:198-199 | Python's max keeps the first maximal key: a key of greatest count, and every earlier key strictly less common |
| CodeAnalysis.MostCommon | agents/code_analysis_agent.py:181-199 | The most frequent extension; on a tie, the one seen first in the file list |
| CodeAnalysis.DetectedLanguageRule | agents/code_analysis_agent.py:174-202 | A manifest wins over extensions; with none, the most frequent extension decides (first-seen on a tie); with no files, "unknown" |
| CodeAnalysis.CountExtensions | agents/code_analysis_agent.py:181-184 | The counting loop yields the key order and the exact count of each extension |
| CodeAnalysis.CountOne | agents/code_analysis_agent.py:183-184 | One counting step keeps the tally exact and appends a new key at the end |
| CodeAnalysis.PickMostCommon | agents/code_analysis_agent.py:198-199 | The scan over the keys finds the first maximal position |
| CodeAnalysis.DetectLanguage | agents/code_analysis_agent.py:174-202 | The imperative detection returns the specified language |
| CodeAnalysis.BuildSteps | agents/code_analysis_agent.py:204-215 | Every result starts with "install dependencies"; an unlisted language gets ["install dependencies", "build"] |
| CodeAnalysis.GenerateAnalysis | agents/code_analysis_agent.py:145-172 | has_dockerfile iff "Dockerfile" is in the list; has_tests iff a lower-cased path contains "test"; test steps ["run tests"] iff has_tests; deploy steps always ["deploy to Cloud Run"] |
| CodeAnalysis.Directories | agents/code_analysis_agent.py:114-114 | A path is listed iff some "tree" entry has it, and there are no more entries than items |
| CodeAnalysis.DirectoriesAppend | agents/code_analysis_agent.py:114-114 | The directories of a concatenation are each part's, in order: each "tree" item gives its path once, in tree order |
| CodeAnalysis.StructureOf | agents/code_analysis_agent.py:108-117 | Files are every path in tree order; the directories are the Directories of the items (the "tree" paths in tree order) and are among the files |
| CodeAnalysis.AnalyzeProject | agents/code_analysis_agent.py:54-76 | A tree failure becomes "Error analyzing repository structure: …"; otherwise success with the structure, the dependencies, and the whole analysis record: the detected language, has_dockerfile iff "Dockerfile" is a path, has_tests iff a path contains "test" in any case, the language's build steps, ["run tests"] exactly when tests were seen, and ["deploy to Cloud Run"] |
| CodeAnalysis.Execute | agents/code_analysis_agent.py:18-80 | A missing URL gives "Repository URL is required"; parse errors, GitLab 404 and other GitLab errors, and any other exception of the lookup become error records; otherwise success iff the tree listing succeeds |
| PipelineGen.CleanedYaml | agents/pipeline_gen_agent.py:104-116 | The cleaned text has no whitespace at either end |
| PipelineGen.CleanYamlResponse | agents/pipeline_gen_agent.py:104-116 | Strips, removes a leading "```yaml", then a leading "```", then a trailing "```", in that order, and strips again |
| PipelineGen.UnfencedIsOnlyStripped | agents/pipeline_gen_agent.py:104-116 | A text with no fence at either end is only whitespace-trimmed |
| PipelineGen.FencedBlockRoundTrip | agents/pipeline_gen_agent.py:104-116 | A trimmed body wrapped in a yaml code fence comes back unchanged |
| PipelineGen.FilteredKeepsPassing | agents/pipeline_gen_agent.py:125-130 | Every input line that passes the line test is kept |
| PipelineGen.FilteredAppend | agents/pipeline_gen_agent.py:125-130 | Filtering a concatenation is filtering each part, so kept lines keep their order and each passing line is kept once |
| PipelineGen.FilteredFacts | agents/pipeline_gen_agent.py:125-130 | Every kept line comes from the input and passes the line test (for the fix: its stripped form does not start with "```"); when every line passes, all are kept |
| PipelineGen.DropFenceLines | agents/pipeline_gen_agent.py:122-130 | The loop with the `in_yaml` toggle yields exactly the lines that pass the test, in their order: the toggle never changes the output |
| PipelineGen.FixCommonYamlIssues | agents/pipeline_gen_agent.py:118-132 | Splitting on newlines, dropping the fence lines and joining again gives the specified text |
| PipelineGen.RefilterJoined | agents/pipeline_gen_agent.py:118-132 | Filtering the lines of an already filtered and rejoined text changes nothing, provided the empty line passes |
| PipelineGen.FixedIdempotent | agents/pipeline_gen_agent.py:118-132 | Fixing twice is fixing once |
| PipelineGen.Checked | agents/pipeline_gen_agent.py:32-48 | A parsing text is accepted as is; otherwise exactly one fix pass and a re-parse; a second failure gives "Generated pipeline has invalid YAML syntax: …"; whatever is accepted parses |
| PipelineGen.CheckYaml | agents/pipeline_gen_agent.py:32-48 | The reassigning check computes the specified reply |
| PipelineGen.Execute | agents/pipeline_gen_agent.py:10-51 | A missing or empty analysis gives "Repository analysis is required"; an OpenAI failure is an error record; success carries data.pipeline_yaml, which parses |
| PipelineTemplate.LanguageImage | agents/pipeline_agent.py:84-95 | The seven known languages have images; every other language gets "alpine:latest", and only they do |
| PipelineTemplate.BuildCommands | agents/pipeline_agent.py:97-108 | The build command, with "echo 'No build commands defined'" exactly for unknown languages |
| PipelineTemplate.TestCommands | agents/pipeline_agent.py:110-121 | The test command, with "echo 'No test commands defined'" exactly for unknown languages |
| PipelineTemplate.JavaScriptIsTypeScript | agents/pipeline_agent.py:86-121 | javascript and typescript share image, build command and test command |
| PipelineTemplate.ImagesOtherwiseDistinct | agents/pipeline_agent.py:86-95 | Apart from that pair, known languages have distinct images |
| PipelineTemplate.BasicDocument | agents/pipeline_agent.py:40-81 | Three stages; one job per stage in order; build and test on the language image; test depends on build; deploy on alpine:latest, only on main |
| PipelineTemplate.TemplateIsRendered | agents/pipeline_agent.py:44-81 | The literal template text is, line for line, the rendering of that document |
| PipelineTemplate.LanguageKey | agents/pipeline_agent.py:41-41 | A missing "language" reads as "unknown"; a list or dict value raises "unhashable type" |
| PipelineTemplate.UnknownLanguageGetsDefaults | agents/pipeline_agent.py:84-121 | Every language outside the tables gets the file with all three defaults |
| PipelineTemplate.Generated | agents/pipeline_agent.py:30-33 | Success wraps the template text as data.pipeline_yaml |
| PipelineTemplate.AnalysisOf | agents/pipeline_agent.py:23-23 | A missing analysis reads as `{}`, which is falsy |
| PipelineTemplate.Execute | agents/pipeline_agent.py:9-36 | A missing or empty analysis gives an error record with data None; otherwise the template for the analysis's language |
| PipelineTemplate.ExecuteRendersTemplate | agents/pipeline_agent.py:22-36 | Every successful result is the rendering of a template document |
| PipelineTemplate.NoLanguageMeansDefaults | agents/pipeline_agent.py:41-41 | An analysis without "language" gets the "unknown" file: all three defaults |
| Validation.Configure | agents/validation_agent.py:9-17 | Construction fails with "GitLab configuration is missing" iff the URL or token is unset or empty |
| Validation.Prompt | agents/validation_agent.py:32-33 | The prompt is "Fix GitLab CI errors: " + the errors + ". Return only a list of fixes." |
| Validation.PromptReadsThreeErrors | agents/validation_agent.py:32-32 | Errors after the third never reach the prompt |
| Validation.Parsed | agents/validation_agent.py:38-43 | A reply read as a list literal is that list; any other reply becomes [reply] |
| Validation.CacheKey | agents/validation_agent.py:27-27 | The key is a sorted rearrangement of the errors |
| Validation.CacheKeyIffPermutation | agents/validation_agent.py:27-29 | Two error lists share a cache entry iff they are permutations of each other, duplicates counted |
| Validation.ValidatePipeline | agents/validation_agent.py:103-123 | The mock always reports valid, with no errors or warnings, merged_yaml equal to the input, and no suggestions |
| Validation.BasicSuggestionFallback | agents/validation_agent.py:129-139 | "Review and fix: …" exactly when none of syntax, stage, script, image occurs in the lower-cased error |
| Validation.GetBasicSuggestions | agents/validation_agent.py:125-144 | One hint per error, chosen by the first matching keyword, then one per warning; the length is errors + warnings |
| Validation.StageBeforeScript | agents/validation_agent.py:130-135 | Keywords are tried in the order syntax, stage, script, image |
| Validation.ValidationAgent.GetSuggestions | agents/validation_agent.py:24-49 | A hit returns the cached list without prompting; a miss sends one prompt and caches the parsed reply; a failed call returns ["Error getting suggestions: …"] and leaves the cache unchanged |
| Validation.ValidationAgent.Complete | agents/validation_agent.py:82-93 | Suggestions are added only to an invalid result: the cached list on a hit; on a miss one prompt is sent, and either the wrapped error is added with the cache kept, or the parsed reply is added and cached |
| Validation.ValidationAgent.Execute | agents/validation_agent.py:51-96 | The error paths for missing YAML and URL; with the mock linter, success with no suggestions, and the cache and prompts unchanged |
| Deployment.Configure | agents/deployment_agent.py:9-19 | GitLab configuration is checked before the cloud project id; construction succeeds iff all three are set |
| Deployment.PipelineRecord | agents/deployment_agent.py:91-95 | pipeline_url is web_url + "/-/pipelines" |
| Deployment.GitLabProject.DeployPipeline | agents/deployment_agent.py:75-97 | Update if the file exists and saves, else create; on success .gitlab-ci.yml on main holds the YAML; no other file changes |
| Deployment.NamesIdentifyPath | agents/deployment_agent.py:103-116 | Registry and service names determine the project path |
| Deployment.ProjectsGetDistinctRegistries | agents/deployment_agent.py:103-103 | Different cloud project ids never share a registry name |
| Deployment.RegistryIsNotService | agents/deployment_agent.py:103-116 | A registry name is never a service name |
| Deployment.CloudRecord | agents/deployment_agent.py:139-144 | Reports `projects/{id}/locations/us-central1/repositories/{path}` and `…/services/{path}` |
| Deployment.CloudProject.EnsureRegistry | agents/deployment_agent.py:103-113 | Fetched if present; created only when absent; a failed create changes nothing |
| Deployment.CloudProject.EnsureService | agents/deployment_agent.py:116-137 | Fetched if present; created only when absent, running the project's image |
| Deployment.CloudProject.SetupCloudResources | agents/deployment_agent.py:99-146 | Registry then service; succeeds iff each exists or is created; errors are wrapped as "Error setting up Google Cloud resources: …" |
| Deployment.Deployed | agents/deployment_agent.py:58-65 | Status "success" with data.pipeline and data.cloud |
| Deployment.Finish | agents/deployment_agent.py:54-68 | With the pipeline committed: success iff cloud setup is not asked for or both resources go through, with the wrapped error text otherwise; the new registry and service sets; the cloud is untouched when not asked |
| Deployment.Deploy | agents/deployment_agent.py:50-68 | Success iff the pipeline is saved or created and, when asked, the registry and the service exist or are created; otherwise the first failure's wrapped text is the error; the new file, commit, registry and service state in every case, and the pipeline stays committed when the cloud step fails |
| Deployment.Execute | agents/deployment_agent.py:25-68 | A missing YAML is an error; a failed lookup is its error; after a lookup, success iff the pipeline and (when asked) both cloud resources go through, else the first failure's text; the new GitLab and cloud state in every case, with nothing changed on the YAML, URL and lookup errors; cloud is None and nothing in the cloud changes when deploy_to_cloud is false |
| CodeReview.Candidates | main.py:249-249 | Exactly the blob entries whose path starts with none of ".git", "node_modules", "__pycache__", in tree order |
| CodeReview.CandidatesAppend | main.py:249-249 | The candidates of a concatenation are the candidates of each part, in order |
| CodeReview.Attempted | main.py:263-263 | The first min(5, number of candidates) candidates, in order |
| CodeReview.Snippet | main.py:280-280 | Exactly the first 2000 characters, or the whole content when shorter |
| CodeReview.AddScore | main.py:293-293 | `+=` on the total: int stays int, a float makes it float, and a non-number fails |
| CodeReview.Extension | main.py:291-292 | `extend` adds list items, each string character as a one-character string, or the dict keys in iteration order, and fails on anything else |
| CodeReview.ReviewOf | main.py:290-294 | A non-dict reply fails; a dict succeeds iff both extends and the score addition succeed, giving their values, and otherwise fails with the first failure's text |
| CodeReview.ReviewFile | main.py:264-319 | A fetch failure adds one medium finding; a failed completion stops the loop; a malformed reply adds one low finding; the accumulators only grow at their ends |
| CodeReview.ReviewFileParsed | main.py:286-294 | A decoded reply that ReviewOf accepts appends its findings and recommendations, replaces the total and counts the file; one it rejects stops the loop with that text |
| CodeReview.ReviewFileFrom | main.py:264-319 | What a file adds does not depend on the earlier accumulators: it stops the loop or not regardless, and otherwise appends what it would to an empty tally |
| CodeReview.Reviewed | main.py:262-320 | Without a stop, every attempted file is either reviewed or leaves a finding |
| CodeReview.ReviewedGathers | main.py:262-320 | Without a stop, the findings and recommendations are each file's own, concatenated in file order |
| CodeReview.ReviewedStops | main.py:312-312 | Once the loop has stopped, later files change nothing |
| CodeReview.ReviewOne | main.py:264-319 | One iteration computes the specified turn |
| CodeReview.ReviewFiles | main.py:262-320 | The loop computes the specified accumulators |
| CodeReview.Summary | main.py:342-353 | The mock note naming the error after a fallback; otherwise the OpenAI summary of the gathered results, or its failure note, and the no-issues text when nothing was gathered |
| CodeReview.ErrorText | main.py:342-342 | The fallback names the error, or "Unknown error" |
| CodeReview.FinalRecord | main.py:326-362 | On fallback: one mock finding, three recommendations and score 50; otherwise the total divided by the files reviewed; status "completed"; the message names the fallback iff OpenAI failed |
| CodeReview.ErrorRecord | main.py:232-240 | A failed analysis stores the review id, status "error", the message, empty lists and score 0 |
| CodeReview.NothingToReviewIsMock | main.py:251-344 | A tree with no candidates gets the mock review under the plain "completed" message |
| CodeReview.Conclude | main.py:326-362 | Builds the specified final record |
| CodeReview.RunReview | main.py:224-362 | Stores the error record or the final record under the operation id; a failed project or tree fetch writes nothing |
| Operations.DigitsRoundTrip | main.py:93-93 | Zero-padded digits read back as the number |
| Operations.FormatStamp | main.py:93-93 | strftime gives fifteen characters with "_" at position 8 |
| Operations.StampRoundTrip | main.py:93-93 | A formatted stamp parses back to itself |
| Operations.OperationId | main.py:93-93 | `kind + "_" + stamp` |
| Operations.OperationIdRoundTrip | main.py:93-222 | An id determines its kind (analyze, generate, validate, deploy, review) and its second |
| Operations.SameIdIffSameKindAndSecond | main.py:93-222 | Two operations share an id iff they have the same kind and start in the same second |
| Operations.Status | main.py:206-214 | The stored record when it is truthy, else 404 "Operation not found" |
| Operations.GetOperationStatus | main.py:206-214 | One read of the store; it answers the status specification |
| Operations.PollAfterSet | main.py:211-214 | A truthy stored record is what the poll returns |
| Operations.EmptyRecordIsNotFound | main.py:211-213 | An empty stored record polls as 404 |
| Operations.NothingStoredIsNotFound | operation_store.py:9-10 | With no file yet, every poll is a 404 |
| Operations.PollAfterTask | main.py:102-102 | A stored agent record is never empty, so the poll returns it |
| Operations.UnwrittenIsNotFound | main.py:97-104 | No record is written at schedule time: an unwritten id polls as 404 |
| Operations.RecordTask | main.py:97-102 | The background task stores the agent's reply under its id, and every other record is kept |
| Operations.GenerationIgnoresDetectedLanguage | main.py:134-140 | As written, the pipeline agent gets the analysis reply's data, which holds no "language" key, so every repository gets the default pipeline |
| Operations.GenerationUsesDetectedLanguage | main.py:134-140 | Passing the analysis record itself yields the detected language's pipeline |
| Operations.RunGeneration | main.py:134-140 | The generation task stores the template agent's reply for the analysis record |

## Left out

- Concurrency: the threading lock, the race between the lock-guarded read and the separate
  lock-guarded write, and the interleaving of background tasks are not modelled. Every store
  access is one atomic step.
- asyncio plumbing: the `Queue`, the `Future` objects, `create_task` and `run_in_executor`.
  The gateway is a sequential queue processed to the end; each resolved future is a trace entry.
- Clocks: time is integer milliseconds given as parameters. Request durations are parameters,
  and each sleep advances the clock exactly.
- BaseAgent.Wait: the fractional-second float arithmetic of `total_seconds()` is replaced by
  integer milliseconds.
- Serialisation: JSON encoding and file I/O. The backing file is a datatype with Missing,
  Unparseable and Stored cases.
- Foreign parsers: `yaml.safe_load`, `json.loads` and `ast.literal_eval` are oracles returning
  a result or an error.
- GitLab, OpenAI and Google Cloud SDK calls are oracles. The OpenAI prompts of the generator and
  of the review summary are folded into those oracles.
- The web framework: FastAPI routing, CORS, pydantic models, `BackgroundTasks` and the
  synchronous HTTP 500 answers of the endpoints.
- `_get_template` file reading and all `print` logging.
- CodeAnalysis.Execute: for a found project it states only that success depends on the tree
  listing; the content of the success record is stated by CodeAnalysis.AnalyzeProject.
- CodeReview.ReviewFile: when a decoded reply fails part way through, the lists extended before
  the failure are not kept. The final record does not depend on them, because a failure forces
  the mock result.
- Operations.RunGeneration: it uses the corrected context from the finding below; the code as
  written is stated by Operations.GenerationIgnoresDetectedLanguage.
- Deployment.CloudRecord: reports the registry and service names that were requested; the
  model takes the Artifact Registry and Cloud Run APIs to return resources under those names.
- CodeReview.AddScore: Python floats are IEEE doubles and are modelled as exact reals, so
  `total_score +=` never rounds here; the NaN and Infinity that `json.loads` accepts have no
  counterpart in the JSON values.
- CodeReview.FinalRecord: the mean `total_score / files_reviewed` is an exact rational (a total
  of 10 over 3 files is 10/3 here, 3.3333333333333335 in Python).
- Strings.Lower: ASCII letters only; Unicode case mapping is not modelled.
- Deployment: the Cloud Run service body (ports, CPU and memory limits) is reduced to the image
  it runs.

## Findings

| source | as written | input that shows it | evidently intended | confidence | as-written member | corrected member |
|---|---|---|---|---|---|---|
| main.py:136 | The generate endpoint hands the pipeline agent `analysis_result["data"]`, whose keys are "structure", "dependencies" and "analysis" | any repository with a detected language, e.g. a Python project with requirements.txt | pass `analysis_result["data"]["analysis"]`, whose "language" picks the image and commands | high, not executed | Operations.GenerationIgnoresDetectedLanguage | Operations.GenerationUsesDetectedLanguage |
