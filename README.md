# AIBench core, modelled in Dafny

AIBench poses typed exercises (free text, true/false, single choice, ranking)
to language-model providers and stores what comes back. This project models
two parts of it.

- **The experiment backend** (`backend/main.py`, `backend/models.py`):
  - `create_experiment` validates a payload, stores a planned experiment and
    links each chosen exercise at positions 0, 1, 2, ...
  - `execute_experiment` sets the experiment to running and loads its
    exercises in link order, each with its options in position order.
  - For each run 1..N it stores a running `Run`. It then stores one
    `BatchItem` per exercise: it builds the prompt, asks the provider (or
    takes the deterministic fallback reply), and coerces the reply into the
    column of the exercise's answer type together with a `parse_success`
    flag. Then it marks the run completed.
  - The experiment ends `finished`, or `failed` when persistence fails.
  - `list_batch_items` shows each item with the answer of its own type.
- **The Flask application** (`app.py`):
  - `create_template` stores a template with a stripped title and question.
  - `start_execution` validates its form and looks up the template and the
    provider's key. It stores the execution, asks the model once per run
    index, and commits all runs together.
  - `list_runs` and `export_runs_csv` list an execution's runs by ascending
    run index, as JSON or as six-column CSV rows.

The databases are the classes `Executor.Store` and `FlaskApp.AppStore`.
Their tables are maps and sequences. Experiment, run and batch-item ids
come from counters, as autoincrement keys do: the items of a run get theirs,
in the order they were added, at the commit that completes the run. Everything outside the model is a parameter:

- the provider calls (`openai: (int, int) -> Reply`, indexed by run and
  exercise slot; `callModel: int -> Option<string>`, indexed by run);
- the process environment;
- the clock (`now`);
- a persistence fault (`fault: Option<nat>`).

JSON values are the datatype `Json.Json`. An object is a list of key/value
pairs, and lookup takes the last binding, as `json.loads` does. Python's
`dict.get` on a non-dict raises, and the model says so (`Eval.Raises`).

The Python runtime pieces used are modelled in `Text`, `Json` and `Ordering`:
`str.strip`, `str.lower` (as far as it can yield an ASCII letter), `int(s)`,
`float(s)`, `str(x)`, truthiness, and a sort by an integer key for
`ORDER BY`.

Two behaviours of the code are worth spelling out:

- `execute_experiment` (backend/main.py:223-269) has no guard on the
  experiment's status, so a second call for the same experiment appends
  another N runs and their items. `Executor.Store.ExecuteExperiment` states
  that behaviour.
- A fault-free execution writes N items for each link whose exercise exists
  (`Executor.BatchCount`); links to missing exercises are skipped. So N x K
  items are written for K linked exercises only when no commit fails and all
  K exercises exist (`Executor.FullBatchCount`). A persistence fault stops the
  loop early (`Executor.Store.RunAll`).

## Model

| member | source | states |
|---|---|---|
| Models.ParseAnswerType | backend/models.py:8-12 | reading an answer-type code yields a type whose code is that text |
| Models.AnswerTypeCodes | backend/models.py:8-12 | every answer type's code reads back as that type, and exactly the four codes `free_text`, `true_false`, `single_choice`, `ranking` are accepted |
| Models.StatusCodesDistinct | backend/models.py:39-62 | distinct experiment statuses, and distinct run statuses, have distinct codes |
| Models.NewExerciseOption | backend/models.py:23-27 | a new option is at position 0 and has no id yet |
| Models.NewExperimentExercise | backend/models.py:31-34 | a new link is at position 0 |
| Models.NewExperiment | backend/models.py:46-55 | a new experiment is planned, with 1 run, an empty description and temperature 0 |
| Models.NewRun | backend/models.py:65-74 | a new run is running, started now, and not completed |
| Models.NewBatchItem | backend/models.py:77-88 | a new item has every answer column and the options empty, and `parse_success` true |
| Models.NewSettings | backend/models.py:91-97 | new settings hold no provider key |
| Ordering.SortBy | backend/main.py:232-236 | `ORDER BY` on an integer key: the result is sorted by the key and is a permutation of its input |
| Ordering.SortByStable | backend/main.py:232-236 | among elements with equal keys, sorting keeps the input order |
| Ordering.SortBySorted | backend/main.py:241-245 | sorting rows that are already in key order leaves them unchanged |
| Json.Str | backend/main.py:189 | `str(x)` of a string is the string itself, and of `None` is `None` |
| Json.ReprReadsBack | backend/main.py:189 | the `repr` of an integer reads back as that integer, and that of a string is the string between single quotes, as `str` shows strings nested in lists and dicts |
| Prompt.ResponseTemplate | backend/main.py:86-104 | the template of each type is an object whose first key is the key the coercion reads for that type, holding placeholder text; single choice and ranking, and only they, add the options as id/text pairs |
| Prompt.BuildPrompt | backend/main.py:106-112 | the prompt is a JSON object with five fields |
| Prompt.PromptQuestion | backend/main.py:106-107 | the prompt's `question` is the exercise's question text |
| Prompt.PromptAnswerType | backend/main.py:108 | the prompt's `answer_type` is the code of the exercise's answer type |
| Prompt.PromptBody | backend/main.py:86-111 | the prompt lists the options as id/text pairs, carries the response template of the answer type and the JSON-only instruction |
| Prompt.TemplateAsksForAnswerKey | backend/main.py:86-104 | each answer type's response template is a non-empty object holding the very key the coercion reads back for that type |
| Prompt.EchoedPromptParses | backend/main.py:185-204 | a reply that keeps the prompt's shape is coerced without a parse failure |
| Prompt.GenerateModelResponse | backend/main.py:150-166 | the `openai` provider with a non-empty key gets exactly the outcome of the OpenAI call, and only that call can raise; every other request gets the fallback reply of its answer type |
| Prompt.FallbackReplyShape | backend/main.py:156-166 | the fallback reply is `{"response": {<key>: value}}` with exactly one member at each level, the key being the one the coercion reads for the answer type |
| Prompt.FallbackSection | backend/main.py:156-187 | the fallback reply is well shaped and the coercion reads its inner object |
| Prompt.FallbackAnswers | backend/main.py:156-166 | the fallback reply always parses and coerces to `""`, `True`, the first option's id (none without options), or the option ids in position order |
| Prompt.FallbackRankingOfOrderedOptions | backend/main.py:164-166 | for options already in position order, the fallback ranking is their ids in that order |
| Coercion.ResponseSectionCases | backend/main.py:187 | a non-dict reply raises; a truthy `response` is the section; without a truthy `response` and without `expected`, the section is the empty dict |
| Coercion.NormalizeBoolCases | backend/main.py:191-198 | the answer is empty exactly for null; a string whose stripped, lower-cased text is `true`, `yes` or `y` is true, one whose text is `false`, `no` or `n` is false; any other value is its truth value |
| Coercion.Extract | backend/main.py:188-204 | reading the answer raises exactly when the chosen section is not a dict, and otherwise sets only the column of the answer type |
| Coercion.ResponseSectionOf | backend/main.py:187 | choosing the section (`response`, else `expected.response`) succeeds with a dict exactly for well-shaped replies, and then yields `Section` |
| Coercion.Coerce | backend/main.py:172-206 | only the answer type's column is set; `parse_success` holds exactly when the call returned a well-shaped reply; a raising call gives free text `""` and nothing otherwise; an ill-shaped reply leaves every column empty |
| Coercion.CoerceWellShaped | backend/main.py:185-204 | for a well-shaped reply, free text is `str(text)` stripped (`""` when absent), true/false is the normalised `value`, single choice is `selected_option_id` verbatim, and a ranking is kept only when it is a list |
| Coercion.FreeTextIsStripped | backend/main.py:189-190 | a stored free-text answer never begins or ends with whitespace |
| Coercion.NormalizeBoolNone | backend/main.py:191-198 | the true/false answer is empty exactly when the value is null or absent |
| Coercion.NormalizeBoolIgnoresCase | backend/main.py:192-197 | matching the yes/no words ignores letter case |
| Coercion.NormalizeBoolIgnoresPadding | backend/main.py:192-198 | surrounding whitespace does not change the answer, except that a string of whitespace alone counts as true |
| Coercion.YesIsTrue | backend/main.py:191-198 | `{"response": {"value": "YES"}}` is the answer true and parses |
| Coercion.RankingIsKept | backend/main.py:201-204 | a ranking list is stored in its own order |
| Coercion.JsonStringReplyFails | backend/main.py:185-206 | a reply whose decoded JSON value is a string, not an object, is a parse failure with no answer |
| Coercion.LegacyShapeIsRead | backend/main.py:186-190 | without `response`, the legacy `expected.response` section is read |
| Executor.StoreBatchItem | backend/main.py:169-220 | the item belongs to the run, copies the exercise's id, question and type and the options as id/text pairs, and sets only the answer column of that type |
| Executor.StoredAnswer | backend/main.py:172-206 | the stored answer and flag are the coercion of the provider's reply; without a usable OpenAI key the item always parses, and an OpenAI call that raises never does |
| Executor.LinksOfMember | backend/main.py:232-236 | the link query keeps exactly the links of the experiment |
| Executor.OptionsOfMember | backend/main.py:241-245 | the option query keeps exactly the options of the exercise |
| Executor.WorkFor | backend/main.py:240-246 | a link whose exercise exists yields that exercise with exactly its options, sorted by position |
| Executor.Workload | backend/main.py:232-246 | the loaded work is, in position order of the experiment's links, one entry per link whose exercise exists, that exercise with its sorted options |
| Executor.Resolve | backend/main.py:238-246 | one entry at most per link; each entry is an existing exercise with exactly its options, sorted by position |
| Executor.PresentLinks | backend/main.py:238-240 | the kept links all have an existing exercise |
| Executor.PresentLinksMember | backend/main.py:238-240 | a link is kept exactly when it is one of the links and its exercise exists |
| Executor.ResolveIsPresentLinks | backend/main.py:238-246 | the entries are, in the links' order, one per link whose exercise exists (that exercise with its sorted options); links to missing exercises yield nothing |
| Executor.ResolveAllPresent | backend/main.py:238-246 | when every linked exercise exists, the entries follow the links one to one |
| Executor.CompletedRuns | backend/main.py:247-264 | the runs stored are indexed 1..N without gaps and each is completed with the experiment's provider, model and temperature |
| Executor.BatchesLength | backend/main.py:247-261 | every run stores exactly one item per loaded exercise |
| Executor.BatchesStep | backend/main.py:247-261 | the items of one more run follow those of the runs before it |
| Executor.NumberedAppend | backend/main.py:260-264 | numbering the items of successive runs one run at a time gives the ids a single numbering of all of them would |
| Executor.BatchesMatchExercises | backend/main.py:260-264 | stored item j of run i has the id that follows those of the items before it, answers exercise j, with its question and answer type, and sets only that type's column |
| Executor.RunsDone | backend/main.py:247-269 | without a fault every run is done, with a fault fewer runs are |
| Executor.Store.LoadWorkload | backend/main.py:232-246 | the loop that resolves the links computes the workload: links in position order, missing exercises skipped |
| Executor.BuildBatch | backend/main.py:260-261 | the loop over the loaded exercises produces one `store_batch_item` result per exercise, in order |
| Executor.Store.StoreBatch | backend/main.py:260-264 | one run's items are appended in exercise order with the next item ids, the item counter moves past them, and nothing else changes |
| Executor.Store.RecordRun | backend/main.py:248-264 | one run row is added, completed, with its numbered items after it |
| Executor.Store.RunAll | backend/main.py:247-264 | the loop stores completed runs 1..N with their items, numbered in storage order, or stops before the run whose commit fails, and reports whether it failed |
| Executor.Store.ExecuteExperiment | backend/main.py:223-269 | a missing experiment changes nothing; otherwise the runs and numbered items of the completed runs are appended and the experiment ends finished, or failed at a fault; there is no status guard; the store stays valid |
| Executor.LinksFor | backend/main.py:532-534 | link i links exercise id i of the payload at position i |
| Executor.CheckExperimentPayload | backend/main.py:510-519 | a 400 exactly when a known provider has no key, or no exercise is chosen; the key check comes first; unknown providers need no key |
| Executor.PlannedExperiment | backend/main.py:520-531 | the created experiment is planned under the given id, with the payload's name, description, provider, model, temperature and run count, created now |
| Executor.Store.CreateExperiment | backend/main.py:506-537 | a rejected payload changes nothing; a valid one adds a planned experiment under a fresh id, and then its links, unless an exercise id repeats, in which case the link commit fails and the experiment stays without links |
| Executor.CreatedExperimentWorkload | backend/main.py:532-535 | after a creation whose exercises all exist, execution works through exactly the payload's exercises in the payload's order |
| Executor.BatchCount | backend/main.py:238-261 | a fault-free execution writes, for each of its N runs, one item per link of the experiment whose exercise exists, whatever the provider calls return |
| Executor.FullBatchCount | backend/main.py:247-261 | a fault-free execution of a new experiment whose exercises all exist writes runs x exercises items, whatever the provider calls return |
| Executor.DisplayAnswer | backend/main.py:486-494 | the display answer is null exactly when the column of the item's own type is empty |
| Executor.DisplayOfStoredItem | backend/main.py:486-494 | whatever the provider returns, the listing shows the column of the exercise's type as the coercion of the reply set it, or null when it is empty |
| Executor.DisplayOfFallbackItem | backend/main.py:486-494 | without a usable OpenAI key, the listing shows `""`, `true`, the first option's id, or the option ids in position order |
| Executor.ListBatchItems | backend/main.py:474-503 | every item of the exercise in one of the experiment's runs is listed with its run's index, flag and display answer, and nothing else is |
| FlaskApp.StrippedField | app.py:78-79 | a field reads as its stripped text, or `""` when falsy; it crashes the handler exactly when the value is truthy and not a string |
| FlaskApp.TemplateFields | app.py:77-81 | both fields must be non-empty after stripping, or the handler answers 400 with its message; a non-dict body or a truthy non-string field crashes it |
| FlaskApp.TemplateFieldsTrim | app.py:78-81 | padded title and question are stored trimmed, and blank ones are refused |
| FlaskApp.PyInt | app.py:162-163 | `int()` of a JSON integer is itself; null, lists and dicts do not convert |
| FlaskApp.PyFloat | app.py:164 | `float()` agrees with `int()` wherever that converts |
| FlaskApp.ParseExecutionRequest | app.py:160-176 | a non-dict body crashes; numbers that do not convert give `Invalid numeric input.`; then a truthy non-string provider or model crashes; otherwise the outcome is `Invalid provider.`, `Model is required.`, `Runs must be at least 1.`, in that order, or a pass with the converted numbers, the trimmed lower-case provider and the trimmed model |
| FlaskApp.ParseFromFields | app.py:160-176 | a dict whose fields convert, with a known provider, a model and at least one run, passes with those values |
| FlaskApp.RequestRoundTrip | app.py:160-176 | numbers sent as decimal text come back as sent; the provider comes back trimmed and lower-cased, the model trimmed |
| FlaskApp.PlannedRuns | app.py:202-220 | run i has index i, the execution's provider and model, the template's question and the i-th answer |
| FlaskApp.AskAll | app.py:202-221 | the loop asks the model for indices 1..N and builds exactly the planned runs, unless a call raises |
| FlaskApp.AppStore.CreateTemplate | app.py:75-86 | a crash or a 400 stores nothing; a valid body stores the trimmed template under a fresh id and answers 201 with it |
| FlaskApp.AppStore.StartExecution | app.py:158-223 | invalid input stores nothing and answers 400 (or crashes); otherwise 404 for a missing template and 400 for a missing key, both storing nothing; else the execution is stored, then all N runs with a 201, or no run when a provider call raises |
| FlaskApp.AppStore.Launch | app.py:178-223 | the template, key, execution and run steps of `start_execution` for a validated request |
| FlaskApp.RunsInOrder | app.py:111-115 | the execution's runs sorted by run index, all of them and no others |
| FlaskApp.RunJson | app.py:117-125 | a listing entry is an object whose `run_index` is the run's index |
| FlaskApp.AppStore.ListRuns | app.py:109-127 | one entry per run of the execution, in ascending run index |
| FlaskApp.FreshExecutionListing | app.py:109-127 | right after a start, the listing is exactly the new runs, run 1 first |
| FlaskApp.CsvRow | app.py:141-148 | a row has as many cells as the header |
| FlaskApp.CsvRowIndex | app.py:142 | a row's first cell reads back as the run index |
| FlaskApp.AppStore.ExportRunsCsv | app.py:130-148 | the header, then one row per run in the listing's order |
| FlaskApp.CsvIndexColumn | app.py:130-148 | every exported row has six cells and its first column ascends |

## Left out

- The provider calls (`call_openai`, `call_model` and the HTTP requests behind them) are not modelled. Their outcome is a parameter: a decoded reply or an exception, or an answer string or an exception.
- FastAPI and Flask routing, request parsing into pydantic models, CORS, static files, sessions and the background-task queue are not modelled. `create_experiment`'s scheduling of the executor is not modelled either.
- The exercise, settings and listing endpoints other than those above are not modelled: `list_templates`, `list_executions`, the exercise CRUD, `update_settings`, `list_experiments`, `get_experiment` and `experiment_exercises`. Neither is the separate `backend/app` package (authentication, scenarios).
- Timestamps are opaque text and temperatures are reals that are only copied. `datetime.utcnow()` is the parameter `now`.
- JSON has no floating-point numbers here. `float(s)` accepts plain decimal notation only (no exponents, `inf` or `nan`). Neither `int(s)` nor `float(s)` accepts underscores or non-ASCII digits, as Python's do.
- FlaskApp.PyFloat: `float()` of an integer is its exact value. Python raises OverflowError for an integer at or beyond the double range (about 1.8 x 10^308). `start_execution` catches only TypeError and ValueError (app.py:165), so such a temperature makes the handler fail with a 500, where the model converts it.
- Json.Repr: an object prints every member, repeated keys included. The dict `json.loads` builds keeps each key once, with its last value, and prints only that. This matters only for `str()` of a free-text answer that is an object with a repeated key.
- `str.lower` is modelled only where it can produce an ASCII letter (`A`-`Z` and the Kelvin sign). The only uses are membership tests against ASCII words.
- `repr` does not model the escaping of quotes and control characters inside strings.
- Executor.Store.ExecuteExperiment: the SQL column types are not modelled. A single-choice answer is stored as whatever JSON value `selected_option_id` held (backend/main.py:200). An object or a list cannot be bound to the integer column (backend/models.py:85), so the flush at the completion commit (backend/main.py:264) would raise, and the `except` branch's own commit would then fail on a session that needs a rollback. The model stores the value and completes the run. A string or a real is kept as it was, where SQLite's type affinity might convert it.
- `ORDER BY` is modelled as a stable sort. SQL does not fix the order of equal keys.
- Executor.Store.ExecuteExperiment: a persistence fault is modelled only at the commit that sets the experiment running and at the commit that creates a run. The completion commit that would leave a run `running` is not modelled, and neither is a session rollback.
- Executor.Store.CreateExperiment: foreign keys are not enforced (SQLite's default). A link to a missing exercise is stored, and the executor skips it.
- FlaskApp.AppStore.StartExecution: `call_model` is taken to return a string. An answer of `None` for the non-null column is not modelled.
- FlaskApp.RunJson: its contract states only the `run_index` field of a listing entry. The other six fields are built but not stated.
- FlaskApp.AppStore.ListRuns: states each entry's `run_index` and the order, not the remaining fields of each entry.
- FlaskApp.CsvRow: states the row length and, through `FlaskApp.CsvRowIndex`, the first cell. The text cells are copies of the run's fields and are not restated.
- The CSV quoting done by `csv.writer` and the `send_file` download are not modelled. The export is the table of cells.
