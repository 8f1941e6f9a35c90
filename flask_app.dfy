/**
 * The Flask application: exercise templates, executions that ask one provider
 * the template's question `runs_requested` times, and the listing and CSV
 * export of an execution's runs. The database is the in-memory AppStore; the
 * provider call and the process environment are parameters.
 */
module FlaskApp {
  import opened Wrappers
  import opened Json
  import opened Text
  import opened Ordering

  type Timestamp = string

  datatype Template = Template(id: int, title: string, questionText: string, createdAt: Timestamp)

  datatype Execution = Execution(
    id: int,
    templateId: int,
    provider: string,
    model: string,
    temperature: real,
    runsRequested: int,
    createdAt: Timestamp)

  datatype ExerciseRun = ExerciseRun(
    id: int,
    executionId: int,
    runIndex: int,
    provider: string,
    model: string,
    questionText: string,
    answerText: string,
    createdAt: Timestamp)

  function RunIndex(r: ExerciseRun): int { r.runIndex }

  /** What a handler hands back to Flask: a status with a JSON body, or an
      exception that escapes the handler (a 500 page). */
  datatype HttpReply = Answered(status: int, body: Json) | Crashed

  function ErrorBody(message: string): Json {
    JObj([("error", JStr(message))])
  }

  /** The outcome of a handler's input checks. */
  datatype Check<+T> = Pass(value: T) | Reject(message: string) | Crash

  /** `request.get_json() or {}`. */
  function RequestData(body: Json): Json {
    if Truthy(body) then body else EmptyObj
  }

  /** `data.get(key)` on a dict. */
  function Field(data: Json, key: string): Json
    requires data.JObj?
  {
    Lookup(data.members, key).GetOr(JNull)
  }

  /** `(data.get(key) or "").strip()`: None when the value is a truthy
      non-string, which has no `strip`. */
  function StrippedField(data: Json, key: string): (r: Option<string>)
    requires data.JObj?
    ensures r.Some? ==> Strip(r.value) == r.value
    ensures r.None? <==> Truthy(Field(data, key)) && !Field(data, key).JStr?
    ensures Field(data, key).JStr? ==> r == Some(Strip(Field(data, key).s))
    ensures !Truthy(Field(data, key)) ==> r == Some("")
  {
    var v := Field(data, key);
    if !Truthy(v) then Some("")
    else if v.JStr? then (StripIdempotent(v.s); Some(Strip(v.s)))
    else None
  }

  /** The checks of `create_template`: the stripped title and question text,
      both required. */
  function TemplateFields(body: Json): (r: Check<(string, string)>)
    ensures r.Pass? ==> r.value.0 != "" && r.value.1 != ""
                        && Strip(r.value.0) == r.value.0 && Strip(r.value.1) == r.value.1
    ensures r.Crash? <==> !RequestData(body).JObj?
                          || StrippedField(RequestData(body), "title").None?
                          || StrippedField(RequestData(body), "question_text").None?
    ensures r.Reject? ==> r.message == "Title and question text are required."
  {
    var data := RequestData(body);
    if !data.JObj? then Crash
    else
      var title := StrippedField(data, "title");
      var question := StrippedField(data, "question_text");
      if title.None? || question.None? then Crash
      else if title.value == "" || question.value == "" then Reject("Title and question text are required.")
      else Pass((title.value, question.value))
  }

  /** A string field reads back stripped, whether or not it is empty. */
  lemma StrippedString(data: Json, key: string, s: string)
    requires data.JObj? && Field(data, key) == JStr(s)
    ensures StrippedField(data, key) == Some(Strip(s))
  {
    if s == [] {
      assert Strip(s) == [];
    }
  }

  /** Once both fields are read, `create_template` refuses an empty one and
      otherwise keeps both. */
  lemma TemplateFromFields(data: Json, title: string, question: string)
    requires data.JObj? && Truthy(data)
    requires StrippedField(data, "title") == Some(title)
    requires StrippedField(data, "question_text") == Some(question)
    ensures TemplateFields(data)
            == if title == "" || question == "" then Reject("Title and question text are required.")
               else Pass((title, question))
  {
    assert RequestData(data) == data;
  }

  /** Whatever surrounds the title and question with whitespace, the stored
      template keeps only the trimmed text; blank text is refused. */
  lemma TemplateFieldsTrim(title: string, question: string)
    ensures var r := TemplateFields(JObj([("title", JStr(title)), ("question_text", JStr(question))]));
            && (Strip(title) != "" && Strip(question) != "" ==> r == Pass((Strip(title), Strip(question))))
            && (Strip(title) == "" || Strip(question) == "" ==> r == Reject("Title and question text are required."))
  {
    var members := [("title", JStr(title)), ("question_text", JStr(question))];
    var data := JObj(members);
    LookupAt(members, 0);
    LookupAt(members, 1);
    StrippedString(data, "title", title);
    StrippedString(data, "question_text", question);
    TemplateFromFields(data, Strip(title), Strip(question));
  }

  /** Python's `int(v)` for a decoded JSON value; None is a TypeError or
      ValueError. */
  function PyInt(v: Json): (r: Option<int>)
    ensures v.JInt? ==> r == Some(v.i)
    ensures v.JNull? || v.JArr? || v.JObj? ==> r.None?
  {
    match v
    case JNull => None
    case JBool(b) => Some(if b then 1 else 0)
    case JInt(i) => Some(i)
    case JStr(s) => ParseInt(s)
    case JArr(_) => None
    case JObj(_) => None
  }

  /** Python's `float(v)` for a decoded JSON value. */
  function PyFloat(v: Json): (r: Option<real>)
    ensures v.JInt? ==> r == Some(v.i as real)
    ensures PyInt(v).Some? ==> r == Some(PyInt(v).value as real)
  {
    match v
    case JNull => None
    case JBool(b) => Some(if b then 1.0 else 0.0)
    case JInt(i) => Some(i as real)
    case JStr(s) => ParseDecimal(s)
    case JArr(_) => None
    case JObj(_) => None
  }

  const Providers: set<string> := {"openai", "anthropic", "gemini", "grok"}

  /** A request to start an execution, once its fields are converted. */
  datatype ExecutionRequest = ExecutionRequest(
    templateId: int,
    runsRequested: int,
    temperature: real,
    provider: string,
    model: string)

  /** The numeric conversions of `start_execution`. */
  predicate NumbersConvert(data: Json)
    requires data.JObj?
  {
    && PyInt(Field(data, "template_id")).Some?
    && PyInt(Field(data, "runs_requested")).Some?
    && PyFloat(Field(data, "temperature")).Some?
  }

  /** The checks `start_execution` makes before it touches the database:
      numbers first, then provider, model and run count. */
  function ParseExecutionRequest(body: Json): (r: Check<ExecutionRequest>)
    ensures r.Pass? ==> && r.value.provider in Providers
                        && r.value.model != "" && Strip(r.value.model) == r.value.model
                        && r.value.runsRequested >= 1
    ensures !RequestData(body).JObj? ==> r.Crash?
    ensures RequestData(body).JObj? && !NumbersConvert(RequestData(body)) ==> r == Reject("Invalid numeric input.")
    ensures r.Crash? <==> !RequestData(body).JObj?
                          || (&& NumbersConvert(RequestData(body))
                              && (StrippedField(RequestData(body), "provider").None?
                                  || StrippedField(RequestData(body), "model").None?))
    ensures var data := RequestData(body);
            data.JObj? && NumbersConvert(data)
            && StrippedField(data, "provider").Some? && StrippedField(data, "model").Some? ==>
              var provider := Lower(StrippedField(data, "provider").value);
              var model := StrippedField(data, "model").value;
              var runs := PyInt(Field(data, "runs_requested")).value;
              r == if provider !in Providers then Reject("Invalid provider.")
                   else if model == "" then Reject("Model is required.")
                   else if runs < 1 then Reject("Runs must be at least 1.")
                   else Pass(ExecutionRequest(PyInt(Field(data, "template_id")).value, runs,
                                              PyFloat(Field(data, "temperature")).value, provider, model))
    ensures r.Reject? ==> r.message in {"Invalid numeric input.", "Invalid provider.", "Model is required.", "Runs must be at least 1."}
    ensures r.Pass? ==> var data := RequestData(body);
                        && data.JObj?
                        && PyInt(Field(data, "template_id")) == Some(r.value.templateId)
                        && PyInt(Field(data, "runs_requested")) == Some(r.value.runsRequested)
                        && PyFloat(Field(data, "temperature")) == Some(r.value.temperature)
                        && StrippedField(data, "provider").Some?
                        && r.value.provider == Lower(StrippedField(data, "provider").value)
                        && StrippedField(data, "model") == Some(r.value.model)
  {
    var data := RequestData(body);
    if !data.JObj? then Crash
    else if !NumbersConvert(data) then Reject("Invalid numeric input.")
    else
      var templateId := PyInt(Field(data, "template_id")).value;
      var runsRequested := PyInt(Field(data, "runs_requested")).value;
      var temperature := PyFloat(Field(data, "temperature")).value;
      match StrippedField(data, "provider")
      case None => Crash
      case Some(stripped) =>
        var provider := Lower(stripped);
        match StrippedField(data, "model")
        case None => Crash
        case Some(model) =>
          if provider !in Providers then Reject("Invalid provider.")
          else if model == "" then Reject("Model is required.")
          else if runsRequested < 1 then Reject("Runs must be at least 1.")
          else Pass(ExecutionRequest(templateId, runsRequested, temperature, provider, model))
  }

  /** A dict whose fields convert, name a known provider and a model, and
      ask for at least one run passes every check of `start_execution`. */
  lemma ParseFromFields(data: Json, templateId: int, runs: int, temperature: real, provider: string, model: string)
    requires data.JObj? && Truthy(data)
    requires PyInt(Field(data, "template_id")) == Some(templateId)
    requires PyInt(Field(data, "runs_requested")) == Some(runs)
    requires PyFloat(Field(data, "temperature")) == Some(temperature)
    requires StrippedField(data, "provider") == Some(provider) && Lower(provider) in Providers
    requires StrippedField(data, "model") == Some(model) && model != "" && runs >= 1
    ensures ParseExecutionRequest(data) == Pass(ExecutionRequest(templateId, runs, temperature, Lower(provider), model))
  {
    assert RequestData(data) == data;
    assert NumbersConvert(data);
  }

  /** The five fields of a request body written out in the order the
      browser sends them. */
  function RequestBody(templateId: string, runs: string, temperature: Json, provider: string, model: string): (data: Json)
    ensures data.JObj? && Truthy(data)
  {
    JObj([
      ("template_id", JStr(templateId)),
      ("runs_requested", JStr(runs)),
      ("temperature", temperature),
      ("provider", JStr(provider)),
      ("model", JStr(model))])
  }

  /** Each field of the request body reads back as written: the numbers. */
  lemma RequestBodyNumbers(templateId: string, runs: string, temperature: Json, provider: string, model: string)
    ensures var data := RequestBody(templateId, runs, temperature, provider, model);
            && Field(data, "template_id") == JStr(templateId)
            && Field(data, "runs_requested") == JStr(runs)
            && Field(data, "temperature") == temperature
  {
    var members := RequestBody(templateId, runs, temperature, provider, model).members;
    LookupAt(members, 0);
    LookupAt(members, 1);
    LookupAt(members, 2);
  }

  /** Each field of the request body reads back as written: the names. */
  lemma RequestBodyNames(templateId: string, runs: string, temperature: Json, provider: string, model: string)
    ensures var data := RequestBody(templateId, runs, temperature, provider, model);
            && Field(data, "provider") == JStr(provider)
            && Field(data, "model") == JStr(model)
  {
    var members := RequestBody(templateId, runs, temperature, provider, model).members;
    LookupAt(members, 3);
    LookupAt(members, 4);
  }

  /** A request whose numbers are sent as decimal text, whose provider is
      padded or in capitals and whose model is padded is read back to the
      values sent, provider lower-cased and model trimmed. */
  lemma RequestRoundTrip(templateId: int, runs: int, temperature: int, provider: string, model: string)
    requires Lower(Strip(provider)) in Providers
    requires Strip(model) != "" && runs >= 1
    ensures ParseExecutionRequest(RequestBody(IntToString(templateId), IntToString(runs), JInt(temperature), provider, model))
            == Pass(ExecutionRequest(templateId, runs, temperature as real, Lower(Strip(provider)), Strip(model)))
  {
    var data := RequestBody(IntToString(templateId), IntToString(runs), JInt(temperature), provider, model);
    RequestBodyNumbers(IntToString(templateId), IntToString(runs), JInt(temperature), provider, model);
    RequestBodyNames(IntToString(templateId), IntToString(runs), JInt(temperature), provider, model);
    IntToStringRoundTrip(templateId);
    IntToStringRoundTrip(runs);
    StrippedString(data, "provider", provider);
    StrippedString(data, "model", model);
    ParseFromFields(data, templateId, runs, temperature as real, Strip(provider), Strip(model));
  }

  /** The environment variable holding each provider's key. */
  function RequiredKey(provider: string): string
    requires provider in Providers
  {
    if provider == "openai" then "OPENAI_API_KEY"
    else if provider == "anthropic" then "ANTHROPIC_API_KEY"
    else if provider == "gemini" then "GEMINI_API_KEY"
    else "GROK_API_KEY"
  }

  /** `os.environ.get(key)` is set and non-empty. */
  predicate KeyPresent(env: map<string, string>, key: string) {
    key in env && env[key] != ""
  }

  function MissingKeyMessage(provider: string): string
    requires provider in Providers
  {
    "Missing API key for " + provider + ". Set " + RequiredKey(provider) + "."
  }

  /** `call_model` answered for every run index 1..n. */
  predicate AllAnswered(callModel: int -> Option<string>, n: int) {
    forall idx :: 1 <= idx <= n ==> callModel(idx).Some?
  }

  /** The rows of runs 1..count of an execution, ids from `firstRunId` on. */
  function PlannedRuns(executionId: int, firstRunId: int, req: ExecutionRequest, questionText: string,
                       callModel: int -> Option<string>, now: Timestamp, count: nat): (r: seq<ExerciseRun>)
    requires AllAnswered(callModel, count)
    ensures |r| == count
    ensures forall i :: 0 <= i < count ==>
              && r[i].id == firstRunId + i && r[i].executionId == executionId && r[i].runIndex == i + 1
              && r[i].provider == req.provider && r[i].model == req.model
              && r[i].questionText == questionText && r[i].answerText == callModel(i + 1).value
  {
    if count == 0 then []
    else PlannedRuns(executionId, firstRunId, req, questionText, callModel, now, count - 1)
         + [ExerciseRun(firstRunId + count - 1, executionId, count, req.provider, req.model,
                        questionText, callModel(count).value, now)]
  }

  /** The run loop of `start_execution`: `call_model` once per run index
      1..N, each answer becoming a pending run; a call that raises stops the
      loop and nothing is kept. */
  method AskAll(executionId: int, firstRunId: int, req: ExecutionRequest, questionText: string,
                callModel: int -> Option<string>, now: Timestamp)
    returns (pending: seq<ExerciseRun>, answered: bool)
    requires req.runsRequested >= 1
    ensures answered == AllAnswered(callModel, req.runsRequested)
    ensures answered ==> pending == PlannedRuns(executionId, firstRunId, req, questionText, callModel, now, req.runsRequested)
  {
    pending := [];
    answered := true;
    var idx := 1;
    while idx <= req.runsRequested && answered
      invariant 1 <= idx <= req.runsRequested + 1
      invariant AllAnswered(callModel, idx - 1)
      invariant pending == PlannedRuns(executionId, firstRunId, req, questionText, callModel, now, idx - 1)
      invariant !answered ==> idx <= req.runsRequested && callModel(idx).None?
      decreases req.runsRequested + 1 - idx, if answered then 1 else 0
    {
      var answer := callModel(idx);
      if answer.None? {
        answered := false;
      } else {
        pending := pending + [ExerciseRun(firstRunId + idx - 1, executionId, idx, req.provider, req.model,
                                          questionText, answer.value, now)];
        idx := idx + 1;
      }
    }
  }

  /** What `start_execution` leaves behind once the request has passed its
      checks: 404 for a missing template, 400 for a missing key (nothing
      stored in either case); otherwise a new execution row, and then either
      all N runs with a 201 reply, or, when a provider call raised, no run at
      all and the exception escaping. */
  predicate LaunchOutcome(templates: map<int, Template>, executions: map<int, Execution>, nextExecutionId: int,
                          runs: seq<ExerciseRun>, nextRunId: int,
                          req: ExecutionRequest, env: map<string, string>, callModel: int -> Option<string>, now: Timestamp,
                          reply: HttpReply, executions': map<int, Execution>, nextExecutionId': int,
                          runs': seq<ExerciseRun>, nextRunId': int)
    requires req.provider in Providers && req.runsRequested >= 1
  {
    if req.templateId !in templates then
      && reply == Answered(404, ErrorBody("Template not found."))
      && executions' == executions && nextExecutionId' == nextExecutionId && runs' == runs && nextRunId' == nextRunId
    else if !KeyPresent(env, RequiredKey(req.provider)) then
      && reply == Answered(400, ErrorBody(MissingKeyMessage(req.provider)))
      && executions' == executions && nextExecutionId' == nextExecutionId && runs' == runs && nextRunId' == nextRunId
    else
      var id := nextExecutionId;
      && executions' == executions[id := Execution(id, req.templateId, req.provider, req.model,
                                                   req.temperature, req.runsRequested, now)]
      && nextExecutionId' == id + 1
      && if AllAnswered(callModel, req.runsRequested) then
           && runs' == runs + PlannedRuns(id, nextRunId, req, templates[req.templateId].questionText, callModel, now, req.runsRequested)
           && nextRunId' == nextRunId + req.runsRequested
           && reply == Answered(201, JObj([("execution_id", JInt(id)), ("runs_created", JInt(req.runsRequested))]))
         else
           && reply == Crashed
           && runs' == runs && nextRunId' == nextRunId
  }

  /** The runs of one execution, in storage order. */
  function RunsOf(runs: seq<ExerciseRun>, executionId: int): seq<ExerciseRun> {
    if runs == [] then []
    else RunsOf(runs[..|runs| - 1], executionId)
         + (if runs[|runs| - 1].executionId == executionId then [runs[|runs| - 1]] else [])
  }

  /** `filter_by(execution_id=...).order_by(run_index.asc())`. */
  function RunsInOrder(runs: seq<ExerciseRun>, executionId: int): (r: seq<ExerciseRun>)
    ensures SortedBy(r, RunIndex)
    ensures multiset(r) == multiset(RunsOf(runs, executionId))
    ensures |r| == |RunsOf(runs, executionId)|
  {
    assert |multiset(SortBy(RunsOf(runs, executionId), RunIndex))| == |multiset(RunsOf(runs, executionId))|;
    SortBy(RunsOf(runs, executionId), RunIndex)
  }

  /** One entry of the run listing. */
  function RunJson(r: ExerciseRun): (j: Json)
    ensures j.JObj? && Lookup(j.members, "run_index") == Some(JInt(r.runIndex))
  {
    LookupAt(RunMembers(r), 1);
    JObj(RunMembers(r))
  }

  function RunMembers(r: ExerciseRun): seq<(string, Json)> {
    ([
      ("id", JInt(r.id)),
      ("run_index", JInt(r.runIndex)),
      ("provider", JStr(r.provider)),
      ("model", JStr(r.model)),
      ("question_text", JStr(r.questionText)),
      ("answer_text", JStr(r.answerText)),
      ("created_at", JStr(r.createdAt))])
  }

  /** The CSV header row. */
  const CsvHeader: seq<string> := ["run_index", "provider", "model", "question_text", "answer_text", "created_at"]

  /** One CSV row, in the header's field order. */
  function CsvRow(r: ExerciseRun): (row: seq<string>)
    ensures |row| == |CsvHeader|
  {
    [IntToString(r.runIndex), r.provider, r.model, r.questionText, r.answerText, r.createdAt]
  }

  /** The first cell of a row reads back as the run index. */
  lemma CsvRowIndex(r: ExerciseRun)
    ensures ParseInt(CsvRow(r)[0]) == Some(r.runIndex)
  {
    IntToStringRoundTrip(r.runIndex);
  }

  lemma {:induction false} RunsOfAppend(a: seq<ExerciseRun>, b: seq<ExerciseRun>, id: int)
    ensures RunsOf(a + b, id) == RunsOf(a, id) + RunsOf(b, id)
    decreases |b|
  {
    if b == [] {
      assert a + b == a;
    } else {
      assert (a + b)[..|a + b| - 1] == a + b[..|b| - 1];
      RunsOfAppend(a, b[..|b| - 1], id);
    }
  }

  lemma {:induction false} RunsOfNone(a: seq<ExerciseRun>, id: int)
    requires forall i :: 0 <= i < |a| ==> a[i].executionId != id
    ensures RunsOf(a, id) == []
  {
    if a != [] {
      RunsOfNone(a[..|a| - 1], id);
    }
  }

  lemma {:induction false} RunsOfAll(a: seq<ExerciseRun>, id: int)
    requires forall i :: 0 <= i < |a| ==> a[i].executionId == id
    ensures RunsOf(a, id) == a
  {
    if a != [] {
      RunsOfAll(a[..|a| - 1], id);
    }
  }

  /** The listing of a freshly started execution shows exactly its new runs,
      run 1 first. */
  lemma FreshExecutionListing(oldRuns: seq<ExerciseRun>, executionId: int, firstRunId: int, req: ExecutionRequest,
                              questionText: string, callModel: int -> Option<string>, now: Timestamp, n: nat)
    requires forall i :: 0 <= i < |oldRuns| ==> oldRuns[i].executionId != executionId
    requires AllAnswered(callModel, n)
    ensures RunsInOrder(oldRuns + PlannedRuns(executionId, firstRunId, req, questionText, callModel, now, n), executionId)
            == PlannedRuns(executionId, firstRunId, req, questionText, callModel, now, n)
  {
    var planned := PlannedRuns(executionId, firstRunId, req, questionText, callModel, now, n);
    RunsOfAppend(oldRuns, planned, executionId);
    RunsOfNone(oldRuns, executionId);
    RunsOfAll(planned, executionId);
    assert [] + planned == planned;
    assert SortedBy(planned, RunIndex);
    SortBySorted(planned, RunIndex);
  }

  /** The Flask database. */
  class AppStore {
    var templates: map<int, Template>
    var nextTemplateId: int
    var executions: map<int, Execution>
    var nextExecutionId: int
    var runs: seq<ExerciseRun>
    var nextRunId: int

    /** Ids handed out so far are below the next one, and every run belongs
        to an existing execution. */
    ghost predicate Valid()
      reads this
    {
      && (forall id :: id in templates ==> id < nextTemplateId)
      && (forall id :: id in executions ==> id < nextExecutionId)
      && (forall i :: 0 <= i < |runs| ==> runs[i].executionId in executions)
    }

    constructor()
      ensures Valid()
      ensures templates == map[] && executions == map[] && runs == []
      ensures nextTemplateId == 1 && nextExecutionId == 1 && nextRunId == 1
    {
      templates := map[];
      nextTemplateId := 1;
      executions := map[];
      nextExecutionId := 1;
      runs := [];
      nextRunId := 1;
    }

    /** `POST /api/templates`. */
    method CreateTemplate(body: Json, now: Timestamp) returns (reply: HttpReply)
      requires Valid()
      modifies this
      ensures Valid()
      ensures executions == old(executions) && nextExecutionId == old(nextExecutionId)
      ensures runs == old(runs) && nextRunId == old(nextRunId)
      ensures TemplateFields(body).Crash? ==>
                reply == Crashed && templates == old(templates) && nextTemplateId == old(nextTemplateId)
      ensures TemplateFields(body).Reject? ==>
                && reply == Answered(400, ErrorBody(TemplateFields(body).message))
                && templates == old(templates) && nextTemplateId == old(nextTemplateId)
      ensures TemplateFields(body).Pass? ==>
                var id := old(nextTemplateId);
                var fields := TemplateFields(body).value;
                && id !in old(templates)
                && templates == old(templates)[id := Template(id, fields.0, fields.1, now)]
                && nextTemplateId == id + 1
                && reply == Answered(201, JObj([("id", JInt(id))]))
    {
      match TemplateFields(body)
      case Crash =>
        reply := Crashed;
      case Reject(message) =>
        reply := Answered(400, ErrorBody(message));
      case Pass((title, question)) =>
        var id := nextTemplateId;
        templates := templates[id := Template(id, title, question, now)];
        nextTemplateId := id + 1;
        reply := Answered(201, JObj([("id", JInt(id))]));
    }

    /** `POST /api/executions`: the input checks, the template lookup, the key
        lookup, then the execution row (committed at once) and one run per
        index 1..N, committed together after the last provider call. A
        provider call that raises escapes the handler: the execution row
        stays, none of its runs is stored. */
    method StartExecution(body: Json, env: map<string, string>, callModel: int -> Option<string>, now: Timestamp)
      returns (reply: HttpReply)
      requires Valid()
      modifies this
      ensures Valid()
      ensures templates == old(templates) && nextTemplateId == old(nextTemplateId)
      ensures ParseExecutionRequest(body).Crash? ==>
                && reply == Crashed
                && executions == old(executions) && nextExecutionId == old(nextExecutionId)
                && runs == old(runs) && nextRunId == old(nextRunId)
      ensures ParseExecutionRequest(body).Reject? ==>
                && reply == Answered(400, ErrorBody(ParseExecutionRequest(body).message))
                && executions == old(executions) && nextExecutionId == old(nextExecutionId)
                && runs == old(runs) && nextRunId == old(nextRunId)
      ensures ParseExecutionRequest(body).Pass? ==>
                var req := ParseExecutionRequest(body).value;
                LaunchOutcome(old(templates), old(executions), old(nextExecutionId), old(runs), old(nextRunId),
                              req, env, callModel, now,
                              reply, executions, nextExecutionId, runs, nextRunId)
    {
      var check := ParseExecutionRequest(body);
      if check.Crash? {
        reply := Crashed;
      } else if check.Reject? {
        reply := Answered(400, ErrorBody(check.message));
      } else {
        reply := Launch(check.value, env, callModel, now);
      }
    }

    /** The part of `start_execution` after the input checks: the template
        lookup, the key lookup, the execution row, then the runs. */
    method Launch(req: ExecutionRequest, env: map<string, string>, callModel: int -> Option<string>, now: Timestamp)
      returns (reply: HttpReply)
      requires Valid()
      requires req.provider in Providers && req.runsRequested >= 1
      modifies this
      ensures Valid()
      ensures templates == old(templates) && nextTemplateId == old(nextTemplateId)
      ensures LaunchOutcome(old(templates), old(executions), old(nextExecutionId), old(runs), old(nextRunId),
                            req, env, callModel, now,
                            reply, executions, nextExecutionId, runs, nextRunId)
    {
      if req.templateId !in templates {
        reply := Answered(404, ErrorBody("Template not found."));
      } else if !KeyPresent(env, RequiredKey(req.provider)) {
        reply := Answered(400, ErrorBody(MissingKeyMessage(req.provider)));
      } else {
        var template := templates[req.templateId];
        var id := nextExecutionId;
        executions := executions[id := Execution(id, req.templateId, req.provider, req.model,
                                                 req.temperature, req.runsRequested, now)];
        nextExecutionId := id + 1;
        var pending, answered := AskAll(id, nextRunId, req, template.questionText, callModel, now);
        if answered {
          assert forall i :: 0 <= i < |pending| ==> pending[i].executionId == id;
          runs := runs + pending;
          nextRunId := nextRunId + |pending|;
          reply := Answered(201, JObj([("execution_id", JInt(id)), ("runs_created", JInt(|pending|))]));
        } else {
          reply := Crashed;
        }
      }
    }

    /** `GET /api/executions/<id>/runs`: the execution's runs by ascending
        run index. */
    function ListRuns(executionId: int): (r: seq<Json>)
      reads this
      ensures |r| == |RunsInOrder(runs, executionId)|
      ensures forall i :: 0 <= i < |r| ==>
                r[i].JObj? && Lookup(r[i].members, "run_index") == Some(JInt(RunsInOrder(runs, executionId)[i].runIndex))
    {
      var ordered := RunsInOrder(runs, executionId);
      seq(|ordered|, i requires 0 <= i < |ordered| => RunJson(ordered[i]))
    }

    /** `GET /api/executions/<id>/runs/csv`: the header, then one row per run
        in the listing's order. */
    method ExportRunsCsv(executionId: int) returns (table: seq<seq<string>>)
      ensures |table| == 1 + |RunsInOrder(runs, executionId)|
      ensures table[0] == CsvHeader
      ensures forall i :: 1 <= i < |table| ==> table[i] == CsvRow(RunsInOrder(runs, executionId)[i - 1])
    {
      var ordered := RunsInOrder(runs, executionId);
      table := [CsvHeader];
      for i := 0 to |ordered|
        invariant |table| == 1 + i
        invariant table[0] == CsvHeader
        invariant forall k :: 1 <= k < |table| ==> table[k] == CsvRow(ordered[k - 1])
      {
        table := table + [CsvRow(ordered[i])];
      }
    }
  }

  /** The first column of the export reads back as the run indices of the
      listing, in ascending order. */
  lemma CsvIndexColumn(runs: seq<ExerciseRun>, executionId: int, table: seq<seq<string>>)
    requires |table| == 1 + |RunsInOrder(runs, executionId)|
    requires forall i :: 1 <= i < |table| ==> table[i] == CsvRow(RunsInOrder(runs, executionId)[i - 1])
    ensures forall i :: 1 <= i < |table| ==> |table[i]| == 6 && ParseInt(table[i][0]).Some?
    ensures forall i, j :: 1 <= i < j < |table| ==> ParseInt(table[i][0]).value <= ParseInt(table[j][0]).value
  {
    var ordered := RunsInOrder(runs, executionId);
    forall i | 1 <= i < |table|
      ensures |table[i]| == 6 && ParseInt(table[i][0]).Some?
    {
      CsvRowIndex(ordered[i - 1]);
    }
    forall i, j | 1 <= i < j < |table|
      ensures ParseInt(table[i][0]).value <= ParseInt(table[j][0]).value
    {
      CsvRowIndex(ordered[i - 1]);
      CsvRowIndex(ordered[j - 1]);
    }
  }
}
