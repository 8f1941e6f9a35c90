/**
 * The records and enumerations of the backend's data model (the SQLModel
 * tables), with the defaults a freshly constructed row gets.
 */
module Models {
  import opened Wrappers
  import opened Json

  /** Timestamps are copied around, never computed with: the model carries
      them as their ISO-8601 text. */
  type Timestamp = string

  /** The four answer shapes an exercise can ask for. */
  datatype AnswerType = FreeText | TrueFalse | SingleChoice | Ranking

  /** The wire code of an answer type. */
  function AnswerTypeCode(t: AnswerType): string {
    match t
    case FreeText => "free_text"
    case TrueFalse => "true_false"
    case SingleChoice => "single_choice"
    case Ranking => "ranking"
  }

  /** `AnswerType(code)`: the member with that code, or a ValueError. */
  function ParseAnswerType(code: string): (r: Option<AnswerType>)
    ensures r.Some? ==> AnswerTypeCode(r.value) == code
  {
    if code == "free_text" then Some(FreeText)
    else if code == "true_false" then Some(TrueFalse)
    else if code == "single_choice" then Some(SingleChoice)
    else if code == "ranking" then Some(Ranking)
    else None
  }

  /** Every answer type is recovered from its code, so the four codes are
      distinct, and no other string names an answer type. */
  lemma AnswerTypeCodes(t: AnswerType, code: string)
    ensures ParseAnswerType(AnswerTypeCode(t)) == Some(t)
    ensures ParseAnswerType(code).Some? <==> code in {"free_text", "true_false", "single_choice", "ranking"}
  {
  }

  /** Lifecycle of an experiment. */
  datatype ExperimentStatus = Planned | Running | Finished | Failed

  function ExperimentStatusCode(s: ExperimentStatus): string {
    match s
    case Planned => "planned"
    case Running => "running"
    case Finished => "finished"
    case Failed => "failed"
  }

  /** Lifecycle of one run. */
  datatype RunStatus = Running | Completed | Failed

  function RunStatusCode(s: RunStatus): string {
    match s
    case Running => "running"
    case Completed => "completed"
    case Failed => "failed"
  }

  /** The status codes are pairwise distinct. */
  lemma StatusCodesDistinct(a: ExperimentStatus, b: ExperimentStatus, c: RunStatus, d: RunStatus)
    ensures ExperimentStatusCode(a) == ExperimentStatusCode(b) ==> a == b
    ensures RunStatusCode(c) == RunStatusCode(d) ==> c == d
  {
  }

  datatype Exercise = Exercise(
    id: Option<int>,
    questionText: string,
    answerType: AnswerType,
    createdAt: Timestamp)

  datatype ExerciseOption = ExerciseOption(
    id: Option<int>,
    exerciseId: int,
    text: string,
    position: int)

  /** The link row that bundles an exercise into an experiment. */
  datatype ExperimentExercise = ExperimentExercise(
    experimentId: int,
    exerciseId: int,
    position: int)

  datatype Experiment = Experiment(
    id: Option<int>,
    name: string,
    description: string,
    provider: string,
    model: string,
    temperature: real,
    runs: int,
    status: ExperimentStatus,
    createdAt: Timestamp)

  datatype Run = Run(
    id: Option<int>,
    experimentId: int,
    runIndex: int,
    provider: string,
    model: string,
    temperature: real,
    status: RunStatus,
    startedAt: Timestamp,
    completedAt: Option<Timestamp>)

  /** One normalised answer. `optionsJson` and `answerRanking` are the lists
      that the `options_json` and `answer_ranking_json` columns encode. */
  datatype BatchItem = BatchItem(
    id: Option<int>,
    runId: int,
    exerciseId: int,
    questionText: string,
    answerType: AnswerType,
    optionsJson: Option<seq<Json>>,
    answerText: Option<string>,
    answerBoolean: Option<bool>,
    answerOptionId: Option<Json>,
    answerRanking: Option<seq<Json>>,
    parseSuccess: bool)

  /** The stored provider keys. */
  datatype Settings = Settings(
    id: Option<int>,
    openaiKey: Option<string>,
    anthropicKey: Option<string>,
    geminiKey: Option<string>,
    grokKey: Option<string>,
    updatedAt: Timestamp)

  function Position(o: ExerciseOption): int { o.position }

  function LinkPosition(l: ExperimentExercise): int { l.position }

  /** `ExerciseOption(exercise_id=..., text=...)`. */
  function NewExerciseOption(exerciseId: int, text: string): (o: ExerciseOption)
    ensures o.position == 0 && o.id.None?
    ensures o.exerciseId == exerciseId && o.text == text
  {
    ExerciseOption(None, exerciseId, text, 0)
  }

  /** `ExperimentExercise(experiment_id=..., exercise_id=...)`. */
  function NewExperimentExercise(experimentId: int, exerciseId: int): (l: ExperimentExercise)
    ensures l.position == 0
    ensures l.experimentId == experimentId && l.exerciseId == exerciseId
  {
    ExperimentExercise(experimentId, exerciseId, 0)
  }

  /** `Experiment(name=..., provider=..., model=...)` created at `now`. */
  function NewExperiment(name: string, provider: string, model: string, now: Timestamp): (e: Experiment)
    ensures e.status == Planned && e.runs == 1 && e.description == "" && e.temperature == 0.0
    ensures e.id.None? && e.name == name && e.provider == provider && e.model == model && e.createdAt == now
  {
    Experiment(None, name, "", provider, model, 0.0, 1, Planned, now)
  }

  /** `Run(...)` for the given snapshot, started at `now`. */
  function NewRun(experimentId: int, runIndex: int, provider: string, model: string,
                  temperature: real, now: Timestamp): (r: Run)
    ensures r.status == RunStatus.Running && r.completedAt.None? && r.startedAt == now
    ensures r.id.None? && r.experimentId == experimentId && r.runIndex == runIndex
    ensures r.provider == provider && r.model == model && r.temperature == temperature
  {
    Run(None, experimentId, runIndex, provider, model, temperature, RunStatus.Running, now, None)
  }

  /** `BatchItem(...)` with only the required columns given. */
  function NewBatchItem(runId: int, exerciseId: int, questionText: string, answerType: AnswerType): (b: BatchItem)
    ensures b.parseSuccess
    ensures b.optionsJson.None? && b.answerText.None? && b.answerBoolean.None?
    ensures b.answerOptionId.None? && b.answerRanking.None?
    ensures b.id.None? && b.runId == runId && b.exerciseId == exerciseId
    ensures b.questionText == questionText && b.answerType == answerType
  {
    BatchItem(None, runId, exerciseId, questionText, answerType, None, None, None, None, None, true)
  }

  /** `Settings()` created at `now`: no provider key is set. */
  function NewSettings(now: Timestamp): (s: Settings)
    ensures s.openaiKey.None? && s.anthropicKey.None? && s.geminiKey.None? && s.grokKey.None?
    ensures s.id.None? && s.updatedAt == now
  {
    Settings(None, None, None, None, None, now)
  }
}
