/**
 * The batch executor of the typed-exercise backend: experiment creation
 * (`create_experiment`), the run loop (`execute_experiment`, one BatchItem per
 * resolved exercise per run) and the per-item answer shown by
 * `list_batch_items`. The database is the in-memory Store; row ids are handed
 * out in insertion order, as autoincrement keys are.
 */
module Executor {
  import opened Wrappers
  import opened Json
  import opened Models
  import opened Ordering
  import opened Coercion
  import opened Prompt
  import Text

  /** One exercise of an experiment, resolved: its id, its row and its options
      in position order. */
  datatype Work = Work(exerciseId: int, exercise: Exercise, options: seq<ExerciseOption>)

  /** The four answer columns of a stored item. */
  function ItemAnswer(b: BatchItem): TypedAnswer {
    TypedAnswer(b.answerText, b.answerBoolean, b.answerOptionId, b.answerRanking)
  }

  /** The BatchItem `store_batch_item` adds for one exercise of one run, given
      the outcome `openai` the OpenAI call would have. */
  function StoreBatchItem(runId: int, experiment: Experiment, settings: Settings, w: Work, openai: Reply): (b: BatchItem)
    ensures b.id.None? && b.runId == runId && b.exerciseId == w.exerciseId
    ensures b.questionText == w.exercise.questionText && b.answerType == w.exercise.answerType
    ensures b.optionsJson == Some(OptionEntries(w.options))
    ensures OnlyFieldOf(ItemAnswer(b), w.exercise.answerType)
  {
    var reply := GenerateModelResponse(experiment.provider, settings, w.exercise, w.options, openai);
    var c := Coerce(w.exercise.answerType, reply);
    NewBatchItem(runId, w.exerciseId, w.exercise.questionText, w.exercise.answerType).(
      optionsJson := Some(OptionEntries(w.options)),
      answerText := c.answer.text,
      answerBoolean := c.answer.boolean,
      answerOptionId := c.answer.optionId,
      answerRanking := c.answer.ranking,
      parseSuccess := c.parseSuccess)
  }

  /** The stored answer and flag are the coercion of the provider's reply:
      without a usable OpenAI key the item always parses, and an OpenAI call
      that raises never does. */
  lemma StoredAnswer(runId: int, experiment: Experiment, settings: Settings, w: Work, openai: Reply)
    ensures var b := StoreBatchItem(runId, experiment, settings, w, openai);
            var reply := GenerateModelResponse(experiment.provider, settings, w.exercise, w.options, openai);
            && ItemAnswer(b) == Coerce(w.exercise.answerType, reply).answer
            && b.parseSuccess == Coerce(w.exercise.answerType, reply).parseSuccess
            && (!(experiment.provider == "openai" && KeySet(settings.openaiKey)) ==> b.parseSuccess)
            && (experiment.provider == "openai" && KeySet(settings.openaiKey) && openai.Threw? ==> !b.parseSuccess)
  {
    FallbackAnswers(w.exercise.answerType, w.options);
  }

  /** The link rows of one experiment, in storage order. */
  function LinksOf(links: seq<ExperimentExercise>, experimentId: int): seq<ExperimentExercise>
  {
    if links == [] then []
    else LinksOf(links[..|links| - 1], experimentId)
         + (if links[|links| - 1].experimentId == experimentId then [links[|links| - 1]] else [])
  }

  /** The options of one exercise, in storage order. */
  function OptionsOf(options: seq<ExerciseOption>, exerciseId: int): seq<ExerciseOption>
  {
    if options == [] then []
    else OptionsOf(options[..|options| - 1], exerciseId)
         + (if options[|options| - 1].exerciseId == exerciseId then [options[|options| - 1]] else [])
  }

  /** The filter keeps exactly the options of the exercise. */
  lemma {:induction false} OptionsOfMember(options: seq<ExerciseOption>, exerciseId: int, o: ExerciseOption)
    ensures o in OptionsOf(options, exerciseId) <==> o in options && o.exerciseId == exerciseId
  {
    if options != [] {
      var init := options[..|options| - 1];
      OptionsOfMember(init, exerciseId, o);
      assert options == init + [options[|options| - 1]];
    }
  }

  /** The filter keeps exactly the links of the experiment. */
  lemma {:induction false} LinksOfMember(links: seq<ExperimentExercise>, experimentId: int, l: ExperimentExercise)
    ensures l in LinksOf(links, experimentId) <==> l in links && l.experimentId == experimentId
  {
    if links != [] {
      var init := links[..|links| - 1];
      LinksOfMember(init, experimentId, l);
      assert links == init + [links[|links| - 1]];
    }
  }

  /** A resolved entry: an existing exercise with exactly its options, in
      position order. */
  predicate WorkOf(w: Work, exercises: map<int, Exercise>, options: seq<ExerciseOption>) {
    && w.exerciseId in exercises && w.exercise == exercises[w.exerciseId]
    && SortedBy(w.options, Position)
    && multiset(w.options) == multiset(OptionsOf(options, w.exerciseId))
  }

  /** The entry a link whose exercise exists resolves to. */
  function WorkFor(l: ExperimentExercise, exercises: map<int, Exercise>, options: seq<ExerciseOption>): (w: Work)
    requires l.exerciseId in exercises
    ensures w.exerciseId == l.exerciseId && WorkOf(w, exercises, options)
  {
    Work(l.exerciseId, exercises[l.exerciseId], SortBy(OptionsOf(options, l.exerciseId), Position))
  }

  /** The exercises of a list of links, skipping links whose exercise is
      missing, in the links' order. */
  function Resolve(ls: seq<ExperimentExercise>, exercises: map<int, Exercise>, options: seq<ExerciseOption>): (r: seq<Work>)
    ensures |r| <= |ls|
    ensures forall i :: 0 <= i < |r| ==> WorkOf(r[i], exercises, options)
  {
    if ls == [] then []
    else
      var l := ls[|ls| - 1];
      var r := Resolve(ls[..|ls| - 1], exercises, options);
      if l.exerciseId in exercises then
        r + [WorkFor(l, exercises, options)]
      else r
  }

  lemma ResolveSnoc(ls: seq<ExperimentExercise>, i: nat, exercises: map<int, Exercise>, options: seq<ExerciseOption>)
    requires i < |ls|
    ensures Resolve(ls[..i + 1], exercises, options)
            == Resolve(ls[..i], exercises, options)
               + (if ls[i].exerciseId in exercises
                  then [WorkFor(ls[i], exercises, options)]
                  else [])
  {
    assert ls[..i + 1][..i] == ls[..i];
  }

  /** When every link's exercise exists, each link yields exactly one entry. */
  lemma {:induction false} ResolveAllPresent(ls: seq<ExperimentExercise>, exercises: map<int, Exercise>, options: seq<ExerciseOption>)
    requires forall i :: 0 <= i < |ls| ==> ls[i].exerciseId in exercises
    ensures |Resolve(ls, exercises, options)| == |ls|
    ensures forall i :: 0 <= i < |ls| ==> Resolve(ls, exercises, options)[i].exerciseId == ls[i].exerciseId
  {
    if ls != [] {
      ResolveAllPresent(ls[..|ls| - 1], exercises, options);
    }
  }

  /** The links whose exercise exists, in the links' order. */
  function PresentLinks(ls: seq<ExperimentExercise>, exercises: map<int, Exercise>): (r: seq<ExperimentExercise>)
    ensures forall i :: 0 <= i < |r| ==> r[i].exerciseId in exercises
  {
    if ls == [] then []
    else PresentLinks(ls[..|ls| - 1], exercises)
         + (if ls[|ls| - 1].exerciseId in exercises then [ls[|ls| - 1]] else [])
  }

  /** The filter keeps exactly the links whose exercise exists. */
  lemma {:induction false} PresentLinksMember(ls: seq<ExperimentExercise>, exercises: map<int, Exercise>,
                                              l: ExperimentExercise)
    ensures l in PresentLinks(ls, exercises) <==> l in ls && l.exerciseId in exercises
  {
    if ls != [] {
      var init := ls[..|ls| - 1];
      PresentLinksMember(init, exercises, l);
      assert ls == init + [ls[|ls| - 1]];
    }
  }

  /** Resolving filters, then maps: the links whose exercise exists each
      yield their entry, in the links' order, and the others yield nothing. */
  lemma {:induction false} ResolveIsPresentLinks(ls: seq<ExperimentExercise>, exercises: map<int, Exercise>,
                                                 options: seq<ExerciseOption>)
    ensures |Resolve(ls, exercises, options)| == |PresentLinks(ls, exercises)|
    ensures forall i :: 0 <= i < |PresentLinks(ls, exercises)| ==>
              Resolve(ls, exercises, options)[i] == WorkFor(PresentLinks(ls, exercises)[i], exercises, options)
  {
    if ls != [] {
      ResolveIsPresentLinks(ls[..|ls| - 1], exercises, options);
    }
  }

  /** What `execute_experiment` loads before its first run: the experiment's
      links in position order, resolved. */
  function Workload(experimentId: int, links: seq<ExperimentExercise>, exercises: map<int, Exercise>,
                    options: seq<ExerciseOption>): (r: seq<Work>)
    ensures var present := PresentLinks(SortBy(LinksOf(links, experimentId), LinkPosition), exercises);
            && |r| == |present|
            && forall i :: 0 <= i < |r| ==> r[i] == WorkFor(present[i], exercises, options)
  {
    ResolveIsPresentLinks(SortBy(LinksOf(links, experimentId), LinkPosition), exercises, options);
    Resolve(SortBy(LinksOf(links, experimentId), LinkPosition), exercises, options)
  }

  /** Run `idx` of an experiment once it has completed. */
  function CompletedRun(runId: int, experimentId: int, exp: Experiment, idx: int, now: Timestamp): Run {
    NewRun(experimentId, idx, exp.provider, exp.model, exp.temperature, now).(
      id := Some(runId), status := Completed, completedAt := Some(now))
  }

  /** The rows of runs 1..count, with ids from `firstRunId` on. */
  function CompletedRuns(firstRunId: int, experimentId: int, exp: Experiment, count: nat, now: Timestamp): (r: seq<Run>)
    ensures |r| == count
    ensures forall i :: 0 <= i < count ==>
              && r[i].runIndex == i + 1 && r[i].id == Some(firstRunId + i)
              && r[i].experimentId == experimentId && r[i].status == Completed
              && r[i].provider == exp.provider && r[i].model == exp.model
              && r[i].temperature == exp.temperature && r[i].completedAt == Some(now)
  {
    if count == 0 then []
    else CompletedRuns(firstRunId, experimentId, exp, count - 1, now)
         + [CompletedRun(firstRunId + count - 1, experimentId, exp, count, now)]
  }

  /** The items of run `idx`: one per work entry, in order; the j-th answers
      the j-th exercise with the j-th call of that run. */
  function RunBatch(runId: int, idx: int, exp: Experiment, settings: Settings, work: seq<Work>,
                    openai: (int, int) -> Reply): seq<BatchItem>
  {
    seq(|work|, j requires 0 <= j < |work| => StoreBatchItem(runId, exp, settings, work[j], openai(idx, j)))
  }

  /** The items of runs 1..count, run after run: item `p` belongs to the
      run at position `p / |work|` and answers work entry `p % |work|`. */
  function Batches(firstRunId: int, exp: Experiment, settings: Settings, work: seq<Work>,
                   openai: (int, int) -> Reply, count: nat): seq<BatchItem>
  {
    if |work| == 0 then []
    else
      seq(count * |work|, p requires 0 <= p < count * |work| =>
        StoreBatchItem(firstRunId + p / |work|, exp, settings, work[p % |work|], openai(p / |work| + 1, p % |work|)))
  }

  /** Items as the flush that writes them leaves them: the autoincrement key
      hands out ids from `firstId` on, in the order the items were added. */
  function Numbered(items: seq<BatchItem>, firstId: int): seq<BatchItem> {
    seq(|items|, k requires 0 <= k < |items| => items[k].(id := Some(firstId + k)))
  }

  /** Numbering two lists one after the other numbers their concatenation. */
  lemma NumberedAppend(a: seq<BatchItem>, b: seq<BatchItem>, firstId: int)
    ensures Numbered(a, firstId) + Numbered(b, firstId + |a|) == Numbered(a + b, firstId)
  {
  }

  /** The inner loop of `execute_experiment`: one `store_batch_item` per
      resolved exercise of run `idx`, in order. */
  method BuildBatch(runId: int, idx: int, exp: Experiment, settings: Settings, work: seq<Work>,
                    openai: (int, int) -> Reply) returns (added: seq<BatchItem>)
    ensures added == RunBatch(runId, idx, exp, settings, work, openai)
  {
    ghost var batch := RunBatch(runId, idx, exp, settings, work, openai);
    added := [];
    for j := 0 to |work|
      invariant added == batch[..j]
    {
      var item := StoreBatchItem(runId, exp, settings, work[j], openai(idx, j));
      RunBatchAt(runId, idx, exp, settings, work, openai, j);
      Text.TakeSnoc(batch, j);
      added := added + [item];
    }
    Text.TakeAll(batch);
  }

  /** Every run contributes one item per resolved exercise. */
  lemma BatchesLength(firstRunId: int, exp: Experiment, settings: Settings, work: seq<Work>,
                      openai: (int, int) -> Reply, count: nat)
    ensures |Batches(firstRunId, exp, settings, work, openai, count)| == count * |work|
  {
  }

  lemma NextMultiple(n: nat, k: nat)
    ensures (n + 1) * k == n * k + k
  {
  }

  /** A multiple of `k` below another lies at least `k` below it. */
  lemma MulGap(a: int, b: int, k: nat)
    requires a < b
    ensures a * k + k <= b * k
  {
    assert b * k - a * k == (b - a) * k;
    assert (b - a) * k == (b - a - 1) * k + k;
  }

  /** Position `q * k + r` of a sequence cut into rows of `k` is row `q`, column `r`. */
  lemma DivMod(q: nat, k: nat, r: nat)
    requires r < k
    ensures (q * k + r) / k == q && (q * k + r) % k == r
  {
    var d := (q * k + r) / k;
    if d < q {
      MulGap(d, q, k);
    } else if q < d {
      MulGap(q, d, k);
    }
  }

  /** A second update of the same key overrides the first. */
  lemma UpdateTwice<K, V>(m: map<K, V>, k: K, a: V, b: V)
    ensures m[k := a][k := b] == m[k := b]
  {
  }

  /** One more run appends that run's batch. */
  lemma BatchesStep(firstRunId: int, exp: Experiment, settings: Settings, work: seq<Work>,
                    openai: (int, int) -> Reply, done: nat, runId: int)
    requires runId == firstRunId + done
    ensures Batches(firstRunId, exp, settings, work, openai, done + 1)
            == Batches(firstRunId, exp, settings, work, openai, done) + RunBatch(runId, done + 1, exp, settings, work, openai)
  {
    var k := |work|;
    if k > 0 {
      var after := Batches(firstRunId, exp, settings, work, openai, done + 1);
      var before := Batches(firstRunId, exp, settings, work, openai, done);
      var batch := RunBatch(runId, done + 1, exp, settings, work, openai);
      NextMultiple(done, k);
      forall p | done * k <= p < (done + 1) * k
        ensures after[p] == batch[p - done * k]
      {
        DivMod(done, k, p - done * k);
      }
    }
  }

  /** One more completed run extends both the run rows and the numbered
      items, the new items numbered after those of the runs before. */
  lemma RunStep(oldRuns: seq<Run>, oldItems: seq<BatchItem>, runsBefore: seq<Run>, itemsBefore: seq<BatchItem>,
                runsAfter: seq<Run>, itemsAfter: seq<BatchItem>, firstRunId: int, firstItemId: int, itemIdBefore: int,
                experimentId: int, exp: Experiment, settings: Settings, work: seq<Work>, openai: (int, int) -> Reply,
                now: Timestamp, done: nat)
    requires runsBefore == oldRuns + CompletedRuns(firstRunId, experimentId, exp, done, now)
    requires itemsBefore == oldItems + Numbered(Batches(firstRunId, exp, settings, work, openai, done), firstItemId)
    requires itemIdBefore == firstItemId + |Batches(firstRunId, exp, settings, work, openai, done)|
    requires runsAfter == runsBefore + [CompletedRun(firstRunId + done, experimentId, exp, done + 1, now)]
    requires itemsAfter == itemsBefore + Numbered(RunBatch(firstRunId + done, done + 1, exp, settings, work, openai), itemIdBefore)
    ensures runsAfter == oldRuns + CompletedRuns(firstRunId, experimentId, exp, done + 1, now)
    ensures itemsAfter == oldItems + Numbered(Batches(firstRunId, exp, settings, work, openai, done + 1), firstItemId)
    ensures itemIdBefore + |work| == firstItemId + |Batches(firstRunId, exp, settings, work, openai, done + 1)|
  {
    Text.Assoc(oldRuns, CompletedRuns(firstRunId, experimentId, exp, done, now),
               [CompletedRun(firstRunId + done, experimentId, exp, done + 1, now)]);
    var prev := Batches(firstRunId, exp, settings, work, openai, done);
    var batch := RunBatch(firstRunId + done, done + 1, exp, settings, work, openai);
    BatchesStep(firstRunId, exp, settings, work, openai, done, firstRunId + done);
    NumberedAppend(prev, batch, firstItemId);
    Text.Assoc(oldItems, Numbered(prev, firstItemId), Numbered(batch, firstItemId + |prev|));
  }

  lemma RunBatchAt(runId: int, idx: int, exp: Experiment, settings: Settings, work: seq<Work>,
                   openai: (int, int) -> Reply, j: nat)
    requires j < |work|
    ensures |RunBatch(runId, idx, exp, settings, work, openai)| == |work|
    ensures RunBatch(runId, idx, exp, settings, work, openai)[j] == StoreBatchItem(runId, exp, settings, work[j], openai(idx, j))
  {
  }

  /** Every stored item of every run carries the id after those of the items
      before it, the answer type and question of the exercise it answers,
      and only the answer column of that type. */
  lemma BatchesMatchExercises(firstRunId: int, firstItemId: int, exp: Experiment, settings: Settings,
                              work: seq<Work>, openai: (int, int) -> Reply, count: nat, i: nat, j: nat)
    requires i < count && j < |work|
    ensures i * |work| + j < |Batches(firstRunId, exp, settings, work, openai, count)|
    ensures var b := Numbered(Batches(firstRunId, exp, settings, work, openai, count), firstItemId)[i * |work| + j];
            && b.id == Some(firstItemId + i * |work| + j)
            && b.runId == firstRunId + i && b.exerciseId == work[j].exerciseId
            && b.answerType == work[j].exercise.answerType
            && b.questionText == work[j].exercise.questionText
            && OnlyFieldOf(ItemAnswer(b), b.answerType)
  {
    MulGap(i, count, |work|);
    DivMod(i, |work|, j);
  }

  /** `max(runs, 0)`: how many iterations `range(1, runs + 1)` makes. */
  function RunCount(exp: Experiment): nat {
    if exp.runs > 0 then exp.runs else 0
  }

  /** A persistence fault: `Some(0)` fails before the first run, `Some(k)`
      fails storing run k; a k past the last run never happens. */
  predicate FaultHits(exp: Experiment, fault: Option<nat>) {
    fault.Some? && fault.value <= RunCount(exp)
  }

  /** The number of runs completed before the fault, or all of them. */
  function RunsDone(exp: Experiment, fault: Option<nat>): (n: nat)
    ensures n <= RunCount(exp)
    ensures !FaultHits(exp, fault) ==> n == RunCount(exp)
    ensures FaultHits(exp, fault) ==> n < RunCount(exp) || (n == 0 && RunCount(exp) == 0)
  {
    if FaultHits(exp, fault) then (if fault.value == 0 then 0 else fault.value - 1) else RunCount(exp)
  }

  /** Where the run loop stops: after every run, or just before the faulty one. */
  lemma LoopExit(exp: Experiment, fault: Option<nat>, done: nat, failed: bool)
    requires done <= RunCount(exp)
    requires !failed ==> done >= exp.runs && (fault.Some? ==> fault.value > done)
    requires failed ==> fault == Some(done + 1) && done < RunCount(exp)
    ensures failed == FaultHits(exp, fault)
    ensures done == RunsDone(exp, fault)
  {
  }

  /** The status `execute_experiment` leaves behind. */
  function FinalStatus(exp: Experiment, fault: Option<nat>): ExperimentStatus {
    if FaultHits(exp, fault) then ExperimentStatus.Failed else Finished
  }

  /** One link row per exercise id, at position 0, 1, 2, ... */
  function LinksFor(experimentId: int, exerciseIds: seq<int>): (r: seq<ExperimentExercise>)
    ensures |r| == |exerciseIds|
    ensures forall i :: 0 <= i < |r| ==> r[i] == ExperimentExercise(experimentId, exerciseIds[i], i)
  {
    seq(|exerciseIds|, i requires 0 <= i < |exerciseIds| => ExperimentExercise(experimentId, exerciseIds[i], i))
  }

  predicate HasDuplicates(ids: seq<int>) {
    exists i, j :: 0 <= i < j < |ids| && ids[i] == ids[j]
  }

  /** The body of `POST /api/experiments`. */
  datatype ExperimentPayload = ExperimentPayload(
    name: string,
    description: string,
    provider: string,
    model: string,
    temperature: real,
    runs: int,
    exerciseIds: seq<int>)

  datatype HttpError = HttpError(status: int, detail: string)

  /** The key the settings hold for a known provider; None for any other
      provider name. */
  function ProviderKey(settings: Settings, provider: string): Option<Option<string>> {
    if provider == "openai" then Some(settings.openaiKey)
    else if provider == "anthropic" then Some(settings.anthropicKey)
    else if provider == "gemini" then Some(settings.geminiKey)
    else if provider == "grok" then Some(settings.grokKey)
    else None
  }

  /** The checks `create_experiment` makes before it writes anything. */
  function CheckExperimentPayload(payload: ExperimentPayload, settings: Settings): (r: Option<HttpError>)
    ensures r.Some? ==> r.value.status == 400
    ensures r.None? <==>
              && (payload.provider in {"openai", "anthropic", "gemini", "grok"} ==>
                    KeySet(ProviderKey(settings, payload.provider).value))
              && payload.exerciseIds != []
    ensures payload.provider !in {"openai", "anthropic", "gemini", "grok"} && payload.exerciseIds != [] ==> r.None?
    ensures payload.provider in {"openai", "anthropic", "gemini", "grok"}
            && !KeySet(ProviderKey(settings, payload.provider).value)
            ==> r == Some(HttpError(400, "API key missing for selected provider"))
  {
    var key := ProviderKey(settings, payload.provider);
    if key.Some? && !KeySet(key.value) then Some(HttpError(400, "API key missing for selected provider"))
    else if payload.exerciseIds == [] then Some(HttpError(400, "Select at least one exercise"))
    else None
  }

  /** The experiment row a valid payload creates. */
  function PlannedExperiment(id: int, payload: ExperimentPayload, now: Timestamp): (e: Experiment)
    ensures e.status == Planned && e.id == Some(id) && e.runs == payload.runs
    ensures e.name == payload.name && e.description == payload.description
    ensures e.provider == payload.provider && e.model == payload.model
    ensures e.temperature == payload.temperature && e.createdAt == now
  {
    NewExperiment(payload.name, payload.provider, payload.model, now).(
      id := Some(id), description := payload.description,
      temperature := payload.temperature, runs := payload.runs)
  }

  /** What `create_experiment` answers: the new id; a validation error; or the
      failure of the link commit (a repeated exercise id breaks the link table's
      primary key), which leaves the experiment row without links. */
  datatype CreateResult = Created(id: int) | Rejected(error: HttpError) | LinkConflict(id: int)

  /** `display_answer`: the answer column of the item's own type as JSON. */
  function DisplayAnswer(item: BatchItem): (r: Json)
    ensures r == JNull <==>
              match item.answerType
              case FreeText => item.answerText.None?
              case TrueFalse => item.answerBoolean.None?
              case SingleChoice => item.answerOptionId.None? || item.answerOptionId == Some(JNull)
              case Ranking => item.answerRanking.None?
  {
    match item.answerType
    case FreeText => if item.answerText.Some? then JStr(item.answerText.value) else JNull
    case TrueFalse => if item.answerBoolean.Some? then JBool(item.answerBoolean.value) else JNull
    case SingleChoice => item.answerOptionId.GetOr(JNull)
    case Ranking => if item.answerRanking.Some? then JArr(item.answerRanking.value) else JNull
  }

  /** Without a usable OpenAI key, what the listing shows for an item is the
      fallback answer: `""`, `true`, the first option's id (or null), or the
      option ids in position order. */
  lemma DisplayOfFallbackItem(runId: int, exp: Experiment, settings: Settings, w: Work, openai: Reply)
    requires !(exp.provider == "openai" && KeySet(settings.openaiKey))
    requires SortedBy(w.options, Position)
    ensures var d := DisplayAnswer(StoreBatchItem(runId, exp, settings, w, openai));
            match w.exercise.answerType
            case FreeText => d == JStr("")
            case TrueFalse => d == JBool(true)
            case SingleChoice => d == (if w.options == [] then JNull else IdJson(w.options[0].id))
            case Ranking => d == JArr(OptionIds(w.options))
  {
    StoredAnswer(runId, exp, settings, w, openai);
    FallbackAnswers(w.exercise.answerType, w.options);
    FallbackRankingOfOrderedOptions(w.options);
  }

  /** Whatever the provider returns, the listing shows for an item the
      answer column of its exercise's type as the coercion of the reply left
      it, and null when that column is empty. */
  lemma DisplayOfStoredItem(runId: int, exp: Experiment, settings: Settings, w: Work, openai: Reply)
    ensures var a := Coerce(w.exercise.answerType,
                            GenerateModelResponse(exp.provider, settings, w.exercise, w.options, openai)).answer;
            var d := DisplayAnswer(StoreBatchItem(runId, exp, settings, w, openai));
            match w.exercise.answerType
            case FreeText => d == (if a.text.Some? then JStr(a.text.value) else JNull)
            case TrueFalse => d == (if a.boolean.Some? then JBool(a.boolean.value) else JNull)
            case SingleChoice => d == a.optionId.GetOr(JNull)
            case Ranking => d == (if a.ranking.Some? then JArr(a.ranking.value) else JNull)
  {
    StoredAnswer(runId, exp, settings, w, openai);
  }

  /** One entry of the batch-item listing. */
  datatype ItemView = ItemView(id: Option<int>, runIndex: Option<int>, parseSuccess: bool, answer: Json)

  /** The index of the run with the given id, when there is one. */
  function RunIndexOf(runs: seq<Run>, runId: int): Option<int> {
    if runs == [] then None
    else if runs[0].id == Some(runId) then Some(runs[0].runIndex)
    else RunIndexOf(runs[1..], runId)
  }

  predicate RunOf(runs: seq<Run>, experimentId: int, runId: int) {
    exists r :: r in runs && r.experimentId == experimentId && r.id == Some(runId)
  }

  /** `list_batch_items`: the items of this exercise in the experiment's runs,
      in storage order, each with its run's index and its display answer. */
  function ListBatchItems(runs: seq<Run>, items: seq<BatchItem>, experimentId: int, exerciseId: int): (r: seq<ItemView>)
    ensures |r| <= |items|
    ensures forall v :: v in r ==> exists b :: b in items && b.exerciseId == exerciseId && RunOf(runs, experimentId, b.runId)
                                            && v == ItemView(b.id, RunIndexOf(runs, b.runId), b.parseSuccess, DisplayAnswer(b))
    ensures forall b :: b in items && b.exerciseId == exerciseId && RunOf(runs, experimentId, b.runId) ==>
              ItemView(b.id, RunIndexOf(runs, b.runId), b.parseSuccess, DisplayAnswer(b)) in r
  {
    if items == [] then []
    else
      var b := items[|items| - 1];
      var rest := ListBatchItems(runs, items[..|items| - 1], experimentId, exerciseId);
      if b.exerciseId == exerciseId && RunOf(runs, experimentId, b.runId) then
        rest + [ItemView(b.id, RunIndexOf(runs, b.runId), b.parseSuccess, DisplayAnswer(b))]
      else rest
  }

  /** The database, as far as the executor sees it. */
  class Store {
    var experiments: map<int, Experiment>
    var nextExperimentId: int
    var exercises: map<int, Exercise>
    var options: seq<ExerciseOption>
    var links: seq<ExperimentExercise>
    var runs: seq<Run>
    var nextRunId: int
    var items: seq<BatchItem>
    var nextItemId: int
    var settings: Settings

    /** Ids handed out so far are below the next one, and every link belongs
        to an existing experiment. */
    ghost predicate Valid()
      reads this
    {
      && (forall id :: id in experiments ==> id < nextExperimentId)
      && (forall i :: 0 <= i < |links| ==> links[i].experimentId in experiments)
    }

    constructor(exercises: map<int, Exercise>, options: seq<ExerciseOption>, settings: Settings)
      ensures Valid()
      ensures this.exercises == exercises && this.options == options && this.settings == settings
      ensures experiments == map[] && links == [] && runs == [] && items == []
      ensures nextExperimentId == 1 && nextRunId == 1 && nextItemId == 1
    {
      this.experiments := map[];
      this.nextExperimentId := 1;
      this.exercises := exercises;
      this.options := options;
      this.links := [];
      this.runs := [];
      this.nextRunId := 1;
      this.items := [];
      this.nextItemId := 1;
      this.settings := settings;
    }

    /** The link and option queries at the start of `execute_experiment`. */
    method LoadWorkload(experimentId: int) returns (work: seq<Work>)
      ensures work == Workload(experimentId, links, exercises, options)
    {
      var ordered := SortBy(LinksOf(links, experimentId), LinkPosition);
      work := [];
      for i := 0 to |ordered|
        invariant work == Resolve(ordered[..i], exercises, options)
      {
        ResolveSnoc(ordered, i, exercises, options);
        var l := ordered[i];
        if l.exerciseId in exercises {
          work := work + [WorkFor(l, exercises, options)];
        }
      }
      assert ordered[..|ordered|] == ordered;
    }

    /** The items of run `idx` added to the session, in exercise order. */
    method StoreBatch(runId: int, idx: int, exp: Experiment, work: seq<Work>, openai: (int, int) -> Reply)
      modifies this
      ensures items == old(items) + Numbered(RunBatch(runId, idx, exp, settings, work, openai), old(nextItemId))
      ensures nextItemId == old(nextItemId) + |work|
      ensures experiments == old(experiments) && nextExperimentId == old(nextExperimentId)
      ensures exercises == old(exercises) && options == old(options) && links == old(links)
      ensures runs == old(runs) && nextRunId == old(nextRunId) && settings == old(settings)
    {
      var added := BuildBatch(runId, idx, exp, settings, work, openai);
      items := items + Numbered(added, nextItemId);
      nextItemId := nextItemId + |work|;
    }

    /** One iteration of the run loop: the run row is stored as running,
        its items are stored, and it is marked completed. */
    method RecordRun(experimentId: int, exp: Experiment, idx: int, work: seq<Work>,
                     openai: (int, int) -> Reply, now: Timestamp)
      modifies this
      ensures runs == old(runs) + [CompletedRun(old(nextRunId), experimentId, exp, idx, now)]
      ensures items == old(items) + Numbered(RunBatch(old(nextRunId), idx, exp, settings, work, openai), old(nextItemId))
      ensures nextRunId == old(nextRunId) + 1 && nextItemId == old(nextItemId) + |work|
      ensures experiments == old(experiments) && nextExperimentId == old(nextExperimentId)
      ensures exercises == old(exercises) && options == old(options) && links == old(links)
      ensures settings == old(settings)
    {
      var runId := nextRunId;
      runs := runs + [NewRun(experimentId, idx, exp.provider, exp.model, exp.temperature, now).(id := Some(runId))];
      nextRunId := nextRunId + 1;
      StoreBatch(runId, idx, exp, work, openai);
      runs := runs[|runs| - 1 := runs[|runs| - 1].(status := Completed, completedAt := Some(now))];
      assert runs[..|runs| - 1] == old(runs);
    }

    /** The run loop of `execute_experiment`, up to the fault if one
        happens; `failed` tells whether it did. */
    method RunAll(experimentId: int, exp: Experiment, work: seq<Work>, openai: (int, int) -> Reply,
                  fault: Option<nat>, now: Timestamp) returns (failed: bool)
      requires fault != Some(0)
      modifies this
      ensures failed == FaultHits(exp, fault)
      ensures runs == old(runs) + CompletedRuns(old(nextRunId), experimentId, exp, RunsDone(exp, fault), now)
      ensures items == old(items) + Numbered(Batches(old(nextRunId), exp, settings, work, openai, RunsDone(exp, fault)), old(nextItemId))
      ensures nextRunId == old(nextRunId) + RunsDone(exp, fault)
      ensures nextItemId == old(nextItemId) + RunsDone(exp, fault) * |work|
      ensures experiments == old(experiments) && nextExperimentId == old(nextExperimentId)
      ensures exercises == old(exercises) && options == old(options) && links == old(links)
      ensures settings == old(settings)
    {
      failed := false;
      var done: nat := 0;
      while done < exp.runs && !failed
        invariant done <= RunCount(exp)
        invariant !failed ==> fault.Some? ==> fault.value > done
        invariant failed ==> fault == Some(done + 1) && done < RunCount(exp)
        invariant runs == old(runs) + CompletedRuns(old(nextRunId), experimentId, exp, done, now)
        invariant items == old(items) + Numbered(Batches(old(nextRunId), exp, settings, work, openai, done), old(nextItemId))
        invariant nextRunId == old(nextRunId) + done
        invariant nextItemId == old(nextItemId) + |Batches(old(nextRunId), exp, settings, work, openai, done)|
        invariant experiments == old(experiments) && nextExperimentId == old(nextExperimentId)
        invariant exercises == old(exercises) && options == old(options) && links == old(links)
        invariant settings == old(settings)
        decreases exp.runs - done, if failed then 0 else 1
      {
        var idx := done + 1;
        if fault == Some(idx) {
          failed := true;
        } else {
          ghost var runsBefore, itemsBefore, itemIdBefore := runs, items, nextItemId;
          RecordRun(experimentId, exp, idx, work, openai, now);
          RunStep(old(runs), old(items), runsBefore, itemsBefore, runs, items, old(nextRunId), old(nextItemId),
                  itemIdBefore, experimentId, exp, settings, work, openai, now, done);
          done := idx;
        }
      }
      LoopExit(exp, fault, done, failed);
      BatchesLength(old(nextRunId), exp, settings, work, openai, done);
    }

    /** `execute_experiment`: runs 1..runs in order, one item per resolved
        exercise per run, each run marked completed; the experiment ends
        finished, or failed at a persistence fault. There is no guard on the
        experiment's status: a second call adds a second set of runs. */
    method ExecuteExperiment(experimentId: int, openai: (int, int) -> Reply, fault: Option<nat>, now: Timestamp)
      requires Valid()
      modifies this
      ensures Valid()
      ensures exercises == old(exercises) && options == old(options) && links == old(links)
      ensures settings == old(settings) && nextExperimentId == old(nextExperimentId)
      ensures experimentId !in old(experiments) ==>
                && experiments == old(experiments) && runs == old(runs) && items == old(items)
                && nextRunId == old(nextRunId) && nextItemId == old(nextItemId)
      ensures experimentId in old(experiments) ==>
                var exp := old(experiments)[experimentId];
                var work := Workload(experimentId, old(links), old(exercises), old(options));
                var done := RunsDone(exp, fault);
                && experiments == old(experiments)[experimentId := exp.(status := FinalStatus(exp, fault))]
                && runs == old(runs) + CompletedRuns(old(nextRunId), experimentId, exp, done, now)
                && items == old(items) + Numbered(Batches(old(nextRunId), exp, old(settings), work, openai, done), old(nextItemId))
                && nextRunId == old(nextRunId) + done && nextItemId == old(nextItemId) + done * |work|
    {
      if experimentId in experiments {
        var exp := experiments[experimentId];
        experiments := experiments[experimentId := exp.(status := ExperimentStatus.Running)];
        var failed := true;
        if fault == Some(0) {
          assert CompletedRuns(nextRunId, experimentId, exp, 0, now) == [] && runs + [] == runs;
          assert Numbered(Batches(nextRunId, exp, settings, Workload(experimentId, links, exercises, options), openai, 0),
                          nextItemId) == [];
          assert items + [] == items;
        } else {
          var work := LoadWorkload(experimentId);
          failed := RunAll(experimentId, exp, work, openai, fault, now);
        }
        assert failed == FaultHits(exp, fault);
        var final := exp.(status := FinalStatus(exp, fault));
        UpdateTwice(old(experiments), experimentId, exp.(status := ExperimentStatus.Running), final);
        experiments := experiments[experimentId := final];
      }
    }

    /** `create_experiment`: the provider-key check, then the non-empty check;
        then a planned experiment and one link per exercise id at positions
        0, 1, 2, ... The experiment is committed before its links. */
    method CreateExperiment(payload: ExperimentPayload, now: Timestamp) returns (result: CreateResult)
      requires Valid()
      modifies this
      ensures Valid()
      ensures exercises == old(exercises) && options == old(options) && settings == old(settings)
      ensures runs == old(runs) && items == old(items) && nextRunId == old(nextRunId) && nextItemId == old(nextItemId)
      ensures CheckExperimentPayload(payload, old(settings)).Some? ==>
                && result == Rejected(CheckExperimentPayload(payload, old(settings)).value)
                && experiments == old(experiments) && links == old(links)
                && nextExperimentId == old(nextExperimentId)
      ensures CheckExperimentPayload(payload, old(settings)).None? ==>
                var id := old(nextExperimentId);
                && id !in old(experiments)
                && experiments == old(experiments)[id := PlannedExperiment(id, payload, now)]
                && nextExperimentId == id + 1
                && (if HasDuplicates(payload.exerciseIds)
                    then result == LinkConflict(id) && links == old(links)
                    else result == Created(id) && links == old(links) + LinksFor(id, payload.exerciseIds))
    {
      var check := CheckExperimentPayload(payload, settings);
      if check.Some? {
        return Rejected(check.value);
      }
      var id := nextExperimentId;
      experiments := experiments[id := PlannedExperiment(id, payload, now)];
      nextExperimentId := id + 1;
      var pending: seq<ExperimentExercise> := [];
      var ids := payload.exerciseIds;
      for idx := 0 to |ids|
        invariant pending == LinksFor(id, ids[..idx])
      {
        pending := pending + [ExperimentExercise(id, ids[idx], idx)];
      }
      assert ids[..|ids|] == ids;
      if HasDuplicates(ids) {
        result := LinkConflict(id);
      } else {
        links := links + pending;
        result := Created(id);
      }
    }
  }

  /** The links a successful creation writes are exactly the new experiment's
      links, already in position order; so the executor works through the
      payload's exercises in the payload's order, and through all of them when
      they all exist. */
  lemma CreatedExperimentWorkload(oldLinks: seq<ExperimentExercise>, id: int, ids: seq<int>,
                                  exercises: map<int, Exercise>, options: seq<ExerciseOption>)
    requires forall i :: 0 <= i < |oldLinks| ==> oldLinks[i].experimentId != id
    requires forall i :: 0 <= i < |ids| ==> ids[i] in exercises
    ensures var work := Workload(id, oldLinks + LinksFor(id, ids), exercises, options);
            |work| == |ids| && forall i :: 0 <= i < |ids| ==> work[i].exerciseId == ids[i]
  {
    var created := LinksFor(id, ids);
    LinksOfAppend(oldLinks, created, id);
    LinksOfNone(oldLinks, id);
    LinksOfAll(created, id);
    assert [] + created == created;
    SortBySorted(created, LinkPosition);
    ResolveAllPresent(created, exercises, options);
  }

  lemma {:induction false} LinksOfAppend(a: seq<ExperimentExercise>, b: seq<ExperimentExercise>, id: int)
    ensures LinksOf(a + b, id) == LinksOf(a, id) + LinksOf(b, id)
    decreases |b|
  {
    if b == [] {
      assert a + b == a;
    } else {
      assert (a + b)[..|a + b| - 1] == a + b[..|b| - 1];
      LinksOfAppend(a, b[..|b| - 1], id);
    }
  }

  lemma {:induction false} LinksOfNone(a: seq<ExperimentExercise>, id: int)
    requires forall i :: 0 <= i < |a| ==> a[i].experimentId != id
    ensures LinksOf(a, id) == []
  {
    if a != [] {
      LinksOfNone(a[..|a| - 1], id);
    }
  }

  lemma {:induction false} LinksOfAll(a: seq<ExperimentExercise>, id: int)
    requires forall i :: 0 <= i < |a| ==> a[i].experimentId == id
    ensures LinksOf(a, id) == a
  {
    if a != [] {
      LinksOfAll(a[..|a| - 1], id);
    }
  }

  /** A fault-free execution writes, for each of its N runs, one item per
      link of the experiment whose exercise exists, whatever the provider
      calls return: links to missing exercises are skipped. */
  lemma BatchCount(experimentId: int, links: seq<ExperimentExercise>, exercises: map<int, Exercise>,
                   options: seq<ExerciseOption>, exp: Experiment, settings: Settings,
                   openai: (int, int) -> Reply, firstRunId: int)
    ensures var work := Workload(experimentId, links, exercises, options);
            |Batches(firstRunId, exp, settings, work, openai, RunsDone(exp, None))|
            == RunCount(exp) * |PresentLinks(SortBy(LinksOf(links, experimentId), LinkPosition), exercises)|
  {
    var ordered := SortBy(LinksOf(links, experimentId), LinkPosition);
    ResolveIsPresentLinks(ordered, exercises, options);
    BatchesLength(firstRunId, exp, settings, Workload(experimentId, links, exercises, options),
                  openai, RunsDone(exp, None));
  }

  /** With N runs and K bundled exercises that all exist, a fault-free
      execution writes exactly N x K items, whatever the provider calls return. */
  lemma FullBatchCount(id: int, oldLinks: seq<ExperimentExercise>, ids: seq<int>, exp: Experiment,
                       settings: Settings, exercises: map<int, Exercise>, options: seq<ExerciseOption>,
                       openai: (int, int) -> Reply, firstRunId: int)
    requires forall i :: 0 <= i < |oldLinks| ==> oldLinks[i].experimentId != id
    requires forall i :: 0 <= i < |ids| ==> ids[i] in exercises
    ensures var work := Workload(id, oldLinks + LinksFor(id, ids), exercises, options);
            |Batches(firstRunId, exp, settings, work, openai, RunsDone(exp, None))| == RunCount(exp) * |ids|
  {
    CreatedExperimentWorkload(oldLinks, id, ids, exercises, options);
    var work := Workload(id, oldLinks + LinksFor(id, ids), exercises, options);
    BatchesLength(firstRunId, exp, settings, work, openai, RunsDone(exp, None));
  }
}
