/** training_pipeline.py: the six stages run in a fixed order, each artifact handed to
    the stages that need it, with one gate before promotion. */
module TrainingPipeline {
  import opened Wrappers
  import opened Errors
  import opened Frames
  import opened Ml
  import opened Files
  import opened Entities
  import AwsStorage
  import DataIngestion
  import DataValidation
  import DataTransformation
  import ModelTrainer
  import ModelEvaluation
  import ModelPusher

  datatype Stage =
    | DataIngestionStage
    | DataValidationStage
    | DataTransformationStage
    | ModelTrainerStage
    | ModelEvaluationStage
    | ModelPusherStage

  /** The order `run_pipeline` starts the stages in. */
  function StageOrder(): seq<Stage> {
    [DataIngestionStage, DataValidationStage, DataTransformationStage, ModelTrainerStage, ModelEvaluationStage, ModelPusherStage]
  }

  /** The artifact a stage produces. */
  datatype Artifact =
    | Ingestion(ingestion: DataIngestionArtifact)
    | Validation(validation: DataValidationArtifact)
    | Transformation(transformation: DataTransformationArtifact)
    | Trainer(trainer: ModelTrainerArtifact)
    | Evaluation(evaluation: ModelEvaluationArtifact)
    | Pusher(pusher: ModelPusherArtifact)

  /** The local disk and the object store, as a stage finds them or leaves them. */
  datatype State = State(files: map<string, Blob>, buckets: map<string, AwsStorage.Bucket>)

  /** What a stage returns or raises, and the state it leaves behind. */
  datatype Effect = Effect(output: Result<Artifact, Cause>, after: State)

  /** One started stage: which one, the artifacts it was given, what it returned or raised,
      and the state it started from and left. */
  datatype StageRun = StageRun(stage: Stage, inputs: seq<Artifact>, output: Result<Artifact, Cause>,
                               ghost before: State, ghost after: State)

  /** `USVISAException` as the orchestrator raises it: the cause and the stage it came from. */
  datatype USVISAException = USVISAException(stage: Stage, cause: Cause)

  /** Each stage's artifact is of that stage's kind. */
  predicate ArtifactOf(stage: Stage, a: Artifact) {
    match stage
    case DataIngestionStage => a.Ingestion?
    case DataValidationStage => a.Validation?
    case DataTransformationStage => a.Transformation?
    case ModelTrainerStage => a.Trainer?
    case ModelEvaluationStage => a.Evaluation?
    case ModelPusherStage => a.Pusher?
  }

  /** The artifacts of a run are handed on as `run_pipeline` does: the ingestion artifact
      to validation, transformation and evaluation; every other artifact only to the next
      stage. A stage is started only after the stages it depends on returned. */
  predicate Threaded(runs: seq<StageRun>) {
    && (|runs| > 0 ==> runs[0].inputs == [])
    && (|runs| > 1 ==> runs[0].output.Ok? && runs[1].inputs == [runs[0].output.value])
    && (|runs| > 2 ==> runs[1].output.Ok? && runs[2].inputs == [runs[0].output.value, runs[1].output.value])
    && (|runs| > 3 ==> runs[2].output.Ok? && runs[3].inputs == [runs[2].output.value])
    && (|runs| > 4 ==> runs[3].output.Ok? && runs[4].inputs == [runs[0].output.value, runs[3].output.value])
    && (|runs| > 5 ==> runs[4].output.Ok? && runs[5].inputs == [runs[4].output.value])
  }

  /** How the run ended: it raises exactly when its last stage raised, naming that stage
      and its cause; the pusher ran exactly when the evaluation accepted the model; a
      failed validation makes the transformation stage raise with the validation message. */
  predicate Outcome(runs: seq<StageRun>, r: Result<(), USVISAException>) {
    && 1 <= |runs| <= 6
    && Threaded(runs)
    && (r.Err? <==> runs[|runs| - 1].output.Err?)
    && (r.Err? ==> r.error == USVISAException(runs[|runs| - 1].stage, runs[|runs| - 1].output.error))
    && (|runs| == 6 <==> && |runs| >= 5 && runs[4].output.Ok? && runs[4].output.value.Evaluation?
                         && runs[4].output.value.evaluation.isModelAccepted)
    && (|runs| >= 2 && runs[1].output.Ok? && runs[1].output.value.Validation? && !runs[1].output.value.validation.validationStatus ==>
          |runs| == 3 && r == Err(USVISAException(DataTransformationStage, ValidationFailed(runs[1].output.value.validation.message))))
  }

  /** A stage's result as a run's output. */
  function IngestionOutput(r: Result<DataIngestionArtifact, Cause>): Result<Artifact, Cause> {
    if r.Ok? then Ok(Ingestion(r.value)) else Err(r.error)
  }

  function ValidationOutput(r: Result<DataValidationArtifact, Cause>): Result<Artifact, Cause> {
    if r.Ok? then Ok(Validation(r.value)) else Err(r.error)
  }

  function TransformationOutput(r: Result<DataTransformationArtifact, Cause>): Result<Artifact, Cause> {
    if r.Ok? then Ok(Transformation(r.value)) else Err(r.error)
  }

  function TrainerOutput(r: Result<ModelTrainerArtifact, Cause>): Result<Artifact, Cause> {
    if r.Ok? then Ok(Trainer(r.value)) else Err(r.error)
  }

  function EvaluationOutput(r: Result<ModelEvaluationArtifact, Cause>): Result<Artifact, Cause> {
    if r.Ok? then Ok(Evaluation(r.value)) else Err(r.error)
  }

  function PusherOutput(r: Result<ModelPusherArtifact, Cause>): Result<Artifact, Cause> {
    if r.Ok? then Ok(Pusher(r.value)) else Err(r.error)
  }

  class TrainPipeline {
    const dataIngestionConfig: DataIngestionConfig
    const dataValidationConfig: DataValidationConfig
    const dataTransformationConfig: DataTransformationConfig
    const modelTrainerConfig: ModelTrainerConfig
    const modelEvaluationConfig: ModelEvaluationConfig
    const modelPusherConfig: ModelPusherConfig
    /** The schema file, `TARGET_COLUMN` and `CURRENT_YEAR`. */
    const schema: Schema
    const targetColumn: string
    const currentYear: int
    /** The foreign numeric libraries. */
    const ml: Oracles
    /** What the database export and the random split produce, or None if they fail. */
    const ingestedSplit: Option<(DataFrame, DataFrame)>
    const disk: LocalDisk
    const s3: AwsStorage.SimpleStorageService
    /** Every stage started so far, in order (the stage-start log lines). */
    var log: seq<StageRun>
    /** The stages the latest `RunPipeline` started, in order. */
    ghost var lastRun: seq<StageRun>

    constructor(dataIngestionConfig: DataIngestionConfig, dataValidationConfig: DataValidationConfig,
                dataTransformationConfig: DataTransformationConfig, modelTrainerConfig: ModelTrainerConfig,
                modelEvaluationConfig: ModelEvaluationConfig, modelPusherConfig: ModelPusherConfig,
                schema: Schema, targetColumn: string, currentYear: int, ml: Oracles,
                ingestedSplit: Option<(DataFrame, DataFrame)>, disk: LocalDisk, s3: AwsStorage.SimpleStorageService)
      ensures this.dataIngestionConfig == dataIngestionConfig && this.dataValidationConfig == dataValidationConfig
      ensures this.dataTransformationConfig == dataTransformationConfig && this.modelTrainerConfig == modelTrainerConfig
      ensures this.modelEvaluationConfig == modelEvaluationConfig && this.modelPusherConfig == modelPusherConfig
      ensures this.schema == schema && this.targetColumn == targetColumn && this.currentYear == currentYear
      ensures this.ml == ml && this.ingestedSplit == ingestedSplit && this.disk == disk && this.s3 == s3
      ensures log == []
    {
      this.dataIngestionConfig := dataIngestionConfig;
      this.dataValidationConfig := dataValidationConfig;
      this.dataTransformationConfig := dataTransformationConfig;
      this.modelTrainerConfig := modelTrainerConfig;
      this.modelEvaluationConfig := modelEvaluationConfig;
      this.modelPusherConfig := modelPusherConfig;
      this.schema := schema;
      this.targetColumn := targetColumn;
      this.currentYear := currentYear;
      this.ml := ml;
      this.ingestedSplit := ingestedSplit;
      this.disk := disk;
      this.s3 := s3;
      log := [];
    }

    /** The ingestion stage: the two frames of the split written to the configured paths,
        and an artifact naming them; a failed export or split raises and writes nothing. */
    function IngestionStep(s: State): Effect {
      if ingestedSplit.None? then Effect(Err(IngestionFailed), s)
      else
        var config := dataIngestionConfig;
        Effect(Ok(Ingestion(DataIngestionArtifact(config.trainingFilePath, config.testingFilePath))),
               State(s.files[config.trainingFilePath := Csv(ingestedSplit.value.0)][config.testingFilePath := Csv(ingestedSplit.value.1)],
                     s.buckets))
    }

    /** The validation stage: both ingested files are read; the status is the four
        structural checks, and only a valid pair gets its drift report written, the
        message then being the drift verdict. */
    function ValidationStep(ingestion: DataIngestionArtifact, s: State): Effect {
      var train := ReadCsv(s.files, ingestion.trainedFilePath);
      var test := ReadCsv(s.files, ingestion.testFilePath);
      var path := dataValidationConfig.driftReportFilePath;
      if train.Err? then Effect(Err(train.error), s)
      else if test.Err? then Effect(Err(test.error), s)
      else if !DataValidation.StructurallyValid(schema, train.value, test.value) then
        var message := DataValidation.StructuralMessage(
          DataValidation.ValidateNumberOfColumns(schema, train.value), DataValidation.ValidateNumberOfColumns(schema, test.value),
          DataValidation.ColumnsExist(schema, train.value.columns), DataValidation.ColumnsExist(schema, test.value.columns));
        Effect(Ok(Validation(DataValidationArtifact(false, message, path))), s)
      else
        var report := ml.driftProfile(train.value, test.value);
        var after := State(s.files[path := Yaml(report)], s.buckets);
        if report.datasetDrift.None? then Effect(Err(MalformedDriftReport), after)
        else
          var verdict := if report.datasetDrift.value then DataValidation.DriftDetected else DataValidation.DriftNotDetected;
          Effect(Ok(Validation(DataValidationArtifact(true, verdict, path))), after)
    }

    /** The transformation stage: a failed validation raises its message; otherwise the
        fitted preprocessor and the two arrays are written to the configured paths. */
    function TransformationStep(ingestion: DataIngestionArtifact, validation: DataValidationArtifact, s: State): Effect {
      if !validation.validationStatus then Effect(Err(ValidationFailed(validation.message)), s)
      else
        var t := DataTransformation.TransformedArrays(schema, ingestion, targetColumn, currentYear, ml, s.files);
        var config := dataTransformationConfig;
        if t.Err? then Effect(Err(t.error), s)
        else
          Effect(Ok(Transformation(DataTransformationArtifact(config.transformedObjectFilePath, config.transformedTrainFilePath,
                                                              config.transformedTestFilePath))),
                 State(s.files[config.transformedObjectFilePath := Pickle(PreprocessorObject(t.value.preprocessor))]
                              [config.transformedTrainFilePath := NumpyArray(t.value.train)]
                              [config.transformedTestFilePath := NumpyArray(t.value.test)],
                       s.buckets))
    }

    /** The trainer stage: the trained bundle saved at the configured path, with the test
        metrics in the artifact. */
    function TrainerStep(transformation: DataTransformationArtifact, s: State): Effect {
      var t := ModelTrainer.TrainedModel(transformation, modelTrainerConfig, ml, s.files);
      if t.Err? then Effect(Err(t.error), s)
      else
        Effect(Ok(Trainer(ModelTrainerArtifact(modelTrainerConfig.trainedModelFilePath, t.value.1))),
               State(s.files[modelTrainerConfig.trainedModelFilePath := Pickle(ModelObject(t.value.0))], s.buckets))
    }

    /** The evaluation stage: reads only; the artifact carries the acceptance decision. */
    function EvaluationStep(ingestion: DataIngestionArtifact, trainer: ModelTrainerArtifact, s: State): Effect {
      var e := ModelEvaluation.Evaluation(ingestion, trainer, modelEvaluationConfig, targetColumn, currentYear, ml,
                                          s.files, s.buckets);
      if e.Err? then Effect(Err(e.error), s)
      else
        Effect(Ok(Evaluation(ModelEvaluationArtifact(e.value.isModelAccepted, modelEvaluationConfig.s3ModelKeyPath,
                                                     trainer.trainedModelFilePath, e.value.difference))),
               s)
    }

    /** The pusher stage: the trained model file becomes the content of the configured key. */
    function PusherStep(evaluation: ModelEvaluationArtifact, s: State): Effect {
      var path := evaluation.trainedModelPath;
      var bucket := modelPusherConfig.bucketName;
      var key := modelPusherConfig.s3ModelKeyPath;
      if path !in s.files then Effect(Err(FileNotFound(path)), s)
      else if bucket !in s.buckets then Effect(Err(NoSuchBucket(bucket)), s)
      else Effect(Ok(Pusher(ModelPusherArtifact(bucket, key))), State(s.files, s.buckets[bucket := s.buckets[bucket][key := s.files[path]]]))
    }

    /** Each stage's run did what that stage does with the artifacts it was handed,
        starting from the state it records. */
    ghost predicate IngestionRan(run: StageRun) {
      run.inputs == [] && Effect(run.output, run.after) == IngestionStep(run.before)
    }

    ghost predicate ValidationRan(run: StageRun) {
      && |run.inputs| == 1 && run.inputs[0].Ingestion?
      && Effect(run.output, run.after) == ValidationStep(run.inputs[0].ingestion, run.before)
    }

    ghost predicate TransformationRan(run: StageRun) {
      && |run.inputs| == 2 && run.inputs[0].Ingestion? && run.inputs[1].Validation?
      && Effect(run.output, run.after) == TransformationStep(run.inputs[0].ingestion, run.inputs[1].validation, run.before)
    }

    ghost predicate TrainerRan(run: StageRun) {
      && |run.inputs| == 1 && run.inputs[0].Transformation?
      && Effect(run.output, run.after) == TrainerStep(run.inputs[0].transformation, run.before)
    }

    ghost predicate EvaluationRan(run: StageRun) {
      && |run.inputs| == 2 && run.inputs[0].Ingestion? && run.inputs[1].Trainer?
      && Effect(run.output, run.after) == EvaluationStep(run.inputs[0].ingestion, run.inputs[1].trainer, run.before)
    }

    ghost predicate PusherRan(run: StageRun) {
      && |run.inputs| == 1 && run.inputs[0].Evaluation?
      && Effect(run.output, run.after) == PusherStep(run.inputs[0].evaluation, run.before)
    }

    /** The run did what its stage does. */
    ghost predicate Performed(run: StageRun) {
      match run.stage
      case DataIngestionStage => IngestionRan(run)
      case DataValidationStage => ValidationRan(run)
      case DataTransformationStage => TransformationRan(run)
      case ModelTrainerStage => TrainerRan(run)
      case ModelEvaluationStage => EvaluationRan(run)
      case ModelPusherStage => PusherRan(run)
    }

    /** Run `k` started the `k`-th stage from the state the run before it left, produced
        an artifact of that stage's kind if it returned, and returned unless it is the
        last run. */
    ghost predicate StageRan(runs: seq<StageRun>, k: nat)
      requires k < |runs|
    {
      && k < |StageOrder()| && runs[k].stage == StageOrder()[k]
      && (k < |runs| - 1 ==> runs[k + 1].before == runs[k].after)
      && (runs[k].output.Ok? ==> ArtifactOf(runs[k].stage, runs[k].output.value))
      && (k < |runs| - 1 ==> runs[k].output.Ok?)
    }

    /** The stages ran in order, each doing what it does from the state the previous one
        left, and only the last one may have raised. The trigger keeps a run's step from
        being unfolded until some proof asks about that run. */
    ghost predicate InOrder(runs: seq<StageRun>) {
      forall k: nat {:trigger StageRan(runs, k)} :: k < |runs| ==> StageRan(runs, k) && Performed(runs[k])
    }

    /** A run that starts the next stage from the state the last returned stage left, and
        does what that stage does, extends runs in order. */
    lemma {:induction false} InOrderExtended(done: seq<StageRun>, run: StageRun)
      requires InOrder(done) && |done| < |StageOrder()| && run.stage == StageOrder()[|done|]
      requires |done| > 0 ==> done[|done| - 1].output.Ok? && run.before == done[|done| - 1].after
      requires run.output.Ok? ==> ArtifactOf(run.stage, run.output.value)
      requires Performed(run)
      ensures InOrder(done + [run])
    {
      var runs := done + [run];
      forall k: nat | k < |runs|
        ensures StageRan(runs, k) && Performed(runs[k])
      {
        if k < |done| {
          assert StageRan(done, k);
        }
      }
    }

    /** What `run_pipeline` guarantees about the stages one run started and its outcome. */
    ghost predicate Orchestrated(runs: seq<StageRun>, r: Result<(), USVISAException>) {
      InOrder(runs) && Outcome(runs, r)
    }

    /** The stages in `done` ran in order and all returned, the last one leaving `s`; a
        run that got past transformation passed validation. */
    ghost predicate Returned(done: seq<StageRun>, s: State) {
      && 0 < |done| < |StageOrder()|
      && InOrder(done) && Threaded(done)
      && (forall k :: 0 <= k < |done| ==> done[k].output.Ok?)
      && done[|done| - 1].after == s
      && (|done| > 2 ==> done[1].output.value.Validation? && done[1].output.value.validation.validationStatus)
    }

    /** What `RunStages` promises, for the runs of a `run_pipeline` that began with the
        stages in `done`, from state `s` to state `s'`. */
    ghost predicate Continues(done: seq<StageRun>, runs: seq<StageRun>, r: Result<(), USVISAException>, s: State, s': State) {
      && Orchestrated(runs, r)
      && |done| < |runs| && runs[..|done|] == done
      && runs[|runs| - 1].after == s'
      && (|runs| < 6 ==> s'.buckets == s.buckets)
    }

    /** A run that got through the pusher put the model the trainer saved in that same
        run under the configured key: evaluation reads only, so the file the pusher
        uploads is the one the trainer wrote. */
    lemma PushedTrainedModel(runs: seq<StageRun>, r: Result<(), USVISAException>)
      requires Orchestrated(runs, r) && |runs| == 6 && r.Ok?
      ensures runs[3].output.Ok? && runs[3].output.value.Trainer?
      ensures var path := runs[3].output.value.trainer.trainedModelFilePath;
        var bucket := modelPusherConfig.bucketName;
        var key := modelPusherConfig.s3ModelKeyPath;
        && path in runs[3].after.files
        && bucket in runs[5].after.buckets && key in runs[5].after.buckets[bucket]
        && runs[5].after.buckets[bucket][key] == runs[3].after.files[path]
        && runs[5].output == Ok(Pusher(ModelPusherArtifact(bucket, key)))
      ensures |runs[3].inputs| == 1 && runs[3].inputs[0].Transformation?
      ensures var t := ModelTrainer.TrainedModel(runs[3].inputs[0].transformation, modelTrainerConfig, ml, runs[3].before.files);
        && t.Ok? && runs[3].after.files[runs[3].output.value.trainer.trainedModelFilePath] == Pickle(ModelObject(t.value.0))
    {
      assert StageRan(runs, 3) && StageRan(runs, 4) && StageRan(runs, 5);
    }

    /** `start_data_ingestion`. */
    method StartDataIngestion() returns (r: Result<DataIngestionArtifact, Cause>)
      modifies disk
      ensures Effect(IngestionOutput(r), State(disk.files, s3.buckets)) == IngestionStep(State(old(disk.files), old(s3.buckets)))
    {
      r := DataIngestion.InitiateDataIngestion(dataIngestionConfig, ingestedSplit, disk);
    }

    /** `start_data_validation`. */
    method StartDataValidation(ingestion: DataIngestionArtifact) returns (r: Result<DataValidationArtifact, Cause>)
      modifies disk
      ensures Effect(ValidationOutput(r), State(disk.files, s3.buckets)) == ValidationStep(ingestion, State(old(disk.files), old(s3.buckets)))
    {
      r := DataValidation.InitiateDataValidation(schema, dataValidationConfig, ingestion, ml, disk);
    }

    /** `start_data_transformation`. */
    method StartDataTransformation(ingestion: DataIngestionArtifact, validation: DataValidationArtifact)
      returns (r: Result<DataTransformationArtifact, Cause>)
      modifies disk
      ensures Effect(TransformationOutput(r), State(disk.files, s3.buckets))
              == TransformationStep(ingestion, validation, State(old(disk.files), old(s3.buckets)))
    {
      r := DataTransformation.InitiateDataTransformation(schema, dataTransformationConfig, ingestion, validation,
                                                         targetColumn, currentYear, ml, disk);
    }

    /** `start_model_trainer`. */
    method StartModelTrainer(transformation: DataTransformationArtifact) returns (r: Result<ModelTrainerArtifact, Cause>)
      modifies disk
      ensures Effect(TrainerOutput(r), State(disk.files, s3.buckets)) == TrainerStep(transformation, State(old(disk.files), old(s3.buckets)))
    {
      r := ModelTrainer.InitiateModelTrainer(transformation, modelTrainerConfig, ml, disk);
    }

    /** `start_model_evaluation`: reads only, so it changes neither the disk nor the store. */
    method StartModelEvaluation(ingestion: DataIngestionArtifact, trainer: ModelTrainerArtifact)
      returns (r: Result<ModelEvaluationArtifact, Cause>)
      ensures Effect(EvaluationOutput(r), State(disk.files, s3.buckets)) == EvaluationStep(ingestion, trainer, State(disk.files, s3.buckets))
    {
      r := ModelEvaluation.InitiateModelEvaluation(ingestion, trainer, modelEvaluationConfig, targetColumn, currentYear,
                                                   ml, disk, s3);
    }

    /** `start_model_pusher`. */
    method StartModelPusher(evaluation: ModelEvaluationArtifact) returns (r: Result<ModelPusherArtifact, Cause>)
      modifies s3, disk
      ensures Effect(PusherOutput(r), State(disk.files, s3.buckets)) == PusherStep(evaluation, State(old(disk.files), old(s3.buckets)))
    {
      var modelPusher := new ModelPusher.ModelPusher(evaluation, modelPusherConfig, s3);
      r := modelPusher.InitiateModelPusher(disk);
    }

    /** The body of `run_pipeline`: the stages it starts, in order, and its outcome. Each
        stage is given the artifacts `Threaded` names and does what its step function says
        from the state the previous stage left; every stage but the last one started
        returned; the run raises exactly when that last stage raised, naming it; the pusher
        is started exactly when the evaluation accepted the model, and without it the
        store is left as it was. A failed validation is not a quiet stop: the run raises at
        the transformation stage with the validation message. */
    method RunStages() returns (runs: seq<StageRun>, r: Result<(), USVISAException>)
      modifies disk, s3
      ensures Orchestrated(runs, r)
      ensures runs[0].before == State(old(disk.files), old(s3.buckets))
      ensures runs[|runs| - 1].after == State(disk.files, s3.buckets)
      ensures |runs| < 6 ==> s3.buckets == old(s3.buckets)
    {
      ghost var before := State(disk.files, s3.buckets);
      var dataIngestionArtifact := StartDataIngestion();
      var run := StageRun(DataIngestionStage, [], IngestionOutput(dataIngestionArtifact), before, State(disk.files, s3.buckets));
      InOrderExtended([], run);
      if dataIngestionArtifact.Err? {
        return [run], Err(USVISAException(DataIngestionStage, dataIngestionArtifact.error));
      }
      runs, r := RunFromValidation(dataIngestionArtifact.value, [run]);
    }

    /** The stages from validation on, once ingestion returned `ingestion`. */
    method RunFromValidation(ingestion: DataIngestionArtifact, done: seq<StageRun>)
      returns (runs: seq<StageRun>, r: Result<(), USVISAException>)
      requires |done| == 1 && Returned(done, State(disk.files, s3.buckets)) && done[0].output == Ok(Ingestion(ingestion))
      modifies disk, s3
      ensures Continues(done, runs, r, State(old(disk.files), old(s3.buckets)), State(disk.files, s3.buckets))
    {
      ghost var before := State(disk.files, s3.buckets);
      var dataValidationArtifact := StartDataValidation(ingestion);
      var run := StageRun(DataValidationStage, [Ingestion(ingestion)], ValidationOutput(dataValidationArtifact),
                          before, State(disk.files, s3.buckets));
      InOrderExtended(done, run);
      if dataValidationArtifact.Err? {
        return done + [run], Err(USVISAException(DataValidationStage, dataValidationArtifact.error));
      }
      runs, r := RunFromTransformation(ingestion, dataValidationArtifact.value, done + [run]);
    }

    /** Starts the transformation stage after the stages in `done` and records it: the
        run extends `done` in order, and a failed validation makes it raise. */
    method RecordDataTransformation(ingestion: DataIngestionArtifact, validation: DataValidationArtifact, done: seq<StageRun>)
      returns (r: Result<DataTransformationArtifact, Cause>, run: StageRun)
      requires |done| == 2 && Returned(done, State(disk.files, s3.buckets))
      requires done[0].output == Ok(Ingestion(ingestion)) && done[1].output == Ok(Validation(validation))
      modifies disk
      ensures run == StageRun(DataTransformationStage, [Ingestion(ingestion), Validation(validation)], TransformationOutput(r),
                              State(old(disk.files), s3.buckets), State(disk.files, s3.buckets))
      ensures InOrder(done + [run])
      ensures !validation.validationStatus ==> r == Err(ValidationFailed(validation.message))
    {
      ghost var before := State(disk.files, s3.buckets);
      r := StartDataTransformation(ingestion, validation);
      run := StageRun(DataTransformationStage, [Ingestion(ingestion), Validation(validation)], TransformationOutput(r),
                      before, State(disk.files, s3.buckets));
      InOrderExtended(done, run);
    }

    /** The stages from transformation on, once validation returned `validation`. */
    method RunFromTransformation(ingestion: DataIngestionArtifact, validation: DataValidationArtifact, done: seq<StageRun>)
      returns (runs: seq<StageRun>, r: Result<(), USVISAException>)
      requires |done| == 2 && Returned(done, State(disk.files, s3.buckets))
      requires done[0].output == Ok(Ingestion(ingestion)) && done[1].output == Ok(Validation(validation))
      modifies disk, s3
      ensures Continues(done, runs, r, State(old(disk.files), old(s3.buckets)), State(disk.files, s3.buckets))
    {
      var dataTransformationArtifact, run := RecordDataTransformation(ingestion, validation, done);
      if dataTransformationArtifact.Err? {
        return done + [run], Err(USVISAException(DataTransformationStage, dataTransformationArtifact.error));
      }
      runs, r := RunFromTrainer(ingestion, dataTransformationArtifact.value, done + [run]);
    }

    /** The stages from the trainer on, once transformation returned `transformation`. */
    method RunFromTrainer(ingestion: DataIngestionArtifact, transformation: DataTransformationArtifact, done: seq<StageRun>)
      returns (runs: seq<StageRun>, r: Result<(), USVISAException>)
      requires |done| == 3 && Returned(done, State(disk.files, s3.buckets))
      requires done[0].output == Ok(Ingestion(ingestion)) && done[2].output == Ok(Transformation(transformation))
      modifies disk, s3
      ensures Continues(done, runs, r, State(old(disk.files), old(s3.buckets)), State(disk.files, s3.buckets))
    {
      ghost var before := State(disk.files, s3.buckets);
      var modelTrainerArtifact := StartModelTrainer(transformation);
      var run := StageRun(ModelTrainerStage, [Transformation(transformation)], TrainerOutput(modelTrainerArtifact),
                          before, State(disk.files, s3.buckets));
      InOrderExtended(done, run);
      if modelTrainerArtifact.Err? {
        return done + [run], Err(USVISAException(ModelTrainerStage, modelTrainerArtifact.error));
      }
      runs, r := RunFromEvaluation(ingestion, modelTrainerArtifact.value, done + [run]);
    }

    /** The evaluation stage, then the pusher if the evaluation accepted the model. */
    method RunFromEvaluation(ingestion: DataIngestionArtifact, trainer: ModelTrainerArtifact, done: seq<StageRun>)
      returns (runs: seq<StageRun>, r: Result<(), USVISAException>)
      requires |done| == 4 && Returned(done, State(disk.files, s3.buckets))
      requires done[0].output == Ok(Ingestion(ingestion)) && done[3].output == Ok(Trainer(trainer))
      modifies disk, s3
      ensures Continues(done, runs, r, State(old(disk.files), old(s3.buckets)), State(disk.files, s3.buckets))
    {
      ghost var before := State(disk.files, s3.buckets);
      var modelEvaluationArtifact := StartModelEvaluation(ingestion, trainer);
      var run := StageRun(ModelEvaluationStage, [Ingestion(ingestion), Trainer(trainer)], EvaluationOutput(modelEvaluationArtifact),
                          before, before);
      InOrderExtended(done, run);
      if modelEvaluationArtifact.Err? {
        return done + [run], Err(USVISAException(ModelEvaluationStage, modelEvaluationArtifact.error));
      }
      if !modelEvaluationArtifact.value.isModelAccepted {
        return done + [run], Ok(());
      }
      var modelPusherArtifact := StartModelPusher(modelEvaluationArtifact.value);
      var last := StageRun(ModelPusherStage, [Evaluation(modelEvaluationArtifact.value)], PusherOutput(modelPusherArtifact),
                           before, State(disk.files, s3.buckets));
      InOrderExtended(done + [run], last);
      runs := done + [run, last];
      assert runs == done + [run] + [last];
      r := if modelPusherArtifact.Err? then Err(USVISAException(ModelPusherStage, modelPusherArtifact.error)) else Ok(());
    }

    /** `run_pipeline`: runs the stages and logs each one it started. */
    method RunPipeline() returns (r: Result<(), USVISAException>)
      modifies this, disk, s3
      ensures log == old(log) + lastRun
      ensures Orchestrated(lastRun, r)
      ensures lastRun[0].before == State(old(disk.files), old(s3.buckets))
      ensures lastRun[|lastRun| - 1].after == State(disk.files, s3.buckets)
      ensures |lastRun| < 6 ==> s3.buckets == old(s3.buckets)
    {
      var runs;
      runs, r := RunStages();
      log := log + runs;
      lastRun := runs;
    }
  }
}
