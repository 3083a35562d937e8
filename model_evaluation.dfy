/** model_evaluation.py: comparing the trained model's F1 score with the model already
    promoted to the object store, if there is one. */
module ModelEvaluation {
  import opened Wrappers
  import opened Errors
  import opened Frames
  import opened Ml
  import opened Files
  import opened Entities
  import AwsStorage
  import opened S3Estimator
  import DataTransformation

  /** `EvaluateModelResponse`; the production score is None when nothing was promoted. */
  datatype EvaluateModelResponse = EvaluateModelResponse(
    trainedModelF1Score: real, bestModelF1Score: Option<real>, isModelAccepted: bool, difference: real)

  /** The acceptance rule: the baseline is the production model's score, or 0 when
      there is none; the trained model is accepted only when strictly better, and the
      difference is measured from the baseline. */
  function Decide(trainedF1: real, bestF1: Option<real>): (r: EvaluateModelResponse)
    ensures r.trainedModelF1Score == trainedF1 && r.bestModelF1Score == bestF1
    ensures r.isModelAccepted <==> r.difference > 0.0
    ensures bestF1.None? ==> r.difference == trainedF1
    ensures bestF1.Some? ==> r.difference + bestF1.value == trainedF1
  {
    var baseline := if bestF1.None? then 0.0 else bestF1.value;
    EvaluateModelResponse(trainedF1, bestF1, trainedF1 > baseline, trainedF1 - baseline)
  }

  /** A tie with the production model is a rejection, and so is any lower score. */
  lemma TieIsRejected(trainedF1: real, bestF1: real)
    ensures trainedF1 <= bestF1 ==> !Decide(trainedF1, Some(bestF1)).isModelAccepted
    ensures trainedF1 > bestF1 ==> Decide(trainedF1, Some(bestF1)).isModelAccepted
  {
  }

  /** With nothing promoted yet, any positive score is accepted and a zero score is not;
      the response keeps "no production score" rather than a 0. */
  lemma FirstModelAgainstZero(trainedF1: real)
    ensures Decide(trainedF1, None).isModelAccepted <==> trainedF1 > 0.0
    ensures Decide(trainedF1, None).bestModelF1Score == None
    ensures Decide(trainedF1, None).difference == Decide(trainedF1, Some(0.0)).difference
  {
  }

  /** `get_best_model`: an estimator for the configured key when some stored key starts
      with it, and None otherwise. */
  method GetBestModel(config: ModelEvaluationConfig, s3: AwsStorage.SimpleStorageService)
    returns (best: Option<USvisaEstimator>)
    ensures best.Some? <==> config.bucketName in s3.buckets
                            && exists k :: k in s3.buckets[config.bucketName] && config.s3ModelKeyPath <= k
    ensures best.Some? ==> && fresh(best.value) && best.value.loadedModel == None && best.value.s3 == s3
                           && best.value.bucketName == config.bucketName && best.value.modelPath == config.s3ModelKeyPath
  {
    var usvisaEstimator := new USvisaEstimator(config.bucketName, config.s3ModelKeyPath, s3);
    if usvisaEstimator.IsModelPresent(config.s3ModelKeyPath) {
      return Some(usvisaEstimator);
    }
    return None;
  }

  /** The production model's F1 on the evaluation inputs: None when no key starts with
      the configured one; otherwise the stored model must load and predict. */
  function ProductionF1(buckets: map<string, AwsStorage.Bucket>, config: ModelEvaluationConfig, x: DataFrame, y: seq<Cell>,
                        ml: Oracles): (r: Result<Option<real>, Cause>)
    ensures r == Ok(None) <==> !(config.bucketName in buckets && exists k :: k in buckets[config.bucketName] && config.s3ModelKeyPath <= k)
    ensures r.Err? <==> && config.bucketName in buckets && (exists k :: k in buckets[config.bucketName] && config.s3ModelKeyPath <= k)
                        && !(AwsStorage.LoadModel(buckets, config.s3ModelKeyPath, config.bucketName, None).Ok?
                             && AwsStorage.LoadModel(buckets, config.s3ModelKeyPath, config.bucketName, None).value.ModelObject?)
    ensures r.Ok? && r.value.Some? ==>
              && AwsStorage.LoadModel(buckets, config.s3ModelKeyPath, config.bucketName, None).Ok?
              && var obj := AwsStorage.LoadModel(buckets, config.s3ModelKeyPath, config.bucketName, None).value;
              && obj.ModelObject?
              && r.value.value == ml.scores(y, ml.predict(obj.model.trainedModelObject, ml.transform(obj.model.preprocessingObject, x))).f1
  {
    var present := AwsStorage.S3KeyPathAvailable(buckets, config.bucketName, config.s3ModelKeyPath);
    if present.Err? || !present.value then Ok(None)
    else
      var obj :- AwsStorage.LoadModel(buckets, config.s3ModelKeyPath, config.bucketName, None);
      var yHat :- PredictWith(obj, x, ml);
      Ok(Some(ml.scores(y, yHat).f1))
  }

  /** The production score as `evaluate_model` obtains it: through a fresh estimator,
      whose first `predict` loads the stored model. */
  method ProductionScore(config: ModelEvaluationConfig, x: DataFrame, y: seq<Cell>, ml: Oracles,
                         s3: AwsStorage.SimpleStorageService)
    returns (r: Result<Option<real>, Cause>)
    ensures r == ProductionF1(s3.buckets, config, x, y, ml)
  {
    var bestModel := GetBestModel(config, s3);
    if bestModel.None? {
      return Ok(None);
    }
    var yHatBestModel :- bestModel.value.Predict(x, ml);
    r := Ok(Some(ml.scores(y, yHatBestModel).f1));
  }

  /** The evaluation as a function of the raw test file and the store: the test frame
      gets `company_age`, loses the target (but not the schema's dropped columns), and
      its relabelled target is the truth the production model is scored against. */
  function Evaluation(ingestion: DataIngestionArtifact, trainer: ModelTrainerArtifact, config: ModelEvaluationConfig,
                      target: string, currentYear: int, ml: Oracles, files: map<string, Blob>,
                      buckets: map<string, AwsStorage.Bucket>): Result<EvaluateModelResponse, Cause>
  {
    var testDf :- ReadCsv(files, ingestion.testFilePath);
    var years :- Column(testDf, "yr_of_estab");
    var ages :- DataTransformation.CompanyAges(years, currentYear);
    var withAge := WithColumn(testDf, "company_age", ages);
    var x :- Drop(withAge, [target]);
    var y := DataTransformation.RelabelAll(Column(withAge, target).value);
    var bestF1 :- ProductionF1(buckets, config, x, y, ml);
    Ok(Decide(trainer.metricArtifact.f1Score, bestF1))
  }

  /** The trained score is the one the trainer recorded, never recomputed here, and
      acceptance is the rule `Decide` applied to it. */
  lemma EvaluationUsesTrainerScore(ingestion: DataIngestionArtifact, trainer: ModelTrainerArtifact, config: ModelEvaluationConfig,
                                   target: string, currentYear: int, ml: Oracles, files: map<string, Blob>,
                                   buckets: map<string, AwsStorage.Bucket>)
    requires Evaluation(ingestion, trainer, config, target, currentYear, ml, files, buckets).Ok?
    ensures var e := Evaluation(ingestion, trainer, config, target, currentYear, ml, files, buckets).value;
      && e.trainedModelF1Score == trainer.metricArtifact.f1Score
      && e == Decide(trainer.metricArtifact.f1Score, e.bestModelF1Score)
      && (!(config.bucketName in buckets && exists k :: k in buckets[config.bucketName] && config.s3ModelKeyPath <= k) ==>
            e.bestModelF1Score == None && (e.isModelAccepted <==> trainer.metricArtifact.f1Score > 0.0))
  {
  }

  /** `evaluate_model`: the production model, if any, is a fresh estimator, so its
      first `predict` reads the store. */
  method EvaluateModel(ingestion: DataIngestionArtifact, trainer: ModelTrainerArtifact, config: ModelEvaluationConfig,
                       target: string, currentYear: int, ml: Oracles, disk: LocalDisk, s3: AwsStorage.SimpleStorageService)
    returns (r: Result<EvaluateModelResponse, Cause>)
    ensures r == Evaluation(ingestion, trainer, config, target, currentYear, ml, disk.files, s3.buckets)
  {
    var testDf :- ReadCsv(disk.files, ingestion.testFilePath);
    var years :- Column(testDf, "yr_of_estab");
    var ages :- DataTransformation.CompanyAges(years, currentYear);
    testDf := WithColumn(testDf, "company_age", ages);
    var x :- Drop(testDf, [target]);
    var y := Column(testDf, target).value;
    y := DataTransformation.RelabelAll(y);

    var trainedModelF1Score := trainer.metricArtifact.f1Score;

    var bestModelF1Score :- ProductionScore(config, x, y, ml, s3);
    r := Ok(Decide(trainedModelF1Score, bestModelF1Score));
  }

  /** `initiate_model_evaluation`: acceptance and difference from the response, the
      store key from the configuration, the model path from the trainer. */
  method InitiateModelEvaluation(ingestion: DataIngestionArtifact, trainer: ModelTrainerArtifact, config: ModelEvaluationConfig,
                                 target: string, currentYear: int, ml: Oracles, disk: LocalDisk, s3: AwsStorage.SimpleStorageService)
    returns (r: Result<ModelEvaluationArtifact, Cause>)
    ensures var e := Evaluation(ingestion, trainer, config, target, currentYear, ml, disk.files, s3.buckets);
      && (e.Err? ==> r == Err(e.error))
      && (e.Ok? ==> r == Ok(ModelEvaluationArtifact(e.value.isModelAccepted, config.s3ModelKeyPath,
                                                   trainer.trainedModelFilePath, e.value.difference)))
  {
    var evaluateModelResponse :- EvaluateModel(ingestion, trainer, config, target, currentYear, ml, disk, s3);
    var s3ModelPath := config.s3ModelKeyPath;
    r := Ok(ModelEvaluationArtifact(evaluateModelResponse.isModelAccepted, s3ModelPath,
                                    trainer.trainedModelFilePath, evaluateModelResponse.difference));
  }
}
