/** prediction_pipeline.py: one visa application as a one-row frame, and the classifier
    that loads the production model from the object store and predicts with it. */
module PredictionPipeline {
  import opened Wrappers
  import opened Errors
  import opened Frames
  import opened Ml
  import opened Files
  import opened Entities
  import opened TargetEstimator
  import AwsStorage
  import S3Estimator

  /** The ten features of one application, as the form submits them. */
  datatype USvisaData = USvisaData(
    continent: Cell,
    educationOfEmployee: Cell,
    hasJobExperience: Cell,
    requiresJobTraining: Cell,
    noOfEmployees: Cell,
    regionOfEmployment: Cell,
    prevailingWage: Cell,
    unitOfWage: Cell,
    fullTimePosition: Cell,
    companyAge: Cell)

  /** The model's input columns, in the order the input dict lists them. */
  function FeatureNames(): seq<string> {
    ["continent", "education_of_employee", "has_job_experience", "requires_job_training", "no_of_employees",
     "region_of_employment", "prevailing_wage", "unit_of_wage", "full_time_position", "company_age"]
  }

  /** The features of `d`, position by position with `FeatureNames`. */
  function Features(d: USvisaData): seq<Cell> {
    [d.continent, d.educationOfEmployee, d.hasJobExperience, d.requiresJobTraining, d.noOfEmployees,
     d.regionOfEmployment, d.prevailingWage, d.unitOfWage, d.fullTimePosition, d.companyAge]
  }

  /** The application read back from a row laid out as `FeatureNames`. */
  function FromRow(row: seq<Cell>): USvisaData
    requires |row| == 10
  {
    USvisaData(row[0], row[1], row[2], row[3], row[4], row[5], row[6], row[7], row[8], row[9])
  }

  /** `get_usvisa_data_as_dict`: every feature name mapped to a one-element list holding
      that feature. */
  function GetUsvisaDataAsDict(d: USvisaData): (r: seq<(string, seq<Cell>)>)
    ensures |r| == |FeatureNames()|
    ensures forall i :: 0 <= i < |r| ==> r[i].0 == FeatureNames()[i] && r[i].1 == [Features(d)[i]]
  {
    [("continent", [d.continent]),
     ("education_of_employee", [d.educationOfEmployee]),
     ("has_job_experience", [d.hasJobExperience]),
     ("requires_job_training", [d.requiresJobTraining]),
     ("no_of_employees", [d.noOfEmployees]),
     ("region_of_employment", [d.regionOfEmployment]),
     ("prevailing_wage", [d.prevailingWage]),
     ("unit_of_wage", [d.unitOfWage]),
     ("full_time_position", [d.fullTimePosition]),
     ("company_age", [d.companyAge])]
  }

  /** `get_usvisa_input_data_frame`: never raises, and gives a frame with the model's
      input columns and exactly one row, the application's features. */
  function GetUsvisaInputDataFrame(d: USvisaData): (r: Result<DataFrame, Cause>)
    ensures r.Ok?
    ensures r.value.columns == FeatureNames() && |r.value.rows| == 1 && r.value.rows[0] == Features(d)
  {
    var dict := GetUsvisaDataAsDict(d);
    var r := FromDict(dict);
    assert r.Ok?;
    assert r.value.columns == FeatureNames();
    assert |r.value.rows[0]| == |FeatureNames()|;
    assert forall i :: 0 <= i < |FeatureNames()| ==> r.value.rows[0][i] == dict[i].1[0];
    r
  }

  /** The frame's one row holds the application and nothing else: reading it back gives
      the application. */
  lemma InputFrameRoundTrip(d: USvisaData)
    ensures FromRow(GetUsvisaInputDataFrame(d).value.rows[0]) == d
  {
    var row := GetUsvisaInputDataFrame(d).value.rows[0];
    assert row == Features(d);
  }

  /** What `predict` returns for the store as it is at the call: the estimator is built
      afresh, so it loads the model from the store and predicts with it. */
  function Prediction(buckets: map<string, AwsStorage.Bucket>, config: USvisaPredictorConfig, df: DataFrame, ml: Oracles)
    : (r: Result<seq<Cell>, Cause>)
    ensures r.Ok? <==> && AwsStorage.LoadModel(buckets, config.modelFilePath, config.modelBucketName, None).Ok?
                       && AwsStorage.LoadModel(buckets, config.modelFilePath, config.modelBucketName, None).value.ModelObject?
  {
    var obj :- AwsStorage.LoadModel(buckets, config.modelFilePath, config.modelBucketName, None);
    S3Estimator.PredictWith(obj, df, ml)
  }

  /** When the only key under the model path holds a pickled model, the prediction is
      that model's: its preprocessor's transform followed by its estimator's predict. */
  lemma PredictionUsesStoredModel(buckets: map<string, AwsStorage.Bucket>, config: USvisaPredictorConfig, df: DataFrame,
                                  ml: Oracles, key: string, model: USvisaModel)
    requires config.modelBucketName in buckets
    requires AwsStorage.KeysWithPrefix(buckets[config.modelBucketName], config.modelFilePath) == {key}
    requires buckets[config.modelBucketName][key] == Pickle(ModelObject(model))
    ensures Prediction(buckets, config, df, ml) == Ok(ml.predict(model.trainedModelObject, ml.transform(model.preprocessingObject, df)))
  {
    var l := AwsStorage.LoadModel(buckets, config.modelFilePath, config.modelBucketName, None);
    assert AwsStorage.ModelFile(config.modelFilePath, None) == config.modelFilePath;
    assert l.Ok?;
    var k :| AwsStorage.KeysWithPrefix(buckets[config.modelBucketName], config.modelFilePath) == {k}
             && buckets[config.modelBucketName][k] == Pickle(l.value);
    assert k in {key};
  }

  class USvisaClassifier {
    const predictionPipelineConfig: USvisaPredictorConfig
    /** The object store the estimator reads from. */
    const s3: AwsStorage.SimpleStorageService

    constructor(predictionPipelineConfig: USvisaPredictorConfig, s3: AwsStorage.SimpleStorageService)
      ensures this.predictionPipelineConfig == predictionPipelineConfig && this.s3 == s3
    {
      this.predictionPipelineConfig := predictionPipelineConfig;
      this.s3 := s3;
    }

    /** `predict`: a new estimator on every call, so no model is kept between calls and
        each prediction uses what the store holds now; the store is left as it was. */
    method Predict(dataframe: DataFrame, ml: Oracles) returns (r: Result<seq<Cell>, Cause>)
      ensures r == Prediction(s3.buckets, predictionPipelineConfig, dataframe, ml)
    {
      var model := new S3Estimator.USvisaEstimator(predictionPipelineConfig.modelBucketName,
                                                   predictionPipelineConfig.modelFilePath, s3);
      r := model.Predict(dataframe, ml);
    }
  }
}
