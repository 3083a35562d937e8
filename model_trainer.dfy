/** model_trainer.py: choosing the best model on the transformed arrays, checking it
    against the expected accuracy, and saving it bundled with the preprocessor. */
module ModelTrainer {
  import opened Wrappers
  import opened Errors
  import opened Frames
  import opened Ml
  import opened Files
  import opened Entities
  import opened TargetEstimator
  import DataTransformation

  /** `arr[:, :-1], arr[:, -1]`: every column but the last are the features, the last is
      the label. A row with no column has no last column and raises. */
  function SplitFeaturesAndLabel(m: Matrix): (r: Result<(Matrix, seq<Cell>), Cause>)
    ensures r.Ok? <==> forall i :: 0 <= i < |m| ==> |m[i]| > 0
    ensures r.Err? ==> r.error == IndexError
    ensures r.Ok? ==> |r.value.0| == |m| && |r.value.1| == |m|
    ensures r.Ok? ==> forall i :: 0 <= i < |m| ==> m[i] == r.value.0[i] + [r.value.1[i]]
  {
    if exists i :: 0 <= i < |m| && |m[i]| == 0 then Err(IndexError)
    else
      var features := seq(|m|, i requires 0 <= i < |m| => m[i][..|m[i]| - 1]);
      var labels := seq(|m|, i requires 0 <= i < |m| => m[i][|m[i]| - 1]);
      assert forall i :: 0 <= i < |m| ==> m[i] == features[i] + [labels[i]];
      Ok((features, labels))
  }

  /** Splitting what the transformation stage joined gives back its features and labels,
      and joining what a split gives back rebuilds the array. */
  lemma SplitCombineRoundTrip(x: Matrix, y: seq<Cell>, m: Matrix)
    ensures DataTransformation.Combine(x, y) == Ok(m) ==> SplitFeaturesAndLabel(m) == Ok((x, y))
    ensures SplitFeaturesAndLabel(m) == Ok((x, y)) ==> DataTransformation.Combine(x, y) == Ok(m)
  {
    if DataTransformation.Combine(x, y) == Ok(m) {
      assert forall i :: 0 <= i < |m| ==> |m[i]| > 0;
      var s := SplitFeaturesAndLabel(m).value;
      assert forall i :: 0 <= i < |m| ==> s.0[i] == m[i][..|m[i]| - 1] == x[i];
      assert s.0 == x;
      assert s.1 == y;
    }
    if SplitFeaturesAndLabel(m) == Ok((x, y)) {
      var c := DataTransformation.Combine(x, y).value;
      assert forall i :: 0 <= i < |m| ==> c[i] == m[i];
      assert c == m;
    }
  }

  /** `get_model_object_and_report`: the model factory chooses on the train block; the
      chosen model predicts the test block, and the metrics compare those predictions
      with the test labels. Accuracy is computed but not kept. */
  function GetModelObjectAndReport(train: Matrix, test: Matrix, expectedAccuracy: real, ml: Oracles)
    : (r: Result<(BestModelDetail, ClassificationMetricArtifact), Cause>)
    ensures r.Ok? <==> SplitFeaturesAndLabel(train).Ok? && SplitFeaturesAndLabel(test).Ok?
    ensures r.Ok? ==>
              var (xTrain, yTrain) := SplitFeaturesAndLabel(train).value;
              var (xTest, yTest) := SplitFeaturesAndLabel(test).value;
              && r.value.0 == ml.selectBest(xTrain, yTrain, expectedAccuracy)
              && var s := ml.scores(yTest, ml.predict(r.value.0.bestModel, xTest));
              && r.value.1 == ClassificationMetricArtifact(s.f1, s.precision, s.recall)
  {
    var (xTrain, yTrain) :- SplitFeaturesAndLabel(train);
    var (xTest, yTest) :- SplitFeaturesAndLabel(test);
    var bestModelDetail := ml.selectBest(xTrain, yTrain, expectedAccuracy);
    var yPred := ml.predict(bestModelDetail.bestModel, xTest);
    var s := ml.scores(yTest, yPred);
    Ok((bestModelDetail, ClassificationMetricArtifact(s.f1, s.precision, s.recall)))
  }

  /** The trained bundle and its metrics, as a function of the transformation artifact
      and the files on disk: the arrays are read, the model chosen, the preprocessor read,
      and only then is the best score held against the floor. */
  function TrainedModel(transformation: DataTransformationArtifact, config: ModelTrainerConfig, ml: Oracles,
                        files: map<string, Blob>): Result<(USvisaModel, ClassificationMetricArtifact), Cause>
  {
    var trainArr :- LoadNumpyArrayData(files, transformation.transformedTrainFilePath);
    var testArr :- LoadNumpyArrayData(files, transformation.transformedTestFilePath);
    var (bestModelDetail, metricArtifact) :- GetModelObjectAndReport(trainArr, testArr, config.expectedAccuracy, ml);
    var preprocessingObj :- LoadObject(files, transformation.transformedObjectFilePath);
    if !preprocessingObj.PreprocessorObject? then Err(TypeError("preprocessing object"))
    else if bestModelDetail.bestScore < config.expectedAccuracy then Err(NoBestModel)
    else Ok((USvisaModel(preprocessingObj.preprocessor, bestModelDetail.bestModel), metricArtifact))
  }

  /** The acceptance floor: once everything has been read, training succeeds exactly
      when the best score reaches the expected accuracy, a score equal to it included;
      the bundle pairs the saved preprocessor with the chosen model. */
  lemma AcceptanceFloor(transformation: DataTransformationArtifact, config: ModelTrainerConfig, ml: Oracles,
                        files: map<string, Blob>)
    requires LoadNumpyArrayData(files, transformation.transformedTrainFilePath).Ok?
    requires LoadNumpyArrayData(files, transformation.transformedTestFilePath).Ok?
    requires GetModelObjectAndReport(LoadNumpyArrayData(files, transformation.transformedTrainFilePath).value,
                                     LoadNumpyArrayData(files, transformation.transformedTestFilePath).value,
                                     config.expectedAccuracy, ml).Ok?
    requires LoadObject(files, transformation.transformedObjectFilePath).Ok?
    requires LoadObject(files, transformation.transformedObjectFilePath).value.PreprocessorObject?
    ensures var report := GetModelObjectAndReport(LoadNumpyArrayData(files, transformation.transformedTrainFilePath).value,
                                                  LoadNumpyArrayData(files, transformation.transformedTestFilePath).value,
                                                  config.expectedAccuracy, ml).value;
      var t := TrainedModel(transformation, config, ml, files);
      && (t.Ok? <==> report.0.bestScore >= config.expectedAccuracy)
      && (t.Err? ==> t.error == NoBestModel)
      && (t.Ok? ==> t.value.0 == USvisaModel(LoadObject(files, transformation.transformedObjectFilePath).value.preprocessor,
                                             report.0.bestModel)
                    && t.value.1 == report.1)
  {
  }

  /** `initiate_model_trainer`: on success the bundle is saved under the configured path
      and the artifact holds that path and the test metrics; on any failure, including a
      score below the floor, nothing is saved. */
  method InitiateModelTrainer(transformation: DataTransformationArtifact, config: ModelTrainerConfig, ml: Oracles,
                              disk: LocalDisk)
    returns (r: Result<ModelTrainerArtifact, Cause>)
    modifies disk
    ensures var t := TrainedModel(transformation, config, ml, old(disk.files));
      && (t.Err? ==> r == Err(t.error) && disk.files == old(disk.files))
      && (t.Ok? ==> r == Ok(ModelTrainerArtifact(config.trainedModelFilePath, t.value.1))
                    && disk.files == old(disk.files)[config.trainedModelFilePath := Pickle(ModelObject(t.value.0))])
  {
    var trainArr :- LoadNumpyArrayData(disk.files, transformation.transformedTrainFilePath);
    var testArr :- LoadNumpyArrayData(disk.files, transformation.transformedTestFilePath);
    var report :- GetModelObjectAndReport(trainArr, testArr, config.expectedAccuracy, ml);
    var (bestModelDetail, metricArtifact) := report;
    var preprocessingObj :- LoadObject(disk.files, transformation.transformedObjectFilePath);
    if !preprocessingObj.PreprocessorObject? {
      return Err(TypeError("preprocessing object"));
    }
    if bestModelDetail.bestScore < config.expectedAccuracy {
      return Err(NoBestModel);
    }
    var usvisaModel := USvisaModel(preprocessingObj.preprocessor, bestModelDetail.bestModel);
    disk.files := disk.files[config.trainedModelFilePath := Pickle(ModelObject(usvisaModel))];
    r := Ok(ModelTrainerArtifact(config.trainedModelFilePath, metricArtifact));
  }
}
