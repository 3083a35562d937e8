/** The records of config_entity.py and artifact_entity.py, with the fields the
    components read. Paths are opaque strings. */
module Entities {
  import opened Ml

  /** The schema file: the declared columns and the column groups. */
  datatype Schema = Schema(
    columns: seq<string>,
    numericalColumns: seq<string>,
    categoricalColumns: seq<string>,
    dropColumns: seq<string>,
    groups: ColumnGroups)

  datatype DataIngestionConfig = DataIngestionConfig(trainingFilePath: string, testingFilePath: string)

  datatype DataValidationConfig = DataValidationConfig(driftReportFilePath: string)

  datatype DataTransformationConfig = DataTransformationConfig(
    transformedTrainFilePath: string, transformedTestFilePath: string, transformedObjectFilePath: string)

  datatype ModelTrainerConfig = ModelTrainerConfig(
    trainedModelFilePath: string, expectedAccuracy: real, modelConfigFilePath: string)

  datatype ModelEvaluationConfig = ModelEvaluationConfig(bucketName: string, s3ModelKeyPath: string)

  datatype ModelPusherConfig = ModelPusherConfig(bucketName: string, s3ModelKeyPath: string)

  datatype USvisaPredictorConfig = USvisaPredictorConfig(modelBucketName: string, modelFilePath: string)

  datatype DataIngestionArtifact = DataIngestionArtifact(trainedFilePath: string, testFilePath: string)

  datatype DataValidationArtifact = DataValidationArtifact(
    validationStatus: bool, message: string, driftReportFilePath: string)

  datatype DataTransformationArtifact = DataTransformationArtifact(
    transformedObjectFilePath: string, transformedTrainFilePath: string, transformedTestFilePath: string)

  datatype ClassificationMetricArtifact = ClassificationMetricArtifact(
    f1Score: real, precisionScore: real, recallScore: real)

  datatype ModelTrainerArtifact = ModelTrainerArtifact(
    trainedModelFilePath: string, metricArtifact: ClassificationMetricArtifact)

  datatype ModelEvaluationArtifact = ModelEvaluationArtifact(
    isModelAccepted: bool, s3ModelPath: string, trainedModelPath: string, changedAccuracy: real)

  datatype ModelPusherArtifact = ModelPusherArtifact(bucketName: string, s3ModelPath: string)
}
