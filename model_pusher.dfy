/** model_pusher.py: uploading the accepted model to the configured key of the store. */
module ModelPusher {
  import opened Wrappers
  import opened Errors
  import opened Files
  import opened Entities
  import AwsStorage
  import opened S3Estimator

  class ModelPusher {
    const s3: AwsStorage.SimpleStorageService
    const modelEvaluationArtifact: ModelEvaluationArtifact
    const modelPusherConfig: ModelPusherConfig
    const usvisaEstimator: USvisaEstimator

    /** The estimator the pusher saves through names the configured bucket and key and
        shares the store. */
    predicate Valid() {
      && usvisaEstimator.s3 == s3
      && usvisaEstimator.bucketName == modelPusherConfig.bucketName
      && usvisaEstimator.modelPath == modelPusherConfig.s3ModelKeyPath
    }

    constructor(modelEvaluationArtifact: ModelEvaluationArtifact, modelPusherConfig: ModelPusherConfig,
                s3: AwsStorage.SimpleStorageService)
      ensures Valid()
      ensures this.s3 == s3 && this.modelEvaluationArtifact == modelEvaluationArtifact
      ensures this.modelPusherConfig == modelPusherConfig
    {
      this.s3 := s3;
      this.modelEvaluationArtifact := modelEvaluationArtifact;
      this.modelPusherConfig := modelPusherConfig;
      usvisaEstimator := new USvisaEstimator(modelPusherConfig.bucketName, modelPusherConfig.s3ModelKeyPath, s3);
    }

    /** `initiate_model_pusher`: the file at the evaluation's trained-model path becomes
        the content of the configured key, and no other key changes; the local file
        stays. Acceptance is not checked here. */
    method InitiateModelPusher(disk: LocalDisk) returns (r: Result<ModelPusherArtifact, Cause>)
      requires Valid()
      modifies s3, disk
      ensures var path := modelEvaluationArtifact.trainedModelPath;
        var bucket := modelPusherConfig.bucketName;
        && (r.Ok? <==> path in old(disk.files) && bucket in old(s3.buckets))
        && (r.Err? ==> r.error == if path !in old(disk.files) then FileNotFound(path) else NoSuchBucket(bucket))
        && (r.Ok? ==> && r.value == ModelPusherArtifact(bucket, modelPusherConfig.s3ModelKeyPath)
                      && s3.buckets == old(s3.buckets)[bucket := old(s3.buckets)[bucket][modelPusherConfig.s3ModelKeyPath := old(disk.files)[path]]])
        && (r.Err? ==> s3.buckets == old(s3.buckets))
      ensures disk.files == old(disk.files)
    {
      var saved := usvisaEstimator.SaveModel(disk, modelEvaluationArtifact.trainedModelPath);
      if saved.Err? {
        return Err(saved.error);
      }
      r := Ok(ModelPusherArtifact(modelPusherConfig.bucketName, modelPusherConfig.s3ModelKeyPath));
    }
  }
}
