/** s3_estimator.py: a model kept under one key of the object store, loaded lazily
    the first time it is asked to predict. */
module S3Estimator {
  import opened Wrappers
  import opened Errors
  import opened Frames
  import opened Ml
  import opened Files
  import AwsStorage

  /** Calling `predict(dataframe=df)` on what was unpickled: a `USvisaModel` predicts,
      any other object has no such method. */
  function PredictWith(obj: PyObject, df: DataFrame, ml: Oracles): (r: Result<seq<Cell>, Cause>)
    ensures r.Ok? <==> obj.ModelObject?
    ensures obj.ModelObject? ==> r.value == ml.predict(obj.model.trainedModelObject, ml.transform(obj.model.preprocessingObject, df))
  {
    match obj
    case ModelObject(m) => Ok(m.Predict(df, ml))
    case PreprocessorObject(_) => Err(AttributeError)
  }

  class USvisaEstimator {
    const bucketName: string
    const modelPath: string
    /** The store client; every client sees the same buckets, so it is shared. */
    const s3: AwsStorage.SimpleStorageService
    /** The model read on the first `predict`; None until then. */
    var loadedModel: Option<PyObject>

    constructor(bucketName: string, modelPath: string, s3: AwsStorage.SimpleStorageService)
      ensures this.bucketName == bucketName && this.modelPath == modelPath && this.s3 == s3
      ensures loadedModel == None
    {
      this.bucketName := bucketName;
      this.modelPath := modelPath;
      this.s3 := s3;
      loadedModel := None;
    }

    /** `is_model_present`: the prefix test on this estimator's bucket; a bucket that
        cannot be listed counts as "no model" instead of raising. */
    function IsModelPresent(modelPath: string): (b: bool)
      reads s3
      ensures b <==> bucketName in s3.buckets && exists k :: k in s3.buckets[bucketName] && modelPath <= k
    {
      match AwsStorage.S3KeyPathAvailable(s3.buckets, bucketName, modelPath)
      case Ok(present) => present
      case Err(_) => false
    }

    /** `load_model`: the store's load at `modelPath` itself, with no directory. */
    function LoadModel(): (r: Result<PyObject, Cause>)
      reads s3
      ensures r == AwsStorage.LoadModel(s3.buckets, modelPath, bucketName, None)
      ensures r.Ok? ==>
                && bucketName in s3.buckets
                && exists k :: AwsStorage.KeysWithPrefix(s3.buckets[bucketName], modelPath) == {k} && s3.buckets[bucketName][k] == Pickle(r.value)
    {
      assert AwsStorage.ModelFile(modelPath, None) == modelPath;
      AwsStorage.LoadModel(s3.buckets, modelPath, bucketName, None)
    }

    /** `save_model`: uploads `fromFile` to `modelPath` in this bucket; the local file
        is kept unless `remove` is set. */
    method SaveModel(disk: LocalDisk, fromFile: string, remove: bool := false) returns (r: Result<(), Cause>)
      modifies s3, disk
      ensures r.Ok? <==> fromFile in old(disk.files) && bucketName in old(s3.buckets)
      ensures r.Err? ==> r.error == if fromFile !in old(disk.files) then FileNotFound(fromFile) else NoSuchBucket(bucketName)
      ensures r.Ok? ==> s3.buckets == old(s3.buckets)[bucketName := old(s3.buckets)[bucketName][modelPath := old(disk.files)[fromFile]]]
      ensures r.Ok? ==> disk.files == if remove then old(disk.files) - {fromFile} else old(disk.files)
      ensures r.Err? ==> s3.buckets == old(s3.buckets) && disk.files == old(disk.files)
    {
      r := s3.UploadFile(disk, fromFile, modelPath, bucketName, remove);
    }

    /** `predict`: the model is read from the store only while nothing is cached; a
        cached model is used as it is, whatever the store now holds. A failed load
        leaves the cache empty. */
    method Predict(df: DataFrame, ml: Oracles) returns (r: Result<seq<Cell>, Cause>)
      modifies this
      ensures old(loadedModel).Some? ==> loadedModel == old(loadedModel) && r == PredictWith(loadedModel.value, df, ml)
      ensures old(loadedModel).None? ==>
                var l := AwsStorage.LoadModel(s3.buckets, modelPath, bucketName, None);
                && (l.Ok? ==> loadedModel == Some(l.value) && r == PredictWith(l.value, df, ml))
                && (l.Err? ==> loadedModel == None && r == Err(l.error))
    {
      if loadedModel.None? {
        var l := LoadModel();
        if l.Err? {
          return Err(l.error);
        }
        loadedModel := Some(l.value);
      }
      r := PredictWith(loadedModel.value, df, ml);
    }
  }
}
