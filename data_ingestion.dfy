/** data_ingestion.py, as an abstract stage: the export from the database and the random
    train/test split are an input here; the stage writes the two frames to the
    configured paths and names those paths. */
module DataIngestion {
  import opened Wrappers
  import opened Errors
  import opened Frames
  import opened Files
  import opened Entities

  /** `initiate_data_ingestion`: `split` is the pair of frames the export and the split
      produced, or None when they failed. */
  method InitiateDataIngestion(config: DataIngestionConfig, split: Option<(DataFrame, DataFrame)>, disk: LocalDisk)
    returns (r: Result<DataIngestionArtifact, Cause>)
    modifies disk
    ensures split.None? ==> r == Err(IngestionFailed) && disk.files == old(disk.files)
    ensures split.Some? ==>
              && r == Ok(DataIngestionArtifact(config.trainingFilePath, config.testingFilePath))
              && disk.files == old(disk.files)[config.trainingFilePath := Csv(split.value.0)][config.testingFilePath := Csv(split.value.1)]
              && ReadCsv(disk.files, r.value.testFilePath) == Ok(split.value.1)
              && (config.trainingFilePath != config.testingFilePath ==> ReadCsv(disk.files, r.value.trainedFilePath) == Ok(split.value.0))
  {
    if split.None? {
      return Err(IngestionFailed);
    }
    var (trainSet, testSet) := split.value;
    disk.files := disk.files[config.trainingFilePath := Csv(trainSet)];
    disk.files := disk.files[config.testingFilePath := Csv(testSet)];
    r := Ok(DataIngestionArtifact(config.trainingFilePath, config.testingFilePath));
  }
}
