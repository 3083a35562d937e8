/** data_validation.py: the structural checks of the ingested train and test frames
    against the schema, and the drift check that runs only when they pass. */
module DataValidation {
  import opened Wrappers
  import opened Errors
  import opened Frames
  import opened Ml
  import opened Files
  import opened Entities

  const TrainMissing: string := "Columns are missing in training dataframe."
  const TestMissing: string := "Columns are missing in test dataframe."
  const DriftDetected: string := "Drift detected"
  const DriftNotDetected: string := "Drift not detected"

  /** `validate_number_of_columns`: the frame has as many columns as the schema lists.
      Only the counts are compared. */
  function ValidateNumberOfColumns(schema: Schema, df: DataFrame): (b: bool)
    ensures b <==> |df.columns| == |schema.columns|
  {
    |df.columns| == |schema.columns|
  }

  /** The count check cannot tell the schema's labels from any others: a frame with
      the right number of columns passes even if none of its labels is in the schema,
      and a frame holding every schema label plus one more fails. */
  lemma CountIgnoresNames(schema: Schema, df: DataFrame, extra: string)
    requires |df.columns| == |schema.columns|
    ensures ValidateNumberOfColumns(schema, df)
    ensures !ValidateNumberOfColumns(schema, Table(schema.columns + [extra], []))
  {
  }

  /** Every numerical and every categorical column of the schema is a label of the frame. */
  predicate ColumnsExist(schema: Schema, columns: seq<string>) {
    && (forall c :: c in schema.numericalColumns ==> c in columns)
    && (forall c :: c in schema.categoricalColumns ==> c in columns)
  }

  /** `is_column_exist`: collects the missing numerical columns and the missing
      categorical columns, each in schema order, and passes when both lists are empty. */
  method IsColumnExist(schema: Schema, df: DataFrame) returns (b: bool)
    ensures b <==> ColumnsExist(schema, df.columns)
  {
    var missingNumerical: seq<string> := [];
    var i := 0;
    while i < |schema.numericalColumns|
      invariant 0 <= i <= |schema.numericalColumns|
      invariant missingNumerical == Remaining(schema.numericalColumns[..i], df.columns)
    {
      assert schema.numericalColumns[..i + 1] == schema.numericalColumns[..i] + [schema.numericalColumns[i]];
      if schema.numericalColumns[i] !in df.columns {
        missingNumerical := missingNumerical + [schema.numericalColumns[i]];
      }
      i := i + 1;
    }
    assert schema.numericalColumns[..i] == schema.numericalColumns;
    var missingCategorical: seq<string> := [];
    i := 0;
    while i < |schema.categoricalColumns|
      invariant 0 <= i <= |schema.categoricalColumns|
      invariant missingCategorical == Remaining(schema.categoricalColumns[..i], df.columns)
    {
      assert schema.categoricalColumns[..i + 1] == schema.categoricalColumns[..i] + [schema.categoricalColumns[i]];
      if schema.categoricalColumns[i] !in df.columns {
        missingCategorical := missingCategorical + [schema.categoricalColumns[i]];
      }
      i := i + 1;
    }
    assert schema.categoricalColumns[..i] == schema.categoricalColumns;
    RemainingEmpty(schema.numericalColumns, df.columns);
    RemainingEmpty(schema.categoricalColumns, df.columns);
    b := !(missingCategorical != [] || missingNumerical != []);
  }

  /** The message the four structural checks accumulate, in check order: train count,
      test count, train presence, test presence. */
  function StructuralMessage(trainCount: bool, testCount: bool, trainExist: bool, testExist: bool): string {
    AppendUnless(AppendUnless(AppendUnless(AppendUnless("", trainCount, TrainMissing), testCount, TestMissing),
                              trainExist, TrainMissing), testExist, TestMissing)
  }

  /** `msg += text` when a check fails. */
  function AppendUnless(msg: string, passed: bool, text: string): string {
    if passed then msg else msg + text
  }

  /** The message is empty exactly when all four checks pass, so the status computed
      from its length is their conjunction; a failing check always leaves its text. */
  lemma StructuralMessageEmpty(trainCount: bool, testCount: bool, trainExist: bool, testExist: bool)
    ensures StructuralMessage(trainCount, testCount, trainExist, testExist) == "" <==> trainCount && testCount && trainExist && testExist
  {
    var a := if trainCount then 0 else |TrainMissing|;
    var b := if testCount then 0 else |TestMissing|;
    var c := if trainExist then 0 else |TrainMissing|;
    var d := if testExist then 0 else |TestMissing|;
    assert |TrainMissing| > 0 && |TestMissing| > 0;
    assert |StructuralMessage(trainCount, testCount, trainExist, testExist)| == a + b + c + d;

  }

  /** The structural status of a train and a test frame. */
  predicate StructurallyValid(schema: Schema, train: DataFrame, test: DataFrame) {
    && ValidateNumberOfColumns(schema, train) && ValidateNumberOfColumns(schema, test)
    && ColumnsExist(schema, train.columns) && ColumnsExist(schema, test.columns)
  }

  /** `initiate_data_validation`. The two frames are read first. The status is whether the
      four structural checks all pass; only then is the drift report computed and
      written, and the message replaced by the drift verdict. A report without the
      dataset-drift entry raises. The status is never changed by drift, and the report
      path is the configured one. */
  method InitiateDataValidation(schema: Schema, config: DataValidationConfig, ingestion: DataIngestionArtifact,
                                ml: Oracles, disk: LocalDisk)
    returns (r: Result<DataValidationArtifact, Cause>)
    modifies disk
    ensures ReadCsv(old(disk.files), ingestion.trainedFilePath).Err? ==>
              r == Err(ReadCsv(old(disk.files), ingestion.trainedFilePath).error) && disk.files == old(disk.files)
    ensures ReadCsv(old(disk.files), ingestion.trainedFilePath).Ok? && ReadCsv(old(disk.files), ingestion.testFilePath).Err? ==>
              r == Err(ReadCsv(old(disk.files), ingestion.testFilePath).error) && disk.files == old(disk.files)
    ensures ReadCsv(old(disk.files), ingestion.trainedFilePath).Ok? && ReadCsv(old(disk.files), ingestion.testFilePath).Ok? ==>
              var train := ReadCsv(old(disk.files), ingestion.trainedFilePath).value;
              var test := ReadCsv(old(disk.files), ingestion.testFilePath).value;
              var message := StructuralMessage(ValidateNumberOfColumns(schema, train), ValidateNumberOfColumns(schema, test),
                                               ColumnsExist(schema, train.columns), ColumnsExist(schema, test.columns));
              var report := ml.driftProfile(train, test);
              && (!StructurallyValid(schema, train, test) ==>
                    && r == Ok(DataValidationArtifact(false, message, config.driftReportFilePath))
                    && disk.files == old(disk.files))
              && (StructurallyValid(schema, train, test) ==>
                    && disk.files == old(disk.files)[config.driftReportFilePath := Yaml(report)]
                    && (report.datasetDrift.None? ==> r == Err(MalformedDriftReport))
                    && (report.datasetDrift.Some? ==>
                          r == Ok(DataValidationArtifact(true, if report.datasetDrift.value then DriftDetected else DriftNotDetected,
                                                         config.driftReportFilePath))))
  {
    var validationErrorMsg := "";
    var train :- ReadCsv(disk.files, ingestion.trainedFilePath);
    var test :- ReadCsv(disk.files, ingestion.testFilePath);

    var status := ValidateNumberOfColumns(schema, train);
    if !status {
      validationErrorMsg := validationErrorMsg + TrainMissing;
    }
    status := ValidateNumberOfColumns(schema, test);
    if !status {
      validationErrorMsg := validationErrorMsg + TestMissing;
    }
    status := IsColumnExist(schema, train);
    if !status {
      validationErrorMsg := validationErrorMsg + TrainMissing;
    }
    status := IsColumnExist(schema, test);
    if !status {
      validationErrorMsg := validationErrorMsg + TestMissing;
    }
    assert validationErrorMsg == StructuralMessage(ValidateNumberOfColumns(schema, train), ValidateNumberOfColumns(schema, test),
                                                   ColumnsExist(schema, train.columns), ColumnsExist(schema, test.columns));
    StructuralMessageEmpty(ValidateNumberOfColumns(schema, train), ValidateNumberOfColumns(schema, test),
                           ColumnsExist(schema, train.columns), ColumnsExist(schema, test.columns));

    var validationStatus := |validationErrorMsg| == 0;
    if validationStatus {
      // detect_dataset_drift: profile, write the report, then read its verdict
      var report := ml.driftProfile(train, test);
      disk.files := disk.files[config.driftReportFilePath := Yaml(report)];
      if report.datasetDrift.None? {
        return Err(MalformedDriftReport);
      }
      validationErrorMsg := if report.datasetDrift.value then DriftDetected else DriftNotDetected;
    }
    r := Ok(DataValidationArtifact(validationStatus, validationErrorMsg, config.driftReportFilePath));
  }
}
