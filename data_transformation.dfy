/** data_transformation.py: turning the validated train and test frames into the two
    arrays the trainer reads, and fitting the preprocessor that goes with them. */
module DataTransformation {
  import opened Wrappers
  import opened Errors
  import opened Frames
  import opened Ml
  import opened Files
  import opened Entities
  import opened TargetEstimator
  import opened MainUtils

  /** `CURRENT_YEAR - df['yr_of_estab']`, cell by cell: a missing year gives a missing
      age, and a text cell makes the subtraction raise. */
  function CompanyAges(years: seq<Cell>, currentYear: int): (r: Result<seq<Cell>, Cause>)
    ensures r.Ok? <==> forall i :: 0 <= i < |years| ==> !years[i].Text?
    ensures r.Ok? ==> |r.value| == |years|
    ensures r.Ok? ==> forall i :: 0 <= i < |years| ==> (years[i].Null? <==> r.value[i].Null?)
  {
    if exists i :: 0 <= i < |years| && years[i].Text? then Err(TypeError("str"))
    else Ok(seq(|years|, i requires 0 <= i < |years| => if years[i].Num? then Num(currentYear as real - years[i].x) else Null))
  }

  /** A company's age plus its year of establishment is the current year. */
  lemma AgePlusYear(years: seq<Cell>, currentYear: int, i: nat)
    requires CompanyAges(years, currentYear).Ok? && i < |years| && years[i].Num?
    ensures CompanyAges(years, currentYear).value[i].Num?
    ensures years[i].x + CompanyAges(years, currentYear).value[i].x == currentYear as real
  {
  }

  /** `Series.replace(TargetValueMapping()._asdict())`. */
  function RelabelAll(labels: seq<Cell>): (r: seq<Cell>)
    ensures |r| == |labels| && forall i :: 0 <= i < |labels| ==> r[i] == Relabel(labels[i])
  {
    seq(|labels|, i requires 0 <= i < |labels| => Relabel(labels[i]))
  }

  /** One split's input features and labels: drop the target, keep the target column
      as labels, add `company_age`, drop the schema's columns, relabel. */
  function PreparedInputs(df: DataFrame, target: string, currentYear: int, dropCols: seq<string>): (r: Result<(DataFrame, seq<Cell>), Cause>)
    ensures target !in df.columns ==> r == Err(KeyError([target]))
  {
    assert [target][..0] == [];
    assert Remaining([target], df.columns) == if target in df.columns then [] else [target];
    var features :- Drop(df, [target]);
    var labels := Column(df, target).value;
    var years :- Column(features, "yr_of_estab");
    var ages :- CompanyAges(years, currentYear);
    var inputs :- DropColumns(WithColumn(features, "company_age", ages), dropCols);
    Ok((inputs, RelabelAll(labels)))
  }

  /** What a successful preparation gives: one label per row, each relabelled from the
      target column; the inputs keep every row; their labels are the frame's labels
      without the target, plus `company_age`, minus the dropped columns; and the
      `company_age` column is computed from the frame's own years. */
  lemma PreparedInputsSpec(df: DataFrame, target: string, currentYear: int, dropCols: seq<string>)
    requires PreparedInputs(df, target, currentYear, dropCols).Ok?
    ensures var (inputs, labels) := PreparedInputs(df, target, currentYear, dropCols).value;
      && target in df.columns && "yr_of_estab" in df.columns && target != "yr_of_estab"
      && |labels| == |df.rows| && |inputs.rows| == |df.rows|
      && (forall i :: 0 <= i < |labels| ==> labels[i] == Relabel(Column(df, target).value[i]))
      && (forall c :: c in inputs.columns <==> ((c in df.columns && c != target) || c == "company_age") && c !in dropCols)
      && ("company_age" !in dropCols ==> Column(inputs, "company_age") == CompanyAges(Column(df, "yr_of_estab").value, currentYear))
  {
    var features := Drop(df, [target]).value;
    KeptLabels(df.columns, [target]);
    RemainingMembers(df.columns, [target]);
    DropKeepsColumnValues(df, [target], features);
    var ages := CompanyAges(Column(features, "yr_of_estab").value, currentYear).value;
    var withAge := WithColumn(features, "company_age", ages);
    DropColumnsLabels(withAge, dropCols);
  }

  /** `np.c_[x, y]`: each row of `x` followed by its label; a different number of labels
      and rows raises. */
  function Combine(x: Matrix, y: seq<Cell>): (r: Result<Matrix, Cause>)
    ensures r.Ok? <==> |x| == |y|
    ensures r.Ok? ==> |r.value| == |x| && forall i :: 0 <= i < |x| ==> |r.value[i]| == |x[i]| + 1
    ensures r.Ok? ==> forall i :: 0 <= i < |x| ==> r.value[i][..|x[i]|] == x[i] && r.value[i][|x[i]|] == y[i]
  {
    if |x| != |y| then Err(ShapeMismatch)
    else Ok(seq(|x|, i requires 0 <= i < |x| => x[i] + [y[i]]))
  }

  /** Each combined row is the feature row with its label appended. */
  lemma CombineRows(x: Matrix, y: seq<Cell>)
    requires Combine(x, y).Ok?
    ensures forall i :: 0 <= i < |x| ==> Combine(x, y).value[i] == x[i] + [y[i]]
  {
    var c := Combine(x, y).value;
    forall i | 0 <= i < |x|
      ensures c[i] == x[i] + [y[i]]
    {
      assert c[i] == c[i][..|x[i]|] + [c[i][|x[i]|]];
    }
  }

  /** What the stage saves: the fitted preprocessor and the two final arrays. */
  datatype Transformed = Transformed(preprocessor: Preprocessor, train: Matrix, test: Matrix)

  /** The stage's result as a function of the ingested files. */
  function TransformedArrays(schema: Schema, ingestion: DataIngestionArtifact, target: string, currentYear: int,
                             ml: Oracles, files: map<string, Blob>): Result<Transformed, Cause>
  {
    var train :- ReadCsv(files, ingestion.trainedFilePath);
    var test :- ReadCsv(files, ingestion.testFilePath);
    var preparedTrain :- PreparedInputs(train, target, currentYear, schema.dropColumns);
    var preparedTest :- PreparedInputs(test, target, currentYear, schema.dropColumns);
    var preprocessor := Fit(ColumnTransformer(schema.groups, None), preparedTrain.0);
    var resampledTrain := ml.resample(ml.transform(preprocessor, preparedTrain.0), preparedTrain.1);
    var resampledTest := ml.resample(ml.transform(preprocessor, preparedTest.0), preparedTest.1);
    var trainArr :- Combine(resampledTrain.0, resampledTrain.1);
    var testArr :- Combine(resampledTest.0, resampledTest.1);
    Ok(Transformed(preprocessor, trainArr, testArr))
  }

  /** The saved preprocessor is the schema's transformer fitted on the train inputs and on
      nothing else; the test inputs only go through `transform`, with that same fitted
      object. Every final row is a transformed, resampled feature row followed by its label. */
  lemma FittedOnTrainOnly(schema: Schema, ingestion: DataIngestionArtifact, target: string, currentYear: int,
                          ml: Oracles, files: map<string, Blob>)
    requires TransformedArrays(schema, ingestion, target, currentYear, ml, files).Ok?
    ensures var t := TransformedArrays(schema, ingestion, target, currentYear, ml, files).value;
      var trainInputs := PreparedInputs(ReadCsv(files, ingestion.trainedFilePath).value, target, currentYear, schema.dropColumns).value;
      var testInputs := PreparedInputs(ReadCsv(files, ingestion.testFilePath).value, target, currentYear, schema.dropColumns).value;
      var resampledTrain := ml.resample(ml.transform(t.preprocessor, trainInputs.0), trainInputs.1);
      var resampledTest := ml.resample(ml.transform(t.preprocessor, testInputs.0), testInputs.1);
      && t.preprocessor == ColumnTransformer(schema.groups, Some(trainInputs.0))
      && |t.train| == |resampledTrain.0| && |t.test| == |resampledTest.0|
      && (forall i :: 0 <= i < |t.train| ==> t.train[i] == resampledTrain.0[i] + [resampledTrain.1[i]])
      && (forall i :: 0 <= i < |t.test| ==> t.test[i] == resampledTest.0[i] + [resampledTest.1[i]])
  {
    var t := TransformedArrays(schema, ingestion, target, currentYear, ml, files).value;
    var trainInputs := PreparedInputs(ReadCsv(files, ingestion.trainedFilePath).value, target, currentYear, schema.dropColumns).value;
    var testInputs := PreparedInputs(ReadCsv(files, ingestion.testFilePath).value, target, currentYear, schema.dropColumns).value;
    var resampledTrain := ml.resample(ml.transform(t.preprocessor, trainInputs.0), trainInputs.1);
    var resampledTest := ml.resample(ml.transform(t.preprocessor, testInputs.0), testInputs.1);
    assert t.preprocessor == ColumnTransformer(schema.groups, Some(trainInputs.0));
    assert Combine(resampledTrain.0, resampledTrain.1) == Ok(t.train);
    assert Combine(resampledTest.0, resampledTest.1) == Ok(t.test);
    CombineRows(resampledTrain.0, resampledTrain.1);
    CombineRows(resampledTest.0, resampledTest.1);
  }

  /** `initiate_data_transformation`. A failed validation raises its message before
      anything is read or written. Otherwise the stage writes the fitted preprocessor and
      the two arrays, in that order, to the configured paths and returns those paths; a
      failure on the way writes nothing. */
  method InitiateDataTransformation(schema: Schema, config: DataTransformationConfig, ingestion: DataIngestionArtifact,
                                    validation: DataValidationArtifact, target: string, currentYear: int,
                                    ml: Oracles, disk: LocalDisk)
    returns (r: Result<DataTransformationArtifact, Cause>)
    modifies disk
    ensures !validation.validationStatus ==> r == Err(ValidationFailed(validation.message)) && disk.files == old(disk.files)
    ensures validation.validationStatus ==>
              var t := TransformedArrays(schema, ingestion, target, currentYear, ml, old(disk.files));
              && (t.Err? ==> r == Err(t.error) && disk.files == old(disk.files))
              && (t.Ok? ==>
                    && r == Ok(DataTransformationArtifact(config.transformedObjectFilePath, config.transformedTrainFilePath,
                                                          config.transformedTestFilePath))
                    && disk.files == old(disk.files)[config.transformedObjectFilePath := Pickle(PreprocessorObject(t.value.preprocessor))]
                                                    [config.transformedTrainFilePath := NumpyArray(t.value.train)]
                                                    [config.transformedTestFilePath := NumpyArray(t.value.test)])
  {
    if !validation.validationStatus {
      return Err(ValidationFailed(validation.message));
    }
    var preprocessor := ColumnTransformer(schema.groups, None);
    var trainDf :- ReadCsv(disk.files, ingestion.trainedFilePath);
    var testDf :- ReadCsv(disk.files, ingestion.testFilePath);

    var inputFeatureTrain :- Drop(trainDf, [target]);
    var targetFeatureTrain := Column(trainDf, target).value;
    var trainYears :- Column(inputFeatureTrain, "yr_of_estab");
    var trainAges :- CompanyAges(trainYears, currentYear);
    inputFeatureTrain := WithColumn(inputFeatureTrain, "company_age", trainAges);
    inputFeatureTrain :- DropColumns(inputFeatureTrain, schema.dropColumns);
    targetFeatureTrain := RelabelAll(targetFeatureTrain);

    var inputFeatureTest :- Drop(testDf, [target]);
    var targetFeatureTest := Column(testDf, target).value;
    var testYears :- Column(inputFeatureTest, "yr_of_estab");
    var testAges :- CompanyAges(testYears, currentYear);
    inputFeatureTest := WithColumn(inputFeatureTest, "company_age", testAges);
    inputFeatureTest :- DropColumns(inputFeatureTest, schema.dropColumns);
    targetFeatureTest := RelabelAll(targetFeatureTest);

    // fit_transform fits the preprocessor in place; transform then uses that fit
    preprocessor := Fit(preprocessor, inputFeatureTrain);
    var inputFeatureTrainArr := ml.transform(preprocessor, inputFeatureTrain);
    var inputFeatureTestArr := ml.transform(preprocessor, inputFeatureTest);

    var resampledTrain := ml.resample(inputFeatureTrainArr, targetFeatureTrain);
    var resampledTest := ml.resample(inputFeatureTestArr, targetFeatureTest);

    var trainArr :- Combine(resampledTrain.0, resampledTrain.1);
    var testArr :- Combine(resampledTest.0, resampledTest.1);

    disk.files := disk.files[config.transformedObjectFilePath := Pickle(PreprocessorObject(preprocessor))];
    disk.files := disk.files[config.transformedTrainFilePath := NumpyArray(trainArr)];
    disk.files := disk.files[config.transformedTestFilePath := NumpyArray(testArr)];
    r := Ok(DataTransformationArtifact(config.transformedObjectFilePath, config.transformedTrainFilePath,
                                       config.transformedTestFilePath));
  }
}
