# US visa approval pipeline: a Dafny model of its control logic

This project models the decision and control logic of an ML training and serving
pipeline that predicts whether a US visa application is certified or denied. The
numeric work (encoders, SMOTEENN resampling, the model factory, the sklearn metrics,
Evidently drift) is done by foreign libraries; here those calls are uninterpreted,
total functions bundled in `Ml.Oracles`. What is modelled and proved is the code
around them:

- the orchestrator `TrainPipeline.run_pipeline`: six stages in a fixed order, each
  typed artifact handed to the stages that need it, the acceptance gate before
  promotion, and the first failure ending the run;
- structural validation of the ingested frames and the drift step that runs only
  after it;
- the transformation plumbing: the validation gate, `company_age`, the target split,
  the schema's dropped columns, the Certified/Denied relabelling, fitting on the
  train inputs only, and the feature-plus-label rows;
- the trainer's label split, acceptance floor and saved bundle;
- the evaluation rule: baseline 0 when nothing is promoted, strict improvement,
  the score difference;
- the object store's key semantics (prefix presence, one object or a listing, the
  model key, upload, folder creation), promotion, and the estimator's lazy model
  cache;
- the label mapping and its reverse, the prediction bundle, the clean-up of exported
  records, and the one-row input frame of the prediction form.

Data model. A pandas frame is a sequence of column labels plus rows of cells
(`Frames.DataFrame`); a numpy array is a sequence of rows (`Ml.Matrix`). Scores are
`real`. A fitted preprocessor is kept symbolically as its configuration plus the
frame it was fitted on. The local disk (`Files.LocalDisk`) and the object store
(`AwsStorage.SimpleStorageService`) are classes whose `files` and `buckets` maps
the operations update. A file or stored object holds the value that was serialized
(`Files.Blob`), so what is read back is what was written. An exception is an `Err`
carrying its cause (`Errors.Cause`); at the orchestrator it also names the stage it
came from. Each modelled source file has its own module, named after it; the records
of `config_entity.py` and `artifact_entity.py` share `Entities`, and `Wrappers`,
`Errors`, `Frames`, `Ml` and `Files` model the libraries the code relies on (result
values, exceptions, pandas, the numeric libraries, the local disk).

## Model

| member | source | states |
|---|---|---|
| Frames.Drop | us_visa_project/utils/main_utils.py:116 | `df.drop(columns=labels)` raises exactly when some label is missing, naming every missing label; otherwise it keeps every row and exactly the columns whose labels are not dropped, in their order |
| Frames.Column | us_visa_project/components/data_transformation.py:105 | `df[name]` raises `KeyError` exactly when the label is absent; otherwise it gives one cell per row, each the row's cell under that label |
| Frames.WithColumn | us_visa_project/components/data_transformation.py:110 | `df[name] = values` keeps the labels (appending `name` if new) and the row count, reading the column back gives `values`, and every other column is unchanged |
| Frames.FromDict | us_visa_project/pipline/prediction_pipeline.py:65 | `DataFrame(dict)` succeeds exactly when all lists have the same length; the labels are the keys in order and cell (k, i) is element k of list i |
| MainUtils.DropColumns | us_visa_project/utils/main_utils.py:106-122 | the result's labels are the input labels minus `cols` in their original order, the row count is unchanged, every remaining label has the same values, and a label the frame lacks raises |
| MainUtils.DropKeepsColumnValues | us_visa_project/utils/main_utils.py:116 | after a drop, every remaining label reads the same column of values as before |
| MainUtils.DropColumnsLabels | us_visa_project/utils/main_utils.py:116 | a label is in the result exactly when it was in the frame and is not dropped |
| TargetEstimator.AsDict | us_visa_project/entity/target_estimator.py:13-20 | `_asdict()` is exactly {Certified: 0, Denied: 1} |
| TargetEstimator.ReverseMapping | us_visa_project/entity/target_estimator.py:22-25 | `reverse_mapping()`, built by zipping values with keys, is exactly {0: Certified, 1: Denied} |
| TargetEstimator.ReverseRoundTrip | us_visa_project/entity/target_estimator.py:25 | for any pairs with distinct values, the inverted dict maps each value back to its key |
| TargetEstimator.LabelRoundTrip | us_visa_project/entity/target_estimator.py:18-25 | every label, mapped forward and then back, is itself |
| TargetEstimator.Relabel | us_visa_project/components/data_transformation.py:118 | Certified becomes 0, Denied becomes 1, and any other cell is unchanged |
| TargetEstimator.USvisaModel.Predict | us_visa_project/entity/target_estimator.py:38-57 | the prediction is the bundled model's predict applied to the bundled, already fitted preprocessor's transform; nothing is fitted |
| TargetEstimator.USvisaModel.Repr | us_visa_project/entity/target_estimator.py:59-61 | the trained model's class name followed by "()" |
| TargetEstimator.USvisaModel.Str | us_visa_project/entity/target_estimator.py:63-65 | the same text as `Repr` |
| Files.ReadCsv | us_visa_project/components/data_transformation.py:39-44 | succeeds exactly when the path holds a CSV, and then returns the frame that was written there |
| Files.LoadNumpyArrayData | us_visa_project/utils/main_utils.py:75-88 | succeeds exactly when the path holds a saved array, and then returns that array |
| Files.LoadObject | us_visa_project/utils/main_utils.py:41-56 | succeeds exactly when the path holds a pickled object, and then returns that object |
| AwsStorage.KeysWithPrefix | us_visa_project/cloud_storage/aws_storage.py:29 | the listed keys are exactly the bucket's keys that start with the prefix |
| AwsStorage.S3KeyPathAvailable | us_visa_project/cloud_storage/aws_storage.py:24-32 | a missing bucket raises; otherwise the answer is true exactly when some key starts with `s3_key` (a prefix test, not key equality) |
| AwsStorage.GetFileObject | us_visa_project/cloud_storage/aws_storage.py:66-80 | one object when exactly one key has the prefix, otherwise the whole listing (empty or several); a missing bucket raises |
| AwsStorage.ModelFile | us_visa_project/cloud_storage/aws_storage.py:89 | the key is `model_name` when there is no directory, otherwise the directory, "/", then `model_name` |
| AwsStorage.LoadModel | us_visa_project/cloud_storage/aws_storage.py:82-96 | succeeds exactly when the bucket exists and exactly one key has the model prefix and holds a pickle, and then returns that pickled object |
| AwsStorage.PresentButNotLoadable | us_visa_project/cloud_storage/aws_storage.py:24-96 | two keys sharing the model prefix make the model "present" while loading it raises |
| AwsStorage.SimpleStorageService.UploadFile | us_visa_project/cloud_storage/aws_storage.py:112-128 | on success the target key holds the local file's content and only that key changes; the local file is deleted only when `remove` is set, after the upload; a missing file or bucket raises and changes nothing |
| AwsStorage.SimpleStorageService.CreateFolder | us_visa_project/cloud_storage/aws_storage.py:98-110 | writes the empty object `folder_name/` only when the HEAD request answers 404; every other client error leaves the store unchanged without raising |
| S3Estimator.PredictWith | us_visa_project/entity/s3_estimator.py:77 | an unpickled `USvisaModel` predicts with its transform-then-predict composition; any other object has no `predict` and raises |
| S3Estimator.USvisaEstimator.constructor | us_visa_project/entity/s3_estimator.py:13-23 | sets the bucket and model path; no model is loaded yet |
| S3Estimator.USvisaEstimator.IsModelPresent | us_visa_project/entity/s3_estimator.py:25-37 | true exactly when this bucket exists and some key starts with the path; a failed listing gives false instead of raising |
| S3Estimator.USvisaEstimator.LoadModel | us_visa_project/entity/s3_estimator.py:39-45 | the store's load at the model path with no directory prefix; on success the one matching key holds the returned object |
| S3Estimator.USvisaEstimator.SaveModel | us_visa_project/entity/s3_estimator.py:47-63 | uploads the local file to the model path of this bucket and keeps the local file unless `remove` is set |
| S3Estimator.USvisaEstimator.Predict | us_visa_project/entity/s3_estimator.py:65-79 | a cached model is reused, whatever the store now holds; with no cache the model is loaded once and cached; a failed load raises and leaves the cache empty |
| UsvisaData.FrameColumns | us_visa_project/data_access/usvisa_data.py:50 | the frame's labels are distinct and are exactly the field names that occur in some record |
| UsvisaData.RecordsToFrame | us_visa_project/data_access/usvisa_data.py:50 | one row per record; each cell is the record's value for that label, or missing when the record lacks the field |
| UsvisaData.SelectCollectionAsWritten | us_visa_project/data_access/usvisa_data.py:44-47 | the default database is read when no name is given; a named database is subscripted on the client wrapper, which raises |
| UsvisaData.NamedDatabaseRaises | us_visa_project/data_access/usvisa_data.py:47 | even naming the client's own default database raises, while naming none succeeds |
| UsvisaData.SelectCollection | us_visa_project/data_access/usvisa_data.py:44-47 | the records come from the default database when no name is given and from the named database otherwise; a missing database or collection gives no records |
| UsvisaData.DefaultNameAgrees | us_visa_project/data_access/usvisa_data.py:44-47 | naming the default database reads the same records as naming none |
| UsvisaData.ReplaceNa | us_visa_project/data_access/usvisa_data.py:57 | every "na" cell becomes missing and every other cell is unchanged; labels and row count are kept |
| UsvisaData.ExportCollectionAsDataframe | us_visa_project/data_access/usvisa_data.py:28-63 | one row per record; `_id` is removed exactly when present and every other field label is kept in order; each cell is the record's value with "na" turned into missing |
| DataValidation.ValidateNumberOfColumns | us_visa_project/components/data_validation.py:39-51 | true exactly when the frame has as many columns as the schema lists |
| DataValidation.CountIgnoresNames | us_visa_project/components/data_validation.py:47 | only counts are compared: a frame with wrong labels but the right count passes, and one holding every schema label plus one more fails |
| DataValidation.IsColumnExist | us_visa_project/components/data_validation.py:53-79 | true exactly when every numerical and every categorical schema column is a label of the frame |
| DataValidation.StructuralMessageEmpty | us_visa_project/components/data_validation.py:136-158 | the accumulated message is empty, so the status is true, exactly when all four checks pass |
| DataValidation.InitiateDataValidation | us_visa_project/components/data_validation.py:122-176 | both files are read first; the status is the conjunction of the four checks and the failure message is their texts in check order; drift is computed and its report written only when the status is true, and then only the message changes, to the drift verdict; the report path is always the configured one |
| DataTransformation.CompanyAges | us_visa_project/components/data_transformation.py:110 | `CURRENT_YEAR - yr_of_estab` cell by cell: one age per row, missing exactly where the year is missing; a text year raises |
| DataTransformation.AgePlusYear | us_visa_project/components/data_transformation.py:110 | age plus year of establishment is the current year |
| DataTransformation.RelabelAll | us_visa_project/components/data_transformation.py:118 | the label sequence keeps its length and each label is relabelled with the fixed map |
| DataTransformation.PreparedInputs | us_visa_project/components/data_transformation.py:104-118 | a frame without the target column raises `KeyError` naming it |
| DataTransformation.PreparedInputsSpec | us_visa_project/components/data_transformation.py:104-130 | one relabelled target label per row; the inputs keep every row; their labels are the frame's without the target, plus `company_age`, minus the schema's dropped columns; `company_age` is computed from the frame's own years |
| DataTransformation.Combine | us_visa_project/components/data_transformation.py:144-145 | each row is the feature row with its label appended, one column wider; differing counts raise |
| DataTransformation.CombineRows | us_visa_project/components/data_transformation.py:144 | every combined row equals the feature row followed by its label |
| DataTransformation.FittedOnTrainOnly | us_visa_project/components/data_transformation.py:135-145 | the saved preprocessor is fitted on the train inputs and nothing else; the test inputs are only transformed with it; every final row is a resampled feature row followed by its label |
| DataTransformation.InitiateDataTransformation | us_visa_project/components/data_transformation.py:86-166 | a failed validation raises its message and writes nothing; otherwise the preprocessor and the two arrays are written to the configured paths and the artifact names those paths; any failure on the way writes nothing |
| ModelTrainer.SplitFeaturesAndLabel | us_visa_project/components/model_trainer.py:42 | every column but the last are the features and the last is the label, so each row is its features followed by its label; a row without columns raises |
| ModelTrainer.SplitCombineRoundTrip | us_visa_project/components/model_trainer.py:42 | splitting an array the transformation combined gives back its features and labels, and combining a split gives back the array |
| ModelTrainer.GetModelObjectAndReport | us_visa_project/components/model_trainer.py:27-64 | the model is chosen on the train block; the metrics compare its predictions on the test block with the test labels; accuracy is not kept |
| ModelTrainer.AcceptanceFloor | us_visa_project/components/model_trainer.py:84-92 | training succeeds exactly when the best score is at least the expected accuracy, a tie included; the bundle pairs the loaded preprocessor with the chosen model |
| ModelTrainer.InitiateModelTrainer | us_visa_project/components/model_trainer.py:66-106 | on success the bundle is saved at the configured path and the artifact holds that path and the test metrics; on any failure, the floor included, nothing is saved |
| ModelEvaluation.Decide | us_visa_project/components/model_evaluation.py:87-93 | accepted exactly when the difference is positive; the difference is measured from the production score, or from 0 when there is none; the response keeps "no production score" as None |
| ModelEvaluation.TieIsRejected | us_visa_project/components/model_evaluation.py:91 | an equal or lower score is rejected; a strictly higher one is accepted |
| ModelEvaluation.FirstModelAgainstZero | us_visa_project/components/model_evaluation.py:80-92 | with nothing promoted, the baseline is 0: a positive score is accepted, a zero score is not, and the production score stays None |
| ModelEvaluation.GetBestModel | us_visa_project/components/model_evaluation.py:43-59 | an estimator for the configured bucket and key, with nothing cached, exactly when some stored key starts with that key; None otherwise |
| ModelEvaluation.ProductionF1 | us_visa_project/components/model_evaluation.py:80-84 | no production score exactly when the bucket is missing or no stored key starts with the configured key; an error exactly when such a key exists but the store does not load a model bundle there; otherwise the score is the F1 of that bundle's transform-then-predict on the evaluation inputs |
| ModelEvaluation.ProductionScore | us_visa_project/components/model_evaluation.py:80-84 | obtaining the score through a fresh estimator, presence check first and lazy load on `predict`, gives exactly `ProductionF1` on the store's current contents |
| ModelEvaluation.EvaluationUsesTrainerScore | us_visa_project/components/model_evaluation.py:78-93 | the trained score is the trainer's recorded F1, not recomputed, and the response is the acceptance rule applied to it; with nothing promoted it is accepted exactly when that score is positive |
| ModelEvaluation.EvaluateModel | us_visa_project/components/model_evaluation.py:61-98 | the evaluation as a function of the test file and the store: test frame plus `company_age`, target dropped and relabelled, production score if a model is present, then the rule |
| ModelEvaluation.InitiateModelEvaluation | us_visa_project/components/model_evaluation.py:100-122 | acceptance and difference come from the response, the store key from the configuration, the model path from the trainer artifact |
| ModelPusher.ModelPusher.constructor | us_visa_project/components/model_pusher.py:12-26 | the estimator names the configured bucket and key and uses the same store |
| ModelPusher.ModelPusher.InitiateModelPusher | us_visa_project/components/model_pusher.py:28-58 | the file at the evaluation's model path becomes the content of the configured key and no other key changes; the local file is kept; the artifact holds the configured bucket and key; acceptance is not checked here |
| DataIngestion.InitiateDataIngestion | us_visa_project/components/data_ingestion.py:78-103 | the two frames are written to the configured paths and the artifact names those paths; the test frame reads back as written, and so does the train frame when the two paths differ; a failed export or split raises and writes nothing |
| TrainingPipeline.TrainPipeline.constructor | us_visa_project/pipline/training_pipeline.py:31-38 | sets the six stage configurations; nothing has run yet |
| TrainingPipeline.TrainPipeline.StartDataIngestion | us_visa_project/pipline/training_pipeline.py:40-53 | the stage's artifact, error and disk are exactly `IngestionStep` of the disk and store it found: the two frames of the split at the configured paths and an artifact naming them, or, when the export or split failed, a raise that writes nothing |
| TrainingPipeline.TrainPipeline.StartDataValidation | us_visa_project/pipline/training_pipeline.py:55-71 | exactly `ValidationStep` of the given ingestion artifact and the state found: both files read, the status is the four structural checks, and the drift report is written, and the message becomes the drift verdict, only for a structurally valid pair |
| TrainingPipeline.TrainPipeline.StartDataTransformation | us_visa_project/pipline/training_pipeline.py:73-90 | exactly `TransformationStep` of the given artifacts and the state found: a failed validation raises its message and writes nothing; otherwise the fitted preprocessor and both arrays computed from the ingested files are written to the configured paths |
| TrainingPipeline.TrainPipeline.StartModelTrainer | us_visa_project/pipline/training_pipeline.py:92-107 | exactly `TrainerStep` of the given artifact and the state found: the trained bundle saved at the configured path and the test metrics in the artifact, or a raise that saves nothing |
| TrainingPipeline.TrainPipeline.StartModelEvaluation | us_visa_project/pipline/training_pipeline.py:109-126 | exactly `EvaluationStep` of the given artifacts and the current state; the disk and the store are not changed |
| TrainingPipeline.TrainPipeline.StartModelPusher | us_visa_project/pipline/training_pipeline.py:128-143 | exactly `PusherStep` of the given artifact and the state found: a missing model file or bucket raises and changes nothing; otherwise the configured key takes the trained model file's content and nothing else changes |
| TrainingPipeline.TrainPipeline.InOrderExtended | us_visa_project/pipline/training_pipeline.py:153-171 | a run that starts the next stage from the state the last returned stage left, and does what that stage does, extends a run in order |
| TrainingPipeline.TrainPipeline.RunStages | us_visa_project/pipline/training_pipeline.py:151-171 | `Orchestrated`: run k started stage k with the artifacts `Threaded` names (the ingestion artifact to validation, transformation and evaluation, every other artifact to the next stage), from the state run k-1 left, and its artifact, error and resulting state are that stage's step function on them; only the last may fail; the run raises exactly when the last stage raised, naming it; the pusher runs exactly when the model is accepted, and the store is untouched otherwise; a failed validation raises at the transformation stage. The first run starts from the state found and the last leaves the state returned |
| TrainingPipeline.TrainPipeline.RunPipeline | us_visa_project/pipline/training_pipeline.py:145-175 | the log gains the stages this run started, and they satisfy `Orchestrated` as above, from the disk and store found to the ones left |
| TrainingPipeline.TrainPipeline.PushedTrainedModel | us_visa_project/pipline/training_pipeline.py:160-171 | in a run that got through the pusher, the configured key of the store now holds the very file the trainer saved in that run, the bundle trained from the transformation's arrays |
| PredictionPipeline.GetUsvisaDataAsDict | us_visa_project/pipline/prediction_pipeline.py:69-96 | exactly the ten feature keys, in order, each mapped to a one-element list holding that feature unchanged |
| PredictionPipeline.GetUsvisaInputDataFrame | us_visa_project/pipline/prediction_pipeline.py:57-67 | never raises; the frame has the ten feature labels and exactly one row, the application's features |
| PredictionPipeline.InputFrameRoundTrip | us_visa_project/pipline/prediction_pipeline.py:44-89 | reading the frame's one row back gives the application that was entered |
| PredictionPipeline.Prediction | us_visa_project/pipline/prediction_pipeline.py:126-132 | the prediction succeeds exactly when the store's model loads and is a model bundle |
| PredictionPipeline.PredictionUsesStoredModel | us_visa_project/pipline/prediction_pipeline.py:126-132 | when the one key under the model path holds a bundle, the prediction is that bundle's transform-then-predict |
| PredictionPipeline.USvisaClassifier.Predict | us_visa_project/pipline/prediction_pipeline.py:115-136 | a fresh estimator on every call, so each prediction reads the store as it is now and no model is kept between calls |

## Left out

- The foreign numeric libraries (sklearn encoders and metrics, SMOTEENN, the `neuro_mf` model factory, Evidently) are uninterpreted total functions; their own failures and their floating-point arithmetic are not modelled, and scores are `real`.
- The database export, the feature-store CSV write and sklearn's random train/test split in `data_ingestion.py` are not modelled; their outcome is an input to `DataIngestion.InitiateDataIngestion` (a pair of frames, or None for a failure).
- The connection code (`aws_connection.py`, `mongo_db_connection.py`), environment variables and process-wide client singletons are not modelled. Every `SimpleStorageService()` in the source talks to the same buckets, so the model passes one shared store object instead of creating one per estimator or pusher (`s3_estimator.py:21`, `model_pusher.py:20`).
- Logging and the traceback text of `USVISAException` are not modelled; an exception is its cause, plus the stage at the orchestrator. `TrainingPipeline.TrainPipeline.RunPipeline` records the stages it started in `log` in place of the log lines.
- The import at `us_visa_project/utils/main_utils.py:9` names `USvisaException`, while `us_visa_project/exception/__init__.py:23` defines `USVISAException`; the model treats that name as the project exception.
- `TARGET_COLUMN` and `CURRENT_YEAR` (`us_visa_project/constants`) are parameters. Configuration paths are opaque strings.
- Frames.Column: a label that occurs twice reads the first column so labelled, whereas pandas would return all of them; the frames the pipeline reads come from `read_csv` and its own column assignments, which never produce a duplicated label.
- The order of an S3 listing is not modelled: `AwsStorage.GetFileObject` returns a listing as a set of keys. `read_object`, `get_bucket`, `upload_df_as_csv`, `get_df_from_object` and `read_csv` of `aws_storage.py` are used only inside `load_model` (modelled there) or not at all by the core.
- AwsStorage.SimpleStorageService.CreateFolder: the HEAD request's 403 answer is a parameter (`accessDenied`), since access control is not modelled.
- ModelTrainer.InitiateModelTrainer: a preprocessing file that holds some other pickled object is reported as an error here; Python would bundle whatever it unpickled without checking.
- UsvisaData.ExportCollectionAsDataframe: uses the corrected database selection (see Findings); the database access itself is a map of records.
- The YAML, dill and numpy helpers of `main_utils.py` are modelled only as typed file contents (`Files.Blob`), so a read returns exactly what was written.
- `app.py`, `demo.py` and `template.py` (web routing, a script entry, scaffolding) are not part of this model.

## Findings

| source | as written | input that shows it | evidently intended | confidence | as-written member | corrected member |
|---|---|---|---|---|---|---|
| us_visa_project/data_access/usvisa_data.py:47 | a named database is looked up as `self.mongo_client[database_name]`, but `mongo_client` is the project's `MongoDBClient` wrapper, which defines no `__getitem__`, so the subscript raises `TypeError` | `export_collection_as_dataframe("visa_data", database_name=DATABASE_NAME)`, naming even the default database | read the collection from the named database (`self.mongo_client.client[database_name]`) | not executed | UsvisaData.SelectCollectionAsWritten, UsvisaData.NamedDatabaseRaises | UsvisaData.SelectCollection |
