/** The interface of the foreign numeric libraries (sklearn, imblearn, neuro_mf,
    Evidently). Their behaviour is not modelled: each call is an uninterpreted
    total function, passed in as an `Oracles` value. */
module Ml {
  import opened Wrappers
  import opened Frames

  /** A 2-D numpy array, row by row. */
  type Matrix = seq<seq<Cell>>

  /** The schema's column groups for the ColumnTransformer. */
  datatype ColumnGroups = ColumnGroups(
    oneHot: seq<string>, ordinal: seq<string>, powerTransform: seq<string>, standardScale: seq<string>)

  /** A ColumnTransformer. A fitted sklearn transformer is determined by its
      configuration and the frame it was fitted on, so the model keeps that frame. */
  datatype Preprocessor = ColumnTransformer(groups: ColumnGroups, fittedOn: Option<DataFrame>)

  /** `fit`: the same configuration, now fitted on `df`. */
  function Fit(p: Preprocessor, df: DataFrame): Preprocessor {
    p.(fittedOn := Some(df))
  }

  /** A trained model object; only its class name is observable to the pipeline. */
  datatype Estimator = Estimator(className: string, id: nat)

  /** What `ModelFactory.get_best_model` returns. */
  datatype BestModelDetail = BestModelDetail(bestModel: Estimator, bestScore: real)

  /** accuracy_score, f1_score, precision_score and recall_score of one prediction. */
  datatype Scores = Scores(accuracy: real, f1: real, precision: real, recall: real)

  /** The parsed Evidently report; `datasetDrift` is None when the report lacks the entry. */
  datatype DriftReport = DriftReport(datasetDrift: Option<bool>)

  datatype Oracles = Oracles(
    transform: (Preprocessor, DataFrame) -> Matrix,          // ColumnTransformer.transform
    resample: (Matrix, seq<Cell>) -> (Matrix, seq<Cell>),    // SMOTEENN.fit_resample
    selectBest: (Matrix, seq<Cell>, real) -> BestModelDetail, // ModelFactory.get_best_model
    predict: (Estimator, Matrix) -> seq<Cell>,               // model.predict
    scores: (seq<Cell>, seq<Cell>) -> Scores,                // sklearn.metrics on (truth, prediction)
    driftProfile: (DataFrame, DataFrame) -> DriftReport)     // Evidently data-drift profile
}
