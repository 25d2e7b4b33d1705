/**
 * `preprocess_like_training`: the preprocessing shared by training and
 * inference. After canonical renaming and the feature-engineering pipeline,
 * the consumption residual is either computed with a frozen residual artifact
 * or refitted on the batch. The pipeline, the refit and the winsorisation are
 * parameters; so is the artifact's scaler-and-model prediction.
 */
module SharedFeatures {
  import opened Wrappers
  import opened Numeric
  import opened Frames
  import FeatureEngineeringTest

  const YCol: string := "Total Electricity Consumption (kwH)"
  const XCols: seq<string> := ["Area in m^2", "nb_appart", "nb_floor", "year_norm_z"]

  /**
   * The residual artifact saved by training. `xCols` is its "x_cols" entry;
   * `predict` is `model.predict(scaler.transform(X))`, `None` when it raises
   * (including a missing scaler or model).
   */
  datatype ResidualArtifact = ResidualArtifact(
    xCols: Option<seq<string>>,
    predict: seq<Column<Float>> -> Option<seq<Float>>)

  datatype PreprocessError = MissingResidualColumns(missing: seq<string>)

  datatype ResidualPath = Applied | Refitted

  datatype Prepared = Prepared(frame: seq<Column<Float>>, path: ResidualPath)

  /** The foreign steps: `fe.apply_pipeline` (given its correlation threshold), `build_residual`, `winsorize_and_ratios`. */
  datatype Steps = Steps(
    pipeline: (seq<Column<Float>>, Option<real>) -> seq<Column<Float>>,
    refit: seq<Column<Float>> -> seq<Column<Float>>,
    winsorize: seq<Column<Float>> -> seq<Column<Float>>)

  /** `residual_art.get("x_cols") or x_cols`. */
  function ArtifactXCols(art: ResidualArtifact): (cols: seq<string>)
    ensures art.xCols.Some? && art.xCols.value != [] ==> cols == art.xCols.value
    ensures art.xCols.None? || art.xCols.value == [] ==> cols == XCols
  {
    if art.xCols.Some? && art.xCols.value != [] then art.xCols.value else XCols
  }

  /** `corr_threshold=0.85 if drop_corr else None`. */
  function CorrThreshold(dropCorr: bool): (th: Option<real>)
    ensures th.Some? <==> dropCorr
    ensures dropCorr ==> th == Some(0.85)
  {
    if dropCorr then Some(0.85) else None
  }

  /** `y - y_pred`, cell by cell. */
  function Residuals(y: seq<Float>, pred: seq<Float>): (r: seq<Float>)
    requires |pred| == |y|
    ensures |r| == |y| && forall i :: 0 <= i < |y| ==> r[i] == Sub(y[i], pred[i])
  {
    seq(|y|, i requires 0 <= i < |y| => Sub(y[i], pred[i]))
  }

  function AbsCells(r: seq<Float>): (a: seq<Float>)
    ensures |a| == |r| && forall i :: 0 <= i < |r| ==> a[i] == Abs(r[i])
  {
    seq(|r|, i requires 0 <= i < |r| => Abs(r[i]))
  }

  /** `df_fe[res_x_cols]`. */
  function ArtifactInput(fe: seq<Column<Float>>, cols: seq<string>): (x: seq<Column<Float>>)
    requires forall c :: c in cols ==> Has(fe, c)
    ensures |x| == |cols| && forall k :: 0 <= k < |cols| ==> x[k] == Column(cols[k], Get(fe, cols[k]))
  {
    seq(|cols|, k requires 0 <= k < |cols| => Column(cols[k], Get(fe, cols[k])))
  }

  /** The artifact's columns and the target are all present. */
  predicate ArtifactColumnsPresent(fe: seq<Column<Float>>, art: ResidualArtifact) {
    forall c :: c in ArtifactXCols(art) + [YCol] ==> Has(fe, c)
  }

  /**
   * What the artifact yields for the engineered frame: `None` when its
   * columns are missing or applying it raises (a prediction of the wrong
   * length raises in the subtraction); otherwise the target minus the
   * prediction, row by row.
   */
  function ArtifactResidual(fe: seq<Column<Float>>, art: ResidualArtifact): (r: Option<seq<Float>>)
    ensures !ArtifactColumnsPresent(fe, art) ==> r.None?
    ensures ArtifactColumnsPresent(fe, art) ==>
      var pred := art.predict(ArtifactInput(fe, ArtifactXCols(art)));
      var y := Get(fe, YCol);
      (r.Some? <==> pred.Some? && |pred.value| == |y|) &&
      (r.Some? ==> |r.value| == |y| && forall i :: 0 <= i < |y| ==> r.value[i] == Sub(y[i], pred.value[i]))
  {
    var cols := ArtifactXCols(art);
    MissingEmpty(cols + [YCol], fe);
    if Missing(cols + [YCol], fe) != [] then None
    else
      assert YCol in cols + [YCol];
      var pred := art.predict(ArtifactInput(fe, cols));
      var y := Get(fe, YCol);
      if pred.None? || |pred.value| != |y| then None
      else Some(Residuals(y, pred.value))
  }

  /** The artifact branch's two writes into the engineered frame. */
  function WithResidual(fe: seq<Column<Float>>, resid: seq<Float>): seq<Column<Float>> {
    Set(Set(fe, "kwh_residual", resid), "kwh_resid_abs", AbsCells(resid))
  }

  /** `preprocess_like_training(df, drop_corr=..., residual_art=...)` as a value; the input is copied, never changed. */
  function PreprocessLikeTraining(df: seq<Column<Float>>, dropCorr: bool, art: Option<ResidualArtifact>, steps: Steps)
    : Result<Prepared, PreprocessError>
  {
    var fe := steps.pipeline(FeatureEngineeringTest.CanonicalizeForModel(df), CorrThreshold(dropCorr));
    var missing := Missing(XCols + [YCol], fe);
    if missing != [] then Err(MissingResidualColumns(missing))
    else if art.Some? && ArtifactResidual(fe, art.value).Some? then
      Ok(Prepared(steps.winsorize(WithResidual(fe, ArtifactResidual(fe, art.value).value)), Applied))
    else
      Ok(Prepared(steps.winsorize(steps.refit(fe)), Refitted))
  }

  /** The artifact branch on the engineered frame, which it updates in place on success. */
  method ApplyResidualArtifact(dfFe: DataFrame<Float>, art: ResidualArtifact) returns (applied: bool)
    modifies dfFe
    ensures applied <==> ArtifactResidual(old(dfFe.columns), art).Some?
    ensures applied ==> dfFe.columns == WithResidual(old(dfFe.columns), ArtifactResidual(old(dfFe.columns), art).value)
    ensures !applied ==> dfFe.columns == old(dfFe.columns)
  {
    var r := ArtifactResidual(dfFe.columns, art);
    if r.None? {
      return false;
    }
    dfFe.columns := Set(dfFe.columns, "kwh_residual", r.value);
    dfFe.columns := Set(dfFe.columns, "kwh_resid_abs", AbsCells(Get(dfFe.columns, "kwh_residual")));
    applied := true;
  }

  /** The whole preprocessing, with the engineered frame held in a `DataFrame` of its own. */
  method Preprocess(df: seq<Column<Float>>, dropCorr: bool, art: Option<ResidualArtifact>, steps: Steps)
    returns (r: Result<Prepared, PreprocessError>)
    ensures r == PreprocessLikeTraining(df, dropCorr, art, steps)
  {
    var fe := new DataFrame(steps.pipeline(FeatureEngineeringTest.CanonicalizeForModel(df), CorrThreshold(dropCorr)));
    var missing := Missing(XCols + [YCol], fe.columns);
    if missing != [] {
      return Err(MissingResidualColumns(missing));
    }
    if art.Some? {
      var applied := ApplyResidualArtifact(fe, art.value);
      if applied {
        return Ok(Prepared(steps.winsorize(fe.columns), Applied));
      }
    }
    r := Ok(Prepared(steps.winsorize(steps.refit(fe.columns)), Refitted));
  }

  /** The residual inputs are checked before, and independently of, any artifact. */
  lemma MissingColumnsRaise(df: seq<Column<Float>>, dropCorr: bool, art: Option<ResidualArtifact>, steps: Steps)
    ensures var fe := steps.pipeline(FeatureEngineeringTest.CanonicalizeForModel(df), CorrThreshold(dropCorr));
      var r := PreprocessLikeTraining(df, dropCorr, art, steps);
      (r.Err? <==> exists c :: c in XCols + [YCol] && !Has(fe, c)) &&
      (r.Err? ==> r.error == MissingResidualColumns(Missing(XCols + [YCol], fe)) &&
                  r == PreprocessLikeTraining(df, dropCorr, None, steps))
  {
    var fe := steps.pipeline(FeatureEngineeringTest.CanonicalizeForModel(df), CorrThreshold(dropCorr));
    MissingEmpty(XCols + [YCol], fe);
  }

  /**
   * With an artifact whose columns are all present and whose prediction
   * succeeds, the residual is y minus the prediction, its absolute value is
   * stored beside it, and nothing is refitted.
   */
  lemma ArtifactApplied(df: seq<Column<Float>>, dropCorr: bool, art: ResidualArtifact, steps: Steps)
    requires var fe := steps.pipeline(FeatureEngineeringTest.CanonicalizeForModel(df), CorrThreshold(dropCorr));
      Missing(XCols + [YCol], fe) == [] && ArtifactResidual(fe, art).Some?
    ensures var fe := steps.pipeline(FeatureEngineeringTest.CanonicalizeForModel(df), CorrThreshold(dropCorr));
      var resid := ArtifactResidual(fe, art).value;
      var applied := WithResidual(fe, resid);
      PreprocessLikeTraining(df, dropCorr, Some(art), steps) == Ok(Prepared(steps.winsorize(applied), Applied)) &&
      Get(applied, "kwh_residual") == resid &&
      Get(applied, "kwh_resid_abs") == AbsCells(resid) &&
      (forall i :: 0 <= i < |resid| ==> Get(applied, "kwh_resid_abs")[i] == Abs(Get(applied, "kwh_residual")[i]))
  {
    var fe := steps.pipeline(FeatureEngineeringTest.CanonicalizeForModel(df), CorrThreshold(dropCorr));
    var resid := ArtifactResidual(fe, art).value;
    SetOther(Set(fe, "kwh_residual", resid), "kwh_resid_abs", AbsCells(resid), "kwh_residual");
  }

  /** A missing artifact column, or an artifact that raises, falls back to refitting; so does having no artifact. */
  lemma FallsBackToRefit(df: seq<Column<Float>>, dropCorr: bool, art: Option<ResidualArtifact>, steps: Steps)
    requires var fe := steps.pipeline(FeatureEngineeringTest.CanonicalizeForModel(df), CorrThreshold(dropCorr));
      Missing(XCols + [YCol], fe) == [] && (art.None? || ArtifactResidual(fe, art.value).None?)
    ensures var fe := steps.pipeline(FeatureEngineeringTest.CanonicalizeForModel(df), CorrThreshold(dropCorr));
      PreprocessLikeTraining(df, dropCorr, art, steps) == Ok(Prepared(steps.winsorize(steps.refit(fe)), Refitted))
  {
  }

  /** An artifact naming a column the frame lacks is never applied. */
  lemma MissingArtifactColumnRefits(fe: seq<Column<Float>>, art: ResidualArtifact, c: string)
    requires c in ArtifactXCols(art) && !Has(fe, c)
    ensures ArtifactResidual(fe, art).None?
  {
    assert c in ArtifactXCols(art) + [YCol];
  }
}
