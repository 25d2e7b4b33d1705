/**
 * The rule-based cleaning steps applied before feature engineering: zeros in
 * count and area columns become missing, floors and apartments are imputed and
 * rounded back to integers of at least one, and per-unit ratios are derived.
 * Each step updates the frame in place. The KNN imputer is a parameter.
 */
module ImputeRules {
  import opened Wrappers
  import opened Numeric
  import opened Frames
  import opened Sorting

  // ---------------- fix_zero_to_nan ----------------

  /** The columns in which a zero means "unknown", in the order they are visited. */
  const ZeroMeansMissing: seq<string> := ["nb_floor", "nb_appart", "area_m2"]

  /** `df[c].fillna(0) == 0` selects the cell, which is then set to NaN. */
  function ZeroToNan(x: Float): (r: Float)
    ensures x == Fin(0.0) || x.NaN? ==> r.NaN?
    ensures !(x == Fin(0.0) || x.NaN?) ==> r == x
  {
    if x.NaN? || x == Fin(0.0) then NaN else x
  }

  function ZeroToNanCells(cells: seq<Float>): (r: seq<Float>)
    ensures |r| == |cells| && forall i :: 0 <= i < |cells| ==> r[i] == ZeroToNan(cells[i])
  {
    seq(|cells|, i requires 0 <= i < |cells| => ZeroToNan(cells[i]))
  }

  /** One iteration of the loop: a present column is rewritten, an absent one skipped. */
  function ZeroStep(t: seq<Column<Float>>, c: string): seq<Column<Float>> {
    if Has(t, c) then Set(t, c, ZeroToNanCells(Get(t, c))) else t
  }

  /** The frame after the first `k` columns of `ZeroMeansMissing` have been visited. */
  function ZeroStepsUpTo(t: seq<Column<Float>>, k: nat): seq<Column<Float>>
    requires k <= |ZeroMeansMissing|
  {
    if k == 0 then t else ZeroStep(ZeroStepsUpTo(t, k - 1), ZeroMeansMissing[k - 1])
  }

  function FixZero(t: seq<Column<Float>>): seq<Column<Float>> {
    ZeroStepsUpTo(t, |ZeroMeansMissing|)
  }

  /** `fix_zero_to_nan(df)`. */
  method FixZeroToNan(df: DataFrame<Float>)
    modifies df
    ensures df.columns == FixZero(old(df.columns))
  {
    var k := 0;
    while k < |ZeroMeansMissing|
      invariant 0 <= k <= |ZeroMeansMissing|
      invariant df.columns == ZeroStepsUpTo(old(df.columns), k)
    {
      ZeroColumnInPlace(df, ZeroMeansMissing[k]);
      k := k + 1;
    }
  }

  /** One pass of that loop: column `c`'s zeros become NaN, when the frame has it. */
  method ZeroColumnInPlace(df: DataFrame<Float>, c: string)
    modifies df
    ensures df.columns == ZeroStep(old(df.columns), c)
  {
    if Has(df.columns, c) {
      df.columns := Set(df.columns, c, ZeroToNanCells(Get(df.columns, c)));
    }
  }

  lemma ZeroStepOther(t: seq<Column<Float>>, c: string, other: string)
    requires other != c
    ensures Has(ZeroStep(t, c), other) <==> Has(t, other)
    ensures Has(t, other) ==> Get(ZeroStep(t, c), other) == Get(t, other)
  {
    if Has(t, c) { SetOther(t, c, ZeroToNanCells(Get(t, c)), other); }
  }

  lemma ZeroStepNames(t: seq<Column<Float>>, c: string)
    requires c in ZeroMeansMissing
    ensures Names(ZeroStep(t, c)) == Names(t)
    ensures forall i :: 0 <= i < |t| && t[i].name !in ZeroMeansMissing ==> ZeroStep(t, c)[i] == t[i]
  {
  }

  lemma ZeroStepSelf(t: seq<Column<Float>>, c: string)
    ensures Has(ZeroStep(t, c), c) <==> Has(t, c)
    ensures Has(t, c) ==> Get(ZeroStep(t, c), c) == ZeroToNanCells(Get(t, c))
  {
  }

  /** Column names and order do not change, nor does any column outside the three. */
  lemma FixZeroKeepsOthers(t: seq<Column<Float>>)
    ensures Names(FixZero(t)) == Names(t)
    ensures forall i :: 0 <= i < |t| && t[i].name !in ZeroMeansMissing ==> FixZero(t)[i] == t[i]
  {
    var t1 := ZeroStep(t, "nb_floor");
    var t2 := ZeroStep(t1, "nb_appart");
    assert ZeroStepsUpTo(t, 1) == t1;
    assert ZeroStepsUpTo(t, 2) == t2;
    ZeroStepNames(t, "nb_floor");
    ZeroStepNames(t1, "nb_appart");
    ZeroStepNames(t2, "area_m2");
  }

  /**
   * In each of the three columns every zero becomes missing, missing stays
   * missing and other values are kept; an absent column stays absent.
   */
  lemma FixZeroColumn(t: seq<Column<Float>>, c: string)
    requires c in ZeroMeansMissing
    ensures Has(FixZero(t), c) <==> Has(t, c)
    ensures Has(t, c) ==> Get(FixZero(t), c) == ZeroToNanCells(Get(t, c))
  {
    var t1 := ZeroStep(t, "nb_floor");
    var t2 := ZeroStep(t1, "nb_appart");
    var t3 := ZeroStep(t2, "area_m2");
    assert ZeroStepsUpTo(t, 1) == t1;
    assert ZeroStepsUpTo(t, 2) == t2;
    assert FixZero(t) == t3;
    if c == "nb_floor" {
      ZeroStepSelf(t, c);
      ZeroStepOther(t1, "nb_appart", c);
      ZeroStepOther(t2, "area_m2", c);
    } else if c == "nb_appart" {
      ZeroStepOther(t, "nb_floor", c);
      ZeroStepSelf(t1, c);
      ZeroStepOther(t2, "area_m2", c);
    } else {
      ZeroStepOther(t, "nb_floor", c);
      ZeroStepOther(t1, "nb_appart", c);
      ZeroStepSelf(t2, c);
    }
  }

  /** No zero survives in the three columns. */
  lemma NoZeroAfterFix(t: seq<Column<Float>>, c: string)
    requires c in ZeroMeansMissing && Has(t, c)
    ensures Has(FixZero(t), c)
    ensures forall x :: x in Get(FixZero(t), c) ==> x != Fin(0.0)
  {
    FixZeroColumn(t, c);
  }

  // ---------------- impute_floors_apartments ----------------

  /** The columns handed to the imputer, in this order when present. */
  const ImputerInputs: seq<string> := ["nb_floor", "nb_appart", "area_m2", "build_year", "lat", "long"]

  datatype ImputeError = ImputerFailed | ShapeMismatch

  function PresentOf<T>(t: seq<Column<T>>, names: seq<string>): (r: seq<string>)
    ensures forall c :: c in r <==> c in names && Has(t, c)
  {
    if names == [] then []
    else (if Has(t, names[0]) then [names[0]] else []) + PresentOf(t, names[1..])
  }

  /** `df[cols]`. */
  function SelectColumns<T>(t: seq<Column<T>>, cols: seq<string>): (w: seq<Column<T>>)
    requires forall c :: c in cols ==> Has(t, c)
    ensures |w| == |cols| && forall k :: 0 <= k < |cols| ==> w[k].name == cols[k]
  {
    seq(|cols|, k requires 0 <= k < |cols| => Column(cols[k], Get(t, cols[k])))
  }

  /** `np.clip(np.rint(x), 1, None).astype(int)`: round half to even, then at least 1. */
  function RintClip(x: real): (k: int)
    ensures k >= 1
    ensures RoundHalfEven(x) >= 1 ==> k == RoundHalfEven(x)
  {
    var k := RoundHalfEven(x);
    if k < 1 then 1 else k
  }

  predicate IsRoundedCount(name: string) { name == "nb_floor" || name == "nb_appart" }

  /** A column of the imputed work frame, rounded back when it is a count. */
  function ImputedColumn(name: string, values: seq<real>): (cells: seq<Float>)
    ensures |cells| == |values|
  {
    if IsRoundedCount(name) then seq(|values|, i requires 0 <= i < |values| => Fin(RintClip(values[i]) as real))
    else seq(|values|, i requires 0 <= i < |values| => Fin(values[i]))
  }

  /** `work[:] = imputed` plus the rounding: fails when the imputer's output has another shape. */
  function ImputedWork(work: seq<Column<Float>>, out: Option<seq<seq<real>>>): (r: Result<seq<Column<Float>>, ImputeError>)
    ensures r.Ok? ==> |r.value| == |work| && forall k :: 0 <= k < |work| ==> r.value[k].name == work[k].name
  {
    if out.None? then Err(ImputerFailed)
    else
      var vals := out.value;
      if |vals| != |work| || exists k :: 0 <= k < |work| && |vals[k]| != |work[k].cells| then Err(ShapeMismatch)
      else Ok(seq(|work|, k requires 0 <= k < |work| => Column(work[k].name, ImputedColumn(work[k].name, vals[k]))))
  }

  /** `impute_floors_apartments` as a value: `knn` is `KNNImputer.fit_transform`, `None` when it raises. */
  function Impute(t: seq<Column<Float>>, knn: seq<Column<Float>> -> Option<seq<seq<real>>>)
    : Result<seq<Column<Float>>, ImputeError>
  {
    var w := ImputedFor(t, knn);
    if w.Err? then Err(w.error) else Ok(WriteBack(t, w.value))
  }

  /** The imputed work frame of the present imputer inputs. */
  function ImputedFor(t: seq<Column<Float>>, knn: seq<Column<Float>> -> Option<seq<seq<real>>>)
    : Result<seq<Column<Float>>, ImputeError>
  {
    var work := WorkFrame(t);
    ImputedWork(work, knn(work))
  }

  /** `impute_floors_apartments(df)`: on failure the frame is left as it was. */
  method ImputeFloorsApartments(df: DataFrame<Float>, knn: seq<Column<Float>> -> Option<seq<seq<real>>>)
    returns (r: Result<(), ImputeError>)
    modifies df
    ensures Impute(old(df.columns), knn).Ok? ==> r.Ok? && df.columns == Impute(old(df.columns), knn).value
    ensures Impute(old(df.columns), knn).Err? ==> r == Err(Impute(old(df.columns), knn).error) && df.columns == old(df.columns)
  {
    var w := ImputedFor(df.columns, knn);
    if w.Err? {
      return Err(w.error);
    }
    WriteBackInto(df, w.value);
    r := Ok(());
  }

  /** `df[work.columns] = work`: the loop writing each imputed column back. */
  method WriteBackInto(df: DataFrame<Float>, imputed: seq<Column<Float>>)
    modifies df
    ensures df.columns == WriteBack(old(df.columns), imputed)
  {
    ghost var t0 := df.columns;
    var k := 0;
    while k < |imputed|
      invariant 0 <= k <= |imputed|
      invariant WriteBack(df.columns, imputed[k..]) == WriteBack(t0, imputed)
    {
      assert imputed[k..][1..] == imputed[k + 1..];
      df.columns := Set(df.columns, imputed[k].name, imputed[k].cells);
      k := k + 1;
    }
  }

  lemma {:induction false} PresentOfDistinct<T>(t: seq<Column<T>>, names: seq<string>)
    requires Distinct(names)
    ensures Distinct(PresentOf(t, names))
  {
    if names != [] {
      PresentOfDistinct(t, names[1..]);
      assert forall c :: c in names[1..] ==> c != names[0];
    }
  }

  lemma RoundedColumnIntegers(c: string, values: seq<real>)
    requires IsRoundedCount(c)
    ensures forall x :: x in ImputedColumn(c, values) ==> x.Fin? && x.r >= 1.0 && x.r == x.r.Floor as real
  {
    var cells := ImputedColumn(c, values);
    forall x | x in cells
      ensures x.Fin? && x.r >= 1.0 && x.r == x.r.Floor as real
    {
      var i :| 0 <= i < |cells| && cells[i] == x;
      var k := RintClip(values[i]);
      assert x == Fin(k as real);
    }
  }

  /** The imputer's work frame: the present inputs, in order. */
  function WorkFrame(t: seq<Column<Float>>): seq<Column<Float>> {
    SelectColumns(t, PresentOf(t, ImputerInputs))
  }

  /** Writing back a work frame whose names are distinct makes each of them readable. */
  lemma WriteBackNamed(t: seq<Column<Float>>, w: seq<Column<Float>>, cols: seq<string>, c: string) returns (j: nat)
    requires |w| == |cols| && (forall a :: 0 <= a < |w| ==> w[a].name == cols[a])
    requires Distinct(cols) && c in cols
    ensures j < |w| && w[j].name == c
    ensures Has(WriteBack(t, w), c) && Get(WriteBack(t, w), c) == w[j].cells
  {
    j :| 0 <= j < |cols| && cols[j] == c;
    WriteBackGet(t, w, j);
  }

  /** The imputer inputs have pairwise different lengths, so they are distinct. */
  lemma InputsDistinct()
    ensures Distinct(ImputerInputs)
  {
    var s := ImputerInputs;
    assert |s[0]| == 8 && |s[1]| == 9 && |s[2]| == 7 && |s[3]| == 10 && |s[4]| == 3 && |s[5]| == 4;
    assert forall i, j :: 0 <= i < j < |s| ==> |s[i]| != |s[j]|;
  }

  /** A successful imputation writes back one rounded or plain column per present input. */
  lemma ImputeParts(t: seq<Column<Float>>, knn: seq<Column<Float>> -> Option<seq<seq<real>>>)
    returns (cols: seq<string>, w: seq<Column<Float>>, vals: seq<seq<real>>)
    requires Impute(t, knn).Ok?
    ensures cols == PresentOf(t, ImputerInputs) && Distinct(cols)
    ensures |w| == |cols| == |vals|
    ensures forall a :: 0 <= a < |w| ==> w[a] == Column(cols[a], ImputedColumn(cols[a], vals[a]))
    ensures Impute(t, knn).value == WriteBack(t, w)
  {
    cols := PresentOf(t, ImputerInputs);
    InputsDistinct();
    PresentOfDistinct(t, ImputerInputs);
    var work := WorkFrame(t);
    assert ImputedFor(t, knn) == ImputedWork(work, knn(work));
    vals := knn(work).value;
    w := ImputedWork(work, knn(work)).value;
    assert |work| == |cols| && forall a :: 0 <= a < |cols| ==> work[a].name == cols[a];
    assert w == seq(|work|, k requires 0 <= k < |work| => Column(work[k].name, ImputedColumn(work[k].name, vals[k])));
  }

  /** After a successful imputation, every present floor or apartment count is an integer of at least 1. */
  lemma ImputedCountsArePositiveIntegers(t: seq<Column<Float>>, knn: seq<Column<Float>> -> Option<seq<seq<real>>>, c: string)
    requires IsRoundedCount(c) && Has(t, c) && Impute(t, knn).Ok?
    ensures Has(Impute(t, knn).value, c)
    ensures forall x :: x in Get(Impute(t, knn).value, c) ==> x.Fin? && x.r >= 1.0 && x.r == x.r.Floor as real
  {
    var cols, w, vals := ImputeParts(t, knn);
    assert c in cols;
    var j := WriteBackNamed(t, w, cols, c);
    RoundedColumnIntegers(c, vals[j]);
  }

  /** Columns that are not imputer inputs are not touched, and no column goes missing. */
  lemma ImputeKeepsOthers(t: seq<Column<Float>>, knn: seq<Column<Float>> -> Option<seq<seq<real>>>, c: string)
    requires c !in ImputerInputs && Impute(t, knn).Ok?
    ensures Has(Impute(t, knn).value, c) <==> Has(t, c)
    ensures Has(t, c) ==> Get(Impute(t, knn).value, c) == Get(t, c)
  {
    var cols, w, vals := ImputeParts(t, knn);
    assert forall a :: 0 <= a < |w| ==> w[a].name in cols;
    WriteBackOther(t, w, c);
  }

  // ---------------- add_derived_building_ratios ----------------

  /** `num / den.replace(0, np.nan)`, cell by cell. */
  function RatioCells(num: seq<Float>, den: seq<Float>): (r: seq<Float>)
    ensures |r| == |num|
    ensures forall i :: 0 <= i < |num| && i < |den| ==>
      r[i] == Div(num[i], if den[i] == Fin(0.0) then NaN else den[i])
  {
    seq(|num|, i requires 0 <= i < |num| =>
      var d := if i < |den| then den[i] else NaN;
      Div(num[i], if d == Fin(0.0) then NaN else d))
  }

  /** A ratio is missing when its denominator is zero or missing, and the quotient when both are finite and the denominator non-zero. */
  lemma RatioDefinedness(num: seq<Float>, den: seq<Float>, i: nat)
    requires i < |num| && i < |den|
    ensures den[i] == Fin(0.0) || den[i].NaN? ==> RatioCells(num, den)[i].NaN?
    ensures num[i].Fin? && den[i].Fin? && den[i].r != 0.0 ==>
      RatioCells(num, den)[i] == Fin(num[i].r / den[i].r)
  {
  }

  /** One ratio: written only when both source columns exist. */
  function RatioStep(t: seq<Column<Float>>, out: string, num: string, den: string): seq<Column<Float>> {
    if Has(t, num) && Has(t, den) then Set(t, out, RatioCells(Get(t, num), Get(t, den))) else t
  }

  function AddRatios(t: seq<Column<Float>>): seq<Column<Float>> {
    var t1 := RatioStep(t, "kwh_per_m2", "kwh", "area_m2");
    var t2 := RatioStep(t1, "kwh_per_appt", "kwh", "nb_appart");
    var t3 := RatioStep(t2, "area_per_appt", "area_m2", "nb_appart");
    RatioStep(t3, "appts_per_floor", "nb_appart", "nb_floor")
  }

  /** `add_derived_building_ratios(df)`. */
  method AddDerivedBuildingRatios(df: DataFrame<Float>)
    modifies df
    ensures df.columns == AddRatios(old(df.columns))
  {
    if Has(df.columns, "kwh") && Has(df.columns, "area_m2") {
      df.columns := Set(df.columns, "kwh_per_m2", RatioCells(Get(df.columns, "kwh"), Get(df.columns, "area_m2")));
    }
    if Has(df.columns, "kwh") && Has(df.columns, "nb_appart") {
      df.columns := Set(df.columns, "kwh_per_appt", RatioCells(Get(df.columns, "kwh"), Get(df.columns, "nb_appart")));
    }
    if Has(df.columns, "area_m2") && Has(df.columns, "nb_appart") {
      df.columns := Set(df.columns, "area_per_appt", RatioCells(Get(df.columns, "area_m2"), Get(df.columns, "nb_appart")));
    }
    if Has(df.columns, "nb_appart") && Has(df.columns, "nb_floor") {
      df.columns := Set(df.columns, "appts_per_floor", RatioCells(Get(df.columns, "nb_appart"), Get(df.columns, "nb_floor")));
    }
  }

  predicate IsRatioSource(c: string) { c == "kwh" || c == "area_m2" || c == "nb_appart" || c == "nb_floor" }

  predicate IsRatioOutput(c: string) {
    c == "kwh_per_m2" || c == "kwh_per_appt" || c == "area_per_appt" || c == "appts_per_floor"
  }

  lemma RatioStepOther(t: seq<Column<Float>>, out: string, num: string, den: string, c: string)
    requires c != out
    ensures Has(RatioStep(t, out, num, den), c) <==> Has(t, c)
    ensures Has(t, c) ==> Get(RatioStep(t, out, num, den), c) == Get(t, c)
  {
    if Has(t, num) && Has(t, den) { SetOther(t, out, RatioCells(Get(t, num), Get(t, den)), c); }
  }

  /** The ratio steps never change a source column (or any column that is not a ratio). */
  lemma AddRatiosKeepsOthers(t: seq<Column<Float>>, c: string)
    requires !IsRatioOutput(c)
    ensures Has(AddRatios(t), c) <==> Has(t, c)
    ensures Has(t, c) ==> Get(AddRatios(t), c) == Get(t, c)
  {
    var t1 := RatioStep(t, "kwh_per_m2", "kwh", "area_m2");
    var t2 := RatioStep(t1, "kwh_per_appt", "kwh", "nb_appart");
    var t3 := RatioStep(t2, "area_per_appt", "area_m2", "nb_appart");
    RatioStepOther(t, "kwh_per_m2", "kwh", "area_m2", c);
    RatioStepOther(t1, "kwh_per_appt", "kwh", "nb_appart", c);
    RatioStepOther(t2, "area_per_appt", "area_m2", "nb_appart", c);
    RatioStepOther(t3, "appts_per_floor", "nb_appart", "nb_floor", c);
  }

  /** kwh_per_appt exists exactly when both kwh and nb_appart do (or it existed already), and is their ratio. */
  lemma KwhPerApptWritten(t: seq<Column<Float>>)
    ensures Has(t, "kwh") && Has(t, "nb_appart") ==>
      Has(AddRatios(t), "kwh_per_appt") &&
      Get(AddRatios(t), "kwh_per_appt") == RatioCells(Get(t, "kwh"), Get(t, "nb_appart"))
    ensures !(Has(t, "kwh") && Has(t, "nb_appart")) ==>
      (Has(AddRatios(t), "kwh_per_appt") <==> Has(t, "kwh_per_appt"))
  {
    var t1 := RatioStep(t, "kwh_per_m2", "kwh", "area_m2");
    var t2 := RatioStep(t1, "kwh_per_appt", "kwh", "nb_appart");
    var t3 := RatioStep(t2, "area_per_appt", "area_m2", "nb_appart");
    RatioStepOther(t, "kwh_per_m2", "kwh", "area_m2", "kwh");
    RatioStepOther(t, "kwh_per_m2", "kwh", "area_m2", "nb_appart");
    RatioStepOther(t, "kwh_per_m2", "kwh", "area_m2", "kwh_per_appt");
    RatioStepOther(t2, "area_per_appt", "area_m2", "nb_appart", "kwh_per_appt");
    RatioStepOther(t3, "appts_per_floor", "nb_appart", "nb_floor", "kwh_per_appt");
  }
}
