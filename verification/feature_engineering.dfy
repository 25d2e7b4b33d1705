/**
 * The training-side feature engineering object: it holds the caller's frame
 * and adds the building age, the per-unit consumption ratios and the
 * log/Yeo-Johnson transformed columns to it in place. The logarithm, the
 * skewness statistic and the fitted power transform are parameters.
 */
module Engineering {
  import opened Wrappers
  import opened Numeric
  import opened Frames

  const Year: string := "Building's construction year"
  const Kwh: string := "Total electricity consumption (kWh)"
  const Apartments: string := "Number of apartments"
  const Floors: string := "Number of floors"
  const Unnamed: string := "Unnamed: 0"

  /** What a method raises: a column read that pandas cannot satisfy, or a transform that returns the wrong number of columns. */
  datatype FeError = KeyError(column: string) | TransformFailed

  /** The frame a method leaves behind, and the error it raised, if any. */
  datatype Outcome = Outcome(frame: seq<Column<Float>>, error: Option<FeError>)

  /** `2017 - s`, element by element. */
  function AgeCells(years: seq<Float>): (r: seq<Float>)
    ensures |r| == |years| && forall i :: 0 <= i < |years| ==> r[i] == Sub(Fin(2017.0), years[i])
  {
    seq(|years|, i requires 0 <= i < |years| => Sub(Fin(2017.0), years[i]))
  }

  /** `a / b`, element by element over the shared row index; rows beyond `b` are NaN. */
  function Quot(a: seq<Float>, b: seq<Float>): (r: seq<Float>)
    ensures |r| == |a| && forall i :: 0 <= i < |a| && i < |b| ==> r[i] == Div(a[i], b[i])
  {
    seq(|a|, i requires 0 <= i < |a| => if i < |b| then Div(a[i], b[i]) else NaN)
  }

  /** `np.log(s + 1)`, with `log` the element-wise logarithm. */
  function Log1p(s: seq<Float>, log: Float -> Float): (r: seq<Float>)
    ensures |r| == |s| && forall i :: 0 <= i < |s| ==> r[i] == log(Add(s[i], Fin(1.0)))
  {
    seq(|s|, i requires 0 <= i < |s| => log(Add(s[i], Fin(1.0))))
  }

  // ---------------- add_age ----------------

  function AgeStep(t: seq<Column<Float>>): Outcome {
    if !Has(t, Year) then Outcome(t, Some(KeyError(Year)))
    else Outcome(Drop(Set(t, "age", AgeCells(Get(t, Year))), Year), None)
  }

  /**
   * `add_age` fails exactly when the construction year is absent; otherwise
   * age = 2017 - year, the year column is gone and every other column is kept.
   */
  lemma AddAgeMeaning(t: seq<Column<Float>>, other: string)
    requires other != "age" && other != Year
    ensures AgeStep(t).error.None? <==> Has(t, Year)
    ensures AgeStep(t).error.None? ==>
      var r := AgeStep(t).frame;
      Has(r, "age") && Get(r, "age") == AgeCells(Get(t, Year)) && !Has(r, Year) &&
      (Has(r, other) <==> Has(t, other)) && (Has(t, other) ==> Get(r, other) == Get(t, other))
  {
    if Has(t, Year) {
      var s := Set(t, "age", AgeCells(Get(t, Year)));
      DropKeeps(s, Year, "age");
      DropKeeps(s, Year, other);
      SetOther(t, "age", AgeCells(Get(t, Year)), other);
    }
  }

  // ---------------- add_kwh_per_features ----------------

  function KwhPerStep(t: seq<Column<Float>>): Outcome {
    if !Has(t, Kwh) then Outcome(t, Some(KeyError(Kwh)))
    else if !Has(t, Apartments) then Outcome(t, Some(KeyError(Apartments)))
    else
      var q := Quot(Get(t, Kwh), Get(t, Apartments));
      SetOther(t, "kwh_per_apartment", q, Kwh);
      SetOther(t, "kwh_per_apartment", q, Apartments);
      FloorRatios(Set(t, "kwh_per_apartment", q))
  }

  /** The part of `add_kwh_per_features` after the per-apartment ratio: the two ratios over floors. */
  function FloorRatios(t1: seq<Column<Float>>): Outcome
    requires Has(t1, Kwh) && Has(t1, Apartments)
  {
    if !Has(t1, Floors) then Outcome(t1, Some(KeyError(Floors)))
    else
      var q := Quot(Get(t1, Kwh), Get(t1, Floors));
      SetOther(t1, "kwh_per_floor", q, Apartments);
      SetOther(t1, "kwh_per_floor", q, Floors);
      var t2 := Set(t1, "kwh_per_floor", q);
      var t3 := Set(t2, "apartments_per_floor", Quot(Get(t2, Apartments), Get(t2, Floors)));
      Outcome(t3, None)
  }

  predicate IsKwhPerOutput(c: string) {
    c == "kwh_per_apartment" || c == "kwh_per_floor" || c == "apartments_per_floor"
  }

  /**
   * `add_kwh_per_features` succeeds exactly when consumption, apartments and
   * floors are present; the three ratios are then their quotients and every
   * other column is kept.
   */
  lemma AddKwhPerMeaning(t: seq<Column<Float>>, other: string)
    requires !IsKwhPerOutput(other)
    ensures KwhPerStep(t).error.None? <==> Has(t, Kwh) && Has(t, Apartments) && Has(t, Floors)
    ensures KwhPerStep(t).error.None? ==>
      var r := KwhPerStep(t).frame;
      Has(r, "kwh_per_apartment") && Get(r, "kwh_per_apartment") == Quot(Get(t, Kwh), Get(t, Apartments)) &&
      Has(r, "kwh_per_floor") && Get(r, "kwh_per_floor") == Quot(Get(t, Kwh), Get(t, Floors)) &&
      Has(r, "apartments_per_floor") && Get(r, "apartments_per_floor") == Quot(Get(t, Apartments), Get(t, Floors)) &&
      (Has(r, other) <==> Has(t, other)) && (Has(t, other) ==> Get(r, other) == Get(t, other))
  {
    if Has(t, Kwh) && Has(t, Apartments) {
      var t1 := Set(t, "kwh_per_apartment", Quot(Get(t, Kwh), Get(t, Apartments)));
      SetOther(t, "kwh_per_apartment", Quot(Get(t, Kwh), Get(t, Apartments)), Floors);
      SetOther(t, "kwh_per_apartment", Quot(Get(t, Kwh), Get(t, Apartments)), Kwh);
      SetOther(t, "kwh_per_apartment", Quot(Get(t, Kwh), Get(t, Apartments)), Apartments);
      SetOther(t, "kwh_per_apartment", Quot(Get(t, Kwh), Get(t, Apartments)), other);
      if Has(t, Floors) {
        var t2 := Set(t1, "kwh_per_floor", Quot(Get(t1, Kwh), Get(t1, Floors)));
        SetOther(t1, "kwh_per_floor", Quot(Get(t1, Kwh), Get(t1, Floors)), "kwh_per_apartment");
        SetOther(t1, "kwh_per_floor", Quot(Get(t1, Kwh), Get(t1, Floors)), Apartments);
        SetOther(t1, "kwh_per_floor", Quot(Get(t1, Kwh), Get(t1, Floors)), Floors);
        SetOther(t1, "kwh_per_floor", Quot(Get(t1, Kwh), Get(t1, Floors)), other);
        var q := Quot(Get(t2, Apartments), Get(t2, Floors));
        SetOther(t2, "apartments_per_floor", q, "kwh_per_apartment");
        SetOther(t2, "apartments_per_floor", q, "kwh_per_floor");
        SetOther(t2, "apartments_per_floor", q, other);
      }
    }
  }

  // ---------------- handle_skewness ----------------

  /** `df[cols] = values`, one column after another. */
  function WriteAll(t: seq<Column<Float>>, cols: seq<string>, values: seq<seq<Float>>): (r: seq<Column<Float>>)
    requires |values| == |cols|
    decreases |cols|
  {
    if cols == [] then t else WriteAll(Set(t, cols[0], values[0]), cols[1..], values[1..])
  }

  /** `df[cols]` as a list of columns, all present. */
  function Select(t: seq<Column<Float>>, cols: seq<string>): (r: seq<seq<Float>>)
    requires forall c :: c in cols ==> Has(t, c)
    ensures |r| == |cols| && forall i :: 0 <= i < |cols| ==> r[i] == Get(t, cols[i])
  {
    seq(|cols|, i requires 0 <= i < |cols| => Get(t, cols[i]))
  }

  /** The first of `cols` absent from `t`, if any. */
  function FirstAbsent(t: seq<Column<Float>>, cols: seq<string>): (r: Option<string>)
    ensures r.None? <==> forall c :: c in cols ==> Has(t, c)
    ensures r.Some? ==> r.value in cols && !Has(t, r.value)
  {
    if cols == [] then None
    else if !Has(t, cols[0]) then Some(cols[0])
    else FirstAbsent(t, cols[1..])
  }

  /** The frame up to the floors check: "Unnamed: 0" dropped if present, then the two unconditional log columns. */
  function SkewPrefix(t: seq<Column<Float>>, log: Float -> Float, skew: seq<Float> -> Float): Outcome {
    var t0 := if Has(t, Unnamed) then Drop(t, Unnamed) else t;
    if !Has(t0, Kwh) then Outcome(t0, Some(KeyError(Kwh)))
    else
      var t1 := Set(t0, "log_kwh", Log1p(Get(t0, Kwh), log));
      if !Has(t1, Apartments) then Outcome(t1, Some(KeyError(Apartments)))
      else
        var t2 := Set(t1, "log_apartments", Log1p(Get(t1, Apartments), log));
        if !Has(t2, Floors) then Outcome(t2, Some(KeyError(Floors)))
        else
          var t3 := if Lt(Fin(1.0), skew(Get(t2, Floors))) then Set(t2, "log_floors", Log1p(Get(t2, Floors), log)) else t2;
          Outcome(t3, None)
  }

  /** The transform and the final drop, applied to the columns `cols` of `t3`. */
  function TransformAndDrop(t3: seq<Column<Float>>, cols: seq<string>, power: seq<seq<Float>> -> seq<seq<Float>>): Outcome {
    var absent := FirstAbsent(t3, cols);
    if absent.Some? then Outcome(t3, Some(KeyError(absent.value)))
    else
      var out := power(Select(t3, cols));
      if |out| != |cols| then Outcome(t3, Some(TransformFailed))
      else
        var t4 := WriteAll(t3, cols, out);
        var t5 := Drop(Drop(Drop(t4, Kwh), Apartments), Floors);
        Outcome(t5, None)
  }

  const LogColumns: seq<string> := ["log_kwh", "log_apartments", "log_floors"]

  /** `handle_skewness` as written: the transform always reads log_floors. */
  function HandleSkewnessAsWritten(t: seq<Column<Float>>, log: Float -> Float, skew: seq<Float> -> Float,
                                   power: seq<seq<Float>> -> seq<seq<Float>>): Outcome {
    var p := SkewPrefix(t, log, skew);
    if p.error.Some? then p else TransformAndDrop(p.frame, LogColumns, power)
  }

  /** `handle_skewness` as evidently intended: the transform reads only the log columns that exist. */
  function HandleSkewnessIntended(t: seq<Column<Float>>, log: Float -> Float, skew: seq<Float> -> Float,
                                  power: seq<seq<Float>> -> seq<seq<Float>>): Outcome {
    var p := SkewPrefix(t, log, skew);
    if p.error.Some? then p else TransformAndDrop(p.frame, PresentOf(p.frame, LogColumns), power)
  }

  /** The names of `cols` present in `t`, in order. */
  function PresentOf(t: seq<Column<Float>>, cols: seq<string>): (r: seq<string>)
    ensures forall c :: c in r <==> c in cols && Has(t, c)
    ensures |r| <= |cols|
  {
    if cols == [] then []
    else (if Has(t, cols[0]) then [cols[0]] else []) + PresentOf(t, cols[1..])
  }

  /** What `df[cols] = values` leaves: the written names present, every other name as it was. */
  lemma {:induction false} WriteAllKeeps(t: seq<Column<Float>>, cols: seq<string>, values: seq<seq<Float>>, c: string)
    requires |values| == |cols|
    ensures c in cols ==> Has(WriteAll(t, cols, values), c)
    ensures c !in cols ==> (Has(WriteAll(t, cols, values), c) <==> Has(t, c))
    ensures c !in cols && Has(t, c) ==> Get(WriteAll(t, cols, values), c) == Get(t, c)
    decreases |cols|
  {
    if cols != [] {
      var s := Set(t, cols[0], values[0]);
      WriteAllKeeps(s, cols[1..], values[1..], c);
      if c != cols[0] {
        SetOther(t, cols[0], values[0], c);
      } else if c !in cols[1..] {
        assert Has(s, c);
      }
    }
  }

  /**
   * A successful transform-and-drop leaves the three raw columns absent, the
   * transformed columns present and an absent name absent.
   */
  lemma TransformAndDropMeaning(t3: seq<Column<Float>>, cols: seq<string>, power: seq<seq<Float>> -> seq<seq<Float>>, c: string)
    requires Kwh !in cols && Apartments !in cols && Floors !in cols
    ensures var o := TransformAndDrop(t3, cols, power);
      o.error.None? ==>
        !Has(o.frame, Kwh) && !Has(o.frame, Apartments) && !Has(o.frame, Floors) &&
        (c in cols ==> Has(o.frame, c)) &&
        (c !in cols && !Has(t3, c) ==> !Has(o.frame, c))
  {
    if FirstAbsent(t3, cols).None? {
      var out := power(Select(t3, cols));
      if |out| == |cols| {
        var t4 := WriteAll(t3, cols, out);
        var d1 := Drop(t4, Kwh);
        var d2 := Drop(d1, Apartments);
        DropKeeps(d1, Apartments, Kwh);
        DropKeeps(d2, Floors, Kwh);
        DropKeeps(d2, Floors, Apartments);
        WriteAllKeeps(t3, cols, out, c);
        if c != Kwh && c != Apartments && c != Floors {
          DropKeeps(t4, Kwh, c);
          DropKeeps(d1, Apartments, c);
          DropKeeps(d2, Floors, c);
        }
      }
    }
  }

  /** After the prefix, the raw columns are still those of the input and the log columns exist only as written. */
  lemma SkewPrefixMeaning(t: seq<Column<Float>>, log: Float -> Float, skew: seq<Float> -> Float)
    ensures var p := SkewPrefix(t, log, skew);
      (p.error.None? <==> Has(t, Kwh) && Has(t, Apartments) && Has(t, Floors)) &&
      (p.error.None? ==>
        !Has(p.frame, Unnamed) && Has(p.frame, "log_kwh") && Has(p.frame, "log_apartments") &&
        (Has(p.frame, "log_floors") <==> Has(t, "log_floors") || Lt(Fin(1.0), skew(Get(t, Floors)))))
  {
    var t0 := if Has(t, Unnamed) then Drop(t, Unnamed) else t;
    DropKeeps(t, Unnamed, Kwh);
    DropKeeps(t, Unnamed, Apartments);
    DropKeeps(t, Unnamed, Floors);
    DropKeeps(t, Unnamed, "log_floors");
    if Has(t0, Kwh) {
      var t1 := Set(t0, "log_kwh", Log1p(Get(t0, Kwh), log));
      SetOther(t0, "log_kwh", Log1p(Get(t0, Kwh), log), Apartments);
      SetOther(t0, "log_kwh", Log1p(Get(t0, Kwh), log), Floors);
      SetOther(t0, "log_kwh", Log1p(Get(t0, Kwh), log), "log_floors");
      SetOther(t0, "log_kwh", Log1p(Get(t0, Kwh), log), Unnamed);
      if Has(t1, Apartments) {
        var t2 := Set(t1, "log_apartments", Log1p(Get(t1, Apartments), log));
        SetOther(t1, "log_apartments", Log1p(Get(t1, Apartments), log), Floors);
        SetOther(t1, "log_apartments", Log1p(Get(t1, Apartments), log), "log_floors");
        SetOther(t1, "log_apartments", Log1p(Get(t1, Apartments), log), "log_kwh");
        SetOther(t1, "log_apartments", Log1p(Get(t1, Apartments), log), Unnamed);
        if Has(t2, Floors) {
          var l := Log1p(Get(t2, Floors), log);
          SetOther(t2, "log_floors", l, "log_kwh");
          SetOther(t2, "log_floors", l, "log_apartments");
          SetOther(t2, "log_floors", l, Unnamed);
        }
      }
    }
  }

  /**
   * The defect as written: with the three raw columns present, no log_floors
   * column beforehand and a floor skew of at most 1, the method always fails
   * with a KeyError on log_floors.
   */
  lemma SkewnessFailsWithoutLogFloors(t: seq<Column<Float>>, log: Float -> Float, skew: seq<Float> -> Float,
                                      power: seq<seq<Float>> -> seq<seq<Float>>)
    requires Has(t, Kwh) && Has(t, Apartments) && Has(t, Floors) && !Has(t, "log_floors")
    requires !Lt(Fin(1.0), skew(Get(t, Floors)))
    ensures HandleSkewnessAsWritten(t, log, skew, power).error == Some(KeyError("log_floors"))
  {
    SkewPrefixMeaning(t, log, skew);
    var p := SkewPrefix(t, log, skew);
    LogFloorsFirstAbsent(p.frame);
  }

  lemma LogFloorsFirstAbsent(t: seq<Column<Float>>)
    requires Has(t, "log_kwh") && Has(t, "log_apartments") && !Has(t, "log_floors")
    ensures FirstAbsent(t, LogColumns) == Some("log_floors")
  {
    assert LogColumns[1..] == ["log_apartments", "log_floors"];
    assert LogColumns[1..][1..] == ["log_floors"];
  }

  /** As written, a successful run removes the raw columns and "Unnamed: 0" and leaves the three log columns. */
  lemma AsWrittenSuccess(t: seq<Column<Float>>, log: Float -> Float, skew: seq<Float> -> Float,
                         power: seq<seq<Float>> -> seq<seq<Float>>)
    ensures var o := HandleSkewnessAsWritten(t, log, skew, power);
      o.error.None? ==>
        !Has(o.frame, Kwh) && !Has(o.frame, Apartments) && !Has(o.frame, Floors) && !Has(o.frame, Unnamed) &&
        Has(o.frame, "log_kwh") && Has(o.frame, "log_apartments") && Has(o.frame, "log_floors")
  {
    SkewPrefixMeaning(t, log, skew);
    var p := SkewPrefix(t, log, skew);
    TransformAndDropMeaning(p.frame, LogColumns, power, Unnamed);
    TransformAndDropMeaning(p.frame, LogColumns, power, "log_kwh");
    TransformAndDropMeaning(p.frame, LogColumns, power, "log_apartments");
    TransformAndDropMeaning(p.frame, LogColumns, power, "log_floors");
  }

  /**
   * The corrected method succeeds whenever the three raw columns exist and
   * the transform keeps the number of columns; it then removes them and
   * "Unnamed: 0", and keeps log_kwh and log_apartments.
   */
  lemma IntendedSucceeds(t: seq<Column<Float>>, log: Float -> Float, skew: seq<Float> -> Float,
                         power: seq<seq<Float>> -> seq<seq<Float>>)
    requires Has(t, Kwh) && Has(t, Apartments) && Has(t, Floors)
    requires forall x :: |power(x)| == |x|
    ensures var o := HandleSkewnessIntended(t, log, skew, power);
      o.error.None? &&
      !Has(o.frame, Kwh) && !Has(o.frame, Apartments) && !Has(o.frame, Floors) && !Has(o.frame, Unnamed) &&
      Has(o.frame, "log_kwh") && Has(o.frame, "log_apartments")
  {
    IntendedIsTransform(t, log, skew, power);
    var p := SkewPrefix(t, log, skew);
    var cols := PresentOf(p.frame, LogColumns);
    RawNotLog();
    assert Kwh !in cols && Apartments !in cols && Floors !in cols && Unnamed !in cols;
    TransformAndDropMeaning(p.frame, cols, power, Unnamed);
    TransformAndDropMeaning(p.frame, cols, power, "log_kwh");
    TransformAndDropMeaning(p.frame, cols, power, "log_apartments");
  }

  /** No raw column and not the unnamed index is a log column: they differ in their first character. */
  lemma RawNotLog()
    ensures Kwh !in LogColumns && Apartments !in LogColumns && Floors !in LogColumns && Unnamed !in LogColumns
  {
    assert forall c :: c in LogColumns ==> c[0] == 'l';
    assert Kwh[0] == 'T' && Apartments[0] == 'N' && Floors[0] == 'N' && Unnamed[0] == 'U';
  }

  /** With the raw columns present and a shape-keeping transform, the corrected method is a successful transform-and-drop of the present log columns. */
  lemma IntendedIsTransform(t: seq<Column<Float>>, log: Float -> Float, skew: seq<Float> -> Float,
                            power: seq<seq<Float>> -> seq<seq<Float>>)
    requires Has(t, Kwh) && Has(t, Apartments) && Has(t, Floors)
    requires forall x :: |power(x)| == |x|
    ensures var p := SkewPrefix(t, log, skew);
      p.error.None? && !Has(p.frame, Unnamed) && Has(p.frame, "log_kwh") && Has(p.frame, "log_apartments") &&
      var cols := PresentOf(p.frame, LogColumns);
      HandleSkewnessIntended(t, log, skew, power) == TransformAndDrop(p.frame, cols, power) &&
      TransformAndDrop(p.frame, cols, power).error.None?
  {
    SkewPrefixMeaning(t, log, skew);
    var p := SkewPrefix(t, log, skew);
    var cols := PresentOf(p.frame, LogColumns);
    assert FirstAbsent(p.frame, cols).None?;
    assert |power(Select(p.frame, cols))| == |cols|;
  }

  /** The object holding the caller's frame; every method changes that frame in place. */
  class FeatureEngineering {
    const df: DataFrame<Float>

    constructor (df: DataFrame<Float>)
      ensures this.df == df
    {
      this.df := df;
    }

    /** `add_age()`. */
    method AddAge() returns (err: Option<FeError>)
      modifies df
      ensures df.columns == AgeStep(old(df.columns)).frame
      ensures err == AgeStep(old(df.columns)).error
    {
      if !Has(df.columns, Year) {
        return Some(KeyError(Year));
      }
      df.columns := Set(df.columns, "age", AgeCells(Get(df.columns, Year)));
      df.columns := Drop(df.columns, Year);
      err := None;
    }

    /** `add_kwh_per_features()`. */
    method AddKwhPerFeatures() returns (err: Option<FeError>)
      modifies df
      ensures df.columns == KwhPerStep(old(df.columns)).frame
      ensures err == KwhPerStep(old(df.columns)).error
    {
      if !Has(df.columns, Kwh) {
        return Some(KeyError(Kwh));
      }
      if !Has(df.columns, Apartments) {
        return Some(KeyError(Apartments));
      }
      var q := Quot(Get(df.columns, Kwh), Get(df.columns, Apartments));
      SetOther(df.columns, "kwh_per_apartment", q, Kwh);
      SetOther(df.columns, "kwh_per_apartment", q, Apartments);
      df.columns := Set(df.columns, "kwh_per_apartment", q);
      err := FloorRatiosInPlace();
    }

    /** The rest of `add_kwh_per_features()`: the two ratios over floors. */
    method FloorRatiosInPlace() returns (err: Option<FeError>)
      requires Has(df.columns, Kwh) && Has(df.columns, Apartments)
      modifies df
      ensures df.columns == FloorRatios(old(df.columns)).frame
      ensures err == FloorRatios(old(df.columns)).error
    {
      if !Has(df.columns, Floors) {
        return Some(KeyError(Floors));
      }
      df.columns := Set(df.columns, "kwh_per_floor", Quot(Get(df.columns, Kwh), Get(df.columns, Floors)));
      df.columns := Set(df.columns, "apartments_per_floor", Quot(Get(df.columns, Apartments), Get(df.columns, Floors)));
      err := None;
    }

    /** `handle_skewness()`, as written. */
    method HandleSkewness(log: Float -> Float, skew: seq<Float> -> Float, power: seq<seq<Float>> -> seq<seq<Float>>)
      returns (err: Option<FeError>)
      modifies df
      ensures df.columns == HandleSkewnessAsWritten(old(df.columns), log, skew, power).frame
      ensures err == HandleSkewnessAsWritten(old(df.columns), log, skew, power).error
    {
      err := LogColumnsInPlace(log, skew);
      if err.Some? {
        return;
      }
      err := TransformInPlace(LogColumns, power);
    }

    /** The first part of `handle_skewness()`: the unnamed index column goes, the log columns are added. */
    method LogColumnsInPlace(log: Float -> Float, skew: seq<Float> -> Float) returns (err: Option<FeError>)
      modifies df
      ensures df.columns == SkewPrefix(old(df.columns), log, skew).frame
      ensures err == SkewPrefix(old(df.columns), log, skew).error
    {
      if Has(df.columns, Unnamed) {
        df.columns := Drop(df.columns, Unnamed);
      }
      if !Has(df.columns, Kwh) {
        return Some(KeyError(Kwh));
      }
      df.columns := Set(df.columns, "log_kwh", Log1p(Get(df.columns, Kwh), log));
      if !Has(df.columns, Apartments) {
        return Some(KeyError(Apartments));
      }
      df.columns := Set(df.columns, "log_apartments", Log1p(Get(df.columns, Apartments), log));
      if !Has(df.columns, Floors) {
        return Some(KeyError(Floors));
      }
      if Lt(Fin(1.0), skew(Get(df.columns, Floors))) {
        df.columns := Set(df.columns, "log_floors", Log1p(Get(df.columns, Floors), log));
      }
      err := None;
    }

    /** The second part of `handle_skewness()`: the fitted transform replaces `cols`, the raw columns are dropped. */
    method TransformInPlace(cols: seq<string>, power: seq<seq<Float>> -> seq<seq<Float>>) returns (err: Option<FeError>)
      modifies df
      ensures df.columns == TransformAndDrop(old(df.columns), cols, power).frame
      ensures err == TransformAndDrop(old(df.columns), cols, power).error
    {
      var absent := FirstAbsent(df.columns, cols);
      if absent.Some? {
        return Some(KeyError(absent.value));
      }
      var out := power(Select(df.columns, cols));
      if |out| != |cols| {
        return Some(TransformFailed);
      }
      df.columns := WriteAll(df.columns, cols, out);
      df.columns := Drop(Drop(Drop(df.columns, Kwh), Apartments), Floors);
      err := None;
    }
  }
}
