/**
 * Inference-side preprocessing of one submitted building: the one-row frame
 * built from the request body, and the derived age and per-unit consumption
 * columns added to a copy of a frame.
 */
module Preprocess {
  import opened Wrappers
  import opened Numeric
  import opened Frames

  /** A JSON value of the request body. */
  datatype Json = JNum(n: Float) | JStr(s: string) | JNull

  /** The keys `to_dataframe_one` reads with `b[...]`, after the optional building code, in column order. */
  const RequiredKeys: seq<string> := [
    "electricity_kwh", "area_m2", "year_construction", "num_floors",
    "num_apartments", "function", "longitude", "latitude"
  ]

  const BuildingColumns: seq<string> := ["building_code"] + RequiredKeys

  /** The first required key the body lacks, which is the `KeyError` the dict lookup raises. */
  function FirstMissingKey(b: map<string, Json>, keys: seq<string>): (r: Option<string>)
    ensures r.None? <==> forall k :: k in keys ==> k in b
    ensures r.Some? ==> r.value in keys && r.value !in b
  {
    if keys == [] then None
    else if keys[0] !in b then Some(keys[0])
    else FirstMissingKey(b, keys[1..])
  }

  /** The one-row frame for the present keys: the code or null, then each required value. */
  function OneRow(b: map<string, Json>, keys: seq<string>): (t: seq<Column<Json>>)
    requires forall k :: k in keys ==> k in b
    ensures |t| == |keys| + 1 && Rectangular(t, 1)
    ensures t[0] == Column("building_code", [if "building_code" in b then b["building_code"] else JNull])
    ensures forall i :: 0 <= i < |keys| ==> t[i + 1] == Column(keys[i], [b[keys[i]]])
  {
    [Column("building_code", [if "building_code" in b then b["building_code"] else JNull])] +
    seq(|keys|, i requires 0 <= i < |keys| => Column(keys[i], [b[keys[i]]]))
  }

  /** `to_dataframe_one(b)`: a `KeyError` for the first absent required key, else the one-row frame. */
  function ToDataFrameOne(b: map<string, Json>): Result<seq<Column<Json>>, string> {
    var missing := FirstMissingKey(b, RequiredKeys);
    if missing.Some? then Err(missing.value) else Ok(OneRow(b, RequiredKeys))
  }

  /**
   * The frame exists exactly when every required key is present; it then has
   * one row and the nine building columns in order, with a missing building
   * code as null and every other value as given.
   */
  lemma ToDataFrameOneShape(b: map<string, Json>)
    ensures ToDataFrameOne(b).Ok? <==> forall k :: k in RequiredKeys ==> k in b
    ensures ToDataFrameOne(b).Err? ==> ToDataFrameOne(b).error in RequiredKeys && ToDataFrameOne(b).error !in b
    ensures ToDataFrameOne(b).Ok? ==>
      var t := ToDataFrameOne(b).value;
      Names(t) == BuildingColumns && Rectangular(t, 1) &&
      t[0].cells == [if "building_code" in b then b["building_code"] else JNull] &&
      forall i :: 1 <= i < |t| ==> t[i].cells == [b[t[i].name]]
  {
    if ToDataFrameOne(b).Ok? {
      var t := ToDataFrameOne(b).value;
      assert forall i :: 1 <= i < |t| ==> t[i] == Column(RequiredKeys[i - 1], [b[RequiredKeys[i - 1]]]);
      assert Names(t) == BuildingColumns;
    }
  }

  // ---------------- add_derived ----------------

  /** `c - s`, element by element. */
  function ConstMinus(c: real, s: seq<Float>): (r: seq<Float>)
    ensures |r| == |s| && forall i :: 0 <= i < |s| ==> r[i] == Sub(Fin(c), s[i])
  {
    seq(|s|, i requires 0 <= i < |s| => Sub(Fin(c), s[i]))
  }

  const Epsilon: real := 0.000001

  /** `num / (den + 1e-6)`, element by element over the shared row index; rows beyond `den` are NaN. */
  function PerUnit(num: seq<Float>, den: seq<Float>): (r: seq<Float>)
    ensures |r| == |num| && forall i :: 0 <= i < |num| && i < |den| ==> r[i] == Div(num[i], Add(den[i], Fin(Epsilon)))
  {
    seq(|num|, i requires 0 <= i < |num| => if i < |den| then Div(num[i], Add(den[i], Fin(Epsilon))) else NaN)
  }

  /** The columns `add_derived` reads are all present. */
  predicate HasInputs(t: seq<Column<Float>>) {
    Has(t, "year_construction") && Has(t, "electricity_kwh") && Has(t, "area_m2") &&
    Has(t, "num_apartments") && Has(t, "num_floors")
  }

  /** The `KeyError` of `add_derived`: the first absent column in the order the expressions read them. */
  function FirstAbsentInput(t: seq<Column<Float>>): Option<string> {
    if !Has(t, "year_construction") then Some("year_construction")
    else if !Has(t, "electricity_kwh") then Some("electricity_kwh")
    else if !Has(t, "area_m2") then Some("area_m2")
    else if !Has(t, "num_apartments") then Some("num_apartments")
    else if !Has(t, "num_floors") then Some("num_floors")
    else None
  }

  /**
   * `add_derived(df)`: a new frame; the caller's frame is a value and is
   * untouched. The inputs are read from `t`, which is what the copy holds at
   * each read since no derived name is an input name.
   */
  function AddDerived(t: seq<Column<Float>>): Result<seq<Column<Float>>, string> {
    var absent := FirstAbsentInput(t);
    if absent.Some? then Err(absent.value)
    else
      var kwh := Get(t, "electricity_kwh");
      var t1 := Set(t, "age", ConstMinus(2025.0, Get(t, "year_construction")));
      var t2 := Set(t1, "kwh_per_m2", PerUnit(kwh, Get(t, "area_m2")));
      var t3 := Set(t2, "kwh_per_apartment", PerUnit(kwh, Get(t, "num_apartments")));
      Ok(Set(t3, "kwh_per_floor", PerUnit(kwh, Get(t, "num_floors"))))
  }

  predicate IsDerived(c: string) {
    c == "age" || c == "kwh_per_m2" || c == "kwh_per_apartment" || c == "kwh_per_floor"
  }

  /** `add_derived` fails exactly when an input column is absent, and then names one of them. */
  lemma AddDerivedFails(t: seq<Column<Float>>)
    ensures AddDerived(t).Ok? <==> HasInputs(t)
    ensures AddDerived(t).Err? ==> !Has(t, AddDerived(t).error)
  {
  }

  /**
   * On success: age = 2025 - year of construction, each ratio is consumption
   * over its denominator plus 1e-6, and every other column is as it was.
   */
  lemma AddDerivedColumns(t: seq<Column<Float>>, other: string)
    requires AddDerived(t).Ok? && !IsDerived(other)
    ensures var r := AddDerived(t).value;
      Has(r, "age") && Get(r, "age") == ConstMinus(2025.0, Get(t, "year_construction")) &&
      Has(r, "kwh_per_m2") && Get(r, "kwh_per_m2") == PerUnit(Get(t, "electricity_kwh"), Get(t, "area_m2")) &&
      Has(r, "kwh_per_apartment") && Get(r, "kwh_per_apartment") == PerUnit(Get(t, "electricity_kwh"), Get(t, "num_apartments")) &&
      Has(r, "kwh_per_floor") && Get(r, "kwh_per_floor") == PerUnit(Get(t, "electricity_kwh"), Get(t, "num_floors")) &&
      (Has(r, other) <==> Has(t, other)) && (Has(t, other) ==> Get(r, other) == Get(t, other))
  {
    var kwh := Get(t, "electricity_kwh");
    var ages := ConstMinus(2025.0, Get(t, "year_construction"));
    var m2 := PerUnit(kwh, Get(t, "area_m2"));
    var pa := PerUnit(kwh, Get(t, "num_apartments"));
    var pf := PerUnit(kwh, Get(t, "num_floors"));
    var t1 := Set(t, "age", ages);
    var t2 := Set(t1, "kwh_per_m2", m2);
    var t3 := Set(t2, "kwh_per_apartment", pa);
    SetOther(t, "age", ages, other);
    SetOther(t1, "kwh_per_m2", m2, "age");
    SetOther(t1, "kwh_per_m2", m2, other);
    SetOther(t2, "kwh_per_apartment", pa, "age");
    SetOther(t2, "kwh_per_apartment", pa, "kwh_per_m2");
    SetOther(t2, "kwh_per_apartment", pa, other);
    SetOther(t3, "kwh_per_floor", pf, "age");
    SetOther(t3, "kwh_per_floor", pf, "kwh_per_m2");
    SetOther(t3, "kwh_per_floor", pf, "kwh_per_apartment");
    SetOther(t3, "kwh_per_floor", pf, other);
  }

  /** A per-unit ratio over a finite non-negative denominator is a finite number: the 1e-6 keeps the divisor positive. */
  lemma PerUnitDefined(num: seq<Float>, den: seq<Float>, i: nat)
    requires i < |num| && i < |den| && num[i].Fin? && den[i].Fin? && den[i].r >= 0.0
    ensures PerUnit(num, den)[i] == Fin(num[i].r / (den[i].r + Epsilon))
  {
  }
}
