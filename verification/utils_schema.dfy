/**
 * `standardize_columns`: spreadsheet headers are renamed to canonical names,
 * then each canonical column is coerced to its declared type. A coercion that
 * raises is swallowed and leaves the column as it was. Parsing text to numbers
 * and printing numbers as text are parameters.
 */
module UtilsSchema {
  import opened Wrappers
  import opened Numeric
  import opened Frames

  /** Raw header → canonical name. */
  const CanonicalMap: map<string, string> := map[
    "Building Construction Year" := "build_year",
    "Number of floors" := "nb_floor",
    "Number of Apartments" := "nb_appart",
    "kwh" := "kwh",
    "Area (m2)" := "area_m2",
    "Latitude" := "lat",
    "Longitude" := "long",
    "Function" := "function",
    "FID" := "fid",
    "District" := "district"
  ]

  datatype Dtype = Int64 | FloatType | StringType

  /** The declared types, in the order the loop visits them. */
  const Dtypes: seq<(string, Dtype)> := [
    ("build_year", Int64), ("nb_floor", Int64), ("nb_appart", Int64),
    ("kwh", FloatType), ("area_m2", FloatType), ("lat", FloatType), ("long", FloatType),
    ("function", StringType), ("district", StringType), ("fid", StringType)
  ]

  /** `{k: v for k, v in CANONICAL_MAP.items() if k in df.columns}`. */
  function PresentRenames<T>(t: seq<Column<T>>): (m: map<string, string>)
    ensures forall k :: k in m <==> k in CanonicalMap && Has(t, k)
    ensures forall k :: k in m ==> m[k] == CanonicalMap[k]
  {
    map k | k in CanonicalMap && Has(t, k) :: CanonicalMap[k]
  }

  /** The name a header ends up with. */
  function CanonicalName(name: string): string {
    if name in CanonicalMap then CanonicalMap[name] else name
  }

  /** Restricting the map to present headers renames exactly as the full map would. */
  lemma RenameByPresentKeys<T>(t: seq<Column<T>>)
    ensures forall i :: 0 <= i < |t| ==>
      Rename(t, PresentRenames(t))[i] == Column(CanonicalName(t[i].name), t[i].cells)
  {
    forall i | 0 <= i < |t|
      ensures Rename(t, PresentRenames(t))[i] == Column(CanonicalName(t[i].name), t[i].cells)
    {
      assert t[i].name in Names(t);
    }
  }

  /** `pd.to_numeric(x, errors="coerce")` on one cell: text that does not parse becomes NaN. */
  function ToNumeric(x: Cell, parse: string -> Option<Float>): Float {
    match x
    case Num(v) => v
    case Text(s) => if parse(s).Some? then parse(s).value else NaN
  }

  /** `.astype("Int64")` accepts missing values and integral finite values only. */
  predicate IntegralOrMissing(x: Float) {
    x.NaN? || (x.Fin? && x.r == x.r.Floor as real)
  }

  /** `astype("string")`: missing stays missing, numbers are printed by `repr`. */
  function ToText(x: Cell, repr: Float -> string): Cell {
    match x
    case Num(v) => if v.NaN? then x else Text(repr(v))
    case Text(_) => x
  }

  /** `astype("string")` on one column's cells. */
  function TextCells(cells: seq<Cell>, repr: Float -> string): (r: seq<Cell>)
    ensures |r| == |cells| && forall i :: 0 <= i < |cells| ==> r[i] == ToText(cells[i], repr)
  {
    seq(|cells|, i requires 0 <= i < |cells| => ToText(cells[i], repr))
  }

  /** The coercion of one column's cells; `None` when pandas raises. */
  function CoerceCells(cells: seq<Cell>, dt: Dtype, parse: string -> Option<Float>, repr: Float -> string)
    : (r: Option<seq<Cell>>)
    ensures r.Some? ==> |r.value| == |cells|
    ensures dt != Int64 ==> r.Some?
    ensures dt == Int64 ==> (r.Some? <==> forall i :: 0 <= i < |cells| ==> IntegralOrMissing(ToNumeric(cells[i], parse)))
  {
    var nums := seq(|cells|, i requires 0 <= i < |cells| => ToNumeric(cells[i], parse));
    match dt
    case Int64 =>
      if forall i :: 0 <= i < |cells| ==> IntegralOrMissing(ToNumeric(cells[i], parse))
      then Some(seq(|nums|, i requires 0 <= i < |nums| => Num(nums[i])))
      else None
    case FloatType => Some(seq(|nums|, i requires 0 <= i < |nums| => Num(nums[i])))
    case StringType => Some(TextCells(cells, repr))
  }

  /**
   * The name occurs once. With a duplicated name `df[c]` is a frame, and
   * `pd.to_numeric` of a frame raises, so the Int64 and float coercions need
   * this; the string cast works on a frame too.
   */
  predicate OccursOnce<T>(t: seq<Column<T>>, c: string) {
    forall i, j :: 0 <= i < |t| && 0 <= j < |t| && t[i].name == c && t[j].name == c ==> i == j
  }

  /** `df[c] = df[c].astype("string")`: every column called `c` is converted, each on its own. */
  function TextAll(t: seq<Column<Cell>>, c: string, repr: Float -> string): seq<Column<Cell>> {
    seq(|t|, i requires 0 <= i < |t| => if t[i].name == c then Column(c, TextCells(t[i].cells, repr)) else t[i])
  }

  /** One iteration of the loop over `DTYPES`, with the exception swallowed. */
  function CoerceStep(t: seq<Column<Cell>>, c: string, dt: Dtype, parse: string -> Option<Float>, repr: Float -> string)
    : seq<Column<Cell>>
  {
    if !Has(t, c) then t
    else if dt == StringType then TextAll(t, c, repr)
    else if OccursOnce(t, c) then
      var r := CoerceCells(Get(t, c), dt, parse, repr);
      if r.Some? then Set(t, c, r.value) else t
    else t
  }

  function CoerceUpTo(t: seq<Column<Cell>>, k: nat, parse: string -> Option<Float>, repr: Float -> string)
    : seq<Column<Cell>>
    requires k <= |Dtypes|
  {
    if k == 0 then t else CoerceStep(CoerceUpTo(t, k - 1, parse, repr), Dtypes[k - 1].0, Dtypes[k - 1].1, parse, repr)
  }

  function Standardized(t: seq<Column<Cell>>, parse: string -> Option<Float>, repr: Float -> string): seq<Column<Cell>> {
    CoerceUpTo(Rename(t, PresentRenames(t)), |Dtypes|, parse, repr)
  }

  /**
   * `standardize_columns(df)`, as an update of `df`: the source renames into
   * a copy and returns it, leaving the caller's frame as it was; the frame
   * returned is the one `df` holds here afterwards.
   */
  method StandardizeColumns(df: DataFrame<Cell>, parse: string -> Option<Float>, repr: Float -> string)
    modifies df
    ensures df.columns == Standardized(old(df.columns), parse, repr)
  {
    df.columns := Rename(df.columns, PresentRenames(df.columns));
    ghost var renamed := df.columns;
    var k := 0;
    while k < |Dtypes|
      invariant 0 <= k <= |Dtypes|
      invariant df.columns == CoerceUpTo(renamed, k, parse, repr)
    {
      var (c, dt) := Dtypes[k];
      CoerceColumn(df, c, dt, parse, repr);
      k := k + 1;
    }
  }

  /**
   * One pass of the loop over `DTYPES`: cast every column called `c` to
   * text, or coerce column `c` to a number type when it occurs once and the
   * coercion does not raise.
   */
  method CoerceColumn(df: DataFrame<Cell>, c: string, dt: Dtype, parse: string -> Option<Float>, repr: Float -> string)
    modifies df
    ensures df.columns == CoerceStep(old(df.columns), c, dt, parse, repr)
  {
    if !Has(df.columns, c) {
    } else if dt == StringType {
      df.columns := TextAll(df.columns, c, repr);
    } else if OccursOnce(df.columns, c) {
      var r := CoerceCells(Get(df.columns, c), dt, parse, repr);
      if r.Some? {
        df.columns := Set(df.columns, c, r.value);
      }
    }
  }

  lemma {:induction false} CoerceKeepsNames(t: seq<Column<Cell>>, k: nat, parse: string -> Option<Float>, repr: Float -> string)
    requires k <= |Dtypes|
    ensures Names(CoerceUpTo(t, k, parse, repr)) == Names(t)
  {
    if k > 0 {
      CoerceKeepsNames(t, k - 1, parse, repr);
    }
  }

  /**
   * Standardising renames exactly the headers that are CANONICAL_MAP keys, to
   * their canonical names, keeps every other name and the column count, and
   * keeps "kwh" as it is.
   */
  lemma StandardizedNames(t: seq<Column<Cell>>, parse: string -> Option<Float>, repr: Float -> string)
    ensures |Standardized(t, parse, repr)| == |t|
    ensures forall i :: 0 <= i < |t| ==> Standardized(t, parse, repr)[i].name == CanonicalName(t[i].name)
    ensures forall i :: 0 <= i < |t| && t[i].name !in CanonicalMap ==> Standardized(t, parse, repr)[i].name == t[i].name
    ensures forall i :: 0 <= i < |t| && t[i].name == "kwh" ==> Standardized(t, parse, repr)[i].name == "kwh"
  {
    var u := Rename(t, PresentRenames(t));
    var r := Standardized(t, parse, repr);
    RenameByPresentKeys(t);
    CoerceKeepsNames(u, |Dtypes|, parse, repr);
    forall i | 0 <= i < |t| ensures r[i].name == CanonicalName(t[i].name) {
      assert Names(r)[i] == Names(u)[i];
    }
    KwhKept();
  }

  lemma KwhKept()
    ensures CanonicalName("kwh") == "kwh"
  {
  }

  lemma CoerceStepOther(t: seq<Column<Cell>>, c: string, dt: Dtype, parse: string -> Option<Float>, repr: Float -> string, other: string)
    requires other != c
    ensures Has(CoerceStep(t, c, dt, parse, repr), other) <==> Has(t, other)
    ensures Has(t, other) ==> Get(CoerceStep(t, c, dt, parse, repr), other) == Get(t, other)
  {
    if !Has(t, c) {
    } else if dt == StringType {
      TextAllOther(t, c, repr, other);
    } else if OccursOnce(t, c) {
      var r := CoerceCells(Get(t, c), dt, parse, repr);
      if r.Some? { SetOther(t, c, r.value, other); }
    }
  }

  /** The string cast keeps the names, so a column of another name is found where it was, unchanged. */
  lemma TextAllOther(t: seq<Column<Cell>>, c: string, repr: Float -> string, other: string)
    requires other != c
    ensures Has(TextAll(t, c, repr), other) <==> Has(t, other)
    ensures Has(t, other) ==> Get(TextAll(t, c, repr), other) == Get(t, other)
  {
    var r := TextAll(t, c, repr);
    assert Names(r) == Names(t);
    if Has(t, other) {
      IndexOfFirst(r, other, IndexOf(t, other));
    }
  }

  /** A step for another name keeps the column count and the column at position `i`. */
  lemma CoerceStepAt(t: seq<Column<Cell>>, c: string, dt: Dtype, parse: string -> Option<Float>, repr: Float -> string, i: nat)
    requires i < |t| && t[i].name != c
    ensures |CoerceStep(t, c, dt, parse, repr)| == |t| && CoerceStep(t, c, dt, parse, repr)[i] == t[i]
  {
    if Has(t, c) && dt != StringType && OccursOnce(t, c) {
      var r := CoerceCells(Get(t, c), dt, parse, repr);
      if r.Some? {
        assert |Names(Set(t, c, r.value))| == |Names(t)|;
      }
    }
  }

  lemma DtypeNamesDistinct()
    ensures forall a, b :: 0 <= a < b < |Dtypes| ==> Dtypes[a].0 != Dtypes[b].0
  {
  }

  /** The steps after `j` leave the column visited at `j` alone. */
  lemma {:induction false} LaterStepsKeep(t: seq<Column<Cell>>, j: nat, k: nat, parse: string -> Option<Float>, repr: Float -> string)
    requires j < k <= |Dtypes|
    ensures var c := Dtypes[j].0;
      (Has(CoerceUpTo(t, k, parse, repr), c) <==> Has(CoerceUpTo(t, j + 1, parse, repr), c)) &&
      (Has(CoerceUpTo(t, j + 1, parse, repr), c) ==> Get(CoerceUpTo(t, k, parse, repr), c) == Get(CoerceUpTo(t, j + 1, parse, repr), c))
  {
    if k > j + 1 {
      LaterStepsKeep(t, j, k - 1, parse, repr);
      DtypeNamesDistinct();
      CoerceStepOther(CoerceUpTo(t, k - 1, parse, repr), Dtypes[k - 1].0, Dtypes[k - 1].1, parse, repr, Dtypes[j].0);
    }
  }

  /** The steps before `j` leave the column visited at `j` alone. */
  lemma {:induction false} EarlierStepsKeep(t: seq<Column<Cell>>, j: nat, k: nat, parse: string -> Option<Float>, repr: Float -> string)
    requires k <= j < |Dtypes|
    ensures var c := Dtypes[j].0;
      (Has(CoerceUpTo(t, k, parse, repr), c) <==> Has(t, c)) &&
      (Has(t, c) ==> Get(CoerceUpTo(t, k, parse, repr), c) == Get(t, c))
  {
    if k > 0 {
      EarlierStepsKeep(t, j, k - 1, parse, repr);
      DtypeNamesDistinct();
      CoerceStepOther(CoerceUpTo(t, k - 1, parse, repr), Dtypes[k - 1].0, Dtypes[k - 1].1, parse, repr, Dtypes[j].0);
    }
  }

  /** The coerced cells when the coercion succeeds, else the column as it is. */
  function CoercedOrKept(u: seq<Column<Cell>>, c: string, dt: Dtype, parse: string -> Option<Float>, repr: Float -> string): seq<Cell>
    requires Has(u, c)
  {
    var r := CoerceCells(Get(u, c), dt, parse, repr);
    if (dt == StringType || OccursOnce(u, c)) && r.Some? then r.value else Get(u, c)
  }

  /**
   * Each canonical column ends up coerced to its declared type when the
   * coercion succeeds and as it was after renaming when it raises (or when a
   * number column's name is duplicated); presence never changes.
   */
  lemma CoercedColumn(t: seq<Column<Cell>>, j: nat, parse: string -> Option<Float>, repr: Float -> string)
    requires j < |Dtypes|
    ensures var (c, dt) := Dtypes[j];
      var u := Rename(t, PresentRenames(t));
      var r := Standardized(t, parse, repr);
      (Has(r, c) <==> Has(u, c)) &&
      (Has(u, c) ==> Get(r, c) == CoercedOrKept(u, c, dt, parse, repr))
  {
    var u := Rename(t, PresentRenames(t));
    var c := Dtypes[j].0;
    EarlierStepsKeep(u, j, j, parse, repr);
    CoerceKeepsNames(u, j, parse, repr);
    var before := CoerceUpTo(u, j, parse, repr);
    assert OccursOnce(before, c) <==> OccursOnce(u, c) by {
      assert forall i :: 0 <= i < |u| ==> before[i].name == Names(before)[i] == Names(u)[i] == u[i].name;
    }
    if Has(before, c) && Dtypes[j].1 == StringType {
      var k := IndexOf(before, c);
      IndexOfFirst(TextAll(before, c, repr), c, k);
    }
    if j + 1 < |Dtypes| {
      LaterStepsKeep(u, j, |Dtypes|, parse, repr);
    }
  }

  /** The steps before `j` leave the column at position `i`, named as the column visited at `j`, alone. */
  lemma {:induction false} EarlierStepsKeepAt(t: seq<Column<Cell>>, j: nat, k: nat, i: nat, parse: string -> Option<Float>, repr: Float -> string)
    requires k <= j < |Dtypes| && i < |t| && t[i].name == Dtypes[j].0
    ensures |CoerceUpTo(t, k, parse, repr)| == |t| && CoerceUpTo(t, k, parse, repr)[i] == t[i]
  {
    if k > 0 {
      var m: nat := k - 1;
      EarlierStepsKeepAt(t, j, m, i, parse, repr);
      DtypeNamesDistinct();
      CoerceStepAt(CoerceUpTo(t, m, parse, repr), Dtypes[m].0, Dtypes[m].1, parse, repr, i);
    }
  }

  /** The steps after `j` leave the column at position `i`, named as the column visited at `j`, alone. */
  lemma {:induction false} LaterStepsKeepAt(t: seq<Column<Cell>>, j: nat, k: nat, i: nat, parse: string -> Option<Float>, repr: Float -> string)
    requires j < k <= |Dtypes| && i < |t| && t[i].name == Dtypes[j].0
    ensures |CoerceUpTo(t, j + 1, parse, repr)| == |CoerceUpTo(t, k, parse, repr)| == |t|
    ensures CoerceUpTo(t, k, parse, repr)[i] == CoerceUpTo(t, j + 1, parse, repr)[i]
  {
    CoerceKeepsNames(t, j + 1, parse, repr);
    assert |Names(CoerceUpTo(t, j + 1, parse, repr))| == |t|;
    if k > j + 1 {
      var m: nat := k - 1;
      LaterStepsKeepAt(t, j, m, i, parse, repr);
      DtypeNamesDistinct();
      CoerceKeepsNames(t, m, parse, repr);
      assert Names(CoerceUpTo(t, m, parse, repr))[i] == t[i].name;
      CoerceStepAt(CoerceUpTo(t, m, parse, repr), Dtypes[m].0, Dtypes[m].1, parse, repr, i);
    }
  }

  /**
   * A string column is cast to text in every copy: a name that renaming
   * duplicated ("FID" and "fid", "District" and "district") has each of its
   * columns converted, cell by cell.
   */
  lemma StringColumnsCoerced(t: seq<Column<Cell>>, j: nat, parse: string -> Option<Float>, repr: Float -> string)
    requires j < |Dtypes| && Dtypes[j].1 == StringType
    ensures var u := Rename(t, PresentRenames(t)); var r := Standardized(t, parse, repr);
      |r| == |u| &&
      forall i :: 0 <= i < |u| && u[i].name == Dtypes[j].0 ==> r[i] == Column(u[i].name, TextCells(u[i].cells, repr))
  {
    var u := Rename(t, PresentRenames(t));
    var r := Standardized(t, parse, repr);
    var c := Dtypes[j].0;
    CoerceKeepsNames(u, |Dtypes|, parse, repr);
    assert |Names(r)| == |u|;
    forall i | 0 <= i < |u| && u[i].name == c ensures r[i] == Column(u[i].name, TextCells(u[i].cells, repr)) {
      EarlierStepsKeepAt(u, j, j, i, parse, repr);
      var before := CoerceUpTo(u, j, parse, repr);
      assert Names(before)[i] == c;
      assert CoerceUpTo(u, j + 1, parse, repr) == TextAll(before, c, repr);
      if j + 1 < |Dtypes| {
        LaterStepsKeepAt(u, j, |Dtypes|, i, parse, repr);
      }
    }
  }

  /** In a float column every unparsable text becomes missing and every parsed value is kept. */
  lemma FloatColumnsCoerced(t: seq<Column<Cell>>, j: nat, parse: string -> Option<Float>, repr: Float -> string)
    requires j < |Dtypes| && Dtypes[j].1 == FloatType
    requires var u := Rename(t, PresentRenames(t)); Has(u, Dtypes[j].0) && OccursOnce(u, Dtypes[j].0)
    ensures var c := Dtypes[j].0; var u := Rename(t, PresentRenames(t));
      Has(Standardized(t, parse, repr), c) &&
      |Get(Standardized(t, parse, repr), c)| == |Get(u, c)| &&
      forall i :: 0 <= i < |Get(u, c)| ==> Get(Standardized(t, parse, repr), c)[i] == Num(ToNumeric(Get(u, c)[i], parse))
  {
    CoercedColumn(t, j, parse, repr);
  }

  /** An Int64 column is either entirely integral-or-missing afterwards, or left exactly as it was. */
  lemma IntColumnsCoercedOrKept(t: seq<Column<Cell>>, j: nat, parse: string -> Option<Float>, repr: Float -> string)
    requires j < |Dtypes| && Dtypes[j].1 == Int64
    requires Has(Rename(t, PresentRenames(t)), Dtypes[j].0)
    ensures Has(Standardized(t, parse, repr), Dtypes[j].0)
    ensures var c := Dtypes[j].0; var u := Rename(t, PresentRenames(t)); var cells := Get(Standardized(t, parse, repr), c);
      cells == Get(u, c) || forall x :: x in cells ==> x.Num? && IntegralOrMissing(x.v)
  {
    CoercedColumn(t, j, parse, repr);
  }
}
