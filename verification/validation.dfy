/**
 * Upload validation: fuzzy header matching, the required-column check, cell
 * normalisation, and the rule-aware missingness fractions reported for a
 * dataset. Reading the file and parsing numbers are outside the model; the
 * loaded frame and the number parser are parameters.
 */
module Validation {
  import opened Wrappers
  import opened Numeric
  import opened Text
  import opened Frames
  import opened Sorting

  const ExpectedColumns: seq<string> := [
    "Building's construction year",
    "Number of floors",
    "Number of apartments",
    "Total electricity consumption (kWh)",
    "Latitude",
    "Longitude"
  ]

  // ---------------- _norm_name ----------------

  /** The length of the leading run of `[a-z0-9]` characters. */
  function RunLength(s: string): (n: nat)
    ensures n <= |s| && forall i :: 0 <= i < n ==> IsLowerAlnum(s[i])
    ensures n < |s| ==> !IsLowerAlnum(s[n])
  {
    if s == [] || !IsLowerAlnum(s[0]) then 0 else 1 + RunLength(s[1..])
  }

  /** `re.findall(r"[a-z0-9]+", s)`: the maximal runs of lower-case letters and digits. */
  function Tokens(s: string): seq<string>
    decreases |s|
  {
    if s == [] then []
    else if !IsLowerAlnum(s[0]) then Tokens(s[1..])
    else
      var n := RunLength(s);
      [s[..n]] + Tokens(s[n..])
  }

  lemma {:induction false} TokensAlnum(s: string)
    ensures forall k :: 0 <= k < |Tokens(s)| ==> forall i :: 0 <= i < |Tokens(s)[k]| ==> IsLowerAlnum(Tokens(s)[k][i])
    decreases |s|
  {
    if s != [] {
      if !IsLowerAlnum(s[0]) {
        TokensAlnum(s[1..]);
      } else {
        TokensAlnum(s[RunLength(s)..]);
      }
    }
  }

  /** `re.sub(r"s$", "", t)`: one trailing "s" removed. */
  function Singular(t: string): (r: string)
    ensures |r| <= |t| && r == t[..|r|]
  {
    if |t| > 0 && t[|t| - 1] == 's' then t[..|t| - 1] else t
  }

  function SingularAll(ts: seq<string>): (rs: seq<string>)
    ensures |rs| == |ts| && forall k :: 0 <= k < |ts| ==> rs[k] == Singular(ts[k])
  {
    seq(|ts|, k requires 0 <= k < |ts| => Singular(ts[k]))
  }

  function Join(ts: seq<string>): string {
    if ts == [] then [] else ts[0] + Join(ts[1..])
  }

  /** The typographic quotes mapped to straight ones. */
  function QuoteChar(c: char): char {
    if c == '’' || c == '‘' then '\'' else if c == '“' || c == '”' then '"' else c
  }

  function UnifyQuotes(s: string): string {
    seq(|s|, i requires 0 <= i < |s| => QuoteChar(s[i]))
  }

  /** `_norm_name(s)`. */
  function NormName(s: string): string {
    Join(SingularAll(Tokens(UnifyQuotes(Lower(Strip(s))))))
  }

  lemma {:induction false} JoinAlnum(ts: seq<string>)
    requires forall k :: 0 <= k < |ts| ==> forall i :: 0 <= i < |ts[k]| ==> IsLowerAlnum(ts[k][i])
    ensures forall i :: 0 <= i < |Join(ts)| ==> IsLowerAlnum(Join(ts)[i])
  {
    if ts != [] {
      JoinAlnum(ts[1..]);
      assert Join(ts) == ts[0] + Join(ts[1..]);
    }
  }

  /** A normalised name consists of the characters a-z and 0-9 only. */
  lemma NormNameAlnum(s: string)
    ensures forall i :: 0 <= i < |NormName(s)| ==> IsLowerAlnum(NormName(s)[i])
  {
    var ts := Tokens(UnifyQuotes(Lower(Strip(s))));
    TokensAlnum(UnifyQuotes(Lower(Strip(s))));
    var rs := SingularAll(ts);
    forall k | 0 <= k < |rs|
      ensures forall i :: 0 <= i < |rs[k]| ==> IsLowerAlnum(rs[k][i])
    {
      assert rs[k] == ts[k][..|rs[k]|];
    }
    JoinAlnum(rs);
  }

  /** Every character that is not a lower-case letter or digit replaced by a blank. */
  function Skeleton(s: string): (r: string)
    ensures |r| == |s|
  {
    seq(|s|, i requires 0 <= i < |s| => if IsLowerAlnum(s[i]) then s[i] else ' ')
  }

  lemma {:induction false} RunLengthSkeleton(s: string)
    ensures RunLength(Skeleton(s)) == RunLength(s)
    ensures Skeleton(s)[..RunLength(s)] == s[..RunLength(s)]
  {
    if s != [] && IsLowerAlnum(s[0]) {
      assert Skeleton(s)[1..] == Skeleton(s[1..]);
      RunLengthSkeleton(s[1..]);
    }
  }

  /** Which separators split the tokens does not matter, only where they are. */
  lemma {:induction false} TokensOfSkeleton(s: string)
    ensures Tokens(Skeleton(s)) == Tokens(s)
    decreases |s|
  {
    if s != [] {
      if !IsLowerAlnum(s[0]) {
        assert Skeleton(s)[1..] == Skeleton(s[1..]);
        TokensOfSkeleton(s[1..]);
      } else {
        var n := RunLength(s);
        RunLengthSkeleton(s);
        assert Skeleton(s)[n..] == Skeleton(s[n..]);
        TokensOfSkeleton(s[n..]);
      }
    }
  }

  /** A separator appended at the end adds no token. */
  lemma {:induction false} TokensAppendSeparator(s: string, c: char)
    requires !IsLowerAlnum(c)
    ensures Tokens(s + [c]) == Tokens(s)
    decreases |s|
  {
    if s == [] {
      assert Tokens([c]) == Tokens([]);
    } else if !IsLowerAlnum(s[0]) {
      assert (s + [c])[1..] == s[1..] + [c];
      TokensAppendSeparator(s[1..], c);
    } else {
      var n := RunLength(s);
      RunLengthAppend(s, c);
      assert (s + [c])[..n] == s[..n];
      assert (s + [c])[n..] == s[n..] + [c];
      TokensAppendSeparator(s[n..], c);
    }
  }

  lemma {:induction false} RunLengthAppend(s: string, c: char)
    requires !IsLowerAlnum(c)
    ensures RunLength(s + [c]) == RunLength(s)
  {
    if s != [] && IsLowerAlnum(s[0]) {
      assert (s + [c])[1..] == s[1..] + [c];
      RunLengthAppend(s[1..], c);
    }
  }

  lemma {:induction false} TokensStripLeft(s: string)
    ensures Tokens(Lower(StripLeft(s))) == Tokens(Lower(s))
  {
    if s != [] && IsSpace(s[0]) {
      assert Lower(s)[1..] == Lower(s[1..]);
      TokensStripLeft(s[1..]);
    }
  }

  lemma {:induction false} TokensStripRight(s: string)
    ensures Tokens(Lower(StripRight(s))) == Tokens(Lower(s))
  {
    if s != [] && IsSpace(s[|s| - 1]) {
      var init := s[..|s| - 1];
      assert Lower(s) == Lower(init) + [LowerChar(s[|s| - 1])];
      TokensAppendSeparator(Lower(init), LowerChar(s[|s| - 1]));
      TokensStripRight(init);
    }
  }

  /** Surrounding whitespace and quote style do not change the tokens. */
  lemma NormNameByTokens(s: string)
    ensures NormName(s) == Join(SingularAll(Tokens(Lower(s))))
  {
    var x := Lower(Strip(s));
    assert Skeleton(UnifyQuotes(x)) == Skeleton(x);
    TokensOfSkeleton(UnifyQuotes(x));
    TokensOfSkeleton(x);
    TokensStripRight(StripLeft(s));
    TokensStripLeft(s);
  }

  /** Letter case is ignored. */
  lemma NormNameIgnoresCase(a: string, b: string)
    requires Lower(a) == Lower(b)
    ensures NormName(a) == NormName(b)
  {
    NormNameByTokens(a);
    NormNameByTokens(b);
  }

  /** Whitespace and punctuation are ignored up to where they separate tokens. */
  lemma NormNameIgnoresSeparators(a: string, b: string)
    requires Skeleton(Lower(a)) == Skeleton(Lower(b))
    ensures NormName(a) == NormName(b)
  {
    NormNameByTokens(a);
    NormNameByTokens(b);
    TokensOfSkeleton(Lower(a));
    TokensOfSkeleton(Lower(b));
  }

  /** A plural token and its singular normalise alike. */
  lemma SingularOfPlural(t: string)
    requires t == [] || t[|t| - 1] != 's'
    ensures Singular(t + "s") == t && Singular(t) == t
  {
  }

  // ---------------- validate_csv ----------------

  /** The last of `cols` whose normalised form is `key`. */
  function LastWithKey(cols: seq<string>, key: string): (c: string)
    requires exists c :: c in cols && NormName(c) == key
    ensures c in cols && NormName(c) == key
  {
    var last := cols[|cols| - 1];
    if NormName(last) == key then last
    else
      assert forall x :: x in cols ==> x in cols[..|cols| - 1] || x == last;
      LastWithKey(cols[..|cols| - 1], key)
  }

  /** `{_norm_name(c): c for c in cols}`: on a clash the later column wins, as in the dict comprehension. */
  function NormMap(cols: seq<string>): (m: map<string, string>)
    ensures forall c :: c in cols ==> NormName(c) in m
    ensures forall k :: k in m ==> m[k] in cols && NormName(m[k]) == k
  {
    map k | k in (set c | c in cols :: NormName(c)) :: LastWithKey(cols, k)
  }

  function ExpectedMap(): map<string, string> {
    NormMap(ExpectedColumns)
  }

  /** The header spellings `ALIASES` accepts for the construction year. */
  const YearAliases: seq<string> := ["building construction year", "construction year", "year built", "year of construction"]

  /** `ALIASES`: each spelling's normalised form, mapped to the construction-year column. */
  function Aliases(): (m: map<string, string>)
    ensures forall c :: c in YearAliases ==> NormName(c) in m
    ensures forall k :: k in m ==> m[k] == "Building's construction year"
  {
    map k | k in NormKeys(YearAliases) :: "Building's construction year"
  }

  /** The normalised forms of `cols`. */
  function NormKeys(cols: seq<string>): (r: set<string>)
    ensures forall c :: c in cols ==> NormName(c) in r
  {
    set c | c in cols :: NormName(c)
  }

  /**
   * The name header `c` is renamed to, if any, given the `expected_map` and
   * `ALIASES` dictionaries: an exact expected match first, then an alias.
   */
  function Target(c: string, exact: map<string, string>, aliases: map<string, string>): Option<string> {
    var key := NormName(c);
    if key in exact then Some(exact[key])
    else if key in aliases then Some(aliases[key])
    else None
  }

  /** The `rename` dict after one more header: a header with a target is renamed to it. */
  function AddTarget(m: map<string, string>, c: string, exact: map<string, string>, aliases: map<string, string>): map<string, string> {
    var t := Target(c, exact, aliases);
    if t.Some? then m[c := t.value] else m
  }

  /** The `rename` dict `m` after the headers `names`, in order. */
  function RenameFold(m: map<string, string>, names: seq<string>, exact: map<string, string>, aliases: map<string, string>): map<string, string>
    decreases |names|
  {
    if names == [] then m else RenameFold(AddTarget(m, names[0], exact, aliases), names[1..], exact, aliases)
  }

  /** `r` holds `m`'s entries, with each of `names` that has a target renamed to it. */
  ghost predicate RenamedFrom(r: map<string, string>, m: map<string, string>, names: seq<string>, exact: map<string, string>, aliases: map<string, string>) {
    (forall c :: c in r <==> c in m || (c in names && Target(c, exact, aliases).Some?)) &&
    (forall c :: c in r ==> r[c] == if c in names && Target(c, exact, aliases).Some? then Target(c, exact, aliases).value else m[c])
  }

  /** The headers with a target are renamed to it; every other key keeps its entry in `m`. */
  lemma {:induction false} RenameFoldEntries(m: map<string, string>, names: seq<string>, exact: map<string, string>, aliases: map<string, string>)
    ensures RenamedFrom(RenameFold(m, names, exact, aliases), m, names, exact, aliases)
    decreases |names|
  {
    if names != [] {
      var next := AddTarget(m, names[0], exact, aliases);
      RenameFoldEntries(next, names[1..], exact, aliases);
      RenamedStep(RenameFold(next, names[1..], exact, aliases), m, names, exact, aliases);
    }
  }

  /** Renaming the first header, then the rest, renames them all. */
  lemma RenamedStep(r: map<string, string>, m: map<string, string>, names: seq<string>, exact: map<string, string>, aliases: map<string, string>)
    requires names != [] && RenamedFrom(r, AddTarget(m, names[0], exact, aliases), names[1..], exact, aliases)
    ensures RenamedFrom(r, m, names, exact, aliases)
  {
    forall c ensures c in names <==> c == names[0] || c in names[1..] {
      assert names == [names[0]] + names[1..];
    }
  }

  datatype ValidationError = MissingRequiredColumns(missing: seq<string>) | DuplicateColumn(name: string)

  /** `df.replace(r"^\s*$", np.nan, regex=True)` on one cell. */
  function BlankToNan(x: Cell): (r: Cell)
    ensures x.Text? && AllSpace(x.s) ==> r == Num(NaN)
    ensures !(x.Text? && AllSpace(x.s)) ==> r == x
  {
    if x.Text? && AllSpace(x.s) then Num(NaN) else x
  }

  function BlankCells(cells: seq<Cell>): (r: seq<Cell>)
    ensures |r| == |cells| && forall i :: 0 <= i < |cells| ==> r[i] == BlankToNan(cells[i])
  {
    seq(|cells|, i requires 0 <= i < |cells| => BlankToNan(cells[i]))
  }

  function BlankColumns(t: seq<Column<Cell>>): (r: seq<Column<Cell>>)
    ensures |r| == |t|
    ensures forall j :: 0 <= j < |t| ==> r[j] == Column(t[j].name, BlankCells(t[j].cells))
  {
    seq(|t|, j requires 0 <= j < |t| => Column(t[j].name, BlankCells(t[j].cells)))
  }

  /**
   * The numeric coercion of one cell: text loses its commas and surrounding
   * whitespace and is parsed (`parse` stands for `pd.to_numeric`), anything
   * unparsable becomes NaN; numbers are kept.
   */
  function NumericCell(x: Cell, parse: string -> Option<Float>): (r: Cell)
    ensures r.Num?
    ensures x.Num? ==> r == x
    ensures x.Text? && parse(Strip(RemoveChar(x.s, ','))).None? ==> r == Num(NaN)
  {
    match x
    case Num(_) => x
    case Text(s) =>
      var p := parse(Strip(RemoveChar(s, ',')));
      if p.Some? then Num(p.value) else Num(NaN)
  }

  function NumericCells(cells: seq<Cell>, parse: string -> Option<Float>): (r: seq<Cell>)
    ensures |r| == |cells| && forall i :: 0 <= i < |cells| ==> r[i] == NumericCell(cells[i], parse)
  {
    seq(|cells|, i requires 0 <= i < |cells| => NumericCell(cells[i], parse))
  }

  /** Each name is a column of exactly one position. */
  predicate OccursOnce<T>(t: seq<Column<T>>, c: string) {
    forall i, j :: 0 <= i < |t| && 0 <= j < |t| && t[i].name == c && t[j].name == c ==> i == j
  }

  /**
   * One iteration of the coercion loop. A duplicated name makes `df[col]` a
   * frame, which has no `dtype`, so the loop raises.
   */
  function CoerceStep(t: seq<Column<Cell>>, col: string, parse: string -> Option<Float>): Result<seq<Column<Cell>>, ValidationError> {
    if !Has(t, col) then Ok(t)
    else if !OccursOnce(t, col) then Err(DuplicateColumn(col))
    else Ok(Set(t, col, NumericCells(Get(t, col), parse)))
  }

  /** The coercion loop over the first `k` of `cols`; the first error ends it. */
  function CoerceUpTo(t: seq<Column<Cell>>, cols: seq<string>, k: nat, parse: string -> Option<Float>): Result<seq<Column<Cell>>, ValidationError>
    requires k <= |cols|
  {
    if k == 0 then Ok(t)
    else
      var prev := CoerceUpTo(t, cols, k - 1, parse);
      if prev.Err? then prev else CoerceStep(prev.value, cols[k - 1], parse)
  }

  /** The frame after header renaming. */
  function Renamed(t: seq<Column<Cell>>, exact: map<string, string>, aliases: map<string, string>): seq<Column<Cell>> {
    var rename := RenameFold(map[], Names(t), exact, aliases);
    if |rename| == 0 then t else Rename(t, rename)
  }

  /** The body of `validate_csv` for required columns `cols` and the two header dictionaries. */
  function ValidatedWith(t: seq<Column<Cell>>, parse: string -> Option<Float>, cols: seq<string>,
                         exact: map<string, string>, aliases: map<string, string>): Result<seq<Column<Cell>>, ValidationError> {
    var u := Renamed(t, exact, aliases);
    var missing := Missing(cols, u);
    if missing != [] then Err(MissingRequiredColumns(missing))
    else CoerceUpTo(BlankColumns(u), cols, |cols|, parse)
  }

  /** `validate_csv` on the loaded frame `t`. */
  function Validated(t: seq<Column<Cell>>, parse: string -> Option<Float>): Result<seq<Column<Cell>>, ValidationError> {
    ValidatedWith(t, parse, ExpectedColumns, ExpectedMap(), Aliases())
  }

  method ValidateWith(t: seq<Column<Cell>>, parse: string -> Option<Float>, cols: seq<string>,
                      exact: map<string, string>, aliases: map<string, string>)
    returns (r: Result<seq<Column<Cell>>, ValidationError>)
    ensures r == ValidatedWith(t, parse, cols, exact, aliases)
  {
    var rename := RenameHeaders(Names(t), exact, aliases);
    var df := t;
    if |rename| != 0 {
      df := Rename(df, rename);
    }
    var missing := Missing(cols, df);
    if missing != [] {
      return Err(MissingRequiredColumns(missing));
    }
    r := CoerceRequired(BlankColumns(df), cols, parse);
  }

  /** The loop building `rename` from the frame's headers. */
  method RenameHeaders(names: seq<string>, exact: map<string, string>, aliases: map<string, string>)
    returns (rename: map<string, string>)
    ensures rename == RenameFold(map[], names, exact, aliases)
  {
    rename := map[];
    var k := 0;
    while k < |names|
      invariant 0 <= k <= |names|
      invariant RenameFold(rename, names[k..], exact, aliases) == RenameFold(map[], names, exact, aliases)
    {
      assert names[k..][1..] == names[k + 1..];
      var name := names[k];
      var target := Target(name, exact, aliases);
      if target.Some? {
        rename := rename[name := target.value];
      }
      k := k + 1;
    }
  }

  /** The loop coercing each required column that is present to numbers. */
  method CoerceRequired(blanked: seq<Column<Cell>>, cols: seq<string>, parse: string -> Option<Float>)
    returns (r: Result<seq<Column<Cell>>, ValidationError>)
    ensures r == CoerceUpTo(blanked, cols, |cols|, parse)
  {
    var df := blanked;
    var j := 0;
    while j < |cols|
      invariant 0 <= j <= |cols|
      invariant CoerceUpTo(blanked, cols, j, parse) == Ok(df)
    {
      var col := cols[j];
      if Has(df, col) {
        if !OccursOnce(df, col) {
          assert CoerceUpTo(blanked, cols, j + 1, parse) == Err(DuplicateColumn(col));
          CoerceFailureSticks(blanked, cols, j + 1, parse);
          return Err(DuplicateColumn(col));
        }
        df := Set(df, col, NumericCells(Get(df, col), parse));
      }
      j := j + 1;
    }
    r := Ok(df);
  }

  /** `validate_csv(path)`, given the frame `_load_tabular(path)` read. */
  method ValidateCsv(t: seq<Column<Cell>>, parse: string -> Option<Float>) returns (r: Result<seq<Column<Cell>>, ValidationError>)
    ensures r == Validated(t, parse)
  {
    r := ValidateWith(t, parse, ExpectedColumns, ExpectedMap(), Aliases());
  }

  /** Once a step has raised, the loop's outcome is that error. */
  lemma {:induction false} CoerceFailureSticks(t: seq<Column<Cell>>, cols: seq<string>, k: nat, parse: string -> Option<Float>)
    requires k <= |cols| && CoerceUpTo(t, cols, k, parse).Err?
    ensures CoerceUpTo(t, cols, |cols|, parse) == CoerceUpTo(t, cols, k, parse)
    decreases |cols| - k
  {
    if k < |cols| {
      CoerceFailureSticks(t, cols, k + 1, parse);
    }
  }

  /**
   * A header is renamed to its exact expected match when it has one, even if
   * it is also an alias, else to its alias target, else kept; its cells stay.
   */
  lemma ExactMatchPreferred(t: seq<Column<Cell>>, i: nat, exact: map<string, string>, aliases: map<string, string>)
    requires i < |t|
    ensures var key := NormName(t[i].name);
      key in exact ==> Renamed(t, exact, aliases)[i].name == exact[key]
    ensures var key := NormName(t[i].name);
      key !in exact && key in aliases ==> Renamed(t, exact, aliases)[i].name == aliases[key]
    ensures Target(t[i].name, exact, aliases).None? ==> Renamed(t, exact, aliases)[i].name == t[i].name
    ensures Renamed(t, exact, aliases)[i].cells == t[i].cells
  {
    var names := Names(t);
    RenameFoldEntries(map[], names, exact, aliases);
    assert t[i].name in names;
  }

  /** Any header spelled as a construction-year alias, and not an exact match, becomes that column. */
  lemma YearAliasRenamed(t: seq<Column<Cell>>, i: nat)
    requires i < |t| && NormName(t[i].name) !in ExpectedMap() && NormName(t[i].name) in Aliases()
    ensures Renamed(t, ExpectedMap(), Aliases())[i].name == "Building's construction year"
  {
    ExactMatchPreferred(t, i, ExpectedMap(), Aliases());
  }

  /** Validation fails for absent columns exactly when a required column is still absent after renaming, listing those in order. */
  lemma MissingColumnsReported(t: seq<Column<Cell>>, parse: string -> Option<Float>, cols: seq<string>,
                               exact: map<string, string>, aliases: map<string, string>)
    ensures var u := Renamed(t, exact, aliases);
      (exists c :: c in cols && !Has(u, c)) ==>
      ValidatedWith(t, parse, cols, exact, aliases) == Err(MissingRequiredColumns(Missing(cols, u)))
    ensures var r := ValidatedWith(t, parse, cols, exact, aliases);
      r.Err? && r.error.MissingRequiredColumns? ==> exists c :: c in cols && !Has(Renamed(t, exact, aliases), c)
  {
    var u := Renamed(t, exact, aliases);
    MissingEmpty(cols, u);
    if forall c :: c in cols ==> Has(u, c) {
      CoerceNeverMissing(BlankColumns(u), cols, |cols|, parse);
    }
  }

  /** The coercion loop never reports a missing column. */
  lemma {:induction false} CoerceNeverMissing(t: seq<Column<Cell>>, cols: seq<string>, k: nat, parse: string -> Option<Float>)
    requires k <= |cols|
    ensures CoerceUpTo(t, cols, k, parse).Err? ==> CoerceUpTo(t, cols, k, parse).error.DuplicateColumn?
  {
    if k > 0 {
      CoerceNeverMissing(t, cols, k - 1, parse);
    }
  }

  /** Coercion keeps the column names. */
  lemma {:induction false} CoerceUpToNames(t: seq<Column<Cell>>, cols: seq<string>, k: nat, parse: string -> Option<Float>)
    requires k <= |cols| && CoerceUpTo(t, cols, k, parse).Ok?
    ensures Names(CoerceUpTo(t, cols, k, parse).value) == Names(t)
  {
    if k > 0 {
      CoerceUpToNames(t, cols, k - 1, parse);
    }
  }

  lemma ExpectedDistinct()
    ensures Distinct(ExpectedColumns)
  {
  }

  /** After `k` coercion steps over distinct names, column `cols[j]` is coerced once if `j < k`, else as it was. */
  lemma {:induction false} CoerceUpToOther(t: seq<Column<Cell>>, cols: seq<string>, k: nat, j: nat, parse: string -> Option<Float>)
    requires Distinct(cols) && k <= |cols| && j < |cols| && CoerceUpTo(t, cols, k, parse).Ok?
    requires Has(t, cols[j])
    ensures var c := cols[j]; var r := CoerceUpTo(t, cols, k, parse).value;
      Has(r, c) && Get(r, c) == (if j < k then NumericCells(Get(t, c), parse) else Get(t, c))
  {
    if k > 0 {
      var c := cols[j];
      var prev := CoerceUpTo(t, cols, k - 1, parse).value;
      CoerceUpToOther(t, cols, k - 1, j, parse);
      var col := cols[k - 1];
      if col != c && Has(prev, col) && OccursOnce(prev, col) {
        SetOther(prev, col, NumericCells(Get(prev, col), parse), c);
      }
    }
  }

  /**
   * After a successful validation, whitespace-only cells are missing and each
   * required column holds numbers: the parsed text with commas removed, or NaN.
   */
  lemma ValidatedColumns(t: seq<Column<Cell>>, parse: string -> Option<Float>, cols: seq<string>,
                         exact: map<string, string>, aliases: map<string, string>, j: nat)
    requires Distinct(cols) && j < |cols| && ValidatedWith(t, parse, cols, exact, aliases).Ok?
    ensures var c := cols[j]; var u := Renamed(t, exact, aliases); var r := ValidatedWith(t, parse, cols, exact, aliases).value;
      Has(u, c) && Has(r, c) && |Get(r, c)| == |Get(u, c)| &&
      forall i :: 0 <= i < |Get(u, c)| ==> Get(r, c)[i] == NumericCell(BlankToNan(Get(u, c)[i]), parse)
  {
    var c := cols[j];
    var u := Renamed(t, exact, aliases);
    var b := BlankColumns(u);
    MissingEmpty(cols, u);
    assert Has(u, c);
    assert Names(b) == Names(u);
    var k := IndexOf(u, c);
    IndexOfFirst(b, c, k);
    CoerceUpToOther(b, cols, |cols|, j, parse);
  }

  /** Every column, required or not, has its blank text cells turned into NaN. */
  lemma BlankCellsBecomeMissing(t: seq<Column<Cell>>, parse: string -> Option<Float>, cols: seq<string>,
                                exact: map<string, string>, aliases: map<string, string>)
    requires ValidatedWith(t, parse, cols, exact, aliases).Ok?
    ensures BlankFree(ValidatedWith(t, parse, cols, exact, aliases).value)
  {
    var u := Renamed(t, exact, aliases);
    BlankedStaysBlankFree(BlankColumns(u), cols, |cols|, parse);
  }

  /** No cell is text made only of whitespace. */
  predicate BlankFree(t: seq<Column<Cell>>) {
    forall j :: 0 <= j < |t| ==> forall i :: 0 <= i < |t[j].cells| ==> !(t[j].cells[i].Text? && AllSpace(t[j].cells[i].s))
  }

  lemma {:induction false} BlankedStaysBlankFree(b: seq<Column<Cell>>, cols: seq<string>, k: nat, parse: string -> Option<Float>)
    requires k <= |cols| && BlankFree(b)
    ensures CoerceUpTo(b, cols, k, parse).Ok? ==> BlankFree(CoerceUpTo(b, cols, k, parse).value)
  {
    if k > 0 {
      BlankedStaysBlankFree(b, cols, k - 1, parse);
    }
  }

  // ---------------- calculate_missingness ----------------

  /** The year bounds: before 1900, or after `current` = this year + 1. */
  predicate YearInvalid(x: Float, thisYear: int) {
    x.NaN? || Lt(x, Fin(1900.0)) || Lt(Fin((thisYear + 1) as real), x)
  }

  predicate NonPositive(x: Float) {
    x.NaN? || Le(x, Fin(0.0))
  }

  /** `fillna(0) == 0`. */
  predicate ZeroOrMissing(x: Float) {
    x.NaN? || x == Fin(0.0)
  }

  predicate CoordinateInvalid(lat: Float, lon: Float) {
    (ZeroOrMissing(lat) && ZeroOrMissing(lon)) ||
    Lt(lat, Fin(-90.0)) || Lt(Fin(90.0), lat) || Lt(lon, Fin(-180.0)) || Lt(Fin(180.0), lon)
  }

  /** Row `i` of column `name` counts as missing under the column's rule. */
  predicate RowMissing(t: seq<Column<Float>>, name: string, i: nat, thisYear: int)
    requires Has(t, name) && i < |Get(t, name)|
  {
    var x := Get(t, name)[i];
    if name == "Building's construction year" then YearInvalid(x, thisYear)
    else if name == "Number of floors" || name == "Number of apartments" then NonPositive(x)
    else if name == "Total electricity consumption (kWh)" then NonPositive(x)
    else if name == "Latitude" || name == "Longitude" then
      x.NaN? ||
      (Has(t, "Latitude") && Has(t, "Longitude") && i < |Get(t, "Latitude")| && i < |Get(t, "Longitude")| &&
       CoordinateInvalid(Get(t, "Latitude")[i], Get(t, "Longitude")[i]))
    else x.NaN?
  }

  /** The number of missing rows among the first `k`. */
  function CountMissing(t: seq<Column<Float>>, name: string, k: nat, thisYear: int): (n: nat)
    requires Has(t, name) && k <= |Get(t, name)|
    ensures n <= k
    ensures n == 0 <==> forall i :: 0 <= i < k ==> !RowMissing(t, name, i, thisYear)
    ensures n == k <==> forall i :: 0 <= i < k ==> RowMissing(t, name, i, thisYear)
  {
    if k == 0 then 0
    else CountMissing(t, name, k - 1, thisYear) + (if RowMissing(t, name, k - 1, thisYear) then 1 else 0)
  }

  /** `col_missing(df[c], c)`, or 1.0 for an absent column. */
  function MissingFraction(t: seq<Column<Float>>, name: string, thisYear: int): (f: real)
    ensures 0.0 <= f <= 1.0
    ensures !Has(t, name) ==> f == 1.0
    ensures Has(t, name) && |Get(t, name)| == 0 ==> f == 0.0
    ensures Has(t, name) && |Get(t, name)| > 0 ==>
      f == CountMissing(t, name, |Get(t, name)|, thisYear) as real / |Get(t, name)| as real
  {
    if !Has(t, name) then 1.0
    else
      var n := |Get(t, name)|;
      if n == 0 then 0.0
      else
        var m := CountMissing(t, name, n, thisYear);
        FractionBounds(m, n);
        m as real / n as real
  }

  lemma FractionBounds(m: nat, n: nat)
    requires 0 < n && m <= n
    ensures 0.0 <= m as real / n as real <= 1.0
  {
    assert m as real <= n as real;
  }

  /** `calculate_missingness(df)`, with `thisYear` the current UTC year. */
  function CalculateMissingness(t: seq<Column<Float>>, thisYear: int): (m: map<string, real>)
    ensures forall c :: c in m <==> c in ExpectedColumns
    ensures forall c :: c in m ==> m[c] == MissingFraction(t, c, thisYear) && 0.0 <= m[c] <= 1.0
  {
    map c | c in ExpectedColumns :: MissingFraction(t, c, thisYear)
  }

  /** A fraction is 0 exactly when no row breaks the rule and 1 exactly when every row does. */
  lemma FractionExtremes(t: seq<Column<Float>>, name: string, thisYear: int)
    requires Has(t, name) && |Get(t, name)| > 0
    ensures MissingFraction(t, name, thisYear) == 0.0 <==>
      forall i :: 0 <= i < |Get(t, name)| ==> !RowMissing(t, name, i, thisYear)
    ensures MissingFraction(t, name, thisYear) == 1.0 <==>
      forall i :: 0 <= i < |Get(t, name)| ==> RowMissing(t, name, i, thisYear)
  {
    var n := |Get(t, name)|;
    var m := CountMissing(t, name, n, thisYear);
    FractionEnds(m, n);
  }

  lemma FractionEnds(m: nat, n: nat)
    requires 0 < n && m <= n
    ensures m as real / n as real == 0.0 <==> m == 0
    ensures m as real / n as real == 1.0 <==> m == n
  {
    if m as real / n as real == 1.0 {
      assert m as real == n as real;
    }
    if m as real / n as real == 0.0 {
      assert m as real == 0.0;
    }
  }
}
