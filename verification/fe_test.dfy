/**
 * The helpers of the feature-engineering driver script: choosing the raw input
 * file, renaming spreadsheet headers to the names the anomaly model expects,
 * and the positivity sanity check run after the cleaning rules.
 */
module FeatureEngineeringTest {
  import opened Wrappers
  import opened Numeric
  import opened Frames
  import ImputeRules

  // ---------------- _resolve_raw_path ----------------

  datatype PathError = RawFileNotFound(checked: seq<string>)

  /** The candidate inputs in order of preference, below the repository root `baseDir`. */
  function RawCandidates(baseDir: string): seq<string> {
    [baseDir + "/data/latest_ingested.csv", baseDir + "/data/raw/data.xlsx", "/mnt/data/data.xlsx"]
  }

  /** Candidate `k` exists and none before it does. */
  predicate FirstOnDisk(baseDir: string, onDisk: set<string>, k: nat) {
    k < 3 && RawCandidates(baseDir)[k] in onDisk && forall j :: 0 <= j < k ==> RawCandidates(baseDir)[j] !in onDisk
  }

  /**
   * `_resolve_raw_path()`: the first candidate that exists (`onDisk` stands for
   * `os.path.exists`), or an error naming all three.
   */
  function ResolveRawPath(baseDir: string, onDisk: set<string>): (r: Result<string, PathError>)
    ensures r.Ok? <==> exists k :: 0 <= k < 3 && RawCandidates(baseDir)[k] in onDisk
    ensures r.Ok? ==> exists k: nat :: FirstOnDisk(baseDir, onDisk, k) && r.value == RawCandidates(baseDir)[k]
    ensures r.Err? ==> r.error == RawFileNotFound(RawCandidates(baseDir))
  {
    var c := RawCandidates(baseDir);
    if c[0] in onDisk then Ok(c[0])
    else if c[1] in onDisk then Ok(c[1])
    else if c[2] in onDisk then Ok(c[2])
    else Err(RawFileNotFound(c))
  }

  // ---------------- _canonicalize_for_model ----------------

  /** (canonical name, its one known alternative), in the order the script checks them. */
  const CanonicalPairs: seq<(string, string)> := [
    ("build_year", "Building's construction year"),
    ("nb_appart", "Number of apartments"),
    ("Total Electricity Consumption (kwH)", "Total electricity consumption (kWh)")
  ]

  /** The entry a pair contributes: the alternative is renamed only if the canonical name is absent and the alternative present. */
  function PairEntry<T>(t: seq<Column<T>>, canon: string, alt: string): map<string, string> {
    if !Has(t, canon) && Has(t, alt) then map[alt := canon] else map[]
  }

  /** `rename_map` as the script builds it. */
  function RenameMapFor<T>(t: seq<Column<T>>): map<string, string> {
    PairEntry(t, CanonicalPairs[0].0, CanonicalPairs[0].1) +
    PairEntry(t, CanonicalPairs[1].0, CanonicalPairs[1].1) +
    PairEntry(t, CanonicalPairs[2].0, CanonicalPairs[2].1)
  }

  /** `_canonicalize_for_model(df)`. */
  function CanonicalizeForModel<T>(t: seq<Column<T>>): (r: seq<Column<T>>)
    ensures |r| == |t| && forall i :: 0 <= i < |t| ==> r[i].cells == t[i].cells
  {
    var m := RenameMapFor(t);
    if |m| == 0 then t else Rename(t, m)
  }

  predicate IsAlternative(c: string) {
    c == "Building's construction year" || c == "Number of apartments" || c == "Total electricity consumption (kWh)"
  }

  lemma RenameMapShape<T>(t: seq<Column<T>>)
    ensures forall k :: k in RenameMapFor(t) ==> IsAlternative(k)
  {
  }

  /** No alternative is a canonical name, and neither the alternatives nor the canonical names repeat. */
  lemma PairNamesDistinct()
    ensures forall i, j :: 0 <= i < 3 && 0 <= j < 3 ==> CanonicalPairs[i].1 != CanonicalPairs[j].0
    ensures forall i, j :: 0 <= i < j < 3 ==> CanonicalPairs[i].1 != CanonicalPairs[j].1 && CanonicalPairs[i].0 != CanonicalPairs[j].0
  {
    var p := CanonicalPairs;
    assert p[0].0[0] == 'b' && p[1].0[0] == 'n' && p[2].0[0] == 'T' && p[2].0[6] == 'E';
    assert p[0].1[0] == 'B' && p[1].1[0] == 'N' && p[2].1[0] == 'T' && p[2].1[6] == 'e';
  }

  /** What one pair contributes to the map, and that nothing else maps to its canonical name. */
  lemma PairInMap<T>(t: seq<Column<T>>, canon: string, alt: string)
    requires (canon, alt) in CanonicalPairs
    ensures alt in RenameMapFor(t) <==> !Has(t, canon) && Has(t, alt)
    ensures alt in RenameMapFor(t) ==> RenameMapFor(t)[alt] == canon
    ensures canon !in RenameMapFor(t)
    ensures forall k :: k in RenameMapFor(t) && RenameMapFor(t)[k] == canon ==> k == alt
  {
    var p := CanonicalPairs;
    PairNamesDistinct();
    EntriesInUnion(PairEntry(t, p[0].0, p[0].1), PairEntry(t, p[1].0, p[1].1), PairEntry(t, p[2].0, p[2].1),
                   p[0].0, p[0].1, p[1].0, p[1].1, p[2].0, p[2].1);
  }

  /** Alternative `a` is a key of `m` only when `e` has it, maps to `c`, and is the only key mapping to `c`, which is no key. */
  predicate SoleEntry(m: map<string, string>, e: map<string, string>, c: string, a: string) {
    (a in m <==> a in e) && (a in m ==> m[a] == c) && c !in m && forall k :: k in m && m[k] == c ==> k == a
  }

  /** A union of three maps of at most one entry each, with distinct keys and values, none of them a key. */
  lemma EntriesInUnion(e0: map<string, string>, e1: map<string, string>, e2: map<string, string>,
                       c0: string, a0: string, c1: string, a1: string, c2: string, a2: string)
    requires e0.Keys <= {a0} && e1.Keys <= {a1} && e2.Keys <= {a2}
    requires (a0 in e0 ==> e0[a0] == c0) && (a1 in e1 ==> e1[a1] == c1) && (a2 in e2 ==> e2[a2] == c2)
    requires a0 != a1 && a0 != a2 && a1 != a2 && c0 != c1 && c0 != c2 && c1 != c2
    requires c0 != a0 && c0 != a1 && c0 != a2 && c1 != a0 && c1 != a1 && c1 != a2 && c2 != a0 && c2 != a1 && c2 != a2
    ensures SoleEntry(e0 + e1 + e2, e0, c0, a0) && SoleEntry(e0 + e1 + e2, e1, c1, a1) && SoleEntry(e0 + e1 + e2, e2, c2, a2)
  {
    var m := e0 + e1 + e2;
    assert forall k :: k in m <==> (k == a0 && a0 in e0) || (k == a1 && a1 in e1) || (k == a2 && a2 in e2);
    assert (a0 in m ==> m[a0] == c0) && (a1 in m ==> m[a1] == c1) && (a2 in m ==> m[a2] == c2);
  }

  lemma CanonicalizeIsRename<T>(t: seq<Column<T>>)
    ensures CanonicalizeForModel(t) == Rename(t, RenameMapFor(t))
  {
    if |RenameMapFor(t)| == 0 {
      assert RenameMapFor(t) == map[];
      RenameEmpty(t);
    }
  }

  /** A column that is not one of the three alternatives is never touched. */
  lemma UnrelatedColumnsUntouched<T>(t: seq<Column<T>>)
    ensures forall i :: 0 <= i < |t| && !IsAlternative(t[i].name) ==> CanonicalizeForModel(t)[i] == t[i]
  {
    CanonicalizeIsRename(t);
    RenameMapShape(t);
  }

  /** Renaming by a map in which only `alt` maps to `canon`, and `canon` itself is not renamed. */
  lemma RenameProduces<T>(t: seq<Column<T>>, m: map<string, string>, canon: string, alt: string)
    requires canon !in m && forall k :: k in m && m[k] == canon ==> k == alt
    requires alt in m ==> m[alt] == canon
    ensures Has(Rename(t, m), canon) <==> Has(t, canon) || (alt in m && Has(t, alt))
  {
    var r := Rename(t, m);
    if Has(t, canon) {
      var i := IndexOf(t, canon);
      assert r[i].name == canon;
      assert canon in Names(r);
    } else if alt in m && Has(t, alt) {
      var i := IndexOf(t, alt);
      assert r[i].name == canon;
      assert canon in Names(r);
    }
    if Has(r, canon) {
      var i := IndexOf(r, canon);
      assert t[i].name in Names(t);
    }
  }

  /**
   * For each pair: afterwards the canonical name is present exactly when the
   * canonical name or the alternative was; when the canonical name already
   * existed the alternative is left alone.
   */
  lemma CanonicalNamePresent<T>(t: seq<Column<T>>, canon: string, alt: string)
    requires (canon, alt) in CanonicalPairs
    ensures Has(CanonicalizeForModel(t), canon) <==> Has(t, canon) || Has(t, alt)
    ensures Has(t, canon) ==> forall i :: 0 <= i < |t| && t[i].name == alt ==> CanonicalizeForModel(t)[i] == t[i]
  {
    var m := RenameMapFor(t);
    CanonicalizeIsRename(t);
    PairInMap(t, canon, alt);
    RenameProduces(t, m, canon, alt);
  }

  /** An alternative absent before canonicalising is absent after it. */
  lemma AbsentAlternativeStaysAbsent<T>(t: seq<Column<T>>, c: string)
    requires IsAlternative(c) && !Has(t, c)
    ensures !Has(CanonicalizeForModel(t), c)
  {
    CanonicalizeIsRename(t);
    AbsentNotRenamed(t, c);
    RenameKeeps(t, RenameMapFor(t), c);
  }

  /** An absent alternative is neither renamed nor a new name. */
  lemma AbsentNotRenamed<T>(t: seq<Column<T>>, c: string)
    requires IsAlternative(c) && !Has(t, c)
    ensures c !in RenameMapFor(t) && forall k :: k in RenameMapFor(t) ==> RenameMapFor(t)[k] != c
  {
    PairNamesDistinct();
  }

  lemma PairIdle<T>(t: seq<Column<T>>, canon: string, alt: string)
    requires (canon, alt) in CanonicalPairs
    ensures alt !in RenameMapFor(CanonicalizeForModel(t))
  {
    var r := CanonicalizeForModel(t);
    PairInMap(r, canon, alt);
    CanonicalNamePresent(t, canon, alt);
    if !Has(t, canon) && !Has(t, alt) {
      AbsentAlternativeStaysAbsent(t, alt);
    }
  }

  /** Canonicalising a canonicalised frame changes nothing more. */
  lemma CanonicalizeIdempotent<T>(t: seq<Column<T>>)
    ensures CanonicalizeForModel(CanonicalizeForModel(t)) == CanonicalizeForModel(t)
  {
    var r := CanonicalizeForModel(t);
    PairIdle(t, "build_year", "Building's construction year");
    PairIdle(t, "nb_appart", "Number of apartments");
    PairIdle(t, "Total Electricity Consumption (kwH)", "Total electricity consumption (kWh)");
    RenameMapShape(r);
    assert RenameMapFor(r) == map[];
  }

  // ---------------- sanity checks after preprocessing ----------------

  /** The non-missing values of column `c` are positive. */
  predicate PositiveColumn(t: seq<Column<Float>>, c: string)
    requires Has(t, c)
  {
    forall x :: x in Get(t, c) && !x.NaN? ==> x.Fin? && x.r > 0.0
  }

  /** The script's assertion: when both count columns exist, their non-missing values are positive. */
  predicate CountsPositive(t: seq<Column<Float>>) {
    Has(t, "nb_floor") && Has(t, "nb_appart") ==> PositiveColumn(t, "nb_floor") && PositiveColumn(t, "nb_appart")
  }

  /**
   * The cleaning steps of the script, on the frame as standardised: zeros to
   * missing, imputation, ratios, canonical names. `None` when the imputer fails.
   */
  function CleanForModel(t: seq<Column<Float>>, knn: seq<Column<Float>> -> Option<seq<seq<real>>>)
    : Option<seq<Column<Float>>>
  {
    var imputed := ImputeRules.Impute(ImputeRules.FixZero(t), knn);
    if imputed.Err? then None else Some(CanonicalizeForModel(ImputeRules.AddRatios(imputed.value)))
  }

  /** A count column that arrives with the data is present and positive after imputation. */
  lemma CountImputed(t: seq<Column<Float>>, knn: seq<Column<Float>> -> Option<seq<seq<real>>>, c: string)
    requires c == "nb_floor" || c == "nb_appart"
    requires Has(t, c) && ImputeRules.Impute(ImputeRules.FixZero(t), knn).Ok?
    ensures var t2 := ImputeRules.Impute(ImputeRules.FixZero(t), knn).value;
      Has(t2, c) && PositiveColumn(t2, c)
  {
    ImputeRules.FixZeroColumn(t, c);
    ImputeRules.ImputedCountsArePositiveIntegers(ImputeRules.FixZero(t), knn, c);
  }

  /** Canonicalising keeps every column that is not one of the three alternatives. */
  lemma CanonicalKeeps<T>(t: seq<Column<T>>, c: string)
    requires !IsAlternative(c) && Has(t, c)
    ensures Has(CanonicalizeForModel(t), c) && Get(CanonicalizeForModel(t), c) == Get(t, c)
  {
    RenameMapShape(t);
    CanonicalizeIsRename(t);
    RenameKeeps(t, RenameMapFor(t), c);
  }

  /** Adding the ratios and canonicalising keep a count column as it is. */
  lemma CountKept(t2: seq<Column<Float>>, c: string)
    requires c == "nb_floor" || c == "nb_appart"
    requires Has(t2, c)
    ensures var r := CanonicalizeForModel(ImputeRules.AddRatios(t2));
      Has(r, c) && Get(r, c) == Get(t2, c)
  {
    ImputeRules.AddRatiosKeepsOthers(t2, c);
    CanonicalKeeps(ImputeRules.AddRatios(t2), c);
  }

  /** A count column that arrives with the data is present and positive after the cleaning steps. */
  lemma CountSurvivesCleaning(t: seq<Column<Float>>, knn: seq<Column<Float>> -> Option<seq<seq<real>>>, c: string)
    requires c == "nb_floor" || c == "nb_appart"
    requires Has(t, c) && CleanForModel(t, knn).Some?
    ensures Has(CleanForModel(t, knn).value, c) && PositiveColumn(CleanForModel(t, knn).value, c)
  {
    CountImputed(t, knn, c);
    CountKept(ImputeRules.Impute(ImputeRules.FixZero(t), knn).value, c);
  }

  /** The script's sanity assertions hold whenever both count columns arrive with the data and imputation succeeds. */
  lemma SanityChecksHold(t: seq<Column<Float>>, knn: seq<Column<Float>> -> Option<seq<seq<real>>>)
    requires Has(t, "nb_floor") && Has(t, "nb_appart")
    requires CleanForModel(t, knn).Some?
    ensures CountsPositive(CleanForModel(t, knn).value)
  {
    CountSurvivesCleaning(t, knn, "nb_floor");
    CountSurvivesCleaning(t, knn, "nb_appart");
  }
}
