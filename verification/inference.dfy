/**
 * Scoring a new dataset with the active model: loading the artifacts named by
 * the current model card, aligning the engineered frame to the model's feature
 * columns, fusing two anomaly scores by rank, and flagging the top percent.
 * The two scorers (robust Mahalanobis and Gaussian copula), the scaler and the
 * PCA are numeric library code; their outputs are inputs here.
 */
module Inference {
  import opened Wrappers
  import opened Numeric
  import opened Sorting
  import opened Frames
  import Registry

  datatype InferenceError =
    | NoActiveModel
    | FilesNotADict
    | NoScalerEntry
    | ScalerNotFound(path: string)
    | NoFeatureColumns
    | PreprocessingFailed(missing: seq<string>)
    | MissingFeatureColumns(missing: seq<string>)
    | TopPercentOutOfRange

  /** The `files` value of a card as read from JSON: a dictionary of relative paths, or anything else. */
  datatype FilesEntry = FilesDict(paths: map<string, string>) | NotADict

  /** A model card as inference reads it: `files`, `meta` and the fallback `meta_json`. */
  datatype CardDoc = CardDoc(files: FilesEntry, meta: Registry.Meta, metaJson: Registry.Meta)

  /** The card document written by the registry. */
  function CardDocOf(c: Registry.ModelCard): CardDoc {
    CardDoc(FilesDict(c.files), c.meta, Registry.Meta(None, false))
  }

  /** The artifacts `_load_active_artifacts` returns, by path. */
  datatype Artifacts = Artifacts(
    scaler: string, pca: Option<string>, featureColumns: seq<string>, residual: Option<string>)

  /** `files.get(key)`, with an absent key and an empty path both read as falsy (""). */
  function Entry(paths: map<string, string>, key: string): string {
    if key in paths then paths[key] else ""
  }

  /** A JSON dictionary is truthy when it has at least one key. */
  predicate Truthy(m: Registry.Meta) { m.featureColumns.Some? || m.hasOtherKeys }

  /** `(card.get("meta") or card.get("meta_json")).get("feature_columns") or []`. */
  function FeatureColumnsOf(c: CardDoc): seq<string> {
    var m := if Truthy(c.meta) then c.meta else c.metaJson;
    if m.featureColumns.Some? then m.featureColumns.value else []
  }

  /**
   * `_load_active_artifacts`. `existing` is the set of paths that exist on disk,
   * `residualLoads` whether unpickling the residual artifact succeeds.
   */
  function LoadActiveArtifacts(card: Option<CardDoc>, existing: set<string>, residualLoads: bool)
    : (r: Result<Artifacts, InferenceError>)
    ensures card.None? ==> r == Err(NoActiveModel)
    ensures card.Some? && card.value.files.NotADict? ==> r == Err(FilesNotADict)
    ensures r.Ok? <==>
      && card.Some? && card.value.files.FilesDict?
      && Entry(card.value.files.paths, "scaler") != ""
      && Entry(card.value.files.paths, "scaler") in existing
      && FeatureColumnsOf(card.value) != []
    ensures r.Ok? ==>
      var paths := card.value.files.paths;
      && r.value.scaler == paths["scaler"]
      && r.value.featureColumns == FeatureColumnsOf(card.value)
      && (r.value.pca.Some? <==> Entry(paths, "pca") != "" && Entry(paths, "pca") in existing)
      && (r.value.residual.Some? <==>
            Entry(paths, "residual_model") != "" && Entry(paths, "residual_model") in existing
            && residualLoads)
  {
    if card.None? then Err(NoActiveModel)
    else match card.value.files
      case NotADict => Err(FilesNotADict)
      case FilesDict(paths) =>
        var scaler := Entry(paths, "scaler");
        if scaler == "" then Err(NoScalerEntry)
        else if scaler !in existing then Err(ScalerNotFound(scaler))
        else
          var pcaRel := Entry(paths, "pca");
          var pca := if pcaRel != "" && pcaRel in existing then Some(pcaRel) else None;
          var featCols := FeatureColumnsOf(card.value);
          if featCols == [] then Err(NoFeatureColumns)
          else
            var residRel := Entry(paths, "residual_model");
            var resid := if residRel != "" && residRel in existing && residualLoads then Some(residRel) else None;
            Ok(Artifacts(scaler, pca, featCols, resid))
  }

  /** A card saved by the registry loads whenever its scaler file exists and its meta lists features. */
  lemma RegistryCardLoads(c: Registry.ModelCard, existing: set<string>, residualLoads: bool)
    requires "scaler" in c.files && c.files["scaler"] != "" && c.files["scaler"] in existing
    requires c.meta.featureColumns.Some? && c.meta.featureColumns.value != []
    ensures LoadActiveArtifacts(Some(CardDocOf(c)), existing, residualLoads).Ok?
    ensures LoadActiveArtifacts(Some(CardDocOf(c)), existing, residualLoads).value.featureColumns
            == c.meta.featureColumns.value
  {
  }

  /** The column check and selection of `preprocess_for_inference`: `df_proc[feat_cols]`. */
  function SelectFeatures<T>(featCols: seq<string>, t: seq<Column<T>>): (r: Result<seq<Column<T>>, InferenceError>)
    ensures r.Err? <==> exists c :: c in featCols && !Has(t, c)
    ensures r.Err? ==> r.error == MissingFeatureColumns(Missing(featCols, t))
    ensures r.Ok? ==> |r.value| == |featCols|
    ensures r.Ok? ==> forall i :: 0 <= i < |featCols| ==>
      Has(t, featCols[i]) && r.value[i] == Column(featCols[i], Get(t, featCols[i]))
  {
    var missing := Missing(featCols, t);
    if missing != [] then
      assert missing[0] in missing;
      Err(MissingFeatureColumns(missing))
    else
      Ok(seq(|featCols|, i requires 0 <= i < |featCols| => Column(featCols[i], Get(t, featCols[i]))))
  }

  lemma {:induction false} IndexOfAppend<T>(t: seq<Column<T>>, extra: Column<T>, name: string)
    requires Has(t, name)
    ensures Has(t + [extra], name) && IndexOf(t + [extra], name) == IndexOf(t, name)
  {
    assert Names(t + [extra]) == Names(t) + [extra.name];
    if t[0].name != name {
      assert Names(t) == [t[0].name] + Names(t[1..]);
      assert (t + [extra])[1..] == t[1..] + [extra];
      IndexOfAppend(t[1..], extra, name);
    }
  }

  /** Extra columns in the engineered frame are ignored by the alignment. */
  lemma ExtraColumnIgnored<T>(featCols: seq<string>, t: seq<Column<T>>, extra: Column<T>)
    requires extra.name !in featCols
    ensures SelectFeatures(featCols, t + [extra]) == SelectFeatures(featCols, t)
  {
    var t2 := t + [extra];
    assert Names(t2) == Names(t) + [extra.name];
    forall c | c in featCols ensures Has(t2, c) == Has(t, c) {
    }
    MissingSame(featCols, t, t2);
    if Missing(featCols, t) == [] {
      var a, b := SelectFeatures(featCols, t2), SelectFeatures(featCols, t);
      forall i | 0 <= i < |featCols| ensures a.value[i] == b.value[i] {
        assert featCols[i] in featCols;
        IndexOfAppend(t, extra, featCols[i]);
      }
      assert a.value == b.value;
    }
  }

  lemma {:induction false} MissingSame<T>(featCols: seq<string>, t: seq<Column<T>>, t2: seq<Column<T>>)
    requires forall c :: c in featCols ==> Has(t2, c) == Has(t, c)
    ensures Missing(featCols, t2) == Missing(featCols, t)
  {
    if featCols != [] {
      assert featCols[0] in featCols;
      MissingSame(featCols[1..], t, t2);
    }
  }

  /**
   * `preprocess_for_inference`, up to the scaler: artifacts are loaded first,
   * then the frame is engineered (`processed`, its error being the residual
   * column check of the shared preprocessing), then aligned to the features.
   */
  function AlignForInference<T>(artifacts: Result<Artifacts, InferenceError>,
                                processed: Result<seq<Column<T>>, seq<string>>)
    : (r: Result<seq<Column<T>>, InferenceError>)
    ensures artifacts.Err? ==> r == Err(artifacts.error)
    ensures artifacts.Ok? && processed.Err? ==> r == Err(PreprocessingFailed(processed.error))
    ensures artifacts.Ok? && processed.Ok? ==>
      r == SelectFeatures(artifacts.value.featureColumns, processed.value)
  {
    if artifacts.Err? then Err(artifacts.error)
    else if processed.Err? then Err(PreprocessingFailed(processed.error))
    else SelectFeatures(artifacts.value.featureColumns, processed.value)
  }

  // ---------------- Rank fusion ----------------

  /** `np.linspace(0, 1, n)[j]`. */
  function Linspace(n: nat, j: nat): real
    requires j < n
  {
    if n == 1 then 0.0 else j as real / (n - 1) as real
  }

  /** The position at which `i` occurs in `order`. */
  function PositionIn(order: seq<nat>, i: nat): (p: nat)
    requires i in order
    ensures p < |order| && order[p] == i
  {
    if order[0] == i then 0 else 1 + PositionIn(order[1..], i)
  }

  lemma PositionOfEntry(order: seq<nat>, j: nat)
    requires Distinct(order) && j < |order|
    ensures PositionIn(order, order[j]) == j
  {
    var p := PositionIn(order, order[j]);
    assert order[p] == order[j];
  }

  /** The rank of each score: its position in ascending order, spread evenly over [0, 1]. */
  function Ranks(a: seq<real>): (r: seq<real>)
    ensures |r| == |a|
  {
    var order := Argsort(a);
    seq(|a|, i requires 0 <= i < |a| => Linspace(|a|, PositionIn(order, i)))
  }

  /** `rank_0to1`: `ranks[argsort(a)] = linspace(0, 1, n)`. */
  method RankZeroToOne(a: seq<real>) returns (ranks: array<real>)
    ensures ranks.Length == |a|
    ensures ranks[..] == Ranks(a)
  {
    var n := |a|;
    var order := Argsort(a);
    ranks := new real[n];
    forall j | 0 <= j < n {
      ranks[order[j]] := Linspace(n, j);
    }
    forall i | 0 <= i < n ensures ranks[i] == Ranks(a)[i] {
      var p := PositionIn(order, i);
      assert ranks[order[p]] == Linspace(n, p);
    }
  }

  lemma LinspaceInUnitInterval(n: nat, j: nat)
    requires j < n
    ensures 0.0 <= Linspace(n, j) <= 1.0
  {
    if n > 1 {
      var d := (n - 1) as real;
      assert j as real <= d;
      assert j as real / d <= d / d;
    }
  }

  lemma LinspaceStrict(n: nat, p: nat, q: nat)
    requires p < q < n
    ensures Linspace(n, p) < Linspace(n, q)
  {
    var d := (n - 1) as real;
    assert p as real < q as real;
    assert p as real / d < q as real / d;
  }

  lemma LinspaceLast(n: nat)
    requires n > 1
    ensures Linspace(n, n - 1) == 1.0
  {
    var d := (n - 1) as real;
    assert d > 0.0;
  }

  /** Every rank lies in [0, 1]. */
  lemma RanksInUnitInterval(a: seq<real>, i: nat)
    requires i < |a|
    ensures 0.0 <= Ranks(a)[i] <= 1.0
  {
    LinspaceInUnitInterval(|a|, PositionIn(Argsort(a), i));
  }

  /** Read in ascending order of score, the ranks are exactly `linspace(0, 1, n)`. */
  lemma RanksFollowSortedOrder(a: seq<real>, j: nat)
    requires j < |a|
    ensures Ranks(a)[Argsort(a)[j]] == Linspace(|a|, j)
  {
    PositionOfEntry(Argsort(a), j);
  }

  /** No two rows share a rank. */
  lemma RanksDistinct(a: seq<real>, i: nat, k: nat)
    requires i < |a| && k < |a| && i != k
    ensures Ranks(a)[i] != Ranks(a)[k]
  {
    var order := Argsort(a);
    var p, q := PositionIn(order, i), PositionIn(order, k);
    assert p != q;
    if p < q { LinspaceStrict(|a|, p, q); } else { LinspaceStrict(|a|, q, p); }
  }

  /** Rows placed earlier by the argsort never have larger scores. */
  lemma PositionsFollowScores(a: seq<real>, i: nat, k: nat)
    requires i < |a| && k < |a|
    ensures PositionIn(Argsort(a), k) < PositionIn(Argsort(a), i) ==> a[k] <= a[i]
  {
    var order := Argsort(a);
    var p, q := PositionIn(order, i), PositionIn(order, k);
    if q < p {
      assert a[order[q]] <= a[order[p]];
    }
  }

  /** A strictly smaller score gets a strictly smaller rank. */
  lemma RanksPreserveOrder(a: seq<real>, i: nat, k: nat)
    requires i < |a| && k < |a| && a[i] < a[k]
    ensures Ranks(a)[i] < Ranks(a)[k]
  {
    var order := Argsort(a);
    var p, q := PositionIn(order, i), PositionIn(order, k);
    PositionsFollowScores(a, i, k);
    assert p != q;
    assert p < q;
    LinspaceStrict(|a|, p, q);
  }

  /** The strict minimum of the scores gets rank 0. */
  lemma RankOfStrictMinimum(a: seq<real>, m: nat)
    requires m < |a|
    requires forall i :: 0 <= i < |a| && i != m ==> a[m] < a[i]
    ensures Ranks(a)[m] == 0.0
  {
    var order := Argsort(a);
    PositionOfEntry(order, 0);
    PositionsFollowScores(a, m, order[0]);
  }

  /** With two or more scores, the strict maximum gets rank 1. */
  lemma RankOfStrictMaximum(a: seq<real>, m: nat)
    requires 1 < |a| && m < |a|
    requires forall i :: 0 <= i < |a| && i != m ==> a[i] < a[m]
    ensures Ranks(a)[m] == 1.0
  {
    var order := Argsort(a);
    var n := |a|;
    PositionOfEntry(order, n - 1);
    PositionsFollowScores(a, order[n - 1], m);
    var p := PositionIn(order, m);
    assert p == n - 1;
    assert Ranks(a)[m] == Linspace(n, p);
    LinspaceLast(n);
  }

  // ---------------- score_new_dataset ----------------

  /** `0.5 * rank_0to1(mah) + 0.5 * rank_0to1(cop)`. */
  function Fused(mah: seq<real>, cop: seq<real>): (f: seq<real>)
    requires |mah| == |cop|
    ensures |f| == |mah|
  {
    seq(|mah|, i requires 0 <= i < |mah| => 0.5 * Ranks(mah)[i] + 0.5 * Ranks(cop)[i])
  }

  /** Every fused score lies in [0, 1]. */
  lemma FusedInUnitInterval(mah: seq<real>, cop: seq<real>, i: nat)
    requires |mah| == |cop| && i < |mah|
    ensures 0.0 <= Fused(mah, cop)[i] <= 1.0
  {
    RanksInUnitInterval(mah, i);
    RanksInUnitInterval(cop, i);
  }

  /** A row that is strictly more anomalous under both scorers gets a strictly higher fused score. */
  lemma FusedMonotone(mah: seq<real>, cop: seq<real>, i: nat, k: nat)
    requires |mah| == |cop| && i < |mah| && k < |mah|
    requires mah[i] < mah[k] && cop[i] < cop[k]
    ensures Fused(mah, cop)[i] < Fused(mah, cop)[k]
  {
    RanksPreserveOrder(mah, i, k);
    RanksPreserveOrder(cop, i, k);
  }

  /** One row of the scored frame: the input row it came from and the columns added to it. */
  datatype ScoredRow = ScoredRow(
    source: nat, mahScore: real, copulaScore: real, fusedScore: real, rank: nat, isAnomaly: bool)

  datatype Scored = Scored(rows: seq<ScoredRow>, top: seq<ScoredRow>)

  function Sources(rows: seq<ScoredRow>): (r: seq<nat>)
    ensures |r| == |rows| && forall j :: 0 <= j < |rows| ==> r[j] == rows[j].source
  {
    seq(|rows|, j requires 0 <= j < |rows| => rows[j].source)
  }

  /** `max(1, int(round(n * top_percent / 100)))`. */
  function TopK(n: nat, topPercent: real): int {
    var k := RoundHalfEven(n as real * (topPercent / 100.0));
    if k < 1 then 1 else k
  }

  /** For a non-empty frame and a valid percentage, 1 <= k <= n. */
  lemma TopKBounds(n: nat, topPercent: real)
    requires n >= 1 && 0.0 < topPercent <= 100.0
    ensures 1 <= TopK(n, topPercent) <= n
  {
    var x := n as real * (topPercent / 100.0);
    assert x <= n as real;
    var k := RoundHalfEven(x);
    assert k as real < n as real + 1.0;
  }

  predicate NonIncreasingFused(rows: seq<ScoredRow>) {
    forall i, j :: 0 <= i < j < |rows| ==> rows[i].fusedScore >= rows[j].fusedScore
  }

  /**
   * `score_new_dataset`: `prepared` is the outcome of `preprocess_for_inference`,
   * `mah` and `cop` the two scorers' outputs, one per row.
   */
  method ScoreNewDataset<T>(topPercent: real, prepared: Result<seq<Column<T>>, InferenceError>,
                            mah: seq<real>, cop: seq<real>)
    returns (r: Result<Scored, InferenceError>)
    requires |mah| == |cop|
    ensures !(0.0 < topPercent <= 100.0) ==> r == Err(TopPercentOutOfRange)
    ensures 0.0 < topPercent <= 100.0 && prepared.Err? ==> r == Err(prepared.error)
    ensures r.Ok? <==> 0.0 < topPercent <= 100.0 && prepared.Ok?
    ensures r.Ok? ==>
      var rows := r.value.rows;
      var k := TopK(|mah|, topPercent);
      && IsPermutation(Sources(rows), |mah|)
      && NonIncreasingFused(rows)
      && r.value.top == rows[..if k <= |rows| then k else |rows|]
      && forall j :: 0 <= j < |rows| ==>
           var s := rows[j].source;
           rows[j] == ScoredRow(s, mah[s], cop[s], Fused(mah, cop)[s], j + 1, j < k)
  {
    if !(0.0 < topPercent <= 100.0) {
      return Err(TopPercentOutOfRange);
    }
    if prepared.Err? {
      return Err(prepared.error);
    }
    var scored := RankRows(topPercent, mah, cop);
    r := Ok(scored);
  }

  /** The ranking part of `score_new_dataset`: rows in descending fused score, ranked from 1, the top share flagged. */
  method RankRows(topPercent: real, mah: seq<real>, cop: seq<real>) returns (scored: Scored)
    requires |mah| == |cop|
    ensures var rows := scored.rows;
      var k := TopK(|mah|, topPercent);
      && IsPermutation(Sources(rows), |mah|)
      && NonIncreasingFused(rows)
      && scored.top == rows[..if k <= |rows| then k else |rows|]
      && forall j :: 0 <= j < |rows| ==>
           var s := rows[j].source;
           rows[j] == ScoredRow(s, mah[s], cop[s], Fused(mah, cop)[s], j + 1, j < k)
  {
    var rMah := RankZeroToOne(mah);
    var rCop := RankZeroToOne(cop);
    var n := |mah|;
    var rm, rc := rMah[..], rCop[..];
    var fused := seq(n, i requires 0 <= i < n => 0.5 * rm[i] + 0.5 * rc[i]);
    assert fused == Fused(mah, cop);
    var order := Argsort(seq(n, i requires 0 <= i < n => -fused[i]));
    var k := TopK(n, topPercent);
    var rows := seq(n, j requires 0 <= j < n =>
      ScoredRow(order[j], mah[order[j]], cop[order[j]], fused[order[j]], j + 1, j < k));
    assert Sources(rows) == order;
    scored := Scored(rows, rows[..if k <= n then k else n]);
  }
}
