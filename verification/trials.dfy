/**
 * What the grid tuners share: one trial of a configuration, the result row
 * it is recorded as, best-so-far tracking with a strict `>` (so the first of
 * equal scores is kept), and the results sorted by descending score.
 */
module Trials {
  import opened Wrappers
  import opened TunerScore
  import opened Grid
  import opened Sorting

  /** What running the pipeline on one configuration gave: its three metrics and stability document, or an exception. */
  datatype TrialOutcome = Ran(sil: Metric, dunn: Metric, dbi: Metric, stab: Stability) | Raised

  /** A result row: the configuration, the metrics (`None` is NaN), the score, and whether the trial raised. */
  datatype Row = Row(params: Config, sil: Metric, dunn: Metric, dbi: Metric, score: real, failed: bool)

  /** The row a trial is recorded as: a raised trial gets NaN metrics and score -1e9. */
  function RowOf(p: Config, t: TrialOutcome): (r: Row)
    ensures r.params == p && r.failed == t.Raised?
    ensures t.Raised? ==> r.score == FailedScore && r.sil.None? && r.dunn.None? && r.dbi.None?
    ensures t.Ran? ==> r.score == CompositeScore(t.sil, t.dunn, t.dbi, t.stab) && r.sil == t.sil && r.dunn == t.dunn && r.dbi == t.dbi
  {
    match t
    case Raised => Row(p, None, None, None, FailedScore, true)
    case Ran(sil, dunn, dbi, stab) => Row(p, sil, dunn, dbi, CompositeScore(sil, dunn, dbi, stab), false)
  }

  /** `best is None or score > best["score"]`. */
  predicate Improves(best: Option<Row>, score: real) {
    best.None? || score > best.value.score
  }

  /** The best after recording `row`: a successful row that improves replaces it. */
  function UpdateBest(best: Option<Row>, row: Row): Option<Row> {
    if !row.failed && Improves(best, row.score) then Some(row) else best
  }

  /** `rs[j]` is successful, no successful row scores more, and every successful row before it scores less. */
  predicate FirstBestAt(rs: seq<Row>, j: int) {
    && 0 <= j < |rs| && !rs[j].failed
    && (forall i :: 0 <= i < |rs| && !rs[i].failed ==> rs[i].score <= rs[j].score)
    && (forall i :: 0 <= i < j && !rs[i].failed ==> rs[i].score < rs[j].score)
  }

  /** `best` is the first successful row with the maximum score, or `None` when every row failed. */
  ghost predicate IsFirstBest(best: Option<Row>, rs: seq<Row>) {
    if best.None? then forall i :: 0 <= i < |rs| ==> rs[i].failed
    else exists j :: FirstBestAt(rs, j) && rs[j] == best.value
  }

  /** Recording a row keeps the best the first maximum of the successful rows. */
  lemma BestStep(best: Option<Row>, rs: seq<Row>, row: Row)
    requires IsFirstBest(best, rs)
    ensures IsFirstBest(UpdateBest(best, row), rs + [row])
  {
    var rs' := rs + [row];
    if !row.failed && Improves(best, row.score) {
      assert FirstBestAt(rs', |rs|) by {
        forall i | 0 <= i < |rs'| && !rs'[i].failed
          ensures rs'[i].score <= row.score
        {
          if i < |rs| {
            var j :| FirstBestAt(rs, j) && rs[j] == best.value;
            assert rs[i].score <= rs[j].score;
          }
        }
      }
      assert rs'[|rs|] == row;
    } else if best.Some? {
      var j :| FirstBestAt(rs, j) && rs[j] == best.value;
      assert FirstBestAt(rs', j) by {
        forall i | 0 <= i < |rs'| && !rs'[i].failed
          ensures rs'[i].score <= rs'[j].score
        {
          if i < |rs| {
            assert rs'[i] == rs[i];
          }
        }
      }
      assert rs'[j] == best.value;
    }
  }

  /** One row per configuration, in order. */
  function RowsOf(configs: seq<Config>, trial: Config -> TrialOutcome): (rs: seq<Row>)
    ensures |rs| == |configs| && forall i :: 0 <= i < |configs| ==> rs[i] == RowOf(configs[i], trial(configs[i]))
  {
    seq(|configs|, i requires 0 <= i < |configs| => RowOf(configs[i], trial(configs[i])))
  }

  /**
   * The sweep of the full-grid and slow tuners: each configuration is run
   * once, in order, every outcome is recorded, and the best is the first
   * successful row with the maximum score.
   */
  method Sweep(configs: seq<Config>, trial: Config -> TrialOutcome) returns (rows: seq<Row>, best: Option<Row>)
    ensures rows == RowsOf(configs, trial)
    ensures IsFirstBest(best, rows)
  {
    rows := [];
    best := None;
    var i := 0;
    ghost var all := RowsOf(configs, trial);
    while i < |configs|
      invariant 0 <= i <= |configs|
      invariant rows == all[..i]
      invariant IsFirstBest(best, rows)
    {
      var row := RowOf(configs[i], trial(configs[i]));
      BestStep(best, rows, row);
      TakeSnoc(all, i);
      best := UpdateBest(best, row);
      rows := rows + [row];
      i := i + 1;
    }
    assert all[..i] == all;
  }

  function NegScore(r: Row): real {
    -r.score
  }

  /** `sort_values("score", ascending=False)`. */
  function SortedByScore(rows: seq<Row>): seq<Row> {
    SortBy(rows, NegScore)
  }

  /** The saved results are the recorded rows, each kept, none added, in descending score order. */
  lemma SortedByScoreMeaning(rows: seq<Row>)
    ensures var s := SortedByScore(rows);
      multiset(s) == multiset(rows) &&
      forall i, j :: 0 <= i < j < |s| ==> s[i].score >= s[j].score
  {
    var s := SortedByScore(rows);
    forall i, j | 0 <= i < j < |s|
      ensures s[i].score >= s[j].score
    {
      assert NegScore(s[i]) <= NegScore(s[j]);
    }
  }

  /** `shuffle` only reorders: each result holds the same configurations as its input. */
  ghost predicate ShufflePermutes(shuffle: (nat, seq<Config>) -> seq<Config>) {
    forall n: nat, cs: seq<Config> :: multiset(shuffle(n, cs)) == multiset(cs)
  }

  /**
   * The safety fix of the tuners: with `use_pca` 0 and no `use_fa`, FA is
   * turned off. The grids always hold `use_pca`, so the lookup cannot raise.
   */
  function FixFa(p: Config): (r: Config)
    ensures "use_pca" in p && p["use_pca"] == 0.0 ==> "use_fa" in r
    ensures forall k :: k in p ==> k in r && r[k] == p[k]
    ensures forall k :: k in r && k !in p ==> k == "use_fa" && r[k] == 0.0
  {
    if "use_pca" in p && p["use_pca"] == 0.0 && "use_fa" !in p then p["use_fa" := 0.0] else p
  }

  /** Each configuration after the `use_fa` fix. */
  function FixedAll(cs: seq<Config>): (r: seq<Config>)
    ensures |r| == |cs| && forall i :: 0 <= i < |cs| ==> r[i] == FixFa(cs[i])
  {
    seq(|cs|, i requires 0 <= i < |cs| => FixFa(cs[i]))
  }
}
