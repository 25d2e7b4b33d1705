/**
 * The fast anomaly-pipeline tuner: contamination levels in grid order, each
 * offering a shuffle of every combination of the other parameters, under a
 * global trial budget, an optional time budget, and a per-level patience
 * after which the search moves on to the next level. The shuffle, the trial
 * and the clock are parameters.
 */
module FastTuner {
  import opened Wrappers
  import opened Grid
  import opened Trials
  import opened Sorting

  const Contamination: string := "contamination"

  /** `param_grid["contamination"]`. */
  const FastContaminations: seq<real> := [0.02, 0.04, 0.06]

  /** The other keys of `param_grid`, in order, with their options. */
  const FastOtherGrid: Grid := Grid(
    ["use_pca", "use_fa", "lof_neighbors", "if_estimators", "if_max_features",
     "use_ae", "use_ocsvm", "use_copula", "use_hdbscan", "hdb_min_cluster"],
    [[1.0, 0.0], [0.0, 1.0], [20.0, 40.0], [100.0, 200.0], [0.6, 0.8, 1.0],
     [1.0, 0.0], [1.0, 0.0], [1.0, 0.0], [0.0, 1.0], [20.0]])

  /** The command-line defaults of `--max_trials`, `--patience` and `--max_time_sec`. */
  const DefaultMaxTrials: int := 40
  const DefaultPatience: int := 10
  const DefaultMaxTimeSec: real := 0.0

  /**
   * Everything the search depends on. `shuffle(ci, cs)` is the generator's
   * reordering of level `ci`; `elapsed(n)` is the clock reading, in seconds
   * since the start, taken when `n` trials have been counted.
   */
  datatype Setup = Setup(
    grid: Grid, contams: seq<real>,
    shuffle: (nat, seq<Config>) -> seq<Config>,
    trial: Config -> TrialOutcome,
    maxTrials: int, patience: int, maxTimeSec: real,
    elapsed: int -> real)

  /** The search state: the recorded rows, the best row, and `trial_count`. */
  datatype Search = Search(results: seq<Row>, best: Option<Row>, trials: int)

  /** `max_time_sec > 0` and the budget is exceeded. */
  predicate OverTime(su: Setup, n: int) {
    su.maxTimeSec > 0.0 && su.elapsed(n) > su.maxTimeSec
  }

  /** Every combination of the other parameters, as a dict with `contamination = cont` added. */
  function LevelConfigs(g: Grid, cont: real): (cs: seq<Config>)
    requires WellFormed(g)
    ensures |cs| == |Configs(g)|
  {
    var base := Configs(g);
    seq(|base|, i requires 0 <= i < |base| => base[i][Contamination := cont])
  }

  /** The order level `ci` is explored in. */
  function LevelOrder(su: Setup, ci: nat): seq<Config>
    requires WellFormed(su.grid) && ci < |su.contams|
  {
    su.shuffle(ci, LevelConfigs(su.grid, su.contams[ci]))
  }

  /** `no_improve` after recording `row`. */
  function NextStale(best: Option<Row>, row: Row, noImprove: int): int {
    if row.failed then noImprove else if Improves(best, row.score) then 0 else noImprove + 1
  }

  /** The inner loop runs the trial at position `k`: configurations, trials and time remain. */
  predicate Runs(su: Setup, configs: seq<Config>, k: nat, s: Search) {
    k < |configs| && s.trials < su.maxTrials && !OverTime(su, s.trials)
  }

  /** After a successful trial leaves `no_improve` at `ni`, the patience is used up. */
  predicate PatienceOut(su: Setup, row: Row, ni: int) {
    !row.failed && su.patience > 0 && ni >= su.patience
  }

  /** The inner loop over one level's configurations, from position `k` on. */
  function Level(su: Setup, configs: seq<Config>, k: nat, noImprove: int, s: Search): Search
    requires k <= |configs|
    decreases |configs| - k
  {
    if k == |configs| || s.trials >= su.maxTrials then s
    else if OverTime(su, s.trials) then s.(trials := su.maxTrials)
    else
      var row := TrialRow(su, configs, k);
      var ni := NextStale(s.best, row, noImprove);
      var next := Record(s, row);
      if PatienceOut(su, row, ni) then next
      else Level(su, configs, k + 1, ni, next)
  }

  /** The row the trial at position `k` of `configs` records. */
  function TrialRow(su: Setup, configs: seq<Config>, k: nat): Row
    requires k < |configs|
  {
    var p := FixFa(configs[k]);
    RowOf(p, su.trial(p))
  }

  /** The search state after recording `row`. */
  function Record(s: Search, row: Row): Search {
    Search(s.results + [row], UpdateBest(s.best, row), s.trials + 1)
  }

  /** One trial of the inner loop: the level stops after it when the patience is used up, and goes on otherwise. */
  lemma LevelStep(su: Setup, configs: seq<Config>, k: nat, noImprove: int, s: Search)
    requires Runs(su, configs, k, s)
    ensures var row := TrialRow(su, configs, k);
      var ni := NextStale(s.best, row, noImprove);
      Level(su, configs, k, noImprove, s) ==
        if PatienceOut(su, row, ni) then Record(s, row)
        else Level(su, configs, k + 1, ni, Record(s, row))
  {
  }

  /** A level stops as it is once the trials have run out, and with the trial count at the budget once the time has. */
  lemma LevelStops(su: Setup, configs: seq<Config>, k: nat, noImprove: int, s: Search)
    requires k <= |configs|
    ensures s.trials >= su.maxTrials ==> Level(su, configs, k, noImprove, s) == s
    ensures k < |configs| && s.trials < su.maxTrials && OverTime(su, s.trials) ==>
      Level(su, configs, k, noImprove, s) == s.(trials := su.maxTrials)
  {
  }

  /** A level that has run out of configurations, trials or time records nothing more. */
  lemma LevelHalt(su: Setup, configs: seq<Config>, k: nat, noImprove: int, s: Search)
    requires k <= |configs|
    requires !Runs(su, configs, k, s)
    ensures var f := Level(su, configs, k, noImprove, s);
      f.results == s.results && f.best == s.best && f.trials >= s.trials
  {
  }

  /** The outer loop over the contamination levels, from level `ci` on. */
  function Levels(su: Setup, ci: nat, s: Search): Search
    requires WellFormed(su.grid) && ci <= |su.contams|
    decreases |su.contams| - ci
  {
    if ci == |su.contams| || s.trials >= su.maxTrials then s
    else
      var after := Level(su, LevelOrder(su, ci), 0, 0, s);
      if after.trials >= su.maxTrials || OverTime(su, after.trials) then after
      else Levels(su, ci + 1, after)
  }

  /** The whole search, from no results and no best. */
  function Tune(su: Setup): Search
    requires WellFormed(su.grid)
  {
    Levels(su, 0, Search([], None, 0))
  }

  /** `main`: the search, then the results sorted by descending score. */
  method TuneFast(su: Setup) returns (results: seq<Row>, best: Option<Row>)
    requires WellFormed(su.grid)
    ensures results == SortedByScore(Tune(su).results)
    ensures best == Tune(su).best
  {
    ghost var goal := Tune(su);
    var rows: seq<Row> := [];
    var bestRow: Option<Row> := None;
    var trialCount := 0;
    var ci := 0;
    var stop := false;
    while ci < |su.contams| && !stop
      invariant 0 <= ci <= |su.contams|
      invariant stop ==> Search(rows, bestRow, trialCount) == goal
      invariant !stop ==> Levels(su, ci, Search(rows, bestRow, trialCount)) == goal
      decreases |su.contams| - ci, !stop
    {
      if trialCount >= su.maxTrials {
        stop := true;
      } else {
        var configs := su.shuffle(ci, LevelConfigs(su.grid, su.contams[ci]));
        rows, bestRow, trialCount := RunLevel(su, configs, rows, bestRow, trialCount);
        if trialCount >= su.maxTrials || (su.maxTimeSec > 0.0 && su.elapsed(trialCount) > su.maxTimeSec) {
          stop := true;
        } else {
          ci := ci + 1;
        }
      }
    }
    results := SortedByScore(rows);
    best := bestRow;
  }

  /** The inner loop: the trials of one level until its configurations, the trials, the time or the patience run out. */
  method RunLevel(su: Setup, configs: seq<Config>, rows: seq<Row>, bestRow: Option<Row>, trialCount: int)
    returns (rows': seq<Row>, bestRow': Option<Row>, trialCount': int)
    ensures Search(rows', bestRow', trialCount') == Level(su, configs, 0, 0, Search(rows, bestRow, trialCount))
  {
    ghost var goal := Level(su, configs, 0, 0, Search(rows, bestRow, trialCount));
    rows', bestRow', trialCount' := rows, bestRow, trialCount;
    var noImprove := 0;
    var k := 0;
    var done := false;
    while k < |configs| && !done
      invariant 0 <= k <= |configs|
      invariant done ==> Search(rows', bestRow', trialCount') == goal
      invariant !done ==> Level(su, configs, k, noImprove, Search(rows', bestRow', trialCount')) == goal
      decreases |configs| - k
    {
      rows', bestRow', trialCount', noImprove, done := LevelRound(su, configs, k, noImprove, rows', bestRow', trialCount');
      k := k + 1;
    }
  }

  /** One pass of the inner loop: stop on the trial or time budget, else run the trial at position `k`. */
  method LevelRound(su: Setup, configs: seq<Config>, k: nat, noImprove: int, rows: seq<Row>, bestRow: Option<Row>, trialCount: int)
    returns (rows': seq<Row>, bestRow': Option<Row>, trialCount': int, noImprove': int, done: bool)
    requires k < |configs|
    ensures done ==> Search(rows', bestRow', trialCount') == Level(su, configs, k, noImprove, Search(rows, bestRow, trialCount))
    ensures !done ==> (Level(su, configs, k + 1, noImprove', Search(rows', bestRow', trialCount')) ==
      Level(su, configs, k, noImprove, Search(rows, bestRow, trialCount)))
  {
    LevelStops(su, configs, k, noImprove, Search(rows, bestRow, trialCount));
    rows', bestRow', trialCount', noImprove', done := rows, bestRow, trialCount, noImprove, true;
    if trialCount >= su.maxTrials {
    } else if su.maxTimeSec > 0.0 && su.elapsed(trialCount) > su.maxTimeSec {
      trialCount' := su.maxTrials;
    } else {
      LevelStep(su, configs, k, noImprove, Search(rows, bestRow, trialCount));
      rows', bestRow', trialCount', noImprove', done := RunTrial(su, configs, k, noImprove, rows, bestRow, trialCount);
    }
  }

  /** One trial: count it, run it, record its row, and update the best and `no_improve`. */
  method RunTrial(su: Setup, configs: seq<Config>, k: nat, noImprove: int, rows: seq<Row>, bestRow: Option<Row>, trialCount: int)
    returns (rows': seq<Row>, bestRow': Option<Row>, trialCount': int, noImprove': int, done: bool)
    requires k < |configs|
    ensures var row := TrialRow(su, configs, k);
      Search(rows', bestRow', trialCount') == Record(Search(rows, bestRow, trialCount), row) &&
      noImprove' == NextStale(bestRow, row, noImprove) &&
      done == PatienceOut(su, row, noImprove')
  {
    trialCount' := trialCount + 1;
    var params := FixFa(configs[k]);
    var row := RowOf(params, su.trial(params));
    rows' := rows + [row];
    bestRow', noImprove', done := bestRow, noImprove, false;
    if !row.failed {
      if bestRow.None? || row.score > bestRow.value.score {
        bestRow' := Some(row);
        noImprove' := 0;
      } else {
        noImprove' := noImprove + 1;
      }
      if su.patience > 0 && noImprove' >= su.patience {
        done := true;
      }
    }
  }

  // ---------------- the trial budget ----------------

  ghost predicate WithinBudget(s: Search, maxTrials: int) {
    |s.results| <= s.trials && (|s.results| == 0 || |s.results| <= maxTrials)
  }

  lemma {:induction false} LevelBudget(su: Setup, configs: seq<Config>, k: nat, noImprove: int, s: Search)
    requires k <= |configs| && WithinBudget(s, su.maxTrials)
    ensures WithinBudget(Level(su, configs, k, noImprove, s), su.maxTrials)
    decreases |configs| - k
  {
    if Runs(su, configs, k, s) {
      var row := TrialRow(su, configs, k);
      var ni := NextStale(s.best, row, noImprove);
      BudgetStep(su, configs, k, noImprove, s);
      if !PatienceOut(su, row, ni) {
        LevelBudget(su, configs, k + 1, ni, Record(s, row));
      }
    } else {
      BudgetHalt(su, configs, k, noImprove, s);
    }
  }

  lemma BudgetHalt(su: Setup, configs: seq<Config>, k: nat, noImprove: int, s: Search)
    requires k <= |configs| && WithinBudget(s, su.maxTrials)
    requires !Runs(su, configs, k, s)
    ensures WithinBudget(Level(su, configs, k, noImprove, s), su.maxTrials)
  {
    LevelHalt(su, configs, k, noImprove, s);
  }

  /** One trial within the budget keeps the row count within it, and the level either stops there or goes on. */
  lemma BudgetStep(su: Setup, configs: seq<Config>, k: nat, noImprove: int, s: Search)
    requires Runs(su, configs, k, s) && WithinBudget(s, su.maxTrials)
    ensures var row := TrialRow(su, configs, k);
      var ni := NextStale(s.best, row, noImprove);
      var f := Level(su, configs, k, noImprove, s);
      WithinBudget(Record(s, row), su.maxTrials) &&
      (PatienceOut(su, row, ni) ==> WithinBudget(f, su.maxTrials)) &&
      (!PatienceOut(su, row, ni) ==> f == Level(su, configs, k + 1, ni, Record(s, row)))
  {
    LevelStep(su, configs, k, noImprove, s);
  }

  lemma {:induction false} LevelsBudget(su: Setup, ci: nat, s: Search)
    requires WellFormed(su.grid) && ci <= |su.contams| && WithinBudget(s, su.maxTrials)
    ensures WithinBudget(Levels(su, ci, s), su.maxTrials)
    decreases |su.contams| - ci
  {
    if ci < |su.contams| && s.trials < su.maxTrials {
      LevelBudget(su, LevelOrder(su, ci), 0, 0, s);
      var after := Level(su, LevelOrder(su, ci), 0, 0, s);
      if !(after.trials >= su.maxTrials || OverTime(su, after.trials)) {
        LevelsBudget(su, ci + 1, after);
      }
    }
  }

  /** No more trials run than `max_trials` allows, whatever the clock and the outcomes. */
  lemma TrialBudget(su: Setup)
    requires WellFormed(su.grid)
    ensures |Tune(su).results| <= if su.maxTrials > 0 then su.maxTrials else 0
  {
    LevelsBudget(su, 0, Search([], None, 0));
  }

  // ---------------- best-so-far ----------------

  lemma {:induction false} LevelBest(su: Setup, configs: seq<Config>, k: nat, noImprove: int, s: Search)
    requires k <= |configs| && IsFirstBest(s.best, s.results)
    ensures var f := Level(su, configs, k, noImprove, s); IsFirstBest(f.best, f.results)
    decreases |configs| - k
  {
    if Runs(su, configs, k, s) {
      var row := TrialRow(su, configs, k);
      var ni := NextStale(s.best, row, noImprove);
      BestLevelStep(su, configs, k, noImprove, s);
      if !PatienceOut(su, row, ni) {
        LevelBest(su, configs, k + 1, ni, Record(s, row));
        BestOn(su, configs, k, noImprove, s);
      }
    } else {
      BestHalt(su, configs, k, noImprove, s);
    }
  }

  lemma BestOn(su: Setup, configs: seq<Config>, k: nat, noImprove: int, s: Search)
    requires Runs(su, configs, k, s)
    requires var row := TrialRow(su, configs, k);
      var ni := NextStale(s.best, row, noImprove);
      var g := Level(su, configs, k + 1, ni, Record(s, row));
      !PatienceOut(su, row, ni) && IsFirstBest(g.best, g.results)
    ensures var f := Level(su, configs, k, noImprove, s); IsFirstBest(f.best, f.results)
  {
    LevelStep(su, configs, k, noImprove, s);
  }

  lemma BestHalt(su: Setup, configs: seq<Config>, k: nat, noImprove: int, s: Search)
    requires k <= |configs| && IsFirstBest(s.best, s.results)
    requires !Runs(su, configs, k, s)
    ensures var f := Level(su, configs, k, noImprove, s); IsFirstBest(f.best, f.results)
  {
    LevelHalt(su, configs, k, noImprove, s);
  }

  /** One trial keeps the best the first maximum of the rows, and the level either stops there or goes on. */
  lemma BestLevelStep(su: Setup, configs: seq<Config>, k: nat, noImprove: int, s: Search)
    requires Runs(su, configs, k, s) && IsFirstBest(s.best, s.results)
    ensures var row := TrialRow(su, configs, k);
      var ni := NextStale(s.best, row, noImprove);
      var next := Record(s, row);
      var f := Level(su, configs, k, noImprove, s);
      IsFirstBest(next.best, next.results) &&
      (PatienceOut(su, row, ni) ==> IsFirstBest(f.best, f.results)) &&
      (!PatienceOut(su, row, ni) ==> f == Level(su, configs, k + 1, ni, next))
  {
    LevelStep(su, configs, k, noImprove, s);
    BestStep(s.best, s.results, TrialRow(su, configs, k));
  }

  lemma {:induction false} LevelsBest(su: Setup, ci: nat, s: Search)
    requires WellFormed(su.grid) && ci <= |su.contams| && IsFirstBest(s.best, s.results)
    ensures var f := Levels(su, ci, s); IsFirstBest(f.best, f.results)
    decreases |su.contams| - ci
  {
    if ci < |su.contams| && s.trials < su.maxTrials {
      LevelBest(su, LevelOrder(su, ci), 0, 0, s);
      var after := Level(su, LevelOrder(su, ci), 0, 0, s);
      if !(after.trials >= su.maxTrials || OverTime(su, after.trials)) {
        LevelsBest(su, ci + 1, after);
      }
    }
  }

  /** The best is the first successful row with the maximum score over all levels; a raised trial is never it. */
  lemma TuneBest(su: Setup)
    requires WellFormed(su.grid)
    ensures IsFirstBest(Tune(su).best, Tune(su).results)
  {
    LevelsBest(su, 0, Search([], None, 0));
  }

  // ---------------- patience ----------------

  /**
   * The best and `no_improve` after the rows of one level, starting from
   * the best `b0` the level began with: a raised trial changes neither, an
   * improving one resets the count, any other successful one adds 1.
   */
  function Stale(b0: Option<Row>, rows: seq<Row>): (Option<Row>, int)
    decreases |rows|
  {
    if rows == [] then (b0, 0)
    else
      var prev := Stale(b0, rows[..|rows| - 1]);
      var row := rows[|rows| - 1];
      (UpdateBest(prev.0, row), NextStale(prev.0, row, prev.1))
  }

  /** Every prefix of `rows`, the whole included, holds fewer than `patience` stale trials. */
  ghost predicate AllFresh(b0: Option<Row>, rows: seq<Row>, patience: int) {
    forall m :: 0 <= m <= |rows| ==> Stale(b0, rows[..m]).1 < patience
  }

  /** Every proper prefix of `rows` holds fewer than `patience` stale trials. */
  ghost predicate ProperFresh(b0: Option<Row>, rows: seq<Row>, patience: int) {
    forall m :: 0 <= m < |rows| ==> Stale(b0, rows[..m]).1 < patience
  }

  lemma FreshSnoc(b0: Option<Row>, rows: seq<Row>, row: Row, patience: int)
    requires AllFresh(b0, rows, patience)
    ensures ProperFresh(b0, rows + [row], patience)
    ensures Stale(b0, rows + [row]).1 < patience ==> AllFresh(b0, rows + [row], patience)
  {
    var r := rows + [row];
    forall m | 0 <= m < |r|
      ensures Stale(b0, r[..m]).1 < patience
    {
      assert r[..m] == rows[..m];
    }
    assert r[..|r|] == r;
  }

  lemma {:induction false} LevelPatience(su: Setup, configs: seq<Config>, k: nat, noImprove: int, s: Search,
                                         base: seq<Row>, added: seq<Row>, b0: Option<Row>)
    requires su.patience > 0 && k <= |configs|
    requires s.results == base + added
    requires Stale(b0, added) == (s.best, noImprove)
    requires AllFresh(b0, added, su.patience)
    ensures var f := Level(su, configs, k, noImprove, s);
      |base| <= |f.results| && f.results[..|base|] == base && ProperFresh(b0, f.results[|base|..], su.patience)
    decreases |configs| - k
  {
    if Runs(su, configs, k, s) {
      var row := TrialRow(su, configs, k);
      var ni := NextStale(s.best, row, noImprove);
      PatienceStep(su, configs, k, noImprove, s, base, added, b0);
      if !PatienceOut(su, row, ni) {
        LevelPatience(su, configs, k + 1, ni, Record(s, row), base, added + [row], b0);
      }
    } else {
      PatienceHalt(su, configs, k, noImprove, s, base, added, b0);
    }
  }

  lemma PatienceHalt(su: Setup, configs: seq<Config>, k: nat, noImprove: int, s: Search,
                     base: seq<Row>, added: seq<Row>, b0: Option<Row>)
    requires k <= |configs| && s.results == base + added && AllFresh(b0, added, su.patience)
    requires !Runs(su, configs, k, s)
    ensures var f := Level(su, configs, k, noImprove, s);
      |base| <= |f.results| && f.results[..|base|] == base && ProperFresh(b0, f.results[|base|..], su.patience)
  {
    LevelHalt(su, configs, k, noImprove, s);
    AppendParts(base, added);
    FreshProper(b0, added, su.patience);
  }

  /** One trial of the patience argument: the row joins the level's rows, and the level either stops with them or goes on. */
  lemma PatienceStep(su: Setup, configs: seq<Config>, k: nat, noImprove: int, s: Search,
                     base: seq<Row>, added: seq<Row>, b0: Option<Row>)
    requires su.patience > 0 && Runs(su, configs, k, s)
    requires s.results == base + added
    requires Stale(b0, added) == (s.best, noImprove)
    requires AllFresh(b0, added, su.patience)
    ensures var row := TrialRow(su, configs, k);
      var ni := NextStale(s.best, row, noImprove);
      var next := Record(s, row);
      var f := Level(su, configs, k, noImprove, s);
      next.results == base + (added + [row]) && Stale(b0, added + [row]) == (next.best, ni) &&
      (PatienceOut(su, row, ni) ==>
        |base| <= |f.results| && f.results[..|base|] == base && ProperFresh(b0, f.results[|base|..], su.patience)) &&
      (!PatienceOut(su, row, ni) ==>
        f == Level(su, configs, k + 1, ni, next) && AllFresh(b0, added + [row], su.patience))
  {
    var row := TrialRow(su, configs, k);
    var ni := NextStale(s.best, row, noImprove);
    var next := Record(s, row);
    var added' := added + [row];
    LevelStep(su, configs, k, noImprove, s);
    StaleSnoc(b0, added, row);
    AppendAssoc(base, added, [row]);
    AppendParts(base, added');
    FreshSnoc(b0, added, row, su.patience);
  }

  lemma StaleSnoc(b0: Option<Row>, rows: seq<Row>, row: Row)
    ensures Stale(b0, rows + [row]) == (UpdateBest(Stale(b0, rows).0, row), NextStale(Stale(b0, rows).0, row, Stale(b0, rows).1))
  {
    assert (rows + [row])[..|rows|] == rows;
  }

  lemma FreshProper(b0: Option<Row>, rows: seq<Row>, patience: int)
    requires AllFresh(b0, rows, patience)
    ensures ProperFresh(b0, rows, patience)
  {
  }

  /**
   * Within a level, `no_improve` stays below the patience until the trial
   * that reaches it: every proper prefix of the rows a level records holds
   * fewer than `patience` successful non-improving trials since the level's
   * last improvement, so no trial runs after the patience is used up.
   */
  lemma PatienceBound(su: Setup, ci: nat, s: Search)
    requires WellFormed(su.grid) && ci < |su.contams| && su.patience > 0
    ensures var f := Level(su, LevelOrder(su, ci), 0, 0, s);
      |s.results| <= |f.results| && f.results[..|s.results|] == s.results &&
      ProperFresh(s.best, f.results[|s.results|..], su.patience)
  {
    var none: seq<Row> := [];
    assert s.results == s.results + none;
    assert AllFresh(s.best, none, su.patience) by {
      assert none[..0] == none;
    }
    LevelPatience(su, LevelOrder(su, ci), 0, 0, s, s.results, none, s.best);
  }

  // ---------------- where the trials come from ----------------

  /** `r` ran a configuration of level `ci`'s order, after the `use_fa` fix. */
  ghost predicate RowFromLevel(su: Setup, r: Row, ci: int) {
    WellFormed(su.grid) && 0 <= ci < |su.contams| &&
    exists c :: c in LevelOrder(su, ci) && r.params == FixFa(c)
  }

  /** `lv` gives each row its level, and the levels never go back. */
  ghost predicate LevelsInOrder(su: Setup, rows: seq<Row>, lv: seq<int>) {
    && |lv| == |rows|
    && (forall i :: 0 <= i < |rows| ==> RowFromLevel(su, rows[i], lv[i]))
    && (forall i, j :: 0 <= i < j < |rows| ==> lv[i] <= lv[j])
  }

  ghost predicate AtMost(lv: seq<int>, bound: int) {
    forall i :: 0 <= i < |lv| ==> lv[i] <= bound
  }

  lemma {:induction false} LevelFrom(su: Setup, ci: nat, k: nat, noImprove: int, s: Search, lv: seq<int>)
    returns (lv': seq<int>)
    requires WellFormed(su.grid) && ci < |su.contams| && k <= |LevelOrder(su, ci)|
    requires LevelsInOrder(su, s.results, lv) && AtMost(lv, ci)
    ensures LevelsInOrder(su, Level(su, LevelOrder(su, ci), k, noImprove, s).results, lv') && AtMost(lv', ci)
    decreases |LevelOrder(su, ci)| - k
  {
    var configs := LevelOrder(su, ci);
    lv' := lv;
    if Runs(su, configs, k, s) {
      var row := TrialRow(su, configs, k);
      var ni := NextStale(s.best, row, noImprove);
      var next := Record(s, row);
      LevelStep(su, configs, k, noImprove, s);
      TrialFromLevel(su, ci, k);
      var lv1 := lv + [ci];
      InOrderSnoc(su, s.results, lv, row, ci);
      if PatienceOut(su, row, ni) {
        lv' := lv1;
      } else {
        lv' := LevelFrom(su, ci, k + 1, ni, next, lv1);
      }
    } else {
      LevelHalt(su, configs, k, noImprove, s);
    }
  }

  lemma TrialFromLevel(su: Setup, ci: nat, k: nat)
    requires WellFormed(su.grid) && ci < |su.contams| && k < |LevelOrder(su, ci)|
    ensures RowFromLevel(su, TrialRow(su, LevelOrder(su, ci), k), ci)
  {
    var c := LevelOrder(su, ci)[k];
    assert c in LevelOrder(su, ci);
  }

  lemma InOrderSnoc(su: Setup, rows: seq<Row>, lv: seq<int>, row: Row, ci: int)
    requires LevelsInOrder(su, rows, lv) && AtMost(lv, ci) && RowFromLevel(su, row, ci)
    ensures LevelsInOrder(su, rows + [row], lv + [ci]) && AtMost(lv + [ci], ci)
  {
    var r := rows + [row];
    var l := lv + [ci];
    forall i | 0 <= i < |r| ensures RowFromLevel(su, r[i], l[i]) {
      if i < |rows| {
        assert r[i] == rows[i] && l[i] == lv[i];
      }
    }
  }

  lemma {:induction false} LevelsFrom(su: Setup, ci: nat, s: Search, lv: seq<int>)
    returns (lv': seq<int>)
    requires WellFormed(su.grid) && ci <= |su.contams|
    requires LevelsInOrder(su, s.results, lv) && AtMost(lv, ci - 1)
    ensures LevelsInOrder(su, Levels(su, ci, s).results, lv')
    decreases |su.contams| - ci
  {
    lv' := lv;
    if ci < |su.contams| && s.trials < su.maxTrials {
      var lv1 := LevelFrom(su, ci, 0, 0, s, lv);
      var after := Level(su, LevelOrder(su, ci), 0, 0, s);
      if after.trials >= su.maxTrials || OverTime(su, after.trials) {
        lv' := lv1;
      } else {
        lv' := LevelsFrom(su, ci + 1, after, lv1);
      }
    }
  }

  /**
   * The rows come level by level in grid order: each ran a configuration
   * of its level's shuffled order, and a later row never belongs to an
   * earlier level.
   */
  lemma LevelsVisitedInOrder(su: Setup)
    requires WellFormed(su.grid)
    ensures exists lv :: LevelsInOrder(su, Tune(su).results, lv)
  {
    var lv := LevelsFrom(su, 0, Search([], None, 0), []);
    assert LevelsInOrder(su, Tune(su).results, lv);
  }

  lemma LevelConfigAt(g: Grid, cont: real, i: nat)
    requires WellFormed(g) && i < |LevelConfigs(g, cont)|
    ensures IsCombination(Product(g.options)[i], g.options)
    ensures LevelConfigs(g, cont)[i] == Zip(g.keys, Product(g.options)[i])[Contamination := cont]
  {
    ProductMembers(g.options, Product(g.options)[i]);
  }

  /**
   * With a shuffle that only reorders, each level offers every combination
   * of the other parameters, with `contamination` set to the level's value.
   */
  lemma LevelOffersAll(su: Setup, ci: nat, combo: seq<real>)
    requires WellFormed(su.grid) && ci < |su.contams| && ShufflePermutes(su.shuffle)
    requires IsCombination(combo, su.grid.options)
    ensures Zip(su.grid.keys, combo)[Contamination := su.contams[ci]] in LevelOrder(su, ci)
  {
    var g := su.grid;
    ProductMembers(g.options, combo);
    var i :| 0 <= i < |Product(g.options)| && Product(g.options)[i] == combo;
    LevelConfigAt(g, su.contams[ci], i);
    var cs := LevelConfigs(g, su.contams[ci]);
    assert cs[i] in multiset(cs);
    assert multiset(su.shuffle(ci, cs)) == multiset(cs);
  }

  /**
   * With a shuffle that only reorders, a row of level `ci` ran a combination
   * of the other parameters with the level's contamination, after the
   * `use_fa` fix.
   */
  lemma RowContamination(su: Setup, r: Row, ci: int)
    requires RowFromLevel(su, r, ci) && ShufflePermutes(su.shuffle)
    ensures Contamination in r.params && r.params[Contamination] == su.contams[ci]
    ensures exists combo ::
      (IsCombination(combo, su.grid.options) && r.params == FixFa(Zip(su.grid.keys, combo)[Contamination := su.contams[ci]]))
  {
    var g := su.grid;
    var c :| c in LevelOrder(su, ci) && r.params == FixFa(c);
    var cs := LevelConfigs(g, su.contams[ci]);
    assert multiset(su.shuffle(ci, cs)) == multiset(cs);
    assert c in multiset(cs);
    var i :| 0 <= i < |cs| && cs[i] == c;
    LevelConfigAt(g, su.contams[ci], i);
  }
}
