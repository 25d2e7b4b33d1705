/**
 * The exhaustive tuner: one trial per combination of the grid, in product
 * order, with the `use_fa` fix, every outcome recorded, the first maximum
 * kept as the best, and the results saved by descending score.
 */
module FullGridTuner {
  import opened Wrappers
  import opened Sorting
  import opened Grid
  import opened Trials

  /** The contamination levels the script tries. */
  const Contamination: seq<real> := [0.02, 0.04, 0.06, 0.08, 0.10]

  /** `param_grid`, in its key order. */
  const FullGrid: Grid := Grid(
    ["contamination", "use_pca", "use_fa", "lof_neighbors", "if_estimators", "if_max_features",
     "use_ae", "use_ocsvm", "use_copula", "use_hdbscan", "hdb_min_cluster"],
    [Contamination, [1.0, 0.0], [0.0, 1.0], [10.0, 20.0, 30.0, 50.0],
     [100.0, 200.0, 300.0, 400.0], [0.6, 0.8, 1.0], [1.0], [1.0], [0.0, 1.0], [0.0], [20.0]])

  /** The rows of the sweep over grid `g`. */
  function GridRows(g: Grid, trial: Config -> TrialOutcome): seq<Row>
    requires WellFormed(g)
  {
    RowsOf(FixedAll(Configs(g)), trial)
  }

  /** `main` over grid `g`: the sorted results and the best row. */
  method TuneGrid(g: Grid, trial: Config -> TrialOutcome) returns (results: seq<Row>, best: Option<Row>)
    requires WellFormed(g)
    ensures results == SortedByScore(GridRows(g, trial))
    ensures IsFirstBest(best, GridRows(g, trial))
  {
    var rows;
    rows, best := Sweep(FixedAll(Configs(g)), trial);
    results := SortedByScore(rows);
  }

  /** `main` with the script's own grid. */
  method TuneFullGrid(trial: Config -> TrialOutcome) returns (results: seq<Row>, best: Option<Row>)
    ensures results == SortedByScore(GridRows(FullGrid, trial))
    ensures IsFirstBest(best, GridRows(FullGrid, trial))
  {
    results, best := TuneGrid(FullGrid, trial);
  }

  /**
   * There is one trial per combination: as many rows as the product of the
   * option counts, row `i` ran the `i`-th combination of the product (after
   * the `use_fa` fix), and every combination has its row.
   */
  lemma GridTrialsAreProduct(g: Grid, trial: Config -> TrialOutcome)
    requires WellFormed(g)
    ensures |GridRows(g, trial)| == Size(g.options)
    ensures forall i :: 0 <= i < |GridRows(g, trial)| ==>
      IsCombination(Product(g.options)[i], g.options) &&
      GridRows(g, trial)[i].params == FixFa(Zip(g.keys, Product(g.options)[i]))
    ensures forall combo :: IsCombination(combo, g.options) ==>
      exists i :: 0 <= i < |GridRows(g, trial)| && GridRows(g, trial)[i].params == FixFa(Zip(g.keys, combo))
  {
    ProductSize(g.options);
    var rows := GridRows(g, trial);
    forall i | 0 <= i < |rows|
      ensures IsCombination(Product(g.options)[i], g.options)
      ensures rows[i].params == FixFa(Zip(g.keys, Product(g.options)[i]))
    {
      ConfigsSound(g, i);
    }
    forall combo | IsCombination(combo, g.options)
      ensures exists i :: 0 <= i < |rows| && rows[i].params == FixFa(Zip(g.keys, combo))
    {
      ConfigsComplete(g, combo);
      var i :| 0 <= i < |Configs(g)| && Configs(g)[i] == Zip(g.keys, combo);
      assert rows[i].params == FixFa(Zip(g.keys, combo));
    }
  }

  /** The script's grid holds 1920 combinations. */
  lemma FullGridSize()
    ensures Size(FullGrid.options) == 1920
  {
    var o := FullGrid.options;
    SizeFrom(o, 0);
    assert o[0..] == o;
    assert SizeAt(o, 10) == 1;
    assert SizeAt(o, 9) == 1;
    assert SizeAt(o, 8) == 2;
    assert SizeAt(o, 7) == 2;
    assert SizeAt(o, 6) == 2;
    assert SizeAt(o, 5) == 6;
    assert SizeAt(o, 4) == 24;
    assert SizeAt(o, 3) == 96;
    assert SizeAt(o, 2) == 192;
    assert SizeAt(o, 1) == 384;
    assert SizeAt(o, 0) == 1920;
  }

  /** No combination of the script's grid is run twice: its names and its options do not repeat. */
  lemma FullGridOnce()
    ensures Distinct(Configs(FullGrid))
  {
    assert Distinct(FullGrid.keys);
    assert forall i :: 0 <= i < |FullGrid.options| ==> Distinct(FullGrid.options[i]);
    ConfigsDistinct(FullGrid);
  }
}
