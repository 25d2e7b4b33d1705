/**
 * The slow brute-force tuner: the full grid product in a shuffled order,
 * only its first 850 configurations run, every outcome recorded, the first
 * maximum kept as the best, and the results saved by descending score.
 */
module SlowTuner {
  import opened Wrappers
  import opened Sorting
  import opened Grid
  import opened Trials

  /** The contamination levels the script tries. */
  const Contamination: seq<real> := [0.02, 0.04, 0.06, 0.08, 0.10]

  /** `PARAM_GRID`, in its key order. */
  const SlowGrid: Grid := Grid(
    ["contamination", "use_pca", "use_fa", "lof_neighbors", "if_estimators", "if_max_features",
     "use_ae", "use_ocsvm", "use_copula", "use_hdbscan", "hdb_min_cluster"],
    [Contamination, [1.0, 0.0], [0.0, 1.0], [10.0, 20.0, 30.0, 40.0, 50.0, 60.0],
     [100.0, 200.0, 300.0, 400.0], [0.4, 0.6, 0.8, 1.0], [0.0, 1.0], [0.0, 1.0], [0.0, 1.0],
     [0.0, 1.0], [10.0, 20.0, 30.0, 40.0, 50.0]])

  /** `all_combos[:850]`. */
  const MaxSampled: nat := 850

  /** The first 850 configurations of an order, or all of them when there are fewer. */
  function Sample(cs: seq<Config>): (r: seq<Config>)
    ensures |r| == (if |cs| < MaxSampled then |cs| else MaxSampled)
    ensures r == cs[..|r|]
  {
    if |cs| < MaxSampled then cs else cs[..MaxSampled]
  }

  /**
   * The rows of the sweep; `shuffle` is `random.shuffle` of the product,
   * applied here to the configurations, which are the product's tuples
   * zipped with the names one by one.
   */
  function SlowRows(g: Grid, shuffle: seq<Config> -> seq<Config>, trial: Config -> TrialOutcome): seq<Row>
    requires WellFormed(g)
  {
    RowsOf(Sample(shuffle(Configs(g))), trial)
  }

  /** `main` over grid `g`. */
  method TuneSlow(g: Grid, shuffle: seq<Config> -> seq<Config>, trial: Config -> TrialOutcome)
    returns (results: seq<Row>, best: Option<Row>)
    requires WellFormed(g)
    ensures results == SortedByScore(SlowRows(g, shuffle, trial))
    ensures IsFirstBest(best, SlowRows(g, shuffle, trial))
  {
    var sampled := Sample(shuffle(Configs(g)));
    var rows;
    rows, best := Sweep(sampled, trial);
    results := SortedByScore(rows);
  }

  /** `main` with the script's own grid. */
  method TuneFusedSlow(shuffle: seq<Config> -> seq<Config>, trial: Config -> TrialOutcome)
    returns (results: seq<Row>, best: Option<Row>)
    ensures results == SortedByScore(SlowRows(SlowGrid, shuffle, trial))
    ensures IsFirstBest(best, SlowRows(SlowGrid, shuffle, trial))
  {
    results, best := TuneSlow(SlowGrid, shuffle, trial);
  }

  /**
   * With a shuffle that only reorders and a grid whose names and options do
   * not repeat, at most 850 trials run, each on a configuration of the grid,
   * and no configuration twice; when the grid has at least 850
   * configurations, exactly 850 run.
   */
  lemma SampledWithoutRepetition(g: Grid, shuffle: seq<Config> -> seq<Config>, trial: Config -> TrialOutcome)
    requires WellFormed(g) && Distinct(g.keys)
    requires forall i :: 0 <= i < |g.options| ==> Distinct(g.options[i])
    requires multiset(shuffle(Configs(g))) == multiset(Configs(g))
    ensures var rows := SlowRows(g, shuffle, trial);
      |rows| <= MaxSampled &&
      (Size(g.options) >= MaxSampled ==> |rows| == MaxSampled) &&
      (forall i :: 0 <= i < |rows| ==> rows[i].params in Configs(g)) &&
      (forall i, j :: 0 <= i < j < |rows| ==> rows[i].params != rows[j].params)
  {
    var order := shuffle(Configs(g));
    var sampled := Sample(order);
    ProductSize(g.options);
    assert |order| == |Configs(g)| by {
      assert |multiset(order)| == |multiset(Configs(g))|;
    }
    ConfigsDistinct(g);
    DistinctPermutation(Configs(g), order);
    DistinctPrefix(order, |sampled|);
    forall i | 0 <= i < |sampled| ensures sampled[i] in Configs(g) {
      assert sampled[i] in multiset(order);
    }
  }

  /** The script's grid holds 153600 combinations, far more than the 850 that run. */
  lemma SlowGridSize()
    ensures Size(SlowGrid.options) == 153600
  {
    var o := SlowGrid.options;
    SizeFrom(o, 0);
    assert o[0..] == o;
    assert SizeAt(o, 10) == 5;
    assert SizeAt(o, 9) == 10;
    assert SizeAt(o, 8) == 20;
    assert SizeAt(o, 7) == 40;
    assert SizeAt(o, 6) == 80;
    assert SizeAt(o, 5) == 320;
    assert SizeAt(o, 4) == 1280;
    assert SizeAt(o, 3) == 7680;
    assert SizeAt(o, 2) == 15360;
    assert SizeAt(o, 1) == 30720;
    assert SizeAt(o, 0) == 153600;
  }

  /** The script's grid repeats no name and no option, so its 850 trials are distinct configurations. */
  lemma SlowGridDistinct()
    ensures Distinct(SlowGrid.keys)
    ensures forall i :: 0 <= i < |SlowGrid.options| ==> Distinct(SlowGrid.options[i])
  {
  }
}
