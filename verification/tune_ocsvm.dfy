/**
 * Randomised tuning of the one-class SVM baseline: `n_iter` configurations
 * are sampled from fixed option sets, each is run once per seed, the
 * per-seed metrics are averaged ignoring NaN runs, and the rows are ranked
 * by the three-metric composite score. The generator's draws are a
 * parameter; the baseline run is a function of the configuration and seed.
 */
module OcsvmTuner {
  import opened Wrappers
  import opened TunerScore
  import opened Numeric
  import opened Sorting

  datatype OcsvmConfig = OcsvmConfig(
    contamination: real, nu: real, kernel: string, gamma: string, degree: int,
    coef0: real, usePca: bool, pcaVar: real, scaler: string)

  const Contaminations: seq<real> := [0.02, 0.03, 0.04, 0.05]
  const Kernels: seq<string> := ["rbf", "sigmoid", "poly"]
  const Gammas: seq<string> := ["scale", "auto"]
  const Degrees: seq<int> := [2, 3, 4]
  const Coef0s: seq<real> := [0.0, 0.5, 1.0]
  /** `bool(rng.choice([1, 0]))`. */
  const PcaSwitch: seq<bool> := [true, false]
  const PcaVars: seq<real> := [0.95, 0.98]
  const Scalers: seq<string> := ["robust", "standard"]

  /** What the generator yields for one configuration: an index per choice, and `random()` in [0, 1) for nu. */
  datatype Draw = Draw(contamination: nat, u: real, kernel: nat, gamma: nat, degree: nat,
                       coef0: nat, pca: nat, pcaVar: nat, scaler: nat)

  predicate ValidDraw(d: Draw) {
    && d.contamination < |Contaminations| && 0.0 <= d.u < 1.0 && d.kernel < |Kernels|
    && d.gamma < |Gammas| && d.degree < |Degrees| && d.coef0 < |Coef0s|
    && d.pca < |PcaSwitch| && d.pcaVar < |PcaVars| && d.scaler < |Scalers|
  }

  /** The configurations `sample_config` can produce. */
  predicate InOptions(c: OcsvmConfig) {
    && c.contamination in Contaminations && 0.01 <= c.nu < 0.10 && c.kernel in Kernels
    && c.gamma in Gammas && c.degree in Degrees && c.coef0 in Coef0s
    && c.usePca in PcaSwitch && c.pcaVar in PcaVars && c.scaler in Scalers
  }

  /** `sample_config(rng)`; nu is `uniform(0.01, 0.10)`, that is `0.01 + 0.09 * random()`. */
  function SampleConfig(d: Draw): (c: OcsvmConfig)
    requires ValidDraw(d)
    ensures InOptions(c)
  {
    OcsvmConfig(Contaminations[d.contamination], 0.01 + (0.10 - 0.01) * d.u, Kernels[d.kernel],
                Gammas[d.gamma], Degrees[d.degree], Coef0s[d.coef0], PcaSwitch[d.pca],
                PcaVars[d.pcaVar], Scalers[d.scaler])
  }

  /** Every configuration of the option sets is sampled by some draw. */
  lemma SampleCovers(c: OcsvmConfig)
    requires InOptions(c)
    ensures exists d :: ValidDraw(d) && SampleConfig(d) == c
  {
    var d := CoverDraw(c);
    assert ValidDraw(d) && SampleConfig(d) == c;
  }

  /** The draw picking each option of `c` by its position. */
  lemma CoverDraw(c: OcsvmConfig) returns (d: Draw)
    requires InOptions(c)
    ensures ValidDraw(d) && SampleConfig(d) == c
  {
    var u := NuDraw(c.nu);
    var ic :| 0 <= ic < |Contaminations| && Contaminations[ic] == c.contamination;
    var ik :| 0 <= ik < |Kernels| && Kernels[ik] == c.kernel;
    var ig :| 0 <= ig < |Gammas| && Gammas[ig] == c.gamma;
    var id :| 0 <= id < |Degrees| && Degrees[id] == c.degree;
    var i0 :| 0 <= i0 < |Coef0s| && Coef0s[i0] == c.coef0;
    var ip :| 0 <= ip < |PcaSwitch| && PcaSwitch[ip] == c.usePca;
    var iv :| 0 <= iv < |PcaVars| && PcaVars[iv] == c.pcaVar;
    var iS :| 0 <= iS < |Scalers| && Scalers[iS] == c.scaler;
    d := Draw(ic, u, ik, ig, id, i0, ip, iv, iS);
  }

  /** The `random()` value that `uniform(0.01, 0.10)` turns into `nu`. */
  lemma NuDraw(nu: real) returns (u: real)
    requires 0.01 <= nu < 0.10
    ensures 0.0 <= u < 1.0 && 0.01 + (0.10 - 0.01) * u == nu
  {
    u := (nu - 0.01) / 0.09;
  }

  // ---------------- NaN-ignoring aggregation ----------------

  /** A per-seed metric: `None` is NaN. The baseline's metrics are finite or NaN. */
  type Sample = Option<real>

  /** The values that are not NaN, in order. */
  function Defined(xs: seq<Sample>): (ds: seq<real>)
    ensures |ds| <= |xs|
    ensures forall v :: v in ds <==> Some(v) in xs
  {
    if xs == [] then []
    else
      var rest := Defined(xs[1..]);
      assert forall v :: Some(v) in xs <==> Some(v) == xs[0] || Some(v) in xs[1..];
      if xs[0].Some? then [xs[0].value] + rest else rest
  }

  function Sum(ds: seq<real>): real {
    if ds == [] then 0.0 else ds[0] + Sum(ds[1..])
  }

  /** `np.nanmean`: the mean of the values that are not NaN; NaN when there are none. */
  function NanMean(xs: seq<Sample>): (m: Sample)
    ensures m.None? <==> forall i :: 0 <= i < |xs| ==> xs[i].None?
  {
    var ds := Defined(xs);
    if ds == [] then None
    else
      assert Some(ds[0]) in xs;
      Some(Sum(ds) / |ds| as real)
  }

  function SquaredDeviations(ds: seq<real>, mu: real): (r: seq<real>)
    ensures |r| == |ds| && forall i :: 0 <= i < |ds| ==> r[i] == (ds[i] - mu) * (ds[i] - mu)
  {
    seq(|ds|, i requires 0 <= i < |ds| => (ds[i] - mu) * (ds[i] - mu))
  }

  /** `np.nanstd` squared: the population variance of the values that are not NaN; NaN when there are none. */
  function NanVar(xs: seq<Sample>): Sample {
    var ds := Defined(xs);
    if ds == [] then None
    else
      var mu := Sum(ds) / |ds| as real;
      Some(Sum(SquaredDeviations(ds, mu)) / |ds| as real)
  }

  lemma {:induction false} SumBounds(ds: seq<real>, lo: real, hi: real)
    requires forall i :: 0 <= i < |ds| ==> lo <= ds[i] <= hi
    ensures lo * |ds| as real <= Sum(ds) <= hi * |ds| as real
  {
    if ds != [] {
      SumBounds(ds[1..], lo, hi);
    }
  }

  lemma {:induction false} DefinedAppend(xs: seq<Sample>, ys: seq<Sample>)
    ensures Defined(xs + ys) == Defined(xs) + Defined(ys)
  {
    if xs != [] {
      assert (xs + ys)[1..] == xs[1..] + ys;
      DefinedAppend(xs[1..], ys);
    } else {
      assert xs + ys == ys;
    }
  }

  /** A NaN run changes neither the mean nor the variance. */
  lemma NanIgnored(xs: seq<Sample>)
    ensures NanMean(xs + [None]) == NanMean(xs) && NanVar(xs + [None]) == NanVar(xs)
  {
    DefinedAppend(xs, [None]);
    assert Defined([None]) == [];
    assert Defined(xs) + [] == Defined(xs);
  }

  /** The mean lies between the smallest and the largest value that is not NaN. */
  lemma NanMeanBounds(xs: seq<Sample>, lo: real, hi: real)
    requires forall i :: 0 <= i < |xs| && xs[i].Some? ==> lo <= xs[i].value <= hi
    ensures NanMean(xs).Some? ==> lo <= NanMean(xs).value <= hi
  {
    var ds := Defined(xs);
    if ds != [] {
      forall i | 0 <= i < |ds| ensures lo <= ds[i] <= hi {
        assert ds[i] in ds;
        var j :| 0 <= j < |xs| && xs[j] == Some(ds[i]);
      }
      SumBounds(ds, lo, hi);
      DivBounds(Sum(ds), |ds| as real, lo, hi);
    }
  }

  lemma DivBounds(total: real, n: real, lo: real, hi: real)
    requires n > 0.0 && lo * n <= total <= hi * n
    ensures lo <= total / n <= hi
  {
    assert total / n * n == total;
  }

  lemma {:induction false} SumNonNegative(ds: seq<real>)
    requires forall i :: 0 <= i < |ds| ==> ds[i] >= 0.0
    ensures Sum(ds) >= 0.0
  {
    if ds != [] {
      SumNonNegative(ds[1..]);
    }
  }

  /** The variance is never negative. */
  lemma NanVarNonNegative(xs: seq<Sample>)
    ensures NanVar(xs).Some? ==> NanVar(xs).value >= 0.0
  {
    var ds := Defined(xs);
    if ds != [] {
      var n := |ds| as real;
      var mu := Sum(ds) / n;
      var sq := SquaredDeviations(ds, mu);
      forall i | 0 <= i < |sq| ensures sq[i] >= 0.0 {
        SquareNonNegative(ds[i] - mu);
      }
      SumNonNegative(sq);
      assert NanVar(xs) == Some(Sum(sq) / n);
      QuotientNonNegative(Sum(sq), n);
    }
  }

  lemma SquareNonNegative(e: real)
    ensures e * e >= 0.0
  {
  }

  lemma QuotientNonNegative(a: real, n: real)
    requires a >= 0.0 && n > 0.0
    ensures a / n >= 0.0
  {
  }

  // ---------------- the tuning loop ----------------

  /** What one baseline run reported. */
  datatype Metrics = Metrics(sil: Sample, dunn: Sample, dbi: Sample)

  /** The mean and variance of one metric over the seeds. */
  datatype Stats = Stats(mu: Sample, variance: Sample)

  datatype OcsvmRow = OcsvmRow(iter: nat, score: real, sil: Stats, dunn: Stats, dbi: Stats, cfg: OcsvmConfig)

  function AsMetric(x: Sample): Metric {
    if x.Some? then Some(Fin(x.value)) else None
  }

  function StatsOf(xs: seq<Sample>): Stats {
    Stats(NanMean(xs), NanVar(xs))
  }

  function Sils(ms: seq<Metrics>): seq<Sample> { seq(|ms|, i requires 0 <= i < |ms| => ms[i].sil) }
  function Dunns(ms: seq<Metrics>): seq<Sample> { seq(|ms|, i requires 0 <= i < |ms| => ms[i].dunn) }
  function Dbis(ms: seq<Metrics>): seq<Sample> { seq(|ms|, i requires 0 <= i < |ms| => ms[i].dbi) }

  /** The runs of one configuration, one per seed in order. */
  function Runs(cfg: OcsvmConfig, seeds: seq<int>, run: (OcsvmConfig, int) -> Metrics): (ms: seq<Metrics>)
    ensures |ms| == |seeds| && forall j :: 0 <= j < |seeds| ==> ms[j] == run(cfg, seeds[j])
  {
    seq(|seeds|, j requires 0 <= j < |seeds| => run(cfg, seeds[j]))
  }

  /** The row of iteration `iter`: the per-seed statistics and the score of the three means. */
  function RowFor(iter: nat, cfg: OcsvmConfig, ms: seq<Metrics>): OcsvmRow {
    var sil := StatsOf(Sils(ms));
    var dunn := StatsOf(Dunns(ms));
    var dbi := StatsOf(Dbis(ms));
    OcsvmRow(iter, OcsvmScore(AsMetric(sil.mu), AsMetric(dunn.mu), AsMetric(dbi.mu)), sil, dunn, dbi, cfg)
  }

  /** The rows of the loop, before sorting. */
  function TuneRows(draws: seq<Draw>, seeds: seq<int>, run: (OcsvmConfig, int) -> Metrics): (rows: seq<OcsvmRow>)
    requires forall i :: 0 <= i < |draws| ==> ValidDraw(draws[i])
    ensures |rows| == |draws|
  {
    seq(|draws|, i requires 0 <= i < |draws| =>
      RowFor(i + 1, SampleConfig(draws[i]), Runs(SampleConfig(draws[i]), seeds, run)))
  }

  function NegScore(r: OcsvmRow): real {
    -r.score
  }

  /** The inner loop of `tune`: one run per seed, each metric collected in seed order. */
  method RunSeeds(cfg: OcsvmConfig, seeds: seq<int>, run: (OcsvmConfig, int) -> Metrics)
    returns (sils: seq<Sample>, duns: seq<Sample>, dbis: seq<Sample>)
    ensures sils == Sils(Runs(cfg, seeds, run))
    ensures duns == Dunns(Runs(cfg, seeds, run))
    ensures dbis == Dbis(Runs(cfg, seeds, run))
  {
    sils, duns, dbis := [], [], [];
    var j := 0;
    while j < |seeds|
      invariant 0 <= j <= |seeds|
      invariant sils == Sils(Runs(cfg, seeds[..j], run))
      invariant duns == Dunns(Runs(cfg, seeds[..j], run))
      invariant dbis == Dbis(Runs(cfg, seeds[..j], run))
    {
      var m := run(cfg, seeds[j]);
      sils := sils + [m.sil];
      duns := duns + [m.dunn];
      dbis := dbis + [m.dbi];
      j := j + 1;
      assert seeds[..j] == seeds[..j - 1] + [seeds[j - 1]];
    }
    assert seeds[..j] == seeds;
  }

  /**
   * `tune`: the rows sorted by descending score, and the top one. With no
   * iteration `df.iloc[0]` raises; that is `None` here.
   */
  method Tune(draws: seq<Draw>, seeds: seq<int>, run: (OcsvmConfig, int) -> Metrics)
    returns (df: seq<OcsvmRow>, best: Option<OcsvmRow>)
    requires forall i :: 0 <= i < |draws| ==> ValidDraw(draws[i])
    ensures df == SortBy(TuneRows(draws, seeds, run), NegScore)
    ensures best == if df == [] then None else Some(df[0])
  {
    var rows: seq<OcsvmRow> := [];
    var i := 0;
    ghost var all := TuneRows(draws, seeds, run);
    while i < |draws|
      invariant 0 <= i <= |draws|
      invariant rows == all[..i]
    {
      var cfg := SampleConfig(draws[i]);
      var sils, duns, dbis := RunSeeds(cfg, seeds, run);
      var sil := StatsOf(sils);
      var dunn := StatsOf(duns);
      var dbi := StatsOf(dbis);
      var score := OcsvmScore(AsMetric(sil.mu), AsMetric(dunn.mu), AsMetric(dbi.mu));
      TakeSnoc(all, i);
      rows := rows + [OcsvmRow(i + 1, score, sil, dunn, dbi, cfg)];
      i := i + 1;
    }
    assert all[..i] == all;
    df := SortBy(rows, NegScore);
    best := if df == [] then None else Some(df[0]);
  }

  /**
   * There is one row per iteration, numbered from 1, each for the sampled
   * configuration of that iteration, run once per seed, and scored from
   * its NaN-ignoring means.
   */
  lemma TuneRowsMeaning(draws: seq<Draw>, seeds: seq<int>, run: (OcsvmConfig, int) -> Metrics, i: nat)
    requires forall k :: 0 <= k < |draws| ==> ValidDraw(draws[k])
    requires i < |draws|
    ensures var r := TuneRows(draws, seeds, run)[i];
      var ms := Runs(r.cfg, seeds, run);
      r.iter == i + 1 && r.cfg == SampleConfig(draws[i]) && InOptions(r.cfg) &&
      r.sil.mu == NanMean(seq(|seeds|, j requires 0 <= j < |seeds| => run(r.cfg, seeds[j]).sil)) &&
      r.score == OcsvmScore(AsMetric(r.sil.mu), AsMetric(r.dunn.mu), AsMetric(r.dbi.mu))
  {
    var r := TuneRows(draws, seeds, run)[i];
    var ms := Runs(r.cfg, seeds, run);
    assert Sils(ms) == seq(|seeds|, j requires 0 <= j < |seeds| => run(r.cfg, seeds[j]).sil);
  }

  /** The best is a row of the loop, none scores more, and it is missing only when there was no iteration. */
  lemma BestIsTop(draws: seq<Draw>, seeds: seq<int>, run: (OcsvmConfig, int) -> Metrics)
    requires forall k :: 0 <= k < |draws| ==> ValidDraw(draws[k])
    ensures var rows := TuneRows(draws, seeds, run);
      var df := SortBy(rows, NegScore);
      (df == [] <==> draws == []) &&
      (df != [] ==> df[0] in rows && forall k :: 0 <= k < |rows| ==> rows[k].score <= df[0].score)
  {
    var rows := TuneRows(draws, seeds, run);
    var df := SortBy(rows, NegScore);
    if df != [] {
      SortByMembers(rows, NegScore, df[0]);
      forall k | 0 <= k < |rows| ensures rows[k].score <= df[0].score {
        SortByMembers(rows, NegScore, rows[k]);
        var p :| 0 <= p < |df| && df[p] == rows[k];
        if p > 0 {
          assert NegScore(df[0]) <= NegScore(df[p]);
        }
      }
    }
  }
}
