/**
 * The composite tuning score shared by the anomaly-pipeline tuners, and the
 * three-metric score of the one-class SVM tuner. An undefined metric (absent,
 * null, NaN or infinite) contributes 0.
 */
module TunerScore {
  import opened Wrappers
  import opened Numeric

  /** A metric as read from a run or a stability document: `None` is an absent key or a JSON null. */
  type Metric = Option<Float>

  /** The stability document: section name to metric name to value. */
  type Stability = map<string, map<string, Metric>>

  /** `stab.get(section, {}).get(key)`. */
  function Lookup(stab: Stability, section: string, key: string): (m: Metric)
    ensures section !in stab ==> m.None?
    ensures section in stab && key in stab[section] ==> m == stab[section][key]
  {
    if section in stab && key in stab[section] then stab[section][key] else None
  }

  /** `nz(x)`: the value when it is a finite number, else 0. */
  function Nz(x: Metric): (r: real)
    ensures x.Some? && x.value.Fin? ==> r == x.value.r
    ensures !(x.Some? && x.value.Fin?) ==> r == 0.0
  {
    if x.Some? && x.value.Fin? then x.value.r else 0.0
  }

  /** The ten weighted terms, in the order of the score's formula. */
  function Terms(sil: Metric, dunn: Metric, dbi: Metric, stab: Stability): (ts: seq<Metric>)
    ensures |ts| == 10
  {
    [sil, dunn, dbi,
     Lookup(stab, "bootstrap", "spearman_rho_mean"),
     Lookup(stab, "bootstrap", "jaccard_at_k_mean"),
     Lookup(stab, "seed_sensitivity", "spearman_rho_mean"),
     Lookup(stab, "noise_robustness", "spearman_rho_mean"),
     Lookup(stab, "bootstrap", "silhouette_std"),
     Lookup(stab, "bootstrap", "dunn_std"),
     Lookup(stab, "bootstrap", "dbi_std")]
  }

  /** The signed weight of each term: rewards are positive, the dispersion penalties and DBI negative. */
  const Weights: seq<real> := [0.50, 0.40, -0.10, 0.20, 0.15, 0.10, 0.10, -0.10, -0.10, -0.05]

  /** `composite_score(sil, dunn, dbi, stab)`. */
  function CompositeScore(sil: Metric, dunn: Metric, dbi: Metric, stab: Stability): real {
    var rho := Nz(Lookup(stab, "bootstrap", "spearman_rho_mean"));
    var jac := Nz(Lookup(stab, "bootstrap", "jaccard_at_k_mean"));
    var silStd := Nz(Lookup(stab, "bootstrap", "silhouette_std"));
    var dunnStd := Nz(Lookup(stab, "bootstrap", "dunn_std"));
    var dbiStd := Nz(Lookup(stab, "bootstrap", "dbi_std"));
    var rhoSeed := Nz(Lookup(stab, "seed_sensitivity", "spearman_rho_mean"));
    var rhoNoise := Nz(Lookup(stab, "noise_robustness", "spearman_rho_mean"));
    0.50 * Nz(sil) + 0.40 * Nz(dunn) - 0.10 * Nz(dbi) +
    0.20 * rho + 0.15 * jac + 0.10 * rhoSeed + 0.10 * rhoNoise -
    0.10 * silStd - 0.10 * dunnStd - 0.05 * dbiStd
  }

  /** The weighted sum of the neutralised terms from position `k` on. */
  function WeightedFrom(ws: seq<real>, ts: seq<Metric>, k: nat): real
    requires |ws| == |ts| && k <= |ts|
    decreases |ts| - k
  {
    if k == |ts| then 0.0 else ws[k] * Nz(ts[k]) + WeightedFrom(ws, ts, k + 1)
  }

  /** The score is the weighted sum of its ten neutralised terms. */
  lemma CompositeIsWeightedSum(sil: Metric, dunn: Metric, dbi: Metric, stab: Stability)
    ensures CompositeScore(sil, dunn, dbi, stab) == WeightedFrom(Weights, Terms(sil, dunn, dbi, stab), 0)
  {
    var ts := Terms(sil, dunn, dbi, stab);
    assert WeightedFrom(Weights, ts, 10) == 0.0;
    assert WeightedFrom(Weights, ts, 9) == -0.05 * Nz(ts[9]);
    assert WeightedFrom(Weights, ts, 8) == -0.10 * Nz(ts[8]) + WeightedFrom(Weights, ts, 9);
    assert WeightedFrom(Weights, ts, 7) == -0.10 * Nz(ts[7]) + WeightedFrom(Weights, ts, 8);
    assert WeightedFrom(Weights, ts, 6) == 0.10 * Nz(ts[6]) + WeightedFrom(Weights, ts, 7);
    assert WeightedFrom(Weights, ts, 5) == 0.10 * Nz(ts[5]) + WeightedFrom(Weights, ts, 6);
    assert WeightedFrom(Weights, ts, 4) == 0.15 * Nz(ts[4]) + WeightedFrom(Weights, ts, 5);
    assert WeightedFrom(Weights, ts, 3) == 0.20 * Nz(ts[3]) + WeightedFrom(Weights, ts, 4);
    assert WeightedFrom(Weights, ts, 2) == -0.10 * Nz(ts[2]) + WeightedFrom(Weights, ts, 3);
    assert WeightedFrom(Weights, ts, 1) == 0.40 * Nz(ts[1]) + WeightedFrom(Weights, ts, 2);
  }

  /** With no usable metric at all the score is 0. */
  lemma UndefinedScoresZero(sil: Metric, dunn: Metric, dbi: Metric)
    requires !(sil.Some? && sil.value.Fin?) && !(dunn.Some? && dunn.value.Fin?) && !(dbi.Some? && dbi.value.Fin?)
    ensures CompositeScore(sil, dunn, dbi, map[]) == 0.0
  {
  }

  /** A better silhouette never lowers the score, all else equal. */
  lemma ScoreMonotoneInSilhouette(a: real, b: real, dunn: Metric, dbi: Metric, stab: Stability)
    requires a <= b
    ensures CompositeScore(Some(Fin(a)), dunn, dbi, stab) <= CompositeScore(Some(Fin(b)), dunn, dbi, stab)
  {
  }

  /** `composite_score(sil, dunn, dbi)` of the one-class SVM tuner. */
  function OcsvmScore(sil: Metric, dunn: Metric, dbi: Metric): (s: real)
    ensures !(sil.Some? && sil.value.Fin?) && !(dunn.Some? && dunn.value.Fin?) && !(dbi.Some? && dbi.value.Fin?) ==> s == 0.0
  {
    0.7 * Nz(sil) + 0.25 * Nz(dunn) - 0.15 * Nz(dbi)
  }

  /** The one-class SVM score is the same weighted sum over its three terms. */
  lemma OcsvmIsWeightedSum(sil: Metric, dunn: Metric, dbi: Metric)
    ensures OcsvmScore(sil, dunn, dbi) == WeightedFrom([0.7, 0.25, -0.15], [sil, dunn, dbi], 0)
  {
    var ts := [sil, dunn, dbi];
    assert WeightedFrom([0.7, 0.25, -0.15], ts, 3) == 0.0;
    assert WeightedFrom([0.7, 0.25, -0.15], ts, 2) == -0.15 * Nz(dbi);
  }

  /** The score a worker or trial that raised is recorded with. */
  const FailedScore: real := -1000000000.0
}
