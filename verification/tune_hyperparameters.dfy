/**
 * The successive-halving tuner: candidates snapped from quasi-random points
 * onto the option lists, cleaned of meaningless variations and
 * de-duplicated, padded with random draws up to the stage-1 count, then
 * three stages of decreasing width, each keeping the top third of the
 * previous one. The points, the draws, the row sampler and the trials are
 * parameters.
 */
module AshaTuner {
  import opened Wrappers
  import opened Numeric
  import opened Sorting
  import opened Grid
  import opened Trials

  /** `SPACE`, in its key order. */
  const Space: Grid := Grid(
    ["contamination", "use_pca", "use_fa", "lof_neighbors", "if_estimators", "if_max_features",
     "use_ae", "use_ocsvm", "use_copula", "use_hdbscan", "hdb_min_cluster"],
    [[0.02, 0.03, 0.04, 0.05, 0.07], [1.0, 0.0], [0.0, 1.0], [10.0, 20.0, 30.0, 50.0],
     [100.0, 200.0, 300.0, 400.0], [0.6, 0.8, 1.0], [1.0, 0.0], [1.0, 0.0], [0.0, 1.0],
     [0.0, 1.0], [5.0, 10.0, 20.0, 30.0]])

  /** `SPACE["hdb_min_cluster"][0]`. */
  const HdbFirst: real := 5.0

  /** `N1`, `KEEP_FRAC` and `BASE_AE_EPOCHS`. */
  const N1: nat := 60
  const KeepFrac: real := 0.33
  const BaseAeEpochs: int := 60

  // ---------------- snapping ----------------

  /** `snap(u, options)`: the option of the cell `u` falls in, the last one for `u` at or beyond 1. */
  function Snap(u: real, options: seq<real>): (r: real)
    requires 0.0 <= u && options != []
    ensures r in options
  {
    var i := Trunc(u * |options| as real);
    options[if i < |options| - 1 then i else |options| - 1]
  }

  /** The midpoint of the `i`-th of `|options|` equal cells of [0, 1) snaps to option `i`. */
  lemma SnapCell(options: seq<real>, i: nat)
    requires i < |options|
    ensures Snap((i as real + 0.5) / |options| as real, options) == options[i]
  {
    var n := |options| as real;
    var x := i as real + 0.5;
    var u := x / n;
    QuotientTimes(x, n);
    TruncHalf(i);
    SnapAt(u, options, i);
  }

  lemma SnapAt(u: real, options: seq<real>, k: nat)
    requires 0.0 <= u && k < |options| && Trunc(u * |options| as real) == k
    ensures Snap(u, options) == options[k]
  {
  }

  lemma QuotientTimes(a: real, n: real)
    requires a >= 0.0 && n > 0.0
    ensures a / n * n == a && a / n >= 0.0
  {
  }

  lemma TruncHalf(i: nat)
    ensures Trunc(i as real + 0.5) == i
  {
    var k := Trunc(i as real + 0.5);
    assert k as real <= i as real + 0.5 < k as real + 1.0;
  }

  // ---------------- cleanup ----------------

  /** The conditional cleanup: PCA excludes FA, and without HDBSCAN its cluster size is the first option. */
  function Cleanup(c: Config, hdbFirst: real): (r: Config)
    requires "use_pca" in c && "use_hdbscan" in c
    ensures r.Keys == c.Keys + (if c["use_pca"] == 1.0 then {"use_fa"} else {}) + (if c["use_hdbscan"] == 0.0 then {"hdb_min_cluster"} else {})
    ensures Cleaned(r, hdbFirst)
    ensures forall k :: k in c && k != "use_fa" && k != "hdb_min_cluster" ==> r[k] == c[k]
  {
    var c1 := if c["use_pca"] == 1.0 then c["use_fa" := 0.0] else c;
    if c1["use_hdbscan"] == 0.0 then c1["hdb_min_cluster" := hdbFirst] else c1
  }

  /** A candidate without meaningless variations. */
  predicate Cleaned(c: Config, hdbFirst: real) {
    && ("use_pca" in c && c["use_pca"] == 1.0 ==> "use_fa" in c && c["use_fa"] == 0.0)
    && ("use_hdbscan" in c && c["use_hdbscan"] == 0.0 ==> "hdb_min_cluster" in c && c["hdb_min_cluster"] == hdbFirst)
  }

  /** The names `discrete_sample_sobol` reads after building a candidate. */
  predicate HasSwitches(g: Grid) {
    "use_pca" in g.keys && "use_hdbscan" in g.keys
  }

  /** Each key takes one of its options, except the two values the cleanup writes. */
  predicate InSpace(c: Config, g: Grid, hdbFirst: real)
    requires WellFormed(g)
  {
    forall j :: 0 <= j < |g.keys| ==>
      g.keys[j] in c &&
      (c[g.keys[j]] in g.options[j] ||
       (g.keys[j] == "use_fa" && c[g.keys[j]] == 0.0) ||
       (g.keys[j] == "hdb_min_cluster" && c[g.keys[j]] == hdbFirst))
  }

  // ---------------- discrete_sample_sobol ----------------

  /** A quasi-random point in [0, 1) per name. */
  predicate PointFor(g: Grid, p: seq<real>) {
    |p| == |g.keys| && forall j :: 0 <= j < |p| ==> 0.0 <= p[j]
  }

  predicate Options(g: Grid) {
    WellFormed(g) && forall j :: 0 <= j < |g.options| ==> g.options[j] != []
  }

  /** The snapped and cleaned candidate of one point. */
  function SobolCandidate(g: Grid, p: seq<real>, hdbFirst: real): Config
    requires Options(g) && HasSwitches(g) && PointFor(g, p)
  {
    Cleanup(Zip(g.keys, Snapped(g, p)), hdbFirst)
  }

  /** Each coordinate snapped onto its name's options. */
  function Snapped(g: Grid, p: seq<real>): (r: seq<real>)
    requires Options(g) && PointFor(g, p)
    ensures |r| == |g.keys| && forall j :: 0 <= j < |r| ==> r[j] == Snap(p[j], g.options[j])
  {
    seq(|g.keys|, j requires 0 <= j < |g.keys| => Snap(p[j], g.options[j]))
  }

  /** The first occurrence of each candidate, in order. */
  function Dedup(xs: seq<Config>): seq<Config>
    decreases |xs|
  {
    if xs == [] then []
    else
      var d := Dedup(xs[..|xs| - 1]);
      if xs[|xs| - 1] in d then d else d + [xs[|xs| - 1]]
  }

  lemma DedupSnoc(xs: seq<Config>, x: Config)
    ensures Dedup(xs + [x]) == if x in Dedup(xs) then Dedup(xs) else Dedup(xs) + [x]
  {
    assert (xs + [x])[..|xs|] == xs;
  }

  /** De-duplication keeps every candidate once and adds nothing. */
  lemma {:induction false} DedupProps(xs: seq<Config>)
    ensures Distinct(Dedup(xs))
    ensures |Dedup(xs)| <= |xs|
    ensures forall x :: x in Dedup(xs) <==> x in xs
  {
    if xs != [] {
      var front := xs[..|xs| - 1];
      DedupProps(front);
      assert xs == front + [xs[|xs| - 1]];
    }
  }

  /** The candidates of the first `n` points (fewer when fewer were drawn). */
  function SobolCandidates(g: Grid, n: nat, points: seq<seq<real>>, hdbFirst: real): (cs: seq<Config>)
    requires Options(g) && HasSwitches(g) && forall i :: 0 <= i < |points| ==> PointFor(g, points[i])
    ensures |cs| <= n
  {
    var m := if |points| < n then |points| else n;
    seq(m, i requires 0 <= i < m => SobolCandidate(g, points[i], hdbFirst))
  }

  /** The body of the sampling loop for one point: snap each coordinate, then clean up. */
  method SnapPoint(g: Grid, p: seq<real>, hdbFirst: real) returns (cand: Config)
    requires Options(g) && HasSwitches(g) && PointFor(g, p)
    ensures cand == SobolCandidate(g, p, hdbFirst)
  {
    var z := Zip(g.keys, Snapped(g, p));
    cand := z;
    if cand["use_pca"] == 1.0 {
      cand := cand["use_fa" := 0.0];
    }
    if cand["use_hdbscan"] == 0.0 {
      cand := cand["hdb_min_cluster" := hdbFirst];
    }
    assert cand == Cleanup(z, hdbFirst);
  }

  /** `discrete_sample_sobol(space, n, seed)`, with the sampler's points given. */
  method DiscreteSampleSobol(g: Grid, n: nat, points: seq<seq<real>>, hdbFirst: real) returns (configs: seq<Config>)
    requires Options(g) && HasSwitches(g) && forall i :: 0 <= i < |points| ==> PointFor(g, points[i])
    ensures configs == Dedup(SobolCandidates(g, n, points, hdbFirst))
  {
    var u := if |points| < n then points else points[..n];
    ghost var cs := SobolCandidates(g, n, points, hdbFirst);
    SobolCandidatesAt(g, n, points, hdbFirst, u);
    configs := [];
    var seen: set<Config> := {};
    var i := 0;
    while i < |u|
      invariant 0 <= i <= |u| == |cs|
      invariant configs == Dedup(cs[..i])
      invariant seen == set c | c in configs
    {
      var cand := SnapPoint(g, u[i], hdbFirst);
      DedupStep(cs, i);
      configs, seen := KeepNew(configs, seen, cand);
      i := i + 1;
    }
    assert cs[..i] == cs;
  }

  /** The candidates are those of the first `n` points, in order. */
  lemma SobolCandidatesAt(g: Grid, n: nat, points: seq<seq<real>>, hdbFirst: real, u: seq<seq<real>>)
    requires Options(g) && HasSwitches(g) && forall i :: 0 <= i < |points| ==> PointFor(g, points[i])
    requires u == if |points| < n then points else points[..n]
    ensures |u| == |SobolCandidates(g, n, points, hdbFirst)|
    ensures forall i :: 0 <= i < |u| ==> PointFor(g, u[i]) && SobolCandidates(g, n, points, hdbFirst)[i] == SobolCandidate(g, u[i], hdbFirst)
  {
  }

  /** One more element of the de-duplication. */
  lemma DedupStep(xs: seq<Config>, i: nat)
    requires i < |xs|
    ensures Dedup(xs[..i + 1]) == if xs[i] in Dedup(xs[..i]) then Dedup(xs[..i]) else Dedup(xs[..i]) + [xs[i]]
  {
    assert xs[..i + 1] == xs[..i] + [xs[i]];
    DedupSnoc(xs[..i], xs[i]);
  }

  /** `if cand not in seen: seen.add(cand); configs.append(cand)`. */
  method KeepNew(configs: seq<Config>, seen: set<Config>, cand: Config) returns (configs': seq<Config>, seen': set<Config>)
    requires seen == set c | c in configs
    ensures configs' == if cand in configs then configs else configs + [cand]
    ensures seen' == set c | c in configs'
  {
    if cand in seen {
      assert cand in configs;
      return configs, seen;
    }
    ElementsSnoc(configs, cand);
    configs', seen' := configs + [cand], seen + {cand};
  }

  /**
   * The sampled candidates are pairwise distinct, at most `n`, each one of
   * the snapped points, and cleaned; when the names do not repeat, every
   * value is one of its options or a value the cleanup writes.
   */
  lemma SampledCandidates(g: Grid, n: nat, points: seq<seq<real>>, hdbFirst: real)
    requires Options(g) && HasSwitches(g) && forall i :: 0 <= i < |points| ==> PointFor(g, points[i])
    ensures var cs := Dedup(SobolCandidates(g, n, points, hdbFirst));
      Distinct(cs) && |cs| <= n &&
      (forall c :: c in cs <==> c in SobolCandidates(g, n, points, hdbFirst)) &&
      (forall c :: c in cs ==> Cleaned(c, hdbFirst)) &&
      (Distinct(g.keys) ==> forall c :: c in cs ==> InSpace(c, g, hdbFirst))
  {
    var all := SobolCandidates(g, n, points, hdbFirst);
    DedupProps(all);
    if Distinct(g.keys) {
      forall i | 0 <= i < |all| ensures InSpace(all[i], g, hdbFirst) {
        SnappedInSpace(g, points[i], hdbFirst);
      }
    }
  }

  lemma SnappedInSpace(g: Grid, p: seq<real>, hdbFirst: real)
    requires Options(g) && HasSwitches(g) && PointFor(g, p) && Distinct(g.keys)
    ensures InSpace(SobolCandidate(g, p, hdbFirst), g, hdbFirst)
  {
    var snapped := Snapped(g, p);
    var z := Zip(g.keys, snapped);
    var c := Cleanup(z, hdbFirst);
    forall j | 0 <= j < |g.keys|
      ensures g.keys[j] in c
      ensures c[g.keys[j]] in g.options[j] || (g.keys[j] == "use_fa" && c[g.keys[j]] == 0.0) ||
              (g.keys[j] == "hdb_min_cluster" && c[g.keys[j]] == hdbFirst)
    {
      ZipAt(g.keys, snapped, j);
    }
  }

  // ---------------- padding up to N1 ----------------

  /** A random draw: an option index per name, as `rng.integers(0, len(options))` gives. */
  predicate DrawFor(g: Grid, d: seq<nat>)
    requires WellFormed(g)
  {
    |d| == |g.keys| && forall j :: 0 <= j < |d| ==> d[j] < |g.options[j]|
  }

  ghost predicate Draws(g: Grid, draws: seq<seq<nat>>)
    requires WellFormed(g)
  {
    forall i :: 0 <= i < |draws| ==> DrawFor(g, draws[i])
  }

  /** The option each index picks. */
  function Picked(g: Grid, d: seq<nat>): (r: seq<real>)
    requires WellFormed(g) && DrawFor(g, d)
    ensures |r| == |g.keys| && forall j :: 0 <= j < |r| ==> r[j] == g.options[j][d[j]]
  {
    seq(|g.keys|, j requires 0 <= j < |g.keys| => g.options[j][d[j]])
  }

  /** The cleaned candidate of one draw. */
  function DrawCandidate(g: Grid, d: seq<nat>, hdbFirst: real): Config
    requires WellFormed(g) && HasSwitches(g) && DrawFor(g, d)
  {
    Cleanup(Zip(g.keys, Picked(g, d)), hdbFirst)
  }

  /** The candidates of the draws from position `i` on. */
  function Drawn(g: Grid, draws: seq<seq<nat>>, hdbFirst: real): (r: seq<Config>)
    requires WellFormed(g) && HasSwitches(g) && Draws(g, draws)
    ensures |r| == |draws| && forall i :: 0 <= i < |draws| ==> r[i] == DrawCandidate(g, draws[i], hdbFirst)
  {
    seq(|draws|, i requires 0 <= i < |draws| => DrawCandidate(g, draws[i], hdbFirst))
  }

  /** The padding loop over the drawn candidates from position `i` on, with `needed` candidates still missing. */
  function PadFrom<T(==)>(cur: seq<T>, needed: int, drawn: seq<T>, i: nat): seq<T>
    requires i <= |drawn|
    decreases |drawn| - i
  {
    if needed <= 0 || i == |drawn| then cur
    else if drawn[i] in cur then PadFrom(cur, needed, drawn, i + 1)
    else PadFrom(cur + [drawn[i]], needed - 1, drawn, i + 1)
  }

  /** The candidates after padding: unchanged when there are already `target` of them. */
  function Padded(g: Grid, hdbFirst: real, cands: seq<Config>, target: nat, draws: seq<seq<nat>>): seq<Config>
    requires WellFormed(g) && HasSwitches(g) && Draws(g, draws)
  {
    if |cands| < target then PadFrom(cands, target - |cands|, Drawn(g, draws, hdbFirst), 0) else cands
  }

  /** The body of the padding loop for one draw. */
  method DrawPoint(g: Grid, d: seq<nat>, hdbFirst: real) returns (cand: Config)
    requires WellFormed(g) && HasSwitches(g) && DrawFor(g, d)
    ensures cand == DrawCandidate(g, d, hdbFirst)
  {
    var z := Zip(g.keys, Picked(g, d));
    cand := z;
    if cand["use_pca"] == 1.0 {
      cand := cand["use_fa" := 0.0];
    }
    if cand["use_hdbscan"] == 0.0 {
      cand := cand["hdb_min_cluster" := hdbFirst];
    }
    assert cand == Cleanup(z, hdbFirst);
  }

  /**
   * The padding of `main`: while candidates are missing, draw one, clean it
   * up and keep it when it is new. The generator's draws are a finite
   * sequence here, so the loop also ends when they run out.
   */
  method PadCandidates(g: Grid, hdbFirst: real, candidates: seq<Config>, target: nat, draws: seq<seq<nat>>)
    returns (out: seq<Config>)
    requires WellFormed(g) && HasSwitches(g) && Draws(g, draws)
    ensures out == Padded(g, hdbFirst, candidates, target, draws)
  {
    out := candidates;
    if |out| < target {
      ghost var drawn := Drawn(g, draws, hdbFirst);
      var needed := target - |out|;
      var existing := set c | c in candidates;
      var i := 0;
      while needed > 0 && i < |draws|
        invariant 0 <= i <= |draws| == |drawn|
        invariant PadFrom(out, needed, drawn, i) == Padded(g, hdbFirst, candidates, target, draws)
        invariant existing == set c | c in out
        decreases |draws| - i
      {
        out, existing, needed := PadOne(g, hdbFirst, out, existing, needed, draws, i, drawn);
        i := i + 1;
      }
    }
  }

  /** One round of the padding loop: draw `i`'s candidate is kept when it is new. */
  method PadOne(g: Grid, hdbFirst: real, cur: seq<Config>, existing: set<Config>, needed: int, draws: seq<seq<nat>>, i: nat,
                ghost drawn: seq<Config>)
    returns (next: seq<Config>, nextExisting: set<Config>, nextNeeded: int)
    requires WellFormed(g) && HasSwitches(g) && Draws(g, draws) && drawn == Drawn(g, draws, hdbFirst)
    requires i < |draws| && needed > 0 && existing == set c | c in cur
    ensures nextExisting == set c | c in next
    ensures PadFrom(next, nextNeeded, drawn, i + 1) == PadFrom(cur, needed, drawn, i)
  {
    var cand := DrawPoint(g, draws[i], hdbFirst);
    assert cand == drawn[i];
    next, nextExisting, nextNeeded := KeepDrawn(cur, existing, needed, cand);
    PadFromKeep(cur, needed, drawn, i, next, nextNeeded);
  }

  /** A round that keeps the drawn candidate exactly when it is new moves the padding on by one position. */
  lemma PadFromKeep<T>(cur: seq<T>, needed: int, drawn: seq<T>, i: nat, next: seq<T>, nextNeeded: int)
    requires i < |drawn| && needed > 0
    requires drawn[i] in cur ==> next == cur && nextNeeded == needed
    requires drawn[i] !in cur ==> next == cur + [drawn[i]] && nextNeeded == needed - 1
    ensures PadFrom(next, nextNeeded, drawn, i + 1) == PadFrom(cur, needed, drawn, i)
  {
    PadFromStep(cur, needed, drawn, i);
  }

  /** `if cand not in existing`: keep the candidate and count it. */
  method KeepDrawn(cur: seq<Config>, existing: set<Config>, needed: int, cand: Config)
    returns (next: seq<Config>, nextExisting: set<Config>, nextNeeded: int)
    requires existing == set c | c in cur
    ensures nextExisting == set c | c in next
    ensures cand in cur ==> next == cur && nextNeeded == needed
    ensures cand !in cur ==> next == cur + [cand] && nextNeeded == needed - 1
  {
    if cand in existing {
      assert cand in cur;
      return cur, existing, needed;
    }
    ElementsSnoc(cur, cand);
    next, nextExisting, nextNeeded := cur + [cand], existing + {cand}, needed - 1;
  }

  /** One round of the padding loop. */
  lemma PadFromStep<T>(cur: seq<T>, needed: int, drawn: seq<T>, i: nat)
    requires i < |drawn| && needed > 0
    ensures PadFrom(cur, needed, drawn, i) ==
      if drawn[i] in cur then PadFrom(cur, needed, drawn, i + 1) else PadFrom(cur + [drawn[i]], needed - 1, drawn, i + 1)
  {
  }

  lemma PadFromProps<T>(cur: seq<T>, needed: int, drawn: seq<T>, i: nat)
    requires i <= |drawn| && Distinct(cur)
    ensures var r := PadFrom(cur, needed, drawn, i);
      Distinct(r) && |cur| <= |r| && r[..|cur|] == cur &&
      (needed > 0 ==> |r| <= |cur| + needed) && (needed <= 0 ==> r == cur) &&
      (forall x :: x in r ==> x in cur || x in drawn[i..]) &&
      (|r| < |cur| + needed ==> forall j :: i <= j < |drawn| ==> drawn[j] in r)
  {
    PadFromShape(cur, needed, drawn, i);
    PadFromSources(cur, needed, drawn, i);
    PadFromCovers(cur, needed, drawn, i);
  }

  /** Padding keeps the candidates first, adds at most `needed`, and repeats none. */
  lemma {:induction false} PadFromShape<T>(cur: seq<T>, needed: int, drawn: seq<T>, i: nat)
    requires i <= |drawn| && Distinct(cur)
    ensures var r := PadFrom(cur, needed, drawn, i);
      Distinct(r) && |cur| <= |r| && r[..|cur|] == cur &&
      (needed > 0 ==> |r| <= |cur| + needed) && (needed <= 0 ==> r == cur)
    decreases |drawn| - i
  {
    if needed > 0 && i < |drawn| {
      var c := drawn[i];
      if c in cur {
        PadFromShape(cur, needed, drawn, i + 1);
      } else {
        var cur' := cur + [c];
        DistinctSnoc(cur, c);
        PadFromShape(cur', needed - 1, drawn, i + 1);
        var r := PadFrom(cur', needed - 1, drawn, i + 1);
        assert r[..|cur|] == r[..|cur'|][..|cur|];
      }
    }
  }

  /** Padding adds only drawn candidates from position `i` on. */
  lemma {:induction false} PadFromSources<T>(cur: seq<T>, needed: int, drawn: seq<T>, i: nat)
    requires i <= |drawn|
    ensures forall x :: x in PadFrom(cur, needed, drawn, i) ==> x in cur || x in drawn[i..]
    decreases |drawn| - i
  {
    if needed > 0 && i < |drawn| {
      var c := drawn[i];
      assert drawn[i..] == [c] + drawn[i + 1..];
      if c in cur {
        PadFromSources(cur, needed, drawn, i + 1);
      } else {
        PadFromSources(cur + [c], needed - 1, drawn, i + 1);
      }
    }
  }

  /** Padding that stops short of `needed` has kept every drawn candidate from position `i` on. */
  lemma {:induction false} PadFromCovers<T>(cur: seq<T>, needed: int, drawn: seq<T>, i: nat)
    requires i <= |drawn| && Distinct(cur)
    ensures var r := PadFrom(cur, needed, drawn, i);
      |r| < |cur| + needed ==> forall j :: i <= j < |drawn| ==> drawn[j] in r
    decreases |drawn| - i
  {
    if needed > 0 && i < |drawn| {
      var c := drawn[i];
      var cur' := if c in cur then cur else cur + [c];
      var needed' := if c in cur then needed else needed - 1;
      if c !in cur {
        DistinctSnoc(cur, c);
      }
      PadFromShape(cur', needed', drawn, i + 1);
      PadFromCovers(cur', needed', drawn, i + 1);
      CoversStep(cur, c, needed, PadFrom(cur', needed', drawn, i + 1), drawn, i);
    }
  }

  /** The inductive step of `PadFromCovers`. */
  lemma CoversStep<T>(cur: seq<T>, c: T, needed: int, r: seq<T>, d: seq<T>, i: nat)
    requires i < |d| && d[i] == c
    requires var cur' := if c in cur then cur else cur + [c];
      var needed' := if c in cur then needed else needed - 1;
      |cur'| <= |r| && r[..|cur'|] == cur' &&
      (|r| < |cur'| + needed' ==> forall j :: i + 1 <= j < |d| ==> d[j] in r)
    ensures |r| < |cur| + needed ==> forall j :: i <= j < |d| ==> d[j] in r
  {
    var cur' := if c in cur then cur else cur + [c];
    assert c in cur' by {
      if c !in cur {
        assert cur'[|cur|] == c;
      }
    }
    var k :| 0 <= k < |cur'| && cur'[k] == c;
    assert r[..|cur'|][k] == c;
  }

  /**
   * Padding keeps the candidates first and adds only new drawn ones, so the
   * result has no repetition and at most `target` entries when it pads; and
   * once the draws hold `target` distinct candidates together with the
   * sampled ones, padding ends with exactly `target`.
   */
  lemma PaddingMeaning(g: Grid, hdbFirst: real, cands: seq<Config>, target: nat, draws: seq<seq<nat>>)
    requires WellFormed(g) && HasSwitches(g) && Draws(g, draws) && Distinct(cands)
    ensures var r := Padded(g, hdbFirst, cands, target, draws);
      Distinct(r) && |cands| <= |r| && r[..|cands|] == cands &&
      (|cands| < target ==> |r| <= target) &&
      (|cands| >= target ==> r == cands) &&
      (forall x :: x in r ==> x in cands || x in Drawn(g, draws, hdbFirst)) &&
      (|(set x | x in cands + Drawn(g, draws, hdbFirst))| >= target ==> |r| >= target)
  {
    var r := Padded(g, hdbFirst, cands, target, draws);
    var drawn := Drawn(g, draws, hdbFirst);
    if |cands| < target {
      PadFromProps(cands, target - |cands|, drawn, 0);
      assert drawn[0..] == drawn;
      if |r| < target {
        FewerElements(cands, drawn, r);
      }
    }
  }

  /** A repetition-free sequence that starts with `cands` and holds all of `drawn` has at least as many entries as they have distinct elements. */
  lemma FewerElements(cands: seq<Config>, drawn: seq<Config>, r: seq<Config>)
    requires Distinct(r) && |cands| <= |r| && r[..|cands|] == cands
    requires forall j :: 0 <= j < |drawn| ==> drawn[j] in r
    ensures |(set x | x in cands + drawn)| <= |r|
  {
    assert (set x | x in cands + drawn) <= (set x | x in r) by {
      forall x | x in cands + drawn ensures x in r {
        if x in cands {
          var k :| 0 <= k < |cands| && cands[k] == x;
          assert r[..|cands|][k] == x;
        }
      }
    }
    DistinctSetSize(r);
    SetSizeMonotone(set x | x in cands + drawn, set x | x in r);
  }

  lemma SetSizeMonotone<T>(a: set<T>, b: set<T>)
    requires a <= b
    ensures |a| <= |b|
  {
    assert b == a + (b - a);
  }

  /** A padded candidate is cleaned and, when the names do not repeat, takes its options. */
  lemma DrawInSpace(g: Grid, d: seq<nat>, hdbFirst: real)
    requires WellFormed(g) && HasSwitches(g) && DrawFor(g, d) && Distinct(g.keys)
    ensures Cleaned(DrawCandidate(g, d, hdbFirst), hdbFirst)
    ensures InSpace(DrawCandidate(g, d, hdbFirst), g, hdbFirst)
  {
    var picked := Picked(g, d);
    forall j | 0 <= j < |g.keys| ensures g.keys[j] in Zip(g.keys, picked) && Zip(g.keys, picked)[g.keys[j]] in g.options[j] {
      ZipAt(g.keys, picked, j);
    }
  }

  // ---------------- stages ----------------

  /** `_epochs_for_stage(row_frac)`. */
  function EpochsForStage(frac: real): (e: int)
    ensures e >= 15
  {
    var factor := if frac >= 0.99 then 1.0 else if frac >= 0.7 then 0.75 else 0.5;
    var e := Trunc(BaseAeEpochs as real * factor);
    if e > 15 then e else 15
  }

  /** Full data gets the whole budget of 60 epochs, three quarters of the rows 45, fewer rows 30; more rows never get fewer epochs. */
  lemma EpochsScale(frac: real, other: real)
    ensures EpochsForStage(frac) == (if frac >= 0.99 then 60 else if frac >= 0.7 then 45 else 30)
    ensures frac <= other ==> EpochsForStage(frac) <= EpochsForStage(other)
  {
    assert Trunc(60.0) == 60 && Trunc(45.0) == 45 && Trunc(30.0) == 30;
  }

  /** `subsample_csv`: every row when `frac` is at least 0.999, else the sampler's rows. */
  function Subsample<T>(rows: seq<T>, frac: real, sample: seq<T> -> seq<T>): (r: seq<T>)
    ensures frac >= 0.999 ==> r == rows
    ensures frac < 0.999 ==> r == sample(rows)
  {
    if frac >= 0.999 then rows else sample(rows)
  }

  /** The promotion count: `max(floor, ceil(n * KEEP_FRAC))`. */
  function Keep(n: nat, floor: nat): (k: nat)
    ensures k >= floor && k as real >= n as real * KeepFrac
    ensures k > floor ==> (k - 1) as real < n as real * KeepFrac
  {
    var c := Ceil(n as real * KeepFrac);
    if c > floor as int then c as nat else floor
  }

  /** `df.head(k)[SPACE keys]`: the configurations of the first `k` rows. */
  function Promote(df: seq<Row>, k: nat): (ps: seq<Config>)
    ensures |ps| == (if k < |df| then k else |df|)
    ensures forall i :: 0 <= i < |ps| ==> ps[i] == df[i].params
  {
    var m := if k < |df| then k else |df|;
    seq(m, i requires 0 <= i < m => df[i].params)
  }

  /** The trial of stage `stage`. */
  function StageTrial(trial: (nat, Config) -> TrialOutcome, stage: nat): Config -> TrialOutcome {
    (c: Config) => trial(stage, c)
  }

  /** `stage_run`: one row per configuration, in the pool's order, then sorted by descending score. */
  function StageRows(stage: nat, params: seq<Config>, trial: (nat, Config) -> TrialOutcome): seq<Row> {
    SortedByScore(RowsOf(params, StageTrial(trial, stage)))
  }

  /** The three stages of `main`. */
  datatype Asha = Asha(df1: seq<Row>, df2: seq<Row>, df3: seq<Row>, best: Option<Row>)

  /** The stage-1 candidates: the de-duplicated samples, padded up to `n1`. */
  function Stage1Candidates(g: Grid, hdbFirst: real, n1: nat, points: seq<seq<real>>, draws: seq<seq<nat>>): seq<Config>
    requires Options(g) && HasSwitches(g) && (forall i :: 0 <= i < |points| ==> PointFor(g, points[i])) && Draws(g, draws)
  {
    Padded(g, hdbFirst, Dedup(SobolCandidates(g, n1, points, hdbFirst)), n1, draws)
  }

  /** The winner: the top of stage 3, else the top of all stages; `None` where `iloc[0]` would raise. */
  function Winner(df1: seq<Row>, df2: seq<Row>, df3: seq<Row>): Option<Row> {
    if df3 != [] then Some(df3[0])
    else
      var all := SortedByScore(df1 + df2 + df3);
      if all != [] then Some(all[0]) else None
  }

  function AshaRun(cands: seq<Config>, trial: (nat, Config) -> TrialOutcome): Asha {
    var df1 := StageRows(1, cands, trial);
    var df2 := StageRows(2, Promote(df1, Keep(|df1|, 6)), trial);
    var df3 := StageRows(3, Promote(df2, Keep(|df2|, 3)), trial);
    Asha(df1, df2, df3, Winner(df1, df2, df3))
  }

  /** `main` over space `g`: sample, pad, and run the three stages. */
  method RunAsha(g: Grid, hdbFirst: real, n1: nat, points: seq<seq<real>>, draws: seq<seq<nat>>,
              trial: (nat, Config) -> TrialOutcome) returns (r: Asha)
    requires Options(g) && HasSwitches(g) && (forall i :: 0 <= i < |points| ==> PointFor(g, points[i])) && Draws(g, draws)
    ensures r == AshaRun(Stage1Candidates(g, hdbFirst, n1, points, draws), trial)
  {
    var candidates := DiscreteSampleSobol(g, n1, points, hdbFirst);
    candidates := PadCandidates(g, hdbFirst, candidates, n1, draws);
    var df1 := StageRows(1, candidates, trial);
    var k2 := Keep(|df1|, 6);
    var df2 := StageRows(2, Promote(df1, k2), trial);
    var k3 := Keep(|df2|, 3);
    var df3 := StageRows(3, Promote(df2, k3), trial);
    var best: Option<Row>;
    if df3 != [] {
      best := Some(df3[0]);
    } else {
      var all := SortedByScore(df1 + df2 + df3);
      best := if all != [] then Some(all[0]) else None;
    }
    r := Asha(df1, df2, df3, best);
  }

  lemma StageRowsSize(stage: nat, params: seq<Config>, trial: (nat, Config) -> TrialOutcome)
    ensures |StageRows(stage, params, trial)| == |params|
    ensures forall i, j :: 0 <= i < j < |params| ==> StageRows(stage, params, trial)[i].score >= StageRows(stage, params, trial)[j].score
  {
    SortedByScoreMeaning(RowsOf(params, StageTrial(trial, stage)));
  }

  /**
   * Every candidate is run in stage 1; stage 2 runs the
   * max(6, ceil(0.33 n)) best of them (all of them when there are fewer),
   * stage 3 the max(3, ceil(0.33 n)) best of stage 2, and the promoted rows
   * score at least as high as every row left behind.
   */
  lemma PromotionSizes(cands: seq<Config>, trial: (nat, Config) -> TrialOutcome)
    ensures var a := AshaRun(cands, trial);
      |a.df1| == |cands| &&
      |a.df2| == (if Keep(|a.df1|, 6) < |a.df1| then Keep(|a.df1|, 6) else |a.df1|) &&
      |a.df3| == (if Keep(|a.df2|, 3) < |a.df2| then Keep(|a.df2|, 3) else |a.df2|) &&
      (forall i, j :: 0 <= i < |a.df2| <= j < |a.df1| ==> a.df1[i].score >= a.df1[j].score) &&
      (forall i, j :: 0 <= i < |a.df3| <= j < |a.df2| ==> a.df2[i].score >= a.df2[j].score)
  {
    var a := AshaRun(cands, trial);
    StageRowsSize(1, cands, trial);
    var p2 := Promote(a.df1, Keep(|a.df1|, 6));
    StageRowsSize(2, p2, trial);
    var p3 := Promote(a.df2, Keep(|a.df2|, 3));
    StageRowsSize(3, p3, trial);
  }

  /**
   * With at least one candidate, stage 3 is never empty, so the winner is
   * its top row, which no stage-3 row outscores; the fallback to all stages
   * is taken only when there is nothing at all, where `main` would raise.
   */
  lemma WinnerIsStage3Top(cands: seq<Config>, trial: (nat, Config) -> TrialOutcome)
    ensures var a := AshaRun(cands, trial);
      (cands != [] ==> (a.df3 != [] && a.best == Some(a.df3[0]) &&
        forall i :: 0 <= i < |a.df3| ==> a.df3[i].score <= a.df3[0].score)) &&
      (cands == [] ==> a.best.None?)
  {
    var a := AshaRun(cands, trial);
    PromotionSizes(cands, trial);
    StageRowsSize(3, Promote(a.df2, Keep(|a.df2|, 3)), trial);
    if cands == [] {
      assert a.df1 + a.df2 + a.df3 == [];
    }
  }
}
