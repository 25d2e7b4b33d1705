/**
 * The One-Class SVM baseline's bookkeeping: the definedness guards of the
 * partition metrics, the Dunn index over a distance matrix, percentile
 * thresholding of anomaly scores, numeric feature selection and the clipping
 * of `nu`. The SVM, the scalers, PCA, silhouette and Davies-Bouldin scores are
 * library numerics and enter as values.
 */
module Ocsvm {
  import opened Wrappers
  import opened Numeric
  import opened Sorting

  // ---------------- Labels ----------------

  predicate StrictlyIncreasing(u: seq<int>) {
    forall i, j :: 0 <= i < j < |u| ==> u[i] < u[j]
  }

  function InsertUnique(x: int, u: seq<int>): (r: seq<int>)
    requires StrictlyIncreasing(u)
    ensures StrictlyIncreasing(r)
    ensures forall y :: y in r <==> y == x || y in u
  {
    if u == [] then [x]
    else if x < u[0] then [x] + u
    else if x == u[0] then u
    else
      var rest := InsertUnique(x, u[1..]);
      assert forall y :: y in u[1..] ==> u[0] < y;
      ConsIncreasing(u[0], rest);
      [u[0]] + rest
  }

  /** A head below every element of a strictly increasing tail keeps the sequence strictly increasing. */
  lemma ConsIncreasing(h: int, t: seq<int>)
    requires StrictlyIncreasing(t) && forall y :: y in t ==> h < y
    ensures StrictlyIncreasing([h] + t) && forall y :: y in [h] + t <==> y == h || y in t
  {
    forall i, j | 0 <= i < j < |[h] + t| ensures ([h] + t)[i] < ([h] + t)[j] {
      if i > 0 {
        assert ([h] + t)[i] == t[i - 1];
      }
      assert ([h] + t)[j] == t[j - 1] && t[j - 1] in t;
    }
  }

  /** `np.unique(labels)`: the distinct labels in ascending order. */
  function Unique(labels: seq<int>): (u: seq<int>)
    ensures StrictlyIncreasing(u)
    ensures forall y :: y in u <==> y in labels
  {
    if labels == [] then []
    else
      var u := InsertUnique(labels[|labels| - 1], Unique(labels[..|labels| - 1]));
      assert forall y :: y in labels <==> y == labels[|labels| - 1] || y in labels[..|labels| - 1];
      u
  }

  /** `np.where(labels == l)[0]`: the positions holding label `l`, ascending. */
  function Members(labels: seq<int>, l: int): (idx: seq<nat>)
    ensures forall i :: 0 <= i < |labels| ==> (i in idx <==> labels[i] == l)
    ensures forall k :: 0 <= k < |idx| ==> idx[k] < |labels|
  {
    if labels == [] then []
    else
      var n := |labels| - 1;
      var front := Members(labels[..n], l);
      assert labels == labels[..n] + [labels[n]];
      if labels[n] == l then front + [n] else front
  }

  lemma MembersNonEmpty(labels: seq<int>, l: int)
    requires l in labels
    ensures Members(labels, l) != []
  {
    var i :| 0 <= i < |labels| && labels[i] == l;
    assert i in Members(labels, l);
  }

  // ---------------- Dunn index ----------------

  /** The largest `D[a, b]` over `b` in `ys`. */
  function RowMax(a: nat, ys: seq<nat>, D: (nat, nat) -> real): (m: real)
    requires ys != []
    ensures forall l :: 0 <= l < |ys| ==> D(a, ys[l]) <= m
    ensures (forall x, y :: D(x, y) >= 0.0) ==> m >= 0.0
  {
    if |ys| == 1 then D(a, ys[0])
    else
      var rest := RowMax(a, ys[1..], D);
      assert forall l :: 1 <= l < |ys| ==> ys[l] == ys[1..][l - 1];
      if D(a, ys[0]) >= rest then D(a, ys[0]) else rest
  }

  /** The smallest `D[a, b]` over `b` in `ys`. */
  function RowMin(a: nat, ys: seq<nat>, D: (nat, nat) -> real): (m: real)
    requires ys != []
    ensures forall l :: 0 <= l < |ys| ==> m <= D(a, ys[l])
    ensures (forall x, y :: D(x, y) >= 0.0) ==> m >= 0.0
  {
    if |ys| == 1 then D(a, ys[0])
    else
      var rest := RowMin(a, ys[1..], D);
      assert forall l :: 1 <= l < |ys| ==> ys[l] == ys[1..][l - 1];
      if D(a, ys[0]) <= rest then D(a, ys[0]) else rest
  }

  /** The largest `D[a, b]` over `a` in `xs` and `b` in `ys`: `np.max(D[np.ix_(xs, ys)])`. */
  function BlockMax(xs: seq<nat>, ys: seq<nat>, D: (nat, nat) -> real): (m: real)
    requires xs != [] && ys != []
    ensures forall k, l :: 0 <= k < |xs| && 0 <= l < |ys| ==> D(xs[k], ys[l]) <= m
    ensures (forall x, y :: D(x, y) >= 0.0) ==> m >= 0.0
  {
    var row := RowMax(xs[0], ys, D);
    if |xs| == 1 then row
    else
      var rest := BlockMax(xs[1..], ys, D);
      assert forall k :: 1 <= k < |xs| ==> xs[k] == xs[1..][k - 1];
      if row >= rest then row else rest
  }

  /** The smallest `D[a, b]` over `a` in `xs` and `b` in `ys`: `np.min(D[np.ix_(xs, ys)])`. */
  function BlockMin(xs: seq<nat>, ys: seq<nat>, D: (nat, nat) -> real): (m: real)
    requires xs != [] && ys != []
    ensures forall k, l :: 0 <= k < |xs| && 0 <= l < |ys| ==> m <= D(xs[k], ys[l])
    ensures (forall x, y :: D(x, y) >= 0.0) ==> m >= 0.0
  {
    var row := RowMin(xs[0], ys, D);
    if |xs| == 1 then row
    else
      var rest := BlockMin(xs[1..], ys, D);
      assert forall k :: 1 <= k < |xs| ==> xs[k] == xs[1..][k - 1];
      if row <= rest then row else rest
  }

  /** A group's diameter; a group with fewer than two members has diameter 0. */
  function Diameter(idx: seq<nat>, D: (nat, nat) -> real): real {
    if |idx| < 2 then 0.0 else BlockMax(idx, idx, D)
  }

  /** The member positions of each distinct label, in `np.unique` order. */
  function GroupsOf(labels: seq<int>): (g: seq<seq<nat>>)
    ensures |g| == |Unique(labels)|
    ensures forall k :: 0 <= k < |g| ==> g[k] == Members(labels, Unique(labels)[k])
  {
    var u := Unique(labels);
    seq(|u|, k requires 0 <= k < |u| => Members(labels, u[k]))
  }

  /** Every group of a label that occurs is non-empty. */
  lemma GroupsNonEmpty(labels: seq<int>, k: nat)
    requires k < |Unique(labels)|
    ensures GroupsOf(labels)[k] != []
  {
    assert Unique(labels)[k] in Unique(labels);
    MembersNonEmpty(labels, Unique(labels)[k]);
  }

  /** The separation entries of group `i` against groups `i+1 .. j-1`, skipping empty groups. */
  function RowSeparations(g: seq<seq<nat>>, i: nat, j: nat, D: (nat, nat) -> real): seq<real>
    requires i < j <= |g|
    decreases j
  {
    if j == i + 1 then []
    else
      RowSeparations(g, i, j - 1, D)
        + (if g[j - 1] == [] || g[i] == [] then [] else [BlockMin(g[i], g[j - 1], D)])
  }

  /** The separation entries of all group pairs whose first group is among `g[..i]`. */
  function Separations(g: seq<seq<nat>>, i: nat, D: (nat, nat) -> real): seq<real>
    requires i <= |g|
  {
    if i == 0 then []
    else Separations(g, i - 1, D) + RowSeparations(g, i - 1, |g|, D)
  }

  /** The diameters of the groups `g[..i]`. */
  function Diameters(g: seq<seq<nat>>, i: nat, D: (nat, nat) -> real): (r: seq<real>)
    requires i <= |g|
    ensures |r| == i
  {
    seq(i, k requires 0 <= k < i => Diameter(g[k], D))
  }

  lemma DiametersStep(g: seq<seq<nat>>, i: nat, D: (nat, nat) -> real)
    requires i < |g|
    ensures Diameters(g, i + 1, D) == Diameters(g, i, D) + [Diameter(g[i], D)]
  {
  }

  /** The value `dunn_index` computes: NaN unless both lists are non-empty and the largest diameter is non-zero. */
  function DunnOf(labels: seq<int>, D: (nat, nat) -> real): Float {
    var g := GroupsOf(labels);
    if |g| < 2 then NaN
    else
      var intra, inter := Diameters(g, |g|, D), Separations(g, |g|, D);
      if intra == [] || inter == [] then NaN
      else
        var maxIntra := MaxOf(intra);
        if maxIntra == 0.0 then NaN else Fin(MinOf(inter) / maxIntra)
  }

  /** `dunn_index(X, labels)` with `D = squareform(pdist(X))` given as a function. */
  method DunnIndex(labels: seq<int>, D: (nat, nat) -> real) returns (r: Float)
    ensures r == DunnOf(labels, D)
    ensures |Unique(labels)| < 2 ==> r.NaN?
  {
    var u := Unique(labels);
    if |u| < 2 {
      return NaN;
    }
    var g := GroupsOf(labels);
    var intra: seq<real> := [];
    var inter: seq<real> := [];
    var i := 0;
    while i < |g|
      invariant 0 <= i <= |g|
      invariant intra == Diameters(g, i, D)
      invariant inter == Separations(g, i, D)
    {
      intra, inter := GroupEntries(g, i, D, intra, inter);
      i := i + 1;
    }
    if intra == [] || inter == [] {
      return NaN;
    }
    var maxIntra := MaxOf(intra);
    var minInter := MinOf(inter);
    if maxIntra == 0.0 {
      return NaN;
    }
    r := Fin(minInter / maxIntra);
  }

  /** One pass of `dunn_index`'s outer loop: group `i`'s diameter and its separations from the later groups. */
  method GroupEntries(g: seq<seq<nat>>, i: nat, D: (nat, nat) -> real, intra: seq<real>, inter: seq<real>)
    returns (intra': seq<real>, inter': seq<real>)
    requires i < |g| && intra == Diameters(g, i, D) && inter == Separations(g, i, D)
    ensures intra' == Diameters(g, i + 1, D) && inter' == Separations(g, i + 1, D)
  {
    var idxI := g[i];
    if |idxI| < 2 {
      intra' := intra + [0.0];
    } else {
      intra' := intra + [BlockMax(idxI, idxI, D)];
    }
    DiametersStep(g, i, D);
    var row := GroupSeparations(g, i, D);
    inter' := inter + row;
  }

  /** The inner loop of `dunn_index`: group `i` against every later group. */
  method GroupSeparations(g: seq<seq<nat>>, i: nat, D: (nat, nat) -> real) returns (row: seq<real>)
    requires i < |g|
    ensures row == RowSeparations(g, i, |g|, D)
  {
    row := [];
    var idxI := g[i];
    var j := i + 1;
    while j < |g|
      invariant i + 1 <= j <= |g|
      invariant row == RowSeparations(g, i, j, D)
    {
      var idxJ := g[j];
      RowSeparationsStep(g, i, j, D);
      if !(|idxJ| == 0 || |idxI| == 0) {
        row := row + [BlockMin(idxI, idxJ, D)];
      }
      j := j + 1;
    }
  }

  lemma RowSeparationsStep(g: seq<seq<nat>>, i: nat, j: nat, D: (nat, nat) -> real)
    requires i < j < |g|
    ensures RowSeparations(g, i, j + 1, D)
         == RowSeparations(g, i, j, D) + (if g[j] == [] || g[i] == [] then [] else [BlockMin(g[i], g[j], D)])
  {
  }

  lemma {:induction false} RowSeparationsNonNegative(g: seq<seq<nat>>, i: nat, j: nat, D: (nat, nat) -> real)
    requires i < j <= |g|
    requires forall a, b :: D(a, b) >= 0.0
    ensures forall x :: x in RowSeparations(g, i, j, D) ==> x >= 0.0
    decreases j
  {
    if j > i + 1 {
      RowSeparationsNonNegative(g, i, j - 1, D);
    }
  }

  lemma {:induction false} SeparationsNonNegative(g: seq<seq<nat>>, i: nat, D: (nat, nat) -> real)
    requires i <= |g|
    requires forall a, b :: D(a, b) >= 0.0
    ensures forall x :: x in Separations(g, i, D) ==> x >= 0.0
  {
    if i > 0 {
      SeparationsNonNegative(g, i - 1, D);
      RowSeparationsNonNegative(g, i - 1, |g|, D);
    }
  }

  /** For a non-negative distance matrix the Dunn index, when defined, is non-negative. */
  lemma DunnNonNegative(labels: seq<int>, D: (nat, nat) -> real)
    requires forall a, b :: D(a, b) >= 0.0
    ensures DunnOf(labels, D).Fin? ==> DunnOf(labels, D).r >= 0.0
  {
    var g := GroupsOf(labels);
    if |g| >= 2 {
      var intra, inter := Diameters(g, |g|, D), Separations(g, |g|, D);
      if intra != [] && inter != [] {
        SeparationsNonNegative(g, |g|, D);
        var maxIntra := MaxOf(intra);
        var minInter := MinOf(inter);
        assert intra[0] == Diameter(g[0], D) && intra[0] in intra;
        assert minInter >= 0.0 && maxIntra >= 0.0;
        if maxIntra != 0.0 {
          QuotientNonNegative(minInter, maxIntra);
        }
      }
    }
  }

  lemma QuotientNonNegative(a: real, b: real)
    requires a >= 0.0 && b > 0.0
    ensures a / b >= 0.0
  {
  }

  lemma {:induction false} RowSeparationsNonEmpty(g: seq<seq<nat>>, i: nat, j: nat, D: (nat, nat) -> real)
    requires i + 2 <= j <= |g|
    requires g[i] != [] && g[i + 1] != []
    ensures RowSeparations(g, i, j, D) != []
    decreases j
  {
    if j > i + 2 {
      RowSeparationsNonEmpty(g, i, j - 1, D);
    }
  }

  lemma {:induction false} SeparationsCoverFirstRow(g: seq<seq<nat>>, i: nat, D: (nat, nat) -> real)
    requires 1 <= i <= |g|
    ensures |Separations(g, i, D)| >= |RowSeparations(g, 0, |g|, D)|
  {
    if i > 1 {
      SeparationsCoverFirstRow(g, i - 1, D);
    }
  }

  /** With at least two labels, the Dunn index is defined exactly when the largest diameter is non-zero. */
  lemma DunnDefinedIffPositiveDiameter(labels: seq<int>, D: (nat, nat) -> real)
    requires |Unique(labels)| >= 2
    ensures var g := GroupsOf(labels);
      DunnOf(labels, D).Fin? <==> MaxOf(Diameters(g, |g|, D)) != 0.0
  {
    var g := GroupsOf(labels);
    GroupsNonEmpty(labels, 0);
    GroupsNonEmpty(labels, 1);
    RowSeparationsNonEmpty(g, 0, |g|, D);
    SeparationsCoverFirstRow(g, |g|, D);
  }

  // ---------------- Guards on the library metrics ----------------

  /** Every label occurs at least twice. */
  predicate AllGroupsAtLeastTwo(labels: seq<int>) {
    forall i :: 0 <= i < |labels| ==> multiset(labels)[labels[i]] >= 2
  }

  /**
   * `safe_silhouette`: `score` is what `silhouette_score` returns, `None` when it raises.
   */
  function SafeSilhouette(labels: seq<int>, score: Option<real>): (r: Float)
    ensures r.Fin? <==> |Unique(labels)| >= 2 && AllGroupsAtLeastTwo(labels) && score.Some?
    ensures r.Fin? ==> r.r == score.value
    ensures !r.Fin? ==> r.NaN?
  {
    if |Unique(labels)| < 2 || !AllGroupsAtLeastTwo(labels) then NaN
    else if score.None? then NaN
    else Fin(score.value)
  }

  /** `safe_dbi`: `score` is what `davies_bouldin_score` returns, `None` when it raises. */
  function SafeDbi(labels: seq<int>, score: Option<real>): (r: Float)
    ensures r.Fin? <==> |Unique(labels)| >= 2 && score.Some?
    ensures r.Fin? ==> r.r == score.value
    ensures !r.Fin? ==> r.NaN?
  {
    if |Unique(labels)| < 2 then NaN
    else if score.None? then NaN
    else Fin(score.value)
  }

  /** A single label gives NaN for all three partition metrics. */
  lemma OneLabelNoMetrics(labels: seq<int>, sil: Option<real>, dbi: Option<real>, D: (nat, nat) -> real)
    requires forall i :: 0 <= i < |labels| ==> labels[i] == labels[0]
    ensures SafeSilhouette(labels, sil).NaN? && SafeDbi(labels, dbi).NaN? && DunnOf(labels, D).NaN?
  {
    var u := Unique(labels);
    if labels != [] {
      ConstantAtMostOne(u, labels[0]);
    }
  }

  lemma ConstantAtMostOne(u: seq<int>, c: int)
    requires StrictlyIncreasing(u) && forall y :: y in u ==> y == c
    ensures |u| <= 1
  {
    if 2 <= |u| {
      FirstTwo(u);
    }
  }

  lemma FirstTwo(u: seq<int>)
    requires 2 <= |u| && StrictlyIncreasing(u)
    ensures u[0] in u && u[1] in u && u[0] < u[1]
  {
  }

  // ---------------- percentile_label ----------------

  datatype PercentileError = PercentileOutOfRange | EmptyScores

  function Identity(x: real): real { x }

  /** numpy's virtual index `(n - 1) * q / 100` and its integer part. */
  function VirtualIndex(n: nat, q: real): real { (n - 1) as real * q / 100.0 }

  lemma VirtualIndexBounds(n: nat, q: real)
    requires n >= 1 && 0.0 <= q <= 100.0
    ensures 0.0 <= VirtualIndex(n, q) <= (n - 1) as real
    ensures 0 <= VirtualIndex(n, q).Floor < n
  {
    var m := (n - 1) as real;
    assert 0.0 <= m * q <= m * 100.0 by {
      assert m * q <= m * 100.0 by { assert m * (100.0 - q) >= 0.0; }
    }
  }

  /** numpy's linear interpolation at percentile `q` of the sorted, non-empty `v`. */
  function Interpolate(v: seq<real>, q: real): real
    requires v != [] && 0.0 <= q <= 100.0
  {
    var n := |v|;
    var h := VirtualIndex(n, q);
    VirtualIndexBounds(n, q);
    var lo := h.Floor;
    var frac := h - lo as real;
    if lo + 1 < n then v[lo] + frac * (v[lo + 1] - v[lo]) else v[lo]
  }

  /** `np.percentile(scores, q)` with numpy's default linear interpolation. */
  function Percentile(scores: seq<real>, q: real): (r: Result<real, PercentileError>)
    ensures r.Err? <==> !(0.0 <= q <= 100.0) || scores == []
    ensures !(0.0 <= q <= 100.0) ==> r == Err(PercentileOutOfRange)
    ensures r.Ok? ==> r.value == Interpolate(SortBy(scores, Identity), q)
  {
    if !(0.0 <= q <= 100.0) then Err(PercentileOutOfRange)
    else if scores == [] then Err(EmptyScores)
    else Ok(Interpolate(SortBy(scores, Identity), q))
  }

  /** The flags and threshold `percentile_label` returns. */
  datatype Labelled = Labelled(labels: seq<int>, threshold: real)

  /** `percentile_label(scores, contamination)`: flag every score at or above the percentile. */
  function PercentileLabel(scores: seq<real>, contamination: real): (r: Result<Labelled, PercentileError>)
    ensures r.Err? <==> !(0.0 <= contamination <= 1.0) || scores == []
    ensures r.Ok? ==> |r.value.labels| == |scores|
    ensures r.Ok? ==> r.value.threshold == Percentile(scores, 100.0 * (1.0 - contamination)).value
    ensures r.Ok? ==> forall i :: 0 <= i < |scores| ==>
      (r.value.labels[i] == 1 <==> scores[i] >= r.value.threshold) && (r.value.labels[i] == 0 || r.value.labels[i] == 1)
  {
    var t := Percentile(scores, 100.0 * (1.0 - contamination));
    if t.Err? then Err(t.error)
    else Ok(Labelled(seq(|scores|, i requires 0 <= i < |scores| => if scores[i] >= t.value then 1 else 0), t.value))
  }

  lemma SortedBoundedByLast(v: seq<real>, k: nat)
    requires SortedBy(v, Identity) && k < |v|
    ensures v[k] <= v[|v| - 1]
  {
    if k < |v| - 1 { assert Identity(v[k]) <= Identity(v[|v| - 1]); }
  }

  /** The interpolated value never exceeds the last element of the sorted sequence. */
  lemma InterpolateAtMostLast(v: seq<real>, q: real)
    requires v != [] && 0.0 <= q <= 100.0 && SortedBy(v, Identity)
    ensures Interpolate(v, q) <= v[|v| - 1]
  {
    var n := |v|;
    var h := VirtualIndex(n, q);
    VirtualIndexBounds(n, q);
    var lo := h.Floor;
    var frac := h - lo as real;
    assert 0.0 <= frac < 1.0;
    SortedBoundedByLast(v, lo);
    if lo + 1 < n {
      SortedBoundedByLast(v, lo + 1);
      assert Identity(v[lo]) <= Identity(v[lo + 1]);
      LerpBetween(v[lo], v[lo + 1], frac);
    }
  }

  /** Linear interpolation stays between its end points. */
  lemma LerpBetween(a: real, b: real, t: real)
    requires a <= b && 0.0 <= t <= 1.0
    ensures a <= a + t * (b - a) <= b
  {
    assert t * (b - a) <= b - a by { assert (1.0 - t) * (b - a) >= 0.0; }
  }

  /** The percentile is at most the largest score. */
  lemma PercentileAtMostMax(scores: seq<real>, q: real, m: nat)
    requires 0.0 <= q <= 100.0 && m < |scores|
    requires forall j :: 0 <= j < |scores| ==> scores[j] <= scores[m]
    ensures Percentile(scores, q).value <= scores[m]
  {
    var v := SortBy(scores, Identity);
    InterpolateAtMostLast(v, q);
    assert v[|v| - 1] in multiset(scores);
    var j :| 0 <= j < |scores| && scores[j] == v[|v| - 1];
  }

  /** For a contamination in [0, 1], the largest score is always flagged. */
  lemma MaximumFlagged(scores: seq<real>, contamination: real, m: nat)
    requires 0.0 <= contamination <= 1.0 && m < |scores|
    requires forall j :: 0 <= j < |scores| ==> scores[j] <= scores[m]
    ensures PercentileLabel(scores, contamination).Ok?
    ensures PercentileLabel(scores, contamination).value.labels[m] == 1
  {
    PercentileAtMostMax(scores, 100.0 * (1.0 - contamination), m);
  }

  /** A non-empty input gets at least one flag. */
  lemma SomeScoreFlagged(scores: seq<real>, contamination: real)
    requires 0.0 <= contamination <= 1.0 && scores != []
    ensures exists i :: 0 <= i < |scores| && PercentileLabel(scores, contamination).value.labels[i] == 1
  {
    var mx := MaxOf(scores);
    var m :| 0 <= m < |scores| && scores[m] == mx;
    assert forall j :: 0 <= j < |scores| ==> scores[j] in scores;
    MaximumFlagged(scores, contamination, m);
  }

  /** Flagging is monotone: a score at least as large as a flagged one is flagged. */
  lemma FlaggingMonotone(scores: seq<real>, contamination: real, i: nat, j: nat)
    requires PercentileLabel(scores, contamination).Ok? && i < |scores| && j < |scores|
    requires scores[i] <= scores[j] && PercentileLabel(scores, contamination).value.labels[i] == 1
    ensures PercentileLabel(scores, contamination).value.labels[j] == 1
  {
  }

  // ---------------- Features and hyperparameters ----------------

  /** A frame column as feature selection sees it: its name and whether its dtype is numeric. */
  datatype ColumnKind = ColumnKind(name: string, numeric: bool)

  datatype SelectError = NotEnoughNumericColumns(found: seq<string>)

  predicate IsIdColumn(name: string) { name == "fid" || name == "FID" }

  function NumericNonId(cols: seq<ColumnKind>): (r: seq<string>)
    ensures forall x :: x in r <==> exists i :: 0 <= i < |cols| && cols[i].name == x && cols[i].numeric && !IsIdColumn(x)
    ensures |r| <= |cols|
  {
    if cols == [] then []
    else
      var rest := NumericNonId(cols[1..]);
      assert forall i :: 1 <= i < |cols| ==> cols[i] == cols[1..][i - 1];
      (if cols[0].numeric && !IsIdColumn(cols[0].name) then [cols[0].name] else []) + rest
  }

  /** `_select_numeric_features`: the numeric columns other than fid/FID, at least two of them. */
  function SelectNumericFeatures(cols: seq<ColumnKind>): (r: Result<seq<string>, SelectError>)
    ensures r.Ok? <==> |NumericNonId(cols)| >= 2
    ensures r.Ok? ==> r.value == NumericNonId(cols) && "fid" !in r.value && "FID" !in r.value
    ensures r.Err? ==> r.error == NotEnoughNumericColumns(NumericNonId(cols))
  {
    var numCols := NumericNonId(cols);
    if |numCols| < 2 then Err(NotEnoughNumericColumns(numCols)) else Ok(numCols)
  }

  /** `np.clip(nu, 1e-3, 0.49)`. */
  function ClipNu(nu: real): (r: real)
    ensures 0.001 <= r <= 0.49
    ensures 0.001 <= nu <= 0.49 ==> r == nu
  {
    Clip(nu, 0.001, 0.49)
  }

  /** A metric as written to the meta file: `float(m) if m == m else None`. */
  function MetaMetric(m: Float): (r: Option<Float>)
    ensures r.None? <==> m.NaN?
    ensures r.Some? ==> r.value == m
  {
    if m.NaN? then None else Some(m)
  }
}
