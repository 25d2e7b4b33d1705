/**
 * The drift report comparing a candidate dataset with a reference one: for
 * each key column present in both, the two means, a z-score of their
 * difference against the reference spread, and a flag when it exceeds the
 * threshold. Reading the files is outside the model; the column mean and the
 * sample standard deviation are parameters.
 */
module Drift {
  import opened Numeric
  import opened Frames
  import opened Sorting

  const KeyColumns: seq<string> := [
    "Total electricity consumption (kWh)",
    "Number of apartments",
    "Number of floors"
  ]

  /** The default `z_threshold`. */
  const DefaultThreshold: real := 2.0

  datatype DriftEntry = DriftEntry(column: string, refMean: Float, newMean: Float, zScore: Float, driftFlag: bool)

  /** The column statistics pandas computes: `Series.mean()` and `Series.std(ddof=1)`. */
  datatype Stats = Stats(mean: seq<Float> -> Float, std: seq<Float> -> Float)

  /** `sd_ref`: the reference deviation when it compares greater than 0, else 1.0 (so also when it is NaN). */
  function Spread(sd: Float): (r: Float)
    ensures r == Fin(1.0) || (Lt(Fin(0.0), r) && r == sd)
  {
    if Lt(Fin(0.0), sd) then sd else Fin(1.0)
  }

  /** The entry for a column present in both frames. */
  function Entry(col: string, cand: seq<Column<Float>>, ref: seq<Column<Float>>, threshold: real, st: Stats): DriftEntry
    requires Has(cand, col) && Has(ref, col)
  {
    var muRef := st.mean(Get(ref, col));
    var sdRef := Spread(st.std(Get(ref, col)));
    var muNew := st.mean(Get(cand, col));
    var z := Abs(Div(Sub(muNew, muRef), sdRef));
    DriftEntry(col, muRef, muNew, z, Lt(Fin(threshold), z))
  }

  /** The report after the first `k` of `cols`. */
  function ReportUpTo(cols: seq<string>, k: nat, cand: seq<Column<Float>>, ref: seq<Column<Float>>, threshold: real, st: Stats): seq<DriftEntry>
    requires k <= |cols|
  {
    if k == 0 then []
    else
      var prev := ReportUpTo(cols, k - 1, cand, ref, threshold, st);
      var col := cols[k - 1];
      if !Has(cand, col) || !Has(ref, col) then prev
      else prev + [Entry(col, cand, ref, threshold, st)]
  }

  /** `report["columns"]` for columns `cols`. */
  function Report(cols: seq<string>, cand: seq<Column<Float>>, ref: seq<Column<Float>>, threshold: real, st: Stats): seq<DriftEntry> {
    ReportUpTo(cols, |cols|, cand, ref, threshold, st)
  }

  /** The columns of `cols` present in both frames, in order. */
  function Shared(cols: seq<string>, cand: seq<Column<Float>>, ref: seq<Column<Float>>): (r: seq<string>)
    ensures forall c :: c in r <==> c in cols && Has(cand, c) && Has(ref, c)
  {
    if cols == [] then []
    else (if Has(cand, cols[0]) && Has(ref, cols[0]) then [cols[0]] else []) + Shared(cols[1..], cand, ref)
  }

  /** `simple_drift_report(candidate, reference, z_threshold)["columns"]`. */
  method SimpleDriftReport(cand: seq<Column<Float>>, ref: seq<Column<Float>>, st: Stats, threshold: real := DefaultThreshold)
    returns (report: seq<DriftEntry>)
    ensures report == Report(KeyColumns, cand, ref, threshold, st)
  {
    report := [];
    var k := 0;
    while k < |KeyColumns|
      invariant 0 <= k <= |KeyColumns|
      invariant report == ReportUpTo(KeyColumns, k, cand, ref, threshold, st)
    {
      report := ReportColumn(cand, ref, st, threshold, report, k);
      k := k + 1;
    }
  }

  /** One pass of the report loop: the entry of the `k`-th key column, when both frames have it. */
  method ReportColumn(cand: seq<Column<Float>>, ref: seq<Column<Float>>, st: Stats, threshold: real, report: seq<DriftEntry>, k: nat)
    returns (report': seq<DriftEntry>)
    requires k < |KeyColumns| && report == ReportUpTo(KeyColumns, k, cand, ref, threshold, st)
    ensures report' == ReportUpTo(KeyColumns, k + 1, cand, ref, threshold, st)
  {
    report' := report;
    var col := KeyColumns[k];
    if Has(cand, col) && Has(ref, col) {
      var muRef := st.mean(Get(ref, col));
      var sdRef := if Lt(Fin(0.0), st.std(Get(ref, col))) then st.std(Get(ref, col)) else Fin(1.0);
      var muNew := st.mean(Get(cand, col));
      var z := Abs(Div(Sub(muNew, muRef), sdRef));
      report' := report + [DriftEntry(col, muRef, muNew, z, Lt(Fin(threshold), z))];
    }
  }

  /** The report lists exactly the shared columns, in the order of `cols`. */
  lemma {:induction false} ReportColumns(cols: seq<string>, k: nat, cand: seq<Column<Float>>, ref: seq<Column<Float>>, threshold: real, st: Stats)
    requires k <= |cols|
    ensures var r := ReportUpTo(cols, k, cand, ref, threshold, st);
      |r| == |Shared(cols[..k], cand, ref)| &&
      forall i :: 0 <= i < |r| ==> r[i].column == Shared(cols[..k], cand, ref)[i]
  {
    if k > 0 {
      var j: nat := k - 1;
      var c := cols[j];
      ReportColumns(cols, j, cand, ref, threshold, st);
      ReportStep(cols, j, cand, ref, threshold, st);
      SharedSnoc(cols[..j], c, cand, ref);
      TakeSnoc(cols, j);
    }
  }

  /** One more column of `cols` adds its entry when both frames have it. */
  lemma ReportStep(cols: seq<string>, j: nat, cand: seq<Column<Float>>, ref: seq<Column<Float>>, threshold: real, st: Stats)
    requires j < |cols|
    ensures var c := cols[j];
      ReportUpTo(cols, j + 1, cand, ref, threshold, st) ==
        ReportUpTo(cols, j, cand, ref, threshold, st) + (if Has(cand, c) && Has(ref, c) then [Entry(c, cand, ref, threshold, st)] else [])
  {
  }

  lemma {:induction false} SharedSnoc(cols: seq<string>, c: string, cand: seq<Column<Float>>, ref: seq<Column<Float>>)
    ensures Shared(cols + [c], cand, ref) ==
      Shared(cols, cand, ref) + (if Has(cand, c) && Has(ref, c) then [c] else [])
  {
    if cols == [] {
      assert [c][1..] == [];
    } else {
      assert (cols + [c])[1..] == cols[1..] + [c];
      SharedSnoc(cols[1..], c, cand, ref);
    }
  }

  /** Every entry of the report is the entry of its column: the two means, the z-score and the flag. */
  lemma {:induction false} ReportEntries(cols: seq<string>, k: nat, cand: seq<Column<Float>>, ref: seq<Column<Float>>, threshold: real, st: Stats)
    requires k <= |cols|
    ensures AllEntriesOf(ReportUpTo(cols, k, cand, ref, threshold, st), cand, ref, threshold, st)
  {
    if k > 0 {
      var j: nat := k - 1;
      ReportEntries(cols, j, cand, ref, threshold, st);
      ReportStep(cols, j, cand, ref, threshold, st);
      var col := cols[j];
      if Has(cand, col) && Has(ref, col) {
        EntriesSnoc(ReportUpTo(cols, j, cand, ref, threshold, st), Entry(col, cand, ref, threshold, st), cand, ref, threshold, st);
      }
    }
  }

  lemma EntriesSnoc(prev: seq<DriftEntry>, e: DriftEntry, cand: seq<Column<Float>>, ref: seq<Column<Float>>, threshold: real, st: Stats)
    requires AllEntriesOf(prev, cand, ref, threshold, st) && IsEntryOf(e, cand, ref, threshold, st)
    ensures AllEntriesOf(prev + [e], cand, ref, threshold, st)
  {
    var r := prev + [e];
    forall i | 0 <= i < |r|
      ensures IsEntryOf(r[i], cand, ref, threshold, st)
    {
      if i < |prev| {
        assert r[i] == prev[i];
      }
    }
  }

  predicate AllEntriesOf(r: seq<DriftEntry>, cand: seq<Column<Float>>, ref: seq<Column<Float>>, threshold: real, st: Stats) {
    forall i :: 0 <= i < |r| ==> IsEntryOf(r[i], cand, ref, threshold, st)
  }

  /** `e` is the entry its column yields: present in both frames, with its means, z-score and flag. */
  predicate IsEntryOf(e: DriftEntry, cand: seq<Column<Float>>, ref: seq<Column<Float>>, threshold: real, st: Stats) {
    Has(cand, e.column) && Has(ref, e.column) && e == Entry(e.column, cand, ref, threshold, st)
  }

  /**
   * The reference spread is never zero, so the z-score is a real division:
   * it is |mean_new - mean_ref| / sd_ref, it is never negative, and the flag
   * holds exactly when it strictly exceeds the threshold.
   */
  lemma EntryMeaning(col: string, cand: seq<Column<Float>>, ref: seq<Column<Float>>, threshold: real, st: Stats)
    requires Has(cand, col) && Has(ref, col)
    ensures var e := Entry(col, cand, ref, threshold, st); var sd := Spread(st.std(Get(ref, col)));
      e.refMean == st.mean(Get(ref, col)) && e.newMean == st.mean(Get(cand, col)) &&
      sd != Fin(0.0) &&
      (e.refMean.Fin? && e.newMean.Fin? && sd.Fin? ==>
        e.zScore.Fin? && e.zScore.r * sd.r == if e.newMean.r >= e.refMean.r then e.newMean.r - e.refMean.r else e.refMean.r - e.newMean.r) &&
      !Lt(e.zScore, Fin(0.0)) &&
      (e.driftFlag <==> Lt(Fin(threshold), e.zScore))
  {
    var e := Entry(col, cand, ref, threshold, st);
    var sd := Spread(st.std(Get(ref, col)));
    if e.refMean.Fin? && e.newMean.Fin? && sd.Fin? {
      var d := e.newMean.r - e.refMean.r;
      assert Div(Fin(d), sd) == Fin(d / sd.r);
      if d >= 0.0 {
        assert e.zScore.r == d / sd.r;
      } else {
        assert e.zScore.r == -(d / sd.r);
      }
    }
  }
}
