/**
 * The analytics report: feedback labels tallied per month and per
 * district, the fraud and bias trends built from those tallies in key
 * order, and the headline KPIs. Query results (counts, case ages in days,
 * label rows with their month key already formatted) are inputs.
 */
module Reports {
  import opened Wrappers
  import opened Text
  import Numeric

  // ---------------- labels ----------------

  /** A feedback label as the report reads it: its text, its "%Y-%m" month if it has a creation time, its case's district if any. */
  datatype Label = Label(text: Option<string>, month: Option<string>, district: Option<string>)

  /** `(label.label or "").strip().lower()`. */
  function NormLabel(text: Option<string>): string {
    Lower(Strip(if text.Some? then text.value else ""))
  }

  predicate IsFraud(l: Label) { NormLabel(l.text) == "fraud" }

  predicate IsNonFraud(l: Label) { NormLabel(l.text) == "non_fraud" }

  /** The month key: the label's own, or the report time's when it has no creation time. */
  function MonthOf(l: Label, nowMonth: string): string {
    if l.month.Some? then l.month.value else nowMonth
  }

  /** A label without a case, building or (non-empty) district counts for "Unknown". */
  function DistrictOf(l: Label): (d: string)
    ensures d != ""
    ensures l.district.Some? && l.district.value != "" ==> d == l.district.value
    ensures l.district.None? || l.district.value == "" ==> d == "Unknown"
  {
    if l.district.Some? && l.district.value != "" then l.district.value else "Unknown"
  }

  // ---------------- tallies ----------------

  datatype MonthCount = MonthCount(fraud: nat, total: nat)

  datatype BiasCount = BiasCount(fraud: nat, nonFraud: nat)

  /** One label's effect on `month_stats`: its month's total goes up by one, and its fraud count when it is a fraud label. */
  function CountMonth(m: map<string, MonthCount>, l: Label, nowMonth: string): map<string, MonthCount> {
    var k := MonthOf(l, nowMonth);
    var c := if k in m then m[k] else MonthCount(0, 0);
    m[k := MonthCount(c.fraud + (if IsFraud(l) then 1 else 0), c.total + 1)]
  }

  /** One label's effect on `bias_stats`: only fraud and non_fraud labels count, for their district. */
  function CountBias(b: map<string, BiasCount>, l: Label): map<string, BiasCount> {
    var d := DistrictOf(l);
    var c := if d in b then b[d] else BiasCount(0, 0);
    if IsFraud(l) then b[d := c.(fraud := c.fraud + 1)]
    else if IsNonFraud(l) then b[d := c.(nonFraud := c.nonFraud + 1)]
    else b
  }

  /** `month_stats` after the loop over the labels. */
  function MonthStats(labels: seq<Label>, nowMonth: string): map<string, MonthCount> {
    if labels == [] then map[]
    else CountMonth(MonthStats(labels[..|labels| - 1], nowMonth), labels[|labels| - 1], nowMonth)
  }

  /** `bias_stats` after the loop over the labels. */
  function BiasStats(labels: seq<Label>): map<string, BiasCount> {
    if labels == [] then map[]
    else CountBias(BiasStats(labels[..|labels| - 1]), labels[|labels| - 1])
  }

  /** Reference counts: how many labels fall in `month`, and how many of those are fraud labels. */
  function InMonth(labels: seq<Label>, nowMonth: string, month: string): nat {
    if labels == [] then 0
    else InMonth(labels[..|labels| - 1], nowMonth, month) + (if MonthOf(labels[|labels| - 1], nowMonth) == month then 1 else 0)
  }

  function FraudInMonth(labels: seq<Label>, nowMonth: string, month: string): nat {
    if labels == [] then 0
    else
      var l := labels[|labels| - 1];
      FraudInMonth(labels[..|labels| - 1], nowMonth, month) + (if MonthOf(l, nowMonth) == month && IsFraud(l) then 1 else 0)
  }

  /** Reference counts: how many fraud (or non_fraud) labels fall in `district`. */
  function InDistrict(labels: seq<Label>, district: string, fraud: bool): nat {
    if labels == [] then 0
    else
      var l := labels[|labels| - 1];
      InDistrict(labels[..|labels| - 1], district, fraud) +
      (if DistrictOf(l) == district && (if fraud then IsFraud(l) else IsNonFraud(l)) then 1 else 0)
  }

  /** `month_stats` has a key for exactly the months some label falls in. */
  lemma {:induction false} MonthKeys(labels: seq<Label>, nowMonth: string)
    ensures var m := MonthStats(labels, nowMonth);
      forall k :: k in m <==> exists i :: 0 <= i < |labels| && MonthOf(labels[i], nowMonth) == k
  {
    if labels != [] {
      var front := labels[..|labels| - 1];
      var l := labels[|labels| - 1];
      MonthKeys(front, nowMonth);
      var m := MonthStats(labels, nowMonth);
      assert m == CountMonth(MonthStats(front, nowMonth), l, nowMonth);
      forall k ensures k in m <==> exists i :: 0 <= i < |labels| && MonthOf(labels[i], nowMonth) == k {
        if k in m && k != MonthOf(l, nowMonth) {
          var i :| 0 <= i < |front| && MonthOf(front[i], nowMonth) == k;
          assert labels[i] == front[i];
        }
        if exists i :: 0 <= i < |labels| && MonthOf(labels[i], nowMonth) == k {
          var i :| 0 <= i < |labels| && MonthOf(labels[i], nowMonth) == k;
          if i < |front| {
            assert front[i] == labels[i];
          }
        }
      }
    }
  }

  /**
   * Each month's total is the number of its labels and its fraud count the
   * number of its fraud labels, so fraud never exceeds the total.
   */
  lemma {:induction false} MonthCounts(labels: seq<Label>, nowMonth: string)
    ensures var m := MonthStats(labels, nowMonth);
      (forall k :: k in m ==> (m[k].total == InMonth(labels, nowMonth, k) && m[k].fraud == FraudInMonth(labels, nowMonth, k) &&
        1 <= m[k].total && m[k].fraud <= m[k].total)) &&
      (forall k :: k !in m ==> InMonth(labels, nowMonth, k) == 0 && FraudInMonth(labels, nowMonth, k) == 0)
  {
    if labels != [] {
      var front := labels[..|labels| - 1];
      var l := labels[|labels| - 1];
      MonthCounts(front, nowMonth);
      var m0 := MonthStats(front, nowMonth);
      var m := MonthStats(labels, nowMonth);
      assert m == CountMonth(m0, l, nowMonth);
      forall k
        ensures InMonth(labels, nowMonth, k) == InMonth(front, nowMonth, k) + (if MonthOf(l, nowMonth) == k then 1 else 0)
        ensures FraudInMonth(labels, nowMonth, k) == FraudInMonth(front, nowMonth, k) + (if MonthOf(l, nowMonth) == k && IsFraud(l) then 1 else 0)
      {
      }
    }
  }

  /** The labels `bias_stats` counts: fraud and non_fraud ones. */
  predicate Counted(l: Label) { IsFraud(l) || IsNonFraud(l) }

  /** One label adds its district to `bias_stats`'s keys when it is counted, and changes no keys otherwise. */
  lemma CountBiasKeys(b: map<string, BiasCount>, l: Label)
    ensures CountBias(b, l).Keys == if Counted(l) then b.Keys + {DistrictOf(l)} else b.Keys
  {
  }

  /** Some label of `district` is a fraud or non_fraud label. */
  predicate HasCounted(labels: seq<Label>, district: string) {
    exists i :: 0 <= i < |labels| && DistrictOf(labels[i]) == district && Counted(labels[i])
  }

  lemma HasCountedSnoc(labels: seq<Label>, district: string)
    requires labels != []
    ensures var l := labels[|labels| - 1];
      HasCounted(labels, district) <==> HasCounted(labels[..|labels| - 1], district) || (DistrictOf(l) == district && Counted(l))
  {
    var front := labels[..|labels| - 1];
    if HasCounted(front, district) {
      var i :| 0 <= i < |front| && DistrictOf(front[i]) == district && Counted(front[i]);
      assert labels[i] == front[i];
    }
    if HasCounted(labels, district) {
      var i :| 0 <= i < |labels| && DistrictOf(labels[i]) == district && Counted(labels[i]);
      if i < |front| {
        assert front[i] == labels[i];
      }
    }
  }

  /**
   * `bias_stats` has a key for exactly the districts holding a fraud or
   * non_fraud label.
   */
  lemma {:induction false} BiasKeys(labels: seq<Label>)
    ensures forall d :: d in BiasStats(labels) <==> HasCounted(labels, d)
  {
    if labels != [] {
      var front := labels[..|labels| - 1];
      var l := labels[|labels| - 1];
      BiasKeys(front);
      var b0 := BiasStats(front);
      assert BiasStats(labels) == CountBias(b0, l);
      CountBiasKeys(b0, l);
      forall d ensures d in BiasStats(labels) <==> HasCounted(labels, d) {
        HasCountedSnoc(labels, d);
      }
    }
  }

  /** Each district's two counts are its numbers of fraud and non_fraud labels, at least one between them. */
  lemma {:induction false} BiasCounts(labels: seq<Label>)
    ensures var b := BiasStats(labels);
      (forall d :: d in b ==> (b[d].fraud == InDistrict(labels, d, true) && b[d].nonFraud == InDistrict(labels, d, false) &&
        1 <= b[d].fraud + b[d].nonFraud)) &&
      (forall d :: d !in b ==> InDistrict(labels, d, true) == 0 && InDistrict(labels, d, false) == 0)
  {
    if labels != [] {
      var front := labels[..|labels| - 1];
      var l := labels[|labels| - 1];
      BiasCounts(front);
      var b0 := BiasStats(front);
      var b := BiasStats(labels);
      assert b == CountBias(b0, l);
      forall d
        ensures InDistrict(labels, d, true) == InDistrict(front, d, true) + (if DistrictOf(l) == d && IsFraud(l) then 1 else 0)
        ensures InDistrict(labels, d, false) == InDistrict(front, d, false) + (if DistrictOf(l) == d && IsNonFraud(l) then 1 else 0)
      {
      }
    }
  }

  /** A label that is neither fraud nor non_fraud leaves `bias_stats` as it was. */
  lemma BiasIgnoresOther(labels: seq<Label>, l: Label)
    requires !IsFraud(l) && !IsNonFraud(l)
    ensures BiasStats(labels + [l]) == BiasStats(labels)
  {
    assert (labels + [l])[..|labels|] == labels;
  }

  // ---------------- the label loop ----------------

  /** The label loop of `_build_analytics`, filling both tallies in one pass. */
  method TallyLabels(labels: seq<Label>, nowMonth: string) returns (months: map<string, MonthCount>, bias: map<string, BiasCount>)
    ensures months == MonthStats(labels, nowMonth) && bias == BiasStats(labels)
  {
    months := map[];
    bias := map[];
    var i := 0;
    while i < |labels|
      invariant 0 <= i <= |labels|
      invariant months == MonthStats(labels[..i], nowMonth) && bias == BiasStats(labels[..i])
    {
      StatsStep(labels, i, nowMonth);
      months, bias := TallyLabel(months, bias, labels[i], nowMonth);
      i := i + 1;
    }
    assert labels[..i] == labels;
  }

  /** One round of the label loop: the label's month and, for a fraud or non_fraud label, its district are counted. */
  method TallyLabel(months: map<string, MonthCount>, bias: map<string, BiasCount>, l: Label, nowMonth: string)
    returns (months': map<string, MonthCount>, bias': map<string, BiasCount>)
    ensures months' == CountMonth(months, l, nowMonth) && bias' == CountBias(bias, l)
  {
    var k := MonthOf(l, nowMonth);
    var c := if k in months then months[k] else MonthCount(0, 0);
    c := c.(total := c.total + 1);
    if IsFraud(l) {
      c := c.(fraud := c.fraud + 1);
    }
    months' := months[k := c];
    var d := DistrictOf(l);
    var e := if d in bias then bias[d] else BiasCount(0, 0);
    bias' := bias;
    if IsFraud(l) {
      bias' := bias[d := e.(fraud := e.fraud + 1)];
    } else if IsNonFraud(l) {
      bias' := bias[d := e.(nonFraud := e.nonFraud + 1)];
    }
  }

  /** Both tallies of one more label. */
  lemma StatsStep(labels: seq<Label>, i: nat, nowMonth: string)
    requires i < |labels|
    ensures MonthStats(labels[..i + 1], nowMonth) == CountMonth(MonthStats(labels[..i], nowMonth), labels[i], nowMonth)
    ensures BiasStats(labels[..i + 1]) == CountBias(BiasStats(labels[..i]), labels[i])
  {
    assert labels[..i + 1][..i] == labels[..i];
  }

  // ---------------- rates ----------------

  /** A month's fraud rate, 0 for a month without labels. */
  function FraudRate(c: MonthCount): (r: real)
    ensures c.fraud <= c.total ==> 0.0 <= r <= 1.0
    ensures c.total == 0 ==> r == 0.0
    ensures c.total > 0 ==> r * c.total as real == c.fraud as real
  {
    if c.total > 0 then c.fraud as real / c.total as real else 0.0
  }

  /** A district's bias score, `(fraud - non_fraud) / max(fraud + non_fraud, 1)`. */
  function BiasScore(c: BiasCount): (r: real)
    ensures -1.0 <= r <= 1.0
    ensures r > 0.0 <==> c.fraud > c.nonFraud
    ensures r < 0.0 <==> c.fraud < c.nonFraud
    ensures c.fraud > 0 && c.nonFraud == 0 ==> r == 1.0
    ensures c.fraud == 0 && c.nonFraud > 0 ==> r == -1.0
  {
    var n := if c.fraud + c.nonFraud > 1 then c.fraud + c.nonFraud else 1;
    var a := c.fraud as real - c.nonFraud as real;
    RatioBounds(a, n as real);
    a / n as real
  }

  /** A ratio whose numerator is at most the denominator in size lies in [-1, 1] and keeps the numerator's sign. */
  lemma RatioBounds(a: real, n: real)
    requires n >= 1.0 && -n <= a <= n
    ensures -1.0 <= a / n <= 1.0
    ensures (a / n > 0.0 <==> a > 0.0) && (a / n < 0.0 <==> a < 0.0)
    ensures (a == n ==> a / n == 1.0) && (a == -n ==> a / n == -1.0)
  {
    assert a / n * n == a;
  }

  // ---------------- trends ----------------

  /** Python's `a < b` on strings: lexicographic by code point, a proper prefix first. */
  predicate Below(a: string, b: string)
    decreases |a|
  {
    if a == [] then b != []
    else if b == [] then false
    else if a[0] != b[0] then a[0] < b[0]
    else Below(a[1..], b[1..])
  }

  lemma {:induction false} BelowIrreflexive(a: string)
    ensures !Below(a, a)
    decreases |a|
  {
    if a != [] {
      BelowIrreflexive(a[1..]);
    }
  }

  lemma {:induction false} BelowTransitive(a: string, b: string, c: string)
    requires Below(a, b) && Below(b, c)
    ensures Below(a, c)
    decreases |a|
  {
    if a != [] && a[0] == b[0] && b[0] == c[0] {
      BelowTransitive(a[1..], b[1..], c[1..]);
    }
  }

  lemma {:induction false} BelowTotal(a: string, b: string)
    requires a != b
    ensures Below(a, b) || Below(b, a)
    decreases |a|
  {
    if a != [] && b != [] && a[0] == b[0] {
      assert a == [a[0]] + a[1..] && b == [b[0]] + b[1..];
      BelowTotal(a[1..], b[1..]);
    }
  }

  /** Strictly increasing in Python's string order, hence without repeats. */
  predicate Ascending(s: seq<string>) {
    forall i, j :: 0 <= i < j < |s| ==> Below(s[i], s[j])
  }

  /** `k` placed into an ascending list before the first larger key. */
  function InsertKey(k: string, s: seq<string>): seq<string> {
    if s == [] then [k]
    else if Below(k, s[0]) then [k] + s
    else [s[0]] + InsertKey(k, s[1..])
  }

  lemma {:induction false} InsertKeyProps(k: string, s: seq<string>)
    requires Ascending(s) && k !in s
    ensures Ascending(InsertKey(k, s))
    ensures forall x :: x in InsertKey(k, s) <==> x == k || x in s
  {
    if s != [] {
      if Below(k, s[0]) {
        forall j | 0 < j < |s| ensures Below(k, s[j]) {
          BelowTransitive(k, s[0], s[j]);
        }
      } else {
        BelowTotal(k, s[0]);
        InsertKeyProps(k, s[1..]);
        var t := InsertKey(k, s[1..]);
        assert InsertKey(k, s) == [s[0]] + t;
        forall x | x in t ensures Below(s[0], x) {
          if x != k {
            var j :| 0 <= j < |s[1..]| && s[1..][j] == x;
            assert s[j + 1] == x;
          }
        }
      }
    }
  }

  /** `sorted(...)` over a dict's keys. */
  method SortedKeys(keys: set<string>) returns (r: seq<string>)
    ensures Ascending(r)
    ensures forall k :: k in r <==> k in keys
  {
    r := [];
    var rest := keys;
    while rest != {}
      invariant Ascending(r)
      invariant forall k :: k in keys <==> k in rest || k in r
      invariant forall k :: k in r ==> k !in rest
      decreases |rest|
    {
      var k :| k in rest;
      InsertKeyProps(k, r);
      r := InsertKey(k, r);
      rest := rest - {k};
    }
  }

  datatype FraudPoint = FraudPoint(period: string, fraudRate: real, total: nat, fraud: nat)

  datatype BiasPoint = BiasPoint(district: string, biasScore: real, fraud: nat, nonFraud: nat)

  function FraudPointOf(m: map<string, MonthCount>, k: string): FraudPoint
    requires k in m
  {
    FraudPoint(k, FraudRate(m[k]), m[k].total, m[k].fraud)
  }

  function BiasPointOf(b: map<string, BiasCount>, d: string): BiasPoint
    requires d in b
  {
    BiasPoint(d, BiasScore(b[d]), b[d].fraud, b[d].nonFraud)
  }

  /**
   * `fraud_trend` and `bias_trend`: one point per month (per district) in
   * ascending key order, each carrying its tallies. Every fraud rate lies
   * in [0, 1] with fraud at most the total, and every bias score in [-1, 1].
   */
  method Trends(labels: seq<Label>, nowMonth: string) returns (fraudTrend: seq<FraudPoint>, biasTrend: seq<BiasPoint>)
    ensures var m := MonthStats(labels, nowMonth);
      (forall i, j :: 0 <= i < j < |fraudTrend| ==> Below(fraudTrend[i].period, fraudTrend[j].period)) &&
      (forall k :: k in m <==> exists i :: 0 <= i < |fraudTrend| && fraudTrend[i].period == k) &&
      (forall i :: 0 <= i < |fraudTrend| ==> fraudTrend[i].period in m && fraudTrend[i] == FraudPointOf(m, fraudTrend[i].period))
    ensures var b := BiasStats(labels);
      (forall i, j :: 0 <= i < j < |biasTrend| ==> Below(biasTrend[i].district, biasTrend[j].district)) &&
      (forall d :: d in b <==> exists i :: 0 <= i < |biasTrend| && biasTrend[i].district == d) &&
      (forall i :: 0 <= i < |biasTrend| ==> biasTrend[i].district in b && biasTrend[i] == BiasPointOf(b, biasTrend[i].district))
    ensures forall i :: 0 <= i < |fraudTrend| ==> fraudTrend[i].fraud <= fraudTrend[i].total && 0.0 <= fraudTrend[i].fraudRate <= 1.0
    ensures forall i :: 0 <= i < |biasTrend| ==> -1.0 <= biasTrend[i].biasScore <= 1.0
  {
    var months, bias := TallyLabels(labels, nowMonth);
    MonthCounts(labels, nowMonth);
    fraudTrend := FraudTrendOf(months);
    biasTrend := BiasTrendOf(bias);
  }

  /** `fraud_trend`: one point per month, in ascending order of the month keys. */
  method FraudTrendOf(m: map<string, MonthCount>) returns (t: seq<FraudPoint>)
    requires forall k :: k in m ==> m[k].fraud <= m[k].total
    ensures forall i, j :: 0 <= i < j < |t| ==> Below(t[i].period, t[j].period)
    ensures forall k :: k in m <==> exists i :: 0 <= i < |t| && t[i].period == k
    ensures forall i :: 0 <= i < |t| ==> t[i].period in m && t[i] == FraudPointOf(m, t[i].period)
    ensures forall i :: 0 <= i < |t| ==> t[i].fraud <= t[i].total && 0.0 <= t[i].fraudRate <= 1.0
  {
    var mk := SortedKeys(m.Keys);
    t := seq(|mk|, i requires 0 <= i < |mk| => FraudPointOf(m, mk[i]));
    forall k | k in m ensures exists i :: 0 <= i < |t| && t[i].period == k {
      var i :| 0 <= i < |mk| && mk[i] == k;
      assert t[i].period == k;
    }
  }

  /** `bias_trend`: one point per district, in ascending order of the district names. */
  method BiasTrendOf(b: map<string, BiasCount>) returns (t: seq<BiasPoint>)
    ensures forall i, j :: 0 <= i < j < |t| ==> Below(t[i].district, t[j].district)
    ensures forall d :: d in b <==> exists i :: 0 <= i < |t| && t[i].district == d
    ensures forall i :: 0 <= i < |t| ==> t[i].district in b && t[i] == BiasPointOf(b, t[i].district)
    ensures forall i :: 0 <= i < |t| ==> -1.0 <= t[i].biasScore <= 1.0
  {
    var bk := SortedKeys(b.Keys);
    t := seq(|bk|, i requires 0 <= i < |bk| => BiasPointOf(b, bk[i]));
    forall d | d in b ensures exists i :: 0 <= i < |t| && t[i].district == d {
      var i :| 0 <= i < |bk| && bk[i] == d;
      assert t[i].district == d;
    }
  }

  // ---------------- KPIs ----------------

  datatype Kpis = Kpis(totalCases: nat, openCases: int, closedCases: nat, avgCaseAgeDays: real,
                       fraudConfirmationRate: real, feedbackTotal: nat, fraudFeedback: nat, nonFraudFeedback: nat)

  /** Python's `round(x, digits)` on the exact value, with `scale` = 10^digits: the nearest multiple of 1/scale, ties to an even multiple. */
  function Round(x: real, scale: nat): real
    requires scale >= 1
  {
    Numeric.RoundHalfEven(Scaled(x, scale)) as real / scale as real
  }

  /** `x` in units of `1 / scale`; a value in [0, 1] lands in [0, scale]. */
  function Scaled(x: real, scale: nat): (y: real)
    requires scale >= 1
    ensures 0.0 <= x <= 1.0 ==> 0.0 <= y <= scale as real
    ensures x == 0.0 ==> y == 0.0
  {
    assert 0.0 <= x <= 1.0 ==> x * scale as real <= 1.0 * scale as real;
    x * scale as real
  }

  function Sum(s: seq<int>): int {
    if s == [] then 0 else Sum(s[..|s| - 1]) + s[|s| - 1]
  }

  /** The mean age in days of the cases that have an opening time, 0 when there are none. */
  function MeanAge(ages: seq<int>): (r: real)
    ensures ages == [] ==> r == 0.0
    ensures ages != [] ==> r * |ages| as real == Sum(ages) as real
  {
    if ages == [] then 0.0 else Sum(ages) as real / |ages| as real
  }

  /** A rate that is 0 when there is nothing to divide by. */
  function RateOrZero(part: nat, whole: nat): (r: real)
    ensures whole == 0 ==> r == 0.0
    ensures part <= whole ==> 0.0 <= r <= 1.0
    ensures whole > 0 ==> r * whole as real == part as real
  {
    if whole > 0 then part as real / whole as real else 0.0
  }

  /** The "kpis" block, from the counts the queries return and the case ages in days. */
  function KpisOf(totalCases: nat, closedCases: nat, ages: seq<int>, feedbackTotal: nat, fraudFeedback: nat, nonFraudFeedback: nat): (k: Kpis)
    ensures k.openCases + k.closedCases == k.totalCases && k.totalCases == totalCases && k.closedCases == closedCases
    ensures closedCases <= totalCases ==> k.openCases >= 0
    ensures feedbackTotal == 0 ==> k.fraudConfirmationRate == 0.0
    ensures fraudFeedback <= feedbackTotal ==> 0.0 <= k.fraudConfirmationRate <= 1.0
    ensures k.feedbackTotal == feedbackTotal && k.fraudFeedback == fraudFeedback && k.nonFraudFeedback == nonFraudFeedback
    ensures k.avgCaseAgeDays == Round(MeanAge(ages), 10)
    ensures feedbackTotal > 0 ==> k.fraudConfirmationRate == Round(fraudFeedback as real / feedbackTotal as real, 10000)
  {
    var rate := RateOrZero(fraudFeedback, feedbackTotal);
    var rounded := Round(rate, 10000);
    RoundUnit(rate, 10000);
    Kpis(totalCases, totalCases - closedCases, closedCases, Round(MeanAge(ages), 10), rounded,
         feedbackTotal, fraudFeedback, nonFraudFeedback)
  }

  /** Rounding keeps 0 at 0 and a value in [0, 1] inside [0, 1]. */
  lemma RoundUnit(x: real, scale: nat)
    requires scale >= 1
    ensures 0.0 <= x <= 1.0 ==> 0.0 <= Round(x, scale) <= 1.0
    ensures x == 0.0 ==> Round(x, scale) == 0.0
  {
    if 0.0 <= x <= 1.0 {
      var y := Scaled(x, scale);
      RoundBetween(y, scale);
      UnitQuotient(Numeric.RoundHalfEven(y), scale);
    }
  }

  /** Rounding a value between 0 and a whole number stays between them, and keeps 0. */
  lemma RoundBetween(y: real, p: nat)
    requires 0.0 <= y <= p as real
    ensures 0 <= Numeric.RoundHalfEven(y) <= p
    ensures y == 0.0 ==> Numeric.RoundHalfEven(y) == 0
  {
  }

  lemma UnitQuotient(k: int, p: nat)
    requires 0 <= k <= p && p >= 1
    ensures 0.0 <= k as real / p as real <= 1.0
    ensures k == 0 ==> k as real / p as real == 0.0
  {
  }

  datatype DistrictAlert = DistrictAlert(district: string, totalAlerts: nat, alertRate: real)

  /** `district_alerts`: a missing or empty district is "Unknown", and each count is a share of all cases. */
  function DistrictAlerts(rows: seq<(Option<string>, nat)>, totalCases: nat): (r: seq<DistrictAlert>)
    ensures |r| == |rows|
    ensures forall i :: 0 <= i < |rows| ==> (r[i].district != "" && r[i].totalAlerts == rows[i].1 &&
      (rows[i].0.Some? && rows[i].0.value != "" ==> r[i].district == rows[i].0.value) &&
      (rows[i].1 <= totalCases ==> 0.0 <= r[i].alertRate <= 1.0) && (totalCases == 0 ==> r[i].alertRate == 0.0))
  {
    seq(|rows|, i requires 0 <= i < |rows| =>
      DistrictAlert(if rows[i].0.Some? && rows[i].0.value != "" then rows[i].0.value else "Unknown",
                    rows[i].1, RateOrZero(rows[i].1, totalCases)))
  }
}
