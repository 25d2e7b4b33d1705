/**
 * Data operations: the upload guards and stored-name sanitising, dataset
 * and model versioning with a single active version, and turning the top
 * anomaly rows of a scoring run into new cases. Errors are HTTP status
 * codes; scoring, file contents and the database are inputs.
 */
module DataOps {
  import opened Wrappers
  import opened Text
  import Sorting

  // ---------------- upload guards ----------------

  /** The last index of `c` in `s`, or -1. */
  function LastIndex(s: string, c: char): (i: int)
    ensures -1 <= i < |s|
    ensures i >= 0 ==> s[i] == c && c !in s[i + 1..]
    ensures i == -1 ==> c !in s
  {
    if s == [] then -1
    else if s[|s| - 1] == c then |s| - 1
    else
      var i := LastIndex(s[..|s| - 1], c);
      assert s[i + 1..] == s[..|s| - 1][i + 1..] + [s[|s| - 1]];
      i
  }

  /**
   * `os.path.splitext(p)[1]`: from the last dot of the final component,
   * unless that component has only dots before it (so ".csv" has no
   * extension).
   */
  function SplitExt(p: string): (e: string)
    ensures e == "" || (EndsWith(p, e) && e[0] == '.' && '/' !in e && '.' !in e[1..])
  {
    var sep := LastIndex(p, '/');
    var b := p[sep + 1..];
    var dot := LastIndex(b, '.');
    if dot == -1 || forall k :: 0 <= k < dot ==> b[k] == '.' then ""
    else
      assert b[dot..] == p[sep + 1 + dot..];
      assert '/' !in b;
      b[dot..]
  }

  /** The final component has a dot with no dot after it and some other character before it. */
  predicate HasExt(b: string) {
    exists j, k :: 0 <= k < j < |b| && b[j] == '.' && '.' !in b[j + 1..] && b[k] != '.'
  }

  /** The only dot with no dot after it is the one `LastIndex` finds. */
  lemma LastDotUnique(b: string, j: nat)
    requires j < |b| && b[j] == '.' && '.' !in b[j + 1..]
    ensures LastIndex(b, '.') == j
  {
  }

  /**
   * The extension is non-empty exactly when the final component has a
   * character other than a dot before its last dot, and it is then the
   * final component's tail from that dot.
   */
  lemma SplitExtValue(p: string)
    ensures var b := p[LastIndex(p, '/') + 1..]; var e := SplitExt(p);
      (e != "" <==> HasExt(b)) && (e != "" ==> e == b[LastIndex(b, '.')..])
  {
    var b := p[LastIndex(p, '/') + 1..];
    var dot := LastIndex(b, '.');
    if HasExt(b) {
      var j, k :| 0 <= k < j < |b| && b[j] == '.' && '.' !in b[j + 1..] && b[k] != '.';
      LastDotUnique(b, j);
      assert SplitExt(p) == b[dot..];
    }
  }

  const UploadLimit: int := 20 * 1024 * 1024

  /** The uploaded file's name, "upload" when it has none. */
  function UploadName(fileName: Option<string>): (n: string)
    ensures n != ""
    ensures fileName.Some? && fileName.value != "" ==> n == fileName.value
  {
    if fileName.Some? && fileName.value != "" then fileName.value else "upload"
  }

  /** The upload checks: the (lower-cased) extension must be .csv, .xlsx or .xls, and the file at most 20 MiB. */
  function UploadGuard(fileName: Option<string>, size: nat): (r: Result<string, int>)
    ensures r.Ok? ==> r.value in {".csv", ".xlsx", ".xls"} && size <= UploadLimit
    ensures r.Err? ==> r.error == 400
    ensures var ext := Lower(SplitExt(UploadName(fileName)));
      (r.Ok? ==> r.value == ext) && (ext in {".csv", ".xlsx", ".xls"} && size <= UploadLimit ==> r.Ok?)
  {
    var ext := Lower(SplitExt(UploadName(fileName)));
    if ext !in {".csv", ".xlsx", ".xls"} then Err(400)
    else if size > UploadLimit then Err(400)
    else Ok(ext)
  }

  /** An accepted upload's name ends in one of the three extensions, in some letter case. */
  lemma AcceptedNameEnds(fileName: string, size: nat)
    requires fileName != "" && UploadGuard(Some(fileName), size).Ok?
    ensures var l := Lower(fileName);
      EndsWith(l, ".csv") || EndsWith(l, ".xlsx") || EndsWith(l, ".xls")
  {
    var e := SplitExt(fileName);
    var l := Lower(fileName);
    var x := Lower(e);
    assert x in {".csv", ".xlsx", ".xls"};
    assert e != "";
    LowerSuffix(fileName, |fileName| - |e|);
    assert l[|l| - |x|..] == x;
  }

  lemma LowerSuffix(s: string, k: nat)
    requires k <= |s|
    ensures Lower(s)[k..] == Lower(s[k..])
  {
  }

  /** The characters kept in a stored file name: `[A-Za-z0-9._-]`. */
  predicate SafeChar(c: char) {
    IsAsciiAlnum(c) || c == '.' || c == '_' || c == '-'
  }

  predicate AllSafe(s: string) {
    forall i :: 0 <= i < |s| ==> SafeChar(s[i])
  }

  /** `s` without its leading run of unsafe characters. */
  function DropUnsafe(s: string): (r: string)
    ensures |r| <= |s|
  {
    if s == [] || SafeChar(s[0]) then s else DropUnsafe(s[1..])
  }

  /** `re.sub(r"[^A-Za-z0-9._-]+", "_", s)`: each maximal run of other characters becomes one "_". */
  function Sanitize(s: string): (r: string)
    ensures |r| <= |s|
    decreases |s|
  {
    if s == [] then []
    else if SafeChar(s[0]) then [s[0]] + Sanitize(s[1..])
    else "_" + Sanitize(DropUnsafe(s[1..]))
  }

  /** What the leading run leaves: a suffix that is empty or starts with a kept character, after only unsafe ones. */
  lemma {:induction false} DropUnsafeMeaning(s: string)
    ensures var r := DropUnsafe(s);
      r == s[|s| - |r|..] && (r == [] || SafeChar(r[0])) &&
      forall i :: 0 <= i < |s| - |r| ==> !SafeChar(s[i])
    decreases |s|
  {
    if s != [] && !SafeChar(s[0]) {
      DropUnsafeMeaning(s[1..]);
    }
  }

  /** The stored name holds only kept characters and is empty only for an empty name. */
  lemma {:induction false} SanitizeMeaning(s: string)
    ensures AllSafe(Sanitize(s)) && (Sanitize(s) == [] <==> s == [])
    decreases |s|
  {
    if s != [] {
      if SafeChar(s[0]) {
        SanitizeMeaning(s[1..]);
      } else {
        SanitizeMeaning(DropUnsafe(s[1..]));
      }
    }
  }

  /** A name made only of kept characters is stored as it is. */
  lemma {:induction false} SanitizeSafe(s: string)
    requires AllSafe(s)
    ensures Sanitize(s) == s
    decreases |s|
  {
    if s != [] {
      SanitizeSafe(s[1..]);
    }
  }

  lemma SanitizeIdempotent(s: string)
    ensures Sanitize(Sanitize(s)) == Sanitize(s)
  {
    SanitizeMeaning(s);
    SanitizeSafe(Sanitize(s));
  }

  /** A non-empty run of unsafe characters becomes a single "_". */
  lemma RunBecomesOne(s: string)
    requires s != [] && forall i :: 0 <= i < |s| ==> !SafeChar(s[i])
    ensures Sanitize(s) == "_"
  {
    DropUnsafeMeaning(s[1..]);
    assert DropUnsafe(s[1..]) == [];
  }

  /** Dropping the unsafe run of `a + b` where `a` still has a safe character drops it from `a` alone. */
  lemma DropUnsafeAppend(a: string, b: string)
    requires DropUnsafe(a) != []
    ensures DropUnsafe(a + b) == DropUnsafe(a) + b
    decreases |a|
  {
    if !SafeChar(a[0]) {
      Sorting.AppendTail(a, b);
      DropUnsafeAppend(a[1..], b);
    }
  }

  /** Dropping the unsafe run of `a + b` where `a` is all unsafe drops `a` and then `b`'s run. */
  lemma DropUnsafeSkip(a: string, b: string)
    requires DropUnsafe(a) == []
    ensures DropUnsafe(a + b) == DropUnsafe(b)
    decreases |a|
  {
    if a != [] {
      assert !SafeChar(a[0]) && DropUnsafe(a[1..]) == [];
      Sorting.AppendTail(a, b);
      assert DropUnsafe(a + b) == DropUnsafe(a[1..] + b);
      DropUnsafeSkip(a[1..], b);
    } else {
      assert a + b == b;
    }
  }

  /**
   * Sanitising works piecewise wherever the pieces do not split a run of
   * unsafe characters: with the split next to a kept character, the name
   * is the two halves sanitised apart.
   */
  lemma {:induction false} SanitizeAppend(a: string, b: string)
    requires a == [] || b == [] || SafeChar(a[|a| - 1]) || SafeChar(b[0])
    ensures Sanitize(a + b) == Sanitize(a) + Sanitize(b)
    decreases |a|
  {
    if a == [] {
      assert a + b == b;
    } else if b == [] {
      assert a + b == a;
    } else if SafeChar(a[0]) {
      SanitizeAppend(a[1..], b);
      SanitizeSafeHead(a, b);
    } else if DropUnsafe(a[1..]) == [] {
      SanitizeRunThenSafe(a, b);
    } else {
      var d := DropUnsafe(a[1..]);
      DropUnsafeMeaning(a[1..]);
      assert d[|d| - 1] == a[|a| - 1];
      SanitizeAppend(d, b);
      SanitizeRunInside(a, b);
    }
  }

  lemma SanitizeSafeHead(a: string, b: string)
    requires a != [] && SafeChar(a[0])
    requires Sanitize(a[1..] + b) == Sanitize(a[1..]) + Sanitize(b)
    ensures Sanitize(a + b) == Sanitize(a) + Sanitize(b)
  {
    var c := a + b;
    Sorting.AppendTail(a, b);
    SanitizeKeptHead(c);
    SanitizeKeptHead(a);
    Sorting.AppendAssoc([a[0]], Sanitize(a[1..]), Sanitize(b));
  }

  lemma SanitizeKeptHead(s: string)
    requires s != [] && SafeChar(s[0])
    ensures Sanitize(s) == [s[0]] + Sanitize(s[1..])
  {
  }

  lemma SanitizeRunThenSafe(a: string, b: string)
    requires a != [] && b != [] && !SafeChar(a[0]) && DropUnsafe(a[1..]) == []
    requires SafeChar(a[|a| - 1]) || SafeChar(b[0])
    ensures Sanitize(a + b) == Sanitize(a) + Sanitize(b)
  {
    RunThenSafeHead(a, b);
    var c := a + b;
    Sorting.AppendTail(a, b);
    DropUnsafeSkip(a[1..], b);
    var d := DropUnsafe(c[1..]);
    assert d == b;
    assert Sanitize(c) == "_" + Sanitize(d);
    assert Sanitize(a) == "_";
  }

  /** When `a` is one run of unsafe characters, a split next to a kept character puts that character first in `b`. */
  lemma RunThenSafeHead(a: string, b: string)
    requires a != [] && b != [] && !SafeChar(a[0]) && DropUnsafe(a[1..]) == []
    requires SafeChar(a[|a| - 1]) || SafeChar(b[0])
    ensures SafeChar(b[0])
  {
    DropUnsafeMeaning(a[1..]);
    if |a| > 1 {
      assert a[|a| - 1] == a[1..][|a| - 2];
    }
  }

  lemma SanitizeRunInside(a: string, b: string)
    requires a != [] && !SafeChar(a[0]) && DropUnsafe(a[1..]) != []
    requires Sanitize(DropUnsafe(a[1..]) + b) == Sanitize(DropUnsafe(a[1..])) + Sanitize(b)
    ensures Sanitize(a + b) == Sanitize(a) + Sanitize(b)
  {
    var c := a + b;
    var d := DropUnsafe(a[1..]);
    Sorting.AppendTail(a, b);
    DropUnsafeAppend(a[1..], b);
    SanitizeUnsafeHead(c);
    SanitizeUnsafeHead(a);
    Sorting.AppendAssoc("_", Sanitize(d), Sanitize(b));
  }

  lemma SanitizeUnsafeHead(s: string)
    requires s != [] && !SafeChar(s[0])
    ensures Sanitize(s) == "_" + Sanitize(DropUnsafe(s[1..]))
  {
  }

  // ---------------- versions ----------------

  /** Where an accepted upload's snapshot is written: its sanitised name under "data/datasets/". */
  function SnapshotPath(name: string): (p: string)
    ensures |p| >= 14 && p[..14] == "data/datasets/" && AllSafe(p[14..])
    ensures |p| > 14 <==> name != []
  {
    SanitizeMeaning(name);
    assert ("data/datasets/" + Sanitize(name))[14..] == Sanitize(name);
    "data/datasets/" + Sanitize(name)
  }

  datatype DatasetVersion = DatasetVersion(filename: string, rowCount: nat, status: string, uploadedBy: Option<string>)

  datatype ModelVersion = ModelVersion(id: int, filename: string, isActive: bool)

  /** Every version marked "archived", nothing else changed. */
  function Archived(vs: seq<DatasetVersion>): (r: seq<DatasetVersion>)
    ensures |r| == |vs| && forall i :: 0 <= i < |vs| ==> r[i] == vs[i].(status := "archived")
  {
    seq(|vs|, i requires 0 <= i < |vs| => vs[i].(status := "archived"))
  }

  /** What an accepted upload stores: the previous versions archived and the new one active. */
  function AfterUpload(vs: seq<DatasetVersion>, v: DatasetVersion): seq<DatasetVersion> {
    Archived(vs) + [v.(status := "active")]
  }

  /** After an upload exactly one version is active, the new one, and the older ones keep their data. */
  lemma AfterUploadOneActive(vs: seq<DatasetVersion>, v: DatasetVersion)
    ensures var r := AfterUpload(vs, v);
      |r| == |vs| + 1 && r[|vs|] == v.(status := "active") &&
      (forall i :: 0 <= i < |r| ==> (r[i].status == "active" <==> i == |vs|)) &&
      (forall i :: 0 <= i < |vs| ==> r[i].filename == vs[i].filename && r[i].rowCount == vs[i].rowCount)
  {
  }

  /** The first index holding model `id`, or -1. */
  function IndexOfModel(ms: seq<ModelVersion>, id: int): (i: int)
    ensures -1 <= i < |ms|
    ensures i >= 0 ==> ms[i].id == id && forall k :: 0 <= k < i ==> ms[k].id != id
    ensures i == -1 ==> forall k :: 0 <= k < |ms| ==> ms[k].id != id
  {
    if ms == [] then -1
    else if ms[0].id == id then 0
    else
      var i := IndexOfModel(ms[1..], id);
      if i == -1 then -1 else i + 1
  }

  /** `activate_model`: all versions off, then the first with the id on; 404 for an unknown id. */
  function Activated(ms: seq<ModelVersion>, id: int): Result<seq<ModelVersion>, int> {
    var j := IndexOfModel(ms, id);
    if j == -1 then Err(404)
    else Ok(seq(|ms|, i requires 0 <= i < |ms| => ms[i].(isActive := i == j)))
  }

  /** An activation succeeds exactly for a known id and leaves exactly one version active, one with that id. */
  lemma ActivatedMeaning(ms: seq<ModelVersion>, id: int)
    ensures var r := Activated(ms, id);
      (r.Ok? <==> exists k :: 0 <= k < |ms| && ms[k].id == id) &&
      (r.Err? ==> r.error == 404) &&
      (r.Ok? ==> (|r.value| == |ms| &&
        (exists j :: 0 <= j < |ms| && r.value[j].isActive && r.value[j].id == id &&
          forall i :: 0 <= i < |ms| && i != j ==> !r.value[i].isActive) &&
        (forall i :: 0 <= i < |ms| ==> r.value[i].id == ms[i].id && r.value[i].filename == ms[i].filename)))
  {
    var j := IndexOfModel(ms, id);
    if j != -1 {
      var r := Activated(ms, id).value;
      assert r[j].isActive && r[j].id == id;
    }
  }

  class Registry {
    var datasets: seq<DatasetVersion>
    var models: seq<ModelVersion>

    constructor ()
      ensures datasets == [] && models == []
    {
      datasets := [];
      models := [];
    }

    /**
     * `upload_dataset`: the guards, then the ingest outcome (the row
     * count, or the failure that the handler turns into 400); on success
     * the versions are archived and the new one added as active.
     */
    method UploadDataset(fileName: Option<string>, size: nat, ingested: Result<nat, string>, uploader: Option<string>)
      returns (r: Result<(nat, string), int>)
      modifies this
      ensures UploadGuard(fileName, size).Err? || ingested.Err? ==> r == Err(400) && datasets == old(datasets)
      ensures UploadGuard(fileName, size).Ok? && ingested.Ok? ==> (
        r == Ok((ingested.value, SnapshotPath(UploadName(fileName)))) &&
        datasets == AfterUpload(old(datasets), DatasetVersion(UploadName(fileName), ingested.value, "active", uploader)))
      ensures models == old(models)
    {
      if UploadGuard(fileName, size).Err? || ingested.Err? {
        return Err(400);
      }
      var name := UploadName(fileName);
      AddActive(DatasetVersion(name, ingested.value, "active", uploader));
      r := Ok((ingested.value, SnapshotPath(name)));
    }

    /** Archive every stored version and add `v` as the active one. */
    method AddActive(v: DatasetVersion)
      modifies this
      ensures datasets == AfterUpload(old(datasets), v) && models == old(models)
    {
      datasets := AfterUpload(datasets, v);
    }

    /** `upload_model`: a new, inactive version. */
    method UploadModel(id: int, fileName: string)
      modifies this
      ensures models == old(models) + [ModelVersion(id, fileName, false)] && datasets == old(datasets)
    {
      models := models + [ModelVersion(id, fileName, false)];
    }

    /** `activate_model`. */
    method ActivateModel(id: int) returns (r: Result<int, int>)
      modifies this
      ensures Activated(old(models), id).Err? ==> r == Err(404) && models == old(models)
      ensures Activated(old(models), id).Ok? ==> r == Ok(id) && models == Activated(old(models), id).value
      ensures datasets == old(datasets)
    {
      var j := IndexOfModel(models, id);
      if j == -1 {
        return Err(404);
      }
      var ms := models;
      models := seq(|ms|, i requires 0 <= i < |ms| => ms[i].(isActive := i == j));
      r := Ok(id);
    }
  }

  // ---------------- cases from anomalies ----------------

  /** A top-scored row: its FID (the "FID" column, else "fid"), coordinates, rank and fused score. */
  datatype TopRow = TopRow(fid: Option<int>, lat: Option<real>, lng: Option<real>, rank: Option<int>, fusedScore: real)

  datatype Building = Building(name: string, lat: Option<real>, lng: Option<real>)

  /** A case created from an anomaly, with its CREATE activity's actor and note. */
  datatype NewCase = NewCase(id: int, buildingId: Option<int>, notes: string, createdBy: Option<string>, status: string,
                             actor: string, note: string)

  /** The compact anomaly record returned for a row. */
  datatype Anomaly = Anomaly(rank: int, buildingId: Option<int>, lat: Option<real>, lng: Option<real>, fusedScore: real, caseId: int)

  /** The store the loop changes: buildings by id, the next fresh building and case ids, and the cases created. */
  datatype Store = Store(buildings: map<int, Building>, nextBuilding: int, nextCase: int, cases: seq<NewCase>, anomalies: seq<Anomaly>)

  predicate FreshIds(s: Store) {
    forall k :: k in s.buildings ==> k < s.nextBuilding
  }

  /** `top_percent` must lie in (0, 50]. */
  predicate TopPercentOk(p: real) {
    0.0 < p <= 50.0
  }

  /** The building a row maps to: its FID, if a building has that id. */
  function FindBuilding(buildings: map<int, Building>, row: TopRow): (b: Option<int>)
    ensures b.Some? ==> b.value in buildings && row.fid == b
  {
    if row.fid.Some? && row.fid.value in buildings then row.fid else None
  }

  /** One loop iteration: resolve or create the building, backfill coordinates, add the case and its record. */
  function Step(s: Store, row: TopRow, creator: Option<string>, fmt3: real -> string): Store {
    var found := FindBuilding(s.buildings, row);
    var both := row.lat.Some? && row.lng.Some?;
    var (buildings, bid, next) :=
      if found.None? && both then
        (s.buildings[s.nextBuilding := Building(if row.rank.Some? then "Anomaly #" + IntText(row.rank.value) else "Anomaly", row.lat, row.lng)],
         Some(s.nextBuilding), s.nextBuilding + 1)
      else if found.Some? && (s.buildings[found.value].lat.None? || s.buildings[found.value].lng.None?) && both then
        (s.buildings[found.value := s.buildings[found.value].(lat := row.lat, lng := row.lng)], found, s.nextBuilding)
      else (s.buildings, found, s.nextBuilding);
    var actor := if creator.Some? && creator.value != "" then creator.value else "system";
    var c := NewCase(s.nextCase, bid, "Case created from anomaly scoring", creator, "New", actor,
                     "Case created from anomaly scoring (fused_score=" + fmt3(row.fusedScore) + ")");
    var a := Anomaly(if row.rank.Some? then row.rank.value else 0, bid, row.lat, row.lng, row.fusedScore, s.nextCase);
    Store(buildings, next, s.nextCase + 1, s.cases + [c], s.anomalies + [a])
  }

  /** Decimal text of an integer. */
  function IntText(n: int): string
    decreases if n < 0 then -n + 1 else n
  {
    if n < 0 then "-" + IntText(-n)
    else if n < 10 then [['0', '1', '2', '3', '4', '5', '6', '7', '8', '9'][n]]
    else IntText(n / 10) + IntText(n % 10)
  }

  /** The store after the rows, in order. */
  function Run(s: Store, rows: seq<TopRow>, creator: Option<string>, fmt3: real -> string): Store
    decreases |rows|
  {
    if rows == [] then s else Run(Step(s, rows[0], creator, fmt3), rows[1..], creator, fmt3)
  }

  lemma {:induction false} RunSnoc(s: Store, rows: seq<TopRow>, row: TopRow, creator: Option<string>, fmt3: real -> string)
    ensures Run(s, rows + [row], creator, fmt3) == Step(Run(s, rows, creator, fmt3), row, creator, fmt3)
    decreases |rows|
  {
    if rows == [] {
      assert rows + [row] == [row];
    } else {
      assert (rows + [row])[1..] == rows[1..] + [row];
      RunSnoc(Step(s, rows[0], creator, fmt3), rows[1..], row, creator, fmt3);
    }
  }

  /**
   * `infer_and_create_cases` after validation and scoring: 400 for a
   * `top_percent` outside (0, 50], a failed validation or a failed
   * scoring; otherwise the store after one step per top row.
   */
  method InferAndCreateCases(s0: Store, topPercent: real, scored: Result<seq<TopRow>, string>,
                             creator: Option<string>, fmt3: real -> string) returns (r: Result<Store, int>)
    ensures !TopPercentOk(topPercent) ==> r == Err(400)
    ensures TopPercentOk(topPercent) && scored.Err? ==> r == Err(400)
    ensures TopPercentOk(topPercent) && scored.Ok? ==> r == Ok(Run(s0, scored.value, creator, fmt3))
  {
    if topPercent <= 0.0 || topPercent > 50.0 {
      return Err(400);
    }
    if scored.Err? {
      return Err(400);
    }
    var rows := scored.value;
    var s := s0;
    var i := 0;
    while i < |rows|
      invariant 0 <= i <= |rows|
      invariant s == Run(s0, rows[..i], creator, fmt3)
    {
      RunSnoc(s0, rows[..i], rows[i], creator, fmt3);
      assert rows[..i + 1] == rows[..i] + [rows[i]];
      s := Step(s, rows[i], creator, fmt3);
      i := i + 1;
    }
    assert rows[..i] == rows;
    r := Ok(s);
  }

  /**
   * One step adds one "New" case with a CREATE record and one anomaly
   * pointing at it; it creates a placeholder building exactly when the row
   * maps to no building and has both coordinates; it backfills an
   * existing building only when that building misses a coordinate and the
   * row has both; any other building is left as it was.
   */
  lemma StepMeaning(s: Store, row: TopRow, creator: Option<string>, fmt3: real -> string)
    requires FreshIds(s)
    ensures var s' := Step(s, row, creator, fmt3);
      var found := FindBuilding(s.buildings, row);
      var both := row.lat.Some? && row.lng.Some?;
      FreshIds(s') && s'.nextCase == s.nextCase + 1 &&
      s'.cases == s.cases + [s'.cases[|s.cases|]] && s'.anomalies == s.anomalies + [s'.anomalies[|s.anomalies|]] &&
      s'.cases[|s.cases|].status == "New" && s'.cases[|s.cases|].id == s.nextCase &&
      s'.anomalies[|s.anomalies|].caseId == s.nextCase &&
      s'.anomalies[|s.anomalies|].buildingId == s'.cases[|s.cases|].buildingId &&
      (s'.buildings.Keys - s.buildings.Keys != {} <==> found.None? && both) &&
      (found.None? && both ==> (s'.cases[|s.cases|].buildingId == Some(s.nextBuilding) &&
        s'.buildings[s.nextBuilding].lat == row.lat && s'.buildings[s.nextBuilding].lng == row.lng)) &&
      (forall k :: k in s.buildings && s'.buildings[k] != s.buildings[k] ==>
        found == Some(k) && both && (s.buildings[k].lat.None? || s.buildings[k].lng.None?) &&
        s'.buildings[k] == s.buildings[k].(lat := row.lat, lng := row.lng)) &&
      (forall k :: k in s.buildings ==> k in s'.buildings)
  {
    var s' := Step(s, row, creator, fmt3);
    var found := FindBuilding(s.buildings, row);
    var both := row.lat.Some? && row.lng.Some?;
    assert s.nextBuilding !in s.buildings;
    if found.None? && both {
      assert s.nextBuilding in s'.buildings.Keys - s.buildings.Keys;
    }
  }

  /** The run adds exactly one case and one anomaly per top row, so the anomaly count is the number of top rows. */
  lemma {:induction false} RunCounts(s: Store, rows: seq<TopRow>, creator: Option<string>, fmt3: real -> string)
    ensures var s' := Run(s, rows, creator, fmt3);
      |s'.cases| == |s.cases| + |rows| && |s'.anomalies| == |s.anomalies| + |rows| &&
      s'.cases[..|s.cases|] == s.cases &&
      (forall i :: |s.cases| <= i < |s'.cases| ==> s'.cases[i].status == "New")
    decreases |rows|
  {
    if rows != [] {
      var t := Step(s, rows[0], creator, fmt3);
      RunCounts(t, rows[1..], creator, fmt3);
      var s' := Run(t, rows[1..], creator, fmt3);
      assert s'.cases[..|s.cases|] == s'.cases[..|t.cases|][..|s.cases|];
    }
  }
}
