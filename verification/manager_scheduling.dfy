/**
 * The manager's scheduling router: ranked inspector suggestions for a
 * place, and greedy auto-assignment of cases to inspectors with the load
 * bumped after each pick and back-to-back appointment slots. Errors are
 * HTTP status codes. The great-circle distance is a parameter; times count
 * microseconds.
 */
module ManagerScheduling {
  import opened Wrappers
  import opened Sorting
  import opened Numeric

  datatype Inspector = Inspector(id: int, name: string, homeLat: Option<real>, homeLng: Option<real>)

  /** A building's coordinates; either may be missing. */
  datatype Site = Site(lat: Option<real>, lng: Option<real>)

  /** Open (pending or accepted) appointments per inspector id. */
  type Loads = map<int, nat>

  /** `loads.get(id, 0)`. */
  function LoadOf(loads: Loads, id: int): nat {
    if id in loads then loads[id] else 0
  }

  /** `round(x, 3)`, ties to even, on exact reals. */
  function Round3(x: real): real {
    RoundHalfEven(x * 1000.0) as real / 1000.0
  }

  /** The inspector is ranked by distance: proximity strategy and both home coordinates known. */
  predicate UsesDistance(strategy: string, ins: Inspector) {
    strategy == "proximity" && ins.homeLat.Some? && ins.homeLng.Some?
  }

  // ---------------- suggest ----------------

  datatype SuggestRequest = SuggestRequest(strategy: string, caseId: Option<int>, lat: Option<real>, lng: Option<real>, topK: int)

  datatype Suggestion = Suggestion(inspectorId: int, inspectorName: string, score: real, reason: string)

  /**
   * The place to rank for: the request's coordinates, or, when a (non-zero)
   * case id is given and a coordinate is missing, both coordinates of the
   * case's building. `siteOf` is `None` for a missing case or building.
   */
  function SuggestTarget(req: SuggestRequest, siteOf: int -> Option<Site>): Result<(real, real), int> {
    var lookup := req.caseId.Some? && req.caseId.value != 0 && (req.lat.None? || req.lng.None?);
    if lookup && siteOf(req.caseId.value).None? then Err(404)
    else
      var lat := if lookup then siteOf(req.caseId.value).value.lat else req.lat;
      var lng := if lookup then siteOf(req.caseId.value).value.lng else req.lng;
      if lat.None? || lng.None? then Err(400) else Ok((lat.value, lng.value))
  }

  /** One inspector's suggestion: the rounded distance from home under "proximity", else the open load. */
  function SuggestionFor(strategy: string, ins: Inspector, target: (real, real), loads: Loads,
                         dist: (real, real, real, real) -> real): Suggestion {
    if UsesDistance(strategy, ins) then
      Suggestion(ins.id, ins.name, Round3(dist(target.0, target.1, ins.homeLat.value, ins.homeLng.value)), "distance_km")
    else Suggestion(ins.id, ins.name, LoadOf(loads, ins.id) as real, "current_load")
  }

  function SuggestionsFor(strategy: string, inspectors: seq<Inspector>, target: (real, real), loads: Loads,
                          dist: (real, real, real, real) -> real): (s: seq<Suggestion>)
    ensures |s| == |inspectors| && forall j :: 0 <= j < |inspectors| ==> s[j] == SuggestionFor(strategy, inspectors[j], target, loads, dist)
  {
    seq(|inspectors|, j requires 0 <= j < |inspectors| => SuggestionFor(strategy, inspectors[j], target, loads, dist))
  }

  function SuggestScore(s: Suggestion): real {
    s.score
  }

  /** Python's `s[:k]`: a negative `k` drops that many from the end. */
  function Head<T>(s: seq<T>, k: int): (r: seq<T>)
    ensures k >= 0 ==> |r| == (if k < |s| then k else |s|)
    ensures k < 0 ==> |r| == (if |s| + k > 0 then |s| + k else 0)
    ensures r == s[..|r|]
  {
    var m := if k >= 0 then (if k < |s| then k else |s|) else (if |s| + k > 0 then |s| + k else 0);
    s[..m]
  }

  function SuggestSpec(req: SuggestRequest, inspectors: seq<Inspector>, loads: Loads, siteOf: int -> Option<Site>,
                       dist: (real, real, real, real) -> real): Result<seq<Suggestion>, int> {
    match SuggestTarget(req, siteOf)
    case Err(e) => Err(e)
    case Ok(t) => Ok(Head(SortBy(SuggestionsFor(req.strategy, inspectors, t, loads, dist), SuggestScore), req.topK))
  }

  /** `suggest`: score every active inspector, sort ascending (stable) and keep `top_k`. */
  method Suggest(req: SuggestRequest, inspectors: seq<Inspector>, loads: Loads, siteOf: int -> Option<Site>,
                 dist: (real, real, real, real) -> real) returns (r: Result<seq<Suggestion>, int>)
    ensures r == SuggestSpec(req, inspectors, loads, siteOf, dist)
  {
    var target := SuggestTarget(req, siteOf);
    if target.Err? {
      return Err(target.error);
    }
    var scores: seq<Suggestion> := [];
    var j := 0;
    while j < |inspectors|
      invariant 0 <= j <= |inspectors|
      invariant scores == SuggestionsFor(req.strategy, inspectors[..j], target.value, loads, dist)
    {
      scores := scores + [SuggestionFor(req.strategy, inspectors[j], target.value, loads, dist)];
      j := j + 1;
      assert inspectors[..j] == inspectors[..j - 1] + [inspectors[j - 1]];
    }
    assert inspectors[..j] == inspectors;
    r := Ok(Head(SortBy(scores, SuggestScore), req.topK));
  }

  /**
   * A request with both coordinates needs no lookup; otherwise a truthy
   * case id is looked up (404 when the case or building is missing), and
   * a place still without both coordinates is 400.
   */
  lemma SuggestTargetMeaning(req: SuggestRequest, siteOf: int -> Option<Site>)
    ensures var r := SuggestTarget(req, siteOf);
      (req.lat.Some? && req.lng.Some? ==> r == Ok((req.lat.value, req.lng.value))) &&
      ((req.lat.None? || req.lng.None?) && (req.caseId.None? || req.caseId.value == 0) ==> r == Err(400)) &&
      ((req.lat.None? || req.lng.None?) && req.caseId.Some? && req.caseId.value != 0 ==>
        r == (match siteOf(req.caseId.value)
              case None => Err(404)
              case Some(s) => if s.lat.Some? && s.lng.Some? then Ok((s.lat.value, s.lng.value)) else Err(400)))
  {
  }

  /**
   * The suggestions are in ascending score order, each is an inspector's
   * suggestion, a non-negative `top_k` keeps that many (or all), none left
   * out scores less than one kept, and the reason is "distance_km" exactly
   * for the inspectors ranked by distance.
   */
  lemma SuggestMeaning(req: SuggestRequest, inspectors: seq<Inspector>, loads: Loads, siteOf: int -> Option<Site>,
                       dist: (real, real, real, real) -> real)
    requires SuggestTarget(req, siteOf).Ok?
    ensures var all := SuggestionsFor(req.strategy, inspectors, SuggestTarget(req, siteOf).value, loads, dist);
      var out := SuggestSpec(req, inspectors, loads, siteOf, dist).value;
      (forall i, j :: 0 <= i < j < |out| ==> out[i].score <= out[j].score) &&
      (forall i :: 0 <= i < |out| ==> out[i] in all) &&
      (req.topK >= 0 ==> |out| == (if req.topK < |all| then req.topK else |all|)) &&
      (forall i, s :: 0 <= i < |out| && s in all && s !in out ==> out[i].score <= s.score) &&
      (forall j :: 0 <= j < |inspectors| ==> (all[j].reason == "distance_km" <==> UsesDistance(req.strategy, inspectors[j])))
  {
    var all := SuggestionsFor(req.strategy, inspectors, SuggestTarget(req, siteOf).value, loads, dist);
    var out := SuggestSpec(req, inspectors, loads, siteOf, dist).value;
    TopPrefix(all, SuggestScore, |out|);
    forall i, j | 0 <= i < j < |out| ensures out[i].score <= out[j].score {
      assert SuggestScore(out[i]) <= SuggestScore(out[j]);
    }
    forall i, s | 0 <= i < |out| && s in all && s !in out ensures out[i].score <= s.score {
      assert SuggestScore(out[i]) <= SuggestScore(s);
    }
  }

  /** The first `m` of a stable sort: ascending, drawn from the input, and no element left out is smaller. */
  lemma TopPrefix<T>(all: seq<T>, key: T -> real, m: nat)
    requires m <= |all|
    ensures var out := SortBy(all, key)[..m];
      SortedBy(out, key) &&
      (forall i :: 0 <= i < |out| ==> out[i] in all) &&
      (forall i, s :: 0 <= i < |out| && s in all && s !in out ==> key(out[i]) <= key(s))
  {
    var sorted := SortBy(all, key);
    var out := sorted[..m];
    forall i | 0 <= i < |out| ensures out[i] in all {
      SortByMembers(all, key, out[i]);
    }
    forall i, s | 0 <= i < |out| && s in all && s !in out ensures key(out[i]) <= key(s) {
      SortByMembers(all, key, s);
      var p :| 0 <= p < |sorted| && sorted[p] == s;
      forall q | 0 <= q < m ensures sorted[q] != s {
        assert out[q] in out;
      }
      assert key(sorted[i]) <= key(sorted[p]);
    }
  }

  // ---------------- auto_assign ----------------

  /** A requested case: its id and its building's site, `None` without a building. */
  datatype CaseRow = CaseRow(id: int, building: Option<Site>)

  /** The appointment created for a case (slot, status, notes) and the result row reported for it. */
  datatype Assignment = Assignment(caseId: int, inspectorId: int, reason: string, score: real, start: int, end: int,
                                   status: string, notes: string)

  const MicrosPerMinute: int := 60000000

  /** One slot: `duration_minutes` minutes, in microseconds. */
  function Slot(minutes: int): int {
    minutes * MicrosPerMinute
  }

  /** The site can be scored: every inspector ranked by distance needs both of its coordinates. */
  predicate Locatable(strategy: string, inspectors: seq<Inspector>, site: Site) {
    forall j :: 0 <= j < |inspectors| && UsesDistance(strategy, inspectors[j]) ==> site.lat.Some? && site.lng.Some?
  }

  /** `distance + 0.5 * load` for an inspector ranked by distance, else the load. */
  function AssignScore(strategy: string, ins: Inspector, site: Site, loads: Loads, dist: (real, real, real, real) -> real): real
    requires UsesDistance(strategy, ins) ==> site.lat.Some? && site.lng.Some?
  {
    if UsesDistance(strategy, ins) then
      dist(site.lat.value, site.lng.value, ins.homeLat.value, ins.homeLng.value) + 0.5 * LoadOf(loads, ins.id) as real
    else LoadOf(loads, ins.id) as real
  }

  function AssignScores(strategy: string, inspectors: seq<Inspector>, site: Site, loads: Loads,
                        dist: (real, real, real, real) -> real): (s: seq<real>)
    requires Locatable(strategy, inspectors, site)
    ensures |s| == |inspectors| && forall j :: 0 <= j < |inspectors| ==> s[j] == AssignScore(strategy, inspectors[j], site, loads, dist)
  {
    seq(|inspectors|, j requires 0 <= j < |inspectors| => AssignScore(strategy, inspectors[j], site, loads, dist))
  }

  function Real(x: real): real {
    x
  }

  /** `scored.sort(key=score)[0]`: the stable sort puts the first inspector with the lowest score in front. */
  function BestIndex(scores: seq<real>): (j: nat)
    requires scores != []
    ensures j < |scores|
  {
    FirstMin(scores, Real)
  }

  /** The open loads after the chosen inspector takes one more appointment. */
  function Bump(loads: Loads, id: int): Loads {
    loads[id := LoadOf(loads, id) + 1]
  }

  /** The assignments of the cases from position `idx` on, or the error that aborts the request. */
  function AssignFrom(cases: seq<CaseRow>, idx: nat, inspectors: seq<Inspector>, strategy: string, loads: Loads,
                      base: int, minutes: int, dist: (real, real, real, real) -> real): Result<seq<Assignment>, int>
    requires inspectors != [] && idx <= |cases|
    decreases |cases| - idx
  {
    if idx == |cases| then Ok([])
    else if cases[idx].building.None? then AssignFrom(cases, idx + 1, inspectors, strategy, loads, base, minutes, dist)
    else
      var site := cases[idx].building.value;
      if !Locatable(strategy, inspectors, site) then Err(500)
      else
        var a := PickFor(cases[idx].id, idx, AssignScores(strategy, inspectors, site, loads, dist), inspectors, strategy, base, minutes);
        Prepend([a], AssignFrom(cases, idx + 1, inspectors, strategy, Bump(loads, a.inspectorId), base, minutes, dist))
  }

  /** The appointment for case `caseId` at position `idx`: the first inspector with the lowest score. */
  function PickFor(caseId: int, idx: nat, scores: seq<real>, inspectors: seq<Inspector>, strategy: string,
                   base: int, minutes: int): Assignment
    requires |scores| == |inspectors| && inspectors != []
  {
    var j := BestIndex(scores);
    var best := inspectors[j];
    var start := base + idx * Slot(minutes);
    Assignment(caseId, best.id, if UsesDistance(strategy, best) then "distance_km" else "balanced_load",
               scores[j], start, start + Slot(minutes), "pending", "auto-assign:" + strategy)
  }

  /** `auto_assign`: 404 with no case, 400 with no active inspector. */
  function AutoAssignSpec(cases: seq<CaseRow>, inspectors: seq<Inspector>, strategy: string, loads: Loads,
                          base: int, minutes: int, dist: (real, real, real, real) -> real): Result<seq<Assignment>, int> {
    if cases == [] then Err(404)
    else if inspectors == [] then Err(400)
    else AssignFrom(cases, 0, inspectors, strategy, loads, base, minutes, dist)
  }

  function Prepend(done: seq<Assignment>, r: Result<seq<Assignment>, int>): (p: Result<seq<Assignment>, int>)
    ensures r.Err? ==> p == r
    ensures r.Ok? ==> p.Ok? && p.value == done + r.value
  {
    match r
    case Ok(rest) => Ok(done + rest)
    case Err(e) => Err(e)
  }

  /** One unfolding of `AssignFrom` at a case with a locatable building. */
  lemma AssignFromStep(cases: seq<CaseRow>, idx: nat, inspectors: seq<Inspector>, strategy: string, loads: Loads,
                       base: int, minutes: int, dist: (real, real, real, real) -> real)
    requires inspectors != [] && idx < |cases| && cases[idx].building.Some?
    requires Locatable(strategy, inspectors, cases[idx].building.value)
    ensures var a := PickFor(cases[idx].id, idx, AssignScores(strategy, inspectors, cases[idx].building.value, loads, dist),
                             inspectors, strategy, base, minutes);
      AssignFrom(cases, idx, inspectors, strategy, loads, base, minutes, dist) ==
        Prepend([a], AssignFrom(cases, idx + 1, inspectors, strategy, Bump(loads, a.inspectorId), base, minutes, dist))
  {
  }

  /** One unfolding of `AssignFrom` at a case without a building. */
  lemma AssignFromSkip(cases: seq<CaseRow>, idx: nat, inspectors: seq<Inspector>, strategy: string, loads: Loads,
                       base: int, minutes: int, dist: (real, real, real, real) -> real)
    requires inspectors != [] && idx < |cases| && cases[idx].building.None?
    ensures AssignFrom(cases, idx, inspectors, strategy, loads, base, minutes, dist) ==
      AssignFrom(cases, idx + 1, inspectors, strategy, loads, base, minutes, dist)
  {
  }

  lemma PrependNothing(r: Result<seq<Assignment>, int>)
    ensures Prepend([], r) == r
  {
    if r.Ok? {
      assert [] + r.value == r.value;
    }
  }

  lemma PrependTwice(done: seq<Assignment>, a: seq<Assignment>, r: Result<seq<Assignment>, int>)
    ensures Prepend(done, Prepend(a, r)) == Prepend(done + a, r)
  {
    if r.Ok? {
      assert done + (a + r.value) == (done + a) + r.value;
    }
  }

  /** The inner loop of `auto_assign`: one score per inspector, in list order. */
  method ScoreInspectors(strategy: string, inspectors: seq<Inspector>, site: Site, loads: Loads,
                         dist: (real, real, real, real) -> real) returns (scores: seq<real>)
    requires Locatable(strategy, inspectors, site)
    ensures scores == AssignScores(strategy, inspectors, site, loads, dist)
  {
    scores := [];
    var j := 0;
    while j < |inspectors|
      invariant 0 <= j <= |inspectors|
      invariant |scores| == j && forall k :: 0 <= k < j ==> scores[k] == AssignScore(strategy, inspectors[k], site, loads, dist)
    {
      scores := scores + [AssignScore(strategy, inspectors[j], site, loads, dist)];
      j := j + 1;
    }
  }

  /** Scores every inspector for one case and picks the first with the lowest score. */
  method PickCase(caseId: int, idx: nat, site: Site, inspectors: seq<Inspector>, strategy: string, loads: Loads,
                  base: int, minutes: int, dist: (real, real, real, real) -> real) returns (a: Assignment)
    requires inspectors != [] && Locatable(strategy, inspectors, site)
    ensures a == PickFor(caseId, idx, AssignScores(strategy, inspectors, site, loads, dist), inspectors, strategy, base, minutes)
  {
    var scores := ScoreInspectors(strategy, inspectors, site, loads, dist);
    var j := BestIndex(scores);
    var best := inspectors[j];
    var start := base + idx * Slot(minutes);
    a := Assignment(caseId, best.id, if UsesDistance(strategy, best) then "distance_km" else "balanced_load",
                    scores[j], start, start + Slot(minutes), "pending", "auto-assign:" + strategy);
  }

  /**
   * `auto_assign`, with `base` the request's start time or the current
   * time: each case with a building goes to the best-scoring inspector,
   * whose load is bumped before the next case; the case at position `idx`
   * gets the slot starting `idx` slot lengths after `base`.
   */
  method AutoAssign(cases: seq<CaseRow>, inspectors: seq<Inspector>, strategy: string, loads0: Loads,
                    base: int, minutes: int, dist: (real, real, real, real) -> real)
    returns (r: Result<seq<Assignment>, int>)
    ensures r == AutoAssignSpec(cases, inspectors, strategy, loads0, base, minutes, dist)
  {
    if cases == [] {
      return Err(404);
    }
    if inspectors == [] {
      return Err(400);
    }
    var loads: Loads := loads0;
    var results: seq<Assignment> := [];
    var idx := 0;
    ghost var goal := AssignFrom(cases, 0, inspectors, strategy, loads0, base, minutes, dist);
    PrependNothing(goal);
    while idx < |cases|
      invariant 0 <= idx <= |cases|
      invariant Prepend(results, AssignFrom(cases, idx, inspectors, strategy, loads, base, minutes, dist)) == goal
    {
      var ok;
      ok, results, loads := AssignOn(cases, idx, inspectors, strategy, loads, results, base, minutes, dist);
      if !ok {
        return Err(500);
      }
      idx := idx + 1;
    }
    assert results + [] == results;
    r := Ok(results);
  }

  /** One pass of `auto_assign`'s case loop, added to the appointments made so far. */
  method AssignOn(cases: seq<CaseRow>, idx: nat, inspectors: seq<Inspector>, strategy: string, loads: Loads,
                  results: seq<Assignment>, base: int, minutes: int, dist: (real, real, real, real) -> real)
    returns (ok: bool, results': seq<Assignment>, loads': Loads)
    requires inspectors != [] && idx < |cases|
    ensures !ok ==> Prepend(results, AssignFrom(cases, idx, inspectors, strategy, loads, base, minutes, dist)) == Err(500)
    ensures ok ==> (Prepend(results', AssignFrom(cases, idx + 1, inspectors, strategy, loads', base, minutes, dist)) ==
      Prepend(results, AssignFrom(cases, idx, inspectors, strategy, loads, base, minutes, dist)))
  {
    var done;
    ok, done, loads' := AssignCase(cases, idx, inspectors, strategy, loads, base, minutes, dist);
    results' := results;
    if ok {
      PrependTwice(results, done, AssignFrom(cases, idx + 1, inspectors, strategy, loads', base, minutes, dist));
      results' := results + done;
    }
  }

  /** One pass of `auto_assign`'s case loop: the case's appointment if it has a building, and the loads after it. */
  method AssignCase(cases: seq<CaseRow>, idx: nat, inspectors: seq<Inspector>, strategy: string, loads: Loads,
                    base: int, minutes: int, dist: (real, real, real, real) -> real)
    returns (ok: bool, done: seq<Assignment>, next: Loads)
    requires inspectors != [] && idx < |cases|
    ensures !ok ==> AssignFrom(cases, idx, inspectors, strategy, loads, base, minutes, dist) == Err(500)
    ensures ok ==> (AssignFrom(cases, idx, inspectors, strategy, loads, base, minutes, dist) ==
      Prepend(done, AssignFrom(cases, idx + 1, inspectors, strategy, next, base, minutes, dist)))
  {
    var c := cases[idx];
    if c.building.None? {
      AssignFromSkip(cases, idx, inspectors, strategy, loads, base, minutes, dist);
      PrependNothing(AssignFrom(cases, idx + 1, inspectors, strategy, loads, base, minutes, dist));
      return true, [], loads;
    }
    var site := c.building.value;
    if !Locatable(strategy, inspectors, site) {
      return false, [], loads;
    }
    var a := PickCase(c.id, idx, site, inspectors, strategy, loads, base, minutes, dist);
    AssignFromStep(cases, idx, inspectors, strategy, loads, base, minutes, dist);
    ok, done, next := true, [a], Bump(loads, a.inspectorId);
  }

  /** The cases with a building from position `idx` on, with their positions. */
  function Placed(cases: seq<CaseRow>, idx: nat): (ps: seq<nat>)
    requires idx <= |cases|
    ensures forall k :: 0 <= k < |ps| ==> idx <= ps[k] < |cases| && cases[ps[k]].building.Some?
    ensures forall k, m :: 0 <= k < m < |ps| ==> ps[k] < ps[m]
    decreases |cases| - idx
  {
    if idx == |cases| then []
    else if cases[idx].building.None? then Placed(cases, idx + 1)
    else [idx] + Placed(cases, idx + 1)
  }

  /** The loads after the given assignments, in order. */
  function LoadsAfter(loads: Loads, done: seq<Assignment>): Loads
    decreases |done|
  {
    if done == [] then loads else LoadsAfter(Bump(loads, done[0].inspectorId), done[1..])
  }

  /** Assignment `a` is the auto-assignment of the case at `p` under `loads`. */
  ghost predicate AssignedAt(a: Assignment, cases: seq<CaseRow>, p: nat, inspectors: seq<Inspector>, strategy: string,
                             loads: Loads, base: int, minutes: int, dist: (real, real, real, real) -> real)
    requires p < |cases| && cases[p].building.Some?
  {
    var site := cases[p].building.value;
    && Locatable(strategy, inspectors, site)
    && a.caseId == cases[p].id
    && a.start == base + p * Slot(minutes) && a.end == a.start + Slot(minutes)
    && a.status == "pending" && a.notes == "auto-assign:" + strategy
    && exists j :: (0 <= j < |inspectors| && inspectors[j].id == a.inspectorId &&
         a.score == AssignScore(strategy, inspectors[j], site, loads, dist) &&
         (a.reason == "distance_km" <==> UsesDistance(strategy, inspectors[j])) &&
         (forall k :: 0 <= k < |inspectors| ==> a.score <= AssignScore(strategy, inspectors[k], site, loads, dist)) &&
         (forall k :: 0 <= k < j ==> a.score < AssignScore(strategy, inspectors[k], site, loads, dist)))
  }

  /** Each assignment is the pick for the matching position of `ps`, under the loads left by the ones before it. */
  ghost predicate Explains(rs: seq<Assignment>, ps: seq<nat>, cases: seq<CaseRow>, inspectors: seq<Inspector>, strategy: string,
                           loads: Loads, base: int, minutes: int, dist: (real, real, real, real) -> real)
  {
    && |rs| == |ps|
    && (forall k :: 0 <= k < |ps| ==> ps[k] < |cases| && cases[ps[k]].building.Some?)
    && forall k :: 0 <= k < |ps| ==>
         AssignedAt(rs[k], cases, ps[k], inspectors, strategy, LoadsAfter(loads, rs[..k]), base, minutes, dist)
  }

  lemma {:induction false} AssignFromMeaning(cases: seq<CaseRow>, idx: nat, inspectors: seq<Inspector>, strategy: string,
                                             loads: Loads, base: int, minutes: int, dist: (real, real, real, real) -> real)
    requires inspectors != [] && idx <= |cases|
    ensures var r := AssignFrom(cases, idx, inspectors, strategy, loads, base, minutes, dist);
      r.Ok? ==> Explains(r.value, Placed(cases, idx), cases, inspectors, strategy, loads, base, minutes, dist)
    decreases |cases| - idx
  {
    var r := AssignFrom(cases, idx, inspectors, strategy, loads, base, minutes, dist);
    if idx < |cases| && r.Ok? {
      if cases[idx].building.None? {
        AssignFromMeaning(cases, idx + 1, inspectors, strategy, loads, base, minutes, dist);
      } else {
        var site := cases[idx].building.value;
        var best := inspectors[BestIndex(AssignScores(strategy, inspectors, site, loads, dist))];
        AssignFromMeaning(cases, idx + 1, inspectors, strategy, Bump(loads, best.id), base, minutes, dist);
        ExplainsHead(cases, idx, inspectors, strategy, loads, base, minutes, dist);
      }
    }
  }

  /** The assignments from a case with a building are explained once those after it are. */
  lemma ExplainsHead(cases: seq<CaseRow>, idx: nat, inspectors: seq<Inspector>, strategy: string,
                     loads: Loads, base: int, minutes: int, dist: (real, real, real, real) -> real)
    requires inspectors != [] && idx < |cases| && cases[idx].building.Some?
    requires AssignFrom(cases, idx, inspectors, strategy, loads, base, minutes, dist).Ok?
    requires var site := cases[idx].building.value;
      var best := inspectors[BestIndex(AssignScores(strategy, inspectors, site, loads, dist))];
      var rest := AssignFrom(cases, idx + 1, inspectors, strategy, Bump(loads, best.id), base, minutes, dist);
      rest.Ok? ==> Explains(rest.value, Placed(cases, idx + 1), cases, inspectors, strategy, Bump(loads, best.id), base, minutes, dist)
    ensures Explains(AssignFrom(cases, idx, inspectors, strategy, loads, base, minutes, dist).value, Placed(cases, idx),
                     cases, inspectors, strategy, loads, base, minutes, dist)
  {
    var r := AssignFrom(cases, idx, inspectors, strategy, loads, base, minutes, dist);
    var site := cases[idx].building.value;
    var scores := AssignScores(strategy, inspectors, site, loads, dist);
    var best := inspectors[BestIndex(scores)];
    var loads' := Bump(loads, best.id);
    var rest := AssignFrom(cases, idx + 1, inspectors, strategy, loads', base, minutes, dist);
    HeadAssigned(cases, idx, inspectors, strategy, loads, base, minutes, dist);
    var a := r.value[0];
    assert r.value == [a] + rest.value;
    assert a.inspectorId == best.id;
    ExplainsCons(a, rest.value, idx, Placed(cases, idx + 1), cases, inspectors, strategy, loads, base, minutes, dist);
  }

  lemma ExplainsCons(a: Assignment, rest: seq<Assignment>, p: nat, ps: seq<nat>, cases: seq<CaseRow>, inspectors: seq<Inspector>,
                     strategy: string, loads: Loads, base: int, minutes: int, dist: (real, real, real, real) -> real)
    requires p < |cases| && cases[p].building.Some?
    requires AssignedAt(a, cases, p, inspectors, strategy, loads, base, minutes, dist)
    requires Explains(rest, ps, cases, inspectors, strategy, Bump(loads, a.inspectorId), base, minutes, dist)
    ensures Explains([a] + rest, [p] + ps, cases, inspectors, strategy, loads, base, minutes, dist)
  {
    var rs := [a] + rest;
    var qs := [p] + ps;
    assert LoadsAfter(loads, rs[..0]) == loads;
    forall k | 1 <= k < |qs|
      ensures AssignedAt(rs[k], cases, qs[k], inspectors, strategy, LoadsAfter(loads, rs[..k]), base, minutes, dist)
    {
      LoadsAfterCons(loads, a, rest, k);
      ConsAt(a, rest, k);
      ConsAt(p, ps, k);
    }
  }

  /** The first assignment from a case with a building is that case's pick under the current loads. */
  lemma HeadAssigned(cases: seq<CaseRow>, idx: nat, inspectors: seq<Inspector>, strategy: string,
                     loads: Loads, base: int, minutes: int, dist: (real, real, real, real) -> real)
    requires inspectors != [] && idx < |cases| && cases[idx].building.Some?
    requires AssignFrom(cases, idx, inspectors, strategy, loads, base, minutes, dist).Ok?
    ensures var r := AssignFrom(cases, idx, inspectors, strategy, loads, base, minutes, dist).value;
      r != [] && AssignedAt(r[0], cases, idx, inspectors, strategy, loads, base, minutes, dist)
  {
    var site := cases[idx].building.value;
    var scores := AssignScores(strategy, inspectors, site, loads, dist);
    var j := BestIndex(scores);
    var a := AssignFrom(cases, idx, inspectors, strategy, loads, base, minutes, dist).value[0];
    assert a.inspectorId == inspectors[j].id && a.score == scores[j];
    assert forall k :: 0 <= k < |inspectors| ==> Real(scores[j]) <= Real(scores[k]);
    assert forall k :: 0 <= k < j ==> Real(scores[k]) > Real(scores[j]);
  }

  lemma LoadsAfterCons(loads: Loads, a: Assignment, rest: seq<Assignment>, k: nat)
    requires 1 <= k <= |rest| + 1
    ensures LoadsAfter(loads, ([a] + rest)[..k]) == LoadsAfter(Bump(loads, a.inspectorId), rest[..k - 1])
  {
    var s := ([a] + rest)[..k];
    assert s[0] == a && s[1..] == rest[..k - 1];
  }

  /** Every case from position `idx` on that has a building has a site that can be scored. */
  predicate AllLocatable(cases: seq<CaseRow>, idx: nat, inspectors: seq<Inspector>, strategy: string) {
    forall p :: idx <= p < |cases| && cases[p].building.Some? ==> Locatable(strategy, inspectors, cases[p].building.value)
  }

  /** `AssignFrom` succeeds exactly when every remaining case with a building is locatable, and fails only with 500. */
  lemma {:induction false} AssignFromOk(cases: seq<CaseRow>, idx: nat, inspectors: seq<Inspector>, strategy: string,
                                        loads: Loads, base: int, minutes: int, dist: (real, real, real, real) -> real)
    requires inspectors != [] && idx <= |cases|
    ensures var r := AssignFrom(cases, idx, inspectors, strategy, loads, base, minutes, dist);
      (r.Ok? <==> AllLocatable(cases, idx, inspectors, strategy)) && (r.Err? ==> r == Err(500))
    decreases |cases| - idx
  {
    if idx < |cases| {
      var next: nat := idx + 1;
      if cases[idx].building.None? {
        AssignFromOk(cases, next, inspectors, strategy, loads, base, minutes, dist);
        assert AllLocatable(cases, idx, inspectors, strategy) <==> AllLocatable(cases, next, inspectors, strategy);
      } else if Locatable(strategy, inspectors, cases[idx].building.value) {
        var a := PickFor(cases[idx].id, idx, AssignScores(strategy, inspectors, cases[idx].building.value, loads, dist),
                         inspectors, strategy, base, minutes);
        AssignFromOk(cases, next, inspectors, strategy, Bump(loads, a.inspectorId), base, minutes, dist);
        assert AllLocatable(cases, idx, inspectors, strategy) <==> AllLocatable(cases, next, inspectors, strategy);
      } else {
        assert !AllLocatable(cases, idx, inspectors, strategy);
      }
    }
  }

  /**
   * A successful auto-assignment has one result per case with a building,
   * in order (skipped cases get none): each goes to an inspector with the
   * lowest score under the loads left by the earlier picks, the first such
   * inspector on ties, with reason "distance_km" exactly when it is ranked
   * by distance, in the slot of the case's position; with a non-negative
   * slot length no two slots overlap. With cases and inspectors it
   * succeeds exactly when every case with a building can be scored, and
   * otherwise fails with 500.
   */
  lemma AutoAssignMeaning(cases: seq<CaseRow>, inspectors: seq<Inspector>, strategy: string, loads: Loads,
                          base: int, minutes: int, dist: (real, real, real, real) -> real)
    ensures var r := AutoAssignSpec(cases, inspectors, strategy, loads, base, minutes, dist);
      (cases == [] ==> r == Err(404)) &&
      (cases != [] && inspectors == [] ==> r == Err(400)) &&
      (cases != [] && inspectors != [] ==>
        (r.Ok? <==> AllLocatable(cases, 0, inspectors, strategy)) && (r.Err? ==> r == Err(500))) &&
      (r.Ok? ==> (Explains(r.value, Placed(cases, 0), cases, inspectors, strategy, loads, base, minutes, dist) &&
        (minutes >= 0 ==> forall k, m :: 0 <= k < m < |r.value| ==> r.value[k].end <= r.value[m].start)))
  {
    var r := AutoAssignSpec(cases, inspectors, strategy, loads, base, minutes, dist);
    if cases != [] && inspectors != [] {
      AssignFromMeaning(cases, 0, inspectors, strategy, loads, base, minutes, dist);
      AssignFromOk(cases, 0, inspectors, strategy, loads, base, minutes, dist);
      if r.Ok? && minutes >= 0 {
        var ps := Placed(cases, 0);
        forall k, m | 0 <= k < m < |r.value| ensures r.value[k].end <= r.value[m].start {
          assert ps[k] + 1 <= ps[m];
          SlotOrder(base, ps[k], ps[m], minutes);
        }
      }
    }
  }

  lemma SlotOrder(base: int, a: nat, b: nat, minutes: int)
    requires a + 1 <= b && minutes >= 0
    ensures base + a * Slot(minutes) + Slot(minutes) <= base + b * Slot(minutes)
  {
    var w := Slot(minutes);
    var d := b - (a + 1);
    assert w >= 0;
    assert d * w >= 0;
    assert b * w == a * w + w + d * w;
  }
}
