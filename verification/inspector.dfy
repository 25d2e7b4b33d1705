/**
 * The inspector router: which inspector a request is about, the two
 * appointment transitions an inspector drives (respond and confirm), and
 * the daily route (2 km clusters and a greedy nearest-next tour). Errors are
 * the HTTP status codes the handlers raise. The great-circle distance is a
 * parameter.
 */
module InspectorRouter {
  import opened Wrappers
  import opened Sorting

  /** The calling user: their role, and the id of the inspector profile linked to them, if any. */
  datatype Actor = Actor(role: string, linked: Option<int>)

  /** `_get_linked_inspector(db, user).id`: 404 when no profile is linked. */
  function LinkedInspector(actor: Actor): (r: Result<int, int>)
    ensures r.Ok? <==> actor.linked.Some?
    ensures r.Ok? ==> r.value == actor.linked.value
    ensures r.Err? ==> r.error == 404
  {
    if actor.linked.Some? then Ok(actor.linked.value) else Err(404)
  }

  /** `_resolve_inspector_id(db, user, inspector_id)`. */
  function ResolveInspectorId(actor: Actor, inspectorId: Option<int>): Result<int, int> {
    if inspectorId.Some? then
      if actor.role == "Inspector" then
        match LinkedInspector(actor)
        case Err(e) => Err(e)
        case Ok(l) => if l != inspectorId.value then Err(403) else Ok(inspectorId.value)
      else Ok(inspectorId.value)
    else if actor.role != "Inspector" then Err(400)
    else LinkedInspector(actor)
  }

  /**
   * Any other role gets the id it asks for and must ask for one (else 400);
   * an inspector always gets their own linked profile: asking for another
   * is 403, having none linked is 404.
   */
  lemma ResolveMeaning(actor: Actor, inspectorId: Option<int>)
    ensures var r := ResolveInspectorId(actor, inspectorId);
      (actor.role != "Inspector" ==> r == (if inspectorId.Some? then Ok(inspectorId.value) else Err(400))) &&
      (actor.role == "Inspector" && actor.linked.None? ==> r == Err(404)) &&
      (actor.role == "Inspector" && actor.linked.Some? ==>
        r == (if inspectorId.None? || inspectorId == actor.linked then Ok(actor.linked.value) else Err(403))) &&
      (r.Ok? && actor.role == "Inspector" ==> actor.linked == Some(r.value))
  {
  }

  /** The ownership check of the handlers: an inspector may only touch their own appointments. */
  function CheckOwner(actor: Actor, owner: Option<int>): (r: Result<(), int>)
    ensures r.Ok? <==> actor.role != "Inspector" || (actor.linked.Some? && owner == actor.linked)
  {
    if actor.role == "Inspector" then
      match LinkedInspector(actor)
      case Err(e) => Err(e)
      case Ok(l) => if owner != Some(l) then Err(403) else Ok(())
    else Ok(())
  }

  /** An appointment row; the handlers assign its fields in place. Times count microseconds from 0001-01-01 00:00. */
  class Appointment {
    var inspectorId: Option<int>
    var start: nat
    var end: nat
    var status: string

    constructor (inspectorId: Option<int>, start: nat, end: nat, status: string)
      ensures this.inspectorId == inspectorId && this.start == start && this.end == end && this.status == status
    {
      this.inspectorId := inspectorId;
      this.start := start;
      this.end := end;
      this.status := status;
    }
  }

  /** The status `respond_appointment` sets, or the error it raises, in the order it checks. */
  function RespondStatus(found: bool, action: string, actor: Actor, owner: Option<int>): Result<string, int> {
    if !found then Err(404)
    else if action != "accept" && action != "reject" then Err(400)
    else
      match CheckOwner(actor, owner)
      case Err(e) => Err(e)
      case Ok(_) => Ok(if action == "accept" then "accepted" else "rejected")
  }

  /**
   * A response succeeds only for an existing appointment, an accept or a
   * reject, and (for an inspector) their own appointment; accept gives
   * "accepted" and reject "rejected".
   */
  lemma RespondMeaning(found: bool, action: string, actor: Actor, owner: Option<int>)
    ensures var r := RespondStatus(found, action, actor, owner);
      (!found ==> r == Err(404)) &&
      (found && action != "accept" && action != "reject" ==> r == Err(400)) &&
      (r.Ok? <==> (found && (action == "accept" || action == "reject") &&
        (actor.role != "Inspector" || (actor.linked.Some? && owner == actor.linked)))) &&
      (r.Ok? ==> (r.value == "accepted" <==> action == "accept") && (r.value == "rejected" <==> action == "reject"))
  {
  }

  /** `respond_appointment`; `appt` is `null` when no appointment has the id. */
  method RespondAppointment(appt: Appointment?, action: string, actor: Actor) returns (r: Result<string, int>)
    modifies appt
    ensures r == RespondStatus(appt != null, action, actor, if appt == null then None else old(appt.inspectorId))
    ensures appt != null ==> (appt.inspectorId == old(appt.inspectorId) && appt.start == old(appt.start) &&
      appt.end == old(appt.end) && appt.status == (if r.Ok? then r.value else old(appt.status)))
  {
    if appt == null {
      return Err(404);
    }
    if action != "accept" && action != "reject" {
      return Err(400);
    }
    if actor.role == "Inspector" {
      var linked := LinkedInspector(actor);
      if linked.Err? {
        return Err(linked.error);
      }
      if appt.inspectorId != Some(linked.value) {
        return Err(403);
      }
    }
    appt.status := if action == "accept" then "accepted" else "rejected";
    r := Ok(appt.status);
  }

  /** The actions `ConfirmRequest` admits. */
  datatype ConfirmAction = Confirm | Reschedule | Visited

  /** What `confirm_visit` writes: the new status, and the new times when rescheduling. */
  datatype Change = Change(status: string, times: Option<(nat, nat)>)

  function ConfirmChange(found: bool, actor: Actor, owner: Option<int>, action: ConfirmAction,
                         startTime: Option<nat>, endTime: Option<nat>): Result<Change, int> {
    if !found then Err(404)
    else
      match CheckOwner(actor, owner)
      case Err(e) => Err(e)
      case Ok(_) =>
        match action
        case Reschedule =>
          if startTime.None? || endTime.None? then Err(400)
          else Ok(Change("pending", Some((startTime.value, endTime.value))))
        case Confirm => Ok(Change("accepted", None))
        case Visited => Ok(Change("closed", None))
  }

  /**
   * Rescheduling needs both times, moves the visit to them and puts it back
   * to "pending"; confirming accepts it and a visit closes it, both leaving
   * the times alone.
   */
  lemma ConfirmMeaning(found: bool, actor: Actor, owner: Option<int>, action: ConfirmAction,
                       startTime: Option<nat>, endTime: Option<nat>)
    ensures var r := ConfirmChange(found, actor, owner, action, startTime, endTime);
      var allowed := actor.role != "Inspector" || (actor.linked.Some? && owner == actor.linked);
      (!found ==> r == Err(404)) &&
      (r.Ok? <==> found && allowed && (action.Reschedule? ==> startTime.Some? && endTime.Some?)) &&
      (r.Ok? ==> (r.value.times.Some? <==> action.Reschedule?)) &&
      (r.Ok? && action.Reschedule? ==> r.value == Change("pending", Some((startTime.value, endTime.value)))) &&
      (r.Ok? && action.Confirm? ==> r.value.status == "accepted") &&
      (r.Ok? && action.Visited? ==> r.value.status == "closed")
  {
  }

  /** `confirm_visit`; `appt` is `null` when no appointment has the id. */
  method ConfirmVisit(appt: Appointment?, actor: Actor, action: ConfirmAction, startTime: Option<nat>, endTime: Option<nat>)
    returns (r: Result<Change, int>)
    modifies appt
    ensures r == ConfirmChange(appt != null, actor, if appt == null then None else old(appt.inspectorId), action, startTime, endTime)
    ensures appt != null ==> appt.inspectorId == old(appt.inspectorId)
    ensures appt != null && r.Err? ==> appt.status == old(appt.status) && appt.start == old(appt.start) && appt.end == old(appt.end)
    ensures appt != null && r.Ok? ==> (appt.status == r.value.status &&
      (r.value.times.Some? ==> appt.start == r.value.times.value.0 && appt.end == r.value.times.value.1) &&
      (r.value.times.None? ==> appt.start == old(appt.start) && appt.end == old(appt.end)))
  {
    if appt == null {
      return Err(404);
    }
    if actor.role == "Inspector" {
      var linked := LinkedInspector(actor);
      if linked.Err? {
        return Err(linked.error);
      }
      if appt.inspectorId != Some(linked.value) {
        return Err(403);
      }
    }
    match action {
      case Reschedule =>
        if startTime.None? || endTime.None? {
          return Err(400);
        }
        appt.start := startTime.value;
        appt.end := endTime.value;
        appt.status := "pending";
        r := Ok(Change("pending", Some((startTime.value, endTime.value))));
      case Confirm =>
        appt.status := "accepted";
        r := Ok(Change("accepted", None));
      case Visited =>
        appt.status := "closed";
        r := Ok(Change("closed", None));
    }
  }

  // ---------------- the daily route ----------------

  /** An appointment with its case's building coordinates (`None` when the case, the building or a coordinate is missing). */
  datatype ApptRow = ApptRow(id: int, inspectorId: Option<int>, caseId: int, start: nat, status: string,
                             lat: Option<real>, lng: Option<real>)

  datatype Point = Point(id: int, lat: real, lng: real, caseId: int, start: Option<nat>)

  /** The query's filter and the loop's coordinate check: the inspector's pending or accepted visits of the day, with a located building. */
  predicate RouteCandidate(r: ApptRow, target: int, dayStart: nat, dayEnd: nat) {
    && r.inspectorId == Some(target) && dayStart <= r.start <= dayEnd
    && (r.status == "pending" || r.status == "accepted")
    && r.lat.Some? && r.lng.Some?
  }

  function PointOf(r: ApptRow): Point
    requires r.lat.Some? && r.lng.Some?
  {
    Point(r.id, r.lat.value, r.lng.value, r.caseId, Some(r.start))
  }

  function RowStart(r: ApptRow): real {
    r.start as real
  }

  /** The route points of the candidate rows, in the given order. */
  function PointsOf(rows: seq<ApptRow>, target: int, dayStart: nat, dayEnd: nat): seq<Point> {
    if rows == [] then []
    else
      (if RouteCandidate(rows[0], target, dayStart, dayEnd) then [PointOf(rows[0])] else []) +
      PointsOf(rows[1..], target, dayStart, dayEnd)
  }

  /** The points of `routes`: candidate rows ordered by start time. */
  function RoutePoints(rows: seq<ApptRow>, target: int, dayStart: nat, dayEnd: nat): seq<Point> {
    PointsOf(SortBy(rows, RowStart), target, dayStart, dayEnd)
  }

  lemma {:induction false} PointsOfMembers(rows: seq<ApptRow>, target: int, dayStart: nat, dayEnd: nat, p: Point)
    ensures p in PointsOf(rows, target, dayStart, dayEnd) <==>
      exists r :: r in rows && RouteCandidate(r, target, dayStart, dayEnd) && PointOf(r) == p
  {
    if rows != [] {
      PointsOfMembers(rows[1..], target, dayStart, dayEnd, p);
      assert forall r :: r in rows <==> r == rows[0] || r in rows[1..];
    }
  }

  /** A route point is exactly a pending or accepted visit of the inspector that day whose building has both coordinates. */
  lemma RoutePointsMeaning(rows: seq<ApptRow>, target: int, dayStart: nat, dayEnd: nat, p: Point)
    ensures p in RoutePoints(rows, target, dayStart, dayEnd) <==>
      exists r :: r in rows && RouteCandidate(r, target, dayStart, dayEnd) && PointOf(r) == p
  {
    var sorted := SortBy(rows, RowStart);
    PointsOfMembers(sorted, target, dayStart, dayEnd, p);
    forall r ensures r in sorted <==> r in rows {
      SortByMembers(rows, RowStart, r);
    }
  }

  /** `CLUSTER_R`, in km. */
  const ClusterRadius: real := 2.0

  /** The distance in km between two points. */
  function Km(dist: (real, real, real, real) -> real, p: Point, q: Point): real {
    dist(p.lat, p.lng, q.lat, q.lng)
  }

  /** Clusters as lists of point positions below `n`, none empty. */
  predicate Indexes(cs: seq<seq<nat>>, n: nat) {
    forall k :: 0 <= k < |cs| ==> cs[k] != [] && forall t :: 0 <= t < |cs[k]| ==> cs[k][t] < n
  }

  /** The first cluster from `j` on whose first point is within the radius of `p`. */
  function NearCluster(pts: seq<Point>, cs: seq<seq<nat>>, p: Point, dist: (real, real, real, real) -> real, j: nat): (r: Option<nat>)
    requires Indexes(cs, |pts|)
    ensures r.Some? ==> j <= r.value < |cs| && Km(dist, p, pts[cs[r.value][0]]) <= ClusterRadius
    ensures r.Some? ==> forall k :: j <= k < r.value ==> Km(dist, p, pts[cs[k][0]]) > ClusterRadius
    ensures r.None? ==> forall k :: j <= k < |cs| ==> Km(dist, p, pts[cs[k][0]]) > ClusterRadius
    decreases |cs| - j
  {
    if j >= |cs| then None
    else if Km(dist, p, pts[cs[j][0]]) <= ClusterRadius then Some(j)
    else NearCluster(pts, cs, p, dist, j + 1)
  }

  /** Point `i` joins the first near cluster, or opens a new one. */
  function Place(pts: seq<Point>, cs: seq<seq<nat>>, i: nat, dist: (real, real, real, real) -> real): seq<seq<nat>>
    requires Indexes(cs, |pts|) && i < |pts|
  {
    match NearCluster(pts, cs, pts[i], dist, 0)
    case Some(j) => cs[j := cs[j] + [i]]
    case None => cs + [[i]]
  }

  /** The clusters of the first `n` points. */
  function ClusterIdx(pts: seq<Point>, n: nat, dist: (real, real, real, real) -> real): (cs: seq<seq<nat>>)
    requires n <= |pts|
    ensures Indexes(cs, n)
  {
    if n == 0 then []
    else
      var prev := ClusterIdx(pts, n - 1, dist);
      PlaceIndexes(pts, prev, n - 1, dist);
      Place(pts, prev, n - 1, dist)
  }

  lemma PlaceIndexes(pts: seq<Point>, cs: seq<seq<nat>>, i: nat, dist: (real, real, real, real) -> real)
    requires i < |pts| && Indexes(cs, i)
    ensures Indexes(Place(pts, cs, i, dist), i + 1)
  {
    var r := Place(pts, cs, i, dist);
    match NearCluster(pts, cs, pts[i], dist, 0)
    case Some(j) => assert r == cs[j := cs[j] + [i]];
    case None => assert r == cs + [[i]];
  }

  /** The points of each cluster. */
  function Members(cs: seq<seq<nat>>, pts: seq<Point>): (m: seq<seq<Point>>)
    requires Indexes(cs, |pts|)
    ensures |m| == |cs| && forall k :: 0 <= k < |cs| ==> |m[k]| == |cs[k]|
  {
    seq(|cs|, k requires 0 <= k < |cs| => seq(|cs[k]|, t requires 0 <= t < |cs[k]| => pts[cs[k][t]]))
  }

  function Flatten(cs: seq<seq<nat>>): seq<nat> {
    if cs == [] then [] else cs[0] + Flatten(cs[1..])
  }

  lemma {:induction false} FlattenSnoc(cs: seq<seq<nat>>, c: seq<nat>)
    ensures Flatten(cs + [c]) == Flatten(cs) + c
  {
    if cs != [] {
      assert (cs + [c])[1..] == cs[1..] + [c];
      FlattenSnoc(cs[1..], c);
    } else {
      assert [c][1..] == [];
    }
  }

  lemma {:induction false} FlattenAppendAt(cs: seq<seq<nat>>, j: nat, i: nat)
    requires j < |cs|
    ensures multiset(Flatten(cs[j := cs[j] + [i]])) == multiset(Flatten(cs)) + multiset{i}
  {
    var cs' := cs[j := cs[j] + [i]];
    if j == 0 {
      assert cs'[1..] == cs[1..];
    } else {
      assert cs'[1..] == cs[1..][j - 1 := cs[1..][j - 1] + [i]];
      FlattenAppendAt(cs[1..], j - 1, i);
    }
  }

  /** The cluster invariants: order kept, a partition of the positions, members near the first point, first points far apart. */
  ghost predicate Clustered(pts: seq<Point>, cs: seq<seq<nat>>, n: nat, dist: (real, real, real, real) -> real)
    requires n <= |pts| && Indexes(cs, n)
  {
    InOrder(cs) && Partition(cs, n) && NearHeads(pts, cs, n, dist) && HeadsApart(pts, cs, n, dist)
  }

  /** Each cluster lists its positions in increasing order. */
  ghost predicate InOrder(cs: seq<seq<nat>>) {
    forall k, t, u :: 0 <= k < |cs| && 0 <= t < u < |cs[k]| ==> cs[k][t] < cs[k][u]
  }

  /** The clusters hold each of the first `n` positions exactly once. */
  ghost predicate Partition(cs: seq<seq<nat>>, n: nat) {
    multiset(Flatten(cs)) == multiset(Range(n))
  }

  /** Every later member is within the radius of its cluster's first point. */
  ghost predicate NearHeads(pts: seq<Point>, cs: seq<seq<nat>>, n: nat, dist: (real, real, real, real) -> real)
    requires n <= |pts| && Indexes(cs, n)
  {
    forall k, t :: 0 <= k < |cs| && 0 < t < |cs[k]| ==> Km(dist, pts[cs[k][t]], pts[cs[k][0]]) <= ClusterRadius
  }

  /** Each cluster's first point is beyond the radius of every earlier cluster's first point. */
  ghost predicate HeadsApart(pts: seq<Point>, cs: seq<seq<nat>>, n: nat, dist: (real, real, real, real) -> real)
    requires n <= |pts| && Indexes(cs, n)
  {
    forall a, b :: 0 <= a < b < |cs| ==> Km(dist, pts[cs[b][0]], pts[cs[a][0]]) > ClusterRadius
  }

  /**
   * The clusters of `routes`: each point lies in exactly one cluster, each
   * cluster lists its points in input order, every later member is within
   * 2 km of its cluster's first point, and each cluster's first point was
   * farther than 2 km from the first point of every earlier cluster.
   */
  lemma {:induction false} ClustersMeaning(pts: seq<Point>, n: nat, dist: (real, real, real, real) -> real)
    requires n <= |pts|
    ensures Clustered(pts, ClusterIdx(pts, n, dist), n, dist)
  {
    if n > 0 {
      var m: nat := n - 1;
      ClustersMeaning(pts, m, dist);
      var prev := ClusterIdx(pts, m, dist);
      PlaceKeepsClustered(pts, prev, m, dist);
      ClusterIdxStep(pts, m, dist);
    } else {
      ClustersNone(pts, dist);
    }
  }

  lemma ClustersNone(pts: seq<Point>, dist: (real, real, real, real) -> real)
    ensures Clustered(pts, ClusterIdx(pts, 0, dist), 0, dist)
  {
    assert Range(0) == [];
  }

  lemma ClusterIdxStep(pts: seq<Point>, m: nat, dist: (real, real, real, real) -> real)
    requires m < |pts|
    ensures ClusterIdx(pts, m + 1, dist) == Place(pts, ClusterIdx(pts, m, dist), m, dist)
  {
  }

  lemma PlaceKeepsClustered(pts: seq<Point>, prev: seq<seq<nat>>, i: nat, dist: (real, real, real, real) -> real)
    requires i < |pts| && Indexes(prev, i) && Clustered(pts, prev, i, dist)
    ensures Indexes(Place(pts, prev, i, dist), i + 1) && Clustered(pts, Place(pts, prev, i, dist), i + 1, dist)
  {
    match NearCluster(pts, prev, pts[i], dist, 0)
    case Some(j) => JoinKeepsClustered(pts, prev, i, j, dist);
    case None => OpenKeepsClustered(pts, prev, i, dist);
  }

  lemma RangeSnoc(n: nat)
    ensures Range(n + 1) == Range(n) + [n]
  {
    assert forall k :: 0 <= k < n ==> Range(n + 1)[k] == (Range(n) + [n])[k];
  }

  lemma JoinKeepsClustered(pts: seq<Point>, prev: seq<seq<nat>>, i: nat, j: nat, dist: (real, real, real, real) -> real)
    requires i < |pts| && Indexes(prev, i) && Clustered(pts, prev, i, dist)
    requires NearCluster(pts, prev, pts[i], dist, 0) == Some(j)
    ensures Indexes(Place(pts, prev, i, dist), i + 1) && Clustered(pts, Place(pts, prev, i, dist), i + 1, dist)
  {
    var cs := prev[j := prev[j] + [i]];
    assert Place(pts, prev, i, dist) == cs;
    PlaceIndexes(pts, prev, i, dist);
    JoinCovers(prev, i, j);
    JoinOrdered(prev, i, j);
    JoinNear(pts, prev, i, j, dist);
    JoinHeads(pts, prev, i, j, dist);
  }

  lemma JoinCovers(prev: seq<seq<nat>>, i: nat, j: nat)
    requires j < |prev| && Partition(prev, i)
    ensures Partition(prev[j := prev[j] + [i]], i + 1)
  {
    RangeSnoc(i);
    FlattenAppendAt(prev, j, i);
  }

  lemma JoinHeads(pts: seq<Point>, prev: seq<seq<nat>>, i: nat, j: nat, dist: (real, real, real, real) -> real)
    requires i < |pts| && Indexes(prev, i) && j < |prev| && HeadsApart(pts, prev, i, dist)
    requires Indexes(prev[j := prev[j] + [i]], i + 1)
    ensures HeadsApart(pts, prev[j := prev[j] + [i]], i + 1, dist)
  {
    var cs := prev[j := prev[j] + [i]];
    forall a, b | 0 <= a < b < |cs| ensures Km(dist, pts[cs[b][0]], pts[cs[a][0]]) > ClusterRadius {
      assert cs[a][0] == prev[a][0] && cs[b][0] == prev[b][0];
    }
  }

  lemma JoinOrdered(prev: seq<seq<nat>>, i: nat, j: nat)
    requires Indexes(prev, i) && j < |prev| && InOrder(prev)
    ensures InOrder(prev[j := prev[j] + [i]])
  {
    var cs := prev[j := prev[j] + [i]];
    forall k, t, u | 0 <= k < |cs| && 0 <= t < u < |cs[k]| ensures cs[k][t] < cs[k][u] {
      if k == j && u == |prev[j]| {
        assert cs[k][t] == prev[j][t];
      } else {
        assert cs[k][t] == prev[k][t] && cs[k][u] == prev[k][u];
      }
    }
  }

  lemma JoinNear(pts: seq<Point>, prev: seq<seq<nat>>, i: nat, j: nat, dist: (real, real, real, real) -> real)
    requires i < |pts| && Indexes(prev, i) && NearHeads(pts, prev, i, dist)
    requires NearCluster(pts, prev, pts[i], dist, 0) == Some(j)
    requires Indexes(prev[j := prev[j] + [i]], i + 1)
    ensures NearHeads(pts, prev[j := prev[j] + [i]], i + 1, dist)
  {
    var cs := prev[j := prev[j] + [i]];
    forall k, t | 0 <= k < |cs| && 0 < t < |cs[k]| ensures Km(dist, pts[cs[k][t]], pts[cs[k][0]]) <= ClusterRadius {
      if k == j && t == |prev[j]| {
        assert cs[k][0] == prev[j][0];
      } else {
        assert cs[k][t] == prev[k][t] && cs[k][0] == prev[k][0];
      }
    }
  }

  lemma OpenKeepsClustered(pts: seq<Point>, prev: seq<seq<nat>>, i: nat, dist: (real, real, real, real) -> real)
    requires i < |pts| && Indexes(prev, i) && Clustered(pts, prev, i, dist)
    requires NearCluster(pts, prev, pts[i], dist, 0).None?
    ensures Indexes(Place(pts, prev, i, dist), i + 1) && Clustered(pts, Place(pts, prev, i, dist), i + 1, dist)
  {
    var cs := prev + [[i]];
    assert Place(pts, prev, i, dist) == cs;
    PlaceIndexes(pts, prev, i, dist);
    OpenCovers(prev, i);
    OpenOrdered(prev, i);
    OpenNear(pts, prev, i, dist);
    OpenHeads(pts, prev, i, dist);
  }

  lemma OpenCovers(prev: seq<seq<nat>>, i: nat)
    requires Partition(prev, i)
    ensures Partition(prev + [[i]], i + 1)
  {
    RangeSnoc(i);
    FlattenSnoc(prev, [i]);
  }

  lemma OpenOrdered(prev: seq<seq<nat>>, i: nat)
    requires InOrder(prev)
    ensures InOrder(prev + [[i]])
  {
    var cs := prev + [[i]];
    forall k, t, u | 0 <= k < |cs| && 0 <= t < u < |cs[k]| ensures cs[k][t] < cs[k][u] {
      assert k < |prev| && cs[k] == prev[k];
    }
  }

  lemma OpenNear(pts: seq<Point>, prev: seq<seq<nat>>, i: nat, dist: (real, real, real, real) -> real)
    requires i < |pts| && Indexes(prev, i) && NearHeads(pts, prev, i, dist)
    requires Indexes(prev + [[i]], i + 1)
    ensures NearHeads(pts, prev + [[i]], i + 1, dist)
  {
    var cs := prev + [[i]];
    forall k, t | 0 <= k < |cs| && 0 < t < |cs[k]| ensures Km(dist, pts[cs[k][t]], pts[cs[k][0]]) <= ClusterRadius {
      assert k < |prev| && cs[k] == prev[k];
    }
  }

  lemma OpenHeads(pts: seq<Point>, prev: seq<seq<nat>>, i: nat, dist: (real, real, real, real) -> real)
    requires i < |pts| && Indexes(prev, i) && HeadsApart(pts, prev, i, dist)
    requires NearCluster(pts, prev, pts[i], dist, 0).None?
    requires Indexes(prev + [[i]], i + 1)
    ensures HeadsApart(pts, prev + [[i]], i + 1, dist)
  {
    var cs := prev + [[i]];
    forall a, b | 0 <= a < b < |cs| ensures Km(dist, pts[cs[b][0]], pts[cs[a][0]]) > ClusterRadius {
      assert cs[a] == prev[a];
      if b < |prev| {
        assert cs[b] == prev[b];
      } else {
        assert cs[b][0] == i;
      }
    }
  }

  /** `routes`' clustering loop: each point goes to the first cluster whose first point is within 2 km, else opens one. */
  method ClusterPoints(pts: seq<Point>, dist: (real, real, real, real) -> real) returns (clusters: seq<seq<Point>>)
    ensures clusters == Members(ClusterIdx(pts, |pts|, dist), pts)
  {
    clusters := [];
    ghost var cs: seq<seq<nat>> := [];
    var i := 0;
    while i < |pts|
      invariant 0 <= i <= |pts|
      invariant cs == ClusterIdx(pts, i, dist)
      invariant clusters == Members(cs, pts)
    {
      clusters := PlacePoint(pts, clusters, cs, i, dist);
      ClusterIdxStep(pts, i, dist);
      cs := Place(pts, cs, i, dist);
      i := i + 1;
    }
  }

  /** One pass of the clustering loop: point `i` joins the first near cluster or opens a new one. */
  method PlacePoint(pts: seq<Point>, clusters: seq<seq<Point>>, ghost cs: seq<seq<nat>>, i: nat, dist: (real, real, real, real) -> real)
    returns (next: seq<seq<Point>>)
    requires i < |pts| && Indexes(cs, i) && clusters == Members(cs, pts)
    ensures next == Members(Place(pts, cs, i, dist), pts)
  {
    var p := pts[i];
    var j := 0;
    while j < |clusters|
      invariant 0 <= j <= |clusters| == |cs|
      invariant NearCluster(pts, cs, p, dist, 0) == NearCluster(pts, cs, p, dist, j)
    {
      if Km(dist, p, clusters[j][0]) <= ClusterRadius {
        assert NearCluster(pts, cs, p, dist, 0) == Some(j);
        MembersAppendAt(cs, pts, j, i);
        return clusters[j := clusters[j] + [p]];
      }
      j := j + 1;
    }
    assert NearCluster(pts, cs, p, dist, 0).None?;
    MembersSnoc(cs, pts, i);
    next := clusters + [[p]];
  }

  lemma MembersAppendAt(cs: seq<seq<nat>>, pts: seq<Point>, j: nat, i: nat)
    requires Indexes(cs, |pts|) && j < |cs| && i < |pts|
    ensures Indexes(cs[j := cs[j] + [i]], |pts|)
    ensures Members(cs[j := cs[j] + [i]], pts) == Members(cs, pts)[j := Members(cs, pts)[j] + [pts[i]]]
  {
    var cs' := cs[j := cs[j] + [i]];
    var a := Members(cs', pts);
    var b := Members(cs, pts)[j := Members(cs, pts)[j] + [pts[i]]];
    forall k | 0 <= k < |a| ensures a[k] == b[k] {
      if k == j {
        assert forall t :: 0 <= t < |a[k]| ==> a[k][t] == b[k][t];
      }
    }
  }

  lemma MembersSnoc(cs: seq<seq<nat>>, pts: seq<Point>, i: nat)
    requires Indexes(cs, |pts|) && i < |pts|
    ensures Indexes(cs + [[i]], |pts|)
    ensures Members(cs + [[i]], pts) == Members(cs, pts) + [[pts[i]]]
  {
    var a := Members(cs + [[i]], pts);
    var b := Members(cs, pts) + [[pts[i]]];
    forall k | 0 <= k < |a| ensures a[k] == b[k] {
      if k < |cs| {
        assert (cs + [[i]])[k] == cs[k];
      }
    }
  }

  /** `x.start or datetime.min`: a missing start counts as the earliest time, 0. */
  function StartKey(p: Point): real {
    if p.start.Some? then p.start.value as real else 0.0
  }

  function DistFrom(dist: (real, real, real, real) -> real, cur: Point): Point -> real {
    (x: Point) => Km(dist, cur, x)
  }

  /** `[x for x in pts if x.id != id]`. */
  function Without(pts: seq<Point>, id: int): (r: seq<Point>)
    ensures |r| <= |pts|
    ensures forall x :: x in r <==> x in pts && x.id != id
  {
    if pts == [] then []
    else (if pts[0].id != id then [pts[0]] else []) + Without(pts[1..], id)
  }

  /** `list.remove(x)`: drops the first element equal to `x`. */
  function RemoveFirst(s: seq<Point>, x: Point): (r: seq<Point>)
    requires x in s
    ensures |r| == |s| - 1
    ensures multiset(r) == multiset(s) - multiset{x}
  {
    if s[0] == x then
      assert s == [s[0]] + s[1..];
      s[1..]
    else
      var rest := RemoveFirst(s[1..], x);
      assert s == [s[0]] + s[1..];
      [s[0]] + rest
  }

  /** The greedy tour from `cur` over `rem`: always on to the nearest remaining point, the first of equals. */
  function Walk(cur: Point, rem: seq<Point>, dist: (real, real, real, real) -> real): seq<Point>
    decreases |rem|
  {
    if rem == [] then []
    else
      var next := rem[FirstMin(rem, DistFrom(dist, cur))];
      [next] + Walk(next, RemoveFirst(rem, next), dist)
  }

  /** The route of `routes`: from the earliest start, then greedily on; empty without points. */
  function Route(pts: seq<Point>, dist: (real, real, real, real) -> real): seq<Point> {
    if pts == [] then []
    else
      var first := pts[FirstMin(pts, StartKey)];
      [first] + Walk(first, Without(pts, first.id), dist)
  }

  lemma WalkStep(done: seq<Point>, cur: Point, rem: seq<Point>, dist: (real, real, real, real) -> real)
    requires rem != []
    ensures var next := rem[FirstMin(rem, DistFrom(dist, cur))];
      done + Walk(cur, rem, dist) == (done + [next]) + Walk(next, RemoveFirst(rem, next), dist)
  {
    var next := rem[FirstMin(rem, DistFrom(dist, cur))];
    var w := Walk(next, RemoveFirst(rem, next), dist);
    assert Walk(cur, rem, dist) == [next] + w;
    AppendAssoc(done, [next], w);
  }

  /** `routes`: the earliest point, then the greedy loop. */
  method GreedyRoute(pts: seq<Point>, dist: (real, real, real, real) -> real) returns (ordered: seq<Point>)
    ensures ordered == Route(pts, dist)
  {
    if pts == [] {
      return [];
    }
    var cur := pts[FirstMin(pts, StartKey)];
    var tail := WalkOn(cur, Without(pts, cur.id), dist);
    ordered := [cur] + tail;
  }

  /** `while remaining:` move on to the nearest remaining point and drop it. */
  method WalkOn(start: Point, pts: seq<Point>, dist: (real, real, real, real) -> real) returns (ordered: seq<Point>)
    ensures ordered == Walk(start, pts, dist)
  {
    ghost var goal := Walk(start, pts, dist);
    ordered := [];
    var cur := start;
    var remaining := pts;
    assert ordered + Walk(cur, remaining, dist) == goal;
    while remaining != []
      invariant ordered + Walk(cur, remaining, dist) == goal
      decreases |remaining|
    {
      var next, rest := Advance(cur, remaining, dist, ordered);
      ordered := ordered + [next];
      remaining := rest;
      cur := next;
    }
    assert ordered + [] == ordered;
  }

  /** One pass of the loop: the nearest remaining point, and the points left after it. */
  method Advance(cur: Point, remaining: seq<Point>, dist: (real, real, real, real) -> real, ghost done: seq<Point>)
    returns (next: Point, rest: seq<Point>)
    requires remaining != []
    ensures |rest| < |remaining|
    ensures done + Walk(cur, remaining, dist) == (done + [next]) + Walk(next, rest, dist)
  {
    next := remaining[FirstMin(remaining, DistFrom(dist, cur))];
    rest := RemoveFirst(remaining, next);
    WalkStep(done, cur, remaining, dist);
  }

  lemma {:induction false} WalkVisitsAll(cur: Point, rem: seq<Point>, dist: (real, real, real, real) -> real)
    ensures multiset(Walk(cur, rem, dist)) == multiset(rem)
    decreases |rem|
  {
    if rem != [] {
      var next := rem[FirstMin(rem, DistFrom(dist, cur))];
      WalkVisitsAll(next, RemoveFirst(rem, next), dist);
      assert next in multiset(rem);
    }
  }

  /** Each step of the tour goes to a point no farther than any point visited after it. */
  ghost predicate Greedy(s: seq<Point>, dist: (real, real, real, real) -> real) {
    forall k, m :: 0 <= k && k + 1 <= m < |s| ==> Km(dist, s[k], s[k + 1]) <= Km(dist, s[k], s[m])
  }

  lemma {:induction false} WalkGreedy(cur: Point, rem: seq<Point>, dist: (real, real, real, real) -> real)
    ensures Greedy([cur] + Walk(cur, rem, dist), dist)
    decreases |rem|
  {
    if rem != [] {
      var next := rem[FirstMin(rem, DistFrom(dist, cur))];
      var rest := RemoveFirst(rem, next);
      WalkGreedy(next, rest, dist);
      var tail := [next] + Walk(next, rest, dist);
      assert Walk(cur, rem, dist) == tail;
      FirstStepNearest(cur, rem, dist);
      GreedyCons(cur, tail, dist);
    }
  }

  lemma FirstStepNearest(cur: Point, rem: seq<Point>, dist: (real, real, real, real) -> real)
    requires rem != []
    ensures var w := Walk(cur, rem, dist);
      forall m :: 0 <= m < |w| ==> Km(dist, cur, w[0]) <= Km(dist, cur, w[m])
  {
    var w := Walk(cur, rem, dist);
    WalkVisitsAll(cur, rem, dist);
    var i := FirstMin(rem, DistFrom(dist, cur));
    assert w[0] == rem[i];
    forall m | 0 <= m < |w| ensures Km(dist, cur, w[0]) <= Km(dist, cur, w[m]) {
      assert w[m] in multiset(w);
      var q :| 0 <= q < |rem| && rem[q] == w[m];
      assert DistFrom(dist, cur)(rem[i]) <= DistFrom(dist, cur)(rem[q]);
    }
  }

  lemma GreedyCons(cur: Point, tail: seq<Point>, dist: (real, real, real, real) -> real)
    requires tail != [] && Greedy(tail, dist)
    requires forall m :: 0 <= m < |tail| ==> Km(dist, cur, tail[0]) <= Km(dist, cur, tail[m])
    ensures Greedy([cur] + tail, dist)
  {
    var s := [cur] + tail;
    forall k, m | 0 <= k && k + 1 <= m < |s| ensures Km(dist, s[k], s[k + 1]) <= Km(dist, s[k], s[m]) {
      if k == 0 {
        assert s[1] == tail[0] && s[m] == tail[m - 1];
      } else {
        assert s[k] == tail[k - 1] && s[k + 1] == tail[k] && s[m] == tail[m - 1];
      }
    }
  }

  lemma {:induction false} WithoutUnique(pts: seq<Point>, c: Point)
    requires c in pts
    requires forall a, b :: 0 <= a < b < |pts| ==> pts[a].id != pts[b].id
    ensures multiset(Without(pts, c.id)) + multiset{c} == multiset(pts)
  {
    assert pts == [pts[0]] + pts[1..];
    if pts[0] == c {
      forall x | x in pts[1..] ensures x.id != c.id {
        var b :| 0 <= b < |pts[1..]| && pts[1..][b] == x;
        assert pts[b + 1] == x;
      }
      WithoutNone(pts[1..], c.id);
    } else {
      WithoutUnique(pts[1..], c);
    }
  }

  lemma {:induction false} WithoutNone(pts: seq<Point>, id: int)
    requires forall x :: x in pts ==> x.id != id
    ensures Without(pts, id) == pts
  {
    if pts != [] {
      WithoutNone(pts[1..], id);
    }
  }

  /**
   * The route is empty exactly when there are no points, starts at the
   * earliest start, always moves on to a nearest remaining point, and with
   * distinct appointment ids visits every point exactly once.
   */
  lemma RouteMeaning(pts: seq<Point>, dist: (real, real, real, real) -> real)
    ensures var r := Route(pts, dist);
      (r == [] <==> pts == []) &&
      (r != [] ==> r[0] in pts && forall p :: p in pts ==> StartKey(r[0]) <= StartKey(p)) &&
      Greedy(r, dist) &&
      ((forall a, b :: 0 <= a < b < |pts| ==> pts[a].id != pts[b].id) ==> multiset(r) == multiset(pts))
  {
    if pts != [] {
      var first := pts[FirstMin(pts, StartKey)];
      WalkGreedy(first, Without(pts, first.id), dist);
      if forall a, b :: 0 <= a < b < |pts| ==> pts[a].id != pts[b].id {
        RouteVisitsAll(pts, dist);
      }
    }
  }

  lemma RouteVisitsAll(pts: seq<Point>, dist: (real, real, real, real) -> real)
    requires pts != []
    requires forall a, b :: 0 <= a < b < |pts| ==> pts[a].id != pts[b].id
    ensures multiset(Route(pts, dist)) == multiset(pts)
  {
    var first := pts[FirstMin(pts, StartKey)];
    var w := Walk(first, Without(pts, first.id), dist);
    assert Route(pts, dist) == [first] + w;
    WalkVisitsAll(first, Without(pts, first.id), dist);
    WithoutUnique(pts, first);
    assert multiset([first] + w) == multiset{first} + multiset(w);
  }
}
