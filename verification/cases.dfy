/**
 * The case tracker: a case's status, outcome, assigned inspector and its
 * activity log, changed in place by the handlers, and the review of an
 * inspection report. Errors are HTTP status codes; a handler that fails
 * changes nothing.
 */
module CaseTracker {
  import opened Wrappers

  /** One entry of a case's activity log. */
  datatype Activity = Activity(actor: string, action: string, note: string)

  /** `actor or default`: a missing or empty actor falls back to the handler's default. */
  function ActorOr(actor: Option<string>, default: string): (a: string)
    ensures actor.Some? && actor.value != "" ==> a == actor.value
    ensures actor.None? || actor.value == "" ==> a == default
  {
    if actor.Some? && actor.value != "" then actor.value else default
  }

  /** The statuses `update_case_status` accepts. */
  const Statuses: seq<string> := ["New", "Scheduled", "Visited", "Reported", "Closed"]

  class Case {
    var id: int
    var status: string
    var outcome: Option<string>
    var assignedInspectorId: Option<string>
    var activities: seq<Activity>

    /** `create_case`: status "New" and a single CREATE activity. */
    constructor (id: int, notes: Option<string>, createdBy: Option<string>)
      ensures this.id == id && status == "New" && outcome.None? && assignedInspectorId.None?
      ensures activities == [Activity(ActorOr(createdBy, "system"), "CREATE", ActorOr(notes, "Case created"))]
    {
      this.id := id;
      status := "New";
      outcome := None;
      assignedInspectorId := None;
      activities := [Activity(ActorOr(createdBy, "system"), "CREATE", ActorOr(notes, "Case created"))];
    }
  }

  class Report {
    var id: int
    var caseId: int
    var status: string

    constructor (id: int, caseId: int, status: string)
      ensures this.id == id && this.caseId == caseId && this.status == status
    {
      this.id := id;
      this.caseId := caseId;
      this.status := status;
    }
  }

  /** `assign_case`: 404 for a missing case, else the inspector is set and an ASSIGN activity logged. */
  method AssignCase(c: Case?, inspectorId: string, actor: Option<string>) returns (r: Result<int, int>)
    modifies c
    ensures c == null ==> r == Err(404)
    ensures c != null ==> (r == Ok(c.id) && c.assignedInspectorId == Some(inspectorId) &&
      c.status == old(c.status) && c.outcome == old(c.outcome) &&
      c.activities == old(c.activities) + [Activity(ActorOr(actor, "manager"), "ASSIGN", "Assigned to inspector " + inspectorId)])
  {
    if c == null {
      return Err(404);
    }
    c.assignedInspectorId := Some(inspectorId);
    c.activities := c.activities + [Activity(ActorOr(actor, "manager"), "ASSIGN", "Assigned to inspector " + inspectorId)];
    r := Ok(c.id);
  }

  /**
   * The status a request asks for, checked before the case is looked up:
   * 400 outside the five statuses, 404 for a missing case. The current
   * status plays no part.
   */
  function StatusChange(status: string, found: bool): (r: Result<string, int>)
    ensures r.Ok? <==> status in Statuses && found
    ensures status !in Statuses ==> r == Err(400)
    ensures status in Statuses && !found ==> r == Err(404)
    ensures r.Ok? ==> r.value == status
  {
    if status !in Statuses then Err(400) else if !found then Err(404) else Ok(status)
  }

  /** `update_case_status`: the case takes the status and a STATUS_UPDATE activity is logged. */
  method UpdateCaseStatus(c: Case?, status: string, actor: Option<string>) returns (r: Result<string, int>)
    modifies c
    ensures r == StatusChange(status, c != null)
    ensures c != null && r.Err? ==> c.status == old(c.status) && c.activities == old(c.activities)
    ensures c != null && r.Ok? ==> (c.status == status && c.outcome == old(c.outcome) &&
      c.assignedInspectorId == old(c.assignedInspectorId) &&
      c.activities == old(c.activities) + [Activity(ActorOr(actor, "system"), "STATUS_UPDATE", "Status changed to " + status)])
  {
    if status !in Statuses {
      return Err(400);
    }
    if c == null {
      return Err(404);
    }
    c.status := status;
    c.activities := c.activities + [Activity(ActorOr(actor, "system"), "STATUS_UPDATE", "Status changed to " + status)];
    r := Ok(status);
  }

  /** `add_case_comment`: a COMMENT activity with the note. */
  method AddComment(c: Case?, note: string, actor: Option<string>) returns (r: Result<int, int>)
    modifies c
    ensures c == null ==> r == Err(404)
    ensures c != null ==> (r == Ok(c.id) && c.status == old(c.status) && c.outcome == old(c.outcome) &&
      c.assignedInspectorId == old(c.assignedInspectorId) &&
      c.activities == old(c.activities) + [Activity(ActorOr(actor, "user"), "COMMENT", note)])
  {
    if c == null {
      return Err(404);
    }
    c.activities := c.activities + [Activity(ActorOr(actor, "user"), "COMMENT", note)];
    r := Ok(c.id);
  }

  /** `record_meter_reading`, with the reading already formatted as text: a METER_READING activity. */
  method RecordReading(c: Case?, reading: string, unit: string, actor: Option<string>) returns (r: Result<string, int>)
    modifies c
    ensures c == null ==> r == Err(404)
    ensures c != null ==> (r == Ok("Meter reading: " + reading + " " + unit) &&
      c.status == old(c.status) && c.outcome == old(c.outcome) && c.assignedInspectorId == old(c.assignedInspectorId) &&
      c.activities == old(c.activities) + [Activity(ActorOr(actor, "inspector"), "METER_READING", r.value)])
  {
    if c == null {
      return Err(404);
    }
    var note := "Meter reading: " + reading + " " + unit;
    c.activities := c.activities + [Activity(ActorOr(actor, "inspector"), "METER_READING", note)];
    r := Ok(note);
  }

  /** What a review decision does: the report's new status, the case's new outcome and status if any, the log note. */
  datatype Verdict = Verdict(reportStatus: string, caseChange: Option<(string, string)>, note: string)

  function Decide(decision: string): Option<Verdict> {
    if decision == "Approve_Fraud" then Some(Verdict("Approved", Some(("Fraud", "Closed")), "Report approved. Outcome: Fraud."))
    else if decision == "Approve_NoIssue" then Some(Verdict("Approved", Some(("No Issue", "Closed")), "Report approved. Outcome: No Issue."))
    else if decision == "Recheck" then Some(Verdict("Recheck", Some(("Recheck", "Reported")), "Recheck requested."))
    else if decision == "Reject" then Some(Verdict("Rejected", None, "Report rejected."))
    else None
  }

  /**
   * Only the four decisions are accepted; a decision closes the case
   * exactly when it approves the report, the two approvals differ only in
   * the outcome, Recheck sends the case back to "Reported", and Reject
   * changes the report alone.
   */
  lemma DecideMeaning(decision: string)
    ensures var v := Decide(decision);
      (v.Some? <==> decision in ["Approve_Fraud", "Approve_NoIssue", "Recheck", "Reject"]) &&
      (v.Some? ==> (v.value.reportStatus == "Approved" <==> v.value.caseChange.Some? && v.value.caseChange.value.1 == "Closed")) &&
      (v.Some? ==> (v.value.caseChange.None? <==> decision == "Reject")) &&
      (v.Some? && v.value.caseChange.Some? ==> v.value.caseChange.value.0 == (if decision == "Approve_Fraud" then "Fraud" else if decision == "Approve_NoIssue" then "No Issue" else "Recheck")) &&
      (decision == "Recheck" ==> v.value.caseChange == Some(("Recheck", "Reported")))
  {
  }

  /**
   * `review_inspection_report`: 404 for a missing case or a report that is
   * missing or belongs to another case, 400 for an unknown decision;
   * otherwise the verdict is applied and a REVIEW activity logged.
   */
  method Review(c: Case?, report: Report?, decision: string, actor: Option<string>) returns (r: Result<(string, Option<string>, string), int>)
    modifies c, report
    ensures c == null ==> r == Err(404)
    ensures c != null && (report == null || report.caseId != c.id) ==> r == Err(404)
    ensures c != null && report != null && report.caseId == c.id && Decide(decision).None? ==> r == Err(400)
    ensures r.Err? && c != null ==> c.status == old(c.status) && c.outcome == old(c.outcome) && c.activities == old(c.activities)
    ensures r.Err? && report != null ==> report.status == old(report.status)
    ensures r.Ok? ==> c != null && report != null && report.caseId == c.id && Decide(decision).Some?
    ensures r.Ok? ==> var v := Decide(decision).value;
      report.status == v.reportStatus &&
      c.status == (if v.caseChange.Some? then v.caseChange.value.1 else old(c.status)) &&
      c.outcome == (if v.caseChange.Some? then Some(v.caseChange.value.0) else old(c.outcome)) &&
      c.assignedInspectorId == old(c.assignedInspectorId) &&
      c.activities == old(c.activities) + [Activity(ActorOr(actor, "manager"), "REVIEW", v.note)] &&
      r.value == (c.status, c.outcome, report.status)
  {
    if c == null {
      return Err(404);
    }
    if report == null || report.caseId != c.id {
      return Err(404);
    }
    var v := Decide(decision);
    if v.None? {
      return Err(400);
    }
    report.status := v.value.reportStatus;
    if v.value.caseChange.Some? {
      c.outcome := Some(v.value.caseChange.value.0);
      c.status := v.value.caseChange.value.1;
    }
    c.activities := c.activities + [Activity(ActorOr(actor, "manager"), "REVIEW", v.value.note)];
    r := Ok((c.status, c.outcome, report.status));
  }
}
