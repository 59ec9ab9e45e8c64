/**
 * The death-verification case table and its workflow: a user's request
 * opens a case, a reviewer sets its status, and a VERIFIED status runs the
 * inheritance, asset-release and notification cascade. Every step leaves an
 * audit record.
 */
module DeathVerification {
  import opened Wrappers
  import opened Js
  import opened Text
  import opened Nest
  import opened AuditRecord

  datatype Status = Unverified | PendingReview | Verified | Rejected

  /** The stored value of each status. */
  function StatusValue(s: Status): string {
    match s
    case Unverified => "unverified"
    case PendingReview => "pending_review"
    case Verified => "verified"
    case Rejected => "rejected"
  }

  const StatusValues: seq<string> := ["unverified", "pending_review", "verified", "rejected"]

  /** The column default of a freshly inserted row. */
  const DefaultStatus: Status := Unverified

  /** The status a stored value names, if any. */
  function StatusOf(v: string): (r: Option<Status>)
    ensures r.Some? <==> v in StatusValues
    ensures r.Some? ==> StatusValue(r.value) == v
  {
    if v == "unverified" then Some(Unverified)
    else if v == "pending_review" then Some(PendingReview)
    else if v == "verified" then Some(Verified)
    else if v == "rejected" then Some(Rejected)
    else None
  }

  lemma StatusRoundTrip(s: Status)
    ensures StatusOf(StatusValue(s)) == Some(s)
  {
  }

  /** A case row; `verifiedAt` and `rejectedAt` are instants in milliseconds. */
  datatype Case = Case(
    id: string,
    userId: string,
    status: Status,
    verificationData: JsObject,
    reviewerId: Option<string>,
    reviewerNotes: Option<JsObject>,
    verifiedAt: Option<int>,
    rejectedAt: Option<int>)

  /** A call to another service, with the arguments it was given. */
  datatype Call =
    | EvaluateRules(userId: string, correlationId: string)
    | MarkAssetsAsReleasable(userId: string, correlationId: string)
    | SendNotification(userId: string, kind: string, message: string, correlationId: string)

  /** Whether each downstream call of the cascade succeeds (it fails by throwing). */
  datatype Outcomes = Outcomes(rulesOk: bool, assetsOk: bool, notificationOk: bool)

  const StatusUpdatedPrefix: string := "DEATH_VERIFICATION_STATUS_UPDATED_"
  const DuplicateMessage: string := "Outstanding unverified request already exists for this user."
  const NotificationKind: string := "death_verified"
  const NotificationMessage: string := "Your death has been verified. Inheritance process initiated."

  function NotFoundMessage(id: string): string {
    "Death verification request with ID " + id + " not found."
  }

  /** The error a failed downstream call propagates. */
  function CallFailure(c: Call): HttpError {
    match c
    case EvaluateRules(_, _) => Propagated("evaluateRules failed")
    case MarkAssetsAsReleasable(_, _) => Propagated("markAssetsAsReleasable failed")
    case SendNotification(_, _, _, _) => Propagated("sendNotification failed")
  }

  // ---- Creating a request ----

  /** The duplicate check as written: only an UNVERIFIED case of the user blocks a new one. */
  predicate HasUnverified(cases: map<string, Case>, userId: string) {
    exists id :: id in cases && cases[id].userId == userId && cases[id].status == Unverified
  }

  /** A new case: PENDING_REVIEW, with the user's id and data and nothing reviewed. */
  function NewCase(id: string, userId: string, data: JsObject): (c: Case)
    ensures c.id == id && c.userId == userId && c.verificationData == data && c.status == PendingReview
    ensures c.reviewerId.None? && c.reviewerNotes.None? && c.verifiedAt.None? && c.rejectedAt.None?
  {
    Case(id, userId, PendingReview, data, None, None, None, None)
  }

  /** The audit of a new request: the user acts on the case, under the request's correlation id. */
  function RequestedAudit(c: Case, correlationId: string): (a: AuditData)
    ensures a.actorType == User && a.actorId == Some(c.userId)
    ensures a.action == "DEATH_VERIFICATION_REQUESTED"
    ensures a.targetType == Some("DEATH_VERIFICATION") && a.targetId == Some(c.id)
    ensures a.correlationId == Some(correlationId)
    ensures a.metadata == Some([("status", JStr(StatusValue(c.status)))])
  {
    AuditData(User, Some(c.userId), "DEATH_VERIFICATION_REQUESTED", Some("DEATH_VERIFICATION"), Some(c.id),
              Some(correlationId), Some([("status", JStr(StatusValue(c.status)))]))
  }

  /** What `createVerificationRequest` answers, as written. */
  function CreateOutcome(cases: map<string, Case>, userId: string, data: JsObject, newId: string): (r: Result<Case, HttpError>)
    ensures r.Failure? <==> HasUnverified(cases, userId)
    ensures r.Failure? ==> r.error == BadRequest(DuplicateMessage)
    ensures r.Success? ==> r.value == NewCase(newId, userId, data)
  {
    if HasUnverified(cases, userId) then Failure(BadRequest(DuplicateMessage))
    else Success(NewCase(newId, userId, data))
  }

  /** The table after a create. */
  function CreatedCases(cases: map<string, Case>, userId: string, data: JsObject, newId: string): map<string, Case> {
    match CreateOutcome(cases, userId, data, newId)
    case Success(c) => cases[newId := c]
    case Failure(_) => cases
  }

  /** A case that still awaits a decision. */
  predicate Outstanding(c: Case) {
    c.status == Unverified || c.status == PendingReview
  }

  predicate HasOutstanding(cases: map<string, Case>, userId: string) {
    exists id :: id in cases && cases[id].userId == userId && Outstanding(cases[id])
  }

  predicate AtMostOneOutstanding(cases: map<string, Case>) {
    forall i, j :: i in cases && j in cases && i != j && cases[i].userId == cases[j].userId ==>
      !(Outstanding(cases[i]) && Outstanding(cases[j]))
  }

  /**
   * As written, a second request of the same user is accepted while the
   * first is still pending review, leaving two outstanding cases.
   */
  lemma SecondRequestAccepted(userId: string, d1: JsObject, d2: JsObject, id1: string, id2: string)
    requires id1 != id2
    ensures var once := CreatedCases(map[], userId, d1, id1);
      && CreateOutcome(once, userId, d2, id2).Success?
      && !AtMostOneOutstanding(CreatedCases(once, userId, d2, id2))
  {
    var once := CreatedCases(map[], userId, d1, id1);
    assert once == map[id1 := NewCase(id1, userId, d1)];
    assert !HasUnverified(once, userId);
    var twice := CreatedCases(once, userId, d2, id2);
    assert twice[id1].userId == twice[id2].userId;
  }

  /** The duplicate check as evidently intended: any outstanding case of the user blocks a new one. */
  function CreateOutcomeCorrected(cases: map<string, Case>, userId: string, data: JsObject, newId: string): (r: Result<Case, HttpError>)
    ensures r.Failure? <==> HasOutstanding(cases, userId)
    ensures r.Failure? ==> r.error == BadRequest(DuplicateMessage)
    ensures r.Success? ==> r.value == NewCase(newId, userId, data)
  {
    if HasOutstanding(cases, userId) then Failure(BadRequest(DuplicateMessage))
    else Success(NewCase(newId, userId, data))
  }

  /** With the corrected check, creating keeps every user at no more than one outstanding case. */
  lemma CorrectedCreateKeepsOneOutstanding(cases: map<string, Case>, userId: string, data: JsObject, newId: string)
    requires AtMostOneOutstanding(cases) && newId !in cases
    ensures var r := CreateOutcomeCorrected(cases, userId, data, newId);
      AtMostOneOutstanding(if r.Success? then cases[newId := r.value] else cases)
  {
    var r := CreateOutcomeCorrected(cases, userId, data, newId);
    if r.Success? {
      var next := cases[newId := r.value];
      forall i, j | i in next && j in next && i != j && next[i].userId == next[j].userId
        ensures !(Outstanding(next[i]) && Outstanding(next[j]))
      {
        if i == newId {
          assert !(j in cases && cases[j].userId == userId && Outstanding(cases[j]));
        } else if j == newId {
          assert !(i in cases && cases[i].userId == userId && Outstanding(cases[i]));
        }
      }
    }
  }

  // ---- Reviewing a case ----

  /**
   * The case after a review at time `now`: any status may follow any other;
   * only VERIFIED stamps `verifiedAt` and only REJECTED stamps `rejectedAt`.
   */
  function Reviewed(c: Case, status: Status, reviewerId: string, notes: JsObject, now: int): (r: Case)
    ensures r.id == c.id && r.userId == c.userId && r.verificationData == c.verificationData
    ensures r.status == status && r.reviewerId == Some(reviewerId) && r.reviewerNotes == Some(notes)
    ensures r.verifiedAt == (if status == Verified then Some(now) else c.verifiedAt)
    ensures r.rejectedAt == (if status == Rejected then Some(now) else c.rejectedAt)
  {
    var r := c.(status := status, reviewerId := Some(reviewerId), reviewerNotes := Some(notes));
    if status == Verified then r.(verifiedAt := Some(now))
    else if status == Rejected then r.(rejectedAt := Some(now))
    else r
  }

  /** The status-change audit: the reviewer acts through the system on the case. */
  function StatusAudit(before: Case, after: Case, correlationId: string): (a: AuditData)
    ensures a.actorType == System && a.actorId == after.reviewerId
    ensures a.action == StatusUpdatedPrefix + Upper(StatusValue(after.status))
    ensures a.targetType == Some("DEATH_VERIFICATION") && a.targetId == Some(after.id)
    ensures a.correlationId == Some(correlationId)
    ensures a.metadata == Some([("oldStatus", JStr(StatusValue(before.status))),
                                ("newStatus", JStr(StatusValue(after.status))),
                                ("userId", JStr(after.userId))])
  {
    AuditData(System, after.reviewerId, StatusUpdatedPrefix + Upper(StatusValue(after.status)),
              Some("DEATH_VERIFICATION"), Some(after.id), Some(correlationId),
              Some([("oldStatus", JStr(StatusValue(before.status))),
                    ("newStatus", JStr(StatusValue(after.status))),
                    ("userId", JStr(after.userId))]))
  }

  lemma UpperVerified()
    ensures Upper(StatusValue(Verified)) == "VERIFIED"
  {
    var u := Upper(StatusValue(Verified));
    assert |u| == 8;
    assert u[0] == 'V' && u[1] == 'E' && u[2] == 'R' && u[3] == 'I';
    assert u[4] == 'F' && u[5] == 'I' && u[6] == 'E' && u[7] == 'D';
  }

  /** The action of a VERIFIED review, as the cascade's listeners see it. */
  lemma VerifiedAction(before: Case, after: Case, correlationId: string)
    requires after.status == Verified
    ensures StatusAudit(before, after, correlationId).action == StatusUpdatedPrefix + "VERIFIED"
  {
    UpperVerified();
  }

  // ---- The VERIFIED cascade ----

  /** The audit the cascade sends after a step, about the user. */
  function CascadeAudit(action: string, userId: string, correlationId: string, metadata: JsObject): AuditData {
    AuditData(System, None, action, Some("USER"), Some(userId), Some(correlationId), Some(metadata))
  }

  function RulesAudit(userId: string, correlationId: string): AuditData {
    CascadeAudit("INHERITANCE_RULES_EVALUATED", userId, correlationId, [("trigger", JStr("DEATH_VERIFIED"))])
  }

  function AssetsAudit(userId: string, correlationId: string): AuditData {
    CascadeAudit("ASSETS_MARKED_RELEASABLE", userId, correlationId, [("trigger", JStr("DEATH_VERIFIED"))])
  }

  function NotificationAudit(userId: string, correlationId: string): AuditData {
    CascadeAudit("NOTIFICATION_SENT", userId, correlationId, [("notificationType", JStr(NotificationKind))])
  }

  /** What the cascade did: the calls made, the audits sent, and the first failure if any. */
  datatype CascadeTrace = CascadeTrace(calls: seq<Call>, audits: seq<AuditData>, failure: Option<Call>)

  /**
   * `handleVerifiedStatus`: the three awaited calls in order, each followed
   * by its audit; a call that throws ends the cascade there.
   */
  function Cascade(userId: string, correlationId: string, o: Outcomes): (t: CascadeTrace)
    ensures |t.audits| <= |t.calls| <= 3
    ensures t.failure.None? <==> o.rulesOk && o.assetsOk && o.notificationOk
    ensures t.failure.Some? ==> 1 <= |t.calls| && t.failure.value == t.calls[|t.calls| - 1] && |t.audits| == |t.calls| - 1
    ensures t.failure.None? ==> |t.audits| == |t.calls| == 3
    ensures forall i :: 0 <= i < |t.audits| ==> t.audits[i].correlationId == Some(correlationId) && t.audits[i].targetId == Some(userId)
  {
    var c1 := EvaluateRules(userId, correlationId);
    var c2 := MarkAssetsAsReleasable(userId, correlationId);
    var c3 := SendNotification(userId, NotificationKind, NotificationMessage, correlationId);
    if !o.rulesOk then CascadeTrace([c1], [], Some(c1))
    else if !o.assetsOk then CascadeTrace([c1, c2], [RulesAudit(userId, correlationId)], Some(c2))
    else if !o.notificationOk then
      CascadeTrace([c1, c2, c3], [RulesAudit(userId, correlationId), AssetsAudit(userId, correlationId)], Some(c3))
    else
      CascadeTrace([c1, c2, c3],
                   [RulesAudit(userId, correlationId), AssetsAudit(userId, correlationId), NotificationAudit(userId, correlationId)],
                   None)
  }

  /** When every step succeeds, each client is called exactly once, in order, about the case's user. */
  lemma CascadeAllSucceed(userId: string, correlationId: string)
    ensures Cascade(userId, correlationId, Outcomes(true, true, true)) ==
      CascadeTrace([EvaluateRules(userId, correlationId), MarkAssetsAsReleasable(userId, correlationId),
                    SendNotification(userId, NotificationKind, NotificationMessage, correlationId)],
                   [RulesAudit(userId, correlationId), AssetsAudit(userId, correlationId), NotificationAudit(userId, correlationId)],
                   None)
  {
  }

  /** A failed step is the last call made: later steps and their audits never happen. */
  lemma CascadeStopsAtFailure(userId: string, correlationId: string, o: Outcomes)
    ensures !o.rulesOk ==> Cascade(userId, correlationId, o).calls == [EvaluateRules(userId, correlationId)]
    ensures !o.rulesOk ==> Cascade(userId, correlationId, o).audits == []
    ensures o.rulesOk && !o.assetsOk ==>
      Cascade(userId, correlationId, o).calls == [EvaluateRules(userId, correlationId), MarkAssetsAsReleasable(userId, correlationId)]
    ensures o.rulesOk && !o.assetsOk ==> Cascade(userId, correlationId, o).audits == [RulesAudit(userId, correlationId)]
  {
  }

  /** The audits and calls an update leaves behind, and its answer. */
  function UpdateAudits(before: Case, after: Case, correlationId: string, o: Outcomes): seq<AuditData> {
    [StatusAudit(before, after, correlationId)]
      + (if after.status == Verified then Cascade(after.userId, correlationId, o).audits else [])
  }

  function UpdateCalls(after: Case, correlationId: string, o: Outcomes): seq<Call> {
    if after.status == Verified then Cascade(after.userId, correlationId, o).calls else []
  }

  function UpdateAnswer(after: Case, correlationId: string, o: Outcomes): Result<Case, HttpError> {
    if after.status == Verified && Cascade(after.userId, correlationId, o).failure.Some? then
      Failure(CallFailure(Cascade(after.userId, correlationId, o).failure.value))
    else Success(after)
  }

  /**
   * A VERIFIED update whose cascade succeeds leaves exactly four audits, all
   * under the request's correlation id, and calls each client once.
   */
  lemma VerifiedUpdateTrace(before: Case, reviewerId: string, notes: JsObject, now: int, correlationId: string)
    ensures var after := Reviewed(before, Verified, reviewerId, notes, now);
      var audits := UpdateAudits(before, after, correlationId, Outcomes(true, true, true));
      && |audits| == 4
      && (forall i :: 0 <= i < 4 ==> audits[i].correlationId == Some(correlationId))
      && UpdateCalls(after, correlationId, Outcomes(true, true, true)) ==
           [EvaluateRules(before.userId, correlationId), MarkAssetsAsReleasable(before.userId, correlationId),
            SendNotification(before.userId, NotificationKind, NotificationMessage, correlationId)]
      && UpdateAnswer(after, correlationId, Outcomes(true, true, true)) == Success(after)
  {
    var after := Reviewed(before, Verified, reviewerId, notes, now);
    CascadeAllSucceed(after.userId, correlationId);
  }

  /** Any status other than VERIFIED leaves one audit and calls nothing. */
  lemma NonVerifiedUpdateTrace(before: Case, status: Status, reviewerId: string, notes: JsObject, now: int,
                               correlationId: string, o: Outcomes)
    requires status != Verified
    ensures var after := Reviewed(before, status, reviewerId, notes, now);
      && UpdateAudits(before, after, correlationId, o) == [StatusAudit(before, after, correlationId)]
      && UpdateCalls(after, correlationId, o) == []
      && UpdateAnswer(after, correlationId, o) == Success(after)
  {
  }

  // ---- The service ----

  class DeathVerificationService {
    var cases: map<string, Case>
    var audits: seq<AuditData>
    var calls: seq<Call>

    constructor (cases: map<string, Case>)
      ensures this.cases == cases && audits == [] && calls == []
    {
      this.cases := cases;
      audits := [];
      calls := [];
    }

    /** `createVerificationRequest`; `newId` is the id the database generates. */
    method CreateVerificationRequest(userId: string, data: JsObject, correlationId: string, newId: string)
      returns (r: Result<Case, HttpError>)
      requires newId !in cases
      modifies this
      ensures r == CreateOutcome(old(cases), userId, data, newId)
      ensures cases == CreatedCases(old(cases), userId, data, newId)
      ensures audits == old(audits) + (if r.Success? then [RequestedAudit(r.value, correlationId)] else [])
      ensures calls == old(calls)
    {
      if exists id :: id in cases && cases[id].userId == userId && cases[id].status == Unverified {
        r := Failure(BadRequest(DuplicateMessage));
        return;
      }
      var c := NewCase(newId, userId, data);
      cases := cases[newId := c];
      audits := audits + [RequestedAudit(c, correlationId)];
      r := Success(c);
    }

    /**
     * `updateVerificationStatus` at time `now`, with the downstream outcomes
     * `o`. The review is saved before the cascade runs and stays saved when a
     * cascade step fails.
     */
    method UpdateVerificationStatus(id: string, status: Status, reviewerId: string, notes: JsObject,
                                    correlationId: string, now: int, o: Outcomes)
      returns (r: Result<Case, HttpError>)
      modifies this
      ensures id !in old(cases) ==>
        r == Failure(NotFound(NotFoundMessage(id))) && cases == old(cases) && audits == old(audits) && calls == old(calls)
      ensures id in old(cases) ==>
        var after := Reviewed(old(cases)[id], status, reviewerId, notes, now);
        && cases == old(cases)[id := after]
        && audits == old(audits) + UpdateAudits(old(cases)[id], after, correlationId, o)
        && calls == old(calls) + UpdateCalls(after, correlationId, o)
        && r == UpdateAnswer(after, correlationId, o)
    {
      if id !in cases {
        r := Failure(NotFound(NotFoundMessage(id)));
        return;
      }
      var before := cases[id];
      var after := Reviewed(before, status, reviewerId, notes, now);
      cases := cases[id := after];
      audits := audits + [StatusAudit(before, after, correlationId)];
      if status == Verified {
        var failure := HandleVerifiedStatus(after.userId, correlationId, o);
        if failure.Some? {
          r := Failure(CallFailure(failure.value));
          return;
        }
      }
      r := Success(after);
    }

    /** `handleVerifiedStatus`: runs the cascade and answers the call that failed, if any. */
    method HandleVerifiedStatus(userId: string, correlationId: string, o: Outcomes) returns (failure: Option<Call>)
      modifies this
      ensures cases == old(cases)
      ensures calls == old(calls) + Cascade(userId, correlationId, o).calls
      ensures audits == old(audits) + Cascade(userId, correlationId, o).audits
      ensures failure == Cascade(userId, correlationId, o).failure
    {
      var c1 := EvaluateRules(userId, correlationId);
      calls := calls + [c1];
      if !o.rulesOk { return Some(c1); }
      audits := audits + [RulesAudit(userId, correlationId)];
      var c2 := MarkAssetsAsReleasable(userId, correlationId);
      calls := calls + [c2];
      if !o.assetsOk { return Some(c2); }
      audits := audits + [AssetsAudit(userId, correlationId)];
      var c3 := SendNotification(userId, NotificationKind, NotificationMessage, correlationId);
      calls := calls + [c3];
      if !o.notificationOk { return Some(c3); }
      audits := audits + [NotificationAudit(userId, correlationId)];
      return None;
    }

    /** `getVerificationById`. */
    method GetVerificationById(id: string) returns (r: Result<Case, HttpError>)
      ensures id in cases ==> r == Success(cases[id])
      ensures id !in cases ==> r == Failure(NotFound(NotFoundMessage(id)))
    {
      if id in cases {
        r := Success(cases[id]);
      } else {
        r := Failure(NotFound(NotFoundMessage(id)));
      }
    }

    /** `getAllVerifications`: every stored case. */
    method GetAllVerifications() returns (r: set<Case>)
      ensures forall c :: c in r <==> exists id :: id in cases && cases[id] == c
    {
      r := cases.Values;
    }
  }
}
