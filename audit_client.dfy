/**
 * The client side of auditing (src/lib/audit.ts): `appendAudit` posts an
 * event to the audit function with a timestamp filled in, and never fails
 * because of the answer; `auditTaskViewed`, in the same file, calls it for a
 * viewed task.
 *
 * The clock and the outcome of the `fetch` are parameters.
 */
module AuditClient {
  import opened Base
  import AuditFunction

  /** The client's `AuditEvent`; the four identifying fields are required by its type. */
  datatype ClientEvent = ClientEvent(ts: Option<int>, actorId: string, orgId: Option<string>, entityType: string,
                                     entityId: string, action: string, details: Option<string>)

  /** What `fetch` gave: a response with its `ok` flag and text, or a rejected promise. */
  datatype FetchResult = Answered(ok: bool, text: string) | NetworkFailure(message: string)

  /** How the call ends: normally, with the warning logged if any, or by rethrowing the fetch failure. */
  datatype Completion = Returned(warning: Option<string>) | Threw(message: string)

  /** `{ ...event, ts: event.ts ?? Date.now() }`, as the audit function reads it. */
  function Posted(e: ClientEvent, now: int): (body: AuditFunction.AuditEvent)
    ensures body.ts == Some(e.ts.GetOr(now))
    ensures body.actorId == Some(e.actorId) && body.entityType == Some(e.entityType)
    ensures body.entityId == Some(e.entityId) && body.action == Some(e.action)
    ensures body.orgId == e.orgId && body.details == e.details
  {
    AuditFunction.AuditEvent(Some(e.ts.GetOr(now)), Some(e.actorId), e.orgId, Some(e.entityType),
                             Some(e.entityId), Some(e.action), e.details)
  }

  /** `appendAudit` (src/lib/audit.ts:13-24): the body it posts and how the call ends. */
  function AppendAudit(e: ClientEvent, now: int, result: FetchResult): (r: (AuditFunction.AuditEvent, Completion))
    ensures r.0 == Posted(e, now)
    ensures result.Answered? ==> r.1.Returned? && (r.1.warning.Some? <==> !result.ok)
    ensures result.NetworkFailure? ==> r.1 == Threw(result.message)
  {
    var body := Posted(e, now);
    match result
    case NetworkFailure(message) => (body, Threw(message))
    case Answered(ok, text) => (body, Returned(if ok then None else Some("audit append failed " + text)))
  }

  /** The event `auditTaskViewed` sends. */
  function TaskViewed(userId: string, taskId: string): ClientEvent {
    ClientEvent(None, userId, None, "task", taskId, "view", None)
  }

  /** `auditTaskViewed` (src/lib/audit.ts:26-28). */
  function AuditTaskViewed(userId: string, taskId: string, now: int, result: FetchResult): (r: (AuditFunction.AuditEvent, Completion))
    ensures r.0 == AuditFunction.AuditEvent(Some(now), Some(userId), None, Some("task"), Some(taskId), Some("view"), None)
  {
    AppendAudit(TaskViewed(userId, taskId), now, result)
  }

  /**
   * Posting through the client and storing through the function agree: a
   * client event with non-empty identifying fields is accepted, and the row
   * keeps the client's fields and the time the client chose.
   */
  lemma ClientEventStored(e: ClientEvent, now: int, serverNow: int, url: string, key: string)
    requires e.actorId != "" && e.entityType != "" && e.entityId != "" && e.action != ""
    requires url != "" && key != ""
    ensures var o := AuditFunction.Handle("POST", AuditFunction.Event(Posted(e, now)), Some(url), Some(key), None, serverNow);
      o.response.status == 200 && o.inserted.Some? &&
      o.inserted.value.createdAt == e.ts.GetOr(now) &&
      o.inserted.value.actorId == e.actorId && o.inserted.value.entityType == e.entityType &&
      o.inserted.value.entityId == e.entityId && o.inserted.value.action == e.action &&
      o.inserted.value.orgId == e.orgId && o.inserted.value.details == e.details
  {
    AuditFunction.RowCopiesEvent(Posted(e, now), serverNow);
  }

  /** A viewed-task event from a signed-in user is always a valid event for the function. */
  lemma TaskViewedValid(userId: string, taskId: string, now: int, result: FetchResult)
    requires userId != "" && taskId != ""
    ensures AuditFunction.ValidEvent(AuditTaskViewed(userId, taskId, now, result).0)
  {
  }
}
