/**
 * The audit edge function (supabase/functions/audit/index.ts): checks an
 * audit event, builds the `audit_logs` row and answers with the outcome.
 *
 * The parsed request body, the two environment variables, the insert's
 * error and the clock are parameters. The event's `details` object is
 * carried as its JSON text.
 */
module AuditFunction {
  import opened Base

  /** An audit event as the client sent it; a missing field is None. */
  datatype AuditEvent = AuditEvent(
    ts: Option<int>, actorId: Option<string>, orgId: Option<string>, entityType: Option<string>,
    entityId: Option<string>, action: Option<string>, details: Option<string>)

  /** What `req.json()` gave: no JSON at all, a falsy value (`null`, `false`, ...), or an event. */
  datatype RequestBody = Unparsable(message: string) | Falsy | Event(event: AuditEvent)

  /** A row of `audit_logs`; the hash columns are never filled. */
  datatype AuditRow = AuditRow(
    createdAt: int, actorId: string, orgId: Option<string>, entityType: string, entityId: string,
    action: string, details: Option<string>, prevHash: Option<string>, eventHash: Option<string>)

  datatype ResponseBody = Empty | Error(error: string) | Accepted(ts: int)
  datatype Response = Response(status: int, body: ResponseBody)

  /** The response, and the row inserted if an insert was made. */
  datatype Outcome = Outcome(response: Response, inserted: Option<AuditRow>)

  const InvalidEvent: string := "invalid event"
  const MissingConfig: string := "missing service config"

  /** The four required fields are all truthy. */
  predicate ValidEvent(e: AuditEvent) {
    Truthy(e.actorId) && Truthy(e.entityType) && Truthy(e.entityId) && Truthy(e.action)
  }

  /** The row payload: `event.ts ?? now`, `orgId ?? null`, `details ?? null`, no hashes. */
  function RowFor(e: AuditEvent, now: int): (row: AuditRow)
    requires ValidEvent(e)
  {
    AuditRow(e.ts.GetOr(now), e.actorId.value, e.orgId, e.entityType.value, e.entityId.value, e.action.value,
             e.details, None, None)
  }

  /** The handler (supabase/functions/audit/index.ts:20-45). */
  function Handle(httpMethod: string, body: RequestBody, supabaseUrl: Option<string>, serviceKey: Option<string>,
                  insertError: Option<string>, now: int): (o: Outcome)
    ensures o.inserted.Some? <==>
      httpMethod != "OPTIONS" && body.Event? && ValidEvent(body.event) && Truthy(supabaseUrl) && Truthy(serviceKey)
    ensures o.inserted.Some? ==> o.inserted.value == RowFor(body.event, now)
    ensures o.response.status == 400 <==>
      httpMethod != "OPTIONS" && (body.Falsy? || (body.Event? && !ValidEvent(body.event)))
    ensures o.response.status == 400 ==> o.response.body == Error(InvalidEvent)
    ensures o.response.status == 200 <==> httpMethod == "OPTIONS" || (o.inserted.Some? && insertError.None?)
    ensures o.inserted.Some? && insertError.None? ==> o.response == Response(200, Accepted(now))
    ensures o.inserted.Some? && insertError.Some? ==> o.response == Response(500, Error(insertError.value))
    ensures httpMethod != "OPTIONS" && body.Event? && ValidEvent(body.event) && !(Truthy(supabaseUrl) && Truthy(serviceKey))
      ==> o == Outcome(Response(500, Error(MissingConfig)), None)
    ensures httpMethod != "OPTIONS" && body.Unparsable? ==> o == Outcome(Response(500, Error(body.message)), None)
    ensures httpMethod == "OPTIONS" ==> o == Outcome(Response(200, Empty), None)
  {
    if httpMethod == "OPTIONS" then Outcome(Response(200, Empty), None)
    else match body
      case Unparsable(message) => Outcome(Response(500, Error(message)), None)
      case Falsy => Outcome(Response(400, Error(InvalidEvent)), None)
      case Event(e) =>
        if !ValidEvent(e) then Outcome(Response(400, Error(InvalidEvent)), None)
        else if !Truthy(supabaseUrl) || !Truthy(serviceKey) then Outcome(Response(500, Error(MissingConfig)), None)
        else
          var row := RowFor(e, now);
          match insertError
          case Some(message) => Outcome(Response(500, Error(message)), Some(row))
          case None => Outcome(Response(200, Accepted(now)), Some(row))
  }

  /**
   * The stored row copies the event: its time when it has one (even 0),
   * otherwise the current time; a missing organisation or details is null,
   * and both hashes are null.
   */
  lemma RowCopiesEvent(e: AuditEvent, now: int)
    requires ValidEvent(e)
    ensures var row := RowFor(e, now);
      (e.ts.Some? ==> row.createdAt == e.ts.value) && (e.ts.None? ==> row.createdAt == now) &&
      Some(row.actorId) == e.actorId && Some(row.entityType) == e.entityType &&
      Some(row.entityId) == e.entityId && Some(row.action) == e.action &&
      row.orgId == e.orgId && row.details == e.details &&
      row.prevHash.None? && row.eventHash.None?
  {
  }

  /**
   * A valid event meets the configuration check: a missing or empty url or
   * service key is reported as 500 and nothing is inserted, whatever the
   * insert would have done; an invalid event is refused with 400 before the
   * configuration is looked at.
   */
  lemma MissingConfigRefused(httpMethod: string, body: RequestBody, supabaseUrl: Option<string>,
                             serviceKey: Option<string>, insertError: Option<string>, now: int)
    requires httpMethod != "OPTIONS" && body.Event?
    requires !Truthy(supabaseUrl) || !Truthy(serviceKey)
    ensures ValidEvent(body.event) ==>
      Handle(httpMethod, body, supabaseUrl, serviceKey, insertError, now) == Outcome(Response(500, Error(MissingConfig)), None)
    ensures !ValidEvent(body.event) ==>
      Handle(httpMethod, body, supabaseUrl, serviceKey, insertError, now) == Outcome(Response(400, Error(InvalidEvent)), None)
  {
  }
}
