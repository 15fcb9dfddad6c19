// The tables services, email_requests and email_dispatches, the statements
// that the email service runs on them, and their constraints.

module EmailTables {
  import opened Common
  import opened EmailRequest

  // Stored as "received", "dispatched", "failed" and "circuit_open".
  datatype RequestStatus = Received | Dispatched | RequestFailed | RequestCircuitOpen

  // Stored as "sent", "failed" and "circuit_open".
  datatype DispatchStatus = Sent | SendFailed | CircuitOpen

  type Uuid = nat

  datatype ServiceRow = ServiceRow(name: string, active: bool)

  datatype RequestRow = RequestRow(
    id: Uuid, service: string, email: Email, status: RequestStatus, processedAt: Time)

  datatype DispatchRow = DispatchRow(
    request: Uuid, resendId: Option<string>, payload: ResendRequest, status: DispatchStatus, httpStatus: int)

  // services by id, email_requests by queue_message_id (which is UNIQUE), and
  // email_dispatches in insertion order.
  datatype Tables = Tables(
    services: map<string, ServiceRow>,
    requests: map<string, RequestRow>,
    dispatches: seq<DispatchRow>)

  // A statement yields the new tables, or None when a constraint rejects it
  // or, for an update that must return a row, when no row matches.

  // INSERT ... ON CONFLICT (id) DO UPDATE of nothing; name is UNIQUE.
  function ServiceUpserted(t: Tables, id: string, name: string): Option<Tables> {
    if id in t.services then Some(t)
    else if exists other <- t.services :: t.services[other].name == name then None
    else Some(t.(services := t.services[id := ServiceRow(name, true)]))
  }

  // INSERT ... ON CONFLICT (queue_message_id) DO UPDATE SET status, processed_at.
  // to_addresses is NOT NULL, id is the primary key, service_id a foreign key.
  function RequestUpserted(t: Tables, requestId: string, row: RequestRow): Option<Tables> {
    if row.email.to.None? then None
    else if requestId in t.requests then
      var kept := t.requests[requestId].(status := row.status, processedAt := row.processedAt);
      Some(t.(requests := t.requests[requestId := kept]))
    else if row.service !in t.services then None
    else if exists other <- t.requests :: t.requests[other].id == row.id then None
    else Some(t.(requests := t.requests[requestId := row]))
  }

  // INSERT; resend_email_id is UNIQUE, email_request_id a foreign key.
  function DispatchCreated(t: Tables, row: DispatchRow): Option<Tables> {
    if row.resendId.Some? && exists d <- t.dispatches :: d.resendId == row.resendId then None
    else if !exists q <- t.requests :: t.requests[q].id == row.request then None
    else Some(t.(dispatches := t.dispatches + [row]))
  }

  // UPDATE email_requests SET status WHERE id.
  function StatusUpdated(t: Tables, id: Uuid, status: RequestStatus): Option<Tables> {
    if !exists q <- t.requests :: t.requests[q].id == id then None
    else Some(t.(requests := map q | q in t.requests ::
      if t.requests[q].id == id then t.requests[q].(status := status) else t.requests[q]))
  }

  // ---- The service registry ----

  const NAMESPACE := "io.opencrafts."

  // The rows that the migration seeds.
  const SEEDED: map<string, ServiceRow> := map[
    "io.opencrafts.verisafe" := ServiceRow("Verisafe", true),
    "io.opencrafts.sherehe" := ServiceRow("Sherehe", true),
    "io.opencrafts.veribroke" := ServiceRow("Veribroke", true),
    "io.opencrafts.keepup" := ServiceRow("Keep Up", true),
    "io.opencrafts.professor" := ServiceRow("Professor", true)]

  ghost predicate RegistryOk(services: map<string, ServiceRow>) {
    forall id <- services ::
      (id in SEEDED && services[id] == SEEDED[id]) || (services[id] == ServiceRow(id, true) && NAMESPACE <= id)
  }

  lemma SeedNamesAreOutsideTheNamespace(id: string)
    requires id in SEEDED
    ensures SEEDED[id].name != [] && SEEDED[id].name[0] != NAMESPACE[0]
  {
    assert SEEDED[id].name in {"Verisafe", "Sherehe", "Veribroke", "Keep Up", "Professor"};
  }

  // UNIQUE (name) never rejects an auto-registration.
  lemma AutoRegistrationSucceeds(t: Tables, id: string)
    requires RegistryOk(t.services) && NAMESPACE <= id
    ensures ServiceUpserted(t, id, id).Some?
    ensures var t' := ServiceUpserted(t, id, id).value;
            && RegistryOk(t'.services) && id in t'.services
            && t'.requests == t.requests && t'.dispatches == t.dispatches
            && (forall other <- t.services :: other in t'.services && t'.services[other] == t.services[other])
  {
    forall other | other in t.services && id !in t.services
      ensures t.services[other].name != id
    {
      if other in SEEDED {
        SeedNamesAreOutsideTheNamespace(other);
      }
    }
  }

  // ---- The statements as queries inside a transaction ----

  class Queries {
    var services: map<string, ServiceRow>
    var requests: map<string, RequestRow>
    var dispatches: seq<DispatchRow>

    ghost function View(): Tables
      reads this
    {
      Tables(services, requests, dispatches)
    }

    constructor (t: Tables)
      ensures View() == t
    {
      services := t.services;
      requests := t.requests;
      dispatches := t.dispatches;
    }

    method GetEmailRequestByQueueMessageID(requestId: string) returns (r: Option<RequestRow>)
      ensures r == if requestId in requests then Some(requests[requestId]) else None
    {
      if requestId in requests {
        r := Some(requests[requestId]);
      } else {
        r := None;
      }
    }

    method UpsertService(id: string, name: string) returns (ok: bool)
      modifies this
      ensures var r := ServiceUpserted(old(View()), id, name);
              ok == r.Some? && View() == if ok then r.value else old(View())
    {
      if id in services {
        services := services[id := services[id].(active := services[id].active)];
        return true;
      }
      if exists other <- services :: services[other].name == name {
        return false;
      }
      services := services[id := ServiceRow(name, true)];
      return true;
    }

    method UpsertEmailRequest(requestId: string, row: RequestRow) returns (stored: Option<RequestRow>)
      modifies this
      ensures var r := RequestUpserted(old(View()), requestId, row);
              && stored.Some? == r.Some?
              && View() == (if r.Some? then r.value else old(View()))
              && (stored.Some? ==> requestId in requests && stored.value == requests[requestId])
    {
      if row.email.to.None? {
        return None;
      }
      if requestId in requests {
        requests := requests[requestId := requests[requestId].(status := row.status, processedAt := row.processedAt)];
      } else if row.service !in services || exists other <- requests :: requests[other].id == row.id {
        return None;
      } else {
        requests := requests[requestId := row];
      }
      return Some(requests[requestId]);
    }

    method CreateEmailDispatch(row: DispatchRow) returns (ok: bool)
      modifies this
      ensures var r := DispatchCreated(old(View()), row);
              ok == r.Some? && View() == if ok then r.value else old(View())
    {
      if row.resendId.Some? && exists d <- dispatches :: d.resendId == row.resendId {
        return false;
      }
      if !exists q <- requests :: requests[q].id == row.request {
        return false;
      }
      dispatches := dispatches + [row];
      return true;
    }

    method UpdateEmailRequestStatusByID(id: Uuid, status: RequestStatus) returns (ok: bool)
      modifies this
      ensures var r := StatusUpdated(old(View()), id, status);
              ok == r.Some? && View() == if ok then r.value else old(View())
    {
      if !exists q <- requests :: requests[q].id == id {
        return false;
      }
      requests := map q | q in requests ::
        if requests[q].id == id then requests[q].(status := status) else requests[q];
      return true;
    }
  }
}
