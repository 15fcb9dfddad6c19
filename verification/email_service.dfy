// Sending an email: one database transaction around one provider call.

module EmailService {
  import opened Common
  import opened Resilience
  import opened EmailRequest
  import opened EmailTables

  datatype EmailEvent = EmailEvent(email: Email, eventType: string, serviceId: string, requestId: string)

  datatype Config = Config(codec: Codec, breaker: Settings)

  // What Resend did and what the client saw of it.
  datatype Reply = Accepted(resendId: string) | AcceptedButError | Refused

  datatype CommitOutcome = Committed | RolledBack | CommittedButError | DiesBeforeCommit | DiesAfterCommit

  // The environment of one attempt.
  datatype Env = Env(
    acquire: Outcome, begin: Outcome, lookup: Outcome,
    upsertService: Outcome, upsertRequest: Outcome, newId: Uuid, processedAt: Time,
    start: Time, end: Time, reply: Reply,
    marshal: Outcome, createDispatch: Outcome, updateStatus: Outcome, commit: CommitOutcome)

  datatype Verdict =
    | NotReached
    | BreakerRejected(refused: ResendRequest)
    | Called(request: ResendRequest, start: Time, end: Time, reply: Reply)

  // The trace of one attempt.
  datatype Trace = Trace(requestId: string, service: string, email: Email, verdict: Verdict, committed: bool)

  datatype Run = Run(tables: Tables, circuit: Circuit, trace: Trace, result: SendResult)

  datatype Statement = Done(tables: Tables) | Stopped(result: SendResult)

  function Execute(o: Outcome, r: Option<Tables>): Statement {
    if !o.Ok? then Stopped(Interrupted(o))
    else if r.None? then Stopped(Returned(true))
    else Done(r.value)
  }

  predicate IsDispatched(t: Tables, requestId: string) {
    requestId in t.requests && t.requests[requestId].status.Dispatched?
  }

  function NewRequest(ev: EmailEvent, env: Env): RequestRow {
    RequestRow(env.newId, ev.serviceId, ev.email, RequestStatus.Received, env.processedAt)
  }

  // Up to the provider call: duplicate check and the two upserts.
  function Prepare(t: Tables, ev: EmailEvent, env: Env): Statement {
    if !env.acquire.Ok? then Stopped(Interrupted(env.acquire))
    else if !env.begin.Ok? then Stopped(Interrupted(env.begin))
    else PrepareInside(t, ev, env)
  }

  // The part of it inside the transaction.
  function PrepareInside(t: Tables, ev: EmailEvent, env: Env): Statement {
    if !env.lookup.Ok? then Stopped(Interrupted(env.lookup))
    else if IsDispatched(t, ev.requestId) then Stopped(Returned(false))
    else
      match Execute(env.upsertService, ServiceUpserted(t, ev.serviceId, ev.serviceId))
      case Stopped(r) => Stopped(r)
      case Done(t1) => Execute(env.upsertRequest, RequestUpserted(t1, ev.requestId, NewRequest(ev, env)))
  }

  function Judge(cfg: Config, c: Circuit, request: ResendRequest, env: Env): Verdict {
    if Admits(cfg.breaker, c, env.start) then Called(request, env.start, env.end, env.reply)
    else BreakerRejected(request)
  }

  function StatusOf(v: Verdict): DispatchStatus {
    if v.Called? && v.reply.Accepted? then Sent
    else if v.Called? then SendFailed
    else CircuitOpen
  }

  function FinalStatus(d: DispatchStatus): RequestStatus {
    match d
    case Sent => Dispatched
    case SendFailed => RequestFailed
    case CircuitOpen => RequestCircuitOpen
  }

  function DispatchFor(id: Uuid, request: ResendRequest, v: Verdict): DispatchRow {
    DispatchRow(
      id, if StatusOf(v).Sent? then Some(v.reply.resendId) else None,
      request, StatusOf(v), if StatusOf(v).Sent? then 200 else 400)
  }

  // After the provider call: the dispatch record and the final status.
  function Record(tx: Tables, id: Uuid, request: ResendRequest, v: Verdict, env: Env): Statement {
    if !env.marshal.Ok? then Stopped(Interrupted(env.marshal))
    else
      match Execute(env.createDispatch, DispatchCreated(tx, DispatchFor(id, request, v)))
      case Stopped(r) => Stopped(r)
      case Done(t1) => Execute(env.updateStatus, StatusUpdated(t1, id, FinalStatus(StatusOf(v))))
  }

  function UseOf(env: Env): Attempt {
    Attempt(env.start, env.end, env.reply.Accepted?)
  }

  // The commit, and what Send returns after it.
  function Conclude(t: Tables, recorded: Statement, c: Circuit, trace: Trace, commit: CommitOutcome): Run {
    match recorded
    case Stopped(r) => Run(t, c, trace, r)
    case Done(t') =>
      match commit
      case Committed => Run(t', c, trace.(committed := true), Returned(!StatusOf(trace.verdict).Sent?))
      case RolledBack => Run(t, c, trace, Returned(true))
      case CommittedButError => Run(t', c, trace.(committed := true), Returned(true))
      case DiesBeforeCommit => Run(t, c, trace, Died)
      case DiesAfterCommit => Run(t', c, trace.(committed := true), Died)
  }

  function Idle(ev: EmailEvent): Trace {
    Trace(ev.requestId, ev.serviceId, ev.email, NotReached, false)
  }

  function SendEmail(cfg: Config, t: Tables, c: Circuit, ev: EmailEvent, env: Env): Run {
    match Prepare(t, ev, env)
    case Stopped(r) => Run(t, c, Idle(ev), r)
    case Done(tx) =>
      match Convert(cfg.codec, ev.email)
      case Failure(_) => Run(t, c, Idle(ev), Returned(true))
      case Success(request) =>
        var v := Judge(cfg, c, request, env);
        Conclude(t, Record(tx, tx.requests[ev.requestId].id, request, v, env),
                 Step(cfg.breaker, c, UseOf(env)), Idle(ev).(verdict := v), env.commit)
  }

  // ---- The service object ----

  // The committed tables.
  class Pool {
    var services: map<string, ServiceRow>
    var requests: map<string, RequestRow>
    var dispatches: seq<DispatchRow>

    ghost function View(): Tables
      reads this
    {
      Tables(services, requests, dispatches)
    }

    constructor ()
      ensures View() == Tables(SEEDED, map[], [])
    {
      services, requests, dispatches := SEEDED, map[], [];
    }

    method Begin() returns (tx: Queries)
      ensures fresh(tx) && tx.View() == View()
    {
      tx := new Queries(Tables(services, requests, dispatches));
    }

    // Rolling back is doing nothing: the transaction worked on its own copy.
    method Commit(tx: Queries)
      modifies this
      ensures View() == tx.View()
    {
      services, requests, dispatches := tx.services, tx.requests, tx.dispatches;
    }
  }

  class Service {
    const cfg: Config
    const pool: Pool
    const breaker: CircuitBreaker

    constructor (cfg: Config, pool: Pool)
      ensures this.cfg == cfg && this.pool == pool && fresh(breaker)
      ensures breaker.settings == cfg.breaker && breaker.circuit == INITIAL
    {
      this.cfg := cfg;
      this.pool := pool;
      breaker := new CircuitBreaker(cfg.breaker);
    }

    // The part of Send before the provider call. A result means that Send
    // ends here.
    method PrepareRequest(tx: Queries, ev: EmailEvent, env: Env)
      returns (stop: Option<SendResult>, id: Uuid)
      modifies tx
      ensures var prepared := PrepareInside(old(tx.View()), ev, env);
              && (stop.Some? <==> prepared.Stopped?)
              && (stop.Some? ==> stop.value == prepared.result)
              && (stop.None? ==> tx.View() == prepared.tables && ev.requestId in tx.requests
                                 && id == tx.requests[ev.requestId].id)
    {
      id := env.newId;
      if !env.lookup.Ok? {
        return Some(Interrupted(env.lookup)), id;
      }
      var existing := tx.GetEmailRequestByQueueMessageID(ev.requestId);
      if existing.Some? && existing.value.status.Dispatched? {
        return Some(Returned(false)), id;
      }
      if !env.upsertService.Ok? {
        return Some(Interrupted(env.upsertService)), id;
      }
      var registered := tx.UpsertService(ev.serviceId, ev.serviceId);
      if !registered {
        return Some(Returned(true)), id;
      }
      if !env.upsertRequest.Ok? {
        return Some(Interrupted(env.upsertRequest)), id;
      }
      var stored := tx.UpsertEmailRequest(ev.requestId, NewRequest(ev, env));
      if stored.None? {
        return Some(Returned(true)), id;
      }
      return None, stored.value.id;
    }

    // The part of Send between the provider call and the commit.
    method RecordDispatch(tx: Queries, id: Uuid, request: ResendRequest, verdict: Verdict, env: Env)
      returns (stop: Option<SendResult>)
      modifies tx
      ensures var recorded := Record(old(tx.View()), id, request, verdict, env);
              && (stop.Some? <==> recorded.Stopped?)
              && (stop.Some? ==> stop.value == recorded.result)
              && (stop.None? ==> tx.View() == recorded.tables)
    {
      if !env.marshal.Ok? {
        return Some(Interrupted(env.marshal));
      }
      var status := SendFailed;
      if verdict.Called? && verdict.reply.Accepted? {
        status := Sent;
      } else if !verdict.Called? {
        status := CircuitOpen;
      }
      var row := DispatchRow(id, None, request, status, 400);
      if status.Sent? {
        row := row.(resendId := Some(verdict.reply.resendId), httpStatus := 200);
      }
      if !env.createDispatch.Ok? {
        return Some(Interrupted(env.createDispatch));
      }
      var created := tx.CreateEmailDispatch(row);
      if !created {
        return Some(Returned(true));
      }
      if !env.updateStatus.Ok? {
        return Some(Interrupted(env.updateStatus));
      }
      var updated := tx.UpdateEmailRequestStatusByID(id, FinalStatus(status));
      if !updated {
        return Some(Returned(true));
      }
      return None;
    }

    method Send(ev: EmailEvent, env: Env) returns (result: SendResult, ghost trace: Trace)
      requires breaker.settings == cfg.breaker
      modifies pool, breaker
      ensures var run := SendEmail(cfg, old(pool.View()), old(breaker.circuit), ev, env);
              && pool.View() == run.tables && breaker.circuit == run.circuit
              && trace == run.trace && result == run.result
    {
      trace := Trace(ev.requestId, ev.serviceId, ev.email, NotReached, false);
      if !env.acquire.Ok? {
        return Interrupted(env.acquire), trace;
      }
      if !env.begin.Ok? {
        return Interrupted(env.begin), trace;
      }
      var tx := pool.Begin();
      var stop, id := PrepareRequest(tx, ev, env);
      if stop.Some? {
        return stop.value, trace;
      }
      var converted := EmailToResendRequest(cfg.codec, ev.email);
      if converted.Failure? {
        return Returned(true), trace;
      }
      var request := converted.value;
      var admitted := breaker.Execute(UseOf(env));
      var verdict := if admitted then Called(request, env.start, env.end, env.reply) else BreakerRejected(request);
      trace := trace.(verdict := verdict);
      stop := RecordDispatch(tx, id, request, verdict, env);
      if stop.Some? {
        return stop.value, trace;
      }
      if env.commit.RolledBack? || env.commit.DiesBeforeCommit? {
        return if env.commit.RolledBack? then Returned(true) else Died, trace;
      }
      pool.Commit(tx);
      trace := trace.(committed := true);
      if env.commit.DiesAfterCommit? {
        return Died, trace;
      }
      if env.commit.CommittedButError? {
        return Returned(true), trace;
      }
      return Returned(!(admitted && env.reply.Accepted?)), trace;
    }
  }
}
