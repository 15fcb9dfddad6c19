// What holds after any number of email attempts, whatever the environment did
// to them: the tables against the trace of all attempts.

module EmailAudit {
  import opened Common
  import opened Logs
  import opened Resilience
  import opened EmailRequest
  import opened EmailTables
  import opened EmailService

  // The email half of the relay: committed tables, breaker, the log of all
  // attempts ever made, how many provider calls in it an earlier process made,
  // and when the consumer last finished an attempt.
  datatype Side = Side(tables: Tables, circuit: Circuit, log: seq<Trace>, epoch: nat, clock: Time)

  function Fresh(now: Time): Side {
    Side(Tables(SEEDED, map[], []), INITIAL, [], 0, now)
  }

  function Attempted(cfg: Config, s: Side, ev: EmailEvent, env: Env): Side {
    var run := SendEmail(cfg, s.tables, s.circuit, ev, env);
    Side(run.tables, run.circuit, s.log + [run.trace], s.epoch, env.end)
  }

  // A new process starts with a closed breaker and the committed tables.
  function Restarted(s: Side): Side {
    s.(circuit := INITIAL, epoch := |CallsOf(s.log)|)
  }

  // ---- Reading the log ----

  // What a dispatch row tells about one attempt.
  datatype Line = Line(status: DispatchStatus, httpStatus: int, resendId: Option<string>, payload: ResendRequest)

  function LineOf(d: DispatchRow): Line {
    Line(d.status, d.httpStatus, d.resendId, d.payload)
  }

  // What an attempt that got as far as the breaker has to leave behind.
  function LineFor(v: Verdict): Line
    requires !v.NotReached?
  {
    match v
    case BreakerRejected(request) => Line(CircuitOpen, 400, None, request)
    case Called(request, _, _, Accepted(id)) => Line(Sent, 200, Some(id), request)
    case Called(request, _, _, _) => Line(SendFailed, 400, None, request)
  }

  function RequestOf(v: Verdict): ResendRequest
    requires !v.NotReached?
  {
    if v.Called? then v.request else v.refused
  }

  predicate CommittedFor(t: Trace, requestId: string) {
    t.committed && t.requestId == requestId && !t.verdict.NotReached?
  }

  function LinesFor(requestId: string): Trace -> seq<Line> {
    (t: Trace) => if CommittedFor(t, requestId) then [LineFor(t.verdict)] else []
  }

  // What the committed attempts for a request have to leave behind, in order.
  function Outcomes(log: seq<Trace>, requestId: string): seq<Line> {
    Collect(log, LinesFor(requestId))
  }

  // What the first committed attempt for a request carried.
  function FirstCommitted(log: seq<Trace>, requestId: string): Option<(string, Email)> {
    if log == [] then None
    else
      var before := FirstCommitted(log[..|log| - 1], requestId);
      var last := log[|log| - 1];
      if before.Some? then before
      else if CommittedFor(last, requestId) then Some((last.service, last.email))
      else None
  }

  predicate AcceptedByResend(t: Trace) {
    t.verdict.Called? && !t.verdict.reply.Refused?
  }

  // Accepted by Resend without the tables saying so: the reply was lost, or
  // the transaction did not commit.
  predicate Orphan(t: Trace) {
    AcceptedByResend(t) && !(t.committed && t.verdict.reply.Accepted?)
  }

  function IsAcceptance(requestId: string): Trace -> bool {
    (t: Trace) => t.requestId == requestId && AcceptedByResend(t)
  }

  function IsOrphan(requestId: string): Trace -> bool {
    (t: Trace) => t.requestId == requestId && Orphan(t)
  }

  function Acceptances(log: seq<Trace>, requestId: string): nat {
    Count(log, IsAcceptance(requestId))
  }

  function Orphans(log: seq<Trace>, requestId: string): nat {
    Count(log, IsOrphan(requestId))
  }

  // The latest committed attempt for a request.
  function LastCommitted(log: seq<Trace>, requestId: string): Option<Trace> {
    if log == [] then None
    else if CommittedFor(log[|log| - 1], requestId) then Some(log[|log| - 1])
    else LastCommitted(log[..|log| - 1], requestId)
  }

  // The provider call of an attempt, if it made one.
  function CallOf(t: Trace): seq<Attempt> {
    if t.verdict.Called?
    then [Attempt(t.verdict.start, t.verdict.end, t.verdict.reply.Accepted?)] else []
  }

  function CallsOf(log: seq<Trace>): seq<Attempt> {
    Collect(log, CallOf)
  }

  function LinesOn(id: Uuid): DispatchRow -> seq<Line> {
    (d: DispatchRow) => if d.request == id then [LineOf(d)] else []
  }

  // The dispatch rows of one request, in order.
  function RowsOf(dispatches: seq<DispatchRow>, id: Uuid): seq<Line> {
    Collect(dispatches, LinesOn(id))
  }

  // ---- The invariant ----

  ghost predicate Keyed(t: Tables) {
    && (forall q, r :: q in t.requests && r in t.requests && t.requests[q].id == t.requests[r].id ==> q == r)
    && (forall q :: q in t.requests ==> t.requests[q].service in t.services)
    && (forall d :: d in t.dispatches ==> exists q :: q in t.requests && t.requests[q].id == d.request)
  }

  ghost predicate ResendIdsUnique(dispatches: seq<DispatchRow>) {
    forall i, j :: 0 <= i < j < |dispatches| && dispatches[i].resendId.Some? ==>
      dispatches[i].resendId != dispatches[j].resendId
  }

  ghost predicate SentIsLast(s: seq<Line>) {
    forall i :: 0 <= i < |s| - 1 ==> !s[i].status.Sent?
  }

  // The rows of one request are the committed attempts for it.
  ghost predicate Audited(t: Tables, log: seq<Trace>, requestId: string) {
    var outcomes := Outcomes(log, requestId);
    && SentIsLast(outcomes)
    && (requestId in t.requests <==> outcomes != [])
    && (requestId in t.requests ==>
          var row := t.requests[requestId];
          && RowsOf(t.dispatches, row.id) == outcomes
          && row.status == FinalStatus(outcomes[|outcomes| - 1].status)
          && FirstCommitted(log, requestId) == Some((row.service, row.email)))
  }

  ghost predicate TraceOk(cfg: Config, t: Trace) {
    && (t.committed ==> !t.verdict.NotReached?)
    && (!t.verdict.NotReached? ==>
          && Sendable(cfg.codec, RequestOf(t.verdict)) && Represents(cfg.codec, RequestOf(t.verdict), t.email))
  }

  // The breaker is what its own provider's calls made of it, and it admitted
  // each of them.
  ghost predicate BreakerOk(cfg: Config, s: Side) {
    Tracks(cfg.breaker, CallsOf(s.log), s.epoch, s.circuit, s.clock)
  }

  ghost predicate Inv(cfg: Config, s: Side) {
    && RegistryOk(s.tables.services)
    && Keyed(s.tables) && ResendIdsUnique(s.tables.dispatches)
    && (forall requestId :: Audited(s.tables, s.log, requestId))
    && (forall t :: t in s.log ==> TraceOk(cfg, t))
    && BreakerOk(cfg, s)
  }

  lemma FreshInv(cfg: Config, now: Time)
    ensures Inv(cfg, Fresh(now))
  {
  }

  // The dispatch rows of a request tell its committed attempts in order, only
  // the last can be "sent", the request's status is what the last implies, and
  // the row holds the service and the content of the first.
  ghost predicate Refined(s: Side, requestId: string)
    requires requestId in s.tables.requests
  {
    var outcomes, row := Outcomes(s.log, requestId), s.tables.requests[requestId];
    && RowsOf(s.tables.dispatches, row.id) == outcomes != []
    && (forall k :: 0 <= k < |outcomes| && outcomes[k].status.Sent? ==> k == |outcomes| - 1)
    && row.status == FinalStatus(outcomes[|outcomes| - 1].status)
    && (row.status.Dispatched? <==> exists line <- outcomes :: line.status.Sent?)
    && StatusTells(row.status, LastCommitted(s.log, requestId))
    && FirstCommitted(s.log, requestId) == Some((row.service, row.email))
  }

  // The status of a request names what became of its latest committed attempt.
  predicate StatusTells(status: RequestStatus, last: Option<Trace>) {
    && last.Some? && !status.Received?
    && (status.RequestCircuitOpen? <==> last.value.verdict.BreakerRejected?)
    && (status.RequestFailed? <==> last.value.verdict.Called? && !last.value.verdict.reply.Accepted?)
    && (status.Dispatched? <==> last.value.verdict.Called? && last.value.verdict.reply.Accepted?)
  }

  lemma {:induction false} LastOutcome(log: seq<Trace>, requestId: string)
    requires Outcomes(log, requestId) != []
    ensures var outcomes, last := Outcomes(log, requestId), LastCommitted(log, requestId);
            && last.Some? && last.value in log && CommittedFor(last.value, requestId)
            && outcomes[|outcomes| - 1] == LineFor(last.value.verdict)
  {
    if !CommittedFor(log[|log| - 1], requestId) {
      LastOutcome(log[..|log| - 1], requestId);
    }
  }

  lemma LogRefinesAttempts(cfg: Config, s: Side, requestId: string)
    requires Inv(cfg, s) && requestId in s.tables.requests
    ensures Refined(s, requestId)
  {
    assert Audited(s.tables, s.log, requestId);
    LastStatus(s.log, requestId, s.tables.requests[requestId].status);
  }

  lemma LastStatus(log: seq<Trace>, requestId: string, status: RequestStatus)
    requires var outcomes := Outcomes(log, requestId);
             outcomes != [] && status == FinalStatus(outcomes[|outcomes| - 1].status)
    ensures StatusTells(status, LastCommitted(log, requestId))
  {
    LastOutcome(log, requestId);
  }

  // ---- Atomicity: one attempt changes nothing, or everything together ----

  function Applied(t: Tables, ev: EmailEvent, env: Env, request: ResendRequest, v: Verdict): Tables {
    var row := (if ev.requestId in t.requests then t.requests[ev.requestId] else NewRequest(ev, env))
      .(status := FinalStatus(StatusOf(v)), processedAt := env.processedAt);
    Tables(
      if ev.serviceId in t.services then t.services
      else t.services[ev.serviceId := ServiceRow(ev.serviceId, true)],
      t.requests[ev.requestId := row],
      t.dispatches + [DispatchFor(row.id, request, v)])
  }

  lemma StatusUpdateHitsOneRow(t: Tables, requestId: string, status: RequestStatus)
    requires requestId in t.requests
    requires forall q :: q in t.requests && t.requests[q].id == t.requests[requestId].id ==> q == requestId
    ensures StatusUpdated(t, t.requests[requestId].id, status)
            == Some(t.(requests := t.requests[requestId := t.requests[requestId].(status := status)]))
  {
    var updated := StatusUpdated(t, t.requests[requestId].id, status).value.requests;
    assert updated == t.requests[requestId := t.requests[requestId].(status := status)];
  }

  // The request row after the upsert.
  function UpsertedRow(t: Tables, ev: EmailEvent, env: Env): RequestRow {
    (if ev.requestId in t.requests then t.requests[ev.requestId] else NewRequest(ev, env))
      .(status := Received, processedAt := env.processedAt)
  }

  lemma UpsertKeepsKeys(t: Tables, tx: Tables, ev: EmailEvent, env: Env)
    requires Keyed(t) && ev.serviceId in tx.services && t.services.Keys <= tx.services.Keys
    requires tx.requests == t.requests[ev.requestId := UpsertedRow(t, ev, env)] && tx.dispatches == t.dispatches
    requires ev.requestId !in t.requests ==> forall q :: q in t.requests ==> t.requests[q].id != env.newId
    ensures Keyed(tx)
  {
    forall d | d in tx.dispatches
      ensures exists q :: q in tx.requests && tx.requests[q].id == d.request
    {
      var q :| q in t.requests && t.requests[q].id == d.request;
      assert q in tx.requests && tx.requests[q].id == d.request;
    }
  }

  lemma PreparedTables(t: Tables, ev: EmailEvent, env: Env)
    requires RegistryOk(t.services) && Keyed(t) && NAMESPACE <= ev.serviceId
    requires Prepare(t, ev, env).Done?
    ensures var tx := Prepare(t, ev, env).tables;
            && tx.services == (if ev.serviceId in t.services then t.services
                               else t.services[ev.serviceId := ServiceRow(ev.serviceId, true)])
            && tx.requests == t.requests[ev.requestId := UpsertedRow(t, ev, env)] && tx.dispatches == t.dispatches
            && Keyed(tx) && !IsDispatched(t, ev.requestId)
            && (ev.requestId !in t.requests ==> forall q :: q in t.requests ==> t.requests[q].id != env.newId)
  {
    var tx := Prepare(t, ev, env).tables;
    assert tx.requests == t.requests[ev.requestId := UpsertedRow(t, ev, env)];
    UpsertKeepsKeys(t, tx, ev, env);
  }

  lemma RecordedTables(tx: Tables, requestId: string, request: ResendRequest, v: Verdict, env: Env)
    requires Keyed(tx) && requestId in tx.requests
    requires Record(tx, tx.requests[requestId].id, request, v, env).Done?
    ensures var row := tx.requests[requestId].(status := FinalStatus(StatusOf(v)));
            Record(tx, row.id, request, v, env).tables
            == Tables(tx.services, tx.requests[requestId := row], tx.dispatches + [DispatchFor(row.id, request, v)])
  {
    var row := DispatchFor(tx.requests[requestId].id, request, v);
    StatusUpdateHitsOneRow(tx.(dispatches := tx.dispatches + [row]), requestId, FinalStatus(StatusOf(v)));
  }

  // A commit stores what the statements before it built; nothing else changes
  // the committed tables.
  ghost predicate CommitsWhatItBuilt(cfg: Config, t: Tables, ev: EmailEvent, env: Env, run: Run) {
    && (!run.trace.committed ==> run.tables == t)
    && (run.trace.committed ==>
          && Prepare(t, ev, env).Done? && Convert(cfg.codec, ev.email).Success?
          && var tx := Prepare(t, ev, env).tables;
             && ev.requestId in tx.requests && !run.trace.verdict.NotReached?
             && RequestOf(run.trace.verdict) == Convert(cfg.codec, ev.email).value
             && Record(tx, tx.requests[ev.requestId].id, Convert(cfg.codec, ev.email).value, run.trace.verdict, env)
                == Done(run.tables))
  }

  // A committed attempt has registered the service, stored the request,
  // appended one dispatch and set the final status; any other attempt has
  // changed nothing.
  ghost predicate Atomic(cfg: Config, t: Tables, ev: EmailEvent, env: Env, run: Run) {
    && (!run.trace.committed ==> run.tables == t)
    && (run.trace.committed ==>
          && !IsDispatched(t, ev.requestId)
          && !run.trace.verdict.NotReached?
          && Convert(cfg.codec, ev.email) == Success(RequestOf(run.trace.verdict))
          && run.tables == Applied(t, ev, env, RequestOf(run.trace.verdict), run.trace.verdict)
          && (ev.requestId !in t.requests ==> forall q :: q in t.requests ==> t.requests[q].id != env.newId))
  }

  lemma ConcludeShape(t: Tables, recorded: Statement, c: Circuit, trace: Trace, commit: CommitOutcome)
    requires !trace.committed
    ensures var run := Conclude(t, recorded, c, trace, commit);
            && run.circuit == c && run.trace == trace.(committed := run.trace.committed)
            && (run.trace.committed ==> recorded == Done(run.tables))
            && (!run.trace.committed ==> run.tables == t)
            && (run.result == Returned(false) ==>
                  recorded == Stopped(Returned(false)) || (run.trace.committed && StatusOf(trace.verdict).Sent?))
  {
  }

  // Send stops before the conversion, stops at it, or calls the breaker.
  lemma SendIsOneOfThree(cfg: Config, t: Tables, c: Circuit, ev: EmailEvent, env: Env)
    ensures var run := SendEmail(cfg, t, c, ev, env);
            var request := Convert(cfg.codec, ev.email);
            if Prepare(t, ev, env).Stopped? || request.Failure? then
              run.tables == t && run.circuit == c && run.trace == Idle(ev)
            else
              var tx := Prepare(t, ev, env).tables;
              var v := Judge(cfg, c, request.value, env);
              && ev.requestId in tx.requests
              && run.circuit == Step(cfg.breaker, c, UseOf(env))
              && run.trace == Idle(ev).(verdict := v, committed := run.trace.committed)
              && (run.trace.committed ==>
                    Record(tx, tx.requests[ev.requestId].id, request.value, v, env) == Done(run.tables))
              && (!run.trace.committed ==> run.tables == t)
              && (run.result == Returned(false) ==> run.trace.committed && StatusOf(v).Sent?)
  {
    var request := Convert(cfg.codec, ev.email);
    if Prepare(t, ev, env).Done? && request.Success? {
      var tx := Prepare(t, ev, env).tables;
      var v := Judge(cfg, c, request.value, env);
      ConcludeShape(t, Record(tx, tx.requests[ev.requestId].id, request.value, v, env),
                    Step(cfg.breaker, c, UseOf(env)), Idle(ev).(verdict := v), env.commit);
    }
  }

  lemma SendCommitsWhatItBuilt(cfg: Config, t: Tables, c: Circuit, ev: EmailEvent, env: Env)
    ensures CommitsWhatItBuilt(cfg, t, ev, env, SendEmail(cfg, t, c, ev, env))
  {
    SendIsOneOfThree(cfg, t, c, ev, env);
  }

  lemma BuiltIsApplied(t: Tables, tx: Tables, ev: EmailEvent, env: Env, request: ResendRequest, v: Verdict)
    requires && tx.services == (if ev.serviceId in t.services then t.services
                                else t.services[ev.serviceId := ServiceRow(ev.serviceId, true)])
             && tx.requests == t.requests[ev.requestId := UpsertedRow(t, ev, env)]
             && tx.dispatches == t.dispatches
    ensures var row := tx.requests[ev.requestId].(status := FinalStatus(StatusOf(v)));
            Tables(tx.services, tx.requests[ev.requestId := row], tx.dispatches + [DispatchFor(row.id, request, v)])
            == Applied(t, ev, env, request, v)
  {
  }

  lemma BuiltAtomically(cfg: Config, t: Tables, ev: EmailEvent, env: Env, run: Run)
    requires RegistryOk(t.services) && Keyed(t) && NAMESPACE <= ev.serviceId
    requires CommitsWhatItBuilt(cfg, t, ev, env, run)
    ensures Atomic(cfg, t, ev, env, run)
  {
    if run.trace.committed {
      PreparedTables(t, ev, env);
      var tx := Prepare(t, ev, env).tables;
      var request := Convert(cfg.codec, ev.email).value;
      RecordedTables(tx, ev.requestId, request, run.trace.verdict, env);
      BuiltIsApplied(t, tx, ev, env, request, run.trace.verdict);
    }
  }

  lemma SendIsAtomic(cfg: Config, t: Tables, c: Circuit, ev: EmailEvent, env: Env)
    requires RegistryOk(t.services) && Keyed(t) && NAMESPACE <= ev.serviceId
    ensures Atomic(cfg, t, ev, env, SendEmail(cfg, t, c, ev, env))
  {
    SendCommitsWhatItBuilt(cfg, t, c, ev, env);
    BuiltAtomically(cfg, t, ev, env, SendEmail(cfg, t, c, ev, env));
  }

  // ---- Every attempt keeps the invariant ----

  lemma AppendTrace(log: seq<Trace>, t: Trace, requestId: string)
    ensures Outcomes(log + [t], requestId) == Outcomes(log, requestId) +
              if CommittedFor(t, requestId) then [LineFor(t.verdict)] else []
    ensures FirstCommitted(log + [t], requestId) ==
              if FirstCommitted(log, requestId).Some? then FirstCommitted(log, requestId)
              else if CommittedFor(t, requestId) then Some((t.service, t.email)) else None
    ensures Acceptances(log + [t], requestId) == Acceptances(log, requestId) +
              if t.requestId == requestId && AcceptedByResend(t) then 1 else 0
    ensures CallsOf(log + [t]) == CallsOf(log) + CallOf(t)
  {
    assert (log + [t])[..|log|] == log;
    CollectAppend(log, t, LinesFor(requestId));
    CountAppend(log, t, IsAcceptance(requestId));
    CollectAppend(log, t, CallOf);
  }

  lemma AppendRow(dispatches: seq<DispatchRow>, d: DispatchRow, id: Uuid)
    ensures RowsOf(dispatches + [d], id) == RowsOf(dispatches, id) + if d.request == id then [LineOf(d)] else []
  {
    CollectAppend(dispatches, d, LinesOn(id));
  }

  lemma AppliedKeepsKeys(t: Tables, ev: EmailEvent, env: Env, request: ResendRequest, v: Verdict)
    requires Keyed(t)
    requires ev.requestId !in t.requests ==> forall q :: q in t.requests ==> t.requests[q].id != env.newId
    ensures Keyed(Applied(t, ev, env, request, v))
  {
    var t' := Applied(t, ev, env, request, v);
    forall d | d in t'.dispatches
      ensures exists q :: q in t'.requests && t'.requests[q].id == d.request
    {
      if d in t.dispatches {
        var q :| q in t.requests && t.requests[q].id == d.request;
        assert q in t'.requests && t'.requests[q].id == d.request;
      } else {
        assert ev.requestId in t'.requests && t'.requests[ev.requestId].id == d.request;
      }
    }
  }

  lemma CommitIsAudited(t: Tables, log: seq<Trace>, ev: EmailEvent, env: Env, trace: Trace)
    requires Keyed(t) && Audited(t, log, ev.requestId)
    requires ev.requestId !in t.requests ==> forall q :: q in t.requests ==> t.requests[q].id != env.newId
    requires !IsDispatched(t, ev.requestId)
    requires CommittedFor(trace, ev.requestId)
    requires trace.service == ev.serviceId && trace.email == ev.email
    ensures Audited(Applied(t, ev, env, RequestOf(trace.verdict), trace.verdict), log + [trace], ev.requestId)
  {
    var t' := Applied(t, ev, env, RequestOf(trace.verdict), trace.verdict);
    var row := t'.requests[ev.requestId];
    var d := DispatchFor(row.id, RequestOf(trace.verdict), trace.verdict);
    assert LineOf(d) == LineFor(trace.verdict);
    AppendTrace(log, trace, ev.requestId);
    AppendRow(t.dispatches, d, row.id);
    if ev.requestId !in t.requests {
      CollectNone(t.dispatches, LinesOn(row.id));
      FirstNeedsOutcome(log, ev.requestId);
    }
  }

  // A commit leaves the other requests alone.
  lemma OthersStayAudited(t: Tables, log: seq<Trace>, ev: EmailEvent, env: Env, trace: Trace, requestId: string)
    requires Keyed(t) && Audited(t, log, requestId) && requestId != ev.requestId
    requires ev.requestId !in t.requests ==> forall q :: q in t.requests ==> t.requests[q].id != env.newId
    requires CommittedFor(trace, ev.requestId)
    ensures Audited(Applied(t, ev, env, RequestOf(trace.verdict), trace.verdict), log + [trace], requestId)
  {
    var t' := Applied(t, ev, env, RequestOf(trace.verdict), trace.verdict);
    var d := DispatchFor(t'.requests[ev.requestId].id, RequestOf(trace.verdict), trace.verdict);
    AppendTrace(log, trace, requestId);
    if requestId in t.requests {
      AppendRow(t.dispatches, d, t.requests[requestId].id);
    }
  }

  lemma {:induction false} FirstNeedsOutcome(log: seq<Trace>, requestId: string)
    requires Outcomes(log, requestId) == []
    ensures FirstCommitted(log, requestId) == None
  {
    if log != [] {
      FirstNeedsOutcome(log[..|log| - 1], requestId);
    }
  }

  // The breaker moves only with a call of its own provider.
  lemma SendMovesBreakerByItsCallOnly(cfg: Config, t: Tables, c: Circuit, ev: EmailEvent, env: Env)
    requires Settled(cfg.breaker, c)
    ensures var run := SendEmail(cfg, t, c, ev, env);
            && (run.trace.verdict.Called? ==>
                  && Admits(cfg.breaker, c, env.start)
                  && run.trace.verdict.start == env.start && run.trace.verdict.end == env.end
                  && run.trace.verdict.reply == env.reply
                  && run.circuit == Step(cfg.breaker, c, UseOf(env)))
            && (!run.trace.verdict.Called? ==> run.circuit == c)
  {
    StepKeepsSettled(cfg.breaker, c, UseOf(env));
    SendIsOneOfThree(cfg, t, c, ev, env);
  }

  lemma AttemptKeepsBreaker(cfg: Config, s: Side, ev: EmailEvent, env: Env)
    requires BreakerOk(cfg, s) && s.clock <= env.start <= env.end
    ensures BreakerOk(cfg, Attempted(cfg, s, ev, env))
  {
    var trace := SendEmail(cfg, s.tables, s.circuit, ev, env).trace;
    var calls := CallsOf(s.log);
    SendMovesBreakerByItsCallOnly(cfg, s.tables, s.circuit, ev, env);
    CollectAppend(s.log, trace, CallOf);
    if trace.verdict.Called? {
      CallKeepsTrack(cfg.breaker, calls, s.epoch, s.circuit, s.clock, UseOf(env));
    } else {
      TimeKeepsTrack(cfg.breaker, calls, s.epoch, s.circuit, s.clock, env.end);
      assert CallsOf(s.log + [trace]) == calls;
    }
  }

  lemma TraceShape(cfg: Config, t: Tables, c: Circuit, ev: EmailEvent, env: Env)
    ensures var trace := SendEmail(cfg, t, c, ev, env).trace;
            && trace.requestId == ev.requestId && trace.service == ev.serviceId && trace.email == ev.email
            && (trace.committed ==> !trace.verdict.NotReached?)
            && (!trace.verdict.NotReached? ==> Convert(cfg.codec, ev.email) == Success(RequestOf(trace.verdict)))
  {
    SendIsOneOfThree(cfg, t, c, ev, env);
  }

  lemma AttemptTraceOk(cfg: Config, ev: EmailEvent, trace: Trace)
    requires trace.email == ev.email && (trace.committed ==> !trace.verdict.NotReached?)
    requires !trace.verdict.NotReached? ==> Convert(cfg.codec, ev.email) == Success(RequestOf(trace.verdict))
    ensures TraceOk(cfg, trace)
  {
    ConvertsExactlyTheSendable(cfg.codec, ev.email);
  }

  lemma AtomicRunKeepsKeys(cfg: Config, t: Tables, ev: EmailEvent, env: Env, run: Run)
    requires RegistryOk(t.services) && Keyed(t) && NAMESPACE <= ev.serviceId
    requires Atomic(cfg, t, ev, env, run)
    ensures RegistryOk(run.tables.services) && Keyed(run.tables)
  {
    if run.trace.committed {
      AppliedKeepsKeys(t, ev, env, RequestOf(run.trace.verdict), run.trace.verdict);
      AutoRegistrationSucceeds(t, ev.serviceId);
    }
  }

  lemma AtomicRunIsAudited(cfg: Config, t: Tables, log: seq<Trace>, ev: EmailEvent, env: Env, run: Run,
                           requestId: string)
    requires Keyed(t) && Audited(t, log, requestId) && Audited(t, log, ev.requestId)
    requires Atomic(cfg, t, ev, env, run) && run.trace.requestId == ev.requestId
    requires run.trace.service == ev.serviceId && run.trace.email == ev.email
    ensures Audited(run.tables, log + [run.trace], requestId)
  {
    if run.trace.committed && requestId == ev.requestId {
      CommitIsAudited(t, log, ev, env, run.trace);
    } else if run.trace.committed {
      OthersStayAudited(t, log, ev, env, run.trace, requestId);
    } else {
      AppendTrace(log, run.trace, requestId);
    }
  }

  lemma SendKeepsResendIds(cfg: Config, t: Tables, c: Circuit, ev: EmailEvent, env: Env)
    requires ResendIdsUnique(t.dispatches)
    ensures ResendIdsUnique(SendEmail(cfg, t, c, ev, env).tables.dispatches)
  {
    SendIsOneOfThree(cfg, t, c, ev, env);
  }

  lemma AttemptKeeps(cfg: Config, s: Side, ev: EmailEvent, env: Env)
    requires Inv(cfg, s) && NAMESPACE <= ev.serviceId && s.clock <= env.start <= env.end
    ensures Inv(cfg, Attempted(cfg, s, ev, env))
  {
    AttemptKeepsBreaker(cfg, s, ev, env);
    TraceShape(cfg, s.tables, s.circuit, ev, env);
    AttemptTraceOk(cfg, ev, SendEmail(cfg, s.tables, s.circuit, ev, env).trace);
    SendIsAtomic(cfg, s.tables, s.circuit, ev, env);
    var run := SendEmail(cfg, s.tables, s.circuit, ev, env);
    AtomicRunKeepsKeys(cfg, s.tables, ev, env, run);
    SendKeepsResendIds(cfg, s.tables, s.circuit, ev, env);
    forall requestId
      ensures Audited(run.tables, s.log + [run.trace], requestId)
    {
      AtomicRunIsAudited(cfg, s.tables, s.log, ev, env, run, requestId);
    }
  }

  lemma RestartKeeps(cfg: Config, s: Side)
    requires Inv(cfg, s)
    ensures Inv(cfg, Restarted(s))
  {
    RestartKeepsTrack(cfg.breaker, CallsOf(s.log), s.epoch, s.circuit, s.clock);
  }

  // ---- What the invariant says ----

  function IsSent(): Line -> bool {
    (line: Line) => line.status.Sent?
  }

  lemma OneLine(line: Line)
    ensures Count([line], IsSent()) == Once(line.status.Sent?)
  {
    CountAppend([], line, IsSent());
  }

  lemma AcceptancesAreSentOrOrphaned(log: seq<Trace>, requestId: string)
    ensures Acceptances(log, requestId) == Count(Outcomes(log, requestId), IsSent()) + Orphans(log, requestId)
  {
    forall t | t in log
      ensures Once(IsAcceptance(requestId)(t))
              == Count(LinesFor(requestId)(t), IsSent()) + Once(IsOrphan(requestId)(t))
    {
      if CommittedFor(t, requestId) {
        OneLine(LineFor(t.verdict));
      }
    }
    CountSplits(log, IsAcceptance(requestId), IsOrphan(requestId), LinesFor(requestId), IsSent());
  }

  // Exact accounting of real sends: over any run, Resend accepted a request
  // once if its row says dispatched, and once more for every attempt whose
  // acceptance the tables do not show.
  lemma DuplicateSendAccounting(cfg: Config, s: Side, requestId: string)
    requires Inv(cfg, s)
    ensures Acceptances(s.log, requestId) ==
            (if IsDispatched(s.tables, requestId) then 1 else 0) + Orphans(s.log, requestId)
  {
    assert Audited(s.tables, s.log, requestId);
    AcceptancesAreSentOrOrphaned(s.log, requestId);
    CountLast(Outcomes(s.log, requestId), IsSent());
  }

  // A handler that reports success has had the request accepted by Resend,
  // now or earlier.
  lemma NoFalseSuccess(cfg: Config, s: Side, ev: EmailEvent, env: Env)
    requires Inv(cfg, s)
    requires SendEmail(cfg, s.tables, s.circuit, ev, env).result == Returned(false)
    ensures Acceptances(Attempted(cfg, s, ev, env).log, ev.requestId) >= 1
  {
    var trace := SendEmail(cfg, s.tables, s.circuit, ev, env).trace;
    CountAppend(s.log, trace, IsAcceptance(ev.requestId));
    DuplicateSendAccounting(cfg, s, ev.requestId);
    SuccessMeansDispatchedOrSent(cfg, s.tables, s.circuit, ev, env);
    TraceShape(cfg, s.tables, s.circuit, ev, env);
  }

  // So its row says dispatched afterwards.
  lemma SuccessMeansDispatched(cfg: Config, s: Side, ev: EmailEvent, env: Env)
    requires Inv(cfg, s) && NAMESPACE <= ev.serviceId
    requires SendEmail(cfg, s.tables, s.circuit, ev, env).result == Returned(false)
    ensures IsDispatched(Attempted(cfg, s, ev, env).tables, ev.requestId)
  {
    SuccessMeansDispatchedOrSent(cfg, s.tables, s.circuit, ev, env);
    SendIsAtomic(cfg, s.tables, s.circuit, ev, env);
  }

  lemma DispatchedStays(cfg: Config, s: Side, ev: EmailEvent, env: Env)
    requires Inv(cfg, s) && NAMESPACE <= ev.serviceId
    ensures forall q :: IsDispatched(s.tables, q) ==> IsDispatched(Attempted(cfg, s, ev, env).tables, q)
  {
    SendIsAtomic(cfg, s.tables, s.circuit, ev, env);
  }

  lemma PreparationSucceedsOnlyIfDispatched(t: Tables, ev: EmailEvent, env: Env)
    ensures Prepare(t, ev, env) == Stopped(Returned(false)) ==> IsDispatched(t, ev.requestId)
  {
  }

  lemma SuccessMeansDispatchedOrSent(cfg: Config, t: Tables, c: Circuit, ev: EmailEvent, env: Env)
    requires SendEmail(cfg, t, c, ev, env).result == Returned(false)
    ensures var trace := SendEmail(cfg, t, c, ev, env).trace;
            IsDispatched(t, ev.requestId) || (trace.committed && StatusOf(trace.verdict).Sent?)
  {
    SendIsOneOfThree(cfg, t, c, ev, env);
    PreparationSucceedsOnlyIfDispatched(t, ev, env);
  }

  // The provider is not called again for a dispatched request, the row stays
  // as it is, and the handler reports success unless the check itself fails.
  lemma DispatchedIsFinal(cfg: Config, t: Tables, c: Circuit, ev: EmailEvent, env: Env)
    requires IsDispatched(t, ev.requestId)
    ensures var run := SendEmail(cfg, t, c, ev, env);
            && run.tables == t && run.circuit == c && run.trace.verdict.NotReached?
            && (env.acquire.Ok? && env.begin.Ok? && env.lookup.Ok? ==> run.result == Returned(false))
  {
  }

  // A later attempt never changes a dispatched row, and never the content
  // that any row was first stored with.
  lemma RowsAreAbsorbing(cfg: Config, s: Side, ev: EmailEvent, env: Env, requestId: string)
    requires Inv(cfg, s) && NAMESPACE <= ev.serviceId
    requires requestId in s.tables.requests
    ensures var after := Attempted(cfg, s, ev, env).tables;
            && requestId in after.requests
            && after.requests[requestId].id == s.tables.requests[requestId].id
            && after.requests[requestId].service == s.tables.requests[requestId].service
            && after.requests[requestId].email == s.tables.requests[requestId].email
            && (IsDispatched(s.tables, requestId) ==> after.requests[requestId] == s.tables.requests[requestId])
  {
    SendIsAtomic(cfg, s.tables, s.circuit, ev, env);
  }

  // No committed request is ever left at "received".
  lemma NeverReceived(cfg: Config, s: Side, requestId: string)
    requires Inv(cfg, s) && requestId in s.tables.requests
    ensures !s.tables.requests[requestId].status.Received?
    ensures s.tables.requests[requestId].service in s.tables.services
  {
    assert Audited(s.tables, s.log, requestId);
  }

  // An attempt whose every step works, on a breaker that is not holding an
  // unexpired opening, delivers the email or finds it delivered.
  ghost predicate Healthy(t: Tables, ev: EmailEvent, env: Env) {
    && env.acquire.Ok? && env.begin.Ok? && env.lookup.Ok? && env.upsertService.Ok? && env.upsertRequest.Ok?
    && env.marshal.Ok? && env.createDispatch.Ok? && env.updateStatus.Ok? && env.commit.Committed?
    && (forall q :: q in t.requests ==> t.requests[q].id != env.newId)
    && (env.reply.Accepted? ==> forall d :: d in t.dispatches ==> d.resendId != Some(env.reply.resendId))
  }

  lemma HealthyPreparation(t: Tables, ev: EmailEvent, env: Env)
    requires RegistryOk(t.services) && Keyed(t) && NAMESPACE <= ev.serviceId
    requires Healthy(t, ev, env) && ev.email.to.Some? && !IsDispatched(t, ev.requestId)
    ensures Prepare(t, ev, env).Done?
    ensures ev.requestId in Prepare(t, ev, env).tables.requests
    ensures Prepare(t, ev, env).tables.dispatches == t.dispatches
  {
    AutoRegistrationSucceeds(t, ev.serviceId);
  }

  lemma HealthyRecord(tx: Tables, requestId: string, request: ResendRequest, v: Verdict, env: Env)
    requires requestId in tx.requests
    requires env.marshal.Ok? && env.createDispatch.Ok? && env.updateStatus.Ok?
    requires StatusOf(v).Sent? ==> forall d :: d in tx.dispatches ==> d.resendId != Some(v.reply.resendId)
    ensures Record(tx, tx.requests[requestId].id, request, v, env).Done?
  {
  }

  // A healthy attempt at an undispatched request records what the breaker and
  // Resend made of it.
  lemma HealthyAttempt(cfg: Config, s: Side, ev: EmailEvent, env: Env)
    requires Inv(cfg, s) && NAMESPACE <= ev.serviceId && !IsDispatched(s.tables, ev.requestId)
    requires Healthy(s.tables, ev, env) && ev.email.to.Some? && Convert(cfg.codec, ev.email).Success?
    ensures var run := SendEmail(cfg, s.tables, s.circuit, ev, env);
            var v := Judge(cfg, s.circuit, Convert(cfg.codec, ev.email).value, env);
            && run.trace.verdict == v && run.trace.committed && run.circuit == Step(cfg.breaker, s.circuit, UseOf(env))
            && run.result == Returned(!StatusOf(v).Sent?)
            && run.tables == Applied(s.tables, ev, env, RequestOf(v), v)
  {
    HealthyPreparation(s.tables, ev, env);
    var request := Convert(cfg.codec, ev.email).value;
    SendIsAtomic(cfg, s.tables, s.circuit, ev, env);
    HealthyRecord(
      Prepare(s.tables, ev, env).tables, ev.requestId, request, Judge(cfg, s.circuit, request, env), env);
  }

  lemma HealthySendSucceeds(cfg: Config, s: Side, ev: EmailEvent, env: Env)
    requires Inv(cfg, s) && NAMESPACE <= ev.serviceId
    requires Healthy(s.tables, ev, env)
    requires SendEmail(cfg, s.tables, s.circuit, ev, env).trace.verdict.Called? ==> env.reply.Accepted?
    requires ev.email.to.Some? && Convert(cfg.codec, ev.email).Success?
    requires s.circuit.Open? ==> s.circuit.expiry < env.start
    ensures SendEmail(cfg, s.tables, s.circuit, ev, env).result == Returned(false)
  {
    StepKeepsSettled(cfg.breaker, s.circuit, UseOf(env));
    if !IsDispatched(s.tables, ev.requestId) {
      HealthyPreparation(s.tables, ev, env);
      var request := Convert(cfg.codec, ev.email).value;
      SendIsOneOfThree(cfg, s.tables, s.circuit, ev, env);
      HealthyRecord(
        Prepare(s.tables, ev, env).tables, ev.requestId, request, Judge(cfg, s.circuit, request, env), env);
    }
  }

  // A healthy attempt at an undispatched request reaches Resend, whatever then
  // becomes of the commit.
  lemma HealthyCallIsAccepted(cfg: Config, s: Side, ev: EmailEvent, env: Env, commit: CommitOutcome)
    requires Inv(cfg, s) && NAMESPACE <= ev.serviceId && !IsDispatched(s.tables, ev.requestId)
    requires Healthy(s.tables, ev, env) && env.reply.Accepted?
    requires ev.email.to.Some? && Convert(cfg.codec, ev.email).Success?
    requires s.circuit.Open? ==> s.circuit.expiry < env.start
    ensures var trace := SendEmail(cfg, s.tables, s.circuit, ev, env.(commit := commit)).trace;
            AcceptedByResend(trace) && trace.requestId == ev.requestId
    ensures var run := SendEmail(cfg, s.tables, s.circuit, ev, env.(commit := commit));
            && (commit.RolledBack? ==> run.tables == s.tables && run.result == Returned(true))
            && (s.circuit.Closed? ==> run.circuit == Closed(0))
  {
    var tx := HealthyPrepared(s, ev, env, commit);
    var request := Convert(cfg.codec, ev.email).value;
    var v := Judge(cfg, s.circuit, request, env);
    StepKeepsSettled(cfg.breaker, s.circuit, UseOf(env));
    HealthyRecord(tx, ev.requestId, request, v, env.(commit := commit));
    SendIsOneOfThree(cfg, s.tables, s.circuit, ev, env.(commit := commit));
  }

  // The commit comes after the preparation.
  lemma HealthyPrepared(s: Side, ev: EmailEvent, env: Env, commit: CommitOutcome) returns (tx: Tables)
    requires RegistryOk(s.tables.services) && Keyed(s.tables) && NAMESPACE <= ev.serviceId
    requires Healthy(s.tables, ev, env) && ev.email.to.Some? && !IsDispatched(s.tables, ev.requestId)
    ensures Prepare(s.tables, ev, env.(commit := commit)) == Done(tx)
    ensures ev.requestId in tx.requests && tx.dispatches == s.tables.dispatches
  {
    HealthyPreparation(s.tables, ev, env);
    tx := Prepare(s.tables, ev, env).tables;
  }

  // The integration guide promises that a request is never dispatched a second
  // time. It is when the commit after a real send is rolled back: the retry
  // finds no row and sends again.
  lemma LostCommitIsSentTwice(cfg: Config, now: Time, ev: EmailEvent, env: Env)
    requires NAMESPACE <= ev.serviceId && ev.email.to.Some? && Convert(cfg.codec, ev.email).Success?
    requires Healthy(Fresh(now).tables, ev, env) && env.reply.Accepted? && now <= env.start <= env.end
    ensures var first, retry := env.(commit := RolledBack), env.(start := env.end);
            var s' := Attempted(cfg, Attempted(cfg, Fresh(now), ev, first), ev, retry);
            Acceptances(s'.log, ev.requestId) == 2
  {
    var s, first, retry := Fresh(now), env.(commit := RolledBack), env.(start := env.end);
    FreshInv(cfg, now);
    HealthyCallIsAccepted(cfg, s, ev, env, RolledBack);
    var s1 := Attempted(cfg, s, ev, first);
    AttemptKeeps(cfg, s, ev, first);
    HealthyCallIsAccepted(cfg, s1, ev, retry, Committed);
    AppendTrace(s.log, SendEmail(cfg, s.tables, s.circuit, ev, first).trace, ev.requestId);
    AppendTrace(s1.log, SendEmail(cfg, s1.tables, s1.circuit, ev, retry).trace, ev.requestId);
  }

  // Conversion accepts an email that has only cc or bcc recipients, but
  // to_addresses is NOT NULL: without that field the request row is refused,
  // so no environment lets the attempt reach Resend.
  lemma MissingToNeverReachesResend(cfg: Config, t: Tables, c: Circuit, ev: EmailEvent, env: Env)
    requires ev.email.to.None?
    ensures var run := SendEmail(cfg, t, c, ev, env);
            && run.trace.verdict.NotReached? && run.tables == t && run.circuit == c
            && (run.result == Returned(false) ==> IsDispatched(t, ev.requestId))
  {
    assert Prepare(t, ev, env).Stopped?;
  }

  // So among the emails that convert, an attempt whose every step works
  // reaches Resend exactly for those that have to_addresses.
  lemma ReachesResendExactlyWithTo(cfg: Config, s: Side, ev: EmailEvent, env: Env)
    requires Inv(cfg, s) && NAMESPACE <= ev.serviceId && !IsDispatched(s.tables, ev.requestId)
    requires Healthy(s.tables, ev, env) && env.reply.Accepted? && Convert(cfg.codec, ev.email).Success?
    requires s.circuit.Open? ==> s.circuit.expiry < env.start
    ensures SendEmail(cfg, s.tables, s.circuit, ev, env).trace.verdict.Called? <==> ev.email.to.Some?
  {
    if ev.email.to.Some? {
      HealthyCallIsAccepted(cfg, s, ev, env, Committed);
    } else {
      MissingToNeverReachesResend(cfg, s.tables, s.circuit, ev, env);
    }
  }

  // ---- Whose content was sent ----

  lemma SentLineMeansSentAttempt(log: seq<Trace>, requestId: string)
    ensures (exists line <- Outcomes(log, requestId) :: line.status.Sent?) <==>
            exists t :: t in log && CommittedFor(t, requestId) && LineFor(t.verdict).status.Sent?
  {
    forall line | line in Outcomes(log, requestId)
      ensures exists t :: t in log && CommittedFor(t, requestId) && LineFor(t.verdict) == line
    {
      CollectMember(log, LinesFor(requestId), line);
    }
    forall t | t in log && CommittedFor(t, requestId)
      ensures LineFor(t.verdict) in Outcomes(log, requestId)
    {
      CollectMember(log, LinesFor(requestId), LineFor(t.verdict));
    }
  }

  // The duplicate check finds a request dispatched exactly when some committed
  // attempt for it was accepted.
  lemma DuplicateCheckIsExact(cfg: Config, s: Side, requestId: string)
    requires Inv(cfg, s)
    ensures IsDispatched(s.tables, requestId) <==>
            exists t :: t in s.log && CommittedFor(t, requestId) && LineFor(t.verdict).status.Sent?
  {
    SentLineMeansSentAttempt(s.log, requestId);
    if requestId in s.tables.requests {
      LogRefinesAttempts(cfg, s, requestId);
    } else {
      assert Audited(s.tables, s.log, requestId);
    }
  }

  // Resend accepted this very content under this request id.
  ghost predicate ContentAccepted(log: seq<Trace>, requestId: string, email: Email) {
    exists t :: t in log && t.requestId == requestId && t.email == email && AcceptedByResend(t)
  }

  // Resend accepted it, and the tables say so.
  ghost predicate ContentDispatched(log: seq<Trace>, requestId: string, email: Email) {
    exists t :: t in log && CommittedFor(t, requestId) && t.email == email && LineFor(t.verdict).status.Sent?
  }

  // An attempt that reports success has sent its own content exactly when the
  // duplicate check did not stop it.
  lemma SuccessSendsUnlessDispatched(cfg: Config, t: Tables, c: Circuit, ev: EmailEvent, env: Env)
    requires SendEmail(cfg, t, c, ev, env).result == Returned(false)
    ensures var trace := SendEmail(cfg, t, c, ev, env).trace;
            && trace.requestId == ev.requestId && trace.email == ev.email
            && (AcceptedByResend(trace) <==> !IsDispatched(t, ev.requestId))
  {
    TraceShape(cfg, t, c, ev, env);
    SuccessMeansDispatchedOrSent(cfg, t, c, ev, env);
  }

  // The first of two emails, on fresh tables.
  lemma FirstIsSent(cfg: Config, now: Time, ev: EmailEvent, env: Env)
    requires NAMESPACE <= ev.serviceId && ev.email.to.Some? && Convert(cfg.codec, ev.email).Success?
    requires Healthy(Fresh(now).tables, ev, env) && env.reply.Accepted? && now <= env.start <= env.end
    ensures var s := Attempted(cfg, Fresh(now), ev, env);
            && Inv(cfg, s) && s.circuit == Closed(0) && |s.log| == 1
            && s.log[0].requestId == ev.requestId && s.log[0].email == ev.email && AcceptedByResend(s.log[0])
            && forall q :: IsDispatched(s.tables, q) <==> q == ev.requestId
  {
    var s := Fresh(now);
    FreshInv(cfg, now);
    HealthyCallIsAccepted(cfg, s, ev, env, Committed);
    HealthySendSucceeds(cfg, s, ev, env);
    SuccessSendsUnlessDispatched(cfg, s.tables, s.circuit, ev, env);
    SuccessMeansDispatchedOrSent(cfg, s.tables, s.circuit, ev, env);
    AttemptKeeps(cfg, s, ev, env);
    OnlyRequestIsDispatched(cfg, Attempted(cfg, s, ev, env));
  }

  lemma OnlyRequestIsDispatched(cfg: Config, s: Side)
    requires Inv(cfg, s) && |s.log| == 1
    requires s.log[0].committed && !s.log[0].verdict.NotReached? && LineFor(s.log[0].verdict).status.Sent?
    ensures forall q :: IsDispatched(s.tables, q) <==> q == s.log[0].requestId
  {
    assert s.log == [s.log[0]];
    forall q
      ensures IsDispatched(s.tables, q) <==> q == s.log[0].requestId
    {
      DuplicateCheckIsExact(cfg, s, q);
    }
  }

  // Both of two emails that follow each other are reported as sent. The second
  // one's content was sent exactly if it has a request id of its own or the
  // same content as the first.
  lemma SecondContentIsSentExactly(cfg: Config, now: Time, ev: EmailEvent, env: Env, ev': EmailEvent, env': Env)
    requires NAMESPACE <= ev.serviceId && ev.email.to.Some? && Convert(cfg.codec, ev.email).Success?
    requires NAMESPACE <= ev'.serviceId && ev'.email.to.Some? && Convert(cfg.codec, ev'.email).Success?
    requires Healthy(Fresh(now).tables, ev, env) && env.reply.Accepted? && now <= env.start <= env.end
    requires var s := Attempted(cfg, Fresh(now), ev, env);
             Healthy(s.tables, ev', env') && env'.reply.Accepted? && env.end <= env'.start <= env'.end
    ensures var s := Attempted(cfg, Fresh(now), ev, env);
            && SendEmail(cfg, s.tables, s.circuit, ev', env').result == Returned(false)
            && (ContentAccepted(Attempted(cfg, s, ev', env').log, ev'.requestId, ev'.email) <==>
                  ev'.requestId != ev.requestId || ev'.email == ev.email)
  {
    FirstIsSent(cfg, now, ev, env);
    var s := Attempted(cfg, Fresh(now), ev, env);
    HealthySendSucceeds(cfg, s, ev', env');
    SuccessSendsUnlessDispatched(cfg, s.tables, s.circuit, ev', env');
    SecondOfTwo(s.log, SendEmail(cfg, s.tables, s.circuit, ev', env').trace, ev'.requestId, ev'.email);
  }

  lemma SecondOfTwo(log: seq<Trace>, second: Trace, requestId: string, email: Email)
    requires |log| == 1 && second.requestId == requestId && second.email == email
    ensures ContentAccepted(log + [second], requestId, email) <==>
            || AcceptedByResend(second)
            || (log[0].requestId == requestId && log[0].email == email && AcceptedByResend(log[0]))
  {
    assert log + [second] == [log[0], second];
    assert second in log + [second] && log[0] in log + [second];
  }

  // ---- Payloads and rows ----

  lemma {:induction false} FirstCommittedAttempt(log: seq<Trace>, requestId: string) returns (t: Trace)
    requires FirstCommitted(log, requestId).Some?
    ensures t in log && CommittedFor(t, requestId) && FirstCommitted(log, requestId) == Some((t.service, t.email))
  {
    if FirstCommitted(log[..|log| - 1], requestId).Some? {
      t := FirstCommittedAttempt(log[..|log| - 1], requestId);
    } else {
      t := log[|log| - 1];
    }
  }

  // Every dispatch row of a request stems from a committed attempt for it.
  lemma DispatchHasAttempt(cfg: Config, s: Side, requestId: string, d: DispatchRow) returns (t: Trace)
    requires Inv(cfg, s) && requestId in s.tables.requests
    requires d in s.tables.dispatches && d.request == s.tables.requests[requestId].id
    ensures t in s.log && CommittedFor(t, requestId) && LineFor(t.verdict) == LineOf(d)
  {
    LogRefinesAttempts(cfg, s, requestId);
    CollectMember(s.tables.dispatches, LinesOn(d.request), LineOf(d));
    CollectMember(s.log, LinesFor(requestId), LineOf(d));
    t :| t in s.log && LineOf(d) in LinesFor(requestId)(t);
  }

  // When a second email with the request id of one that Resend refused is
  // accepted, the row keeps the content of the first and the dispatch that
  // counts carries the second.
  lemma PayloadOfAnotherEmail(cfg: Config, now: Time, ev: EmailEvent, env: Env, ev': EmailEvent, env': Env)
    requires NAMESPACE <= ev.serviceId && ev.email.to.Some? && Convert(cfg.codec, ev.email).Success?
    requires NAMESPACE <= ev'.serviceId && ev'.email.to.Some? && Convert(cfg.codec, ev'.email).Success?
    requires ev'.requestId == ev.requestId && ev'.email.subject != ev.email.subject
    requires Healthy(Fresh(now).tables, ev, env) && env.reply.Refused? && now <= env.start <= env.end
    requires var s := Attempted(cfg, Fresh(now), ev, env);
             Healthy(s.tables, ev', env') && env'.reply.Accepted?
    requires env.end + cfg.breaker.Timeout() < env'.start <= env'.end
    ensures var s := Attempted(cfg, Attempted(cfg, Fresh(now), ev, env), ev', env');
            && IsDispatched(s.tables, ev.requestId) && |s.tables.dispatches| == 2
            && var row, d := s.tables.requests[ev.requestId], s.tables.dispatches[1];
               && row.email == ev.email && d.request == row.id && d.status.Sent?
               && Represents(cfg.codec, d.payload, ev'.email) && !Represents(cfg.codec, d.payload, row.email)
  {
    RefusedFirst(cfg, now, ev, env);
    AcceptedSecond(cfg, Attempted(cfg, Fresh(now), ev, env), ev', env');
  }

  lemma RefusedFirst(cfg: Config, now: Time, ev: EmailEvent, env: Env)
    requires NAMESPACE <= ev.serviceId && ev.email.to.Some? && Convert(cfg.codec, ev.email).Success?
    requires Healthy(Fresh(now).tables, ev, env) && env.reply.Refused? && now <= env.start <= env.end
    ensures var s := Attempted(cfg, Fresh(now), ev, env);
            && Inv(cfg, s) && !IsDispatched(s.tables, ev.requestId) && |s.tables.dispatches| == 1
            && ev.requestId in s.tables.requests && s.tables.requests[ev.requestId].email == ev.email
            && (s.circuit.Open? ==> s.circuit.expiry == env.end + cfg.breaker.Timeout())
  {
    var s := Fresh(now);
    FreshInv(cfg, now);
    HealthyAttempt(cfg, s, ev, env);
    AttemptKeeps(cfg, s, ev, env);
    StepKeepsSettled(cfg.breaker, s.circuit, UseOf(env));
  }

  lemma AcceptedSecond(cfg: Config, s: Side, ev: EmailEvent, env: Env)
    requires Inv(cfg, s) && NAMESPACE <= ev.serviceId && !IsDispatched(s.tables, ev.requestId)
    requires ev.email.to.Some? && Convert(cfg.codec, ev.email).Success? && ev.requestId in s.tables.requests
    requires Healthy(s.tables, ev, env) && env.reply.Accepted?
    requires s.circuit.Open? ==> s.circuit.expiry < env.start
    ensures var s', row := Attempted(cfg, s, ev, env), s.tables.requests[ev.requestId];
            && IsDispatched(s'.tables, ev.requestId) && |s'.tables.dispatches| == |s.tables.dispatches| + 1
            && s'.tables.requests[ev.requestId].email == row.email && s'.tables.requests[ev.requestId].id == row.id
            && var d := s'.tables.dispatches[|s.tables.dispatches|];
               && d.request == row.id && d.status.Sent? && Represents(cfg.codec, d.payload, ev.email)
  {
    StepKeepsSettled(cfg.breaker, s.circuit, UseOf(env));
    HealthyAttempt(cfg, s, ev, env);
    ConvertsExactlyTheSendable(cfg.codec, ev.email);
  }

  // ---- When an attempt gets how far ----

  predicate NewId(t: Tables, requestId: string, id: Uuid) {
    requestId in t.requests || forall q :: q in t.requests ==> t.requests[q].id != id
  }

  predicate NewResendId(t: Tables, v: Verdict) {
    v.Called? && v.reply.Accepted? ==> forall d :: d in t.dispatches ==> d.resendId != Some(v.reply.resendId)
  }

  // The process dies in the first statement of the preparation that does not
  // work.
  predicate DiesPreparing(t: Tables, ev: EmailEvent, env: Env) {
    || env.acquire == Dies
    || (env.acquire == Ok && env.begin == Dies)
    || (env.acquire == env.begin == Ok && env.lookup == Dies)
    || (&& env.acquire == env.begin == env.lookup == Ok && !IsDispatched(t, ev.requestId)
        && (env.upsertService == Dies || (env.upsertService == Ok && env.upsertRequest == Dies)))
  }

  // The same after the provider call.
  predicate DiesRecording(t: Tables, v: Verdict, env: Env) {
    || env.marshal == Dies
    || (env.marshal == Ok && env.createDispatch == Dies)
    || (&& env.marshal == env.createDispatch == Ok && NewResendId(t, v)
        && (env.updateStatus == Dies || (env.updateStatus == Ok && env.commit in {DiesBeforeCommit, DiesAfterCommit})))
  }

  predicate Prepares(t: Tables, ev: EmailEvent, env: Env) {
    && env.acquire == env.begin == env.lookup == env.upsertService == env.upsertRequest == Ok
    && !IsDispatched(t, ev.requestId) && NewId(t, ev.requestId, env.newId) && ev.email.to.Some?
  }

  lemma PreparesExactly(t: Tables, ev: EmailEvent, env: Env)
    requires RegistryOk(t.services) && NAMESPACE <= ev.serviceId
    ensures Prepare(t, ev, env).Done? <==> Prepares(t, ev, env)
    ensures Prepare(t, ev, env).Stopped? ==> (Prepare(t, ev, env).result.Died? <==> DiesPreparing(t, ev, env))
    ensures Prepares(t, ev, env) ==> !DiesPreparing(t, ev, env)
    ensures Prepare(t, ev, env).Done? ==>
      var tx := Prepare(t, ev, env).tables; ev.requestId in tx.requests && tx.dispatches == t.dispatches
  {
    AutoRegistrationSucceeds(t, ev.serviceId);
  }

  lemma RecordsExactly(t: Tables, tx: Tables, requestId: string, request: ResendRequest, v: Verdict, env: Env)
    requires requestId in tx.requests && tx.dispatches == t.dispatches
    ensures var recorded := Record(tx, tx.requests[requestId].id, request, v, env);
            && (recorded.Done? <==>
                  env.marshal == env.createDispatch == env.updateStatus == Ok && NewResendId(t, v))
            && (recorded.Stopped? && recorded.result.Died? ==> DiesRecording(t, v, env))
            && (DiesRecording(t, v, env) ==>
                  if recorded.Done? then env.commit in {DiesBeforeCommit, DiesAfterCommit} else recorded.result.Died?)
            && (recorded.Done? && env.commit in {DiesBeforeCommit, DiesAfterCommit} ==> DiesRecording(t, v, env))
  {
  }

  // An attempt gets as far as the breaker exactly if every statement before it
  // works, the request is new or not yet dispatched, and the email is complete;
  // the breaker then refuses the call exactly if it does not admit it.
  lemma ReachesBreakerExactly(cfg: Config, s: Side, ev: EmailEvent, env: Env)
    requires Inv(cfg, s) && NAMESPACE <= ev.serviceId
    ensures var v := SendEmail(cfg, s.tables, s.circuit, ev, env).trace.verdict;
            && (!v.NotReached? <==> Prepares(s.tables, ev, env) && Convert(cfg.codec, ev.email).Success?)
            && (v.BreakerRejected? ==> !Admits(cfg.breaker, s.circuit, env.start))
            && (v.Called? ==> Admits(cfg.breaker, s.circuit, env.start))
  {
    PreparesExactly(s.tables, ev, env);
    SendIsOneOfThree(cfg, s.tables, s.circuit, ev, env);
  }

  predicate TakesHold(commit: CommitOutcome) {
    commit == Committed || commit == CommittedButError || commit == DiesAfterCommit
  }

  lemma ConcludesExactly(t: Tables, recorded: Statement, c: Circuit, trace: Trace, commit: CommitOutcome)
    requires !trace.committed
    ensures var run := Conclude(t, recorded, c, trace, commit);
            && (run.trace.committed <==> recorded.Done? && TakesHold(commit))
            && (run.result.Died? <==>
                  if recorded.Done? then commit in {DiesBeforeCommit, DiesAfterCommit} else recorded.result.Died?)
  {
  }

  // From there it is committed exactly if every statement works, Resend's id is
  // a new one, and the commit takes hold. The process dies in it exactly if it
  // dies in the first statement that does not work.
  lemma CommitsExactly(cfg: Config, s: Side, ev: EmailEvent, env: Env)
    requires Inv(cfg, s) && NAMESPACE <= ev.serviceId
    ensures var run := SendEmail(cfg, s.tables, s.circuit, ev, env);
            var v := run.trace.verdict;
            && (run.trace.committed <==>
                  && !v.NotReached? && env.marshal == env.createDispatch == env.updateStatus == Ok
                  && NewResendId(s.tables, v) && TakesHold(env.commit))
            && (run.result.Died? <==>
                  DiesPreparing(s.tables, ev, env) || (!v.NotReached? && DiesRecording(s.tables, v, env)))
  {
    PreparesExactly(s.tables, ev, env);
    var prepared, request := Prepare(s.tables, ev, env), Convert(cfg.codec, ev.email);
    if prepared.Done? && request.Success? {
      var tx, v := prepared.tables, Judge(cfg, s.circuit, request.value, env);
      RecordsExactly(s.tables, tx, ev.requestId, request.value, v, env);
      ConcludesExactly(s.tables, Record(tx, tx.requests[ev.requestId].id, request.value, v, env),
                       Step(cfg.breaker, s.circuit, UseOf(env)), Idle(ev).(verdict := v), env.commit);
    }
  }

  // Send reports success exactly for a request that was dispatched before, and
  // after a call that Resend accepted and a commit that worked and said so.
  lemma SucceedsExactly(cfg: Config, t: Tables, c: Circuit, ev: EmailEvent, env: Env)
    ensures var run := SendEmail(cfg, t, c, ev, env);
            run.result == Returned(false) <==>
              && env.acquire == env.begin == env.lookup == Ok
              && (|| IsDispatched(t, ev.requestId)
                  || (&& run.trace.committed && env.commit == Committed
                      && run.trace.verdict.Called? && run.trace.verdict.reply.Accepted?))
  {
    SendIsOneOfThree(cfg, t, c, ev, env);
  }
}
