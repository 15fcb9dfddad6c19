// Sending a push notification: a duplicate check, validation, one provider
// call and one upsert, each statement committing on its own.

module PushService {
  import opened Common
  import opened Resilience

  datatype JsonValue = Str(s: string) | OtherValue

  // Why an attempt did not end well.
  datatype Problem =
    | BreakerOpen | CallFailed(text: string) | BadStatus(code: int) | EmptyBody | NotAnObject | NoIdField

  datatype ErrorText = FromProducer(text: string) | FromAttempt(problem: Problem)

  datatype Notification = Notification(
    targetUser: Option<string>,
    audiences: seq<seq<string>>,   // segments, player ids, tokens, ...: all the targeting lists
    headings: Option<Json>, subtitle: Option<Json>, contents: Option<Json>, data: Option<Json>,
    buttons: Option<Json>, ttl: Option<int>, sendAfter: Option<Time>,
    other: string,                 // every field that is only copied
    onesignalId: Option<string>, response: Option<Json>, error: Option<ErrorText>)

  // JSON decoding as a parameter.
  datatype Codec = Codec(
    parseTexts: Json -> Option<map<string, string>>,
    parseObject: Json -> Option<map<string, JsonValue>>,
    validButtons: Json -> bool,
    isJsonb: Json -> bool)         // what a JSONB column takes; never the empty string

  datatype Config = Config(codec: Codec, breaker: Settings)

  // ---- Validation ----

  const MAX_TTL: int := 2592000

  predicate HasTargeting(n: Notification) {
    n.targetUser.Some? || exists i :: 0 <= i < |n.audiences| && n.audiences[i] != []
  }

  predicate ValidTtl(ttl: int) {
    0 < ttl <= MAX_TTL
  }

  // send_after lies before the validation clock.
  predicate Passed(n: Notification, now: Time) {
    n.sendAfter.Some? && n.sendAfter.value < now
  }

  predicate Valid(codec: Codec, n: Notification, now: Time) {
    && HasTargeting(n)
    && n.headings.Some? && codec.parseTexts(n.headings.value).Some?
    && "en" in codec.parseTexts(n.headings.value).value
    && (n.subtitle.Some? ==> codec.parseTexts(n.subtitle.value).Some?)
    && n.contents.Some? && codec.parseTexts(n.contents.value).Some?
    && (n.data.Some? ==> codec.parseObject(n.data.value).Some?)
    && (n.ttl.Some? ==> ValidTtl(n.ttl.value))
    && !Passed(n, now)
    && (n.buttons.Some? ==> codec.validButtons(n.buttons.value))
  }

  // ---- The notifications table ----

  datatype Status = Sent | Failed | CircuitOpen

  datatype Row = Row(notification: Notification, status: Status)

  // The upsert covers every column but buttons and web_buttons.
  function RowFor(n: Notification, status: Status): Row {
    Row(n.(buttons := None), status)
  }

  type Table = map<string, Row>

  predicate StorableJson(codec: Codec, j: Option<Json>) {
    j.Some? ==> j.value != "" && codec.isJsonb(j.value)
  }

  // The JSONB columns, among them onesignal_response, which holds the body of
  // the answer as it came.
  predicate Storable(codec: Codec, row: Row) {
    ContentStorable(codec, row.notification) && StorableJson(codec, row.notification.response)
  }

  predicate ContentStorable(codec: Codec, n: Notification) {
    && StorableJson(codec, n.headings) && StorableJson(codec, n.subtitle)
    && StorableJson(codec, n.contents) && StorableJson(codec, n.data)
  }

  // ---- One attempt ----

  // What the client got back: an answer, or an error.
  datatype Reply = Answered(code: int, body: Json) | Errored(text: string)

  datatype Persist = Stored | NotStored | StoredButError | DiesBeforePersist | DiesAfterPersist

  datatype Env = Env(lookup: Outcome, validatedAt: Time, start: Time, end: Time, reply: Reply, persist: Persist)

  datatype Verdict = NotReached | BreakerRejected | Called(start: Time, end: Time, reply: Reply)

  datatype Trace = Trace(
    requestId: string, notification: Notification, validatedAt: Time, verdict: Verdict, stored: Option<Row>)

  datatype Run = Run(table: Table, circuit: Circuit, trace: Trace, result: SendResult)

  function ParseResponse(codec: Codec, code: int, body: Json): Result<string, Problem> {
    if code != 200 then Failure(BadStatus(code))
    else if body == "" then Failure(EmptyBody)
    else if codec.parseObject(body).None? then Failure(NotAnObject)
    else
      var fields := codec.parseObject(body).value;
      if "id" in fields && fields["id"].Str? then Success(fields["id"].s) else Failure(NoIdField)
  }

  // The answer as the service understands it.
  function Understood(codec: Codec, v: Verdict): Result<string, Problem> {
    match v
    case NotReached => Failure(BreakerOpen)
    case BreakerRejected => Failure(BreakerOpen)
    case Called(_, _, Errored(text)) => Failure(CallFailed(text))
    case Called(_, _, Answered(code, body)) => ParseResponse(codec, code, body)
  }

  function Enriched(n: Notification, v: Verdict, r: Result<string, Problem>): Notification {
    var raw := n.(response := if v.Called? && v.reply.Answered? then Some(v.reply.body) else None);
    match r
    case Failure(problem) => raw.(error := Some(FromAttempt(problem)))
    case Success(id) => if id == "" then raw else raw.(onesignalId := Some(id))
  }

  function StatusOf(v: Verdict, r: Result<string, Problem>): Status {
    if v.BreakerRejected? then CircuitOpen else if r.Failure? then Failed else Sent
  }

  // An upsert that a column refuses has no effect, whatever the environment.
  predicate TakesEffect(codec: Codec, row: Row, p: Persist) {
    Storable(codec, row) && (p.Stored? || p.StoredButError? || p.DiesAfterPersist?)
  }

  predicate Reported(codec: Codec, row: Row, p: Persist) {
    Storable(codec, row) && p.Stored?
  }

  predicate Interrupts(p: Persist) {
    p.DiesBeforePersist? || p.DiesAfterPersist?
  }

  function Persisted(codec: Codec, t: Table, requestId: string, row: Row, p: Persist): Table {
    if TakesEffect(codec, row, p) then t[requestId := row] else t
  }

  predicate IsSent(t: Table, requestId: string) {
    requestId in t && t[requestId].status.Sent?
  }

  function UseOf(env: Env): Attempt {
    Attempt(env.start, env.end, env.reply.Answered?)
  }

  function SendPush(cfg: Config, t: Table, c: Circuit, n: Notification, requestId: string, env: Env): Run {
    var idle := Trace(requestId, n, env.validatedAt, NotReached, None);
    if !env.lookup.Ok? then Run(t, c, idle, Interrupted(env.lookup))
    else if IsSent(t, requestId) then Run(t, c, idle, Returned(false))
    else
      var valid := Valid(cfg.codec, n, env.validatedAt);
      var v :=
        if !valid then NotReached
        else if Admits(cfg.breaker, c, env.start) then Called(env.start, env.end, env.reply)
        else BreakerRejected;
      var c' := if valid then Step(cfg.breaker, c, UseOf(env)) else c;
      var understood := Understood(cfg.codec, v);
      var row := if valid then RowFor(Enriched(n, v, understood), StatusOf(v, understood)) else RowFor(n, Failed);
      var err := !valid || !Reported(cfg.codec, row, env.persist) || understood.Failure?;
      Run(Persisted(cfg.codec, t, requestId, row, env.persist), c',
          idle.(verdict := v, stored := if TakesEffect(cfg.codec, row, env.persist) then Some(row) else None),
          if Interrupts(env.persist) then Died else Returned(err))
  }

  // ---- The service object ----

  class Repository {
    var notifications: Table

    constructor ()
      ensures notifications == map[]
    {
      notifications := map[];
    }

    method GetNotificationByQueueMessageID(requestId: string) returns (r: Option<Row>)
      ensures r == if requestId in notifications then Some(notifications[requestId]) else None
    {
      r := if requestId in notifications then Some(notifications[requestId]) else None;
    }

    method UpsertNotification(codec: Codec, requestId: string, row: Row) returns (ok: bool)
      modifies this
      ensures ok == Storable(codec, row)
      ensures ok ==> requestId in notifications && notifications[requestId] == row
      ensures forall q :: q != requestId || !ok ==>
        (q in notifications <==> q in old(notifications))
        && (q in notifications ==> notifications[q] == old(notifications)[q])
    {
      var n := row.notification;
      if exists j <- [n.headings, n.subtitle, n.contents, n.data, n.response] :: !StorableJson(codec, j) {
        return false;
      }
      notifications := notifications[requestId := row];
      return true;
    }
  }

  class Service {
    const cfg: Config
    const repo: Repository
    const breaker: CircuitBreaker

    constructor (cfg: Config, repo: Repository)
      ensures this.cfg == cfg && this.repo == repo && fresh(breaker)
      ensures breaker.settings == cfg.breaker && breaker.circuit == INITIAL
    {
      this.cfg := cfg;
      this.repo := repo;
      breaker := new CircuitBreaker(cfg.breaker);
    }

    // Records an outcome, whatever it was.
    method PersistOutcome(n: Notification, requestId: string, status: Status, p: Persist)
      returns (err: bool, ghost stored: Option<Row>)
      modifies repo
      ensures var row := RowFor(n, status);
              && repo.notifications == Persisted(cfg.codec, old(repo.notifications), requestId, row, p)
              && err == !Reported(cfg.codec, row, p)
              && stored == if TakesEffect(cfg.codec, row, p) then Some(row) else None
    {
      stored, err := None, true;
      if p.Stored? || p.StoredButError? || p.DiesAfterPersist? {
        var ok := repo.UpsertNotification(cfg.codec, requestId, RowFor(n, status));
        if ok {
          stored, err := Some(RowFor(n, status)), !p.Stored?;
        }
      }
    }

    method Send(push: Notification, requestId: string, env: Env) returns (result: SendResult, ghost trace: Trace)
      requires breaker.settings == cfg.breaker
      modifies repo, breaker
      ensures var run := SendPush(cfg, old(repo.notifications), old(breaker.circuit), push, requestId, env);
              && repo.notifications == run.table && breaker.circuit == run.circuit
              && trace == run.trace && result == run.result
    {
      trace := Trace(requestId, push, env.validatedAt, NotReached, None);
      if !env.lookup.Ok? {
        return Interrupted(env.lookup), trace;
      }
      var existing := repo.GetNotificationByQueueMessageID(requestId);
      if existing.Some? && existing.value.status.Sent? {
        return Returned(false), trace;
      }
      ghost var stored: Option<Row>;
      if !Valid(cfg.codec, push, env.validatedAt) {
        var failed;
        failed, stored := PersistOutcome(push, requestId, Failed, env.persist);
        trace := trace.(stored := stored);
        return if Interrupts(env.persist) then Died else Returned(true), trace;
      }
      var admitted := breaker.Execute(UseOf(env));
      var v := if admitted then Called(env.start, env.end, env.reply) else BreakerRejected;
      var understood := Understood(cfg.codec, v);
      var outcome := Status.Sent;
      if !admitted {
        outcome := CircuitOpen;
      } else if understood.Failure? {
        outcome := Failed;
      }
      var err;
      err, stored := PersistOutcome(Enriched(push, v, understood), requestId, outcome, env.persist);
      trace := trace.(verdict := v, stored := stored);
      if Interrupts(env.persist) {
        return Died, trace;
      }
      if err {
        return Returned(true), trace;
      }
      return Returned(understood.Failure?), trace;
    }
  }
}
