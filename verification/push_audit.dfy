// What holds after any number of push attempts: the notifications table
// against the trace of all attempts.

module PushAudit {
  import opened Common
  import opened Logs
  import opened Resilience
  import opened PushService

  datatype Side = Side(table: Table, circuit: Circuit, log: seq<Trace>, epoch: nat, clock: Time)

  function Fresh(now: Time): Side {
    Side(map[], INITIAL, [], 0, now)
  }

  function Attempted(cfg: Config, s: Side, n: Notification, requestId: string, env: Env): Side {
    var run := SendPush(cfg, s.table, s.circuit, n, requestId, env);
    Side(run.table, run.circuit, s.log + [run.trace], s.epoch, env.end)
  }

  function Restarted(s: Side): Side {
    s.(circuit := INITIAL, epoch := |CallsOf(s.log)|)
  }

  // ---- Reading the log ----

  function RowsFor(requestId: string): Trace -> seq<Row> {
    (t: Trace) => if t.requestId == requestId && t.stored.Some? then [t.stored.value] else []
  }

  // The rows stored for a request, oldest first.
  function Writes(log: seq<Trace>, requestId: string): seq<Row> {
    Collect(log, RowsFor(requestId))
  }

  // An error-free call to OneSignal.
  predicate AnsweredCall(t: Trace) {
    t.verdict.Called? && t.verdict.reply.Answered?
  }

  // An error-free call that no "sent" row records: the answer could not be
  // read, or it was not stored.
  predicate Unrecorded(t: Trace) {
    AnsweredCall(t) && !(t.stored.Some? && t.stored.value.status.Sent?)
  }

  function IsAnswer(requestId: string): Trace -> bool {
    (t: Trace) => t.requestId == requestId && AnsweredCall(t)
  }

  function IsUnrecorded(requestId: string): Trace -> bool {
    (t: Trace) => t.requestId == requestId && Unrecorded(t)
  }

  function Answers(log: seq<Trace>, requestId: string): nat {
    Count(log, IsAnswer(requestId))
  }

  function UnrecordedAnswers(log: seq<Trace>, requestId: string): nat {
    Count(log, IsUnrecorded(requestId))
  }

  function CallOf(t: Trace): seq<Attempt> {
    if t.verdict.Called?
    then [Attempt(t.verdict.start, t.verdict.end, t.verdict.reply.Answered?)] else []
  }

  function CallsOf(log: seq<Trace>): seq<Attempt> {
    Collect(log, CallOf)
  }

  // ---- The invariant ----

  ghost predicate SentIsLast(rows: seq<Row>) {
    forall i :: 0 <= i < |rows| - 1 ==> !rows[i].status.Sent?
  }

  // The table holds the latest write for each request; nothing is written
  // after "sent".
  ghost predicate Audited(t: Table, log: seq<Trace>, requestId: string) {
    var rows := Writes(log, requestId);
    && SentIsLast(rows)
    && (requestId in t <==> rows != [])
    && (requestId in t ==> t[requestId] == rows[|rows| - 1])
  }

  // An answer that names the notification, be it with an empty string: status
  // 200, and an object whose "id" is a string.
  predicate Readable(codec: Codec, reply: Reply) {
    && reply.Answered? && reply.code == 200 && reply.body != ""
    && codec.parseObject(reply.body).Some?
    && "id" in codec.parseObject(reply.body).value && codec.parseObject(reply.body).value["id"].Str?
  }

  function IdIn(codec: Codec, reply: Reply): string
    requires Readable(codec, reply)
  {
    codec.parseObject(reply.body).value["id"].s
  }

  // The row keeps the content of the notification, says "sent" exactly for a
  // readable answer and "circuit_open" exactly for a refusal by the breaker, and
  // carries the answer and an id that is not empty. Without a use of the breaker
  // it is the notification as it came.
  ghost predicate Tells(cfg: Config, t: Trace, row: Row) {
    var n, stored := t.notification, row.notification;
    && stored == n.(buttons := None, onesignalId := stored.onesignalId,
                    response := stored.response, error := stored.error)
    && (row.status.CircuitOpen? <==> t.verdict.BreakerRejected?)
    && (row.status.Sent? <==> t.verdict.Called? && Readable(cfg.codec, t.verdict.reply))
    && (t.verdict.NotReached? ==> stored == n.(buttons := None))
    && (!t.verdict.NotReached? ==>
          stored.response == if AnsweredCall(t) then Some(t.verdict.reply.body) else None)
    && (row.status.Sent? ==>
          && stored.error == n.error
          && var id := IdIn(cfg.codec, t.verdict.reply);
             stored.onesignalId == if id == "" then n.onesignalId else Some(id))
    && (!row.status.Sent? && !t.verdict.NotReached? ==>
          stored.onesignalId == n.onesignalId && stored.error.Some? && stored.error.value.FromAttempt?)
  }

  ghost predicate TraceOk(cfg: Config, t: Trace) {
    && (t.verdict.Called? ==> Valid(cfg.codec, t.notification, t.validatedAt) && t.validatedAt <= t.verdict.start)
    && (t.stored.Some? ==> Tells(cfg, t, t.stored.value) && Storable(cfg.codec, t.stored.value))
  }

  // Validation clocks never run backwards along the log.
  ghost predicate ClockOk(s: Side) {
    && (forall i :: 0 <= i < |s.log| ==> s.log[i].validatedAt <= s.clock)
    && (forall i, j :: 0 <= i < j < |s.log| ==> s.log[i].validatedAt <= s.log[j].validatedAt)
  }

  ghost predicate BreakerOk(cfg: Config, s: Side) {
    Tracks(cfg.breaker, CallsOf(s.log), s.epoch, s.circuit, s.clock)
  }

  ghost predicate Inv(cfg: Config, s: Side) {
    && (forall requestId :: Audited(s.table, s.log, requestId))
    && (forall t :: t in s.log ==> TraceOk(cfg, t))
    && ClockOk(s)
    && BreakerOk(cfg, s)
  }

  lemma FreshInv(cfg: Config, now: Time)
    ensures Inv(cfg, Fresh(now))
  {
  }

  predicate InTime(s: Side, env: Env) {
    s.clock <= env.validatedAt <= env.start <= env.end
  }

  // ---- Every attempt keeps it ----

  lemma AppendTrace(log: seq<Trace>, t: Trace, requestId: string)
    ensures Writes(log + [t], requestId) == Writes(log, requestId) +
              if t.requestId == requestId && t.stored.Some? then [t.stored.value] else []
    ensures Answers(log + [t], requestId) == Answers(log, requestId) +
              if t.requestId == requestId && AnsweredCall(t) then 1 else 0
    ensures CallsOf(log + [t]) == CallsOf(log) + CallOf(t)
  {
    CollectAppend(log, t, RowsFor(requestId));
    CountAppend(log, t, IsAnswer(requestId));
    CollectAppend(log, t, CallOf);
  }

  // One attempt writes its own row or nothing, and never over a sent one.
  ghost predicate WritesItsRow(t: Table, requestId: string, run: Run) {
    && run.trace.requestId == requestId
    && (run.trace.stored.None? ==> run.table == t)
    && (run.trace.stored.Some? ==>
          !IsSent(t, requestId) && run.table == t[requestId := run.trace.stored.value])
  }

  lemma SendWritesItsRow(cfg: Config, t: Table, c: Circuit, n: Notification, requestId: string, env: Env)
    ensures WritesItsRow(t, requestId, SendPush(cfg, t, c, n, requestId, env))
  {
  }

  lemma RunIsAudited(t: Table, log: seq<Trace>, requestId: string, run: Run, other: string)
    requires Audited(t, log, other) && WritesItsRow(t, requestId, run)
    ensures Audited(run.table, log + [run.trace], other)
  {
    var rows := Writes(log, other);
    CollectAppend(log, run.trace, RowsFor(other));
    if requestId == other && run.trace.stored.Some? {
      OneRowMore(t, rows, other, run.trace.stored.value);
    } else {
      assert Writes(log + [run.trace], other) == rows;
    }
  }

  lemma OneRowMore(t: Table, rows: seq<Row>, requestId: string, row: Row)
    requires SentIsLast(rows) && (requestId in t <==> rows != []) && !IsSent(t, requestId)
    requires requestId in t ==> t[requestId] == rows[|rows| - 1]
    ensures SentIsLast(rows + [row])
  {
  }

  lemma SendMovesBreakerByItsCallOnly(cfg: Config, t: Table, c: Circuit, n: Notification, requestId: string, env: Env)
    requires Settled(cfg.breaker, c)
    ensures var run := SendPush(cfg, t, c, n, requestId, env);
            && (run.trace.verdict.Called? ==>
                  && Admits(cfg.breaker, c, env.start)
                  && run.trace.verdict == Called(env.start, env.end, env.reply)
                  && run.circuit == Step(cfg.breaker, c, UseOf(env)))
            && (!run.trace.verdict.Called? ==> run.circuit == c)
  {
    StepKeepsSettled(cfg.breaker, c, UseOf(env));
  }

  lemma RowTells(cfg: Config, t: Table, c: Circuit, n: Notification, requestId: string, env: Env)
    ensures var trace := SendPush(cfg, t, c, n, requestId, env).trace;
            trace.stored.Some? ==> Tells(cfg, trace, trace.stored.value)
  {
  }

  lemma TraceShape(cfg: Config, t: Table, c: Circuit, n: Notification, requestId: string, env: Env)
    ensures var trace := SendPush(cfg, t, c, n, requestId, env).trace;
            trace.requestId == requestId && trace.notification == n && trace.validatedAt == env.validatedAt
  {
  }

  // The error in a row is the one that occurred.
  lemma ErrorsAreTrue(cfg: Config, t: Table, c: Circuit, n: Notification, requestId: string, env: Env)
    ensures var trace := SendPush(cfg, t, c, n, requestId, env).trace;
            trace.stored.Some? && !trace.stored.value.status.Sent? && !trace.verdict.NotReached? ==>
              && trace.stored.value.notification.error.Some?
              && trace.stored.value.notification.error.value.FromAttempt?
              && Occurred(cfg.codec, trace.stored.value.notification.error.value.problem, trace.verdict)
  {
  }

  predicate Occurred(codec: Codec, problem: Problem, v: Verdict) {
    match problem
    case BreakerOpen => v == BreakerRejected
    case CallFailed(text) => v.Called? && v.reply == Errored(text)
    case BadStatus(code) => v.Called? && v.reply.Answered? && v.reply.code == code != 200
    case EmptyBody => v.Called? && v.reply.Answered? && v.reply.body == ""
    case NotAnObject => v.Called? && v.reply.Answered? && codec.parseObject(v.reply.body) == None
    case NoIdField =>
      && v.Called? && v.reply.Answered? && codec.parseObject(v.reply.body) != None
      && ("id" !in codec.parseObject(v.reply.body).value || !codec.parseObject(v.reply.body).value["id"].Str?)
  }

  lemma RowIsStorable(cfg: Config, t: Table, c: Circuit, n: Notification, requestId: string, env: Env)
    ensures var trace := SendPush(cfg, t, c, n, requestId, env).trace;
            trace.stored.Some? ==> Storable(cfg.codec, trace.stored.value)
  {
  }

  lemma AttemptTraceOk(cfg: Config, t: Table, c: Circuit, n: Notification, requestId: string, env: Env)
    requires env.validatedAt <= env.start
    ensures var trace := SendPush(cfg, t, c, n, requestId, env).trace;
            && TraceOk(cfg, trace) && trace.requestId == requestId
            && trace.notification == n && trace.validatedAt == env.validatedAt
  {
    RowTells(cfg, t, c, n, requestId, env);
    RowIsStorable(cfg, t, c, n, requestId, env);
  }

  lemma AttemptKeepsBreaker(cfg: Config, s: Side, n: Notification, requestId: string, env: Env)
    requires BreakerOk(cfg, s) && InTime(s, env)
    ensures BreakerOk(cfg, Attempted(cfg, s, n, requestId, env))
  {
    var trace := SendPush(cfg, s.table, s.circuit, n, requestId, env).trace;
    var calls := CallsOf(s.log);
    SendMovesBreakerByItsCallOnly(cfg, s.table, s.circuit, n, requestId, env);
    CollectAppend(s.log, trace, CallOf);
    if trace.verdict.Called? {
      CallKeepsTrack(cfg.breaker, calls, s.epoch, s.circuit, s.clock, UseOf(env));
    } else {
      TimeKeepsTrack(cfg.breaker, calls, s.epoch, s.circuit, s.clock, env.end);
      assert CallsOf(s.log + [trace]) == calls;
    }
  }

  lemma AttemptKeeps(cfg: Config, s: Side, n: Notification, requestId: string, env: Env)
    requires Inv(cfg, s) && InTime(s, env)
    ensures Inv(cfg, Attempted(cfg, s, n, requestId, env))
  {
    AttemptKeepsBreaker(cfg, s, n, requestId, env);
    AttemptTraceOk(cfg, s.table, s.circuit, n, requestId, env);
    SendWritesItsRow(cfg, s.table, s.circuit, n, requestId, env);
    var run := SendPush(cfg, s.table, s.circuit, n, requestId, env);
    forall other
      ensures Audited(run.table, s.log + [run.trace], other)
    {
      RunIsAudited(s.table, s.log, requestId, run, other);
    }
  }

  lemma RestartKeeps(cfg: Config, s: Side)
    requires Inv(cfg, s)
    ensures Inv(cfg, Restarted(s))
  {
    RestartKeepsTrack(cfg.breaker, CallsOf(s.log), s.epoch, s.circuit, s.clock);
  }

  // ---- What the invariant says ----

  function SaysSent(): Row -> bool {
    (row: Row) => row.status.Sent?
  }

  lemma OneRow(row: Row)
    ensures Count([row], SaysSent()) == Once(row.status.Sent?)
  {
    CountAppend([], row, SaysSent());
  }

  lemma AnswersAreSentOrUnrecorded(cfg: Config, log: seq<Trace>, requestId: string)
    requires forall t :: t in log ==> TraceOk(cfg, t)
    ensures Answers(log, requestId) == Count(Writes(log, requestId), SaysSent()) + UnrecordedAnswers(log, requestId)
  {
    forall t | t in log
      ensures Once(IsAnswer(requestId)(t))
              == Count(RowsFor(requestId)(t), SaysSent()) + Once(IsUnrecorded(requestId)(t))
    {
      if t.stored.Some? {
        OneRow(t.stored.value);
      }
    }
    CountSplits(log, IsAnswer(requestId), IsUnrecorded(requestId), RowsFor(requestId), SaysSent());
  }

  // A row holds what the latest attempt for its request stored; nothing was
  // stored after "sent".
  lemma RowIsLatestWrite(cfg: Config, s: Side, requestId: string)
    requires Inv(cfg, s)
    ensures var rows := Writes(s.log, requestId);
            && (requestId in s.table <==> rows != [])
            && (rows != [] ==> s.table[requestId] == rows[|rows| - 1])
            && (forall k :: 0 <= k < |rows| && rows[k].status.Sent? ==> k == |rows| - 1)
  {
    assert Audited(s.table, s.log, requestId);
  }

  // Exact accounting of real sends: over any run, OneSignal answered a request
  // once if its row says sent, and once more for every answer that was not
  // recorded as sent.
  lemma DuplicateSendAccounting(cfg: Config, s: Side, requestId: string)
    requires Inv(cfg, s)
    ensures Answers(s.log, requestId) ==
            (if IsSent(s.table, requestId) then 1 else 0) + UnrecordedAnswers(s.log, requestId)
  {
    assert Audited(s.table, s.log, requestId);
    AnswersAreSentOrUnrecorded(cfg, s.log, requestId);
    CountLast(Writes(s.log, requestId), SaysSent());
  }

  lemma SuccessMeansSent(cfg: Config, t: Table, c: Circuit, n: Notification, requestId: string, env: Env)
    requires SendPush(cfg, t, c, n, requestId, env).result == Returned(false)
    ensures IsSent(SendPush(cfg, t, c, n, requestId, env).table, requestId)
  {
  }

  lemma NoFalseSuccess(cfg: Config, s: Side, n: Notification, requestId: string, env: Env)
    requires Inv(cfg, s) && InTime(s, env)
    requires SendPush(cfg, s.table, s.circuit, n, requestId, env).result == Returned(false)
    ensures Answers(Attempted(cfg, s, n, requestId, env).log, requestId) >= 1
  {
    AttemptKeeps(cfg, s, n, requestId, env);
    SuccessMeansSent(cfg, s.table, s.circuit, n, requestId, env);
    DuplicateSendAccounting(cfg, Attempted(cfg, s, n, requestId, env), requestId);
  }

  // A sent row never changes, and OneSignal is not called for it again.
  lemma SentIsFinal(cfg: Config, t: Table, c: Circuit, n: Notification, requestId: string, env: Env, other: string)
    requires IsSent(t, other)
    ensures var run := SendPush(cfg, t, c, n, requestId, env);
            && other in run.table && run.table[other] == t[other]
            && (other == requestId ==>
                  && run.table == t && run.circuit == c && run.trace.verdict.NotReached?
                  && (env.lookup.Ok? ==> run.result == Returned(false)))
  {
  }

  // Once an attempt has found send_after in the past, no later attempt with
  // that send_after reaches OneSignal.
  lemma PassedNeverReachesOneSignalAgain(cfg: Config, s: Side, i: nat, j: nat)
    requires Inv(cfg, s) && i < j < |s.log|
    requires Passed(s.log[i].notification, s.log[i].validatedAt)
    requires s.log[j].notification.sendAfter == s.log[i].notification.sendAfter
    ensures !s.log[j].verdict.Called?
  {
    assert TraceOk(cfg, s.log[j]);
  }

  // An attempt that finds send_after in the past leaves the breaker alone and
  // succeeds only if the request was sent before.
  lemma PassedSucceedsOnlyIfSent(cfg: Config, t: Table, c: Circuit, n: Notification, requestId: string, env: Env)
    requires Passed(n, env.validatedAt)
    ensures var run := SendPush(cfg, t, c, n, requestId, env);
            && run.circuit == c && run.trace.verdict.NotReached?
            && (run.result == Returned(false) <==> env.lookup.Ok? && IsSent(t, requestId))
  {
  }

  // An attempt whose every step works.
  ghost predicate Healthy(cfg: Config, n: Notification, env: Env) {
    && env.lookup.Ok? && env.persist.Stored? && ContentStorable(cfg.codec, n)
    && (env.reply.Answered? ==>
          Readable(cfg.codec, env.reply) && StorableJson(cfg.codec, Some(env.reply.body)))
  }

  lemma HealthySendSucceeds(cfg: Config, s: Side, n: Notification, requestId: string, env: Env)
    requires Settled(cfg.breaker, s.circuit) && Healthy(cfg, n, env)
    requires SendPush(cfg, s.table, s.circuit, n, requestId, env).trace.verdict.Called? ==> env.reply.Answered?
    requires Valid(cfg.codec, n, env.validatedAt)
    requires s.circuit.Open? ==> s.circuit.expiry < env.start
    ensures SendPush(cfg, s.table, s.circuit, n, requestId, env).result == Returned(false)
  {
    StepKeepsSettled(cfg.breaker, s.circuit, UseOf(env));
  }

  // ---- Rows without an id ----

  // A "sent" row of an event without an id of its own carries the id in the
  // answer exactly if that is not empty.
  lemma SentRowHasIdExactly(cfg: Config, t: Trace)
    requires TraceOk(cfg, t) && t.stored.Some? && t.stored.value.status.Sent? && t.notification.onesignalId.None?
    ensures t.verdict.Called? && Readable(cfg.codec, t.verdict.reply)
    ensures t.stored.value.notification.onesignalId.Some? <==> IdIn(cfg.codec, t.verdict.reply) != ""
  {
  }

  // An answer whose id is empty counts as a success: the row says "sent" and has
  // no id.
  lemma EmptyIdIsSent(cfg: Config, t: Table, c: Circuit, n: Notification, requestId: string, env: Env)
    requires c.Closed? && Healthy(cfg, n, env) && Valid(cfg.codec, n, env.validatedAt) && !IsSent(t, requestId)
    requires n.onesignalId.None? && Readable(cfg.codec, env.reply) && IdIn(cfg.codec, env.reply) == ""
    ensures var run := SendPush(cfg, t, c, n, requestId, env);
            && run.result == Returned(false) && IsSent(run.table, requestId)
            && run.table[requestId].notification.onesignalId == None
  {
  }

  // ---- Which outcomes are recorded ----

  lemma StoredRow(cfg: Config, t: Table, c: Circuit, n: Notification, requestId: string, env: Env)
    requires env.lookup.Ok? && env.persist.Stored? && !IsSent(t, requestId)
    ensures var run := SendPush(cfg, t, c, n, requestId, env);
            var v := run.trace.verdict;
            var row := if Valid(cfg.codec, n, env.validatedAt)
                       then RowFor(Enriched(n, v, Understood(cfg.codec, v)), StatusOf(v, Understood(cfg.codec, v)))
                       else RowFor(n, Failed);
            && run.trace.stored == (if Storable(cfg.codec, row) then Some(row) else None)
            && (v.Called? ==> v.reply == env.reply)
            && (!Storable(cfg.codec, row) ==> run.table == t && run.result == Returned(true))
  {
  }

  lemma WhatEnrichedStores(codec: Codec, n: Notification, v: Verdict, status: Status)
    ensures var row := RowFor(Enriched(n, v, Understood(codec, v)), status);
            Storable(codec, row) <==>
              && ContentStorable(codec, n)
              && (v.Called? && v.reply.Answered? ==> StorableJson(codec, Some(v.reply.body)))
  {
  }

  // Every outcome was to be recorded. With a database that works, an attempt
  // at a request not yet sent is recorded exactly when the JSONB columns take
  // the notification's content and the answer as it came.
  lemma RecordedExactlyIfStorable(cfg: Config, t: Table, c: Circuit, n: Notification, requestId: string, env: Env)
    requires env.lookup.Ok? && env.persist.Stored? && !IsSent(t, requestId)
    ensures var run := SendPush(cfg, t, c, n, requestId, env);
            var kept := if !Valid(cfg.codec, n, env.validatedAt) then n.response
                        else if AnsweredCall(run.trace) then Some(env.reply.body) else None;
            && (run.trace.stored.Some? <==> ContentStorable(cfg.codec, n) && StorableJson(cfg.codec, kept))
            && (run.trace.stored.None? ==> run.table == t && run.result == Returned(true))
  {
    StoredRow(cfg, t, c, n, requestId, env);
    var v := SendPush(cfg, t, c, n, requestId, env).trace.verdict;
    WhatEnrichedStores(cfg.codec, n, v, StatusOf(v, Understood(cfg.codec, v)));
  }

  // An empty or unstorable answer leaves no row, whatever the database does,
  // although OneSignal was called.
  lemma UnstorableAnswerLeavesNoRow(cfg: Config, t: Table, c: Circuit, n: Notification, requestId: string, env: Env)
    requires env.lookup.Ok? && !IsSent(t, requestId) && Valid(cfg.codec, n, env.validatedAt)
    requires Admits(cfg.breaker, c, env.start) && env.reply.Answered?
    requires env.reply.body == "" || !cfg.codec.isJsonb(env.reply.body)
    ensures var run := SendPush(cfg, t, c, n, requestId, env);
            AnsweredCall(run.trace) && run.trace.stored.None? && run.table == t && run.result != Returned(false)
  {
  }

  // A valid attempt at an unsent request on a closed breaker reaches OneSignal,
  // whatever then becomes of the upsert.
  lemma ValidCallIsAnswered(cfg: Config, t: Table, c: Circuit, n: Notification, requestId: string, env: Env)
    requires c.Closed? && env.lookup.Ok? && !IsSent(t, requestId) && env.reply.Answered?
    requires Valid(cfg.codec, n, env.validatedAt)
    ensures var run := SendPush(cfg, t, c, n, requestId, env);
            && AnsweredCall(run.trace) && run.trace.requestId == requestId && run.circuit == Closed(0)
            && (env.persist.NotStored? ==> run.table == t)
  {
  }

  // A push whose answer is not stored is sent again by its retry.
  lemma LostRecordIsSentTwice(cfg: Config, now: Time, n: Notification, requestId: string, env: Env)
    requires InTime(Fresh(now), env) && Healthy(cfg, n, env) && env.reply.Answered?
    requires Valid(cfg.codec, n, env.validatedAt) && Valid(cfg.codec, n, env.end)
    ensures var first, retry := env.(persist := NotStored), env.(validatedAt := env.end, start := env.end);
            var s' := Attempted(cfg, Attempted(cfg, Fresh(now), n, requestId, first), n, requestId, retry);
            Answers(s'.log, requestId) == 2
  {
    var s, first, retry := Fresh(now), env.(persist := NotStored), env.(validatedAt := env.end, start := env.end);
    ValidCallIsAnswered(cfg, s.table, s.circuit, n, requestId, first);
    var s1 := Attempted(cfg, s, n, requestId, first);
    ValidCallIsAnswered(cfg, s1.table, s1.circuit, n, requestId, retry);
    CountAppend(s.log, SendPush(cfg, s.table, s.circuit, n, requestId, first).trace, IsAnswer(requestId));
    CountAppend(s1.log, SendPush(cfg, s1.table, s1.circuit, n, requestId, retry).trace, IsAnswer(requestId));
  }

  // ---- Whose content was sent ----

  // The duplicate check finds a request sent exactly when some attempt for it
  // stored "sent".
  lemma DuplicateCheckIsExact(cfg: Config, s: Side, requestId: string)
    requires Inv(cfg, s)
    ensures IsSent(s.table, requestId) <==>
            exists t :: t in s.log && t.requestId == requestId && t.stored.Some? && t.stored.value.status.Sent?
  {
    var rows := Writes(s.log, requestId);
    RowIsLatestWrite(cfg, s, requestId);
    if IsSent(s.table, requestId) {
      CollectMember(s.log, RowsFor(requestId), rows[|rows| - 1]);
    }
    forall t | t in s.log && t.requestId == requestId && t.stored.Some?
      ensures t.stored.value in rows
    {
      CollectMember(s.log, RowsFor(requestId), t.stored.value);
    }
  }

  // OneSignal answered a call with this very notification under this request id.
  ghost predicate ContentAnswered(log: seq<Trace>, requestId: string, n: Notification) {
    exists t :: t in log && t.requestId == requestId && t.notification == n && AnsweredCall(t)
  }

  // OneSignal's answer could be read, and the table says "sent".
  ghost predicate ContentSent(cfg: Config, log: seq<Trace>, requestId: string, n: Notification) {
    exists t :: t in log && t.requestId == requestId && t.notification == n && SentAndStored(cfg, t)
  }

  ghost predicate SentAndStored(cfg: Config, t: Trace) {
    && t.verdict.Called? && Readable(cfg.codec, t.verdict.reply)
    && t.stored.Some? && t.stored.value.status.Sent?
  }

  // An attempt that reports success has sent its own content exactly when the
  // duplicate check did not stop it.
  lemma SuccessSendsUnlessSent(cfg: Config, t: Table, c: Circuit, n: Notification, requestId: string, env: Env)
    requires SendPush(cfg, t, c, n, requestId, env).result == Returned(false)
    ensures var trace := SendPush(cfg, t, c, n, requestId, env).trace;
            && trace.requestId == requestId && trace.notification == n
            && (AnsweredCall(trace) <==> !IsSent(t, requestId))
  {
  }

  // The first of two notifications, on an empty table.
  lemma FirstIsSent(cfg: Config, now: Time, n: Notification, requestId: string, env: Env)
    requires InTime(Fresh(now), env) && Healthy(cfg, n, env) && env.reply.Answered?
    requires Valid(cfg.codec, n, env.validatedAt)
    ensures var s := Attempted(cfg, Fresh(now), n, requestId, env);
            && s.circuit == Closed(0) && |s.log| == 1
            && s.log[0].requestId == requestId && s.log[0].notification == n && AnsweredCall(s.log[0])
            && forall q :: IsSent(s.table, q) <==> q == requestId
  {
    var s := Fresh(now);
    ValidCallIsAnswered(cfg, s.table, s.circuit, n, requestId, env);
    HealthySendSucceeds(cfg, s, n, requestId, env);
    SuccessSendsUnlessSent(cfg, s.table, s.circuit, n, requestId, env);
    SuccessMeansSent(cfg, s.table, s.circuit, n, requestId, env);
    SendWritesItsRow(cfg, s.table, s.circuit, n, requestId, env);
  }

  // Both of two notifications that follow each other are reported as sent. The
  // second one was sent exactly if it has a request id of its own or is the
  // same as the first.
  lemma SecondContentIsSentExactly(
    cfg: Config, now: Time, n: Notification, q: string, env: Env, n': Notification, q': string, env': Env)
    requires InTime(Fresh(now), env) && Healthy(cfg, n, env) && env.reply.Answered?
    requires Valid(cfg.codec, n, env.validatedAt)
    requires InTime(Attempted(cfg, Fresh(now), n, q, env), env') && Healthy(cfg, n', env') && env'.reply.Answered?
    requires Valid(cfg.codec, n', env'.validatedAt)
    ensures var s := Attempted(cfg, Fresh(now), n, q, env);
            && SendPush(cfg, s.table, s.circuit, n', q', env').result == Returned(false)
            && (ContentAnswered(Attempted(cfg, s, n', q', env').log, q', n') <==> q' != q || n' == n)
  {
    FirstIsSent(cfg, now, n, q, env);
    var s := Attempted(cfg, Fresh(now), n, q, env);
    HealthySendSucceeds(cfg, s, n', q', env');
    SuccessSendsUnlessSent(cfg, s.table, s.circuit, n', q', env');
    SecondOfTwo(s.log, SendPush(cfg, s.table, s.circuit, n', q', env').trace, q', n');
  }

  lemma SecondOfTwo(log: seq<Trace>, second: Trace, requestId: string, n: Notification)
    requires |log| == 1 && second.requestId == requestId && second.notification == n
    ensures ContentAnswered(log + [second], requestId, n) <==>
            || AnsweredCall(second)
            || (log[0].requestId == requestId && log[0].notification == n && AnsweredCall(log[0]))
  {
    assert log + [second] == [log[0], second];
    assert second in log + [second] && log[0] in log + [second];
  }

  // ---- When an attempt gets how far ----

  // What a notification needs to be sent: somebody to reach, an English heading
  // and contents, every JSON part readable, a time to live of at most 30 days,
  // and a time to send that has not passed.
  predicate Complete(codec: Codec, n: Notification, now: Time) {
    && (n.targetUser != None || exists audience :: audience in n.audiences && |audience| > 0)
    && n.headings != None && codec.parseTexts(n.headings.value) != None
    && "en" in codec.parseTexts(n.headings.value).value
    && n.contents != None && codec.parseTexts(n.contents.value) != None
    && (n.subtitle == None || codec.parseTexts(n.subtitle.value) != None)
    && (n.data == None || codec.parseObject(n.data.value) != None)
    && (n.ttl == None || 1 <= n.ttl.value <= 30 * 24 * 60 * 60)
    && (n.sendAfter == None || now <= n.sendAfter.value)
    && (n.buttons == None || codec.validButtons(n.buttons.value))
  }

  lemma ValidIfComplete(codec: Codec, n: Notification, now: Time)
    ensures Valid(codec, n, now) <==> Complete(codec, n, now)
  {
    assert HasTargeting(n) <==> n.targetUser != None || exists audience :: audience in n.audiences && |audience| > 0;
  }

  // An attempt gets as far as the breaker exactly if the check works and finds
  // nothing sent, and the notification is complete; the breaker then refuses the
  // call exactly if it does not admit it.
  lemma ReachesBreakerExactly(cfg: Config, t: Table, c: Circuit, n: Notification, requestId: string, env: Env)
    ensures var v := SendPush(cfg, t, c, n, requestId, env).trace.verdict;
            && (!v.NotReached? <==>
                  env.lookup == Ok && !IsSent(t, requestId) && Complete(cfg.codec, n, env.validatedAt))
            && (v.BreakerRejected? ==> !Admits(cfg.breaker, c, env.start))
            && (v.Called? ==> Admits(cfg.breaker, c, env.start) && v == Called(env.start, env.end, env.reply))
  {
    ValidIfComplete(cfg.codec, n, env.validatedAt);
  }

  // The JSON that the row of an attempt holds as OneSignal's answer.
  function KeptAnswer(n: Notification, t: Trace): Option<Json> {
    if t.verdict.NotReached? then n.response
    else if AnsweredCall(t) then Some(t.verdict.reply.body) else None
  }

  // It is recorded exactly if the JSONB columns take it and the upsert works,
  // whatever is reported.
  lemma RecordsExactly(cfg: Config, t: Table, c: Circuit, n: Notification, requestId: string, env: Env)
    ensures var trace := SendPush(cfg, t, c, n, requestId, env).trace;
            trace.stored.Some? <==>
              && env.lookup == Ok && !IsSent(t, requestId)
              && ContentStorable(cfg.codec, n) && StorableJson(cfg.codec, KeptAnswer(n, trace))
              && env.persist in {Stored, StoredButError, DiesAfterPersist}
  {
  }

  // Send reports success exactly for a request that was sent before, and after a
  // call with a readable answer that was stored and reported so. The process
  // dies in it exactly if it dies in the check or in the upsert.
  lemma EndsExactly(cfg: Config, t: Table, c: Circuit, n: Notification, requestId: string, env: Env)
    ensures var run := SendPush(cfg, t, c, n, requestId, env);
            && (run.result == Returned(false) <==>
                  && env.lookup == Ok
                  && (|| IsSent(t, requestId)
                      || (&& run.trace.verdict.Called? && Readable(cfg.codec, run.trace.verdict.reply)
                          && run.trace.stored.Some? && env.persist == Stored)))
            && (run.result.Died? <==>
                  || env.lookup == Dies
                  || (&& env.lookup == Ok && !IsSent(t, requestId)
                      && env.persist in {DiesBeforePersist, DiesAfterPersist}))
  {
  }
}
