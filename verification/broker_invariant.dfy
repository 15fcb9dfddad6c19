// What every step of the broker and the settling consumer keeps: conservation,
// the agreement of x-death with history, the retry budget, retry timing,
// first-in-first-out expiry and return routing.

module BrokerInvariant {
  import opened Common
  import opened Routing
  import opened Deaths
  import opened Broker

  // Rejections grow up to the budget; beyond it only failed parks add one.
  ghost predicate Budgeted(p: Policy, h: History) {
    (h.rejections <= p.Budget() && h.parkFailures == 0) || h.rejections == p.Budget() + h.parkFailures
  }

  ghost predicate HistoryOk(p: Policy, m: Msg) {
    && WellFormed(m.headers)
    && Rejections(m.headers) == m.history.rejections
    && Budgeted(p, m.history)
  }

  ghost predicate Unsettled(p: Policy, m: Msg) {
    HistoryOk(p, m) && m.history.attempts == m.history.rejections + m.history.crashes
  }

  // The earliest time a message with this history can be handled again.
  ghost function Due(p: Policy, h: History): Time
    requires h.first.Some?
  {
    h.first.value + h.rejections * p.Delay()
  }

  ghost predicate ReadyOk(p: Policy, c: Channel, m: Msg, now: Time) {
    && Unsettled(p, m) && Bound(c, m.key)
    && (m.history.first.None? ==> m.history.rejections == 0)
    && (m.history.first.Some? ==> Due(p, m.history) <= now)
  }

  ghost predicate UnackedOk(p: Policy, c: Channel, m: Msg, now: Time) {
    && Unsettled(p, m) && Bound(c, m.key)
    && m.history.first.Some? && Due(p, m.history) <= m.history.delivered <= now
  }

  ghost predicate WaitingOk(p: Policy, w: Waiting, now: Time) {
    && Unsettled(p, w.msg) && Bound(w.from, w.msg.key) && w.msg.key in p.retryKeys
    && w.msg.history.first.Some? && Due(p, w.msg.history) <= w.deadline <= now + p.Delay()
  }

  ghost predicate SettledOk(p: Policy, m: Msg) {
    && HistoryOk(p, m) && m.history.attempts == m.history.rejections + m.history.crashes + 1
    && m.history.first.Some? && Due(p, m.history) <= m.history.delivered
    && (Bound(EmailChannel, m.key) || Bound(PushChannel, m.key))
  }

  ghost predicate ShelvedOk(p: Policy, m: Msg) {
    SettledOk(p, m) && m.history.rejections == p.Budget() + m.history.parkFailures
  }

  ghost predicate AttemptsBounded(p: Policy, h: History) {
    h.attempts <= p.Budget() + 1 + h.parkFailures + h.crashes
  }

  // Lost because the retry exchange has no queue for the key, or no queue is
  // bound under it at all.
  ghost predicate LostOk(p: Policy, m: Msg) {
    && AttemptsBounded(p, m.history)
    && (m.key !in p.retryKeys || !(Bound(EmailChannel, m.key) || Bound(PushChannel, m.key)))
  }

  ghost predicate Sorted(ws: seq<Waiting>) {
    forall i, j :: 0 <= i < j < |ws| ==> ws[i].deadline <= ws[j].deadline
  }

  ghost predicate QueueOk(p: Policy, c: Channel, q: Queue, now: Time) {
    && (forall m :: m in q.ready ==> ReadyOk(p, c, m, now))
    && (forall m :: m in q.unacked ==> UnackedOk(p, c, m, now))
  }

  ghost predicate PlacesOk(p: Policy, b: Queues, now: Time) {
    && QueueOk(p, EmailChannel, b.email, now)
    && QueueOk(p, PushChannel, b.push, now)
    && (forall w :: w in b.retry ==> WaitingOk(p, w, now))
    && Sorted(b.retry)
    && (forall m :: m in b.acked ==> SettledOk(p, m))
    && (forall m :: m in b.shelved ==> ShelvedOk(p, m))
    && (forall m :: m in b.lost ==> LostOk(p, m))
  }

  function Bodies(ms: seq<Msg>): multiset<Body> {
    if ms == [] then multiset{} else Bodies(ms[..|ms| - 1]) + multiset{ms[|ms| - 1].body}
  }

  ghost predicate Kept(p: Policy, b: Queues) {
    && (forall x :: CopiesAnywhere(b, x) == multiset(b.published)[x])
    && (forall i :: 0 <= i < |b.published| ==> b.published[i].id == i)
    && ParkedOk(p, b)
  }

  // The parked queue holds one copy of every shelved message, one for every
  // stray, and nothing else.
  ghost predicate ParkedOk(p: Policy, b: Queues) {
    && multiset(b.parked) == (if p.parkedDeclared then Bodies(b.shelved) else multiset{}) + Bodies(b.strays)
    && forall m :: m in b.strays ==> IdentOf(m) in b.published
  }

  ghost predicate Inv(p: Policy, b: Queues, now: Time) {
    Kept(p, b) && PlacesOk(p, b, now)
  }

  lemma InitialInv(p: Policy, now: Time)
    ensures Inv(p, EMPTY, now)
  {
  }

  // ---- Each step keeps it ----

  lemma TickKeeps(p: Policy, b: Queues, now: Time, later: Time)
    requires Inv(p, b, now) && now <= later
    ensures Inv(p, b, later)
  {
  }

  lemma ArriveKeepsPlaces(p: Policy, b: Queues, m: Msg, now: Time)
    requires PlacesOk(p, b, now)
    requires AttemptsBounded(p, m.history) && forall c :: Bound(c, m.key) ==> ReadyOk(p, c, m, now)
    ensures PlacesOk(p, Arrive(b, m), now)
  {
    BoundKeys(EmailChannel, m.key);
  }

  lemma PublishKeepsLedger(p: Policy, b: Queues, key: RoutingKey, body: Body)
    requires Kept(p, b)
    ensures Kept(p, Publish(b, key, body))
  {
    var x0 := Ident(|b.published|, key, body);
    var b' := Publish(b, key, body);
    assert b'.published == b.published + [x0];
    assert b'.shelved == b.shelved && b'.parked == b.parked && b'.strays == b.strays;
    forall x
      ensures CopiesAnywhere(b', x) == multiset(b'.published)[x]
    {
      PublishConserves(b, key, body, x);
      assert multiset(b.published + [x0]) == multiset(b.published) + multiset{x0};
    }
  }

  lemma PublishKeeps(p: Policy, b: Queues, key: RoutingKey, body: Body, now: Time)
    requires Inv(p, b, now)
    ensures Inv(p, Publish(b, key, body), now)
  {
    var m := Msg(|b.published|, key, body, Absent, UNTOUCHED);
    var listed := b.(published := b.published + [IdentOf(m)]);
    assert PlacesOk(p, listed, now);
    ArriveKeepsPlaces(p, listed, m, now);
    PublishKeepsLedger(p, b, key, body);
  }

  lemma DeliverKeeps(p: Policy, b: Queues, c: Channel, now: Time)
    requires Inv(p, b, now) && b.Of(c).ready != []
    ensures Inv(p, Deliver(b, c, now), now)
  {
    var m := b.Of(c).ready[0];
    assert ReadyOk(p, c, m, now);
    assert UnackedOk(p, c, Taken(m, now), now);
    forall x
      ensures CopiesAnywhere(Deliver(b, c, now), x) == CopiesAnywhere(b, x)
    {
      DeliverConserves(b, c, now, x);
    }
  }

  lemma DueLater(p: Policy, h: History)
    requires h.first.Some?
    ensures Due(p, h.(rejections := h.rejections + 1)) == Due(p, h) + p.Delay()
  {
    assert (h.rejections + 1) * p.Delay() == h.rejections * p.Delay() + p.Delay();
  }

  lemma SortedAppend(p: Policy, ws: seq<Waiting>, w: Waiting, now: Time)
    requires Sorted(ws) && w.deadline == now + p.Delay()
    requires forall v :: v in ws ==> WaitingOk(p, v, now)
    ensures Sorted(ws + [w])
  {
    assert forall i :: 0 <= i < |ws| ==> WaitingOk(p, ws[i], now);
  }

  lemma RejectKeepsPlaces(p: Policy, b: Queues, c: Channel, m: Msg, now: Time)
    requires PlacesOk(p, b, now) && Bound(c, m.key)
    requires m.history.first.Some? && Due(p, m.history) <= now
    requires WellFormed(m.headers) && Rejections(m.headers) == m.history.rejections
    requires m.history.attempts == m.history.rejections + m.history.crashes + 1
    requires Budgeted(p, m.history.(rejections := m.history.rejections + 1))
    ensures PlacesOk(p, Reject(p, b, c, m, now), now)
  {
    DieCounts(m.headers, QueueName(c), Rejected);
    DueLater(p, m.history);
    var b' := Reject(p, b, c, m, now);
    if m.key in p.retryKeys {
      assert WaitingOk(p, b'.retry[|b.retry|], now);
      SortedAppend(p, b.retry, b'.retry[|b.retry|], now);
    }
  }

  lemma PopKeepsPlaces(p: Policy, b: Queues, c: Channel, now: Time)
    requires PlacesOk(p, b, now) && b.Of(c).unacked != []
    ensures PlacesOk(p, Pop(b, c), now)
  {
  }

  lemma BodiesAppend(ms: seq<Msg>, m: Msg)
    ensures Bodies(ms + [m]) == Bodies(ms) + multiset{m.body}
  {
    assert (ms + [m])[..|ms|] == ms;
  }

  lemma SettleKeepsPlaces(p: Policy, b: Queues, c: Channel, err: bool, park: Park, now: Time)
    requires PlacesOk(p, b, now) && b.Of(c).unacked != []
    ensures PlacesOk(p, Settle(p, b, c, err, park, now), now)
  {
    var u := b.Of(c).unacked[0];
    assert UnackedOk(p, c, u, now);
    var m := Tried(u);
    var rest := Pop(b, c);
    PopKeepsPlaces(p, b, c, now);
    if err {
      if Rejections(m.headers) >= p.maxRetryAttempts {
        if park.Enqueued? {
          assert ShelvedOk(p, m);
        } else {
          RejectKeepsPlaces(p, Stray(p, rest, m), c, ParkFailed(m), now);
          RejectKeepsPlaces(p, rest, c, ParkFailed(m), now);
        }
      } else {
        RejectKeepsPlaces(p, rest, c, m, now);
      }
    }
  }

  lemma {:induction false} CopiedWhenMember(ms: seq<Msg>, m: Msg)
    requires m in ms
    ensures Copies(ms, IdentOf(m)) >= 1
  {
    if ms[0] != m {
      CopiedWhenMember(ms[1..], m);
    }
  }

  lemma KnownWasPublished(p: Policy, b: Queues, m: Msg)
    requires Kept(p, b) && (m in b.email.unacked || m in b.push.unacked || m in b.acked)
    ensures IdentOf(m) in b.published
  {
    if m in b.email.unacked {
      CopiedWhenMember(b.email.unacked, m);
    } else if m in b.push.unacked {
      CopiedWhenMember(b.push.unacked, m);
    } else {
      CopiedWhenMember(b.acked, m);
    }
    assert CopiesAnywhere(b, IdentOf(m)) == multiset(b.published)[IdentOf(m)];
  }

  // What a step does to the parked queue: nothing, or a copy of m that shelves
  // it or strays.
  predicate Parks(p: Policy, b: Queues, b': Queues, m: Msg) {
    && b'.published == b.published
    && (|| (b'.parked == b.parked && b'.shelved == b.shelved && b'.strays == b.strays)
        || (b'.shelved == b.shelved + [m] && b'.strays == b.strays
            && b'.parked == if p.parkedDeclared then b.parked + [m.body] else b.parked)
        || (p.parkedDeclared && b'.parked == b.parked + [m.body]
            && b'.shelved == b.shelved && b'.strays == b.strays + [m]))
  }

  lemma ParksAccount(p: Policy, b: Queues, b': Queues, m: Msg)
    requires ParkedOk(p, b) && Parks(p, b, b', m) && IdentOf(m) in b.published
    ensures ParkedOk(p, b')
  {
    BodiesAppend(b.shelved, m);
    BodiesAppend(b.strays, m);
    assert multiset(b.parked + [m.body]) == multiset(b.parked) + multiset{m.body};
  }

  lemma SettleParks(p: Policy, b: Queues, c: Channel, err: bool, park: Park, now: Time)
    requires b.Of(c).unacked != []
    ensures Parks(p, b, Settle(p, b, c, err, park, now), Tried(b.Of(c).unacked[0]))
  {
  }

  lemma RequeueParks(p: Policy, b: Queues, c: Channel, how: Interruption)
    requires b.Of(c).unacked != []
    ensures Parks(p, b, Requeue(p, b, c, how), b.Of(c).unacked[0])
  {
  }

  lemma SettleKeepsLedger(p: Policy, b: Queues, c: Channel, err: bool, park: Park, now: Time)
    requires Kept(p, b) && b.Of(c).unacked != []
    ensures Kept(p, Settle(p, b, c, err, park, now))
  {
    var u := b.Of(c).unacked[0];
    SettleParks(p, b, c, err, park, now);
    KnownWasPublished(p, b, u);
    ParksAccount(p, b, Settle(p, b, c, err, park, now), Tried(u));
    forall x
      ensures CopiesAnywhere(Settle(p, b, c, err, park, now), x) == CopiesAnywhere(b, x)
    {
      SettleConserves(p, b, c, err, park, now, x);
    }
  }

  lemma SettleKeeps(p: Policy, b: Queues, c: Channel, err: bool, park: Park, now: Time)
    requires Inv(p, b, now) && b.Of(c).unacked != []
    ensures Inv(p, Settle(p, b, c, err, park, now), now)
  {
    SettleKeepsPlaces(p, b, c, err, park, now);
    SettleKeepsLedger(p, b, c, err, park, now);
  }

  lemma ExpireKeeps(p: Policy, b: Queues, now: Time)
    requires Inv(p, b, now) && b.retry != [] && b.retry[0].deadline <= now
    ensures Inv(p, Expire(b), now)
  {
    var w := b.retry[0];
    var m := w.msg.(headers := Die(w.msg.headers, RETRY_QUEUE, Expired));
    assert WaitingOk(p, w, now);
    DieCounts(w.msg.headers, RETRY_QUEUE, Expired);
    BoundKeys(EmailChannel, m.key);
    assert ReadyOk(p, w.from, m, now);
    ArriveKeepsPlaces(p, b.(retry := b.retry[1..]), m, now);
    ArriveOnce(b.(retry := b.retry[1..]), m, IdentOf(m));
    forall x
      ensures CopiesAnywhere(Expire(b), x) == CopiesAnywhere(b, x)
    {
      ExpireConserves(b, x);
    }
  }

  lemma RequeuedAreReady(p: Policy, b: Queues, c: Channel, how: Interruption, now: Time)
    requires Inv(p, b, now)
    ensures forall m :: m in Requeue(p, b, c, how).Of(c).ready ==> ReadyOk(p, c, m, now)
  {
    var q := b.Of(c);
    var back := Requeue(p, b, c, how).Of(c).ready;
    forall m | m in back
      ensures ReadyOk(p, c, m, now)
    {
      if m in q.ready {
      } else if m in q.unacked {
        assert UnackedOk(p, c, m, now);
      } else {
        assert UnackedOk(p, c, q.unacked[0], now);
        assert m == CutOff(q.unacked[0]);
      }
    }
  }

  lemma RequeueKeepsPlaces(p: Policy, b: Queues, c: Channel, how: Interruption, now: Time)
    requires Inv(p, b, now)
    ensures PlacesOk(p, Requeue(p, b, c, how), now)
  {
    RequeuedAreReady(p, b, c, how, now);
  }

  lemma RequeueKeepsLedger(p: Policy, b: Queues, c: Channel, how: Interruption)
    requires Kept(p, b)
    ensures Kept(p, Requeue(p, b, c, how))
  {
    if b.Of(c).unacked != [] {
      RequeueParks(p, b, c, how);
      KnownWasPublished(p, b, b.Of(c).unacked[0]);
      ParksAccount(p, b, Requeue(p, b, c, how), b.Of(c).unacked[0]);
    }
    forall x
      ensures CopiesAnywhere(Requeue(p, b, c, how), x) == CopiesAnywhere(b, x)
    {
      RequeueConserves(p, b, c, how, x);
    }
  }

  lemma RequeueKeeps(p: Policy, b: Queues, c: Channel, how: Interruption, now: Time)
    requires Inv(p, b, now)
    ensures Inv(p, Requeue(p, b, c, how), now)
    ensures Requeue(p, b, c, how).acked == b.acked
  {
    RequeueKeepsPlaces(p, b, c, how, now);
    RequeueKeepsLedger(p, b, c, how);
  }

  // ---- What the invariant says ----

  // A message is in exactly one place, with the key and body it was published
  // with: live in one queue, settled, or lost.
  lemma ExactlyOnePlace(p: Policy, b: Queues, now: Time, i: nat)
    requires Inv(p, b, now) && i < |b.published|
    ensures CopiesAnywhere(b, b.published[i]) == 1
  {
    var x := b.published[i];
    forall j | 0 <= j < |b.published| && b.published[j] == x
      ensures i == j
    {
      assert b.published[j].id == j;
    }
    OnceInSequence(b.published, i);
  }

  lemma {:induction false} OnceInSequence<T>(s: seq<T>, i: nat)
    requires i < |s| && forall j :: 0 <= j < |s| && s[j] == s[i] ==> j == i
    ensures multiset(s)[s[i]] == 1
  {
    assert s == s[..i] + [s[i]] + s[i + 1..];
    assert s[i] !in s[..i] && s[i] !in s[i + 1..];
    assert multiset(s) == multiset(s[..i]) + multiset{s[i]} + multiset(s[i + 1..]);
  }

  lemma {:induction false} AbsentMeansNoCopies(ms: seq<Msg>, x: Ident)
    requires forall m :: m in ms ==> IdentOf(m) != x
    ensures Copies(ms, x) == 0
  {
    if ms != [] {
      AbsentMeansNoCopies(ms[1..], x);
    }
  }

  // A message published under a declared key is never lost: it is live in
  // exactly one queue, or acknowledged, or shelved with a parked copy.
  lemma DeclaredIsNeverLost(p: Policy, b: Queues, now: Time, i: nat)
    requires Inv(p, b, now) && i < |b.published|
    requires var key := b.published[i].key;
             key in p.retryKeys && (Bound(EmailChannel, key) || Bound(PushChannel, key))
    ensures var x := b.published[i];
            CopiesLive(b, x) + Copies(b.acked, x) + Copies(b.shelved, x) == 1
  {
    var x := b.published[i];
    ExactlyOnePlace(p, b, now, i);
    forall m | m in b.lost
      ensures IdentOf(m) != x
    {
      assert LostOk(p, m);
    }
    AbsentMeansNoCopies(b.lost, x);
  }

  // The head of the retry queue never holds back an expired message: whatever
  // has expired stands behind expired messages only.
  lemma HeadExpiresFirst(p: Policy, b: Queues, now: Time, i: nat)
    requires Inv(p, b, now) && i < |b.retry| && b.retry[i].deadline <= now
    ensures forall j :: 0 <= j <= i ==> b.retry[j].deadline <= now
  {
  }

  // An expired message returns to the queue that rejected it and to no other.
  lemma ReturnsToItsQueue(p: Policy, b: Queues, now: Time)
    requires Inv(p, b, now) && b.retry != []
    ensures var w := b.retry[0];
            var back := w.msg.(headers := Die(w.msg.headers, RETRY_QUEUE, Expired));
            Expire(b) == b.(retry := b.retry[1..]).With(w.from, b.Of(w.from).(ready := b.Of(w.from).ready + [back]))
  {
    var w := b.retry[0];
    assert WaitingOk(p, w, now);
    var back := w.msg.(headers := Die(w.msg.headers, RETRY_QUEUE, Expired));
    ArriveOnce(b.(retry := b.retry[1..]), back, IdentOf(back));
  }

  // Every message that the broker still knows of.
  predicate Known(b: Queues, m: Msg) {
    || m in b.email.ready + b.email.unacked + b.push.ready + b.push.unacked
    || (exists w :: w in b.retry && w.msg == m)
    || m in b.acked + b.shelved + b.lost
  }

  // Handler invocations are bounded by the budget, plus one per failed park
  // and per crash, wherever the message has got to; a shelved message has used
  // the bound up exactly.
  lemma RetryBound(p: Policy, b: Queues, now: Time, m: Msg)
    requires Inv(p, b, now) && Known(b, m)
    ensures m.history.attempts <= p.Budget() + 1 + m.history.parkFailures + m.history.crashes
    ensures m in b.shelved ==>
      m.history.attempts == p.Budget() + 1 + m.history.parkFailures + m.history.crashes
  {
    if w :| w in b.retry && w.msg == m {
      assert WaitingOk(p, w, now);
    }
    assert m in b.email.ready ==> ReadyOk(p, EmailChannel, m, now);
    assert m in b.push.ready ==> ReadyOk(p, PushChannel, m, now);
    assert m in b.email.unacked ==> UnackedOk(p, EmailChannel, m, now);
    assert m in b.push.unacked ==> UnackedOk(p, PushChannel, m, now);
    assert m in b.acked ==> SettledOk(p, m);
    assert m in b.shelved ==> ShelvedOk(p, m);
    assert m in b.lost ==> LostOk(p, m);
  }

  // A message under a key that no queue is bound to is lost as it arrives, and
  // only there.
  lemma UnboundIsLost(p: Policy, b: Queues, now: Time, i: nat)
    requires Inv(p, b, now) && i < |b.published|
    requires !Bound(EmailChannel, b.published[i].key) && !Bound(PushChannel, b.published[i].key)
    ensures Copies(b.lost, b.published[i]) == 1
  {
    var x := b.published[i];
    ExactlyOnePlace(p, b, now, i);
    forall ms | ms in [b.email.ready, b.email.unacked, b.push.ready, b.push.unacked, b.acked, b.shelved]
      ensures Copies(ms, x) == 0
    {
      BoundMeansOther(p, b, now, x);
      AbsentMeansNoCopies(ms, x);
    }
    NotWaiting(p, b, now, x);
  }

  lemma BoundMeansOther(p: Policy, b: Queues, now: Time, x: Ident)
    requires PlacesOk(p, b, now) && !Bound(EmailChannel, x.key) && !Bound(PushChannel, x.key)
    ensures forall ms, m ::
              (ms in [b.email.ready, b.email.unacked, b.push.ready, b.push.unacked, b.acked, b.shelved] && m in ms) ==>
              IdentOf(m) != x
  {
    assert forall m :: m in b.email.ready ==> ReadyOk(p, EmailChannel, m, now);
    assert forall m :: m in b.push.ready ==> ReadyOk(p, PushChannel, m, now);
    assert forall m :: m in b.email.unacked ==> UnackedOk(p, EmailChannel, m, now);
    assert forall m :: m in b.push.unacked ==> UnackedOk(p, PushChannel, m, now);
    assert forall m :: m in b.acked ==> SettledOk(p, m);
    assert forall m :: m in b.shelved ==> ShelvedOk(p, m);
  }

  lemma NotWaiting(p: Policy, b: Queues, now: Time, x: Ident)
    requires PlacesOk(p, b, now) && !Bound(EmailChannel, x.key) && !Bound(PushChannel, x.key)
    ensures CopiesWaiting(b.retry, x) == 0
  {
    forall w | w in b.retry
      ensures IdentOf(w.msg) != x
    {
      assert WaitingOk(p, w, now);
    }
    AbsentMeansNoneWaiting(b.retry, x);
  }

  lemma {:induction false} AbsentMeansNoneWaiting(ws: seq<Waiting>, x: Ident)
    requires forall w :: w in ws ==> IdentOf(w.msg) != x
    ensures CopiesWaiting(ws, x) == 0
  {
    if ws != [] {
      AbsentMeansNoneWaiting(ws[1..], x);
    }
  }
}
