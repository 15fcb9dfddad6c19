// The message broker and the consumer's settling of deliveries: main queues,
// deliveries in flight, the shared retry queue, the parked queue, and the
// ledger of what finally became of every published message.

module Broker {
  import opened Common
  import opened Routing
  import opened Deaths

  const RETRY_QUEUE := "gossip.retry.queue"

  function QueueName(c: Channel): string {
    if c.EmailChannel? then "gossip.emails.queue" else "gossip.notification.queue"
  }

  // What a message went through; only the specification reads it.
  datatype History = History(
    first: Option<Time>,   // first delivery to a consumer
    delivered: Time,       // latest delivery to a consumer
    rejections: nat,
    attempts: nat,         // handler invocations
    parkFailures: nat,     // park attempts that reported an error
    crashes: nat           // handler invocations that a crash cut off before settling
  )

  const UNTOUCHED := History(None, 0, 0, 0, 0, 0)

  datatype Msg = Msg(id: nat, key: RoutingKey, body: Body, headers: Header, history: History)

  // The part of a message that must never change.
  datatype Ident = Ident(id: nat, key: RoutingKey, body: Body)

  function IdentOf(m: Msg): Ident {
    Ident(m.id, m.key, m.body)
  }

  datatype Waiting = Waiting(msg: Msg, deadline: Time, from: Channel)

  datatype Queue = Queue(ready: seq<Msg>, unacked: seq<Msg>)

  // The consumer's limit and what DeclareRetryTopology managed to declare.
  datatype Policy = Policy(
    maxRetryAttempts: int, prefetch: nat, ttlMillis: nat, retryKeys: set<RoutingKey>, parkedDeclared: bool)
  {
    function Delay(): nat {
      ttlMillis * MILLISECOND
    }

    // Rejections a message can collect before a failed attempt parks it.
    function Budget(): nat {
      if maxRetryAttempts < 0 then 0 else maxRetryAttempts
    }
  }

  // The queues, and what became of the published messages: acknowledged,
  // shelved, which is acknowledged after parking, or lost. Strays are those that
  // left a copy in the parked queue without being shelved by it.
  datatype Queues = Queues(
    email: Queue, push: Queue, retry: seq<Waiting>, parked: seq<Body>,
    published: seq<Ident>, acked: seq<Msg>, shelved: seq<Msg>, lost: seq<Msg>, strays: seq<Msg>)
  {
    function Of(c: Channel): Queue {
      if c.EmailChannel? then email else push
    }

    function With(c: Channel, q: Queue): Queues {
      if c.EmailChannel? then this.(email := q) else this.(push := q)
    }
  }

  const EMPTY := Queues(Queue([], []), Queue([], []), [], [], [], [], [], [], [])

  // What PublishRaw to the parked queue did and reported.
  datatype Park = Enqueued | NotEnqueued | EnqueuedButError

  // ---- Steps of the broker and of the settling consumer ----

  // The topic exchange: a copy to every queue whose binding matches.
  function Arrive(b: Queues, m: Msg): Queues {
    var b1 := if Bound(EmailChannel, m.key) then b.(email := b.email.(ready := b.email.ready + [m])) else b;
    var b2 := if Bound(PushChannel, m.key) then b1.(push := b1.push.(ready := b1.push.ready + [m])) else b1;
    if Bound(EmailChannel, m.key) || Bound(PushChannel, m.key) then b2 else b2.(lost := b2.lost + [m])
  }

  function Publish(b: Queues, key: RoutingKey, body: Body): Queues {
    var m := Msg(|b.published|, key, body, Absent, UNTOUCHED);
    Arrive(b.(published := b.published + [IdentOf(m)]), m)
  }

  function Taken(m: Msg, now: Time): Msg {
    var first := if m.history.first.Some? then m.history.first else Some(now);
    m.(history := m.history.(first := first, delivered := now))
  }

  function Deliver(b: Queues, c: Channel, now: Time): Queues
    requires b.Of(c).ready != []
  {
    var q := b.Of(c);
    b.With(c, Queue(q.ready[1..], q.unacked + [Taken(q.ready[0], now)]))
  }

  function Tried(m: Msg): Msg {
    m.(history := m.history.(attempts := m.history.attempts + 1))
  }

  function Pop(b: Queues, c: Channel): Queues
    requires b.Of(c).unacked != []
  {
    b.With(c, b.Of(c).(unacked := b.Of(c).unacked[1..]))
  }

  // The retry exchange is direct, and drops what it has no queue for.
  function Reject(p: Policy, b: Queues, c: Channel, m: Msg, now: Time): Queues {
    if Routed(p.retryKeys, m.key) then
      var dead := m.(headers := Die(m.headers, QueueName(c), Rejected),
                     history := m.history.(rejections := m.history.rejections + 1));
      b.(retry := b.retry + [Waiting(dead, now + p.Delay(), c)])
    else
      b.(lost := b.lost + [m])
  }

  function Copy(p: Policy, b: Queues, body: Body): Queues {
    if p.parkedDeclared then b.(parked := b.parked + [body]) else b
  }

  // A copy of a message that will be handled again all the same.
  function Stray(p: Policy, b: Queues, m: Msg): Queues {
    if p.parkedDeclared then b.(parked := b.parked + [m.body], strays := b.strays + [m]) else b
  }

  function ParkFailed(m: Msg): Msg {
    m.(history := m.history.(parkFailures := m.history.parkFailures + 1))
  }

  // The handler has returned for the oldest unsettled delivery of channel c.
  function Settle(p: Policy, b: Queues, c: Channel, err: bool, park: Park, now: Time): Queues
    requires b.Of(c).unacked != []
  {
    var m := Tried(b.Of(c).unacked[0]);
    var rest := Pop(b, c);
    if !err then
      rest.(acked := rest.acked + [m])
    else if Rejections(m.headers) >= p.maxRetryAttempts then
      match park
      case Enqueued => Copy(p, rest, m.body).(shelved := rest.shelved + [m])
      case NotEnqueued => Reject(p, rest, c, ParkFailed(m), now)
      case EnqueuedButError => Reject(p, Stray(p, rest, m), c, ParkFailed(m), now)
    else
      Reject(p, rest, c, m, now)
  }

  function Expire(b: Queues): Queues
    requires b.retry != []
  {
    var m := b.retry[0].msg;
    Arrive(b.(retry := b.retry[1..]), m.(headers := Die(m.headers, RETRY_QUEUE, Expired)))
  }

  // How far the handler and the parking of the oldest delivery got before the
  // process died.
  datatype Interruption = NotRunning | Running | RunningAndParked

  function CutOff(m: Msg): Msg {
    m.(history := m.history.(attempts := m.history.attempts + 1, crashes := m.history.crashes + 1))
  }

  // The connection is gone: deliveries return to the head of their queue with
  // their headers untouched.
  function Requeue(p: Policy, b: Queues, c: Channel, how: Interruption): Queues {
    var q := b.Of(c);
    if how.NotRunning? || q.unacked == [] then
      b.With(c, Queue(q.unacked + q.ready, []))
    else
      var b' := b.With(c, Queue([CutOff(q.unacked[0])] + q.unacked[1..] + q.ready, []));
      if how.RunningAndParked? then Stray(p, b', q.unacked[0]) else b'
  }

  // ---- Conservation: every published message is in exactly one place ----

  // How often a message occurs in a sequence.
  function Copies(ms: seq<Msg>, x: Ident): nat {
    if ms == [] then 0 else (if IdentOf(ms[0]) == x then 1 else 0) + Copies(ms[1..], x)
  }

  function CopiesWaiting(ws: seq<Waiting>, x: Ident): nat {
    if ws == [] then 0 else (if IdentOf(ws[0].msg) == x then 1 else 0) + CopiesWaiting(ws[1..], x)
  }

  function CopiesQueued(q: Queue, x: Ident): nat {
    Copies(q.ready, x) + Copies(q.unacked, x)
  }

  function CopiesLive(b: Queues, x: Ident): nat {
    CopiesQueued(b.email, x) + CopiesQueued(b.push, x) + CopiesWaiting(b.retry, x)
  }

  function CopiesAnywhere(b: Queues, x: Ident): nat {
    CopiesLive(b, x) + Copies(b.acked, x) + Copies(b.shelved, x) + Copies(b.lost, x)
  }

  function Is(m: Msg, x: Ident): nat {
    if IdentOf(m) == x then 1 else 0
  }

  lemma {:induction false} CopiesConcat(a: seq<Msg>, b: seq<Msg>, x: Ident)
    ensures Copies(a + b, x) == Copies(a, x) + Copies(b, x)
  {
    if a == [] {
      assert a + b == b;
    } else {
      assert (a + b)[1..] == a[1..] + b;
      CopiesConcat(a[1..], b, x);
    }
  }

  lemma CopiesAppend(a: seq<Msg>, m: Msg, x: Ident)
    ensures Copies(a + [m], x) == Copies(a, x) + Is(m, x)
  {
    CopiesConcat(a, [m], x);
  }

  lemma {:induction false} CopiesWaitingAppend(a: seq<Waiting>, w: Waiting, x: Ident)
    ensures CopiesWaiting(a + [w], x) == CopiesWaiting(a, x) + Is(w.msg, x)
  {
    if a == [] {
      assert a + [w] == [w];
    } else {
      assert (a + [w])[1..] == a[1..] + [w];
      CopiesWaitingAppend(a[1..], w, x);
    }
  }

  // Return routing: the topic exchange hands a message to at most one queue,
  // the one whose binding it matches.
  lemma ArriveOnce(b: Queues, m: Msg, x: Ident)
    ensures CopiesAnywhere(Arrive(b, m), x) == CopiesAnywhere(b, x) + Is(m, x)
    ensures forall c :: Bound(c, m.key) ==>
      Arrive(b, m) == b.With(c, b.Of(c).(ready := b.Of(c).ready + [m]))
  {
    BoundKeys(EmailChannel, m.key);
    CopiesAppend(b.email.ready, m, x);
    CopiesAppend(b.push.ready, m, x);
    CopiesAppend(b.lost, m, x);
  }

  lemma PublishConserves(b: Queues, key: RoutingKey, body: Body, x: Ident)
    ensures var m := Ident(|b.published|, key, body);
            && CopiesAnywhere(Publish(b, key, body), x) == CopiesAnywhere(b, x) + (if m == x then 1 else 0)
            && Publish(b, key, body).published == b.published + [m]
  {
    var m := Msg(|b.published|, key, body, Absent, UNTOUCHED);
    ArriveOnce(b.(published := b.published + [IdentOf(m)]), m, x);
  }

  lemma DeliverConserves(b: Queues, c: Channel, now: Time, x: Ident)
    requires b.Of(c).ready != []
    ensures CopiesAnywhere(Deliver(b, c, now), x) == CopiesAnywhere(b, x)
  {
    CopiesAppend(b.Of(c).unacked, Taken(b.Of(c).ready[0], now), x);
  }

  lemma RejectConserves(p: Policy, b: Queues, c: Channel, m: Msg, now: Time, x: Ident)
    ensures CopiesAnywhere(Reject(p, b, c, m, now), x) == CopiesAnywhere(b, x) + Is(m, x)
  {
    if m.key in p.retryKeys {
      CopiesWaitingAppend(b.retry, Reject(p, b, c, m, now).retry[|b.retry|], x);
    } else {
      CopiesAppend(b.lost, m, x);
    }
  }

  lemma PopConserves(b: Queues, c: Channel, x: Ident)
    requires b.Of(c).unacked != []
    ensures CopiesAnywhere(b, x) == CopiesAnywhere(Pop(b, c), x) + Is(b.Of(c).unacked[0], x)
  {
  }

  lemma FinishConserves(b: Queues, m: Msg, x: Ident)
    ensures CopiesAnywhere(b.(acked := b.acked + [m]), x) == CopiesAnywhere(b, x) + Is(m, x)
    ensures CopiesAnywhere(b.(shelved := b.shelved + [m]), x) == CopiesAnywhere(b, x) + Is(m, x)
  {
    CopiesAppend(b.acked, m, x);
    CopiesAppend(b.shelved, m, x);
  }

  lemma SettleConserves(p: Policy, b: Queues, c: Channel, err: bool, park: Park, now: Time, x: Ident)
    requires b.Of(c).unacked != []
    ensures CopiesAnywhere(Settle(p, b, c, err, park, now), x) == CopiesAnywhere(b, x)
  {
    var m := Tried(b.Of(c).unacked[0]);
    var rest := Pop(b, c);
    PopConserves(b, c, x);
    if !err {
      FinishConserves(rest, m, x);
    } else if Rejections(m.headers) < p.maxRetryAttempts {
      RejectConserves(p, rest, c, m, now, x);
    } else {
      match park
      case Enqueued => FinishConserves(Copy(p, rest, m.body), m, x);
      case NotEnqueued => RejectConserves(p, rest, c, ParkFailed(m), now, x);
      case EnqueuedButError => RejectConserves(p, Stray(p, rest, m), c, ParkFailed(m), now, x);
    }
  }

  lemma ExpireConserves(b: Queues, x: Ident)
    requires b.retry != []
    ensures CopiesAnywhere(Expire(b), x) == CopiesAnywhere(b, x)
  {
    var m := b.retry[0].msg;
    ArriveOnce(b.(retry := b.retry[1..]), m.(headers := Die(m.headers, RETRY_QUEUE, Expired)), x);
  }

  lemma RequeueConserves(p: Policy, b: Queues, c: Channel, how: Interruption, x: Ident)
    ensures CopiesAnywhere(Requeue(p, b, c, how), x) == CopiesAnywhere(b, x)
  {
    var q := b.Of(c);
    CopiesConcat(q.unacked, q.ready, x);
    if !how.NotRunning? && q.unacked != [] {
      var m := CutOff(q.unacked[0]);
      assert [m] + q.unacked[1..] + q.ready == [m] + (q.unacked[1..] + q.ready);
      CopiesConcat([m], q.unacked[1..] + q.ready, x);
      CopiesConcat(q.unacked[1..], q.ready, x);
    }
  }

  // ---- First in, first out ----

  // A message without what happened to it on the way.
  function Bare(m: Msg): Msg {
    m.(history := UNTOUCHED)
  }

  function Bares(ms: seq<Msg>): seq<Msg> {
    seq(|ms|, i requires 0 <= i < |ms| => Bare(ms[i]))
  }

  // The unsettled messages of a queue, oldest first.
  function Line(q: Queue): seq<Msg> {
    Bares(q.unacked + q.ready)
  }

  lemma BaresConcat(a: seq<Msg>, b: seq<Msg>)
    ensures Bares(a + b) == Bares(a) + Bares(b)
  {
  }

  // A delivery keeps the line as it is.
  lemma DeliverKeepsLine(b: Queues, c: Channel, now: Time)
    requires b.Of(c).ready != []
    ensures Line(Deliver(b, c, now).Of(c)) == Line(b.Of(c))
  {
    var q := b.Of(c);
    var m := Taken(q.ready[0], now);
    assert Bares([m]) == Bares([q.ready[0]]) && q.ready == [q.ready[0]] + q.ready[1..];
    BaresConcat(q.unacked + [m], q.ready[1..]);
    BaresConcat(q.unacked, [m]);
    BaresConcat(q.unacked, q.ready);
    BaresConcat([q.ready[0]], q.ready[1..]);
  }

  // So does a crash, which leaves nothing delivered.
  lemma RequeueKeepsLine(p: Policy, b: Queues, c: Channel, how: Interruption)
    ensures Line(Requeue(p, b, c, how).Of(c)) == Line(b.Of(c)) && Requeue(p, b, c, how).Of(c).unacked == []
  {
    var q := b.Of(c);
    if !how.NotRunning? && q.unacked != [] {
      var m := CutOff(q.unacked[0]);
      assert Bares([m]) == Bares([q.unacked[0]]) && q.unacked == [q.unacked[0]] + q.unacked[1..];
      BaresConcat([m] + q.unacked[1..], q.ready);
      BaresConcat([m], q.unacked[1..]);
      BaresConcat([q.unacked[0]], q.unacked[1..]);
      BaresConcat(q.unacked, q.ready);
    }
    assert Requeue(p, b, c, how).Of(c).unacked + Requeue(p, b, c, how).Of(c).ready
           == Requeue(p, b, c, how).Of(c).ready;
  }

  // What arrives in a queue goes to the end of its line.
  lemma ArriveEndsLine(b: Queues, c: Channel, m: Msg)
    requires Bound(c, m.key)
    ensures Line(Arrive(b, m).Of(c)) == Line(b.Of(c)) + [Bare(m)]
  {
    var q := b.Of(c);
    ArriveOnce(b, m, IdentOf(m));
    assert q.unacked + (q.ready + [m]) == (q.unacked + q.ready) + [m];
    BaresConcat(q.unacked + q.ready, [m]);
  }
}
