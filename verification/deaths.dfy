// The x-death header: how the broker maintains it and how the consumer reads
// the number of rejections back out of it.

module Deaths {
  import opened Common

  datatype Reason = Rejected | Expired | OtherReason(name: string) | NotAString

  datatype Count = Int64(n: int) | Int32(m: int) | NotACount

  // One element of the x-death array as the consumer sees it.
  datatype Entry = NotATable | Table(queue: string, reason: Reason, count: Count)

  // The header as the consumer sees it.
  datatype Header = Absent | NotAnArray | Array(entries: seq<Entry>)

  // What one entry adds to the number of rejections.
  function Weight(e: Entry): int {
    match e
    case Table(_, Rejected, Int64(n)) => n
    case Table(_, Rejected, Int32(m)) => m
    case _ => 0
  }

  function Sum(entries: seq<Entry>): int {
    if entries == [] then 0 else Weight(entries[0]) + Sum(entries[1..])
  }

  function Rejections(h: Header): int {
    if h.Array? then Sum(h.entries) else 0
  }

  // The consumer's loop over the header.
  method DeathCount(h: Header) returns (total: int)
    ensures total == Rejections(h)
  {
    if !h.Array? {
      return 0;
    }
    total := 0;
    var deaths := h.entries;
    for i := 0 to |deaths|
      invariant total == Sum(deaths[..i])
    {
      SumConcat(deaths[..i], [deaths[i]]);
      assert deaths[..i + 1] == deaths[..i] + [deaths[i]];
      if deaths[i].NotATable? || !deaths[i].reason.Rejected? {
        continue;
      }
      match deaths[i].count {
        case Int64(n) => total := total + n;
        case Int32(m) => total := total + m;
        case NotACount =>
      }
    }
    assert deaths[..|deaths|] == deaths;
  }

  lemma {:induction false} SumConcat(a: seq<Entry>, b: seq<Entry>)
    ensures Sum(a + b) == Sum(a) + Sum(b)
  {
    if a == [] {
      assert a + b == b;
    } else {
      assert (a + b)[1..] == a[1..] + b;
      SumConcat(a[1..], b);
    }
  }

  function Without(b: seq<Entry>, k: nat): seq<Entry>
    requires k < |b|
  {
    b[..k] + b[k + 1..]
  }

  lemma SumWithout(b: seq<Entry>, k: nat)
    requires k < |b|
    ensures Sum(b) == Weight(b[k]) + Sum(Without(b, k))
  {
    var front, back := b[..k], b[k + 1..];
    assert b[k..] == [b[k]] + back && b == front + b[k..];
    SumConcat(front, b[k..]);
    SumConcat(front, back);
  }

  lemma MultisetWithout(b: seq<Entry>, k: nat)
    requires k < |b|
    ensures multiset(b) == multiset(Without(b, k)) + multiset{b[k]}
  {
    assert b == b[..k] + ([b[k]] + b[k + 1..]);
  }

  // The order in which the broker lists the deaths does not matter.
  lemma {:induction false} OrderIsIrrelevant(a: seq<Entry>, b: seq<Entry>)
    requires multiset(a) == multiset(b)
    ensures Rejections(Array(a)) == Rejections(Array(b))
  {
    if a == [] {
      assert |b| == |multiset(b)|;
    } else {
      assert a[0] in multiset(b);
      var k :| 0 <= k < |b| && b[k] == a[0];
      SumWithout(a, 0);
      SumWithout(b, k);
      MultisetWithout(a, 0);
      MultisetWithout(b, k);
      assert multiset(Without(a, 0)) == multiset(a) - multiset{a[0]} == multiset(Without(b, k));
      OrderIsIrrelevant(Without(a, 0), Without(b, k));
    }
  }

  // Entries for another reason, entries that are not tables and counts of
  // another type contribute nothing, wherever they stand.
  lemma OtherEntriesAreIgnored(a: seq<Entry>, e: Entry, b: seq<Entry>)
    requires e.NotATable? || !e.reason.Rejected? || e.count.NotACount?
    ensures Rejections(Array(a + [e] + b)) == Rejections(Array(a + b))
  {
    SumConcat(a + [e], b);
    SumConcat(a, [e]);
    SumConcat(a, b);
  }

  // A count of either width under "rejected" contributes itself, wherever it
  // stands.
  lemma RejectedEntriesCount(a: seq<Entry>, queue: string, n: int, b: seq<Entry>)
    ensures Rejections(Array(a + [Table(queue, Rejected, Int64(n))] + b)) == Rejections(Array(a + b)) + n
    ensures Rejections(Array(a + [Table(queue, Rejected, Int32(n))] + b)) == Rejections(Array(a + b)) + n
  {
    SumConcat(a, b);
    SumConcat(a + [Table(queue, Rejected, Int64(n))], b);
    SumConcat(a, [Table(queue, Rejected, Int64(n))]);
    SumConcat(a + [Table(queue, Rejected, Int32(n))], b);
    SumConcat(a, [Table(queue, Rejected, Int32(n))]);
  }

  // A header that is missing, malformed or empty counts as no rejection.
  lemma NoHeaderNoRejections()
    ensures Rejections(Absent) == Rejections(NotAnArray) == Rejections(Array([])) == 0
  {
  }

  // ---- The broker's side ----

  function Find(entries: seq<Entry>, queue: string, reason: Reason): (i: nat)
    ensures i <= |entries|
    ensures i < |entries| ==>
      entries[i].Table? && entries[i].queue == queue && entries[i].reason == reason
    ensures i == |entries| ==>
      forall e :: e in entries ==> !(e.Table? && e.queue == queue && e.reason == reason)
  {
    if entries == [] then 0
    else if entries[0].Table? && entries[0].queue == queue && entries[0].reason == reason then 0
    else 1 + Find(entries[1..], queue, reason)
  }

  function Incremented(c: Count): Count {
    match c
    case Int64(n) => Int64(n + 1)
    case Int32(m) => Int64(m + 1)
    case NotACount => Int64(1)
  }

  // A death bumps the entry of its queue and reason and moves it to the front,
  // or puts a new entry there.
  function Die(h: Header, queue: string, reason: Reason): Header {
    var entries := if h.Array? then h.entries else [];
    var i := Find(entries, queue, reason);
    if i < |entries| then
      Array([Table(queue, reason, Incremented(entries[i].count))] + Without(entries, i))
    else
      Array([Table(queue, reason, Int64(1))] + entries)
  }

  // Headers that only the broker wrote.
  predicate WellFormed(h: Header) {
    h.Absent? || (h.Array? && forall e <- h.entries :: e.Table? && e.count.Int64?)
  }

  lemma DieCounts(h: Header, queue: string, reason: Reason)
    requires WellFormed(h)
    ensures WellFormed(Die(h, queue, reason))
    ensures Rejections(Die(h, queue, reason)) == Rejections(h) + if reason.Rejected? then 1 else 0
  {
    var entries := if h.Array? then h.entries else [];
    var i := Find(entries, queue, reason);
    var after := Die(h, queue, reason).entries;
    if i < |entries| {
      SumWithout(entries, i);
      assert after[1..] == Without(entries, i);
    } else {
      assert after == [Table(queue, reason, Int64(1))] + entries;
      assert after[1..] == entries;
      assert Sum(entries) == Rejections(h);
    }
  }

  // It names the latest death first, with its count one higher, and leaves the
  // other entries as they are.
  lemma LatestDeathIsFirst(h: Header, queue: string, reason: Reason)
    requires WellFormed(h)
    ensures var before, after := if h.Array? then h.entries else [], Die(h, queue, reason).entries;
            && after != [] && after[0].Table? && after[0].queue == queue && after[0].reason == reason
            && ((&& after[0].count == Int64(1) && after[1..] == before
                 && forall e :: e in before ==> !(e.queue == queue && e.reason == reason))
                || exists k ::
                     && 0 <= k < |before| && before[k].queue == queue && before[k].reason == reason
                     && after[0].count == Int64(before[k].count.n + 1) && after[1..] == Without(before, k))
  {
    var entries := if h.Array? then h.entries else [];
    var i := Find(entries, queue, reason);
    var after := Die(h, queue, reason).entries;
    assert i < |entries| ==> after[1..] == Without(entries, i);
    assert i >= |entries| ==> after[1..] == entries;
  }

  // What happened to one message: rejections by a consumer, expiries in the
  // retry queue, and redeliveries after a crash, which leave no trace.
  datatype Event = RejectedFrom(queue: string) | ExpiredFrom(queue: string) | Redelivered

  function HeaderAfter(history: seq<Event>): Header {
    if history == [] then Absent
    else
      var before := HeaderAfter(history[..|history| - 1]);
      match history[|history| - 1]
      case RejectedFrom(queue) => Die(before, queue, Rejected)
      case ExpiredFrom(queue) => Die(before, queue, Expired)
      case Redelivered => before
  }

  function TrueRejections(history: seq<Event>): nat {
    if history == [] then 0
    else
      TrueRejections(history[..|history| - 1]) +
      if history[|history| - 1].RejectedFrom? then 1 else 0
  }

  lemma {:induction false} DeathCountAgreesWithHistory(history: seq<Event>)
    ensures WellFormed(HeaderAfter(history))
    ensures Rejections(HeaderAfter(history)) == TrueRejections(history)
  {
    if history != [] {
      var front := history[..|history| - 1];
      DeathCountAgreesWithHistory(front);
      match history[|history| - 1]
      case RejectedFrom(queue) => DieCounts(HeaderAfter(front), queue, Rejected);
      case ExpiredFrom(queue) => DieCounts(HeaderAfter(front), queue, Expired);
      case Redelivered =>
    }
  }
}
