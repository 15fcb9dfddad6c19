// Reading a log, oldest entry first: what its entries harvest, and how many of
// them there are of a kind.

module Logs {
  function Collect<T, U>(log: seq<T>, harvest: T -> seq<U>): seq<U> {
    if log == [] then [] else Collect(log[..|log| - 1], harvest) + harvest(log[|log| - 1])
  }

  function Count<T>(log: seq<T>, kind: T -> bool): nat {
    if log == [] then 0 else Count(log[..|log| - 1], kind) + if kind(log[|log| - 1]) then 1 else 0
  }

  lemma CollectAppend<T, U>(log: seq<T>, t: T, harvest: T -> seq<U>)
    ensures Collect(log + [t], harvest) == Collect(log, harvest) + harvest(t)
  {
    assert (log + [t])[..|log|] == log;
  }

  lemma CountAppend<T>(log: seq<T>, t: T, kind: T -> bool)
    ensures Count(log + [t], kind) == Count(log, kind) + if kind(t) then 1 else 0
  {
    assert (log + [t])[..|log|] == log;
  }

  lemma {:induction false} CountNone<T>(log: seq<T>, kind: T -> bool)
    ensures Count(log, kind) == 0 <==> forall i :: 0 <= i < |log| ==> !kind(log[i])
  {
    if log != [] {
      CountNone(log[..|log| - 1], kind);
      assert forall i :: 0 <= i < |log| - 1 ==> log[i] == log[..|log| - 1][i];
    }
  }

  lemma {:induction false} CollectMember<T, U>(log: seq<T>, harvest: T -> seq<U>, u: U)
    ensures u in Collect(log, harvest) <==> exists t :: t in log && u in harvest(t)
  {
    if log != [] {
      var front, last := log[..|log| - 1], log[|log| - 1];
      CollectMember(front, harvest, u);
      assert log == front + [last];
    }
  }

  lemma CollectNone<T, U>(log: seq<T>, harvest: T -> seq<U>)
    requires forall i :: 0 <= i < |log| ==> harvest(log[i]) == []
    ensures Collect(log, harvest) == []
  {
    if log != [] {
      assert forall i :: 0 <= i < |log| - 1 ==> log[..|log| - 1][i] == log[i];
      CollectNone(log[..|log| - 1], harvest);
    }
  }

  lemma CountLast<T>(log: seq<T>, kind: T -> bool)
    requires forall i :: 0 <= i < |log| - 1 ==> !kind(log[i])
    ensures Count(log, kind) == if log != [] && kind(log[|log| - 1]) then 1 else 0
  {
    if log != [] {
      assert forall i :: 0 <= i < |log| - 1 ==> log[..|log| - 1][i] == log[i];
      CountNone(log[..|log| - 1], kind);
    }
  }

  lemma {:induction false} CountConcat<T>(a: seq<T>, b: seq<T>, kind: T -> bool)
    ensures Count(a + b, kind) == Count(a, kind) + Count(b, kind)
  {
    if b == [] {
      assert a + b == a;
    } else {
      var front, last := b[..|b| - 1], b[|b| - 1];
      assert a + b == (a + front) + [last];
      CountAppend(a + front, last, kind);
      CountConcat(a, front, kind);
    }
  }

  function Once(b: bool): nat {
    if b then 1 else 0
  }

  // When every entry of kind `all` either yields one thing of kind `good` or is
  // of kind `rest`, so it is for the whole log.
  lemma {:induction false} CountSplits<T, U>(
    log: seq<T>, all: T -> bool, rest: T -> bool, harvest: T -> seq<U>, good: U -> bool)
    requires forall t :: t in log ==> Once(all(t)) == Count(harvest(t), good) + Once(rest(t))
    ensures Count(log, all) == Count(Collect(log, harvest), good) + Count(log, rest)
  {
    if log != [] {
      var front, last := log[..|log| - 1], log[|log| - 1];
      CountSplits(front, all, rest, harvest, good);
      CountConcat(Collect(front, harvest), harvest(last), good);
    }
  }

  // Of logs that only grow each is the beginning of every later one.
  lemma {:induction false} PrefixAlong<T>(logs: seq<seq<T>>, i: nat, j: nat)
    requires i <= j < |logs|
    requires forall k :: i <= k < j ==> logs[k] <= logs[k + 1]
    ensures logs[i] <= logs[j]
  {
    if i < j {
      PrefixAlong(logs, i, j - 1);
      assert logs[j - 1] <= logs[j - 1 + 1];
    }
  }
}
