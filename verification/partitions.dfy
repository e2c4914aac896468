/** The two configuration checks made before any load starts, and the
    producer's round-robin choice of partition. */
module Partitions {
  import opened Common

  datatype TopicPartition = TopicPartition(topic: string, partition: int)

  datatype ConfigError =
    | NonPositiveTargetRate   // "Can't have targetMessagesPerSec <= 0."
    | NoActiveTopic           // "You must specify at least one active topic."

  /** The checks of the preparation step, in their order: the target rate
      first, then the set of active partitions. */
  function CheckConfig(targetMessagesPerSec: int, active: set<TopicPartition>): (r: Outcome<ConfigError>)
    ensures r == Pass <==> targetMessagesPerSec > 0 && active != {}
    ensures r == Fail(NonPositiveTargetRate) <==> targetMessagesPerSec <= 0
    ensures r == Fail(NoActiveTopic) <==> targetMessagesPerSec > 0 && active == {}
  {
    if targetMessagesPerSec <= 0 then Fail(NonPositiveTargetRate)
    else if active == {} then Fail(NoActiveTopic)
    else Pass
  }

  /** One step of the producer's partition iterator: restart it when it is
      exhausted, then take the next partition. `cursor` is the number of
      partitions the current iterator has already returned. */
  function NextPartition<T>(partitions: seq<T>, cursor: nat): (r: (T, nat))
    requires 0 < |partitions| && cursor <= |partitions|
    ensures 1 <= r.1 <= |partitions|
  {
    if cursor == |partitions| then (partitions[0], 1)
    else (partitions[cursor], cursor + 1)
  }

  /** The iterator position after `sends` messages, starting from a fresh iterator. */
  function CursorAfter<T>(partitions: seq<T>, sends: nat): (c: nat)
    requires 0 < |partitions|
    ensures c <= |partitions|
  {
    if sends == 0 then 0 else NextPartition(partitions, CursorAfter(partitions, sends - 1)).1
  }

  /** Round robin: the message sent `k`-th (from 0) goes to partition
      `k mod |partitions|`, and the iterator then sits just after it. */
  lemma {:induction false} RoundRobin<T>(partitions: seq<T>, k: nat)
    requires 0 < |partitions|
    ensures CursorAfter(partitions, k) == if k == 0 then 0 else (k - 1) % |partitions| + 1
    ensures NextPartition(partitions, CursorAfter(partitions, k)).0 == partitions[k % |partitions|]
  {
    var n := |partitions|;
    if k > 0 {
      RoundRobin(partitions, k - 1);
      if k > 1 {
        ModSuccessor(k - 2, n);
      }
    }
    if k > 0 {
      ModSuccessor(k - 1, n);
    } else {
      assert 0 % n == 0;
    }
  }

  lemma ModSuccessor(j: nat, n: nat)
    requires 0 < n
    ensures (j + 1) % n == if j % n == n - 1 then 0 else j % n + 1
  {
    var q, r := j / n, j % n;
    if r == n - 1 {
      ModUnique(j + 1, n, q + 1, 0);
    } else {
      ModUnique(j + 1, n, q, r + 1);
    }
  }

  lemma MultipleAtLeast(d: int, n: int)
    requires 1 <= d && 0 < n
    ensures d * n >= n
  {
  }

  /** Euclidean division leaves a unique remainder. */
  lemma ModUnique(a: int, n: int, q: int, r: int)
    requires 0 < n && 0 <= r < n && a == q * n + r
    ensures a % n == r
  {
    var q', r' := a / n, a % n;
    var d := q - q';
    assert d * n == r' - r;
    if d >= 1 {
      MultipleAtLeast(d, n);
      assert false;
    } else if d <= -1 {
      MultipleAtLeast(-d, n);
      assert false;
    }
  }
}
