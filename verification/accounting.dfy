/** The bookkeeping of one run as a single state: the send tracker, the stage
    of every index handed out, the receive tracker and the unacknowledged-send
    counter. Every update of the run is atomic (a synchronized tracker method,
    or a block under the shared lock), so a run is any sequence of the steps
    below. */
module Accounting {
  import opened Common
  import opened SendTracking

  /** Where an index handed out by the send tracker is: back in the retry
      queue, in flight (its send callback has not run yet), or acknowledged. */
  datatype Stage = Queued | InFlight | Acked

  datatype Ledger = Ledger(
    maxMessages: int,
    stages: seq<Stage>,   // the stage of each index below the send tracker's frontier
    failed: seq<int>,     // the send tracker's retry queue, oldest first
    pending: set<int>,    // the receive tracker's pending indices
    totalReceived: int,   // the receive tracker's count of first receipts
    unackedSends: int)    // starts at maxMessages, one less per acknowledgement

  /** The number of acknowledged indices. */
  function AckedCount(s: seq<Stage>): (n: nat)
    ensures n <= |s|
  {
    if s == [] then 0 else AckedCount(s[..|s| - 1]) + (if s[|s| - 1] == Acked then 1 else 0)
  }

  ghost predicate AllAcked(s: seq<Stage>)
  {
    forall i :: 0 <= i < |s| ==> s[i] == Acked
  }

  /** `s` with index `i` moved to stage `v`; an index outside `s` changes nothing. */
  function Mark(s: seq<Stage>, i: int, v: Stage): (r: seq<Stage>)
    ensures |r| == |s|
  {
    if 0 <= i < |s| then s[i := v] else s
  }

  predicate IsInFlight(a: Ledger, i: int)
  {
    0 <= i < |a.stages| && a.stages[i] == InFlight
  }

  /** The retry queue holds exactly the queued indices, each once; the
      counter is the number of indices not yet acknowledged; and every index
      handed out is either still pending or counted as received. */
  ghost predicate Inv(a: Ledger)
  {
    && |a.stages| <= Max0(a.maxMessages)
    && NoDuplicates(a.failed)
    && (forall k :: 0 <= k < |a.failed| ==> 0 <= a.failed[k] < |a.stages| && a.stages[a.failed[k]] == Queued)
    && (forall i :: 0 <= i < |a.stages| && a.stages[i] == Queued ==> i in a.failed)
    && a.unackedSends == a.maxMessages - AckedCount(a.stages)
    && (forall x :: x in a.pending ==> 0 <= x < |a.stages|)
    && a.totalReceived + |a.pending| == |a.stages|
  }

  /** The state when the run starts: the counter is set to `maxMessages`. */
  function Initial(maxMessages: int): (a: Ledger)
    ensures Inv(a)
  {
    Ledger(maxMessages, [], [], {}, 0, maxMessages)
  }

  /** One producer iteration: draw from the send tracker, register a first
      send as pending, issue the send. */
  function Produce(a: Ledger): (Option<Ticket>, Ledger)
  {
    var (t, s) := NextDraw(a.maxMessages, SendState(|a.stages|, a.failed));
    match t
    case None => (None, a)
    case Some(tk) =>
      if tk.firstSend then
        (t, a.(stages := a.stages + [InFlight], failed := s.failed, pending := a.pending + {tk.index}))
      else
        (t, a.(stages := Mark(a.stages, tk.index, InFlight), failed := s.failed))
  }

  /** The send callback for `index`: on success the counter goes down by one;
      on failure the index goes back to the retry queue. */
  function Acknowledge(a: Ledger, index: int, success: bool): Ledger
  {
    if success then
      a.(stages := Mark(a.stages, index, Acked), unackedSends := a.unackedSends - 1)
    else
      a.(stages := Mark(a.stages, index, Queued), failed := a.failed + [index])
  }

  /** The consumer sees a record with `index`: the receive tracker's
      `removePending`, and whether it counted. */
  function Deliver(a: Ledger, index: int): (bool, Ledger)
  {
    var counted := index in a.pending;
    (counted, a.(pending := a.pending - {index},
                 totalReceived := a.totalReceived + if counted then 1 else 0))
  }

  // ----- Counting acknowledgements -------------------------------------------

  lemma AckedCountAppend(s: seq<Stage>, v: Stage)
    ensures AckedCount(s + [v]) == AckedCount(s) + (if v == Acked then 1 else 0)
  {
    assert (s + [v])[..|s|] == s;
  }

  /** Moving one index to another stage changes the count by at most one. */
  lemma {:induction false} AckedCountMark(s: seq<Stage>, i: int, v: Stage)
    requires 0 <= i < |s|
    ensures AckedCount(s[i := v])
         == AckedCount(s) - (if s[i] == Acked then 1 else 0) + (if v == Acked then 1 else 0)
    decreases |s|
  {
    var n := |s| - 1;
    if i == n {
      assert s[i := v][..n] == s[..n];
    } else {
      AckedCountMark(s[..n], i, v);
      assert s[i := v][..n] == s[..n][i := v];
    }
  }

  /** Every index is acknowledged exactly when the count reaches the length. */
  lemma {:induction false} AckedCountFull(s: seq<Stage>)
    ensures AckedCount(s) == |s| <==> AllAcked(s)
    decreases |s|
  {
    if s != [] {
      var n := |s| - 1;
      AckedCountFull(s[..n]);
      if AllAcked(s) {
        assert forall i :: 0 <= i < n ==> s[..n][i] == s[i];
      }
    }
  }

  // ----- Each step keeps the invariant ---------------------------------------

  lemma ProduceKeepsInv(a: Ledger)
    requires Inv(a)
    ensures Inv(Produce(a).1)
  {
    if a.failed == [] {
      if |a.stages| < a.maxMessages {
        FirstSendKeepsInv(a);
      }
    } else {
      RetryKeepsInv(a);
    }
  }

  lemma FirstSendKeepsInv(a: Ledger)
    requires Inv(a) && a.failed == [] && |a.stages| < a.maxMessages
    ensures var f := |a.stages|;
      Produce(a).1 == a.(stages := a.stages + [InFlight], pending := a.pending + {f})
    ensures Inv(Produce(a).1)
  {
    var f := |a.stages|;
    var a' := a.(stages := a.stages + [InFlight], pending := a.pending + {f});
    AckedCountAppend(a.stages, InFlight);
    forall i | 0 <= i < |a'.stages| && a'.stages[i] == Queued ensures i in a'.failed {
      assert a.stages[i] == Queued;
    }
    assert f !in a.pending;
    assert |a.pending + {f}| == |a.pending| + 1;
  }

  lemma RetryKeepsInv(a: Ledger)
    requires Inv(a) && a.failed != []
    ensures var x := a.failed[0];
      Produce(a).1 == a.(stages := a.stages[x := InFlight], failed := a.failed[1..])
    ensures Inv(Produce(a).1)
  {
    var x := a.failed[0];
    var rest := a.failed[1..];
    var a' := a.(stages := a.stages[x := InFlight], failed := rest);
    assert a.stages[x] == Queued;
    AckedCountMark(a.stages, x, InFlight);
    forall k | 0 <= k < |rest| ensures rest[k] != x && a'.stages[rest[k]] == Queued {
      assert rest[k] == a.failed[k + 1];
      assert rest[k] in rest;
    }
    forall i | 0 <= i < |a'.stages| && a'.stages[i] == Queued ensures i in rest {
      assert i != x && a.stages[i] == Queued;
      assert a.failed == [x] + rest;
    }
  }

  lemma AcknowledgeKeepsInv(a: Ledger, index: int, success: bool)
    requires Inv(a) && IsInFlight(a, index)
    ensures Inv(Acknowledge(a, index, success))
  {
    if success {
      AckSuccessKeepsInv(a, index);
    } else {
      AckFailureKeepsInv(a, index);
    }
  }

  lemma AckSuccessKeepsInv(a: Ledger, index: int)
    requires Inv(a) && IsInFlight(a, index)
    ensures Inv(Acknowledge(a, index, true))
  {
    var a' := Acknowledge(a, index, true);
    AckedCountMark(a.stages, index, Acked);
    forall k | 0 <= k < |a.failed| ensures a'.stages[a.failed[k]] == Queued {
      assert a.stages[a.failed[k]] == Queued;
    }
  }

  lemma AckFailureKeepsInv(a: Ledger, index: int)
    requires Inv(a) && IsInFlight(a, index)
    ensures Inv(Acknowledge(a, index, false))
  {
    var a' := Acknowledge(a, index, false);
    AckedCountMark(a.stages, index, Queued);
    assert index !in a.failed;
    AppendKeepsDistinct(a.failed, index);
    forall k | 0 <= k < |a'.failed| ensures a'.stages[a'.failed[k]] == Queued {
      if k < |a.failed| {
        assert a'.failed[k] == a.failed[k] && a.stages[a.failed[k]] == Queued;
      }
    }
    forall i | 0 <= i < |a'.stages| && a'.stages[i] == Queued ensures i in a'.failed {
      if i != index {
        assert i in a.failed;
      } else {
        assert a'.failed[|a.failed|] == index;
      }
    }
  }

  lemma {:induction false} AppendKeepsDistinct(s: seq<int>, x: int)
    requires NoDuplicates(s) && x !in s
    ensures NoDuplicates(s + [x])
    decreases |s|
  {
    if s != [] {
      assert (s + [x])[1..] == s[1..] + [x];
      assert s == [s[0]] + s[1..];
      AppendKeepsDistinct(s[1..], x);
    }
  }

  /** A delivery touches only the receive side. */
  lemma DeliverKeepsInv(a: Ledger, index: int)
    requires Inv(a)
    ensures Inv(Deliver(a, index).1)
    ensures Produce(Deliver(a, index).1).0 == Produce(a).0
  {
  }

  // ----- What every reachable state guarantees --------------------------------

  /** No more first receipts than indices sent, never more sent than
      `max(0, maxMessages)`, and at least as many unacknowledged sends as
      indices not yet sent. */
  lemma Bounds(a: Ledger)
    requires Inv(a)
    ensures 0 <= a.totalReceived <= |a.stages| <= Max0(a.maxMessages)
    ensures a.unackedSends >= a.maxMessages - |a.stages|
  {
    assert a.pending <= Range(|a.stages|);
    SubsetSize(a.pending, Range(|a.stages|));
  }

  /** The counter reaches zero exactly when every one of the `maxMessages`
      indices has been sent and acknowledged. */
  lemma UnackedZeroIffAllAcked(a: Ledger)
    requires Inv(a) && a.maxMessages >= 0
    ensures a.unackedSends >= 0
    ensures a.unackedSends == 0 <==> |a.stages| == a.maxMessages && AllAcked(a.stages)
  {
    AckedCountFull(a.stages);
  }

  /** The completion rule: once at least one and at least `maxMessages`
      first receipts have been counted and the counter is not positive, every
      index has been sent, acknowledged and received, and nothing is in
      flight, queued for retry or pending. */
  lemma Completion(a: Ledger)
    requires Inv(a)
    requires a.totalReceived >= a.maxMessages && a.totalReceived > 0
    requires a.unackedSends <= 0
    ensures a.maxMessages > 0
    ensures |a.stages| == a.totalReceived == a.maxMessages
    ensures AllAcked(a.stages)
    ensures a.failed == [] && a.pending == {}
  {
    Bounds(a);
    AckedCountFull(a.stages);
    QueuedNotAcked(a);
  }

  /** A queued retry is an unacknowledged index. */
  lemma QueuedNotAcked(a: Ledger)
    requires Inv(a)
    ensures a.failed != [] ==> !AllAcked(a.stages)
  {
    if a.failed != [] {
      assert a.stages[a.failed[0]] == Queued;
    }
  }

  /** The status report reads the frontier and the receipt count in two
      separate calls. If every index handed out has been received, the
      producer may hand out the frontier index and the consumer may receive
      it between the two reads, so the report shows one more receipt than
      distinct sends. */
  lemma TornStatusRead(a: Ledger)
    requires Inv(a) && a.failed == [] && |a.stages| < a.maxMessages && a.pending == {}
    ensures var a2 := Deliver(Produce(a).1, |a.stages|).1;
      Inv(a2) && a2.totalReceived == |a.stages| + 1
  {
    FirstSendKeepsInv(a);
    DeliverKeepsInv(Produce(a).1, |a.stages|);
  }

  // ----- After the producer loop has exited ----------------------------------

  /** What can still happen once the producer loop is gone: callbacks of
      sends in flight, and records reaching the consumer. */
  datatype Event = AckEvent(index: int, success: bool) | DeliverEvent(index: int)

  function Apply(a: Ledger, e: Event): Ledger
  {
    match e
    case AckEvent(i, ok) => if IsInFlight(a, i) then Acknowledge(a, i, ok) else a
    case DeliverEvent(i) => Deliver(a, i).1
  }

  /** The state after `events`; callbacks and deliveries never hand out a new index. */
  function Callbacks(a: Ledger, events: seq<Event>): (r: Ledger)
    ensures r.maxMessages == a.maxMessages && |r.stages| == |a.stages|
    decreases |events|
  {
    if events == [] then a else Callbacks(Apply(a, events[0]), events[1..])
  }

  /** An index queued for retry stays queued, and so unacknowledged, while no
      producer draws from the queue. */
  lemma {:induction false} RetryStaysQueued(a: Ledger, x: int, events: seq<Event>)
    requires Inv(a) && x in a.failed
    ensures Inv(Callbacks(a, events))
    ensures x in Callbacks(a, events).failed
    ensures 0 <= x < |a.stages| && Callbacks(a, events).stages[x] == Queued
    decreases |events|
  {
    var k :| 0 <= k < |a.failed| && a.failed[k] == x;
    if events != [] {
      var a1 := Apply(a, events[0]);
      var e := events[0];
      if e.AckEvent? && IsInFlight(a, e.index) {
        AcknowledgeKeepsInv(a, e.index, e.success);
        if !e.success {
          assert a1.failed[k] == x;
        }
      } else if e.DeliverEvent? {
        DeliverKeepsInv(a, e.index);
      }
      RetryStaysQueued(a1, x, events[1..]);
    }
  }

  /** The producer loop as written exits as soon as the send tracker hands out
      nothing, even with sends still in flight. */
  predicate ProducerExitsAsWritten(a: Ledger)
  {
    Produce(a).0.None?
  }

  /** With one message: index 0 is sent, the producer loop exits, then the
      send fails. Index 0 is queued for retry but nothing draws it, so the
      counter stays at one whatever else happens, and the consumer never
      passes its wait. */
  lemma StrandedRetry(a0: Ledger, events: seq<Event>)
    requires Inv(a0) && a0.maxMessages == 1 && a0.stages == []
    ensures var a1 := Produce(a0).1;
      && IsInFlight(a1, 0)
      && ProducerExitsAsWritten(a1)
      && var a2 := Acknowledge(a1, 0, false);
         Callbacks(a2, events).unackedSends == 1
  {
    FirstSendKeepsInv(a0);
    var a1 := Produce(a0).1;
    assert a1.stages == [InFlight] && a1.failed == [];
    var a2 := Acknowledge(a1, 0, false);
    AcknowledgeKeepsInv(a1, 0, false);
    assert a2.failed == [0];
    RetryStaysQueued(a2, 0, events);
    var a3 := Callbacks(a2, events);
    QueuedNotAcked(a3);
    AckedCountFull(a3.stages);
  }

  /** The exit condition the retry path needs: the tracker hands out nothing
      AND every send has been acknowledged, so no callback can queue a retry
      any more. */
  predicate ProducerMayExit(a: Ledger)
  {
    Produce(a).0.None? && a.unackedSends <= 0
  }

  /** Under the corrected exit every index has been sent and acknowledged and
      nothing is queued; whatever callbacks and deliveries follow, the tracker
      still hands out nothing and the counter stays non-positive. */
  lemma {:induction false} ExitStrandsNothing(a: Ledger, events: seq<Event>)
    requires Inv(a) && ProducerMayExit(a)
    ensures a.failed == [] && |a.stages| == Max0(a.maxMessages) && AllAcked(a.stages)
    ensures Inv(Callbacks(a, events)) && ProducerMayExit(Callbacks(a, events))
    decreases |events|
  {
    Bounds(a);
    AckedCountFull(a.stages);
    if events != [] {
      var a1 := Apply(a, events[0]);
      if events[0].DeliverEvent? {
        DeliverKeepsInv(a, events[0].index);
      }
      ExitStrandsNothing(a1, events[1..]);
    }
  }
}
