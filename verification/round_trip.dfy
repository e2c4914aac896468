/** One run of the round-trip workload, and the worker that starts and stops
    runs. The producer, the send callbacks and the consumer each change the
    run in atomic steps; a run is any interleaving of the methods of
    `RoundTrip`. */
module RoundTrip {
  import opened Common
  import opened KeyCodec
  import opened Partitions
  import opened SendTracking
  import opened ReceiveTracking
  import opened Accounting

  /** The published status: distinct indices sent, and first receipts. */
  datatype StatusData = StatusData(totalUniqueSent: int, totalReceived: int)

  /** A send issued by the producer: what it sends and where. */
  datatype Send = Send(ticket: Ticket, partition: TopicPartition)

  datatype ProducerOutcome =
    | Sent(send: Send)   // one send issued
    | Idle               // nothing to draw now, but acknowledgements are outstanding
    | Exited             // the producer loop ends

  datatype ConsumerPhase =
    | Polling            // polling and counting receipts
    | AwaitingAcks       // full count received, waiting for the counter to reach zero
    | Finished           // completion declared
    | Aborted            // a record key could not be decoded

  datatype PollOutcome =
    | Polled                     // the whole batch was processed
    | TargetReached(at: nat)     // record `at` brought the count to maxMessages; the rest is ignored
    | DecodeFailed(at: nat)      // record `at` had a key shorter than four bytes

  /** The indices that the keys of `keys` decode to. */
  function Decoded(keys: seq<seq<Byte>>): set<int>
  {
    if keys == [] then {}
    else
      var last := DecodeIndex(keys[|keys| - 1]);
      Decoded(keys[..|keys| - 1]) + (if last.Ok? then {last.value} else {})
  }

  /** The pending set after the consumer has seen the records with `keys`,
      one after the other. */
  function Drain(pending: set<int>, keys: seq<seq<Byte>>): set<int>
  {
    if keys == [] then pending
    else
      var last := DecodeIndex(keys[|keys| - 1]);
      var p := Drain(pending, keys[..|keys| - 1]);
      if last.Ok? then p - {last.value} else p
  }

  /** Seeing a batch removes exactly the indices its keys decode to. */
  lemma {:induction false} DrainRemovesDecoded(pending: set<int>, keys: seq<seq<Byte>>)
    ensures Drain(pending, keys) == pending - Decoded(keys)
  {
    if keys != [] {
      DrainRemovesDecoded(pending, keys[..|keys| - 1]);
    }
  }

  /** Every key of `keys` is long enough to decode. */
  predicate AllDecodable(keys: seq<seq<Byte>>)
  {
    keys == [] || (AllDecodable(keys[..|keys| - 1]) && |keys[|keys| - 1]| >= INDEX_BYTES)
  }

  /** `AllDecodable` says that no key of the sequence is shorter than four bytes. */
  lemma {:induction false} AllDecodableMeaning(keys: seq<seq<Byte>>)
    ensures AllDecodable(keys) <==> forall j :: 0 <= j < |keys| ==> |keys[j]| >= INDEX_BYTES
  {
    if keys != [] {
      var n := |keys| - 1;
      AllDecodableMeaning(keys[..n]);
      assert forall j :: 0 <= j < n ==> keys[..n][j] == keys[j];
    }
  }

  /** How many records of a batch of `n` were taken into account. */
  function Processed(r: PollOutcome, n: nat): nat
  {
    match r
    case Polled => n
    case TargetReached(at) => at + 1
    case DecodeFailed(at) => at
  }

  class RoundTrip {
    const maxMessages: int
    const partitions: seq<TopicPartition>
    const toSend: ToSendTracker
    const toReceive: ToReceiveTracker

    /** Sends not yet acknowledged; guarded by the shared lock. */
    var unackedSends: int
    /** The producer's count of sends issued, and its partition iterator's position. */
    var messagesSent: nat
    var cursor: nat
    var producerExited: bool
    /** The consumer's count of first receipts. */
    var uniqueMessagesReceived: nat
    var phase: ConsumerPhase

    /** The bookkeeping of the run as one value, including what only the
        producer client knows: which indices are in flight and which are
        acknowledged. */
    ghost var ledger: Ledger

    /** The ledger agrees with the trackers and the counter. */
    ghost predicate Coupled()
      reads this, toSend, toReceive
    {
      && ledger.maxMessages == maxMessages == toSend.maxMessages
      && |ledger.stages| == toSend.frontier && ledger.failed == toSend.failed
      && ledger.pending == toReceive.Pending() && ledger.totalReceived == toReceive.totalReceived
      && ledger.unackedSends == unackedSends
    }

    ghost predicate Valid()
      reads this, toSend, toReceive
    {
      && toSend.Valid() && toReceive.Valid() && Coupled()
      && Inv(ledger)
      && 0 < |partitions| && cursor == CursorAfter(partitions, messagesSent)
      && uniqueMessagesReceived == toReceive.totalReceived
      && (phase == AwaitingAcks || phase == Finished ==>
            uniqueMessagesReceived >= maxMessages && uniqueMessagesReceived > 0)
      && (producerExited ==> ProducerMayExit(ledger))
    }

    /** A fresh run: the counter starts at `maxMessages`, both trackers are empty.
        The partitions come from a set, so none occurs twice. */
    constructor(maxMessages: int, partitions: seq<TopicPartition>)
      requires 0 < |partitions| && NoDuplicates(partitions)
      ensures Valid() && fresh(toSend) && fresh(toReceive)
      ensures this.maxMessages == maxMessages && this.partitions == partitions
      ensures ledger == Initial(maxMessages)
      ensures messagesSent == 0 && !producerExited && phase == Polling
    {
      this.maxMessages := maxMessages;
      this.partitions := partitions;
      toSend := new ToSendTracker(maxMessages);
      toReceive := new ToReceiveTracker();
      unackedSends := maxMessages;
      messagesSent := 0;
      cursor := 0;
      producerExited := false;
      uniqueMessagesReceived := 0;
      phase := Polling;
      ledger := Initial(maxMessages);
    }

    /** The producer's draw from the send tracker; a first send is
        registered as pending before it is issued. */
    method Draw() returns (t: Option<Ticket>)
      requires Valid() && !producerExited
      modifies this, toSend, toReceive
      ensures Valid()
      ensures (t, ledger) == Produce(old(ledger))
      ensures unackedSends == old(unackedSends) && !producerExited
      ensures messagesSent == old(messagesSent) && cursor == old(cursor)
      ensures phase == old(phase) && uniqueMessagesReceived == old(uniqueMessagesReceived)
    {
      ghost var before := ledger;
      ProduceKeepsInv(before);
      t := toSend.Next();
      if t.Some? {
        if t.value.firstSend {
          toReceive.AddPending(t.value.index);
        }
        ledger := Produce(before).1;
      }
    }

    /** One iteration of the producer loop: draw an index, pick the next
        partition round robin, issue the send. When the tracker hands out
        nothing, the loop ends only once every send has been acknowledged. */
    method ProducerStep() returns (r: ProducerOutcome)
      requires Valid() && !producerExited
      modifies this, toSend, toReceive
      ensures Valid()
      ensures var (t, l) := Produce(old(ledger));
        && (r.Sent? <==> t.Some?)
        && (r.Sent? ==> r.send.ticket == t.value)
        && ledger == l
      ensures r.Sent? ==> (r.send.partition == partitions[old(messagesSent) % |partitions|]
                        && messagesSent == old(messagesSent) + 1)
      ensures !r.Sent? ==> messagesSent == old(messagesSent)
      ensures r.Exited? <==> producerExited
      ensures r.Exited? <==> ProducerMayExit(old(ledger))
      ensures phase == old(phase) && uniqueMessagesReceived == old(uniqueMessagesReceived)
    {
      var t := Draw();
      if t.None? {
        if unackedSends <= 0 {
          producerExited := true;
          r := Exited;
        } else {
          r := Idle;
        }
        return;
      }
      RoundRobin(partitions, messagesSent);
      var next := NextPartition(partitions, cursor);
      cursor, messagesSent := next.1, messagesSent + 1;
      r := Sent(Send(t.value, next.0));
    }

    /** The send callback for `index`, run by the producer client. A callback
        only ever arrives for a send in flight, and so never after the
        producer has exited. */
    method AckSend(index: int, success: bool)
      requires Valid() && IsInFlight(ledger, index)
      modifies this, toSend
      ensures Valid()
      ensures !producerExited
      ensures ledger == Acknowledge(old(ledger), index, success)
      ensures success ==> unackedSends == old(unackedSends) - 1
      ensures !success ==> unackedSends == old(unackedSends) && toSend.failed == old(toSend.failed) + [index]
      ensures phase == old(phase) && producerExited == old(producerExited)
      ensures messagesSent == old(messagesSent) && cursor == old(cursor)
    {
      ghost var before := ledger;
      if producerExited {
        ExitStrandsNothing(before, []);
        assert false;
      }
      AcknowledgeKeepsInv(before, index, success);
      if success {
        unackedSends := unackedSends - 1;
      } else {
        toSend.AddFailed(index);
      }
      ledger := Acknowledge(before, index, success);
    }

    /** The receive tracker's `removePending` for a decoded index, and the
        consumer's count of first receipts. */
    method Receive(index: int) returns (counted: bool)
      requires Valid() && phase == Polling
      modifies this, toReceive
      ensures Valid()
      ensures counted <==> index in old(ledger.pending)
      ensures ledger == Deliver(old(ledger), index).1
      ensures uniqueMessagesReceived == old(uniqueMessagesReceived) + (if counted then 1 else 0)
      ensures phase == old(phase) && unackedSends == old(unackedSends)
      ensures producerExited == old(producerExited)
      ensures messagesSent == old(messagesSent) && cursor == old(cursor)
    {
      ghost var before := ledger;
      DeliverKeepsInv(before, index);
      counted := toReceive.RemovePending(index);
      ledger := Deliver(before, index).1;
      if counted {
        uniqueMessagesReceived := uniqueMessagesReceived + 1;
      }
    }

    /** The consumer's handling of one record: decode the key; count the
        index if it was still pending; on reaching the full count, start
        waiting for the acknowledgements. A key that does not decode aborts
        the consumer. */
    method ConsumeRecord(key: seq<Byte>) returns (d: Result<int, KeyError>, counted: bool)
      requires Valid() && phase == Polling
      modifies this, toReceive
      ensures Valid()
      ensures d == DecodeIndex(key)
      ensures counted <==> d.Ok? && d.value in old(ledger.pending)
      ensures ledger == if d.Ok? then Deliver(old(ledger), d.value).1 else old(ledger)
      ensures uniqueMessagesReceived == old(uniqueMessagesReceived) + (if counted then 1 else 0)
      ensures phase == if d.Err? then Aborted
                       else if counted && uniqueMessagesReceived >= maxMessages then AwaitingAcks
                       else Polling
      ensures phase != Aborted ==> |key| >= INDEX_BYTES
      ensures phase == Polling && old(uniqueMessagesReceived) < maxMessages ==> uniqueMessagesReceived < maxMessages
      ensures unackedSends == old(unackedSends) && producerExited == old(producerExited)
      ensures messagesSent == old(messagesSent) && cursor == old(cursor)
    {
      d := DecodeIndex(key);
      if d.Err? {
        counted := false;
        phase := Aborted;
        return;
      }
      counted := Receive(d.value);
      if counted && uniqueMessagesReceived >= maxMessages {
        phase := AwaitingAcks;
      }
    }

    /** The record at `i` of a batch whose earlier records have all been
        decoded and drained: either it too is drained, or processing stops. */
    method ConsumeNext(keys: seq<seq<Byte>>, i: nat, ghost p0: set<int>, ghost u0: int)
      requires Valid() && phase == Polling && i < |keys|
      requires ledger.pending == Drain(p0, keys[..i]) && AllDecodable(keys[..i])
      requires u0 < maxMessages ==> uniqueMessagesReceived < maxMessages
      modifies this, toReceive
      ensures Valid()
      ensures phase == Polling || phase == Aborted || phase == AwaitingAcks
      ensures phase == Aborted ==> |keys[i]| < INDEX_BYTES && ledger.pending == Drain(p0, keys[..i])
      ensures phase != Aborted ==> ledger.pending == Drain(p0, keys[..i + 1]) && AllDecodable(keys[..i + 1])
      ensures phase == AwaitingAcks ==> uniqueMessagesReceived >= maxMessages
      ensures phase == Polling ==> (u0 < maxMessages ==> uniqueMessagesReceived < maxMessages)
      ensures ledger.stages == old(ledger.stages) && ledger.failed == old(ledger.failed)
      ensures unackedSends == old(unackedSends)
      ensures producerExited == old(producerExited) && messagesSent == old(messagesSent)
    {
      assert keys[..i + 1][..i] == keys[..i];
      var d, counted := ConsumeRecord(keys[i]);
    }

    /** The consumer processes one polled batch, record by record, and stops
        at the first record that brings the count to `maxMessages`, or at the
        first key that does not decode. Every record before the stopping point
        has a decodable key and has been counted if it was pending. */
    method ConsumeRecords(keys: seq<seq<Byte>>) returns (r: PollOutcome)
      requires Valid() && phase == Polling
      modifies this, toReceive
      ensures Valid()
      ensures Processed(r, |keys|) <= |keys|
      ensures ledger.pending == Drain(old(ledger.pending), keys[..Processed(r, |keys|)])
      ensures AllDecodable(keys[..Processed(r, |keys|)])
      ensures r.Polled? ==> phase == Polling
      ensures r.TargetReached? ==> r.at < |keys| && phase == AwaitingAcks && uniqueMessagesReceived >= maxMessages
      ensures r.DecodeFailed? ==> r.at < |keys| && phase == Aborted && |keys[r.at]| < INDEX_BYTES
      ensures old(uniqueMessagesReceived) < maxMessages && !r.TargetReached? ==> uniqueMessagesReceived < maxMessages
      ensures ledger.stages == old(ledger.stages) && ledger.failed == old(ledger.failed)
      ensures unackedSends == old(unackedSends)
      ensures producerExited == old(producerExited) && messagesSent == old(messagesSent)
    {
      var i := 0;
      ghost var n := 0;
      r := Polled;
      while i < |keys| && r.Polled?
        invariant 0 <= i <= |keys| && 0 <= n <= |keys|
        invariant Valid()
        invariant r.Polled? ==> phase == Polling && n == i
        invariant r.DecodeFailed? ==> phase == Aborted && r.at == n < |keys| && |keys[n]| < INDEX_BYTES
        invariant r.TargetReached? ==> phase == AwaitingAcks && r.at + 1 == n && uniqueMessagesReceived >= maxMessages
        invariant Processed(r, |keys|) == n || r.Polled?
        invariant ledger.pending == Drain(old(ledger.pending), keys[..n])
        invariant AllDecodable(keys[..n])
        invariant old(uniqueMessagesReceived) < maxMessages && !r.TargetReached? ==> uniqueMessagesReceived < maxMessages
        invariant ledger.stages == old(ledger.stages) && ledger.failed == old(ledger.failed)
        invariant unackedSends == old(unackedSends)
        invariant producerExited == old(producerExited)
        invariant messagesSent == old(messagesSent)
        decreases |keys| - i, if r.Polled? then 1 else 0
      {
        ConsumeNext(keys, i, old(ledger.pending), old(uniqueMessagesReceived));
        if phase == Aborted {
          r := DecodeFailed(i);
        } else {
          n := i + 1;
          if phase == AwaitingAcks {
            r := TargetReached(i);
          } else {
            i := i + 1;
          }
        }
      }
      if r.Polled? {
        assert keys[..i] == keys;
      }
    }

    /** The consumer's wait for every send to be acknowledged: it proceeds
        only when the counter is not positive, and then declares completion
        with the final status. */
    method AwaitAcks() returns (r: Option<StatusData>)
      requires Valid() && phase == AwaitingAcks
      modifies this
      ensures Valid()
      ensures r.None? <==> unackedSends > 0
      ensures r.None? ==> phase == AwaitingAcks
      ensures r.Some? ==> (phase == Finished
        && r.value == StatusData(maxMessages, maxMessages)
        && |ledger.stages| == maxMessages && AllAcked(ledger.stages)
        && toSend.failed == [] && toReceive.Pending() == {})
      ensures unackedSends == old(unackedSends) && ledger == old(ledger)
      ensures producerExited == old(producerExited) && messagesSent == old(messagesSent)
    {
      if unackedSends > 0 {
        r := None;
        return;
      }
      Completion(ledger);
      phase := Finished;
      r := Some(Status());
    }

    /** The status report: the send tracker's frontier and the receive
        tracker's count of first receipts. */
    function Status(): (s: StatusData)
      reads this, toSend, toReceive
      requires Valid()
      ensures s.totalUniqueSent == toSend.frontier && s.totalReceived == toReceive.totalReceived
      ensures 0 <= s.totalReceived <= s.totalUniqueSent <= Max0(maxMessages)
    {
      Bounds(ledger);
      StatusData(toSend.Frontier(), toReceive.totalReceived)
    }
  }

  datatype LifecycleError =
    | AlreadyRunning   // "RoundTripWorker is already running."
    | NotRunning       // "RoundTripWorker is not running."

  /** The worker: an activation flag, and the run it prepared. */
  class RoundTripWorker {
    var running: bool
    var run: RoundTrip?
    /** Why preparation aborted the run, if it did. */
    var prepareError: Option<ConfigError>

    constructor()
      ensures !running && run == null && prepareError == None
    {
      running := false;
      run := null;
      prepareError := None;
    }

    /** Activate the worker, then prepare the run: check the configuration,
        and on success create both trackers with the counter at `maxMessages`.
        `partitions` lists the active partitions, each once, in the producer's order. */
    method Start(maxMessages: int, targetMessagesPerSec: int, partitions: seq<TopicPartition>)
      returns (r: Outcome<LifecycleError>)
      requires NoDuplicates(partitions)
      modifies this
      ensures old(running) ==> (r == Fail(AlreadyRunning) && running
        && run == old(run) && prepareError == old(prepareError))
      ensures !old(running) ==> r == Pass && running
      ensures !old(running) ==>
        var check := CheckConfig(targetMessagesPerSec, Elems(partitions));
        && (check.Fail? ==> run == null && prepareError == Some(check.error))
        && (check.Pass? ==> (prepareError == None && run != null && fresh(run)
              && fresh(run.toSend) && fresh(run.toReceive) && run.Valid()
              && run.ledger == Initial(maxMessages) && run.partitions == partitions
              && run.phase == Polling && !run.producerExited))
    {
      if running {
        return Fail(AlreadyRunning);
      }
      running := true;
      var check := CheckConfig(targetMessagesPerSec, Elems(partitions));
      if check.Fail? {
        run := null;
        prepareError := Some(check.error);
      } else {
        assert partitions[0] in Elems(partitions);
        run := new RoundTrip(maxMessages, partitions);
        prepareError := None;
      }
      r := Pass;
    }

    /** Deactivate the worker and discard the run; refused when not running,
        so a second stop fails. */
    method Stop() returns (r: Outcome<LifecycleError>)
      modifies this
      ensures old(running) ==> r == Pass && run == null
      ensures !old(running) ==> r == Fail(NotRunning) && run == old(run)
      ensures !running && prepareError == old(prepareError)
    {
      if !running {
        return Fail(NotRunning);
      }
      running := false;
      run := null;
      r := Pass;
    }
  }
}
