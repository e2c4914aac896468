/** The send tracker: hands out message indices to the producer, preferring
    the oldest index whose send failed (a retry) over the frontier (a first
    send), and hands out nothing once the frontier has reached the message
    count and no retry is queued. */
module SendTracking {
  import opened Common

  /** An index handed out by the tracker, and whether this is its first send. */
  datatype Ticket = Ticket(index: int, firstSend: bool)

  /** The tracker's state: the next never-sent index and the FIFO of failed indices. */
  datatype SendState = SendState(frontier: int, failed: seq<int>)

  /** One call of `next()`, as a function of the state before it. */
  function NextDraw(maxMessages: int, s: SendState): (Option<Ticket>, SendState)
  {
    if s.failed == [] then
      if s.frontier >= maxMessages then (None, s)
      else (Some(Ticket(s.frontier, true)), SendState(s.frontier + 1, []))
    else
      (Some(Ticket(s.failed[0], false)), SendState(s.frontier, s.failed[1..]))
  }

  /** `k` consecutive calls of `next()` with no failure reported in between:
      what they hand out, and the state they leave. */
  function Draws(maxMessages: int, s: SendState, k: nat): (seq<Option<Ticket>>, SendState)
    decreases k
  {
    if k == 0 then ([], s)
    else
      var (t, s1) := NextDraw(maxMessages, s);
      var (ts, s2) := Draws(maxMessages, s1, k - 1);
      ([t] + ts, s2)
  }

  /** The frontier never decreases, moves by at most one per call, and never
      passes `max(0, maxMessages)`. It moves exactly when the call hands out a
      first send, and that first send is the old frontier. */
  lemma NextDrawFrontier(maxMessages: int, s: SendState)
    requires 0 <= s.frontier <= Max0(maxMessages)
    ensures var (t, s') := NextDraw(maxMessages, s);
      && s.frontier <= s'.frontier <= s.frontier + 1 && s'.frontier <= Max0(maxMessages)
      && (t.Some? && t.value.firstSend ==> t.value.index == s.frontier && s'.frontier == s.frontier + 1)
      && (t.None? || !t.value.firstSend ==> s'.frontier == s.frontier)
  {
  }

  /** A call on the tracker, as the producer loop and the send callbacks make them. */
  datatype TrackerCall = NextCall | AddFailedCall(index: int)

  /** The tickets handed out by `calls`, made one after the other in any
      interleaving of draws and re-queued failures, and the state they leave. */
  function Calls(maxMessages: int, s: SendState, calls: seq<TrackerCall>): (seq<Ticket>, SendState)
    decreases |calls|
  {
    if calls == [] then ([], s)
    else
      match calls[0]
      case AddFailedCall(i) => Calls(maxMessages, SendState(s.frontier, s.failed + [i]), calls[1..])
      case NextCall =>
        var (t, s1) := NextDraw(maxMessages, s);
        var (ts, s2) := Calls(maxMessages, s1, calls[1..]);
        (if t.Some? then [t.value] + ts else ts, s2)
  }

  /** The indices of the first sends among `ts`, in order. */
  function FirstSendIndices(ts: seq<Ticket>): seq<int>
    decreases |ts|
  {
    if ts == [] then []
    else (if ts[0].firstSend then [ts[0].index] else []) + FirstSendIndices(ts[1..])
  }

  /** However failures are re-queued in between, the first sends handed out
      are the consecutive indices from the starting frontier up to the final
      one, so no index is ever a first send twice. */
  lemma {:induction false} FirstSendsAreConsecutive(maxMessages: int, s: SendState, calls: seq<TrackerCall>)
    requires 0 <= s.frontier <= Max0(maxMessages)
    ensures var (ts, s') := Calls(maxMessages, s, calls);
      var fs := FirstSendIndices(ts);
      && s.frontier <= s'.frontier <= Max0(maxMessages)
      && |fs| == s'.frontier - s.frontier
      && (forall j :: 0 <= j < |fs| ==> fs[j] == s.frontier + j)
    decreases |calls|
  {
    if calls != [] {
      match calls[0]
      case AddFailedCall(i) =>
        FirstSendsAreConsecutive(maxMessages, SendState(s.frontier, s.failed + [i]), calls[1..]);
      case NextCall =>
        var (t, s1) := NextDraw(maxMessages, s);
        NextDrawFrontier(maxMessages, s);
        FirstSendsAreConsecutive(maxMessages, s1, calls[1..]);
        var (ts, s2) := Calls(maxMessages, s1, calls[1..]);
        if t.Some? {
          assert ([t.value] + ts)[1..] == ts;
        }
    }
  }

  /** From a fresh tracker, the first sends of any run are `0, 1, ..., k-1`,
      where `k` is the final frontier. */
  lemma FreshTrackerFirstSends(maxMessages: int, calls: seq<TrackerCall>)
    ensures var (ts, s') := Calls(maxMessages, SendState(0, []), calls);
      var fs := FirstSendIndices(ts);
      && |fs| == s'.frontier <= Max0(maxMessages)
      && (forall j :: 0 <= j < |fs| ==> fs[j] == j)
  {
    FirstSendsAreConsecutive(maxMessages, SendState(0, []), calls);
  }

  /** Queued retries come out first, oldest first, marked as retries, and the
      frontier does not move while they do. */
  lemma {:induction false} RetriesComeFirst(maxMessages: int, frontier: int, failed: seq<int>)
    ensures var (ts, s') := Draws(maxMessages, SendState(frontier, failed), |failed|);
      && |ts| == |failed|
      && (forall j :: 0 <= j < |failed| ==> ts[j] == Some(Ticket(failed[j], false)))
      && s' == SendState(frontier, [])
    decreases |failed|
  {
    if failed != [] {
      RetriesComeFirst(maxMessages, frontier, failed[1..]);
    }
  }

  /** With no retries queued, the calls hand out `f, f+1, ...` as first sends,
      one index per call, while the frontier is below `maxMessages`. */
  lemma {:induction false} FirstSendsInOrder(maxMessages: int, f: int, k: nat)
    requires f + k <= maxMessages
    ensures var (ts, s') := Draws(maxMessages, SendState(f, []), k);
      && |ts| == k
      && (forall j :: 0 <= j < k ==> ts[j] == Some(Ticket(f + j, true)))
      && s' == SendState(f + k, [])
    decreases k
  {
    if k > 0 {
      FirstSendsInOrder(maxMessages, f + 1, k - 1);
    }
  }

  /** With no failures, a fresh tracker yields `0, 1, ..., maxMessages-1` as
      first sends and then nothing. */
  lemma EachIndexSentFirstOnce(maxMessages: nat)
    ensures var (ts, s') := Draws(maxMessages, SendState(0, []), maxMessages + 1);
      && |ts| == maxMessages + 1
      && (forall j :: 0 <= j < maxMessages ==> ts[j] == Some(Ticket(j, true)))
      && ts[maxMessages] == None
      && s' == SendState(maxMessages, [])
  {
    DrawsSplit(maxMessages, SendState(0, []), maxMessages);
    FirstSendsInOrder(maxMessages, 0, maxMessages);
  }

  /** `k + 1` calls are `k` calls followed by one more. */
  lemma {:induction false} DrawsSplit(maxMessages: int, s: SendState, k: nat)
    ensures var (ts, s') := Draws(maxMessages, s, k);
      var (t, s'') := NextDraw(maxMessages, s');
      Draws(maxMessages, s, k + 1) == (ts + [t], s'')
    decreases k
  {
    var (t0, s1) := NextDraw(maxMessages, s);
    if k > 0 {
      DrawsSplit(maxMessages, s1, k - 1);
      var (ts1, s2) := Draws(maxMessages, s1, k - 1);
      var (t, s3) := NextDraw(maxMessages, s2);
      assert Draws(maxMessages, s1, k) == (ts1 + [t], s3);
      assert Draws(maxMessages, s, k) == ([t0] + ts1, s2);
      assert Draws(maxMessages, s, k + 1) == ([t0] + (ts1 + [t]), s3);
      assert [t0] + (ts1 + [t]) == ([t0] + ts1) + [t];
    } else {
      assert Draws(maxMessages, s1, 0) == ([], s1);
      assert Draws(maxMessages, s, 0) == ([], s);
      assert Draws(maxMessages, s, 1) == ([t0] + [], s1);
      assert [t0] + [] == [] + [t0];
    }
  }

  class ToSendTracker {
    const maxMessages: int
    var failed: seq<int>
    var frontier: int

    ghost predicate Valid()
      reads this
    {
      0 <= frontier <= Max0(maxMessages)
    }

    function State(): SendState
      reads this
    {
      SendState(frontier, failed)
    }

    constructor(maxMessages: int)
      ensures Valid() && this.maxMessages == maxMessages
      ensures State() == SendState(0, [])
    {
      this.maxMessages := maxMessages;
      failed := [];
      frontier := 0;
    }

    /** Queue a failed index for retry: it goes to the back of the queue. */
    method AddFailed(index: int)
      requires Valid()
      modifies this
      ensures Valid()
      ensures State() == SendState(old(frontier), old(failed) + [index])
    {
      failed := failed + [index];
    }

    /** The frontier, for status reports: the number of distinct indices sent. */
    function Frontier(): (f: int)
      reads this
      requires Valid()
      ensures 0 <= f <= Max0(maxMessages)
    {
      frontier
    }

    method Next() returns (r: Option<Ticket>)
      requires Valid()
      modifies this
      ensures Valid()
      ensures (r, State()) == NextDraw(maxMessages, old(State()))
    {
      if failed == [] {
        if frontier >= maxMessages {
          r := None;
        } else {
          r := Some(Ticket(frontier, true));
          frontier := frontier + 1;
        }
      } else {
        r := Some(Ticket(failed[0], false));
        failed := failed[1..];
      }
    }
  }
}
