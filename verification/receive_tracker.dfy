/** The receive tracker: the sorted set of indices sent but not yet seen by
    the consumer, and the count of indices seen for the first time. The sorted
    set is an ascending sequence without repeats. */
module ReceiveTracking {
  import opened Common

  /** How many pending indices a diagnostic log line shows. */
  const LOG_NUM_MESSAGES: nat := 10

  /** Each element is below the next one. */
  ghost predicate Ascending(s: seq<int>)
    decreases |s|
  {
    |s| < 2 || (s[0] < s[1] && Ascending(s[1..]))
  }

  /** In an ascending sequence every element is below every later one. */
  lemma {:induction false} AscendingPairwise(s: seq<int>)
    requires Ascending(s)
    ensures forall i, j :: 0 <= i < j < |s| ==> s[i] < s[j]
    decreases |s|
  {
    if |s| >= 2 {
      AscendingPairwise(s[1..]);
      forall i, j | 0 <= i < j < |s| ensures s[i] < s[j] {
        if i > 0 {
          assert s[i] == s[1..][i - 1] && s[j] == s[1..][j - 1];
        } else if j > 1 {
          assert s[1] == s[1..][0] && s[j] == s[1..][j - 1];
        }
      }
    }
  }

  /** A prefix of an ascending sequence is ascending. */
  lemma {:induction false} PrefixAscending(s: seq<int>, n: nat)
    requires Ascending(s) && n <= |s|
    ensures Ascending(s[..n])
    decreases n
  {
    if n >= 2 {
      PrefixAscending(s[1..], n - 1);
      assert s[..n][1..] == s[1..][..n - 1];
    }
  }

  /** Sorted insertion; inserting an element already present changes nothing. */
  function Insert(s: seq<int>, x: int): (r: seq<int>)
    requires Ascending(s)
    ensures Ascending(r)
    ensures Elems(r) == Elems(s) + {x}
  {
    if s == [] then [x]
    else if x < s[0] then [x] + s
    else if x == s[0] then s
    else
      var rest := Insert(s[1..], x);
      HeadBelowTail(s);
      ElemsOfCons(s[0], s[1..]);
      ElemsOfCons(s[0], rest);
      forall y | y in rest ensures s[0] < y {
        assert y in Elems(rest);
      }
      PrependKeepsOrder(s[0], rest);
      [s[0]] + rest
  }

  /** Sorted removal; removing an absent element changes nothing. */
  function Remove(s: seq<int>, x: int): (r: seq<int>)
    requires Ascending(s)
    ensures Ascending(r)
    ensures Elems(r) == Elems(s) - {x}
  {
    if s == [] then []
    else if s[0] == x then
      HeadBelowTail(s);
      ElemsOfCons(s[0], s[1..]);
      s[1..]
    else
      var rest := Remove(s[1..], x);
      HeadBelowTail(s);
      ElemsOfCons(s[0], s[1..]);
      ElemsOfCons(s[0], rest);
      forall y | y in rest ensures s[0] < y {
        assert y in Elems(rest);
      }
      PrependKeepsOrder(s[0], rest);
      [s[0]] + rest
  }

  lemma HeadBelowTail(s: seq<int>)
    requires s != [] && Ascending(s)
    ensures Ascending(s[1..])
    ensures forall y :: y in s[1..] ==> s[0] < y
  {
    AscendingPairwise(s);
    forall y | y in s[1..] ensures s[0] < y {
      var k :| 0 <= k < |s[1..]| && s[1..][k] == y;
      assert s[k + 1] == y;
    }
  }

  /** Putting `h` in front of an ascending sequence of larger elements keeps it ascending. */
  lemma PrependKeepsOrder(h: int, rest: seq<int>)
    requires Ascending(rest)
    requires forall y :: y in rest ==> h < y
    ensures Ascending([h] + rest)
  {
    assert ([h] + rest)[1..] == rest;
    if rest != [] {
      assert rest[0] in rest;
    }
  }

  lemma ElemsOfCons(h: int, t: seq<int>)
    ensures Elems([h] + t) == {h} + Elems(t)
  {
    forall y | y in t ensures y in [h] + t {
      var k :| 0 <= k < |t| && t[k] == y;
      assert ([h] + t)[k + 1] == y;
    }
  }

  /** An ascending sequence has as many elements as its set. */
  lemma {:induction false} AscendingSize(s: seq<int>)
    requires Ascending(s)
    ensures |Elems(s)| == |s|
  {
    if s != [] {
      HeadBelowTail(s);
      AscendingSize(s[1..]);
      ElemsOfCons(s[0], s[1..]);
      assert s == [s[0]] + s[1..];
    }
  }

  class ToReceiveTracker {
    var pending: seq<int>
    var totalReceived: nat

    ghost predicate Valid()
      reads this
    {
      Ascending(pending)
    }

    /** The pending indices, as a set. */
    ghost function Pending(): set<int>
      reads this
    {
      Elems(pending)
    }

    constructor()
      ensures Valid() && Pending() == {} && totalReceived == 0
    {
      pending := [];
      totalReceived := 0;
    }

    method AddPending(index: int)
      requires Valid()
      modifies this
      ensures Valid()
      ensures Pending() == old(Pending()) + {index}
      ensures totalReceived == old(totalReceived)
    {
      pending := Insert(pending, index);
    }

    /** A receipt counts only if the index is still pending; it is then no
        longer pending, so a second receipt of it does not count. */
    method RemovePending(index: int) returns (removed: bool)
      requires Valid()
      modifies this
      ensures Valid()
      ensures removed <==> index in old(Pending())
      ensures Pending() == old(Pending()) - {index}
      ensures totalReceived == old(totalReceived) + (if removed then 1 else 0)
    {
      removed := index in pending;
      if removed {
        pending := Remove(pending, index);
        totalReceived := totalReceived + 1;
      }
    }

    /** The diagnostic sample: the number of pending indices and the smallest
        of them, at most `LOG_NUM_MESSAGES`, in ascending order. Nothing changes. */
    method Log() returns (numToReceive: nat, sample: seq<int>)
      requires Valid()
      ensures numToReceive == |Pending()|
      ensures |sample| == if numToReceive < LOG_NUM_MESSAGES then numToReceive else LOG_NUM_MESSAGES
      ensures Ascending(sample) && Elems(sample) <= Pending()
      ensures forall x, j :: x in Pending() && x !in sample && 0 <= j < |sample| ==> sample[j] < x
    {
      AscendingSize(pending);
      numToReceive := |pending|;
      sample := [];
      var i := 0;
      while i < |pending| && |sample| < LOG_NUM_MESSAGES
        invariant 0 <= i <= |pending| && i <= LOG_NUM_MESSAGES
        invariant sample == pending[..i]
      {
        sample := sample + [pending[i]];
        i := i + 1;
      }
      PrefixAscending(pending, i);
      AscendingPairwise(pending);
      forall x, j | x in Pending() && x !in sample && 0 <= j < |sample|
        ensures sample[j] < x
      {
        var k :| 0 <= k < |pending| && pending[k] == x;
        assert k >= i;
      }
    }
  }
}
