/** Small shared vocabulary: optional values, pass/fail outcomes, results,
    and the index ranges that the trackers hand out. */
module Common {

  datatype Option<T> = None | Some(value: T)

  datatype Outcome<E> = Pass | Fail(error: E)

  datatype Result<T, E> = Ok(value: T) | Err(error: E)

  /** `n` clipped below at zero: the largest frontier a tracker for `n` messages reaches. */
  function Max0(n: int): nat
  {
    if n < 0 then 0 else n
  }

  /** The message indices `0 .. n-1`. */
  function Range(n: int): (r: set<int>)
    ensures forall i :: i in r <==> 0 <= i < n
    ensures |r| == Max0(n)
    decreases Max0(n)
  {
    if n <= 0 then {} else Range(n - 1) + {n - 1}
  }

  /** The elements of a sequence, as a set. */
  function Elems<T>(s: seq<T>): set<T>
  {
    set x | x in s
  }

  /** No element occurs twice: the head is not in the tail, and so on down. */
  ghost predicate NoDuplicates<T>(s: seq<T>)
    decreases |s|
  {
    |s| == 0 || (s[0] !in s[1..] && NoDuplicates(s[1..]))
  }

  lemma SubsetSize<T>(a: set<T>, b: set<T>)
    requires a <= b
    ensures |a| <= |b|
  {
    assert b == a + (b - a);
  }
}
