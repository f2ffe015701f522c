/** The selection structure of the Huffman coder (`queue`).

    Despite its name it is a last-in, first-out stack over a list: items are
    appended at the tail, and both `Dequeue` and `Peek` work at the tail.
    Taking from an empty list raises `IndexError` in the program; here that
    is the `IndexError` outcome, and the contents are left as they were. */
module Queues {

  /** The result of taking or viewing the tail item. */
  datatype Outcome<T> = Ok(value: T) | IndexError

  /** The order in which repeated `Dequeue` calls hand back the items of a
      queue whose contents are `s`: the tail item first, then the order of
      what is left. It is `s` read back to front. */
  function Drain<T>(s: seq<T>): (d: seq<T>)
    ensures |d| == |s|
    ensures forall i :: 0 <= i < |s| ==> d[i] == s[|s| - 1 - i]
    decreases |s|
  {
    if s == [] then [] else [s[|s| - 1]] + Drain(s[..|s| - 1])
  }

  /** Items pushed after `s` come out before any item of `s`, in reverse
      order of pushing. */
  lemma DrainAppend<T>(s: seq<T>, t: seq<T>)
    ensures Drain(s + t) == Drain(t) + Drain(s)
  {
  }

  /** A queue filled in non-increasing order of frequency hands its items back
      in non-decreasing order: the lowest frequencies come out first. */
  lemma DrainOfNonIncreasing(s: seq<int>)
    requires forall i, j :: 0 <= i <= j < |s| ==> s[i] >= s[j]
    ensures forall i, j :: 0 <= i <= j < |s| ==> Drain(s)[i] <= Drain(s)[j]
  {
  }

  class Queue<T> {
    // the program's list, front to tail
    var items: seq<T>

    /** A fresh queue holds nothing. */
    constructor ()
      ensures items == []
      ensures Len() == 0
    {
      items := [];
    }

    /** The number of items held. */
    function Len(): (n: nat)
      reads this
      ensures n == 0 <==> items == []
      ensures n == |Drain(items)|
    {
      |items|
    }

    /** Appends `x` at the tail; it is the next item `Dequeue` returns. */
    method Enqueue(x: T)
      modifies this
      ensures items == old(items) + [x]
      ensures Len() == old(Len()) + 1
      ensures Drain(items) == [x] + Drain(old(items))
    {
      items := items + [x];
      DrainAppend(old(items), [x]);
    }

    /** Removes and returns the tail item: the most recently enqueued one.
        On an empty queue it reports `IndexError` and changes nothing. */
    method Dequeue() returns (r: Outcome<T>)
      modifies this
      ensures old(items) == [] ==> r == IndexError && items == old(items)
      ensures old(items) != [] ==>
        r == Ok(old(items)[|old(items)| - 1]) && items == old(items)[..|old(items)| - 1]
      ensures r.Ok? ==> Drain(old(items)) == [r.value] + Drain(items)
    {
      if items == [] {
        r := IndexError;
      } else {
        r := Ok(items[|items| - 1]);
        items := items[..|items| - 1];
      }
    }

    /** Views the tail item without removing it: the item the next `Dequeue`
        would return. On an empty queue it reports `IndexError`. */
    function Peek(): (r: Outcome<T>)
      reads this
      ensures r == IndexError <==> items == []
      ensures r.Ok? ==> r.value == items[|items| - 1] && r.value == Drain(items)[0]
    {
      if items == [] then IndexError else Ok(items[|items| - 1])
    }
  }

  /** An enqueue followed by a dequeue returns the item just enqueued and
      restores the contents held before. */
  method EnqueueThenDequeue<T>(q: Queue<T>, x: T) returns (r: Outcome<T>)
    modifies q
    ensures r == Ok(x)
    ensures q.items == old(q.items)
  {
    q.Enqueue(x);
    r := q.Dequeue();
    assert old(q.items) + [x] == q.items + [x];
  }
}
