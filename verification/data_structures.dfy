/**
 * The list-backed `Stack` and `Queue` of data_structures.py. Each keeps its
 * items in a list field that its methods update; the value-level functions
 * `StackPop` and `QueueDequeue` say what a removal returns, and the lemmas
 * about them state the LIFO and FIFO disciplines.
 */
module DataStructures {
  import opened Wrappers

  /** `IndexError` messages of the two removals. */
  const EmptyStackMessage := "Pop from an empty stack."
  const EmptyQueueMessage := "Dequeue from an empty queue."

  /** `pop` on the item list: the last item and the list without it, or the `IndexError`. */
  function StackPop<T>(items: seq<T>): (r: Result<(T, seq<T>), string>)
    ensures r.Failure? <==> items == []
    ensures r.Failure? ==> r.error == EmptyStackMessage
    ensures r.Success? ==> r.value.1 + [r.value.0] == items
  {
    if items == [] then Failure(EmptyStackMessage)
    else Success((items[|items| - 1], items[..|items| - 1]))
  }

  /** `dequeue` on the item list: the first item and the list without it, or the `IndexError`. */
  function QueueDequeue<T>(items: seq<T>): (r: Result<(T, seq<T>), string>)
    ensures r.Failure? <==> items == []
    ensures r.Failure? ==> r.error == EmptyQueueMessage
    ensures r.Success? ==> [r.value.0] + r.value.1 == items
  {
    if items == [] then Failure(EmptyQueueMessage)
    else Success((items[0], items[1..]))
  }

  /** LIFO: a pop right after a push returns the pushed item and the list from before. */
  lemma PopAfterPush<T>(items: seq<T>, x: T)
    ensures StackPop(items + [x]) == Success((x, items))
  {
    assert (items + [x])[..|items|] == items;
  }

  /** FIFO: enqueuing at the back does not change what a dequeue of a non-empty queue returns. */
  lemma DequeueAfterEnqueue<T>(items: seq<T>, x: T)
    requires items != []
    ensures QueueDequeue(items + [x]) == Success((items[0], items[1..] + [x]))
  {
    assert (items + [x])[1..] == items[1..] + [x];
  }

  /** The items popped one by one until the stack is empty. */
  function PopAll<T>(items: seq<T>): (out: seq<T>)
    ensures |out| == |items|
    decreases |items|
  {
    match StackPop(items)
    case Failure(_) => []
    case Success((x, rest)) => [x] + PopAll(rest)
  }

  /** The items dequeued one by one until the queue is empty. */
  function DequeueAll<T>(items: seq<T>): (out: seq<T>)
    ensures |out| == |items|
    decreases |items|
  {
    match QueueDequeue(items)
    case Failure(_) => []
    case Success((x, rest)) => [x] + DequeueAll(rest)
  }

  /** Emptying a stack returns its items newest first. */
  lemma {:induction false} PopAllReverses<T>(items: seq<T>)
    ensures forall i :: 0 <= i < |items| ==> PopAll(items)[i] == items[|items| - 1 - i]
    decreases |items|
  {
    if items != [] {
      var rest := items[..|items| - 1];
      PopAllReverses(rest);
      forall i | 0 <= i < |items| ensures PopAll(items)[i] == items[|items| - 1 - i] {
        if i > 0 {
          assert PopAll(items)[i] == PopAll(rest)[i - 1] == rest[|rest| - 1 - (i - 1)];
        }
      }
    }
  }

  /** Emptying a queue returns its items oldest first. */
  lemma {:induction false} DequeueAllInOrder<T>(items: seq<T>)
    ensures DequeueAll(items) == items
    decreases |items|
  {
    if items != [] {
      DequeueAllInOrder(items[1..]);
      assert [items[0]] + items[1..] == items;
    }
  }

  class Stack<T> {
    /** `_items`, the top at the end. */
    var items: seq<T>

    /** `Stack()`: empty. */
    constructor()
      ensures items == []
    {
      items := [];
    }

    /** `push`: append at the top. */
    method Push(item: T)
      modifies this
      ensures items == old(items) + [item]
    {
      items := items + [item];
    }

    /** `pop`: remove and return the top item; on an empty stack the `IndexError`, and no change. */
    method Pop() returns (r: Result<T, string>)
      modifies this
      ensures StackPop(old(items)).Failure? ==> r == Failure(EmptyStackMessage) && items == old(items)
      ensures StackPop(old(items)).Success? ==>
        r == Success(StackPop(old(items)).value.0) && items == StackPop(old(items)).value.1
    {
      if items == [] {
        return Failure(EmptyStackMessage);
      }
      var top := items[|items| - 1];
      items := items[..|items| - 1];
      return Success(top);
    }

    /** `is_empty`. */
    function IsEmpty(): (b: bool)
      reads this
      ensures b <==> |items| == 0
    {
      |items| == 0
    }
  }

  class Queue<T> {
    /** `_items`, the front at index 0. */
    var items: seq<T>

    /** `Queue()`: empty. */
    constructor()
      ensures items == []
    {
      items := [];
    }

    /** `enqueue`: append at the back. */
    method Enqueue(item: T)
      modifies this
      ensures items == old(items) + [item]
    {
      items := items + [item];
    }

    /** `dequeue`: remove and return the front item; on an empty queue the `IndexError`, and no change. */
    method Dequeue() returns (r: Result<T, string>)
      modifies this
      ensures QueueDequeue(old(items)).Failure? ==> r == Failure(EmptyQueueMessage) && items == old(items)
      ensures QueueDequeue(old(items)).Success? ==>
        r == Success(QueueDequeue(old(items)).value.0) && items == QueueDequeue(old(items)).value.1
    {
      if items == [] {
        return Failure(EmptyQueueMessage);
      }
      var front := items[0];
      items := items[1..];
      return Success(front);
    }

    /** `is_empty`. */
    function IsEmpty(): (b: bool)
      reads this
      ensures b <==> |items| == 0
    {
      |items| == 0
    }
  }

  /** A fresh stack fed 1, 2, 3 gives them back as 3, 2, 1 and then fails. */
  method StackScenario() returns (popped: seq<int>, after: Result<int, string>)
    ensures popped == [3, 2, 1] && after == Failure(EmptyStackMessage)
  {
    var s := new Stack<int>();
    s.Push(1); s.Push(2); s.Push(3);
    var a := s.Pop(); var b := s.Pop(); var c := s.Pop();
    popped := [a.value, b.value, c.value];
    after := s.Pop();
  }

  /** A fresh queue fed 1, 2, 3 gives them back as 1, 2, 3 and then fails. */
  method QueueScenario() returns (dequeued: seq<int>, after: Result<int, string>)
    ensures dequeued == [1, 2, 3] && after == Failure(EmptyQueueMessage)
  {
    var q := new Queue<int>();
    q.Enqueue(1); q.Enqueue(2); q.Enqueue(3);
    var a := q.Dequeue(); var b := q.Dequeue(); var c := q.Dequeue();
    dequeued := [a.value, b.value, c.value];
    after := q.Dequeue();
  }
}
