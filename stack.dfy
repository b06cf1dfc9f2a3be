/**
  * The machine's operand stack (`FixedStack`): a last-in first-out sequence of
  * values whose capacity is fixed when it is created.
  */
module Stack {
  import opened Wrappers
  import opened Values
  import opened Errors

  /** The number of slots every operand stack is created with. */
  const StackMax: nat := 2000

  class FixedStack {
    /** The values on the stack, bottom first. */
    var items: seq<Value>
    const capacity: nat

    ghost predicate Valid()
      reads this
    {
      |items| <= capacity
    }

    constructor ()
      ensures Valid() && capacity == StackMax && items == []
    {
      items := [];
      capacity := StackMax;
    }

    /** Pushes `v`, or fails with StackOverflow, leaving the stack as it was, when it is full. */
    method Push(v: Value) returns (r: Outcome<Error>)
      requires Valid()
      modifies this
      ensures Valid()
      ensures r.Pass? <==> |old(items)| < capacity
      ensures r.Pass? ==> items == old(items) + [v]
      ensures r.Fail? ==> r.error == StackOverflow && items == old(items)
    {
      if |items| == capacity {
        return Fail(StackOverflow);
      }
      items := items + [v];
      return Pass;
    }

    /** Removes and returns the top value, or fails with StackUnderflow on an empty stack. */
    method Pop() returns (r: Result<Value, Error>)
      requires Valid()
      modifies this
      ensures Valid()
      ensures r.Success? <==> old(items) != []
      ensures r.Success? ==> r.value == old(items)[|old(items)| - 1] && items == old(items)[..|old(items)| - 1]
      ensures r.Failure? ==> r.error == StackUnderflow && items == old(items)
    {
      if items == [] {
        return Failure(StackUnderflow);
      }
      r := Success(items[|items| - 1]);
      items := items[..|items| - 1];
    }

    /** Empties the stack; its capacity stays. */
    method Clear()
      requires Valid()
      modifies this
      ensures Valid() && items == []
    {
      items := [];
    }
  }
}
