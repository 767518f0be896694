/** Iterators that are asked for one element after another. */
module Iterators {

  class ListIterator<T> {
    const list: seq<T>
    /** -1 before the first Next. */
    var pointer: int

    ghost predicate Valid()
      reads this
    {
      -1 <= pointer
    }

    /** The elements that Next has still to bring. */
    ghost function Remaining(): seq<T>
      requires Valid()
      reads this
    {
      if pointer < |list| then list[pointer + 1..] else []
    }

    constructor (input: seq<T>)
      ensures Valid() && list == input && Remaining() == input
    {
      list := input;
      pointer := -1;
    }

    /** The comparison is between unsigned numbers: -1 is not less than the size. */
    predicate Empty()
      requires Valid()
      reads this
    {
      pointer == -1 || pointer >= |list|
    }

    /** Brings the next element, or says that there is none, now and on every later call. */
    method Next() returns (more: bool)
      requires Valid()
      modifies this
      ensures Valid() && more == !Empty()
      ensures more <==> old(Remaining()) != []
      ensures more ==> Get() == old(Remaining())[0] && Remaining() == old(Remaining())[1..]
      ensures !more ==> Remaining() == []
    {
      pointer := pointer + 1;
      more := !Empty();
    }

    function Get(): T
      requires Valid() && !Empty()
      reads this
    {
      list[pointer]
    }

    method Reset()
      modifies this
      ensures Valid() && Remaining() == list
    {
      pointer := -1;
    }
  }
}
