/** A list that only grows, and an iterator bounded to the size it had
    (`AppendOnlyArrayList`). */
module AppendOnly {

  class AppendOnlyArrayList<T(==)> {
    var elems: seq<T>

    constructor ()
      ensures elems == []
    {
      elems := [];
    }

    method AddAll(more: seq<T>)
      modifies this
      ensures elems == old(elems) + more
    {
      elems := elems + more;
    }
  }

  /** `AppendOnlyArrayListIterator`: never looks past `size`, so what is appended
      later is never seen.  `window` is what it iterates over. */
  class BoundedIterator<T(==)> {
    const list: AppendOnlyArrayList<T>
    const size: nat
    ghost const window: seq<T>
    var index: nat

    ghost predicate Valid()
      reads this, list
    {
      && index <= size == |window|
      && window <= list.elems
    }

    constructor (list: AppendOnlyArrayList<T>, index: nat, size: nat)
      requires index <= size <= |list.elems|
      ensures Valid() && this.list == list && this.index == index
      ensures this.size == size && window == list.elems[..size]
    {
      this.list, this.index, this.size := list, index, size;
      window := list.elems[..size];
    }

    function HasNext(): bool
      reads this
    {
      index != size
    }

    function HasPrevious(): bool
      reads this
    {
      index != 0
    }

    method Next() returns (element: T)
      requires Valid() && HasNext()
      modifies this
      ensures Valid() && index == old(index) + 1 && element == window[old(index)]
    {
      element := list.elems[index];
      index := index + 1;
    }

    method Previous() returns (element: T)
      requires Valid() && HasPrevious()
      modifies this
      ensures Valid() && index == old(index) - 1 && element == window[index]
    {
      element := list.elems[index - 1];
      index := index - 1;
    }
  }
}
