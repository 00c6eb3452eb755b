/**
 * `MyLibraryEnumerator<TU>`: a forward cursor over the library's item list.
 * The state machine has three states: not started (`index == 0`, no current
 * element), in progress (`current` is the element at `index - 1`), and
 * exhausted (`index == |list|`, `current` keeps the last element yielded).
 */
module Enumeration {
  import opened Wrappers

  class LibraryEnumerator<T> {
    /** The list being traversed; the enumerator never changes it. */
    const list: seq<T>
    var index: nat
    /** `None` is the `default` value `Current` holds before the first `MoveNext`. */
    var current: Option<T>

    /** The cursor stays within the list and `current` is the element just passed. */
    ghost predicate Valid()
      reads this
    {
      index <= |list| &&
      current == (if index == 0 then None else Some(list[index - 1]))
    }

    constructor (list: seq<T>)
      ensures Valid()
      ensures this.list == list && index == 0 && current == None
    {
      this.list := list;
      index := 0;
      current := None;
    }

    /** Advances to the next element; false, changing nothing, once the list is exhausted. */
    method MoveNext() returns (moved: bool)
      requires Valid()
      modifies this
      ensures Valid()
      ensures moved <==> old(index) < |list|
      ensures moved ==> index == old(index) + 1 && current == Some(list[old(index)])
      ensures !moved ==> index == old(index) && current == old(current)
    {
      if index >= |list| {
        return false;
      }
      current := Some(list[index]);
      index := index + 1;
      return true;
    }

    /** Returns to the not-started state from any state. */
    method Reset()
      requires Valid()
      modifies this
      ensures Valid()
      ensures index == 0 && current == None
    {
      index := 0;
      current := None;
    }

    /** `Current`: the element most recently yielded, or the default before the first one. */
    function Current(): (r: Option<T>)
      requires Valid()
      reads this
      ensures r.Some? <==> index > 0
      ensures r.Some? ==> r.value == list[index - 1]
    {
      current
    }
  }

  /**
   * `Reset` followed by `MoveNext` yields the first element again: the value
   * seen after a reset is the one seen on the first pass.
   */
  method FirstAfterReset<T>(list: seq<T>) returns (first: Option<T>, again: Option<T>)
    ensures first == again
    ensures |list| > 0 ==> first == Some(list[0])
    ensures |list| == 0 ==> first == None
  {
    var en := new LibraryEnumerator(list);
    var moved := en.MoveNext();
    first := en.Current();
    if moved {
      var _ := en.MoveNext();
    }
    en.Reset();
    moved := en.MoveNext();
    again := en.Current();
  }
}
