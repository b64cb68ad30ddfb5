/** `List` of 20_ObjectOrientation/size_oo.cpp: a fixed array of 100
    `int`s and a count; `add` appends while there is room. */
module SizeList {
  const Capacity: nat := 100

  class List {
    /** `elements`, uninitialised in C++; 0 here. */
    const elements: array<int>
    /** `size`. */
    var size: nat

    ghost predicate Valid()
      reads this
    {
      elements.Length == Capacity && size <= Capacity
    }

    /** The elements added so far, in order. */
    function Contents(): seq<int>
      requires Valid()
      reads this, elements
    {
      elements[..size]
    }

    /** `List()`: empty. */
    constructor ()
      ensures Valid() && fresh(elements) && Contents() == []
    {
      elements := new int[Capacity](_ => 0);
      size := 0;
    }

    /** `add(element)`: when there is room the element goes after the
        others, which stay; a full list is left as it was. */
    method Add(element: int)
      requires Valid()
      modifies this, elements
      ensures Valid()
      ensures old(size) < Capacity ==> Contents() == old(Contents()) + [element]
      ensures old(size) == Capacity ==> size == old(size) && elements[..] == old(elements[..])
    {
      if size < Capacity {
        elements[size] := element;
        size := size + 1;
      }
    }

    /** `getSize()`: the number of elements added, never above 100. */
    function GetSize(): (s: nat)
      requires Valid()
      reads this, elements
      ensures s == |Contents()| && s <= Capacity
    {
      size
    }
  }

  /** `main`: three adds to a new list, then `getSize()` is 3. */
  method ThreeAdds() returns (s: nat, contents: seq<int>)
    ensures s == 3 && contents == [1, 2, 3]
  {
    var list := new List();
    list.Add(1);
    list.Add(2);
    list.Add(3);
    s := list.GetSize();
    contents := list.Contents();
  }
}
