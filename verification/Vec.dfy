/** The growable array of clh/array.h, which holds the operations in flight. */
module Vec {
  import opened Sequences

  class Vector<T> {
    var ptr: array<T>
    var cap: nat
    var len: nat

    ghost predicate Valid()
      reads this
    {
      cap == ptr.Length && 0 < cap && len <= cap
    }

    ghost function Contents(): seq<T>
      reads this, ptr
      requires Valid()
    {
      ptr[..len]
    }

    /** array_create; `fill` stands for what malloc leaves in the cells. */
    constructor (capacity: nat, fill: T)
      requires capacity > 0
      ensures Valid() && fresh(ptr) && cap == capacity && Contents() == []
    {
      ptr := new T[capacity](_ => fill);
      cap := capacity;
      len := 0;
    }

    /** array_append: the capacity doubles when one cell is left. */
    method Append(elt: T)
      requires Valid()
      modifies this, ptr
      ensures Valid() && (ptr == old(ptr) || fresh(ptr))
      ensures Contents() == old(Contents()) + [elt]
      ensures cap == if old(len) + 1 >= old(cap) then 2 * old(cap) else old(cap)
    {
      if len + 1 >= cap {
        cap := 2 * cap;
        var old_ptr, n := ptr, len;
        ptr := new T[cap](i requires 0 <= i reads old_ptr => if i < n && i < old_ptr.Length then old_ptr[i] else elt);
        assert ptr[..n] == old_ptr[..n];
      }
      ptr[len] := elt;
      len := len + 1;
    }

    /** array_remove: the last element takes the place of element idx. The
        guard is the one of the macro; callers pass an index in range. */
    method Remove(idx: nat)
      requires Valid() && idx < len
      modifies this`len, ptr
      ensures Valid()
      ensures Contents() == SwapRemove(old(Contents()), idx)
      ensures cap == old(cap)
    {
      if len > 0 || idx < len {
        len := len - 1;
        ptr[idx] := ptr[len];
      }
    }
  }
}
