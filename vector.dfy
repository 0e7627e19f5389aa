/**
 The dynamic array `cpplab::vector<T>`: a heap buffer `data` of `capacity`
 slots, of which the first `size` hold the elements.
 */
module Cpplab {
  import opened Growth
  import opened VectorSpec

  /** Message carried by the out-of-range error of both `operator[]`. */
  const IndexMessage: string := "vector index out of bounds"

  /** Outcome of a bounds-checked access: a value, or the `std::out_of_range` error. */
  datatype Result<T> = Ok(value: T) | OutOfRange(what: string)

  class Vector<T(0)> {
    var data: array<T>
    var size: nat
    var capacity: nat
    /** Number of growth steps taken so far (instrumentation, not part of the source). */
    ghost var reallocations: nat

    /** Representation invariant: the logical length fits the buffer, which has `capacity` slots. */
    ghost predicate Valid()
      reads this
    {
      size <= capacity && data.Length == capacity
    }

    /** The elements, `data[0..size)`. */
    function Elements(): (s: seq<T>)
      reads this, data
      requires Valid()
      ensures |s| == size
    {
      data[..size]
    }

    /** Default constructor: empty, with no room (the null buffer is a zero-length array). */
    constructor ()
      ensures Valid() && fresh(data)
      ensures size == 0 && capacity == 0 && Elements() == []
      ensures reallocations == 0
    {
      data := new T[0];
      size := 0;
      capacity := 0;
      reallocations := 0;
    }

    /** Initializer-list constructor: exactly `|list|` slots, holding `list` in order. */
    constructor FromList(list: seq<T>)
      ensures Valid() && fresh(data)
      ensures size == |list| && capacity == |list|
      ensures Elements() == list
      ensures reallocations == 0
    {
      capacity := |list|;
      size := |list|;
      data := new T[|list|];
      reallocations := 0;
      new;
      var i := 0;
      while i < |list|
        invariant 0 <= i <= |list|
        invariant data[..i] == list[..i]
        modifies data
      {
        data[i] := list[i];
        i := i + 1;
      }
    }

    /** The const `operator[]`: the element at `index`, or out-of-range. */
    function At(index: nat): (r: Result<T>)
      reads this, data
      requires Valid()
      ensures r.Ok? <==> index < |Elements()|
      ensures r.Ok? ==> r.value == Elements()[index]
      ensures r.OutOfRange? ==> r.what == IndexMessage
    {
      if index < 0 || index >= size then OutOfRange(IndexMessage) else Ok(data[index])
    }

    /**
     The mutable `operator[]`, as used by its callers: `v[index] = value`.
     Out of range, nothing is written and the error is returned.
     */
    method Assign(index: nat, value: T) returns (r: Result<T>)
      requires Valid()
      modifies data
      ensures Valid()
      ensures r.Ok? <==> index < size
      ensures r.Ok? ==> r.value == value && Elements() == old(Elements())[index := value]
      ensures r.OutOfRange? ==> r.what == IndexMessage && data[..] == old(data[..])
    {
      if index < 0 || index >= size {
        return OutOfRange(IndexMessage);
      }
      data[index] := value;
      r := Ok(data[index]);
    }

    /** `size()`: the number of elements. */
    function Size(): (n: nat)
      reads this, data
      requires Valid()
      ensures n == |Elements()| && n <= capacity
    {
      size
    }

    /**
     `reallocate`: a fresh buffer one growth step larger, with the elements
     copied over in order; the size is unchanged.
     */
    method Reallocate()
      requires Valid()
      modifies this
      ensures Valid() && fresh(data)
      ensures size == old(size) && capacity == Grow(old(capacity))
      ensures Elements() == old(Elements())
      ensures reallocations == old(reallocations) + 1
    {
      var newCapacity := if capacity == 0 then 1 else 2 * capacity;
      var newData := new T[newCapacity];
      var i := 0;
      while i < size
        invariant 0 <= i <= size
        invariant newData[..i] == data[..i]
        modifies newData
      {
        newData[i] := data[i];
        i := i + 1;
      }
      data := newData;
      capacity := newCapacity;
      reallocations := reallocations + 1;
    }

    /** `push_back`: append `item`, growing first only when the buffer is full. */
    method PushBack(item: T)
      requires Valid()
      modifies this, data
      ensures Valid()
      ensures Elements() == old(Elements()) + [item]
      ensures old(size) >= old(capacity) ==>
        fresh(data) && capacity == Grow(old(capacity)) && reallocations == old(reallocations) + 1
      ensures old(size) < old(capacity) ==>
        data == old(data) && capacity == old(capacity) && reallocations == old(reallocations)
    {
      if size >= capacity {
        Reallocate();
      }
      data[size] := item;
      size := size + 1;
    }

    /** `pop_back`: drop the last element if there is one; storage and capacity are untouched. */
    method PopBack()
      requires Valid()
      modifies this`size
      ensures Valid()
      ensures size == if old(size) > 0 then old(size) - 1 else 0
      ensures Elements() == old(Elements())[..size]
      ensures data == old(data) && capacity == old(capacity) && data[..] == old(data[..])
    {
      if size > 0 {
        size := size - 1;
      }
    }

    /**
     `resize(newSize, value)`: the elements become `Resized(old elements, newSize, value)`.
     A grow within capacity fills the new slots in place; a grow beyond capacity
     appends `value` one `push_back` at a time; a shrink only lowers `size`.
     */
    method Resize(newSize: nat, value: T)
      requires Valid()
      modifies this, data
      ensures Valid()
      ensures Elements() == Resized(old(Elements()), newSize, value)
      ensures capacity == Fit(old(capacity), newSize)
      ensures reallocations == old(reallocations) + Steps(old(capacity), newSize)
      ensures newSize <= old(capacity) ==> data == old(data)
      ensures newSize > old(capacity) ==> fresh(data)
      ensures newSize <= old(size) ==> data[..] == old(data[..])
    {
      if newSize > size && newSize <= capacity {
        var i := size;
        while i < newSize
          invariant size <= i <= newSize
          invariant data[..i] == old(Elements()) + Fill(value, i - size)
          modifies data
        {
          data[i] := value;
          i := i + 1;
        }
      } else if newSize > capacity {
        var i := size;
        while i < newSize
          invariant Valid()
          invariant i == size && old(size) <= i <= newSize
          invariant Elements() == old(Elements()) + Fill(value, i - old(size))
          invariant capacity == Fit(old(capacity), i)
          invariant reallocations == old(reallocations) + Steps(old(capacity), i)
          invariant capacity == old(capacity) ==> data == old(data)
          invariant capacity != old(capacity) ==> fresh(data)
        {
          FitNext(old(capacity), i);
          PushBack(value);
          i := i + 1;
        }
      }
      size := newSize;
    }
  }

  /**
   `operator*` for two integer vectors: the sum of `lhs[i] * rhs[i]` over the
   first `min(lhs.size, rhs.size)` positions. Neither operand is modified.
   */
  method Multiply(lhs: Vector<int>, rhs: Vector<int>) returns (result: int)
    requires lhs.Valid() && rhs.Valid()
    ensures result == Dot(lhs.Elements(), rhs.Elements())
  {
    var minSize := if lhs.size < rhs.Size() then lhs.size else rhs.Size();
    result := 0;
    var i := 0;
    while i < minSize
      invariant 0 <= i <= minSize
      invariant result == DotUpTo(lhs.Elements(), rhs.Elements(), i)
    {
      var r := rhs.At(i);
      result := result + lhs.data[i] * r.value;
      i := i + 1;
    }
  }
}
