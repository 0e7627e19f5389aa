# cpplab::vector in Dafny

A model of `cpplab::vector<T>`, the minimal dynamic array of
`Lista1/zad2.cpp`. The vector owns a heap buffer `data_` of `capacity_`
slots. The first `size_` slots hold its elements. When it is full it grows
geometrically: capacity 0 becomes 1, and any other capacity doubles.

The model is a Dafny class `Cpplab.Vector<T>` with the same three fields
(`data: array<T>`, `size`, `capacity`). `Valid()` is the representation
invariant: `size <= capacity` and the array has exactly `capacity` slots.
`Elements()` is the abstract contents `data[0..size)`. Every mutating method
keeps `Valid()` and states its new contents as a function of the old ones.

Files:

- `growth.dfy` (module `Growth`): the capacity schedule.
  - `Grow` is one growth step.
  - `Fit(c, n)` is the capacity reached by growing from `c` one step at a time until `n` elements fit.
  - `Steps(c, n)` is the number of growth steps this takes.
- `vector_spec.dfy` (module `VectorSpec`): what the operations do to the contents, as functions on sequences.
  - `Resized` is the effect of `resize`.
  - `Dot` is the effect of `operator*`, accumulated front to back as the source's loop does.
  - `PairwiseSum` is an independent recursive reference definition of the same sum.
- `vector.dfy` (module `Cpplab`): the class, and `Multiply`, which is `operator*` on two integer vectors.
- `demo.dfy` (module `Demo`): the three scenarios of `main`. Each replays the scenario's calls on the model; the result the program prints is proved as a postcondition.

A ghost field `reallocations` counts growth steps. It is instrumentation
for the growth bound and has no counterpart in the source.

## Model

| member | source | states |
|---|---|---|
| `Growth.Fit` | Lista1/zad2.cpp:74-76 | The capacity reached by repeated growth steps holds the requested number of elements and never drops below the starting capacity. When any growth happened, it is less than twice the requested number of elements. |
| `Growth.FitCompose` | Lista1/zad2.cpp:57-63 | Growing to `m` in one go equals growing to any `n <= m` and then on to `m`. The growth-step counts add up. |
| `Growth.FitNext` | Lista1/zad2.cpp:59-60 | Adding one element takes a growth step exactly when the current capacity is already full. Otherwise the capacity stays the same. |
| `Growth.FitIsScaledPower` | Lista1/zad2.cpp:87 | From a non-zero capacity `c`, every capacity reached is `c * 2^k`, where `k` is the number of growth steps. |
| `Growth.GrowthFromEmpty` | Lista1/zad2.cpp:57-63 | From empty, holding `n > 0` elements takes `k >= 1` growth steps. The capacity is then `2^(k-1)`, the least power of two that is at least `n`. Hence at most `ceil(log2 n) + 1` reallocations happen. |
| `VectorSpec.Resized` | Lista1/zad2.cpp:69-78 | After `resize(n, v)` the length is `n`. Elements below `min(old size, n)` are unchanged. Every position from the old size up to `n` holds `v`. |
| `VectorSpec.ShrinkThenGrow` | Lista1/zad2.cpp:69-78 | A shrink to `m` followed by a grow to `n` keeps the first `m` elements. It fills positions `m..n` with the second fill value, whatever the slots held before the shrink. |
| `VectorSpec.DotIsPairwiseSum` | Lista1/zad2.cpp:47-55 | The front-to-back accumulation of `operator*` equals the recursive sum of pairwise products over the common length. |
| `VectorSpec.DotTruncates` | Lista1/zad2.cpp:50-53 | The product of operands of unequal length equals the product of both operands cut to the shorter length. |
| `VectorSpec.DotIgnoresSurplus` | Lista1/zad2.cpp:50-53 | Elements appended beyond the other operand's length do not change the product. |
| `VectorSpec.DotCommutes` | Lista1/zad2.cpp:52-53 | For integer vectors, swapping the operands does not change the product. |
| `Cpplab.Vector.constructor` | Lista1/zad2.cpp:12-16 | The default constructor yields a valid vector with size 0, capacity 0 and no elements. |
| `Cpplab.Vector.FromList` | Lista1/zad2.cpp:17-23 | The initializer-list constructor yields size and capacity both equal to the list length, with the list's elements in order. |
| `Cpplab.Vector.At` | Lista1/zad2.cpp:34-39 | The const `operator[]` succeeds iff `index < size`, and then returns element `index`. Otherwise it returns out-of-range with the message "vector index out of bounds". |
| `Cpplab.Vector.Assign` | Lista1/zad2.cpp:28-33 | Assigning through the mutable `operator[]` succeeds iff `index < size`. On success it replaces exactly element `index`. Otherwise it returns out-of-range and leaves the buffer unchanged. |
| `Cpplab.Vector.Size` | Lista1/zad2.cpp:79-82 | `size()` is the number of elements, and is at most the capacity. |
| `Cpplab.Vector.Reallocate` | Lista1/zad2.cpp:85-93 | The capacity becomes 1 if it was 0, and twice the old value otherwise. The buffer is freshly allocated, the elements are preserved in order, and the size is unchanged. |
| `Cpplab.Vector.PushBack` | Lista1/zad2.cpp:57-63 | `item` is appended and earlier elements are unchanged. The vector reallocates, with one growth step, exactly when `size >= capacity`. Otherwise buffer and capacity stay the same. |
| `Cpplab.Vector.PopBack` | Lista1/zad2.cpp:64-68 | The size decreases by one when positive and stays 0 at 0. The contents become a prefix of the old ones. The buffer, its stored slots and the capacity never change. |
| `Cpplab.Vector.Resize` | Lista1/zad2.cpp:69-78 | The contents become `Resized(old contents, newSize, value)`. The capacity becomes `Fit(old capacity, newSize)` after exactly `Steps(old capacity, newSize)` reallocations. The buffer is kept when `newSize` fits, and a shrink leaves the stored slots untouched. |
| `Cpplab.Multiply` | Lista1/zad2.cpp:47-55 | `operator*` on integer vectors returns the sum of `lhs[i] * rhs[i]` over `i < min(lhs.size, rhs.size)`. It reads the right operand through the bounds-checked `operator[]` and modifies neither operand. |
| `Demo.PushAndOverwrite` | Lista1/zad2.cpp:103-109 | Pushing `0..9` onto an empty vector and then setting index 5 to 999 yields `[0,1,2,3,4,999,6,7,8,9]`, with capacity 16 after 5 growth steps. |
| `Demo.ResizeSequence` | Lista1/zad2.cpp:111-114 | `resize(10,"Hello")`, `resize(2,"")`, `resize(5,"world")` yields `["Hello","Hello","world","world","world"]`. |
| `Demo.DotProduct` | Lista1/zad2.cpp:116-119 | `{1,3,2} * {4,5,6,7}` is 31. |

## Left out

- `operator<<` (Lista1/zad2.cpp:40-45) is stream output and is not modelled. It writes each element followed by a single space.
- `main` (Lista1/zad2.cpp:101-123) prints to `std::cout`, which is not modelled. Its integer, string and integer-product scenarios are the `Demo` methods.
- `operator*` is modelled only for two `int` vectors. The `int` × `double` product (lines 118 and 120) is floating-point arithmetic. The element type `decltype(data_[0] * rhs[0])` is a compile-time deduction.
- `Cpplab.Multiply`: the elements and the accumulator are unbounded Dafny integers, not 32-bit `int`. The model matches the source only when no product `lhs[i] * rhs[i]` and no partial sum leaves the range of `int`. Outside it, the source's `result += data_[i] * rhs[i]` overflows, which is undefined behaviour (for example `{65536} * {65536}`), while the model returns the exact sum.
- The destructor (lines 24-27) and the ownership transfer in `reallocate` (`data_.reset`) are left out because Dafny's heap is garbage-collected. The destructor calls `data_.release()`, which gives up the buffer without freeing it and so leaks it. A reallocation is modelled as allocating a fresh array and copying into it.
- Allocation failure of `new` and `make_unique` is not modelled.
- `size_t` is modelled as an unbounded `nat`, because the wrap-around needs a buffer of at least 2^63 slots (64-bit `size_t`). So the model omits wrap-around of `2 * capacity_` and of `++size_`. The `index < 0` half of the bounds test is kept but can never hold, as in the source.
- `Cpplab.Vector.Assign`: the mutable `operator[]` returns a reference that the caller may keep, read and write later. The model covers its one use in the source, assigning through it once. Reading through the reference is `At`.
- Slots beyond `size` hold default values only when `Reallocate` or a constructor has just allocated them. In the source, `new T[n]` leaves such fresh slots indeterminate for built-in `T`. After `pop_back` or a shrinking `resize` they keep the removed elements, as in the source. No operation reads them.
- The default constructor's null `data_` is modelled as a zero-length array.
