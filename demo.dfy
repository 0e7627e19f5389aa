/**
 The three scenarios of the demonstration program: each replays the
 scenario's calls on the model, and its printed result is proved as a
 postcondition.
 */
module Demo {
  import opened Growth
  import opened VectorSpec
  import opened Cpplab

  /**
   Push `0..9` onto an empty vector, then overwrite index 5 with 999.
   Ten pushes from empty end at capacity 16 after five growth steps.
   */
  method PushAndOverwrite() returns (contents: seq<int>, capacity: nat, ghost growthSteps: nat)
    ensures contents == [0, 1, 2, 3, 4, 999, 6, 7, 8, 9]
    ensures capacity == 16 && growthSteps == 5
  {
    var v := new Vector<int>();
    var i := 0;
    while i < 10
      invariant 0 <= i <= 10
      invariant v.Valid() && fresh(v.data)
      invariant v.Elements() == seq(i, k => k)
      invariant v.capacity == Fit(0, i)
      invariant v.reallocations == Steps(0, i)
    {
      FitNext(0, i);
      v.PushBack(i);
      i := i + 1;
    }
    var r := v.Assign(5, 999);
    contents := v.Elements();
    assert contents == seq(10, k => k)[5 := 999];
    capacity := v.capacity;
    growthSteps := v.reallocations;
  }

  /** `resize(10, "Hello")`, `resize(2, "")`, `resize(5, "world")` on an empty vector of strings. */
  method ResizeSequence() returns (contents: seq<string>)
    ensures contents == ["Hello", "Hello", "world", "world", "world"]
  {
    var v := new Vector<string>();
    v.Resize(10, "Hello");
    v.Resize(2, "");
    v.Resize(5, "world");
    contents := v.Elements();
  }

  /** `{1, 3, 2} * {4, 5, 6, 7}`: the fourth element of the longer operand is ignored. */
  method DotProduct() returns (result: int)
    ensures result == 31
  {
    var a := new Vector<int>.FromList([1, 3, 2]);
    var b := new Vector<int>.FromList([4, 5, 6, 7]);
    result := Multiply(a, b);
  }
}
