/**
 * The moving-average window of the Python host: `smooth_value` appends the
 * new sample, drops the oldest once the list is longer than the window size,
 * and returns the mean of what is left.
 */
module Smoothing {
  import opened Numeric

  /** The window size every caller in the source uses (the parameter's default). */
  const DefaultWindowSize: nat := 3

  /** The window after one update: append, then evict the single oldest entry if too long. */
  function Slide(window: seq<real>, newValue: real, windowSize: nat): seq<real>
  {
    var grown := window + [newValue];
    if |grown| > windowSize then grown[1..] else grown
  }

  /** One update appends the new value at the end and removes at most the head. */
  lemma SlideShape(window: seq<real>, newValue: real, windowSize: nat)
    requires windowSize > 0
    ensures var w := Slide(window, newValue, windowSize);
      && |w| > 0 && w[|w| - 1] == newValue
      && (|window| + 1 > windowSize <==> |w| == |window|)
      && (|window| + 1 <= windowSize <==> w == window + [newValue])
      && (|window| + 1 > windowSize ==> w == window[1..] + [newValue])
  {
    var grown := window + [newValue];
    if |grown| > windowSize {
      assert grown[1..] == window[1..] + [newValue];
    }
  }

  /** A window no longer than its size stays no longer than its size. */
  lemma SlideBounded(window: seq<real>, newValue: real, windowSize: nat)
    requires |window| <= windowSize
    ensures |Slide(window, newValue, windowSize)| <= windowSize
  {
  }

  /** The window after feeding `inputs` one by one into an initially empty list. */
  function Feed(inputs: seq<real>, windowSize: nat): seq<real>
  {
    if inputs == [] then []
    else Slide(Feed(inputs[..|inputs| - 1], windowSize), inputs[|inputs| - 1], windowSize)
  }

  function Min(a: nat, b: nat): nat {
    if a <= b then a else b
  }

  /** The window holds exactly the last min(n, size) inputs, in arrival order. */
  lemma {:induction false} FeedKeepsLatest(inputs: seq<real>, windowSize: nat)
    ensures Feed(inputs, windowSize) == inputs[|inputs| - Min(|inputs|, windowSize)..]
  {
    if inputs != [] {
      var n := |inputs|;
      var prefix := inputs[..n - 1];
      FeedKeepsLatest(prefix, windowSize);
      var before := prefix[|prefix| - Min(|prefix|, windowSize)..];
      assert before + [inputs[n - 1]] == inputs[n - 1 - Min(n - 1, windowSize)..];
    }
  }

  /** The outputs of successive `smooth_value` calls on `inputs`, from an empty list. */
  function SmoothedOutputs(inputs: seq<real>, windowSize: nat): (out: seq<real>)
    requires windowSize > 0
    ensures |out| == |inputs|
  {
    if inputs == [] then []
    else
      var window := Feed(inputs, windowSize);
      SlideShape(Feed(inputs[..|inputs| - 1], windowSize), inputs[|inputs| - 1], windowSize);
      SmoothedOutputs(inputs[..|inputs| - 1], windowSize) + [Mean(window)]
  }

  /** Feeding 10, 20, 30, 40 with the default size yields 10, 15, 20, 30. */
  lemma SmoothedOutputsExample()
    ensures SmoothedOutputs([10.0, 20.0, 30.0, 40.0], DefaultWindowSize) == [10.0, 15.0, 20.0, 30.0]
  {
    var xs := [10.0, 20.0, 30.0, 40.0];
    assert xs[..3] == [10.0, 20.0, 30.0];
    assert xs[..3][..2] == [10.0, 20.0];
    assert xs[..3][..2][..1] == [10.0];
    assert Feed([10.0], 3) == [10.0];
    assert Feed([10.0, 20.0], 3) == [10.0, 20.0];
    assert Feed([10.0, 20.0, 30.0], 3) == [10.0, 20.0, 30.0];
    assert Feed(xs, 3) == [20.0, 30.0, 40.0];
    assert Sum([10.0, 20.0]) == 30.0 by {
      assert [10.0, 20.0][..1] == [10.0];
      assert [10.0][..0] == [];
    }
    assert Sum([10.0, 20.0, 30.0]) == 60.0 by {
      assert [10.0, 20.0, 30.0][..2] == [10.0, 20.0];
      assert [10.0, 20.0][..1] == [10.0];
      assert [10.0][..0] == [];
    }
    assert Sum([20.0, 30.0, 40.0]) == 90.0 by {
      assert [20.0, 30.0, 40.0][..2] == [20.0, 30.0];
      assert [20.0, 30.0][..1] == [20.0];
      assert [20.0][..0] == [];
    }
  }

  /** Samples from [lo, hi] keep the window, and therefore its mean, inside [lo, hi]. */
  lemma SlideWithin(window: seq<real>, newValue: real, windowSize: nat, lo: real, hi: real)
    requires windowSize > 0
    requires AllWithin(window, lo, hi) && lo <= newValue <= hi
    ensures AllWithin(Slide(window, newValue, windowSize), lo, hi)
    ensures lo <= Mean(Slide(window, newValue, windowSize)) <= hi
  {
    SlideShape(window, newValue, windowSize);
    var w := Slide(window, newValue, windowSize);
    assert AllWithin(w, lo, hi);
    MeanWithin(w, lo, hi);
  }

  /** One smoothing window (a Python list that `smooth_value` mutates in place). */
  class SmoothingWindow {
    var values: seq<real>

    constructor ()
      ensures values == []
    {
      values := [];
    }

    /** `smooth_value(values, newValue, windowSize)`. */
    method Smooth(newValue: real, windowSize: nat) returns (mean: real)
      requires windowSize > 0
      modifies this
      ensures values == Slide(old(values), newValue, windowSize)
      ensures |values| > 0 && mean == Mean(values)
      ensures |old(values)| <= windowSize ==> |values| <= windowSize
    {
      values := values + [newValue];
      if |values| > windowSize {
        values := values[1..];
      }
      mean := Mean(values);
    }
  }
}
