/**
 * `xs.map(step).filter(Boolean)` where each step yields either nothing
 * (`null`) or one entry, and may throw. A throw in any step aborts the whole
 * chain with that exception, the first in array order.
 */
module Collect {
  import opened Wrappers

  function MapFilter<T, U, E>(xs: seq<T>, step: T -> Result<Option<U>, E>): (r: Result<seq<U>, E>)
    ensures r.Ok? ==> |r.value| <= |xs|
  {
    if xs == [] then Ok([])
    else
      match step(xs[0])
      case Err(e) => Err(e)
      case Ok(head) =>
        match MapFilter(xs[1..], step)
        case Err(e) => Err(e)
        case Ok(tail) => Ok(if head.Some? then [head.value] + tail else tail)
  }

  /** One unfolding of the chain at a non-empty input. */
  lemma MapFilterCons<T, U, E>(xs: seq<T>, step: T -> Result<Option<U>, E>, head: Option<U>, tail: seq<U>)
    requires xs != [] && step(xs[0]) == Ok(head) && MapFilter(xs[1..], step) == Ok(tail)
    ensures MapFilter(xs, step) == Ok((if head.Some? then [head.value] else []) + tail)
  {
    assert [] + tail == tail;
  }

  predicate StrictlyIncreasing(idx: seq<nat>) {
    forall a, b :: 0 <= a < b < |idx| ==> idx[a] < idx[b]
  }

  /** The chain succeeds exactly when no step throws. */
  lemma {:induction false} MapFilterOkIff<T, U, E>(xs: seq<T>, step: T -> Result<Option<U>, E>)
    ensures MapFilter(xs, step).Ok? <==> forall i :: 0 <= i < |xs| ==> step(xs[i]).Ok?
  {
    if xs != [] {
      MapFilterOkIff(xs[1..], step);
      assert forall i :: 1 <= i < |xs| ==> xs[i] == xs[1..][i - 1];
    }
  }

  /**
   * The output is an order-preserving subsequence of the mapped input: entry
   * `k` is what the step made of element `idx[k]`, and every element whose
   * index is not in `idx` was mapped to nothing.
   */
  lemma {:induction false} MapFilterSubsequence<T, U, E>(xs: seq<T>, step: T -> Result<Option<U>, E>, out: seq<U>)
    returns (idx: seq<nat>)
    requires MapFilter(xs, step) == Ok(out)
    ensures |idx| == |out| && StrictlyIncreasing(idx)
    ensures forall k :: 0 <= k < |idx| ==> idx[k] < |xs| && step(xs[idx[k]]) == Ok(Some(out[k]))
    ensures forall i :: 0 <= i < |xs| && i !in idx ==> step(xs[i]) == Ok(None)
  {
    if xs == [] {
      return [];
    }
    var head := step(xs[0]).value;
    var tail := MapFilter(xs[1..], step).value;
    var tailIdx := MapFilterSubsequence(xs[1..], step, tail);
    var first: seq<nat> := if head.Some? then [0] else [];
    idx := first + Shift(tailIdx);
    MapFilterCons(xs, step, head, tail);
    ConsKept(xs, step, head, tail, tailIdx, out);
    ConsSkipped(xs, step, head, tailIdx);
  }

  /** The kept entries of `xs` are the first element's (if any) followed by the tail's, one index up. */
  lemma ConsKept<T, U, E>(xs: seq<T>, step: T -> Result<Option<U>, E>, head: Option<U>, tail: seq<U>, tailIdx: seq<nat>, out: seq<U>)
    requires xs != [] && step(xs[0]) == Ok(head)
    requires out == (if head.Some? then [head.value] else []) + tail
    requires |tailIdx| == |tail| && StrictlyIncreasing(tailIdx)
    requires forall k :: 0 <= k < |tailIdx| ==> tailIdx[k] < |xs[1..]| && step(xs[1..][tailIdx[k]]) == Ok(Some(tail[k]))
    ensures var idx := (if head.Some? then [0] else []) + Shift(tailIdx);
      |idx| == |out| && StrictlyIncreasing(idx) &&
      forall k :: 0 <= k < |idx| ==> idx[k] < |xs| && step(xs[idx[k]]) == Ok(Some(out[k]))
  {
    var first: seq<nat> := if head.Some? then [0] else [];
    var shifted := Shift(tailIdx);
    var idx := first + shifted;
    ConsIncreasing(first, tailIdx);
    forall k | 0 <= k < |idx| ensures idx[k] < |xs| && step(xs[idx[k]]) == Ok(Some(out[k])) {
      if k >= |first| {
        var j := k - |first|;
        assert idx[k] == tailIdx[j] + 1;
        assert xs[idx[k]] == xs[1..][tailIdx[j]];
      }
    }
  }

  /** Putting index 0 in front of increasing indices moved up by one keeps them increasing. */
  lemma ConsIncreasing(first: seq<nat>, tailIdx: seq<nat>)
    requires first == [] || first == [0]
    requires StrictlyIncreasing(tailIdx)
    ensures StrictlyIncreasing(first + Shift(tailIdx))
  {
    var idx := first + Shift(tailIdx);
    forall a, b | 0 <= a < b < |idx| ensures idx[a] < idx[b] {
      if a >= |first| {
        assert idx[a] == tailIdx[a - |first|] + 1 && idx[b] == tailIdx[b - |first|] + 1;
      } else {
        assert idx[b] == tailIdx[b - |first|] + 1;
      }
    }
  }

  /** An element of `xs` at no kept index was mapped to nothing. */
  lemma ConsSkipped<T, U, E>(xs: seq<T>, step: T -> Result<Option<U>, E>, head: Option<U>, tailIdx: seq<nat>)
    requires xs != [] && step(xs[0]) == Ok(head)
    requires forall i :: 0 <= i < |xs[1..]| && i !in tailIdx ==> step(xs[1..][i]) == Ok(None)
    ensures var idx := (if head.Some? then [0] else []) + Shift(tailIdx);
      forall i :: 0 <= i < |xs| && i !in idx ==> step(xs[i]) == Ok(None)
  {
    var shifted := Shift(tailIdx);
    var idx := (if head.Some? then [0] else []) + shifted;
    forall i | 0 <= i < |xs| && i !in idx ensures step(xs[i]) == Ok(None) {
      if i > 0 {
        forall j | 0 <= j < |tailIdx| ensures tailIdx[j] != i - 1 {
          assert shifted[j] in idx;
        }
        assert xs[i] == xs[1..][i - 1];
      }
    }
  }

  /** Every index moved up by one. */
  function Shift(idx: seq<nat>): seq<nat>
  {
    seq(|idx|, k requires 0 <= k < |idx| => idx[k] + 1)
  }

  /** When every step yields nothing, the output is empty. */
  lemma {:induction false} MapFilterNothing<T, U, E>(xs: seq<T>, step: T -> Result<Option<U>, E>)
    requires forall i :: 0 <= i < |xs| ==> step(xs[i]) == Ok(None)
    ensures MapFilter(xs, step) == Ok([])
  {
    if xs != [] {
      assert forall i :: 0 <= i < |xs[1..]| ==> xs[1..][i] == xs[i + 1];
      MapFilterNothing(xs[1..], step);
    }
  }

  /** Two steps that agree on every element give the same chain. */
  lemma {:induction false} MapFilterCongruent<T, U, E>(xs: seq<T>, f: T -> Result<Option<U>, E>, g: T -> Result<Option<U>, E>)
    requires forall i :: 0 <= i < |xs| ==> f(xs[i]) == g(xs[i])
    ensures MapFilter(xs, f) == MapFilter(xs, g)
  {
    if xs != [] {
      assert forall i :: 0 <= i < |xs[1..]| ==> xs[1..][i] == xs[i + 1];
      MapFilterCongruent(xs[1..], f, g);
    }
  }
}
