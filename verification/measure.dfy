/** Numbers the controller reads from the page: one geometry snapshot per
    evaluation, JavaScript's rounding, and the summed height of the offset elements. */
module Measure {

  /** Math.round: the nearest integer, halves rounded towards positive infinity. */
  function Round(x: real): (r: int)
    ensures x - 0.5 < r as real <= x + 0.5
  {
    (x + 0.5).Floor
  }

  /** The least whole number at or above `x`. */
  function Ceil(x: real): (r: int)
    ensures x <= r as real < x + 1.0
    ensures x == x.Floor as real ==> r as real == x
  {
    if x == x.Floor as real then x.Floor else x.Floor + 1
  }

  /** A rounded value reaches a whole number exactly when the value is at most half a
      unit below it. */
  lemma RoundAtLeast(x: real, k: int)
    ensures Round(x) >= k <==> x >= k as real - 0.5
  {
  }

  /** A whole number reaches `x` exactly when it reaches `x`'s ceiling. */
  lemma AtLeastCeil(n: int, x: real)
    ensures n as real >= x <==> n >= Ceil(x)
  {
  }

  /** Math.abs. */
  function Abs(x: real): (r: real)
    ensures 0.0 <= r && (r == x || r == -x)
  {
    if x < 0.0 then -x else x
  }

  /** Math.max on two integers. */
  function MaxInt(a: int, b: int): (r: int)
    ensures a <= r && b <= r && (r == a || r == b)
  {
    if a < b then b else a
  }

  /** Everything one evaluation of the sticky status measures, read at one moment:
      - placeholderTop: top of the placeholder's bounding rect (the target's place in the flow);
      - targetTop, targetBottom, targetHeight: the target's bounding rect;
      - parentBottom, parentHeight: the parent container's bounding rect (meaningless
        when containment is off);
      - frozenTop: the distance between the parent container's top and the target's top,
        which freezing pins the target at;
      - clientHeight: document.documentElement.clientHeight; innerHeight: window.innerHeight;
      - documentHeight: the largest of the document's five height measures. */
  datatype Snapshot = Snapshot(
    placeholderTop: real,
    targetTop: real,
    targetBottom: real,
    targetHeight: real,
    parentBottom: real,
    parentHeight: real,
    frozenTop: real,
    clientHeight: int,
    innerHeight: int,
    documentHeight: int)

  /** Where the offset comes from: a fixed number, or a NodeList of offset elements
      whose rendered heights are given as measured at the time of the call. */
  datatype OffsetSource = FixedOffset | OffsetElements(heights: seq<real>)

  /** Sum of the rounded heights, in list order. */
  function SumRounded(hs: seq<real>): int
  {
    if |hs| == 0 then 0 else SumRounded(hs[..|hs| - 1]) + Round(hs[|hs| - 1])
  }

  /** Sum of the exact heights, in list order. */
  function Sum(hs: seq<real>): real
  {
    if |hs| == 0 then 0.0 else Sum(hs[..|hs| - 1]) + hs[|hs| - 1]
  }

  /** The offset getOffsetValue yields: the rounded heights summed, or the current
      offset (`this.offset || 0`, which is the current value for any number). An
      element offset is a whole number of pixels within half a pixel per element of
      the elements' exact total height. */
  function OffsetValue(src: OffsetSource, current: real): (r: real)
    ensures src.FixedOffset? ==> r == current
    ensures src.OffsetElements? ==> r == r.Floor as real
    ensures src.OffsetElements? ==>
      Sum(src.heights) - (|src.heights| as real) * 0.5 <= r <= Sum(src.heights) + (|src.heights| as real) * 0.5
  {
    match src
    case FixedOffset => current
    case OffsetElements(hs) =>
      OffsetApproximatesHeights(hs);
      SumRounded(hs) as real
  }

  /** getOffsetValue, with the forEach accumulation written as a loop. */
  method GetOffsetValue(src: OffsetSource, current: real) returns (resultSum: real)
    ensures src.FixedOffset? ==> resultSum == current
    ensures src.OffsetElements? ==> resultSum == SumRounded(src.heights) as real
    ensures resultSum == OffsetValue(src, current)
  {
    match src
    case FixedOffset =>
      resultSum := current;
    case OffsetElements(hs) =>
      var acc := 0;
      var i := 0;
      while i < |hs|
        invariant 0 <= i <= |hs|
        invariant acc == SumRounded(hs[..i])
      {
        assert hs[..i + 1][..i] == hs[..i];
        acc := acc + Round(hs[i]);
        i := i + 1;
      }
      assert hs[..|hs|] == hs;
      resultSum := acc as real;
  }

  /** The summed offset is within half a pixel per element of the exact total height. */
  lemma {:induction false} OffsetApproximatesHeights(hs: seq<real>)
    ensures Sum(hs) - (|hs| as real) * 0.5 <= SumRounded(hs) as real <= Sum(hs) + (|hs| as real) * 0.5
  {
    if |hs| > 0 {
      OffsetApproximatesHeights(hs[..|hs| - 1]);
    }
  }

  /** Heights that are whole pixels add up exactly. */
  lemma {:induction false} WholePixelHeightsAddExactly(hs: seq<real>)
    requires forall i :: 0 <= i < |hs| ==> hs[i] == hs[i].Floor as real
    ensures SumRounded(hs) as real == Sum(hs)
  {
    if |hs| > 0 {
      var init, last := hs[..|hs| - 1], hs[|hs| - 1];
      assert forall i :: 0 <= i < |init| ==> init[i] == hs[i];
      WholePixelHeightsAddExactly(init);
      assert last == last.Floor as real;
      assert Round(last) == last.Floor;
    }
  }

  /** Splitting the offset elements splits the offset. */
  lemma {:induction false} OffsetIsAdditive(a: seq<real>, b: seq<real>)
    ensures SumRounded(a + b) == SumRounded(a) + SumRounded(b)
  {
    if |b| == 0 {
      assert a + b == a;
    } else {
      assert (a + b)[..|a + b| - 1] == a + b[..|b| - 1];
      OffsetIsAdditive(a, b[..|b| - 1]);
    }
  }

  /** Two offset elements of rendered heights 40 and 30 give an offset of 70. */
  lemma TwoHeaderOffset()
    ensures OffsetValue(OffsetElements([40.0, 30.0]), 0.0) == 70.0
  {
    assert [40.0, 30.0][..1] == [40.0];
    assert [40.0][..0] == [];
  }
}
