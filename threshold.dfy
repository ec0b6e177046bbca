/** Binarisation of an accumulated confidence map (test.py, `test_models`).

    The map returned by the multi-scale, test-time-augmented predictor is
    turned into a 0/255 mask by two masked assignments that run one after the
    other on the same array:
      pass one sets every element strictly above `4.0 * S` to 255,
      pass two sets every element at or below `4.0 * S` to 0,
    where `S` is the number of scales.  Pass two re-tests the 255s written by
    pass one, so the outcome depends on whether 255 itself lies above the
    threshold.  The map is flattened row-major into one sequence: both passes
    are elementwise, so the shape plays no part.
 */
module Threshold {

  /** The literal calibration constant multiplied by the number of scales. */
  const PerScaleThreshold: real := 4.0

  const Foreground: real := 255.0
  const Background: real := 0.0

  /** The threshold `4.0 * len_scales` for `S` scales. */
  function Cutoff(lenScales: nat): (t: real)
    ensures t >= 0.0
    ensures lenScales > 0 ==> t >= PerScaleThreshold
  {
    PerScaleThreshold * lenScales as real
  }

  /** Pass one on one element: `mask[mask > t] = 255`. */
  function RaiseStep(x: real, t: real): real {
    if x > t then Foreground else x
  }

  /** Pass two on one element: `mask[mask <= t] = 0`. */
  function ZeroStep(x: real, t: real): real {
    if x <= t then Background else x
  }

  /** Pass one over the whole map. */
  function RaisePass(m: seq<real>, t: real): (r: seq<real>)
    ensures |r| == |m|
  {
    seq(|m|, i requires 0 <= i < |m| => RaiseStep(m[i], t))
  }

  /** Pass two over the whole map. */
  function ZeroPass(m: seq<real>, t: real): (r: seq<real>)
    ensures |r| == |m|
  {
    seq(|m|, i requires 0 <= i < |m| => ZeroStep(m[i], t))
  }

  predicate IsBinary(x: real) {
    x == Background || x == Foreground
  }

  /** The mask the source computes: pass one, then pass two, with the
      threshold for `lenScales` scales.  Every element ends as 0 or 255; it
      ends as 255 exactly when its input was above the threshold AND the
      threshold lies below 255. */
  function Binarize(m: seq<real>, lenScales: nat): (r: seq<real>)
    ensures |r| == |m|
    ensures forall i :: 0 <= i < |r| ==> IsBinary(r[i])
    ensures forall i :: 0 <= i < |r| ==>
              (r[i] == Foreground <==> m[i] > Cutoff(lenScales) && Cutoff(lenScales) < Foreground)
  {
    ZeroPass(RaisePass(m, Cutoff(lenScales)), Cutoff(lenScales))
  }

  /** Reference reading of the thresholder: 255 above the threshold, else 0. */
  function Intended(m: seq<real>, t: real): (r: seq<real>)
    ensures |r| == |m|
  {
    seq(|m|, i requires 0 <= i < |m| => if m[i] > t then Foreground else Background)
  }

  /** Both passes, in place, as the two numpy masked assignments do. */
  method BinarizeInPlace(mask: array<real>, lenScales: nat)
    modifies mask
    ensures mask[..] == Binarize(old(mask[..]), lenScales)
  {
    var t := Cutoff(lenScales);
    var i := 0;
    while i < mask.Length
      invariant 0 <= i <= mask.Length
      invariant forall k :: 0 <= k < i ==> mask[k] == RaiseStep(old(mask[k]), t)
      invariant forall k :: i <= k < mask.Length ==> mask[k] == old(mask[k])
    {
      if mask[i] > t {
        mask[i] := Foreground;
      }
      i := i + 1;
    }
    ghost var raised := mask[..];
    assert raised == RaisePass(old(mask[..]), t);
    i := 0;
    while i < mask.Length
      invariant 0 <= i <= mask.Length
      invariant forall k :: 0 <= k < i ==> mask[k] == ZeroStep(raised[k], t)
      invariant forall k :: i <= k < mask.Length ==> mask[k] == raised[k]
    {
      if mask[i] <= t {
        mask[i] := Background;
      }
      i := i + 1;
    }
    assert mask[..] == ZeroPass(raised, t);
  }

  /** While the threshold is below 255 the two passes agree with the
      reference reading, element by element. */
  lemma BinarizeMatchesIntended(m: seq<real>, lenScales: nat)
    requires Cutoff(lenScales) < Foreground
    ensures Binarize(m, lenScales) == Intended(m, Cutoff(lenScales))
  {
  }

  /** With 64 or more scales the threshold reaches 255, pass two re-zeros
      every 255 written by pass one, and the whole mask is background. */
  lemma ManyScalesGiveEmptyMask(m: seq<real>, lenScales: nat)
    requires lenScales >= 64
    ensures Cutoff(lenScales) >= Foreground
    ensures forall i :: 0 <= i < |m| ==> Binarize(m, lenScales)[i] == Background
  {
  }

  /** A value exactly on the threshold becomes background: the 255 branch
      uses a strict comparison. */
  lemma BoundaryIsBackground(m: seq<real>, lenScales: nat, i: nat)
    requires i < |m| && m[i] == Cutoff(lenScales)
    ensures Binarize(m, lenScales)[i] == Background
  {
  }

  /** Thresholding its own output again with the same scale count changes
      nothing. */
  lemma BinarizeIdempotent(m: seq<real>, lenScales: nat)
    ensures Binarize(Binarize(m, lenScales), lenScales) == Binarize(m, lenScales)
  {
  }

  /** The output order follows the input order: a larger confidence never
      yields a smaller mask value. */
  lemma BinarizeMonotone(m: seq<real>, lenScales: nat, i: nat, j: nat)
    requires i < |m| && j < |m| && m[i] <= m[j]
    ensures Binarize(m, lenScales)[i] <= Binarize(m, lenScales)[j]
  {
  }

  /** Each output element depends only on the input element at the same
      position: changing other elements leaves it alone. */
  lemma BinarizePointwise(m: seq<real>, m': seq<real>, lenScales: nat, i: nat)
    requires i < |m| && i < |m'| && m[i] == m'[i]
    ensures Binarize(m, lenScales)[i] == Binarize(m', lenScales)[i]
  {
  }
}
