/** The two driver loops of test.py.

    `test_models` runs the predictor on every image of the source listing,
    thresholds the confidence map in place, replicates it into three
    channels, casts it to 8-bit and writes it under the target directory.
    `main` runs `test_models` once per selected checkpoint.

    The predictor (network, weights loading, test-time augmentation and
    multi-scale aggregation) is a parameter: a total function from the
    weights path, the image path and the scale list to a flattened
    confidence map.  Writes are returned, in order, as a list of records instead
    of being written to disk; directory listings are parameters.
 */
module Inference {
  import opened Wrappers
  import Threshold
  import Checkpoints
  import Paths

  /** Weights path, image path, scales |-> accumulated confidence map. */
  type Predictor = (string, string, seq<real>) -> seq<real>

  /** One call of `cv2.imwrite`: the path written and the pixels, each pixel
      holding its three channel values.  A later write to the same path
      replaces an earlier one on disk. */
  datatype MaskFile = MaskFile(path: string, image: seq<seq<int>>)

  /** One checkpoint of the sweep: where its weights come from, where its
      masks go, and the masks written. */
  datatype Run = Run(checkpoint: string, target: string, weights: string, written: seq<MaskFile>)

  /** `mask[:, :, None]` followed by concatenating three copies along the
      channel axis: every pixel gets three channels. */
  function Replicate<T>(m: seq<T>): (r: seq<seq<T>>)
    ensures |r| == |m|
    ensures forall i :: 0 <= i < |r| ==> |r[i]| == 3
  {
    seq(|m|, i requires 0 <= i < |m| => [m[i], m[i], m[i]])
  }

  /** Channel `c` of a multi-channel image. */
  function Channel<T>(img: seq<seq<T>>, c: nat): (r: seq<T>)
    requires forall i :: 0 <= i < |img| ==> c < |img[i]|
    ensures |r| == |img|
  {
    seq(|img|, i requires 0 <= i < |img| => img[i][c])
  }

  /** Each of the three channels of the replicated image is the mask. */
  lemma ChannelOfReplicate<T>(m: seq<T>, c: nat)
    requires c < 3
    ensures Channel(Replicate(m), c) == m
  {
  }

  /** `astype(np.uint8)` of a value in the 8-bit range: truncation. */
  function ToUint8(v: real): (b: int)
    requires 0.0 <= v < 256.0
    ensures 0 <= b < 256
    ensures b as real <= v < b as real + 1.0
  {
    v.Floor
  }

  predicate InByteRange(img: seq<seq<real>>) {
    forall i, c :: 0 <= i < |img| && 0 <= c < |img[i]| ==> 0.0 <= img[i][c] < 256.0
  }

  /** `astype(np.uint8)` over a whole image. */
  function CastImage(img: seq<seq<real>>): (r: seq<seq<int>>)
    requires InByteRange(img)
    ensures |r| == |img|
    ensures forall i :: 0 <= i < |r| ==> |r[i]| == |img[i]|
  {
    seq(|img|, i requires 0 <= i < |img| =>
      seq(|img[i]|, c requires 0 <= c < |img[i]| => ToUint8(img[i][c])))
  }

  /** The image written for one confidence map: threshold, replicate, cast.
      Every pixel has three equal channels, each 255 exactly when the
      confidence lies above the threshold and the threshold lies below 255,
      and 0 otherwise. */
  function MaskImage(confidence: seq<real>, lenScales: nat): (r: seq<seq<int>>)
    ensures |r| == |confidence|
    ensures forall i :: 0 <= i < |r| ==> |r[i]| == 3
    ensures forall i, c :: 0 <= i < |r| && 0 <= c < 3 ==> r[i][c] == 0 || r[i][c] == 255
    ensures forall i, c :: 0 <= i < |r| && 0 <= c < 3 ==>
              (r[i][c] == 255 <==>
                 confidence[i] > Threshold.Cutoff(lenScales) && Threshold.Cutoff(lenScales) < Threshold.Foreground)
  {
    var binary := Threshold.Binarize(confidence, lenScales);
    CastImage(Replicate(binary))
  }

  /** With one scale, a predictor answering 5.0 everywhere yields an image
      that is 255 in every channel of every pixel (5.0 > 4.0). */
  lemma ConstantFiveGivesFullMask(confidence: seq<real>)
    requires forall i :: 0 <= i < |confidence| ==> confidence[i] == 5.0
    ensures forall i, c :: 0 <= i < |confidence| && 0 <= c < 3 ==> MaskImage(confidence, 1)[i][c] == 255
  {
  }

  /** The file `test_models` writes for one image of the listing. */
  function MaskFileFor(target: string, weights: string, source: string, scales: seq<real>,
                       image: string, predict: Predictor): (f: MaskFile)
    ensures f.path == Paths.Join(target, Paths.MaskName(image))
    ensures |f.image| == |predict(weights, source + image, scales)|
  {
    MaskFile(Paths.Join(target, Paths.MaskName(image)),
             MaskImage(predict(weights, source + image, scales), |scales|))
  }

  /** The writes `test_models` performs, one per image, in listing order;
      images whose mask names coincide write to the same path, and the last
      of them is the one left on disk. */
  function Outputs(target: string, weights: string, source: string, scales: seq<real>,
                   listing: seq<string>, predict: Predictor): (r: seq<MaskFile>)
    ensures |r| == |listing|
  {
    seq(|listing|, i requires 0 <= i < |listing| => MaskFileFor(target, weights, source, scales, listing[i], predict))
  }

  /** Two images of a listing (whose names, coming from `os.listdir`, hold
      no separator) write to the same path exactly when their mask names
      coincide. */
  lemma OutputsSharePath(target: string, weights: string, source: string, scales: seq<real>,
                         listing: seq<string>, predict: Predictor, i: nat, j: nat)
    requires i < |listing| && j < |listing|
    requires Paths.Sep !in listing[i] && Paths.Sep !in listing[j]
    ensures var w := Outputs(target, weights, source, scales, listing, predict);
            w[i].path == w[j].path <==> Paths.MaskName(listing[i]) == Paths.MaskName(listing[j])
  {
    var m1, m2 := Paths.MaskName(listing[i]), Paths.MaskName(listing[j]);
    assert m1[0] != Paths.Sep by {
      if |listing[i]| > Paths.DroppedSuffixLength {
        assert m1[0] == listing[i][0];
      }
    }
    assert m2[0] != Paths.Sep by {
      if |listing[j]| > Paths.DroppedSuffixLength {
        assert m2[0] == listing[j][0];
      }
    }
    Paths.JoinRelative(target, m1);
    Paths.JoinRelative(target, m2);
    if Paths.JoinPrefix(target) + m1 == Paths.JoinPrefix(target) + m2 {
      Paths.PrefixCancel(Paths.JoinPrefix(target), m1, m2);
    }
  }

  /** One iteration of the per-image loop: predict, copy the map into an
      array, binarise it in place, replicate, cast, and name the file. */
  method TestOneImage(target: string, weights: string, source: string, scales: seq<real>,
                      image: string, predict: Predictor)
    returns (file: MaskFile)
    ensures file == MaskFileFor(target, weights, source, scales, image, predict)
  {
    var confidence := predict(weights, source + image, scales);
    var mask := new real[|confidence|](k requires 0 <= k < |confidence| => confidence[k]);
    assert mask[..] == confidence;
    Threshold.BinarizeInPlace(mask, |scales|);
    var pixels := CastImage(Replicate(mask[..]));
    file := MaskFile(Paths.Join(target, Paths.MaskName(image)), pixels);
  }

  /** `test_models`: resolve the weights and target defaults, then handle
      every image of the listing in order. */
  method TestModels(name: string, source: string, scales: seq<real>, target: string,
                    weights: Option<string>, listing: seq<string>, predict: Predictor)
    returns (written: seq<MaskFile>)
    ensures written == Outputs(Paths.ResolveTarget(target, name), Paths.ResolveWeights(weights, name),
                               source, scales, listing, predict)
  {
    var w := Paths.ResolveWeights(weights, name);
    var t := Paths.ResolveTarget(target, name);
    written := [];
    for i := 0 to |listing|
      invariant |written| == i
      invariant forall k :: 0 <= k < i ==> written[k] == MaskFileFor(t, w, source, scales, listing[k], predict)
    {
      var file := TestOneImage(t, w, source, scales, listing[i], predict);
      written := written + [file];
    }
  }

  /** The run `main` performs for one selected checkpoint. */
  function RunFor(ckptsDir: string, ckpt: string, name: string, source: string, scales: seq<real>,
                  listing: seq<string>, predict: Predictor): (r: Run)
    ensures r.target == Paths.CheckpointTarget(ckptsDir, ckpt)
    ensures r.weights == Paths.CheckpointWeights(ckptsDir, ckpt)
    ensures r.written == Outputs(r.target, r.weights, source, scales, listing, predict)
  {
    var t := Paths.CheckpointTarget(ckptsDir, ckpt);
    var w := Paths.CheckpointWeights(ckptsDir, ckpt);
    Run(ckpt, t, w, Outputs(Paths.ResolveTarget(t, name), Paths.ResolveWeights(Some(w), name),
                            source, scales, listing, predict))
  }

  /** One iteration of the per-checkpoint loop: derive the checkpoint's
      results directory and weights file and run `test_models` with them. */
  method RunCheckpoint(name: string, source: string, scales: seq<real>, ckptsDir: string,
                       ckpt: string, listing: seq<string>, predict: Predictor)
    returns (run: Run)
    ensures run == RunFor(ckptsDir, ckpt, name, source, scales, listing, predict)
  {
    var target := Paths.CheckpointTarget(ckptsDir, ckpt);
    var weights := Paths.CheckpointWeights(ckptsDir, ckpt);
    var written := TestModels(name, source, scales, target, Some(weights), listing, predict);
    run := Run(ckpt, target, weights, written);
  }

  /** The runs of a sweep over the checkpoints `ckpts`, run `k` seeing
      listing `listing(k)`. */
  function SweepRuns(ckptsDir: string, ckpts: seq<string>, name: string, source: string, scales: seq<real>,
                     listing: nat -> seq<string>, predict: Predictor): (r: seq<Run>)
    ensures |r| == |ckpts|
    ensures forall k :: 0 <= k < |r| ==> r[k] == RunFor(ckptsDir, ckpts[k], name, source, scales, listing(k), predict)
  {
    seq(|ckpts|, k requires 0 <= k < |ckpts| => RunFor(ckptsDir, ckpts[k], name, source, scales, listing(k), predict))
  }

  lemma SweepRunsStep(ckptsDir: string, ckpts: seq<string>, name: string, source: string, scales: seq<real>,
                      listing: nat -> seq<string>, predict: Predictor, k: nat)
    requires k < |ckpts|
    ensures SweepRuns(ckptsDir, ckpts[..k + 1], name, source, scales, listing, predict)
            == SweepRuns(ckptsDir, ckpts[..k], name, source, scales, listing, predict)
               + [RunFor(ckptsDir, ckpts[k], name, source, scales, listing(k), predict)]
  {
  }

  /** `main` after argument parsing: select the checkpoints, then run
      `test_models` for each with its own weights and results directory.
      The target given on the command line plays no part.  `test_models`
      lists the source directory afresh on every call, so `listing(k)` is
      what that listing returns during the `k`-th run. */
  method SweepCheckpoints(name: string, source: string, scales: seq<real>, ckptsDir: string,
                          entries: seq<Checkpoints.Entry>, listing: nat -> seq<string>, predict: Predictor)
    returns (runs: seq<Run>)
    ensures runs == SweepRuns(ckptsDir, Checkpoints.SelectCheckpoints(entries), name, source, scales, listing, predict)
  {
    var ckpts := Checkpoints.SelectCheckpoints(entries);
    runs := [];
    for k := 0 to |ckpts|
      invariant runs == SweepRuns(ckptsDir, ckpts[..k], name, source, scales, listing, predict)
    {
      var run := RunCheckpoint(name, source, scales, ckptsDir, ckpts[k], listing(k), predict);
      SweepRunsStep(ckptsDir, ckpts, name, source, scales, listing, predict, k);
      runs := runs + [run];
    }
    assert ckpts[..|ckpts|] == ckpts;
  }

  /** When the checkpoint directory holds no two entries of the same name,
      the runs of the sweep write into pairwise different directories and
      load pairwise different weights files, whatever each run's listing. */
  lemma SweepRunsAreApart(name: string, source: string, scales: seq<real>, ckptsDir: string,
                          entries: seq<Checkpoints.Entry>, listing: nat -> seq<string>, predict: Predictor,
                          j: nat, k: nat)
    requires Checkpoints.NamesDistinct(entries)
    requires j < k < |Checkpoints.SelectCheckpoints(entries)|
    ensures var ckpts := Checkpoints.SelectCheckpoints(entries);
            var a := RunFor(ckptsDir, ckpts[j], name, source, scales, listing(j), predict);
            var b := RunFor(ckptsDir, ckpts[k], name, source, scales, listing(k), predict);
            a.target != b.target && a.weights != b.weights
  {
    var ckpts := Checkpoints.SelectCheckpoints(entries);
    Checkpoints.SelectDistinct(entries);
    Checkpoints.SelectedAreDigitStrings(entries);
    Paths.CheckpointTargetsDistinct(ckptsDir, ckpts[j], ckpts[k]);
    Paths.CheckpointWeightsDistinct(ckptsDir, ckpts[j], ckpts[k]);
  }
}
