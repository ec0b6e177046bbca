/** Path and file-name derivations of test.py.

    `Join` is POSIX `os.path.join`: an absolute component replaces what came
    before it, otherwise components are glued with one `/` unless the path so
    far is empty or already ends in `/`.
 */
module Paths {
  import opened Wrappers
  import Checkpoints

  const Sep: char := '/'

  /** Suffix appended to every mask file name. */
  const MaskSuffix: string := "mask.png"

  /** Number of trailing characters dropped from an image name (`name[:-7]`). */
  const DroppedSuffixLength: nat := 7

  /** What `os.path.join(a, b)` puts in front of a relative `b`. */
  function JoinPrefix(a: string): string {
    if a == [] || a[|a| - 1] == Sep then a else a + [Sep]
  }

  /** `os.path.join(a, b)` on POSIX. */
  function Join(a: string, b: string): (r: string)
    ensures |r| >= |b|
    ensures a != [] ==> r != []
  {
    if b != [] && b[0] == Sep then b
    else JoinPrefix(a) + b
  }

  /** The last component always ends the joined path. */
  lemma JoinEndsWith(a: string, b: string)
    ensures var r := Join(a, b); r[|r| - |b|..] == b
  {
  }

  /** An absolute component discards everything before it. */
  lemma JoinAbsolute(a: string, b: string)
    requires b != [] && b[0] == Sep
    ensures Join(a, b) == b
  {
  }

  /** A relative component is appended to the first one, with one `/`
      inserted exactly when the first is non-empty and does not already end
      in `/`. */
  lemma JoinRelative(a: string, b: string)
    requires b == [] || b[0] != Sep
    ensures Join(a, b) == JoinPrefix(a) + b
    ensures a <= JoinPrefix(a) && |JoinPrefix(a)| <= |a| + 1
    ensures (a == [] || a[|a| - 1] == Sep) ==> JoinPrefix(a) == a
    ensures (a != [] && a[|a| - 1] != Sep) ==> JoinPrefix(a) == a + [Sep]
    ensures JoinPrefix(a) != [] ==> JoinPrefix(a)[|JoinPrefix(a)| - 1] == Sep
  {
  }

  /** Python's `s[:-k]` for `k > 0`: all but the last `k` characters, and the
      empty string when `s` is shorter than that. */
  function DropLast(s: string, k: nat): (r: string)
    requires k > 0
    ensures |r| == if |s| >= k then |s| - k else 0
    ensures r <= s
  {
    if |s| >= k then s[..|s| - k] else []
  }

  /** The output name `name[:-7] + 'mask.png'`: what is left of the source
      name after its last seven characters, then the fixed suffix. */
  function MaskName(name: string): (r: string)
    ensures |r| == |MaskSuffix| + (if |name| >= DroppedSuffixLength then |name| - DroppedSuffixLength else 0)
    ensures r[..|r| - |MaskSuffix|] <= name
    ensures r[|r| - |MaskSuffix|..] == MaskSuffix
  {
    DropLast(name, DroppedSuffixLength) + MaskSuffix
  }

  /** A source name of at most seven characters yields exactly `mask.png`. */
  lemma MaskNameOfShortName(name: string)
    requires |name| <= DroppedSuffixLength
    ensures MaskName(name) == MaskSuffix
  {
  }

  /** For a satellite tile `<id>_sat.jpg` the mask is `<id>_mask.png`: the
      seven dropped characters are exactly `sat.jpg`. */
  lemma MaskNameOfTile(id: string)
    ensures MaskName(id + "_sat.jpg") == id + "_mask.png"
  {
  }

  /** Two tiles with different ids get different mask names. */
  lemma MaskNameOfTileInjective(id1: string, id2: string)
    requires id1 != id2
    ensures MaskName(id1 + "_sat.jpg") != MaskName(id2 + "_sat.jpg")
  {
    MaskNameOfTile(id1);
    MaskNameOfTile(id2);
    if id1 + "_mask.png" == id2 + "_mask.png" {
      SuffixCancel(id1, id2, "_mask.png");
    }
  }

  /** Two image names share a mask name exactly when they agree once their
      last seven characters are dropped, so a later mask written for one
      replaces the mask written for the other. */
  lemma MaskNameCollision(n1: string, n2: string)
    ensures MaskName(n1) == MaskName(n2) <==>
            DropLast(n1, DroppedSuffixLength) == DropLast(n2, DroppedSuffixLength)
  {
    var d1, d2 := DropLast(n1, DroppedSuffixLength), DropLast(n2, DroppedSuffixLength);
    if d1 + MaskSuffix == d2 + MaskSuffix {
      SuffixCancel(d1, d2, MaskSuffix);
    }
  }

  /** The tile's `.jpg` and a `.png` of the same tile both map to `a_mask.png`. */
  lemma MaskNameCollisionExample()
    ensures MaskName("a_sat.jpg") == MaskName("a_sat.png") == "a_mask.png"
  {
    MaskNameOfTile("a");
    assert "a_sat.png"[..2] == "a_";
  }

  lemma SuffixCancel(a: string, b: string, s: string)
    requires a + s == b + s
    ensures a == b
  {
    assert a == (a + s)[..|a|];
    assert b == (b + s)[..|b|];
  }

  lemma PrefixCancel(p: string, a: string, b: string)
    requires p + a == p + b
    ensures a == b
  {
    assert a == (p + a)[|p|..];
    assert b == (p + b)[|p|..];
  }

  /** `target`, or `submits/<name>/` when it is empty. */
  function ResolveTarget(target: string, name: string): (r: string)
    ensures r != []
    ensures target != [] ==> r == target
  {
    if target == [] then "submits/" + name + "/" else target
  }

  /** `weights`, or `weights/<name>.th` when it is absent. */
  function ResolveWeights(weights: Option<string>, name: string): (r: string)
    ensures weights.Some? ==> r == weights.value
  {
    match weights
    case Some(w) => w
    case None => "weights/" + name + ".th"
  }

  /** Defaults as the source writes them, spelled out. */
  lemma DefaultPaths(name: string)
    ensures ResolveTarget("", name) == "submits/" + name + "/"
    ensures ResolveWeights(None, name) == "weights/" + name + ".th"
  {
  }

  /** Under the default target a mask lands directly in `submits/<name>/`.
      A name from a directory listing holds no separator. */
  lemma DefaultMaskPath(name: string, image: string)
    requires Sep !in image
    ensures Join(ResolveTarget("", name), MaskName(image)) == "submits/" + name + "/" + MaskName(image)
  {
  }

  /** Results directory of one checkpoint: `os.path.join(ckpts_dir, 'Results', ckpt)`. */
  function CheckpointTarget(ckptsDir: string, ckpt: string): (r: string)
    ensures r != []
  {
    Join(Join(ckptsDir, "Results"), ckpt)
  }

  /** Weights file of one checkpoint: `os.path.join(ckpts_dir, ckpt)`. */
  function CheckpointWeights(ckptsDir: string, ckpt: string): (r: string)
    ensures |r| >= |ckpt|
    ensures ckptsDir != [] ==> r != []
  {
    Join(ckptsDir, ckpt)
  }

  /** The sweep always passes a non-empty target, so the `submits/` default
      never applies to it. */
  lemma SweepTargetIsNotDefaulted(ckptsDir: string, ckpt: string, name: string)
    ensures ResolveTarget(CheckpointTarget(ckptsDir, ckpt), name) == CheckpointTarget(ckptsDir, ckpt)
  {
  }

  /** Different checkpoint names get different results directories. */
  lemma CheckpointTargetsDistinct(ckptsDir: string, c1: string, c2: string)
    requires Checkpoints.IsDigitString(c1) && Checkpoints.IsDigitString(c2) && c1 != c2
    ensures CheckpointTarget(ckptsDir, c1) != CheckpointTarget(ckptsDir, c2)
  {
    var results := Join(ckptsDir, "Results");
    assert c1[0] != Sep && c2[0] != Sep;
    JoinRelative(results, c1);
    JoinRelative(results, c2);
    if JoinPrefix(results) + c1 == JoinPrefix(results) + c2 {
      PrefixCancel(JoinPrefix(results), c1, c2);
    }
  }

  /** Different checkpoint names are different weights files. */
  lemma CheckpointWeightsDistinct(ckptsDir: string, c1: string, c2: string)
    requires Checkpoints.IsDigitString(c1) && Checkpoints.IsDigitString(c2) && c1 != c2
    ensures CheckpointWeights(ckptsDir, c1) != CheckpointWeights(ckptsDir, c2)
  {
    assert c1[0] != Sep && c2[0] != Sep;
    JoinRelative(ckptsDir, c1);
    JoinRelative(ckptsDir, c2);
    if JoinPrefix(ckptsDir) + c1 == JoinPrefix(ckptsDir) + c2 {
      PrefixCancel(JoinPrefix(ckptsDir), c1, c2);
    }
  }

  /** No weights file of the sweep is the results directory of any
      checkpoint: results live under `Results/`, which is not a number. */
  lemma WeightsAreNotResults(ckptsDir: string, c1: string, c2: string)
    requires Checkpoints.IsDigitString(c1) && Checkpoints.IsDigitString(c2)
    ensures CheckpointWeights(ckptsDir, c1) != CheckpointTarget(ckptsDir, c2)
  {
    var p := JoinPrefix(ckptsDir);
    var results := Join(ckptsDir, "Results");
    assert c1[0] != Sep && c2[0] != Sep;
    JoinRelative(ckptsDir, c1);
    JoinRelative(ckptsDir, "Results");
    JoinRelative(results, c2);
    assert JoinPrefix(results) == p + "Results/";
    assert CheckpointTarget(ckptsDir, c2)[|p|] == 'R';
    assert CheckpointWeights(ckptsDir, c1)[|p|] == c1[0];
  }
}
