# NLLinkNet inference driver, modelled in Dafny

NLLinkNet's `test.py` runs trained road-segmentation networks over a
directory of satellite tiles. For every tile it asks the test-time
augmentation framework for an accumulated confidence map, binarises the map
against the threshold `4.0 * S` (`S` = number of scales), turns the single
channel into three identical channels, and writes `<tile minus its last 7
characters>mask.png` into a target directory. Its `main` sweeps a directory
of checkpoints: it keeps the regular files whose name is all digits and
divisible by 5, and runs the whole pipeline once per checkpoint with that
checkpoint's weights and a `Results/<checkpoint>` output directory.

The model has five modules:

- `Threshold` (threshold.dfy): the two in-place masked assignments, as a
  method with two loops over an `array<real>` proved against the
  specification function `Binarize`, with lemmas on the outcome: it is
  binary, the threshold itself maps to 0, it agrees with "255 above the
  threshold, else 0" while `4.0 * S < 255`, it is all 0 once `S >= 64`, and it
  is idempotent, monotone and pointwise.
- `Checkpoints` (checkpoints.dfy): the checkpoint filter of `main` over a
  listing of (name, is-regular-file) entries, with its membership
  characterisation, order preservation, the `5, 7, 10, abc` example and the
  last-digit reading of `int(name) % 5 == 0`.
- `Paths` (paths.dfy): POSIX `os.path.join`, Python's `name[:-7]`, the mask
  file name, the `submits/<name>/` and `weights/<name>.th` defaults, and the
  per-checkpoint results and weights paths.
- `Inference` (inference.dfy): channel replication, the `uint8` cast, the
  per-image loop of `test_models` and the per-checkpoint loop of `main`. The
  predictor is a parameter (a total function from weights path, image path
  and scale list to a flattened confidence map); the `cv2.imwrite` calls are
  returned, in order, as a list of (path, pixels) records.
- `Wrappers` (wrappers.dfy): an `Option` type for the `weights=None` argument.

The confidence map is flattened row-major to one sequence: thresholding and
channel replication act on each pixel alone, so the shape plays no part.

Where the code and a plain description of the thresholder ("255 where the
confidence exceeds `4.0 * S`, else 0") part ways, the model follows the code:
because the second assignment re-tests the 255s written by the first, once
`4.0 * S >= 255` (64 scales or more) every pixel ends as 0
(`Threshold.ManyScalesGiveEmptyMask`). Below 64 scales the two agree
(`Threshold.BinarizeMatchesIntended`).

Two further observations about the code, modelled as written: image paths are
`source + name` without a separator (test.py:42), so the function's own default
`source` (test.py:15, no trailing `/`) would glue directory and file name
together, whereas `main` always passes the command-line `--source`, whose default
ends in `/`; and inside the image loop the loop variable `name` shadows the
`name` argument (test.py:41), which is harmless because the weights path and
target were resolved from it before the loop.

## Model

| member | source | states |
|---|---|---|
| `Threshold.Cutoff` | test.py:37 | the threshold `4.0 * len(scales)` is never negative and is at least 4.0 once there is a scale |
| `Threshold.Binarize` | test.py:43-44 | the two passes keep the length, leave every element 0 or 255, and leave 255 exactly where the input exceeded the threshold and the threshold is below 255 |
| `Threshold.BinarizeInPlace` | test.py:43-44 | the two in-place loops turn the array into `Binarize` of its old contents |
| `Threshold.BinarizeMatchesIntended` | test.py:43-44 | while `4.0 * S < 255` the result equals the reference "255 if above the threshold, else 0" |
| `Threshold.ManyScalesGiveEmptyMask` | test.py:43-44 | with 64 or more scales the threshold reaches 255 and every output element is 0 |
| `Threshold.BoundaryIsBackground` | test.py:43-44 | an element exactly equal to the threshold becomes 0 (strict comparison in the 255 pass) |
| `Threshold.BinarizeIdempotent` | test.py:43-44 | thresholding the output again with the same scale count changes nothing |
| `Threshold.BinarizeMonotone` | test.py:43-44 | a confidence no larger than another never gets a larger mask value |
| `Threshold.BinarizePointwise` | test.py:43-44 | each output element depends only on the input element at the same position |
| `Checkpoints.IsDigitString` | test.py:76 | `isdigit()` holds only of a non-empty name, and such a name holds no `/` |
| `Checkpoints.DecimalValue` | test.py:76 | `int(name)` of a string of `n` digits is below `10^n` |
| `Checkpoints.DecimalUnitsDigit` | test.py:76 | the last digit of a digit string is the units digit of `int(name)` |
| `Checkpoints.SelectCheckpoints` | test.py:76 | the selection is no longer than the listing and a name is in it iff some listed entry with that name is a regular file, all digits, and divisible by 5 |
| `Checkpoints.SelectAppend` | test.py:76 | selecting from a concatenation concatenates the selections, so listing order is kept |
| `Checkpoints.SelectSingle` | test.py:76 | a one-entry listing selects its name exactly when the entry passes the filter |
| `Checkpoints.SelectIgnoresRejected` | test.py:76 | an entry failing the filter can be removed anywhere without changing the selection |
| `Checkpoints.DivisibleByFiveIffLastDigit` | test.py:76 | `int(name) % 5 == 0` holds iff the last digit is 0 or 5 |
| `Checkpoints.SelectExample` | test.py:76 | the listing `5, 7, 10, abc` (all regular files) selects exactly `5, 10` in that order |
| `Checkpoints.DirectoriesNeverSelected` | test.py:76 | a name carried only by non-regular-file entries is never selected |
| `Checkpoints.SelectDistinct` | test.py:76 | a listing without repeated names selects no checkpoint twice |
| `Checkpoints.SelectedAreDigitStrings` | test.py:76 | every selected name is a non-empty string of digits |
| `Paths.Join` | test.py:79 | `os.path.join` is at least as long as its last component and non-empty when its first is |
| `Paths.JoinAbsolute` | test.py:79 | an absolute last component (leading `/`) discards the first, as POSIX `os.path.join` does |
| `Paths.JoinRelative` | test.py:79 | a relative last component is appended to the first, with exactly one `/` inserted when the first is non-empty and does not end in `/`, and nothing inserted otherwise |
| `Paths.JoinEndsWith` | test.py:82 | the joined path always ends with the last component |
| `Paths.DropLast` | test.py:47 | for `k > 0`, `s[:-k]` has length `len(s) - k` (0 when shorter) and is a prefix of `s` |
| `Paths.MaskName` | test.py:47 | the output name is a prefix of the image name of length `len - 7` (0 when shorter) followed by `mask.png` |
| `Paths.MaskNameOfShortName` | test.py:47 | an image name of at most 7 characters yields exactly `mask.png` |
| `Paths.MaskNameOfTile` | test.py:47 | a tile `<id>_sat.jpg` yields `<id>_mask.png` |
| `Paths.MaskNameOfTileInjective` | test.py:47 | tiles with different ids get different mask names |
| `Paths.MaskNameCollision` | test.py:47 | two image names get the same mask name exactly when they agree after dropping their last seven characters |
| `Paths.MaskNameCollisionExample` | test.py:47 | `a_sat.jpg` and `a_sat.png` both get the mask name `a_mask.png` |
| `Paths.ResolveTarget` | test.py:26-27 | the target is never empty, and a non-empty target given by the caller is kept |
| `Paths.ResolveWeights` | test.py:21-24 | weights given by the caller are used as they are |
| `Paths.DefaultPaths` | test.py:21-27 | an empty target becomes `submits/<name>/` and absent weights become `weights/<name>.th` |
| `Paths.DefaultMaskPath` | test.py:47 | under the default target a mask is written directly inside `submits/<name>/` |
| `Paths.CheckpointTarget` | test.py:79 | the per-checkpoint results directory is never empty |
| `Paths.CheckpointWeights` | test.py:82 | `os.path.join(ckpts_dir, ckpt)` is at least as long as the checkpoint name and non-empty when the directory is |
| `Paths.SweepTargetIsNotDefaulted` | test.py:79-83 | the sweep's target is never replaced by the `submits/` default |
| `Paths.CheckpointTargetsDistinct` | test.py:79 | different checkpoint names get different results directories |
| `Paths.CheckpointWeightsDistinct` | test.py:82 | different checkpoint names load different weights files |
| `Paths.WeightsAreNotResults` | test.py:79-82 | no checkpoint's weights path is any checkpoint's results directory |
| `Inference.Replicate` | test.py:45-46 | replication keeps the pixel count and gives every pixel three channels |
| `Inference.ChannelOfReplicate` | test.py:45-46 | each of the three channels of the replicated image is the single-channel mask |
| `Inference.ToUint8` | test.py:47 | the 8-bit cast of an in-range value is the byte at or just below it |
| `Inference.CastImage` | test.py:47 | the cast keeps the pixel count and the channel count of every pixel |
| `Inference.MaskImage` | test.py:43-47 | the written image has one pixel per confidence value, three channels each, every channel 0 or 255, and 255 exactly when the confidence exceeds the threshold and the threshold is below 255 |
| `Inference.ConstantFiveGivesFullMask` | test.py:43-47 | with one scale a confidence of 5.0 everywhere gives 255 in every channel of every pixel |
| `Inference.MaskFileFor` | test.py:42-47 | the file for an image is written at `join(target, mask name)` with one pixel per predicted confidence |
| `Inference.Outputs` | test.py:41-47 | one write per image of the listing, in listing order; a later write to the same path replaces an earlier one on disk |
| `Inference.OutputsSharePath` | test.py:41-47 | two listed images write to the same path exactly when their mask names coincide |
| `Inference.TestOneImage` | test.py:42-47 | predicting, copying into an array, binarising in place, replicating and casting produces the file `MaskFileFor` describes |
| `Inference.TestModels` | test.py:15-47 | `test_models` performs, in listing order, exactly the writes `Outputs` gives for the resolved target and weights |
| `Inference.RunFor` | test.py:78-83 | a checkpoint's run uses its own results directory and weights file, and writes `Outputs` for them |
| `Inference.SweepCheckpoints` | test.py:74-83 | the sweep's runs are `SweepRuns` of the selected checkpoints: one run per selected checkpoint, in selection order, each equal to `RunFor` over the image listing the source directory gives during that run |
| `Inference.SweepRunsAreApart` | test.py:76-83 | when the checkpoint directory has no repeated names, no two runs share a results directory or a weights file |

## Left out

- The predictor: `TTAFramework`, `solver.load` and `solver.test_one_img_from_path` (test.py:12, 20-24, 42) live in `test_framework.py`, which is not part of this model; the augmentation and multi-scale aggregation are therefore a parameter, a total deterministic function of the weights path, the image path and the scale list.
- The network classes and the model registry lookup (test.py:8-11, 61-67): opaque deep-learning models; an unknown `--model` key is not modelled.
- Argument parsing (test.py:50-59), the `tqdm` progress bar and the `print` calls (test.py:18, 39, 41): console I/O.
- File-system effects: `os.listdir` and `isfile` become parameters (checkpoint entries carrying an is-regular-file flag; for the sweep, one image listing per run, since `test_models` lists the source directory afresh on every call, test.py:29); what a listing contains, and how the sweep's own writes could change it, is not modelled; `os.makedirs` with its EEXIST handling (test.py:29-36, 80) is not modelled; `cv2.imwrite` (test.py:47) becomes a returned record of path and pixels, so the model lists the writes in order, not the final contents of the target directory, where of several writes to one path only the last remains.
- Floating point: confidences are `real`. NaN (which neither pass would touch), infinities and rounding are not modelled.
- Image shape: the height-by-width map is flattened row-major; the model does not track the two spatial dimensions separately.
- `str.isdigit` accepts non-ASCII digits that `int` may reject; the model admits only ASCII `0`-`9`.
- Inference.ToUint8: states the cast only for values in `[0, 256)`, the only values a binarised mask holds; numpy's behaviour outside that range is not modelled.
