/** Index arithmetic of the offline calibration in `CSPAndLDA`: the sample windows
    cut out of each trial by `__extract_epochs`, and the eigenvector columns kept
    as spatial filters by `compute_csp`. Both use Python slices, whose bounds are
    normalised as Python does (negative bounds count from the end, then clamp). */
module OfflineIndices {

  /** A Python slice bound normalised against a sequence of length `len`. */
  function SliceBound(b: int, len: nat): (r: nat)
    ensures r <= len
    ensures 0 <= b <= len ==> r == b
  {
    if b < 0 then (if b + len < 0 then 0 else b + len)
    else if b > len then len
    else b
  }

  /** The indices `range(len)[start:stop]`. */
  function SliceIndices(start: int, stop: int, len: nat): (ix: seq<nat>)
    ensures forall k :: 0 <= k < |ix| ==> ix[k] < len
  {
    var lo := SliceBound(start, len);
    var hi := SliceBound(stop, len);
    if hi <= lo then [] else seq(hi - lo, k => lo + k)
  }

  /** Columns of one epoch: `eeg[:, pos + nCue : pos + nSamples]` for `len` columns. */
  function EpochWindow(pos: nat, nCue: int, nSamples: int, len: nat): seq<nat>
  {
    SliceIndices(pos + nCue, pos + nSamples, len)
  }

  /** The window of every trial of one class, in trial order. */
  function Windows(positions: seq<nat>, nCue: int, nSamples: int, len: nat): (ws: seq<seq<nat>>)
    ensures |ws| == |positions|
  {
    seq(|positions|, k requires 0 <= k < |positions| => EpochWindow(positions[k], nCue, nSamples, len))
  }

  function Flatten(ws: seq<seq<nat>>): seq<nat>
  {
    if ws == [] then [] else Flatten(ws[..|ws| - 1]) + ws[|ws| - 1]
  }

  /** The columns of all epochs of one class, concatenated in trial order. */
  function Epochs(positions: seq<nat>, nCue: int, nSamples: int, len: nat): seq<nat>
  {
    Flatten(Windows(positions, nCue, nSamples, len))
  }

  /** `n_cue = floor(srate * d_cue)`, `n_samples = n_cue + floor(srate * d_task)`: the
      whole samples of the cue period, and of cue and task together. For non-negative
      durations the window start and end are ordered and the window is empty only when
      the task period holds no whole sample. */
  function EpochBounds(sampleRate: nat, durationCue: real, durationTask: real): (r: (int, int))
    ensures r.0 as real <= sampleRate as real * durationCue < r.0 as real + 1.0
    ensures (r.1 - r.0) as real <= sampleRate as real * durationTask < (r.1 - r.0) as real + 1.0
    ensures durationCue >= 0.0 && durationTask >= 0.0 ==> 0 <= r.0 <= r.1
    ensures durationTask >= 0.0 ==> (r.0 == r.1 <==> sampleRate as real * durationTask < 1.0)
  {
    var nCue := (sampleRate as real * durationCue).Floor;
    (nCue, nCue + (sampleRate as real * durationTask).Floor)
  }

  /** The loop of `__extract_epochs` for one class, over column indices. */
  method ExtractEpochs(positions: seq<nat>, nCue: int, nSamples: int, len: nat) returns (cols: seq<nat>)
    ensures cols == Epochs(positions, nCue, nSamples, len)
  {
    cols := [];
    var i := 0;
    while i < |positions|
      invariant 0 <= i <= |positions|
      invariant cols == Epochs(positions[..i], nCue, nSamples, len)
    {
      var ws := Windows(positions[..i + 1], nCue, nSamples, len);
      assert ws[..i] == Windows(positions[..i], nCue, nSamples, len);
      cols := cols + EpochWindow(positions[i], nCue, nSamples, len);
      i := i + 1;
    }
    assert positions[..|positions|] == positions;
  }

  /** A window that lies inside the recording is `nSamples - nCue` consecutive columns. */
  lemma WindowInside(pos: nat, nCue: nat, nSamples: nat, len: nat)
    requires nCue <= nSamples && pos + nSamples <= len
    ensures EpochWindow(pos, nCue, nSamples, len) == seq(nSamples - nCue, j => pos + nCue + j)
  {
  }

  lemma {:induction false} FlattenLength(ws: seq<seq<nat>>, w: nat)
    requires forall k :: 0 <= k < |ws| ==> |ws[k]| == w
    ensures |Flatten(ws)| == |ws| * w
  {
    if ws != [] {
      FlattenLength(ws[..|ws| - 1], w);
    }
  }

  /** When every trial's task window lies inside the recording, no window is clipped:
      trial `k` contributes the `nSamples - nCue` consecutive columns starting `nCue`
      after its cue, and the class has `trials * (nSamples - nCue)` columns in all. */
  lemma EpochsInside(positions: seq<nat>, nCue: nat, nSamples: nat, len: nat)
    requires nCue <= nSamples
    requires forall k :: 0 <= k < |positions| ==> positions[k] + nSamples <= len
    ensures forall k :: 0 <= k < |positions| ==>
      Windows(positions, nCue, nSamples, len)[k] == seq(nSamples - nCue, j => positions[k] + nCue + j)
    ensures |Epochs(positions, nCue, nSamples, len)| == |positions| * (nSamples - nCue)
  {
    var ws := Windows(positions, nCue, nSamples, len);
    forall k | 0 <= k < |positions|
      ensures ws[k] == seq(nSamples - nCue, j => positions[k] + nCue + j)
    {
      WindowInside(positions[k], nCue, nSamples, len);
    }
    FlattenLength(ws, nSamples - nCue);
  }

  /** With the bounds of `__extract_epochs` for non-negative durations, and every trial's
      task period inside the recording, a class contributes `floor(srate * d_task)`
      columns per trial. */
  lemma EpochsOfDurations(positions: seq<nat>, sampleRate: nat, durationCue: real, durationTask: real, len: nat)
    requires durationCue >= 0.0 && durationTask >= 0.0
    requires forall k :: 0 <= k < |positions| ==>
      positions[k] + EpochBounds(sampleRate, durationCue, durationTask).1 <= len
    ensures var (nCue, nSamples) := EpochBounds(sampleRate, durationCue, durationTask);
      |Epochs(positions, nCue, nSamples, len)|
        == |positions| * (sampleRate as real * durationTask).Floor
  {
    var (nCue, nSamples) := EpochBounds(sampleRate, durationCue, durationTask);
    EpochsInside(positions, nCue, nSamples, len);
  }

  /** `selected_filter`: all columns, then `[n_filters : n - n_filters]` set to false. */
  function CspMask(n: nat, nFilters: nat): (mask: seq<bool>)
    ensures |mask| == n
  {
    var lo := SliceBound(nFilters, n);
    var hi := SliceBound(n - nFilters, n);
    seq(n, j => !(lo <= j < hi))
  }

  /** Positions below `k` where the mask holds. */
  function Selected(mask: seq<bool>, k: nat): seq<nat>
    requires k <= |mask|
  {
    if k == 0 then [] else Selected(mask, k - 1) + (if mask[k - 1] then [k - 1] else [])
  }

  /** With two filters the mask keeps a column exactly when it is among the first two or
      the last two, also for fewer than four columns (then the slice is empty). */
  lemma CspMaskKeeps(n: nat, j: nat)
    requires j < n
    ensures CspMask(n, 2)[j] <==> j < 2 || j >= n - 2
  {
  }

  lemma {:induction false} SelectedPrefix(mask: seq<bool>, k: nat)
    requires k <= |mask| && forall j :: 0 <= j < k ==> mask[j]
    ensures Selected(mask, k) == seq(k, j => j)
  {
    if k > 0 {
      SelectedPrefix(mask, k - 1);
    }
  }

  lemma {:induction false} SelectedGap(mask: seq<bool>, a: nat, k: nat)
    requires a <= k <= |mask| && forall j :: a <= j < k ==> !mask[j]
    ensures Selected(mask, k) == Selected(mask, a)
  {
    if k > a {
      SelectedGap(mask, a, k - 1);
    }
  }

  /** The spatial filter is made of eigenvector columns 0, 1, n-2 and n-1 (in that order)
      when there are at least four channels, and of all columns otherwise. */
  lemma CspColumns(n: nat)
    ensures n >= 4 ==> Selected(CspMask(n, 2), n) == [0, 1, n - 2, n - 1]
    ensures n < 4 ==> Selected(CspMask(n, 2), n) == seq(n, j => j)
  {
    var mask := CspMask(n, 2);
    if n >= 4 {
      SelectedPrefix(mask, 2);
      assert Selected(mask, 2) == [0, 1];
      SelectedGap(mask, 2, n - 2);
      assert Selected(mask, n - 1) == [0, 1, n - 2];
    } else {
      SelectedPrefix(mask, n);
    }
  }
}
