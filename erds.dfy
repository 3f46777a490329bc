/** The ERDS arithmetic of `BCI.__compute_erds` and of the baseline computed on the
    `Cue` marker: column means over the reference rows, the relative change of the
    band power against that baseline, and its average per ROI.

    Values are `Option<real>`: `None` is a float that is not finite (NaN, or an
    infinity from a division by a zero baseline). As in numpy, a mean over no values
    or over a non-finite value is not finite. */
module Erds {
  import opened Wrappers

  function Sum(xs: seq<real>): real
  {
    if xs == [] then 0.0 else Sum(xs[..|xs| - 1]) + xs[|xs| - 1]
  }

  predicate AllFinite(xs: seq<Option<real>>)
  {
    forall i :: 0 <= i < |xs| ==> xs[i].Some?
  }

  function Values(xs: seq<Option<real>>): (vs: seq<real>)
    requires AllFinite(xs)
    ensures |vs| == |xs| && forall i :: 0 <= i < |xs| ==> vs[i] == xs[i].value
  {
    seq(|xs|, i requires 0 <= i < |xs| => xs[i].value)
  }

  /** `np.mean` of a float vector: not finite for an empty vector or when any entry
      is not finite. */
  function Mean(xs: seq<Option<real>>): (m: Option<real>)
    ensures m.Some? <==> |xs| > 0 && forall i :: 0 <= i < |xs| ==> xs[i].Some?
  {
    if xs == [] || !AllFinite(xs) then None
    else Some(Sum(Values(xs)) / |xs| as real)
  }

  /** Column `ch` of a matrix given as rows. */
  function Column(rows: seq<seq<Option<real>>>, ch: nat): (col: seq<Option<real>>)
    requires forall i :: 0 <= i < |rows| ==> ch < |rows[i]|
    ensures |col| == |rows| && forall i :: 0 <= i < |rows| ==> col[i] == rows[i][ch]
  {
    seq(|rows|, i requires 0 <= i < |rows| => rows[i][ch])
  }

  /** `np.mean(rows, axis=0)` for rows of `width` entries; NaN everywhere when there are no rows. */
  function ColumnMeans(rows: seq<seq<Option<real>>>, width: nat): (means: seq<Option<real>>)
    requires forall i :: 0 <= i < |rows| ==> |rows[i]| == width
    ensures |means| == width
  {
    seq(width, ch requires 0 <= ch < width => Mean(Column(rows, ch)))
  }

  /** `np.delete(data_ref, 0, 0)[idx_start_ref:, :]`: the reference rows without the
      leading zero row and without the warm-up; empty when the slice starts past the end. */
  function ReferenceRows(dataRef: seq<seq<Option<real>>>, idxStartRef: nat): (rows: seq<seq<Option<real>>>)
    requires |dataRef| >= 1
    ensures 1 + idxStartRef <= |dataRef| ==> rows == dataRef[1 + idxStartRef..]
    ensures 1 + idxStartRef > |dataRef| ==> rows == []
  {
    var withoutFirst := dataRef[1..];
    if idxStartRef <= |withoutFirst| then withoutFirst[idxStartRef..] else []
  }

  /** The baseline taken on `Cue`: a channel's baseline is finite exactly when some
      reference row follows the warm-up and all of them are finite on that channel. */
  function Baseline(dataRef: seq<seq<Option<real>>>, idxStartRef: nat, width: nat): (b: seq<Option<real>>)
    requires |dataRef| >= 1
    requires forall i :: 0 <= i < |dataRef| ==> |dataRef[i]| == width
    ensures |b| == width
    ensures forall ch :: 0 <= ch < width ==>
      (b[ch].Some? <==> 1 + idxStartRef < |dataRef|
                        && forall i :: 1 + idxStartRef <= i < |dataRef| ==> dataRef[i][ch].Some?)
  {
    ColumnMeans(ReferenceRows(dataRef, idxStartRef), width)
  }

  /** `-(baseline - power) / baseline` for one channel: finite when both are and the
      baseline is not zero, and then the power is the baseline scaled by 1 + ERDS. */
  function ErdsValue(power: Option<real>, baseline: Option<real>): (e: Option<real>)
    ensures e.Some? <==> power.Some? && baseline.Some? && baseline.value != 0.0
    ensures e.Some? ==> power.value == baseline.value * (1.0 + e.value)
  {
    if power.None? || baseline.None? || baseline.value == 0.0 then None
    else Some((power.value - baseline.value) / baseline.value)
  }

  function ErdsOf(power: seq<Option<real>>, baseline: seq<Option<real>>): (erds: seq<Option<real>>)
    requires |power| == |baseline|
    ensures |erds| == |power| && forall ch :: 0 <= ch < |power| ==> erds[ch] == ErdsValue(power[ch], baseline[ch])
  {
    seq(|power|, ch requires 0 <= ch < |power| => ErdsValue(power[ch], baseline[ch]))
  }

  /** `erds[0, positions]`. */
  function Pick(erds: seq<Option<real>>, positions: seq<nat>): (picked: seq<Option<real>>)
    requires forall k :: 0 <= k < |positions| ==> positions[k] < |erds|
    ensures |picked| == |positions|
    ensures forall k :: 0 <= k < |positions| ==> picked[k] == erds[positions[k]]
  {
    seq(|positions|, k requires 0 <= k < |positions| => erds[positions[k]])
  }

  /** Every position of every ROI indexes a vector of `width` channels. */
  ghost predicate ValidRoiMap(roiMap: seq<seq<nat>>, width: nat)
  {
    forall r, k :: 0 <= r < |roiMap| && 0 <= k < |roiMap[r]| ==> roiMap[r][k] < width
  }

  /** The loop that fills `erds_per_roi`: entry `roi` is the mean ERDS of that ROI's
      positions. A map with fewer than `nRoi` entries fails with an index error at its
      first missing entry, reported as `None`. */
  method RoiMeans(erds: seq<Option<real>>, roiMap: seq<seq<nat>>, nRoi: nat) returns (perRoi: Option<seq<Option<real>>>)
    requires ValidRoiMap(roiMap, |erds|)
    ensures perRoi.None? <==> nRoi > |roiMap|
    ensures perRoi.Some? ==>
      && |perRoi.value| == nRoi
      && forall roi :: 0 <= roi < nRoi ==> perRoi.value[roi] == Mean(Pick(erds, roiMap[roi]))
  {
    var erdsPerRoi := new Option<real>[nRoi](_ => Some(0.0));
    var roi := 0;
    while roi < nRoi
      invariant 0 <= roi <= nRoi && roi <= |roiMap|
      invariant forall j :: 0 <= j < roi ==> erdsPerRoi[j] == Mean(Pick(erds, roiMap[j]))
    {
      if roi >= |roiMap| {
        return None;
      }
      erdsPerRoi[roi] := Mean(Pick(erds, roiMap[roi]));
      roi := roi + 1;
    }
    perRoi := Some(erdsPerRoi[..]);
  }

  lemma {:induction false} SumConstant(xs: seq<real>, v: real)
    requires forall i :: 0 <= i < |xs| ==> xs[i] == v
    ensures Sum(xs) == |xs| as real * v
  {
    if xs != [] {
      SumConstant(xs[..|xs| - 1], v);
    }
  }

  lemma {:induction false} SumBounds(xs: seq<real>, lo: real, hi: real)
    requires forall i :: 0 <= i < |xs| ==> lo <= xs[i] <= hi
    ensures |xs| as real * lo <= Sum(xs) <= |xs| as real * hi
  {
    if xs != [] {
      SumBounds(xs[..|xs| - 1], lo, hi);
    }
  }

  /** The mean of equal finite values is that value. */
  lemma MeanOfConstant(xs: seq<Option<real>>, v: real)
    requires |xs| > 0 && forall i :: 0 <= i < |xs| ==> xs[i] == Some(v)
    ensures Mean(xs) == Some(v)
  {
    SumConstant(Values(xs), v);
    var n := |xs| as real;
    assert Sum(Values(xs)) / n == n * v / n == v;
  }

  /** A finite mean lies between the least and the greatest value averaged. */
  lemma MeanBounds(xs: seq<Option<real>>, lo: real, hi: real)
    requires forall i :: 0 <= i < |xs| ==> xs[i].Some? && lo <= xs[i].value <= hi
    ensures Mean(xs).Some? <==> |xs| > 0
    ensures Mean(xs).Some? ==> lo <= Mean(xs).value <= hi
  {
    if |xs| > 0 {
      SumBounds(Values(xs), lo, hi);
      DivideBounds(Sum(Values(xs)), |xs| as real, lo, hi);
    }
  }

  lemma DivideBounds(a: real, n: real, lo: real, hi: real)
    requires n > 0.0 && n * lo <= a <= n * hi
    ensures lo <= a / n <= hi
  {
    assert lo == n * lo / n && hi == n * hi / n;
  }

  /** Against a positive baseline, the ERDS value is negative exactly when the power has
      dropped (desynchronisation), zero when unchanged, positive when it has risen, and
      power == baseline * (1 + erds). */
  lemma ErdsSign(power: real, baseline: real)
    requires baseline > 0.0
    ensures ErdsValue(Some(power), Some(baseline)).Some?
    ensures ErdsValue(Some(power), Some(baseline)).value < 0.0 <==> power < baseline
    ensures ErdsValue(Some(power), Some(baseline)).value == 0.0 <==> power == baseline
    ensures power == baseline * (1.0 + ErdsValue(Some(power), Some(baseline)).value)
  {
    var e := (power - baseline) / baseline;
    assert e * baseline == power - baseline;
  }

  /** If every reference row after the warm-up holds `v` on channel `ch`, the baseline
      of that channel is `v`; with no such rows it is NaN. */
  lemma BaselineOfConstant(dataRef: seq<seq<Option<real>>>, idxStartRef: nat, width: nat, ch: nat, v: real)
    requires |dataRef| >= 1 && ch < width
    requires forall i :: 0 <= i < |dataRef| ==> |dataRef[i]| == width
    requires forall i :: 1 + idxStartRef <= i < |dataRef| ==> dataRef[i][ch] == Some(v)
    ensures 1 + idxStartRef < |dataRef| ==> Baseline(dataRef, idxStartRef, width)[ch] == Some(v)
    ensures 1 + idxStartRef >= |dataRef| ==> Baseline(dataRef, idxStartRef, width)[ch] == None
  {
    var rows := ReferenceRows(dataRef, idxStartRef);
    var col := Column(rows, ch);
    if 1 + idxStartRef < |dataRef| {
      forall i | 0 <= i < |col| ensures col[i] == Some(v) {
        assert col[i] == dataRef[1 + idxStartRef + i][ch];
      }
      MeanOfConstant(col, v);
    } else {
      assert rows == [];
    }
  }

  /** Worked example: baseline [2, 2] and power [3, 1] give ERDS [0.5, -0.5]. */
  lemma ErdsExample()
    ensures ErdsOf([Some(3.0), Some(1.0)], [Some(2.0), Some(2.0)]) == [Some(0.5), Some(-0.5)]
  {
  }
}
