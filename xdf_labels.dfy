/** The offline label column of `xdfToMat.add_class_labels_to_eeg`: every `Cue` marker
    is paired, in stream order, with the `Start_of_Trial_*` marker of the same rank,
    and the trial's class code (121 left, 122 right) is written at the first EEG
    sample after the cue time. */
module XdfLabels {
  import opened Wrappers

  /** Code of a left-hand trial in the label column. */
  const LeftCode: int := 121
  /** Code of a right-hand trial in the label column. */
  const RightCode: int := 122

  predicate Sorted(a: seq<real>)
  {
    forall i, j :: 0 <= i <= j < |a| ==> a[i] <= a[j]
  }

  /** `np.searchsorted(a, v, side="right")` on sorted `a`: the insertion point after
      every element not greater than `v`. */
  function SearchSortedRight(a: seq<real>, v: real): (i: nat)
    requires Sorted(a)
    ensures i <= |a|
    ensures forall k :: 0 <= k < i ==> a[k] <= v
    ensures forall k :: i <= k < |a| ==> v < a[k]
  {
    if a == [] || a[|a| - 1] <= v then |a| else SearchSortedRight(a[..|a| - 1], v)
  }

  /** `find_nearest_index`: the search result, moved back onto the last element when
      it falls past the end; -1 for an empty array. */
  function FindNearestIndex(a: seq<real>, v: real): (i: int)
    requires Sorted(a)
    ensures |a| == 0 <==> i == -1
    ensures |a| > 0 ==> 0 <= i < |a|
    ensures forall k :: 0 <= k < i ==> a[k] <= v
    ensures 0 <= i < |a| - 1 ==> v < a[i]
    ensures |a| > 0 && v < a[|a| - 1] ==> v < a[i]
    ensures |a| > 0 && a[|a| - 1] <= v ==> i == |a| - 1
  {
    var idx := SearchSortedRight(a, v);
    if idx == |a| then idx - 1 else idx
  }

  /** Whatever the time, the index is that of the first sample strictly later than it
      when there is one, so it need not be the nearest sample: for samples at 0 and 10
      and a cue at 1 the index is 1, although sample 0 is nearer. */
  lemma FirstLaterNotNearest()
    ensures FindNearestIndex([0.0, 10.0], 1.0) == 1
  {
  }

  /** The marker sent when the cue is shown. */
  predicate IsCue(marker: string)
  {
    marker == "Cue"
  }

  /** `np.char.find(marker, 'Start_of_Trial') == 0`. */
  predicate IsCondition(marker: string)
  {
    |marker| >= 14 && marker[..14] == "Start_of_Trial"
  }

  /** Indices of the markers satisfying `p`, in stream order. */
  function IndicesWhere(markers: seq<string>, p: string -> bool): (ix: seq<nat>)
    ensures forall a, b :: 0 <= a < b < |ix| ==> ix[a] < ix[b]
    ensures forall k :: 0 <= k < |ix| ==> ix[k] < |markers| && p(markers[ix[k]])
    ensures forall j :: 0 <= j < |markers| && p(markers[j]) ==> j in ix
  {
    if markers == [] then []
    else
      var front := IndicesWhere(markers[..|markers| - 1], p);
      front + (if p(markers[|markers| - 1]) then [|markers| - 1] else [])
  }

  /** `stream_marker['time_stamps'][np.where(marker_series == 'Cue')[0]]`. */
  function CueTimes(markers: seq<string>, times: seq<real>): (cues: seq<real>)
    requires |markers| == |times|
  {
    var ix := IndicesWhere(markers, IsCue);
    seq(|ix|, k requires 0 <= k < |ix| => times[ix[k]])
  }

  /** The markers that start a trial, in stream order. */
  function Conditions(markers: seq<string>): (conds: seq<string>)
  {
    var ix := IndicesWhere(markers, IsCondition);
    seq(|ix|, k requires 0 <= k < |ix| => markers[ix[k]])
  }

  /** The code a condition is stored as; a trial start other than left or right keeps
      its text, which cannot be stored in the integer label column. */
  function ConditionCode(condition: string): (code: Option<int>)
    ensures code.Some? <==> condition == "Start_of_Trial_l" || condition == "Start_of_Trial_r"
    ensures code == Some(LeftCode) <==> condition == "Start_of_Trial_l"
    ensures code == Some(RightCode) <==> condition == "Start_of_Trial_r"
  {
    if condition == "Start_of_Trial_l" then Some(LeftCode)
    else if condition == "Start_of_Trial_r" then Some(RightCode)
    else None
  }

  datatype LabelError =
    | NoEegSamples                       // a cue on an empty recording: index -1 of an empty column
    | ConditionNotNumeric(condition: string)

  function Zeros(n: nat): (z: seq<int>)
    ensures |z| == n && forall k :: 0 <= k < n ==> z[k] == 0
  {
    seq(n, _ => 0)
  }

  /** The label column after the first `n` (cue time, condition) pairs. */
  function LabelColumn(eegTime: seq<real>, cues: seq<real>, conds: seq<string>, n: nat): (r: Result<seq<int>, LabelError>)
    requires Sorted(eegTime) && n <= |cues| && n <= |conds|
    ensures r.Success? ==> |r.value| == |eegTime|
  {
    if n == 0 then Success(Zeros(|eegTime|))
    else
      var prev := LabelColumn(eegTime, cues, conds, n - 1);
      if prev.Failure? then prev
      else
        var pos := FindNearestIndex(eegTime, cues[n - 1]);
        if pos < 0 then Failure(NoEegSamples)
        else match ConditionCode(conds[n - 1])
          case None => Failure(ConditionNotNumeric(conds[n - 1]))
          case Some(code) => Success(prev.value[pos := code])
  }

  /** The pairs are processed without error exactly when the recording has samples (or
      there are no pairs) and every paired condition is a left or right trial start. */
  lemma {:induction false} LabelColumnSucceeds(eegTime: seq<real>, cues: seq<real>, conds: seq<string>, n: nat)
    requires Sorted(eegTime) && n <= |cues| && n <= |conds|
    ensures LabelColumn(eegTime, cues, conds, n).Success? <==>
      (n == 0 || |eegTime| > 0) && forall i :: 0 <= i < n ==> ConditionCode(conds[i]).Some?
  {
    if n > 0 {
      LabelColumnSucceeds(eegTime, cues, conds, n - 1);
    }
  }

  /** Processing stops at the first failing pair: later pairs do not change the error. */
  lemma {:induction false} FailurePersists(eegTime: seq<real>, cues: seq<real>, conds: seq<string>, m: nat, n: nat)
    requires Sorted(eegTime) && m <= n <= |cues| && n <= |conds|
    requires LabelColumn(eegTime, cues, conds, m).Failure?
    ensures LabelColumn(eegTime, cues, conds, n) == LabelColumn(eegTime, cues, conds, m)
  {
    if m < n {
      FailurePersists(eegTime, cues, conds, m, n - 1);
    }
  }

  /** A position no cue lands on keeps its 0. */
  lemma {:induction false} UntouchedIsZero(eegTime: seq<real>, cues: seq<real>, conds: seq<string>, n: nat, p: nat)
    requires Sorted(eegTime) && n <= |cues| && n <= |conds| && p < |eegTime|
    requires LabelColumn(eegTime, cues, conds, n).Success?
    requires forall i :: 0 <= i < n ==> FindNearestIndex(eegTime, cues[i]) != p
    ensures LabelColumn(eegTime, cues, conds, n).value[p] == 0
  {
    if n > 0 {
      UntouchedIsZero(eegTime, cues, conds, n - 1, p);
    }
  }

  /** A position holds the code of the LAST pair whose cue lands on it. */
  lemma {:induction false} LastCueWins(eegTime: seq<real>, cues: seq<real>, conds: seq<string>, n: nat, p: nat, i: nat)
    requires Sorted(eegTime) && n <= |cues| && n <= |conds| && p < |eegTime|
    requires LabelColumn(eegTime, cues, conds, n).Success?
    requires i < n && FindNearestIndex(eegTime, cues[i]) == p
    requires forall j :: i < j < n ==> FindNearestIndex(eegTime, cues[j]) != p
    ensures Some(LabelColumn(eegTime, cues, conds, n).value[p]) == ConditionCode(conds[i])
  {
    if i < n - 1 {
      LastCueWins(eegTime, cues, conds, n - 1, p, i);
    }
  }

  /** Every entry of a label column is 0, 121 or 122. */
  lemma {:induction false} LabelValues(eegTime: seq<real>, cues: seq<real>, conds: seq<string>, n: nat)
    requires Sorted(eegTime) && n <= |cues| && n <= |conds|
    requires LabelColumn(eegTime, cues, conds, n).Success?
    ensures forall k :: 0 <= k < |eegTime| ==>
      LabelColumn(eegTime, cues, conds, n).value[k] in {0, LeftCode, RightCode}
  {
    if n > 0 {
      LabelValues(eegTime, cues, conds, n - 1);
    }
  }

  /** `np.append(cue_positions, time_series, axis=1)`: the label, then the sample. */
  function WithLabels(labels: seq<int>, eegSeries: seq<seq<real>>): (rows: seq<seq<real>>)
    requires |labels| == |eegSeries|
    ensures |rows| == |eegSeries|
    ensures forall k :: 0 <= k < |rows| ==>
      |rows[k]| == |eegSeries[k]| + 1 && rows[k][0] == labels[k] as real && rows[k][1..] == eegSeries[k]
  {
    seq(|labels|, k requires 0 <= k < |labels| => [labels[k] as real] + eegSeries[k])
  }

  /** The `zip` loop that writes the codes into a zero column. */
  method FillLabels(eegTime: seq<real>, cues: seq<real>, conds: seq<string>, n: nat)
    returns (r: Result<seq<int>, LabelError>)
    requires Sorted(eegTime) && n <= |cues| && n <= |conds|
    ensures r == LabelColumn(eegTime, cues, conds, n)
  {
    var cuePositions := new int[|eegTime|](_ => 0);
    assert cuePositions[..] == Zeros(|eegTime|);
    var i := 0;
    while i < n
      invariant 0 <= i <= n
      invariant LabelColumn(eegTime, cues, conds, i) == Success(cuePositions[..])
    {
      var pos := FindNearestIndex(eegTime, cues[i]);
      if pos < 0 {
        FailurePersists(eegTime, cues, conds, i + 1, n);
        return Failure(NoEegSamples);
      }
      var code := ConditionCode(conds[i]);
      if code.None? {
        FailurePersists(eegTime, cues, conds, i + 1, n);
        return Failure(ConditionNotNumeric(conds[i]));
      }
      cuePositions[pos] := code.value;
      i := i + 1;
    }
    r := Success(cuePositions[..]);
  }

  /** `add_class_labels_to_eeg` for an EEG stream (`eegTime`, `eegSeries`) and a marker
      stream (`markers`, `markerTimes`). The surplus of the longer of the cue and
      condition lists is ignored, as `zip` does. */
  method AddClassLabelsToEeg(eegTime: seq<real>, eegSeries: seq<seq<real>>, markers: seq<string>, markerTimes: seq<real>)
    returns (r: Result<seq<seq<real>>, LabelError>)
    requires Sorted(eegTime) && |eegSeries| == |eegTime| && |markers| == |markerTimes|
    ensures var cues := CueTimes(markers, markerTimes);
      var conds := Conditions(markers);
      var n := if |cues| < |conds| then |cues| else |conds|;
      var column := LabelColumn(eegTime, cues, conds, n);
      && (r.Success? <==> column.Success?)
      && (r.Success? ==> r.value == WithLabels(column.value, eegSeries))
      && (r.Failure? ==> r.error == column.error)
  {
    var cues := CueTimes(markers, markerTimes);
    var conds := Conditions(markers);
    var n := if |cues| < |conds| then |cues| else |conds|;
    var column := FillLabels(eegTime, cues, conds, n);
    match column {
      case Success(labels) => r := Success(WithLabels(labels, eegSeries));
      case Failure(e) => r := Failure(e);
    }
  }
}
