/** The online session of `BCI`: the phase set by marker events (`start_feedback_loop`),
    the reference rows and baseline kept by the ERDS worker (`__compute_erds`,
    `__reset_erds`), and the classification worker's use of the voting buffer
    (`__compute_classification`).

    Each worker's loop body is one method here, run sequentially. The filters are
    outside the model: a sample reaches these methods as the squared reference-band
    filter output (ERDS worker) or as the per-sample class label the discriminant
    chose (classification worker). */
module BciSession {
  import opened Wrappers
  import opened Erds
  import Voting
  import ChannelMap

  /** `BCIState`. */
  datatype Phase = Start | Reference | Cue | Feedback | Break | Sleep

  /** The startup phase ends once the elapsed whole seconds exceed this. */
  const StartupSeconds: nat := 3

  function ZeroRow(width: nat): (row: seq<Option<real>>)
    ensures |row| == width && forall ch :: 0 <= ch < width ==> row[ch] == Some(0.0)
  {
    seq(width, _ => Some(0.0))
  }

  function NaNRow(width: nat): (row: seq<Option<real>>)
    ensures |row| == width && forall ch :: 0 <= ch < width ==> row[ch].None?
  {
    seq(width, _ => None)
  }

  /** The marker strings the session reacts to; every other marker is ignored. */
  predicate IsKnownMarker(marker: string)
  {
    marker == "Reference" || marker == "Cue" || marker == "Feedback" || marker == "End_of_Trial"
  }

  class Bci {
    var state: Phase
    var dataRef: seq<seq<Option<real>>>
    var dataRefMean: seq<Option<real>>
    const sampleRate: nat
    const idxStartRef: nat
    const nEnabledChannels: nat
    const nRoi: nat
    const channelToRoiMap: seq<seq<nat>>
    const core: Voting.VotingBuffer
    /** The ERDS worker's thread has ended on an exception. */
    var erdsStopped: bool

    /** The reference rows and baseline have the enabled channels' width, and while
        only the leading zero row is held no baseline has been taken: it is all NaN. */
    ghost predicate Valid()
      reads this, core, core.labelBuffer
    {
      && core.Valid() && core.sampleRate == sampleRate
      && idxStartRef == sampleRate / 2
      && |dataRef| >= 1
      && (forall i :: 0 <= i < |dataRef| ==> |dataRef[i]| == nEnabledChannels)
      && |dataRefMean| == nEnabledChannels
      && (|dataRef| == 1 ==> dataRefMean == NaNRow(nEnabledChannels))
      && ValidRoiMap(channelToRoiMap, nEnabledChannels)
    }

    /** The session once built and started: `__init__` with the channel selection
        `selection` (phase START, `idx_start_ref` half the sample rate), the voting core
        the caller attaches, and the ERDS worker's first `__reset_erds`. */
    constructor (sampleRate: nat, nRoi: nat, selection: ChannelMap.Selection)
      requires ValidRoiMap(selection.channelToRoiMap, |selection.idxEnabledChannels|)
      ensures Valid() && fresh(core) && fresh(core.labelBuffer)
      ensures state == Start && !erdsStopped
      ensures nEnabledChannels == |selection.idxEnabledChannels|
      ensures channelToRoiMap == selection.channelToRoiMap
      ensures dataRef == [ZeroRow(nEnabledChannels)] && dataRefMean == NaNRow(nEnabledChannels)
      ensures core.State() == Voting.Initial(sampleRate)
      ensures this.sampleRate == sampleRate && idxStartRef == sampleRate / 2 && this.nRoi == nRoi
    {
      state := Start;
      this.sampleRate := sampleRate;
      idxStartRef := sampleRate / 2;
      nEnabledChannels := |selection.idxEnabledChannels|;
      this.nRoi := nRoi;
      channelToRoiMap := selection.channelToRoiMap;
      core := new Voting.VotingBuffer(sampleRate);
      erdsStopped := false;
      dataRef := [ZeroRow(|selection.idxEnabledChannels|)];
      dataRefMean := NaNRow(|selection.idxEnabledChannels|);
    }

    /** `__reset_erds`: one zero reference row and an all-NaN baseline. */
    method ResetErds()
      requires Valid()
      modifies this
      ensures Valid() && state == old(state) && erdsStopped == old(erdsStopped)
      ensures dataRef == [ZeroRow(nEnabledChannels)] && dataRefMean == NaNRow(nEnabledChannels)
    {
      dataRef := [ZeroRow(nEnabledChannels)];
      dataRefMean := NaNRow(nEnabledChannels);
    }

    /** One pass of the startup wait; `elapsed` is the whole seconds since the loop began. */
    method StartupTick(elapsed: int)
      requires Valid()
      modifies this
      ensures Valid()
      ensures state == (if old(state) == Start && elapsed > StartupSeconds then Sleep else old(state))
      ensures dataRef == old(dataRef) && dataRefMean == old(dataRefMean) && erdsStopped == old(erdsStopped)
    {
      if state == Start && elapsed > StartupSeconds {
        state := Sleep;
      }
    }

    /** The marker dispatch of `start_feedback_loop`. It runs only once the startup
        phase is over. `baselineMissing` is the error report on a `Cue` that finds no
        reference samples. */
    method OnMarker(marker: string) returns (baselineMissing: bool)
      requires Valid() && state != Start
      modifies this, core
      ensures Valid() && state != Start && erdsStopped == old(erdsStopped)
      ensures baselineMissing ==> marker == "Cue" && dataRefMean == NaNRow(nEnabledChannels)
      ensures marker == "Reference" ==>
        state == Reference && dataRef == old(dataRef) && dataRefMean == old(dataRefMean)
      ensures marker == "Cue" ==>
        && state == Cue && dataRef == old(dataRef)
        && baselineMissing == (|old(dataRef)| <= 1)
        && dataRefMean == (if |old(dataRef)| > 1 then Baseline(old(dataRef), idxStartRef, nEnabledChannels)
                           else old(dataRefMean))
      ensures marker == "Feedback" ==>
        state == Feedback && dataRef == old(dataRef) && dataRefMean == old(dataRefMean)
      ensures marker == "End_of_Trial" ==>
        && state == Break
        && dataRef == [ZeroRow(nEnabledChannels)] && dataRefMean == NaNRow(nEnabledChannels)
        && core.State() == Voting.Initial(sampleRate) && fresh(core.labelBuffer)
      ensures marker != "End_of_Trial" ==>
        core.labelBuffer == old(core.labelBuffer) && core.State() == old(core.State())
      ensures !IsKnownMarker(marker) ==>
        state == old(state) && dataRef == old(dataRef) && dataRefMean == old(dataRefMean)
    {
      baselineMissing := false;
      if marker == "Reference" {
        state := Reference;
      } else if marker == "Cue" {
        state := Cue;
        if |dataRef| > 1 {
          dataRefMean := Baseline(dataRef, idxStartRef, nEnabledChannels);
        } else {
          baselineMissing := true;
        }
      } else if marker == "Feedback" {
        state := Feedback;
      } else if marker == "End_of_Trial" {
        state := Break;
        core.SetLdaDistanceParameters();
        ResetErds();
      }
    }

    /** One iteration of the ERDS worker for a sample whose squared reference-band
        filter output is `power`. In REFERENCE the row is appended; in FEEDBACK the
        per-ROI ERDS is emitted unless the power or the baseline holds a NaN. A ROI map
        with fewer than `nRoi` entries makes the FEEDBACK step fail with an index error
        (`roiMapTooShort`), which ends the worker: it does nothing from then on. */
    method ErdsSample(power: seq<Option<real>>) returns (emitted: Option<seq<Option<real>>>, roiMapTooShort: bool)
      requires Valid() && |power| == nEnabledChannels
      modifies this
      ensures Valid() && state == old(state) && dataRefMean == old(dataRefMean)
      ensures erdsStopped == (old(erdsStopped) || roiMapTooShort)
      ensures roiMapTooShort ==> emitted.None?
      ensures old(erdsStopped) ==> emitted.None? && !roiMapTooShort && dataRef == old(dataRef)
      ensures state == Reference && !old(erdsStopped) ==>
        dataRef == old(dataRef) + [power] && emitted.None? && !roiMapTooShort
      ensures state != Reference ==> dataRef == old(dataRef)
      ensures state != Feedback ==> emitted.None? && !roiMapTooShort
      ensures (|old(dataRef)| == 1 || dataRefMean == NaNRow(nEnabledChannels)) && nEnabledChannels > 0 ==>
        emitted.None? && !roiMapTooShort
      ensures state == Feedback && !old(erdsStopped) ==>
        && (roiMapTooShort <==> AllFinite(power) && AllFinite(dataRefMean) && nRoi > |channelToRoiMap|)
        && (emitted.Some? <==> AllFinite(power) && AllFinite(dataRefMean) && nRoi <= |channelToRoiMap|)
        && (emitted.Some? ==>
              && |emitted.value| == nRoi
              && forall roi :: 0 <= roi < nRoi ==>
                   emitted.value[roi] == Mean(Pick(ErdsOf(power, dataRefMean), channelToRoiMap[roi])))
    {
      emitted := None;
      roiMapTooShort := false;
      if erdsStopped {
        return;
      }
      if state == Reference {
        dataRef := dataRef + [power];
      } else if state == Feedback {
        if (|dataRef| == 1 || dataRefMean == NaNRow(nEnabledChannels)) && nEnabledChannels > 0 {
          assert dataRefMean[0].None?;
        }
        if AllFinite(power) && AllFinite(dataRefMean) {
          var erds := ErdsOf(power, dataRefMean);
          var perRoi := RoiMeans(erds, channelToRoiMap, nRoi);
          if perRoi.None? {
            roiMapTooShort := true;
            erdsStopped := true;
          } else {
            emitted := perRoi;
          }
        }
      }
    }

    /** One iteration of the classification worker, `sampleLabel` being the label
        (1 or 2) the discriminant chose for this sample. In FEEDBACK the voting buffer
        is advanced and `[label - 1, distance]` is emitted. */
    method ClassificationSample(sampleLabel: int) returns (emitted: Option<(int, real)>)
      requires Valid() && (state == Feedback ==> sampleRate > 0)
      modifies core, core.labelBuffer
      ensures Valid() && core.labelBuffer == old(core.labelBuffer)
      ensures state != Feedback ==> emitted.None? && core.State() == old(core.State())
      ensures state == Feedback ==>
        var (next, vote) := Voting.VoteStep(old(core.State()), sampleRate, sampleLabel);
        core.State() == next && emitted == Some((vote.winner - 1, vote.distance))
    {
      emitted := None;
      if state == Feedback {
        var classLabel, distance := core.LdaDistanceCalculation(sampleLabel);
        emitted := Some((classLabel - 1, distance));
      }
    }
  }

  /** An emitted classification pair is a class index in {0, 1} and a distance in [0, 1]. */
  lemma EmittedClassification(s: Voting.VoteState, sampleRate: nat, sampleLabel: int)
    requires Voting.Inv(s, sampleRate) && sampleRate > 0
    ensures var vote := Voting.VoteStep(s, sampleRate, sampleLabel).1;
      (vote.winner - 1 == 0 || vote.winner - 1 == 1) && 0.0 <= vote.distance <= 1.0
  {
    Voting.StepOutput(s, sampleRate, sampleLabel);
  }

  /** The end-to-end case: sample rate 128, four channels in one ROI, 128 reference rows
      of power 4 after the leading zero row, then one feedback sample of power 8: the
      baseline is 4 on every channel and the ROI's ERDS is 1 (a 100 % increase). */
  lemma EndToEndExample()
    ensures var dataRef := [ZeroRow(4)] + seq(128, _ => seq(4, _ => Some(4.0)));
      var baseline := Baseline(dataRef, 128 / 2, 4);
      && baseline == seq(4, _ => Some(4.0))
      && Mean(Pick(ErdsOf(seq(4, _ => Some(8.0)), baseline), [0, 1, 2, 3])) == Some(1.0)
  {
    var dataRef := [ZeroRow(4)] + seq(128, _ => seq(4, _ => Some(4.0)));
    var baseline := Baseline(dataRef, 128 / 2, 4);
    forall ch | 0 <= ch < 4 ensures baseline[ch] == Some(4.0) {
      BaselineOfConstant(dataRef, 64, 4, ch, 4.0);
    }
    assert baseline == seq(4, _ => Some(4.0));
    var erds := ErdsOf(seq(4, _ => Some(8.0)), baseline);
    assert forall ch :: 0 <= ch < 4 ==> erds[ch] == Some(1.0);
    MeanOfConstant(Pick(erds, [0, 1, 2, 3]), 1.0);
  }
}
