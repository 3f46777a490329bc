/** Channel selection and the region-of-interest map of `BCI.__select_enabled_channels`.

    The configuration table is read in order into three lists as long as the
    stream has channels (entries past the end of the table stay disabled, ROI 0,
    id 0); the enabled positions are kept, and for every ROI (or every listed
    channel id in single mode) the positions WITHIN THE REDUCED channel vector
    that belong to it are collected. */
module ChannelMap {
  import opened Wrappers

  /** One entry of the channel configuration table. */
  datatype ChannelSetting = ChannelSetting(enabled: bool, roi: int, id: int)

  /** The ERDS aggregation mode: per ROI, per listed channel id, or a mode
      string that matches neither (then no ROI map is built). */
  datatype ErdsMode = Average | Single(channelIds: seq<int>) | Unrecognised

  /** The enabled channel indices and, per ROI, the positions in the reduced vector. */
  datatype Selection = Selection(idxEnabledChannels: seq<nat>, channelToRoiMap: seq<seq<nat>>)

  predicate StrictlyIncreasing(s: seq<nat>)
  {
    forall i, j :: 0 <= i < j < |s| ==> s[i] < s[j]
  }

  /** `ps` lists, in increasing order, exactly the positions of `xs` that hold `v`. */
  ghost predicate PositionsOf(ps: seq<nat>, xs: seq<int>, v: int)
  {
    StrictlyIncreasing(ps) && forall p: nat :: p in ps <==> p < |xs| && xs[p] == v
  }

  function CountTrue(flags: seq<bool>): (n: nat)
    ensures n <= |flags|
  {
    if flags == [] then 0 else CountTrue(flags[..|flags| - 1]) + (if flags[|flags| - 1] then 1 else 0)
  }

  /** Number of enabled entries of the configuration table. */
  function NumEnabled(settings: seq<ChannelSetting>): nat
  {
    if settings == [] then 0
    else NumEnabled(settings[..|settings| - 1]) + (if settings[|settings| - 1].enabled then 1 else 0)
  }

  /** The three per-channel lists, each as long as the stream has channels. */
  function EnabledList(n: nat, settings: seq<ChannelSetting>): (flags: seq<bool>)
    ensures |flags| == n
  {
    seq(n, ch => 0 <= ch < |settings| && settings[ch].enabled)
  }

  function RoiList(n: nat, settings: seq<ChannelSetting>): (rois: seq<int>)
    ensures |rois| == n
  {
    seq(n, ch => if 0 <= ch < |settings| then settings[ch].roi else 0)
  }

  function IdList(n: nat, settings: seq<ChannelSetting>): (ids: seq<int>)
    ensures |ids| == n
  {
    seq(n, ch => if 0 <= ch < |settings| then settings[ch].id else 0)
  }

  /** numpy fancy indexing `values[idx]`. */
  function Gather(values: seq<int>, idx: seq<nat>): (r: seq<int>)
    requires forall p :: 0 <= p < |idx| ==> idx[p] < |values|
    ensures |r| == |idx| && forall p :: 0 <= p < |idx| ==> r[p] == values[idx[p]]
  {
    seq(|idx|, p requires 0 <= p < |idx| => values[idx[p]])
  }

  /** Padding the table with disabled entries does not change the number enabled. */
  lemma {:induction false} EnabledCount(n: nat, settings: seq<ChannelSetting>)
    requires |settings| <= n
    ensures CountTrue(EnabledList(n, settings)) == NumEnabled(settings)
    decreases n
  {
    var flags := EnabledList(n, settings);
    if n > |settings| {
      assert flags[..n - 1] == EnabledList(n - 1, settings);
      EnabledCount(n - 1, settings);
    } else if n > 0 {
      var init := settings[..n - 1];
      assert flags[..n - 1] == EnabledList(n - 1, init);
      EnabledCount(n - 1, init);
    }
  }

  /** `np.where(flags)[0]`: the positions holding true, in increasing order. */
  method Where(flags: seq<bool>) returns (idx: seq<nat>)
    ensures StrictlyIncreasing(idx)
    ensures forall p: nat :: p in idx <==> p < |flags| && flags[p]
    ensures |idx| == CountTrue(flags)
  {
    idx := [];
    var i := 0;
    while i < |flags|
      invariant 0 <= i <= |flags|
      invariant StrictlyIncreasing(idx)
      invariant forall j :: 0 <= j < |idx| ==> idx[j] < i
      invariant forall p: nat :: p in idx <==> p < i && flags[p]
      invariant |idx| == CountTrue(flags[..i])
    {
      assert flags[..i + 1][..i] == flags[..i];
      if flags[i] {
        idx := idx + [i];
      }
      i := i + 1;
    }
    assert flags[..|flags|] == flags;
  }

  /** `np.where(xs == v)[0]`. */
  method WhereEqual(xs: seq<int>, v: int) returns (ps: seq<nat>)
    ensures PositionsOf(ps, xs, v)
  {
    ps := Where(seq(|xs|, p requires 0 <= p < |xs| => xs[p] == v));
  }

  /** The loop that copies the configuration table into three stream-length lists. */
  method ReadChannelTable(n: nat, settings: seq<ChannelSetting>)
    returns (isEnabled: seq<bool>, roiOf: seq<int>, idOf: seq<int>)
    requires |settings| <= n
    ensures isEnabled == EnabledList(n, settings)
    ensures roiOf == RoiList(n, settings) && idOf == IdList(n, settings)
  {
    var enabledArr := new bool[n](_ => false);
    var roiArr := new int[n](_ => 0);
    var idArr := new int[n](_ => 0);
    var cnt := 0;
    while cnt < |settings|
      invariant 0 <= cnt <= |settings|
      invariant forall ch :: 0 <= ch < n ==>
        && enabledArr[ch] == (ch < cnt && settings[ch].enabled)
        && roiArr[ch] == (if ch < cnt then settings[ch].roi else 0)
        && idArr[ch] == (if ch < cnt then settings[ch].id else 0)
    {
      enabledArr[cnt] := settings[cnt].enabled;
      roiArr[cnt] := settings[cnt].roi;
      idArr[cnt] := settings[cnt].id;
      cnt := cnt + 1;
    }
    isEnabled, roiOf, idOf := enabledArr[..], roiArr[..], idArr[..];
  }

  /** Average mode: for ROI 1 .. nRoi, the reduced positions assigned to it. */
  method AverageRoiMap(reducedRoi: seq<int>, nRoi: nat) returns (roiMap: seq<seq<nat>>)
    ensures |roiMap| == nRoi
    ensures forall k :: 0 <= k < nRoi ==> PositionsOf(roiMap[k], reducedRoi, k + 1)
  {
    roiMap := [];
    var roi := 1;
    while roi <= nRoi
      invariant 1 <= roi <= nRoi + 1
      invariant |roiMap| == roi - 1
      invariant forall k :: 0 <= k < |roiMap| ==> PositionsOf(roiMap[k], reducedRoi, k + 1)
    {
      var ps := WhereEqual(reducedRoi, roi);
      roiMap := roiMap + [ps];
      roi := roi + 1;
    }
  }

  /** Single mode: for every listed channel id, the reduced positions carrying it. */
  method SingleRoiMap(reducedId: seq<int>, channelIds: seq<int>) returns (roiMap: seq<seq<nat>>)
    ensures |roiMap| == |channelIds|
    ensures forall k :: 0 <= k < |channelIds| ==> PositionsOf(roiMap[k], reducedId, channelIds[k])
  {
    roiMap := [];
    var k := 0;
    while k < |channelIds|
      invariant 0 <= k <= |channelIds|
      invariant |roiMap| == k
      invariant forall j :: 0 <= j < k ==> PositionsOf(roiMap[j], reducedId, channelIds[j])
    {
      var ps := WhereEqual(reducedId, channelIds[k]);
      roiMap := roiMap + [ps];
      k := k + 1;
    }
  }

  /** `__select_enabled_channels` for a stream of `streamChannels` channels. More table
      entries than stream channels is an index error, reported as `None`. */
  method SelectEnabledChannels(streamChannels: nat, settings: seq<ChannelSetting>, mode: ErdsMode, nRoi: nat)
    returns (r: Option<Selection>)
    ensures r.None? <==> |settings| > streamChannels
    ensures r.Some? ==>
      var idx := r.value.idxEnabledChannels;
      && StrictlyIncreasing(idx)
      && (forall ch: nat :: ch in idx <==> ch < |settings| && settings[ch].enabled)
      && |idx| == NumEnabled(settings)
      && (forall p :: 0 <= p < |idx| ==> idx[p] < streamChannels)
    ensures r.Some? ==>
      var idx := r.value.idxEnabledChannels;
      var roiMap := r.value.channelToRoiMap;
      && (forall k, j :: 0 <= k < |roiMap| && 0 <= j < |roiMap[k]| ==> roiMap[k][j] < |idx|)
      && (mode.Average? ==>
            && |roiMap| == nRoi
            && forall k :: 0 <= k < nRoi ==>
                 PositionsOf(roiMap[k], Gather(RoiList(streamChannels, settings), idx), k + 1))
      && (mode.Single? ==>
            && |roiMap| == |mode.channelIds|
            && forall k :: 0 <= k < |roiMap| ==>
                 PositionsOf(roiMap[k], Gather(IdList(streamChannels, settings), idx), mode.channelIds[k]))
      && (mode.Unrecognised? ==> roiMap == [])
  {
    if |settings| > streamChannels {
      return None;
    }
    var isEnabled, roiOf, idOf := ReadChannelTable(streamChannels, settings);
    var idx := Where(isEnabled);
    EnabledCount(streamChannels, settings);
    assert forall p :: 0 <= p < |idx| ==> idx[p] in idx;
    var reducedRoi := Gather(roiOf, idx);
    var reducedId := Gather(idOf, idx);

    var roiMap: seq<seq<nat>> := [];
    match mode {
      case Average =>
        roiMap := AverageRoiMap(reducedRoi, nRoi);
      case Single(channelIds) =>
        roiMap := SingleRoiMap(reducedId, channelIds);
      case Unrecognised =>
    }
    assert forall k, j :: 0 <= k < |roiMap| && 0 <= j < |roiMap[k]| ==> roiMap[k][j] in roiMap[k];
    r := Some(Selection(idx, roiMap));
  }
}
