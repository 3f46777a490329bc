/** The temporal voting buffer of the online classifier
    (`BCICore.set_lda_distance_parameters`, `BCICore.lda_disctance_calculation`)
    and the offline accuracy helper `BCICore.calculate_accuracy`.

    The buffer remembers the label of each of the last `sampleRate` samples
    (0 in a slot that was never written) and keeps two running vote counts,
    updated per sample instead of by rescanning the buffer. */
module Voting {
  import opened Wrappers

  /** Number of entries of `s` equal to `v`. */
  function Count(s: seq<int>, v: int): (n: nat)
    ensures n <= |s|
  {
    if s == [] then 0 else Count(s[..|s| - 1], v) + (if s[|s| - 1] == v then 1 else 0)
  }

  lemma {:induction false} CountZeros(n: nat, v: int)
    requires v != 0
    ensures Count(seq(n, _ => 0), v) == 0
  {
    if n > 0 {
      assert seq(n, _ => 0)[..n - 1] == seq(n - 1, _ => 0);
      CountZeros(n - 1, v);
    }
  }

  /** Overwriting one slot changes the count of `v` only by what left and what arrived. */
  lemma {:induction false} CountUpdate(s: seq<int>, i: nat, x: int, v: int)
    requires i < |s|
    ensures Count(s[i := x], v)
         == Count(s, v) - (if s[i] == v then 1 else 0) + (if x == v then 1 else 0)
  {
    var t := s[i := x];
    if i == |s| - 1 {
      assert t[..|t| - 1] == s[..|s| - 1];
    } else {
      assert t[..|t| - 1] == s[..|s| - 1][i := x];
      CountUpdate(s[..|s| - 1], i, x, v);
    }
  }

  /** Two different labels never share a slot, so their counts fit in the buffer together. */
  lemma {:induction false} CountTwoBound(s: seq<int>)
    ensures Count(s, 1) + Count(s, 2) <= |s|
  {
    if s != [] {
      CountTwoBound(s[..|s| - 1]);
    }
  }

  /** `c` occupies every slot of `s`. */
  lemma {:induction false} CountConstant(s: seq<int>, c: int)
    requires forall i :: 0 <= i < |s| ==> s[i] == c
    ensures Count(s, c) == |s|
  {
    if s != [] {
      CountConstant(s[..|s| - 1], c);
    }
  }

  /** The label buffer, the two running vote counts and the write cursor. */
  datatype VoteState = VoteState(buffer: seq<int>, votes: seq<int>, cursor: nat)

  /** The output of one voting step: the smoothed class label (1 or 2) and its distance. */
  datatype Vote = Vote(winner: int, distance: real)

  predicate WellFormed(s: VoteState, sampleRate: nat)
  {
    |s.buffer| == sampleRate && |s.votes| == 2 && (s.cursor < sampleRate || s.cursor == 0)
  }

  /** The incrementally maintained counts agree with a full rescan of the buffer. */
  predicate Inv(s: VoteState, sampleRate: nat)
  {
    WellFormed(s, sampleRate) && s.votes[0] == Count(s.buffer, 1) && s.votes[1] == Count(s.buffer, 2)
  }

  /** The state `set_lda_distance_parameters` installs: zeros, no votes, cursor 0. */
  function Initial(sampleRate: nat): (s: VoteState)
    ensures Inv(s, sampleRate)
    ensures s.votes == [0, 0] && s.cursor == 0
    ensures forall i :: 0 <= i < |s.buffer| ==> s.buffer[i] == 0
  {
    CountZeros(sampleRate, 1);
    CountZeros(sampleRate, 2);
    VoteState(seq(sampleRate, _ => 0), [0, 0], 0)
  }

  /** One call of `lda_disctance_calculation` with the per-sample label `sampleLabel`.
      The counts are updated first and the winner taken from the updated counts
      (ties go to class 1, as `np.argmax` returns the first maximum), but the
      distance is read from the counts as they were BEFORE this update. */
  function VoteStep(s: VoteState, sampleRate: nat, sampleLabel: int): (r: (VoteState, Vote))
    requires WellFormed(s, sampleRate) && sampleRate > 0
    ensures WellFormed(r.0, sampleRate) && r.0.cursor < sampleRate
    ensures r.1.winner == 1 || r.1.winner == 2
  {
    var slot := s.buffer[s.cursor];
    var class1 := (if sampleLabel == 1 then 1 else 0) - (if slot == 1 then 1 else 0) + s.votes[0];
    var class2 := (if sampleLabel == 2 then 1 else 0) - (if slot == 2 then 1 else 0) + s.votes[1];
    var classLabel := if class2 > class1 then 2 else 1;
    var distance := s.votes[classLabel - 1] as real / sampleRate as real;
    var cursor := if s.cursor < sampleRate - 1 then s.cursor + 1 else 0;
    (VoteState(s.buffer[s.cursor := sampleLabel], [class1, class2], cursor), Vote(classLabel, distance))
  }

  /** A voting step keeps the counts equal to a rescan of the buffer, overwrites exactly
      the slot under the cursor and advances the cursor cyclically. */
  lemma StepKeepsInv(s: VoteState, sampleRate: nat, sampleLabel: int)
    requires Inv(s, sampleRate) && sampleRate > 0
    ensures Inv(VoteStep(s, sampleRate, sampleLabel).0, sampleRate)
    ensures VoteStep(s, sampleRate, sampleLabel).0.buffer == s.buffer[s.cursor := sampleLabel]
    ensures VoteStep(s, sampleRate, sampleLabel).0.cursor == (s.cursor + 1) % sampleRate
  {
    var t := VoteStep(s, sampleRate, sampleLabel).0;
    assert t.buffer == s.buffer[s.cursor := sampleLabel];
    CountUpdate(s.buffer, s.cursor, sampleLabel, 1);
    CountUpdate(s.buffer, s.cursor, sampleLabel, 2);
    assert t.votes[0] == Count(t.buffer, 1) && t.votes[1] == Count(t.buffer, 2);
    CursorStep(s.cursor, sampleRate);
  }

  /** The cursor update `cnt + 1`, wrapped to 0 at the end of the buffer. */
  lemma CursorStep(cursor: nat, sampleRate: nat)
    requires cursor < sampleRate
    ensures (if cursor < sampleRate - 1 then cursor + 1 else 0) == (cursor + 1) % sampleRate
  {
    if cursor == sampleRate - 1 {
      assert cursor + 1 == 1 * sampleRate;
    }
  }

  lemma ShareBound(n: nat, d: nat)
    requires 0 < d && n <= d
    ensures 0.0 <= n as real / d as real <= 1.0
  {
  }

  /** The step's output: the class with the most votes in the updated buffer (class 1
      on a tie), and as distance the chosen class's share of the buffer BEFORE the
      update, a value in [0, 1]; the two counts together never exceed the buffer. */
  lemma StepOutput(s: VoteState, sampleRate: nat, sampleLabel: int)
    requires Inv(s, sampleRate) && sampleRate > 0
    ensures VoteStep(s, sampleRate, sampleLabel).1.winner
         == (if Count(VoteStep(s, sampleRate, sampleLabel).0.buffer, 2)
                > Count(VoteStep(s, sampleRate, sampleLabel).0.buffer, 1) then 2 else 1)
    ensures VoteStep(s, sampleRate, sampleLabel).1.distance
         == Count(s.buffer, VoteStep(s, sampleRate, sampleLabel).1.winner) as real / sampleRate as real
    ensures 0.0 <= VoteStep(s, sampleRate, sampleLabel).1.distance <= 1.0
    ensures VoteStep(s, sampleRate, sampleLabel).0.votes[0]
          + VoteStep(s, sampleRate, sampleLabel).0.votes[1] <= sampleRate
  {
    var (t, out) := VoteStep(s, sampleRate, sampleLabel);
    StepKeepsInv(s, sampleRate, sampleLabel);
    CountTwoBound(t.buffer);
    assert out.winner == 1 || out.winner == 2;
    var n := Count(s.buffer, out.winner);
    assert n == s.votes[out.winner - 1];
    ShareBound(n, sampleRate);
  }

  /** Feeding the labels one after another. */
  function Run(s: VoteState, sampleRate: nat, labels: seq<int>): (r: (VoteState, seq<Vote>))
    requires WellFormed(s, sampleRate) && sampleRate > 0
    ensures WellFormed(r.0, sampleRate) && |r.1| == |labels|
    decreases |labels|
  {
    if labels == [] then (s, [])
    else
      var (t, out) := VoteStep(s, sampleRate, labels[0]);
      var (u, outs) := Run(t, sampleRate, labels[1..]);
      (u, [out] + outs)
  }

  lemma RunFirst(s: VoteState, sampleRate: nat, labels: seq<int>)
    requires WellFormed(s, sampleRate) && sampleRate > 0 && labels != []
    ensures var (t, out) := VoteStep(s, sampleRate, labels[0]);
      && Run(s, sampleRate, labels).0 == Run(t, sampleRate, labels[1..]).0
      && Run(s, sampleRate, labels).1 == [out] + Run(t, sampleRate, labels[1..]).1
  {
  }

  /** `m` samples that all carry the label `c`. */
  function Constant(c: int, m: nat): (labels: seq<int>)
    ensures |labels| == m && forall k :: 0 <= k < m ==> labels[k] == c
  {
    seq(m, _ => c)
  }

  /** The state after `j` samples of the constant label `c` fed from the initial state. */
  function Filled(sampleRate: nat, c: int, j: nat): (s: VoteState)
    requires j <= sampleRate
    ensures WellFormed(s, sampleRate)
  {
    VoteState(seq(j, _ => c) + seq(sampleRate - j, _ => 0),
              if c == 1 then [j, 0] else [0, j],
              if j < sampleRate then j else 0)
  }

  lemma {:induction false} FilledStep(sampleRate: nat, c: int, j: nat)
    requires c == 1 || c == 2
    requires j < sampleRate
    ensures VoteStep(Filled(sampleRate, c, j), sampleRate, c)
         == (Filled(sampleRate, c, j + 1), Vote(c, j as real / sampleRate as real))
  {
    var s := Filled(sampleRate, c, j);
    assert s.buffer[j] == 0;
    assert s.buffer[j := c] == seq(j + 1, _ => c) + seq(sampleRate - (j + 1), _ => 0);
  }

  /** Starting from `j` constant samples, `m` more samples of the same label leave
      `j + m` constant samples. */
  lemma {:induction false} ConstantRunState(sampleRate: nat, c: int, j: nat, m: nat)
    requires c == 1 || c == 2
    requires 0 < sampleRate && j + m <= sampleRate
    ensures Run(Filled(sampleRate, c, j), sampleRate, Constant(c, m)).0 == Filled(sampleRate, c, j + m)
    decreases m
  {
    var labels := Constant(c, m);
    if m > 0 {
      assert labels[0] == c && labels[1..] == Constant(c, m - 1);
      FilledStep(sampleRate, c, j);
      ConstantRunState(sampleRate, c, j + 1, m - 1);
      RunFirst(Filled(sampleRate, c, j), sampleRate, labels);
    } else {
      assert labels == [];
    }
  }

  /** ... and the k-th of them reports distance (j + k) / sampleRate. */
  lemma {:induction false} ConstantRun(sampleRate: nat, c: int, j: nat, m: nat)
    requires c == 1 || c == 2
    requires 0 < sampleRate && j + m <= sampleRate
    ensures forall k :: 0 <= k < m ==>
      Run(Filled(sampleRate, c, j), sampleRate, Constant(c, m)).1[k]
        == Vote(c, (j + k) as real / sampleRate as real)
    decreases m
  {
    var labels := Constant(c, m);
    if m > 0 {
      assert labels[0] == c && labels[1..] == Constant(c, m - 1);
      FilledStep(sampleRate, c, j);
      ConstantRun(sampleRate, c, j + 1, m - 1);
      RunFirst(Filled(sampleRate, c, j), sampleRate, labels);
      var outs := Run(Filled(sampleRate, c, j), sampleRate, labels).1;
      var rest := Run(Filled(sampleRate, c, j + 1), sampleRate, labels[1..]).1;
      ShiftedVotes(outs, rest, sampleRate, c, j, m);
    }
  }

  lemma ShiftedVotes(outs: seq<Vote>, rest: seq<Vote>, sampleRate: nat, c: int, j: nat, m: nat)
    requires sampleRate > 0 && m > 0 && |rest| == m - 1
    requires outs == [Vote(c, j as real / sampleRate as real)] + rest
    requires forall k :: 0 <= k < m - 1 ==> rest[k] == Vote(c, (j + 1 + k) as real / sampleRate as real)
    ensures forall k :: 0 <= k < m ==> outs[k] == Vote(c, (j + k) as real / sampleRate as real)
  {
    forall k | 1 <= k < m
      ensures outs[k] == Vote(c, (j + k) as real / sampleRate as real)
    {
      assert outs[k] == rest[k - 1];
      assert j + 1 + (k - 1) == j + k;
    }
  }

  /** Once every slot holds `c`, a further `c` keeps the state and reports distance 1. */
  lemma SaturatedStep(sampleRate: nat, c: int)
    requires c == 1 || c == 2
    requires sampleRate > 0
    ensures VoteStep(Filled(sampleRate, c, sampleRate), sampleRate, c).1 == Vote(c, 1.0)
  {
    var s := Filled(sampleRate, c, sampleRate);
    assert s.buffer[0] == c;
    assert s.votes[c - 1] == sampleRate;
    assert sampleRate as real / sampleRate as real == 1.0;
  }

  /** After a reset, `sampleRate` samples of one label give that label all the votes, yet
      the last of them still reports distance (sampleRate - 1) / sampleRate: the distance
      reaches 1 only with the next sample of the same label. */
  lemma ConstantLabelSaturates(sampleRate: nat, c: int)
    requires c == 1 || c == 2
    requires sampleRate > 0
    ensures Count(Run(Initial(sampleRate), sampleRate, Constant(c, sampleRate)).0.buffer, c) == sampleRate
    ensures Run(Initial(sampleRate), sampleRate, Constant(c, sampleRate)).0.votes[c - 1] == sampleRate
    ensures Run(Initial(sampleRate), sampleRate, Constant(c, sampleRate)).1[sampleRate - 1]
         == Vote(c, (sampleRate - 1) as real / sampleRate as real)
    ensures VoteStep(Run(Initial(sampleRate), sampleRate, Constant(c, sampleRate)).0, sampleRate, c).1
         == Vote(c, 1.0)
  {
    assert Initial(sampleRate).buffer == Filled(sampleRate, c, 0).buffer;
    assert Initial(sampleRate) == Filled(sampleRate, c, 0);
    ConstantRunState(sampleRate, c, 0, sampleRate);
    ConstantRun(sampleRate, c, 0, sampleRate);
    var s := Filled(sampleRate, c, sampleRate);
    assert s.buffer == Constant(c, sampleRate);
    CountConstant(s.buffer, c);
    SaturatedStep(sampleRate, c);
  }

  /** How many steps after the cursor at `p` the write reaches slot `i` of a buffer of
      length `n`, going round once. */
  function Ahead(p: nat, i: nat, n: nat): (k: nat)
    requires p < n && i < n
    ensures k < n && (k == 0 <==> i == p)
  {
    if i >= p then i - p else i + n - p
  }

  /** Advancing the cursor brings every other slot one step nearer. */
  lemma AheadStep(p: nat, i: nat, n: nat)
    requires p < n && i < n && i != p
    ensures Ahead(if p < n - 1 then p + 1 else 0, i, n) == Ahead(p, i, n) - 1
  {
  }

  /** From any consistent state, `m <= sampleRate` samples of the label `c` overwrite
      exactly the `m` slots from the cursor on, cyclically, and keep the counts equal
      to a rescan. */
  lemma {:induction false} RunConstantWrites(s: VoteState, sampleRate: nat, c: int, m: nat)
    requires Inv(s, sampleRate) && sampleRate > 0 && m <= sampleRate
    ensures var t := Run(s, sampleRate, Constant(c, m)).0;
      && Inv(t, sampleRate)
      && forall i :: 0 <= i < sampleRate ==>
           t.buffer[i] == (if Ahead(s.cursor, i, sampleRate) < m then c else s.buffer[i])
    decreases m
  {
    var labels := Constant(c, m);
    if m == 0 {
      assert labels == [];
    } else {
      assert labels[0] == c && labels[1..] == Constant(c, m - 1);
      var t1 := VoteStep(s, sampleRate, c).0;
      StepKeepsInv(s, sampleRate, c);
      RunConstantWrites(t1, sampleRate, c, m - 1);
      RunFirst(s, sampleRate, labels);
      var t := Run(s, sampleRate, labels).0;
      assert t == Run(t1, sampleRate, Constant(c, m - 1)).0;
      forall i | 0 <= i < sampleRate
        ensures t.buffer[i] == (if Ahead(s.cursor, i, sampleRate) < m then c else s.buffer[i])
      {
        if i != s.cursor {
          AheadStep(s.cursor, i, sampleRate);
        }
      }
    }
  }

  /** A consistent buffer holding `c` in every slot gives `c` all the votes. */
  lemma SaturatedVotes(t: VoteState, sampleRate: nat, c: int)
    requires Inv(t, sampleRate)
    requires c == 1 || c == 2
    requires t.buffer == Constant(c, sampleRate)
    ensures t.votes[c - 1] == sampleRate && t.votes[2 - c] == 0
  {
    CountConstant(t.buffer, c);
    CountTwoBound(t.buffer);
  }

  /** With every slot and every vote for `c`, one more `c` reports it with distance 1
      and leaves the buffer as it is. */
  lemma SaturatedAnyStep(t: VoteState, sampleRate: nat, c: int)
    requires WellFormed(t, sampleRate) && sampleRate > 0
    requires c == 1 || c == 2
    requires t.buffer[t.cursor] == c
    requires t.votes[c - 1] == sampleRate && t.votes[2 - c] == 0
    ensures VoteStep(t, sampleRate, c).1 == Vote(c, 1.0)
    ensures VoteStep(t, sampleRate, c).0.buffer == t.buffer
  {
    assert t.buffer[t.cursor := c] == t.buffer;
    assert sampleRate as real / sampleRate as real == 1.0;
  }

  /** The votes count the last `sampleRate` labels: from ANY consistent state,
      `sampleRate` samples of one label fill the whole buffer with it and give it every
      vote, and the next sample of that label reports it with distance 1 and leaves
      the buffer as it is. */
  lemma ConstantLabelTakesOver(s: VoteState, sampleRate: nat, c: int)
    requires Inv(s, sampleRate) && sampleRate > 0
    requires c == 1 || c == 2
    ensures var t := Run(s, sampleRate, Constant(c, sampleRate)).0;
      && t.buffer == Constant(c, sampleRate)
      && t.votes[c - 1] == sampleRate && t.votes[2 - c] == 0
      && VoteStep(t, sampleRate, c).1 == Vote(c, 1.0)
      && VoteStep(t, sampleRate, c).0.buffer == t.buffer
  {
    var t := Run(s, sampleRate, Constant(c, sampleRate)).0;
    RunConstantWrites(s, sampleRate, c, sampleRate);
    assert forall i :: 0 <= i < sampleRate ==> t.buffer[i] == c;
    assert t.buffer == Constant(c, sampleRate);
    SaturatedVotes(t, sampleRate, c);
    SaturatedAnyStep(t, sampleRate, c);
  }

  /** `BCICore`'s voting state: a fixed-size label buffer updated in place. */
  class VotingBuffer {
    const sampleRate: nat
    var labelBuffer: array<int>
    var isClassBuffer: seq<int>
    var cntSample: nat

    ghost function State(): VoteState
      reads this, labelBuffer
    {
      VoteState(labelBuffer[..], isClassBuffer, cntSample)
    }

    ghost predicate Valid()
      reads this, labelBuffer
    {
      Inv(State(), sampleRate)
    }

    constructor (sampleRate: nat)
      ensures Valid() && fresh(labelBuffer)
      ensures this.sampleRate == sampleRate && State() == Initial(sampleRate)
    {
      this.sampleRate := sampleRate;
      labelBuffer := new int[sampleRate](_ => 0);
      isClassBuffer := [0, 0];
      cntSample := 0;
      new;
      assert labelBuffer[..] == seq(sampleRate, _ => 0);
      assert State() == Initial(sampleRate);
    }

    /** `set_lda_distance_parameters`: a fresh zero buffer, both counts 0, cursor 0. */
    method SetLdaDistanceParameters()
      modifies this
      ensures Valid() && fresh(labelBuffer)
      ensures State() == Initial(sampleRate)
    {
      labelBuffer := new int[sampleRate](_ => 0);
      isClassBuffer := [0, 0];
      cntSample := 0;
      assert labelBuffer[..] == seq(sampleRate, _ => 0);
      assert State() == Initial(sampleRate);
    }

    /** `lda_disctance_calculation` for the per-sample label `sampleLabel`. */
    method LdaDistanceCalculation(sampleLabel: int) returns (classLabel: int, distance: real)
      requires Valid() && sampleRate > 0
      modifies this, labelBuffer
      ensures Valid() && labelBuffer == old(labelBuffer)
      ensures (State(), Vote(classLabel, distance)) == VoteStep(old(State()), sampleRate, sampleLabel)
    {
      ghost var before := State();
      var slot := labelBuffer[cntSample];
      var isClass1 := (if sampleLabel == 1 then 1 else 0) - (if slot == 1 then 1 else 0) + isClassBuffer[0];
      var isClass2 := (if sampleLabel == 2 then 1 else 0) - (if slot == 2 then 1 else 0) + isClassBuffer[1];
      classLabel := if isClass2 > isClass1 then 2 else 1;
      distance := isClassBuffer[classLabel - 1] as real / sampleRate as real;
      labelBuffer[cntSample] := sampleLabel;
      isClassBuffer := [isClass1, isClass2];
      if cntSample < sampleRate - 1 {
        cntSample := cntSample + 1;
      } else {
        cntSample := 0;
      }
      StepKeepsInv(before, sampleRate, sampleLabel);
    }
  }

  /** Number of positions below `n` where the two sequences agree. */
  function Matches(values: seq<int>, valuesRef: seq<int>, n: nat): (m: nat)
    requires n <= |values| && n <= |valuesRef|
    ensures m <= n
  {
    if n == 0 then 0
    else Matches(values, valuesRef, n - 1) + (if values[n - 1] == valuesRef[n - 1] then 1 else 0)
  }

  /** Full agreement is exactly an accuracy of one. */
  lemma {:induction false} MatchesAll(values: seq<int>, valuesRef: seq<int>, n: nat)
    requires n <= |values| && n <= |valuesRef|
    ensures Matches(values, valuesRef, n) == n <==> forall v :: 0 <= v < n ==> values[v] == valuesRef[v]
  {
    if n > 0 {
      MatchesAll(values, valuesRef, n - 1);
    }
  }

  datatype AccuracyError = ZeroDivision | IndexOutOfRange

  /** `calculate_accuracy`: the share of reference positions whose value is matched.
      An empty reference divides by zero; a `values` shorter than the reference
      fails on its first missing index. */
  method CalculateAccuracy(values: seq<int>, valuesRef: seq<int>) returns (r: Result<real, AccuracyError>)
    ensures |valuesRef| == 0 ==> r == Failure(ZeroDivision)
    ensures 0 < |valuesRef| && |values| < |valuesRef| ==> r == Failure(IndexOutOfRange)
    ensures 0 < |valuesRef| <= |values| ==>
      r == Success(Matches(values, valuesRef, |valuesRef|) as real / |valuesRef| as real)
    ensures r.Success? ==> 0.0 <= r.value <= 1.0
  {
    var cnt := 0;
    var n := |valuesRef|;
    var v := 0;
    while v < n
      invariant 0 <= v <= n
      invariant v <= |values|
      invariant cnt == Matches(values, valuesRef, v)
    {
      if v >= |values| {
        return Failure(IndexOutOfRange);
      }
      if values[v] == valuesRef[v] {
        cnt := cnt + 1;
      }
      v := v + 1;
    }
    if n == 0 {
      return Failure(ZeroDivision);
    }
    r := Success(cnt as real / n as real);
  }
}
