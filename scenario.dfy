/** The trial scheduler of the VR front end (`ScenarioController`): a block is a list
    of lines such as `MI_l`; each line is one trial, whose condition is the text after
    the line's last `_`. A trial raises, in order, trial start, reference, cue, feedback
    and trial end, and the next line is loaded until the block is exhausted.

    The coroutine waits (break, reference, cue and task durations) take no part in
    the order of events and are not modelled; a started `StartTrial` coroutine is the
    flag `trialScheduled`, and running it is one call of `RunTrial`. An exception in
    the C# (a missing dictionary key, a line index out of range) ends the running
    coroutine: here it is an error result, after which no trial is scheduled. */
module Scenario {
  import opened Wrappers

  /** `AllConditions`. */
  const LeftHand: nat := 0
  const RightHand: nat := 1

  /** `ConditionStrToInt`. */
  function ConditionStrToInt(key: string): (c: Option<nat>)
    ensures c.Some? <==> key == "l" || key == "r"
    ensures c.Some? ==> c.value <= RightHand
  {
    if key == "l" then Some(LeftHand)
    else if key == "r" then Some(RightHand)
    else None
  }

  /** `ConditionIntToStr`. */
  function ConditionIntToStr(c: nat): (key: Option<string>)
    ensures key.Some? <==> c <= RightHand
  {
    if c == LeftHand then Some("l")
    else if c == RightHand then Some("r")
    else None
  }

  /** The two dictionaries are inverse to each other, in both directions. */
  lemma ConditionDictionariesInverse(key: string, c: nat)
    ensures ConditionStrToInt(key) == Some(c) <==> ConditionIntToStr(c) == Some(key)
  {
  }

  /** Index of the last `_` of `line`, -1 when there is none. */
  function LastUnderscore(line: string): (i: int)
    ensures -1 <= i < |line|
    ensures i >= 0 ==> line[i] == '_'
    ensures forall j :: i < j < |line| ==> line[j] != '_'
  {
    if line == [] then -1
    else if line[|line| - 1] == '_' then |line| - 1
    else LastUnderscore(line[..|line| - 1])
  }

  /** The last element of `line.Split('_')`: the text after the last `_`, or the
      whole line when it has none. */
  function LastPart(line: string): (part: string)
    ensures |part| <= |line| && part == line[|line| - |part|..]
    ensures '_' !in part
    ensures |part| < |line| ==> line[|line| - |part| - 1] == '_'
  {
    line[LastUnderscore(line) + 1..]
  }

  /** The suffix parsing of a block line: `<anything>_l` is the left hand, `<anything>_r`
      the right hand, e.g. `MI_l` and `ME_r`. */
  lemma LineSuffix(prefix: string)
    ensures ConditionStrToInt(LastPart(prefix + "_l")) == Some(LeftHand)
    ensures ConditionStrToInt(LastPart(prefix + "_r")) == Some(RightHand)
  {
    var left, right := prefix + "_l", prefix + "_r";
    assert left[..|left| - 1] == prefix + "_" && right[..|right| - 1] == prefix + "_";
    assert LastUnderscore(left) == |prefix| == LastUnderscore(right);
    assert LastPart(left) == "l" && LastPart(right) == "r";
  }

  /** The last part of `line` is the single character `c`: the line is `c` or ends in `_c`. */
  predicate EndsInPart(line: string, c: char)
  {
    |line| >= 1 && line[|line| - 1] == c && (|line| == 1 || line[|line| - 2] == '_')
  }

  /** The condition a line names, decided on its last two characters. */
  function SuffixCondition(line: string): Option<nat>
  {
    if EndsInPart(line, 'l') then Some(LeftHand)
    else if EndsInPart(line, 'r') then Some(RightHand)
    else None
  }

  /** Looking at the last two characters agrees with splitting at `_` and looking the
      last part up in `ConditionStrToInt`, for every line. */
  lemma SuffixConditionIsLookup(line: string)
    ensures SuffixCondition(line) == ConditionStrToInt(LastPart(line))
  {
    var u := LastUnderscore(line);
    var part := LastPart(line);
    if |part| == 1 {
      assert part == [line[|line| - 1]];
      assert u == |line| - 2;
    } else if |line| >= 1 && (line[|line| - 1] == 'l' || line[|line| - 1] == 'r') {
      assert |line| > 1 && line[|line| - 2] != '_';
    }
  }

  /** What the scheduler announces through the event manager. */
  datatype Event =
    | SessionStarted
    | TrialStarted(conditionName: string)
    | ReferenceShown
    | CueShown(condition: nat)
    | FeedbackShown(condition: nat)
    | TrialEnded
    | SessionFinished

  /** Why a condition could not be loaded: the round is not a line of the block, or the
      line's last part is not a key of `ConditionStrToInt` (the line is kept). */
  datatype ScheduleError = RoundOutOfRange(round: int) | UnknownCondition(line: string)

  /** The scheduler's fields, as a value. */
  datatype Sched = Sched(
    round: int,
    condition: nat,
    startSession: bool,
    feedbackCondition: nat,
    trialScheduled: bool,
    events: seq<Event>)

  /** The condition of line `round`, or why there is none. */
  function LineCondition(block: seq<string>, round: int): (r: Result<nat, ScheduleError>)
    ensures r.Success? ==> r.value <= RightHand
  {
    if !(0 <= round < |block|) then Failure(RoundOutOfRange(round))
    else match SuffixCondition(block[round])
      case None => Failure(UnknownCondition(block[round]))
      case Some(c) => Success(c)
  }

  /** `UpdateCondition`. */
  function UpdateConditionStep(s: Sched, block: seq<string>, showFeedback: bool): (r: (Sched, Option<ScheduleError>))
    ensures r.0.round == s.round && r.0.events == s.events
    ensures r.0.trialScheduled == s.trialScheduled && r.0.startSession == s.startSession
    ensures r.1.None? <==> LineCondition(block, s.round).Success?
    ensures r.1.Some? ==> r.0 == s && r.1.value == LineCondition(block, s.round).error
    ensures r.1.None? ==>
      && r.0.condition == LineCondition(block, s.round).value
      && r.0.feedbackCondition == (if showFeedback then r.0.condition else s.feedbackCondition)
  {
    match LineCondition(block, s.round)
    case Failure(e) => (s, Some(e))
    case Success(c) =>
      (s.(condition := c, feedbackCondition := if showFeedback then c else s.feedbackCondition), None)
  }

  /** `StartBlock`: round 0 and line 0's condition; only when that loads is the session
      announced and the first trial scheduled. */
  function StartBlockStep(s: Sched, block: seq<string>, showFeedback: bool): (r: (Sched, Option<ScheduleError>))
    ensures r.0.round == 0 && r.0.startSession == s.startSession
    ensures r.1.None? <==> LineCondition(block, 0).Success?
    ensures r.1.Some? ==> r.0 == s.(round := 0) && r.1.value == LineCondition(block, 0).error
    ensures r.1.None? ==>
      && r.0.condition == LineCondition(block, 0).value
      && r.0.trialScheduled && r.0.events == s.events + [SessionStarted]
  {
    var (s1, err) := UpdateConditionStep(s.(round := 0), block, showFeedback);
    if err.Some? then (s1, err)
    else (s1.(events := s1.events + [SessionStarted], trialScheduled := true), None)
  }

  /** `BlockFinished`: the session flag drops, the end is announced, and no other
      field changes. */
  function BlockFinishedStep(s: Sched): (r: Sched)
    ensures !r.startSession && r.events == s.events + [SessionFinished]
    ensures r.(startSession := s.startSession, events := s.events) == s
  {
    s.(startSession := false, events := s.events + [SessionFinished])
  }

  /** `EndTrial`. */
  function EndTrialStep(s: Sched, block: seq<string>, showFeedback: bool): (r: (Sched, Option<ScheduleError>))
    ensures s.condition <= RightHand ==> r.0.condition <= RightHand
  {
    var s1 := s.(round := s.round + 1, trialScheduled := false);
    if s1.round >= |block| then (BlockFinishedStep(s1), None)
    else
      var (s2, err) := UpdateConditionStep(s1, block, showFeedback);
      if err.Some? then (s2, err) else (s2.(trialScheduled := true), None)
  }

  /** The events of one trial of condition `c`. */
  function TrialEvents(c: nat): seq<Event>
    requires c <= RightHand
  {
    [TrialStarted(ConditionIntToStr(c).value), ReferenceShown, CueShown(c), FeedbackShown(c), TrialEnded]
  }

  /** One run of the `StartTrial` coroutine. */
  function TrialStep(s: Sched, block: seq<string>, showFeedback: bool): (r: (Sched, Option<ScheduleError>))
    requires s.condition <= RightHand
    ensures r.0.condition <= RightHand
  {
    EndTrialStep(s.(events := s.events + TrialEvents(s.condition)), block, showFeedback)
  }

  class ScenarioController {
    var round: int
    var condition: nat
    var startSession: bool
    const showFeedback: bool
    /** `feedbackStream.CurrentCondition`. */
    var feedbackCondition: nat
    const blockSequence: seq<string>
    var trialScheduled: bool
    var events: seq<Event>

    ghost function State(): Sched
      reads this
    {
      Sched(round, condition, startSession, feedbackCondition, trialScheduled, events)
    }

    ghost predicate Valid()
      reads this
    {
      condition <= RightHand && feedbackCondition <= RightHand
    }

    /** After `LoadConfiguration`, before the session is started. */
    constructor (blockSequence: seq<string>, showFeedback: bool)
      ensures Valid() && this.blockSequence == blockSequence && this.showFeedback == showFeedback
      ensures State() == Sched(-1, LeftHand, false, LeftHand, false, [])
    {
      round := -1;
      condition := LeftHand;
      startSession := false;
      this.showFeedback := showFeedback;
      feedbackCondition := LeftHand;
      this.blockSequence := blockSequence;
      trialScheduled := false;
      events := [];
    }

    method UpdateCondition() returns (err: Option<ScheduleError>)
      requires Valid()
      modifies this
      ensures Valid()
      ensures (State(), err) == UpdateConditionStep(old(State()), blockSequence, showFeedback)
    {
      if !(0 <= round < |blockSequence|) {
        return Some(RoundOutOfRange(round));
      }
      var key := LastPart(blockSequence[round]);
      var c := ConditionStrToInt(key);
      SuffixConditionIsLookup(blockSequence[round]);
      if c.None? {
        return Some(UnknownCondition(blockSequence[round]));
      }
      condition := c.value;
      if showFeedback {
        feedbackCondition := c.value;
      }
      err := None;
    }

    method StartBlock() returns (err: Option<ScheduleError>)
      requires Valid()
      modifies this
      ensures Valid()
      ensures (State(), err) == StartBlockStep(old(State()), blockSequence, showFeedback)
    {
      round := 0;
      err := UpdateCondition();
      if err.None? {
        events := events + [SessionStarted];
        trialScheduled := true;
      }
    }

    method BlockFinished()
      modifies this
      ensures State() == BlockFinishedStep(old(State()))
    {
      startSession := false;
      events := events + [SessionFinished];
    }

    method EndTrial() returns (err: Option<ScheduleError>)
      requires Valid()
      modifies this
      ensures Valid()
      ensures (State(), err) == EndTrialStep(old(State()), blockSequence, showFeedback)
    {
      round := round + 1;
      trialScheduled := false;
      if round >= |blockSequence| {
        BlockFinished();
        err := None;
      } else {
        err := UpdateCondition();
        if err.None? {
          trialScheduled := true;
        }
      }
    }

    /** `StartTrial`, run to its end. */
    method RunTrial() returns (err: Option<ScheduleError>)
      requires Valid() && trialScheduled
      modifies this
      ensures Valid()
      ensures (State(), err) == TrialStep(old(State()), blockSequence, showFeedback)
    {
      events := events + TrialEvents(condition);
      err := EndTrial();
    }
  }

  /** Every line ends in a known condition. */
  predicate ValidBlock(block: seq<string>)
  {
    forall i :: 0 <= i < |block| ==> LineCondition(block, i).Success?
  }

  /** The scheduler after `k` runs of the trial coroutine (fewer when none is scheduled). */
  function RunTrials(s: Sched, block: seq<string>, showFeedback: bool, k: nat): (t: Sched)
    requires s.condition <= RightHand
    ensures t.condition <= RightHand
  {
    if k == 0 then s
    else
      var p := RunTrials(s, block, showFeedback, k - 1);
      if p.trialScheduled then
        TrialStep(p, block, showFeedback).0
      else p
  }

  /** The events of the first `k` trials of a valid block. */
  function TrialLog(block: seq<string>, k: nat): seq<Event>
    requires ValidBlock(block) && k <= |block|
  {
    if k == 0 then [] else TrialLog(block, k - 1) + TrialEvents(LineCondition(block, k - 1).value)
  }

  /** One trial of a valid block: its five events, then either the next line's
      condition is loaded and a trial scheduled, or the session is finished. */
  lemma TrialAdvances(p: Sched, block: seq<string>, showFeedback: bool)
    requires ValidBlock(block) && p.condition <= RightHand && 0 <= p.round
    ensures var (n, err) := TrialStep(p, block, showFeedback);
      && err.None? && n.round == p.round + 1
      && n.trialScheduled == (p.round + 1 < |block|)
      && n.startSession == (p.round + 1 < |block| && p.startSession)
      && n.events == p.events + TrialEvents(p.condition)
                     + (if p.round + 1 < |block| then [] else [SessionFinished])
      && (p.round + 1 < |block| ==> n.condition == LineCondition(block, p.round + 1).value)
  {
    if p.round + 1 < |block| {
      assert LineCondition(block, p.round + 1).Success?;
    }
  }

  /** Starting a block with at least one valid line loads line 0's condition, announces
      the session and schedules the first trial. */
  lemma BlockStarts(s0: Sched, block: seq<string>, showFeedback: bool)
    requires |block| > 0 && LineCondition(block, 0).Success?
    ensures var (s1, err) := StartBlockStep(s0, block, showFeedback);
      && err.None? && s1.round == 0 && s1.trialScheduled && s1.startSession == s0.startSession
      && s1.condition == LineCondition(block, 0).value
      && s1.events == s0.events + [SessionStarted]
  {
  }

  /** From a scheduled first trial, `k` runs of the trial coroutine (k up to the number
      of lines) leave round at k and either schedule the trial of line k or, after the
      last line, finish the session. */
  lemma {:induction false} TrialsFrom(s1: Sched, block: seq<string>, showFeedback: bool, k: nat)
    requires ValidBlock(block) && |block| > 0 && k <= |block|
    requires s1.round == 0 && s1.trialScheduled && s1.condition == LineCondition(block, 0).value
    ensures var s := RunTrials(s1, block, showFeedback, k);
      && s.round == k
      && s.trialScheduled == (k < |block|)
      && s.startSession == (k < |block| && s1.startSession)
      && (k < |block| ==> s.condition == LineCondition(block, k).value)
  {
    if k > 0 {
      TrialsFrom(s1, block, showFeedback, k - 1);
      var p := RunTrials(s1, block, showFeedback, k - 1);
      TrialAdvances(p, block, showFeedback);
      assert RunTrials(s1, block, showFeedback, k) == TrialStep(p, block, showFeedback).0;
    }
  }

  /** ... and by then the first k lines' trials have been announced in order. */
  lemma {:induction false} TrialsFromEvents(s1: Sched, block: seq<string>, showFeedback: bool, k: nat)
    requires ValidBlock(block) && |block| > 0 && k <= |block|
    requires s1.round == 0 && s1.trialScheduled && s1.condition == LineCondition(block, 0).value
    ensures RunTrials(s1, block, showFeedback, k).events
         == s1.events + TrialLog(block, k) + (if k == |block| then [SessionFinished] else [])
  {
    if k > 0 {
      TrialsFromEvents(s1, block, showFeedback, k - 1);
      TrialsFrom(s1, block, showFeedback, k - 1);
      var p := RunTrials(s1, block, showFeedback, k - 1);
      TrialAdvances(p, block, showFeedback);
      var n := TrialStep(p, block, showFeedback).0;
      assert RunTrials(s1, block, showFeedback, k) == n;
      LogStep(block, k, s1.events, p.events, n.events, p.condition,
              if k == |block| then [SessionFinished] else []);
    }
  }

  /** Appending one trial of line k - 1 to a log of the first k - 1 lines. */
  lemma LogStep(block: seq<string>, k: nat, start: seq<Event>, before: seq<Event>, after: seq<Event>,
                c: nat, tail: seq<Event>)
    requires ValidBlock(block) && 0 < k <= |block| && c <= RightHand
    requires c == LineCondition(block, k - 1).value
    requires before == start + TrialLog(block, k - 1)
    requires after == before + TrialEvents(c) + tail
    ensures after == start + TrialLog(block, k) + tail
  {
    assert TrialLog(block, k) == TrialLog(block, k - 1) + TrialEvents(c);
  }

  /** A valid block, started: after `k` trials (k up to the number of lines) round is k,
      the k lines' trials have been announced in order, and the next trial is scheduled
      with the condition of line k until every line has been run, when the session is
      finished. */
  lemma BlockProgress(s0: Sched, block: seq<string>, showFeedback: bool, k: nat)
    requires ValidBlock(block) && |block| > 0 && s0.condition <= RightHand && k <= |block|
    ensures StartBlockStep(s0, block, showFeedback).1.None?
    ensures var s := RunTrials(StartBlockStep(s0, block, showFeedback).0, block, showFeedback, k);
      && s.round == k
      && s.trialScheduled == (k < |block|)
      && s.startSession == (k < |block| && s0.startSession)
      && (k < |block| ==> s.condition == LineCondition(block, k).value)
      && s.events == s0.events + [SessionStarted] + TrialLog(block, k)
                     + (if k == |block| then [SessionFinished] else [])
  {
    assert LineCondition(block, 0).Success?;
    BlockStarts(s0, block, showFeedback);
    TrialsFrom(StartBlockStep(s0, block, showFeedback).0, block, showFeedback, k);
    TrialsFromEvents(StartBlockStep(s0, block, showFeedback).0, block, showFeedback, k);
  }

  /** A started valid block runs exactly as many trials as it has lines: no trial is
      scheduled once they have all run, and further runs change nothing. */
  lemma {:induction false} BlockRunsEveryLineOnce(s0: Sched, block: seq<string>, showFeedback: bool, k: nat)
    requires ValidBlock(block) && |block| > 0 && s0.condition <= RightHand && k >= |block|
    ensures var s1 := StartBlockStep(s0, block, showFeedback).0;
      RunTrials(s1, block, showFeedback, k) == RunTrials(s1, block, showFeedback, |block|)
  {
    if k > |block| {
      BlockRunsEveryLineOnce(s0, block, showFeedback, k - 1);
      BlockProgress(s0, block, showFeedback, |block|);
    }
  }

  /** An empty block cannot be started: line 0 does not exist. */
  lemma EmptyBlockFails(s0: Sched, showFeedback: bool)
    ensures StartBlockStep(s0, [], showFeedback).1 == Some(RoundOutOfRange(0))
    ensures StartBlockStep(s0, [], showFeedback).0.events == s0.events
  {
  }
}
