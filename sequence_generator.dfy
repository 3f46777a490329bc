/** `create_sequence` of the sequence generator: every task repeated once per trial,
    then shuffled. The random generator is a parameter: `draws` supplies the raw
    numbers the shuffle turns into swap positions. */
module SequenceGenerator {

  /** `tasks` concatenated `trials` times; empty when `trials` is not positive. */
  function Repeat<T>(tasks: seq<T>, trials: int): seq<T>
    decreases if trials < 0 then 0 else trials
  {
    if trials <= 0 then [] else Repeat(tasks, trials - 1) + tasks
  }

  lemma {:induction false} RepeatLength<T>(tasks: seq<T>, trials: nat)
    ensures |Repeat(tasks, trials)| == trials * |tasks|
  {
    if trials > 0 {
      RepeatLength(tasks, trials - 1);
    }
  }

  /** Every task occurs `trials` times as often as it occurs in `tasks`. */
  lemma {:induction false} RepeatCounts<T>(tasks: seq<T>, trials: nat, x: T)
    ensures multiset(Repeat(tasks, trials))[x] == trials * multiset(tasks)[x]
  {
    if trials > 0 {
      RepeatCounts(tasks, trials - 1, x);
      var m := multiset(tasks)[x];
      assert multiset(Repeat(tasks, trials)) == multiset(Repeat(tasks, trials - 1)) + multiset(tasks);
      assert (trials - 1) * m + m == trials * m;
    }
  }

  /** No trials or no tasks give an empty sequence, and only these. */
  lemma RepeatEmpty<T>(tasks: seq<T>, trials: int)
    ensures Repeat(tasks, trials) == [] <==> trials <= 0 || tasks == []
  {
    if trials > 0 {
      RepeatLength(tasks, trials);
      assert trials * |tasks| == 0 <==> |tasks| == 0;
    }
  }

  /** The two nested `append` loops. */
  method Build<T>(trials: int, tasks: seq<T>) returns (sequence: seq<T>)
    ensures sequence == Repeat(tasks, trials)
  {
    sequence := [];
    var t := 0;
    while t < trials
      invariant 0 <= t <= (if trials > 0 then trials else 0)
      invariant sequence == Repeat(tasks, t)
    {
      var i := 0;
      while i < |tasks|
        invariant 0 <= i <= |tasks|
        invariant sequence == Repeat(tasks, t) + tasks[..i]
      {
        sequence := sequence + [tasks[i]];
        i := i + 1;
      }
      assert tasks[..|tasks|] == tasks;
      t := t + 1;
    }
  }

  /** `random.shuffle`: for i from the last index down to 1, swap position i with a
      position j in [0, i], the k-th draw reduced into that range. */
  method Shuffle<T>(a: array<T>, draws: seq<nat>)
    requires a.Length <= |draws|
    modifies a
    ensures multiset(a[..]) == multiset(old(a[..]))
  {
    var i := a.Length - 1;
    while i > 0
      invariant -1 <= i < a.Length
      invariant multiset(a[..]) == multiset(old(a[..]))
    {
      var j := draws[a.Length - 1 - i] % (i + 1);
      a[i], a[j] := a[j], a[i];
      i := i - 1;
    }
  }

  /** `create_sequence`: a permutation of the tasks repeated `trials` times. */
  method CreateSequence<T>(trials: int, tasks: seq<T>, draws: seq<nat>) returns (sequence: seq<T>)
    requires |Repeat(tasks, trials)| <= |draws|
    ensures multiset(sequence) == multiset(Repeat(tasks, trials))
  {
    var ordered := Build(trials, tasks);
    var a := new T[|ordered|](k requires 0 <= k < |ordered| => ordered[k]);
    assert a[..] == ordered;
    Shuffle(a, draws);
    sequence := a[..];
  }

  /** The generated sequence has `trials * |tasks|` entries, each task `trials` times
      per occurrence in `tasks`, and it is empty exactly when there are no trials or no tasks. */
  lemma SequenceProperties<T>(sequence: seq<T>, tasks: seq<T>, trials: int)
    requires multiset(sequence) == multiset(Repeat(tasks, trials))
    ensures trials >= 0 ==> |sequence| == trials * |tasks|
    ensures trials >= 0 ==> forall x :: multiset(sequence)[x] == trials * multiset(tasks)[x]
    ensures sequence == [] <==> trials <= 0 || tasks == []
  {
    assert |sequence| == |multiset(sequence)| == |Repeat(tasks, trials)|;
    RepeatEmpty(tasks, trials);
    if trials >= 0 {
      RepeatLength(tasks, trials);
      forall x ensures multiset(sequence)[x] == trials * multiset(tasks)[x] {
        RepeatCounts(tasks, trials, x);
      }
    }
  }
}
