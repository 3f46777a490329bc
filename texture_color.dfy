/** The brain texture of the VR front end (`TextureColorController`): the six ROI
    shader values are redrawn only on every 150th ERDS sample, and then only for the
    ROIs whose value moved by more than 0.05 since it was last drawn; the glow of both
    hemispheres shows whether the last classification was correct.

    Unity materials are arrays here: `materialLeft` holds the left hemisphere's
    `_colorValueRoi1`, `_colorValueRoi3` and `_colorValueRoi5`, `materialRight` the right
    hemisphere's `_colorValueRoi2`, `_colorValueRoi4` and `_colorValueRoi6`, and
    `materialsGlow` the two `_colorGlow` values as a colour name and the intensity it is
    multiplied by. Floats are reals. */
module TextureColor {

  const Slots: nat := 6
  const Period: int := 150
  const Threshold: real := 0.05
  const IntMin: int := -0x8000_0000
  const IntMax: int := 0x7fff_ffff

  /** `updatedSamples += 1` on a C# `int`, which wraps around. */
  function Inc32(x: int): (r: int)
    requires IntMin <= x <= IntMax
    ensures IntMin <= r <= IntMax
    ensures x < IntMax ==> r == x + 1
  {
    if x == IntMax then IntMin else x + 1
  }

  /** The C# `%` on `int`, which truncates: the remainder takes the sign of `a`. */
  function CsRemainder(a: int, b: int): (r: int)
    requires b > 0
    ensures -b < r < b
  {
    if a >= 0 then a % b else -((-a) % b)
  }

  /** A call goes past the decimation check when C#'s remainder of the new counter by
      150 is zero. */
  predicate Acts(counter: int)
  {
    CsRemainder(counter, Period) == 0
  }

  /** A call acts exactly when its counter is a multiple of 150, negative counters
      included: the truncating and the Euclidean remainder are zero together. */
  lemma ActsOnMultiples(counter: int)
    ensures Acts(counter) <==> counter % Period == 0
  {
    if counter < 0 {
      var q, r := (-counter) / Period, (-counter) % Period;
      assert -counter == q * Period + r;
      if r == 0 {
        assert counter == (-q) * Period;
      } else {
        assert counter == (-q - 1) * Period + (Period - r);
      }
    }
  }

  function Abs(x: real): real
  {
    if x < 0.0 then -x else x
  }

  /** The hysteresis test of one slot. */
  predicate Moves(last: real, v: real)
  {
    Abs(last - v) > Threshold
  }

  /** `lastERDSValues` after an acting call: slot `i` takes `values[i]` when that moved
      away from it; slots from `|values|` on are not reached (the array access throws). */
  function NewSlots(last: seq<real>, values: seq<real>): (r: seq<real>)
    requires |last| == Slots
    ensures |r| == Slots
    ensures forall i :: 0 <= i < Slots ==> r[i] == last[i] || (i < |values| && r[i] == values[i])
    ensures forall i :: 0 <= i < Slots && r[i] != last[i] ==> i < |values| && Moves(last[i], values[i])
  {
    seq(Slots, i requires 0 <= i < Slots =>
      if i < |values| && Moves(last[i], values[i]) then values[i] else last[i])
  }

  /** The six ROI shader values after an acting call: written exactly where the slot is. */
  function NewShader(shader: seq<real>, last: seq<real>, values: seq<real>): (r: seq<real>)
    requires |shader| == Slots && |last| == Slots
    ensures |r| == Slots
    ensures forall i :: 0 <= i < Slots ==> r[i] == shader[i] || (i < |values| && r[i] == values[i])
  {
    seq(Slots, i requires 0 <= i < Slots =>
      if i < |values| && Moves(last[i], values[i]) then values[i] else shader[i])
  }

  datatype EmissiveColor = ColorTrue | ColorFalse | ColorNeutral

  /** A glow material's `_colorGlow`: a colour times an intensity. */
  datatype Glow = Glow(color: EmissiveColor, intensity: real)

  /** The glow `GlowIntensity` sets on both materials: the "true" colour exactly for
      correct feedback, never the neutral one, and for a non-negative intensity never
      dimmer than the intensity given, and brighter for correct feedback when positive. */
  function GlowFor(intensity: real, isCorrect: bool): (g: Glow)
    ensures (g.color == ColorTrue) == isCorrect && g.color != ColorNeutral
    ensures intensity >= 0.0 ==> g.intensity >= intensity
    ensures intensity > 0.0 ==> (g.intensity > intensity <==> isCorrect)
  {
    if isCorrect then Glow(ColorTrue, intensity * 1.5) else Glow(ColorFalse, intensity)
  }

  /** Where ROI `i`'s value is drawn: hemisphere material (left for even `i`) and slot. */
  function ShaderSlot(i: nat): (r: (bool, nat))
    requires i < Slots
    ensures r.1 < Slots / 2 && 2 * r.1 + (if r.0 then 0 else 1) == i
  {
    (i % 2 == 0, i / 2)
  }

  class TextureColorController {
    const lastErdsValues: array<real>
    var updatedSamples: int
    const materialLeft: array<real>
    const materialRight: array<real>
    const materialsGlow: array<Glow>

    ghost predicate Valid()
      reads this
    {
      && lastErdsValues.Length == Slots
      && materialLeft.Length == Slots / 2 && materialRight.Length == Slots / 2
      && materialsGlow.Length == 2
      && materialLeft != materialRight
      && lastErdsValues != materialLeft && lastErdsValues != materialRight
      && IntMin <= updatedSamples <= IntMax
    }

    /** The six ROI values as the two hemisphere materials show them. */
    ghost function Displayed(): (d: seq<real>)
      requires Valid()
      reads this, materialLeft, materialRight
      ensures |d| == Slots
    {
      seq(Slots, i requires 0 <= i < Slots reads materialLeft, materialRight =>
        if ShaderSlot(i).0 then materialLeft[ShaderSlot(i).1] else materialRight[ShaderSlot(i).1])
    }

    /** `lastERDSValues` zero and the counter at 0, as declared; the materials are
        whatever the scene assigns (`shader`, `glow`). */
    constructor (shader: seq<real>, glow: Glow)
      requires |shader| == Slots
      ensures Valid() && fresh(lastErdsValues) && fresh(materialLeft) && fresh(materialRight) && fresh(materialsGlow)
      ensures lastErdsValues[..] == [0.0, 0.0, 0.0, 0.0, 0.0, 0.0] && updatedSamples == 0
      ensures Displayed() == shader && materialsGlow[..] == [glow, glow]
    {
      lastErdsValues := new real[Slots](_ => 0.0);
      updatedSamples := 0;
      materialLeft := new real[Slots / 2](k requires 0 <= k < Slots / 2 => shader[2 * k]);
      materialRight := new real[Slots / 2](k requires 0 <= k < Slots / 2 => shader[2 * k + 1]);
      materialsGlow := new Glow[2](_ => glow);
      new;
      forall i | 0 <= i < Slots
        ensures Displayed()[i] == shader[i]
      {
        if i % 2 == 0 {
          assert materialLeft[i / 2] == shader[2 * (i / 2)];
        } else {
          assert materialRight[i / 2] == shader[2 * (i / 2) + 1];
        }
      }
    }

    /** `GlowIntensity`: both glow materials get the same colour and intensity. */
    method GlowIntensity(intensity: real, isCorrect: bool)
      requires Valid()
      modifies materialsGlow
      ensures Valid()
      ensures materialsGlow[..] == [GlowFor(intensity, isCorrect), GlowFor(intensity, isCorrect)]
    {
      var g := GlowFor(intensity, isCorrect);
      materialsGlow[0] := g;
      materialsGlow[1] := g;
    }

    /** `ResetTexture`: neutral glow, zero last values, counter back to 0. The ROI
        shader values are not touched. */
    method ResetTexture()
      requires Valid()
      modifies this, lastErdsValues, materialsGlow
      ensures Valid()
      ensures lastErdsValues[..] == [0.0, 0.0, 0.0, 0.0, 0.0, 0.0] && updatedSamples == 0
      ensures materialsGlow[..] == [Glow(ColorNeutral, 1.0), Glow(ColorNeutral, 1.0)]
      ensures Displayed() == old(Displayed())
    {
      materialsGlow[0] := Glow(ColorNeutral, 1.0);
      materialsGlow[1] := Glow(ColorNeutral, 1.0);
      var i := 0;
      while i < Slots
        invariant 0 <= i <= Slots
        invariant forall j :: 0 <= j < i ==> lastErdsValues[j] == 0.0
        invariant materialsGlow[..] == [Glow(ColorNeutral, 1.0), Glow(ColorNeutral, 1.0)]
      {
        lastErdsValues[i] := 0.0;
        i := i + 1;
      }
      updatedSamples := 0;
    }

    /** `UpdateERDSValues`; the six unrolled tests are one loop over the slots. `ok` is
        false when `values` has fewer than six entries and the call got past the
        decimation check: the slots before the missing entry are updated, then the
        array access throws. */
    method UpdateErdsValues(values: seq<real>) returns (ok: bool)
      requires Valid()
      modifies this, lastErdsValues, materialLeft, materialRight
      ensures Valid()
      ensures updatedSamples == Inc32(old(updatedSamples))
      ensures !Acts(updatedSamples) ==>
        ok && lastErdsValues[..] == old(lastErdsValues[..]) && Displayed() == old(Displayed())
      ensures Acts(updatedSamples) ==>
        && ok == (|values| >= Slots)
        && lastErdsValues[..] == NewSlots(old(lastErdsValues[..]), values)
        && Displayed() == NewShader(old(Displayed()), old(lastErdsValues[..]), values)
    {
      updatedSamples := Inc32(updatedSamples);
      if CsRemainder(updatedSamples, Period) != 0 {
        return true;
      }
      ghost var last0 := lastErdsValues[..];
      ghost var shader0 := Displayed();
      var i := 0;
      while i < Slots && i < |values|
        invariant Valid() && updatedSamples == Inc32(old(updatedSamples))
        invariant 0 <= i <= Slots && i <= |values|
        invariant forall j :: 0 <= j < Slots ==>
          lastErdsValues[j] == (if j < i && Moves(last0[j], values[j]) then values[j] else last0[j])
        invariant forall j :: 0 <= j < Slots ==>
          Displayed()[j] == (if j < i && Moves(last0[j], values[j]) then values[j] else shader0[j])
      {
        if Abs(lastErdsValues[i] - values[i]) > Threshold {
          var (left, slot) := ShaderSlot(i);
          if left {
            materialLeft[slot] := values[i];
          } else {
            materialRight[slot] := values[i];
          }
          lastErdsValues[i] := values[i];
        }
        i := i + 1;
      }
      assert lastErdsValues[..] == NewSlots(last0, values);
      assert Displayed() == NewShader(shader0, last0, values);
      ok := i == Slots;
    }
  }

  /** After an acting call with all six values, every slot is within the threshold of
      the value just received: either it moved and was set to it, or it was already close. */
  lemma SlotsTrackValues(last: seq<real>, values: seq<real>)
    requires |last| == Slots && |values| >= Slots
    ensures forall i :: 0 <= i < Slots ==> Abs(NewSlots(last, values)[i] - values[i]) <= Threshold
  {
  }

  /** A slot changes only when the value moved past the threshold, and then to that value. */
  lemma SlotChangesOnlyPastThreshold(last: seq<real>, values: seq<real>, i: nat)
    requires |last| == Slots && i < Slots
    ensures NewSlots(last, values)[i] != last[i] ==> i < |values| && Moves(last[i], values[i])
    ensures NewSlots(last, values)[i] != last[i] ==> NewSlots(last, values)[i] == values[i]
  {
  }

  /** Receiving the same values again changes nothing. */
  lemma HysteresisIdempotent(last: seq<real>, values: seq<real>)
    requires |last| == Slots
    ensures NewSlots(NewSlots(last, values), values) == NewSlots(last, values)
  {
    var once := NewSlots(last, values);
    forall i | 0 <= i < Slots
      ensures NewSlots(once, values)[i] == once[i]
    {
      if i < |values| && Moves(last[i], values[i]) {
        assert once[i] - values[i] == 0.0;
      }
    }
  }

  /** The shader value of a ROI is rewritten exactly when its slot is, with the same
      value; so when the shader showed the last values, it still shows them. */
  lemma ShaderFollowsSlots(shader: seq<real>, last: seq<real>, values: seq<real>)
    requires |shader| == Slots && |last| == Slots
    ensures forall i :: 0 <= i < Slots && i < |values| && Moves(last[i], values[i]) ==>
      NewShader(shader, last, values)[i] == NewSlots(last, values)[i] == values[i]
    ensures forall i :: 0 <= i < Slots && !(i < |values| && Moves(last[i], values[i])) ==>
      NewShader(shader, last, values)[i] == shader[i] && NewSlots(last, values)[i] == last[i]
    ensures shader == last ==> NewShader(shader, last, values) == NewSlots(last, values)
  {
  }

  /** Since a reset zeroes the last values without redrawing, a ROI value within the
      threshold of 0 right after a reset is not drawn, and the shader keeps showing the
      previous trial's value (0.8 here). */
  lemma StaleShaderAfterReset()
    ensures var values := [0.02, 0.0, 0.0, 0.0, 0.0, 0.0];
      var last := [0.0, 0.0, 0.0, 0.0, 0.0, 0.0];
      NewShader([0.8, 0.0, 0.0, 0.0, 0.0, 0.0], last, values)[0] == 0.8
  {
  }

  /** The number of acting calls among calls 1 .. n. */
  function ActingCalls(n: nat): nat
  {
    if n == 0 then 0 else ActingCalls(n - 1) + (if n % Period == 0 then 1 else 0)
  }

  /** Counting from a reset, and before the counter wraps, exactly one call in 150 acts:
      the n-th call's counter is n, and n / 150 of the first n calls act. */
  lemma {:induction false} OneCallIn150(n: nat)
    requires n <= IntMax
    ensures ActingCalls(n) == n / Period
    ensures forall k :: 1 <= k <= n ==> (Acts(k) <==> k % Period == 0)
  {
    if n > 0 {
      OneCallIn150(n - 1);
      var q, r := (n - 1) / Period, (n - 1) % Period;
      assert n - 1 == q * Period + r;
      if r == Period - 1 {
        assert n == (q + 1) * Period;
      } else {
        assert n == q * Period + (r + 1);
      }
    }
  }

  /** Calls `Inc32` `n` times from `c`. */
  function CounterAfter(c: int, n: nat): (r: int)
    requires IntMin <= c <= IntMax
    ensures IntMin <= r <= IntMax
  {
    if n == 0 then c else Inc32(CounterAfter(c, n - 1))
  }

  /** After a reset the counter is the number of calls, until it wraps around: call
      2^31 makes it negative, and C#'s remainder keeps it from acting then. */
  lemma {:induction false} CounterCountsCalls(n: nat)
    requires n <= IntMax
    ensures CounterAfter(0, n) == n
  {
    if n > 0 {
      CounterCountsCalls(n - 1);
    }
  }

  lemma CounterWraps()
    ensures CounterAfter(0, IntMax + 1) == IntMin && !Acts(IntMin)
  {
    CounterCountsCalls(IntMax);
    ActsOnMultiples(IntMin);
  }
}
