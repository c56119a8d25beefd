/** Properties of one sample frame of the Clamp module, and of sequences of
    frames, stated over `ClampModule.Step`. */
module ClampProperties {
  import opened RackMath
  import opened ClampModule

  /** The bounds in the bank, MAX first. */
  function Bounds(s: Snapshot): (real, real)
    requires WellFormed(s)
  {
    (s.params[MaxParam], s.params[MinParam])
  }

  /** The knob memory, MAX first. */
  function Memory(s: Snapshot): (real, real)
  {
    (s.prevMax, s.prevMin)
  }

  /** The frame's state with the user having turned the MAX knob to `v`. */
  function TurnMax(s: Snapshot, v: real): (t: Snapshot)
    requires WellFormed(s)
    ensures WellFormed(t)
  {
    s.(params := s.params[MaxParam := v])
  }

  /** The frame's state with the user having turned the MIN knob to `v`. */
  function TurnMin(s: Snapshot, v: real): (t: Snapshot)
    requires WellFormed(s)
    ensures WellFormed(t)
  {
    s.(params := s.params[MinParam := v])
  }

  // ---------------------------------------------------------------------
  // Link resolution, knob memory and the ceiling

  /** With the ceiling off, the bounds a frame leaves behind: a moved MAX
      knob (link engaged) sets MIN to its negation, a moved MIN knob sets MAX
      to its negation, both apply together, and an unmoved knob or a
      released link leaves a bound as it was. */
  lemma LinkMirrorsMovedKnobs(s: Snapshot, inL: Input, inR: Input)
    requires WellFormed(s) && !CeilingOn(s.params)
    ensures var t := Step(s, inL, inR);
      var max0, min0 := s.params[MaxParam], s.params[MinParam];
      (LinkEngaged(s.params) && max0 != s.prevMax ==> t.params[MinParam] == -max0) &&
      (LinkEngaged(s.params) && min0 != s.prevMin ==> t.params[MaxParam] == -min0) &&
      (!(LinkEngaged(s.params) && max0 != s.prevMax) ==> t.params[MinParam] == min0) &&
      (!(LinkEngaged(s.params) && min0 != s.prevMin) ==> t.params[MaxParam] == max0)
  {
  }

  /** When both knobs moved under an engaged link, each takes the other's
      negated start-of-frame value: the bounds are swapped and negated. */
  lemma BothMovedSwapsNegated(s: Snapshot, inL: Input, inR: Input)
    requires WellFormed(s) && !CeilingOn(s.params) && LinkEngaged(s.params)
    requires s.params[MaxParam] != s.prevMax && s.params[MinParam] != s.prevMin
    ensures Bounds(Step(s, inL, inR)) == (-s.params[MinParam], -s.params[MaxParam])
  {
  }

  /** The knob memory is refreshed with the start-of-frame knobs exactly when
      the link is engaged and MIN moved; in every other case it is kept,
      whatever the ceiling. */
  lemma KnobMemoryRefresh(s: Snapshot, inL: Input, inR: Input)
    requires WellFormed(s)
    ensures var t := Step(s, inL, inR);
      (LinkEngaged(s.params) && s.params[MinParam] != s.prevMin ==> Memory(t) == Bounds(s)) &&
      (!(LinkEngaged(s.params) && s.params[MinParam] != s.prevMin) ==> Memory(t) == Memory(s))
  {
  }

  /** With the ceiling on, the frame ends with bounds and display at
      +/-9.94 whatever the knobs and the link did. */
  lemma CeilingForcesBounds(s: Snapshot, inL: Input, inR: Input)
    requires WellFormed(s) && CeilingOn(s.params)
    ensures var t := Step(s, inL, inR);
      t.params[MaxParam] == 9.94 && t.params[MinParam] == -9.94 &&
      t.volt1 == 9.94 && t.volt2 == -9.94
  {
  }

  /** With the ceiling off, the display shows the bounds link resolution
      left, and the bank keeps them. */
  lemma CeilingOffShowsLinkedBounds(s: Snapshot, inL: Input, inR: Input)
    requires WellFormed(s) && !CeilingOn(s.params)
    ensures var t := Step(s, inL, inR);
      Bounds(t) == Bounds(LinkStage(s)) && (t.volt1, t.volt2) == Bounds(LinkStage(s))
  {
  }

  // ---------------------------------------------------------------------
  // Snap buttons and the multiplier

  /** After a frame the multiplier is the target of the last button reading
      exactly 1, or unchanged when none does. */
  lemma SnapSelectsLastPressed(s: Snapshot, inL: Input, inR: Input)
    requires WellFormed(s)
    ensures var t := Step(s, inL, inR);
      (forall i :: LastPressed(Buttons(s.params), i) ==> t.params[MultiplierParam] == SnapTargets[i]) &&
      ((forall i :: SnapButtons <= i < NumParams ==> s.params[i] != 1.0) ==>
        t.params[MultiplierParam] == s.params[MultiplierParam])
  {
    var b := Buttons(s.params);
    if forall i :: SnapButtons <= i < NumParams ==> s.params[i] != 1.0 {
      assert forall i :: 0 <= i < |b| ==> b[i] == s.params[SnapButtons + i];
    }
  }

  /** The buttons do not touch the frame they are read in: two states that
      differ only in their buttons give the same outputs, bounds, display
      and knob memory. */
  lemma ButtonsDoNotAffectCurrentFrame(s: Snapshot, s': Snapshot, inL: Input, inR: Input)
    requires WellFormed(s) && WellFormed(s')
    requires Memory(s') == Memory(s)
    requires forall i :: 0 <= i < SnapButtons ==> s'.params[i] == s.params[i]
    ensures var t, t' := Step(s, inL, inR), Step(s', inL, inR);
      t'.outL == t.outL && t'.outR == t.outR && Bounds(t') == Bounds(t) &&
      t'.volt1 == t.volt1 && t'.volt2 == t.volt2 && Memory(t') == Memory(t)
  {
  }

  /** A button pressed in one frame scales the inputs of the next frame by
      its target. */
  lemma SnapTakesEffectNextFrame(s: Snapshot, k: int, inL: Input, inR: Input, inL2: Input, inR2: Input)
    requires WellFormed(s) && LastPressed(Buttons(s.params), k) && inL2.connected
    ensures var t2 := Step(Step(s, inL, inR), inL2, inR2);
      var lo, hi := FMin(t2.params[MinParam], t2.params[MaxParam]), FMax(t2.params[MaxParam], t2.params[MinParam]);
      t2.outL == RackMath.Clamp(Scale(inL2.voltage, s.params[GainParam], SnapTargets[k]), lo, hi) &&
      t2.outR == RackMath.Clamp(Scale(inR2.voltage, s.params[GainParam], SnapTargets[k]), lo, hi)
  {
    SnapSelectsLastPressed(s, inL, inR);
  }

  // ---------------------------------------------------------------------
  // Output routing

  /** With the left jack connected, each output is its input scaled by the
      gain and the pre-snap multiplier and clamped into the final bounds;
      with it unplugged, the left output is MAX and the right output MIN. */
  lemma OutputRouting(s: Snapshot, inL: Input, inR: Input)
    requires WellFormed(s)
    ensures var t := Step(s, inL, inR);
      var lo, hi := FMin(t.params[MinParam], t.params[MaxParam]), FMax(t.params[MaxParam], t.params[MinParam]);
      var gain, multiplier := s.params[GainParam], s.params[MultiplierParam];
      (inL.connected ==>
        t.outL == RackMath.Clamp(Scale(inL.voltage, gain, multiplier), lo, hi) &&
        t.outR == RackMath.Clamp(Scale(inR.voltage, gain, multiplier), lo, hi)) &&
      (!inL.connected ==> t.outL == t.params[MaxParam] && t.outR == t.params[MinParam])
  {
  }

  /** Whether the right jack is plugged in never matters. */
  lemma RightConnectionIgnored(s: Snapshot, inL: Input, inR: Input, connected: bool)
    requires WellFormed(s)
    ensures Step(s, inL, inR.(connected := connected)) == Step(s, inL, inR)
  {
  }

  /** A connected signal already inside the bounds passes through unchanged
      when gain and multiplier are 1. */
  lemma InRangeSignalPassesThrough(s: Snapshot, inL: Input, inR: Input)
    requires WellFormed(s) && inL.connected
    requires s.params[GainParam] == 1.0 && s.params[MultiplierParam] == 1.0
    ensures var t := Step(s, inL, inR);
      FMin(t.params[MinParam], t.params[MaxParam]) <= inL.voltage <= FMax(t.params[MaxParam], t.params[MinParam]) ==>
        t.outL == inL.voltage
  {
  }

  // ---------------------------------------------------------------------
  // Scenarios

  /** Default bank (bounds +/-10, gain and multiplier 1): 15 V in gives 10 V. */
  lemma ScenarioOverdriveClampsToMax(s: Snapshot, inR: Input)
    requires s.params == DefaultParams
    ensures Step(s, Input(15.0, true), inR).outL == 10.0
  {
  }

  /** Ceiling on: -20 V in gives -9.94 V. */
  lemma ScenarioCeilingClampsNegative(s: Snapshot, inR: Input)
    requires s.params == DefaultParams[CeilingParam := 1.0]
    ensures Step(s, Input(-20.0, true), inR).outL == -9.94
  {
  }

  // ---------------------------------------------------------------------
  // Link dynamics over several frames

  /** Link engaged and ceiling off. */
  predicate Linked(s: Snapshot)
  {
    WellFormed(s) && LinkEngaged(s.params) && !CeilingOn(s.params)
  }

  /** What a frame with the ceiling off does to the knobs and their memory
      is link resolution, and the frame keeps the link and ceiling settings. */
  lemma LinkView(s: Snapshot, inL: Input, inR: Input)
    requires WellFormed(s) && !CeilingOn(s.params)
    ensures var t := Step(s, inL, inR);
      KnobsOf(t) == LinkKnobs(LinkEngaged(s.params), KnobsOf(s)) &&
      t.params[LinkParam] == s.params[LinkParam] && t.params[CeilingParam] == s.params[CeilingParam]
  {
  }

  /** Mirrored bounds that the memory has caught up with. */
  predicate AtRest(k: Knobs)
  {
    k.max == -k.min && k.prevMax == k.max && k.prevMin == k.min
  }

  /** A resting state stays at rest, knobs and memory unchanged. */
  lemma RestIsFixedPoint(s: Snapshot, inL: Input, inR: Input)
    requires Linked(s) && AtRest(KnobsOf(s))
    ensures var t := Step(s, inL, inR); Linked(t) && KnobsOf(t) == KnobsOf(s)
  {
    LinkView(s, inL, inR);
  }

  /** Mirrored bounds whose remembered MIN is out of date come to rest in
      one frame, bounds unchanged. */
  lemma MirroredBoundsSettle(s: Snapshot, inL: Input, inR: Input)
    requires Linked(s) && s.params[MaxParam] == -s.params[MinParam] && s.prevMin != s.params[MinParam]
    ensures var t := Step(s, inL, inR);
      Linked(t) && AtRest(KnobsOf(t)) && Bounds(t) == Bounds(s)
  {
    LinkView(s, inL, inR);
  }

  /** Turning MAX to `v` from rest: the next frame already mirrors it into
      MIN, and the frame after that is at rest at (v, -v). */
  lemma MaxTurnSettles(s: Snapshot, v: real, inL: Input, inR: Input)
    requires Linked(s) && AtRest(KnobsOf(s)) && v != s.params[MaxParam]
    ensures var t1 := Step(TurnMax(s, v), inL, inR);
      var t2 := Step(t1, inL, inR);
      Bounds(t1) == (v, -v) && Linked(t2) && AtRest(KnobsOf(t2)) && Bounds(t2) == (v, -v)
  {
    LinkView(TurnMax(s, v), inL, inR);
    MirroredBoundsSettle(Step(TurnMax(s, v), inL, inR), inL, inR);
  }

  /** Turning MIN to `v` from rest mirrors it into MAX in the next frame and
      the bounds then hold still, but the remembered MAX keeps the old value. */
  lemma MinTurnLeavesStaleMemory(s: Snapshot, v: real, inL: Input, inR: Input)
    requires Linked(s) && AtRest(KnobsOf(s)) && v != s.params[MinParam]
    ensures var t1 := Step(TurnMin(s, v), inL, inR);
      var t2 := Step(t1, inL, inR);
      KnobsOf(t1) == Knobs(-v, v, s.params[MaxParam], v) && Linked(t1) && KnobsOf(t2) == KnobsOf(t1)
  {
    LinkView(TurnMin(s, v), inL, inR);
    LinkView(Step(TurnMin(s, v), inL, inR), inL, inR);
  }

  /** The knobs with bounds and memory exchanged. */
  function Exchanged(k: Knobs): Knobs
  {
    Knobs(k.prevMax, k.prevMin, k.max, k.min)
  }

  /** The state in which the two link branches undo each other: each bound
      is the negation of the other knob's memory, and the bounds are not
      mirrored. */
  predicate Oscillating(k: Knobs)
  {
    k.prevMax == -k.min && k.prevMin == -k.max && k.max != -k.min
  }

  /** One frame of an oscillating state exchanges the bounds with the
      memory, so the bounds change, and the result oscillates again. */
  lemma OscillationStep(s: Snapshot, inL: Input, inR: Input)
    requires Linked(s) && Oscillating(KnobsOf(s))
    ensures var t := Step(s, inL, inR);
      Linked(t) && KnobsOf(t) == Exchanged(KnobsOf(s)) && Oscillating(KnobsOf(t)) && Bounds(t) != Bounds(s)
  {
    LinkView(s, inL, inR);
  }

  /** Turning MIN twice from rest, first to `v` and then to a different `w`,
      reaches an oscillating state. */
  lemma SecondMinTurnOscillates(s: Snapshot, v: real, w: real, inL: Input, inR: Input)
    requires Linked(s) && AtRest(KnobsOf(s)) && v != s.params[MinParam] && w != v
    ensures var t1 := Step(TurnMin(s, v), inL, inR);
      var t2 := Step(TurnMin(t1, w), inL, inR);
      Linked(t2) && Oscillating(KnobsOf(t2))
  {
    MinTurnLeavesStaleMemory(s, v, inL, inR);
    var t1 := Step(TurnMin(s, v), inL, inR);
    LinkView(TurnMin(t1, w), inL, inR);
  }

  /** Turning MAX twice from rest, first to `v` and then on the next frame to
      a `w` that is neither `v` nor the resting MAX, also reaches an
      oscillating state: the MIN branch fires on the stale MIN memory and
      pulls MAX back to `v`. */
  lemma SecondMaxTurnOscillates(s: Snapshot, v: real, w: real, inL: Input, inR: Input)
    requires Linked(s) && AtRest(KnobsOf(s)) && v != s.params[MaxParam]
    requires w != v && w != s.params[MaxParam]
    ensures var t1 := Step(TurnMax(s, v), inL, inR);
      var t2 := Step(TurnMax(t1, w), inL, inR);
      Linked(t2) && Oscillating(KnobsOf(t2)) && Bounds(t2) == (v, -w)
  {
    LinkView(TurnMax(s, v), inL, inR);
    var t1 := Step(TurnMax(s, v), inL, inR);
    LinkView(TurnMax(t1, w), inL, inR);
  }

  /** The knobs after `n` frames with the link engaged, the ceiling off and
      no hand on the knobs: link resolution applied `n` times. */
  function LinkRun(k: Knobs, n: nat): Knobs
    decreases n
  {
    if n == 0 then k else LinkKnobs(true, LinkRun(k, n - 1))
  }

  /** Once oscillating, with no further knob movement every frame exchanges
      the bounds with the memory, forever: after `n` frames the knobs are the
      starting ones when `n` is even and the exchanged ones when it is odd,
      so the bounds never settle. */
  lemma {:induction false} OscillatesForever(k: Knobs, n: nat)
    requires Oscillating(k)
    ensures Oscillating(LinkRun(k, n))
    ensures LinkRun(k, n) == if n % 2 == 0 then k else Exchanged(k)
    ensures LinkRun(k, n + 1).max != LinkRun(k, n).max
    decreases n
  {
    if n > 0 {
      OscillatesForever(k, n - 1);
    }
  }
}
