/** The Clamp module: a parameter bank of ten values, two knob-memory cells,
    two display cells and two outputs, transformed once per sample frame.
    `Step` is the frame transform as a function on snapshots of that state;
    the class `Clamp` holds the state the way the module does (an indexed
    parameter array and fields) and its `Process` method is proved to
    perform `Step`. */
module ClampModule {
  import opened RackMath

  // Parameter layout of the bank.
  const MaxParam: nat := 0
  const CeilingParam: nat := 1
  const MinParam: nat := 2
  const LinkParam: nat := 3
  const MultiplierParam: nat := 4
  const GainParam: nat := 5
  /** Index of the first of the four snap buttons. */
  const SnapButtons: nat := 6
  const NumSnapButtons: nat := 4
  const NumParams: nat := 10

  /** The bound magnitude forced by the ceiling button. */
  const CeilingLevel: real := 9.94

  /** The multiplier each snap button selects, in button order. */
  const SnapTargets: seq<real> := [-1.0, 1.0, -2.0, 2.0]

  /** Bank contents at instantiation: MAX 10, CEILING off, MIN -10, LINK off
      (1), multiplier 1, gain 1, all snap buttons released. */
  const DefaultParams: seq<real> := [10.0, 0.0, -10.0, 1.0, 1.0, 1.0, 0.0, 0.0, 0.0, 0.0]

  /** One input jack: its voltage this frame and whether a cable is plugged in. */
  datatype Input = Input(voltage: real, connected: bool)

  /** The module's whole state between two frames. */
  datatype Snapshot = Snapshot(
    params: seq<real>,
    prevMax: real,
    prevMin: real,
    volt1: real,
    volt2: real,
    outL: real,
    outR: real)

  predicate WellFormed(s: Snapshot)
  {
    |s.params| == NumParams
  }

  /** The link switch is engaged when its value is below 1. */
  predicate LinkEngaged(params: seq<real>)
    requires |params| == NumParams
  {
    params[LinkParam] < 1.0
  }

  predicate CeilingOn(params: seq<real>)
    requires |params| == NumParams
  {
    params[CeilingParam] > 0.0
  }

  function Buttons(params: seq<real>): seq<real>
    requires |params| == NumParams
  {
    params[SnapButtons..NumParams]
  }

  /** Button `i` reads exactly 1 and no later button does. */
  predicate LastPressed(buttons: seq<real>, i: int)
  {
    0 <= i < |buttons| && buttons[i] == 1.0 &&
    forall j :: i < j < |buttons| ==> buttons[j] != 1.0
  }

  /** The multiplier after the buttons from `k` on have each, in order,
      overwritten it with their target when pressed: the last pressed button
      decides, and with none pressed the multiplier is kept. */
  function ApplySnaps(multiplier: real, buttons: seq<real>, k: nat): (r: real)
    requires |buttons| == NumSnapButtons && k <= NumSnapButtons
    ensures (forall i :: k <= i < |buttons| ==> buttons[i] != 1.0) ==> r == multiplier
    ensures forall i :: k <= i && LastPressed(buttons, i) ==> r == SnapTargets[i]
    decreases NumSnapButtons - k
  {
    if k == NumSnapButtons then multiplier
    else ApplySnaps(if buttons[k] == 1.0 then SnapTargets[k] else multiplier, buttons, k + 1)
  }

  /** The part of the state link resolution works on: the two bound knobs
      and the memory of them. */
  datatype Knobs = Knobs(max: real, min: real, prevMax: real, prevMin: real)

  function KnobsOf(s: Snapshot): Knobs
    requires WellFormed(s)
  {
    Knobs(s.params[MaxParam], s.params[MinParam], s.prevMax, s.prevMin)
  }

  /** Link resolution: with the link engaged, a MAX knob that differs from
      its memory mirrors its negation into MIN, and a MIN knob that differs
      from its memory mirrors its negation into MAX (both may apply, each
      from the knob values at the start of the frame); only the second case
      refreshes the memory, with both start-of-frame knobs. */
  function LinkKnobs(linked: bool, k: Knobs): Knobs
  {
    var maxMoved := linked && k.max != k.prevMax;
    var minMoved := linked && k.min != k.prevMin;
    Knobs(
      if minMoved then -k.min else k.max,
      if maxMoved then -k.max else k.min,
      if minMoved then k.max else k.prevMax,
      if minMoved then k.min else k.prevMin)
  }

  /** Link resolution applied to the bank and the memory cells. */
  function LinkStage(s: Snapshot): (t: Snapshot)
    requires WellFormed(s)
    ensures WellFormed(t)
  {
    var k := LinkKnobs(LinkEngaged(s.params), KnobsOf(s));
    s.(params := s.params[MaxParam := k.max][MinParam := k.min],
       prevMax := k.prevMax, prevMin := k.prevMin)
  }

  /** Ceiling override: the display cells take the forced bounds when the
      ceiling is on and the current bounds otherwise, and are written back. */
  function CeilingStage(s: Snapshot): (t: Snapshot)
    requires WellFormed(s)
    ensures WellFormed(t)
  {
    var max := if CeilingOn(s.params) then CeilingLevel else s.params[MaxParam];
    var min := if CeilingOn(s.params) then -CeilingLevel else s.params[MinParam];
    s.(params := s.params[MaxParam := max][MinParam := min], volt1 := max, volt2 := min)
  }

  /** Snap buttons: the multiplier parameter after the four buttons. */
  function SnapStage(s: Snapshot): (t: Snapshot)
    requires WellFormed(s)
    ensures WellFormed(t)
  {
    s.(params := s.params[MultiplierParam :=
      ApplySnaps(s.params[MultiplierParam], Buttons(s.params), 0)])
  }

  /** An input voltage after the gain and the multiplier. */
  function Scale(voltage: real, gain: real, multiplier: real): real
  {
    voltage * gain * multiplier
  }

  /** Output routing: with the left jack connected, both inputs scaled and
      clamped into the bounds; otherwise the bounds themselves, MAX on the
      left and MIN on the right. Either way both outputs lie in the bounds. */
  function Route(params: seq<real>, gain: real, multiplier: real, inL: Input, inR: Input): (out: (real, real))
    requires |params| == NumParams
    ensures FMin(params[MinParam], params[MaxParam]) <= out.0 <= FMax(params[MaxParam], params[MinParam])
    ensures FMin(params[MinParam], params[MaxParam]) <= out.1 <= FMax(params[MaxParam], params[MinParam])
  {
    var lo, hi := FMin(params[MinParam], params[MaxParam]), FMax(params[MaxParam], params[MinParam]);
    if inL.connected then
      (RackMath.Clamp(Scale(inL.voltage, gain, multiplier), lo, hi),
       RackMath.Clamp(Scale(inR.voltage, gain, multiplier), lo, hi))
    else
      (params[MaxParam], params[MinParam])
  }

  function RouteStage(s: Snapshot, gain: real, multiplier: real, inL: Input, inR: Input): (t: Snapshot)
    requires WellFormed(s)
    ensures WellFormed(t)
  {
    var out := Route(s.params, gain, multiplier, inL, inR);
    s.(outL := out.0, outR := out.1)
  }

  /** One sample frame: link resolution, ceiling override, snap buttons,
      then scale-and-clamp of both inputs with the gain and the multiplier
      as they stood before the snap, routed on the left jack's connection.
      Both outputs lie within the final bounds, and only MAX, MIN and the
      multiplier of the bank can change. */
  function Step(s: Snapshot, inL: Input, inR: Input): (t: Snapshot)
    requires WellFormed(s)
    ensures WellFormed(t)
    ensures FMin(t.params[MinParam], t.params[MaxParam]) <= t.outL <= FMax(t.params[MaxParam], t.params[MinParam])
    ensures FMin(t.params[MinParam], t.params[MaxParam]) <= t.outR <= FMax(t.params[MaxParam], t.params[MinParam])
    ensures forall i :: 0 <= i < NumParams && i != MaxParam && i != MinParam && i != MultiplierParam ==>
      t.params[i] == s.params[i]
  {
    var c := CeilingStage(LinkStage(s));
    RouteStage(SnapStage(c), c.params[GainParam], c.params[MultiplierParam], inL, inR)
  }

  class Clamp {
    var params: array<real>
    var prevMax: real
    var prevMin: real
    /** Display cells shown by the panel's two readouts. */
    var volt1: real
    var volt2: real
    /** The voltages last written to the two output jacks. */
    var outL: real
    var outR: real

    ghost predicate Valid()
      reads this
    {
      params.Length == NumParams
    }

    ghost function Model(): (s: Snapshot)
      reads this, params
      requires Valid()
      ensures WellFormed(s)
    {
      Snapshot(params[..], prevMax, prevMin, volt1, volt2, outL, outR)
    }

    /** Instantiation: the bank holds its defaults and the knob memory is 0;
        the display cells and outputs are left uninitialised. */
    constructor ()
      ensures Valid() && fresh(params)
      ensures params[..] == DefaultParams
      ensures prevMax == 0.0 && prevMin == 0.0
    {
      var bank := new real[NumParams];
      bank[MaxParam] := 10.0;
      bank[CeilingParam] := 0.0;
      bank[MinParam] := -10.0;
      bank[LinkParam] := 1.0;
      bank[MultiplierParam] := 1.0;
      bank[GainParam] := 1.0;
      for i := 0 to NumSnapButtons
        invariant forall j :: 0 <= j < SnapButtons ==> bank[j] == DefaultParams[j]
        invariant forall j :: SnapButtons <= j < SnapButtons + i ==> bank[j] == 0.0
      {
        bank[SnapButtons + i] := 0.0;
      }
      params := bank;
      prevMax, prevMin := 0.0, 0.0;
    }

    /** One sample frame, updating the bank, the memory and display cells and
        the outputs in place, stage by stage in the module's order. */
    method Process(inL: Input, inR: Input)
      requires Valid()
      modifies this, params
      ensures Valid() && params == old(params)
      ensures Model() == Step(old(Model()), inL, inR)
    {
      ghost var s := Model();
      volt1 := params[MaxParam];
      volt2 := params[MinParam];
      ResolveLink();
      assert Model() == LinkStage(s).(volt1 := volt1, volt2 := volt2);
      ApplyCeiling();
      assert Model() == CeilingStage(LinkStage(s));
      var gain, attenuvert := params[GainParam], params[MultiplierParam];
      SnapMultiplier();
      WriteOutputs(inL, inR, gain, attenuvert);
    }

    /** Link resolution on the bank and the knob memory. */
    method ResolveLink()
      requires Valid()
      modifies this`prevMax, this`prevMin, params
      ensures Valid()
      ensures Model() == LinkStage(old(Model()))
    {
      var prevVal1 := params[MaxParam];
      var prevVal2 := params[MinParam];
      if params[LinkParam] < 1.0 && prevVal1 != prevMax {
        params[MinParam] := -prevVal1;
      }
      if params[LinkParam] < 1.0 && prevVal2 != prevMin {
        params[MaxParam] := -prevVal2;
        prevMax := prevVal1;
        prevMin := prevVal2;
      }
    }

    /** The ceiling override on the display cells and the bank. */
    method ApplyCeiling()
      requires Valid()
      modifies this`volt1, this`volt2, params
      ensures Valid()
      ensures Model() == CeilingStage(old(Model()))
    {
      if params[CeilingParam] > 0.0 {
        volt1 := CeilingLevel;
        volt2 := -CeilingLevel;
      } else {
        volt1 := params[MaxParam];
        volt2 := params[MinParam];
      }
      params[MaxParam] := volt1;
      params[MinParam] := volt2;
    }

    /** The four snap buttons, each in turn overwriting the multiplier when
        it reads exactly 1. */
    method SnapMultiplier()
      requires Valid()
      modifies params
      ensures Model() == SnapStage(old(Model()))
    {
      ghost var buttons := Buttons(params[..]);
      assert buttons[0] == params[SnapButtons + 0] && buttons[1] == params[SnapButtons + 1];
      assert buttons[2] == params[SnapButtons + 2] && buttons[3] == params[SnapButtons + 3];
      ghost var m0 := params[MultiplierParam];
      if params[SnapButtons + 0] == 1.0 { params[MultiplierParam] := SnapTargets[0]; }
      ghost var m1 := params[MultiplierParam];
      if params[SnapButtons + 1] == 1.0 { params[MultiplierParam] := SnapTargets[1]; }
      ghost var m2 := params[MultiplierParam];
      if params[SnapButtons + 2] == 1.0 { params[MultiplierParam] := SnapTargets[2]; }
      ghost var m3 := params[MultiplierParam];
      if params[SnapButtons + 3] == 1.0 { params[MultiplierParam] := SnapTargets[3]; }
      assert ApplySnaps(m0, buttons, 0) == ApplySnaps(m1, buttons, 1) == ApplySnaps(m2, buttons, 2)
        == ApplySnaps(m3, buttons, 3) == ApplySnaps(params[MultiplierParam], buttons, 4);
      assert params[..] == old(params[..])[MultiplierParam := params[MultiplierParam]];
    }

    /** Scale and clamp both inputs and route them, or the bounds, to the
        output jacks. */
    method WriteOutputs(inL: Input, inR: Input, gain: real, attenuvert: real)
      requires Valid()
      modifies this`outL, this`outR
      ensures Model() == RouteStage(old(Model()), gain, attenuvert, inL, inR)
    {
      var left := RackMath.Clamp(Scale(inL.voltage, gain, attenuvert),
        FMin(params[MinParam], params[MaxParam]), FMax(params[MaxParam], params[MinParam]));
      var right := RackMath.Clamp(Scale(inR.voltage, gain, attenuvert),
        FMin(params[MinParam], params[MaxParam]), FMax(params[MaxParam], params[MinParam]));
      if inL.connected { outL := left; } else { outL := params[MaxParam]; }
      if inL.connected { outR := right; } else { outR := params[MinParam]; }
    }
  }
}
