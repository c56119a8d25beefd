# Clamp: a verified model of the per-frame clamp/link/attenuvert transform

This project models the `Clamp` module of the Bark plugin collection for a
rack-based modular synthesizer host. The module takes two input voltages,
scales them by a gain and by a signed multiplier (the attenuverter), and
clamps them between two bounds, MAX and MIN. With the link switch engaged,
moving one bound knob mirrors its negated value into the other. A ceiling
button forces the bounds to ±9.94 V. Four snap buttons set the multiplier
to -1, 1, -2 or 2. When nothing is plugged into the left input, the two
outputs carry the bounds themselves, as fixed offsets.

The state is what the module keeps between frames:

- a bank of ten parameter values: MAX, CEILING, MIN, LINK, the multiplier,
  GAIN and the four snap buttons, in that order;
- the knob memory `prevMax` and `prevMin`;
- the display cells `volt1` and `volt2`;
- the two output voltages.

Files:

- `rack_math.dfy` (module `RackMath`): the host's `fmin`, `fmax` and
  `clamp`, defined over the reals by what they mean.
- `clamp.dfy` (module `ClampModule`): the parameter layout and the defaults.
  `Step` is one frame as a pure function on a `Snapshot` of the state. It is
  built from five stages: `LinkStage`, `CeilingStage`, `SnapStage`, `Route`
  and `RouteStage`. The class `Clamp` holds the state as the module does, in
  an indexed `array<real>` and fields. Its `Process` method updates that
  state in place. It does so in the source's order, through one method per
  stage, and is proved to perform `Step` on the state's abstract value.
- `clamp_properties.dfy` (module `ClampProperties`): lemmas about `Step`
  over one frame and over several frames.

Voltages are `real`. An input jack is an `Input(voltage, connected)`.

## Behaviour of the link logic

Only the MIN branch of link resolution refreshes the knob memory. The
model proves two consequences of this for the code as written.

Start from rest: the link is engaged, the bounds are mirrored and the
memory matches them. Turn MIN to `v`. One frame later MAX is `-v`, but the
remembered MAX still holds the old value (`MinTurnLeavesStaleMemory`). Now
turn MIN again, to some `w` different from `v`. The next frame reaches a
state where the two link branches undo each other
(`SecondMinTurnOscillates`). From then on, every frame swaps the bounds
with the memory (`OscillationStep`). With no hand on the knobs, the bounds
keep alternating between two different pairs forever
(`OscillatesForever`). When the left input is unplugged, those bounds are
the outputs.

A single MAX turn from rest settles within two frames
(`MaxTurnSettles`). MAX can also reach the oscillating state, though. Turn
MAX to `v`, then on the next frame turn it to some `w` that is neither `v`
nor the resting MAX. The MIN branch then fires on the stale MIN memory,
pulls MAX back to `v`, and reaches the oscillating state
(`SecondMaxTurnOscillates`).

## Notes on the code as written

Four facts about `src/Clamp.cpp` that shape the model:

- The two link branches are independent `if`s, so both can fire in one
  frame. Both read the knob values from the start of the frame.
- For the snap buttons, the button with the highest index that reads
  exactly 1 wins, because each later button overwrites the earlier ones.
- With the left input unplugged, the left output is MAX and the right
  output is MIN. Both outputs follow the left jack's connection state.
- The multiplier that scales the inputs is the one read before the snap
  buttons are applied.

## Model

| member | source | states |
|---|---|---|
| `RackMath.FMin` | src/Clamp.cpp:83 | the result is at most both arguments and is one of them |
| `RackMath.FMax` | src/Clamp.cpp:84 | the result is at least both arguments and is one of them |
| `RackMath.Clamp` | src/Clamp.cpp:83-86 | for lo <= hi: the result lies in [lo, hi], equals x when x is already inside, and is the point of [lo, hi] nearest to x |
| `ClampModule.ApplySnaps` | src/Clamp.cpp:77-80 | after the buttons from k on, the multiplier is the target of the last button reading exactly 1, or is kept when none does |
| `ClampModule.Route` | src/Clamp.cpp:83-93 | both routed outputs lie in [min(MIN,MAX), max(MIN,MAX)], whether they are clamped signals (left jack connected) or the bounds (unplugged) |
| `ClampModule.Step` | src/Clamp.cpp:44-95 | after one frame both outputs lie within the final bounds, and every parameter except MAX, MIN and the multiplier is unchanged |
| `ClampModule.Clamp.constructor` | src/Clamp.cpp:29-42 | the bank holds the defaults (MAX 10, CEILING 0, MIN -10, LINK 1, multiplier 1, GAIN 1, buttons 0) and the knob memory is 0 |
| `ClampModule.Clamp.Process` | src/Clamp.cpp:44-95 | updates the array and the fields in place, keeps the same array, and the new state is `Step` of the old state |
| `ClampModule.Clamp.ResolveLink` | src/Clamp.cpp:45-59 | the bank and the knob memory after link resolution, nothing else touched |
| `ClampModule.Clamp.ApplyCeiling` | src/Clamp.cpp:62-71 | the display cells and the bounds after the ceiling override, nothing else touched |
| `ClampModule.Clamp.SnapMultiplier` | src/Clamp.cpp:77-80 | the four in-place button checks leave the multiplier as `ApplySnaps` says, and the rest of the bank unchanged |
| `ClampModule.Clamp.WriteOutputs` | src/Clamp.cpp:83-93 | the outputs written are those of `Route` for the current bank |
| `ClampProperties.LinkMirrorsMovedKnobs` | src/Clamp.cpp:53-59 | ceiling off, link engaged: a moved MAX sets MIN to -MAX and a moved MIN sets MAX to -MIN (start-of-frame values); an unmoved knob or a released link leaves that bound as it was |
| `ClampProperties.BothMovedSwapsNegated` | src/Clamp.cpp:53-59 | when both knobs moved under an engaged link, the bounds become (-oldMin, -oldMax) |
| `ClampProperties.KnobMemoryRefresh` | src/Clamp.cpp:45-59 | the memory becomes the start-of-frame (MAX, MIN) exactly when the link is engaged and MIN moved; otherwise it is unchanged, whatever the ceiling |
| `ClampProperties.CeilingForcesBounds` | src/Clamp.cpp:62-71 | ceiling on: MAX = 9.94, MIN = -9.94, volt1 = 9.94, volt2 = -9.94 after the frame, whatever the knobs and the link did |
| `ClampProperties.CeilingOffShowsLinkedBounds` | src/Clamp.cpp:65-71 | ceiling off: the display cells and the bank's bounds are the bounds left by link resolution |
| `ClampProperties.SnapSelectsLastPressed` | src/Clamp.cpp:77-80 | after a frame the multiplier is the target of the highest-index button reading exactly 1, and is unchanged when no button reads 1 |
| `ClampProperties.ButtonsDoNotAffectCurrentFrame` | src/Clamp.cpp:74-86 | two states that differ only in the buttons give the same outputs, bounds, display and memory in this frame |
| `ClampProperties.SnapTakesEffectNextFrame` | src/Clamp.cpp:74-86 | a button pressed in one frame scales the next frame's connected inputs by its target |
| `ClampProperties.OutputRouting` | src/Clamp.cpp:83-93 | left jack connected: each output is its input times gain times the pre-snap multiplier, clamped to the final bounds; unplugged: left = MAX, right = MIN |
| `ClampProperties.RightConnectionIgnored` | src/Clamp.cpp:90-93 | the right jack's connection state never changes the frame's result |
| `ClampProperties.InRangeSignalPassesThrough` | src/Clamp.cpp:83-86 | with gain and multiplier 1, a connected input already inside the bounds reaches the output unchanged |
| `ClampProperties.ScenarioOverdriveClampsToMax` | src/Clamp.cpp:83-91 | with the default bank (bounds ±10, gain 1, multiplier 1) a 15 V connected input gives 10 V |
| `ClampProperties.ScenarioCeilingClampsNegative` | src/Clamp.cpp:62-86 | ceiling on, -20 V connected input gives -9.94 V |
| `ClampProperties.LinkView` | src/Clamp.cpp:53-71 | ceiling off: a frame's effect on the knobs and memory is link resolution, and it keeps the link and ceiling settings |
| `ClampProperties.RestIsFixedPoint` | src/Clamp.cpp:53-59 | linked knobs at rest (mirrored, memory caught up) stay exactly as they are |
| `ClampProperties.MirroredBoundsSettle` | src/Clamp.cpp:53-59 | mirrored bounds whose remembered MIN is out of date come to rest in one frame with the same bounds |
| `ClampProperties.MaxTurnSettles` | src/Clamp.cpp:53-59 | turning MAX to v from rest: the next frame has bounds (v, -v), and the one after is at rest at (v, -v) |
| `ClampProperties.MinTurnLeavesStaleMemory` | src/Clamp.cpp:53-59 | turning MIN to v from rest: the next frame has bounds (-v, v) with the old MAX still remembered, and the following frame changes nothing |
| `ClampProperties.OscillationStep` | src/Clamp.cpp:53-59 | in the oscillating state a frame exchanges bounds and memory, the bounds change, and the state oscillates again |
| `ClampProperties.SecondMinTurnOscillates` | src/Clamp.cpp:53-59 | turning MIN from rest to v, then after one frame to some w different from v, reaches the oscillating state |
| `ClampProperties.SecondMaxTurnOscillates` | src/Clamp.cpp:53-59 | turning MAX from rest to v, then on the next frame to some w that is neither v nor the resting MAX, reaches the oscillating state with bounds (v, -w) |
| `ClampProperties.OscillatesForever` | src/Clamp.cpp:53-59 | from the oscillating state, n frames of link resolution give the starting knobs for even n and the exchanged knobs for odd n, and MAX changes on every frame |

## Left out

- The display widget (`voltDisplayWidget`): drawing, font loading and text formatting belong to the host's graphics library.
- The panel widget (`ClampWidget`) and model registration: panel loading, widget placement and plugin registration are owned by the host framework.
- Parameter metadata: labels, units, the dB display scaling of GAIN, and the ranges the host enforces on each parameter. The model accepts any real value in every slot of the bank. Only the defaults are kept, in the constructor.
- Floating point: voltages are reals, so IEEE-754 rounding of the products and NaN behaviour are not modelled. `clamp`, `fmin` and `fmax` are defined by their mathematical meaning, not by the host's code.
- `ProcessArgs`, the sample rate and the host's real-time scheduling. `process` never reads them. The input voltages and the left jack's connection state are parameters of `Process`.
- `ClampModule.Clamp.constructor`: the display cells and the outputs are not initialised by the module, so the constructor's contract says nothing about them.
- `ClampModule.Clamp.Process`: one frame is carried out through four stage methods called in the source's order, not in one method body. The statements and the order of the writes are the source's. The display cells are written before link resolution reads the knobs, while the source reads the knobs first. These touch different cells, so the resulting state is the same.
- `ClampModule.Clamp.SnapMultiplier`: when a button does not read 1, the source writes the multiplier's own value back. The model writes nothing, which leaves the same state.
- `ClampProperties.OscillatesForever`: states the many-frame behaviour for the knobs and memory, by repeated link resolution. The per-frame link with the `Step` function is `LinkView` together with `OscillationStep`.
