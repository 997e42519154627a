# Glazmo audio engine — a Dafny model

Glazmo is a sample-player app for a dual-core Kastle 2 synthesiser. This
project models its per-block audio engine:

- **The render core (`AudioLoop`).** Once per block it reads the pots and
  publishes the block's output buffer. It then detects a rising edge of the
  combined trigger: the trigger jack, or SHIFT held outside the MODE layer.
  A rising edge restarts playback and flips between the two LEDs.
- **The render loop.** It gates each sample index on the autoplay setting and
  the trigger jack. It moves the region's start and length when the SCRUB and
  LENGTH knobs move. When playback stops it restarts the player, so the loop
  restarts by itself. Otherwise it writes the player's next stereo frame into
  the index's slot.
- **The handshake.** The render core sends BEGIN, then one SAMPLE_REQUEST per
  index, then waits for DONE.
- **The effect core (`SecondCoreWorker` / `SecondCoreProcess`).** It counts
  the requests and replies DONE when the count reaches the block size. For
  each requested slot it runs two stages:
  - the density stage: two delay lines whose lengths follow the DENSITY knob
    and the playback-length ratio, mixed onto the slot with saturation;
  - the transient shaper: a fixed-point one-pole envelope follower with a
    single envelope (`state_`) shared by the left and right samples.
- **The UI loop.** The model keeps only the autoplay setting from it.

The model is layered:

- `q15.dfy`, `mapping.dfy` and `collaborators.dfy` give definitions for the
  helpers the engine calls:
  - the saturating `q15_add`, `q15_sub` and `q15_mult`;
  - the integer `map` interpolation;
  - the sample player;
  - the stereo delay line.
- `arith.dfy` holds the recursive multiplication and division these
  definitions go through.
- `render.dfy` and `effect.dfy` describe one block as functions of an
  explicit state. `Render.RenderUpTo` is the render loop. `Effect.Step` and
  `Effect.Run` are the worker handling its message FIFO. `Effect.ProcessSlot`
  is the per-slot effect chain.
- `multicore.dfy` has the messages and the sequence of messages one block
  sends.
- `glazmo.dfy` has the class `Glazmo`:
  - its fields hold the engine's state, including the globals `led_`,
    `prev_trig_` and `state_`;
  - two message channels are `seq<Message>` FIFOs;
  - the output buffer is an `array<Q15>` that the methods update in place;
  - each method is proved to compute the matching function.

`GlazmoApp.AudioBlock` is the whole block on values. `GlazmoApp.Glazmo.AudioLoop`
is proved to compute it on the object's state.

The two cores run one after the other in the model:

1. The render core sends the whole block into the FIFO.
2. The effect core handles the FIFO in order.
3. The render core takes DONE from the reply channel.

This is the interleaving in which the effect core starts only after the whole
block is queued. The real system can run it only if the mailbox holds BEGIN and
all `size` requests at once; the mailbox's capacity is not part of this model,
and with a smaller mailbox the effect core must start while the render loop is
still running. In the modelled interleaving the effect core sees the player's
region length as it is at the end of the render loop.

## Model

| member | source | states |
|---|---|---|
| GlazmoApp.Glazmo.constructor | code/src/apps/Glazmo/Glazmo.hpp:114-140 | A new engine is not initialised, has autoplay on, has processed no samples, points at LED_1, has no previous trigger and has a zero envelope; both channels are empty |
| GlazmoApp.Glazmo.Init | code/src/apps/Glazmo/Glazmo.cpp:37-138 | After Init the engine is initialised, the first sample is loaded whole, forward and stopped, and density line j has maximum delay 5000 * (j + 2) |
| GlazmoApp.Glazmo.DeInit | code/src/apps/Glazmo/Glazmo.cpp:140-143 | After DeInit the engine is not initialised |
| GlazmoApp.Glazmo.AudioLoop | code/src/apps/Glazmo/Glazmo.cpp:148-215 | The new state and the return are exactly AudioBlock of the old state. Before Init nothing at all changes, buffer included. Afterwards the buffer and size are the ones the effect core works on, and both channels are empty again |
| GlazmoApp.AudioBlock | code/src/apps/Glazmo/Glazmo.cpp:148-215 | One block keeps the buffer length, the number of density lines and their maximum delays, and the loaded sample; before Init it returns at once with the state unchanged |
| GlazmoApp.AudioBlockReturns | code/src/apps/Glazmo/Glazmo.cpp:177-214 | Starting from empty channels, an initialised block gets its DONE exactly when it has at least one sample; the reply channel is then empty and the counter equals the block size |
| GlazmoApp.StartBlock | code/src/apps/Glazmo/Glazmo.cpp:155-175 | The combined trigger (`Render.CombinedTrigger`) is the trigger jack, or SHIFT held outside the MODE layer; it is remembered in prev_trig_, and the LED flips exactly on its rising edge. The init flag, the worker state and the loaded sample are kept |
| GlazmoApp.RenderSide | code/src/apps/Glazmo/Glazmo.cpp:177-212 | The render loop changes only the playback state and the output buffer, and keeps the buffer length and the loaded sample |
| GlazmoApp.EffectSide | code/src/apps/Glazmo/Glazmo.cpp:214 | The effect core's part of the block changes only the worker state, and keeps the buffer length and the density lines' maximum delays |
| GlazmoApp.Glazmo.BeginBlock | code/src/apps/Glazmo/Glazmo.cpp:155-175 | The object's state becomes StartBlock of the old one, and the block's buffer and size are published |
| GlazmoApp.Glazmo.ReadPots | code/src/apps/Glazmo/Glazmo.cpp:155-158 | Only the pot readings change, and the LENGTH reading is also the one the render controls use |
| GlazmoApp.Glazmo.PublishBuffer | code/src/apps/Glazmo/Glazmo.cpp:160-161 | output_buffer_ and buffer_size_ become the block's buffer and size; the block's state is unchanged |
| GlazmoApp.Glazmo.HandleTrigger | code/src/apps/Glazmo/Glazmo.cpp:163-175 | The playback state becomes Edge of the old state under the combined trigger, and prev_trig_ becomes the trigger; nothing else changes |
| GlazmoApp.Glazmo.RenderBlock | code/src/apps/Glazmo/Glazmo.cpp:177-212 | The state becomes RenderSide of the old one, the block's messages (BEGIN, then every request) are appended to the channel, and the sample is kept |
| GlazmoApp.Glazmo.Send | code/src/apps/Glazmo/Glazmo.cpp:177 | SendMessage appends exactly its message to the FIFO |
| GlazmoApp.Glazmo.RenderLoop | code/src/apps/Glazmo/Glazmo.cpp:179-212 | The player, LED and buffer after the loop are RenderUpTo over all indices, and requests 0 .. size-1 are appended in ascending order, gated indices included |
| GlazmoApp.Glazmo.RenderStep | code/src/apps/Glazmo/Glazmo.cpp:181-211 | One loop pass takes the render state from RenderUpTo over index indices to RenderUpTo over one more, and sends that index's request |
| GlazmoApp.Glazmo.RenderIndex | code/src/apps/Glazmo/Glazmo.cpp:181-209 | The player, LED and buffer after one index are those of SampleStep, and only that index's slot can change |
| GlazmoApp.Glazmo.ApplyKnobs | code/src/apps/Glazmo/Glazmo.cpp:186-198 | The player and LED after the knob handling are those of Knobs |
| GlazmoApp.Glazmo.EffectPhase | code/src/apps/Glazmo/Glazmo.cpp:214 | Waiting for DONE lets the effect core drain the FIFO. The new state and the return are those of EffectSide |
| GlazmoApp.Glazmo.WaitForDone | code/src/apps/Glazmo/Glazmo.cpp:214 | The wait ends exactly when DONE is at the head of the reply channel, and then consumes it; otherwise nothing changes |
| GlazmoApp.Glazmo.SecondCoreWorker | code/src/apps/Glazmo/Glazmo.cpp:242-267 | The worker empties the FIFO, and its new state is Run of its old state over the whole FIFO, in order |
| GlazmoApp.Glazmo.HandleMessage | code/src/apps/Glazmo/Glazmo.cpp:249-263 | Handling one message changes the worker state exactly as Step |
| GlazmoApp.Glazmo.HandleRequest | code/src/apps/Glazmo/Glazmo.cpp:255-262 | A request changes the worker state exactly as Step on that request |
| GlazmoApp.Glazmo.CountRequest | code/src/apps/Glazmo/Glazmo.cpp:257-261 | The counter goes up by one, and DONE is appended to the reply channel exactly when the counter reaches the block size |
| GlazmoApp.Glazmo.SecondCoreProcess | code/src/apps/Glazmo/Glazmo.cpp:269-288 | The effect state and the buffer become ProcessSlot of the old ones on the index's slot; only that slot changes |
| GlazmoApp.Glazmo.DensityStage | code/src/apps/Glazmo/Glazmo.cpp:271-283 | The density lines and the slot become those of Density on the pre-effect frame, and every other buffer entry is kept |
| GlazmoApp.Glazmo.TransientShape | code/src/apps/Glazmo/Glazmo.cpp:300-309 | The output and the new state_ are those of Shape on the old state_ |
| GlazmoApp.Glazmo.UiLoop | code/src/apps/Glazmo/Glazmo.cpp:233-239 | scrub_, length_ and pitch_ take the computed values, and autoplay_ becomes AutoplayAfter of its old value |
| GlazmoApp.AutoplayAfter | code/src/apps/Glazmo/Glazmo.cpp:233-239 | On the settings layer with a changed pot, autoplay is on exactly when the pot is above its centre; otherwise it is kept |
| GlazmoApp.AutoplayIsLevel | code/src/apps/Glazmo/Glazmo.cpp:237 | The autoplay assignment is a level and not a toggle: when it applies the previous value does not matter, and applying it twice is the same as once |
| Render.Flip | code/src/apps/Glazmo/Glazmo.cpp:172 | The LED flip always selects the other LED |
| Render.FlipTwice | code/src/apps/Glazmo/Glazmo.cpp:172 | Two flips restore the LED, so led_ only alternates between LED_1 and LED_2 |
| Render.Edge | code/src/apps/Glazmo/Glazmo.cpp:168-173 | The LED changes exactly on a rising edge, in both directions. Without an edge nothing changes. On an edge playback restarts from the region's start with the region kept |
| Render.HeldTriggerFiresOnce | code/src/apps/Glazmo/Glazmo.cpp:168-175 | Once prev_trig_ holds the trigger, a trigger still high at the next block fires nothing more |
| Render.StartFor | code/src/apps/Glazmo/Glazmo.cpp:190 | For scrub_ in [0, POT_MAX], the start offset for a non-empty region lies inside it; scrub at 0 gives the first frame and scrub at POT_MAX the last one |
| Render.LengthFor | code/src/apps/Glazmo/Glazmo.cpp:196 | The centre of the length knob gives an empty region. length_ = 0 and length_ = 2 * POT_HALF give the whole sample. POT_MAX gives 2047/2048 of it, rounded down, which is less than the whole sample. Values in [0, 2 * POT_HALF] never exceed the whole sample |
| Render.TopLengthShort | code/src/apps/Glazmo/Glazmo.cpp:196 | With length_ at POT_MAX the region is shorter than the whole sample |
| Render.ScrubMoved | code/src/apps/Glazmo/Glazmo.cpp:187-192 | A moved scrub knob rewinds the player, moves the start offset to the scrub position (`Collaborators.SetStart`), inside the region for scrub_ in [0, POT_MAX], and flips the LED; the rest of the region and the playing flag are kept |
| Render.LengthMoved | code/src/apps/Glazmo/Glazmo.cpp:194-198 | A moved length knob sets reverse to the raw LENGTH pot being below its centre (`Render.ReverseFor`, applied by `Collaborators.SetReverse`), sets the length from length_ and the sample length `Collaborators.FullLength` (`Collaborators.SetLength`), and recomputes the start for the new length |
| Render.Knobs | code/src/apps/Glazmo/Glazmo.cpp:186-198 | The knob handling always sets the speed (`Collaborators.SetSpeed`). The LED flips exactly when scrub moved, and only scrub rewinds. If neither knob moved only the speed changes |
| Render.Advance | code/src/apps/Glazmo/Glazmo.cpp:200-209 | A playing player writes the frame at its read position and steps forward with the LED kept. A stopped one is restarted at position 0, the LED flips and the slot is not written |
| Render.RestartWritesFirstFrame | code/src/apps/Glazmo/Glazmo.cpp:200-209 | After a stopped player is restarted, the next step writes the region's first frame, so the loop restarts by itself |
| Render.SampleStep | code/src/apps/Glazmo/Glazmo.cpp:181-209 | An index is gated (`Render.Gated`) when autoplay is off and the trigger jack is low. A gated index changes nothing and writes nothing. An ungated index with unmoved knobs and a playing player writes the frame at the read position |
| Render.Write | code/src/apps/Glazmo/Glazmo.cpp:202-203 | Writing an index's slot leaves every other buffer entry unchanged |
| Render.RenderUpTo | code/src/apps/Glazmo/Glazmo.cpp:179-212 | The render loop keeps the buffer length and the loaded sample |
| Render.GatedBlockUnchanged | code/src/apps/Glazmo/Glazmo.cpp:181-184 | A block in which every index is gated leaves the player, the LED and the whole buffer unchanged |
| Render.LaterSlotsUntouched | code/src/apps/Glazmo/Glazmo.cpp:179-212 | The first k indices never touch slot k or any later slot |
| Render.SlotAt | code/src/apps/Glazmo/Glazmo.cpp:179-212 | After the loop each slot holds what its own index wrote, or its old contents when that index wrote nothing (gated or restarting) |
| MultiCore.Requests | code/src/apps/Glazmo/Glazmo.cpp:211 | The requests of a block are SAMPLE_REQUEST(i) for i = 0 .. n-1, in ascending order |
| MultiCore.BlockMessages | code/src/apps/Glazmo/Glazmo.cpp:177-212 | A block sends BEGIN first, then request i - 1 at position i |
| MultiCore.BlockShape | code/src/apps/Glazmo/Glazmo.cpp:177-212 | A block has exactly one BEGIN, at its head, requests each index once, and carries no DONE |
| Effect.Step | code/src/apps/Glazmo/Glazmo.cpp:250-263 | BEGIN resets the counter and nothing else; DONE changes nothing. A request adds one to the counter, replies DONE exactly when the counter reaches the block size, and touches only its own slot |
| Effect.Run | code/src/apps/Glazmo/Glazmo.cpp:244-266 | Handling a FIFO keeps the buffer length, the number of density lines and their maximum delays |
| Effect.RunAppend | code/src/apps/Glazmo/Glazmo.cpp:244-266 | Handling a + b is handling a and then b, so the per-block results compose |
| Effect.RequestsRun | code/src/apps/Glazmo/Glazmo.cpp:255-262 | k requests within the block size raise the counter by k, and add DONE only when they bring it to the block size |
| Effect.DoneOncePerBlock | code/src/apps/Glazmo/Glazmo.cpp:252-262 | Over a whole block the counter ends at the block size and exactly one DONE is replied (none for an empty block) |
| Effect.UnrequestedSlotKept | code/src/apps/Glazmo/Glazmo.cpp:255-256 | A slot whose index is never requested keeps its contents |
| Effect.BypassLeavesBuffer | code/src/apps/Glazmo/Glazmo.cpp:273-287 | With density bypassed and the FX knob at zero, the worker leaves the whole buffer and the delay lines untouched over any message sequence |
| Effect.SlotBypass | code/src/apps/Glazmo/Glazmo.cpp:273-287 | With density bypassed and the FX knob at zero, a slot comes out unchanged |
| Effect.RequestKeepsDelays | code/src/apps/Glazmo/Glazmo.cpp:273 | Below the density deadzone a request leaves the delay lines untouched |
| Effect.ProcessSlot | code/src/apps/Glazmo/Glazmo.cpp:269-288 | Below the deadzone the lines are kept; there, with the FX knob at zero the slot is unchanged, and a slot whose two samples equal the envelope is a fixed point of both slot and state. The maximum delays are always kept |
| Effect.Density | code/src/apps/Glazmo/Glazmo.cpp:273-283 | At or below POT_MIN + 10 nothing changes. Above it, both lines get their clamped tap on both sides and are fed the same pre-effect frame, and the slot becomes the saturating sum of the frame and the two line outputs, channel 0 first. Each line's output is its history tapped at that line's delay on each side. The j loop is `Effect.DensityFrom`, and each channel's saturating mix is `Effect.Mix` |
| Effect.DelayLength | code/src/apps/Glazmo/Glazmo.cpp:277 | For a region no longer than the sample, a channel's delay never exceeds its span (`Effect.Span`, 4057 + j * 8311) or its line's maximum delay (`Effect.KMaxDelay`). It is zero for a zero knob or an empty region, and equals the full span at full knob and full length |
| Effect.TapsFitLines | code/src/apps/Glazmo/Glazmo.cpp:277-278 | With the lines as Init sets them up and a region no longer than the sample, the delay clamp never bites: each line's delay is exactly its DelayLength, as `Effect.ParamsFor` derives it from the knob and the length ratio |
| Effect.DelayLengthMonotoneInKnob | code/src/apps/Glazmo/Glazmo.cpp:277 | A channel's delay never shrinks as the DENSITY knob rises |
| Effect.DelayLengthsOrdered | code/src/apps/Glazmo/Glazmo.cpp:277 | Channel 0's delay is never longer than channel 1's |
| Effect.ChannelsCoincideOnEmptyRegion | code/src/apps/Glazmo/Glazmo.cpp:277 | For an empty playback region both channels' delays are 0 |
| Effect.ChannelsCoincideOnShortRegion | code/src/apps/Glazmo/Glazmo.cpp:277 | For a region shorter than the full length divided by 12368 both channels' delays are 0, whatever the knob |
| Effect.SpansFitDelayLines | code/src/apps/Glazmo/Glazmo.cpp:52-57 | The spans (`Effect.Span`) 4057 and 12368 are distinct and fit within the maximum delays of 10000 and 15000 |
| Effect.Amount | code/src/apps/Glazmo/Glazmo.cpp:301 | The shaping gain is zero exactly when the knob is at 0 and full scale at POT_MAX |
| Effect.AmountZero | code/src/apps/Glazmo/Glazmo.cpp:301 | map(pot, 0, POT_MAX, 0, 32767) is zero exactly for pot 0 |
| Effect.Shape | code/src/apps/Glazmo/Glazmo.cpp:300-309 | With the knob at 0 the output equals the input. An input equal to the envelope is a fixed point of output and state. The new envelope lies between the old envelope and the input |
| Effect.EnvelopeStallsBelowInput | code/src/apps/Glazmo/Glazmo.cpp:302-305 | With the flooring product and alpha = 492, an envelope 1 to 66 units below the input does not move, whatever the knob |
| Effect.StallAtFullKnob | code/src/apps/Glazmo/Glazmo.cpp:302-308 | At full knob, an envelope 2 to 66 below an input that is under Q15_MAX stays put, and the output is above the input |
| Q15.Add | code/src/apps/Glazmo/Glazmo.cpp:280-281 | q15_add is exact in range and saturates at either bound instead of wrapping |
| Q15.SaturatingMix | code/src/apps/Glazmo/Glazmo.cpp:280-281 | Mixing two positive samples whose sum is out of range gives the maximum, not a negative value |
| Q15.Sub | code/src/apps/Glazmo/Glazmo.cpp:302 | q15_sub has the sign of the exact difference, never exceeds it in magnitude, and is exact in range |
| Q15.Mult | code/src/apps/Glazmo/Glazmo.cpp:303 | q15_mult by zero is zero, and a non-negative gain scales the other factor towards zero |
| Q15.Identities | code/src/apps/Glazmo/Glazmo.cpp:302-308 | mult(0, t) = mult(t, 0) = 0, add(x, 0) = x and sub(x, x) = 0 |
| Mapping.Map | code/src/apps/Glazmo/Glazmo.cpp:190 | map sends the input range's ends to the output range's ends and keeps in-range inputs inside the output range |
| Mapping.Abs | code/src/apps/Glazmo/Glazmo.cpp:196 | abs gives the value or its negation, never negative |
| Mapping.MapMonotoneInRange | code/src/apps/Glazmo/Glazmo.cpp:277 | For a fixed input, a wider output range never gives a smaller map |
| Mapping.MapMonotoneInInput | code/src/apps/Glazmo/Glazmo.cpp:277 | For a fixed output range, a larger input never gives a smaller map |
| Collaborators.Load | code/src/apps/Glazmo/Glazmo.cpp:43 | SetSample selects the whole sample, forward and stopped |
| Collaborators.Play | code/src/apps/Glazmo/Glazmo.cpp:170 | Play keeps the region and restarts playing from position 0 |
| Collaborators.Reset | code/src/apps/Glazmo/Glazmo.cpp:188 | Reset rewinds to position 0 and keeps the region and the playing flag |
| Collaborators.RegionIndex | code/src/apps/Glazmo/Glazmo.cpp:201 | The player reads inside the sample, wherever the region lies |
| Collaborators.Process | code/src/apps/Glazmo/Glazmo.cpp:201-203 | Process emits the frame at the read position, steps forward, and keeps playing exactly while the region has frames left |
| Collaborators.PlayThenProcessStartsRegion | code/src/apps/Glazmo/Glazmo.cpp:206 | The frame after Play is the region's first frame, whatever the position was before |
| Collaborators.PutSlot | code/src/apps/Glazmo/Glazmo.cpp:202-203 | Writing slot i sets output[2i] and output[2i+1] and nothing else |
| Collaborators.NewDelay | code/src/apps/Glazmo/Glazmo.cpp:53-54 | A fresh delay line has the configured maximum delay and an empty history |
| Collaborators.ClampDelay | code/src/apps/Glazmo/Glazmo.cpp:278 | A delay is clamped into the line: unchanged when it fits, never above the maximum delay |
| Collaborators.SetDelay | code/src/apps/Glazmo/Glazmo.cpp:278 | SetDelay sets both taps clamped to the line and keeps the history |
| Collaborators.ProcessDelay | code/src/apps/Glazmo/Glazmo.cpp:279 | Process appends the input frame to the history, and each side outputs the input fed its tap's number of steps earlier (`Collaborators.Tap`, silence before the history is that long) |

## Left out

- Sample player (`SamplePlayer16bit`), delay line (`StereoDelay`), `FancyPot`,
  `map` and the `q15_*` helpers: their code is not part of this model. Each is
  given the simplest definition consistent with how the engine uses it:
  - `map` is `(x - inMin) * (outMax - outMin) / (inMax - inMin) + outMin`
    with C's truncating division;
  - the Q15 operations are saturating;
  - the product is shifted right arithmetically;
  - the player plays a region of frames with wrap-around, one frame per
    `Process` call; it never reads its speed, so `SetSpeed(pitch_)`
    (line 186) is recorded in the state but has no effect on the output;
  - the delay line has no feedback and is fully wet, as Init configures it.
- Constants:
  - POT_MIN, POT_MAX and POT_HALF are taken as 0, 4095 and 2048, because
    the configuration header is not part of this model;
  - `alpha_` is the constant 492, its value at an assumed 44.1 kHz sample
    rate, because it is computed with `expf`;
  - `Effect.EnvelopeStallsBelowInput` and `Effect.StallAtFullKnob`, and the
    note on the shaper below, depend on the value 492: their bound 66 is
    floor(32767 / 492). The other proofs use only 0 <= alpha <= 32767.
- Pitch path of `UiLoop` (lines 224-231): it is float and library code
  (`curve_map`, the quantizer, CV attenuverters). `scrub_`, `length_` and
  `pitch_` are inputs of `UiLoop`, and the player's speed is an integer.
- Smoothing and change detection of the pots: `FancyPot::Process`,
  `HasMoved` and `HasChanged` are inputs. The smoothed DENSITY, FX and
  LENGTH values arrive once per block. The moved flags arrive per sample.
- Hardware I/O: the LED colour writes, the ADC and the button and layer
  reads are not modelled. The LED colours are left out; which LED is
  selected (`led_`) is kept. The trigger jack is read per index, as in the
  source.
- Concurrency: the dual-core execution, the busy polling in
  `SecondCoreWorker` and the blocking `WaitForMessage` are replaced by a
  sequential schedule. The whole block is sent, then handled, then DONE is
  taken. Other interleavings can let the effect core read the player's
  length while the render loop is still changing it. Mailbox capacity is
  not modelled.
- GlazmoApp.Glazmo.WaitForDone: the source blocks forever when DONE never
  comes, as in a block of size 0. The model returns `false` and leaves the
  channel as it is.
- GlazmoApp.Glazmo.SecondCoreWorker: the source loops `while (inited_)`
  forever, polling. The model handles the messages waiting in the FIFO and
  stops when it is empty.
- Unsigned arithmetic:
  - Mapping.Map: the intermediate product of `map` is unbounded here, so a
    32-bit overflow in the library's arithmetic is not modelled;
  - `size_t` indices and the block size are unbounded naturals;
  - `scrub_` and `length_` are `size_t` in the source, but `int` in the
    model, which matches the `(int)` cast at line 196 and `map` over int. A
    knob-plus-CV sum below zero wraps in `size_t`; the model keeps it as a
    negative int;
  - A `length_` outside [0, 2 * POT_HALF] gives a region longer than the
    sample: `abs((int) length_ - (int) POT_HALF)` at line 196 then exceeds
    POT_HALF. For such a region the density delays can pass their spans, and
    the clamp in `SetDelay` caps them at the line's maximum delay.
    `Effect.DelayLength` and `Effect.TapsFitLines` promise their bounds only
    for a region no longer than the sample;
  - Render.StartFor: for an empty region the source computes
    `player_.GetLength() - 1` in the player's length type, whose width the
    model does not fix. The model keeps it as the integer -1.
  - Render.StartFor: `scrub_` is the knob plus an attenuverted CV (line
    224), so it can leave [0, POT_MAX]. The start offset is then outside the
    region, and the stand-in player's `RegionIndex` wraps the read index
    back into the sample. The contract bounds the start only for `scrub_`
    in [0, POT_MAX].
- Init: besides the sample and the density lines, it configures the pots,
  the quantizer and the player's rate and hifi mode. That is library
  configuration, so the model covers only the sample and the density lines.
  `density_[2]` is declared but never used, so there are two density lines.
- `MidiCallback` (lines 290-293): its body is empty.
- The ghost history of all messages ever sent: the model keeps only the two
  FIFOs. What one block sends is stated directly.

## Notes on the code

- **Density delays.** The two density channels' delays coincide whenever
  both scaled maps at line 277 round down to the same value. Both are 0 for
  an empty playback region (`Effect.ChannelsCoincideOnEmptyRegion`), which
  happens when length_ (the knob plus its CV) is at POT_HALF. Both are also 0 for a
  non-empty region shorter than the full sample length divided by 12368
  (`Effect.ChannelsCoincideOnShortRegion`); small DENSITY values give
  further coincidences.
- **Shaper steady state.** With a flooring `q15_mult` and alpha = 492, an
  envelope 1 to 66 units below a constant input never moves: 492 * 66 < 32768,
  so the envelope step rounds down to 0 (`Effect.EnvelopeStallsBelowInput`).
  At full knob, for a gap of 2 to 66 and an input below Q15_MAX, the output
  then stays above the input (`Effect.StallAtFullKnob`); for a gap of 1 it
  equals the input. Whether this shows on the device depends on the rounding
  of the real `q15_mult`, which is not part of this model.
