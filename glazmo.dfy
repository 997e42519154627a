/** The Glazmo engine object: its fields (including the file-level globals led_,
    prev_trig_ and state_), the two message channels between the render core and
    the effect core, and the methods that update them in place.  Each method is
    proved to compute the corresponding function of modules Render and Effect. */
module GlazmoApp {
  import opened Q15
  import opened Mapping
  import opened Collaborators
  import opened MultiCore
  import opened Effect
  import opened Render

  /** The smoothed values of the DENSITY, FX and LENGTH pots after the audio loop
      has processed its pots. */
  datatype PotReadings = PotReadings(density: PotValue, fx: PotValue, length: PotValue)

  /** What the audio loop reads from the hardware once per block to form the
      combined trigger. */
  datatype BlockIn = BlockIn(triggerIn: bool, shiftHeld: bool, layer: Layer)

  /** The autoplay setting after one UI pass: on the settings layer, when the
      AUTOPLAY pot has changed, it is set to whether the pot is above its centre;
      otherwise it is kept. */
  function AutoplayAfter(autoplay: bool, layer: Layer, changed: bool, pot: PotValue): (r: bool)
    ensures layer == Settings && changed ==> (r <==> pot > POT_HALF)
    ensures !(layer == Settings && changed) ==> r == autoplay
  {
    if layer == Settings && changed then pot > POT_HALF else autoplay
  }

  /** It is a level assignment, not a toggle: the result does not depend on the
      previous setting, and repeating the pass changes nothing. */
  lemma AutoplayIsLevel(a: bool, b: bool, layer: Layer, changed: bool, pot: PotValue)
    ensures layer == Settings && changed ==>
      AutoplayAfter(a, layer, changed, pot) == AutoplayAfter(b, layer, changed, pot)
    ensures AutoplayAfter(AutoplayAfter(a, layer, changed, pot), layer, changed, pot)
      == AutoplayAfter(a, layer, changed, pot)
  {
  }

  /** The part of the engine's state one audio block reads and changes. */
  datatype Engine = Engine(inited: bool, playback: Playback, prevTrig: bool, controls: Controls,
                           pots: PotReadings, worker: Worker)

  datatype BlockResult = BlockResult(engine: Engine, returned: bool)

  /** AudioLoop on an explicit state.  Before initialisation nothing changes;
      otherwise the block is started, rendered, handed to the effect core, and the
      render core waits for DONE. */
  function AudioBlock(e: Engine, size: nat, pots: PotReadings, hw: BlockIn, ins: seq<SampleIn>): (r: BlockResult)
    requires |e.worker.effect.delays| == 2 && |ins| == size && 2 * size <= |e.worker.buffer|
    ensures |r.engine.worker.buffer| == |e.worker.buffer| && |r.engine.worker.effect.delays| == 2
    ensures SameMaxDelays(r.engine.worker.effect.delays, e.worker.effect.delays)
    ensures r.engine.playback.player.sample == e.playback.player.sample
    ensures !e.inited ==> r == BlockResult(e, true)
  {
    if !e.inited then BlockResult(e, true) else EffectSide(RenderSide(StartBlock(e, pots, hw), size, ins), size)
  }

  /** The start of a block: the pots are read (the LENGTH pot is also one of the
      render controls), and a rising edge of the combined trigger restarts
      playback and flips the LED; the trigger is remembered for the next block. */
  function StartBlock(e: Engine, pots: PotReadings, hw: BlockIn): (r: Engine)
    ensures r.inited == e.inited && r.worker == e.worker
    ensures r.playback.player.sample == e.playback.player.sample
    ensures r.prevTrig == CombinedTrigger(hw.triggerIn, hw.shiftHeld, hw.layer)
    ensures (r.playback.led != e.playback.led) <==> r.prevTrig && !e.prevTrig
  {
    var trig := CombinedTrigger(hw.triggerIn, hw.shiftHeld, hw.layer);
    e.(playback := Edge(e.playback, e.prevTrig, trig), prevTrig := trig,
       controls := e.controls.(lengthPot := pots.length), pots := pots)
  }

  /** The render loop over the block: the playback state and the output buffer
      become those of RenderUpTo over all indices; nothing else changes. */
  function RenderSide(e: Engine, size: nat, ins: seq<SampleIn>): (r: Engine)
    requires |ins| == size && 2 * size <= |e.worker.buffer|
    ensures r == e.(playback := r.playback, worker := e.worker.(buffer := r.worker.buffer))
    ensures |r.worker.buffer| == |e.worker.buffer|
    ensures r.playback.player.sample == e.playback.player.sample
  {
    var b := RenderUpTo(e.playback, e.controls, ins, e.worker.buffer, size);
    e.(playback := b.state, worker := e.worker.(buffer := b.buffer))
  }

  /** The effect core's part: the block's messages are handled on the rendered
      buffer with the slot parameters as they stand after the render loop; then
      the render core's wait for DONE returns only if DONE is the first reply,
      which it consumes. */
  function EffectSide(e: Engine, size: nat): (r: BlockResult)
    requires |e.worker.effect.delays| == 2 && 2 * size <= |e.worker.buffer|
    ensures |r.engine.worker.buffer| == |e.worker.buffer| && |r.engine.worker.effect.delays| == 2
    ensures SameMaxDelays(r.engine.worker.effect.delays, e.worker.effect.delays)
    ensures r.engine == e.(worker := r.engine.worker)
  {
    var p := ParamsFor(e.pots.density, e.pots.fx, e.playback.player.length, FullLength(e.playback.player));
    DoneOncePerBlock(e.worker, Env(size, p), size);
    var w := Run(e.worker, Env(size, p), BlockMessages(size));
    var returned := w.replies != [] && w.replies[0] == Done;
    BlockResult(e.(worker := if returned then w.(replies := w.replies[1..]) else w), returned)
  }

  /** Starting from empty channels, an initialised block returns exactly when it
      has at least one sample, leaves the reply channel empty, and has counted
      every sample of the block. */
  lemma {:induction false} AudioBlockReturns(e: Engine, size: nat, pots: PotReadings, hw: BlockIn, ins: seq<SampleIn>)
    requires |e.worker.effect.delays| == 2 && |ins| == size && 2 * size <= |e.worker.buffer|
    requires e.inited && e.worker.replies == []
    ensures var r := AudioBlock(e, size, pots, hw, ins);
      r.returned == (size > 0) && r.engine.worker.replies == [] && r.engine.worker.count == size
  {
    var m := RenderSide(StartBlock(e, pots, hw), size, ins);
    var p := ParamsFor(m.pots.density, m.pots.fx, m.playback.player.length, FullLength(m.playback.player));
    DoneOncePerBlock(m.worker, Env(size, p), size);
  }

  class Glazmo {
    /** samples[0], the only sample the engine loads. */
    const sample0: Sample

    var inited: bool
    var autoplay: bool
    var player: Player
    /** The globals led_ and prev_trig_. */
    var led: Led
    var prevTrig: bool
    /** scrub_, length_ and pitch_, as the UI loop computes them. */
    var scrub: int
    var length: int
    var pitch: int
    /** The pot values the engine reads. */
    var densityPot: PotValue
    var fxPot: PotValue
    var lengthPot: PotValue
    /** density_[0] and density_[1]. */
    var density: seq<StereoDelay>
    /** The global state_ of the transient shaper. */
    var envelope: Q15
    var outputBuffer: array<Q15>
    var bufferSize: nat
    /** second_core_processed_samples_. */
    var processed: nat
    /** The channel to the effect core and the channel back to the render core. */
    var toEffect: seq<Message>
    var toRender: seq<Message>

    ghost predicate Valid()
      reads this
    {
      |density| == 2 && player.sample == sample0 &&
      (inited ==> density[0].maxDelay == KMaxDelay(0) && density[1].maxDelay == KMaxDelay(1))
    }

    /** Between blocks both channels are empty. */
    ghost predicate Idle()
      reads this
    {
      toEffect == [] && toRender == []
    }

    /** The render-side controls as the audio loop reads them. */
    function ControlsNow(): Controls
      reads this
    {
      Controls(autoplay, scrub, length, lengthPot, pitch)
    }

    /** The parameters a slot's processing reads: the DENSITY and FX pots, the
        player's region length and the full sample length. */
    function SlotParams(): Params
      reads this`densityPot, this`fxPot, this`player
    {
      ParamsFor(densityPot, fxPot, player.length, FullLength(player))
    }

    /** The effect core's view of the object. */
    ghost function WorkerNow(): Worker
      reads this, outputBuffer
    {
      Worker(processed, toRender, EffectState(density, envelope), outputBuffer[..])
    }

    /** The object's state seen by an audio block that renders into buf. */
    ghost function Now(buf: array<Q15>): Engine
      reads this, buf
    {
      Engine(inited, Playback(player, led), prevTrig, ControlsNow(), PotReadings(densityPot, fxPot, lengthPot),
             Worker(processed, toRender, EffectState(density, envelope), buf[..]))
    }

    /** The declared defaults: not initialised, autoplay on, no samples processed,
        LED_1, no previous trigger and a zero envelope. */
    constructor (sample: Sample)
      ensures sample0 == sample && Valid() && Idle() && !inited
      ensures autoplay && processed == 0 && led == Led1 && !prevTrig && envelope == 0
    {
      sample0 := sample;
      inited := false;
      autoplay := true;
      player := Load(sample);
      led := Led1;
      prevTrig := false;
      scrub, length, pitch := 0, 0, 0;
      densityPot, fxPot, lengthPot := POT_MIN, POT_MIN, POT_HALF;
      density := [NewDelay(0), NewDelay(0)];
      envelope := 0;
      outputBuffer := new Q15[0];
      bufferSize := 0;
      processed := 0;
      toEffect, toRender := [], [];
    }

    /** Init: the first sample loaded whole, forward and stopped; the two density
        lines with kMaxDelay 10000 and 15000; then the object is initialised. */
    method Init()
      modifies this`inited, this`player, this`density
      ensures inited && Valid()
      ensures player == Load(sample0)
      ensures density == [NewDelay(KMaxDelay(0)), NewDelay(KMaxDelay(1))]
    {
      inited := false;
      player := Load(sample0);
      var lines := [];
      for index := 0 to 2
        invariant |lines| == index
        invariant forall k :: 0 <= k < index ==> lines[k] == NewDelay(KMaxDelay(k))
      {
        lines := lines + [NewDelay(5000 * (index + 2))];
      }
      density := lines;
      inited := true;
    }

    method DeInit()
      modifies this`inited
      ensures !inited
      ensures old(Valid() && Idle()) ==> Valid() && Idle()
    {
      inited := false;
    }

    /** The settings part of the UI loop.  The values of scrub_, length_ and pitch_
        are computed outside this model and given as parameters. */
    method UiLoop(scrubValue: int, lengthValue: int, pitchValue: int, layer: Layer, autoplayChanged: bool, autoplayPot: PotValue)
      modifies this`scrub, this`length, this`pitch, this`autoplay
      ensures scrub == scrubValue && length == lengthValue && pitch == pitchValue
      ensures autoplay == AutoplayAfter(old(autoplay), layer, autoplayChanged, autoplayPot)
      ensures old(Valid() && Idle()) ==> Valid() && Idle()
    {
      scrub := scrubValue;
      length := lengthValue;
      pitch := pitchValue;
      if layer == Settings {
        if autoplayChanged {
          autoplay := autoplayPot > POT_HALF;
        }
      }
    }

    /** TransientShape: one step of the shaper on the persistent envelope. */
    method TransientShape(pot: PotValue, x: Q15) returns (y: Q15)
      modifies this`envelope
      ensures ShapeOut(envelope, y) == Shape(old(envelope), pot, x)
    {
      var amnt: Q15 := Map(pot, 0, POT_MAX, 0, 32767);
      var diff := Sub(x, envelope);
      var delta := Mult(ALPHA, diff);
      var env := Add(envelope, delta);
      envelope := env;
      var tr := Sub(x, env);
      var adj := Mult(amnt, tr);
      y := Add(x, adj);
    }

    /** SecondCoreProcess(index): density on the slot, then the shaper on its left
        and right samples, sharing one envelope. */
    method SecondCoreProcess(index: nat, ghost p: Params)
      requires |density| == 2 && 2 * index + 1 < outputBuffer.Length && p == SlotParams()
      modifies outputBuffer, this`density, this`envelope
      ensures
        var o := ProcessSlot(old(WorkerNow()).effect, p, SlotOf(old(outputBuffer[..]), index));
        WorkerNow() == old(WorkerNow()).(effect := o.state, buffer := PutSlot(old(outputBuffer[..]), index, o.frame))
    {
      ghost var pre := SlotOf(outputBuffer[..], index);
      DensityStage(index, p);
      ghost var mid := SlotOf(outputBuffer[..], index);
      ghost var buf1 := outputBuffer[..];
      var fx := fxPot;
      var yl := TransientShape(fx, outputBuffer[2 * index]);
      ghost var sl := ShapeOut(envelope, yl);
      outputBuffer[2 * index] := yl;
      assert outputBuffer[2 * index + 1] == mid.right;
      var yr := TransientShape(fx, outputBuffer[2 * index + 1]);
      ghost var sr := ShapeOut(envelope, yr);
      outputBuffer[2 * index + 1] := yr;
      ProcessSlotSteps(EffectState(old(density), old(envelope)), p, pre, Slot(density, mid), sl, sr);
      assert outputBuffer[..] == PutSlot(buf1, index, Frame(yl, yr));
      SlotOverwrite(old(outputBuffer[..]), buf1, index, Frame(yl, yr));
    }

    /** The density part of SecondCoreProcess: above the deadzone, each of the two
        lines gets the delay length for its span, is fed the slot's pre-effect
        frame, and its output is added onto the slot. */
    method DensityStage(index: nat, ghost p: Params)
      requires |density| == 2 && 2 * index + 1 < outputBuffer.Length && p == SlotParams()
      modifies outputBuffer, this`density
      ensures
        var s := Density(old(density), p, SlotOf(old(outputBuffer[..]), index));
        density == s.delays && outputBuffer[..] == PutSlot(old(outputBuffer[..]), index, s.frame)
    {
      var pot := densityPot;
      ghost var pre := SlotOf(outputBuffer[..], index);
      if pot > POT_MIN + 10 {
        var l := outputBuffer[2 * index];
        var r := outputBuffer[2 * index + 1];
        for j := 0 to 2
          invariant |density| == 2
          invariant forall k :: 0 <= k < outputBuffer.Length && k != 2 * index && k != 2 * index + 1 ==>
            outputBuffer[k] == old(outputBuffer[k])
          invariant DensityFrom(density, p, pre, SlotOf(outputBuffer[..], index), j) == Density(old(density), p, pre)
        {
          ghost var acc := SlotOf(outputBuffer[..], index);
          ghost var lines := density;
          DensityFromStep(lines, p, pre, acc, j);
          var v := Map(pot, 0, POT_MAX, 0, Map(player.length, 0, FullLength(player), 0, 4057 + j * 8311));
          assert v == TapOf(p, j);
          var line := SetDelay(density[j], v, v);
          line := ProcessDelay(line, l, r);
          density := density[j := line];
          outputBuffer[2 * index] := Add(outputBuffer[2 * index], line.out.left);
          outputBuffer[2 * index + 1] := Add(outputBuffer[2 * index + 1], line.out.right);
          assert SlotOf(outputBuffer[..], index) == Mix(acc, line);
        }
      }
      ghost var mid := SlotOf(outputBuffer[..], index);
      assert Slot(density, mid) == Density(old(density), p, pre);
      SlotOverwrite(old(outputBuffer[..]), outputBuffer[..], index, mid);
      PutSlotSame(outputBuffer[..], index);
    }

    /** SecondCoreWorker: handles the messages waiting on the effect channel in
        order, exactly as the step function Effect.Step does. */
    method SecondCoreWorker(ghost env: Env)
      requires |density| == 2 && AllFit(toEffect, outputBuffer.Length)
      requires env == Env(bufferSize, SlotParams())
      modifies this`toEffect, this`toRender, this`processed, this`density, this`envelope, outputBuffer
      ensures toEffect == [] && |density| == 2
      ensures WorkerNow() == Run(old(WorkerNow()), env, old(toEffect))
    {
      while toEffect != []
        invariant |density| == 2 && AllFit(toEffect, outputBuffer.Length)
        invariant env == Env(bufferSize, SlotParams())
        invariant Run(WorkerNow(), env, toEffect) == Run(old(WorkerNow()), env, old(toEffect))
        decreases |toEffect|
      {
        ghost var before := WorkerNow();
        ghost var q := toEffect;
        var m := toEffect[0];
        toEffect := toEffect[1..];
        HandleMessage(m, env);
        RunFirst(before, env, q);
      }
    }

    /** One message of the worker loop: BEGIN resets the counter; a request
        processes its slot, counts it and sends DONE after the last slot of the
        block; DONE is ignored. */
    method HandleMessage(m: Message, ghost env: Env)
      requires |density| == 2 && Fits(m, outputBuffer.Length)
      requires env == Env(bufferSize, SlotParams())
      modifies this`toRender, this`processed, this`density, this`envelope, outputBuffer
      ensures |density| == 2
      ensures WorkerNow() == Step(old(WorkerNow()), env, m)
    {
      match m {
        case Begin =>
          processed := 0;
        case SampleRequest(i) =>
          HandleRequest(i, env);
        case Done =>
      }
    }

    /** A sample request: the slot is processed, counted, and DONE is sent once the
        count reaches the block size. */
    method HandleRequest(i: nat, ghost env: Env)
      requires |density| == 2 && 2 * i + 1 < outputBuffer.Length
      requires env == Env(bufferSize, SlotParams())
      modifies this`toRender, this`processed, this`density, this`envelope, outputBuffer
      ensures |density| == 2
      ensures WorkerNow() == Step(old(WorkerNow()), env, SampleRequest(i))
    {
      ghost var before := WorkerNow();
      SecondCoreProcess(i, env.params);
      CountRequest();
      StepRequest(before, env, i);
    }

    /** second_core_processed_samples_ is incremented, and DONE is sent when it
        reaches the block size. */
    method CountRequest()
      modifies this`toRender, this`processed
      ensures var c := old(processed) + 1;
        WorkerNow() == old(WorkerNow()).(count := c, replies := if c == bufferSize then old(toRender) + [Done] else old(toRender))
    {
      processed := processed + 1;
      if processed == bufferSize {
        toRender := toRender + [Done];
      }
    }

    /** The render loop of one block: BEGIN, then for every index the gating, the
        knob handling and the playback step, each index followed by its request. */
    method RenderBlock(output: array<Q15>, size: nat, ins: seq<SampleIn>)
      requires |ins| == size && 2 * size <= output.Length
      modifies this`player, this`led, this`toEffect, output
      ensures Now(output) == RenderSide(old(Now(output)), size, ins)
      ensures toEffect == old(toEffect) + BlockMessages(size)
      ensures player.sample == old(player.sample)
    {
      ghost var e := Now(output);
      Send(Begin);
      assert Now(output) == e;
      RenderLoop(output, size, ins);
      assert old(toEffect) + [Begin] + Requests(size) == old(toEffect) + BlockMessages(size);
    }

    /** A message to the effect core. */
    method Send(m: Message)
      modifies this`toEffect
      ensures toEffect == old(toEffect) + [m]
    {
      toEffect := toEffect + [m];
    }

    /** The loop over the indices of the block, after BEGIN. */
    method RenderLoop(output: array<Q15>, size: nat, ins: seq<SampleIn>)
      requires |ins| == size && 2 * size <= output.Length
      modifies this`player, this`led, this`toEffect, output
      ensures Block(Playback(player, led), output[..])
        == RenderUpTo(Playback(old(player), old(led)), ControlsNow(), ins, old(output[..]), size)
      ensures toEffect == old(toEffect) + Requests(size)
      ensures player.sample == old(player.sample)
    {
      ghost var c := ControlsNow();
      ghost var s0 := Playback(player, led);
      ghost var buf0 := output[..];
      for index := 0 to size
        invariant c == ControlsNow()
        invariant Block(Playback(player, led), output[..]) == RenderUpTo(s0, c, ins, buf0, index)
        invariant toEffect == old(toEffect) + Requests(index)
      {
        RenderStep(output, ins, index, c, s0, buf0);
      }
    }

    /** One pass of the render loop: index `index` is rendered and requested.  The
        loop's state after it is RenderUpTo over one more index. */
    method RenderStep(output: array<Q15>, ins: seq<SampleIn>, index: nat, ghost c: Controls, ghost s0: Playback, ghost buf0: seq<Q15>)
      requires index < |ins| && 2 * |ins| <= output.Length && |buf0| == output.Length && c == ControlsNow()
      requires Block(Playback(player, led), output[..]) == RenderUpTo(s0, c, ins, buf0, index)
      modifies this`player, this`led, this`toEffect, output
      ensures c == ControlsNow()
      ensures Block(Playback(player, led), output[..]) == RenderUpTo(s0, c, ins, buf0, index + 1)
      ensures toEffect == old(toEffect) + [SampleRequest(index)]
    {
      RenderIndex(output, index, c, ins[index]);
      Send(SampleRequest(index));
    }

    /** One index of the render loop, up to its request: nothing when the index is
        gated; otherwise the knob handling, then either the next frame written to
        the index's slot or a restart with an LED flip. */
    method RenderIndex(output: array<Q15>, index: nat, ghost c: Controls, x: SampleIn)
      requires c == ControlsNow() && 2 * index + 1 < output.Length
      modifies this`player, this`led, output
      ensures
        var o := SampleStep(Playback(old(player), old(led)), c, x);
        Playback(player, led) == o.state && output[..] == Write(old(output[..]), index, o.written)
      ensures player.sample == old(player.sample)
    {
      if !autoplay && !x.triggerIn {
        return;
      }
      ApplyKnobs(c, x);
      ghost var k := Playback(player, led);
      if player.playing {
        player := Process(player);
        output[2 * index] := player.out.left;
        output[2 * index + 1] := player.out.right;
        assert output[..] == PutSlot(old(output[..]), index, player.out);
      } else {
        player := Play(player);
        led := Flip(led);
      }
      assert Advance(k).state == Playback(player, led);
    }

    /** The knob handling of one ungated index. */
    method ApplyKnobs(ghost c: Controls, x: SampleIn)
      requires c == ControlsNow()
      modifies this`player, this`led
      ensures Playback(player, led) == Knobs(Playback(old(player), old(led)), c, x)
    {
      player := SetSpeed(player, pitch);
      if x.scrubMoved {
        player := Reset(player);
        player := SetStart(player, Map(scrub, 0, POT_MAX, 0, player.length - 1));
        led := Flip(led);
      }
      if x.lengthMoved {
        player := SetReverse(player, lengthPot < POT_HALF);
        player := SetLength(player, Map(Abs(length - POT_HALF), 0, POT_HALF, 0, FullLength(player)));
        player := SetStart(player, Map(scrub, 0, POT_MAX, 0, player.length - 1));
      }
    }

    /** AudioLoop: computes AudioBlock on the object's state.  The output buffer
        becomes the one the effect core works on, and the block's messages are
        added to the trace. */
    method AudioLoop(output: array<Q15>, size: nat, pots: PotReadings, hw: BlockIn, ins: seq<SampleIn>)
      returns (returned: bool)
      requires Valid() && Idle() && |ins| == size && 2 * size <= output.Length
      modifies this, output
      ensures Valid() && Idle()
      ensures var r := AudioBlock(old(Now(output)), size, pots, hw, ins);
        Now(output) == r.engine && returned == r.returned
      ensures !old(inited) ==> unchanged(this) && unchanged(output)
      ensures old(inited) ==> outputBuffer == output && bufferSize == size
    {
      if !inited {
        return true;
      }
      ghost var e := Now(output);
      BeginBlock(output, size, pots, hw);
      RenderBlock(output, size, ins);
      returned := EffectPhase(output, size);
      AudioBlockReturns(e, size, pots, hw, ins);
    }

    /** The start of AudioLoop: the pots are read, the output buffer is published
        to the effect core, and the combined trigger's rising edge is handled. */
    method BeginBlock(output: array<Q15>, size: nat, pots: PotReadings, hw: BlockIn)
      modifies this`densityPot, this`fxPot, this`lengthPot, this`outputBuffer, this`bufferSize
      modifies this`player, this`led, this`prevTrig
      ensures Now(output) == StartBlock(old(Now(output)), pots, hw)
      ensures outputBuffer == output && bufferSize == size
    {
      ReadPots(output, pots);
      PublishBuffer(output, size);
      var trigger := CombinedTrigger(hw.triggerIn, hw.shiftHeld, hw.layer);
      HandleTrigger(output, trigger);
    }

    /** The DENSITY, FX and LENGTH pots are read once per block. */
    method ReadPots(output: array<Q15>, pots: PotReadings)
      modifies this`densityPot, this`fxPot, this`lengthPot
      ensures Now(output) == old(Now(output)).(pots := pots, controls := old(ControlsNow()).(lengthPot := pots.length))
    {
      densityPot, fxPot, lengthPot := pots.density, pots.fx, pots.length;
    }

    /** The block's buffer and size become the ones the effect core works on. */
    method PublishBuffer(output: array<Q15>, size: nat)
      modifies this`outputBuffer, this`bufferSize
      ensures Now(output) == old(Now(output))
      ensures outputBuffer == output && bufferSize == size
    {
      outputBuffer := output;
      bufferSize := size;
    }

    /** A rising edge of the trigger restarts playback and flips the LED; the
        trigger is remembered in prev_trig_. */
    method HandleTrigger(output: array<Q15>, trigger: bool)
      modifies this`player, this`led, this`prevTrig
      ensures Now(output) == old(Now(output)).(playback := Edge(Playback(old(player), old(led)), old(prevTrig), trigger), prevTrig := trigger)
    {
      if trigger && !prevTrig {
        player := Play(player);
        led := Flip(led);
      }
      prevTrig := trigger;
    }

    /** The effect core's part of a block, then the render core's wait for DONE.
        For an empty block the effect core never replies and the wait would not
        end; `returned` is false then. */
    method EffectPhase(output: array<Q15>, size: nat) returns (returned: bool)
      requires |density| == 2 && toRender == [] && toEffect == BlockMessages(size)
      requires outputBuffer == output && bufferSize == size && 2 * size <= output.Length
      modifies this`toEffect, this`toRender, this`processed, this`density, this`envelope, output
      ensures toEffect == [] && |density| == 2
      ensures var r := EffectSide(old(Now(output)), size);
        Now(output) == r.engine && returned == r.returned
    {
      ghost var w0 := WorkerNow();
      ghost var env := Env(size, SlotParams());
      DoneOncePerBlock(w0, env, size);
      ghost var e := Now(output);
      SecondCoreWorker(env);
      assert Now(output) == e.(worker := WorkerNow());
      returned := WaitForDone(output);
    }

    /** WaitForMessage(DONE) on the render core: the reply is taken from the
        channel when it is there.  A channel without DONE would block the real
        core; here `returned` is false and the channel is left as it is. */
    method WaitForDone(output: array<Q15>) returns (returned: bool)
      modifies this`toRender
      ensures returned == (old(toRender) != [] && old(toRender)[0] == Done)
      ensures Now(output) == old(Now(output)).(worker := old(Now(output)).worker.(replies :=
        if returned then old(toRender)[1..] else old(toRender)))
    {
      if toRender != [] && toRender[0] == Done {
        toRender := toRender[1..];
        returned := true;
      } else {
        returned := false;
      }
    }
  }
}
