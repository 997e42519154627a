/** The effect core's per-sample chain (density, then transient shaper) and its
    message-handling step, as functions of an explicit state.  The imperative
    worker in module GlazmoApp is proved to compute exactly these. */
module Effect {
  import opened Arith
  import opened Q15
  import opened Mapping
  import opened Collaborators
  import opened MultiCore

  // ---------------------------------------------------------------------------
  // Transient shaper
  // ---------------------------------------------------------------------------

  /** alpha_: the one-pole smoothing coefficient, (1 - exp(-1 / (tau * SAMPLE_RATE)))
      * 32767 rounded, with tau = 1.5 ms; 492 is its value at 44.1 kHz.  Only
      EnvelopeStallsBelowInput and StallAtFullKnob use the value 492 (their bound 66
      is floor(32767 / 492)); the other proofs use only 0 <= ALPHA <= Q15_MAX. */
  const ALPHA: Q15 := 492

  /** amnt: the shaping knob mapped onto a Q15 gain in [0, 1).  It is zero exactly
      when the knob is at its minimum, and full scale at its maximum. */
  function Amount(pot: PotValue): (a: Q15)
    ensures 0 <= a
    ensures a == 0 <==> pot == 0
    ensures pot == POT_MAX ==> a == Q15_MAX
  {
    var a := Map(pot, 0, POT_MAX, 0, 32767);
    AmountZero(pot);
    a
  }

  lemma AmountZero(pot: PotValue)
    ensures Map(pot, 0, POT_MAX, 0, 32767) == 0 <==> pot == 0
  {
    if pot >= 1 {
      AmountPositive(pot);
    }
  }

  lemma AmountPositive(pot: PotValue)
    requires pot >= 1
    ensures Map(pot, 0, POT_MAX, 0, 32767) > 0
  {
    MapIs(pot, 0, POT_MAX, 0, 32767);
    TruncDivIs(pot * 32767, POT_MAX);
    QuotientPositive(pot * 32767, POT_MAX);
  }

  predicate Between(v: int, a: int, b: int)
  {
    (a <= v <= b) || (b <= v <= a)
  }

  /** New envelope state and shaper output for one input sample. */
  datatype ShapeOut = ShapeOut(env: Q15, y: Q15)

  /** TransientShape: the envelope follows x by a fraction ALPHA of the gap
      (never overshooting), and the output adds the scaled transient x - env to x.
      With the knob at zero the output is the input; an input equal to the envelope
      is a fixed point. */
  function Shape(env: Q15, pot: PotValue, x: Q15): (r: ShapeOut)
    ensures pot == 0 ==> r.y == x
    ensures x == env ==> r == ShapeOut(env, x)
    ensures Between(r.env, env, x)
  {
    var amnt := Amount(pot);
    var diff := Sub(x, env);
    var delta := Mult(ALPHA, diff);
    var e := Add(env, delta);
    var tr := Sub(x, e);
    var adj := Mult(amnt, tr);
    ShapeOut(e, Add(x, adj))
  }

  /** With the flooring product, an envelope 1 to 66 units below the input does
      not move: ALPHA times the gap stays below 32768, so the step rounds to 0. */
  lemma {:induction false} EnvelopeStallsBelowInput(env: Q15, pot: PotValue, x: Q15)
    requires 0 < x - env <= 66
    ensures Shape(env, pot, x).env == env
  {
    var diff := Sub(x, env);
    assert diff == x - env;
    ProductIsMul(diff, ALPHA);
    assert Mult(ALPHA, diff) == 0;
  }

  /** At full knob, an envelope stalled 2 to 66 units below an input under the
      maximum leaves the output above the input: the transient x - env is scaled
      by 32767 / 32768 and rounds down to x - env - 1 >= 1. */
  lemma {:induction false} StallAtFullKnob(env: Q15, x: Q15)
    requires 2 <= x - env <= 66 && x < Q15_MAX
    ensures Shape(env, POT_MAX, x).env == env
    ensures Shape(env, POT_MAX, x).y > x
  {
    var r := Shape(env, POT_MAX, x);
    EnvelopeStallsBelowInput(env, POT_MAX, x);
    var d := Sub(x, env);
    assert d == x - env;
    FullGainDropsOne(d);
    assert r.y == Add(x, d - 1);
  }

  /** Full gain 32767 / 32768 takes one unit off a small positive transient. */
  lemma FullGainDropsOne(d: Q15)
    requires 2 <= d <= 66
    ensures Mult(32767, d) == d - 1
  {
    ProductIsMul(d, 32767);
    DivUnique(d * 32767, 32768, d - 1, 32768 - d);
  }

  // ---------------------------------------------------------------------------
  // Density
  // ---------------------------------------------------------------------------

  /** Maximum tap span of density channel j: 4057 + j * 8311. */
  function Span(j: nat): nat
  {
    4057 + j * 8311
  }

  /** kMaxDelay of density channel j, as set up at initialisation. */
  function KMaxDelay(j: nat): nat
  {
    5000 * (j + 2)
  }

  /** The two channels' spans are unequal and each fits its delay line. */
  lemma SpansFitDelayLines()
    ensures Span(0) == 4057 && Span(1) == 12368 && Span(0) != Span(1)
    ensures KMaxDelay(0) == 10000 && KMaxDelay(1) == 15000
    ensures Span(0) <= KMaxDelay(0) && Span(1) <= KMaxDelay(1)
  {
  }

  /** Delay length of channel j: the knob mapped onto [0, ratio * Span(j)], where
      ratio = playback length / full sample length.  It never exceeds the span for
      a region no longer than the sample. */
  function DelayLength(pot: PotValue, playerLen: nat, full: Pos, j: nat): (v: nat)
    ensures playerLen <= full ==> v <= Span(j)
    ensures j < 2 && playerLen <= full ==> v <= KMaxDelay(j)
    ensures pot == 0 || playerLen == 0 ==> v == 0
    ensures pot == POT_MAX && playerLen == full ==> v == Span(j)
  {
    var m := Map(playerLen, 0, full, 0, Span(j));
    Map(pot, 0, POT_MAX, 0, m)
  }

  /** Channel 0's delay is never longer than channel 1's. */
  lemma {:induction false} DelayLengthsOrdered(pot: PotValue, playerLen: nat, full: Pos)
    ensures DelayLength(pot, playerLen, full, 0) <= DelayLength(pot, playerLen, full, 1)
  {
    MapMonotoneInRange(playerLen, full, Span(0), Span(1));
    var m0, m1 := Map(playerLen, 0, full, 0, Span(0)), Map(playerLen, 0, full, 0, Span(1));
    MapMonotoneInRange(pot, POT_MAX, m0, m1);
  }

  /** A channel's delay never shrinks as the density knob rises. */
  lemma {:induction false} DelayLengthMonotoneInKnob(pot0: PotValue, pot1: PotValue, playerLen: nat, full: Pos, j: nat)
    requires pot0 <= pot1
    ensures DelayLength(pot0, playerLen, full, j) <= DelayLength(pot1, playerLen, full, j)
  {
    var m := Map(playerLen, 0, full, 0, Span(j));
    MapMonotoneInInput(pot0, pot1, POT_MAX, m);
  }

  /** The channels' lengths coincide (both zero) when the playback region is
      empty. */
  lemma ChannelsCoincideOnEmptyRegion(pot: PotValue, full: Pos)
    ensures DelayLength(pot, 0, full, 0) == DelayLength(pot, 0, full, 1) == 0
  {
  }

  /** They also coincide for a non-empty region that is short against the whole
      sample: both scaled spans round down to 0, whatever the knob. */
  lemma {:induction false} ChannelsCoincideOnShortRegion(pot: PotValue, playerLen: nat, full: Pos)
    requires playerLen * Span(1) < full
    ensures DelayLength(pot, playerLen, full, 0) == DelayLength(pot, playerLen, full, 1) == 0
  {
    MapIs(playerLen, 0, full, 0, Span(1));
    TruncDivIs(playerLen * Span(1), full);
    MapMonotoneInRange(playerLen, full, Span(0), Span(1));
    assert Map(playerLen, 0, full, 0, Span(0)) == 0;
  }

  /** What one slot's processing reads besides the effect state: the density and
      FX knobs and the two channels' delay lengths, which depend only on the
      density knob and the playback-length ratio. */
  datatype Params = Params(densityPot: PotValue, fxPot: PotValue, tap0: nat, tap1: nat)

  function TapOf(p: Params, j: nat): nat
  {
    if j == 0 then p.tap0 else p.tap1
  }

  /** The parameters as the source derives them, from the knobs, the player's
      current length and the full sample length. */
  function ParamsFor(densityPot: PotValue, fxPot: PotValue, playerLen: nat, full: Pos): (p: Params)
    ensures p.densityPot == densityPot && p.fxPot == fxPot
    ensures forall j :: 0 <= j < 2 ==> TapOf(p, j) == DelayLength(densityPot, playerLen, full, j)
  {
    Params(densityPot, fxPot, DelayLength(densityPot, playerLen, full, 0), DelayLength(densityPot, playerLen, full, 1))
  }

  /** Delay lines together with the slot being built. */
  datatype Slot = Slot(delays: seq<StereoDelay>, frame: Frame)

  /** Saturating sum of a delay line's output onto the slot. */
  function Mix(acc: Frame, d: StereoDelay): Frame
  {
    Frame(Add(acc.left, d.out.left), Add(acc.right, d.out.right))
  }

  /** Channels j .. 1 of the density loop: set both taps of channel j, feed it the
      pre-effect frame, and mix its output onto the slot. */
  function DensityFrom(delays: seq<StereoDelay>, p: Params, pre: Frame, acc: Frame, j: nat): Slot
    requires |delays| == 2 && j <= 2
    decreases 2 - j
  {
    if j == 2 then Slot(delays, acc)
    else
      var v := TapOf(p, j);
      var d := ProcessDelay(SetDelay(delays[j], v, v), pre.left, pre.right);
      DensityFrom(delays[j := d], p, pre, Mix(acc, d), j + 1)
  }

  /** One channel of the density loop, unfolded. */
  lemma DensityFromStep(delays: seq<StereoDelay>, p: Params, pre: Frame, acc: Frame, j: nat)
    requires |delays| == 2 && j < 2
    ensures
      var d := ProcessDelay(SetDelay(delays[j], TapOf(p, j), TapOf(p, j)), pre.left, pre.right);
      DensityFrom(delays, p, pre, acc, j) == DensityFrom(delays[j := d], p, pre, Mix(acc, d), j + 1)
  {
  }

  /** The density stage on one slot.  At or below the deadzone it changes nothing.
      Otherwise both lines get their tap (clamped to the line), both are fed the
      same pre-effect frame, and their outputs are summed onto the slot with
      saturation, channel 0 first; each line's output is its history tapped
      at the line's delay on each side, so the slot gains the delayed signal. */
  function Density(delays: seq<StereoDelay>, p: Params, f: Frame): (r: Slot)
    requires |delays| == 2
    ensures |r.delays| == 2
    ensures p.densityPot <= POT_MIN + 10 ==> r == Slot(delays, f)
    ensures p.densityPot > POT_MIN + 10 ==> forall j :: 0 <= j < 2 ==>
      r.delays[j].history == delays[j].history + [f] &&
      r.delays[j].maxDelay == delays[j].maxDelay &&
      r.delays[j].delayL == ClampDelay(TapOf(p, j), delays[j].maxDelay) &&
      r.delays[j].delayR == r.delays[j].delayL
    ensures p.densityPot > POT_MIN + 10 ==> forall j :: 0 <= j < 2 ==>
      r.delays[j].out == Frame(Tap(r.delays[j].history, r.delays[j].delayL).left,
                               Tap(r.delays[j].history, r.delays[j].delayR).right)
    ensures p.densityPot > POT_MIN + 10 ==> r.frame == Mix(Mix(f, r.delays[0]), r.delays[1])
  {
    if p.densityPot > POT_MIN + 10 then DensityFrom(delays, p, f, f, 0) else Slot(delays, f)
  }

  /** With the lines configured as at initialisation and a region no longer than
      the sample, the clamp never bites: each line's tap is exactly DelayLength. */
  lemma {:induction false} TapsFitLines(delays: seq<StereoDelay>, densityPot: PotValue, fxPot: PotValue,
                                         playerLen: nat, full: Pos, f: Frame)
    requires |delays| == 2 && delays[0].maxDelay == KMaxDelay(0) && delays[1].maxDelay == KMaxDelay(1)
    requires playerLen <= full && densityPot > POT_MIN + 10
    ensures forall j :: 0 <= j < 2 ==>
      Density(delays, ParamsFor(densityPot, fxPot, playerLen, full), f).delays[j].delayL
        == DelayLength(densityPot, playerLen, full, j)
  {
    var p := ParamsFor(densityPot, fxPot, playerLen, full);
    forall j | 0 <= j < 2
      ensures Density(delays, p, f).delays[j].delayL == DelayLength(densityPot, playerLen, full, j)
    {
      assert DelayLength(densityPot, playerLen, full, j) <= KMaxDelay(j);
    }
  }

  // ---------------------------------------------------------------------------
  // One slot: density, then the shaper on left and right with one shared state
  // ---------------------------------------------------------------------------

  /** Effect-core state: the two density lines and the shaper's envelope state_. */
  datatype EffectState = EffectState(delays: seq<StereoDelay>, env: Q15)

  /** What the worker reads besides its own state: the block size and the slot
      parameters. */
  datatype Env = Env(size: nat, params: Params)

  datatype SlotOut = SlotOut(state: EffectState, frame: Frame)

  function SameMaxDelays(a: seq<StereoDelay>, b: seq<StereoDelay>): bool
    requires |a| == 2 && |b| == 2
  {
    a[0].maxDelay == b[0].maxDelay && a[1].maxDelay == b[1].maxDelay
  }

  /** SecondCoreProcess on one slot.  With density bypassed and the FX knob at
      zero the slot is unchanged; with density bypassed and both channels equal to
      the envelope, slot and state are both unchanged (a constant signal is a fixed
      point of the chain). */
  function ProcessSlot(e: EffectState, p: Params, f: Frame): (r: SlotOut)
    requires |e.delays| == 2
    ensures |r.state.delays| == 2 && SameMaxDelays(r.state.delays, e.delays)
    ensures p.densityPot <= POT_MIN + 10 ==> r.state.delays == e.delays
    ensures p.densityPot <= POT_MIN + 10 && p.fxPot == 0 ==> r.frame == f
    ensures p.densityPot <= POT_MIN + 10 && f.left == e.env && f.right == e.env ==> r == SlotOut(e, f)
  {
    var s := Density(e.delays, p, f);
    var sl := Shape(e.env, p.fxPot, s.frame.left);
    var sr := Shape(sl.env, p.fxPot, s.frame.right);
    SlotOut(EffectState(s.delays, sr.env), Frame(sl.y, sr.y))
  }

  /** ProcessSlot in terms of its three stages, each given by its result. */
  lemma ProcessSlotSteps(e: EffectState, p: Params, f: Frame, s: Slot, sl: ShapeOut, sr: ShapeOut)
    requires |e.delays| == 2 && s == Density(e.delays, p, f)
    requires sl == Shape(e.env, p.fxPot, s.frame.left) && sr == Shape(sl.env, p.fxPot, s.frame.right)
    ensures ProcessSlot(e, p, f) == SlotOut(EffectState(s.delays, sr.env), Frame(sl.y, sr.y))
  {
  }

  // ---------------------------------------------------------------------------
  // The worker's message handling
  // ---------------------------------------------------------------------------

  /** Worker state: processed-sample counter, replies sent to the render core,
      effect state and the shared output buffer. */
  datatype Worker = Worker(count: nat, replies: seq<Message>, effect: EffectState, buffer: seq<Q15>)

  /** A request's slot lies inside a buffer of the given length. */
  predicate Fits(m: Message, len: int)
  {
    m.SampleRequest? ==> 2 * m.index + 1 < len
  }

  predicate AllFit(ms: seq<Message>, len: int)
  {
    forall i :: 0 <= i < |ms| ==> Fits(ms[i], len)
  }

  /** Handling of one message.  BEGIN resets the counter and nothing else; a
      request processes its slot (only that slot), counts it, and replies DONE
      exactly when the count reaches the block size; DONE changes nothing. */
  function Step(w: Worker, env: Env, m: Message): (r: Worker)
    requires |w.effect.delays| == 2 && Fits(m, |w.buffer|)
    ensures |r.buffer| == |w.buffer| && |r.effect.delays| == 2
    ensures SameMaxDelays(r.effect.delays, w.effect.delays)
    ensures m == Done ==> r == w
    ensures m == Begin ==> r == w.(count := 0)
    ensures m.SampleRequest? ==> r.count == w.count + 1
    ensures m.SampleRequest? ==> r.replies == w.replies + (if w.count + 1 == env.size then [Done] else [])
    ensures m.SampleRequest? ==> forall k :: 0 <= k < |w.buffer| && k != 2 * m.index && k != 2 * m.index + 1 ==>
      r.buffer[k] == w.buffer[k]
  {
    match m
    case Begin => w.(count := 0)
    case Done => w
    case SampleRequest(i) =>
      var s := ProcessSlot(w.effect, env.params, SlotOf(w.buffer, i));
      var c := w.count + 1;
      Worker(c, if c == env.size then w.replies + [Done] else w.replies, s.state, PutSlot(w.buffer, i, s.frame))
  }

  /** The worker handling a FIFO of messages in order. */
  function Run(w: Worker, env: Env, ms: seq<Message>): (r: Worker)
    requires |w.effect.delays| == 2 && AllFit(ms, |w.buffer|)
    ensures |r.buffer| == |w.buffer| && |r.effect.delays| == 2
    ensures SameMaxDelays(r.effect.delays, w.effect.delays)
    decreases |ms|
  {
    if ms == [] then w else Run(Step(w, env, ms[0]), env, ms[1..])
  }

  /** Run on a non-empty sequence takes one Step first. */
  lemma RunFirst(w: Worker, env: Env, ms: seq<Message>)
    requires |w.effect.delays| == 2 && AllFit(ms, |w.buffer|) && ms != []
    ensures Fits(ms[0], |w.buffer|) && AllFit(ms[1..], |w.buffer|)
    ensures Run(w, env, ms) == Run(Step(w, env, ms[0]), env, ms[1..])
  {
  }

  lemma {:induction false} RunAppend(w: Worker, env: Env, a: seq<Message>, b: seq<Message>)
    requires |w.effect.delays| == 2 && AllFit(a + b, |w.buffer|)
    ensures AllFit(a, |w.buffer|) && AllFit(b, |w.buffer|)
    ensures Run(w, env, a + b) == Run(Run(w, env, a), env, b)
    decreases |a|
  {
    assert forall i :: 0 <= i < |a| ==> (a + b)[i] == a[i];
    assert forall i :: 0 <= i < |b| ==> (a + b)[|a| + i] == b[i];
    if a != [] {
      assert (a + b)[0] == a[0];
      assert (a + b)[1..] == a[1..] + b;
      RunAppend(Step(w, env, a[0]), env, a[1..], b);
    } else {
      assert a + b == b;
    }
  }

  /** Requests handled while the counter stays within the block size: each adds
      one to the counter, whatever its index, and DONE is replied only after the
      request that brings the counter to the block size, right after the last one
      of a block. */
  lemma {:induction false} RequestsRun(w: Worker, env: Env, rs: seq<Message>)
    requires |w.effect.delays| == 2 && AllFit(rs, |w.buffer|)
    requires forall i :: 0 <= i < |rs| ==> rs[i].SampleRequest?
    requires w.count + |rs| <= env.size
    ensures Run(w, env, rs).count == w.count + |rs|
    ensures Run(w, env, rs).replies == w.replies + (if |rs| > 0 && w.count + |rs| == env.size then [Done] else [])
    decreases |rs|
  {
    if rs != [] {
      RunFirst(w, env, rs);
      RequestsRun(Step(w, env, rs[0]), env, rs[1..]);
    }
  }

  /** A whole block: BEGIN resets the counter, it ends at n, and exactly one DONE
      is replied (none when n == 0, where the render core would wait forever). */
  lemma {:induction false} DoneOncePerBlock(w: Worker, env: Env, n: nat)
    requires |w.effect.delays| == 2 && env.size == n && 2 * n <= |w.buffer|
    ensures AllFit(BlockMessages(n), |w.buffer|)
    ensures Run(w, env, BlockMessages(n)).count == n
    ensures Run(w, env, BlockMessages(n)).replies == w.replies + (if n > 0 then [Done] else [])
  {
    var b := BlockMessages(n);
    assert b[1..] == Requests(n);
    RunFirst(w, env, b);
    RequestsRun(Step(w, env, Begin), env, Requests(n));
  }

  /** With density bypassed and the FX knob at zero the worker leaves the whole
      buffer and the delay lines untouched. */
  lemma {:induction false} BypassLeavesBuffer(w: Worker, env: Env, ms: seq<Message>)
    requires |w.effect.delays| == 2 && AllFit(ms, |w.buffer|)
    requires env.params.densityPot <= POT_MIN + 10 && env.params.fxPot == 0
    ensures Run(w, env, ms).buffer == w.buffer
    ensures Run(w, env, ms).effect.delays == w.effect.delays
    decreases |ms|
  {
    if ms != [] {
      StepBypass(w, env, ms[0]);
      var s := Step(w, env, ms[0]);
      assert AllFit(ms[1..], |s.buffer|);
      BypassLeavesBuffer(s, env, ms[1..]);
    }
  }

  lemma StepBypass(w: Worker, env: Env, m: Message)
    requires |w.effect.delays| == 2 && Fits(m, |w.buffer|)
    requires env.params.densityPot <= POT_MIN + 10 && env.params.fxPot == 0
    ensures Step(w, env, m).buffer == w.buffer
    ensures Step(w, env, m).effect.delays == w.effect.delays
  {
    if m.SampleRequest? {
      RequestKeepsBuffer(w, env, m.index);
      RequestKeepsDelays(w, env, m.index);
    }
  }

  lemma RequestKeepsBuffer(w: Worker, env: Env, i: nat)
    requires |w.effect.delays| == 2 && 2 * i + 1 < |w.buffer|
    requires env.params.densityPot <= POT_MIN + 10 && env.params.fxPot == 0
    ensures Step(w, env, SampleRequest(i)).buffer == w.buffer
  {
    SlotBypass(w.effect, env.params, SlotOf(w.buffer, i));
    StepRequest(w, env, i);
    PutSlotSame(w.buffer, i);
  }

  lemma SlotBypass(e: EffectState, p: Params, f: Frame)
    requires |e.delays| == 2 && p.densityPot <= POT_MIN + 10 && p.fxPot == 0
    ensures ProcessSlot(e, p, f).frame == f
  {
  }

  lemma RequestKeepsDelays(w: Worker, env: Env, i: nat)
    requires |w.effect.delays| == 2 && 2 * i + 1 < |w.buffer|
    requires env.params.densityPot <= POT_MIN + 10
    ensures Step(w, env, SampleRequest(i)).effect.delays == w.effect.delays
  {
    StepRequest(w, env, i);
  }

  /** What a request does to the buffer and the effect state, in terms of
      ProcessSlot. */
  lemma StepRequest(w: Worker, env: Env, i: nat)
    requires |w.effect.delays| == 2 && 2 * i + 1 < |w.buffer|
    ensures var o := ProcessSlot(w.effect, env.params, SlotOf(w.buffer, i)); var c := w.count + 1;
      Step(w, env, SampleRequest(i)) == w.(effect := o.state, buffer := PutSlot(w.buffer, i, o.frame)).(count := c,
        replies := if c == env.size then w.replies + [Done] else w.replies)
  {
  }


  /** A slot whose index is never requested keeps its contents. */
  lemma {:induction false} UnrequestedSlotKept(w: Worker, env: Env, ms: seq<Message>, k: nat)
    requires |w.effect.delays| == 2 && AllFit(ms, |w.buffer|) && 2 * k + 1 < |w.buffer|
    requires forall i :: 0 <= i < |ms| ==> ms[i] != SampleRequest(k)
    ensures SlotOf(Run(w, env, ms).buffer, k) == SlotOf(w.buffer, k)
    decreases |ms|
  {
    if ms != [] {
      var s := Step(w, env, ms[0]);
      assert SlotOf(s.buffer, k) == SlotOf(w.buffer, k);
      assert AllFit(ms[1..], |s.buffer|);
      UnrequestedSlotKept(s, env, ms[1..], k);
    }
  }
}
