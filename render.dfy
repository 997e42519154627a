/** The render core's side of one audio block, as functions of an explicit state:
    rising-edge detection on the combined trigger, the LED that alternates on every
    restart, the per-index gating, the knob-driven region changes and the playback
    step that writes the output buffer.  The imperative AudioLoop in module
    GlazmoApp is proved to compute exactly these. */
module Render {
  import opened Q15
  import opened Mapping
  import opened Collaborators

  // ---------------------------------------------------------------------------
  // LEDs and the trigger edge
  // ---------------------------------------------------------------------------

  /** led_: which of the two LEDs the next colour write goes to. */
  datatype Led = Led1 | Led2

  /** led_ = led_ == LED_1 ? LED_2 : LED_1. */
  function Flip(l: Led): (r: Led)
    ensures r != l
  {
    if l == Led1 then Led2 else Led1
  }

  /** Two flips restore the LED, so it only ever alternates between the two. */
  lemma FlipTwice(l: Led)
    ensures Flip(Flip(l)) == l
  {
  }

  /** The hardware layer selected by the buttons. */
  datatype Layer = Normal | Shift | Settings | Mode

  /** The combined trigger: the trigger jack, or SHIFT held outside the MODE layer. */
  function CombinedTrigger(triggerIn: bool, shiftHeld: bool, layer: Layer): bool
  {
    triggerIn || (shiftHeld && layer != Mode)
  }

  /** What the render core carries from one sample (and one block) to the next. */
  datatype Playback = Playback(player: Player, led: Led)

  /** The block's edge detection: a rising edge (trigger now, not at the previous
      block) restarts playback and flips the LED; otherwise nothing changes. */
  function Edge(s: Playback, prevTrig: bool, trigger: bool): (r: Playback)
    ensures (r.led != s.led) <==> trigger && !prevTrig
    ensures !(trigger && !prevTrig) ==> r == s
    ensures trigger && !prevTrig ==>
      SameRegion(r.player, s.player) && r.player.playing && r.player.position == 0
  {
    if trigger && !prevTrig then Playback(Play(s.player), Flip(s.led)) else s
  }

  /** With prev_trig_ updated to the trigger after every block, a trigger held over
      several blocks fires only in the first of them. */
  lemma {:induction false} HeldTriggerFiresOnce(s: Playback, prevTrig: bool, trigger: bool)
    ensures Edge(Edge(s, prevTrig, trigger), trigger, trigger) == Edge(s, prevTrig, trigger)
    ensures trigger && !prevTrig ==> Edge(s, prevTrig, trigger).led != s.led
  {
    var once := Edge(s, prevTrig, trigger);
    assert !(trigger && !trigger);
    assert Edge(once, trigger, trigger) == once;
  }

  // ---------------------------------------------------------------------------
  // Knob mappings
  // ---------------------------------------------------------------------------

  /** The start offset for a region of the given length:
      map(scrub_, 0, POT_MAX, 0, length - 1).  Over the pot range it stays inside
      the region; the knob's ends give the region's first and last frame. */
  function StartFor(scrub: int, length: nat): (r: int)
    ensures scrub == 0 ==> r == 0
    ensures scrub == POT_MAX ==> r == length - 1
    ensures 1 <= length && 0 <= scrub <= POT_MAX ==> 0 <= r <= length - 1
  {
    Map(scrub, 0, POT_MAX, 0, length - 1)
  }

  /** The playback length for the length knob:
      map(|length_ - POT_HALF|, 0, POT_HALF, 0, full).  The centre gives an empty
      region, 0 and 2 * POT_HALF (one past POT_MAX) the whole sample, and a value
      within [0, 2 * POT_HALF] never more than the whole sample.  The knob's top
      end POT_MAX gives 2047/2048 of the sample, rounded down: less than all of it. */
  function LengthFor(length: int, full: Pos): (r: nat)
    ensures length == POT_HALF ==> r == 0
    ensures length == 0 || length == 2 * POT_HALF ==> r == full
    ensures 0 <= length <= 2 * POT_HALF ==> r <= full
    ensures length == POT_MAX ==> r < full
  {
    if length == POT_MAX then TopLengthShort(full); Map(Abs(length - POT_HALF), 0, POT_HALF, 0, full)
    else Map(Abs(length - POT_HALF), 0, POT_HALF, 0, full)
  }

  /** map(POT_MAX - POT_HALF, 0, POT_HALF, 0, full) = floor(2047 * full / 2048),
      which stays below full. */
  lemma TopLengthShort(full: Pos)
    ensures Map(POT_MAX - POT_HALF, 0, POT_HALF, 0, full) < full
  {
    MapIs(POT_MAX - POT_HALF, 0, POT_HALF, 0, full);
    TruncDivIs(2047 * full, 2048);
    var q := (2047 * full) / 2048;
    assert 2048 * q <= 2047 * full;
  }

  /** The direction is reversed exactly when the length knob is below its centre. */
  function ReverseFor(lengthPot: PotValue): bool
  {
    lengthPot < POT_HALF
  }

  // ---------------------------------------------------------------------------
  // One sample index
  // ---------------------------------------------------------------------------

  /** The block's control values: the autoplay setting, scrub_, length_ and
      pitch_ as the UI loop left them, and the smoothed LENGTH pot. */
  datatype Controls = Controls(autoplay: bool, scrub: int, length: int, lengthPot: PotValue, speed: int)

  /** What the hardware reports at one sample index: the trigger jack and whether
      the SCRUB and LENGTH pots have moved. */
  datatype SampleIn = SampleIn(triggerIn: bool, scrubMoved: bool, lengthMoved: bool)

  /** An index is gated (skipped, though still requested from the effect core)
      when autoplay is off and the trigger jack is low. */
  predicate Gated(c: Controls, x: SampleIn)
  {
    !c.autoplay && !x.triggerIn
  }

  function ScrubMoved(s: Playback, c: Controls): (r: Playback)
    ensures SameRegion(r.player, s.player.(start := r.player.start))
    ensures r.player.start == StartFor(c.scrub, s.player.length)
    ensures r.player.position == 0 && r.player.playing == s.player.playing
    ensures r.led == Flip(s.led)
  {
    var p := Reset(s.player);
    Playback(SetStart(p, StartFor(c.scrub, p.length)), Flip(s.led))
  }

  function LengthMoved(p: Player, c: Controls): (r: Player)
    ensures r.sample == p.sample && r.position == p.position && r.playing == p.playing
    ensures r.reverse == ReverseFor(c.lengthPot)
    ensures r.length == LengthFor(c.length, FullLength(p))
    ensures r.start == StartFor(c.scrub, r.length)
  {
    var q := SetLength(SetReverse(p, ReverseFor(c.lengthPot)), LengthFor(c.length, FullLength(p)));
    SetStart(q, StartFor(c.scrub, q.length))
  }

  /** The knob handling of one ungated index: the speed is set, a moved scrub knob
      rewinds the player and moves the start offset, a moved length knob sets the
      direction and the length and moves the start offset to match.  The LED flips
      only for the scrub knob.  When neither knob moved only the speed changes. */
  function Knobs(s: Playback, c: Controls, x: SampleIn): (r: Playback)
    ensures r.player.sample == s.player.sample && r.player.speed == c.speed
    ensures r.player.playing == s.player.playing
    ensures r.led == (if x.scrubMoved then Flip(s.led) else s.led)
    ensures x.scrubMoved ==> r.player.position == 0
    ensures !x.scrubMoved ==> r.player.position == s.player.position
    ensures x.lengthMoved ==>
      r.player.reverse == ReverseFor(c.lengthPot) &&
      r.player.length == LengthFor(c.length, FullLength(s.player)) &&
      r.player.start == StartFor(c.scrub, r.player.length)
    ensures !x.lengthMoved && x.scrubMoved ==>
      SameRegion(r.player, s.player.(start := r.player.start)) &&
      r.player.start == StartFor(c.scrub, s.player.length)
    ensures !x.lengthMoved && !x.scrubMoved ==> r == s.(player := s.player.(speed := c.speed))
  {
    var s1 := s.(player := SetSpeed(s.player, c.speed));
    var s2 := if x.scrubMoved then ScrubMoved(s1, c) else s1;
    if x.lengthMoved then s2.(player := LengthMoved(s2.player, c)) else s2
  }

  /** Result of one index: the new state, and the frame written to the index's
      slot (None when the slot is left as it was). */
  datatype StepOut = StepOut(state: Playback, written: Option<Frame>)

  /** The playback step: a playing player produces its next frame, which is
      written to the slot; a stopped one is restarted, the LED flips and the slot
      is not written, so the loop restarts by itself. */
  function Advance(s: Playback): (r: StepOut)
    ensures s.player.playing ==>
      r.state.led == s.led &&
      r.written == Some(s.player.sample[RegionIndex(s.player, s.player.position)]) &&
      SameRegion(r.state.player, s.player) && r.state.player.position == s.player.position + 1
    ensures !s.player.playing ==>
      r.written == None && r.state.led == Flip(s.led) &&
      SameRegion(r.state.player, s.player) && r.state.player.playing && r.state.player.position == 0
  {
    if s.player.playing then
      var p := Process(s.player);
      StepOut(s.(player := p), Some(p.out))
    else
      StepOut(Playback(Play(s.player), Flip(s.led)), None)
  }

  /** After a restart, the next playback step writes the region's first frame. */
  lemma {:induction false} RestartWritesFirstFrame(s: Playback)
    requires !s.player.playing
    ensures Advance(Advance(s).state).written == Some(s.player.sample[RegionIndex(s.player, 0)])
  {
    PlayThenProcessStartsRegion(s.player);
  }

  /** One index of the render loop.  A gated index changes nothing and writes
      nothing. */
  function SampleStep(s: Playback, c: Controls, x: SampleIn): (r: StepOut)
    ensures r.state.player.sample == s.player.sample
    ensures Gated(c, x) ==> r == StepOut(s, None)
    ensures !Gated(c, x) && !x.scrubMoved && !x.lengthMoved && s.player.playing ==>
      r.written == Some(s.player.sample[RegionIndex(s.player, s.player.position)])
  {
    if Gated(c, x) then StepOut(s, None) else Advance(Knobs(s, c, x))
  }

  // ---------------------------------------------------------------------------
  // The render loop over a block
  // ---------------------------------------------------------------------------

  datatype Block = Block(state: Playback, buffer: seq<Q15>)

  function Write(buf: seq<Q15>, i: nat, w: Option<Frame>): (r: seq<Q15>)
    requires 2 * i + 1 < |buf|
    ensures |r| == |buf|
    ensures forall k :: 0 <= k < |buf| && k != 2 * i && k != 2 * i + 1 ==> r[k] == buf[k]
  {
    match w
    case None => buf
    case Some(f) => PutSlot(buf, i, f)
  }

  /** The render loop after its first k indices. */
  function RenderUpTo(s: Playback, c: Controls, ins: seq<SampleIn>, buf: seq<Q15>, k: nat): (r: Block)
    requires k <= |ins| && 2 * |ins| <= |buf|
    ensures |r.buffer| == |buf| && r.state.player.sample == s.player.sample
    decreases k
  {
    if k == 0 then Block(s, buf)
    else
      var b := RenderUpTo(s, c, ins, buf, k - 1);
      var o := SampleStep(b.state, c, ins[k - 1]);
      Block(o.state, Write(b.buffer, k - 1, o.written))
  }

  /** The playback state in front of index k. */
  function StateAt(s: Playback, c: Controls, ins: seq<SampleIn>, buf: seq<Q15>, k: nat): Playback
    requires k <= |ins| && 2 * |ins| <= |buf|
  {
    RenderUpTo(s, c, ins, buf, k).state
  }

  /** What index k writes to its slot. */
  function WrittenAt(s: Playback, c: Controls, ins: seq<SampleIn>, buf: seq<Q15>, k: nat): Option<Frame>
    requires k < |ins| && 2 * |ins| <= |buf|
  {
    SampleStep(StateAt(s, c, ins, buf, k), c, ins[k]).written
  }

  /** A block in which every index is gated leaves the player, the LED and the
      whole buffer as they were. */
  lemma {:induction false} GatedBlockUnchanged(s: Playback, c: Controls, ins: seq<SampleIn>, buf: seq<Q15>, k: nat)
    requires k <= |ins| && 2 * |ins| <= |buf|
    requires forall i :: 0 <= i < |ins| ==> Gated(c, ins[i])
    ensures RenderUpTo(s, c, ins, buf, k) == Block(s, buf)
    decreases k
  {
    if k > 0 {
      GatedBlockUnchanged(s, c, ins, buf, k - 1);
      assert Gated(c, ins[k - 1]);
    }
  }

  /** Slots at or beyond index k are untouched by the first k indices. */
  lemma {:induction false} LaterSlotsUntouched(s: Playback, c: Controls, ins: seq<SampleIn>, buf: seq<Q15>, k: nat, j: nat)
    requires k <= j < |ins| && 2 * |ins| <= |buf|
    ensures SlotOf(RenderUpTo(s, c, ins, buf, k).buffer, j) == SlotOf(buf, j)
    decreases k
  {
    if k > 0 {
      LaterSlotsUntouched(s, c, ins, buf, k - 1, j);
    }
  }

  /** After indices 0 .. n-1, slot k (k < n) holds what index k wrote, or its old
      contents when index k wrote nothing (gated, or restarting the player). */
  lemma {:induction false} SlotAt(s: Playback, c: Controls, ins: seq<SampleIn>, buf: seq<Q15>, n: nat, k: nat)
    requires k < n <= |ins| && 2 * |ins| <= |buf|
    ensures SlotOf(RenderUpTo(s, c, ins, buf, n).buffer, k) ==
      match WrittenAt(s, c, ins, buf, k)
      case None => SlotOf(buf, k)
      case Some(f) => f
    decreases n
  {
    if n == k + 1 {
      LaterSlotsUntouched(s, c, ins, buf, k, k);
    } else {
      SlotAt(s, c, ins, buf, n - 1, k);
    }
  }
}
