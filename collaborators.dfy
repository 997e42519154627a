/** Stand-ins for the two DSP objects the engine drives but whose code is not part
    of this model: the 16-bit stereo sample player and the stereo delay line.  Each
    is a value with the operations the engine calls on it; the definitions are the
    simplest ones consistent with how the engine uses them (see README). */
module Collaborators {
  import opened Q15

  datatype Option<T> = None | Some(value: T)

  /** One interleaved stereo sample pair: output[2 * i] and output[2 * i + 1]. */
  datatype Frame = Frame(left: Q15, right: Q15)

  /** Slot i of the interleaved output buffer. */
  function SlotOf(buf: seq<Q15>, i: nat): Frame
    requires 2 * i + 1 < |buf|
  {
    Frame(buf[2 * i], buf[2 * i + 1])
  }

  function PutSlot(buf: seq<Q15>, i: nat, f: Frame): (r: seq<Q15>)
    requires 2 * i + 1 < |buf|
    ensures |r| == |buf| && SlotOf(r, i) == f
    ensures forall k :: 0 <= k < |buf| && k != 2 * i && k != 2 * i + 1 ==> r[k] == buf[k]
  {
    buf[2 * i := f.left][2 * i + 1 := f.right]
  }

  /** Writing a slot back with its own contents changes nothing. */
  lemma PutSlotSame(buf: seq<Q15>, i: nat)
    requires 2 * i + 1 < |buf|
    ensures PutSlot(buf, i, SlotOf(buf, i)) == buf
  {
  }

  /** Writing a slot of a buffer that differs from another only in that slot
      gives the same result for both. */
  lemma SlotOverwrite(a: seq<Q15>, b: seq<Q15>, i: nat, f: Frame)
    requires |a| == |b| && 2 * i + 1 < |a|
    requires forall k :: 0 <= k < |a| && k != 2 * i && k != 2 * i + 1 ==> a[k] == b[k]
    ensures PutSlot(a, i, f) == PutSlot(b, i, f)
  {
    assert forall k :: 0 <= k < |a| ==> PutSlot(a, i, f)[k] == PutSlot(b, i, f)[k];
  }

  /** The loaded sample's frames (samples[sample_]); never empty. */
  type Sample = s: seq<Frame> | |s| > 0 witness [Frame(0, 0)]

  /** Playback state of the sample player: the configured region (start offset,
      length, direction), the speed, the playing flag, the read position inside
      the region and the last frame produced. */
  datatype Player = Player(
    sample: Sample,
    start: int,
    length: nat,
    reverse: bool,
    speed: int,
    playing: bool,
    position: nat,
    out: Frame)

  /** The region is the same in both states (only position, playing, speed and
      output may differ). */
  predicate SameRegion(p: Player, q: Player)
  {
    p.sample == q.sample && p.start == q.start && p.length == q.length && p.reverse == q.reverse
  }

  /** SetSample: the whole sample, forward, stopped. */
  function Load(sample: Sample): (p: Player)
    ensures p.sample == sample && p.start == 0 && p.length == |sample|
    ensures !p.reverse && !p.playing && p.position == 0
  {
    Player(sample, 0, |sample|, false, 0, false, 0, Frame(0, 0))
  }

  /** samples_lengths[sample_]. */
  function FullLength(p: Player): nat
  {
    |p.sample|
  }

  /** Play(): restart from the start of the region. */
  function Play(p: Player): (r: Player)
    ensures SameRegion(r, p) && r.speed == p.speed && r.out == p.out
    ensures r.playing && r.position == 0
  {
    p.(playing := true, position := 0)
  }

  /** Reset(): rewind to the start of the region without changing the playing flag. */
  function Reset(p: Player): (r: Player)
    ensures SameRegion(r, p) && r.speed == p.speed && r.out == p.out && r.playing == p.playing
    ensures r.position == 0
  {
    p.(position := 0)
  }

  function SetStart(p: Player, start: int): Player
  {
    p.(start := start)
  }

  function SetLength(p: Player, length: nat): Player
  {
    p.(length := length)
  }

  function SetReverse(p: Player, reverse: bool): Player
  {
    p.(reverse := reverse)
  }

  function SetSpeed(p: Player, speed: int): Player
  {
    p.(speed := speed)
  }

  /** Index into the sample of the k-th frame of the region, wrapping around the
      end of the sample; a reversed region is read from its last frame. */
  function RegionIndex(p: Player, k: nat): (i: nat)
    ensures i < |p.sample|
  {
    (p.start + (if p.reverse then p.length - 1 - k else k)) % |p.sample|
  }

  /** Process(): emit the frame at the read position and advance; playback stops
      once the end of the region is reached. */
  function Process(p: Player): (r: Player)
    ensures SameRegion(r, p) && r.speed == p.speed
    ensures r.out == p.sample[RegionIndex(p, p.position)]
    ensures r.position == p.position + 1
    ensures r.playing <==> p.position + 1 < p.length
  {
    var i := RegionIndex(p, p.position);
    p.(out := p.sample[i], position := p.position + 1, playing := p.position + 1 < p.length)
  }

  /** The frame produced right after Play() is the first frame of the configured
      region, whatever the position was before. */
  lemma {:induction false} PlayThenProcessStartsRegion(p: Player)
    ensures Process(Play(p)).out == p.sample[RegionIndex(p, 0)]
    ensures !p.reverse ==> Process(Play(p)).out == p.sample[p.start % |p.sample|]
  {
    assert RegionIndex(Play(p), 0) == RegionIndex(p, 0);
  }

  /** A stereo delay line without feedback at full wet: each channel outputs the
      input it was fed `delay` steps earlier (silence before that), and both taps
      are clamped to the line's maximum length. */
  datatype StereoDelay = StereoDelay(
    maxDelay: nat,
    delayL: nat,
    delayR: nat,
    history: seq<Frame>,
    out: Frame)

  function NewDelay(maxDelay: nat): (d: StereoDelay)
    ensures d.maxDelay == maxDelay && d.history == []
  {
    StereoDelay(maxDelay, 0, 0, [], Frame(0, 0))
  }

  function ClampDelay(v: int, maxDelay: nat): (r: nat)
    ensures 0 <= v <= maxDelay ==> r == v
    ensures r <= maxDelay
  {
    if v < 0 then 0 else if v > maxDelay then maxDelay else v
  }

  /** SetDelay(l, r). */
  function SetDelay(d: StereoDelay, l: int, r: int): (e: StereoDelay)
    ensures e.maxDelay == d.maxDelay && e.history == d.history
    ensures e.delayL == ClampDelay(l, d.maxDelay) && e.delayR == ClampDelay(r, d.maxDelay)
  {
    d.(delayL := ClampDelay(l, d.maxDelay), delayR := ClampDelay(r, d.maxDelay))
  }

  /** The input fed n steps before the last one, or silence. */
  function Tap(h: seq<Frame>, n: nat): Frame
  {
    if n < |h| then h[|h| - 1 - n] else Frame(0, 0)
  }

  /** Process(l, r): feed one input frame. */
  function ProcessDelay(d: StereoDelay, l: Q15, r: Q15): (e: StereoDelay)
    ensures e.maxDelay == d.maxDelay && e.delayL == d.delayL && e.delayR == d.delayR
    ensures e.history == d.history + [Frame(l, r)]
    ensures e.out.left == Tap(e.history, d.delayL).left
    ensures e.out.right == Tap(e.history, d.delayR).right
  {
    var h := d.history + [Frame(l, r)];
    d.(history := h, out := Frame(Tap(h, d.delayL).left, Tap(h, d.delayR).right))
  }
}
