/** The inter-core messages and the per-block message sequence the render core
    sends.  The mailbox itself (capacity, blocking) is not part of this model: the
    channel is a FIFO `seq<Message>` that the engine's methods append to and
    consume from. */
module MultiCore {

  datatype Message = Begin | SampleRequest(index: nat) | Done

  /** SAMPLE_REQUEST(i) for i = 0 .. n-1, in ascending order. */
  function Requests(n: nat): (r: seq<Message>)
    ensures |r| == n
    ensures forall i :: 0 <= i < n ==> r[i] == SampleRequest(i)
  {
    if n == 0 then [] else Requests(n - 1) + [SampleRequest(n - 1)]
  }

  /** What one render block sends: BEGIN, then one request per index, ascending. */
  function BlockMessages(n: nat): (r: seq<Message>)
    ensures |r| == n + 1 && r[0] == Begin
    ensures forall i :: 1 <= i <= n ==> r[i] == SampleRequest(i - 1)
  {
    [Begin] + Requests(n)
  }

  /** Number of messages of kind `Done` in a sequence. */
  function CountDone(ms: seq<Message>): nat
  {
    if ms == [] then 0 else CountDone(ms[..|ms| - 1]) + (if ms[|ms| - 1] == Done then 1 else 0)
  }

  /** A render block contains exactly one BEGIN (at its head), each index is
      requested exactly once, and it never carries a DONE. */
  lemma {:induction false} BlockShape(n: nat)
    ensures forall i :: 0 <= i <= n ==> (BlockMessages(n)[i] == Begin <==> i == 0)
    ensures forall i, j :: 1 <= i <= n && 1 <= j <= n && BlockMessages(n)[i] == BlockMessages(n)[j] ==> i == j
    ensures CountDone(BlockMessages(n)) == 0
  {
    var b := BlockMessages(n);
    NoDone(b, |b|);
    assert b[..|b|] == b;
  }

  lemma {:induction false} NoDone(ms: seq<Message>, k: nat)
    requires k <= |ms|
    requires forall i :: 0 <= i < |ms| ==> ms[i] != Done
    ensures CountDone(ms[..k]) == 0
  {
    if k > 0 {
      assert ms[..k][..k - 1] == ms[..k - 1];
      NoDone(ms, k - 1);
    }
  }
}
