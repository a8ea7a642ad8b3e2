/** A run of l2fwd-1link in which a packet leaves with its addresses as they came: a burst fills the deque
    while one entry is still on the Tx ring, the ring refuses the batch, and the next packet received has the
    whole deque swapped again. */
module SwappedTwice {
  import opened Frames
  import opened LinkState
  import opened MacSwap
  import opened OneLink
  import opened MacParity
  import opened OneLinkLoop
  import opened OneLinkRun
  import opened OneLinkMoves
  import Forwarding

  const BATCH: nat := 2048
  const BUF_NUM: nat := 8192
  const BUF_LEN: ChunkLen := 2048

  /** A frame with two different addresses in front. */
  function Marked(): (r: seq<byte>)
    ensures |r| == BUF_LEN - RESERVED
  {
    seq(BUF_LEN - RESERVED, i => if i < 6 then 1 else 0)
  }

  /** The second packet leaves as it came, not swapped. */
  ghost predicate LeftUnswapped(n: Swapper) {
    var k := n.Link().k;
    && 1 < |k.wire| && 1 < |k.arrived| && 1 < |k.rxLog| && k.rxLog[1].len == 64 && k.arrived[1] == Marked()
    && k.wire[1] == k.arrived[1][..64] && k.wire[1] != SwapMac(k.arrived[1])[..64]
  }

  /** "Every packet leaves swapped exactly once" is false: three passes from the start, after which the second
      packet leaves as it came. */
  lemma ARunThatBreaksIt() returns (run: seq<Swapper>, marks: seq<nat>, passes: seq<OnePass>)
    ensures run != [] && run[0] == StartSwapper(BUF_NUM, BUF_LEN, BATCH)
    ensures |passes| == 3 && Paced(run, marks, passes)
    ensures LeftUnswapped(run[|run| - 1])
  {
    hide IsRun, OnePassed, Paced, Refused, Marked;
    var before, ms, xs := FullDeque(BUF_NUM, BUF_LEN, BATCH, 64, Marked());
    PacedRun(before, ms, xs);
    var third, x := OneMore(before);
    PacedOn(before, ms, xs, third, x);
    marks, passes := ms + [|third| - 1], xs + [x];
    run := SecondPacket(third);
    PacedStays(third, marks, passes, run);
  }

  /** One more was received and the whole deque swapped again; then the ring took a batch. */
  ghost predicate SentTwiceSwapped(n: Swapper) {
    var s := n.Link();
    && n.at == Receiving && n.batch == BATCH && n.facts == AreaFacts(BUF_NUM, BUF_LEN)
    && s.cfg == Forwarding.RingConfig(BUF_LEN)
    && |s.p.sent| == 2049 && s.k.txTaken == |s.k.wire| == 1 && |n.stays| == 2050 && n.stays[1] == 2
    && |s.k.flight| == 1 && s.k.compLog == [] && s.p.compTaken == 0
    && |s.k.arrived| == |s.k.rxLog| == 2050 && s.k.arrived[1] == Marked() && s.k.rxLog[1].len == 64
  }

  lemma OneMore(run: seq<Swapper>) returns (more: seq<Swapper>, x: OnePass)
    requires run != [] && IsRun(run) && Refused(run[|run| - 1], BUF_NUM, BUF_LEN, BATCH, 64, Marked())
    ensures Continues(run, more) && SentTwiceSwapped(more[|more| - 1])
    ensures OnePassed(run[|run| - 1].one, x, more[|more| - 1].one, AreaFacts(BUF_NUM, BUF_LEN), BATCH)
  {
    hide IsRun, Marked, OneTurn, OneService, OneReceive, OneForward, OneFill;
    hide ServesEnough, ReceivesEnough, ForwardsEnough, ReceivesShown, CompGrants;
    var n := run[|run| - 1];
    var r1 := Transmit(run);
    var r2, serviced := Burst(r1, 1, 64, Marked());
    var r3 := Send(r2, 2048);
    more := Fill(r3, 1);
    Extend(run, r1, r2);
    Extend(run, r2, r3);
    Extend(run, r3, more);
    TurnOn(n.one, r1[|r1| - 1].one, serviced);
    ServedNothing(run, serviced);
    x := OnePass(serviced, r2[|r2| - 1].one, r3[|r3| - 1].one, 0, 1, 2048, 1);
  }

  lemma SecondPacket(run: seq<Swapper>) returns (more: seq<Swapper>)
    requires run != [] && IsRun(run) && SentTwiceSwapped(run[|run| - 1])
    ensures Continues(run, more) && LeftUnswapped(more[|more| - 1])
  {
    hide IsRun, SwapTimes, Tracked;
    more := Transmit(run);
    EveryRunSwaps(more, |more| - 1);
    var n := more[|more| - 1];
    assert LeftAs(n, 1);
    var b := Marked();
    assert SwapMac(b)[..64][0] == b[6] == 0 && b[..64][0] == 1;
  }
}
