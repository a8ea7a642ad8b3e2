/** When l2fwd-1link drains. Take any area, any batch size, any number of passes from the start with anything
    arriving, and let the wire fall silent while the kernel goes on transmitting. Whether everything received
    then leaves depends on the number of buffers and the batch size alone, and exactly as Drainable says. */
module DrainsExactly {
  import opened Bits
  import opened Frames
  import opened LinkState
  import opened Forwarding
  import opened OneLink
  import opened MacSwap
  import opened MacParity
  import opened OneLinkLoop
  import opened OneLinkRun
  import opened OneLinkMoves
  import opened OneLinkDrain
  import ForwardDrain

  /** Loop heads one pass after the other; then the wire falls silent, and rounds of the loop with a
      transmitting kernel: the states between the rounds, and those where the kernel has transmitted. */
  datatype Journey = Journey(heads: seq<One>, passes: seq<OnePass>,
                             states: seq<One>, mids: seq<One>, rounds: seq<OnePass>)

  ghost predicate Passes(heads: seq<One>, passes: seq<OnePass>, f: Facts, batch: nat) {
    && |heads| == |passes| + 1
    && forall i :: 0 <= i < |passes| ==> OnePassed(heads[i], passes[i], heads[i + 1], f, batch)
  }

  /** The initial fill is done, and the kernel may have moved since. */
  ghost predicate Begins(n: One, f: Facts) {
    Kept(n, f) && n.lane.pending == []
  }

  ghost predicate IsJourney(j: Journey, f: Facts, batch: nat) {
    && Passes(j.heads, j.passes, f, batch) && Begins(j.heads[0], f)
    && Rounds(j.states, j.mids, j.rounds, f, batch)
    && OneTurn(j.heads[|j.passes|], j.states[0]) && Silent(j.states[0])
  }

  /** Whatever happens before the wire falls silent and whatever the kernel does, nine rounds per buffer drain
      the program. */
  ghost predicate Drains(bufNum: nat, bufLen: ChunkLen, batch: nat) {
    forall j: Journey :: IsJourney(j, AreaFacts(bufNum, bufLen), batch) && |j.rounds| >= 9 * bufNum ==>
      Drained(j.states[|j.rounds|])
  }

  lemma HeadsCount(heads: seq<One>, passes: seq<OnePass>, f: Facts, batch: nat)
    requires Passes(heads, passes, f, batch)
    ensures |heads| == |passes| + 1
  {
    hide OnePassed;
  }

  lemma {:induction false} PassesUnwedged(heads: seq<One>, passes: seq<OnePass>, f: Facts, batch: nat, i: nat)
    requires Passes(heads, passes, f, batch) && i < |heads|
    requires Kept(heads[0], f) && Unwedged(heads[0], f, batch)
    ensures Kept(heads[i], f) && Unwedged(heads[i], f, batch)
  {
    hide Kept, OnePassed, Unwedged;
    if i > 0 {
      PassesUnwedged(heads, passes, f, batch, i - 1);
      assert OnePassed(heads[i - 1], passes[i - 1], heads[i - 1 + 1], f, batch);
      PassUnwedged(heads[i - 1], passes[i - 1], heads[i], f, batch);
    }
  }

  lemma {:induction false} RoundsUnwedged(states: seq<One>, mids: seq<One>, passes: seq<OnePass>, f: Facts,
                                          batch: nat, i: nat)
    requires Rounds(states, mids, passes, f, batch) && i < |states|
    requires Kept(states[0], f) && Unwedged(states[0], f, batch)
    ensures Kept(states[i], f) && Unwedged(states[i], f, batch)
  {
    hide Kept, OnePassed, OneTurn, Unwedged, ForwardDrain.Transmitted;
    if i > 0 {
      RoundsUnwedged(states, mids, passes, f, batch, i - 1);
      assert Round(states[i - 1], mids[i - 1], passes[i - 1], states[i - 1 + 1], f, batch);
      TurnUnwedged(states[i - 1], mids[i - 1], f, batch);
      PassUnwedged(mids[i - 1], passes[i - 1], states[i], f, batch);
    }
  }

  lemma BeginsUnwedged(n: One, f: Facts, batch: nat)
    requires Begins(n, f) && (batch > RING_SIZE ==> |f.owned| <= RING_SIZE + 1)
    ensures Kept(n, f) && Unwedged(n, f, batch)
  {
    KeptLink(n, f);
  }

  lemma DrainableDrains(bufNum: nat, bufLen: ChunkLen, batch: nat, j: Journey)
    requires Drainable(bufNum, batch) && IsJourney(j, AreaFacts(bufNum, bufLen), batch) && |j.rounds| >= 9 * bufNum
    ensures Drained(j.states[|j.rounds|])
  {
    hide Kept, Passes, Rounds, OneTurn, Unwedged, Drained, Load, Silent, AreaFacts, Ended;
    var f, n := AreaFacts(bufNum, bufLen), |j.rounds|;
    AreaOwns(bufNum, bufLen);
    JourneySizes(j, f, batch);
    BeginsUnwedged(j.heads[0], f, batch);
    PassesUnwedged(j.heads, j.passes, f, batch, |j.passes|);
    TurnUnwedged(j.heads[|j.passes|], j.states[0], f, batch);
    RoundsUnwedged(j.states, j.mids, j.rounds, f, batch, n);
    if bufNum == 0 {
      EmptyDrained(j.states[n], f);
    } else {
      LoadBounded(j.states[0], f);
      RoundsEnd(j.states, j.mids, j.rounds, f, batch, n);
      UnwedgedDrained(j.states[n], f, batch);
    }
  }

  lemma JourneySizes(j: Journey, f: Facts, batch: nat)
    requires IsJourney(j, f, batch)
    ensures |j.heads| == |j.passes| + 1 && |j.states| == |j.mids| + 1 == |j.rounds| + 1
  {
    hide OnePassed, Round, OneTurn, Begins;
  }

  // When a program does not drain.

  /** A round in which nothing happens. */
  ghost predicate Still(n: One, f: Facts, batch: nat) {
    Round(n, n, OnePass(n, n, n, 0, 0, 0, 0), n, f, batch)
  }

  /** Standing still for ever is a journey. */
  lemma StillJourney(heads: seq<One>, passes: seq<OnePass>, n: One, f: Facts, batch: nat, rounds: nat)
    returns (j: Journey)
    requires Passes(heads, passes, f, batch) && Begins(heads[0], f)
    requires OneTurn(heads[|passes|], n) && Silent(n) && Still(n, f, batch)
    ensures IsJourney(j, f, batch) && |j.rounds| == rounds && j.states[rounds] == n
  {
    hide Passes, OneTurn, Round, Silent, Begins;
    j := Journey(heads, passes, seq(rounds + 1, _ => n), seq(rounds, _ => n),
                 seq(rounds, _ => OnePass(n, n, n, 0, 0, 0, 0)));
  }

  /** The loop heads of a run. */
  lemma HeadsOf(run: seq<Swapper>, marks: seq<nat>, passes: seq<OnePass>) returns (heads: seq<One>)
    requires Paced(run, marks, passes)
    ensures run != [] && |marks| == |passes| + 1 && marks[|passes|] < |run|
    ensures Passes(heads, passes, run[0].facts, run[0].batch) && Begins(heads[0], run[0].facts)
    ensures heads[|passes|] == run[marks[|passes|]].one
  {
    hide OnePassed, Kept;
    heads := seq(|marks|, i requires 0 <= i < |marks| => run[marks[i]].one);
  }

  /** With batch size zero nothing is ever received. */
  lemma BatchZero(bufNum: nat, bufLen: ChunkLen, rounds: nat) returns (j: Journey)
    requires bufNum > 0 && bufLen >= RESERVED + 12
    ensures IsJourney(j, AreaFacts(bufNum, bufLen), 0) && |j.rounds| == rounds && !Drained(j.states[rounds])
  {
    hide IsRun, OneTurn, Passes, Begins, Round, Paced, OnePassed;
    var run, x := PacketLeft(bufNum, bufLen);
    PacedRun(run, [0, |run| - 1], [x]);
    var heads := HeadsOf(run, [0, |run| - 1], [x]);
    var last := Hushed(run);
    StillNow(last);
    j := StillJourney(heads, [x], last[|last| - 1].one, AreaFacts(bufNum, bufLen), 0, rounds);
  }

  /** The program looked at the Rx ring, saw a packet and had to leave it there. */
  ghost predicate LeftThere(n: Swapper, bufNum: nat, bufLen: ChunkLen) {
    var s := n.Link();
    && n.at == Receiving && n.batch == 0 && n.facts == AreaFacts(bufNum, bufLen)
    && n.one.lane.pending == [] && n.one.lane.deficit == 0
    && s.p.rxTaken == 0 && s.p.rxSeen == |s.k.rxLog| == 1
    && s.p.sent == [] && s.k.txTaken == 0 && s.k.flight == [] && s.k.compLog == [] && s.p.compTaken == 0
  }

  /** The first pass with batch size zero, in which a packet arrives. */
  lemma PacketLeft(bufNum: nat, bufLen: ChunkLen) returns (run: seq<Swapper>, x: OnePass)
    requires bufNum > 0 && bufLen >= RESERVED + 12
    ensures run != [] && run[0] == StartSwapper(bufNum, bufLen, 0)
    ensures Paced(run, [0, |run| - 1], [x]) && LeftThere(run[|run| - 1], bufNum, bufLen)
  {
    hide IsRun, Fresh, OneTurn, OneService, OneReceive, OneForward, OneFill, Paced;
    hide ServesEnough, ReceivesEnough, ForwardsEnough, ReceivesShown, CompGrants;
    var n := StartSwapper(bufNum, bufLen, 0);
    StartsFresh(bufNum, bufLen, 0);
    SingletonRun([n]);
    var r1 := Packet([n], 12, seq(bufLen - RESERVED, _ => 0));
    ServedNothing([n], r1[|r1| - 1].one);
    var r2 := LookOnly(r1);
    var r3 := SendNothing(r2);
    run := Fill(r3, 0);
    Extend([n], r1, r2);
    Extend([n], r2, r3);
    Extend([n], r3, run);
    x := OnePass(r1[|r1| - 1].one, r2[|r2| - 1].one, r3[|r3| - 1].one, 0, 0, 0, 0);
    NoPass([n]);
    PacedOn([n], [0], [], run, x);
    assert [0] + [|run| - 1] == [0, |run| - 1] && [] + [x] == [x];
  }

  /** A program that finds nothing to do stands still. */
  lemma StillNow(run: seq<Swapper>)
    requires run != [] && IsRun(run)
    requires var l := run[|run| - 1];
      && ServesEnough(l.one, 0, l.batch) && ReceivesEnough(l.one, 0, l.batch) && ForwardsEnough(l.one, 0, l.batch)
      && (l.one.bufs == [] || l.one.lane.deficit == 0) && ForwardDrain.Transmitted(l.Link())
      && |l.Link().k.compLog| <= l.Link().p.compTaken && ReceivesShown(l.one, l.one, 0, l.batch)
    ensures Still(run[|run| - 1].one, run[|run| - 1].facts, run[|run| - 1].batch)
  {
    hide IsRun, Tracked, Kept, LinkInv, OneService, OneReceive, OneForward, OneFill;
    hide ServesEnough, ReceivesEnough, ForwardsEnough, ForwardDrain.Transmitted, ReceivesShown, CompGrants;
    NothingFound(run);
    Known(run);
    TurnReflexive(run[|run| - 1].one);
    NothingOwed(run[|run| - 1].one, run[|run| - 1].one, run[|run| - 1].batch);
  }

  /** The deque is too long for the Tx ring, and the first frame sent is on the completion ring. */
  ghost predicate Crammed(n: Swapper, bufNum: nat, bufLen: ChunkLen, batch: nat) {
    var s := n.Link();
    && n.at == Receiving && n.batch == batch && n.facts == AreaFacts(bufNum, bufLen)
    && s.cfg == RingConfig(bufLen) && |n.one.lane.pending| == 2049
    && s.p.rxTaken == |s.k.rxLog| && |s.p.sent| == s.k.txTaken == 1
    && s.k.flight == [] && |s.k.compLog| == 1 && s.p.compTaken == s.p.compSeen == 0
  }

  lemma CrammedPass(run: seq<Swapper>, bufNum: nat, bufLen: ChunkLen, batch: nat, len: nat, bytes: seq<byte>)
    returns (more: seq<Swapper>, x: OnePass)
    requires bufNum >= 2050 && bufLen >= RESERVED + 12 && batch > 2048 && len <= |bytes| == bufLen - RESERVED
    requires run != [] && IsRun(run) && Refused(run[|run| - 1], bufNum, bufLen, batch, len, bytes)
    ensures Continues(run, more) && Crammed(more[|more| - 1], bufNum, bufLen, batch)
    ensures OnePassed(run[|run| - 1].one, x, more[|more| - 1].one, AreaFacts(bufNum, bufLen), batch)
  {
    hide IsRun, OneTurn, OneService, OneReceive, OneForward, OneFill;
    hide ServesEnough, ReceivesEnough, ForwardsEnough, ReceivesShown, CompGrants;
    var n := run[|run| - 1];
    SeenAll(run);
    var r1 := Transmit(run);
    var r2 := Complete(r1);
    var r3, serviced := Burst(r2, 1, len, bytes);
    var r4 := Refuse(r3);
    var q := r4[|r4| - 1].one;
    var k := Min(|q.bufs|, q.lane.deficit);
    more := Fill(r4, k);
    Extend(run, r1, r2);
    Extend(run, r2, r3);
    Extend(run, r3, r4);
    Extend(run, r4, more);
    TurnOn(n.one, r1[|r1| - 1].one, r2[|r2| - 1].one);
    TurnOn(n.one, r2[|r2| - 1].one, serviced);
    ServedNothing(run, serviced);
    x := OnePass(serviced, r3[|r3| - 1].one, q, 0, 1, 0, k);
  }

  /** Nothing is left but a deque that is too long. */
  ghost predicate OnlyCrammed(n: Swapper, bufNum: nat, bufLen: ChunkLen, batch: nat) {
    var s := n.Link();
    && n.at == Receiving && n.batch == batch && n.facts == AreaFacts(bufNum, bufLen)
    && s.cfg == RingConfig(bufLen) && |n.one.lane.pending| == 2049
    && s.p.rxTaken == |s.k.rxLog| && |s.p.sent| == s.k.txTaken == 1
    && s.k.flight == [] && |s.k.compLog| == 1 && s.p.compTaken == 1
    && (n.one.bufs == [] || n.one.lane.deficit == 0)
  }

  lemma LastPass(run: seq<Swapper>, bufNum: nat, bufLen: ChunkLen, batch: nat)
    returns (more: seq<Swapper>, x: OnePass)
    requires batch > 2048 && run != [] && IsRun(run) && Crammed(run[|run| - 1], bufNum, bufLen, batch)
    ensures Continues(run, more) && OnlyCrammed(more[|more| - 1], bufNum, bufLen, batch)
    ensures OnePassed(run[|run| - 1].one, x, more[|more| - 1].one, AreaFacts(bufNum, bufLen), batch)
  {
    hide IsRun, OneService, OneReceive, OneForward, OneFill, ServesEnough, ReceivesEnough, ForwardsEnough;
    hide ReceivesShown, CompGrants;
    var r1 := Serve(run, 1);
    var r2 := FindNothing(r1);
    var r3 := Refuse(r2);
    var q := r3[|r3| - 1].one;
    var k := Min(|q.bufs|, q.lane.deficit);
    more := Fill(r3, k);
    Extend(run, r1, r2);
    Extend(run, r2, r3);
    Extend(run, r3, more);
    x := OnePass(r1[|r1| - 1].one, r2[|r2| - 1].one, q, 1, 0, 0, k);
  }

  /** A run from the start whose deque never empties again. */
  lemma WedgedRun(bufNum: nat, bufLen: ChunkLen, batch: nat)
    returns (run: seq<Swapper>, marks: seq<nat>, passes: seq<OnePass>)
    requires bufNum >= 2050 && bufLen >= RESERVED + 12 && batch > 2048
    ensures run != [] && run[0] == StartSwapper(bufNum, bufLen, batch)
    ensures |passes| == 4 && Paced(run, marks, passes) && marks[4] == |run| - 1
    ensures OnlyCrammed(run[|run| - 1], bufNum, bufLen, batch)
  {
    hide IsRun, OnePassed, Paced, Refused, AreaFacts;
    var bytes: seq<byte> := seq(bufLen - RESERVED, _ => 0);
    var r2, ms, xs := FullDeque(bufNum, bufLen, batch, 12, bytes);
    PacedRun(r2, ms, xs);
    var r3, x3 := CrammedPass(r2, bufNum, bufLen, batch, 12, bytes);
    PacedOn(r2, ms, xs, r3, x3);
    var r4, x4 := LastPass(r3, bufNum, bufLen, batch);
    PacedOn(r3, ms + [|r3| - 1], xs + [x3], r4, x4);
    run, marks, passes := r4, ms + [|r3| - 1] + [|r4| - 1], xs + [x3] + [x4];
  }

  /** With a batch size above the Tx ring's and two frames more than the ring has slots, the deque can come to
      hold more than the ring, and then it is refused for ever. */
  lemma BatchTooLarge(bufNum: nat, bufLen: ChunkLen, batch: nat, rounds: nat) returns (j: Journey)
    requires bufNum >= RING_SIZE + 2 && bufLen >= RESERVED + 12 && batch > RING_SIZE
    ensures IsJourney(j, AreaFacts(bufNum, bufLen), batch) && |j.rounds| == rounds && !Drained(j.states[rounds])
  {
    hide IsRun, OneTurn, Passes, Begins, Round, Paced, AreaFacts;
    var run, marks, passes := WedgedRun(bufNum, bufLen, batch);
    PacedRun(run, marks, passes);
    var heads := HeadsOf(run, marks, passes);
    var last := Hushed(run);
    Known(last);
    KeptLink(last[|last| - 1].one, last[|last| - 1].facts);
    NothingWaits(last[|last| - 1].one, batch);
    StillNow(last);
    j := StillJourney(heads, passes, last[|last| - 1].one, AreaFacts(bufNum, bufLen), batch, rounds);
  }

  /** Once wedged, nothing is ever sent again and the deque never gets shorter, in any order of the loop's
      actions and whatever the kernel does. */
  lemma {:induction false} WedgedForGood(run: seq<Swapper>, i: nat, j: nat)
    requires IsRun(run) && i <= j < |run| && Wedged(run[i].one, run[i].batch)
    ensures Wedged(run[j].one, run[j].batch)
    ensures run[j].Link().p.sent == run[i].Link().p.sent && run[i].one.lane.pending <= run[j].one.lane.pending
  {
    hide IsRun, Wedged, MacParity.Step, Tracked, LeftAs;
    if i < j {
      WedgedForGood(run, i, j - 1);
      EveryRunSwaps(run, j - 1);
      StepOf(run, j - 1);
      WedgedStep(run[j - 1], run[j]);
    }
  }

  lemma StepOf(run: seq<Swapper>, j: nat)
    requires IsRun(run) && j < |run| - 1
    ensures MacParity.Step(run[j], run[j + 1])
  {
    hide MacParity.Step;
  }

  lemma WedgedStep(n: Swapper, m: Swapper)
    requires Tracked(n) && MacParity.Step(n, m) && Wedged(n.one, n.batch)
    ensures Wedged(m.one, m.batch)
    ensures m.Link().p.sent == n.Link().p.sent && n.one.lane.pending <= m.one.lane.pending
  {
    hide Kept, LinkInv, KernelMove, BufsOf, Blanks, FillOrder, Stored, InFrames, OnWire, Counted, SwapSlices, Moved;
    KeptLink(n.one, n.facts);
    if k: nat :| ForwardedSome(n, m, k) {
      ForwardRefused(n.one, m.one, k, n.batch);
    } else if k: nat :| Serviced(n, m, k) {
      ServiceSent(n.one, m.one, n.facts, k);
    } else if k: nat :| Filled(n, m, k) {
      FillSent(n.one, m.one, k);
    } else if k: nat :| ReceivedSome(n, m, k) {
      ReceiveSent(n.one, m.one, n.facts, k);
    }
  }

  lemma ForwardRefused(n: One, m: One, k: nat, batch: nat)
    requires n.lane.link.cfg.txSize == RING_SIZE && k <= |n.lane.pending|
    requires OneForward(n, m, k) && ForwardsEnough(n, k, batch) && Wedged(n, batch)
    ensures k == 0 && m.lane.pending == n.lane.pending && m.lane.link.p.sent == n.lane.link.p.sent
  {
    hide LinkInv, Progress;
    assert Descs(n.lane.pending[..0]) == [];
  }

  lemma ServiceSent(n: One, m: One, f: Facts, k: nat)
    requires OneService(n, m, f, k)
    ensures m.lane.pending == n.lane.pending && m.lane.link.p.sent == n.lane.link.p.sent
    ensures m.lane.link.p.rxTaken == n.lane.link.p.rxTaken
  {
    hide LinkInv, Progress, BufsOf, Blanks;
  }

  lemma FillSent(n: One, m: One, k: nat)
    requires k <= |n.bufs| && OneFill(n, m, k)
    ensures m.lane.pending == n.lane.pending && m.lane.link.p.sent == n.lane.link.p.sent
    ensures m.lane.link.p.rxTaken == n.lane.link.p.rxTaken
  {
    hide LinkInv, Progress, FillOrder;
  }

  lemma ReceiveSent(n: One, m: One, f: Facts, k: nat)
    requires OneReceive(n, m, f, k)
    ensures n.lane.pending <= m.lane.pending && m.lane.link.p.sent == n.lane.link.p.sent
    ensures m.lane.link.p.rxTaken == n.lane.link.p.rxTaken + k
  {
    hide LinkInv, Progress, BufsOf;
  }

  /** With batch size zero nothing is ever received or sent. */
  lemma {:induction false} NothingEver(run: seq<Swapper>, i: nat)
    requires IsRun(run) && i < |run| && run[0].batch == 0
    ensures run[i].batch == 0 && run[i].Link().p.rxTaken == 0 && run[i].Link().p.sent == []
  {
    hide IsRun, MacParity.Step, Tracked, LeftAs;
    if i > 0 {
      NothingEver(run, i - 1);
      EveryRunSwaps(run, i - 1);
      StepOf(run, i - 1);
      IdleStep(run[i - 1], run[i]);
    } else {
      StartsIdle(run);
    }
  }

  lemma StartsIdle(run: seq<Swapper>)
    requires IsRun(run)
    ensures run[0].Link().p.rxTaken == 0 && run[0].Link().p.sent == []
  {
    hide MacParity.Step, Kept;
    KeptLink(run[0].one, run[0].facts);
  }

  lemma IdleStep(n: Swapper, m: Swapper)
    requires Tracked(n) && MacParity.Step(n, m) && n.batch == 0 && n.Link().p.rxTaken == 0 && n.Link().p.sent == []
    ensures m.batch == 0 && m.Link().p.rxTaken == 0 && m.Link().p.sent == []
  {
    hide Kept, LinkInv, KernelMove, BufsOf, Blanks, FillOrder, Stored, InFrames, OnWire, Counted, SwapSlices, Moved;
    KeptLink(n.one, n.facts);
    if k: nat :| ForwardedSome(n, m, k) {
      ForwardNothing(n.one, m.one);
    } else if k: nat :| Serviced(n, m, k) {
      ServiceSent(n.one, m.one, n.facts, k);
    } else if k: nat :| Filled(n, m, k) {
      FillSent(n.one, m.one, k);
    } else if k: nat :| ReceivedSome(n, m, k) {
      ReceiveSent(n.one, m.one, n.facts, k);
    }
  }

  lemma ForwardNothing(n: One, m: One)
    requires OneForward(n, m, 0)
    ensures m.lane.link.p.rxTaken == n.lane.link.p.rxTaken && m.lane.link.p.sent == n.lane.link.p.sent
  {
    hide LinkInv, Progress;
    assert Descs(n.lane.pending[..0]) == [];
  }

  /** The program drains in every journey exactly if it has no buffers, or a batch size from one to the Tx
      ring's size, or a larger one and at most one buffer more than the ring has slots. */
  lemma Exactly(bufNum: nat, bufLen: ChunkLen, batch: nat)
    requires bufLen >= RESERVED + 12
    ensures Drains(bufNum, bufLen, batch) <==> Drainable(bufNum, batch)
  {
    hide Passes, Round, OneTurn, Begins, Drained, AreaFacts;
    if Drainable(bufNum, batch) {
      forall j: Journey | IsJourney(j, AreaFacts(bufNum, bufLen), batch) && |j.rounds| >= 9 * bufNum
        ensures Drained(j.states[|j.rounds|])
      {
        DrainableDrains(bufNum, bufLen, batch, j);
      }
    } else {
      var j;
      if batch == 0 {
        j := BatchZero(bufNum, bufLen, 9 * bufNum);
      } else {
        j := BatchTooLarge(bufNum, bufLen, batch, 9 * bufNum);
      }
    }
  }
}
