/** Progress of l2fwd-1link on a silent wire. Rounds of the loop with a transmitting kernel lower the load of
    module ForwardDrain until everything is done, or until the deque holds more than the Tx ring has room for
    and the program insists on sending it at once. Which of the two can happen depends on the batch size and
    the number of buffers alone. */
module OneLinkDrain {
  import opened Bits
  import opened Frames
  import opened LinkState
  import opened LinkFlow
  import opened Forwarding
  import opened OneLink
  import ForwardDrain

  ghost function Load(n: One): int {
    ForwardDrain.TallyOf(n.lane).Load()
  }

  ghost predicate Silent(n: One) {
    n.lane.link.k.Silent()
  }

  ghost predicate SameTallies(n: One, m: One) {
    ForwardDrain.TallyOf(n.lane) == ForwardDrain.TallyOf(m.lane) && |n.bufs| == |m.bufs|
  }

  /** From `n` to `m` the load did not grow, and if it is the same then nothing moved. */
  ghost predicate Downhill(n: One, m: One) {
    Silent(m) && Load(m) <= Load(n) && (Load(m) == Load(n) ==> SameTallies(n, m))
  }

  lemma TurnDownhill(n: One, m: One)
    requires OneTurn(n, m) && Silent(n)
    ensures Downhill(n, m)
  {
    ForwardDrain.LaneTurn(n.lane, m.lane);
  }

  lemma ServiceDownhill(n: One, m: One, f: Facts, k: nat)
    requires OneService(n, m, f, k) && Silent(n)
    ensures Downhill(n, m) && (Load(m) == Load(n) ==> k == 0)
  {
    hide LinkInv, BufsOf, Blanks, Moved;
    var l, r := n.lane, m.lane;
    var s := l.link.(p := l.link.p.Services(k, r.link.p.compSeen));
    ForwardDrain.MovedTaken(s, r.link);
    ForwardDrain.LaneTurn(l.(link := s, stats := r.stats), r);
    assert ForwardDrain.TallyOf(l.(link := s, stats := r.stats)) ==
           ForwardDrain.TallyOf(l).(comp := ForwardDrain.TallyOf(l).comp - k);
    assert k == 0 ==> BufsOf(Blanks(Completed(l.link, r.link)), f.bufLen, BufCustom) == [];
  }

  lemma ReceiveDownhill(n: One, m: One, f: Facts, k: nat)
    requires OneReceive(n, m, f, k) && Silent(n)
    ensures Downhill(n, m) && (Load(m) == Load(n) ==> k == 0)
  {
    hide LinkInv, BufsOf, Moved;
    var l, r, t := n.lane, m.lane, ForwardDrain.TallyOf(n.lane);
    var s := l.link.(p := l.link.p.Receives(k, r.link.p.rxSeen));
    ForwardDrain.MovedTaken(s, r.link);
    ForwardDrain.LaneTurn(r.(link := s), r);
    assert ForwardDrain.TallyOf(r.(link := s)) ==
           t.(rx := t.rx - k, pending := t.pending + k, deficit := t.deficit + k);
  }

  lemma ForwardDownhill(n: One, m: One, k: nat)
    requires k <= |n.lane.pending| && OneForward(n, m, k) && Silent(n)
    ensures Downhill(n, m) && (Load(m) == Load(n) ==> k == 0)
  {
    hide LinkInv, Descs, Moved;
    var l, r, t := n.lane, m.lane, ForwardDrain.TallyOf(n.lane);
    var s := l.link.(p := l.link.p.Sends(Descs(l.pending[..k])));
    ForwardDrain.LaneTurn(r.(link := s), r);
    assert ForwardDrain.TallyOf(r.(link := s)) == t.(pending := t.pending - k, tx := t.tx + k);
  }

  lemma FillDownhill(n: One, m: One, k: nat)
    requires k <= |n.bufs| && OneFill(n, m, k) && Silent(n)
    ensures Downhill(n, m) && (Load(m) == Load(n) ==> k == 0)
  {
    hide LinkInv, FillOrder, Moved;
    var l, r, t := n.lane, m.lane, ForwardDrain.TallyOf(n.lane);
    var s := l.link.(p := l.link.p.Fills(FillOrder(n.bufs, k)));
    ForwardDrain.LaneTurn(r.(link := s), r);
    assert ForwardDrain.TallyOf(r.(link := s)) == t.(deficit := t.deficit - k);
  }

  lemma DownhillTransitive(n: One, m: One, q: One)
    requires Downhill(n, m) && Downhill(m, q)
    ensures Downhill(n, q) && (Load(q) == Load(n) ==> Load(m) == Load(n))
  {
    hide Load, Silent;
  }

  // Where the rounds end.

  /** Everything received has left, every frame is back and nothing is missing from the fill ring. */
  ghost predicate Drained(n: One) {
    && n.lane.pending == [] && n.lane.deficit == 0
    && |n.lane.link.k.rxLog| == n.lane.link.p.rxTaken
    && |n.lane.link.p.sent| == n.lane.link.p.compTaken
  }

  /** The deque holds more than the Tx ring, and the program wants to send more than that at once. */
  ghost predicate Wedged(n: One, batch: nat) {
    batch > RING_SIZE && |n.lane.pending| > RING_SIZE
  }

  ghost predicate Ended(n: One, batch: nat) {
    Drained(n) || Wedged(n, batch)
  }

  /** A pass and the kernel find nothing to do. */
  ghost predicate Stuck(n: One, batch: nat) {
    var t := ForwardDrain.TallyOf(n.lane);
    && t.comp <= 0
    && (t.rx <= 0 || t.pending == PENDING_LEN)
    && (t.pending == 0 || t.tx + Min(t.pending, batch) > RING_SIZE)
    && (t.deficit == 0 || n.bufs == [])
    && t.flight == 0 && (t.tx <= 0 || t.comp >= RING_SIZE)
  }

  lemma TallySane(n: One, f: Facts)
    requires Kept(n, f)
    ensures var t := ForwardDrain.TallyOf(n.lane);
      && 0 <= t.rx && 0 <= t.tx && 0 <= t.comp && t.pending <= PENDING_LEN && t.deficit <= f.initial
      && t.tx + t.flight + t.comp == |n.lane.link.p.sent| - n.lane.link.p.compTaken
      && |n.bufs| + t.pending + t.tx + t.flight + t.comp + (f.initial - t.deficit) == |f.owned|
      && t.rx + t.deficit <= f.initial
  {
    hide LinkInv, Addressed, AllWellFormed, InOrder, OneFrames;
    KeptLink(n, f);
    OneFacts(n, f);
    TxBalance(n.lane.link);
    StageSizes(n.lane.link);
  }

  lemma StageSizes(s: State)
    requires LinkInv(s)
    ensures s.p.rxTaken <= |s.k.rxLog| && s.p.compTaken <= |s.k.compLog| && s.k.txTaken <= |s.p.sent|
    ensures |TxStages(s)| == |s.p.sent| - s.k.txTaken + |s.k.flight| + (|s.k.compLog| - s.p.compTaken)
    ensures |RxStages(s)| >= |s.k.rxLog| - s.p.rxTaken
  {
  }

  /** Nothing to do means everything is done or the program is wedged. */
  lemma StuckEnded(n: One, f: Facts, batch: nat)
    requires Kept(n, f) && f.initial <= |f.owned| && batch > 0 && Stuck(n, batch)
    ensures Ended(n, batch)
  {
    hide Kept;
    TallySane(n, f);
  }

  // One pass.

  /** On a silent wire the load did not grow, if it stayed then `stuck`, and what ended stays so. */
  ghost predicate Went(n: One, q: One, batch: nat, stuck: bool) {
    Silent(n) ==> Downhill(n, q) && (Load(q) == Load(n) ==> stuck) && (Ended(n, batch) ==> Ended(q, batch))
  }

  /** What a pass says by doing nothing. */
  ghost predicate PassStuck(n: One, batch: nat) {
    var t := ForwardDrain.TallyOf(n.lane);
    && t.comp <= 0
    && (t.rx <= 0 || t.pending == PENDING_LEN)
    && (t.pending == 0 || t.tx + Min(t.pending, batch) > RING_SIZE)
    && (t.deficit == 0 || n.bufs == [])
  }

  lemma PassDownhill(n: One, x: OnePass, q: One, f: Facts, batch: nat)
    requires OnePassed(n, x, q, f, batch) && Silent(n)
    requires x.tx <= |x.received.lane.pending| && x.fq <= |x.forwarded.bufs|
    ensures Downhill(n, x.serviced) && Downhill(x.serviced, x.received) && Downhill(x.received, x.forwarded)
    ensures Downhill(x.forwarded, q)
    ensures Downhill(n, q)
    ensures Load(q) == Load(n) ==>
      && x.cq == x.rx == x.tx == x.fq == 0
      && SameTallies(n, x.serviced) && SameTallies(n, x.received) && SameTallies(n, x.forwarded)
  {
    hide OneService, OneReceive, OneForward, OneFill, ServesEnough, ReceivesEnough, ForwardsEnough, Load;
    ServiceDownhill(n, x.serviced, f, x.cq);
    ReceiveDownhill(x.serviced, x.received, f, x.rx);
    ForwardDownhill(x.received, x.forwarded, x.tx);
    FillDownhill(x.forwarded, q, x.fq);
    DownhillTransitive(n, x.serviced, x.received);
    DownhillTransitive(n, x.received, x.forwarded);
    DownhillTransitive(n, x.forwarded, q);
  }

  lemma PassCounts(n: One, x: OnePass, q: One, f: Facts, batch: nat)
    requires OnePassed(n, x, q, f, batch)
    ensures x.tx <= |x.received.lane.pending| && x.fq <= |x.forwarded.bufs|
  {
    hide OneService, OneReceive, LinkInv, Moved;
  }

  lemma IdlePass(n: One, x: OnePass, q: One, f: Facts, batch: nat)
    requires Kept(x.received, f) && OnePassed(n, x, q, f, batch) && batch > 0
    requires x.cq == x.rx == x.tx == x.fq == 0
    requires SameTallies(n, x.serviced) && SameTallies(n, x.received) && SameTallies(n, x.forwarded)
    ensures PassStuck(n, batch)
  {
    hide OneService, OneReceive, OneForward, OneFill, Kept;
    KeptLink(x.received, f);
  }

  /** Every state of a pass keeps the invariant. */
  lemma PassKeeps(n: One, x: OnePass, q: One, f: Facts, batch: nat)
    requires Kept(n, f) && OnePassed(n, x, q, f, batch)
    ensures Kept(x.serviced, f) && Kept(x.received, f) && Kept(x.forwarded, f) && Kept(q, f)
  {
    hide Kept, OneService, OneReceive, OneForward, OneFill, ServesEnough, ReceivesEnough, ForwardsEnough;
    OneServiceKeeps(n, x.serviced, f, x.cq);
    OneReceiveKeeps(x.serviced, x.received, f, x.rx);
    OneForwardKeeps(x.received, x.forwarded, f, x.tx);
    OneFillKeeps(x.forwarded, q, f, x.fq);
  }

  /** Once drained, a silent loop has nothing to do. */
  lemma DrainedStays(n: One, x: OnePass, q: One, f: Facts, batch: nat)
    requires Kept(n, f) && OnePassed(n, x, q, f, batch) && Silent(n) && Drained(n)
    ensures Drained(q)
  {
    hide Kept, OneService, OneReceive, OneForward, OneFill, ServesEnough, ReceivesEnough, ForwardsEnough;
    PassKeeps(n, x, q, f, batch);
    ServiceDrained(n, x.serviced, f, x.cq);
    ReceiveDrained(x.serviced, x.received, f, x.rx);
    ForwardDrained(x.received, x.forwarded, f, x.tx);
    FillDrained(x.forwarded, q, f, x.fq);
  }

  lemma ServiceDrained(n: One, m: One, f: Facts, k: nat)
    requires Kept(m, f) && OneService(n, m, f, k) && Silent(n) && Drained(n)
    ensures Silent(m) && Drained(m)
  {
    hide LinkInv, Kept, BufsOf, Blanks;
    TallySane(m, f);
  }

  lemma ReceiveDrained(n: One, m: One, f: Facts, k: nat)
    requires Kept(m, f) && OneReceive(n, m, f, k) && Silent(n) && Drained(n)
    ensures Silent(m) && Drained(m)
  {
    hide LinkInv, Kept, BufsOf;
    TallySane(m, f);
    assert k == 0;
    assert Received(n.lane.link, m.lane.link) == [];
    assert BufsOf(Received(n.lane.link, m.lane.link), f.bufLen, BufCustom) == [];
  }

  lemma ForwardDrained(n: One, m: One, f: Facts, k: nat)
    requires Kept(m, f) && OneForward(n, m, k) && Silent(n) && Drained(n)
    ensures Silent(m) && Drained(m)
  {
    hide LinkInv, Kept;
    TallySane(m, f);
  }

  lemma FillDrained(n: One, m: One, f: Facts, k: nat)
    requires Kept(m, f) && OneFill(n, m, k) && Silent(n) && Drained(n)
    ensures Silent(m) && Drained(m)
  {
    hide LinkInv, Kept, FillOrder;
    TallySane(m, f);
  }

  /** A wedged program never sends again: what it asks for never fits, and the deque only grows. */
  lemma WedgedStays(n: One, x: OnePass, q: One, f: Facts, batch: nat)
    requires OnePassed(n, x, q, f, batch) && Kept(x.received, f) && Wedged(n, batch)
    ensures x.tx == 0 && Wedged(q, batch) && n.lane.pending <= q.lane.pending
    ensures q.lane.link.p.sent == n.lane.link.p.sent
  {
    hide LinkInv, Kept, BufsOf, Blanks, FillOrder, Progress;
    KeptLink(x.received, f);
    assert Descs(x.received.lane.pending[..0]) == [];
  }

  lemma PassWent(n: One, x: OnePass, q: One, f: Facts, batch: nat)
    requires Kept(n, f) && OnePassed(n, x, q, f, batch) && batch > 0
    ensures Went(n, q, batch, PassStuck(n, batch))
  {
    hide Kept, OnePassed, PassStuck, SameTallies, Load, Drained;
    if Silent(n) {
      PassKeeps(n, x, q, f, batch);
      PassCounts(n, x, q, f, batch);
      PassDownhill(n, x, q, f, batch);
      if Load(q) == Load(n) {
        IdlePass(n, x, q, f, batch);
      }
      if Drained(n) {
        DrainedStays(n, x, q, f, batch);
      } else if Wedged(n, batch) {
        WedgedStays(n, x, q, f, batch);
      }
    }
  }

  // A round: the kernel transmits what it can, then the loop runs once.

  ghost predicate Round(n: One, mid: One, x: OnePass, q: One, f: Facts, batch: nat) {
    OneTurn(n, mid) && ForwardDrain.Transmitted(mid.lane.link) && OnePassed(mid, x, q, f, batch)
  }

  lemma TurnEnded(n: One, m: One, f: Facts, batch: nat)
    requires Kept(m, f) && OneTurn(n, m) && Silent(n) && Ended(n, batch)
    ensures Ended(m, batch)
  {
    hide LinkInv, Kept;
    TallySane(m, f);
  }

  lemma TransmittedStuck(n: One, f: Facts, batch: nat)
    requires Kept(n, f) && ForwardDrain.Transmitted(n.lane.link) && PassStuck(n, batch)
    ensures Stuck(n, batch)
  {
    hide LinkInv, Kept;
    KeptLink(n, f);
  }

  lemma RoundWent(n: One, mid: One, x: OnePass, q: One, f: Facts, batch: nat)
    requires Kept(n, f) && Round(n, mid, x, q, f, batch) && batch > 0 && f.initial <= |f.owned|
    ensures Kept(q, f) && Went(n, q, batch, Ended(q, batch))
  {
    hide Kept, OnePassed, OneTurn, PassStuck, Ended, Load, SameTallies, ForwardDrain.Transmitted;
    OneTurnKeeps(n, mid, f);
    PassKeeps(mid, x, q, f, batch);
    if Silent(n) {
      TurnDownhill(n, mid);
      PassWent(mid, x, q, f, batch);
      DownhillTransitive(n, mid, q);
      if Load(q) == Load(n) {
        TransmittedStuck(mid, f, batch);
        StuckEnded(mid, f, batch);
      }
      if Ended(n, batch) {
        TurnEnded(n, mid, f, batch);
      }
    }
  }

  /** States of a silent loop, each one round after the last. */
  ghost predicate Rounds(states: seq<One>, mids: seq<One>, passes: seq<OnePass>, f: Facts, batch: nat) {
    && |states| == |mids| + 1 == |passes| + 1
    && forall i :: 0 <= i < |mids| ==> Round(states[i], mids[i], passes[i], states[i + 1], f, batch)
  }

  /** After as many rounds as the load at the start, whatever the kernel does meanwhile, everything is done or
      the program is wedged. */
  lemma {:induction false} RoundsEnd(states: seq<One>, mids: seq<One>, passes: seq<OnePass>, f: Facts,
                                     batch: nat, i: nat)
    requires Rounds(states, mids, passes, f, batch) && i < |states|
    requires Kept(states[0], f) && Silent(states[0]) && batch > 0 && f.initial <= |f.owned|
    ensures Kept(states[i], f) && Silent(states[i])
    ensures Ended(states[i], batch) || Load(states[i]) <= Load(states[0]) - i
    ensures i >= Load(states[0]) ==> Ended(states[i], batch)
  {
    hide Kept, Round, Load, Ended;
    if i > 0 {
      RoundsEnd(states, mids, passes, f, batch, i - 1);
      assert Round(states[i - 1], mids[i - 1], passes[i - 1], states[i - 1 + 1], f, batch);
      RoundWent(states[i - 1], mids[i - 1], passes[i - 1], states[i], f, batch);
    }
    if !Ended(states[i], batch) && i >= Load(states[0]) {
      NoLoadDrained(states[i], f, batch);
    }
  }

  lemma NoLoadDrained(n: One, f: Facts, batch: nat)
    requires Kept(n, f) && Load(n) <= 0
    ensures Ended(n, batch)
  {
    hide Kept;
    TallySane(n, f);
  }

  /** The load is bounded by what the loop owns. */
  lemma LoadBounded(n: One, f: Facts)
    requires Kept(n, f) && f.initial <= |f.owned|
    ensures Load(n) <= 9 * |f.owned|
  {
    hide Kept;
    TallySane(n, f);
  }

  // Small areas are never wedged.

  /** The deque fits the Tx ring; and if anything is in it, then no frame is free or on its way in. */
  ghost predicate Roomy(n: One)
    requires LinkInv(n.lane.link)
  {
    && |n.lane.pending| <= RING_SIZE
    && (n.lane.pending != [] ==> n.bufs == [] && |RxStages(n.lane.link)| == 0)
  }

  /** With at most one frame more than the Tx ring has slots, a refusal means that every frame is in the deque
      or on the Tx ring. So nothing can come in before it all goes out. */
  lemma PassRoomy(n: One, x: OnePass, q: One, f: Facts, batch: nat)
    requires Kept(n, f) && OnePassed(n, x, q, f, batch) && LinkInv(n.lane.link) && Roomy(n)
    requires |f.owned| <= RING_SIZE + 1 && batch > RING_SIZE
    ensures LinkInv(q.lane.link) && Roomy(q)
  {
    hide Kept, LinkInv, RxStages, OnePassed;
    PassKeeps(n, x, q, f, batch);
    PassLinks(n, x, q, f);
    PassFigures(n, x, q, f, batch);
    TallySane(x.received, f);
    OneFacts(n, f);
    OneFacts(q, f);
    assert |x.received.lane.pending| <= RING_SIZE;
  }

  /** What a pass does to the numbers. */
  lemma PassFigures(n: One, x: OnePass, q: One, f: Facts, batch: nat)
    requires OnePassed(n, x, q, f, batch) && x.received.lane.link.cfg.txSize == RING_SIZE
    ensures |x.received.lane.pending| == |n.lane.pending| + x.rx && x.received.lane.deficit == n.lane.deficit + x.rx
    ensures |q.lane.pending| == |x.received.lane.pending| - x.tx
    ensures |q.bufs| == |x.received.bufs| - x.fq && q.lane.deficit == x.received.lane.deficit - x.fq
    ensures x.fq <= |x.received.bufs|
    ensures x.tx == 0 || x.tx == Min(|x.received.lane.pending|, batch)
    ensures var t := ForwardDrain.TallyOf(x.received.lane);
            x.tx == 0 ==> Min(t.pending, batch) == 0 || t.tx + Min(t.pending, batch) > RING_SIZE
  {
    hide LinkInv, BufsOf, Blanks, FillOrder, Descs, Progress;
  }

  lemma PassLinks(n: One, x: OnePass, q: One, f: Facts)
    requires Kept(n, f) && Kept(x.received, f) && Kept(q, f)
    ensures LinkInv(n.lane.link) && LinkInv(x.received.lane.link) && LinkInv(q.lane.link)
    ensures x.received.lane.link.cfg.txSize == RING_SIZE && f.initial <= RING_SIZE
  {
    hide LinkInv;
  }

  lemma TurnRoomy(n: One, m: One, f: Facts)
    requires Kept(n, f) && OneTurn(n, m) && LinkInv(n.lane.link) && Roomy(n)
    ensures LinkInv(m.lane.link) && Roomy(m)
  {
    hide LinkInv, RxStages, TxStages, Progress;
    KernelKeepsFrames(n.lane.link, m.lane.link);
  }

  /** Whether a program with so many buffers and this batch size always drains. */
  predicate Drainable(bufNum: nat, batch: nat) {
    bufNum == 0 || (batch > 0 && (batch <= RING_SIZE || bufNum <= RING_SIZE + 1))
  }

  /** What a program that cannot be wedged keeps at every loop head. */
  ghost predicate Unwedged(n: One, f: Facts, batch: nat) {
    && LinkInv(n.lane.link)
    && (batch > RING_SIZE ==> |f.owned| <= RING_SIZE + 1 && Roomy(n))
  }

  lemma PassUnwedged(n: One, x: OnePass, q: One, f: Facts, batch: nat)
    requires Kept(n, f) && Unwedged(n, f, batch) && OnePassed(n, x, q, f, batch)
    ensures Kept(q, f) && Unwedged(q, f, batch)
  {
    hide Kept, LinkInv, OnePassed, Roomy;
    PassKeeps(n, x, q, f, batch);
    PassLinks(n, x, q, f);
    if batch > RING_SIZE {
      PassRoomy(n, x, q, f, batch);
    }
  }

  lemma TurnUnwedged(n: One, m: One, f: Facts, batch: nat)
    requires Kept(n, f) && Unwedged(n, f, batch) && OneTurn(n, m)
    ensures Kept(m, f) && Unwedged(m, f, batch)
  {
    hide Kept, LinkInv, Roomy;
    OneTurnKeeps(n, m, f);
    if batch > RING_SIZE {
      TurnRoomy(n, m, f);
    }
  }

  /** With no frames there is nothing to do. */
  lemma EmptyDrained(n: One, f: Facts)
    requires Kept(n, f) && |f.owned| == 0 && f.initial == 0
    ensures Drained(n)
  {
    hide Kept;
    TallySane(n, f);
  }

  lemma UnwedgedDrained(n: One, f: Facts, batch: nat)
    requires Unwedged(n, f, batch) && Ended(n, batch)
    ensures Drained(n)
  {
    hide LinkInv;
  }

  /** What has drained has sent everything it received. */
  lemma DrainedSent(n: One, f: Facts)
    requires Kept(n, f) && Drained(n)
    ensures |n.lane.link.k.wire| == |n.lane.link.k.rxLog| == |n.lane.link.k.arrived|
  {
    TallySane(n, f);
  }
}
