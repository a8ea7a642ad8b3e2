/** Runs of l2fwd-1link built one move at a time: what the program or the kernel does next, and where that
    leads. Modules SwappedTwice and DrainsExactly put them together. */
module OneLinkMoves {
  import opened Bits
  import opened Frames
  import opened Memory
  import opened LinkState
  import opened MacSwap
  import opened OneLink
  import opened MmapArea
  import opened MacParity
  import opened OneLinkLoop
  import opened OneLinkRun
  import LinkFlow
  import Forwarding
  import TwoLink

  /** The program at its first loop head, before the kernel has moved. */
  function StartSwapper(bufNum: nat, bufLen: ChunkLen, batch: nat): Swapper {
    var bufs := AreaBufs(bufNum, bufLen, BufCustom);
    var wanted := Min(Forwarding.RING_SIZE, bufNum);
    var s := TwoLink.Untouched(Forwarding.RingConfig(bufLen), Any);
    Swapper(
      One(Forwarding.Lane(s.(p := s.p.(filled := FillOrder(bufs, wanted))), [], 0, Forwarding.Stats(0, 0, 0, 0)),
          bufs[..bufNum - wanted]),
      AreaFacts(bufNum, bufLen), batch, Receiving,
      seq(Area(bufNum, bufLen).Size(), _ => 0), [], [], true)
  }

  /** Runs of MacParity do start there, for every area. */
  lemma StartsFresh(bufNum: nat, bufLen: ChunkLen, batch: nat)
    requires bufLen >= RESERVED + 12
    ensures Fresh(StartSwapper(bufNum, bufLen, batch))
  {
    hide AllWellFormed, Addrs, FillOrder, Kept, AreaBufs, FrameAddrs, Stored;
    var n, bufs := StartSwapper(bufNum, bufLen, batch), AreaBufs(bufNum, bufLen, BufCustom);
    var s, t := TwoLink.Untouched(Forwarding.RingConfig(bufLen), Any), n.Link();
    AreaBufsGood(bufNum, bufLen, BufCustom);
    NothingAccounted(bufLen);
    assert LinkInv(s) && LinkInv(t) by {
      hide RxAccounted, TxAccounted, Recorded;
      assert s.p.filled[..0] == t.p.filled[..0] == [] && s.p.sent[..0] == t.p.sent[..0] == [];
    }
    MovedReflexive(t);
    assert s.p.filled + FillOrder(bufs, n.facts.initial) == t.p.filled;
    StartsKept(s, t, bufs, n.facts);
    AreaStored(bufNum, bufLen);
  }

  // One move at a time.

  /** What is known of the last state of a run. */
  lemma Known(run: seq<Swapper>)
    requires run != [] && IsRun(run)
    ensures var l := run[|run| - 1];
      && Tracked(l) && Kept(l.one, l.facts) && LinkInv(l.Link()) && l.Link().p.Idle()
      && l.Link().cfg == Forwarding.RingConfig(l.facts.bufLen)
      && |l.Link().p.sent| + |l.one.lane.pending| == l.Link().p.rxTaken == |l.stays| == |l.swaps|
  {
    hide IsRun, LeftAs, Kept;
    EveryRunSwaps(run, |run| - 1);
    KeptLink(run[|run| - 1].one, run[|run| - 1].facts);
  }

  lemma Extend(run: seq<Swapper>, more: seq<Swapper>, last: seq<Swapper>)
    requires Continues(run, more) && Continues(more, last)
    ensures Continues(run, last)
  {
    hide IsRun;
  }

  /** A kernel move. */
  lemma Move(run: seq<Swapper>, m: Swapper)
    requires run != [] && IsRun(run) && KernelMoved(run[|run| - 1], m)
    ensures Continues(run, run + [m]) && OneTurn(run[|run| - 1].one, m.one)
  {
    hide IsRun, LinkInv, Moved, KernelMove, Kept, Tracked;
    Known(run);
    var l := run[|run| - 1];
    KernelMoveKeeps(l.Link(), l.mem, m.Link(), m.mem);
    MoveIsStep(l, m);
    RunOn(run, m);
  }

  lemma TurnOn(n: One, m: One, q: One)
    requires OneTurn(n, m) && OneTurn(m, q)
    ensures OneTurn(n, q)
  {
    hide LinkInv, Moved;
    MovedTransitive(n.lane.link, m.lane.link, q.lane.link);
  }

  lemma TurnReflexive(n: One)
    requires LinkInv(n.lane.link)
    ensures OneTurn(n, n)
  {
    hide LinkInv;
    MovedReflexive(n.lane.link);
  }

  /** The kernel's side after it took a frame and delivered a packet in it. */
  function AfterPacket(s: State, len: nat, bytes: seq<byte>): Kern
    requires s.k.fillTaken < |s.p.filled|
  {
    s.k.(fillTaken := s.k.fillTaken + 1,
         rxLog := s.k.rxLog + [Desc(Home(s.p.filled[s.k.fillTaken], s.cfg.bufLen), len)],
         arrived := s.k.arrived + [bytes])
  }

  lemma Packet(run: seq<Swapper>, len: nat, bytes: seq<byte>) returns (more: seq<Swapper>)
    requires run != [] && IsRun(run) && Ready(run[|run| - 1], 1, len, bytes)
    ensures Continues(run, more)
    ensures var l, m := run[|run| - 1], more[|more| - 1];
      m == l.With(Snap(AfterPacket(l.Link(), len, bytes), m.mem)) && OneTurn(l.one, m.one)
  {
    hide IsRun, Poke, OneTurn;
    var l := run[|run| - 1];
    var s := l.Link();
    var k1 := s.k.(fillTaken := s.k.fillTaken + 1, held := [Home(s.p.filled[s.k.fillTaken], s.cfg.bufLen)]);
    var l1 := l.With(Snap(k1, l.mem));
    assert TookFill(s, l1.Link());
    Move(run, l1);
    var mem := Poke(l.mem, k1.held[0], bytes);
    var l2 := l1.With(Snap(AfterPacket(s, len, bytes), mem));
    assert l2.Link().k.held == k1.held[..0] + k1.held[1..];
    assert Landed(l1.Link(), l1.mem, l2.Link(), mem, 0, len, bytes);
    LandedIsMove(l1.Link(), l1.mem, l2.Link(), mem, 0, len, bytes);
    Move(run + [l1], l2);
    TurnOn(l.one, l1.one, l2.one);
    more := run + [l1] + [l2];
    Extend(run, run + [l1], more);
  }

  /** The kernel holds no frame, and there are frames and room on the Rx ring for `c` packets. */
  ghost predicate Ready(l: Swapper, c: nat, len: nat, bytes: seq<byte>) {
    var s := l.Link();
    && s.k.held == [] && s.k.feed == Any && s.k.fillTaken + c <= |s.p.filled|
    && |s.k.rxLog| + c - s.p.rxTaken <= s.cfg.rxSize && len <= |bytes| == s.cfg.bufLen - RESERVED
    && |s.k.arrived| == |s.k.rxLog|
  }

  /** From `l` to `m` the kernel delivered the same packet `c` times. */
  ghost predicate Packed(l: Swapper, m: Swapper, c: nat, len: nat, bytes: seq<byte>) {
    var k, k' := l.Link().k, m.Link().k;
    && m == l.With(Snap(k', m.mem))
    && k' == k.(fillTaken := k.fillTaken + c, rxLog := k'.rxLog, arrived := k'.arrived)
    && |k'.rxLog| == |k.rxLog| + c == |k'.arrived| && k.arrived <= k'.arrived && k.rxLog <= k'.rxLog
    && (forall i :: |k.rxLog| <= i < |k'.rxLog| ==> k'.arrived[i] == bytes && k'.rxLog[i].len == len)
  }

  lemma PackedOn(l: Swapper, s: Swapper, m: Swapper, c: nat, len: nat, bytes: seq<byte>)
    requires Packed(l, s, c, len, bytes) && s.Link().k.fillTaken < |s.Link().p.filled|
    requires m == s.With(Snap(AfterPacket(s.Link(), len, bytes), m.mem))
    ensures Packed(l, m, c + 1, len, bytes)
  {
    hide Home;
  }

  lemma PackedReady(l: Swapper, s: Swapper, c: nat, len: nat, bytes: seq<byte>)
    requires Ready(l, c + 1, len, bytes) && Packed(l, s, c, len, bytes)
    ensures Ready(s, 1, len, bytes) && s.Link().k.fillTaken < |s.Link().p.filled|
  {
  }

  lemma NotPacked(l: Swapper, c: nat, len: nat, bytes: seq<byte>)
    requires Ready(l, c, len, bytes)
    ensures Packed(l, l, 0, len, bytes) && (c > 0 ==> Ready(l, c - 1, len, bytes))
  {
  }

  /** The same packet again and again. */
  lemma {:induction false} Packets(run: seq<Swapper>, c: nat, len: nat, bytes: seq<byte>) returns (more: seq<Swapper>)
    requires run != [] && IsRun(run) && Ready(run[|run| - 1], c, len, bytes)
    ensures Continues(run, more)
    ensures Packed(run[|run| - 1], more[|more| - 1], c, len, bytes)
    ensures OneTurn(run[|run| - 1].one, more[|more| - 1].one)
    decreases c
  {
    hide IsRun, AfterPacket, OneTurn, Packed, Ready;
    var l := run[|run| - 1];
    NotPacked(l, c, len, bytes);
    if c == 0 {
      more := run;
      Known(run);
      TurnReflexive(l.one);
    } else {
      var some := Packets(run, c - 1, len, bytes);
      var s := some[|some| - 1];
      PackedReady(l, s, c - 1, len, bytes);
      more := Packet(some, len, bytes);
      PackedOn(l, s, more[|more| - 1], c - 1, len, bytes);
      TurnOn(l.one, s.one, more[|more| - 1].one);
      Extend(run, some, more);
    }
  }

  /** The kernel takes the next Tx entry. */
  lemma Transmit(run: seq<Swapper>) returns (more: seq<Swapper>)
    requires run != [] && IsRun(run)
    requires var s := run[|run| - 1].Link();
      s.k.txTaken < |s.p.sent| && |s.k.flight| + |s.k.compLog| < s.p.compTaken + s.cfg.compSize
    ensures Continues(run, more)
    ensures var l, m := run[|run| - 1], more[|more| - 1];
      var k, k' := l.Link().k, m.Link().k;
      && m == l.With(Snap(k', l.mem))
      && k' == k.(txTaken := k.txTaken + 1, flight := k'.flight, wire := k'.wire)
      && |k'.flight| == |k.flight| + 1 && |k'.wire| == |k.wire| + 1
      && OneTurn(l.one, m.one)
  {
    hide IsRun, Cell, OneTurn;
    var l := run[|run| - 1];
    var s := l.Link();
    var d := s.p.sent[s.k.txTaken];
    var k' := s.k.(txTaken := s.k.txTaken + 1, flight := s.k.flight + [d.addr],
                   wire := s.k.wire + [Cell(l.mem, d.addr, d.len)]);
    var m := l.With(Snap(k', l.mem));
    assert Departed(s, l.mem, m.Link());
    Move(run, m);
    more := run + [m];
  }

  /** The kernel completes the first frame in flight. */
  lemma Complete(run: seq<Swapper>) returns (more: seq<Swapper>)
    requires run != [] && IsRun(run) && run[|run| - 1].Link().k.flight != []
    ensures Continues(run, more)
    ensures var l, m := run[|run| - 1], more[|more| - 1];
      var k, k' := l.Link().k, m.Link().k;
      && m == l.With(Snap(k', l.mem)) && k' == k.(flight := k'.flight, compLog := k'.compLog)
      && |k'.flight| == |k.flight| - 1 && |k'.compLog| == |k.compLog| + 1
      && OneTurn(l.one, m.one)
  {
    hide IsRun, OneTurn;
    var l := run[|run| - 1];
    var k := l.Link().k;
    var m := l.With(Snap(k.(flight := k.flight[1..], compLog := k.compLog + [k.flight[0]]), l.mem));
    assert k.flight[..0] + k.flight[1..] == k.flight[1..];
    assert Finished(l.Link(), m.Link(), 0);
    Move(run, m);
    more := run + [m];
  }

  /** The wire falls silent. */
  lemma Hushed(run: seq<Swapper>) returns (more: seq<Swapper>)
    requires run != [] && IsRun(run)
    ensures Continues(run, more)
    ensures var l, m := run[|run| - 1], more[|more| - 1];
      && m == l.With(Snap(l.Link().k.(feed := Hush(l.Link().k.feed)), l.mem))
      && m.Link().k.Silent() && OneTurn(l.one, m.one)
  {
    hide IsRun, OneTurn;
    var l := run[|run| - 1];
    var m := l.With(Snap(l.Link().k.(feed := Hush(l.Link().k.feed)), l.mem));
    assert FellSilent(l.Link(), m.Link());
    Move(run, m);
    more := run + [m];
  }

  /** The lane after the program looked and received the `k` that the ring showed. */
  function Got(n: One, f: Forwarding.Facts, k: nat): One
    requires n.lane.link.p.rxTaken + k <= |n.lane.link.k.rxLog|
  {
    var l := n.lane;
    var s := l.link.(p := l.link.p.Receives(k, |l.link.k.rxLog|));
    n.(lane := l.(link := s, pending := l.pending + BufsOf(Received(l.link, s), f.bufLen, BufCustom),
                  deficit := l.deficit + k, stats := l.stats.(rx := l.stats.rx + k)))
  }

  lemma Receive(run: seq<Swapper>, k: nat) returns (more: seq<Swapper>)
    requires run != [] && IsRun(run) && k > 0
    requires var l := run[|run| - 1];
      && l.at == Receiving && l.Link().p.rxSeen <= l.Link().p.rxTaken
      && l.Link().p.rxTaken + k == |l.Link().k.rxLog| && k <= l.batch
      && |l.one.lane.pending| + k <= PENDING_LEN
    ensures Continues(run, more)
    ensures var l, m := run[|run| - 1], more[|more| - 1];
      && m == AfterReceive(l, Got(l.one, l.facts, k), k)
      && OneReceive(l.one, m.one, l.facts, k) && ReceivesEnough(l.one, k, l.batch)
      && ReceivesShown(l.one, m.one, k, l.batch)
  {
    hide IsRun, Kept, Tracked, RxAccounted, TxAccounted, Recorded;
    Known(run);
    var l := run[|run| - 1];
    var m := AfterReceive(l, Got(l.one, l.facts, k), k);
    MovedReflexive(m.Link());
    ReceiveIsStep(l, m, k);
    RunOn(run, m);
    more := run + [m];
  }

  lemma Swap(run: seq<Swapper>) returns (more: seq<Swapper>)
    requires run != [] && IsRun(run) && run[|run| - 1].at == Swapping
    ensures Continues(run, more)
    ensures var l, m := run[|run| - 1], more[|more| - 1];
      m == l.(at := Sending, mem := m.mem, swaps := m.swaps) && |m.swaps| == |l.swaps|
  {
    hide IsRun, SwapSlices;
    var l := run[|run| - 1];
    var mem := SwapSlices(l.mem, SliceStarts(l.one.lane.pending));
    var m := l.(at := Sending, mem := mem, swaps := Bump(l.swaps, |l.Link().p.sent|));
    SwapIsStep(l, m);
    RunOn(run, m);
    more := run + [m];
  }

  /** The Tx ring has no room for the batch. */
  lemma Refuse(run: seq<Swapper>) returns (more: seq<Swapper>)
    requires run != [] && IsRun(run)
    requires var l := run[|run| - 1];
      && l.at == Sending
      && |l.Link().p.sent| - l.Link().k.txTaken + Min(|l.one.lane.pending|, l.batch) > l.Link().cfg.txSize
    ensures Continues(run, more) && more[|more| - 1] == run[|run| - 1].(at := Receiving)
    ensures var l := run[|run| - 1]; OneForward(l.one, l.one, 0) && ForwardsEnough(l.one, 0, l.batch)
  {
    hide IsRun, Kept, Tracked, LinkInv;
    Known(run);
    var l := run[|run| - 1];
    KeptLink(l.one, l.facts);
    OneNothing(l.one, l.facts, l.mem);
    ForwardIsStep(l, l.(at := Receiving), 0);
    RunOn(run, l.(at := Receiving));
    more := run + [l.(at := Receiving)];
  }

  /** The lane after a forward of `k`. */
  function Sent(n: One, k: nat): One
    requires k <= |n.lane.pending|
  {
    var l := n.lane;
    n.(lane := l.(link := l.link.(p := l.link.p.Sends(Descs(l.pending[..k]))),
                  pending := l.pending[k..], stats := l.stats.(tx := l.stats.tx + k)))
  }

  /** A receive that finds nothing. */
  lemma FindNothing(run: seq<Swapper>) returns (more: seq<Swapper>)
    requires run != [] && IsRun(run)
    requires var l := run[|run| - 1]; l.at == Receiving && l.Link().p.rxTaken >= |l.Link().k.rxLog|
    ensures Continues(run, more) && more[|more| - 1] == run[|run| - 1].(at := Sending)
    ensures var l := run[|run| - 1];
      && OneReceive(l.one, l.one, l.facts, 0) && ReceivesEnough(l.one, 0, l.batch)
      && ReceivesShown(l.one, l.one, 0, l.batch)
  {
    hide IsRun, OneReceive, OneForward, OneFill, OneService;
    NothingFound(run);
    Known(run);
    var l := run[|run| - 1];
    KeptLink(l.one, l.facts);
    NothingWaits(l.one, l.batch);
    var m := AfterReceive(l, l.one, 0);
    assert l.swaps + Zeros(0) == l.swaps;
    ReceiveIsStep(l, m, 0);
    RunOn(run, m);
    more := run + [m];
  }

  /** An Rx ring with nothing to receive shows nothing. */
  lemma NothingWaits(n: One, batch: nat)
    requires LinkInv(n.lane.link) && n.lane.link.p.rxTaken >= |n.lane.link.k.rxLog| && |n.lane.pending| <= PENDING_LEN
    ensures ReceivesShown(n, n, 0, batch)
  {
    hide RxAccounted, TxAccounted, Recorded;
  }

  /** The program has looked at the Rx ring and taken nothing. */
  function Looked(n: One): One {
    var s := n.lane.link;
    n.(lane := n.lane.(link := s.(p := s.p.(rxSeen := |s.k.rxLog|))))
  }

  /** A receive that may take nothing, because the batch size is zero. */
  lemma LookOnly(run: seq<Swapper>) returns (more: seq<Swapper>)
    requires run != [] && IsRun(run)
    requires var l := run[|run| - 1]; l.at == Receiving && l.batch == 0 && l.Link().p.rxSeen <= l.Link().p.rxTaken
    ensures Continues(run, more)
    ensures var l := run[|run| - 1];
      && more[|more| - 1] == l.(one := Looked(l.one), at := Sending)
      && OneReceive(l.one, Looked(l.one), l.facts, 0) && ReceivesEnough(l.one, 0, 0)
      && ReceivesShown(l.one, Looked(l.one), 0, 0)
  {
    hide IsRun, Kept, Tracked, RxAccounted, TxAccounted, Recorded;
    Known(run);
    var l := run[|run| - 1];
    KeptLink(l.one, l.facts);
    var m := AfterReceive(l, Looked(l.one), 0);
    assert l.swaps + Zeros(0) == l.swaps;
    MovedReflexive(m.Link());
    assert BufsOf(Received(l.Link(), m.Link()), l.facts.bufLen, BufCustom) == [];
    ReceiveIsStep(l, m, 0);
    RunOn(run, m);
    more := run + [m];
  }

  /** A forward with nothing to send. */
  lemma SendNothing(run: seq<Swapper>) returns (more: seq<Swapper>)
    requires run != [] && IsRun(run) && run[|run| - 1].at == Sending && run[|run| - 1].one.lane.pending == []
    ensures Continues(run, more) && more[|more| - 1] == run[|run| - 1].(at := Receiving)
    ensures var l := run[|run| - 1]; OneForward(l.one, l.one, 0) && ForwardsEnough(l.one, 0, l.batch)
  {
    hide IsRun, OneReceive, OneForward, OneFill, OneService;
    NothingFound(run);
    var l := run[|run| - 1];
    ForwardIsStep(l, l.(at := Receiving), 0);
    RunOn(run, l.(at := Receiving));
    more := run + [l.(at := Receiving)];
  }

  lemma Send(run: seq<Swapper>, k: nat) returns (more: seq<Swapper>)
    requires run != [] && IsRun(run)
    requires var l := run[|run| - 1];
      && l.at == Sending && k == Min(|l.one.lane.pending|, l.batch) > 0
      && |l.Link().p.sent| - l.Link().k.txTaken + k <= l.Link().cfg.txSize
    ensures Continues(run, more)
    ensures var l := run[|run| - 1];
      && more[|more| - 1] == l.(one := Sent(l.one, k), at := Receiving)
      && OneForward(l.one, Sent(l.one, k), k) && ForwardsEnough(l.one, k, l.batch)
  {
    hide IsRun, Kept, Tracked, RxAccounted, TxAccounted, Recorded;
    Known(run);
    var l := run[|run| - 1];
    var m := l.(one := Sent(l.one, k), at := Receiving);
    assert m.Link().p.sent[..m.Link().k.txTaken] == l.Link().p.sent[..l.Link().k.txTaken];
    MovedReflexive(m.Link());
    ForwardIsStep(l, m, k);
    RunOn(run, m);
    more := run + [m];
  }

  /** The lane and pool after a fill of `k`. */
  function Handed(n: One, k: nat): One {
    var l := n.lane;
    if k > |n.bufs| || k > l.deficit then n
    else One(l.(link := l.link.(p := l.link.p.Fills(FillOrder(n.bufs, k))),
           deficit := l.deficit - k, stats := l.stats.(fq := l.stats.fq + k)),
        n.bufs[..|n.bufs| - k])
  }

  lemma Fill(run: seq<Swapper>, k: nat) returns (more: seq<Swapper>)
    requires run != [] && IsRun(run)
    requires var n := run[|run| - 1].one; k == Min(|n.bufs|, n.lane.deficit)
    ensures Continues(run, more)
    ensures var l := run[|run| - 1];
      && more[|more| - 1] == l.(one := Handed(l.one, k)) && OneFill(l.one, Handed(l.one, k), k)
  {
    hide IsRun, Kept, Tracked, RxAccounted, TxAccounted, Recorded, FillOrder;
    Known(run);
    var l := run[|run| - 1];
    OneFacts(l.one, l.facts);
    var m := l.(one := Handed(l.one, k));
    assert m.Link().p.filled[..m.Link().k.fillTaken] == l.Link().p.filled[..l.Link().k.fillTaken];
    MovedReflexive(m.Link());
    FillIsStep(l, m, k);
    RunOn(run, m);
    more := run + [m];
  }

  /** The lane and pool after a service of `k`. */
  function Back(n: One, f: Forwarding.Facts, k: nat): One
    requires n.lane.link.p.compTaken + k <= |n.lane.link.k.compLog|
  {
    var l := n.lane;
    var s := l.link.(p := l.link.p.Services(k, |l.link.k.compLog|));
    One(l.(link := s, stats := l.stats.(cq := l.stats.cq + k)),
        n.bufs + BufsOf(Blanks(Completed(l.link, s)), f.bufLen, BufCustom))
  }

  lemma Serve(run: seq<Swapper>, k: nat) returns (more: seq<Swapper>)
    requires run != [] && IsRun(run) && 0 < k <= run[|run| - 1].batch
    requires var s := run[|run| - 1].Link(); s.p.compSeen <= s.p.compTaken && s.p.compTaken + k == |s.k.compLog|
    ensures Continues(run, more)
    ensures var l := run[|run| - 1];
      && more[|more| - 1] == l.(one := Back(l.one, l.facts, k))
      && OneService(l.one, Back(l.one, l.facts, k), l.facts, k) && ServesEnough(l.one, k, l.batch)
      && CompGrants(l.Link(), Back(l.one, l.facts, k).lane.link, k, l.batch)
  {
    hide IsRun, Kept, Tracked, RxAccounted, TxAccounted, Recorded, BufsOf, Blanks;
    Known(run);
    var l := run[|run| - 1];
    var m := l.(one := Back(l.one, l.facts, k));
    MovedReflexive(m.Link());
    ServiceIsStep(l, m, k);
    RunOn(run, m);
    more := run + [m];
  }

  /** A service, a receive, a forward and a fill that find nothing. */
  lemma NothingFound(run: seq<Swapper>)
    requires run != [] && IsRun(run)
    ensures var l := run[|run| - 1];
      && OneService(l.one, l.one, l.facts, 0) && OneReceive(l.one, l.one, l.facts, 0)
      && OneForward(l.one, l.one, 0) && OneFill(l.one, l.one, 0)
  {
    hide IsRun, Kept, Tracked, RxAccounted, TxAccounted, Recorded;
    Known(run);
    var l := run[|run| - 1];
    KeptLink(l.one, l.facts);
    OneNothing(l.one, l.facts, l.mem);
    TurnReflexive(l.one);
    TurnIsService(l.one, l.one, l.facts);
  }

  /** A service that found nothing, with whatever the kernel did during it. */
  lemma TurnIsService(n: One, m: One, f: Forwarding.Facts)
    requires OneTurn(n, m) && n.lane.link.p.compTaken <= |n.lane.link.k.compLog|
    ensures OneService(n, m, f, 0)
  {
    hide LinkInv;
    assert BufsOf(Blanks(Completed(n.lane.link, m.lane.link)), f.bufLen, BufCustom) == [];
  }

  /** A completion ring with nothing to service shows nothing, whatever the kernel does after the look. */
  lemma NothingOwed(n: One, m: One, batch: nat)
    requires OneTurn(n, m) && LinkInv(n.lane.link) && |n.lane.link.k.compLog| <= n.lane.link.p.compTaken
    ensures CompGrants(n.lane.link, m.lane.link, 0, batch)
  {
    hide RxAccounted, TxAccounted, Recorded;
  }

  /** A service that looked before anything was completed, with whatever the kernel did since. */
  lemma ServedNothing(run: seq<Swapper>, serviced: One)
    requires run != [] && IsRun(run) && OneTurn(run[|run| - 1].one, serviced)
    requires var s := run[|run| - 1].Link(); |s.k.compLog| <= s.p.compTaken
    ensures var l := run[|run| - 1];
      && OneService(l.one, serviced, l.facts, 0) && ServesEnough(l.one, 0, l.batch)
      && CompGrants(l.Link(), serviced.lane.link, 0, l.batch)
  {
    hide IsRun, Kept, Tracked, OneTurn, OneService, LinkInv, CompGrants;
    Known(run);
    var l := run[|run| - 1];
    LinkFlow.LogBounds(l.Link());
    TurnIsService(l.one, serviced, l.facts);
    NothingOwed(l.one, serviced, l.batch);
  }

  // Several moves.

  /** A pass up to its forward: packets arrive, there is nothing to service, `c` of them are received and swapped. */
  lemma Burst(run: seq<Swapper>, c: nat, len: nat, bytes: seq<byte>) returns (more: seq<Swapper>, serviced: One)
    requires run != [] && IsRun(run) && c > 0
    requires var l := run[|run| - 1];
      && l.at == Receiving && l.Link().k.held == [] && l.Link().k.feed == Any
      && l.Link().p.rxTaken == |l.Link().k.rxLog| == |l.Link().k.arrived|
      && l.Link().k.fillTaken + c <= |l.Link().p.filled| && c <= l.Link().cfg.rxSize && c <= l.batch
      && |l.one.lane.pending| + c <= PENDING_LEN && len <= |bytes| == l.Link().cfg.bufLen - RESERVED
    ensures Continues(run, more)
    ensures var l, m := run[|run| - 1], more[|more| - 1];
      var s, t := l.Link(), m.Link();
      && m.at == Sending && m.batch == l.batch && m.facts == l.facts && t.cfg == s.cfg
      && t.p == s.p.Receives(c, s.p.rxTaken + c)
      && t.k == s.k.(fillTaken := s.k.fillTaken + c, rxLog := t.k.rxLog, arrived := t.k.arrived)
      && |t.k.rxLog| == |t.k.arrived| == s.p.rxTaken + c && s.k.arrived <= t.k.arrived && s.k.rxLog <= t.k.rxLog
      && (forall i :: |s.k.rxLog| <= i < |t.k.rxLog| ==> t.k.arrived[i] == bytes && t.k.rxLog[i].len == len)
      && |m.one.lane.pending| == |l.one.lane.pending| + c && m.one.bufs == l.one.bufs
      && m.one.lane.deficit == l.one.lane.deficit + c
      && m.stays == Bump(l.stays + Zeros(c), |s.p.sent|)
      && OneTurn(l.one, serviced) && OneReceive(serviced, m.one, l.facts, c) && ReceivesEnough(serviced, c, l.batch)
      && ReceivesShown(serviced, m.one, c, l.batch)
  {
    hide IsRun, Got, AfterReceive, OneReceive, ReceivesEnough, ReceivesShown, OneTurn;
    SeenAll(run);
    var r1 := Packets(run, c, len, bytes);
    var r2 := Receive(r1, c);
    var l, m := r1[|r1| - 1], r2[|r2| - 1];
    ReceiveFacts(l, c);
    more := Swap(r2);
    serviced := l.one;
    Extend(run, r1, r2);
    Extend(run, r2, more);
  }

  /** Who has taken everything has seen everything. */
  lemma SeenAll(run: seq<Swapper>)
    requires run != [] && IsRun(run)
    ensures var s := run[|run| - 1].Link();
      && (s.p.rxTaken == |s.k.rxLog| ==> s.p.rxSeen == s.p.rxTaken)
      && (s.p.compTaken == |s.k.compLog| ==> s.p.compSeen == s.p.compTaken)
  {
    hide IsRun, Kept, Tracked, RxAccounted, TxAccounted, Recorded;
    Known(run);
  }

  lemma ReceiveFacts(l: Swapper, c: nat)
    requires c > 0 && l.Link().p.rxTaken + c <= |l.Link().k.rxLog|
    ensures var m := AfterReceive(l, Got(l.one, l.facts, c), c);
      && m.at == Swapping && m.batch == l.batch && m.facts == l.facts && m.mem == l.mem
      && m.Link() == l.Link().(p := l.Link().p.Receives(c, |l.Link().k.rxLog|))
      && |m.one.lane.pending| == |l.one.lane.pending| + c && m.one.bufs == l.one.bufs
      && m.one.lane.deficit == l.one.lane.deficit + c
      && m.stays == Bump(l.stays + Zeros(c), |l.Link().p.sent|)
  {
  }

  // Two passes that fill the deque while a frame is still on the Tx ring.

  /** The first packet is received, swapped and on the Tx ring. */
  ghost predicate OneOnTheRing(n: Swapper, bufNum: nat, bufLen: ChunkLen, batch: nat) {
    var s := n.Link();
    && n.at == Receiving && n.batch == batch && n.facts == AreaFacts(bufNum, bufLen)
    && s.cfg == Forwarding.RingConfig(bufLen)
    && |s.p.filled| == 2049 && s.k.fillTaken == 1 && |n.one.bufs| == bufNum - 2049 && n.one.lane.deficit == 0
    && s.k.held == [] && s.k.feed == Any && s.p.rxTaken == |s.k.rxLog| == |s.k.arrived| == 1
    && |s.p.sent| == 1 && s.k.txTaken == 0 && s.k.flight == [] && s.k.compLog == [] && s.p.compTaken == 0
    && n.one.lane.pending == [] && n.stays == [1] && s.k.wire == []
  }

  lemma FirstPacket(bufNum: nat, bufLen: ChunkLen, batch: nat, len: nat, bytes: seq<byte>)
    returns (run: seq<Swapper>, x: OnePass)
    requires bufNum >= 2050 && bufLen >= RESERVED + 12 && batch > 0 && len <= |bytes| == bufLen - RESERVED
    ensures run != [] && run[0] == StartSwapper(bufNum, bufLen, batch)
    ensures Paced(run, [0, |run| - 1], [x]) && OneOnTheRing(run[|run| - 1], bufNum, bufLen, batch)
  {
    hide IsRun, Fresh, OneTurn, OneReceive, OneForward, OneFill, ReceivesEnough, ForwardsEnough, Paced;
    hide ReceivesShown, CompGrants;
    var n := StartSwapper(bufNum, bufLen, batch);
    StartsFresh(bufNum, bufLen, batch);
    SingletonRun([n]);
    var r1, serviced := Burst([n], 1, len, bytes);
    var r2 := Send(r1, 1);
    run := Fill(r2, 1);
    Extend([n], r1, r2);
    Extend([n], r2, run);
    ServedNothing([n], serviced);
    x := OnePass(serviced, r1[|r1| - 1].one, r2[|r2| - 1].one, 0, 1, 1, 1);
    NoPass([n]);
    PacedOn([n], [0], [], run, x);
    assert [0] + [|run| - 1] == [0, |run| - 1] && [] + [x] == [x];
  }

  /** How much of a deficit of 2048 the pool has left. */
  function Left(bufNum: nat): nat
    requires bufNum >= 2050
  {
    Min(bufNum - 2049, 2048)
  }

  /** 2048 more were received and swapped, and the ring has refused them. */
  ghost predicate Refused(n: Swapper, bufNum: nat, bufLen: ChunkLen, batch: nat, len: nat, bytes: seq<byte>)
    requires bufNum >= 2050
  {
    var s := n.Link();
    && n.at == Receiving && n.batch == batch && n.facts == AreaFacts(bufNum, bufLen)
    && s.cfg == Forwarding.RingConfig(bufLen)
    && |s.p.filled| == 2049 + Left(bufNum) && s.k.fillTaken == 2049
    && |n.one.bufs| == bufNum - 2049 - Left(bufNum) && n.one.lane.deficit == 2048 - Left(bufNum)
    && s.k.held == [] && s.k.feed == Any && s.p.rxTaken == |s.k.rxLog| == |s.k.arrived| == 2049
    && |s.p.sent| == 1 && s.k.txTaken == 0 && s.k.flight == [] && s.k.compLog == [] && s.p.compTaken == 0
    && |n.one.lane.pending| == 2048 && |n.stays| == 2049 && n.stays[1] == 1
    && s.k.arrived[1] == bytes && s.k.rxLog[1].len == len && s.k.wire == []
  }

  lemma FullDeque(bufNum: nat, bufLen: ChunkLen, batch: nat, len: nat, bytes: seq<byte>)
    returns (run: seq<Swapper>, marks: seq<nat>, passes: seq<OnePass>)
    requires bufNum >= 2050 && bufLen >= RESERVED + 12 && batch >= 2048 && len <= |bytes| == bufLen - RESERVED
    ensures run != [] && run[0] == StartSwapper(bufNum, bufLen, batch)
    ensures |passes| == 2 && Paced(run, marks, passes) && marks[2] == |run| - 1
    ensures Refused(run[|run| - 1], bufNum, bufLen, batch, len, bytes)
  {
    hide IsRun, OneTurn, OneReceive, OneForward, OneFill, ReceivesEnough, ForwardsEnough, Paced;
    var first, x := FirstPacket(bufNum, bufLen, batch, len, bytes);
    PacedRun(first, [0, |first| - 1], [x]);
    var more, y := RefusedPass(first, bufNum, bufLen, batch, len, bytes);
    PacedOn(first, [0, |first| - 1], [x], more, y);
    run, marks, passes := more, [0, |first| - 1] + [|more| - 1], [x] + [y];
  }

  lemma RefusedPass(run: seq<Swapper>, bufNum: nat, bufLen: ChunkLen, batch: nat, len: nat, bytes: seq<byte>)
    returns (more: seq<Swapper>, x: OnePass)
    requires bufNum >= 2050 && bufLen >= RESERVED + 12 && batch >= 2048 && len <= |bytes| == bufLen - RESERVED
    requires run != [] && IsRun(run) && OneOnTheRing(run[|run| - 1], bufNum, bufLen, batch)
    ensures Continues(run, more) && Refused(more[|more| - 1], bufNum, bufLen, batch, len, bytes)
    ensures OnePassed(run[|run| - 1].one, x, more[|more| - 1].one, AreaFacts(bufNum, bufLen), batch)
  {
    hide IsRun, OneTurn, OneReceive, OneForward, OneFill, ReceivesEnough, ForwardsEnough;
    hide OneService, ServesEnough, ReceivesShown, CompGrants;
    var n := run[|run| - 1];
    var r1, serviced := Burst(run, 2048, len, bytes);
    var r2 := Refuse(r1);
    more := Fill(r2, Left(bufNum));
    Extend(run, r1, r2);
    Extend(run, r2, more);
    ServedNothing(run, serviced);
    x := OnePass(serviced, r1[|r1| - 1].one, r2[|r2| - 1].one, 0, 2048, 0, Left(bufNum));
  }
}
