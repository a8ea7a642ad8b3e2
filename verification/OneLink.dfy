/** l2fwd-1link, as values: one link that sends back what it receives. The state of its loop is a `Lane`
    whose packets return to the same link. */
module OneLink {
  import opened Bits
  import opened Frames
  import opened LinkState
  import opened LinkFlow
  import opened Forwarding
  import opened ForwardFacts

  datatype One = One(lane: Lane, bufs: seq<Frame>)

  ghost function OneFrames(n: One): multiset<Addr>
    requires LinkInv(n.lane.link)
  {
    multiset(Addrs(n.bufs)) + LaneFrames(n.lane)
  }

  /** The invariant of every loop head. `InOrder` says that what was received is what was submitted, then
      what is still in the deque. */
  ghost predicate Kept(n: One, f: Facts) {
    && f.initial <= RING_SIZE && |f.owned| <= f.capacity
    && LaneInv(n.lane, f) && AllWellFormed(n.bufs, f.bufLen)
    && InOrder(n.lane, n.lane)
    && OneFrames(n) == f.owned
  }

  /** The initial fill is done and nothing else has happened in the program: the last buffers went to the
      link, last one first. */
  ghost predicate OneJustFilled(n: One, bufs: seq<Frame>, num: nat) {
    && num <= |bufs|
    && n.lane.link.p.filled == FillOrder(bufs, num) && n.bufs == bufs[..|bufs| - num]
    && n.lane.pending == [] && n.lane.deficit == 0 && n.lane.stats == Stats(0, 0, 0, 0)
    && n.lane.link.p.sent == [] && n.lane.link.p.rxTaken == n.lane.link.p.compTaken == 0
    && n.lane.link.cfg == Config(n.lane.link.cfg.bufLen, 2048, 2048, 2048, 2048)
  }

  ghost predicate OneTurn(n: One, m: One) {
    && m == n.(lane := n.lane.(link := m.lane.link))
    && Moved(n.lane.link, m.lane.link) && LinkInv(m.lane.link)
  }

  ghost predicate OneService(n: One, m: One, f: Facts, k: nat) {
    && var l, r := n.lane, m.lane;
    && r == l.(link := r.link, stats := l.stats.(cq := l.stats.cq + k))
    && LinkInv(r.link)
    && Moved(l.link.(p := l.link.p.Services(k, r.link.p.compSeen)), r.link)
    && l.link.p.compTaken + k <= |r.link.k.compLog|
    && m.bufs == n.bufs + BufsOf(Blanks(Completed(l.link, r.link)), f.bufLen, BufCustom)
  }

  ghost predicate OneReceive(n: One, m: One, f: Facts, k: nat) {
    ReceivedBy(n.lane, m.lane, f.bufLen, k) && m.bufs == n.bufs
  }

  ghost predicate OneForward(n: One, m: One, k: nat) {
    && var l, r := n.lane, m.lane;
    && k <= |l.pending| && m.bufs == n.bufs && LinkInv(r.link)
    && r == l.(link := r.link, pending := l.pending[k..], stats := l.stats.(tx := l.stats.tx + k))
    && Moved(l.link.(p := l.link.p.Sends(Descs(l.pending[..k]))), r.link)
  }

  ghost predicate OneFill(n: One, m: One, k: nat) {
    && var l, r := n.lane, m.lane;
    && k <= |n.bufs| && k <= l.deficit && LinkInv(r.link)
    && m.bufs == n.bufs[..|n.bufs| - k]
    && r == l.(link := r.link, deficit := l.deficit - k, stats := l.stats.(fq := l.stats.fq + k))
    && Moved(l.link.(p := l.link.p.Fills(FillOrder(n.bufs, k))), r.link)
  }

  // Each operation takes effect at one point, after everything the kernel did during it.

  /** From `n` on the kernel made the moves `ks`, taking the area's bytes from `before` to `after`. */
  ghost predicate OneKernelRan(n: One, before: seq<byte>, ks: seq<Snap>, after: seq<byte>) {
    ks != [] && Trace(n.lane.link, ks) && ks[0] == Snap(n.lane.link.k, before) && Last(ks).mem == after
  }

  /** The state right before an operation took effect: only the kernel has moved. */
  function OneBefore(n: One, ks: seq<Snap>): One
    requires ks != []
  {
    n.(lane := n.lane.(link := n.lane.link.(k := Last(ks).k)))
  }

  lemma OneServicedAt(n: One, m: One, f: Facts, ks: seq<Snap>, mem: seq<byte>, k: nat)
    requires OneService(n, m, f, k)
    requires Ran(n.lane.link, n.lane.link.p.Services(k, m.lane.link.p.compSeen), ks, m.lane.link, mem)
    ensures OneService(OneBefore(n, ks), m, f, k) && m.lane.link.k == Last(ks).k
  {
    hide Trace, LinkInv;
    MovedReflexive(m.lane.link);
    assert Completed(n.lane.link, m.lane.link) == Completed(OneBefore(n, ks).lane.link, m.lane.link);
  }

  lemma OneReceivedAt(n: One, m: One, f: Facts, ks: seq<Snap>, mem: seq<byte>, k: nat)
    requires OneReceive(n, m, f, k)
    requires Ran(n.lane.link, n.lane.link.p.Receives(k, m.lane.link.p.rxSeen), ks, m.lane.link, mem)
    ensures OneReceive(OneBefore(n, ks), m, f, k) && m.lane.link.k == Last(ks).k
  {
    hide Trace, LinkInv;
    MovedReflexive(m.lane.link);
    assert Received(n.lane.link, m.lane.link) == Received(OneBefore(n, ks).lane.link, m.lane.link);
  }

  lemma OneForwardedAt(n: One, m: One, ks: seq<Snap>, mem: seq<byte>, k: nat)
    requires k <= |n.lane.pending| && OneForward(n, m, k)
    requires Ran(n.lane.link, n.lane.link.p.Sends(Descs(n.lane.pending[..k])), ks, m.lane.link, mem)
    ensures OneForward(OneBefore(n, ks), m, k) && m.lane.link.k == Last(ks).k
  {
    hide Trace, LinkInv;
    MovedReflexive(m.lane.link);
  }

  lemma OneFilledAt(n: One, m: One, ks: seq<Snap>, mem: seq<byte>, k: nat)
    requires k <= |n.bufs| && OneFill(n, m, k)
    requires Ran(n.lane.link, n.lane.link.p.Fills(FillOrder(n.bufs, k)), ks, m.lane.link, mem)
    ensures OneFill(OneBefore(n, ks), m, k) && m.lane.link.k == Last(ks).k
  {
    hide Trace, LinkInv;
    MovedReflexive(m.lane.link);
  }

  /** An operation that had nothing to do. */
  lemma OneNothing(n: One, f: Facts, mem: seq<byte>)
    requires LinkInv(n.lane.link) && |n.lane.pending| <= PENDING_LEN && n.lane.link.p.rxTaken <= |n.lane.link.k.rxLog|
    ensures OneReceive(n, n, f, 0) && OneForward(n, n, 0) && OneFill(n, n, 0)
    ensures Ran(n.lane.link, n.lane.link.p, [Snap(n.lane.link.k, mem)], n.lane.link, mem)
    ensures n.lane.link.p.Fills(FillOrder(n.bufs, 0)) == n.lane.link.p
    ensures n.lane.link.p.Sends(Descs(n.lane.pending[..0])) == n.lane.link.p
  {
    hide LinkInv;
    MovedReflexive(n.lane.link);
    assert n.bufs[..|n.bufs| - 0] == n.bufs && n.lane.pending[0..] == n.lane.pending;
    assert BufsOf(Received(n.lane.link, n.lane.link), f.bufLen, BufCustom) == [];
    assert n.lane.link.p.filled + FillOrder(n.bufs, 0) == n.lane.link.p.filled;
    assert n.lane.link.p.sent + Descs(n.lane.pending[..0]) == n.lane.link.p.sent;
  }

  /** A receive or a forward of nothing, at the point where it takes effect, changes nothing but what the
      program has seen of the Rx ring. */
  lemma OneUnchanged(n: One, m: One, f: Facts)
    requires m.lane.link.k == n.lane.link.k
    requires (OneReceive(n, m, f, 0) && m.lane.link.p.rxSeen == n.lane.link.p.rxSeen) || OneForward(n, m, 0)
    ensures m == n
  {
    hide LinkInv;
    if OneReceive(n, m, f, 0) {
      assert BufsOf(Received(n.lane.link, m.lane.link), f.bufLen, BufCustom) == [];
    } else {
      assert n.lane.link.p.sent + Descs(n.lane.pending[..0]) == n.lane.link.p.sent;
    }
  }

  // How much each action does, for a batch size.

  ghost predicate ServesEnough(n: One, k: nat, batch: nat) {
    k <= batch && (k == 0 && batch > 0 ==> n.lane.link.p.compTaken >= |n.lane.link.k.compLog|)
  }

  ghost predicate ReceivesEnough(n: One, k: nat, batch: nat) {
    && k <= batch
    && (k == 0 && batch > 0 ==> n.lane.link.p.rxTaken >= |n.lane.link.k.rxLog| || |n.lane.pending| == PENDING_LEN)
  }

  /** Exactly what the ring showed, up to a batch and the room in the deque. */
  ghost predicate ReceivesShown(n: One, m: One, k: nat, batch: nat) {
    && |n.lane.pending| <= PENDING_LEN
    && RxGrants(n.lane.link, m.lane.link, k, Min(PENDING_LEN - |n.lane.pending|, batch))
  }

  ghost predicate ForwardsEnough(n: One, k: nat, batch: nat) {
    var c := Min(|n.lane.pending|, batch);
    && (k == 0 || k == c) && k <= n.lane.link.cfg.txSize
    && (k == 0 ==> c == 0 || |n.lane.link.p.sent| - n.lane.link.k.txTaken + c > n.lane.link.cfg.txSize)
  }

  /** One pass through the loop: the states after each action but the last, and how much each did. */
  datatype OnePass = OnePass(serviced: One, received: One, forwarded: One, cq: nat, rx: nat, tx: nat, fq: nat)

  ghost predicate OnePassed(n: One, x: OnePass, q: One, f: Facts, batch: nat) {
    && OneService(n, x.serviced, f, x.cq) && ServesEnough(n, x.cq, batch)
    && CompGrants(n.lane.link, x.serviced.lane.link, x.cq, batch)
    && OneReceive(x.serviced, x.received, f, x.rx) && ReceivesEnough(x.serviced, x.rx, batch)
    && ReceivesShown(x.serviced, x.received, x.rx, batch)
    && OneForward(x.received, x.forwarded, x.tx) && ForwardsEnough(x.received, x.tx, batch)
    && OneFill(x.forwarded, q, x.fq) && x.fq == Min(|x.forwarded.bufs|, x.forwarded.lane.deficit)
  }

  lemma OneTurnKeeps(n: One, m: One, f: Facts)
    requires Kept(n, f) && OneTurn(n, m)
    ensures Kept(m, f)
  {
    hide LinkInv, Progress, Addressed, RxStages, TxStages, AllWellFormed, Descs, Addrs;
    KernelKeepsFrames(n.lane.link, m.lane.link);
    LogPrefix(n.lane.link, m.lane.link);
  }

  lemma OneServiceKeeps(n: One, m: One, f: Facts, k: nat)
    requires Kept(n, f) && OneService(n, m, f, k)
    ensures Kept(m, f)
  {
    hide LinkInv, Progress, Addressed, RxStages, TxStages, AllWellFormed, Descs, Addrs, BufsOf, Blanks;
    hide Completed, AllHome;
    var s, t := n.lane.link, m.lane.link;
    AfterService(s, t, k);
    LogPrefix(s, t);
    BlankBufs(Completed(s, t), f.bufLen, BufCustom);
    WellFormedConcat(n.bufs, BufsOf(Blanks(Completed(s, t)), f.bufLen, BufCustom), f.bufLen);
  }

  /** The Vec never limits a service. */
  lemma OneServesAll(n: One, m: One, f: Facts, k: nat, batch: nat)
    requires OneService(n, m, f, k) && Kept(m, f) && |n.bufs| <= f.capacity
    requires CompGrants(n.lane.link, m.lane.link, k, Min(f.capacity - |n.bufs|, batch))
    ensures CompGrants(n.lane.link, m.lane.link, k, batch)
  {
    hide InOrder, AllWellFormed, Addressed, RxAccounted, TxAccounted, Recorded, BufsOf, Blanks, OneFrames;
    OneFacts(m, f);
  }

  lemma OneReceiveKeeps(n: One, m: One, f: Facts, k: nat)
    requires Kept(n, f) && OneReceive(n, m, f, k)
    ensures Kept(m, f)
  {
    hide LinkInv, Progress, Addressed, InLink, AllWellFormed, Addrs, Descs, LaneFrames;
    ReceiveLane(n.lane, n.lane, m.lane, f, k);
  }

  lemma OneForwardKeeps(n: One, m: One, f: Facts, k: nat)
    requires Kept(n, f) && OneForward(n, m, k)
    ensures Kept(m, f)
  {
    hide LinkInv, Progress, Addressed, RxStages, TxStages, AllWellFormed, Descs, Addrs, AllHome, DescAddrs;
    var all := n.lane.pending;
    WellFormedSplit(all, k, f.bufLen);
    AfterSend(n.lane.link, m.lane.link, Descs(all[..k]));
    LogPrefix(n.lane.link, m.lane.link);
    assert all == all[..k] + all[k..];
    AddrsConcat(all[..k], all[k..]);
  }

  lemma OneFillKeeps(n: One, m: One, f: Facts, k: nat)
    requires Kept(n, f) && OneFill(n, m, k)
    ensures Kept(m, f)
  {
    hide LinkInv, Progress, Addressed, RxStages, TxStages, AllWellFormed, Descs, Addrs, AllHome, FillOrder;
    var s, t := n.lane.link, m.lane.link;
    WellFormedSplit(n.bufs, |n.bufs| - k, f.bufLen);
    FillOrderHome(n.bufs, k, f.bufLen);
    AfterFill(s, t, FillOrder(n.bufs, k));
    LogPrefix(s, t);
    FillOrderIsSuffix(n.bufs, k);
  }

  /** The eight places a frame can be: the pool, the deque and six stages of the link. */
  ghost function OnePlaces(n: One): seq<multiset<Addr>>
    requires LinkInv(n.lane.link)
  {
    [multiset(Addrs(n.bufs)), multiset(Addrs(n.lane.pending))] + LinkStages(n.lane.link)
  }

  lemma SumOfOnePlaces(n: One)
    requires LinkInv(n.lane.link)
    ensures Sum(OnePlaces(n)) == OneFrames(n)
  {
    hide LinkInv, InLink, Addrs, LinkStages;
    var b, p := multiset(Addrs(n.bufs)), multiset(Addrs(n.lane.pending));
    SumOfLink(n.lane.link);
    SumConcat([b, p], LinkStages(n.lane.link));
    assert [b, p][1..] == [p];
    assert Sum([p]) == p;
  }

  lemma InOnePlace(n: One, f: Facts, i: nat, j: nat, a: Addr)
    requires Kept(n, f) && f.owned[a] <= 1 && i < j < 8
    ensures LinkInv(n.lane.link) && |OnePlaces(n)| == 8
    ensures OnePlaces(n)[i][a] + OnePlaces(n)[j][a] <= 1
  {
    hide LinkInv, Addressed, AllWellFormed, OneFrames, Sum, InOrder, LaneInv;
    assert LinkInv(n.lane.link) by { KeptLink(n, f); }
    SumOfOnePlaces(n);
    StagesDisjoint(OnePlaces(n), i, j, a);
  }

  lemma KeptLink(n: One, f: Facts)
    requires Kept(n, f)
    ensures LinkInv(n.lane.link) && n.lane.link.p.Idle() && n.lane.link.cfg == RingConfig(f.bufLen)
    ensures n.lane.link.p.rxTaken <= |n.lane.link.k.rxLog| && n.lane.link.k.txTaken <= |n.lane.link.p.sent|
    ensures |n.lane.link.p.sent| + |n.lane.pending| == n.lane.link.p.rxTaken
    ensures |n.lane.pending| <= PENDING_LEN
  {
  }

  /** The deficit is exactly what is missing from the Rx path, so a fill of all of it always fits, and
      the Vec has room for every completion. */
  lemma OneFacts(n: One, f: Facts)
    requires Kept(n, f)
    ensures LinkInv(n.lane.link)
    ensures |RxStages(n.lane.link)| + n.lane.deficit == f.initial
    ensures |n.lane.link.p.filled| - n.lane.link.k.fillTaken + n.lane.deficit <= n.lane.link.cfg.fillSize
    ensures |n.bufs| + (|n.lane.link.k.compLog| - n.lane.link.p.compTaken) <= f.capacity
    ensures |n.bufs| + |n.lane.pending| + |TxStages(n.lane.link)| + (f.initial - n.lane.deficit) == |f.owned|
  {
    hide RxStages, TxStages, Addressed, AllWellFormed, InOrder;
    CountLane(n.lane, f);
    assert |OneFrames(n)| == |n.bufs| + |LaneFrames(n.lane)|;
  }
}
