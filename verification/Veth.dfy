/** One worker of the veth test, as values: what it keeps for its port, what one action does to it, and
    what every action keeps. The deficits are bookkeeping over the whole run: thresholds and batch limits
    decide when the loop acts on them, so they are right only because of the invariant below. */
module Veth {
  import opened Bits
  import opened Frames
  import opened Memory
  import opened LinkState
  import opened LinkFlow
  import opened BiDirHash
  import Forwarding
  import ForwardFacts

  const RING_SIZE: nat := 512
  const BUF_SIZE: ChunkLen := 2048
  const BUF_NUM: nat := 4096
  const SOCKET_BATCH_SIZE: nat := 64
  const FILL_THRESHOLD: nat := 64
  const FILL_BATCH_SIZE: nat := 128
  const SERVICE_THRESHOLD: nat := 64
  const SERVICE_BATCH_SIZE: nat := 128

  datatype Stats = Stats(cqBufs: nat, fqBufs: nat, rx: nat, tx: nat, cqDeficit: nat, fqDeficit: nat)

  /** Everything a worker keeps: its link, its Vec, `pending_receive`, `pending_send` and its counts. */
  datatype Port = Port(link: State, bufs: seq<Frame>, inbox: seq<Frame>, outbox: seq<Frame>, stats: Stats)

  /** What is fixed when the loop starts: the frames this worker owns and the capacity of its Vec. */
  datatype Facts = Facts(owned: multiset<Addr>, capacity: nat)

  function RingConfig(): Config {
    Config(BUF_SIZE, RING_SIZE, RING_SIZE, RING_SIZE, RING_SIZE)
  }

  /** Both deficits are exact, and so are the counters. */
  ghost predicate Exact(p: Port) {
    && p.stats.cqDeficit + p.link.p.compTaken == |p.link.p.sent|
    && p.stats.fqDeficit + |p.link.p.filled| == RING_SIZE + p.link.p.rxTaken
    && RING_SIZE <= |p.link.p.filled|
    && p.stats.cqBufs == p.link.p.compTaken && p.stats.fqBufs == |p.link.p.filled| - RING_SIZE
    && p.stats.rx == p.link.p.rxTaken && p.stats.tx == |p.link.p.sent|
  }

  ghost function PortFrames(p: Port): multiset<Addr>
    requires LinkInv(p.link)
  {
    multiset(Addrs(p.bufs)) + multiset(Addrs(p.inbox)) + multiset(Addrs(p.outbox)) + InLink(p.link)
  }

  /** Every packet lies inside its frame. */
  ghost predicate AllInside(bufs: seq<Frame>) {
    forall i :: 0 <= i < |bufs| ==> bufs[i].len <= BUF_SIZE - RESERVED
  }

  /** The invariant of every loop head. */
  ghost predicate Sound(p: Port, f: Facts) {
    && LinkInv(p.link) && p.link.p.Idle() && p.link.cfg == RingConfig() && Addressed(p.link)
    && |p.inbox| <= PENDING_LEN && |p.outbox| <= PENDING_LEN
    && AllWellFormed(p.bufs, BUF_SIZE) && AllWellFormed(p.inbox, BUF_SIZE) && AllWellFormed(p.outbox, BUF_SIZE)
    && AllInside(p.inbox)
    && Exact(p)
    && PortFrames(p) == f.owned && |f.owned| <= f.capacity
  }

  // The worker's actions, with the kernel moving meanwhile.

  ghost predicate KernelTurn(p: Port, q: Port) {
    q == p.(link := q.link) && Moved(p.link, q.link) && LinkInv(q.link)
  }

  ghost predicate DidService(p: Port, q: Port, k: nat) {
    && LinkInv(q.link)
    && Moved(p.link.(p := p.link.p.Services(k, q.link.p.compSeen)), q.link)
    && p.link.p.compTaken + k <= |q.link.k.compLog|
    && k <= p.stats.cqDeficit
    && q == p.(link := q.link, bufs := p.bufs + BufsOf(Blanks(Completed(p.link, q.link)), BUF_SIZE, BufCustom),
               stats := p.stats.(cqBufs := p.stats.cqBufs + k, cqDeficit := p.stats.cqDeficit - k))
  }

  ghost predicate DidReceive(p: Port, q: Port, k: nat) {
    && LinkInv(q.link)
    && Moved(p.link.(p := p.link.p.Receives(k, q.link.p.rxSeen)), q.link)
    && p.link.p.rxTaken + k <= |q.link.k.rxLog|
    && |p.inbox| + k <= PENDING_LEN
    && q == p.(link := q.link, inbox := p.inbox + BufsOf(Received(p.link, q.link), BUF_SIZE, BufCustom),
               stats := p.stats.(rx := p.stats.rx + k, fqDeficit := p.stats.fqDeficit + k))
  }

  /** The test looked at every received packet and returned the buffers. */
  ghost predicate DidCheck(p: Port, q: Port) {
    q == p.(bufs := p.bufs + p.inbox, inbox := [])
  }

  /** The test queued packets of these contents in the last buffers of the Vec. */
  ghost predicate DidTransmit(p: Port, q: Port, pkts: seq<Packet>) {
    && |pkts| <= |p.bufs| && |p.outbox| + |pkts| <= PENDING_LEN
    && q == p.(bufs := p.bufs[..|p.bufs| - |pkts|], outbox := p.outbox + Queued(p.bufs, pkts))
  }

  ghost predicate DidSend(p: Port, q: Port, k: nat) {
    && k <= |p.outbox| && LinkInv(q.link)
    && Moved(p.link.(p := p.link.p.Sends(Descs(p.outbox[..k]))), q.link)
    && q == p.(link := q.link, outbox := p.outbox[k..],
               stats := p.stats.(tx := p.stats.tx + k, cqDeficit := p.stats.cqDeficit + k))
  }

  ghost predicate DidFill(p: Port, q: Port, k: nat) {
    && k <= |p.bufs| && k <= p.stats.fqDeficit && LinkInv(q.link)
    && Moved(p.link.(p := p.link.p.Fills(FillOrder(p.bufs, k))), q.link)
    && q == p.(link := q.link, bufs := p.bufs[..|p.bufs| - k],
               stats := p.stats.(fqBufs := p.stats.fqBufs + k, fqDeficit := p.stats.fqDeficit - k))
  }

  /** From `p` on the kernel made the moves `ks`, taking the area's bytes from `before` to `after`. */
  ghost predicate KernelRan(p: Port, before: seq<byte>, ks: seq<Snap>, after: seq<byte>) {
    ks != [] && Trace(p.link, ks) && ks[0] == Snap(p.link.k, before) && Last(ks).mem == after
  }

  /** The state right before an operation took effect: only the kernel has moved. */
  function Before(p: Port, ks: seq<Snap>): Port
    requires ks != []
  {
    p.(link := p.link.(k := Last(ks).k))
  }

  /** The initial fill is done and nothing else has happened in the program: the last buffers went to the
      link, last one first. */
  ghost predicate JustFilled(p: Port, bufs: seq<Frame>) {
    && 512 <= |bufs| && p.link.cfg == Config(2048, 512, 512, 512, 512)
    && p.link.p.filled == FillOrder(bufs, 512) && p.bufs == bufs[..|bufs| - 512]
    && p.inbox == [] && p.outbox == [] && p.stats == Stats(0, 0, 0, 0, 0, 0)
    && p.link.p.sent == [] && p.link.p.rxTaken == p.link.p.compTaken == 0
  }

  // How much each action does: when it acts at all, and what it leaves.

  /** Nothing below the threshold; else exactly what the ring showed, up to a batch. */
  ghost predicate ServesEnough(p: Port, q: Port, k: nat) {
    if p.stats.cqDeficit < SERVICE_THRESHOLD then k == 0 && q.link.p.compSeen == p.link.p.compSeen
    else CompGrants(p.link, q.link, k, SERVICE_BATCH_SIZE)
  }

  /** Exactly what the ring showed, up to a batch and the room in the deque. */
  ghost predicate ReceivesEnough(p: Port, q: Port, k: nat) {
    |p.inbox| <= PENDING_LEN && RxGrants(p.link, q.link, k, Min(PENDING_LEN - |p.inbox|, SOCKET_BATCH_SIZE))
  }

  ghost predicate SendsEnough(p: Port, k: nat) {
    var n := Min(|p.outbox|, SOCKET_BATCH_SIZE);
    && (k == 0 || k == n)
    && (k == 0 ==> n == 0 || |p.link.p.sent| - p.link.k.txTaken + n > p.link.cfg.txSize)
  }

  ghost predicate FillsEnough(p: Port, k: nat) {
    k == if p.stats.fqDeficit < FILL_THRESHOLD then 0 else Min(|p.bufs|, Min(FILL_BATCH_SIZE, p.stats.fqDeficit))
  }

  /** One pass through the loop: the states after each action but the last, and how much each did. */
  datatype Pass = Pass(serviced: Port, received: Port, examined: Port, queued: Port, sent: Port,
                       cq: nat, rx: nat, pkts: seq<Packet>, tx: nat, fq: nat)

  ghost predicate Passed(p: Port, x: Pass, q: Port) {
    && DidService(p, x.serviced, x.cq) && ServesEnough(p, x.serviced, x.cq)
    && DidReceive(x.serviced, x.received, x.rx) && ReceivesEnough(x.serviced, x.received, x.rx)
    && DidCheck(x.received, x.examined)
    && DidTransmit(x.examined, x.queued, x.pkts)
    && DidSend(x.queued, x.sent, x.tx) && SendsEnough(x.queued, x.tx)
    && DidFill(x.sent, q, x.fq) && FillsEnough(x.sent, x.fq)
  }

  /** What happened to the area's bytes in a pass: the kernel's moves during each operation, and the frames
      the test wrote, which left the bytes `queued`. */
  datatype Trail = Trail(service: seq<Snap>, receive: seq<Snap>, frames: seq<seq<byte>>, queued: seq<byte>,
                         send: seq<Snap>, fill: seq<Snap>)

  /** The whole pass with its bytes: kernel moves and the program's effects in turn, and nothing else. */
  ghost predicate Trod(p: Port, mem: seq<byte>, x: Pass, y: Trail, q: Port, after: seq<byte>) {
    && y.service != [] && y.receive != [] && y.send != [] && y.fill != []
    && KernelRan(p, mem, y.service, Last(y.service).mem) && DidService(Before(p, y.service), x.serviced, x.cq)
    && KernelRan(x.serviced, Last(y.service).mem, y.receive, Last(y.receive).mem)
    && DidReceive(Before(x.serviced, y.receive), x.received, x.rx)
    && Wrote(x.examined.bufs, x.pkts, y.frames, Last(y.receive).mem, y.queued)
    && KernelRan(x.queued, y.queued, y.send, Last(y.send).mem) && DidSend(Before(x.queued, y.send), x.sent, x.tx)
    && KernelRan(x.sent, Last(y.send).mem, y.fill, after) && DidFill(Before(x.sent, y.fill), q, x.fq)
  }

  /** What the test is asked for: how many packets, in bursts of what size, and the hash. */
  datatype Rules = Rules(total: nat, burst: nat, hasher: seq<byte> -> nat)

  /** The books of a port: the hashes of what it queued, what its checks counted, and how many packets it looked
      at and queued. */
  datatype Books = Books(hashes: map<nat, nat>, checks: Checks, received: nat, transmitted: nat)

  /** A pass in the books: every packet received was checked, in order, against the hashes `theirs` of the other
      port; and a burst was queued by the rule, numbered on and remembered. */
  ghost predicate Bookkept(b: Books, x: Pass, y: Trail, c: Books, theirs: map<nat, nat>, rules: Rules, due: bool) {
    && y.receive != [] && Legible(x.received.inbox, Last(y.receive).mem)
    && c.checks == CheckAll(b.checks, Arrivals(x.received.inbox, Last(y.receive).mem), theirs, rules.hasher)
    && c.received == b.received + |x.received.inbox| && c.transmitted == b.transmitted + |x.pkts|
    && Hashed(b.hashes, b.transmitted + 1, x.pkts, c.hashes, rules.hasher)
    && |x.examined.outbox| <= 4096
    && ByTheRule(|x.pkts|, rules.total, rules.burst, b.transmitted, due, 4096 - |x.examined.outbox|, |x.examined.bufs|)
  }

  /** A loop head: the worker's state, the area's bytes and the books. */
  datatype Head = Head(port: Port, mem: seq<byte>, books: Books)

  /** One pass, from head to head. */
  ghost predicate Went(h: Head, x: Pass, y: Trail, g: Head, theirs: map<nat, nat>, rules: Rules, due: bool) {
    && Passed(h.port, x, g.port) && Trod(h.port, h.mem, x, y, g.port, g.mem)
    && Bookkept(h.books, x, y, g.books, theirs, rules, due)
  }

  /** The loop as a run: one pass after the other, `dues` saying when the clock allowed a burst. */
  ghost predicate Looped(heads: seq<Head>, passes: seq<Pass>, trails: seq<Trail>, dues: seq<bool>,
                         theirs: map<nat, nat>, rules: Rules) {
    && |heads| == |dues| + 1 && |passes| == |trails| == |dues|
    && forall i :: 0 <= i < |dues| ==> Went(heads[i], passes[i], trails[i], heads[i + 1], theirs, rules, dues[i])
  }

  /** One more pass. */
  lemma LoopedOn(heads: seq<Head>, passes: seq<Pass>, trails: seq<Trail>, dues: seq<bool>, i: nat,
                 theirs: map<nat, nat>, rules: Rules, x: Pass, y: Trail, g: Head)
    requires i < |dues| && Looped(heads, passes, trails, dues[..i], theirs, rules)
    requires Went(heads[i], x, y, g, theirs, rules, dues[i])
    ensures Looped(heads + [g], passes + [x], trails + [y], dues[..i + 1], theirs, rules)
  {
    hide Went;
    var hs, xs, ys, ds := heads + [g], passes + [x], trails + [y], dues[..i + 1];
    forall j | 0 <= j < i + 1 ensures Went(hs[j], xs[j], ys[j], hs[j + 1], theirs, rules, ds[j]) {
      if j < i {
        assert dues[..i][j] == ds[j];
      }
    }
  }

  lemma NotLooped(h: Head, dues: seq<bool>, theirs: map<nat, nat>, rules: Rules)
    ensures Looped([h], [], [], dues[..0], theirs, rules)
  {
  }

  // Every action keeps the invariant.

  lemma KernelTurnKeeps(p: Port, q: Port, f: Facts)
    requires Sound(p, f) && KernelTurn(p, q)
    ensures Sound(q, f)
  {
    hide LinkInv, Progress, Addressed, RxStages, TxStages, AllWellFormed, Addrs;
    KernelKeepsFrames(p.link, q.link);
  }

  /** What `service` returns never exceeds the deficit: it is at most what was sent and not yet serviced. */
  lemma ServiceWithinDeficit(p: Port, f: Facts, t: State, k: nat)
    requires Sound(p, f) && LinkInv(t)
    requires Moved(p.link.(p := p.link.p.Services(k, t.p.compSeen)), t)
    requires p.link.p.compTaken + k <= |t.k.compLog|
    ensures k <= p.stats.cqDeficit
  {
    hide Addressed, AllWellFormed, PortFrames;
    TxBalance(t);
  }

  lemma ServiceKeeps(p: Port, q: Port, f: Facts, k: nat)
    requires Sound(p, f) && DidService(p, q, k)
    ensures Sound(q, f)
  {
    hide LinkInv, Progress, Addressed, RxStages, TxStages, AllWellFormed, Addrs, BufsOf, Blanks, Completed, AllHome;
    var s, t := p.link, q.link;
    AfterService(s, t, k);
    var got := BufsOf(Blanks(Completed(s, t)), BUF_SIZE, BufCustom);
    Forwarding.BlankBufs(Completed(s, t), BUF_SIZE, BufCustom);
    Forwarding.WellFormedConcat(p.bufs, got, BUF_SIZE);
  }

  lemma ReceiveKeeps(p: Port, q: Port, f: Facts, k: nat)
    requires Sound(p, f) && DidReceive(p, q, k)
    ensures Sound(q, f)
  {
    hide LinkInv, Progress, Addressed, RxStages, TxStages, AllWellFormed, Addrs, BufsOf, AllHome, DescAddrs, Received;
    var s, t := p.link, q.link;
    AfterReceive(s, t, k);
    ReceivedInside(s, t);
    var got := BufsOf(Received(s, t), BUF_SIZE, BufCustom);
    Forwarding.BuiltBufs(Received(s, t), BUF_SIZE, BufCustom);
    Forwarding.WellFormedConcat(p.inbox, got, BUF_SIZE);
  }

  lemma ReceivedInside(s: State, t: State)
    requires LinkInv(t) && t.cfg.bufLen == BUF_SIZE && s.p.rxTaken <= t.p.rxTaken <= |t.k.rxLog|
    ensures |Received(s, t)| == t.p.rxTaken - s.p.rxTaken
    ensures AllInside(BufsOf(Received(s, t), BUF_SIZE, BufCustom))
  {
  }

  lemma CheckKeeps(p: Port, q: Port, f: Facts)
    requires Sound(p, f) && DidCheck(p, q)
    ensures Sound(q, f)
  {
    hide LinkInv, Addressed, InLink;
    Forwarding.WellFormedConcat(p.bufs, p.inbox, BUF_SIZE);
  }

  lemma QueuedFrames(bufs: seq<Frame>, pkts: seq<Packet>)
    requires |pkts| <= |bufs| && AllWellFormed(bufs, BUF_SIZE)
    ensures Addrs(Queued(bufs, pkts)) == FillOrder(bufs, |pkts|)
    ensures AllWellFormed(Queued(bufs, pkts), BUF_SIZE)
    ensures multiset(Addrs(bufs)) == multiset(Addrs(bufs[..|bufs| - |pkts|])) + multiset(FillOrder(bufs, |pkts|))
  {
    AddrsSplit(bufs, |bufs| - |pkts|);
    FillOrderIsSuffix(bufs, |pkts|);
  }

  lemma TransmitKeeps(p: Port, q: Port, f: Facts, pkts: seq<Packet>)
    requires Sound(p, f) && DidTransmit(p, q, pkts)
    ensures Sound(q, f)
  {
    hide LinkInv, Addressed, InLink, AllWellFormed, Addrs, FillOrder;
    QueuedFrames(p.bufs, pkts);
    Forwarding.WellFormedSplit(p.bufs, |p.bufs| - |pkts|, BUF_SIZE);
    Forwarding.WellFormedConcat(p.outbox, Queued(p.bufs, pkts), BUF_SIZE);
  }

  lemma SendKeeps(p: Port, q: Port, f: Facts, k: nat)
    requires Sound(p, f) && DidSend(p, q, k)
    ensures Sound(q, f)
  {
    hide LinkInv, Progress, Addressed, RxStages, TxStages, AllWellFormed, Addrs, AllHome, DescAddrs, Descs;
    Forwarding.WellFormedSplit(p.outbox, k, BUF_SIZE);
    AfterSend(p.link, q.link, Descs(p.outbox[..k]));
  }

  lemma FillKeeps(p: Port, q: Port, f: Facts, k: nat)
    requires Sound(p, f) && DidFill(p, q, k)
    ensures Sound(q, f)
  {
    hide LinkInv, Progress, Addressed, RxStages, TxStages, AllWellFormed, Addrs, AllHome, FillOrder;
    Forwarding.WellFormedSplit(p.bufs, |p.bufs| - k, BUF_SIZE);
    Forwarding.FillOrderHome(p.bufs, k, BUF_SIZE);
    AfterFill(p.link, q.link, FillOrder(p.bufs, k));
    FillOrderIsSuffix(p.bufs, k);
  }

  // Each operation takes effect at one point, after everything the kernel did during it.

  lemma ServicedAt(p: Port, q: Port, ks: seq<Snap>, mem: seq<byte>, k: nat)
    requires Ran(p.link, p.link.p.Services(k, q.link.p.compSeen), ks, q.link, mem) && DidService(p, q, k)
    ensures DidService(Before(p, ks), q, k) && Last(ks) == Snap(q.link.k, mem)
  {
    hide Trace, LinkInv;
    MovedReflexive(q.link);
    assert Completed(p.link, q.link) == Completed(Before(p, ks).link, q.link);
  }

  lemma ReceivedAt(p: Port, q: Port, ks: seq<Snap>, mem: seq<byte>, k: nat)
    requires Ran(p.link, p.link.p.Receives(k, q.link.p.rxSeen), ks, q.link, mem) && DidReceive(p, q, k)
    ensures DidReceive(Before(p, ks), q, k) && Last(ks) == Snap(q.link.k, mem)
  {
    hide Trace, LinkInv;
    MovedReflexive(q.link);
    assert Received(p.link, q.link) == Received(Before(p, ks).link, q.link);
  }

  lemma SentAt(p: Port, q: Port, ks: seq<Snap>, mem: seq<byte>, k: nat)
    requires k <= |p.outbox| && DidSend(p, q, k)
    requires Ran(p.link, p.link.p.Sends(Descs(p.outbox[..k])), ks, q.link, mem)
    ensures DidSend(Before(p, ks), q, k) && Last(ks) == Snap(q.link.k, mem)
  {
    hide Trace, LinkInv;
    MovedReflexive(q.link);
  }

  lemma FilledAt(p: Port, q: Port, ks: seq<Snap>, mem: seq<byte>, k: nat)
    requires k <= |p.bufs| && DidFill(p, q, k)
    requires Ran(p.link, p.link.p.Fills(FillOrder(p.bufs, k)), ks, q.link, mem)
    ensures DidFill(Before(p, ks), q, k) && Last(ks) == Snap(q.link.k, mem)
  {
    hide Trace, LinkInv;
    MovedReflexive(q.link);
  }

  /** An operation that had nothing to do. */
  lemma NothingDone(p: Port, mem: seq<byte>)
    requires LinkInv(p.link) && p.link.p.compTaken <= |p.link.k.compLog|
    ensures DidService(p, p, 0) && DidFill(p, p, 0)
    ensures Ran(p.link, p.link.p, [Snap(p.link.k, mem)], p.link, mem)
    ensures p.link.p.Services(0, p.link.p.compSeen) == p.link.p
    ensures p.link.p.Fills(FillOrder(p.bufs, 0)) == p.link.p
  {
    hide LinkInv;
    MovedReflexive(p.link);
    assert p.bufs[..|p.bufs| - 0] == p.bufs;
    assert BufsOf(Blanks(Completed(p.link, p.link)), BUF_SIZE, BufCustom) == [];
    assert p.link.p.filled + FillOrder(p.bufs, 0) == p.link.p.filled;
  }

  /** What may still arrive is no concern of the worker's. */
  lemma FeedKeeps(p: Port, f: Facts, feed: Feed)
    requires Sound(p, f)
    ensures Sound(p.(link := p.link.(k := p.link.k.(feed := feed))), f)
  {
    hide AllWellFormed, Addrs, RxAccounted, TxAccounted, Recorded;
  }

  // What the invariant means.

  lemma SoundBasics(p: Port, f: Facts)
    requires Sound(p, f)
    ensures p.link.p.Idle() && LinkInv(p.link) && |p.inbox| <= PENDING_LEN && |p.outbox| <= PENDING_LEN
    ensures p.link.p.compTaken <= |p.link.k.compLog|
  {
  }

  /** The deficits are the frames the kernel side owes and holds: everything submitted for Tx and not
      yet serviced, and everything missing from the Rx path. */
  lemma DeficitsExact(p: Port, f: Facts)
    requires Sound(p, f)
    ensures LinkInv(p.link)
    ensures p.stats.cqDeficit == |TxStages(p.link)|
    ensures p.stats.fqDeficit + |RxStages(p.link)| == RING_SIZE
  {
    hide AllWellFormed, PortFrames;
    RxBalance(p.link);
    TxBalance(p.link);
    assert |multiset(p.link.p.filled)| ==
           |RxStages(p.link)| + |multiset(DescAddrs(p.link.k.rxLog[..p.link.p.rxTaken]))|;
  }

  /** A batch of the deficit always fits the fill ring, and the kernel always finds room on Rx. */
  lemma RoomToFill(p: Port, f: Facts)
    requires Sound(p, f)
    ensures |p.link.p.filled| - p.link.k.fillTaken + p.stats.fqDeficit <= p.link.cfg.fillSize
    ensures p.link.k.held != [] ==> |p.link.k.rxLog| - p.link.p.rxTaken < p.link.cfg.rxSize
  {
    hide AllWellFormed, PortFrames;
    RxBalance(p.link);
  }

  /** Frames in the pool, both deques and the link make up the worker's share, so the Vec always has
      room for every completion there is. */
  lemma VecHasRoom(p: Port, f: Facts)
    requires Sound(p, f)
    ensures |p.bufs| + |p.inbox| + |p.outbox| + p.stats.cqDeficit + (RING_SIZE - p.stats.fqDeficit) == |f.owned|
    ensures |p.bufs| + |p.inbox| + (|p.link.k.compLog| - p.link.p.compTaken) <= f.capacity
    ensures |p.bufs| + |p.inbox| <= f.capacity
  {
    hide AllWellFormed;
    DeficitsExact(p, f);
    TxBalance(p.link);
    hide LinkInv, RxStages, TxStages, Addressed;
    assert |PortFrames(p)| == |p.bufs| + |p.inbox| + |p.outbox| + (|RxStages(p.link)| + |TxStages(p.link)|);
  }

  /** So the Vec never limits a service. */
  lemma ServesAll(p: Port, q: Port, f: Facts, k: nat)
    requires DidService(p, q, k) && Sound(q, f) && |p.bufs| <= f.capacity
    requires CompGrants(p.link, q.link, k, Min(f.capacity - |p.bufs|, SERVICE_BATCH_SIZE))
    ensures CompGrants(p.link, q.link, k, SERVICE_BATCH_SIZE)
  {
    hide AllWellFormed, PortFrames, Addressed, RxAccounted, TxAccounted, Recorded, BufsOf, Blanks;
    VecHasRoom(q, f);
  }

  /** The nine places a frame can be. */
  ghost function Places(p: Port): seq<multiset<Addr>>
    requires LinkInv(p.link)
  {
    [multiset(Addrs(p.bufs)), multiset(Addrs(p.inbox)), multiset(Addrs(p.outbox))] + ForwardFacts.LinkStages(p.link)
  }

  lemma SumOfPlaces(p: Port)
    requires LinkInv(p.link)
    ensures ForwardFacts.Sum(Places(p)) == PortFrames(p)
  {
    hide LinkInv, InLink, Addrs, ForwardFacts.LinkStages;
    var b, i, o := multiset(Addrs(p.bufs)), multiset(Addrs(p.inbox)), multiset(Addrs(p.outbox));
    ForwardFacts.SumOfLink(p.link);
    ForwardFacts.SumOfThree(b, i, o);
    ForwardFacts.SumConcat([b, i, o], ForwardFacts.LinkStages(p.link));
  }

  /** A frame the worker owns once is in one place only, and there once. */
  lemma OnePlace(p: Port, f: Facts, i: nat, j: nat, a: Addr)
    requires Sound(p, f) && f.owned[a] <= 1 && i < j < 9
    ensures LinkInv(p.link) && |Places(p)| == 9
    ensures Places(p)[i][a] + Places(p)[j][a] <= 1
  {
    hide LinkInv, Addressed, AllWellFormed, PortFrames, ForwardFacts.Sum;
    assert LinkInv(p.link);
    SumOfPlaces(p);
    ForwardFacts.StagesDisjoint(Places(p), i, j, a);
  }

  // The bytes behind the buffers.

  /** Every frame the worker owns is its own once, and its data part lies in the area. */
  ghost predicate Backed(owned: multiset<Addr>, size: nat) {
    && (forall a :: a in owned ==> owned[a] == 1)
    && (forall a :: a in owned ==> a % BUF_SIZE == RESERVED && a + (BUF_SIZE - RESERVED) <= size)
  }

  /** Some of what a worker owns, in any of its places. */
  lemma OwnedOnce(p: Port, f: Facts, bufs: seq<Frame>, size: nat)
    requires Sound(p, f) && Backed(f.owned, size) && (bufs == p.bufs || bufs == p.inbox)
    ensures AllWellFormed(bufs, BUF_SIZE) && NoRepeats(Addrs(bufs))
    ensures forall i :: 0 <= i < |bufs| ==> bufs[i].addr + (BUF_SIZE - RESERVED) <= size
  {
    hide LinkInv, InLink, Addressed, NoRepeats;
    assert multiset(Addrs(bufs)) <= f.owned;
    OnceEach(Addrs(bufs), f.owned);
    hide Sound;
    forall i | 0 <= i < |bufs| ensures bufs[i].addr + (BUF_SIZE - RESERVED) <= size {
      InAddrs(bufs, i);
      assert bufs[i].addr in f.owned;
    }
  }

  /** Received packets lie inside their frames. */
  lemma InboxLegible(p: Port, f: Facts, mem: seq<byte>)
    requires Sound(p, f) && Backed(f.owned, |mem|)
    ensures Legible(p.inbox, mem)
  {
    hide LinkInv, InLink, Addressed, NoRepeats, Backed;
    OwnedOnce(p, f, p.inbox, |mem|);
  }

  /** The free buffers name different frames, each able to take any packet of the test. */
  lemma PoolReady(p: Port, f: Facts, mem: seq<byte>)
    requires Sound(p, f) && Backed(f.owned, |mem|)
    ensures forall i :: 0 <= i < |p.bufs| ==> Roomy(p.bufs[i], mem)
    ensures NoRepeats(Addrs(p.bufs))
  {
    OwnedOnce(p, f, p.bufs, |mem|);
    hide Sound, Backed, NoRepeats;
  }

  /** The slices written are those of the frames taken. */
  lemma SlicesOfFrames(bufs: seq<Frame>, n: nat)
    requires n <= |bufs| && AllWellFormed(bufs, BUF_SIZE)
    ensures SliceOrder(bufs, n) == FillOrder(bufs, n)
  {
  }
}
