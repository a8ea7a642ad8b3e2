/** The forwarding loop shared by l2fwd-2link and every worker of l2fwd-2link-multicore, as values:
    what its state is, what one action does to it, and what every action keeps. */
module Forwarding {
  import opened Bits
  import opened Frames
  import opened LinkState
  import opened LinkFlow

  const RING_SIZE: nat := 2048
  const SOCKET_BATCH_SIZE: nat := 64
  const SERVICE_BATCH_SIZE: nat := 64
  const FILL_THRESHOLD: nat := 64

  datatype Stats = Stats(cq: nat, fq: nat, rx: nat, tx: nat)

  /** Everything the loop keeps for one link. */
  datatype Lane = Lane(link: State, pending: seq<Frame>, deficit: nat, stats: Stats)

  datatype Net = Net(lanes: seq<Lane>, bufs: seq<Frame>)

  /** What is fixed when the loop starts: the chunk length, how many buffers each initial fill handed
      over, the frames this loop owns, and the capacity of its Vec. */
  datatype Facts = Facts(bufLen: ChunkLen, initial: nat, owned: multiset<Addr>, capacity: nat)

  ghost predicate Reasonable(f: Facts) {
    f.initial <= RING_SIZE && 2 * f.initial <= |f.owned| <= f.capacity
  }

  function RingConfig(bufLen: ChunkLen): Config {
    Config(bufLen, RING_SIZE, RING_SIZE, RING_SIZE, RING_SIZE)
  }

  /** Per link: the deficit is exactly what is missing from the Rx path, and the counters count. */
  ghost predicate LaneInv(l: Lane, f: Facts) {
    && LinkInv(l.link) && l.link.p.Idle() && l.link.cfg == RingConfig(f.bufLen)
    && Addressed(l.link)
    && |l.pending| <= PENDING_LEN && AllWellFormed(l.pending, f.bufLen)
    && l.deficit + |l.link.p.filled| == f.initial + l.link.p.rxTaken
    && f.initial <= |l.link.p.filled|
    && l.stats == Stats(l.link.p.compTaken, |l.link.p.filled| - f.initial, l.link.p.rxTaken, |l.link.p.sent|)
  }

  /** Per direction: what was received is what was submitted on the other link, followed by what is
      still pending. */
  ghost predicate InOrder(rx: Lane, tx: Lane)
    requires LinkInv(rx.link)
  {
    rx.link.k.rxLog[..rx.link.p.rxTaken] == tx.link.p.sent + Descs(rx.pending)
  }

  ghost function LaneFrames(l: Lane): multiset<Addr>
    requires LinkInv(l.link)
  {
    multiset(Addrs(l.pending)) + InLink(l.link)
  }

  ghost function AllFrames(n: Net): multiset<Addr>
    requires |n.lanes| == 2 && LinkInv(n.lanes[0].link) && LinkInv(n.lanes[1].link)
  {
    multiset(Addrs(n.bufs)) + (LaneFrames(n.lanes[0]) + LaneFrames(n.lanes[1]))
  }

  /** The invariant of every loop head. */
  ghost predicate Sound(n: Net, f: Facts) {
    && Reasonable(f)
    && |n.lanes| == 2 && LaneInv(n.lanes[0], f) && LaneInv(n.lanes[1], f)
    && AllWellFormed(n.bufs, f.bufLen)
    && InOrder(n.lanes[0], n.lanes[1]) && InOrder(n.lanes[1], n.lanes[0])
    && AllFrames(n) == f.owned
  }

  // The loop's actions, each on link `pos`, with the kernel moving meanwhile.

  ghost predicate KernelTurn(n: Net, m: Net) {
    && |n.lanes| == |m.lanes| == 2 && m.bufs == n.bufs
    && (forall i :: 0 <= i < 2 ==>
          && m.lanes[i] == n.lanes[i].(link := m.lanes[i].link)
          && Moved(n.lanes[i].link, m.lanes[i].link) && LinkInv(m.lanes[i].link))
  }

  ghost predicate DidService(n: Net, m: Net, f: Facts, pos: nat, k: nat)
    requires pos < 2
  {
    && |n.lanes| == |m.lanes| == 2
    && var l, r := n.lanes[pos], m.lanes[pos];
    && m.lanes == n.lanes[pos := r]
    && r == l.(link := r.link, stats := l.stats.(cq := l.stats.cq + k))
    && LinkInv(r.link)
    && Moved(l.link.(p := l.link.p.Services(k, r.link.p.compSeen)), r.link)
    && l.link.p.compTaken + k <= |r.link.k.compLog|
    && m.bufs == n.bufs + BufsOf(Blanks(Completed(l.link, r.link)), f.bufLen, BufCustom)
    && |n.bufs| <= f.capacity && CompGrants(l.link, r.link, k, Min(f.capacity - |n.bufs|, SERVICE_BATCH_SIZE))
  }

  /** `k` packets moved from the Rx ring of a lane to its pending deque. */
  ghost predicate ReceivedBy(l: Lane, r: Lane, bufLen: ChunkLen, k: nat) {
    && LinkInv(r.link)
    && Moved(l.link.(p := l.link.p.Receives(k, r.link.p.rxSeen)), r.link)
    && l.link.p.rxTaken + k <= |r.link.k.rxLog|
    && r == l.(link := r.link, pending := l.pending + BufsOf(Received(l.link, r.link), bufLen, BufCustom),
               deficit := l.deficit + k, stats := l.stats.(rx := l.stats.rx + k))
    && |l.pending| + k <= PENDING_LEN
  }

  ghost predicate DidReceive(n: Net, m: Net, f: Facts, pos: nat, k: nat)
    requires pos < 2
  {
    && |n.lanes| == |m.lanes| == 2
    && var l, r := n.lanes[pos], m.lanes[pos];
    && m.lanes == n.lanes[pos := r] && m.bufs == n.bufs
    && ReceivedBy(l, r, f.bufLen, k)
    && RxGrants(l.link, r.link, k, Min(PENDING_LEN - |l.pending|, SOCKET_BATCH_SIZE))
  }

  /** `k` frames moved from the pending deque of one lane to the Tx ring of the other. */
  ghost predicate Forwarded(l: Lane, lo: Lane, r: Lane, ro: Lane, k: nat) {
    && k <= |l.pending|
    && r == l.(pending := l.pending[k..])
    && ro == lo.(link := ro.link, stats := lo.stats.(tx := lo.stats.tx + k))
    && LinkInv(ro.link)
    && Moved(lo.link.(p := lo.link.p.Sends(Descs(l.pending[..k]))), ro.link)
  }

  ghost predicate DidForward(n: Net, m: Net, pos: nat, k: nat)
    requires pos < 2
  {
    && |n.lanes| == |m.lanes| == 2
    && var l, lo := n.lanes[pos], n.lanes[1 - pos];
    && m.bufs == n.bufs
    && Forwarded(l, lo, m.lanes[pos], m.lanes[1 - pos], k)
    && (k == 0 || k == Min(|l.pending|, SOCKET_BATCH_SIZE))
    && (k == 0 ==> l.pending == [] ||
                   |lo.link.p.sent| - lo.link.k.txTaken + Min(|l.pending|, SOCKET_BATCH_SIZE) > lo.link.cfg.txSize)
  }

  ghost predicate DidFill(n: Net, m: Net, pos: nat, k: nat)
    requires pos < 2
  {
    && |n.lanes| == |m.lanes| == 2
    && var l, r := n.lanes[pos], m.lanes[pos];
    && m.lanes == n.lanes[pos := r]
    && k <= |n.bufs| && k <= l.deficit
    && m.bufs == n.bufs[..|n.bufs| - k]
    && r == l.(link := r.link, deficit := l.deficit - k, stats := l.stats.(fq := l.stats.fq + k))
    && LinkInv(r.link)
    && Moved(l.link.(p := l.link.p.Fills(FillOrder(n.bufs, k))), r.link)
  }

  /** A fill does exactly what its deficit and the pool allow. */
  predicate ExactFill(n: Net, pos: nat, k: nat)
    requires pos < 2 && |n.lanes| == 2
  {
    k == if n.lanes[pos].deficit < FILL_THRESHOLD then 0 else Min(|n.bufs|, n.lanes[pos].deficit)
  }

  /** One pass through the loop for link `pos`: the kernels run, the program services, the kernels run, it
      receives, and so on through the forward and the fill. */
  datatype Pass = Pass(m0: Net, serviced: Net, m1: Net, received: Net, m2: Net, forwarded: Net, m3: Net,
                       cq: nat, rx: nat, tx: nat, fq: nat)

  ghost predicate Passed(n: Net, x: Pass, q: Net, f: Facts, pos: nat)
    requires pos < 2
  {
    && KernelTurn(n, x.m0) && DidService(x.m0, x.serviced, f, pos, x.cq)
    && KernelTurn(x.serviced, x.m1) && DidReceive(x.m1, x.received, f, pos, x.rx)
    && KernelTurn(x.received, x.m2) && DidForward(x.m2, x.forwarded, pos, x.tx)
    && KernelTurn(x.forwarded, x.m3) && DidFill(x.m3, q, pos, x.fq) && ExactFill(x.m3, pos, x.fq)
  }

  /** One of the four actions of a pass, with any kernel activity before it. */
  ghost predicate PartDone(n: Net, mid: Net, m: Net, f: Facts, pos: nat, stage: nat, k: nat)
    requires pos < 2 && stage < 4
  {
    && KernelTurn(n, mid)
    && (stage == 0 ==> DidService(mid, m, f, pos, k))
    && (stage == 1 ==> DidReceive(mid, m, f, pos, k))
    && (stage == 2 ==> DidForward(mid, m, pos, k))
    && (stage == 3 ==> DidFill(mid, m, pos, k) && ExactFill(mid, pos, k))
  }

  /** The loop as a run: `heads` are its states, link 0 and link 1 taking turns from `pos` on. */
  ghost predicate Looped(heads: seq<Net>, passes: seq<Pass>, f: Facts, pos: nat) {
    && |heads| == |passes| + 1
    && forall i :: 0 <= i < |passes| ==> Passed(heads[i], passes[i], heads[i + 1], f, (pos + i) % 2)
  }

  /** One more pass. */
  lemma LoopedOn(heads: seq<Net>, passes: seq<Pass>, x: Pass, q: Net, f: Facts, pos: nat)
    requires Looped(heads, passes, f, pos) && Passed(heads[|passes|], x, q, f, (pos + |passes|) % 2)
    ensures Looped(heads + [q], passes + [x], f, pos)
  {
    hide Passed;
  }

  lemma NotLooped(n: Net, f: Facts, pos: nat)
    ensures Looped([n], [], f, pos)
  {
  }

  // Every action keeps the invariant.

  lemma KernelTurnKeeps(n: Net, m: Net, f: Facts)
    requires Sound(n, f) && KernelTurn(n, m)
    ensures Sound(m, f)
  {
    hide LinkInv, Progress, Addressed, RxStages, TxStages, AllWellFormed, Descs, Addrs;
    forall i | 0 <= i < 2 ensures LaneInv(m.lanes[i], f) && LaneFrames(m.lanes[i]) == LaneFrames(n.lanes[i]) {
      KernelKeepsFrames(n.lanes[i].link, m.lanes[i].link);
    }
    LogPrefix(n.lanes[0].link, m.lanes[0].link);
    LogPrefix(n.lanes[1].link, m.lanes[1].link);
  }

  lemma LogPrefix(s: State, t: State)
    requires LinkInv(s) && LinkInv(t)
    requires Progress(s.k, t.k)
    ensures s.p.rxTaken <= |s.k.rxLog| <= |t.k.rxLog| && t.k.rxLog[..s.p.rxTaken] == s.k.rxLog[..s.p.rxTaken]
    ensures s.p.compTaken <= |s.k.compLog| && t.p.rxTaken <= |t.k.rxLog| && t.p.compTaken <= |t.k.compLog|
  {
  }

  /** Buffers built from descriptors carry their addresses and are well formed when those are. */
  lemma BuiltBufs<T>(ds: seq<Desc>, bufLen: ChunkLen, user: T)
    requires AllHome(DescAddrs(ds), bufLen)
    ensures Addrs(BufsOf(ds, bufLen, user)) == DescAddrs(ds)
    ensures AllWellFormed(BufsOf(ds, bufLen, user), bufLen)
    ensures Descs(BufsOf(ds, bufLen, user)) == ds
  {
    forall i | 0 <= i < |ds| ensures WellFormed(BufsOf(ds, bufLen, user)[i], bufLen) {
      assert DescAddrs(ds)[i] == ds[i].addr;
    }
  }

  lemma BlankBufs<T>(s: seq<Addr>, bufLen: ChunkLen, user: T)
    requires AllHome(s, bufLen)
    ensures Addrs(BufsOf(Blanks(s), bufLen, user)) == s
    ensures AllWellFormed(BufsOf(Blanks(s), bufLen, user), bufLen)
  {
    assert DescAddrs(Blanks(s)) == s;
    BuiltBufs(Blanks(s), bufLen, user);
  }

  lemma WellFormedConcat<T>(a: seq<Buf<T>>, b: seq<Buf<T>>, bufLen: ChunkLen)
    requires AllWellFormed(a, bufLen) && AllWellFormed(b, bufLen)
    ensures AllWellFormed(a + b, bufLen)
    ensures multiset(Addrs(a + b)) == multiset(Addrs(a)) + multiset(Addrs(b))
    ensures Descs(a + b) == Descs(a) + Descs(b)
  {
    AddrsConcat(a, b);
  }

  lemma ServiceKeeps(n: Net, m: Net, f: Facts, pos: nat, k: nat)
    requires pos < 2 && Sound(n, f) && DidService(n, m, f, pos, k)
    ensures Sound(m, f)
  {
    hide LinkInv, Progress, Addressed, RxStages, TxStages, AllWellFormed, Descs, Addrs, BufsOf, Blanks;
    hide Completed, AllHome;
    var s, t := n.lanes[pos].link, m.lanes[pos].link;
    AfterService(s, t, k);
    LogPrefix(s, t);
    var got := BufsOf(Blanks(Completed(s, t)), f.bufLen, BufCustom);
    BlankBufs(Completed(s, t), f.bufLen, BufCustom);
    WellFormedConcat(n.bufs, got, f.bufLen);
  }

  lemma ReceiveKeeps(n: Net, m: Net, f: Facts, pos: nat, k: nat)
    requires pos < 2 && Sound(n, f) && DidReceive(n, m, f, pos, k)
    ensures Sound(m, f)
  {
    hide LinkInv, Progress, InLink, AllWellFormed, Descs, Addrs, InOrder, LaneFrames, ReceivedBy;
    ReceiveLane(n.lanes[pos], n.lanes[1 - pos], m.lanes[pos], f, k);
  }

  lemma ReceiveLane(l: Lane, o: Lane, r: Lane, f: Facts, k: nat)
    requires LaneInv(l, f) && LaneInv(o, f) && InOrder(l, o) && InOrder(o, l) && ReceivedBy(l, r, f.bufLen, k)
    ensures LaneInv(r, f) && InOrder(r, o) && InOrder(o, r)
    ensures LaneFrames(r) == LaneFrames(l)
  {
    hide LinkInv, Progress, Addressed, RxStages, TxStages, AllWellFormed, Descs, Addrs, BufsOf, AllHome, DescAddrs;
    var s, t := l.link, r.link;
    AfterReceive(s, t, k);
    LogPrefix(s, t);
    var got := BufsOf(Received(s, t), f.bufLen, BufCustom);
    BuiltBufs(Received(s, t), f.bufLen, BufCustom);
    WellFormedConcat(l.pending, got, f.bufLen);
    assert t.k.rxLog[..t.p.rxTaken] == s.k.rxLog[..s.p.rxTaken] + Received(s, t);
  }

  lemma ForwardKeeps(n: Net, m: Net, f: Facts, pos: nat, k: nat)
    requires pos < 2 && Sound(n, f) && DidForward(n, m, pos, k)
    ensures Sound(m, f)
  {
    hide LinkInv, Progress, InLink, AllWellFormed, Descs, Addrs, InOrder, LaneFrames, Forwarded;
    ForwardLanes(n.lanes[pos], n.lanes[1 - pos], m.lanes[pos], m.lanes[1 - pos], f, k);
    var first := multiset(Addrs(n.lanes[pos].pending[..k]));
    MoveBetween(multiset(Addrs(n.bufs)), LaneFrames(n.lanes[pos]), LaneFrames(n.lanes[1 - pos]),
                LaneFrames(m.lanes[pos]), LaneFrames(m.lanes[1 - pos]), first);
  }

  lemma MoveBetween(rest: multiset<Addr>, x: multiset<Addr>, y: multiset<Addr>,
                    x': multiset<Addr>, y': multiset<Addr>, moved: multiset<Addr>)
    requires x == x' + moved && y' == y + moved
    ensures rest + (x' + y') == rest + (x + y) == rest + (y' + x')
  {
  }

  lemma ForwardLanes(l: Lane, lo: Lane, r: Lane, ro: Lane, f: Facts, k: nat)
    requires LaneInv(l, f) && LaneInv(lo, f) && InOrder(l, lo) && InOrder(lo, l) && Forwarded(l, lo, r, ro, k)
    ensures LaneInv(r, f) && LaneInv(ro, f) && InOrder(r, ro) && InOrder(ro, r)
    ensures k <= |l.pending| && LaneFrames(l) == LaneFrames(r) + multiset(Addrs(l.pending[..k]))
    ensures LaneFrames(ro) == LaneFrames(lo) + multiset(Addrs(l.pending[..k]))
  {
    hide LinkInv, Progress, Addressed, RxStages, TxStages, AllWellFormed, Descs, Addrs, AllHome, DescAddrs;
    var all := l.pending;
    WellFormedSplit(all, k, f.bufLen);
    AfterSend(lo.link, ro.link, Descs(all[..k]));
    LogPrefix(lo.link, ro.link);
    LogPrefix(l.link, l.link) by { ProgressReflexive(l.link.k); }
    assert all == all[..k] + all[k..];
    AddrsConcat(all[..k], all[k..]);
  }

  lemma WellFormedSplit<T>(bufs: seq<Buf<T>>, k: nat, bufLen: ChunkLen)
    requires k <= |bufs| && AllWellFormed(bufs, bufLen)
    ensures AllWellFormed(bufs[..k], bufLen) && AllWellFormed(bufs[k..], bufLen)
    ensures AllHome(DescAddrs(Descs(bufs[..k])), bufLen)
    ensures DescAddrs(Descs(bufs[..k])) == Addrs(bufs[..k])
    ensures AllHome(Addrs(bufs[k..]), bufLen)
    ensures multiset(Addrs(bufs)) == multiset(Addrs(bufs[..k])) + multiset(Addrs(bufs[k..]))
  {
    DescAddrsOfBufs(bufs[..k]);
    AddrsSplit(bufs, k);
  }

  lemma FillKeeps(n: Net, m: Net, f: Facts, pos: nat, k: nat)
    requires pos < 2 && Sound(n, f) && DidFill(n, m, pos, k)
    ensures Sound(m, f)
  {
    hide LinkInv, Progress, Addressed, RxStages, TxStages, AllWellFormed, Descs, Addrs, AllHome, FillOrder;
    var s, t := n.lanes[pos].link, m.lanes[pos].link;
    var keep := |n.bufs| - k;
    WellFormedSplit(n.bufs, keep, f.bufLen);
    FillOrderHome(n.bufs, k, f.bufLen);
    AfterFill(s, t, FillOrder(n.bufs, k));
    LogPrefix(s, t);
    FillOrderIsSuffix(n.bufs, k);
  }

  lemma FillOrderHome<T>(bufs: seq<Buf<T>>, k: nat, bufLen: ChunkLen)
    requires k <= |bufs| && AllWellFormed(bufs, bufLen)
    ensures AllHome(FillOrder(bufs, k), bufLen)
  {
  }

  /** Any move of a run: the kernels, or the program on either link. */
  ghost predicate Step(n: Net, m: Net, f: Facts) {
    || KernelTurn(n, m)
    || (exists pos: nat, k: nat :: pos < 2 && DidService(n, m, f, pos, k))
    || (exists pos: nat, k: nat :: pos < 2 && DidReceive(n, m, f, pos, k))
    || (exists pos: nat, k: nat :: pos < 2 && DidForward(n, m, pos, k))
    || (exists pos: nat, k: nat :: pos < 2 && DidFill(n, m, pos, k))
  }

  /** Every run, whatever the order of the moves, keeps the invariant in every state. */
  lemma {:induction false} EveryRunSound(run: seq<Net>, f: Facts, i: nat)
    requires i < |run| && Sound(run[0], f)
    requires forall j :: 0 <= j < |run| - 1 ==> Step(run[j], run[j + 1], f)
    ensures Sound(run[i], f)
  {
    hide Sound, KernelTurn, DidService, DidReceive, DidForward, DidFill;
    if i > 0 {
      EveryRunSound(run, f, i - 1);
      var n, m := run[i - 1], run[i];
      assert Step(run[i - 1], run[i - 1 + 1], f);
      if KernelTurn(n, m) {
        KernelTurnKeeps(n, m, f);
      } else if pos: nat, k: nat :| pos < 2 && DidService(n, m, f, pos, k) {
        ServiceKeeps(n, m, f, pos, k);
      } else if pos: nat, k: nat :| pos < 2 && DidReceive(n, m, f, pos, k) {
        ReceiveKeeps(n, m, f, pos, k);
      } else if pos: nat, k: nat :| pos < 2 && DidForward(n, m, pos, k) {
        ForwardKeeps(n, m, f, pos, k);
      } else if pos: nat, k: nat :| pos < 2 && DidFill(n, m, pos, k) {
        FillKeeps(n, m, f, pos, k);
      }
    }
  }
}
