/** What the forwarding invariant means: no frame is ever in two places, the counters agree, the fill
    ring always has room, the kernel always finds room on Rx, and the Vec never limits `service`. */
module ForwardFacts {
  import opened Bits
  import opened Frames
  import opened LinkState
  import opened LinkFlow
  import opened Forwarding

  ghost function Sum(stages: seq<multiset<Addr>>): multiset<Addr> {
    if stages == [] then multiset{} else stages[0] + Sum(stages[1..])
  }

  lemma {:induction false} SumHolds(stages: seq<multiset<Addr>>, i: nat)
    requires i < |stages|
    ensures stages[i] <= Sum(stages)
  {
    if i > 0 {
      SumHolds(stages[1..], i - 1);
    }
  }

  lemma {:induction false} SumUpdate(stages: seq<multiset<Addr>>, i: nat, x: multiset<Addr>)
    requires i < |stages|
    ensures Sum(stages[i := x]) + stages[i] == Sum(stages) + x
  {
    var rest := stages[1..];
    if i == 0 {
      assert stages[0 := x][1..] == rest;
      Swap(x, Sum(rest), stages[0]);
    } else {
      assert stages[i := x][1..] == rest[i - 1 := x];
      SumUpdate(rest, i - 1, x);
      var u := Sum(rest[i - 1 := x]);
      assert Sum(stages[i := x]) == stages[0] + u;
      assert (stages[0] + u) + stages[i] == stages[0] + (u + stages[i]);
    }
  }

  lemma Swap(x: multiset<Addr>, y: multiset<Addr>, z: multiset<Addr>)
    ensures (x + y) + z == (z + y) + x
  {
  }

  /** If no frame occurs twice over all stages together, no stage holds it twice and no two hold it. */
  lemma {:induction false} StagesDisjoint(stages: seq<multiset<Addr>>, i: nat, j: nat, a: Addr)
    requires i < j < |stages| && Sum(stages)[a] <= 1
    ensures stages[i][a] + stages[j][a] <= 1
  {
    var rest := stages[1..];
    if i == 0 {
      SumHolds(rest, j - 1);
      assert rest[j - 1] == stages[j];
    } else {
      StagesDisjoint(rest, i - 1, j - 1, a);
    }
  }

  ghost function LinkStages(s: State): seq<multiset<Addr>>
    requires LinkInv(s)
  {
    [multiset(s.p.filled[s.k.fillTaken..]), multiset(s.k.held), multiset(DescAddrs(s.k.rxLog[s.p.rxTaken..])),
     multiset(DescAddrs(s.p.sent[s.k.txTaken..])), multiset(s.k.flight), multiset(s.k.compLog[s.p.compTaken..])]
  }

  /** The fifteen places a frame can be: the pool, two pending deques, six stages of each link. */
  ghost function Stages(n: Net): seq<multiset<Addr>>
    requires |n.lanes| == 2 && LinkInv(n.lanes[0].link) && LinkInv(n.lanes[1].link)
  {
    [multiset(Addrs(n.bufs)), multiset(Addrs(n.lanes[0].pending)), multiset(Addrs(n.lanes[1].pending))]
      + LinkStages(n.lanes[0].link) + LinkStages(n.lanes[1].link)
  }

  lemma {:induction false} SumConcat(a: seq<multiset<Addr>>, b: seq<multiset<Addr>>)
    ensures Sum(a + b) == Sum(a) + Sum(b)
  {
    if a == [] {
      assert a + b == b;
    } else {
      assert (a + b)[1..] == a[1..] + b;
      SumConcat(a[1..], b);
    }
  }

  lemma SumOfLink(s: State)
    requires LinkInv(s)
    ensures Sum(LinkStages(s)) == InLink(s)
  {
    hide LinkInv, DescAddrs;
    var st := LinkStages(s);
    SumOfThree(st[0], st[1], st[2]);
    SumOfThree(st[3], st[4], st[5]);
    SumConcat([st[0], st[1], st[2]], [st[3], st[4], st[5]]);
    assert st == [st[0], st[1], st[2]] + [st[3], st[4], st[5]];
  }

  lemma SumOfThree(x: multiset<Addr>, y: multiset<Addr>, z: multiset<Addr>)
    ensures Sum([x, y, z]) == x + y + z
  {
    assert [x, y, z][1..] == [y, z] && [y, z][1..] == [z] && [z][1..] == [];
    assert Sum([z]) == z;
    assert Sum([y, z]) == y + z;
  }

  lemma SumOfStages(n: Net)
    requires |n.lanes| == 2 && LinkInv(n.lanes[0].link) && LinkInv(n.lanes[1].link)
    ensures Sum(Stages(n)) == AllFrames(n)
  {
    hide LinkInv, InLink, LinkStages, Addrs;
    var b, p, q := multiset(Addrs(n.bufs)), multiset(Addrs(n.lanes[0].pending)), multiset(Addrs(n.lanes[1].pending));
    var l0, l1 := LinkStages(n.lanes[0].link), LinkStages(n.lanes[1].link);
    SumOfLink(n.lanes[0].link);
    SumOfLink(n.lanes[1].link);
    SumOfThree(b, p, q);
    SumConcat([b, p, q] + l0, l1);
    SumConcat([b, p, q], l0);
  }

  /** Frame conservation: every frame the loop owns is in exactly one place, once, and no other
      address is anywhere. */
  lemma EveryFrameOnce(n: Net, f: Facts, a: Addr)
    requires Sound(n, f) && f.owned[a] <= 1
    ensures Sum(Stages(n))[a] == f.owned[a]
    ensures forall i :: 0 <= i < |Stages(n)| ==> Stages(n)[i][a] <= f.owned[a]
    ensures forall i, j :: 0 <= i < j < |Stages(n)| ==> Stages(n)[i][a] == 0 || Stages(n)[j][a] == 0
  {
    hide LinkInv, InLink, LinkStages, Addrs, LaneInv, InOrder, AllFrames, AllWellFormed;
    assert LinkInv(n.lanes[0].link) && LinkInv(n.lanes[1].link) by { LanesValid(n, f); }
    SumOfStages(n);
    var st := Stages(n);
    hide Stages, Sum, Sound;
    forall i | 0 <= i < |st| ensures st[i][a] <= f.owned[a] {
      SumHolds(st, i);
    }
    forall i, j | 0 <= i < j < |st| ensures st[i][a] == 0 || st[j][a] == 0 {
      StagesDisjoint(st, i, j, a);
    }
  }

  lemma LanesValid(n: Net, f: Facts)
    requires Sound(n, f)
    ensures |n.lanes| == 2 && LinkInv(n.lanes[0].link) && LinkInv(n.lanes[1].link)
  {
  }

  /** How many frames are where, per lane and in all, in terms of the program's own counts. */
  lemma FrameCounts(n: Net, f: Facts)
    requires Sound(n, f)
    ensures |n.lanes| == 2
    ensures forall p :: 0 <= p < 2 ==> LinkInv(n.lanes[p].link) && LaneCounts(n.lanes[p], f)
    ensures |n.bufs| + OutOfPool(n.lanes[0]) + OutOfPool(n.lanes[1]) == |f.owned|
  {
    hide LinkInv, Progress, AllWellFormed, InOrder, RxStages, TxStages;
    CountLane(n.lanes[0], f);
    CountLane(n.lanes[1], f);
    assert |AllFrames(n)| == |n.bufs| + |LaneFrames(n.lanes[0])| + |LaneFrames(n.lanes[1])|;
  }

  ghost predicate LaneCounts(l: Lane, f: Facts)
    requires LinkInv(l.link)
  {
    && |RxStages(l.link)| == f.initial - l.deficit
    && |TxStages(l.link)| == |l.link.p.sent| - l.link.p.compTaken
    && |RxStages(l.link)| == |l.link.p.filled[l.link.k.fillTaken..]| + |l.link.k.held|
                               + |l.link.k.rxLog[l.link.p.rxTaken..]|
    && |TxStages(l.link)| == |l.link.p.sent[l.link.k.txTaken..]| + |l.link.k.flight|
                               + |l.link.k.compLog[l.link.p.compTaken..]|
  }

  ghost function OutOfPool(l: Lane): nat
    requires LinkInv(l.link)
  {
    |l.pending| + |RxStages(l.link)| + |TxStages(l.link)|
  }

  lemma CountLane(l: Lane, f: Facts)
    requires LaneInv(l, f)
    ensures LinkInv(l.link) && LaneCounts(l, f)
    ensures |LaneFrames(l)| == OutOfPool(l)
  {
    RxBalance(l.link);
    TxBalance(l.link);
    assert |multiset(l.link.p.filled)| == |RxStages(l.link)| +
           |multiset(DescAddrs(l.link.k.rxLog[..l.link.p.rxTaken]))|;
  }

  /** Packets received on one link were sent on the other or are pending; frames sent were serviced or
      are on the Tx path; buffers filled make up for packets received, up to the deficit. */
  ghost predicate PacketsConserved(l: Lane, o: Lane) {
    && LinkInv(l.link)
    && l.stats.rx == o.stats.tx + |l.pending|
    && l.stats.tx == l.stats.cq + |TxStages(l.link)|
    && l.stats.fq + l.deficit == l.stats.rx
  }

  /** The counters of the two links conserve packets and buffers. */
  lemma Counters(n: Net, f: Facts)
    requires Sound(n, f)
    ensures |n.lanes| == 2
    ensures PacketsConserved(n.lanes[0], n.lanes[1]) && PacketsConserved(n.lanes[1], n.lanes[0])
    ensures |n.bufs| == |f.owned| - 2 * f.initial - (n.lanes[0].stats.fq + n.lanes[1].stats.fq)
                        + (n.lanes[0].stats.cq + n.lanes[1].stats.cq)
  {
    hide LinkInv, RxStages, TxStages, Addressed, AllFrames, AllWellFormed, InOrder;
    FrameCounts(n, f);
    PacketCount(n.lanes[0], n.lanes[1], f);
    PacketCount(n.lanes[1], n.lanes[0], f);
  }

  lemma PacketCount(l: Lane, o: Lane, f: Facts)
    requires LaneInv(l, f) && LaneInv(o, f) && InOrder(l, o)
    ensures l.link.p.rxTaken == |o.link.p.sent| + |l.pending|
  {
    assert |l.link.k.rxLog[..l.link.p.rxTaken]| == l.link.p.rxTaken;
  }

  /** Nothing is ever missing from the Rx path but what the deficit says, so a fill of the whole
      deficit always finds room, whatever the kernel has consumed. */
  lemma FillFindsRoom(n: Net, f: Facts, pos: nat)
    requires Sound(n, f) && pos < 2
    ensures |n.lanes| == 2
    ensures var l := n.lanes[pos];
            |l.link.p.filled| - l.link.k.fillTaken + Min(|n.bufs|, l.deficit) <= l.link.cfg.fillSize
  {
    hide RxStages, TxStages, Addressed, AllFrames, AllWellFormed, InOrder;
    CountLane(n.lanes[pos], f);
  }

  /** The kernel always finds room on the Rx ring for a frame it holds. */
  lemma RxFindsRoom(n: Net, f: Facts, pos: nat)
    requires Sound(n, f) && pos < 2 && |n.lanes| == 2 && n.lanes[pos].link.k.held != []
    ensures |n.lanes[pos].link.k.rxLog| - n.lanes[pos].link.p.rxTaken < n.lanes[pos].link.cfg.rxSize
  {
    hide AllFrames, AllWellFormed, InOrder;
    RxRingNeverFull(n.lanes[pos].link);
  }

  /** The Vec was created with room for every frame, so it has room for every completion there is:
      it never limits `service` and never grows. */
  lemma VecHasRoom(n: Net, f: Facts, pos: nat)
    requires Sound(n, f) && pos < 2
    ensures |n.lanes| == 2
    ensures var l := n.lanes[pos];
            |n.bufs| + (|l.link.k.compLog| - l.link.p.compTaken) <= f.capacity
  {
    hide RxStages, TxStages, Addressed, AllFrames, AllWellFormed, InOrder;
    FrameCounts(n, f);
  }

  // The state before the loop.

  /** A link nothing has happened on but fills. */
  ghost predicate OnlyFilled(s: State, bufLen: ChunkLen) {
    && LinkInv(s) && Addressed(s) && s.cfg == RingConfig(bufLen)
    && s.p == Prog(s.p.filled, [], 0, 0, 0, 0, Grant(0, []), Grant(0, []), Window([], 0), Window([], 0))
  }

  /** A fill of an untouched link moves frames from the pool to the link. */
  lemma InitialFill<T>(s: State, t: State, bufs: seq<Buf<T>>, k: nat, bufLen: ChunkLen)
    requires OnlyFilled(s, bufLen) && LinkInv(t) && AllWellFormed(bufs, bufLen) && k <= |bufs|
    requires Moved(s.(p := s.p.Fills(FillOrder(bufs, k))), t)
    ensures OnlyFilled(t, bufLen) && AllWellFormed(bufs[..|bufs| - k], bufLen)
    ensures multiset(Addrs(bufs[..|bufs| - k])) + InLink(t) == multiset(Addrs(bufs)) + InLink(s)
  {
    hide LinkInv, Addressed, RxStages, TxStages, Progress, Addrs, AllWellFormed, AllHome, FillOrder;
    var keep := |bufs| - k;
    WellFormedSplit(bufs, keep, bufLen);
    FillOrderHome(bufs, k, bufLen);
    AfterFill(s, t, FillOrder(bufs, k));
    FillOrderIsSuffix(bufs, k);
  }

  lemma UntouchedBasics(s: State, bufLen: ChunkLen)
    requires OnlyFilled(s, bufLen) && s.p.filled == []
    ensures s.p.Idle() && s.p.rxTaken == s.k.fillTaken == 0 && s.cfg == RingConfig(bufLen)
  {
  }

  lemma UntouchedInv(s: State, bufLen: ChunkLen)
    requires OnlyFilled(s, bufLen)
    ensures LinkInv(s) && Addressed(s) && s.p.sent == []
  {
  }

  lemma UntouchedHoldsNothing(s: State)
    requires LinkInv(s) && s.p.filled == [] && s.p.sent == [] && Addressed(s)
    ensures InLink(s) == multiset{}
  {
    RxBalance(s);
    TxBalance(s);
    assert |RxStages(s)| == 0;
    assert |TxStages(s)| == 0;
  }

  ghost function StartNet(s1: State, s2: State, bufs: seq<Frame>): Net {
    Net([Lane(s1, [], 0, Stats(0, 0, 0, 0)), Lane(s2, [], 0, Stats(0, 0, 0, 0))], bufs)
  }

  /** The Vec never limits a service: it takes what the ring showed, up to a batch. */
  lemma ServesAll(n: Net, m: Net, f: Facts, pos: nat, k: nat)
    requires pos < 2 && DidService(n, m, f, pos, k) && Sound(m, f)
    ensures CompGrants(n.lanes[pos].link, m.lanes[pos].link, k, SERVICE_BATCH_SIZE)
  {
    hide AllFrames, InOrder, AllWellFormed, Addressed, RxAccounted, TxAccounted, Recorded, BufsOf, Blanks;
    VecHasRoom(m, f, pos);
  }

  /** Both initial fills are done and nothing else has happened in the program: the last buffers of the pool
      went to the first link, last one first, and the next ones to the second. */
  ghost predicate JustFilled(n: Net, bufs: seq<Frame>, num: nat) {
    && |n.lanes| == 2 && 2 * num <= |bufs|
    && n.lanes[0].link.p.filled == FillOrder(bufs, num)
    && n.lanes[1].link.p.filled == FillOrder(bufs[..|bufs| - num], num)
    && n.bufs == bufs[..|bufs| - 2 * num]
    && (forall l :: l in n.lanes ==>
          && l.pending == [] && l.deficit == 0 && l.stats == Stats(0, 0, 0, 0)
          && l.link.p.sent == [] && l.link.p.rxTaken == l.link.p.compTaken == 0)
  }

  /** Once both initial fills are complete the invariant holds. */
  lemma StartsSound(s1: State, s2: State, bufs: seq<Frame>, f: Facts)
    requires Reasonable(f) && AllWellFormed(bufs, f.bufLen)
    requires OnlyFilled(s1, f.bufLen) && |s1.p.filled| == f.initial
    requires OnlyFilled(s2, f.bufLen) && |s2.p.filled| == f.initial
    requires f.owned == multiset(Addrs(bufs)) + InLink(s1) + InLink(s2)
    ensures Sound(StartNet(s1, s2, bufs), f)
  {
    hide LinkInv, Addressed, RxStages, TxStages;
    var n := StartNet(s1, s2, bufs);
    StartsInOrder(n.lanes[0], n.lanes[1], f);
    StartsInOrder(n.lanes[1], n.lanes[0], f);
  }

  lemma StartsInOrder(l: Lane, o: Lane, f: Facts)
    requires OnlyFilled(l.link, f.bufLen) && OnlyFilled(o.link, f.bufLen) && l.pending == []
    ensures InOrder(l, o)
    ensures LaneFrames(l) == InLink(l.link)
  {
    hide Addressed, RxStages, TxStages;
    assert Descs(l.pending) == [] && Addrs(l.pending) == [];
  }
}
