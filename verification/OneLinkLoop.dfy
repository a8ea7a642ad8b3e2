/** The loop of l2fwd-1link over one link, a Vec of free buffers, a deque and the bytes of the area, part by
    part, and how the program gets there. Module OneLinkRun puts the parts together. */
module OneLinkLoop {
  import opened Bits
  import opened Frames
  import opened LinkState
  import opened LinkFlow
  import opened Kernel
  import opened MacSwap
  import opened Forwarding
  import opened OneLink
  import opened MmapArea
  import opened MacParity
  import ForwardFacts
  import ForwardDrain
  import Umem
  import Socket
  import TwoLink

  class Loop {
    const link: Link
    const v: Deque<Frame>
    const bufs: Vec<Frame>
    const mem: array<byte>
    const batchSize: nat
    var fqDeficit: nat
    var stats: Stats

    ghost const facts: Facts
    ghost const Repr: set<object>

    /** The loop's objects are its own and apart from each other. */
    ghost predicate Apart() {
      && link.Owns() && link in link.Repr && link.bufLen == facts.bufLen && link.mem == mem
      && {this as object, v, bufs, mem} !! link.Repr && v.capacity == PENDING_LEN
      && mem as object !in {this, v, bufs}
      && Repr == {this, v, bufs, mem} + link.Repr
    }

    ghost function View(): One
      requires Apart()
      reads Repr
    {
      One(Lane(link.View(), v.items, fqDeficit, stats), bufs.items)
    }

    ghost predicate Valid()
      reads this, Repr
      ensures Valid() ==> Apart() && this in Repr && mem in Repr
    {
      && Apart() && link.Valid() && bufs.Valid() && v.Valid() && bufs.capacity == facts.capacity
      && Stored(facts.owned, mem.Length, facts.bufLen)
      && Kept(View(), facts)
    }

    lemma KeepsKept()
      requires Valid()
      ensures Kept(View(), facts) && View().lane.link == link.View()
      ensures View().lane.link.k.wire == link.wire
    {
    }

    constructor (link: Link, bufs: Vec<Frame>, batchSize: nat, ghost facts: Facts)
      requires link.Valid() && link.bufLen == facts.bufLen && bufs.Valid() && bufs.capacity == facts.capacity
      requires bufs !in link.Repr && link.mem as object != bufs
      requires Stored(facts.owned, link.mem.Length, facts.bufLen)
      requires Kept(One(Lane(link.View(), [], 0, Stats(0, 0, 0, 0)), bufs.items), facts)
      ensures fresh(Repr - {bufs, link.mem} - link.Repr)
      ensures Valid() && this.facts == facts && this.batchSize == batchSize && mem == link.mem && this.link == link
      ensures View() == One(Lane(link.View(), [], 0, Stats(0, 0, 0, 0)), bufs.items)
    {
      hide Link.Valid, Link.View, Link.Owns, Kept, Stored;
      var d := new Deque<Frame>();
      this.link, this.bufs, v, mem, this.batchSize := link, bufs, d, link.mem, batchSize;
      fqDeficit, stats := 0, Stats(0, 0, 0, 0);
      this.facts := facts;
      Repr := {this, d, bufs, link.mem} + link.Repr;
      new;
      assert Apart();
    }

    // The parts of the loop body. `ks` is what the kernel did before the operation took effect.

    method ServicePart() returns (n: nat, ghost ks: seq<Snap>)
      requires Valid()
      modifies Repr
      ensures Valid() && OneKernelRan(old(View()), old(mem[..]), ks, mem[..])
      ensures ks != [] && View().lane.link.k == Last(ks).k && OneService(OneBefore(old(View()), ks), View(), facts, n)
      ensures OneService(old(View()), View(), facts, n) && ServesEnough(old(View()), n, batchSize)
      ensures CompGrants(old(View()).lane.link, View().lane.link, n, batchSize)
    {
      hide Link.Valid, Link.View, Link.Owns, Kept, Stored, LinkInv, Progress, BufsOf, Blanks, Trace;
      ghost var was := View();
      KeptLink(was, facts);
      OneFacts(was, facts);
      n, ks := Umem.Service(link, bufs, batchSize, BufCustom);
      stats := stats.(cq := stats.cq + n);
      link.KeepsAccounts();
      OneServiceKeeps(was, View(), facts, n);
      OneServesAll(was, View(), facts, n, batchSize);
      OneServicedAt(was, View(), facts, ks, mem[..], n);
    }

    method ReceivePart() returns (n: nat, ghost ks: seq<Snap>)
      requires Valid()
      modifies Repr
      ensures Valid() && OneKernelRan(old(View()), old(mem[..]), ks, mem[..])
      ensures ks != [] && View().lane.link.k == Last(ks).k && OneReceive(OneBefore(old(View()), ks), View(), facts, n)
      ensures OneReceive(old(View()), View(), facts, n) && ReceivesEnough(old(View()), n, batchSize)
      ensures ReceivesShown(old(View()), View(), n, batchSize)
    {
      hide Link.Valid, Link.View, Link.Owns, Kept, Stored, LinkInv, Progress, BufsOf, Trace;
      ghost var was := View();
      KeptLink(was, facts);
      n, ks := Socket.TryRecv(link, v, batchSize, BufCustom);
      link.KeepsAccounts();
      if n > 0 {
        stats := stats.(rx := stats.rx + n);
        fqDeficit := fqDeficit + n;
      }
      OneReceiveKeeps(was, View(), facts, n);
      OneReceivedAt(was, View(), facts, ks, mem[..], n);
    }

    /** Swap the addresses of every packet in the deque. Nothing but the area's bytes changes, and of those
        only what SwapTouchesDequeOnly and SwapSparesOthers allow. */
    method SwapPart()
      requires Valid()
      modifies mem
      ensures Valid() && View() == old(View())
      ensures mem[..] == SwapSlices(old(mem[..]), SliceStarts(v.items))
    {
      hide Link.Valid, Link.View, Link.Owns, Kept, Stored, Addressable;
      DequeAddressable(View(), facts, mem.Length);
      SwapMacs(v, mem);
    }

    method ForwardPart() returns (n: nat, ghost ks: seq<Snap>)
      requires Valid()
      modifies Repr
      ensures Valid() && OneKernelRan(old(View()), old(mem[..]), ks, mem[..])
      ensures ks != [] && View().lane.link.k == Last(ks).k && OneForward(OneBefore(old(View()), ks), View(), n)
      ensures OneForward(old(View()), View(), n) && ForwardsEnough(old(View()), n, batchSize)
    {
      hide Link.Valid, Link.View, Link.Owns, Kept, Stored, LinkInv, Progress, Descs, Trace;
      ghost var was := View();
      KeptLink(was, facts);
      n, ks := Forward(link, v, batchSize);
      stats := stats.(tx := stats.tx + n);
      link.KeepsAccounts();
      OneForwardKeeps(was, View(), facts, n);
      OneForwardedAt(was, View(), ks, mem[..], n);
      TraceKeeps(was.lane.link, ks);
      NeverMoreThanRoom(OneBefore(was, ks), View(), n);
    }

    /** The wire falls silent. */
    method Silence()
      requires Valid()
      modifies Repr
      ensures Valid() && mem[..] == old(mem[..]) && View().lane.link.k.Silent()
      ensures View() == old(View()).(lane := old(View()).lane.(link := View().lane.link))
      ensures FellSilent(old(View()).lane.link, View().lane.link)
    {
      hide Link.Valid, Link.View, Link.Owns, Kept, Stored, LinkInv, Progress;
      ghost var was := View();
      link.KeepsAccounts();
      link.FallSilent();
      FellSilentKeeps(was.lane.link, View().lane.link);
      OneTurnKeeps(was, View(), facts);
    }

    /** The kernel does all the transmit work it has room for. */
    method TransmitPart() returns (ghost ks: seq<Snap>)
      requires Valid()
      modifies Repr
      ensures Valid() && OneKernelRan(old(View()), old(mem[..]), ks, mem[..])
      ensures ks != [] && View() == OneBefore(old(View()), ks)
      ensures OneTurn(old(View()), View()) && ForwardDrain.Transmitted(View().lane.link)
    {
      hide Link.Valid, Link.View, Link.Owns, Kept, Stored, LinkInv, Progress, Trace;
      ghost var was := View();
      ks := link.KernelTransmit();
      link.KeepsAccounts();
      OneTurnKeeps(was, View(), facts);
    }

    /** The ring has room for everything that is missing. */
    method FillPart() returns (n: nat, ghost ks: seq<Snap>)
      requires Valid()
      modifies Repr
      ensures Valid() && OneKernelRan(old(View()), old(mem[..]), ks, mem[..])
      ensures ks != [] && View().lane.link.k == Last(ks).k && OneFill(OneBefore(old(View()), ks), View(), n)
      ensures OneFill(old(View()), View(), n) && n == Min(|old(bufs.items)|, old(fqDeficit))
    {
      hide Link.Valid, Link.View, Link.Owns, Kept, Stored, LinkInv, Progress, FillOrder, Trace;
      ghost var was := View();
      KeptLink(was, facts);
      OneFacts(was, facts);
      OneNothing(was, facts, mem[..]);
      n, ks := 0, [Snap(was.lane.link.k, mem[..])];
      assert n == 0 ==> OneFill(was, View(), n);
      if fqDeficit > 0 {
        n, ks := Umem.Fill(link, bufs, fqDeficit);
        link.KeepsAccounts();
        stats := stats.(fq := stats.fq + n);
        fqDeficit := fqDeficit - n;
      }
      OneFillKeeps(was, View(), facts, n);
      OneFilledAt(was, View(), ks, mem[..], n);
    }
  }

  /** The Tx ring never takes more at once than it has slots. */
  lemma NeverMoreThanRoom(n: One, m: One, k: nat)
    requires LinkInv(n.lane.link) && OneForward(n, m, k) && m.lane.link.k == n.lane.link.k
    ensures k <= n.lane.link.cfg.txSize
  {
    hide RxAccounted, TxAccounted, Recorded;
  }

  /** This example's `forward`. */
  method Forward(tx: Link, bufs: Deque<Frame>, batchSize: nat) returns (n: nat, ghost ks: seq<Snap>)
    requires tx.Valid() && tx.View().p.Idle() && bufs.Valid() && bufs !in tx.Repr
    modifies tx.Repr, tx.mem, bufs`items
    ensures tx.Valid() && bufs.Valid()
    ensures n <= |old(bufs.items)| && (n == 0 || n == Min(|old(bufs.items)|, batchSize))
    ensures n == 0 && old(bufs.items) != [] && batchSize > 0 ==>
              |old(tx.View()).p.sent| - old(tx.View()).k.txTaken + Min(|old(bufs.items)|, batchSize)
                > old(tx.View()).cfg.txSize
    ensures bufs.items == old(bufs.items)[n..]
    ensures ks != [] && ks[0] == Snap(old(tx.View()).k, old(tx.mem[..]))
    ensures Ran(old(tx.View()), old(tx.View()).p.Sends(Descs(old(bufs.items)[..n])), ks, tx.View(), tx.mem[..])
    ensures Moved(old(tx.View()).(p := old(tx.View()).p.Sends(Descs(old(bufs.items)[..n]))), tx.View())
  {
    hide Link.Valid, Link.View, Link.Owns, Progress, Ran;
    if |bufs.items| == 0 {
      ghost var s := tx.View();
      n, ks := 0, [Snap(s.k, tx.mem[..])];
      RanNothing(s, tx.mem[..]);
      ProgressReflexive(s.k);
      assert s.p.sent + Descs(bufs.items[..0]) == s.p.sent;
      return;
    }
    n, ks := Socket.TrySend(tx, bufs, batchSize);
  }

  /** Every packet in the deque has room for its two addresses. */
  lemma DequeAddressable(n: One, f: Facts, size: nat)
    requires Kept(n, f) && Stored(f.owned, size, f.bufLen)
    ensures Addressable(n.lane.pending, size)
  {
    hide LinkInv, InOrder, LaneInv, AllWellFormed, InLink, Addrs;
    DequeSlices(n, f);
    KeptLink(n, f);
    forall i | 0 <= i < |n.lane.pending| ensures n.lane.pending[i].addr in f.owned {
      InAddrs(n.lane.pending, i);
      assert OneFrames(n)[n.lane.pending[i].addr] >= 1;
    }
  }

  /** The link and its initial fill, which is always complete: the link is new and the pool holds enough. */
  method OpenFilled(bufs: Vec<Frame>, bufLen: ChunkLen, mem: array<byte>, wanted: nat, ghost facts: Facts)
    returns (link: Link)
    requires bufs.Valid() && AllWellFormed(bufs.items, bufLen) && wanted <= RING_SIZE
    requires wanted <= |bufs.items| == bufs.capacity
    requires facts == Facts(bufLen, wanted, multiset(Addrs(bufs.items)), bufs.capacity)
    requires mem as object != bufs
    modifies bufs, mem
    ensures fresh(link.Repr) && link.Valid() && link.bufLen == bufLen && link.mem == mem && bufs.Valid()
    ensures bufs.capacity == old(bufs.capacity)
    ensures Kept(One(Lane(link.View(), [], 0, Stats(0, 0, 0, 0)), bufs.items), facts)
    ensures NothingYet(link.View())
    ensures OneJustFilled(One(Lane(link.View(), [], 0, Stats(0, 0, 0, 0)), bufs.items), old(bufs.items), wanted)
  {
    hide Link.Valid, Link.View, Link.Owns, Kept, AllWellFormed, ForwardFacts.OnlyFilled, FillOrder, LinkInv;
    hide Addrs, Ran, NothingYet, OneJustFilled;
    ghost var all := bufs.items;
    link := TwoLink.OpenLink(bufLen, mem);
    ghost var s := link.View();
    ForwardFacts.UntouchedBasics(s, bufLen);
    ghost var ks;
    var n;
    n, ks := Umem.Fill(link, bufs, wanted);
    assert n == wanted;
    link.KeepsAccounts();
    StartsKept(s, link.View(), all, facts);
    FillAlone(s, link.View(), ks, mem[..]);
    FilledAll(s, link.View(), ks, mem[..], all, wanted);
  }

  lemma FilledAll(s: State, t: State, ks: seq<Snap>, mem: seq<byte>, all: seq<Frame>, wanted: nat)
    requires ForwardFacts.OnlyFilled(s, s.cfg.bufLen) && s.p.filled == [] && wanted <= |all|
    requires Ran(s, s.p.Fills(FillOrder(all, wanted)), ks, t, mem)
    ensures OneJustFilled(One(Lane(t, [], 0, Stats(0, 0, 0, 0)), all[..|all| - wanted]), all, wanted)
  {
    hide LinkInv, Trace, FillOrder;
    assert [] + FillOrder(all, wanted) == FillOrder(all, wanted);
  }

  /** No packet has been received or taken for transmission. */
  ghost predicate NothingYet(s: State) {
    s.k.rxLog == [] && s.p.rxTaken == s.k.txTaken == 0
  }

  /** While the first fill is in progress the kernel has no frame to receive into. */
  lemma FillAlone(s: State, t: State, ks: seq<Snap>, mem: seq<byte>)
    requires ForwardFacts.OnlyFilled(s, s.cfg.bufLen) && s.p.filled == []
    requires t.p.rxTaken == 0 && Ran(s, t.p, ks, t, mem)
    ensures NothingYet(t)
  {
    TraceKeeps(s, ks);
    var u := s.(k := Last(ks).k);
    assert u.p.filled[..u.k.fillTaken] == [] && Homes([], u.cfg.bufLen) == [];
    assert |multiset(DescAddrs(u.k.rxLog))| == 0;
  }

  /** What the loop starts with: the whole area, as much of it filled as the ring takes. */
  function AreaFacts(bufNum: nat, bufLen: ChunkLen): Facts {
    Facts(bufLen, Min(RING_SIZE, bufNum), multiset(FrameAddrs(bufNum, bufLen)), bufNum)
  }

  lemma AreaOwns(bufNum: nat, bufLen: ChunkLen)
    ensures |AreaFacts(bufNum, bufLen).owned| == bufNum && AreaFacts(bufNum, bufLen).initial <= bufNum
  {
    assert |FrameAddrs(bufNum, bufLen)| == bufNum;
  }

  /** The program up to its loop, on an area that could be mapped and a link that could be created. The
      panic on an incomplete initial fill is never reached. */
  method Start(bufNum: nat, bufLen: ChunkLen, batchSize: nat) returns (loop: Loop)
    requires bufLen >= RESERVED + 12
    ensures fresh(loop.Repr) && loop.Valid() && loop.batchSize == batchSize
    ensures loop.View().lane.pending == [] && NothingYet(loop.View().lane.link)
    ensures loop.facts == AreaFacts(bufNum, bufLen)
    ensures OneJustFilled(loop.View(), AreaBufs(bufNum, bufLen, BufCustom), Min(2048, bufNum))
  {
    hide Link.Valid, Link.View, Link.Owns, Kept, Stored, AllWellFormed, Loop.Apart, Loop.Valid, Loop.View;
    hide Addrs, NothingYet, OneJustFilled;
    var made := New(bufNum, bufLen, true, BufCustom);
    assert |made.bufs.items| == |Addrs(made.bufs.items)| == bufNum;
    var wanted := Min(RING_SIZE, bufNum);
    ghost var facts := AreaFacts(bufNum, bufLen);
    var link := OpenFilled(made.bufs, bufLen, made.mem, wanted, facts);
    AreaStored(bufNum, bufLen);
    KeptLink(One(Lane(link.View(), [], 0, Stats(0, 0, 0, 0)), made.bufs.items), facts);
    loop := new Loop(link, made.bufs, batchSize, facts);
  }

  lemma StartsKept(s: State, t: State, bufs: seq<Frame>, f: Facts)
    requires ForwardFacts.OnlyFilled(s, f.bufLen) && s.p.filled == [] && LinkInv(t)
    requires AllWellFormed(bufs, f.bufLen) && f.initial <= RING_SIZE && f.initial <= |bufs| == f.capacity
    requires f.owned == multiset(Addrs(bufs))
    requires Moved(s.(p := s.p.Fills(FillOrder(bufs, f.initial))), t)
    ensures Kept(One(Lane(t, [], 0, Stats(0, 0, 0, 0)), bufs[..|bufs| - f.initial]), f)
  {
    hide LinkInv, Addressed, RxStages, TxStages, Addrs, AllWellFormed, FillOrder, Progress;
    ForwardFacts.InitialFill(s, t, bufs, f.initial, f.bufLen);
    ForwardFacts.UntouchedHoldsNothing(s);
    var l := Lane(t, [], 0, Stats(0, 0, 0, 0));
    ForwardFacts.StartsInOrder(l, l, f);
    NothingPending(l, f);
  }

  lemma NothingPending(l: Lane, f: Facts)
    requires l.pending == []
    ensures AllWellFormed(l.pending, f.bufLen) && Addrs(l.pending) == []
  {
  }

  lemma AreaStored(bufNum: nat, bufLen: ChunkLen)
    requires bufLen >= RESERVED + 12
    ensures Stored(multiset(FrameAddrs(bufNum, bufLen)), Area(bufNum, bufLen).Size(), bufLen)
  {
    forall a | a in multiset(FrameAddrs(bufNum, bufLen))
      ensures multiset(FrameAddrs(bufNum, bufLen))[a] == 1
      ensures a % bufLen == RESERVED && a + (bufLen - RESERVED) <= Area(bufNum, bufLen).Size()
    {
      FrameInside(a, Area(bufNum, bufLen));
    }
  }
}
