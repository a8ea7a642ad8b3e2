/** The worker thread of the veth test. */
module VethWorker {
  import opened Bits
  import opened Frames
  import opened Memory
  import opened LinkState
  import opened LinkFlow
  import opened Kernel
  import opened BufPool
  import opened BiDirHash
  import opened MmapArea
  import opened Veth
  import Forwarding
  import ForwardFacts
  import TwoLink
  import Umem
  import Socket

  class Worker {
    const link: Link
    const bufs: Vec<Frame>
    const inbox: Deque<Frame>
    const outbox: Deque<Frame>
    const mem: array<byte>
    const port: PortState
    const other: PortState
    const total: nat
    const burst: nat
    const hasher: seq<byte> -> nat
    var stats: Stats
    var stage: nat   // which part of the loop body is next

    ghost const facts: Facts
    ghost const Repr: set<object>

    /** The worker's objects are its own and apart from each other. */
    ghost predicate Apart() {
      && link.Owns() && link in link.Repr && link.bufLen == BUF_SIZE && link.mem == mem
      && {this as object, bufs, inbox, outbox, mem, port} !! link.Repr
      && inbox != outbox && port != other && other !in link.Repr
      && port as object !in {this, bufs, inbox, outbox, mem} && mem as object !in {this, bufs, inbox, outbox}
      && inbox.capacity == outbox.capacity == PENDING_LEN
      && Repr == {this, bufs, inbox, outbox, mem, port} + link.Repr && other !in Repr
    }

    ghost function View(): Port
      requires Apart()
      reads Repr
    {
      Port(link.View(), bufs.items, inbox.items, outbox.items, stats)
    }

    /** The books of the worker's port. */
    ghost function Ledger(): Books
      reads port
    {
      Books(port.hashes, Checks(port.lastReceivedSeq, port.outOfOrder, port.badHash), port.received, port.transmitted)
    }

    /** Every part is in order, whatever they hold. */
    ghost predicate Parts()
      reads this, Repr
      ensures Parts() ==> Apart()
    {
      && Apart() && link.Valid() && bufs.Valid() && inbox.Valid() && outbox.Valid()
      && bufs.capacity == facts.capacity && stage < 6
      && Backed(facts.owned, mem.Length)
      && port.Valid(total, burst) && total + 2 < Limit(8)
    }

    ghost predicate Valid()
      reads this, Repr
      ensures Valid() ==> Apart() && this in Repr && mem in Repr && port in Repr && link.Repr <= Repr && stage < 6
      ensures Valid() ==> other !in Repr
    {
      Parts() && Sound(View(), facts)
    }

    lemma KeepsSound()
      requires Valid()
      ensures Sound(View(), facts) && View().link == link.View()
      ensures View().link.k.feed == link.feed && View().link.k.wire == link.wire
    {
    }

    constructor (link: Link, bufs: Vec<Frame>, port: PortState, other: PortState,
                 total: nat, burst: nat, hasher: seq<byte> -> nat, ghost facts: Facts)
      requires link.Valid() && link.bufLen == BUF_SIZE && bufs.Valid() && bufs.capacity == facts.capacity
      requires {bufs as object, port, other} !! link.Repr && port != other
      requires link.mem as object !in {bufs as object, port}
      requires Backed(facts.owned, link.mem.Length) && port.Valid(total, burst) && total + 2 < Limit(8)
      requires Sound(Port(link.View(), bufs.items, [], [], Stats(0, 0, 0, 0, 0, 0)), facts)
      ensures fresh(Repr - {bufs, link.mem, port} - link.Repr)
      ensures Valid() && this.facts == facts && this.port == port && this.other == other && this.link == link
      ensures mem == link.mem
      ensures this.total == total && this.burst == burst && this.hasher == hasher && stage == 0
      ensures View() == Port(link.View(), bufs.items, [], [], Stats(0, 0, 0, 0, 0, 0))
    {
      hide Link.Valid, Link.View, Link.Owns, Sound, Backed, PortState.Valid, Limit;
      var i := new Deque<Frame>();
      var o := new Deque<Frame>();
      this.link, this.bufs, inbox, outbox, mem := link, bufs, i, o, link.mem;
      this.port, this.other, this.total, this.burst, this.hasher := port, other, total, burst, hasher;
      stats, stage := Stats(0, 0, 0, 0, 0, 0), 0;
      this.facts := facts;
      Repr := {this, bufs, i, o, link.mem, port} + link.Repr;
      new;
      assert Apart();
    }

    // The parts of the loop body. The operations take effect at one point, after everything the kernel did
    // meanwhile: `ks` is what it did.

    /** Service the completion queue if enough is owed. The subtraction never underflows. */
    method ServicePart() returns (n: nat, ghost ks: seq<Snap>)
      requires Valid()
      modifies Repr - {port}
      ensures Valid() && stage == old(stage) && KernelRan(old(View()), old(mem[..]), ks, mem[..])
      ensures Ledger() == old(Ledger())
      ensures ks != [] && Last(ks) == Snap(View().link.k, mem[..])
      ensures DidService(Before(old(View()), ks), View(), n)
      ensures DidService(old(View()), View(), n) && ServesEnough(old(View()), View(), n)
      ensures n <= 128 && (old(stats.cqDeficit) < 64 ==> n == 0)
    {
      hide Link.Valid, Link.View, Link.Owns, Sound, Backed, PortState.Valid, Limit, LinkInv, Progress, BufsOf;
      hide Blanks, Trace;
      ghost var v := View();
      SoundBasics(v, facts);
      NothingDone(v, mem[..]);
      n, ks := 0, [Snap(v.link.k, mem[..])];
      if stats.cqDeficit >= SERVICE_THRESHOLD {
        VecHasRoom(v, facts);
        n, ks := Umem.Service(link, bufs, SERVICE_BATCH_SIZE, BufCustom);
        link.KeepsAccounts();
        ServiceWithinDeficit(v, facts, link.View(), n);
        stats := stats.(cqBufs := stats.cqBufs + n, cqDeficit := stats.cqDeficit - n);
      }
      ServiceKeeps(v, View(), facts, n);
      if v.stats.cqDeficit >= SERVICE_THRESHOLD {
        ServesAll(v, View(), facts, n);
      }
      ServicedAt(v, View(), ks, mem[..], n);
    }

    method ReceivePart() returns (n: nat, ghost ks: seq<Snap>)
      requires Valid()
      modifies Repr - {port}
      ensures Valid() && stage == old(stage) && KernelRan(old(View()), old(mem[..]), ks, mem[..])
      ensures Ledger() == old(Ledger())
      ensures ks != [] && Last(ks) == Snap(View().link.k, mem[..])
      ensures DidReceive(Before(old(View()), ks), View(), n)
      ensures DidReceive(old(View()), View(), n) && ReceivesEnough(old(View()), View(), n)
      ensures n <= Min(4096 - |old(inbox.items)|, 64)
    {
      hide Link.Valid, Link.View, Link.Owns, Sound, Backed, PortState.Valid, Limit, LinkInv, Progress, BufsOf, Trace;
      ghost var v := View();
      SoundBasics(v, facts);
      n, ks := Socket.TryRecv(link, inbox, SOCKET_BATCH_SIZE, BufCustom);
      link.KeepsAccounts();
      if n > 0 {
        stats := stats.(rx := stats.rx + n, fqDeficit := stats.fqDeficit + n);
      }
      ReceiveKeeps(v, View(), facts, n);
      ReceivedAt(v, View(), ks, mem[..], n);
    }

    /** Hand the received packets to the test. */
    method CheckPart()
      requires Valid()
      modifies Repr - {mem}
      ensures Valid() && stage == old(stage) && DidCheck(old(View()), View())
      ensures port.seqNo == old(port.seqNo) && Legible(old(View()).inbox, mem[..])
      ensures Ledger() == old(Ledger()).(
        checks := CheckAll(old(Ledger()).checks, Arrivals(old(View()).inbox, mem[..]), other.hashes, hasher),
        received := old(Ledger()).received + |old(View()).inbox|)
    {
      hide Link.Valid, Link.View, Link.Owns, Sound, Backed, Limit, LinkInv, Legible;
      ghost var v := View();
      VecHasRoom(v, facts);
      InboxLegible(v, facts, mem[..]);
      var n := BiDirHash.Receive(port, other, bufs, inbox, mem, hasher);
      CheckKeeps(v, View(), facts);
    }

    /** Ask the test for packets. */
    method TransmitPart(due: bool) returns (n: nat, ghost pkts: seq<Packet>, ghost frames: seq<seq<byte>>)
      requires Valid()
      modifies Repr
      ensures Ledger() == old(Ledger()).(hashes := Ledger().hashes, transmitted := old(Ledger()).transmitted + n)
      ensures Valid() && stage == old(stage) && |pkts| == n && DidTransmit(old(View()), View(), pkts)
      ensures |old(View()).outbox| <= PENDING_LEN
      ensures n == BurstCount(total, burst, old(Ledger()).transmitted, due,
                              PENDING_LEN - |old(View()).outbox|, |old(View()).bufs|)
      ensures ByTheRule(n, total, burst, old(Ledger()).transmitted, due,
                        PENDING_LEN - |old(View()).outbox|, |old(View()).bufs|)
      ensures Wrote(old(View()).bufs, pkts, frames, old(mem[..]), mem[..])
      ensures Hashed(old(Ledger()).hashes, old(port.seqNo), pkts, Ledger().hashes, hasher)
      ensures port.seqNo == old(port.seqNo) + n
    {
      hide Link.Valid, Link.View, Link.Owns, Sound, Limit, LinkInv, PortState.Valid, Roomy, NoRepeats, Hashed;
      hide Wrote, Backed;
      ghost var v := View();
      PoolReady(v, facts, mem[..]);
      NumbersBehind(port);
      n, pkts, frames := BiDirHash.Transmit(port, total, burst, due, bufs, outbox, mem, hasher);
      NumbersBehind(port);
      TransmitKeeps(v, View(), facts, pkts);
    }

    lemma BooksOf()
      requires Valid()
      ensures port.seqNo == port.transmitted + 1 == Ledger().transmitted + 1 && |outbox.items| <= PENDING_LEN
    {
      hide Link.Valid, Link.View, Link.Owns, Sound, Backed, Limit;
      SoundBasics(View(), facts);
    }

    /** In the generator's books the number is one more than the packets. */
    lemma NumbersBehind(port: PortState)
      requires port.Valid(total, burst)
      ensures port.seqNo == port.transmitted + 1
    {
    }

    method SendPart() returns (n: nat, ghost ks: seq<Snap>)
      requires Valid()
      modifies Repr - {port}
      ensures Valid() && stage == old(stage) && KernelRan(old(View()), old(mem[..]), ks, mem[..])
      ensures Ledger() == old(Ledger())
      ensures ks != [] && Last(ks) == Snap(View().link.k, mem[..])
      ensures DidSend(Before(old(View()), ks), View(), n)
      ensures DidSend(old(View()), View(), n) && SendsEnough(old(View()), n)
      ensures n == 0 || n == Min(|old(outbox.items)|, 64)
    {
      hide Link.Valid, Link.View, Link.Owns, Sound, Backed, PortState.Valid, Limit, LinkInv, Progress, Descs, Trace;
      ghost var v := View();
      SoundBasics(v, facts);
      n, ks := Socket.TrySend(link, outbox, SOCKET_BATCH_SIZE);
      link.KeepsAccounts();
      stats := stats.(tx := stats.tx + n, cqDeficit := stats.cqDeficit + n);
      SendKeeps(v, View(), facts, n);
      SentAt(v, View(), ks, mem[..], n);
    }

    /** Fill if enough is missing, at most a batch; the ring always has room for all of it. */
    method FillPart() returns (n: nat, ghost ks: seq<Snap>)
      requires Valid()
      modifies Repr - {port}
      ensures Valid() && stage == old(stage) && KernelRan(old(View()), old(mem[..]), ks, mem[..])
      ensures Ledger() == old(Ledger())
      ensures ks != [] && Last(ks) == Snap(View().link.k, mem[..])
      ensures DidFill(Before(old(View()), ks), View(), n)
      ensures DidFill(old(View()), View(), n) && FillsEnough(old(View()), n)
      ensures n == if old(stats.fqDeficit) < 64 then 0 else Min(|old(bufs.items)|, Min(128, old(stats.fqDeficit)))
    {
      hide Link.Valid, Link.View, Link.Owns, Sound, Backed, PortState.Valid, Limit, LinkInv, Progress, FillOrder, Trace;
      ghost var v := View();
      SoundBasics(v, facts);
      if stats.fqDeficit < FILL_THRESHOLD {
        NothingDone(v, mem[..]);
        n, ks := 0, [Snap(v.link.k, mem[..])];
        FilledAt(v, v, ks, mem[..], 0);
        return;
      }
      RoomToFill(v, facts);
      n, ks := Umem.Fill(link, bufs, Min(FILL_BATCH_SIZE, stats.fqDeficit));
      link.KeepsAccounts();
      stats := stats.(fqBufs := stats.fqBufs + n, fqDeficit := stats.fqDeficit - n);
      FillKeeps(v, View(), facts, n);
      FilledAt(v, View(), ks, mem[..], n);
    }

    /** The other end's wire has grown. */
    method Hear(wire: seq<Packet>)
      requires Valid() && link.feed.Only? && link.feed.packets <= wire
      modifies link.Repr
      ensures Valid() && stage == old(stage) && link.feed == Only(wire, old(link.feed).next)
      ensures var s := old(View()).link;
        View() == old(View()).(link := s.(k := s.k.(feed := Only(wire, s.k.feed.next))))
    {
      hide Link.Valid, Link.View, Link.Owns, Sound, Backed, PortState.Valid, Limit;
      ghost var v := View();
      link.Offer(wire);
      FeedKeeps(v, facts, link.View().k.feed);
    }

    /** On to the next part of the loop body. */
    method NextStage()
      requires Valid()
      modifies this`stage
      ensures Valid() && stage == (old(stage) + 1) % 6 && View() == old(View())
    {
      hide Link.Valid, Link.View, Link.Owns, Sound, Backed, PortState.Valid, Limit;
      stage := (stage + 1) % 6;
    }

    /** The worker at a loop head. */
    ghost function AtHead(): Head
      requires Apart()
      reads Repr
    {
      Head(View(), mem[..], Ledger())
    }

    /** One pass through the loop. */
    method Iteration(due: bool) returns (ghost x: Pass, ghost y: Trail)
      requires Valid()
      modifies Repr
      ensures Valid() && stage == old(stage)
      ensures Passed(old(View()), x, View()) && Trod(old(View()), old(mem[..]), x, y, View(), mem[..])
      ensures Bookkept(old(Ledger()), x, y, Ledger(), other.hashes, Rules(total, burst, hasher), due)
    {
      hide Valid, View, Sound, Apart, DidService, DidReceive, DidCheck, DidTransmit, DidSend, DidFill;
      hide ServesEnough, ReceivesEnough, SendsEnough, FillsEnough, KernelRan;
      hide Wrote, Hashed, BurstCount, ByTheRule, Legible, Before, CheckAll, Arrivals, Ledger;
      ghost var ks1, ks2, ks3, ks4;
      var cq, rx, n, tx, fq;
      cq, ks1 := ServicePart();
      ghost var serviced := View();
      rx, ks2 := ReceivePart();
      ghost var received := View();
      CheckPart();
      BooksOf();
      ghost var examined := View();
      ghost var pkts, frames;
      n, pkts, frames := TransmitPart(due);
      ghost var queued, written := View(), mem[..];
      tx, ks3 := SendPart();
      ghost var sent := View();
      fq, ks4 := FillPart();
      x := Pass(serviced, received, examined, queued, sent, cq, rx, pkts, tx, fq);
      y := Trail(ks1, ks2, frames, written, ks3, ks4);
    }

    /** The loop: whatever the kernels, the clock and the wire do, the invariant holds at every loop
        head, so no subtraction underflows and no panic is reached. `dues` is what the clock says. */
    method Run(dues: seq<bool>) returns (ghost heads: seq<Head>, ghost passes: seq<Pass>, ghost trails: seq<Trail>)
      requires Valid()
      modifies Repr
      ensures Valid() && Looped(heads, passes, trails, dues, other.hashes, Rules(total, burst, hasher))
      ensures heads[0] == old(AtHead()) && heads[|dues|] == AtHead()
      ensures forall i :: 0 <= i <= |dues| ==> Sound(heads[i].port, facts)
    {
      hide Valid, Apart, View, Sound, Passed, Trod, Bookkept, Looped, Ledger;
      heads, passes, trails := [AtHead()], [], [];
      KeepsSound();
      NotLooped(AtHead(), dues, other.hashes, Rules(total, burst, hasher));
      for i := 0 to |dues|
        invariant Valid() && |heads| == i + 1
        invariant Looped(heads, passes, trails, dues[..i], other.hashes, Rules(total, burst, hasher))
        invariant heads[0] == old(AtHead()) && heads[i] == AtHead()
        invariant forall j :: 0 <= j <= i ==> Sound(heads[j].port, facts)
      {
        ghost var x, y := Iteration(dues[i]);
        KeepsSound();
        LoopedOn(heads, passes, trails, dues, i, other.hashes, Rules(total, burst, hasher), x, y, AtHead());
        heads, passes, trails := heads + [AtHead()], passes + [x], trails + [y];
      }
      assert dues[..|dues|] == dues;
    }
  }

  /** Every buffer of the pool, in a Vec with room for exactly them. */
  method TakeAll(pool: BufPoolVec<Frame>) returns (bufs: Vec<Frame>)
    requires pool.Valid()
    modifies pool.bufs
    ensures fresh(bufs) && bufs.Valid() && pool.Valid() && pool.bufs.items == []
    ensures bufs.items == old(pool.bufs.items) && bufs.capacity == |bufs.items|
  {
    var size := pool.Len();
    bufs := new Vec<Frame>(size);
    var got := pool.Get(bufs, size);
  }

  /** Nothing but the initial fill has happened, and nothing was on the wire. */
  ghost predicate AtStart(p: Port) {
    && p.inbox == [] && p.outbox == [] && p.link.p.sent == [] && p.link.p.rxTaken == 0
    && p.link.k.rxLog == [] && p.link.k.feed.Only? && p.link.k.feed.packets == []
  }

  /** The worker up to its loop: take every buffer of the pool, fill the link, or panic when the fill is
      not complete. It is exactly when the pool holds at least a ring of buffers. */
  method Begin(pool: BufPoolVec<Frame>, link: Link, port: PortState, other: PortState,
               total: nat, burst: nat, hasher: seq<byte> -> nat) returns (r: Option<Worker>)
    requires pool.Valid() && link.Valid() && link.View() == TwoLink.Untouched(RingConfig(), Only([], 0))
    requires {pool as object, pool.bufs, port, other} !! link.Repr && port != other
    requires link.mem as object !in {pool as object, pool.bufs, port}
    requires AllWellFormed(pool.bufs.items, BUF_SIZE) && Backed(multiset(Addrs(pool.bufs.items)), link.mem.Length)
    requires port.Valid(total, burst) && total + 2 < Limit(8)
    modifies pool.bufs, link.Repr, link.mem
    ensures r.Some? <==> RING_SIZE <= |old(pool.bufs.items)|
    ensures r.Some? ==>
      && fresh(r.value.Repr - {link.mem, port} - link.Repr) && r.value.Valid()
      && r.value.port == port && r.value.other == other && r.value.mem == link.mem && r.value.link == link
      && r.value.total == total && r.value.burst == burst && r.value.hasher == hasher
      && r.value.facts == Facts(multiset(Addrs(old(pool.bufs.items))), |old(pool.bufs.items)|)
      && r.value.View().stats == Stats(0, 0, 0, 0, 0, 0) && AtStart(r.value.View())
      && r.value.stage == 0 && JustFilled(r.value.View(), old(pool.bufs.items))
  {
    hide Link.Valid, Link.View, Link.Owns, Sound, Backed, PortState.Valid, Limit, LinkInv, AllWellFormed;
    hide Addrs, FillOrder, Ran;
    hide Worker.Apart, Worker.Valid, Worker.View, Worker.Parts, JustFilled;
    ghost var all, s := pool.bufs.items, link.View();
    link.KeepsAccounts();
    var bufs := TakeAll(pool);
    ghost var facts := Facts(multiset(Addrs(all)), bufs.capacity);
    ghost var ks;
    var n;
    n, ks := Umem.Fill(link, bufs, RING_SIZE);
    if n != RING_SIZE {
      return None;
    }
    link.KeepsAccounts();
    StartsSound(s, link.View(), all, |all|);
    JustStarted(s, link.View(), ks, link.mem[..], all);
    var w := new Worker(link, bufs, port, other, total, burst, hasher, facts);
    r := Some(w);
  }

  lemma StartsSound(s: State, t: State, bufs: seq<Frame>, capacity: nat)
    requires s == TwoLink.Untouched(RingConfig(), Only([], 0)) && LinkInv(s) && LinkInv(t)
    requires AllWellFormed(bufs, BUF_SIZE) && RING_SIZE <= |bufs| <= capacity
    requires Moved(s.(p := s.p.(filled := FillOrder(bufs, RING_SIZE))), t)
    ensures Sound(Port(t, bufs[..|bufs| - RING_SIZE], [], [], Stats(0, 0, 0, 0, 0, 0)),
                  Facts(multiset(Addrs(bufs)), capacity))
  {
    hide LinkInv, RxStages, TxStages, Addrs, AllHome, FillOrder, Progress;
    ForwardFacts.UntouchedHoldsNothing(s);
    Forwarding.WellFormedSplit(bufs, |bufs| - RING_SIZE, BUF_SIZE);
    Forwarding.FillOrderHome(bufs, RING_SIZE, BUF_SIZE);
    assert [] + FillOrder(bufs, RING_SIZE) == FillOrder(bufs, RING_SIZE);
    AfterFill(s, t, FillOrder(bufs, RING_SIZE));
    FillOrderIsSuffix(bufs, RING_SIZE);
  }

  lemma JustStarted(s: State, t: State, ks: seq<Snap>, mem: seq<byte>, all: seq<Frame>)
    requires s == TwoLink.Untouched(RingConfig(), Only([], 0)) && RING_SIZE <= |all|
    requires Ran(s, s.p.Fills(FillOrder(all, RING_SIZE)), ks, t, mem)
    ensures JustFilled(Port(t, all[..|all| - RING_SIZE], [], [], Stats(0, 0, 0, 0, 0, 0)), all)
  {
    hide Trace, FillOrder;
    assert [] + FillOrder(all, RING_SIZE) == FillOrder(all, RING_SIZE);
  }

  /** One worker of the test from its area to its loop, on an area that could be mapped and a link that
      could be created: it never panics, and it owns exactly the frames of the area. */
  method Launch(port: PortState, other: PortState, total: nat, burst: nat, hasher: seq<byte> -> nat) returns (w: Worker)
    requires port != other && port.Valid(total, burst) && total + 2 < Limit(8)
    ensures fresh(w.Repr - {port}) && w.Valid() && w.port == port && w.other == other
    ensures w.total == total && w.burst == burst && w.hasher == hasher
    ensures w.facts == Facts(multiset(FrameAddrs(4096, 2048)), 4096) && AtStart(w.View())
    ensures w.stage == 0 && JustFilled(w.View(), AreaBufs(4096, 2048, BufCustom)) && w.mem.Length == 4096 * 2048
  {
    hide Link.Valid, Link.View, Link.Owns, Backed, PortState.Valid, Limit, AllWellFormed, Worker.Valid;
    hide Worker.Apart, Worker.View, Worker.Parts, AtStart, JustFilled;
    var pool, mem := NewPool(BUF_NUM, BUF_SIZE, BufCustom);
    AreaBacks();
    assert TwoLink.ARingSize(RING_SIZE) by {
      assert Pow2(9) == RING_SIZE;
    }
    var created := TwoLink.Open(BUF_SIZE, RING_SIZE, RING_SIZE, RING_SIZE, RING_SIZE, mem, Only([], 0), true, true);
    var r := Begin(pool, created.link, port, other, total, burst, hasher);
    w := r.value;
  }

  lemma AreaBacks()
    ensures Backed(multiset(FrameAddrs(BUF_NUM, BUF_SIZE)), BUF_NUM * BUF_SIZE)
  {
    forall a | a in multiset(FrameAddrs(BUF_NUM, BUF_SIZE))
      ensures multiset(FrameAddrs(BUF_NUM, BUF_SIZE))[a] == 1
      ensures a % BUF_SIZE == RESERVED && a + (BUF_SIZE - RESERVED) <= BUF_NUM * BUF_SIZE
    {
      FrameInside(a, Area(BUF_NUM, BUF_SIZE));
    }
  }

  /** A worker of the test, for any number of iterations: so many passes after the initial fill, every frame of
      its area is in exactly one place, and nothing else is anywhere. */
  method Execute(port: PortState, other: PortState, total: nat, burst: nat, hasher: seq<byte> -> nat, dues: seq<bool>)
    returns (w: Worker, ghost heads: seq<Head>, ghost passes: seq<Pass>, ghost trails: seq<Trail>)
    requires port != other && port.Valid(total, burst) && total + 2 < Limit(8)
    modifies port
    ensures w.Valid() && LinkInv(w.View().link)
    ensures Looped(heads, passes, trails, dues, other.hashes, Rules(total, burst, hasher))
    ensures JustFilled(heads[0].port, AreaBufs(4096, 2048, BufCustom)) && heads[|dues|] == w.AtHead()
    ensures forall a: Addr :: ForwardFacts.Sum(Places(w.View()))[a] ==
                              if a % BUF_SIZE == RESERVED && a / BUF_SIZE < BUF_NUM then 1 else 0
  {
    hide Worker.Valid, Worker.Apart, Worker.View, Sound, Limit, PortState.Valid, JustFilled, Looped, Places;
    w := Launch(port, other, total, burst, hasher);
    heads, passes, trails := w.Run(dues);
    w.KeepsSound();
    SoundFrames(w.View(), w.facts);
    SumOfPlaces(w.View());
    forall a: Addr {
      FramesDistinct(BUF_NUM, BUF_SIZE, a);
    }
  }

  lemma SoundFrames(p: Port, f: Facts)
    requires Sound(p, f)
    ensures LinkInv(p.link) && PortFrames(p) == f.owned
  {
  }
}
