/** l2fwd-2link: the forwarding loop over two links, a Vec of free buffers and two pending deques. */
module Forwarder {
  import opened Bits
  import opened Frames
  import opened LinkState
  import opened LinkFlow
  import opened Kernel
  import opened Forwarding
  import opened ForwardFacts
  import opened ForwardDrain
  import Umem
  import Socket

  class Loop {
    const links: seq<Link>
    const pending: seq<Deque<Frame>>
    const bufs: Vec<Frame>
    const mem: array<byte>
    const fqDeficit: array<nat>
    const stats: array<Stats>
    var pos: nat

    ghost const facts: Facts
    ghost const Repr: set<object>

    /** The loop's objects are its own and apart from each other. */
    ghost predicate Apart() {
      && |links| == 2 && |pending| == 2
      && links[0].Owns() && links[1].Owns()
      && links[0] in links[0].Repr && links[1] in links[1].Repr
      && links[0].Repr !! links[1].Repr
      && {this as object, bufs, pending[0], pending[1], fqDeficit, stats} !! links[0].Repr + links[1].Repr
      && pending[0] != pending[1]
      && fqDeficit.Length == stats.Length == 2
      && pending[0].capacity == pending[1].capacity == PENDING_LEN
      && links[0].bufLen == links[1].bufLen == facts.bufLen
      && links[0].mem == links[1].mem == mem && mem !in Repr
      && Repr == {this, bufs, pending[0], pending[1], fqDeficit, stats} + links[0].Repr + links[1].Repr
    }

    ghost function View(): (n: Net)
      requires Apart()
      reads Repr
      ensures |n.lanes| == 2
    {
      Net([Lane(links[0].View(), pending[0].items, fqDeficit[0], stats[0]),
           Lane(links[1].View(), pending[1].items, fqDeficit[1], stats[1])],
          bufs.items)
    }

    /** Every part is in order, whatever they hold. */
    ghost predicate Parts()
      reads this, Repr
      ensures Parts() ==> Apart()
    {
      && Apart()
      && links[0].Valid() && links[1].Valid()
      && bufs.Valid() && pending[0].Valid() && pending[1].Valid()
      && bufs.capacity == facts.capacity
      && pos < 2
    }

    ghost predicate Valid()
      reads this, Repr
      ensures Valid() ==> Apart() && this in Repr && pos < 2
    {
      Parts() && Sound(View(), facts)
    }

    lemma KeepsSound()
      requires Valid()
      ensures Sound(View(), facts)
    {
    }

    /** The loop's start. The invariant holds once both initial fills are complete (StartsSound). */
    constructor (link1: Link, link2: Link, bufs: Vec<Frame>, ghost facts: Facts)
      requires link1.Valid() && link2.Valid() && bufs.Valid()
      requires link1.bufLen == link2.bufLen == facts.bufLen && bufs.capacity == facts.capacity
      requires link1.Repr !! link2.Repr && bufs !in link1.Repr + link2.Repr
      requires link1.mem == link2.mem && link1.mem !in link1.Repr + link2.Repr
      requires Sound(StartNet(link1.View(), link2.View(), bufs.items), facts)
      ensures fresh(Repr - {bufs} - link1.Repr - link2.Repr)
      ensures Valid() && pos == 0
      ensures links == [link1, link2] && this.bufs == bufs && mem == link1.mem && this.facts == facts
      ensures View() == StartNet(link1.View(), link2.View(), bufs.items)
    {
      hide Valid, Link.Valid, Link.View, Link.Owns, Sound, StartNet;
      var p1 := new Deque<Frame>();
      var p2 := new Deque<Frame>();
      var deficit := new nat[2](_ => 0);
      var counters := new Stats[2](_ => Stats(0, 0, 0, 0));
      this.mem := link1.mem;
      links, pending, this.bufs, fqDeficit, stats, pos := [link1, link2], [p1, p2], bufs, deficit, counters, 0;
      this.facts := facts;
      Repr := {this, bufs, p1, p2, deficit, counters} + link1.Repr + link2.Repr;
      new;
      assert {this as object, p1, p2, deficit, counters} !! link1.Repr + link2.Repr;
      assert Apart();
      StartView(link1.View(), link2.View(), bufs.items);
      Begins(StartNet(link1.View(), link2.View(), bufs.items));
    }

    lemma Begins(n: Net)
      requires Parts() && View() == n && Sound(n, facts)
      ensures Valid()
    {
    }

    lemma StartView(s1: State, s2: State, items: seq<Frame>)
      ensures StartNet(s1, s2, items) ==
              Net([Lane(s1, [], 0, Stats(0, 0, 0, 0)), Lane(s2, [], 0, Stats(0, 0, 0, 0))], items)
    {
    }

    /** New counters for this link. */
    method Count(s: Stats, deficit: nat)
      requires Parts()
      modifies stats, fqDeficit
      ensures Parts()
      ensures var was := old(View());
        View() == was.(lanes := was.lanes[pos := was.lanes[pos].(stats := s, deficit := deficit)])
    {
      hide Link.Valid, Link.View, Link.Owns;
      stats[pos] := s;
      fqDeficit[pos] := deficit;
    }

    /** Service the completion queue of this link. */
    method ServiceStep() returns (n: nat)
      requires Parts() && links[pos].View().p.Idle()
      modifies Repr, mem
      ensures Parts() && pos == old(pos)
      ensures DidService(old(View()), View(), facts, pos, n)
    {
      hide Link.Valid, Link.View, Link.Owns, LinkInv, Progress, BufsOf, Blanks;
      ghost var ks;
      n, ks := Umem.Service(links[pos], bufs, SERVICE_BATCH_SIZE, BufCustom);
      stats[pos] := stats[pos].(cq := stats[pos].cq + n);
      links[pos].KeepsAccounts();
    }

    method ReceiveStep() returns (n: nat)
      requires Parts() && links[pos].View().p.Idle()
      modifies Repr, mem
      ensures Parts() && pos == old(pos)
      ensures DidReceive(old(View()), View(), facts, pos, n)
    {
      hide Link.Valid, Link.View, Link.Owns, LinkInv, Progress, BufsOf;
      ghost var ks;
      n, ks := Socket.TryRecv(links[pos], pending[pos], SOCKET_BATCH_SIZE, BufCustom);
      links[pos].KeepsAccounts();
      if n > 0 {
        Count(stats[pos].(rx := stats[pos].rx + n), fqDeficit[pos] + n);
      }
    }

    method ForwardStep() returns (n: nat)
      requires Parts() && links[1 - pos].View().p.Idle()
      modifies Repr, mem
      ensures Parts() && pos == old(pos)
      ensures DidForward(old(View()), View(), pos, n)
    {
      hide Link.Valid, Link.View, Link.Owns, LinkInv, Progress, Descs;
      var other := (pos + 1) % 2;
      n := Forward(links[other], pending[pos]);
      stats[other] := stats[other].(tx := stats[other].tx + n);
      links[other].KeepsAccounts();
    }

    method FillStep() returns (n: nat)
      requires Parts() && links[pos].View().p.Idle()
      modifies Repr, mem
      ensures Parts() && pos == old(pos)
      ensures DidFill(old(View()), View(), pos, n)
      ensures old(fqDeficit[pos]) < FILL_THRESHOLD ==> n == 0
      ensures old(fqDeficit[pos]) >= FILL_THRESHOLD &&
              |old(links[pos].View()).p.filled| - old(links[pos].View()).k.fillTaken
                + Min(|old(bufs.items)|, old(fqDeficit[pos])) <= old(links[pos].View()).cfg.fillSize
              ==> n == Min(|old(bufs.items)|, old(fqDeficit[pos]))
    {
      hide Link.Valid, Link.View, Link.Owns, LinkInv, Moved, FillOrder;
      links[pos].KeepsAccounts();
      if fqDeficit[pos] < FILL_THRESHOLD {
        NothingFilled(View(), pos);
        return 0;
      }
      ghost var ks;
      n, ks := Umem.Fill(links[pos], bufs, fqDeficit[pos]);
      links[pos].KeepsAccounts();
      Count(stats[pos].(fq := stats[pos].fq + n), fqDeficit[pos] - n);
    }

    /** Both kernels run for a while. */
    method KernelTurnStep()
      requires Parts()
      modifies Repr, mem
      ensures Parts() && pos == old(pos)
      ensures KernelTurn(old(View()), View())
    {
      hide Link.Valid, Link.View, Link.Owns, LinkInv, Moved;
      TurnLink(0);
      TurnLink(1);
      links[0].KeepsAccounts();
      links[1].KeepsAccounts();
    }

    /** One link's kernel runs for a while. */
    method TurnLink(i: nat)
      requires Parts() && i < 2
      modifies Repr, mem
      ensures Parts() && pos == old(pos)
      ensures Moved(old(View()).lanes[i].link, View().lanes[i].link)
      ensures var was := old(View());
        View() == was.(lanes := was.lanes[i := was.lanes[i].(link := View().lanes[i].link)])
    {
      hide Link.Valid, Link.View, Link.Owns, LinkInv, Moved, Ran;
      links[i].KeepsAccounts();
      ghost var s, ks := links[i].View(), [Snap(links[i].View().k, mem[..])];
      RanNothing(s, mem[..]);
      ks := links[i].KernelRun(s, s.p, ks);
      RanMoved(s, s.p, ks, links[i].View(), mem[..]);
      RanOn(s, s.p, ks, links[i].View(), mem[..], s.p);
    }

    // The four parts of an iteration, each after any kernel activity on both links. Each keeps the
    // invariant; on a silent wire each goes downhill, and doing nothing tells what there was to do.

    method ServicePart() returns (n: nat, ghost mid: Net)
      requires Valid()
      modifies Repr, mem
      ensures Valid() && pos == old(pos)
      ensures |mid.lanes| == 2 && KernelTurn(old(View()), mid) && DidService(mid, View(), facts, pos, n)
      ensures n <= 64 && CompGrants(mid.lanes[pos].link, View().lanes[pos].link, n, 64)
      ensures Went(old(View()), View(), ServiceStuck(old(View()), pos))
    {
      hide Sound, DidService, KernelTurn, Went, ServiceStuck, Link.Valid, Link.View, Link.Owns;
      ghost var v0 := View();
      KernelTurnStep();
      ghost var v1 := View();
      mid := v1;
      KernelTurnKeeps(v0, v1, facts);
      IdleLane(v1, facts, 0);
      IdleLane(v1, facts, 1);
      n := ServiceStep();
      ServiceKeeps(v1, View(), facts, pos, n);
      ServesAll(v1, View(), facts, pos, n);
      ServiceWent(v0, v1, View(), facts, pos, n);
    }

    method ReceivePart() returns (n: nat, ghost mid: Net)
      requires Valid()
      modifies Repr, mem
      ensures Valid() && pos == old(pos)
      ensures |mid.lanes| == 2 && KernelTurn(old(View()), mid) && DidReceive(mid, View(), facts, pos, n)
      ensures n <= 64 && |mid.lanes[pos].pending| <= 4096
      ensures RxGrants(mid.lanes[pos].link, View().lanes[pos].link, n, Min(4096 - |mid.lanes[pos].pending|, 64))
      ensures Went(old(View()), View(), ReceiveStuck(old(View()), pos))
    {
      hide Sound, DidReceive, KernelTurn, Went, ReceiveStuck, Link.Valid, Link.View, Link.Owns;
      ghost var v0 := View();
      KernelTurnStep();
      ghost var v1 := View();
      mid := v1;
      KernelTurnKeeps(v0, v1, facts);
      IdleLane(v1, facts, 0);
      IdleLane(v1, facts, 1);
      n := ReceiveStep();
      ReceiveKeeps(v1, View(), facts, pos, n);
      ReceiveAmount(v1, View(), facts, pos, n);
      ReceiveWent(v0, v1, View(), facts, pos, n);
    }

    method ForwardPart() returns (n: nat, ghost mid: Net)
      requires Valid()
      modifies Repr, mem
      ensures Valid() && pos == old(pos)
      ensures |mid.lanes| == 2 && KernelTurn(old(View()), mid) && DidForward(mid, View(), pos, n)
      ensures n == 0 || n == Min(|mid.lanes[pos].pending|, 64)
      ensures Went(old(View()), View(), ForwardStuck(old(View()), pos))
    {
      hide Sound, DidForward, KernelTurn, Went, ForwardStuck, Link.Valid, Link.View, Link.Owns;
      ghost var v0 := View();
      KernelTurnStep();
      ghost var v1 := View();
      mid := v1;
      KernelTurnKeeps(v0, v1, facts);
      IdleLane(v1, facts, 0);
      IdleLane(v1, facts, 1);
      n := ForwardStep();
      ForwardKeeps(v1, View(), facts, pos, n);
      ForwardAmount(v1, View(), pos, n);
      ForwardWent(v0, v1, View(), facts, pos, n);
    }

    method FillPart() returns (n: nat, ghost mid: Net)
      requires Valid()
      modifies Repr, mem
      ensures Valid() && pos == old(pos)
      ensures |mid.lanes| == 2 && KernelTurn(old(View()), mid) && DidFill(mid, View(), pos, n)
      ensures Went(old(View()), View(), FillStuck(old(View()), pos))
      ensures ExactFill(mid, pos, n)
      ensures n == if mid.lanes[pos].deficit < 64 then 0 else Min(|mid.bufs|, mid.lanes[pos].deficit)
    {
      hide Sound, DidFill, KernelTurn, Went, FillStuck, Link.Valid, Link.View, Link.Owns;
      ghost var v0 := View();
      KernelTurnStep();
      ghost var v1 := View();
      mid := v1;
      KernelTurnKeeps(v0, v1, facts);
      IdleLane(v1, facts, 0);
      IdleLane(v1, facts, 1);
      FillFindsRoom(v1, facts, pos);
      n := FillStep();
      FillKeeps(v1, View(), facts, pos, n);
      FillWent(v0, v1, View(), facts, pos, n);
    }

    /** One pass through the loop body, for the link whose turn it is. */
    method Iteration() returns (ghost x: Pass)
      requires Valid()
      modifies Repr, mem
      ensures Valid() && pos == 1 - old(pos)
      ensures Passed(old(View()), x, View(), facts, old(pos))
      ensures Went(old(View()), View(), LoopStuck(old(View()), old(pos)))
    {
      hide Valid, Apart, Sound, Went, LoopStuck, ServiceStuck, ReceiveStuck, ForwardStuck, FillStuck, ExactFill;
      hide KernelTurn, DidService, DidReceive, DidForward, DidFill;
      ghost var v0 := View();
      ghost var m0, m1, m2, m3;
      var serviced, received, forwarded, filled;
      serviced, m0 := ServicePart();
      ghost var v1 := View();
      received, m1 := ReceivePart();
      ghost var v2 := View();
      forwarded, m2 := ForwardPart();
      ghost var v3 := View();
      filled, m3 := FillPart();
      IterationWent(v0, v1, v2, v3, View(), pos);
      x := Pass(m0, v1, m1, v2, m2, v3, m3, serviced, received, forwarded, filled);
      NextLink();
    }

    method NextLink()
      requires Valid()
      modifies this`pos
      ensures Valid() && pos == 1 - old(pos) && View() == old(View())
    {
      hide Sound, Link.Valid, Link.View, Link.Owns;
      pos := (pos + 1) % 2;
    }

    /** One part of a pass; after the last it is the other link's turn. */
    method Part(stage: nat) returns (ghost mid: Net, ghost k: nat)
      requires Valid() && stage < 4
      modifies Repr, mem
      ensures Valid() && pos == if stage == 3 then 1 - old(pos) else old(pos)
      ensures PartDone(old(View()), mid, View(), facts, old(pos), stage, k)
    {
      hide Valid, Apart, Sound, Went, ServiceStuck, ReceiveStuck, ForwardStuck, FillStuck, ExactFill;
      hide KernelTurn, DidService, DidReceive, DidForward, DidFill;
      var n;
      if stage == 0 {
        n, mid := ServicePart();
      } else if stage == 1 {
        n, mid := ReceivePart();
      } else if stage == 2 {
        n, mid := ForwardPart();
      } else {
        n, mid := FillPart();
        NextLink();
      }
      k := n;
    }

    /** The loop: the invariant holds at every loop head, however many iterations have run and
        whatever the kernels did. */
    method Run(iterations: nat) returns (ghost heads: seq<Net>, ghost passes: seq<Pass>)
      requires Valid()
      modifies Repr, mem
      ensures Valid()
      ensures |passes| == iterations && Looped(heads, passes, facts, old(pos))
      ensures heads[0] == old(View()) && heads[iterations] == View()
      ensures forall i :: 0 <= i <= iterations ==> Sound(heads[i], facts)
    {
      hide Valid, Apart, View, Sound, Went, LoopStuck, Passed, Looped;
      heads, passes := [View()], [];
      KeepsSound();
      NotLooped(View(), facts, pos);
      for i := 0 to iterations
        invariant Valid() && pos == (old(pos) + i) % 2
        invariant |passes| == i && |heads| == i + 1 && Looped(heads, passes, facts, old(pos))
        invariant heads[0] == old(View()) && heads[i] == View()
        invariant forall j :: 0 <= j <= i ==> Sound(heads[j], facts)
      {
        ghost var x := Iteration();
        KeepsSound();
        LoopedOn(heads, passes, x, View(), facts, old(pos));
        heads, passes := heads + [View()], passes + [x];
      }
    }

    /** Both kernels do all the transmit work they have room for. */
    method TransmitTurn()
      requires Valid()
      modifies Repr, mem
      ensures Valid() && pos == old(pos)
      ensures Went(old(View()), View(), KernelStuck(old(View()), 0) && KernelStuck(old(View()), 1))
    {
      hide Link.Valid, Link.View, Link.Owns, LinkInv, Progress, Sound, Went, KernelStuck;
      ghost var v0 := View();
      ghost var ks := links[0].KernelTransmit();
      ks := links[1].KernelTransmit();
      links[0].KeepsAccounts();
      links[1].KeepsAccounts();
      KernelTurnKeeps(v0, View(), facts);
      TransmitWent(v0, View(), facts);
    }

    method Round()
      requires Valid()
      modifies Repr, mem
      ensures Valid() && pos == old(pos)
      ensures Went(old(View()), View(), Quiescent(View()))
    {
      hide Apart, View, Valid, Sound, Passed, Went, LoopStuck, KernelStuck, Quiescent;
      ghost var v0 := View();
      TransmitTurn();
      ghost var v1 := View();
      KeepsSound();
      ghost var x := Iteration();
      ghost var v2 := View();
      x := Iteration();
      RoundWent(v0, v1, v2, View(), facts, pos);
    }

    /** Both wires fall silent: nothing more arrives. */
    method Silence()
      requires Valid()
      modifies Repr
      ensures Valid() && pos == old(pos) && Silent(View())
      ensures KernelTurn(old(View()), View())
    {
      hide Link.Valid, Link.View, Link.Owns, LinkInv, Progress, Sound;
      ghost var v0 := View();
      links[0].KeepsAccounts();
      links[1].KeepsAccounts();
      links[0].FallSilent();
      links[1].FallSilent();
      FellSilentKeeps(v0.lanes[0].link, View().lanes[0].link);
      FellSilentKeeps(v0.lanes[1].link, View().lanes[1].link);
      KernelTurnKeeps(v0, View(), facts);
    }

    /** Drain: if no packet arrives and the kernels keep transmitting, then after as many rounds as the
        load at the start no packet waits anywhere, no frame is on a Tx path and no fill is due. */
    method Drain(rounds: nat)
      requires Valid() && Silent(View()) && Load(View()) <= rounds
      modifies Repr, mem
      ensures Valid() && Quiescent(View())
    {
      hide Apart, Parts, Sound, Quiescent, Load, SameTallies;
      ghost var start := View();
      for i := 0 to rounds
        invariant Valid() && Silent(View())
        invariant Quiescent(View()) || Load(View()) <= rounds - i
      {
        Round();
      }
      if !Quiescent(View()) {
        NoLoadIsQuiescent(View(), facts);
      }
    }
  }

  /** The frames in the pool and in two links. */
  ghost function Held(link1: Link, link2: Link, bufs: Vec<Frame>): multiset<Addr>
    requires link1.Valid() && link2.Valid()
    reads link1, link1.Repr, link2, link2.Repr, bufs
  {
    link1.KeepsAccounts();
    link2.KeepsAccounts();
    multiset(Addrs(bufs.items)) + InLink(link1.View()) + InLink(link2.View())
  }

  /** The two fills took the last buffers, last one first, and the next ones likewise. */
  predicate HandedOver(first: seq<Addr>, second: seq<Addr>, left: seq<Frame>, all: seq<Frame>, num: nat) {
    && 2 * num <= |all| && first == FillOrder(all, num) && second == FillOrder(all[..|all| - num], num)
    && left == all[..|all| - 2 * num]
  }

  /** A link that was only filled and the buffers left make up what there was. */
  ghost predicate Shared(t: State, left: seq<Frame>, all: seq<Frame>, bufLen: ChunkLen) {
    && LinkInv(t) && OnlyFilled(t, bufLen) && AllWellFormed(left, bufLen)
    && multiset(Addrs(left)) + InLink(t) == multiset(Addrs(all))
  }

  /** One initial fill of a new link: complete exactly when there are as many buffers, and then of the last
      ones, last one first. */
  method FillNew(link: Link, bufs: Vec<Frame>, num: nat) returns (ok: bool)
    requires link.Valid() && bufs.Valid() && num <= RING_SIZE && bufs !in link.Repr
    requires OnlyFilled(link.View(), link.bufLen) && link.View().p.filled == []
    requires AllWellFormed(bufs.items, link.bufLen)
    modifies link.Repr, link.mem, bufs
    ensures link.Valid() && bufs.Valid() && bufs.capacity == old(bufs.capacity)
    ensures Shared(link.View(), bufs.items, old(bufs.items), link.bufLen)
    ensures ok <==> num <= |old(bufs.items)|
    ensures ok ==>
      && link.View().p.filled == FillOrder(old(bufs.items), num)
      && bufs.items == old(bufs.items)[..|old(bufs.items)| - num]
  {
    hide Link.Valid, Link.View, Link.Owns, LinkInv, InLink, Addressed, AllWellFormed, Addrs, FillOrder, Progress;
    hide OnlyFilled;
    ghost var s, all := link.View(), bufs.items;
    link.KeepsAccounts();
    UntouchedBasics(s, link.bufLen);
    ghost var ks;
    var n;
    n, ks := Umem.Fill(link, bufs, num);
    link.KeepsAccounts();
    InitialFill(s, link.View(), all, n, link.bufLen);
    UntouchedInv(s, link.bufLen);
    UntouchedHoldsNothing(s);
    assert [] + FillOrder(all, n) == FillOrder(all, n);
    ok := n == num;
  }

  /** Both initial fills. The program panics unless each hands over all `num` buffers; it does exactly
      when the pool holds enough for both. */
  method InitialFills(link1: Link, link2: Link, bufs: Vec<Frame>, num: nat) returns (ok: bool)
    requires link1.Valid() && link2.Valid() && bufs.Valid()
    requires link1.bufLen == link2.bufLen && num <= RING_SIZE
    requires link1.Repr !! link2.Repr && bufs !in link1.Repr + link2.Repr
    requires link1.mem == link2.mem && link1.mem !in link1.Repr + link2.Repr
    requires OnlyFilled(link1.View(), link1.bufLen) && OnlyFilled(link2.View(), link1.bufLen)
    requires link1.View().p.filled == link2.View().p.filled == []
    requires AllWellFormed(bufs.items, link1.bufLen)
    modifies link1.Repr, link1.mem, link2.Repr, bufs
    ensures link1.Valid() && link2.Valid() && bufs.Valid() && bufs.capacity == old(bufs.capacity)
    ensures OnlyFilled(link1.View(), link1.bufLen) && OnlyFilled(link2.View(), link1.bufLen)
    ensures AllWellFormed(bufs.items, link1.bufLen)
    ensures Held(link1, link2, bufs) == multiset(Addrs(old(bufs.items)))
    ensures ok <==> 2 * num <= |old(bufs.items)|
    ensures ok ==> HandedOver(link1.View().p.filled, link2.View().p.filled, bufs.items, old(bufs.items), num)
  {
    hide Link.Valid, Link.View, Link.Owns, LinkInv, InLink, Addressed, AllWellFormed, Addrs, FillOrder;
    hide OnlyFilled;
    link1.KeepsAccounts();
    link2.KeepsAccounts();
    ghost var all := bufs.items;
    ok := FillNew(link1, bufs, num);
    ghost var rest := bufs.items;
    if ok {
      ok := FillNew(link2, bufs, num);
    } else {
      UntouchedInv(link2.View(), link2.bufLen);
      UntouchedHoldsNothing(link2.View());
    }
    TwoMoves(multiset(Addrs(all)), multiset(Addrs(rest)), multiset(Addrs(bufs.items)),
             InLink(link1.View()), InLink(link2.View()));
  }

  /** From a pool and two untouched links to the loop: the initial fills, then the loop's variables.
      `None` is the panic on an incomplete initial fill. */
  method StartLoop(link1: Link, link2: Link, bufs: Vec<Frame>, num: nat) returns (r: Option<Loop>)
    requires link1.Valid() && link2.Valid() && bufs.Valid()
    requires link1.bufLen == link2.bufLen && num <= RING_SIZE
    requires link1.Repr !! link2.Repr && bufs !in link1.Repr + link2.Repr
    requires link1.mem == link2.mem && link1.mem !in link1.Repr + link2.Repr
    requires OnlyFilled(link1.View(), link1.bufLen) && OnlyFilled(link2.View(), link1.bufLen)
    requires link1.View().p.filled == link2.View().p.filled == []
    requires AllWellFormed(bufs.items, link1.bufLen)
    modifies link1.Repr, link1.mem, link2.Repr, bufs
    ensures r.Some? <==> 2 * num <= |old(bufs.items)|
    ensures link1.Valid() && link2.Valid()
    ensures r.None? ==> bufs.Valid() && Held(link1, link2, bufs) == multiset(Addrs(old(bufs.items)))
    ensures r.Some? ==>
      && r.value.Valid() && r.value.mem == link1.mem && fresh(r.value.Repr - {bufs} - link1.Repr - link2.Repr)
      && r.value.facts == Facts(link1.bufLen, num, multiset(Addrs(old(bufs.items))), old(bufs.capacity))
      && r.value.pos == 0 && JustFilled(r.value.View(), old(bufs.items), num)
  {
    hide Link.Valid, Link.View, Link.Owns, LinkInv, InLink, AllWellFormed, Addrs, OnlyFilled, Sound;
    hide Loop.Valid, Loop.Apart, JustFilled, StartNet, FillOrder;
    ghost var owned := multiset(Addrs(bufs.items));
    assert |owned| == |bufs.items|;
    ghost var facts := Facts(link1.bufLen, num, owned, bufs.capacity);
    var ok := InitialFills(link1, link2, bufs, num);
    if !ok {
      return None;
    }
    link1.KeepsAccounts();
    link2.KeepsAccounts();
    StartsSound(link1.View(), link2.View(), bufs.items, facts);
    LoopStarts(link1.View(), link2.View(), bufs.items, old(bufs.items), num, link1.bufLen);
    var loop := new Loop(link1, link2, bufs, facts);
    r := Some(loop);
  }

  lemma LoopStarts(s1: State, s2: State, left: seq<Frame>, all: seq<Frame>, num: nat, bufLen: ChunkLen)
    requires OnlyFilled(s1, bufLen) && OnlyFilled(s2, bufLen) && HandedOver(s1.p.filled, s2.p.filled, left, all, num)
    ensures JustFilled(StartNet(s1, s2, left), all, num)
  {
    hide LinkInv, FillOrder;
  }

  lemma TwoMoves(pool: multiset<Addr>, rest: multiset<Addr>, last: multiset<Addr>, a: multiset<Addr>, b: multiset<Addr>)
    requires rest + a == pool && last + b == rest
    ensures last + a + b == pool
  {
    assert last + a + b == (last + b) + a;
  }

  /** The examples' `forward`: send what fits of a batch, unless there is nothing to send. */
  method Forward(tx: Link, bufs: Deque<Frame>) returns (n: nat)
    requires tx.Valid() && tx.View().p.Idle() && bufs.Valid() && bufs !in tx.Repr
    modifies tx.Repr, tx.mem, bufs`items
    ensures tx.Valid() && bufs.Valid()
    ensures n <= |old(bufs.items)| && (n == 0 || n == Min(|old(bufs.items)|, SOCKET_BATCH_SIZE))
    ensures n == 0 && old(bufs.items) != [] ==>
              |old(tx.View()).p.sent| - old(tx.View()).k.txTaken + Min(|old(bufs.items)|, SOCKET_BATCH_SIZE)
                > old(tx.View()).cfg.txSize
    ensures bufs.items == old(bufs.items)[n..]
    ensures Moved(old(tx.View()).(p := old(tx.View()).p.Sends(Descs(old(bufs.items)[..n]))), tx.View())
  {
    hide Link.Valid, Link.View, Link.Owns, Progress;
    if |bufs.items| == 0 {
      ProgressReflexive(tx.View().k);
      return 0;
    }
    ghost var ks;
    n, ks := Socket.TrySend(tx, bufs, SOCKET_BATCH_SIZE);
  }

  lemma ReceiveAmount(n: Net, m: Net, f: Facts, pos: nat, k: nat)
    requires pos < 2 && DidReceive(n, m, f, pos, k)
    ensures k <= 64 && |n.lanes[pos].pending| <= 4096
    ensures RxGrants(n.lanes[pos].link, m.lanes[pos].link, k, Min(4096 - |n.lanes[pos].pending|, 64))
  {
    hide LinkInv, Moved, BufsOf;
  }

  lemma ForwardAmount(n: Net, m: Net, pos: nat, k: nat)
    requires pos < 2 && DidForward(n, m, pos, k)
    ensures k == 0 || k == Min(|n.lanes[pos].pending|, 64)
  {
    hide Forwarded;
  }

  lemma NothingFilled(n: Net, pos: nat)
    requires |n.lanes| == 2 && pos < 2 && LinkInv(n.lanes[pos].link)
    ensures DidFill(n, n, pos, 0)
  {
    hide LinkInv;
    ProgressReflexive(n.lanes[pos].link.k);
    assert n.bufs[..|n.bufs| - 0] == n.bufs;
    assert n.lanes[pos].link.p.filled + FillOrder(n.bufs, 0) == n.lanes[pos].link.p.filled;
  }

  lemma IdleLane(n: Net, f: Facts, i: nat)
    requires Sound(n, f) && i < 2
    ensures |n.lanes| == 2 && n.lanes[i].link.p.Idle()
  {
    hide LinkInv, Addressed, AllFrames, InOrder, AllWellFormed;
  }
}
