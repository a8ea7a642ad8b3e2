/** l2fwd-2link from its start: the area, the two links, the initial fills and the loop. */
module TwoLink {
  import opened Bits
  import opened Frames
  import opened LinkState
  import opened Kernel
  import opened MmapArea
  import opened Forwarding
  import opened ForwardFacts
  import opened ForwardDrain
  import opened Forwarder

  datatype OpenError = RingNotPowerOfTwo | Create

  datatype OpenResult = Opened(link: Link) | Refused(error: OpenError)

  /** Umem::new and then Socket::new for one link; `umemCreated` and `socketCreated` are the outcomes
      of the foreign calls. A ring size is refused exactly when it is not 2^k for some k below 32. */
  method Open(bufLen: ChunkLen, rxSize: u32, txSize: u32, fillSize: u32, compSize: u32,
              mem: array<byte>, feed: Feed, umemCreated: bool, socketCreated: bool) returns (r: OpenResult)
    ensures r == Refused(RingNotPowerOfTwo) <==>
              || !(ARingSize(fillSize) && ARingSize(compSize))
              || (umemCreated && !(ARingSize(rxSize) && ARingSize(txSize)))
    ensures r.Opened? <==> && ARingSize(fillSize) && ARingSize(compSize) && ARingSize(rxSize) && ARingSize(txSize)
                           && umemCreated && socketCreated
    ensures r.Opened? ==>
      && fresh(r.link.Repr) && r.link.Valid() && r.link.bufLen == bufLen && r.link.mem == mem
      && r.link.View() == Untouched(Config(bufLen, fillSize, rxSize, txSize, compSize), feed)
  {
    hide IsPowOfTwo, PowerBelow, Link.Valid, Link.Owns;
    IsPowOfTwoExact(rxSize);
    IsPowOfTwoExact(txSize);
    IsPowOfTwoExact(fillSize);
    IsPowOfTwoExact(compSize);
    if !IsPowOfTwo(compSize) || !IsPowOfTwo(fillSize) {
      return Refused(RingNotPowerOfTwo);
    }
    if !umemCreated {
      return Refused(Create);
    }
    if !IsPowOfTwo(rxSize) || !IsPowOfTwo(txSize) {
      return Refused(RingNotPowerOfTwo);
    }
    if !socketCreated {
      return Refused(Create);
    }
    var link := new Link(bufLen, rxSize, txSize, fillSize, compSize, mem, feed);
    r := Opened(link);
  }

  ghost predicate ARingSize(v: u32) {
    PowerBelow(v, 32)
  }

  function Untouched(cfg: Config, feed: Feed): State {
    State(cfg, Prog([], [], 0, 0, 0, 0, Grant(0, []), Grant(0, []), Window([], 0), Window([], 0)),
          Kern(0, [], [], [], 0, [], [], [], feed))
  }

  /** The program up to its loop, on an area that could be mapped and links that could be created. No
      panic is reached: both initial fills are complete, and the loop owns exactly the area's frames. */
  method Start(bufNum: nat, bufLen: ChunkLen) returns (loop: Loop)
    ensures fresh(loop.Repr) && fresh(loop.mem) && loop.Valid() && loop.mem.Length == Area(bufNum, bufLen).Size()
    ensures loop.facts == Facts(bufLen, Min(bufNum / 2, 2048), multiset(FrameAddrs(bufNum, bufLen)), bufNum)
    ensures loop.pos == 0 && JustFilled(loop.View(), AreaBufs(bufNum, bufLen, BufCustom), Min(bufNum / 2, 2048))
    ensures forall l :: l in loop.View().lanes ==> l.link.cfg == Config(bufLen, 2048, 2048, 2048, 2048)
  {
    hide Link.Valid, Link.View, Link.Owns, Loop.Valid, Loop.Apart, Loop.View, OnlyFilled, AllWellFormed, JustFilled;
    hide Sound;
    var initial := Min(bufNum / 2, RING_SIZE);
    var made := New(bufNum, bufLen, true, BufCustom);
    var link1 := OpenLink(bufLen, made.mem);
    var link2 := OpenLink(bufLen, made.mem);
    var r := StartLoop(link1, link2, made.bufs, initial);
    assert r.Some?;
    loop := r.value;
    loop.KeepsSound();
    RingsOfLoop(loop.View(), loop.facts);
  }

  lemma RingsOfLoop(n: Net, f: Facts)
    requires Sound(n, f)
    ensures |n.lanes| == 2
    ensures forall l :: l in n.lanes ==> l.link.cfg == Config(f.bufLen, 2048, 2048, 2048, 2048)
  {
    hide LinkInv, AllFrames, InOrder, AllWellFormed;
  }

  method OpenLink(bufLen: ChunkLen, mem: array<byte>) returns (link: Link)
    ensures fresh(link.Repr) && link.Valid() && link.bufLen == bufLen && link.mem == mem
    ensures OnlyFilled(link.View(), bufLen) && link.View().p.filled == []
  {
    hide Link.Valid, Link.View, Link.Owns, LinkInv;
    assert ARingSize(RING_SIZE) by {
      Pow2Add(5, 6);
      assert Pow2(11) == RING_SIZE;
    }
    var r := Open(bufLen, RING_SIZE, RING_SIZE, RING_SIZE, RING_SIZE, mem, Any, true, true);
    link := r.link;
    link.KeepsAccounts();
  }

  /** The whole program, for any number of iterations and whatever the kernels do: so many passes after the
      initial fills, every frame of the area is in exactly one place, and nothing else is anywhere. */
  method Execute(bufNum: nat, bufLen: ChunkLen, iterations: nat)
    returns (loop: Loop, ghost heads: seq<Net>, ghost passes: seq<Pass>)
    ensures loop.Valid() && fresh(loop.Repr) && fresh(loop.mem)
    ensures loop.facts == Facts(bufLen, Min(bufNum / 2, 2048), multiset(FrameAddrs(bufNum, bufLen)), bufNum)
    ensures |passes| == iterations && Looped(heads, passes, loop.facts, 0) && heads[iterations] == loop.View()
    ensures JustFilled(heads[0], AreaBufs(bufNum, bufLen, BufCustom), Min(bufNum / 2, 2048))
    ensures forall a: Addr ::
      Sum(Stages(loop.View()))[a] == if a % bufLen == RESERVED && a / bufLen < bufNum then 1 else 0
  {
    hide Loop.Valid, Loop.Apart, Loop.View, Sound, JustFilled, Looped, Stages;
    loop := Start(bufNum, bufLen);
    heads, passes := loop.Run(iterations);
    loop.KeepsSound();
    LanesValid(loop.View(), loop.facts);
    SumOfStages(loop.View());
    forall a: Addr {
      FramesDistinct(bufNum, bufLen, a);
    }
  }

  /** The whole program, and then both wires fall silent while the kernels go on transmitting: after nine
      rounds for every buffer at the latest, everything received has left, every frame is back and no fill
      is due. A link can then go on receiving exactly if there are at least 128 buffers, or it has received
      fewer packets than frames were ever filled. */
  method ExecuteAndDrain(bufNum: nat, bufLen: ChunkLen, iterations: nat)
    returns (loop: Loop, ghost heads: seq<Net>, ghost passes: seq<Pass>)
    ensures loop.Valid() && Quiescent(loop.View())
    ensures |passes| == iterations && Looped(heads, passes, loop.facts, 0)
    ensures JustFilled(heads[0], AreaBufs(bufNum, bufLen, BufCustom), Min(bufNum / 2, 2048))
    ensures forall l :: l in loop.View().lanes ==>
      (StillFed(l) <==> bufNum >= 128 || l.stats.rx < bufNum / 2 + l.stats.fq)
  {
    hide Loop.Valid, Loop.Apart, Loop.View, Sound, Quiescent, Load, StillFed, JustFilled, Looped, Stages;
    loop, heads, passes := Execute(bufNum, bufLen, iterations);
    loop.Silence();
    loop.KeepsSound();
    LoadBounded(loop.View(), loop.facts);
    assert |multiset(FrameAddrs(bufNum, bufLen))| == bufNum;
    loop.Drain(9 * bufNum);
    loop.KeepsSound();
    LanesTwo(loop.View(), loop.facts);
    QuietFed(loop.View(), loop.facts, 0);
    QuietFed(loop.View(), loop.facts, 1);
  }
}
