/** Memory isolation: the slices the program can write through never share a byte with one another or
    with a frame somebody else holds, and never leave the area. One statement, and its instances for
    every driver. */
module Isolation {
  import opened Frames
  import opened LinkState
  import opened LinkFlow
  import opened MmapArea
  import Forwarding
  import OneLink
  import Veth

  /** The data part of the frame at `a`, as any buffer for it covers it. */
  function DataPart(a: Addr, bufLen: ChunkLen): Slice {
    Slice(a, bufLen - RESERVED)
  }

  /** These buffers are someone's share of the area: the frames they name, together with the frames `rest`
      held by others, are frames of the area, none named twice. */
  ghost predicate Share(bufs: seq<Frame>, rest: multiset<Addr>, area: Area) {
    && AllWellFormed(bufs, area.bufLen)
    && multiset(Addrs(bufs)) + rest <= multiset(FrameAddrs(area.bufNum, area.bufLen))
  }

  /** Any two of the buffers cover different bytes, none covers a byte of a frame in `rest`, and each stays
      inside the area, in its own chunk and past the reserved bytes. */
  ghost predicate Isolated(bufs: seq<Frame>, rest: multiset<Addr>, area: Area) {
    && (forall i, j :: 0 <= i < j < |bufs| ==> !Overlap(bufs[i].data, bufs[j].data))
    && (forall i, a :: 0 <= i < |bufs| && a in rest ==> !Overlap(bufs[i].data, DataPart(a, area.bufLen)))
    && (forall i :: 0 <= i < |bufs| ==> Inside(bufs[i], area))
  }

  ghost predicate Inside(b: Frame, area: Area) {
    forall p: nat :: MmapArea.Holds(b.data, p) ==>
      p < area.Size() && p / area.bufLen == b.addr / area.bufLen && p % area.bufLen >= RESERVED
  }

  /** Whoever holds a share is isolated. */
  lemma ShareIsolated(bufs: seq<Frame>, rest: multiset<Addr>, area: Area)
    requires Share(bufs, rest, area)
    ensures Isolated(bufs, rest, area)
  {
    hide Overlap, Inside, MmapArea.Holds;
    AreaOnce(area);
    var all := multiset(FrameAddrs(area.bufNum, area.bufLen));
    assert multiset(Addrs(bufs)) <= all;
    OnceEach(Addrs(bufs), all);
    forall i, j | 0 <= i < j < |bufs| ensures !Overlap(bufs[i].data, bufs[j].data) {
      assert Addrs(bufs)[i] != Addrs(bufs)[j];
      SlicesApart(bufs[i], bufs[j], area.bufLen);
    }
    forall i, a | 0 <= i < |bufs| && a in rest ensures !Overlap(bufs[i].data, DataPart(a, area.bufLen)) {
      RestApart(bufs, rest, area, i, a);
    }
    forall i | 0 <= i < |bufs| ensures Inside(bufs[i], area) {
      ShareInside(bufs, rest, area, i);
    }
  }

  lemma AreaOnce(area: Area)
    ensures forall a :: a in multiset(FrameAddrs(area.bufNum, area.bufLen)) ==>
                        multiset(FrameAddrs(area.bufNum, area.bufLen))[a] == 1
  {
    forall a | a in multiset(FrameAddrs(area.bufNum, area.bufLen))
      ensures multiset(FrameAddrs(area.bufNum, area.bufLen))[a] == 1
    {
      FramesDistinct(area.bufNum, area.bufLen, a);
    }
  }

  lemma RestApart(bufs: seq<Frame>, rest: multiset<Addr>, area: Area, i: nat, a: Addr)
    requires Share(bufs, rest, area) && i < |bufs| && a in rest
    ensures !Overlap(bufs[i].data, DataPart(a, area.bufLen))
  {
    hide Overlap;
    var all := multiset(FrameAddrs(area.bufNum, area.bufLen));
    InAddrs(bufs, i);
    FramesDistinct(area.bufNum, area.bufLen, a);
    assert (multiset(Addrs(bufs)) + rest)[a] <= all[a];
    SlicesApart(bufs[i], BufOf(Blank(a), area.bufLen, BufCustom), area.bufLen);
  }

  lemma ShareInside(bufs: seq<Frame>, rest: multiset<Addr>, area: Area, i: nat)
    requires Share(bufs, rest, area) && i < |bufs|
    ensures Inside(bufs[i], area)
  {
    var b, all := bufs[i], multiset(FrameAddrs(area.bufNum, area.bufLen));
    InAddrs(bufs, i);
    assert (multiset(Addrs(bufs)) + rest)[b.addr] <= all[b.addr];
    InsideArea(b, area);
    forall p: nat | MmapArea.Holds(b.data, p)
      ensures p < area.Size() && p / area.bufLen == b.addr / area.bufLen && p % area.bufLen >= RESERVED
    {
      InsideChunk(b, area.bufLen, p);
    }
  }

  // The drivers.

  /** Every buffer the two-link loop holds: the pool and both deques. */
  function NetBufs(n: Forwarding.Net): seq<Frame>
    requires |n.lanes| == 2
  {
    n.bufs + n.lanes[0].pending + n.lanes[1].pending
  }

  /** In every state of the two-link loop its buffers are isolated from each other and from all frames in
      either link. */
  lemma NetIsolated(n: Forwarding.Net, f: Forwarding.Facts, area: Area)
    requires Forwarding.Sound(n, f) && f.bufLen == area.bufLen
    requires f.owned <= multiset(FrameAddrs(area.bufNum, area.bufLen))
    ensures |n.lanes| == 2 && LinkInv(n.lanes[0].link) && LinkInv(n.lanes[1].link)
    ensures Isolated(NetBufs(n), InLink(n.lanes[0].link) + InLink(n.lanes[1].link), area)
  {
    NetShare(n, f);
    ShareIsolated(NetBufs(n), InLink(n.lanes[0].link) + InLink(n.lanes[1].link), area);
  }

  lemma NetShare(n: Forwarding.Net, f: Forwarding.Facts)
    requires Forwarding.Sound(n, f)
    ensures |n.lanes| == 2 && LinkInv(n.lanes[0].link) && LinkInv(n.lanes[1].link)
    ensures AllWellFormed(NetBufs(n), f.bufLen)
    ensures multiset(Addrs(NetBufs(n))) + (InLink(n.lanes[0].link) + InLink(n.lanes[1].link)) == f.owned
  {
    hide LinkInv, Addressed, InLink, Forwarding.InOrder, AllWellFormed, Addrs;
    Forwarding.WellFormedConcat(n.bufs, n.lanes[0].pending, f.bufLen);
    Forwarding.WellFormedConcat(n.bufs + n.lanes[0].pending, n.lanes[1].pending, f.bufLen);
  }

  /** The single-link loop. `elsewhere` is what `swap_macs` must not touch: the pool and the link. */
  ghost function Elsewhere(n: OneLink.One): multiset<Addr>
    requires LinkInv(n.lane.link)
  {
    multiset(Addrs(n.bufs)) + InLink(n.lane.link)
  }

  lemma OneIsolated(n: OneLink.One, f: Forwarding.Facts, area: Area)
    requires OneLink.Kept(n, f) && f.bufLen == area.bufLen
    requires f.owned <= multiset(FrameAddrs(area.bufNum, area.bufLen))
    ensures LinkInv(n.lane.link)
    ensures Isolated(n.bufs + n.lane.pending, InLink(n.lane.link), area)
    ensures Isolated(n.lane.pending, Elsewhere(n), area)
  {
    hide LinkInv, Addressed, InLink, Forwarding.InOrder, AllWellFormed, Addrs, Isolated;
    OneLink.KeptLink(n, f);
    Forwarding.WellFormedConcat(n.bufs, n.lane.pending, f.bufLen);
    ShareIsolated(n.bufs + n.lane.pending, InLink(n.lane.link), area);
    assert multiset(Addrs(n.lane.pending)) + Elsewhere(n) == f.owned;
    ShareIsolated(n.lane.pending, Elsewhere(n), area);
  }

  /** Every buffer a worker of the veth test holds: the Vec and both deques. */
  function PortBufs(p: Veth.Port): seq<Frame> {
    p.bufs + p.inbox + p.outbox
  }

  lemma PortIsolated(p: Veth.Port, f: Veth.Facts, bufNum: nat)
    requires Veth.Sound(p, f) && f.owned <= multiset(FrameAddrs(bufNum, Veth.BUF_SIZE))
    ensures LinkInv(p.link)
    ensures Isolated(PortBufs(p), InLink(p.link), Area(bufNum, Veth.BUF_SIZE))
  {
    hide LinkInv, Addressed, InLink, AllWellFormed, Addrs, Isolated;
    Forwarding.WellFormedConcat(p.bufs, p.inbox, Veth.BUF_SIZE);
    Forwarding.WellFormedConcat(p.bufs + p.inbox, p.outbox, Veth.BUF_SIZE);
    ShareIsolated(PortBufs(p), InLink(p.link), Area(bufNum, Veth.BUF_SIZE));
  }
}
