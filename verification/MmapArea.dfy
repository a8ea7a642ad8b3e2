/** The memory area: how it is cut into chunks, and why buffers that name different frames never
    share a byte. */
module MmapArea {
  import opened Bits
  import opened Frames
  import opened BufPool

  datatype MmapError = Failed

  datatype NewResult<T> = Ok(area: Area, mem: array<byte>, bufs: Vec<Buf<T>>) | Err(error: MmapError)

  /** What is known of a mapped area: `bufNum` chunks of `bufLen` bytes. */
  datatype Area = Area(bufNum: nat, bufLen: ChunkLen) {
    function Size(): nat { bufNum * bufLen }
  }

  /** The address of the i-th frame. */
  function FrameAddr(i: nat, bufLen: ChunkLen): Addr {
    i * bufLen + RESERVED
  }

  function FrameAddrs(bufNum: nat, bufLen: ChunkLen): (r: seq<Addr>)
    ensures |r| == bufNum
  {
    seq(bufNum, i requires 0 <= i < bufNum => FrameAddr(i, bufLen))
  }

  /** The buffers of a fresh area: one for the data part of every chunk, empty. */
  function AreaBufs<T>(bufNum: nat, bufLen: ChunkLen, blank: T): (r: seq<Buf<T>>)
    ensures |r| == bufNum
  {
    seq(bufNum, i requires 0 <= i < bufNum =>
      Buf(FrameAddr(i, bufLen), 0, Slice(FrameAddr(i, bufLen), bufLen - RESERVED), blank))
  }

  lemma AreaBufsGood<T>(bufNum: nat, bufLen: ChunkLen, blank: T)
    ensures Addrs(AreaBufs(bufNum, bufLen, blank)) == FrameAddrs(bufNum, bufLen)
    ensures AllWellFormed(AreaBufs(bufNum, bufLen, blank), bufLen)
  {
    forall i | 0 <= i < bufNum ensures WellFormed(AreaBufs(bufNum, bufLen, blank)[i], bufLen) {
      FrameAddrHome(i, bufLen);
    }
  }

  /** MmapArea::new. `mapped` is the outcome of the mmap call. */
  method New<T>(bufNum: nat, bufLen: ChunkLen, mapped: bool, blank: T) returns (r: NewResult<T>)
    ensures r.Err? <==> !mapped
    ensures r.Ok? ==>
      && r.area == Area(bufNum, bufLen) && fresh(r.mem) && r.mem.Length == r.area.Size()
      && fresh(r.bufs) && r.bufs.Valid() && r.bufs.capacity == bufNum
      && r.bufs.items == AreaBufs(bufNum, bufLen, blank)
      && (forall i: nat :: i < bufNum ==>
            r.bufs.items[i] == Buf(i * bufLen + 256, 0, Slice(i * bufLen + 256, bufLen - 256), blank))
      && Addrs(r.bufs.items) == FrameAddrs(bufNum, bufLen)
      && AllWellFormed(r.bufs.items, bufLen)
  {
    if !mapped {
      return Err(Failed);
    }
    var mem := new byte[Area(bufNum, bufLen).Size()](_ => 0);
    var bufs := new Vec<Buf<T>>(bufNum);
    var available := bufLen - RESERVED;
    for i := 0 to bufNum
      invariant bufs.Valid() && bufs.capacity == bufNum && |bufs.items| == i
      invariant forall j :: 0 <= j < i ==>
        bufs.items[j] == Buf(FrameAddr(j, bufLen), 0, Slice(FrameAddr(j, bufLen), available), blank)
    {
      var addr := i * bufLen + RESERVED;
      bufs.Push(Buf(addr, 0, Slice(addr, available), blank));
    }
    AreaBufsGood(bufNum, bufLen, blank);
    r := Ok(Area(bufNum, bufLen), mem, bufs);
  }

  /** The set-up the multicore example and the veth test share: map an area and put all of its buffers
      into a pool. */
  method NewPool<T>(bufNum: nat, bufLen: ChunkLen, blank: T) returns (pool: BufPoolVec<Buf<T>>, mem: array<byte>)
    ensures fresh(mem) && mem.Length == Area(bufNum, bufLen).Size()
    ensures fresh(pool) && fresh(pool.bufs) && pool.Valid()
    ensures pool.bufs.items == AreaBufs(bufNum, bufLen, blank)
    ensures Addrs(pool.bufs.items) == FrameAddrs(bufNum, bufLen)
    ensures AllWellFormed(pool.bufs.items, bufLen)
  {
    hide AllWellFormed, Addrs, FrameAddrs, AreaBufs;
    var made := New(bufNum, bufLen, true, blank);
    ghost var all := made.bufs.items;
    assert |Addrs(all)| == bufNum;
    pool := new BufPoolVec<Buf<T>>(bufNum);
    var put := pool.Put(made.bufs, bufNum);
    assert [] + all[0..] == all;
    mem := made.mem;
  }

  lemma FrameAddrHome(i: nat, bufLen: ChunkLen)
    ensures FrameAddr(i, bufLen) % bufLen == RESERVED
    ensures FrameAddr(i, bufLen) / bufLen == i
  {
    RemainderUnique(FrameAddr(i, bufLen), bufLen, i, RESERVED);
  }

  /** No address occurs twice, and the addresses are exactly the data addresses of the chunks. */
  lemma FramesDistinct(bufNum: nat, bufLen: ChunkLen, a: Addr)
    ensures multiset(FrameAddrs(bufNum, bufLen))[a] ==
            if a % bufLen == RESERVED && a / bufLen < bufNum then 1 else 0
  {
    CountFrames(bufNum, bufLen, a);
  }

  lemma {:induction false} CountFrames(bufNum: nat, bufLen: ChunkLen, a: Addr)
    ensures multiset(FrameAddrs(bufNum, bufLen))[a] ==
            if a % bufLen == RESERVED && a / bufLen < bufNum then 1 else 0
  {
    hide FrameAddr;
    if bufNum > 0 {
      var k := bufNum - 1;
      CountFrames(k, bufLen, a);
      assert FrameAddrs(bufNum, bufLen) == FrameAddrs(k, bufLen) + [FrameAddr(k, bufLen)];
      IsFrame(a, k, bufLen);
      assert multiset(FrameAddrs(k, bufLen) + [FrameAddr(k, bufLen)])[a]
          == multiset(FrameAddrs(k, bufLen))[a] + if a == FrameAddr(k, bufLen) then 1 else 0;
    }
  }

  lemma IsFrame(a: Addr, k: nat, bufLen: ChunkLen)
    ensures a == FrameAddr(k, bufLen) <==> a % bufLen == RESERVED && a / bufLen == k
  {
    FrameAddrHome(k, bufLen);
    assert a == bufLen * (a / bufLen) + a % bufLen;
  }

  /** Byte `p` of the area belongs to the slice. */
  predicate Holds(s: Slice, p: nat) {
    s.start <= p < s.start + s.length
  }

  ghost predicate Overlap(x: Slice, y: Slice) {
    exists p: nat :: Holds(x, p) && Holds(y, p)
  }

  /** A well-formed buffer's bytes stay in its own chunk, past the reserved part. */
  lemma InsideChunk<T>(b: Buf<T>, bufLen: ChunkLen, p: nat)
    requires WellFormed(b, bufLen) && Holds(b.data, p)
    ensures p / bufLen == b.addr / bufLen && p % bufLen >= RESERVED
    ensures b.addr == bufLen * (p / bufLen) + RESERVED
  {
    var q := b.addr / bufLen;
    assert b.addr == bufLen * q + RESERVED;
    RemainderUnique(p, bufLen, q, p - bufLen * q);
  }

  /** Buffers with different addresses share no byte. */
  lemma SlicesApart<T>(b: Buf<T>, c: Buf<T>, bufLen: ChunkLen)
    requires WellFormed(b, bufLen) && WellFormed(c, bufLen) && b.addr != c.addr
    ensures !Overlap(b.data, c.data)
  {
    hide WellFormed;
    forall p: nat ensures !(Holds(b.data, p) && Holds(c.data, p)) {
      if Holds(b.data, p) && Holds(c.data, p) {
        InsideChunk(b, bufLen, p);
        InsideChunk(c, bufLen, p);
      }
    }
  }

  /** A well-formed buffer that names a frame of the area lies inside the area. */
  lemma InsideArea<T>(b: Buf<T>, area: Area)
    requires WellFormed(b, area.bufLen) && b.addr in multiset(FrameAddrs(area.bufNum, area.bufLen))
    ensures b.data.start + b.data.length <= area.Size()
  {
    FramesDistinct(area.bufNum, area.bufLen, b.addr);
    var q := b.addr / area.bufLen;
    assert b.addr == area.bufLen * q + RESERVED;
    assert b.data.start + b.data.length == area.bufLen * q + area.bufLen == area.bufLen * (q + 1);
    MulMonotone(area.bufLen, q + 1, area.bufNum);
  }

  /** A frame of the area is named once, and its data part lies in the area. */
  lemma FrameInside(a: Addr, area: Area)
    requires a in multiset(FrameAddrs(area.bufNum, area.bufLen))
    ensures multiset(FrameAddrs(area.bufNum, area.bufLen))[a] == 1
    ensures a % area.bufLen == RESERVED && a + (area.bufLen - RESERVED) <= area.Size()
  {
    FramesDistinct(area.bufNum, area.bufLen, a);
    var b := Buf(a, 0, Slice(a, area.bufLen - RESERVED), BufCustom);
    InsideArea(b, area);
  }

  lemma MulMonotone(d: nat, x: nat, y: nat)
    requires x <= y
    ensures d * x <= d * y
  {
    assert d * (y - x) >= 0;
  }
}
