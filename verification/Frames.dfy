/** Frames of the memory area: their addresses, the buffers that name them, and the two containers
    (Vec and ArrayDeque) the program keeps them in. */
module Frames {
  import Bits

  /** Bytes in front of every packet that belong to the driver (AF_XDP_RESERVED). */
  const RESERVED: nat := 256

  /** Capacity of every pending deque (PENDING_LEN). */
  const PENDING_LEN: nat := 4096

  type Addr = nat

  type byte = n: int | 0 <= n < 256

  /** Chunk lengths this model covers: a data part is left and its length fits the u16 of BufMmap. */
  type ChunkLen = n: nat | RESERVED < n <= RESERVED + 0xFFFF witness 2048

  /** xdp_desc: what travels on the Rx and Tx rings. */
  datatype Desc = Desc(addr: Addr, len: nat)

  /** A slice of the area: the bytes from `start` up to `start + length`. */
  datatype Slice = Slice(start: nat, length: nat)

  /** BufMmap. */
  datatype Buf<T> = Buf(addr: Addr, len: nat, data: Slice, user: T) {
    function GetCapacity(): nat { data.length }
  }

  /** The examples' and the test's user data: nothing. */
  datatype BufCustom = BufCustom

  type Frame = Buf<BufCustom>

  datatype Option<T> = None | Some(value: T)

  /** The data address of the chunk that contains `a`: mask to the chunk, then skip the reserved bytes. */
  function Home(a: Addr, bufLen: ChunkLen): Addr
  {
    a - a % bufLen + RESERVED
  }

  function Homes(s: seq<Addr>, bufLen: ChunkLen): (r: seq<Addr>)
    ensures |r| == |s|
  {
    seq(|s|, i requires 0 <= i < |s| => Home(s[i], bufLen))
  }

  function DescAddrs(s: seq<Desc>): (r: seq<Addr>)
    ensures |r| == |s|
  {
    seq(|s|, i requires 0 <= i < |s| => s[i].addr)
  }

  function Addrs<T>(bufs: seq<Buf<T>>): (r: seq<Addr>)
    ensures |r| == |bufs|
  {
    seq(|bufs|, i requires 0 <= i < |bufs| => bufs[i].addr)
  }

  function Descs<T>(bufs: seq<Buf<T>>): (r: seq<Desc>)
    ensures |r| == |bufs|
  {
    seq(|bufs|, i requires 0 <= i < |bufs| => Desc(bufs[i].addr, bufs[i].len))
  }

  /** The buffer try_recv builds from a descriptor, and service from an address (with len 0). */
  function BufOf<T>(d: Desc, bufLen: ChunkLen, user: T): Buf<T>
  {
    Buf(d.addr, d.len, Slice(d.addr, bufLen - RESERVED), user)
  }

  function BufsOf<T>(ds: seq<Desc>, bufLen: ChunkLen, user: T): (r: seq<Buf<T>>)
    ensures |r| == |ds|
  {
    seq(|ds|, i requires 0 <= i < |ds| => BufOf(ds[i], bufLen, user))
  }

  function Blank(a: Addr): Desc { Desc(a, 0) }

  function Blanks(s: seq<Addr>): (r: seq<Desc>)
    ensures |r| == |s|
  {
    seq(|s|, i requires 0 <= i < |s| => Blank(s[i]))
  }

  /** The order in which `fill` hands over the last `n` buffers: last one first. */
  function FillOrder<T>(bufs: seq<Buf<T>>, n: nat): (r: seq<Addr>)
    requires n <= |bufs|
    ensures |r| == n
  {
    seq(n, i requires 0 <= i < n => bufs[|bufs| - 1 - i].addr)
  }

  /** A buffer the crate may hold: it names the data part of a chunk and exactly that part. */
  predicate WellFormed<T>(b: Buf<T>, bufLen: ChunkLen)
  {
    b.addr % bufLen == RESERVED && b.data == Slice(b.addr, bufLen - RESERVED)
  }

  predicate AllWellFormed<T>(bufs: seq<Buf<T>>, bufLen: ChunkLen)
  {
    forall i :: 0 <= i < |bufs| ==> WellFormed(bufs[i], bufLen)
  }

  /** A serviced buffer is empty and covers the data part of its chunk. */
  lemma ServicedBuffer<T>(addrs: seq<Addr>, i: nat, bufLen: ChunkLen, user: T)
    requires i < |addrs|
    ensures BufsOf(Blanks(addrs), bufLen, user)[i] == Buf(addrs[i], 0, Slice(addrs[i], bufLen - 256), user)
  {
  }

  /** A received buffer has the length of its packet. */
  lemma ReceivedBuffer<T>(ds: seq<Desc>, i: nat, bufLen: ChunkLen, user: T)
    requires i < |ds|
    ensures BufsOf(ds, bufLen, user)[i] == Buf(ds[i].addr, ds[i].len, Slice(ds[i].addr, bufLen - 256), user)
  {
  }

  /** What `try_send` submits for a buffer. */
  lemma SentDescriptor<T>(bufs: seq<Buf<T>>, i: nat)
    requires i < |bufs|
    ensures Descs(bufs)[i] == Desc(bufs[i].addr, bufs[i].len)
  {
  }

  /** The i-th address `fill` hands over is that of the i-th buffer from the back. */
  lemma FilledAddress<T>(bufs: seq<Buf<T>>, n: nat, i: nat)
    requires i < n <= |bufs|
    ensures FillOrder(bufs, n)[i] == bufs[|bufs| - 1 - i].addr
  {
  }

  lemma AddrsConcat<T>(a: seq<Buf<T>>, b: seq<Buf<T>>)
    ensures Addrs(a + b) == Addrs(a) + Addrs(b)
    ensures Descs(a + b) == Descs(a) + Descs(b)
  {
  }

  lemma BlanksAt(s: seq<Addr>, i: nat)
    requires i < |s|
    ensures Blanks(s)[i] == Blank(s[i])
  {
  }

  lemma BufsOfNext<T>(ds: seq<Desc>, i: nat, bufLen: ChunkLen, user: T)
    requires i < |ds|
    ensures BufsOf(ds[..i + 1], bufLen, user) == BufsOf(ds[..i], bufLen, user) + [BufOf(ds[i], bufLen, user)]
  {
  }

  lemma DescAddrsConcat(a: seq<Desc>, b: seq<Desc>)
    ensures DescAddrs(a + b) == DescAddrs(a) + DescAddrs(b)
  {
  }

  lemma HomesConcat(a: seq<Addr>, b: seq<Addr>, bufLen: ChunkLen)
    ensures Homes(a + b, bufLen) == Homes(a, bufLen) + Homes(b, bufLen)
  {
  }

  lemma DescAddrsOfBufs<T>(bufs: seq<Buf<T>>)
    ensures DescAddrs(Descs(bufs)) == Addrs(bufs)
  {
  }

  lemma DescsNext<T>(bufs: seq<Buf<T>>, i: nat)
    requires i < |bufs|
    ensures Descs(bufs[..i + 1]) == Descs(bufs[..i]) + [Desc(bufs[i].addr, bufs[i].len)]
  {
  }

  lemma FillOrderNext<T>(bufs: seq<Buf<T>>, i: nat)
    requires i < |bufs|
    ensures FillOrder(bufs, i + 1) == FillOrder(bufs, i) + [bufs[|bufs| - 1 - i].addr]
  {
  }

  /** `fill` hands over the suffix it takes, no more and no less. */
  lemma {:induction false} FillOrderIsSuffix<T>(bufs: seq<Buf<T>>, n: nat)
    requires n <= |bufs|
    ensures multiset(FillOrder(bufs, n)) == multiset(Addrs(bufs[|bufs| - n..]))
  {
    if n > 0 {
      FillOrderIsSuffix(bufs, n - 1);
      var k := |bufs| - n;
      assert bufs[k..] == [bufs[k]] + bufs[k + 1..];
      AddrsConcat([bufs[k]], bufs[k + 1..]);
      assert Addrs([bufs[k]]) == [bufs[k].addr];
      assert FillOrder(bufs, n) == FillOrder(bufs, n - 1) + [bufs[k].addr];
    }
  }

  /** A whole sequence is what was taken plus what is left, as bags of addresses. */
  lemma AddrsSplit<T>(bufs: seq<Buf<T>>, k: nat)
    requires k <= |bufs|
    ensures multiset(Addrs(bufs)) == multiset(Addrs(bufs[..k])) + multiset(Addrs(bufs[k..]))
  {
    assert bufs == bufs[..k] + bufs[k..];
    AddrsConcat(bufs[..k], bufs[k..]);
  }

  lemma InDescs(ds: seq<Desc>, i: nat)
    requires i < |ds|
    ensures multiset(DescAddrs(ds))[ds[i].addr] >= 1
  {
    assert DescAddrs(ds)[i] == ds[i].addr;
    assert ds[i].addr in multiset(DescAddrs(ds));
  }

  lemma InAddrs<T>(bufs: seq<Buf<T>>, i: nat)
    requires i < |bufs|
    ensures multiset(Addrs(bufs))[bufs[i].addr] >= 1
  {
    assert Addrs(bufs)[i] == bufs[i].addr;
    assert bufs[i].addr in multiset(Addrs(bufs));
  }

  ghost predicate NoRepeats(s: seq<Addr>) {
    forall i, j :: 0 <= i < j < |s| ==> s[i] != s[j]
  }

  lemma OnceEach(s: seq<Addr>, owned: multiset<Addr>)
    requires multiset(s) <= owned && forall a :: a in owned ==> owned[a] == 1
    ensures NoRepeats(s)
  {
    forall i, j | 0 <= i < j < |s| ensures s[i] != s[j] {
      CountTwice(s, i, j);
      assert s[i] in multiset(s);
    }
  }

  lemma CountTwice(s: seq<Addr>, i: nat, j: nat)
    requires i < j < |s|
    ensures s[i] == s[j] ==> multiset(s)[s[i]] >= 2
  {
    assert s == s[..j] + [s[j]] + s[j + 1..];
    assert s[i] in s[..j];
  }

  lemma HomeOfHome(a: Addr, bufLen: ChunkLen)
    ensures Home(a, bufLen) % bufLen == RESERVED
    ensures Home(Home(a, bufLen), bufLen) == Home(a, bufLen)
  {
    var q := a / bufLen;
    assert a == bufLen * q + a % bufLen;
    assert Home(a, bufLen) == bufLen * q + RESERVED;
    HomeRemainder(q, bufLen);
  }

  lemma HomeRemainder(q: nat, bufLen: ChunkLen)
    ensures (bufLen * q + RESERVED) % bufLen == RESERVED
  {
    Bits.RemainderUnique(bufLen * q + RESERVED, bufLen, q, RESERVED);
  }

  lemma HomesFixed(s: seq<Addr>, bufLen: ChunkLen)
    requires forall i :: 0 <= i < |s| ==> s[i] % bufLen == RESERVED
    ensures Homes(s, bufLen) == s
  {
  }

  /** Vec. Pushing onto a full Vec reallocates it; the new capacity is the allocator's choice. */
  class Vec<T> {
    var items: seq<T>
    var capacity: nat

    ghost predicate Valid()
      reads this
    {
      |items| <= capacity
    }

    /** Vec::with_capacity. */
    constructor (capacity: nat)
      ensures Valid() && items == [] && this.capacity == capacity
    {
      items, this.capacity := [], capacity;
    }

    method Push(x: T)
      requires Valid()
      modifies this
      ensures Valid() && items == old(items) + [x]
      ensures |old(items)| < old(capacity) ==> capacity == old(capacity)
    {
      if |items| == capacity {
        capacity := if capacity == 0 then 4 else 2 * capacity;
      }
      items := items + [x];
    }

    /** Vec::extend. */
    method Extend(xs: seq<T>)
      requires Valid()
      modifies this
      ensures Valid() && items == old(items) + xs
      ensures |old(items)| + |xs| <= old(capacity) ==> capacity == old(capacity)
    {
      var i := 0;
      while i < |xs|
        invariant i <= |xs| && Valid() && items == old(items) + xs[..i]
        invariant |old(items)| + |xs| <= old(capacity) ==> capacity == old(capacity)
      {
        Push(xs[i]);
        i := i + 1;
      }
    }

    /** Vec::drain of everything from `start` on. */
    method DrainFrom(start: nat) returns (xs: seq<T>)
      requires Valid() && start <= |items|
      modifies this`items
      ensures Valid() && items == old(items)[..start] && xs == old(items)[start..]
    {
      xs := items[start..];
      items := items[..start];
    }

    method Pop() returns (x: T)
      requires Valid() && items != []
      modifies this`items
      ensures Valid() && old(items) == items + [x]
    {
      x := items[|items| - 1];
      items := items[..|items| - 1];
    }
  }

  /** ArrayDeque with the Wrapping behaviour: pushing onto a full deque drops its front element. */
  class Deque<T> {
    const capacity: nat
    var items: seq<T>

    ghost predicate Valid()
      reads this
    {
      |items| <= capacity && capacity > 0
    }

    constructor ()
      ensures Valid() && items == [] && capacity == PENDING_LEN
    {
      capacity, items := PENDING_LEN, [];
    }

    /** Returns whether an element was pushed out. */
    method PushBack(x: T) returns (displaced: bool)
      requires Valid()
      modifies this`items
      ensures Valid()
      ensures displaced <==> |old(items)| == capacity
      ensures items == (if displaced then old(items)[1..] else old(items)) + [x]
    {
      displaced := |items| == capacity;
      if displaced {
        items := items[1..];
      }
      items := items + [x];
    }

    method PopFront() returns (x: T)
      requires Valid() && items != []
      modifies this`items
      ensures Valid() && old(items) == [x] + items
    {
      x := items[0];
      items := items[1..];
    }
  }
}
