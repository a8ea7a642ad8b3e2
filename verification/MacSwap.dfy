/** l2fwd-1link's `swap_macs`: exchange the two addresses at the front of every packet of a deque, through
    the buffers' slices of the flat area. */
module MacSwap {
  import opened Frames
  import opened Memory

  /** A packet with its first two six-byte fields exchanged. */
  function SwapMac(s: seq<byte>): (r: seq<byte>)
    requires |s| >= 12
    ensures |r| == |s|
  {
    s[6..12] + s[..6] + s[12..]
  }

  function SwapTimes(s: seq<byte>, n: nat): (r: seq<byte>)
    ensures |r| == |s|
  {
    if n == 0 || |s| < 12 then s else SwapMac(SwapTimes(s, n - 1))
  }

  /** Where every byte comes from: nothing past byte 12 is touched. */
  lemma SwapMacAt(s: seq<byte>, i: nat)
    requires 12 <= |s| && i < |s|
    ensures SwapMac(s)[i] == if i < 6 then s[i + 6] else if i < 12 then s[i - 6] else s[i]
  {
  }

  lemma SwapMacTwice(s: seq<byte>)
    requires |s| >= 12
    ensures SwapMac(SwapMac(s)) == s
  {
  }

  /** Only the parity of the number of swaps matters. */
  lemma {:induction false} SwapParity(s: seq<byte>, n: nat)
    requires |s| >= 12
    ensures SwapTimes(s, n) == if n % 2 == 0 then s else SwapMac(s)
  {
    if n > 0 {
      SwapParity(s, n - 1);
      SwapMacTwice(s);
    }
  }

  /** A packet is as if swapped once exactly when it was swapped an odd number of times, or its two
      addresses are the same anyway. */
  lemma LooksSwapped(s: seq<byte>, n: nat)
    requires |s| >= 12
    ensures SwapTimes(s, n) == SwapMac(s) <==> n % 2 == 1 || s[..6] == s[6..12]
  {
    SwapParity(s, n);
    if s[..6] == s[6..12] {
      assert s == s[..6] + s[6..12] + s[12..];
    } else {
      assert SwapMac(s)[..6] == s[6..12];
    }
  }

  // On the area's bytes.

  /** The area after the twelve bytes at `at` were exchanged. */
  function SwapAt(mem: seq<byte>, at: nat): (r: seq<byte>)
    ensures |r| == |mem|
  {
    if at + 12 <= |mem| then Poke(mem, at, mem[at + 6..at + 12] + mem[at..at + 6]) else mem
  }

  /** The area after swaps in order. */
  function SwapSlices(mem: seq<byte>, starts: seq<nat>): (r: seq<byte>)
    ensures |r| == |mem|
  {
    if starts == [] then mem
    else SwapAt(SwapSlices(mem, starts[..|starts| - 1]), starts[|starts| - 1])
  }

  /** Where the buffers' slices start. */
  function SliceStarts<T>(bufs: seq<Buf<T>>): (r: seq<nat>)
    ensures |r| == |bufs|
  {
    seq(|bufs|, i requires 0 <= i < |bufs| => bufs[i].data.start)
  }

  /** Every buffer's slice lies in the area and has room for the two addresses. */
  ghost predicate Addressable<T>(bufs: seq<Buf<T>>, size: nat) {
    forall i :: 0 <= i < |bufs| ==> 12 <= bufs[i].data.length && bufs[i].data.start + bufs[i].data.length <= size
  }

  /** swap_macs. */
  method SwapMacs<T>(bufs: Deque<Buf<T>>, mem: array<byte>)
    requires bufs.Valid() && Addressable(bufs.items, mem.Length)
    modifies mem
    ensures mem[..] == SwapSlices(old(mem[..]), SliceStarts(bufs.items))
  {
    hide SwapAt;
    ghost var starts := SliceStarts(bufs.items);
    assert starts[..0] == [];
    for i := 0 to |bufs.items|
      invariant mem[..] == SwapSlices(old(mem[..]), starts[..i])
    {
      SwapSlice(mem, bufs.items[i].data);
      assert starts[..i + 1][..i] == starts[..i] && starts[..i + 1][i] == bufs.items[i].data.start;
    }
    assert starts[..|bufs.items|] == starts;
  }

  /** The body of its loop, through the 12-byte temporary. */
  method SwapSlice(mem: array<byte>, slice: Slice)
    requires 12 <= slice.length && slice.start + slice.length <= mem.Length
    modifies mem
    ensures mem[..] == SwapAt(old(mem[..]), slice.start)
  {
    hide Poke;
    ghost var was := mem[..];
    var at := slice.start;
    var tmp := mem[at..at + 12];
    CopyInto(mem, at, tmp[6..12]);
    CopyInto(mem, at + 6, tmp[..6]);
    PokeTwice(was, at, tmp[6..12], tmp[..6]);
    assert tmp[6..12] == was[at + 6..at + 12] && tmp[..6] == was[at..at + 6];
  }

  /** Only the first twelve bytes of the named slices change. */
  lemma {:induction false} SwapOutside(mem: seq<byte>, starts: seq<nat>, p: nat)
    requires p < |mem| && forall i :: 0 <= i < |starts| ==> p < starts[i] || starts[i] + 12 <= p
    ensures SwapSlices(mem, starts)[p] == mem[p]
  {
    if starts != [] {
      var n := |starts| - 1;
      var before := SwapSlices(mem, starts[..n]);
      SwapOutside(mem, starts[..n], p);
      if starts[n] + 12 <= |mem| {
        PokeByte(before, starts[n], before[starts[n] + 6..starts[n] + 12] + before[starts[n]..starts[n] + 6], p);
      }
    }
  }

  /** A frame reads as if swapped as often as it is named, whatever happens to other frames. */
  lemma {:induction false} SwapSeen(mem: seq<byte>, starts: seq<nat>, b: Addr, size: nat, bufLen: ChunkLen)
    requires 12 <= size <= bufLen && b + size <= |mem|
    requires forall i :: 0 <= i < |starts| ==> starts[i] % bufLen == b % bufLen
    ensures Cell(SwapSlices(mem, starts), b, size) == SwapTimes(Cell(mem, b, size), multiset(starts)[b])
  {
    hide Cell, SwapAt;
    if starts != [] {
      var n := |starts| - 1;
      var init: seq<nat> := starts[..n];
      var a, before := starts[n], SwapSlices(mem, init);
      SwapSeen(mem, init, b, size, bufLen);
      assert starts == init + [a];
      assert multiset(starts)[b] == multiset(init)[b] + if b == a then 1 else 0;
      if a == b {
        SwapHere(before, b, size);
      } else {
        SwapElsewhere(before, a, b, size, bufLen);
      }
    }
  }

  lemma SwapHere(mem: seq<byte>, b: Addr, size: nat)
    requires 12 <= size && b + size <= |mem|
    ensures |Cell(mem, b, size)| == size && Cell(SwapAt(mem, b), b, size) == SwapMac(Cell(mem, b, size))
  {
    var w := mem[b + 6..b + 12] + mem[b..b + 6];
    var s, r := Cell(mem, b, size), Cell(SwapAt(mem, b), b, size);
    var m := SwapAt(mem, b);
    assert m == Poke(mem, b, w) && |w| == 12 && r == m[b..b + size] && s == mem[b..b + size];
    forall i | 0 <= i < size ensures r[i] == SwapMac(s)[i] {
      PokeByte(mem, b, w, b + i);
      SwapMacAt(s, i);
      assert r[i] == m[b + i];
    }
    assert r == SwapMac(s);
  }

  lemma SwapElsewhere(mem: seq<byte>, a: Addr, b: Addr, size: nat, bufLen: ChunkLen)
    requires a % bufLen == b % bufLen && a != b && size <= bufLen
    ensures Cell(SwapAt(mem, a), b, size) == Cell(mem, b, size)
  {
    hide Poke, Cell;
    if a + 12 <= |mem| {
      FramesApart(mem, a, mem[a + 6..a + 12] + mem[a..a + 6], b, size, bufLen);
    }
  }

  /** A packet left over in the deque is swapped back by the next swap of the deque: two swaps undo
      each other in every frame both times named once. */
  lemma LeftoverSwappedBack(mem: seq<byte>, first: seq<nat>, second: seq<nat>, b: Addr, size: nat, bufLen: ChunkLen)
    requires 12 <= size <= bufLen && b + size <= |mem|
    requires forall i :: 0 <= i < |first| ==> first[i] % bufLen == b % bufLen
    requires forall i :: 0 <= i < |second| ==> second[i] % bufLen == b % bufLen
    requires multiset(first)[b] == multiset(second)[b] == 1
    ensures Cell(SwapSlices(SwapSlices(mem, first), second), b, size) == Cell(mem, b, size)
  {
    hide SwapSlices, SwapTimes;
    var s := Cell(mem, b, size);
    SwapSeen(mem, first, b, size, bufLen);
    SwapSeen(SwapSlices(mem, first), second, b, size, bufLen);
    SwapParity(s, 1);
    SwapParity(SwapMac(s), 1);
    SwapMacTwice(s);
  }
}
