/** The traffic test: each port sends bursts of numbered packets with random contents and remembers
    their hashes; each port checks order and hash of what it receives. */
module BiDirHash {
  import opened Bits
  import opened Frames
  import opened Memory

  const MIN_LEN: nat := 64
  const MAX_LEN: nat := 1500   // exclusive

  /** The bytes of a u64, lowest first; the order only has to be the same on both sides. */
  function ToBytes(n: nat, k: nat): (r: seq<byte>)
    ensures |r| == k
  {
    if k == 0 then [] else [n % 256] + ToBytes(n / 256, k - 1)
  }

  function FromBytes(s: seq<byte>): nat {
    if s == [] then 0 else s[0] + 256 * FromBytes(s[1..])
  }

  function Limit(k: nat): nat {
    if k == 0 then 1 else 256 * Limit(k - 1)
  }

  /** A sequence number read back from a packet is the one written into it. */
  lemma {:induction false} BytesRoundTrip(n: nat, k: nat)
    requires n < Limit(k)
    ensures FromBytes(ToBytes(n, k)) == n
  {
    if k > 0 {
      BytesRoundTrip(n / 256, k - 1);
      assert ToBytes(n, k)[1..] == ToBytes(n / 256, k - 1);
    }
  }

  /** How many packets `transmit` queues: nothing unless due, a full burst or nothing while a full burst
      is left to send, and at the end what fits of the rest. */
  function BurstCount(total: nat, burst: nat, transmitted: nat, due: bool, room: nat, avail: nat): nat {
    if !(transmitted < total && due) then 0
    else if total - transmitted >= burst then (if Min(room, avail) < burst then 0 else burst)
    else Min(Min(room, avail), total - transmitted)
  }

  /** What the burst rule wants: never more than a burst, than there is room, than there are buffers or packets
      left; nothing unless due; while a full burst is left all of it or nothing, and all of it if it fits; at the
      end as much as fits. */
  ghost predicate ByTheRule(n: nat, total: nat, burst: nat, transmitted: nat, due: bool, room: nat, avail: nat) {
    && n <= burst && n <= room && n <= avail && transmitted + n <= total
    && (!due ==> n == 0)
    && (transmitted + burst <= total ==> n == 0 || n == burst)
    && (due && transmitted + burst <= total && burst <= room && burst <= avail ==> n == burst)
    && (due && total < transmitted + burst ==> n == room || n == avail || transmitted + n == total)
  }

  /** The rule decides the count. */
  lemma RuleDecides(n: nat, total: nat, burst: nat, transmitted: nat, due: bool, room: nat, avail: nat)
    requires burst > 0 && transmitted <= total
    ensures ByTheRule(n, total, burst, transmitted, due, room, avail)
            <==> n == BurstCount(total, burst, transmitted, due, room, avail)
  {
  }

  class PortState {
    var transmitted: nat
    var received: nat
    var outOfOrder: nat
    var badHash: nat
    var seqNo: nat
    var lastReceivedSeq: nat
    var hashes: map<nat, nat>

    constructor ()
      ensures transmitted == received == outOfOrder == badHash == lastReceivedSeq == 0
      ensures seqNo == 1 && hashes == map[]
    {
      transmitted, received, outOfOrder, badHash, seqNo, lastReceivedSeq, hashes := 0, 0, 0, 0, 1, 0, map[];
    }

    /** The generator's books. */
    ghost predicate Valid(total: nat, burst: nat)
      reads this
    {
      && burst > 0 && transmitted <= total
      && seqNo == transmitted + 1
      && (forall s: nat :: s in hashes <==> 2 <= s <= seqNo)
      && (total - transmitted >= burst ==> transmitted % burst == 0)
    }
  }

  /** The sequence number in front of a packet. */
  function SeqOf(p: seq<byte>): nat
    requires |p| >= 8
  {
    FromBytes(p[..8])
  }

  /** The buffer's slice lies in the area and can take any packet of the test. */
  ghost predicate Roomy<T>(b: Buf<T>, mem: seq<byte>) {
    b.data.start + b.data.length <= |mem| && MAX_LEN <= b.GetCapacity() <= 0xFFFF
  }

  /** The buffers `pkts` were put in: the last ones of the Vec, last one first, with their new lengths. */
  function Queued<T>(bufs: seq<Buf<T>>, pkts: seq<Packet>): (r: seq<Buf<T>>)
    requires |pkts| <= |bufs|
    ensures |r| == |pkts|
  {
    seq(|pkts|, i requires 0 <= i < |pkts| => bufs[|bufs| - 1 - i].(len := |pkts[i]|))
  }

  /** Where the slices of the last `n` buffers start, last buffer first. */
  function SliceOrder<T>(bufs: seq<Buf<T>>, n: nat): (r: seq<nat>)
    requires n <= |bufs|
    ensures |r| == n
  {
    seq(n, i requires 0 <= i < n => bufs[|bufs| - 1 - i].data.start)
  }

  ghost predicate GoodPacket(p: Packet, seqNo: nat) {
    MIN_LEN <= |p| < MAX_LEN && SeqOf(p) == seqNo
  }

  /** The first bytes of a frame are a packet. */
  ghost predicate Starts(frame: seq<byte>, p: Packet) {
    |p| <= |frame| && frame[..|p|] == p
  }

  /** One pass through the loop of `transmit`. The sequence number and then random bytes go through the
      buffer's slice into the area, over the whole slice and nowhere else. */
  method QueueOne<T>(port: PortState, bufs: Vec<Buf<T>>, pending: Deque<Buf<T>>, mem: array<byte>,
                     hasher: seq<byte> -> nat)
    returns (ghost pkt: Packet, ghost frame: seq<byte>)
    requires bufs.Valid() && bufs.items != [] && pending.Valid() && |pending.items| < pending.capacity
    requires Roomy(bufs.items[|bufs.items| - 1], mem[..])
    requires port.seqNo + 1 < Limit(8) && port.seqNo + 1 !in port.hashes
    modifies port`seqNo, port`hashes, bufs`items, pending`items, mem
    ensures bufs.Valid() && pending.Valid()
    ensures var b := old(bufs.items)[|old(bufs.items)| - 1];
            && bufs.items == old(bufs.items)[..|old(bufs.items)| - 1]
            && pending.items == old(pending.items) + [b.(len := |pkt|)]
            && |frame| == b.data.length && Starts(frame, pkt)
            && mem[..] == Poke(old(mem[..]), b.data.start, frame)
    ensures port.seqNo == old(port.seqNo) + 1 && GoodPacket(pkt, port.seqNo) && 64 <= |pkt| < 1500
    ensures port.hashes == old(port.hashes)[port.seqNo := hasher(pkt)]
  {
    hide FromBytes, ToBytes, Limit, Poke;
    var buf := bufs.Pop();
    var len: nat :| MIN_LEN <= len < MAX_LEN;
    assert len <= buf.GetCapacity();
    buf := buf.(len := len);
    port.seqNo := port.seqNo + 1;
    var bytes := ToBytes(port.seqNo, 8);
    var noise := Noise(buf.data.length - 8);
    frame := bytes + noise;
    FillSlice(mem, buf.data, bytes, noise);
    var data := mem[buf.data.start..buf.data.start + buf.data.length];
    assert data == frame;
    pkt := data[..len];
    BytesRoundTrip(port.seqNo, 8);
    assert pkt[..8] == bytes;
    assert port.seqNo !in port.hashes;
    port.hashes := port.hashes[port.seqNo := hasher(data[..len])];
    var displaced := pending.PushBack(buf);
    assert !displaced;
  }

  /** The number into the first bytes of the slice, noise into the rest. */
  method FillSlice(mem: array<byte>, slice: Slice, bytes: seq<byte>, noise: seq<byte>)
    requires |bytes| + |noise| == slice.length && slice.start + slice.length <= mem.Length
    modifies mem
    ensures mem[..] == Poke(old(mem[..]), slice.start, bytes + noise)
    ensures mem[slice.start..slice.start + slice.length] == bytes + noise
  {
    hide Poke;
    ghost var was := mem[..];
    CopyInto(mem, slice.start, bytes);
    CopyInto(mem, slice.start + |bytes|, noise);
    PokeTwice(was, slice.start, bytes, noise);
    PokeThenCell(was, slice.start, bytes + noise, slice.length);
    assert Cell(mem[..], slice.start, slice.length) == (bytes + noise)[..slice.length] == bytes + noise;
  }

  /** Random bytes: any string of the length. */
  method Noise(n: nat) returns (s: seq<byte>)
    ensures |s| == n
  {
    s := [];
    while |s| < n
      invariant |s| <= n
    {
      var b: byte := *;
      s := s + [b];
    }
  }

  /** The loop of `transmit`: queue `n` packets. */
  method QueueAll<T>(port: PortState, n: nat, bufs: Vec<Buf<T>>, pending: Deque<Buf<T>>, mem: array<byte>,
                     hasher: seq<byte> -> nat)
    returns (ghost pkts: seq<Packet>, ghost frames: seq<seq<byte>>)
    requires bufs.Valid() && pending.Valid()
    requires n <= |bufs.items| && |pending.items| + n <= pending.capacity
    requires port.seqNo + n < Limit(8) && forall s: nat :: s in port.hashes ==> s <= port.seqNo
    requires forall i :: 0 <= i < |bufs.items| ==> Roomy(bufs.items[i], mem[..])
    modifies port`seqNo, port`hashes, bufs`items, pending`items, mem
    ensures bufs.Valid() && pending.Valid() && |pkts| == n
    ensures bufs.items == old(bufs.items)[..|old(bufs.items)| - n]
    ensures pending.items == old(pending.items) + Queued(old(bufs.items), pkts)
    ensures port.seqNo == old(port.seqNo) + n
    ensures Wrote(old(bufs.items), pkts, frames, old(mem[..]), mem[..])
    ensures Hashed(old(port.hashes), old(port.seqNo), pkts, port.hashes, hasher)
  {
    hide Wrote, Hashed, Queued, GoodPacket, Starts, Limit, Poke, Roomy;
    ghost var was := bufs.items;
    pkts, frames := [], [];
    NothingQueued(was, mem[..], port.hashes, port.seqNo, hasher);
    var i := 0;
    while i < n
      invariant i <= n && |pkts| == i && bufs.Valid() && pending.Valid()
      invariant bufs.items == was[..|was| - i]
      invariant pending.items == old(pending.items) + Queued(was, pkts)
      invariant port.seqNo == old(port.seqNo) + i
      invariant Wrote(was, pkts, frames, old(mem[..]), mem[..])
      invariant Hashed(old(port.hashes), old(port.seqNo), pkts, port.hashes, hasher)
    {
      ghost var b, mem1, hashes1 := was[|was| - 1 - i], mem[..], port.hashes;
      StillRoomy(b, old(mem[..]), mem1);
      NextNumberFree(old(port.hashes), old(port.seqNo), pkts, hashes1, hasher);
      ghost var p, f := QueueOne(port, bufs, pending, mem, hasher);
      WroteNext(was, pkts, frames, p, f, old(mem[..]), mem1, mem[..]);
      HashedNext(old(port.hashes), old(port.seqNo), pkts, p, hashes1, port.hashes, hasher);
      QueuedNext(was, pkts, p);
      pkts, frames := pkts + [p], frames + [f];
      i := i + 1;
    }
  }

  /** BiDirHash::transmit. `due` says whether the gap since the last burst is over. */
  method Transmit<T>(port: PortState, total: nat, burst: nat, due: bool, bufs: Vec<Buf<T>>, pending: Deque<Buf<T>>,
                     mem: array<byte>, hasher: seq<byte> -> nat)
    returns (n: nat, ghost pkts: seq<Packet>, ghost frames: seq<seq<byte>>)
    requires port.Valid(total, burst) && total + 2 < Limit(8)
    requires bufs.Valid() && pending.Valid()
    requires forall i :: 0 <= i < |bufs.items| ==> Roomy(bufs.items[i], mem[..])
    modifies port`seqNo, port`hashes, port`transmitted, bufs`items, pending`items, mem
    ensures port.Valid(total, burst) && bufs.Valid() && pending.Valid()
    ensures n == BurstCount(total, burst, old(port.transmitted), due,
                            pending.capacity - |old(pending.items)|, |old(bufs.items)|)
    ensures ByTheRule(n, total, burst, old(port.transmitted), due,
                      pending.capacity - |old(pending.items)|, |old(bufs.items)|)
    ensures |pkts| == n <= |old(bufs.items)|
    ensures bufs.items == old(bufs.items)[..|old(bufs.items)| - n]
    ensures pending.items == old(pending.items) + Queued(old(bufs.items), pkts)
    ensures port.transmitted == old(port.transmitted) + n
    ensures Wrote(old(bufs.items), pkts, frames, old(mem[..]), mem[..])
    ensures Hashed(old(port.hashes), old(port.seqNo), pkts, port.hashes, hasher)
  {
    hide Wrote, Hashed, Queued, GoodPacket, Roomy, Limit, Poke;
    n, pkts, frames := 0, [], [];
    RuleDecides(BurstCount(total, burst, port.transmitted, due, pending.capacity - |pending.items|, |bufs.items|),
                total, burst, port.transmitted, due, pending.capacity - |pending.items|, |bufs.items|);
    NothingQueued(bufs.items, mem[..], port.hashes, port.seqNo, hasher);
    if port.transmitted < total && due {
      var packetCount := Min(pending.capacity - |pending.items|, |bufs.items|);
      if total - port.transmitted >= burst {
        if packetCount < burst {
          return;
        } else {
          packetCount := burst;
        }
      } else {
        packetCount := Min(packetCount, total - port.transmitted);
      }
      CountFits(total, burst, port.transmitted, due, pending.capacity - |pending.items|, |bufs.items|);
      pkts, frames := QueueAll(port, packetCount, bufs, pending, mem, hasher);
      AllNumbered(old(port.hashes), old(port.seqNo), pkts, port.hashes, hasher);
      port.transmitted := port.transmitted + packetCount;
      n := packetCount;
    }
  }

  lemma CountFits(total: nat, burst: nat, transmitted: nat, due: bool, room: nat, avail: nat)
    requires burst > 0 && transmitted <= total
    requires total - transmitted >= burst ==> transmitted % burst == 0
    ensures var n := BurstCount(total, burst, transmitted, due, room, avail);
            && n <= burst && (transmitted + burst <= total ==> n == 0 || n == burst)
            && n <= room && n <= avail && transmitted + n <= total
            && (total - (transmitted + n) >= burst ==> (transmitted + n) % burst == 0)
            && (n == 0 <==> || transmitted == total || !due
                            || Min(room, avail) < (if total - transmitted >= burst then burst else 1))
            && (n < burst && n > 0 ==>
                 total - transmitted < burst && (n == room || n == avail || transmitted + n == total))
  {
    if transmitted % burst == 0 {
      RemainderUnique(transmitted + burst, burst, transmitted / burst + 1, 0) by {
        assert transmitted == burst * (transmitted / burst);
        assert burst * (transmitted / burst + 1) == burst * (transmitted / burst) + burst;
      }
    }
  }

  lemma NothingQueued<T>(bufs: seq<Buf<T>>, mem: seq<byte>, hashes: map<nat, nat>, from: nat, hasher: seq<byte> -> nat)
    ensures Wrote(bufs, [], [], mem, mem) && Hashed(hashes, from, [], hashes, hasher) && Queued(bufs, []) == []
  {
  }

  lemma StillRoomy<T>(b: Buf<T>, before: seq<byte>, after: seq<byte>)
    requires |after| == |before| && Roomy(b, before)
    ensures Roomy(b, after)
  {
  }

  lemma NextNumberFree(before: map<nat, nat>, from: nat, pkts: seq<Packet>, after: map<nat, nat>,
                       hasher: seq<byte> -> nat)
    requires Hashed(before, from, pkts, after, hasher) && forall s: nat :: s in before ==> s <= from
    ensures from + |pkts| + 1 !in after
  {
  }

  lemma WroteNext<T>(bufs: seq<Buf<T>>, pkts: seq<Packet>, frames: seq<seq<byte>>, p: Packet, f: seq<byte>,
                     before: seq<byte>, mid: seq<byte>, after: seq<byte>)
    requires |pkts| < |bufs| && Wrote(bufs, pkts, frames, before, mid)
    requires var b := bufs[|bufs| - 1 - |pkts|];
             && |f| == b.data.length && Starts(f, p) && after == Poke(mid, b.data.start, f)
    ensures Wrote(bufs, pkts + [p], frames + [f], before, after)
  {
    hide Poke, Starts;
    var n := |pkts|;
    assert SliceOrder(bufs, n + 1) == SliceOrder(bufs, n) + [bufs[|bufs| - 1 - n].data.start];
    PokeAllNext(before, SliceOrder(bufs, n), frames, bufs[|bufs| - 1 - n].data.start, f);
  }

  lemma QueuedNext<T>(bufs: seq<Buf<T>>, pkts: seq<Packet>, p: Packet)
    requires |pkts| < |bufs|
    ensures Queued(bufs, pkts + [p]) == Queued(bufs, pkts) + [bufs[|bufs| - 1 - |pkts|].(len := |p|)]
  {
  }

  lemma HashedNext(before: map<nat, nat>, from: nat, pkts: seq<Packet>, p: Packet,
                   mid: map<nat, nat>, after: map<nat, nat>, hasher: seq<byte> -> nat)
    requires Hashed(before, from, pkts, mid, hasher) && GoodPacket(p, from + |pkts| + 1)
    requires after == mid[from + |pkts| + 1 := hasher(p)]
    ensures Hashed(before, from, pkts + [p], after, hasher)
  {
  }

  lemma AllNumbered(before: map<nat, nat>, from: nat, pkts: seq<Packet>, after: map<nat, nat>, hasher: seq<byte> -> nat)
    requires Hashed(before, from, pkts, after, hasher) && from >= 1
    requires forall s: nat :: s in before <==> 2 <= s <= from
    ensures forall s: nat :: s in after <==> 2 <= s <= from + |pkts|
  {
  }

  /** The slices of the last buffers were overwritten in order, each whole, each with a frame that starts
      with its packet; nothing else was written. */
  ghost predicate Wrote<T>(bufs: seq<Buf<T>>, pkts: seq<Packet>, frames: seq<seq<byte>>, before: seq<byte>,
                           after: seq<byte>) {
    && |pkts| == |frames| <= |bufs| && |after| == |before|
    && after == PokeAll(before, SliceOrder(bufs, |pkts|), frames)
    && (forall i :: 0 <= i < |pkts| ==> |frames[i]| == bufs[|bufs| - 1 - i].data.length && Starts(frames[i], pkts[i]))
  }

  /** The packets are numbered on from `from` and their hashes, and only theirs, were remembered. */
  ghost predicate Hashed(before: map<nat, nat>, from: nat, pkts: seq<Packet>, after: map<nat, nat>,
                         hasher: seq<byte> -> nat) {
    && (forall s: nat :: s in after <==> s in before || from < s <= from + |pkts|)
    && (forall s: nat :: s in before && !(from < s <= from + |pkts|) ==> after[s] == before[s])
    && (forall i :: 0 <= i < |pkts| ==> GoodPacket(pkts[i], from + 1 + i) && after[from + 1 + i] == hasher(pkts[i]))
  }

  /** What a received buffer holds: its frame's bytes, of which the first `len` are the packet. */
  datatype Arrival = Arrival(data: seq<byte>, len: nat)

  type Readable = a: Arrival | 8 <= |a.data| && a.len <= |a.data| witness Arrival([0, 0, 0, 0, 0, 0, 0, 0], 0)

  datatype Checks = Checks(last: nat, outOfOrder: nat, badHash: nat)

  /** The checks on one packet. */
  function Check(c: Checks, a: Readable, hashes: map<nat, nat>, hasher: seq<byte> -> nat): Checks {
    var s := SeqOf(a.data);
    Checks(if s <= c.last then c.last else s,
           if s <= c.last then c.outOfOrder + 1 else c.outOfOrder,
           if s in hashes && hasher(a.data[..a.len]) != hashes[s] then c.badHash + 1 else c.badHash)
  }

  /** The checks on packets in order. */
  function CheckAll(c: Checks, arrivals: seq<Readable>, hashes: map<nat, nat>, hasher: seq<byte> -> nat): (r: Checks)
    ensures arrivals == [] ==> r == c
  {
    if arrivals == [] then c
    else Check(CheckAll(c, arrivals[..|arrivals| - 1], hashes, hasher), arrivals[|arrivals| - 1], hashes, hasher)
  }

  /** Every buffer's slice lies in the area, holds a number and is not shorter than the packet. */
  ghost predicate Legible<T>(bufs: seq<Buf<T>>, mem: seq<byte>) {
    forall i :: 0 <= i < |bufs| ==>
      bufs[i].data.start + bufs[i].data.length <= |mem| && 8 <= bufs[i].data.length &&
          bufs[i].len <= bufs[i].data.length
  }

  ghost function Arrivals<T>(bufs: seq<Buf<T>>, mem: seq<byte>): (r: seq<Readable>)
    requires Legible(bufs, mem)
    ensures |r| == |bufs|
  {
    seq(|bufs|, i requires 0 <= i < |bufs| => Arrival(Cell(mem, bufs[i].data.start, bufs[i].data.length), bufs[i].len))
  }

  lemma CheckAllNext(c: Checks, arrivals: seq<Readable>, n: nat, hashes: map<nat, nat>, hasher: seq<byte> -> nat)
    requires n < |arrivals|
    ensures CheckAll(c, arrivals[..n + 1], hashes, hasher) ==
            Check(CheckAll(c, arrivals[..n], hashes, hasher), arrivals[n], hashes, hasher)
  {
    assert arrivals[..n + 1][..n] == arrivals[..n];
  }

  /** One pass through the loop of `receive`: the checks on one packet. */
  method CheckOne(port: PortState, other: PortState, data: seq<byte>, len: nat, hasher: seq<byte> -> nat)
    requires port != other && 8 <= |data| && len <= |data|
    modifies port`outOfOrder, port`badHash, port`lastReceivedSeq
    ensures Checks(port.lastReceivedSeq, port.outOfOrder, port.badHash) ==
            Check(old(Checks(port.lastReceivedSeq, port.outOfOrder, port.badHash)), Arrival(data, len),
                  other.hashes, hasher)
    ensures var s := SeqOf(data);
      && port.lastReceivedSeq == (if s > old(port.lastReceivedSeq) then s else old(port.lastReceivedSeq))
      && port.outOfOrder == old(port.outOfOrder) + (if s <= old(port.lastReceivedSeq) then 1 else 0)
      && port.badHash ==
           old(port.badHash) + (if s in other.hashes && hasher(data[..len]) != other.hashes[s] then 1 else 0)
  {
    var s := SeqOf(data);
    if s <= port.lastReceivedSeq {
      port.outOfOrder := port.outOfOrder + 1;
    } else {
      port.lastReceivedSeq := s;
    }
    if s in other.hashes && hasher(data[..len]) != other.hashes[s] {
      port.badHash := port.badHash + 1;
    }
  }

  /** BiDirHash::receive: check every pending buffer in order and return it to the pool. */
  method Receive<T>(port: PortState, other: PortState, bufs: Vec<Buf<T>>, pending: Deque<Buf<T>>,
                    mem: array<byte>, hasher: seq<byte> -> nat) returns (received: nat)
    requires bufs.Valid() && pending.Valid() && port != other && Legible(pending.items, mem[..])
    modifies port`received, port`outOfOrder, port`badHash, port`lastReceivedSeq, bufs, pending`items
    ensures bufs.Valid() && pending.Valid()
    ensures pending.items == [] && bufs.items == old(bufs.items) + old(pending.items)
    ensures |bufs.items| <= old(bufs.capacity) ==> bufs.capacity == old(bufs.capacity)
    ensures received == |old(pending.items)| && port.received == old(port.received) + received
    ensures Checks(port.lastReceivedSeq, port.outOfOrder, port.badHash) ==
            CheckAll(old(Checks(port.lastReceivedSeq, port.outOfOrder, port.badHash)),
                     Arrivals(old(pending.items), mem[..]), other.hashes, hasher)
  {
    hide SeqOf, Check, CheckAll;
    ghost var was, c0 := pending.items, Checks(port.lastReceivedSeq, port.outOfOrder, port.badHash);
    ghost var arrivals := Arrivals(was, mem[..]);
    received := 0;
    var n := |pending.items|;
    while received < n
      invariant received <= n == |was| && bufs.Valid() && pending.Valid()
      invariant pending.items == was[received..] && bufs.items == old(bufs.items) + was[..received]
      invariant |old(bufs.items)| + received <= old(bufs.capacity) ==> bufs.capacity == old(bufs.capacity)
      invariant port.received == old(port.received)
      invariant Checks(port.lastReceivedSeq, port.outOfOrder, port.badHash) ==
                CheckAll(c0, arrivals[..received], other.hashes, hasher)
    {
      var buf := pending.PopFront();
      assert buf == was[received];
      var data := mem[buf.data.start..buf.data.start + buf.data.length];
      assert data == Cell(mem[..], buf.data.start, buf.data.length);
      CheckOne(port, other, data, buf.len, hasher);
      assert arrivals[received] == Arrival(data, buf.len);
      CheckAllNext(c0, arrivals, received, other.hashes, hasher);
      bufs.Push(buf);
      received := received + 1;
    }
    assert arrivals[..n] == arrivals;
    port.received := port.received + received;
  }

  /** What the checks want: numbers going up from `last`, and contents that hash to what was remembered. */
  ghost predicate Clean(last: nat, arrivals: seq<Readable>, hashes: map<nat, nat>, hasher: seq<byte> -> nat) {
    && (forall i :: 0 <= i < |arrivals| ==> last < SeqOf(arrivals[i].data))
    && (forall i, j :: 0 <= i < j < |arrivals| ==> SeqOf(arrivals[i].data) < SeqOf(arrivals[j].data))
    && (forall i :: 0 <= i < |arrivals| ==>
          var s := SeqOf(arrivals[i].data);
          s in hashes ==> hasher(arrivals[i].data[..arrivals[i].len]) == hashes[s])
  }

  /** The checks count nothing exactly when the packets are in order and intact. */
  lemma {:induction false} CleanCountsNothing(c: Checks, arrivals: seq<Readable>, hashes: map<nat, nat>,
                                              hasher: seq<byte> -> nat)
    ensures var d := CheckAll(c, arrivals, hashes, hasher);
            && d.outOfOrder >= c.outOfOrder && d.badHash >= c.badHash && d.last >= c.last
            && (Clean(c.last, arrivals, hashes, hasher) <==> d.outOfOrder == c.outOfOrder && d.badHash == c.badHash)
            && (Clean(c.last, arrivals, hashes, hasher) && arrivals != [] ==>
                  d.last == SeqOf(arrivals[|arrivals| - 1].data))
  {
    hide SeqOf;
    if arrivals != [] {
      var n := |arrivals| - 1;
      var init := arrivals[..n];
      CleanCountsNothing(c, init, hashes, hasher);
      var x := arrivals[n];
      assert arrivals == init + [x];
      CleanSnoc(c.last, init, x, hashes, hasher);
    }
  }

  /** The i-th packet is not numbered above everything before it. */
  ghost predicate Late(last: nat, arrivals: seq<Readable>, i: nat)
    requires i < |arrivals|
  {
    var s := SeqOf(arrivals[i].data);
    s <= last || exists j :: 0 <= j < i && s <= SeqOf(arrivals[j].data)
  }

  /** Its hash is remembered and is another. */
  ghost predicate Broken(a: Readable, hashes: map<nat, nat>, hasher: seq<byte> -> nat) {
    var s := SeqOf(a.data);
    s in hashes && hasher(a.data[..a.len]) != hashes[s]
  }

  /** The greatest number there was. */
  ghost predicate Greatest(d: nat, last: nat, arrivals: seq<Readable>) {
    && last <= d && (forall i :: 0 <= i < |arrivals| ==> SeqOf(arrivals[i].data) <= d)
    && (d == last || exists i :: 0 <= i < |arrivals| && SeqOf(arrivals[i].data) == d)
  }

  ghost function LateOnes(last: nat, arrivals: seq<Readable>): set<nat> {
    set i: nat | i < |arrivals| && Late(last, arrivals, i)
  }

  ghost function BrokenOnes(arrivals: seq<Readable>, hashes: map<nat, nat>, hasher: seq<byte> -> nat): set<nat> {
    set i: nat | i < |arrivals| && Broken(arrivals[i], hashes, hasher)
  }

  /** What the checks count: one for each packet not numbered above all before it, and one for each whose hash
      is not the one remembered. */
  lemma {:induction false} CountsExact(c: Checks, arrivals: seq<Readable>, hashes: map<nat, nat>,
                                       hasher: seq<byte> -> nat)
    ensures var d := CheckAll(c, arrivals, hashes, hasher);
      && d.outOfOrder == c.outOfOrder + |LateOnes(c.last, arrivals)|
      && d.badHash == c.badHash + |BrokenOnes(arrivals, hashes, hasher)|
      && Greatest(d.last, c.last, arrivals)
  {
    hide SeqOf, Late, Greatest, LateOnes, BrokenOnes;
    if arrivals == [] {
      NoneCounted(c.last, arrivals, hashes, hasher);
    } else {
      var n := |arrivals| - 1;
      var d := CheckAll(c, arrivals[..n], hashes, hasher).last;
      CountsExact(c, arrivals[..n], hashes, hasher);
      LastLate(d, c.last, arrivals);
      LateNext(c.last, arrivals);
      BrokenNext(arrivals, hashes, hasher);
      GreatestNext(d, c.last, arrivals);
    }
  }

  lemma NoneCounted(last: nat, arrivals: seq<Readable>, hashes: map<nat, nat>, hasher: seq<byte> -> nat)
    requires arrivals == []
    ensures LateOnes(last, arrivals) == {} && BrokenOnes(arrivals, hashes, hasher) == {}
    ensures Greatest(last, last, arrivals)
  {
  }

  lemma LateNext(last: nat, arrivals: seq<Readable>)
    requires arrivals != []
    ensures var n := |arrivals| - 1;
      |LateOnes(last, arrivals)| == |LateOnes(last, arrivals[..n])| + (if Late(last, arrivals, n) then 1 else 0)
  {
    hide SeqOf, Late;
    var n := |arrivals| - 1;
    var late := LateOnes(last, arrivals[..n]);
    forall i: nat | i < n ensures Late(last, arrivals, i) <==> Late(last, arrivals[..n], i) {
      SameBefore(last, arrivals, n, i);
    }
    assert LateOnes(last, arrivals) == if Late(last, arrivals, n) then late + {n} else late;
  }

  lemma BrokenNext(arrivals: seq<Readable>, hashes: map<nat, nat>, hasher: seq<byte> -> nat)
    requires arrivals != []
    ensures var n := |arrivals| - 1;
      |BrokenOnes(arrivals, hashes, hasher)|
      == |BrokenOnes(arrivals[..n], hashes, hasher)| + (if Broken(arrivals[n], hashes, hasher) then 1 else 0)
  {
    hide SeqOf, Broken;
    var n := |arrivals| - 1;
    var broken := BrokenOnes(arrivals[..n], hashes, hasher);
    assert forall i :: 0 <= i < n ==> arrivals[..n][i] == arrivals[i];
    assert BrokenOnes(arrivals, hashes, hasher) == if Broken(arrivals[n], hashes, hasher) then broken + {n} else broken;
  }

  lemma SameBefore(last: nat, arrivals: seq<Readable>, n: nat, i: nat)
    requires i < n <= |arrivals|
    ensures Late(last, arrivals, i) <==> Late(last, arrivals[..n], i)
  {
    hide SeqOf;
    assert forall j :: 0 <= j < n ==> arrivals[..n][j] == arrivals[j];
    if Late(last, arrivals, i) && SeqOf(arrivals[i].data) > last {
      var j :| 0 <= j < i && SeqOf(arrivals[i].data) <= SeqOf(arrivals[j].data);
      assert SeqOf(arrivals[..n][i].data) <= SeqOf(arrivals[..n][j].data);
    }
  }

  lemma LastLate(d: nat, last: nat, arrivals: seq<Readable>)
    requires arrivals != [] && Greatest(d, last, arrivals[..|arrivals| - 1])
    ensures Late(last, arrivals, |arrivals| - 1) <==> SeqOf(arrivals[|arrivals| - 1].data) <= d
  {
    hide SeqOf;
    var n := |arrivals| - 1;
    var s := SeqOf(arrivals[n].data);
    assert forall j :: 0 <= j < n ==> arrivals[..n][j] == arrivals[j];
    if s <= d && s > last {
      var i :| 0 <= i < n && SeqOf(arrivals[..n][i].data) == d;
      assert s <= SeqOf(arrivals[i].data);
    }
    if Late(last, arrivals, n) && s > last {
      var j :| 0 <= j < n && s <= SeqOf(arrivals[j].data);
      assert SeqOf(arrivals[..n][j].data) <= d;
    }
  }

  lemma GreatestNext(d: nat, last: nat, arrivals: seq<Readable>)
    requires arrivals != [] && Greatest(d, last, arrivals[..|arrivals| - 1])
    ensures var s := SeqOf(arrivals[|arrivals| - 1].data); Greatest(if s <= d then d else s, last, arrivals)
  {
    hide SeqOf;
    var n := |arrivals| - 1;
    var s := SeqOf(arrivals[n].data);
    assert forall j :: 0 <= j < n ==> arrivals[..n][j] == arrivals[j];
    if s <= d && d != last {
      var i :| 0 <= i < n && SeqOf(arrivals[..n][i].data) == d;
      assert SeqOf(arrivals[i].data) == d;
    }
    forall i | 0 <= i < |arrivals| ensures SeqOf(arrivals[i].data) <= if s <= d then d else s {
      if i < n {
        assert SeqOf(arrivals[..n][i].data) <= d;
      }
    }
  }

  lemma CleanSnoc(last: nat, init: seq<Readable>, x: Readable, hashes: map<nat, nat>, hasher: seq<byte> -> nat)
    ensures Clean(last, init + [x], hashes, hasher) <==>
              && Clean(last, init, hashes, hasher)
              && (if init == [] then last else SeqOf(init[|init| - 1].data)) < SeqOf(x.data)
              && (SeqOf(x.data) in hashes ==> hasher(x.data[..x.len]) == hashes[SeqOf(x.data)])
  {
    hide SeqOf;
    var all := init + [x];
    if Clean(last, all, hashes, hasher) {
      assert forall i :: 0 <= i < |init| ==> all[i] == init[i];
      assert all[|init|] == x;
      assert init != [] ==> SeqOf(all[|init| - 1].data) < SeqOf(all[|init|].data);
    }
  }
}
