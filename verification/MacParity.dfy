/** l2fwd-1link with the bytes of its area: how often each packet's addresses are swapped.

    `swap_macs` runs over the whole deque after every non-empty receive, so packets a forward left behind
    are swapped again. The steps are the kernel's exact moves and the program's, in the order of its loop;
    service and fill may come at any point. Counts run over packets in the order they were received. */
module MacParity {
  import opened Frames
  import opened Memory
  import opened LinkState
  import opened LinkFlow
  import opened Forwarding
  import opened MacSwap
  import opened OneLink
  import ForwardFacts

  /** Where the program is in its loop. */
  datatype At = Receiving | Swapping | Sending

  datatype Swapper = Swapper(
    one: One, facts: Facts, batch: nat, at: At,
    mem: seq<byte>,        // the bytes of the area
    swaps: seq<nat>,       // how often each received packet was swapped
    stays: seq<nat>,       // how many non-empty receives each saw while it was in the deque
    met: bool)             // every non-empty receive so far found the deque empty
  {
    function Link(): State { one.lane.link }

    function Size(): int { facts.bufLen - RESERVED }

    /** The same with another kernel side and other bytes. */
    function With(x: Snap): Swapper {
      this.(one := one.(lane := one.lane.(link := one.lane.link.(k := x.k))), mem := x.mem)
    }
  }

  /** One more for every packet from `from` on. */
  function Bump(s: seq<nat>, from: nat): (r: seq<nat>)
    ensures |r| == |s|
  {
    seq(|s|, i requires 0 <= i < |s| => if i >= from then s[i] + 1 else s[i])
  }

  function Zeros(k: nat): (r: seq<nat>)
    ensures |r| == k
  {
    seq(k, _ => 0)
  }

  // Steps.

  ghost predicate KernelMoved(n: Swapper, m: Swapper) {
    && Next(n.Link(), Snap(n.Link().k, n.mem), Snap(m.Link().k, m.mem))
    && m == n.With(Snap(m.Link().k, m.mem))
  }

  ghost predicate Serviced(n: Swapper, m: Swapper, k: nat) {
    && OneService(n.one, m.one, n.facts, k) && m.Link().k == n.Link().k && m == n.(one := m.one)
  }

  ghost predicate Filled(n: Swapper, m: Swapper, k: nat) {
    && OneFill(n.one, m.one, k) && m.Link().k == n.Link().k && m == n.(one := m.one)
  }

  ghost predicate ReceivedSome(n: Swapper, m: Swapper, k: nat) {
    && n.at == Receiving && OneReceive(n.one, m.one, n.facts, k) && ReceivesEnough(n.one, k, n.batch)
    && m.Link().k == n.Link().k
    && m == n.(one := m.one, at := if k > 0 then Swapping else Sending, swaps := n.swaps + Zeros(k),
               stays := if k > 0 then Bump(n.stays + Zeros(k), |n.Link().p.sent|) else n.stays,
               met := n.met && (k > 0 ==> n.one.lane.pending == []))
  }

  ghost predicate SwappedDeque(n: Swapper, m: Swapper) {
    && n.at == Swapping
    && m == n.(at := Sending, mem := SwapSlices(n.mem, SliceStarts(n.one.lane.pending)),
               swaps := Bump(n.swaps, |n.Link().p.sent|))
  }

  ghost predicate ForwardedSome(n: Swapper, m: Swapper, k: nat) {
    && n.at == Sending && OneForward(n.one, m.one, k) && ForwardsEnough(n.one, k, n.batch)
    && m.Link().k == n.Link().k
    && m == n.(one := m.one, at := Receiving)
  }

  ghost predicate Step(n: Swapper, m: Swapper) {
    || KernelMoved(n, m)
    || (exists k: nat :: Serviced(n, m, k))
    || (exists k: nat :: Filled(n, m, k))
    || (exists k: nat :: ReceivedSome(n, m, k))
    || SwappedDeque(n, m)
    || (exists k: nat :: ForwardedSome(n, m, k))
  }

  // The invariant.

  /** Every owned frame is owned once, and its data part lies in the area and has room for two addresses. */
  ghost predicate Stored(owned: multiset<Addr>, size: nat, bufLen: ChunkLen) {
    && bufLen - RESERVED >= 12
    && (forall a :: a in owned ==> owned[a] == 1 && a % bufLen == RESERVED && a + (bufLen - RESERVED) <= size)
  }

  /** How often the r-th packet was swapped: never before it is received. */
  function Times(n: Swapper, r: nat): nat {
    if r < |n.swaps| then n.swaps[r] else 0
  }

  /** The r-th packet delivered is in its frame, swapped as often as counted. */
  ghost predicate InFrame(n: Swapper, r: nat)
    requires r < |n.Link().k.rxLog| && r < |n.Link().k.arrived|
  {
    var a := n.Link().k.rxLog[r].addr;
    && a + n.Size() <= |n.mem| && n.Size() >= 0
    && Cell(n.mem, a, n.Size()) == SwapTimes(n.Link().k.arrived[r], Times(n, r))
  }

  /** Until the kernel reads it for transmission, a packet is in its frame, swapped as often as counted. */
  ghost predicate InFrames(n: Swapper) {
    && |n.swaps| == n.Link().p.rxTaken <= |n.Link().k.rxLog| == |n.Link().k.arrived|
    && (forall r :: n.Link().k.txTaken <= r < |n.Link().k.rxLog| ==>
          InFrame(n, r))
  }

  /** What left is what arrived, in order, swapped as often as counted. */
  ghost predicate OnWire(n: Swapper) {
    && |n.Link().k.wire| == n.Link().k.txTaken <= |n.swaps| <= |n.Link().k.arrived| == |n.Link().k.rxLog|
    && (forall r :: 0 <= r < |n.Link().k.wire| ==>
          && n.Link().k.rxLog[r].len <= |n.Link().k.arrived[r]|
          && n.Link().k.wire[r] == SwapTimes(n.Link().k.arrived[r], n.swaps[r])[..n.Link().k.rxLog[r].len])
  }

  /** Swaps are non-empty receives seen in the deque, but for the swap that is due. Every packet was swapped
      exactly once exactly if every non-empty receive found the deque empty. */
  ghost predicate Counted(n: Swapper) {
    && |n.stays| == |n.swaps|
    && (forall r :: 0 <= r < |n.swaps| ==>
          n.stays[r] == n.swaps[r] + if n.at == Swapping && r >= |n.Link().p.sent| then 1 else 0)
    && (forall r :: 0 <= r < |n.stays| ==> n.stays[r] >= 1)
    && (n.met ==> forall r :: 0 <= r < |n.stays| ==> n.stays[r] == 1)
    && (!n.met ==> exists r :: 0 <= r < |n.stays| && n.stays[r] >= 2)
  }

  ghost predicate Tracked(n: Swapper) {
    && Kept(n.one, n.facts) && Stored(n.facts.owned, |n.mem|, n.facts.bufLen)
    && InFrames(n) && OnWire(n) && Counted(n)
  }

  /** The r-th received packet is in the Rx ring, the deque or the Tx ring: one place, by its number. */
  lemma PlaceOfPacket(n: Swapper, r: nat)
    requires Kept(n.one, n.facts) && n.Link().k.txTaken <= r < |n.Link().k.rxLog|
    ensures LinkInv(n.Link()) && |OnePlaces(n.one)| == 8
    ensures var a, s := n.Link().k.rxLog[r].addr, n.Link();
            OnePlaces(n.one)[if r < |s.p.sent| then 5 else if r < s.p.rxTaken then 1 else 4][a] >= 1
  {
    hide Addressed, AllWellFormed, OneFrames, Addrs, DescAddrs, RxAccounted, TxAccounted, Recorded;
    KeptLink(n.one, n.facts);
    var s, pending := n.Link(), n.one.lane.pending;
    if r < s.p.rxTaken {
      assert s.k.rxLog[..s.p.rxTaken][r] == (s.p.sent + Descs(pending))[r];
    }
    if r < |s.p.sent| {
      InDescs(s.p.sent[s.k.txTaken..], r - s.k.txTaken);
    } else if r < s.p.rxTaken {
      InAddrs(pending, r - |s.p.sent|);
    } else {
      InDescs(s.k.rxLog[s.p.rxTaken..], r - s.p.rxTaken);
    }
  }

  /** Two different packets under way, or one and a frame the kernel still holds, never share a frame. */
  lemma PacketsApart(n: Swapper, r: nat, place: nat, a: Addr)
    requires Kept(n.one, n.facts) && Stored(n.facts.owned, |n.mem|, n.facts.bufLen)
    requires n.Link().k.txTaken <= r < |n.Link().k.rxLog| && n.Link().k.rxLog[r].addr == a
    requires LinkInv(n.Link()) && place < 6 && OnePlaces(n.one)[place][a] >= 1
    ensures place == if r < |n.Link().p.sent| then 5 else if r < n.Link().p.rxTaken then 1 else 4
    ensures OnePlaces(n.one)[place][a] == 1
  {
    hide Kept, OnePlaces, Stored;
    var home := if r < |n.Link().p.sent| then 5 else if r < n.Link().p.rxTaken then 1 else 4;
    PlaceOfPacket(n, r);
    assert n.facts.owned[a] <= 1 by { OwnedAtMostOnce(n, a); }
    InOnePlace(n.one, n.facts, 0, 1, a);
    if home != place {
      InOnePlace(n.one, n.facts, if home < place then home else place, if home < place then place else home, a);
    } else {
      InOnePlace(n.one, n.facts, if place == 0 then 1 else 0, if place == 0 then 2 else place, a);
    }
  }

  lemma OwnedAtMostOnce(n: Swapper, a: Addr)
    requires Stored(n.facts.owned, |n.mem|, n.facts.bufLen)
    ensures n.facts.owned[a] <= 1
  {
    assert a !in n.facts.owned ==> n.facts.owned[a] == 0;
  }

  /** A frame in any of the places is a frame of the area. */
  lemma PlacedInside(n: Swapper, place: nat, a: Addr)
    requires Kept(n.one, n.facts) && Stored(n.facts.owned, |n.mem|, n.facts.bufLen)
    requires LinkInv(n.Link()) && place < 8 && |OnePlaces(n.one)| == 8 && OnePlaces(n.one)[place][a] >= 1
    ensures a % n.facts.bufLen == RESERVED && a + n.Size() <= |n.mem|
  {
    hide LinkInv, InOrder, LaneInv, AllWellFormed, Addrs, ForwardFacts.Sum, OnePlaces, OneFrames;
    SumOfOnePlaces(n.one);
    ForwardFacts.SumHolds(OnePlaces(n.one), place);
    assert n.facts.owned[a] >= 1;
  }

  // Every step keeps the invariant.

  lemma QuietKeeps(n: Swapper, m: Swapper)
    requires Tracked(n) && Kept(m.one, m.facts) && m == n.(one := m.one)
    requires m.one.lane.pending == n.one.lane.pending
    requires m.Link().p.sent == n.Link().p.sent && m.Link().k.txTaken == n.Link().k.txTaken
    requires m.Link().p.rxTaken == n.Link().p.rxTaken && m.Link().k.rxLog == n.Link().k.rxLog
    requires m.Link().k.arrived == n.Link().k.arrived && m.Link().k.wire == n.Link().k.wire
    ensures Tracked(m)
  {
    hide Kept, Stored, Cell, SwapTimes;
    forall r | m.Link().k.txTaken <= r < |m.Link().k.rxLog|
      ensures InFrame(m, r)
    {
      assert InFrame(n, r);
    }
  }

  lemma LinkSizes(n: Swapper)
    requires Kept(n.one, n.facts)
    ensures |n.Link().k.arrived| == |n.Link().k.rxLog| && |n.Link().k.wire| == n.Link().k.txTaken
    ensures forall r :: 0 <= r < |n.Link().k.rxLog| ==> n.Link().k.rxLog[r].len <= |n.Link().k.arrived[r]| == n.Size()
  {
  }

  lemma KernelMovedTracked(n: Swapper, m: Swapper)
    requires Tracked(n) && KernelMoved(n, m)
    ensures Tracked(m)
  {
    hide LinkInv, Tracked, Landed, Departed, TookFill, Finished, FellSilent, Kept, Moved;
    var s, t := n.Link(), m.Link();
    TrackedKept(n);
    KeptLink(n.one, n.facts);
    KernelMoveKeeps(s, n.mem, t, m.mem);
    OneTurnKeeps(n.one, m.one, n.facts);
    if i: nat, len: nat, bytes: seq<byte> :| Landed(s, n.mem, t, m.mem, i, len, bytes) {
      LandedTracked(n, m, i, len, bytes);
    } else if Departed(s, n.mem, t) && m.mem == n.mem {
      DepartedTracked(n, m);
    } else {
      QuietMove(s, t);
      QuietKeeps(n, m);
    }
  }

  lemma TrackedKept(n: Swapper)
    requires Tracked(n)
    ensures Kept(n.one, n.facts) && Stored(n.facts.owned, |n.mem|, n.facts.bufLen)
  {
    hide Kept, Stored;
  }

  lemma QuietMove(s: State, t: State)
    requires t == s || TookFill(s, t) || FellSilent(s, t) || (exists i: nat :: Finished(s, t, i))
    ensures t.p == s.p && t.k.rxLog == s.k.rxLog && t.k.txTaken == s.k.txTaken
    ensures t.k.arrived == s.k.arrived && t.k.wire == s.k.wire
  {
  }

  lemma DepartedTracked(n: Swapper, m: Swapper)
    requires Tracked(n) && Kept(m.one, m.facts) && m == n.With(Snap(m.Link().k, n.mem))
    requires Departed(n.Link(), n.mem, m.Link())
    ensures Tracked(m)
  {
    hide LinkInv, Kept, Stored, SwapTimes, Cell;
    var s, t := n.Link(), m.Link();
    LinkSizes(n);
    var r := s.k.txTaken;
    SubmittedInOrder(n, r);
    var d := s.p.sent[r];
    assert InFrame(n, r);
    CellPrefix(n.mem, d.addr, n.Size(), d.len);
    forall q | t.k.txTaken <= q < |t.k.rxLog| ensures InFrame(m, q) {
      assert InFrame(n, q);
    }
  }

  lemma SubmittedInOrder(n: Swapper, r: nat)
    requires Kept(n.one, n.facts) && r < |n.Link().p.sent|
    ensures r < n.Link().p.rxTaken <= |n.Link().k.rxLog| && n.Link().p.sent[r] == n.Link().k.rxLog[r]
  {
    hide Addressed, AllWellFormed, OneFrames, RxAccounted, TxAccounted, Recorded;
    var s := n.Link();
    assert s.k.rxLog[..s.p.rxTaken][r] == (s.p.sent + Descs(n.one.lane.pending))[r];
  }

  lemma LandedTracked(n: Swapper, m: Swapper, i: nat, len: nat, bytes: seq<byte>)
    requires Tracked(n) && Kept(m.one, m.facts) && m == n.With(Snap(m.Link().k, m.mem))
    requires Landed(n.Link(), n.mem, m.Link(), m.mem, i, len, bytes)
    ensures Tracked(m)
  {
    hide LinkInv, Kept, Stored, SwapTimes, OnePlaces, Poke, Cell;
    KeptLink(n.one, n.facts);
    LinkSizes(n);
    var s, t, a := n.Link(), m.Link(), n.Link().k.held[i];
    HeldPlace(n.one, n.facts, i);
    PlacedInside(n, 3, a);
    NoSwaps(bytes);
    forall r | t.k.txTaken <= r < |t.k.rxLog| ensures InFrame(m, r) {
      if r < |s.k.rxLog| {
        assert InFrame(n, r);
        LandedElsewhere(n, i, bytes, r);
      } else {
        PokeThenCell(n.mem, a, bytes, |bytes|);
        assert bytes[..|bytes|] == bytes;
      }
    }
  }

  /** A packet under way keeps its bytes when another is delivered. */
  lemma LandedElsewhere(n: Swapper, i: nat, bytes: seq<byte>, r: nat)
    requires Kept(n.one, n.facts) && Stored(n.facts.owned, |n.mem|, n.facts.bufLen) && |bytes| == n.Size()
    requires i < |n.Link().k.held| && n.Link().k.txTaken <= r < |n.Link().k.rxLog|
    ensures var a, b := n.Link().k.held[i], n.Link().k.rxLog[r].addr;
            Cell(Poke(n.mem, a, bytes), b, |bytes|) == Cell(n.mem, b, |bytes|)
  {
    hide LinkInv, Kept, Stored, OnePlaces, Poke, Cell;
    KeptLink(n.one, n.facts);
    var a, b := n.Link().k.held[i], n.Link().k.rxLog[r].addr;
    HeldPlace(n.one, n.facts, i);
    PlacedInside(n, 3, a);
    PlaceOfPacket(n, r);
    PlacedInside(n, if r < |n.Link().p.sent| then 5 else if r < n.Link().p.rxTaken then 1 else 4, b);
    if a == b {
      PacketsApart(n, r, 3, a);
    }
    FramesApart(n.mem, a, bytes, b, |bytes|, n.facts.bufLen);
  }

  lemma NoSwaps(s: seq<byte>)
    ensures SwapTimes(s, 0) == s
  {
  }

  lemma HeldPlace(n: One, f: Facts, i: nat)
    requires Kept(n, f) && LinkInv(n.lane.link) && i < |n.lane.link.k.held|
    ensures |OnePlaces(n)| == 8 && OnePlaces(n)[3][n.lane.link.k.held[i]] >= 1
  {
    hide LinkInv, InOrder, LaneInv, AllWellFormed, Addrs, OneFrames;
    assert n.lane.link.k.held[i] in multiset(n.lane.link.k.held);
  }

  lemma ServicedKeeps(n: Swapper, m: Swapper, k: nat)
    requires Tracked(n) && Serviced(n, m, k)
    ensures Tracked(m)
  {
    hide LinkInv, Kept, Stored, InFrames, OnWire, Counted;
    OneServiceKeeps(n.one, m.one, n.facts, k);
    QuietKeeps(n, m);
  }

  lemma FilledKeeps(n: Swapper, m: Swapper, k: nat)
    requires Tracked(n) && Filled(n, m, k)
    ensures Tracked(m)
  {
    hide LinkInv, Kept, Stored, InFrames, OnWire, Counted;
    OneFillKeeps(n.one, m.one, n.facts, k);
    QuietKeeps(n, m);
  }

  lemma ReceivedTracked(n: Swapper, m: Swapper, k: nat)
    requires Tracked(n) && ReceivedSome(n, m, k)
    ensures Tracked(m)
  {
    hide LinkInv, Progress, Kept, Stored, SwapTimes, BufsOf, Cell, ReceivesEnough, Counted;
    KeptLink(n.one, n.facts);
    OneReceiveKeeps(n.one, m.one, n.facts, k);
    KeptLink(m.one, m.facts);
    forall r | m.Link().k.txTaken <= r < |m.Link().k.rxLog|
      ensures InFrame(m, r)
    {
      assert InFrame(n, r);
    }
    assert InFrames(m) && OnWire(m);
    ReceivedCounted(n, m, k);
  }

  /** Whoever is still in the deque when more comes in will have been swapped more than once. */
  lemma ReceivedCounted(n: Swapper, m: Swapper, k: nat)
    requires Counted(n) && ReceivedSome(n, m, k)
    requires |n.swaps| == n.Link().p.rxTaken == |n.Link().p.sent| + |n.one.lane.pending|
    requires m.Link().p.sent == n.Link().p.sent
    ensures Counted(m)
  {
    hide OneReceive, ReceivesEnough;
    if k > 0 && n.one.lane.pending != [] {
      assert m.stays[|n.Link().p.sent|] >= 2;
    }
    if k > 0 && !n.met {
      var r :| 0 <= r < |n.stays| && n.stays[r] >= 2;
      assert m.stays[r] >= 2;
    }
  }

  lemma ForwardedTracked(n: Swapper, m: Swapper, k: nat)
    requires Tracked(n) && ForwardedSome(n, m, k)
    ensures Tracked(m)
  {
    hide LinkInv, Progress, Kept, Stored, SwapTimes, Descs, Cell, ForwardsEnough;
    OneForwardKeeps(n.one, m.one, n.facts, k);
    forall r | m.Link().k.txTaken <= r < |m.Link().k.rxLog|
      ensures InFrame(m, r)
    {
      assert InFrame(n, r);
    }
    assert InFrames(m) && OnWire(m);
  }

  /** How often the deque names the frame of the r-th packet. */
  lemma TimesNamed(n: Swapper, r: nat)
    requires Kept(n.one, n.facts) && Stored(n.facts.owned, |n.mem|, n.facts.bufLen)
    requires n.Link().k.txTaken <= r < |n.Link().k.rxLog|
    ensures multiset(Addrs(n.one.lane.pending))[n.Link().k.rxLog[r].addr] ==
            if |n.Link().p.sent| <= r < n.Link().p.rxTaken then 1 else 0
  {
    hide Kept, LinkInv, Stored, Addrs;
    var a := n.Link().k.rxLog[r].addr;
    KeptLink(n.one, n.facts);
    PlaceOfPacket(n, r);
    assert OnePlaces(n.one)[1] == multiset(Addrs(n.one.lane.pending));
    if OnePlaces(n.one)[1][a] >= 1 {
      PacketsApart(n, r, 1, a);
    }
  }

  lemma SwapOnce(s: seq<byte>, n: nat)
    requires |s| >= 12
    ensures SwapTimes(SwapTimes(s, n), 1) == SwapTimes(s, n + 1)
  {
    assert SwapTimes(SwapTimes(s, n), 1) == SwapMac(SwapTimes(SwapTimes(s, n), 0));
  }

  /** The slices of the deque are the data parts of its frames. */
  lemma DequeSlices(n: One, f: Facts)
    requires Kept(n, f)
    ensures SliceStarts(n.lane.pending) == Addrs(n.lane.pending)
    ensures forall i :: 0 <= i < |n.lane.pending| ==>
      && n.lane.pending[i].data == Slice(n.lane.pending[i].addr, f.bufLen - RESERVED)
      && SliceStarts(n.lane.pending)[i] % f.bufLen == RESERVED
  {
    hide LinkInv, InOrder, OneFrames, Addressed;
    forall i | 0 <= i < |n.lane.pending| ensures WellFormed(n.lane.pending[i], f.bufLen) {
    }
  }

  /** Byte `p` is one of the first twelve of the slice. */
  predicate Leads(s: Slice, p: nat) {
    s.start <= p < s.start + 12
  }

  /** Memory isolation of `swap_macs`: a byte that changes is one of the first twelve of a slice in the deque,
      and every frame that is not in the deque keeps all its bytes. */
  lemma SwapTouchesDequeOnly(n: Swapper, p: nat)
    requires Kept(n.one, n.facts) && Stored(n.facts.owned, |n.mem|, n.facts.bufLen) && p < |n.mem|
    ensures var after := SwapSlices(n.mem, SliceStarts(n.one.lane.pending));
            after[p] != n.mem[p] ==>
              (exists i :: 0 <= i < |n.one.lane.pending| && Leads(n.one.lane.pending[i].data, p))
  {
    hide Kept, Stored;
    var starts := SliceStarts(n.one.lane.pending);
    if forall i :: 0 <= i < |starts| ==> p < starts[i] || starts[i] + 12 <= p {
      SwapOutside(n.mem, starts, p);
    } else {
      var i :| 0 <= i < |starts| && !(p < starts[i] || starts[i] + 12 <= p);
      assert Leads(n.one.lane.pending[i].data, p);
    }
  }

  lemma SwapSparesOthers(n: Swapper, place: nat, b: Addr)
    requires Kept(n.one, n.facts) && Stored(n.facts.owned, |n.mem|, n.facts.bufLen)
    requires LinkInv(n.Link()) && place < 8 && place != 1 && |OnePlaces(n.one)| == 8 && OnePlaces(n.one)[place][b] >= 1
    ensures var after := SwapSlices(n.mem, SliceStarts(n.one.lane.pending));
            n.Size() >= 12 && Cell(after, b, n.Size()) == Cell(n.mem, b, n.Size())
  {
    hide LinkInv, Kept, SwapTimes, Cell, SwapSlices, Addrs;
    PlacedInside(n, place, b);
    OwnedAtMostOnce(n, b);
    InOnePlace(n.one, n.facts, if place < 1 then place else 1, if place < 1 then 1 else place, b);
    assert OnePlaces(n.one)[1] == multiset(Addrs(n.one.lane.pending));
    DequeSlices(n.one, n.facts);
    SwapSeen(n.mem, SliceStarts(n.one.lane.pending), b, n.Size(), n.facts.bufLen);
    NoSwaps(Cell(n.mem, b, n.Size()));
  }

  lemma SwapTracked(n: Swapper, m: Swapper)
    requires Tracked(n) && SwappedDeque(n, m)
    ensures Tracked(m)
  {
    hide LinkInv, Kept, SwapTimes, Addrs, Cell, SwapSlices;
    KeptLink(n.one, n.facts);
    LinkSizes(n);
    DequeSlices(n.one, n.facts);
    var s := n.Link();
    forall r | s.k.txTaken <= r < |s.k.rxLog| ensures InFrame(m, r) {
      var b := s.k.rxLog[r].addr;
      assert InFrame(n, r);
      TimesNamed(n, r);
      PlaceOfPacket(n, r);
      PlacedInside(n, if r < |s.p.sent| then 5 else if r < s.p.rxTaken then 1 else 4, b);
      SwapSeen(n.mem, SliceStarts(n.one.lane.pending), b, n.Size(), n.facts.bufLen);
      SwapOnce(s.k.arrived[r], Times(n, r));
      NoSwaps(Cell(n.mem, b, n.Size()));
    }
    assert InFrames(m) && OnWire(m);
  }

  lemma StepKeeps(n: Swapper, m: Swapper)
    requires Tracked(n) && Step(n, m)
    ensures Tracked(m)
  {
    hide Tracked, KernelMoved, Serviced, Filled, ReceivedSome, SwappedDeque, ForwardedSome;
    if KernelMoved(n, m) {
      KernelMovedTracked(n, m);
    } else if k: nat :| Serviced(n, m, k) {
      ServicedKeeps(n, m, k);
    } else if k: nat :| Filled(n, m, k) {
      FilledKeeps(n, m, k);
    } else if k: nat :| ReceivedSome(n, m, k) {
      ReceivedTracked(n, m, k);
    } else if SwappedDeque(n, m) {
      SwapTracked(n, m);
    } else if k: nat :| ForwardedSome(n, m, k) {
      ForwardedTracked(n, m, k);
    }
  }

  /** The initial fill is done and nothing else has happened. */
  ghost predicate Fresh(n: Swapper) {
    && Kept(n.one, n.facts) && Stored(n.facts.owned, |n.mem|, n.facts.bufLen)
    && n.at == Receiving && n.met && n.one.lane.pending == []
    && n.Link().k.rxLog == [] && n.Link().p.rxTaken == n.Link().k.txTaken == 0
    && n.swaps == n.stays == []
  }

  /** States of the program, each one step after the last. */
  ghost predicate IsRun(run: seq<Swapper>) {
    && run != [] && Fresh(run[0])
    && forall j :: 0 <= j < |run| - 1 ==> Step(run[j], run[j + 1])
  }

  /** The r-th packet transmitted is the r-th packet received, its addresses swapped once for each
      non-empty receive it sat through: so it looks swapped exactly when that number is odd. */
  ghost predicate LeftAs(n: Swapper, r: nat)
    requires r < |n.Link().k.wire|
  {
    var k := n.Link().k;
    && r < |k.arrived| == |k.rxLog| && r < |n.stays|
    && 12 <= |k.arrived[r]| && k.rxLog[r].len <= |k.arrived[r]|
    && k.wire[r] == SwapTimes(k.arrived[r], n.stays[r])[..k.rxLog[r].len]
    && (n.stays[r] % 2 == 1 ==> k.wire[r] == SwapMac(k.arrived[r])[..k.rxLog[r].len])
    && (n.stays[r] % 2 == 0 ==> k.wire[r] == k.arrived[r][..k.rxLog[r].len])
  }

  lemma TrackedLeaves(n: Swapper, r: nat)
    requires Tracked(n) && r < |n.Link().k.wire|
    ensures LeftAs(n, r)
  {
    hide Kept, LinkInv, SwapTimes, InFrames;
    KeptLink(n.one, n.facts);
    LinkSizes(n);
    SwapParity(n.Link().k.arrived[r], n.stays[r]);
  }

  /** In every state of every run, every transmitted packet left as LeftAs says; and every packet received
      was swapped exactly once, or is about to be, exactly if every non-empty receive so far found the
      deque empty. */
  lemma {:induction false} EveryRunSwaps(run: seq<Swapper>, i: nat)
    requires IsRun(run) && i < |run|
    ensures Tracked(run[i]) && forall r :: 0 <= r < |run[i].Link().k.wire| ==> LeftAs(run[i], r)
    ensures run[i].met <==> forall r :: 0 <= r < |run[i].stays| ==> run[i].stays[r] == 1
  {
    hide Tracked, Step, LeftAs, Fresh;
    if i == 0 {
      FreshTracked(run[0]);
    } else {
      EveryRunSwaps(run, i - 1);
      assert Step(run[i - 1], run[i - 1 + 1]);
      StepKeeps(run[i - 1], run[i]);
    }
    forall r | 0 <= r < |run[i].Link().k.wire| ensures LeftAs(run[i], r) {
      TrackedLeaves(run[i], r);
    }
    ExactlyOnce(run[i]);
  }

  lemma ExactlyOnce(n: Swapper)
    requires Tracked(n)
    ensures n.met <==> forall r :: 0 <= r < |n.stays| ==> n.stays[r] == 1
  {
    hide Kept, Stored, InFrames, OnWire;
  }

  lemma FreshTracked(n: Swapper)
    requires Fresh(n)
    ensures Tracked(n)
  {
    hide LinkInv, SwapTimes;
    KeptLink(n.one, n.facts);
    LinkSizes(n);
  }
}
