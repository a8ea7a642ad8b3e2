/** l2fwd-1link with a device that reads late: no frame in flight is ever written, so whenever a device reads
    it before completing it, it finds the packet as module MacParity has it on the wire. */
module LateSwaps {
  import opened Frames
  import opened Memory
  import opened LinkState
  import opened MacSwap
  import opened OneLink
  import opened MacParity
  import opened InFlight

  ghost predicate Late(n: Swapper) {
    AllStill(n.Link(), n.mem)
  }

  /** A frame in flight is a frame of the area and in no other place. */
  lemma FlightPlace(n: Swapper, a: Addr)
    requires Tracked(n) && a in n.Link().k.flight
    ensures LinkInv(n.Link()) && |OnePlaces(n.one)| == 8 && OnePlaces(n.one)[6][a] >= 1
    ensures a % n.facts.bufLen == RESERVED && 0 <= n.Size() && a + n.Size() <= |n.mem|
    ensures n.Link().cfg.bufLen == n.facts.bufLen
  {
    hide Kept, LinkInv, Stored, InFrames, OnWire, Counted, Addrs;
    TrackedKept(n);
    KeptLink(n.one, n.facts);
    assert a in multiset(n.Link().k.flight);
    PlacedInside(n, 6, a);
  }

  lemma FlightAlone(n: Swapper, a: Addr, place: nat)
    requires Tracked(n) && a in n.Link().k.flight && place < 6
    ensures LinkInv(n.Link()) && |OnePlaces(n.one)| == 8 && OnePlaces(n.one)[place][a] == 0
  {
    hide Kept, LinkInv, Stored, InFrames, OnWire, Counted, OnePlaces, Tracked;
    FlightPlace(n, a);
    TrackedKept(n);
    OwnedAtMostOnce(n, a);
    InOnePlace(n.one, n.facts, place, 6, a);
  }

  /** Delivery writes a held frame only. */
  lemma LandedLate(n: Swapper, m: Swapper, i: nat, len: nat, bytes: seq<byte>)
    requires Tracked(n) && Late(n) && m == n.With(Snap(m.Link().k, m.mem))
    requires Landed(n.Link(), n.mem, m.Link(), m.mem, i, len, bytes)
    ensures Late(m)
  {
    hide Tracked, LinkInv, Kept, OnePlaces, Poke, Cell;
    TrackedKept(n);
    KeptLink(n.one, n.facts);
    var s, t, h := n.Link(), m.Link(), n.Link().k.held[i];
    HeldPlace(n.one, n.facts, i);
    PlacedInside(n, 3, h);
    forall a | a in s.k.flight ensures SameFrame(n.mem, m.mem, a, s.cfg.bufLen - RESERVED) {
      FlightPlace(n, a);
      FlightAlone(n, a, 3);
      FramesApart(n.mem, h, bytes, a, n.Size(), n.facts.bufLen);
    }
    StillAfter(s, n.mem, t, m.mem);
  }

  lemma DepartedLate(n: Swapper, m: Swapper)
    requires Tracked(n) && Late(n) && m == n.With(Snap(m.Link().k, n.mem)) && Departed(n.Link(), n.mem, m.Link())
    ensures Late(m)
  {
    hide Tracked, LinkInv, Kept, Cell, Stored;
    TrackedKept(n);
    KeptLink(n.one, n.facts);
    LinkSizes(n);
    var s := n.Link();
    SubmittedInOrder(n, s.k.txTaken);
    var a := s.p.sent[s.k.txTaken].addr;
    if a in s.k.flight {
      PlaceOfPacket(n, s.k.txTaken);
      FlightAlone(n, a, 5);
    }
    StillTaken(s, n.mem, m.Link());
  }

  lemma KernelMovedLate(n: Swapper, m: Swapper)
    requires Tracked(n) && Late(n) && KernelMoved(n, m)
    ensures Late(m)
  {
    hide LinkInv, Tracked, Landed, Departed, TookFill, FellSilent, Late;
    var s, t := n.Link(), m.Link();
    if i: nat, len: nat, bytes: seq<byte> :| Landed(s, n.mem, t, m.mem, i, len, bytes) {
      LandedLate(n, m, i, len, bytes);
    } else if Departed(s, n.mem, t) && m.mem == n.mem {
      DepartedLate(n, m);
    } else {
      QuietLate(n, m);
    }
  }

  lemma QuietLate(n: Swapper, m: Swapper)
    requires Late(n) && m.mem == n.mem
    requires var s, t := n.Link(), m.Link();
      t == s || TookFill(s, t) || FellSilent(s, t) || (exists i: nat :: Finished(s, t, i))
    ensures Late(m)
  {
    hide Cell, StillReads;
    StillAfter(n.Link(), n.mem, m.Link(), n.mem);
  }

  /** `swap_macs` writes frames in the deque only. */
  lemma SwappedLate(n: Swapper, m: Swapper)
    requires Tracked(n) && Late(n) && SwappedDeque(n, m)
    ensures Late(m)
  {
    hide Tracked, LinkInv, Kept, OnePlaces, Cell, SwapSlices;
    TrackedKept(n);
    var s := n.Link();
    forall a | a in s.k.flight ensures SameFrame(n.mem, m.mem, a, s.cfg.bufLen - RESERVED) {
      FlightPlace(n, a);
      SwapSparesOthers(n, 6, a);
    }
    StillAfter(s, n.mem, m.Link(), m.mem);
  }

  lemma ActedLate(n: Swapper, m: Swapper, k: nat)
    requires Late(n) && (Serviced(n, m, k) || Filled(n, m, k) || ReceivedSome(n, m, k) || ForwardedSome(n, m, k))
    ensures Late(m)
  {
    hide LinkInv, Progress, Descs, BufsOf, Blanks, FillOrder, ReceivesEnough, ForwardsEnough, AllStill;
    StillAfter(n.Link(), n.mem, m.Link(), m.mem);
  }

  /** In every state of every run, every frame in flight still reads as its packet went on the wire. */
  lemma {:induction false} EveryRunLate(run: seq<Swapper>, i: nat)
    requires IsRun(run) && i < |run|
    ensures Late(run[i])
  {
    hide Late, Tracked, LeftAs, KernelMoved, Serviced, Filled, ReceivedSome, SwappedDeque, ForwardedSome, Fresh;
    if i == 0 {
      FreshLate(run[0]);
    } else {
      EveryRunLate(run, i - 1);
      EveryRunSwaps(run, i - 1);
      var n, m := run[i - 1], run[i];
      assert Step(run[i - 1], run[i - 1 + 1]);
      if KernelMoved(n, m) {
        KernelMovedLate(n, m);
      } else if SwappedDeque(n, m) {
        SwappedLate(n, m);
      } else {
        var k: nat :| Serviced(n, m, k) || Filled(n, m, k) || ReceivedSome(n, m, k) || ForwardedSome(n, m, k);
        ActedLate(n, m, k);
      }
    }
  }

  lemma FreshLate(n: Swapper)
    requires Fresh(n)
    ensures Late(n)
  {
    hide LinkInv;
    KeptLink(n.one, n.facts);
    NoneTaken(n.Link());
  }
}
