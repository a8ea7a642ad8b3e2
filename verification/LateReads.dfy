/** The veth test with a device that reads late: no frame in flight is ever written, so whenever a device
    reads it before completing it, it finds the packet as module Integrity has it on the wire. */
module LateReads {
  import opened Frames
  import opened Memory
  import opened LinkState
  import opened LinkFlow
  import opened BiDirHash
  import opened Veth
  import opened Integrity
  import opened InFlight
  import ForwardFacts

  ghost predicate Late(e: End) {
    AllStill(e.port.link, e.mem)
  }

  /** A frame in flight is a frame of the area and in no other place. */
  lemma FlightPlace(e: End, hasher: Hasher, a: Addr)
    requires Own(e, hasher) && a in e.Kernel().flight
    ensures LinkInv(e.port.link) && |Places(e.port)| == 9 && Places(e.port)[7][a] >= 1
    ensures a % BUF_SIZE == RESERVED && a + (BUF_SIZE - RESERVED) <= |e.mem| && e.facts.owned[a] == 1
  {
    hide Numbered, Outgoing, Incoming, InLink, Addressed, AllWellFormed, Addrs, ForwardFacts.Sum;
    SoundLink(e.port, e.facts);
    assert a in multiset(e.Kernel().flight);
    SumOfPlaces(e.port);
    ForwardFacts.SumHolds(Places(e.port), 7);
    assert e.facts.owned[a] >= 1;
  }

  lemma FlightAlone(e: End, hasher: Hasher, a: Addr, place: nat)
    requires Own(e, hasher) && a in e.Kernel().flight && place < 7
    ensures LinkInv(e.port.link) && |Places(e.port)| == 9 && Places(e.port)[place][a] == 0
  {
    hide LinkInv, Backed, Numbered, Outgoing, Incoming, Sound, Places;
    FlightPlace(e, hasher, a);
    OnePlace(e.port, e.facts, place, 7, a);
  }

  lemma LandedLate(e: End, r: End, i: nat, len: nat, bytes: seq<byte>, hasher: Hasher)
    requires Own(e, hasher) && Late(e) && Landed(e.port.link, e.mem, r.port.link, r.mem, i, len, bytes)
    ensures Late(r)
  {
    hide LinkInv, Own, Places, Poke, Cell;
    var s, h := e.port.link, e.Kernel().held[i];
    OwnLink(e, hasher);
    HeldApart(e, hasher, i);
    HeldPlace(e.port, i);
    forall a | a in s.k.flight ensures SameFrame(e.mem, r.mem, a, s.cfg.bufLen - RESERVED) {
      FlightPlace(e, hasher, a);
      FlightAlone(e, hasher, a, 4);
      FramesApart(e.mem, h, bytes, a, BUF_SIZE - RESERVED, BUF_SIZE);
    }
    StillAfter(s, e.mem, r.port.link, r.mem);
  }

  lemma OwnLink(e: End, hasher: Hasher)
    requires Own(e, hasher)
    ensures LinkInv(e.port.link) && e.port.link.cfg.bufLen == BUF_SIZE && |e.Kernel().wire| == e.Kernel().txTaken
  {
    hide LinkInv, Backed, Numbered, Outgoing, Incoming, Sound;
    SoundLink(e.port, e.facts);
  }

  lemma DepartedLate(e: End, r: End, hasher: Hasher)
    requires Own(e, hasher) && Late(e) && Departed(e.port.link, e.mem, r.port.link) && r.mem == e.mem
    ensures Late(r)
  {
    hide LinkInv, Backed, Numbered, Incoming, Sound, Cell, Places;
    OwnLink(e, hasher);
    var s := e.port.link;
    var d := s.p.sent[s.k.txTaken];
    assert e.Way()[s.k.txTaken..][0] == d;
    assert Holds(e.Way()[s.k.txTaken..][0], e.queued[s.k.txTaken..][0], e.mem);
    if d.addr in s.k.flight {
      TxPlace(e.port);
      FlightAlone(e, hasher, d.addr, 6);
    }
    StillTaken(s, e.mem, r.port.link);
  }

  lemma TxPlace(p: Port)
    requires LinkInv(p.link) && p.link.k.txTaken < |p.link.p.sent|
    ensures |Places(p)| == 9 && Places(p)[6][p.link.p.sent[p.link.k.txTaken].addr] >= 1
  {
    hide LinkInv;
    InDescs(p.link.p.sent[p.link.k.txTaken..], 0);
  }

  lemma KernelMovedLate(e: End, r: End, hasher: Hasher)
    requires Own(e, hasher) && Late(e) && KernelMoved(e, r)
    ensures Late(r)
  {
    hide Own, Landed, Departed, TookFill, FellSilent, Late;
    var s, t := e.port.link, r.port.link;
    if i: nat, len: nat, bytes: seq<byte> :| Landed(s, e.mem, t, r.mem, i, len, bytes) {
      LandedLate(e, r, i, len, bytes, hasher);
    } else if Departed(s, e.mem, t) && r.mem == e.mem {
      DepartedLate(e, r, hasher);
    } else {
      QuietLate(e, r);
    }
  }

  lemma QuietLate(e: End, r: End)
    requires Late(e) && r.mem == e.mem
    requires var s, t := e.port.link, r.port.link;
      t == s || TookFill(s, t) || FellSilent(s, t) || (exists i: nat :: Finished(s, t, i))
    ensures Late(r)
  {
    hide Cell, StillReads;
    StillAfter(e.port.link, e.mem, r.port.link, e.mem);
  }

  /** The test writes free buffers only. */
  lemma QueuedLate(e: End, r: End, pkts: seq<Packet>, frames: seq<seq<byte>>, hasher: Hasher)
    requires Own(e, hasher) && Late(e) && QueuedSome(e, r, pkts, frames, hasher)
    ensures Late(r)
  {
    hide LinkInv, Own, Places, PokeAll, Cell, Hashed, Starts;
    var s, n := e.port.link, |pkts|;
    var targets := FillOrder(e.port.bufs, n);
    OwnLink(e, hasher);
    QueuedTargets(e, r.mem, pkts, frames, hasher);
    forall a | a in s.k.flight ensures SameFrame(e.mem, r.mem, a, s.cfg.bufLen - RESERVED) {
      FlightPlace(e, hasher, a);
      FlightAlone(e, hasher, a, 0);
      if a in targets {
        var i :| 0 <= i < n && targets[i] == a;
        FreePlace(e.port, |e.port.bufs| - 1 - i);
      }
      PokeAllElsewhere(e.mem, targets, frames, a, BUF_SIZE - RESERVED, BUF_SIZE);
    }
    StillAfter(s, e.mem, r.port.link, r.mem);
  }

  lemma FreePlace(p: Port, i: nat)
    requires LinkInv(p.link) && i < |p.bufs|
    ensures |Places(p)| == 9 && Places(p)[0][p.bufs[i].addr] >= 1
  {
    hide LinkInv;
    InAddrs(p.bufs, i);
  }

  ghost predicate Acted(e: End, r: End, k: nat) {
    Serviced(e, r, k) || ReceivedSome(e, r, k) || SentSome(e, r, k) || FilledSome(e, r, k)
  }

  lemma ActedLate(e: End, r: End, k: nat)
    requires Late(e) && Acted(e, r, k)
    ensures Late(r)
  {
    hide LinkInv, Progress, Descs, BufsOf, Blanks, FillOrder, AllStill;
    StillAfter(e.port.link, e.mem, r.port.link, r.mem);
  }

  lemma OthersLate(e: End, o: End, r: End, hasher: Hasher)
    requires Late(e) && (Offered(e, o, r) || CheckedAll(e, o, r, hasher))
    ensures Late(r)
  {
    hide AllStill, CheckAll, Arrivals, Legible;
    StillAfter(e.port.link, e.mem, r.port.link, r.mem);
  }

  lemma EndLate(e: End, o: End, r: End, hasher: Hasher)
    requires Own(e, hasher) && Late(e) && EndStep(e, o, r, hasher)
    ensures Late(r)
  {
    hide Own, Late, KernelMoved, Offered, Serviced, ReceivedSome, CheckedAll, QueuedSome, SentSome, FilledSome;
    if KernelMoved(e, r) {
      KernelMovedLate(e, r, hasher);
    } else if pkts: seq<Packet>, frames: seq<seq<byte>> :| QueuedSome(e, r, pkts, frames, hasher) {
      QueuedLate(e, r, pkts, frames, hasher);
    } else if Offered(e, o, r) || CheckedAll(e, o, r, hasher) {
      OthersLate(e, o, r, hasher);
    } else {
      var k: nat :| Serviced(e, r, k) || ReceivedSome(e, r, k) || SentSome(e, r, k) || FilledSome(e, r, k);
      ActedLate(e, r, k);
    }
  }

  /** In every state of every run, on both ends, every frame in flight still reads as its packet went on the
      wire. */
  lemma {:induction false} EveryRunLate(run: seq<World>, i: nat, hasher: Hasher)
    requires IsRun(run, hasher) && i < |run|
    ensures Late(run[i].one) && Late(run[i].two)
  {
    hide Late, Fresh, EndStep, Own, Heard;
    if i == 0 {
      FreshLate(run[0].one);
      FreshLate(run[0].two);
    } else {
      EveryRunLate(run, i - 1, hasher);
      EveryRunIntact(run, i - 1, hasher);
      var w, v := run[i - 1], run[i];
      assert Step(run[i - 1], run[i - 1 + 1], hasher);
      if v.two == w.two && EndStep(w.one, w.two, v.one, hasher) {
        EndLate(w.one, w.two, v.one, hasher);
      } else {
        EndLate(w.two, w.one, v.two, hasher);
      }
    }
  }

  lemma FreshLate(e: End)
    requires Fresh(e)
    ensures Late(e)
  {
    hide LinkInv, Sound, Backed;
    SoundLink(e.port, e.facts);
    NoneTaken(e.port.link);
  }
}
