/** Both ends of the veth test with their contents: what leaves one port arrives at the other unchanged
    and in order, so neither the order check nor the hash check ever counts anything.

    Each end is a worker of module Veth together with the bytes of its area and the books of the test.
    The steps are the kernel's exact moves, now also reading and writing bytes, and the worker's actions,
    each at the one point where it takes effect for the kernel. The wire may lose packets and never
    reorders them. Nothing assumes that the program leaves queued frames alone or that the kernel writes
    only free frames: that no one writes a frame while its contents are needed follows from the frame
    accounts. */
module Integrity {
  import opened Frames
  import opened Memory
  import opened LinkState
  import opened LinkFlow
  import opened BiDirHash
  import opened Veth
  import ForwardFacts

  type Hasher = seq<byte> -> nat

  datatype End = End(
    port: Port, facts: Facts,
    mem: seq<byte>,               // the bytes of this end's area
    hashes: map<nat, nat>,        // the hashes the test remembered for packets queued here
    checks: Checks,               // the counts of the test for packets received here
    queued: seq<Packet>,          // every packet the test ever queued here
    picks: seq<nat>)              // where on the other end's wire each received packet was
  {
    function Kernel(): Kern { port.link.k }

    /** How many received packets the test has looked at. */
    function Checked(): int {
      port.link.p.rxTaken - |port.inbox|
    }

    /** Everything submitted or waiting to be submitted for transmission. */
    function Way(): seq<Desc> {
      port.link.p.sent + Descs(port.outbox)
    }
  }

  /** The r-th packet the kernel delivered. */
  function GotAt(k: Kern, r: nat): Packet {
    if r < |k.rxLog| && r < |k.arrived| && k.rxLog[r].len <= |k.arrived[r]| then k.arrived[r][..k.rxLog[r].len] else []
  }

  /** Every packet the kernel delivered. */
  function Got(k: Kern): (r: seq<Packet>)
    ensures |r| == |k.rxLog|
  {
    seq(|k.rxLog|, i requires 0 <= i < |k.rxLog| => GotAt(k, i))
  }

  // One end moves; the other end `o` stays as it is.

  /** One more pick if a packet came. */
  function PicksAfter(picks: seq<nat>, k: Kern, l: Kern): seq<nat> {
    if |l.rxLog| > |k.rxLog| && l.feed.Only? && l.feed.next > 0 then picks + [l.feed.next - 1] else picks
  }

  /** Any kernel move. What arrives is what the feed allows. */
  ghost predicate KernelMoved(e: End, r: End) {
    && Next(e.port.link, Snap(e.Kernel(), e.mem), Snap(r.Kernel(), r.mem))
    && r == e.(port := e.port.(link := e.port.link.(k := r.Kernel())), mem := r.mem,
               picks := PicksAfter(e.picks, e.Kernel(), r.Kernel()))
  }

  /** The wire has grown by what the other end transmitted. */
  ghost predicate Offered(e: End, o: End, r: End) {
    && e.Kernel().feed.Only?
    && var k := e.Kernel().(feed := Only(o.Kernel().wire, e.Kernel().feed.next));
    && r == e.(port := e.port.(link := e.port.link.(k := k)))
  }

  ghost predicate Serviced(e: End, r: End, k: nat) {
    && DidService(e.port, r.port, k) && r == e.(port := r.port) && r.Kernel() == e.Kernel()
  }

  ghost predicate ReceivedSome(e: End, r: End, k: nat) {
    && DidReceive(e.port, r.port, k) && r == e.(port := r.port) && r.Kernel() == e.Kernel()
  }

  ghost predicate CheckedAll(e: End, o: End, r: End, hasher: Hasher) {
    && DidCheck(e.port, r.port) && Legible(e.port.inbox, e.mem)
    && r == e.(port := r.port, checks := CheckAll(e.checks, Arrivals(e.port.inbox, e.mem), o.hashes, hasher))
  }

  ghost predicate QueuedSome(e: End, r: End, pkts: seq<Packet>, frames: seq<seq<byte>>, hasher: Hasher) {
    && DidTransmit(e.port, r.port, pkts)
    && Wrote(e.port.bufs, pkts, frames, e.mem, r.mem)
    && Hashed(e.hashes, |e.queued| + 1, pkts, r.hashes, hasher)
    && r == e.(port := r.port, mem := r.mem, hashes := r.hashes, queued := e.queued + pkts)
  }

  ghost predicate SentSome(e: End, r: End, k: nat) {
    && DidSend(e.port, r.port, k) && r == e.(port := r.port) && r.Kernel() == e.Kernel()
  }

  ghost predicate FilledSome(e: End, r: End, k: nat) {
    && DidFill(e.port, r.port, k) && r == e.(port := r.port) && r.Kernel() == e.Kernel()
  }

  ghost predicate EndStep(e: End, o: End, r: End, hasher: Hasher) {
    || KernelMoved(e, r)
    || Offered(e, o, r)
    || (exists k: nat :: Serviced(e, r, k))
    || (exists k: nat :: ReceivedSome(e, r, k))
    || CheckedAll(e, o, r, hasher)
    || (exists pkts: seq<Packet>, frames: seq<seq<byte>> :: QueuedSome(e, r, pkts, frames, hasher))
    || (exists k: nat :: SentSome(e, r, k))
    || (exists k: nat :: FilledSome(e, r, k))
  }

  // The invariant.

  ghost predicate Holds(d: Desc, p: Packet, mem: seq<byte>) {
    d.len == |p| <= BUF_SIZE - RESERVED && d.addr + |p| <= |mem| && Cell(mem, d.addr, |p|) == p
  }

  /** Frame by frame, the packets are where the descriptors say. */
  ghost predicate Holding(ds: seq<Desc>, pkts: seq<Packet>, mem: seq<byte>) {
    |ds| == |pkts| && forall i :: 0 <= i < |ds| ==> Holds(ds[i], pkts[i], mem)
  }

  /** The numbers of the queued packets count up from 2 and exactly their hashes are remembered. */
  ghost predicate Numbered(queued: seq<Packet>, hashes: map<nat, nat>, hasher: Hasher) {
    && (forall j :: 0 <= j < |queued| ==> GoodPacket(queued[j], j + 2))
    && (forall s: nat :: s in hashes <==> 2 <= s <= |queued| + 1)
    && (forall j :: 0 <= j < |queued| ==> hashes[j + 2] == hasher(queued[j]))
  }

  /** What this end is about to send, and has sent. */
  ghost predicate Outgoing(e: End)
    requires LinkInv(e.port.link)
  {
    && |e.Way()| == |e.queued|
    && Holding(e.Way()[e.Kernel().txTaken..], e.queued[e.Kernel().txTaken..], e.mem)
    && e.Kernel().wire == e.queued[..e.Kernel().txTaken]
  }

  /** What this end has received, up to what the test still has to look at. */
  ghost predicate Incoming(e: End)
    requires LinkInv(e.port.link)
  {
    && 0 <= e.Checked() && |e.picks| == |e.Kernel().rxLog|
    && Descs(e.port.inbox) == e.Kernel().rxLog[e.Checked()..e.port.link.p.rxTaken]
    && Holding(e.Kernel().rxLog[e.Checked()..], Got(e.Kernel())[e.Checked()..], e.mem)
  }

  ghost predicate Own(e: End, hasher: Hasher) {
    && Sound(e.port, e.facts) && Backed(e.facts.owned, |e.mem|)
    && Numbered(e.queued, e.hashes, hasher) && Outgoing(e) && Incoming(e)
  }

  /** What may still arrive at `e` is on the wire of `o`, past everything that arrived. */
  ghost predicate Fed(e: End, o: End) {
    && e.Kernel().feed.Only? && e.Kernel().feed.packets <= o.Kernel().wire
    && (forall x :: 0 <= x < |e.picks| ==> e.picks[x] < e.Kernel().feed.next)
  }

  /** What arrived at `e` was sent by `o`, in that order, and the checks found nothing. */
  ghost predicate Heard(e: End, o: End) {
    && Fed(e, o) && |e.picks| == |e.Kernel().rxLog|
    && (forall x :: 0 <= x < |e.picks| ==>
         e.picks[x] < |o.Kernel().wire| && Got(e.Kernel())[x] == o.Kernel().wire[e.picks[x]])
    && (forall x, y :: 0 <= x < y < |e.picks| ==> e.picks[x] < e.picks[y])
    && 0 <= e.Checked() <= |e.picks|
    && e.checks == Checks(if e.Checked() == 0 then 0 else e.picks[e.Checked() - 1] + 2, 0, 0)
  }

  ghost predicate Intact(e: End, o: End, hasher: Hasher) {
    Own(e, hasher) && Own(o, hasher) && Heard(e, o) && Heard(o, e)
  }

  // No one writes a frame whose contents are needed.

  ghost predicate Needed(e: End, a: Addr)
    requires LinkInv(e.port.link) && 0 <= e.Checked() <= |e.Kernel().rxLog|
  {
    || (exists i :: e.Kernel().txTaken <= i < |e.Way()| && e.Way()[i].addr == a)
    || (exists i :: e.Checked() <= i < |e.Kernel().rxLog| && e.Kernel().rxLog[i].addr == a)
  }

  /** A needed frame is in one of four places: either deque, the Tx ring or the Rx ring. */
  lemma WhereNeeded(e: End, hasher: Hasher, a: Addr)
    requires Own(e, hasher) && LinkInv(e.port.link) && 0 <= e.Checked() <= |e.Kernel().rxLog| && Needed(e, a)
    ensures |Places(e.port)| == 9
    ensures || Places(e.port)[1][a] >= 1 || Places(e.port)[2][a] >= 1
            || Places(e.port)[5][a] >= 1 || Places(e.port)[6][a] >= 1
  {
    hide Sound, Backed, Numbered, Holding, Addrs, DescAddrs;
    var s := e.port.link;
    if i :| s.k.txTaken <= i < |e.Way()| && e.Way()[i].addr == a {
      if i < |s.p.sent| {
        InDescs(s.p.sent[s.k.txTaken..], i - s.k.txTaken);
      } else {
        InAddrs(e.port.outbox, i - |s.p.sent|);
      }
    } else {
      var i :| e.Checked() <= i < |s.k.rxLog| && s.k.rxLog[i].addr == a;
      if i < s.p.rxTaken {
        assert Descs(e.port.inbox)[i - e.Checked()] == s.k.rxLog[i];
        InAddrs(e.port.inbox, i - e.Checked());
      } else {
        InDescs(s.k.rxLog[s.p.rxTaken..], i - s.p.rxTaken);
      }
    }
  }

  lemma NeededOwned(e: End, hasher: Hasher, a: Addr)
    requires Own(e, hasher) && LinkInv(e.port.link) && 0 <= e.Checked() <= |e.Kernel().rxLog| && Needed(e, a)
    ensures a % BUF_SIZE == RESERVED
  {
    hide Needed, Numbered, Outgoing, Incoming, LinkInv, InLink, Addressed, AllWellFormed, Addrs;
    hide ForwardFacts.Sum, ForwardFacts.LinkStages, Places;
    WhereNeeded(e, hasher, a);
    SumOfPlaces(e.port);
    var st := Places(e.port);
    ForwardFacts.SumHolds(st, 1);
    ForwardFacts.SumHolds(st, 2);
    ForwardFacts.SumHolds(st, 5);
    ForwardFacts.SumHolds(st, 6);
    assert e.facts.owned[a] >= 1;
  }

  /** Free buffers and frames the kernel holds are not needed. */
  lemma FreeNotNeeded(e: End, hasher: Hasher, a: Addr, place: nat)
    requires Own(e, hasher) && LinkInv(e.port.link) && 0 <= e.Checked() <= |e.Kernel().rxLog|
    requires |Places(e.port)| == 9 && (place == 0 || place == 4) && Places(e.port)[place][a] >= 1
    ensures !Needed(e, a)
  {
    hide Sound, Numbered, Holding, Outgoing, Incoming, Needed, Places;
    if Needed(e, a) {
      WhereNeeded(e, hasher, a);
      assert e.facts.owned[a] <= 1;
      if place == 0 {
        OnePlace(e.port, e.facts, 0, 1, a);
        OnePlace(e.port, e.facts, 0, 2, a);
        OnePlace(e.port, e.facts, 0, 5, a);
        OnePlace(e.port, e.facts, 0, 6, a);
      } else {
        OnePlace(e.port, e.facts, 1, 4, a);
        OnePlace(e.port, e.facts, 2, 4, a);
        OnePlace(e.port, e.facts, 4, 5, a);
        OnePlace(e.port, e.facts, 4, 6, a);
      }
    }
  }

  // Every step keeps the invariant.

  /** Nothing the invariant looks at changed but the place of other frames. */
  lemma QuietKeeps(e: End, o: End, r: End, hasher: Hasher)
    requires Intact(e, o, hasher) && Sound(r.port, r.facts) && r == e.(port := r.port)
    requires r.port.inbox == e.port.inbox && r.port.outbox == e.port.outbox
    requires r.port.link.p.sent == e.port.link.p.sent && r.Kernel().txTaken == e.Kernel().txTaken
    requires r.port.link.p.rxTaken == e.port.link.p.rxTaken && r.Kernel().rxLog == e.Kernel().rxLog
    requires r.Kernel().arrived == e.Kernel().arrived && r.Kernel().wire == e.Kernel().wire
    requires Fed(r, o)
    ensures Intact(r, o, hasher)
  {
    hide Sound, Backed, Numbered, Holding;
    assert LinkInv(r.port.link) by { SoundLink(r.port, r.facts); }
    assert Got(r.Kernel()) == Got(e.Kernel());
  }

  lemma SoundLink(p: Port, f: Facts)
    requires Sound(p, f)
    ensures LinkInv(p.link) && p.link.p.rxTaken <= |p.link.k.rxLog| && p.link.k.txTaken <= |p.link.p.sent|
    ensures p.link.cfg.bufLen == BUF_SIZE && |p.link.k.wire| == p.link.k.txTaken
    ensures |p.link.k.arrived| == |p.link.k.rxLog|
    ensures forall i :: 0 <= i < |p.link.k.rxLog| ==>
            p.link.k.rxLog[i].len <= |p.link.k.arrived[i]| == BUF_SIZE - RESERVED
  {
  }

  /** A move of the kernel, without the bytes. */
  lemma MovedKeeps(e: End, r: End)
    requires Sound(e.port, e.facts) && KernelMoved(e, r)
    ensures Sound(r.port, r.facts) && |r.mem| == |e.mem|
  {
    hide LinkInv, KernelMove, Sound, Moved;
    SoundLink(e.port, e.facts);
    KernelMoveKeeps(e.port.link, e.mem, r.port.link, r.mem);
    KernelTurnKeeps(e.port, r.port, e.facts);
  }

  lemma KernelMovedKeeps(e: End, o: End, r: End, hasher: Hasher)
    requires Intact(e, o, hasher) && KernelMoved(e, r)
    ensures Intact(r, o, hasher)
  {
    hide LinkInv, Intact, Landed, Departed, TookFill, Finished, FellSilent, Sound;
    var s, t := e.port.link, r.port.link;
    assert Sound(e.port, e.facts) && Fed(e, o) by { IntactParts(e, o, hasher); }
    MovedKeeps(e, r);
    if i: nat, len: nat, bytes: seq<byte> :| Landed(s, e.mem, t, r.mem, i, len, bytes) {
      LandedKeeps(e, o, r, i, len, bytes, hasher);
    } else if Departed(s, e.mem, t) && r.mem == e.mem {
      DepartedKeeps(e, o, r, hasher);
    } else {
      assert r.mem == e.mem;
      QuietMove(e, o, r);
      QuietKeeps(e, o, r, hasher);
    }
  }

  lemma IntactParts(e: End, o: End, hasher: Hasher)
    requires Intact(e, o, hasher)
    ensures Sound(e.port, e.facts) && Fed(e, o)
  {
    hide Sound, Backed, Numbered, Outgoing, Incoming;
  }

  /** The moves that neither deliver nor transmit. */
  lemma QuietMove(e: End, o: End, r: End)
    requires Fed(e, o)
    requires r == e.(port := e.port.(link := e.port.link.(k := r.Kernel())),
                     picks := PicksAfter(e.picks, e.Kernel(), r.Kernel()))
    requires || r.port.link == e.port.link || TookFill(e.port.link, r.port.link) || FellSilent(e.port.link, r.port.link)
             || (exists i: nat :: Finished(e.port.link, r.port.link, i))
    ensures r == e.(port := r.port) && Fed(r, o)
    ensures r.Kernel().rxLog == e.Kernel().rxLog && r.Kernel().txTaken == e.Kernel().txTaken
    ensures r.Kernel().arrived == e.Kernel().arrived && r.Kernel().wire == e.Kernel().wire
  {
  }

  lemma DepartedKeeps(e: End, o: End, r: End, hasher: Hasher)
    requires Intact(e, o, hasher) && KernelMoved(e, r) && Departed(e.port.link, e.mem, r.port.link) && r.mem == e.mem
    requires Sound(r.port, r.facts)
    ensures Intact(r, o, hasher)
  {
    hide LinkInv, Moved, Backed, Numbered, Sound, Heard, KernelMove;
    SoundLink(e.port, e.facts);
    SoundLink(r.port, r.facts);
    var s := e.port.link;
    var n := s.k.txTaken;
    NextOnWire(e.Way()[n..], e.queued[n..], e.mem);
    assert e.Way()[n..][0] == s.p.sent[n] && e.queued[n..][0] == e.queued[n];
    assert r.Way() == e.Way();
    assert e.Way()[n + 1..] == e.Way()[n..][1..] && e.queued[n + 1..] == e.queued[n..][1..];
    assert r.Kernel().wire == e.queued[..n + 1];
    assert Got(r.Kernel()) == Got(e.Kernel());
    assert Own(r, hasher);
    WireGrew(o, e, r);
    IntactParts(e, o, hasher);
    SameHeard(e, o, r);
  }

  lemma NextOnWire(ds: seq<Desc>, pkts: seq<Packet>, mem: seq<byte>)
    requires Holding(ds, pkts, mem) && ds != []
    ensures Cell(mem, ds[0].addr, ds[0].len) == pkts[0] && Holding(ds[1..], pkts[1..], mem)
  {
    assert Holds(ds[0], pkts[0], mem);
    forall i | 0 <= i < |ds| - 1 ensures Holds(ds[1..][i], pkts[1..][i], mem) {
      assert Holds(ds[i + 1], pkts[i + 1], mem);
    }
  }

  lemma WireGrew(o: End, e: End, r: End)
    requires Heard(o, e) && e.Kernel().wire <= r.Kernel().wire
    ensures Heard(o, r)
  {
    hide Got;
  }

  lemma SameHeard(e: End, o: End, r: End)
    requires Heard(e, o) && Fed(r, o) && r.picks == e.picks && r.checks == e.checks && r.Checked() == e.Checked()
    requires r.Kernel().rxLog == e.Kernel().rxLog && r.Kernel().arrived == e.Kernel().arrived
    ensures Heard(r, o)
  {
    assert Got(r.Kernel()) == Got(e.Kernel());
    hide Got;
  }

  /** The bytes of the frame at `b` are the same. */
  ghost predicate SameAt(b: Addr, before: seq<byte>, after: seq<byte>) {
    |after| == |before| && forall n: nat :: n <= BUF_SIZE - RESERVED ==> Cell(after, b, n) == Cell(before, b, n)
  }

  /** Writing frames that are not needed leaves every needed packet in place. */
  lemma HoldingKept(ds: seq<Desc>, pkts: seq<Packet>, before: seq<byte>, after: seq<byte>)
    requires Holding(ds, pkts, before)
    requires forall i :: 0 <= i < |ds| ==> SameAt(ds[i].addr, before, after)
    ensures Holding(ds, pkts, after)
  {
    hide Cell;
    forall i | 0 <= i < |ds| ensures Holds(ds[i], pkts[i], after) {
      assert Holds(ds[i], pkts[i], before) && SameAt(ds[i].addr, before, after);
    }
  }

  lemma HoldingConcat(ds: seq<Desc>, pkts: seq<Packet>, ds': seq<Desc>, pkts': seq<Packet>, mem: seq<byte>)
    requires Holding(ds, pkts, mem) && Holding(ds', pkts', mem)
    ensures Holding(ds + ds', pkts + pkts', mem)
  {
    hide Holds;
  }

  lemma LandedKeeps(e: End, o: End, r: End, i: nat, len: nat, bytes: seq<byte>, hasher: Hasher)
    requires Intact(e, o, hasher) && KernelMoved(e, r) && Landed(e.port.link, e.mem, r.port.link, r.mem, i, len, bytes)
    requires Sound(r.port, r.facts)
    ensures Intact(r, o, hasher)
  {
    hide LinkInv, Moved, Numbered, Sound, Holding, Heard, Needed, Places, KernelMove, Poke, Cell, Got, Backed, SameAt;
    SoundLink(e.port, e.facts);
    SoundLink(r.port, r.facts);
    var s, t, a, d := e.port.link, r.port.link, e.Kernel().held[i], Desc(e.Kernel().held[i], len);
    HeldApart(e, hasher, i);
    IntactParts(e, o, hasher);
    forall b | Needed(e, b) ensures SameAt(b, e.mem, r.mem) {
      LandedElsewhere(e, hasher, i, bytes, b);
    }
    NeededKept(e, r.mem);
    var n, j, pkt := e.Checked(), t.k.feed.next - 1, bytes[..len];
    PacketLanded(e.mem, a, bytes, len);
    HoldingConcat(s.k.rxLog[n..], Got(s.k)[n..], [d], [pkt], r.mem);
    GotOneMore(s.k, t.k, d, bytes);
    assert t.k.rxLog[n..] == s.k.rxLog[n..] + [d];
    assert Got(t.k)[n..] == Got(s.k)[n..] + [pkt];
    assert t.k.rxLog[n..t.p.rxTaken] == s.k.rxLog[n..s.p.rxTaken];
    assert r.Way() == e.Way();
    assert Own(r, hasher);
    HeardOneMore(e, o, r, j, pkt);
    WireGrew(o, e, r);
  }

  /** A frame the kernel holds is a frame of the area and not needed. */
  lemma HeldApart(e: End, hasher: Hasher, i: nat)
    requires Own(e, hasher) && LinkInv(e.port.link) && i < |e.Kernel().held|
    ensures 0 <= e.Checked() <= |e.Kernel().rxLog|
    ensures var a := e.Kernel().held[i];
            !Needed(e, a) && a % BUF_SIZE == RESERVED && a + (BUF_SIZE - RESERVED) <= |e.mem|
  {
    hide Needed, Numbered, Outgoing, Holding, InLink, Addressed, AllWellFormed, Addrs, ForwardFacts.Sum;
    SoundLink(e.port, e.facts);
    var a := e.Kernel().held[i];
    HeldPlace(e.port, i);
    SumOfPlaces(e.port);
    ForwardFacts.SumHolds(Places(e.port), 4);
    hide LinkInv, Places, PortFrames, Exact;
    assert e.facts.owned[a] >= 1;
    FreeNotNeeded(e, hasher, a, 4);
  }

  lemma LandedElsewhere(e: End, hasher: Hasher, i: nat, bytes: seq<byte>, b: Addr)
    requires Own(e, hasher) && LinkInv(e.port.link) && i < |e.Kernel().held| && |bytes| == BUF_SIZE - RESERVED
    requires 0 <= e.Checked() <= |e.Kernel().rxLog| && Needed(e, b)
    ensures SameAt(b, e.mem, Poke(e.mem, e.Kernel().held[i], bytes))
  {
    hide Own, Needed, LinkInv, Poke, Cell;
    HeldApart(e, hasher, i);
    NeededOwned(e, hasher, b);
    var a := e.Kernel().held[i];
    forall n: nat | n <= BUF_SIZE - RESERVED ensures Cell(Poke(e.mem, a, bytes), b, n) == Cell(e.mem, b, n) {
      FramesApart(e.mem, a, bytes, b, n, BUF_SIZE);
    }
  }

  lemma PacketLanded(mem: seq<byte>, a: Addr, bytes: seq<byte>, len: nat)
    requires len <= |bytes| == BUF_SIZE - RESERVED && a + |bytes| <= |mem|
    ensures Holding([Desc(a, len)], [bytes[..len]], Poke(mem, a, bytes))
  {
    hide Poke, Cell;
    PokeThenCell(mem, a, bytes, len);
    assert Holds(Desc(a, len), bytes[..len], Poke(mem, a, bytes));
  }

  lemma GotOneMore(k: Kern, l: Kern, d: Desc, bytes: seq<byte>)
    requires |k.arrived| == |k.rxLog| && d.len <= |bytes|
    requires l.rxLog == k.rxLog + [d] && l.arrived == k.arrived + [bytes]
    ensures Got(l) == Got(k) + [bytes[..d.len]]
  {
    forall i | 0 <= i < |k.rxLog| ensures GotAt(l, i) == GotAt(k, i) {
      assert l.rxLog[i] == k.rxLog[i] && l.arrived[i] == k.arrived[i];
    }
    assert GotAt(l, |k.rxLog|) == bytes[..d.len];
  }

  lemma HeldPlace(p: Port, i: nat)
    requires LinkInv(p.link) && i < |p.link.k.held|
    ensures |Places(p)| == 9 && Places(p)[4][p.link.k.held[i]] >= 1
  {
    hide LinkInv;
    assert p.link.k.held[i] in multiset(p.link.k.held);
  }

  lemma HeardOneMore(e: End, o: End, r: End, j: nat, pkt: Packet)
    requires Heard(e, o) && j < |o.Kernel().wire| && o.Kernel().wire[j] == pkt
    requires forall x :: 0 <= x < |e.picks| ==> e.picks[x] < j
    requires Got(r.Kernel()) == Got(e.Kernel()) + [pkt] && r.picks == e.picks + [j]
    requires r.checks == e.checks && r.Checked() == e.Checked() && Fed(r, o)
    ensures Heard(r, o)
  {
    hide Got;
  }

  /** If no needed frame changed, both accounts of contents still hold. */
  lemma NeededKept(e: End, after: seq<byte>)
    requires LinkInv(e.port.link) && Outgoing(e) && Incoming(e)
    requires 0 <= e.Checked() <= |e.Kernel().rxLog| && e.Kernel().txTaken <= |e.Way()|
    requires forall b :: Needed(e, b) ==> SameAt(b, e.mem, after)
    ensures Holding(e.Way()[e.Kernel().txTaken..], e.queued[e.Kernel().txTaken..], after)
    ensures Holding(e.Kernel().rxLog[e.Checked()..], Got(e.Kernel())[e.Checked()..], after)
  {
    hide LinkInv, Holding, SameAt, Got;
    var ds, ds' := e.Way()[e.Kernel().txTaken..], e.Kernel().rxLog[e.Checked()..];
    forall i | 0 <= i < |ds| ensures Needed(e, ds[i].addr) {
      assert ds[i] == e.Way()[i + e.Kernel().txTaken];
    }
    forall i | 0 <= i < |ds'| ensures Needed(e, ds'[i].addr) {
      assert ds'[i] == e.Kernel().rxLog[i + e.Checked()];
    }
    HoldingKept(ds, e.queued[e.Kernel().txTaken..], e.mem, after);
    HoldingKept(ds', Got(e.Kernel())[e.Checked()..], e.mem, after);
  }

  lemma OfferedKeeps(e: End, o: End, r: End, hasher: Hasher)
    requires Intact(e, o, hasher) && Offered(e, o, r)
    ensures Intact(r, o, hasher)
  {
    hide LinkInv, Backed, Numbered, Holding, Outgoing, Incoming, Sound, Moved;
    FeedKeeps(e.port, e.facts, r.Kernel().feed);
    QuietKeeps(e, o, r, hasher);
  }

  lemma ServicedKeeps(e: End, o: End, r: End, k: nat, hasher: Hasher)
    requires Intact(e, o, hasher) && Serviced(e, r, k)
    ensures Intact(r, o, hasher)
  {
    hide LinkInv, Backed, Numbered, Holding, Outgoing, Incoming, Sound;
    ServiceKeeps(e.port, r.port, e.facts, k);
    QuietKeeps(e, o, r, hasher);
  }

  lemma FilledKeeps(e: End, o: End, r: End, k: nat, hasher: Hasher)
    requires Intact(e, o, hasher) && FilledSome(e, r, k)
    ensures Intact(r, o, hasher)
  {
    hide LinkInv, Backed, Numbered, Holding, Outgoing, Incoming, Sound;
    FillKeeps(e.port, r.port, e.facts, k);
    QuietKeeps(e, o, r, hasher);
  }

  /** Submitting moves packets from the deque to the ring and leaves the way out as it is. */
  lemma SentSomeKeeps(e: End, o: End, r: End, k: nat, hasher: Hasher)
    requires Intact(e, o, hasher) && SentSome(e, r, k)
    ensures Intact(r, o, hasher)
  {
    hide LinkInv, Backed, Numbered, Holding, Sound, Heard, Got;
    SoundLink(e.port, e.facts);
    SendKeeps(e.port, r.port, e.facts, k);
    SoundLink(r.port, r.facts);
    var out := e.port.outbox;
    assert out == out[..k] + out[k..];
    AddrsConcat(out[..k], out[k..]);
    assert r.Way() == e.Way();
    IntactParts(e, o, hasher);
    SameHeard(e, o, r);
    WireGrew(o, e, r);
  }

  lemma ReceivedSomeKeeps(e: End, o: End, r: End, k: nat, hasher: Hasher)
    requires Intact(e, o, hasher) && ReceivedSome(e, r, k)
    ensures Intact(r, o, hasher)
  {
    hide LinkInv, Backed, Numbered, Holding, Sound, Heard, Progress, Got;
    SoundLink(e.port, e.facts);
    ReceiveKeeps(e.port, r.port, e.facts, k);
    SoundLink(r.port, r.facts);
    var s, t := e.port.link, r.port.link;
    var ds := Received(s, t);
    assert Descs(BufsOf(ds, BUF_SIZE, BufCustom)) == ds;
    AddrsConcat(e.port.inbox, BufsOf(ds, BUF_SIZE, BufCustom));
    assert r.Checked() == e.Checked();
    assert Descs(r.port.inbox) == t.k.rxLog[r.Checked()..t.p.rxTaken];
    assert r.Way() == e.Way();
    IntactParts(e, o, hasher);
    SameHeard(e, o, r);
    WireGrew(o, e, r);
  }

  lemma QueuedSomeKeeps(e: End, o: End, r: End, pkts: seq<Packet>, frames: seq<seq<byte>>, hasher: Hasher)
    requires Intact(e, o, hasher) && QueuedSome(e, r, pkts, frames, hasher)
    ensures Intact(r, o, hasher)
  {
    hide LinkInv, Backed, Numbered, Holding, Sound, Heard, Needed, Hashed, Got, SameAt, PokeAll;
    SoundLink(e.port, e.facts);
    TransmitKeeps(e.port, r.port, e.facts, pkts);
    forall b | Needed(e, b) ensures SameAt(b, e.mem, r.mem) {
      QueuedElsewhere(e, r.mem, pkts, frames, b, hasher);
    }
    NeededKept(e, r.mem);
    QueuedHolding(e, r.mem, pkts, frames, r.hashes, hasher);
    var n, more := e.Kernel().txTaken, Queued(e.port.bufs, pkts);
    AddrsConcat(e.port.outbox, more);
    HoldingConcat(e.Way()[n..], e.queued[n..], Descs(more), pkts, r.mem);
    assert r.Way() == e.Way() + Descs(more);
    assert r.Way()[n..] == e.Way()[n..] + Descs(more);
    assert r.queued[n..] == e.queued[n..] + pkts;
    assert r.Kernel().wire == r.queued[..n];
    NumberedMore(e.queued, pkts, e.hashes, r.hashes, hasher);
    IntactParts(e, o, hasher);
    SameHeard(e, o, r);
    WireGrew(o, e, r);
  }

  /** The slices the test writes through are those of different free frames of the area, each written whole. */
  lemma QueuedTargets(e: End, after: seq<byte>, pkts: seq<Packet>, frames: seq<seq<byte>>, hasher: Hasher)
    requires Own(e, hasher) && Wrote(e.port.bufs, pkts, frames, e.mem, after)
    ensures SliceOrder(e.port.bufs, |pkts|) == FillOrder(e.port.bufs, |pkts|) &&
            NoRepeats(FillOrder(e.port.bufs, |pkts|))
    ensures forall i :: 0 <= i < |pkts| ==>
      && FillOrder(e.port.bufs, |pkts|)[i] % BUF_SIZE == RESERVED && |frames[i]| == BUF_SIZE - RESERVED
      && FillOrder(e.port.bufs, |pkts|)[i] + |frames[i]| <= |e.mem|
  {
    var n := |pkts|;
    hide PokeAll, Starts, LinkInv, Numbered, Outgoing, Incoming, InLink, Addressed, PortFrames, Exact, Backed;
    var bufs := e.port.bufs;
    OwnedOnce(e.port, e.facts, bufs, |e.mem|);
    SlicesOfFrames(bufs, n);
    forall i, j | 0 <= i < j < n ensures FillOrder(bufs, n)[i] != FillOrder(bufs, n)[j] {
      assert Addrs(bufs)[|bufs| - 1 - j] != Addrs(bufs)[|bufs| - 1 - i];
    }
    forall i | 0 <= i < n
      ensures FillOrder(bufs, n)[i] % BUF_SIZE == RESERVED && |frames[i]| == BUF_SIZE - RESERVED
      ensures FillOrder(bufs, n)[i] + |frames[i]| <= |e.mem|
    {
      assert WellFormed(bufs[|bufs| - 1 - i], BUF_SIZE);
    }
  }

  /** The test writes only into free buffers. */
  lemma QueuedElsewhere(e: End, after: seq<byte>, pkts: seq<Packet>, frames: seq<seq<byte>>, b: Addr, hasher: Hasher)
    requires Own(e, hasher) && LinkInv(e.port.link) && 0 <= e.Checked() <= |e.Kernel().rxLog| && Needed(e, b)
    requires Wrote(e.port.bufs, pkts, frames, e.mem, after)
    ensures SameAt(b, e.mem, after)
  {
    hide LinkInv, Own, Needed, Addrs, Cell, PokeAll;
    var n := |pkts|;
    var targets := FillOrder(e.port.bufs, n);
    QueuedTargets(e, after, pkts, frames, hasher);
    NeededOwned(e, hasher, b);
    if b in targets {
      var i :| 0 <= i < n && targets[i] == b;
      InAddrs(e.port.bufs, |e.port.bufs| - 1 - i);
      FreeNotNeeded(e, hasher, b, 0);
    }
    forall k: nat | k <= BUF_SIZE - RESERVED ensures Cell(after, b, k) == Cell(e.mem, b, k) {
      PokeAllElsewhere(e.mem, targets, frames, b, k, BUF_SIZE);
    }
  }

  lemma QueuedHolding(e: End, after: seq<byte>, pkts: seq<Packet>, frames: seq<seq<byte>>, hashes: map<nat, nat>,
                      hasher: Hasher)
    requires Own(e, hasher) && Wrote(e.port.bufs, pkts, frames, e.mem, after)
    requires Hashed(e.hashes, |e.queued| + 1, pkts, hashes, hasher)
    ensures Holding(Descs(Queued(e.port.bufs, pkts)), pkts, after)
  {
    hide Own, Cell, PokeAll;
    var n, bufs := |pkts|, e.port.bufs;
    var ds, targets := Descs(Queued(bufs, pkts)), FillOrder(bufs, n);
    QueuedTargets(e, after, pkts, frames, hasher);
    forall i | 0 <= i < n ensures Holds(ds[i], pkts[i], after) {
      assert Starts(frames[i], pkts[i]) && GoodPacket(pkts[i], |e.queued| + 1 + 1 + i);
      PokeAllThenCell(e.mem, targets, frames, i, |pkts[i]|, BUF_SIZE);
      assert ds[i] == Desc(targets[i], |pkts[i]|);
    }
  }

  lemma NumberedMore(queued: seq<Packet>, pkts: seq<Packet>, before: map<nat, nat>, after: map<nat, nat>,
                     hasher: Hasher)
    requires Numbered(queued, before, hasher) && Hashed(before, |queued| + 1, pkts, after, hasher)
    ensures Numbered(queued + pkts, after, hasher)
  {
    hide GoodPacket;
    var all := queued + pkts;
    forall j | 0 <= j < |all| ensures GoodPacket(all[j], j + 2) && after[j + 2] == hasher(all[j]) {
      if j >= |queued| {
        var i := j - |queued|;
        assert all[j] == pkts[i] && GoodPacket(pkts[i], |queued| + 1 + 1 + i);
      } else {
        assert after[j + 2] == before[j + 2];
      }
    }
  }

  /** The packets the test looks at are in order and intact. */
  lemma ArrivalsClean(e: End, o: End, hasher: Hasher)
    requires Intact(e, o, hasher) && Legible(e.port.inbox, e.mem)
    ensures Clean(e.checks.last, Arrivals(e.port.inbox, e.mem), o.hashes, hasher)
    ensures |e.port.inbox| > 0 ==>
      && 0 < e.port.link.p.rxTaken <= |e.picks|
      && SeqOf(Arrivals(e.port.inbox, e.mem)[|e.port.inbox| - 1].data) == e.picks[e.port.link.p.rxTaken - 1] + 2
  {
    hide Own, SeqOf, Arrivals, Legible, Got, Fed;
    assert 0 <= e.Checked() && |e.picks| == |e.Kernel().rxLog| >= e.port.link.p.rxTaken by { LogCounts(e, hasher); }
    var arrivals, c := Arrivals(e.port.inbox, e.mem), e.Checked();
    forall x | 0 <= x < |arrivals|
      ensures SeqOf(arrivals[x].data) == e.picks[c + x] + 2
      ensures e.picks[c + x] + 2 in o.hashes
      ensures hasher(arrivals[x].data[..arrivals[x].len]) == o.hashes[e.picks[c + x] + 2]
    {
      ArrivalIs(e, o, x, hasher);
    }
  }

  lemma LogCounts(e: End, hasher: Hasher)
    requires Own(e, hasher)
    ensures 0 <= e.Checked() && |e.picks| == |e.Kernel().rxLog| >= e.port.link.p.rxTaken
  {
    hide Backed, Numbered, Outgoing, Holding, Sound;
    SoundLink(e.port, e.facts);
  }

  /** The x-th packet the test looks at is the packet the other end queued there, with its number and hash. */
  lemma ArrivalIs(e: End, o: End, x: nat, hasher: Hasher)
    requires Intact(e, o, hasher) && Legible(e.port.inbox, e.mem) && x < |e.port.inbox|
    ensures 0 <= e.Checked() && e.Checked() + x < |e.picks|
    ensures var j, a := e.picks[e.Checked() + x], Arrivals(e.port.inbox, e.mem)[x];
            && j < |o.queued| && SeqOf(a.data) == j + 2 && a.data[..a.len] == o.queued[j]
            && j + 2 in o.hashes && o.hashes[j + 2] == hasher(o.queued[j])
  {
    hide LinkInv, Backed, Sound, Holds, GoodPacket, SeqOf, Got, Cell;
    SoundLink(e.port, e.facts);
    SoundLink(o.port, o.facts);
    var c := e.Checked();
    var d, p, j := e.Kernel().rxLog[c + x], Got(e.Kernel())[c + x], e.picks[c + x];
    assert e.Kernel().rxLog[c..][x] == d && Got(e.Kernel())[c..][x] == p;
    assert Holds(d, p, e.mem);
    assert Descs(e.port.inbox)[x] == d;
    assert p == o.queued[j] && GoodPacket(o.queued[j], j + 2);
    InboxSlice(e.port, e.facts, x);
    NumberReadBack(d, p, e.mem, j + 2);
  }

  lemma InboxSlice(p: Port, f: Facts, x: nat)
    requires Sound(p, f) && x < |p.inbox|
    ensures p.inbox[x].data == Slice(p.inbox[x].addr, BUF_SIZE - RESERVED)
  {
    assert WellFormed(p.inbox[x], BUF_SIZE);
  }

  lemma NumberReadBack(d: Desc, p: Packet, mem: seq<byte>, n: nat)
    requires Holds(d, p, mem) && GoodPacket(p, n) && d.addr + (BUF_SIZE - RESERVED) <= |mem|
    ensures var data := Cell(mem, d.addr, BUF_SIZE - RESERVED);
            8 <= |data| && d.len <= |data| && SeqOf(data) == n && data[..d.len] == p
  {
    var data := Cell(mem, d.addr, BUF_SIZE - RESERVED);
    CellPrefix(mem, d.addr, BUF_SIZE - RESERVED, d.len);
    assert data[..8] == data[..d.len][..8] == p[..8];
  }

  lemma CheckedAllKeeps(e: End, o: End, r: End, hasher: Hasher)
    requires Intact(e, o, hasher) && CheckedAll(e, o, r, hasher)
    ensures Intact(r, o, hasher)
  {
    hide Own, CheckedAll, Heard, Got;
    CheckedOwn(e, o, r, hasher);
    CheckedHeard(e, o, r, hasher);
    WireGrew(o, e, r);
  }

  lemma CheckedOwn(e: End, o: End, r: End, hasher: Hasher)
    requires Own(e, hasher) && CheckedAll(e, o, r, hasher)
    ensures Own(r, hasher) && r.Kernel() == e.Kernel()
  {
    hide LinkInv, Backed, Numbered, Holding, Sound, Got, CheckAll, Arrivals, Legible;
    SoundLink(e.port, e.facts);
    CheckKeeps(e.port, r.port, e.facts);
    var s, c := e.port.link, e.Checked();
    assert r.Checked() == s.p.rxTaken;
    HoldingLater(s.k.rxLog[c..], Got(s.k)[c..], |e.port.inbox|, e.mem);
    assert s.k.rxLog[c..][|e.port.inbox|..] == s.k.rxLog[s.p.rxTaken..];
    assert Got(s.k)[c..][|e.port.inbox|..] == Got(s.k)[s.p.rxTaken..];
    assert Descs(r.port.inbox) == s.k.rxLog[s.p.rxTaken..s.p.rxTaken];
    assert r.Way() == e.Way();
  }

  lemma CheckedHeard(e: End, o: End, r: End, hasher: Hasher)
    requires Intact(e, o, hasher) && CheckedAll(e, o, r, hasher)
    ensures Heard(r, o)
  {
    hide Own, Clean, SeqOf, Got, CheckAll, Legible, Fed;
    LogCounts(e, hasher);
    var arrivals := Arrivals(e.port.inbox, e.mem);
    ArrivalsClean(e, o, hasher);
    CleanCountsNothing(e.checks, arrivals, o.hashes, hasher);
    assert Fed(r, o) by { FedStays(e, o, r); }
  }

  lemma FedStays(e: End, o: End, r: End)
    requires Fed(e, o) && r.Kernel() == e.Kernel() && r.picks == e.picks
    ensures Fed(r, o)
  {
  }

  lemma HoldingLater(ds: seq<Desc>, pkts: seq<Packet>, n: nat, mem: seq<byte>)
    requires Holding(ds, pkts, mem) && n <= |ds|
    ensures Holding(ds[n..], pkts[n..], mem)
  {
    hide Holds;
  }

  /** Looking at received packets is always possible: each lies inside its frame. */
  lemma AlwaysLegible(e: End, hasher: Hasher)
    requires Own(e, hasher)
    ensures Legible(e.port.inbox, e.mem)
  {
    hide Sound, Backed, Numbered, Outgoing, Incoming;
    InboxLegible(e.port, e.facts, e.mem);
  }

  lemma EndStepKeeps(e: End, o: End, r: End, hasher: Hasher)
    requires Intact(e, o, hasher) && EndStep(e, o, r, hasher)
    ensures Intact(r, o, hasher)
  {
    hide Intact, KernelMoved, Offered, Serviced, ReceivedSome, CheckedAll, QueuedSome, SentSome, FilledSome;
    if KernelMoved(e, r) {
      KernelMovedKeeps(e, o, r, hasher);
    } else if Offered(e, o, r) {
      OfferedKeeps(e, o, r, hasher);
    } else if k: nat :| Serviced(e, r, k) {
      ServicedKeeps(e, o, r, k, hasher);
    } else if k: nat :| ReceivedSome(e, r, k) {
      ReceivedSomeKeeps(e, o, r, k, hasher);
    } else if CheckedAll(e, o, r, hasher) {
      CheckedAllKeeps(e, o, r, hasher);
    } else if pkts: seq<Packet>, frames: seq<seq<byte>> :| QueuedSome(e, r, pkts, frames, hasher) {
      QueuedSomeKeeps(e, o, r, pkts, frames, hasher);
    } else if k: nat :| SentSome(e, r, k) {
      SentSomeKeeps(e, o, r, k, hasher);
    } else if k: nat :| FilledSome(e, r, k) {
      FilledKeeps(e, o, r, k, hasher);
    }
  }

  // Runs of both ends.

  datatype World = World(one: End, two: End)

  ghost predicate Step(w: World, v: World, hasher: Hasher) {
    || (v.two == w.two && EndStep(w.one, w.two, v.one, hasher))
    || (v.one == w.one && EndStep(w.two, w.one, v.two, hasher))
  }

  /** States of the test, each one step after the last. */
  ghost predicate IsRun(run: seq<World>, hasher: Hasher) {
    && run != [] && Fresh(run[0].one) && Fresh(run[0].two)
    && forall j :: 0 <= j < |run| - 1 ==> Step(run[j], run[j + 1], hasher)
  }

  /** An end whose link has been filled and on which nothing else has happened. */
  ghost predicate Fresh(e: End) {
    && Sound(e.port, e.facts) && Backed(e.facts.owned, |e.mem|)
    && e.port.inbox == [] && e.port.outbox == [] && e.port.link.p.sent == [] && e.port.link.p.rxTaken == 0
    && e.Kernel().rxLog == [] && e.Kernel().feed.Only? && e.Kernel().feed.packets == []
    && e.hashes == map[] && e.checks == Checks(0, 0, 0)
    && e.queued == [] && e.picks == []
  }

  lemma FreshIntact(e: End, o: End, hasher: Hasher)
    requires Fresh(e) && Fresh(o)
    ensures Intact(e, o, hasher)
  {
    hide Sound, Backed;
    SoundLink(e.port, e.facts);
    SoundLink(o.port, o.facts);
    assert Descs(e.port.outbox) == [] && Descs(o.port.outbox) == [];
  }

  /** In every state of every run, whatever the kernels and the wire do, the test has counted no packet
      out of order and no bad hash on either port, and each port has received part of what the other
      sent, in the order it was queued. */
  lemma {:induction false} EveryRunIntact(run: seq<World>, i: nat, hasher: Hasher)
    requires IsRun(run, hasher) && i < |run|
    ensures Intact(run[i].one, run[i].two, hasher)
    ensures run[i].one.checks.outOfOrder == run[i].one.checks.badHash == 0
    ensures run[i].two.checks.outOfOrder == run[i].two.checks.badHash == 0
  {
    hide Fresh, EndStep, Own, Fed, Got;
    if i == 0 {
      FreshIntact(run[0].one, run[0].two, hasher);
    } else {
      EveryRunIntact(run, i - 1, hasher);
      var w, v := run[i - 1], run[i];
      assert Step(run[i - 1], run[i - 1 + 1], hasher);
      if v.two == w.two && EndStep(w.one, w.two, v.one, hasher) {
        EndStepKeeps(w.one, w.two, v.one, hasher);
      } else {
        EndStepKeeps(w.two, w.one, v.two, hasher);
      }
    }
  }
}
