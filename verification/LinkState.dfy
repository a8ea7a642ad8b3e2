/** The state of one link as a value, and what the kernel may do to it.

    `filled` and `sent` are everything the program ever submitted to the fill and Tx rings, `rxLog`
    and `compLog` everything the kernel ever published on Rx and completion. The `...Taken` counters
    say how far the other side has consumed each. The remaining fields describe an operation in
    progress: slots granted, and written or read so far. The kernel also writes received packets into the
    area's bytes and reads the bytes of packets it transmits. */
module LinkState {
  import opened Bits
  import opened Frames
  import opened Memory

  datatype Config = Config(bufLen: ChunkLen, fillSize: nat, rxSize: nat, txSize: nat, compSize: nat)

  /** A producer operation in progress. */
  datatype Grant<T> = Grant(reserved: nat, staged: seq<T>)

  /** A consumer operation in progress. */
  datatype Window<T> = Window(entries: seq<T>, read: nat)

  /** The program's side of a link. The `...Seen` counters say how far each consumer ring had been published
      when the program last looked. */
  datatype Prog = Prog(
    filled: seq<Addr>, sent: seq<Desc>, rxTaken: nat, compTaken: nat, rxSeen: nat, compSeen: nat,
    fillOp: Grant<Addr>, txOp: Grant<Desc>, rxOp: Window<Desc>, compOp: Window<Addr>)
  {
    predicate Idle() {
      fillOp == Grant(0, []) && txOp == Grant(0, []) && rxOp == Window([], 0) && compOp == Window([], 0)
    }

    // The program's side after each of the four operations.

    function Fills(addrs: seq<Addr>): Prog { this.(filled := filled + addrs) }

    function Sends(descs: seq<Desc>): Prog { this.(sent := sent + descs) }

    function Receives(k: nat, seen: nat): Prog { this.(rxTaken := rxTaken + k, rxSeen := seen) }

    function Services(k: nat, seen: nat): Prog { this.(compTaken := compTaken + k, compSeen := seen) }
  }

  /** What may still arrive at a link: anything, or packets of the other end's wire, from the `next`-th on
      and in that order. */
  datatype Feed = Any | Only(packets: seq<Packet>, next: nat)

  /** The kernel's side of a link. `arrived` holds the frame of each received packet as the kernel wrote it,
      `wire` each packet as the kernel read it for transmission. */
  datatype Kern = Kern(
    fillTaken: nat, held: seq<Addr>, rxLog: seq<Desc>, arrived: seq<seq<byte>>,
    txTaken: nat, flight: seq<Addr>, compLog: seq<Addr>, wire: seq<Packet>, feed: Feed)
  {
    /** Transmit work the kernel has ahead of it, up to what the program adds: every Tx entry taken
        and every completion lowers it. */
    function TxLoad(): int {
      3 * |flight| + 2 * |compLog| - 4 * txTaken
    }

    /** No packet can arrive any more. */
    predicate Silent() {
      feed.Only? && |feed.packets| <= feed.next
    }
  }

  datatype State = State(cfg: Config, p: Prog, k: Kern)

  /** What the kernel took from the fill ring is either still held or was published on Rx. */
  ghost predicate RxAccounted(bufLen: ChunkLen, filled: seq<Addr>, held: seq<Addr>, published: seq<Desc>) {
    && multiset(Homes(filled, bufLen)) == multiset(held) + multiset(DescAddrs(published))
    && (forall i :: 0 <= i < |published| ==> published[i].len <= bufLen - RESERVED)
  }

  /** The frame of every received packet was recorded whole. */
  ghost predicate Recorded(bufLen: ChunkLen, published: seq<Desc>, arrived: seq<seq<byte>>) {
    |arrived| == |published| && forall i :: 0 <= i < |arrived| ==> |arrived[i]| == bufLen - RESERVED
  }

  /** What the kernel took from the Tx ring is either in flight or was completed. */
  ghost predicate TxAccounted(sent: seq<Desc>, flight: seq<Addr>, completed: seq<Addr>) {
    multiset(DescAddrs(sent)) == multiset(flight) + multiset(completed)
  }

  /** What every link keeps, whoever moves. */
  ghost predicate LinkInv(s: State) {
    && s.k.fillTaken <= |s.p.filled| <= |s.p.filled| + s.p.fillOp.reserved <= s.k.fillTaken + s.cfg.fillSize
    && s.k.txTaken <= |s.p.sent| <= |s.p.sent| + s.p.txOp.reserved <= s.k.txTaken + s.cfg.txSize
    && s.p.rxTaken + |s.p.rxOp.entries| <= s.p.rxSeen <= |s.k.rxLog| <= s.p.rxTaken + s.cfg.rxSize
    && s.p.compTaken + |s.p.compOp.entries| <= s.p.compSeen <= |s.k.compLog|
    && |s.k.flight| + |s.k.compLog| <= s.p.compTaken + s.cfg.compSize
    && RxAccounted(s.cfg.bufLen, s.p.filled[..s.k.fillTaken], s.k.held, s.k.rxLog)
    && TxAccounted(s.p.sent[..s.k.txTaken], s.k.flight, s.k.compLog)
    && Recorded(s.cfg.bufLen, s.k.rxLog, s.k.arrived) && |s.k.wire| == s.k.txTaken
  }

  /** What any number of kernel moves can do: histories only grow, a silent wire delivers nothing,
      and the Tx load falls unless nothing moved on the Tx side. */
  ghost predicate Progress(k: Kern, l: Kern) {
    && k.rxLog <= l.rxLog && k.compLog <= l.compLog
    && (k.Silent() ==> l.Silent() && l.rxLog == k.rxLog)
    && (k.feed.Only? ==> l.feed.Only? && l.feed.packets == k.feed.packets)
    && l.TxLoad() <= k.TxLoad()
    && (l.TxLoad() == k.TxLoad() ==> l.txTaken == k.txTaken && |l.flight| == |k.flight| && l.compLog == k.compLog)
  }

  /** From `s` to `t` only the kernel moved, and its cursors only advanced. */
  ghost predicate Moved(s: State, t: State) {
    && t.cfg == s.cfg && t.p == s.p
    && s.k.fillTaken <= t.k.fillTaken && s.k.txTaken <= t.k.txTaken
    && |s.k.rxLog| <= |t.k.rxLog| && |s.k.compLog| <= |t.k.compLog|
    && Progress(s.k, t.k)
  }

  lemma ProgressReflexive(k: Kern)
    ensures Progress(k, k)
  {
  }

  lemma MovedTransitive(s: State, t: State, u: State)
    requires Moved(s, t) && Moved(t, u)
    ensures Moved(s, u)
  {
  }

  /** The completions the program received between `s` and `t`. */
  function Completed(s: State, t: State): seq<Addr>
    requires s.p.compTaken <= t.p.compTaken <= |t.k.compLog|
  {
    t.k.compLog[s.p.compTaken..t.p.compTaken]
  }

  /** The packets the program received between `s` and `t`. */
  function Received(s: State, t: State): seq<Desc>
    requires s.p.rxTaken <= t.p.rxTaken <= |t.k.rxLog|
  {
    t.k.rxLog[s.p.rxTaken..t.p.rxTaken]
  }

  /** What a look at a consumer ring grants: everything it shows, up to the limit. A ring that still shows
      something is not looked at again; otherwise at least what was there before shows. */
  predicate Grants(taken: nat, seen: nat, published: nat, shown: nat, k: nat, limit: nat) {
    && taken <= shown && k == Min(limit, shown - taken)
    && (if seen > taken then shown == seen else published <= shown)
  }

  predicate RxGrants(s: State, t: State, k: nat, limit: nat) {
    Grants(s.p.rxTaken, s.p.rxSeen, |s.k.rxLog|, t.p.rxSeen, k, limit)
  }

  predicate CompGrants(s: State, t: State, k: nat, limit: nat) {
    Grants(s.p.compTaken, s.p.compSeen, |s.k.compLog|, t.p.compSeen, k, limit)
  }

  // The kernel's moves, exactly.

  /** Take the next filled address and aim at the data part of its chunk. */
  ghost predicate TookFill(s: State, t: State) {
    && s.k.fillTaken < |s.p.filled|
    && t == s.(k := s.k.(fillTaken := s.k.fillTaken + 1,
                         held := s.k.held + [Home(s.p.filled[s.k.fillTaken], s.cfg.bufLen)]))
  }

  /** A packet the feed allows comes next; those before it on the wire are lost. */
  ghost predicate Arrives(f: Feed, pkt: Packet, g: Feed) {
    if f.Any? then g == f
    else g.Only? && g.packets == f.packets && f.next < g.next <= |f.packets| && f.packets[g.next - 1] == pkt
  }

  /** The j-th packet of the wire, or any if nothing limits what arrives. */
  predicate MayArrive(f: Feed, pkt: Packet, j: nat) {
    f.Only? ==> f.next <= j < |f.packets| && f.packets[j] == pkt
  }

  function AfterArrival(f: Feed, j: nat): Feed {
    if f.Any? then f else Only(f.packets, j + 1)
  }

  /** Publish the i-th held frame on Rx. The whole frame now reads `bytes`, and its first `len` are the packet. */
  ghost predicate Delivered(s: State, t: State, i: nat, len: nat, bytes: seq<byte>) {
    && i < |s.k.held| && |s.k.rxLog| - s.p.rxTaken < s.cfg.rxSize
    && len <= |bytes| == s.cfg.bufLen - RESERVED && Arrives(s.k.feed, bytes[..len], t.k.feed)
    && t == s.(k := s.k.(held := s.k.held[..i] + s.k.held[i + 1..], rxLog := s.k.rxLog + [Desc(s.k.held[i], len)],
                         arrived := s.k.arrived + [bytes], feed := t.k.feed))
  }

  /** Take the next Tx entry, keeping a completion slot for it, and put its packet on the wire. */
  ghost predicate TookTx(s: State, t: State, pkt: Packet) {
    && s.k.txTaken < |s.p.sent| && |s.k.flight| + |s.k.compLog| < s.p.compTaken + s.cfg.compSize
    && t == s.(k := s.k.(txTaken := s.k.txTaken + 1, flight := s.k.flight + [s.p.sent[s.k.txTaken].addr],
                         wire := s.k.wire + [pkt]))
  }

  /** Complete the i-th frame in flight. */
  ghost predicate Finished(s: State, t: State, i: nat) {
    && i < |s.k.flight|
    && t == s.(k := s.k.(flight := s.k.flight[..i] + s.k.flight[i + 1..], compLog := s.k.compLog + [s.k.flight[i]]))
  }

  /** The wire after everything still on it was lost and nothing new comes. */
  function Hush(f: Feed): Feed {
    if f.Any? then Only([], 0) else Only(f.packets, if f.next < |f.packets| then |f.packets| else f.next)
  }

  ghost predicate FellSilent(s: State, t: State) {
    t == s.(k := s.k.(feed := Hush(s.k.feed)))
  }

  // The same with the area's bytes.

  /** Delivery writes the frame and nothing else. */
  ghost predicate Landed(s: State, mem: seq<byte>, t: State, mem': seq<byte>, i: nat, len: nat, bytes: seq<byte>) {
    Delivered(s, t, i, len, bytes) && mem' == Poke(mem, s.k.held[i], bytes)
  }

  /** Transmission reads the bytes the entry names. */
  ghost predicate Departed(s: State, mem: seq<byte>, t: State) {
    && s.k.txTaken < |s.p.sent|
    && var d := s.p.sent[s.k.txTaken];
    && TookTx(s, t, Cell(mem, d.addr, d.len))
  }

  ghost predicate KernelMove(s: State, mem: seq<byte>, t: State, mem': seq<byte>) {
    || (t == s && mem' == mem)
    || (TookFill(s, t) && mem' == mem)
    || (exists i: nat, len: nat, bytes: seq<byte> :: Landed(s, mem, t, mem', i, len, bytes))
    || (Departed(s, mem, t) && mem' == mem)
    || ((exists i: nat :: Finished(s, t, i)) && mem' == mem)
    || (FellSilent(s, t) && mem' == mem)
  }

  lemma LandedIsMove(s: State, mem: seq<byte>, t: State, mem': seq<byte>, i: nat, len: nat, bytes: seq<byte>)
    requires Landed(s, mem, t, mem', i, len, bytes)
    ensures KernelMove(s, mem, t, mem')
  {
  }

  /** Each move keeps the accounts and is one of the things `Moved` allows. */
  lemma TookFillKeeps(s: State, t: State)
    requires LinkInv(s) && TookFill(s, t)
    ensures LinkInv(t) && Moved(s, t)
  {
    hide RxAccounted, TxAccounted, Recorded;
    var a := s.p.filled[s.k.fillTaken];
    RxTake(s.cfg.bufLen, s.p.filled[..s.k.fillTaken], s.k.held, s.k.rxLog, a);
    assert t.p.filled[..t.k.fillTaken] == s.p.filled[..s.k.fillTaken] + [a];
  }

  lemma DeliveredKeeps(s: State, t: State, i: nat, len: nat, bytes: seq<byte>)
    requires LinkInv(s) && Delivered(s, t, i, len, bytes)
    ensures LinkInv(t) && Moved(s, t)
  {
    hide RxAccounted, TxAccounted;
    RxDeliver(s.cfg.bufLen, s.p.filled[..s.k.fillTaken], s.k.held, s.k.rxLog, i, len);
  }

  lemma TookTxKeeps(s: State, t: State, pkt: Packet)
    requires LinkInv(s) && TookTx(s, t, pkt)
    ensures LinkInv(t) && Moved(s, t)
  {
    hide RxAccounted, TxAccounted, Recorded;
    var d := s.p.sent[s.k.txTaken];
    TxTake(s.p.sent[..s.k.txTaken], s.k.flight, s.k.compLog, d);
    assert t.p.sent[..t.k.txTaken] == s.p.sent[..s.k.txTaken] + [d];
  }

  lemma FinishedKeeps(s: State, t: State, i: nat)
    requires LinkInv(s) && Finished(s, t, i)
    ensures LinkInv(t) && Moved(s, t)
  {
    hide RxAccounted, TxAccounted, Recorded;
    TxComplete(s.p.sent[..s.k.txTaken], s.k.flight, s.k.compLog, i);
  }

  lemma FellSilentKeeps(s: State, t: State)
    requires LinkInv(s) && FellSilent(s, t)
    ensures LinkInv(t) && Moved(s, t) && t.k.Silent()
  {
    hide RxAccounted, TxAccounted, Recorded;
  }

  lemma KernelMoveKeeps(s: State, mem: seq<byte>, t: State, mem': seq<byte>)
    requires LinkInv(s) && KernelMove(s, mem, t, mem')
    ensures LinkInv(t) && Moved(s, t) && |mem'| == |mem|
  {
    hide LinkInv, TookFill, TookTx, Delivered, Finished, FellSilent, Moved, Poke;
    if t == s {
      MovedReflexive(s);
    } else if TookFill(s, t) {
      TookFillKeeps(s, t);
    } else if i: nat, len: nat, bytes: seq<byte> :| Landed(s, mem, t, mem', i, len, bytes) {
      DeliveredKeeps(s, t, i, len, bytes);
    } else if Departed(s, mem, t) {
      var d := s.p.sent[s.k.txTaken];
      TookTxKeeps(s, t, Cell(mem, d.addr, d.len));
    } else if i: nat :| Finished(s, t, i) {
      FinishedKeeps(s, t, i);
    } else {
      FellSilentKeeps(s, t);
    }
  }

  lemma MovedReflexive(s: State)
    ensures Moved(s, s)
  {
  }

  // Runs of the kernel.

  /** The kernel's side and the area's bytes at one moment. */
  datatype Snap = Snap(k: Kern, mem: seq<byte>)

  ghost predicate Next(s: State, x: Snap, y: Snap) {
    KernelMove(s.(k := x.k), x.mem, s.(k := y.k), y.mem)
  }

  /** What the kernel did while the program's side was as in `s`: snapshots, each one move after the last. */
  ghost predicate Trace(s: State, ks: seq<Snap>) {
    && ks != [] && ks[0].k == s.k
    && forall i :: 0 <= i < |ks| - 1 ==> Next(s, ks[i], ks[i + 1])
  }

  function Last(ks: seq<Snap>): Snap
    requires ks != []
  {
    ks[|ks| - 1]
  }

  /** The kernel sees of the program's side only what was submitted and released. */
  predicate SameToKernel(p: Prog, q: Prog) {
    p.filled == q.filled && p.sent == q.sent && p.rxTaken == q.rxTaken && p.compTaken == q.compTaken
  }

  /** What the kernel did in the middle of an operation it could have done before it. */
  lemma NextSeen(s: State, p: Prog, x: Snap, y: Snap)
    requires KernelMove(s.(p := p, k := x.k), x.mem, s.(p := p, k := y.k), y.mem) && SameToKernel(s.p, p)
    ensures Next(s, x, y)
  {
    var s1, t1 := s.(p := p, k := x.k), s.(p := p, k := y.k);
    var s2, t2 := s.(k := x.k), s.(k := y.k);
    if i: nat, len: nat, bytes: seq<byte> :| Landed(s1, x.mem, t1, y.mem, i, len, bytes) {
      assert Landed(s2, x.mem, t2, y.mem, i, len, bytes);
    } else if i: nat :| Finished(s1, t1, i) {
      assert Finished(s2, t2, i);
    }
  }

  /** A move is one from wherever the kernel was. */
  lemma NextAfter(s: State, x: Snap, y: Snap)
    requires Next(s, x, y)
    ensures Next(s.(k := x.k), x, y)
  {
    hide KernelMove;
  }

  /** A kernel move leaves the program's side alone. */
  lemma SidesOnly(s: State, mem: seq<byte>, t: State, mem': seq<byte>)
    requires KernelMove(s, mem, t, mem')
    ensures t == s.(k := t.k)
  {
  }

  lemma TraceExtends(s: State, ks: seq<Snap>, y: Snap)
    requires Trace(s, ks) && Next(s, Last(ks), y)
    ensures Trace(s, ks + [y]) && Last(ks + [y]) == y
  {
    var all := ks + [y];
    forall i | 0 <= i < |all| - 1 ensures Next(s, all[i], all[i + 1]) {
      if i < |ks| - 1 {
        assert Next(s, ks[i], ks[i + 1]);
      }
    }
  }

  /** A run of the kernel keeps the accounts and is one of the things `Moved` allows. */
  lemma {:induction false} TraceKeeps(s: State, ks: seq<Snap>)
    requires LinkInv(s) && Trace(s, ks)
    ensures LinkInv(s.(k := Last(ks).k)) && Moved(s, s.(k := Last(ks).k)) && |Last(ks).mem| == |ks[0].mem|
    decreases |ks|
  {
    hide LinkInv, KernelMove, Moved;
    var n := |ks| - 1;
    if n == 0 {
      MovedReflexive(s);
      assert s.(k := s.k) == s;
    } else {
      assert Next(s, ks[n - 1], ks[n - 1 + 1]);
      TraceKeeps(s, ks[..n]);
      KernelMoveKeeps(s.(k := ks[n - 1].k), ks[n - 1].mem, s.(k := ks[n].k), ks[n].mem);
      MovedTransitive(s, s.(k := ks[n - 1].k), s.(k := ks[n].k));
    }
  }

  /** Since `s` the kernel made the moves `ks` and the program's side became `p`; now the link is `t` and
      the area reads `mem`. */
  ghost predicate Ran(s: State, p: Prog, ks: seq<Snap>, t: State, mem: seq<byte>) {
    && ks != [] && Trace(s, ks)
    && t == s.(p := p, k := Last(ks).k) && mem == Last(ks).mem
  }

  /** The program acts. */
  lemma RanOn(s: State, p: Prog, ks: seq<Snap>, t: State, mem: seq<byte>, q: Prog)
    requires Ran(s, p, ks, t, mem)
    ensures t == s.(p := p, k := t.k) && Ran(s, q, ks, t.(p := q), mem)
  {
  }

  /** Nothing has happened yet. */
  lemma RanNothing(s: State, mem: seq<byte>)
    ensures Ran(s, s.p, [Snap(s.k, mem)], s, mem)
  {
  }

  /** One more move of the kernel, outside any operation. */
  lemma RanOneMore(s: State, ks: seq<Snap>, before: State, t: State, mem: seq<byte>) returns (more: seq<Snap>)
    requires Ran(s, s.p, ks, before, mem) && KernelMove(before, mem, t, mem)
    ensures more != [] && more[0] == ks[0] && Ran(s, s.p, more, t, mem)
  {
    hide KernelMove, Trace;
    var y := Snap(t.k, mem);
    SidesOnly(before, mem, t, mem);
    assert before == s.(k := Last(ks).k) && t == s.(k := t.k);
    TraceExtends(s, ks, y);
    more := ks + [y];
  }

  lemma TxWithin(s: State)
    requires LinkInv(s)
    ensures s.k.txTaken <= |s.p.sent|
  {
  }

  /** What `Moved` says of such a run. */
  lemma RanMoved(s: State, p: Prog, ks: seq<Snap>, t: State, mem: seq<byte>)
    requires LinkInv(s) && Ran(s, p, ks, t, mem)
    ensures Moved(s.(p := p), t) && Moved(s, s.(k := t.k))
  {
    hide LinkInv, Moved, Trace;
    TraceKeeps(s, ks);
    MovedAround(s, s.(k := Last(ks).k), p);
  }

  /** The same while an operation is in progress, and for what the operation makes of the program's side. */
  lemma MovedAround(s: State, t: State, q: Prog)
    requires Moved(s, t)
    ensures Moved(s.(p := q), t.(p := q))
  {
  }

  // How the four kernel moves keep the accounts.

  lemma NothingAccounted(bufLen: ChunkLen)
    ensures RxAccounted(bufLen, [], [], []) && TxAccounted([], [], []) && Recorded(bufLen, [], [])
  {
    assert Homes([], bufLen) == [] && DescAddrs([]) == [];
  }

  lemma RxTake(bufLen: ChunkLen, filled: seq<Addr>, held: seq<Addr>, published: seq<Desc>, a: Addr)
    requires RxAccounted(bufLen, filled, held, published)
    ensures RxAccounted(bufLen, filled + [a], held + [Home(a, bufLen)], published)
  {
    HomesConcat(filled, [a], bufLen);
    assert Homes([a], bufLen) == [Home(a, bufLen)];
  }

  lemma RxDeliver(bufLen: ChunkLen, filled: seq<Addr>, held: seq<Addr>, published: seq<Desc>, i: nat, len: nat)
    requires RxAccounted(bufLen, filled, held, published)
    requires i < |held| && len <= bufLen - RESERVED
    ensures RxAccounted(bufLen, filled, held[..i] + held[i + 1..], published + [Desc(held[i], len)])
  {
    assert held == held[..i] + [held[i]] + held[i + 1..];
    DescAddrsConcat(published, [Desc(held[i], len)]);
    assert DescAddrs([Desc(held[i], len)]) == [held[i]];
  }

  lemma TxTake(sent: seq<Desc>, flight: seq<Addr>, completed: seq<Addr>, d: Desc)
    requires TxAccounted(sent, flight, completed)
    ensures TxAccounted(sent + [d], flight + [d.addr], completed)
  {
    DescAddrsConcat(sent, [d]);
    assert DescAddrs([d]) == [d.addr];
  }

  lemma TxComplete(sent: seq<Desc>, flight: seq<Addr>, completed: seq<Addr>, i: nat)
    requires TxAccounted(sent, flight, completed) && i < |flight|
    ensures TxAccounted(sent, flight[..i] + flight[i + 1..], completed + [flight[i]])
  {
    assert flight == flight[..i] + [flight[i]] + flight[i + 1..];
  }
}
