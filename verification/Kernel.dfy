/** One link: its four rings, the area's memory and the kernel behind them.

    The kernel's rules are the environment of this project and are stated here as the bodies of its
    moves. A filled address is masked to its chunk and handed back on Rx at chunk base + 256, with the
    packet's bytes written there; a transmitted address comes back on the completion ring unchanged, and
    its bytes are read when its Tx entry is taken; a Tx entry is taken only when the completion ring has
    room for its return; packets may be delivered and transmissions finished in any order; the wire may
    fall silent at any time. `KernelRun` is any number of such moves in any order, and the operations call
    it between every two of their own actions. The memory is shared: it belongs to no link. */
module Kernel {
  import opened Bits
  import opened Rings
  import opened Frames
  import opened Memory
  import opened LinkState

  class Link {
    const bufLen: ChunkLen
    const fill: ProdRing<Addr>
    const rx: ConsRing<Desc>
    const tx: ProdRing<Desc>
    const comp: ConsRing<Addr>

    const mem: array<byte>    // the bytes of the area

    var held: seq<Addr>       // frames the kernel took from the fill ring and has not delivered
    var flight: seq<Addr>     // frames the kernel took from the Tx ring and has not completed
    var feed: Feed            // what may still arrive
    var wire: seq<Packet>     // every packet read for transmission
    ghost var arrived: seq<seq<byte>>   // the frame of every packet received

    ghost const Repr: set<object>

    /** The link's objects are its own. */
    ghost predicate Owns() {
      {this as object, fill, rx, tx, comp} <= Repr
    }

    ghost function View(): State
      requires Owns()
      reads Repr
    {
      State(Config(bufLen, fill.size, rx.size, tx.size, comp.size),
            Prog(fill.hist, tx.hist, rx.taken, comp.taken, rx.seen, comp.seen,
                 Grant(fill.reserved, fill.staged), Grant(tx.reserved, tx.staged),
                 Window(rx.window, rx.readCount), Window(comp.window, comp.readCount)),
            Kern(fill.taken, held, rx.hist, arrived, tx.taken, flight, comp.hist, wire, feed))
    }

    ghost predicate Separate() {
      && mem !in Repr
      && Repr == {this, fill, fill.slots, rx, rx.slots, tx, tx.slots, comp, comp.slots}
      && fill as object != tx && rx as object != comp
      && fill.slots as object != rx.slots && fill.slots as object != tx.slots && fill.slots as object != comp.slots
      && rx.slots as object != tx.slots && rx.slots as object != comp.slots && tx.slots as object != comp.slots
    }

    ghost predicate Valid()
      reads this, Repr
      ensures Valid() ==> Owns() && this in Repr && mem !in Repr
    {
      && Separate() && Owns()
      && fill.Valid() && rx.Valid() && tx.Valid() && comp.Valid()
      && LinkInv(View())
    }

    /** Every valid link keeps the accounts of frames. */
    lemma KeepsAccounts()
      requires Valid()
      ensures LinkInv(View()) && View().cfg.bufLen == bufLen
    {
    }

    constructor (bufLen: ChunkLen, rxSize: u32, txSize: u32, fillSize: u32, compSize: u32, mem: array<byte>, feed: Feed)
      requires IsPowOfTwo(rxSize) && IsPowOfTwo(txSize) && IsPowOfTwo(fillSize) && IsPowOfTwo(compSize)
      ensures fresh(Repr)
      ensures Valid() && this.mem == mem
      ensures View() == State(Config(bufLen, fillSize, rxSize, txSize, compSize),
                              Prog([], [], 0, 0, 0, 0, Grant(0, []), Grant(0, []), Window([], 0), Window([], 0)),
                              Kern(0, [], [], [], 0, [], [], [], feed))
    {
      hide ProdRing.Valid, ConsRing.Valid, IsPowOfTwo;
      this.bufLen, this.mem, this.feed := bufLen, mem, feed;
      var f := new ProdRing<Addr>(fillSize, 0);
      var r := new ConsRing<Desc>(rxSize, Desc(0, 0));
      var t := new ProdRing<Desc>(txSize, Desc(0, 0));
      var c := new ConsRing<Addr>(compSize, 0);
      fill, rx, tx, comp := f, r, t, c;
      held, flight, wire, arrived := [], [], [], [];
      Repr := {this, f, f.slots, r, r.slots, t, t.slots, c, c.slots};
      hide RxAccounted, TxAccounted, Recorded;
      NothingAccounted(bufLen);
      new;
      assert Separate() && Owns();
      hide Separate, Owns;
      assert f.hist[..0] == [] && t.hist[..0] == [];
    }

    // The kernel's moves.

    method KernelTakeFill()
      requires Valid()
      modifies Repr
      ensures Valid() && (View() == old(View()) || TookFill(old(View()), View()))
    {
      hide LinkInv, ProdRing.Valid, ConsRing.Valid;
      ghost var before := View();
      var work := fill.KernelHasWork();
      if work {
        var a := fill.KernelTake();
        held := held + [Home(a, bufLen)];
        TookFillKeeps(before, View());
      }
    }

    /** Deliver a packet of `len` bytes into the i-th held frame, which then reads `bytes`; from a wire, it
        has to be the j-th packet there. A full Rx ring drops it instead. */
    method KernelDeliver(i: nat, len: nat, bytes: seq<byte>, j: nat)
      requires Valid()
      modifies Repr, mem
      ensures Valid()
      ensures || (View() == old(View()) && mem[..] == old(mem[..]))
              || Landed(old(View()), old(mem[..]), View(), mem[..], i, len, bytes)
    {
      hide LinkInv, ProdRing.Valid, ConsRing.Valid;
      ghost var before := View();
      var backlog := rx.KernelBacklog();
      if i < |held| && backlog < rx.size && len <= |bytes| == bufLen - RESERVED && MayArrive(feed, bytes[..len], j) {
        WriteFrame(held[i], bytes);
        rx.KernelPublish(Desc(held[i], len));
        arrived := arrived + [bytes];
        held := held[..i] + held[i + 1..];
        feed := AfterArrival(feed, j);
        DeliveredKeeps(before, View(), i, len, bytes);
      }
    }

    /** The kernel writes into a frame, if it lies in the area. */
    method WriteFrame(at: nat, bytes: seq<byte>)
      modifies mem
      ensures mem[..] == Poke(old(mem[..]), at, bytes)
    {
      if at + |bytes| <= mem.Length {
        CopyInto(mem, at, bytes);
      }
    }

    method KernelTakeTx()
      requires Valid()
      modifies Repr
      ensures Valid() && (View() == old(View()) || Departed(old(View()), mem[..], View()))
      ensures View() == old(View()) ==>
                (|| View().k.txTaken == |View().p.sent|
                 || |View().k.flight| + |View().k.compLog| == View().p.compTaken + View().cfg.compSize)
    {
      hide RxAccounted, TxAccounted, Recorded, ProdRing.Valid, ConsRing.Valid;
      ghost var before := View();
      var work := tx.KernelHasWork();
      var backlog := comp.KernelBacklog();
      if work && |flight| + backlog < comp.size {
        var d := tx.KernelTake();
        var pkt := if d.addr + d.len <= mem.Length then mem[d.addr..d.addr + d.len] else [];
        assert pkt == Cell(mem[..], d.addr, d.len);
        flight := flight + [d.addr];
        wire := wire + [pkt];
        TookTxKeeps(before, View(), pkt);
      }
    }

    method KernelComplete(i: nat)
      requires Valid()
      modifies Repr
      ensures Valid()
      ensures if i < |old(View()).k.flight| then Finished(old(View()), View(), i) else View() == old(View())
    {
      hide RxAccounted, TxAccounted, Recorded, ProdRing.Valid, ConsRing.Valid;
      ghost var before := View();
      if i < |flight| {
        comp.KernelPublish(flight[i]);
        flight := flight[..i] + flight[i + 1..];
        FinishedKeeps(before, View(), i);
      }
    }

    /** Everything still on the wire is lost and nothing new arrives. */
    method FallSilent()
      requires Valid()
      modifies Repr
      ensures Valid() && FellSilent(old(View()), View())
    {
      hide ProdRing.Valid, ConsRing.Valid;
      ghost var before := View();
      feed := Hush(feed);
      FellSilentKeeps(before, View());
    }

    /** The other end's wire has grown. */
    method Offer(packets: seq<Packet>)
      requires Valid() && feed.Only? && feed.packets <= packets
      modifies Repr
      ensures Valid() && feed == Only(packets, old(feed).next)
      ensures View() == old(View()).(k := old(View()).k.(feed := Only(packets, old(View()).k.feed.next)))
    {
      hide ProdRing.Valid, ConsRing.Valid, RxAccounted, TxAccounted, Recorded;
      feed := Only(packets, feed.next);
    }

    /** One kernel move, whichever it likes. */
    method KernelStep()
      requires Valid()
      modifies Repr, mem
      ensures Valid() && KernelMove(old(View()), old(mem[..]), View(), mem[..])
    {
      hide Valid, Owns, View, TookFill, Landed, Departed, Finished, FellSilent;
      var move: nat, i: nat, len: nat, j: nat := *, *, *, *;
      if move == 0 {
        KernelTakeFill();
      } else if move == 1 {
        var bytes: seq<byte> := *;
        KernelDeliver(i, len, bytes, j);
        if View() != old(View()) || mem[..] != old(mem[..]) {
          LandedIsMove(old(View()), old(mem[..]), View(), mem[..], i, len, bytes);
        }
      } else if move == 2 {
        KernelTakeTx();
      } else if move == 3 {
        KernelComplete(i);
      } else {
        FallSilent();
      }
    }

    /** Any number of kernel moves, in the middle of an operation that started in `s` and has brought the
        program's side to `p`, showing the kernel nothing yet. `ks` is what the kernel did so far. */
    method KernelRun(ghost s: State, ghost p: Prog, ghost ks: seq<Snap>) returns (ghost more: seq<Snap>)
      requires Valid() && Ran(s, p, ks, View(), mem[..]) && SameToKernel(s.p, p)
      modifies Repr, mem
      ensures Valid() && Ran(s, p, more, View(), mem[..])
      ensures ks != [] && more != [] && more[0] == ks[0]
    {
      hide Valid, Owns, View, KernelMove, Trace;
      more := ks;
      var moves: nat := *;
      while moves > 0
        invariant Valid() && Ran(s, p, more, View(), mem[..]) && more != [] && more[0] == ks[0]
      {
        ghost var before, was := View(), mem[..];
        KernelStep();
        ghost var x, y := Last(more), Snap(View().k, mem[..]);
        SidesOnly(before, was, View(), mem[..]);
        assert before == s.(p := p, k := x.k) && View() == s.(p := p, k := y.k);
        NextSeen(s, p, x, y);
        TraceExtends(s, more, y);
        more := more + [y];
        moves := moves - 1;
      }
    }

    /** The kernel does all the transmit work it has room for. `ks` is what it did, move by move. */
    method KernelTransmit() returns (ghost ks: seq<Snap>)
      requires Valid()
      modifies Repr
      ensures Valid() && Moved(old(View()), View())
      ensures ks != [] && ks[0] == Snap(old(View()).k, mem[..]) && Ran(old(View()), old(View()).p, ks, View(), mem[..])
      ensures View().k.flight == []
      ensures View().k.txTaken >= |View().p.sent| ||
              |View().k.compLog| >= View().p.compTaken + View().cfg.compSize
    {
      hide Valid, Owns, View, Moved, LinkInv, Trace;
      ghost var start := View();
      RanNothing(start, mem[..]);
      ks := [Snap(start.k, mem[..])];
      var more := true;
      KeepsAccounts();
      while more
        invariant Valid() && Ran(start, start.p, ks, View(), mem[..]) && ks != [] && ks[0] == Snap(start.k, mem[..])
        invariant View().k.txTaken <= |start.p.sent|
        invariant more || View().k.flight == []
        invariant more || View().k.txTaken >= |View().p.sent| ||
                  |View().k.compLog| >= View().p.compTaken + View().cfg.compSize
        decreases more, |start.p.sent| - View().k.txTaken
      {
        ks := KernelCompleteAll(start, ks);
        ghost var before := View();
        KernelTakeTx();
        ks := RanOneMore(start, ks, before, View(), mem[..]);
        InFlight();
        more := |flight| > 0;
        KeepsAccounts();
        TxWithin(View());
      }
      KeepsAccounts();
      RanMoved(start, start.p, ks, View(), mem[..]);
    }

    lemma InFlight()
      requires Valid()
      ensures View().k.flight == flight
    {
    }

    method KernelCompleteAll(ghost start: State, ghost ks: seq<Snap>) returns (ghost more: seq<Snap>)
      requires Valid() && Ran(start, start.p, ks, View(), mem[..])
      modifies Repr
      ensures Valid() && Ran(start, start.p, more, View(), mem[..]) && ks != [] && more != [] && more[0] == ks[0]
      ensures View().k.flight == [] && View().k.txTaken == old(View()).k.txTaken
    {
      hide Valid, Owns, View, Moved, LinkInv, Trace;
      more := ks;
      InFlight();
      while |flight| > 0
        invariant Valid() && Ran(start, start.p, more, View(), mem[..]) && more != [] && more[0] == ks[0]
        invariant View().k.txTaken == old(View()).k.txTaken && View().k.flight == flight
        decreases |flight|
      {
        ghost var before := View();
        KernelComplete(0);
        more := RanOneMore(start, more, before, View(), mem[..]);
        InFlight();
      }
    }

    // The ring calls of libbpf, as actions on the link.

    method FillReserve(n: nat) returns (granted: nat, idx: u32)
      requires Valid() && View().p.fillOp == Grant(0, [])
      modifies Repr
      ensures Valid() && View() == old(View()).(p := old(View()).p.(fillOp := Grant(granted, [])))
      ensures granted == 0 || granted == n
      ensures granted == n <==> n == 0 || |View().p.filled| - View().k.fillTaken + n <= View().cfg.fillSize
      ensures granted > 0 ==> idx == Wrap(|View().p.filled|)
    {
      hide RxAccounted, TxAccounted, Recorded, ProdRing.Valid, ConsRing.Valid;
      granted, idx := fill.Reserve(n);
    }

    method FillWrite(idx: u32, a: Addr)
      requires Valid() && |View().p.fillOp.staged| < View().p.fillOp.reserved
      requires idx == Wrap(|View().p.filled| + |View().p.fillOp.staged|)
      modifies Repr
      ensures Valid()
      ensures var p := old(View()).p;
        View() == old(View()).(p := p.(fillOp := Grant(p.fillOp.reserved, p.fillOp.staged + [a])))
    {
      hide RxAccounted, TxAccounted, Recorded, ProdRing.Valid, ConsRing.Valid;
      fill.WriteSlot(idx, a);
    }

    method FillSubmit(n: nat)
      requires Valid() && n == View().p.fillOp.reserved == |View().p.fillOp.staged|
      modifies Repr
      ensures Valid()
      ensures var p := old(View()).p;
        View() == old(View()).(p := p.(filled := p.filled + p.fillOp.staged, fillOp := Grant(0, [])))
    {
      hide RxAccounted, TxAccounted, Recorded, ProdRing.Valid, ConsRing.Valid;
      ghost var before := fill.hist[..fill.taken];
      fill.Submit(n);
      assert fill.hist[..fill.taken] == before;
    }

    method TxReserve(n: nat) returns (granted: nat, idx: u32)
      requires Valid() && View().p.txOp == Grant(0, [])
      modifies Repr
      ensures Valid() && View() == old(View()).(p := old(View()).p.(txOp := Grant(granted, [])))
      ensures granted == 0 || granted == n
      ensures granted == n <==> n == 0 || |View().p.sent| - View().k.txTaken + n <= View().cfg.txSize
      ensures granted > 0 ==> idx == Wrap(|View().p.sent|)
    {
      hide RxAccounted, TxAccounted, Recorded, ProdRing.Valid, ConsRing.Valid;
      granted, idx := tx.Reserve(n);
    }

    method TxWrite(idx: u32, d: Desc)
      requires Valid() && |View().p.txOp.staged| < View().p.txOp.reserved
      requires idx == Wrap(|View().p.sent| + |View().p.txOp.staged|)
      modifies Repr
      ensures Valid()
      ensures var p := old(View()).p;
        View() == old(View()).(p := p.(txOp := Grant(p.txOp.reserved, p.txOp.staged + [d])))
    {
      hide RxAccounted, TxAccounted, Recorded, ProdRing.Valid, ConsRing.Valid;
      tx.WriteSlot(idx, d);
    }

    method TxSubmit(n: nat)
      requires Valid() && n == View().p.txOp.reserved == |View().p.txOp.staged|
      modifies Repr
      ensures Valid()
      ensures var p := old(View()).p;
        View() == old(View()).(p := p.(sent := p.sent + p.txOp.staged, txOp := Grant(0, [])))
    {
      hide RxAccounted, TxAccounted, Recorded, ProdRing.Valid, ConsRing.Valid;
      ghost var before := tx.hist[..tx.taken];
      tx.Submit(n);
      assert tx.hist[..tx.taken] == before;
    }

    method RxPeek(n: nat) returns (granted: nat, idx: u32)
      requires Valid() && View().p.rxOp == Window([], 0)
      modifies Repr
      ensures Valid()
      ensures var p, q := old(View()).p, View().p;
        View() == old(View()).(p := p.(rxOp := Window(q.rxOp.entries, 0), rxSeen := q.rxSeen))
      ensures granted == |View().p.rxOp.entries| && RxGrants(old(View()), View(), granted, n)
      ensures granted > 0 ==> idx == Wrap(View().p.rxTaken)
    {
      hide RxAccounted, TxAccounted, Recorded, ProdRing.Valid, ConsRing.Valid;
      granted, idx := rx.Peek(n);
    }

    method RxRead(idx: u32) returns (d: Desc)
      requires Valid() && View().p.rxOp.read < |View().p.rxOp.entries|
      requires idx == Wrap(View().p.rxTaken + View().p.rxOp.read)
      modifies Repr
      ensures Valid()
      ensures var p := old(View()).p;
        View() == old(View()).(p := p.(rxOp := Window(p.rxOp.entries, p.rxOp.read + 1)))
      ensures d == View().p.rxOp.entries[old(View()).p.rxOp.read] && d.len <= 0xFFFF
    {
      hide TxAccounted, Recorded, ProdRing.Valid, ConsRing.Valid;
      d := rx.ReadSlot(idx);
    }

    method RxRelease(n: nat)
      requires Valid() && n == |View().p.rxOp.entries| == View().p.rxOp.read
      modifies Repr
      ensures Valid()
      ensures View() == old(View()).(p := old(View()).p.(rxTaken := old(View()).p.rxTaken + n, rxOp := Window([], 0)))
      ensures View().p.rxTaken <= |View().k.rxLog|
      ensures View().k.rxLog[old(View()).p.rxTaken..View().p.rxTaken] == old(View()).p.rxOp.entries
    {
      hide RxAccounted, TxAccounted, Recorded, ProdRing.Valid, ConsRing.Valid;
      rx.Release(n);
    }

    method CompPeek(n: nat) returns (granted: nat, idx: u32)
      requires Valid() && View().p.compOp == Window([], 0)
      modifies Repr
      ensures Valid()
      ensures var p, q := old(View()).p, View().p;
        View() == old(View()).(p := p.(compOp := Window(q.compOp.entries, 0), compSeen := q.compSeen))
      ensures granted == |View().p.compOp.entries| && CompGrants(old(View()), View(), granted, n)
      ensures granted > 0 ==> idx == Wrap(View().p.compTaken)
    {
      hide RxAccounted, TxAccounted, Recorded, ProdRing.Valid, ConsRing.Valid;
      granted, idx := comp.Peek(n);
    }

    method CompRead(idx: u32) returns (a: Addr)
      requires Valid() && View().p.compOp.read < |View().p.compOp.entries|
      requires idx == Wrap(View().p.compTaken + View().p.compOp.read)
      modifies Repr
      ensures Valid()
      ensures var p := old(View()).p;
        View() == old(View()).(p := p.(compOp := Window(p.compOp.entries, p.compOp.read + 1)))
      ensures a == View().p.compOp.entries[old(View()).p.compOp.read]
    {
      hide RxAccounted, TxAccounted, Recorded, ProdRing.Valid, ConsRing.Valid;
      a := comp.ReadSlot(idx);
    }

    method CompRelease(n: nat)
      requires Valid() && n == |View().p.compOp.entries| == View().p.compOp.read
      modifies Repr
      ensures Valid()
      ensures var p := old(View()).p;
        View() == old(View()).(p := p.(compTaken := p.compTaken + n, compOp := Window([], 0)))
      ensures View().p.compTaken <= |View().k.compLog|
      ensures View().k.compLog[old(View()).p.compTaken..View().p.compTaken] == old(View()).p.compOp.entries
    {
      hide RxAccounted, TxAccounted, Recorded, ProdRing.Valid, ConsRing.Valid;
      comp.Release(n);
    }
  }
}
