/** The veth test as a whole: two workers, each on its end of the wire, taking turns in any order, part by
    part of their loop bodies. What each does is a run of module Integrity, so the test's counters of
    packets out of order and of bad hashes stay zero. */
module VethTest {
  import opened Frames
  import opened Memory
  import opened LinkState
  import opened BiDirHash
  import opened Veth
  import opened VethWorker
  import opened Integrity
  import MmapArea

  /** The worker is in the state `e`. */
  ghost predicate Matches(w: Worker, e: End)
    requires w.Apart()
    reads w, w.Repr
  {
    && w.Repr >= {w.mem, w.port}
    && e == End(w.View(), w.facts, w.mem[..], w.port.hashes,
                Checks(w.port.lastReceivedSeq, w.port.outOfOrder, w.port.badHash), e.queued, e.picks)
    && |e.queued| + 1 == w.port.seqNo
  }

  /** All that the test sees of a worker: its state, the area's bytes, the books of its port and which part of
      the loop body is next. */
  datatype Seat = Seat(port: Port, mem: seq<byte>, hashes: map<nat, nat>, checks: Checks,
                       received: nat, transmitted: nat, stage: nat)

  ghost function SeatOf(w: Worker): (s: Seat)
    requires w.Apart()
    reads w, w.Repr
    ensures s.port == w.View() && s.stage == w.stage
  {
    Seat(w.View(), w.mem[..], w.port.hashes, Checks(w.port.lastReceivedSeq, w.port.outOfOrder, w.port.badHash),
         w.port.received, w.port.transmitted, w.stage)
  }

  /** What one part of the loop body did: how much, which packets the test queued and with which frames, and
      whether a burst was due. */
  datatype Part = Part(amount: nat, pkts: seq<Packet>, frames: seq<seq<byte>>, due: bool)

  /** The worker after it heard what the other end has put on the wire. */
  function Hearing(p: Port, o: Port): Port {
    if p.link.k.feed.Any? then p
    else p.(link := p.link.(k := p.link.k.(feed := Only(o.link.k.wire, p.link.k.feed.next))))
  }

  /** The part of the loop body that was next was done, to its full amount, and nothing else. */
  ghost predicate TookPart(s: Seat, o: Seat, t: Seat, x: Part, rules: Rules) {
    var p := Hearing(s.port, o.port);
    && s.stage < 6 && t.stage == (s.stage + 1) % 6
    && (s.stage == 0 ==> DidService(p, t.port, x.amount) && ServesEnough(p, t.port, x.amount))
    && (s.stage == 1 ==> DidReceive(p, t.port, x.amount) && ReceivesEnough(p, t.port, x.amount))
    && (s.stage == 2 ==> Checked(s, o, p, t, rules.hasher))
    && (s.stage == 3 ==> QueuedBurst(s, p, t, x, rules))
    && (s.stage == 4 ==> DidSend(p, t.port, x.amount) && SendsEnough(p, x.amount))
    && (s.stage == 5 ==> DidFill(p, t.port, x.amount) && FillsEnough(p, x.amount))
    && (s.stage != 2 ==> t.checks == s.checks && t.received == s.received)
    && (s.stage != 3 ==> t.hashes == s.hashes && t.transmitted == s.transmitted)
  }

  /** The test looked at every received packet in order. */
  ghost predicate Checked(s: Seat, o: Seat, p: Port, t: Seat, hasher: Hasher) {
    && DidCheck(p, t.port) && t.mem == s.mem && t.received == s.received + |p.inbox|
    && Legible(p.inbox, s.mem) && t.checks == CheckAll(s.checks, Arrivals(p.inbox, s.mem), o.hashes, hasher)
  }

  /** The test queued a burst by its rule. */
  ghost predicate QueuedBurst(s: Seat, p: Port, t: Seat, x: Part, rules: Rules) {
    && DidTransmit(p, t.port, x.pkts) && t.transmitted == s.transmitted + |x.pkts| && |p.outbox| <= 4096
    && ByTheRule(|x.pkts|, rules.total, rules.burst, s.transmitted, x.due, 4096 - |p.outbox|, |p.bufs|)
    && Wrote(p.bufs, x.pkts, x.frames, s.mem, t.mem)
    && Hashed(s.hashes, s.transmitted + 1, x.pkts, t.hashes, rules.hasher)
  }

  /** States of one end, each one step after the last, while the other end is in `o`. */
  ghost predicate Chain(ends: seq<End>, o: End, hasher: Hasher) {
    ends != [] && forall j :: 0 <= j < |ends| - 1 ==> EndStep(ends[j], o, ends[j + 1], hasher)
  }

  lemma ChainOn(ends: seq<End>, o: End, r: End, hasher: Hasher)
    requires Chain(ends, o, hasher) && EndStep(ends[|ends| - 1], o, r, hasher)
    ensures Chain(ends + [r], o, hasher)
  {
    hide EndStep;
    var all := ends + [r];
    forall j | 0 <= j < |all| - 1 ensures EndStep(all[j], o, all[j + 1], hasher) {
      if j < |ends| - 1 {
        assert EndStep(ends[j], o, ends[j + 1], hasher);
      }
    }
  }

  /** The end after the kernel went from its state to `x`. */
  function EndAt(e: End, x: Snap): End {
    e.(port := e.port.(link := e.port.link.(k := x.k)), mem := x.mem, picks := PicksAfter(e.picks, e.Kernel(), x.k))
  }

  /** The end while the kernel makes its moves. */
  function EndsAlong(ends: seq<End>, ks: seq<Snap>): (r: seq<End>)
    requires ends != [] && ks != []
    ensures |r| >= |ends| && r[0] == ends[0]
    decreases |ks|
  {
    if |ks| == 1 then ends
    else
      var before := EndsAlong(ends, ks[..|ks| - 1]);
      before + [EndAt(before[|before| - 1], Last(ks))]
  }

  /** What the kernel does during an operation is a chain. */
  lemma {:induction false} KernelChain(ends: seq<End>, o: End, ks: seq<Snap>, hasher: Hasher)
    requires ends != [] && Chain(ends, o, hasher) && ks != []
    requires var e := ends[|ends| - 1]; Trace(e.port.link, ks) && ks[0] == Snap(e.Kernel(), e.mem)
    ensures Chain(EndsAlong(ends, ks), o, hasher)
    ensures var e, r := ends[|ends| - 1], EndsAlong(ends, ks)[|EndsAlong(ends, ks)| - 1];
            r == e.(port := Before(e.port, ks), mem := Last(ks).mem, picks := r.picks)
    decreases |ks|
  {
    hide KernelMove, Chain;
    var e := ends[|ends| - 1];
    if |ks| == 1 {
      assert Before(e.port, ks) == e.port;
    } else {
      var some := ks[..|ks| - 1];
      assert Next(e.port.link, ks[|ks| - 2], ks[|ks| - 2 + 1]);
      KernelChain(ends, o, some, hasher);
      var before := EndsAlong(ends, some);
      var l := before[|before| - 1];
      NextAfter(e.port.link, Last(some), Last(ks));
      assert KernelMoved(l, EndAt(l, Last(ks)));
      ChainOn(before, o, EndAt(l, Last(ks)), hasher);
    }
  }

  /** An operation of the worker is a chain: the kernel's moves, then the operation's effect. */
  lemma OperationChain(ends: seq<End>, o: End, ks: seq<Snap>, q: Port, hasher: Hasher) returns (all: seq<End>)
    requires ends != [] && Chain(ends, o, hasher)
    requires var e := ends[|ends| - 1];
      && ks != [] && KernelRan(e.port, e.mem, ks, Last(ks).mem) && q.link.k == Last(ks).k
      && (|| (exists k: nat :: DidService(Before(e.port, ks), q, k))
          || (exists k: nat :: DidReceive(Before(e.port, ks), q, k))
          || (exists k: nat :: DidSend(Before(e.port, ks), q, k))
          || (exists k: nat :: DidFill(Before(e.port, ks), q, k)))
    ensures all != [] && Chain(all, o, hasher) && all[0] == ends[0]
    ensures var e, r := ends[|ends| - 1], all[|all| - 1];
            r == e.(port := q, mem := Last(ks).mem, picks := r.picks)
  {
    hide Chain, Trace, DidService, DidReceive, DidSend, DidFill;
    KernelChain(ends, o, ks, hasher);
    var before := EndsAlong(ends, ks);
    var m := before[|before| - 1];
    var r := m.(port := q);
    if k: nat :| DidService(m.port, q, k) {
      assert Serviced(m, r, k);
    } else if k: nat :| DidReceive(m.port, q, k) {
      assert ReceivedSome(m, r, k);
    } else if k: nat :| DidSend(m.port, q, k) {
      assert SentSome(m, r, k);
    } else {
      var k: nat :| DidFill(m.port, q, k);
      assert FilledSome(m, r, k);
    }
    ChainOn(before, o, r, hasher);
    all := before + [r];
  }

  /** The worker's next part, while the other worker stands still. What it hears is what the other end has
      put on the wire so far. */
  method Advance(w: Worker, o: Worker, due: bool, ghost e: End, ghost f: End)
    returns (ghost ends: seq<End>, ghost x: Part)
    requires w.Valid() && o.Valid() && w.Repr !! o.Repr && w.other == o.port
    requires Matches(w, e) && Matches(o, f) && Fed(e, f)
    modifies w.Repr
    ensures w.Valid() && TookPart(old(SeatOf(w)), old(SeatOf(o)), SeatOf(w), x, Rules(w.total, w.burst, w.hasher))
    ensures x.due == due
    ensures ends != [] && ends[0] == e && Chain(ends, f, w.hasher) && Matches(w, ends[|ends| - 1])
  {
    hide Worker.Valid, Worker.Apart, Worker.View, Chain, EndStep, SeatOf, Matches;
    hide DidCheck, Legible, Arrivals, CheckAll, DidTransmit, ByTheRule, Wrote, Hashed;
    hide DidService, DidReceive, DidSend, DidFill, ServesEnough, ReceivesEnough, SendsEnough, FillsEnough;
    ends := Listen(w, o, e, f);
    ghost var heard := SeatOf(w);
    x := Part(0, [], [], due);
    if w.stage == 0 {
      var n;
      ends, n := ServiceStage(w, ends, f);
      x := x.(amount := n);
    } else if w.stage == 1 {
      var n;
      ends, n := ReceiveStage(w, ends, f);
      x := x.(amount := n);
    } else if w.stage == 2 {
      ends := CheckStage(w, o, ends, f);
    } else if w.stage == 3 {
      ghost var pkts, frames;
      ends, pkts, frames := TransmitStage(w, due, ends, f);
      x := x.(pkts := pkts, frames := frames);
    } else if w.stage == 4 {
      var n;
      ends, n := SendStage(w, ends, f);
      x := x.(amount := n);
    } else {
      var n;
      ends, n := FillStage(w, ends, f);
      x := x.(amount := n);
    }
    Onward(w, ends[|ends| - 1]);
  }

  method Listen(w: Worker, o: Worker, ghost e: End, ghost f: End) returns (ghost ends: seq<End>)
    requires w.Valid() && o.Valid() && w.Repr !! o.Repr
    requires Matches(w, e) && Matches(o, f) && Fed(e, f)
    modifies w.Repr
    ensures w.Valid() && SeatOf(w) == old(SeatOf(w)).(port := Hearing(old(SeatOf(w)).port, old(SeatOf(o)).port))
    ensures ends != [] && ends[0] == e && Chain(ends, f, w.hasher) && Matches(w, ends[|ends| - 1])
  {
    hide Worker.Valid, Worker.View, EndStep;
    w.KeepsSound();
    o.KeepsSound();
    w.Hear(o.link.wire);
    ghost var r := e.(port := w.View());
    assert Offered(e, f, r);
    ends := [e, r];
    assert EndStep(e, f, r, w.hasher) by { OfferIsStep(e, f, r, w.hasher); }
  }

  lemma OfferIsStep(e: End, o: End, r: End, hasher: Hasher)
    requires Offered(e, o, r)
    ensures EndStep(e, o, r, hasher)
  {
  }

  method ServiceStage(w: Worker, ghost before: seq<End>, ghost f: End) returns (ghost ends: seq<End>, n: nat)
    requires w.Valid() && before != [] && Chain(before, f, w.hasher) && Matches(w, before[|before| - 1])
    modifies w.Repr
    ensures w.Valid() && SeatOf(w) == old(SeatOf(w)).(port := w.View(), mem := w.mem[..])
    ensures DidService(old(w.View()), w.View(), n) && ServesEnough(old(w.View()), w.View(), n)
    ensures ends != [] && ends[0] == before[0] && Chain(ends, f, w.hasher) && Matches(w, ends[|ends| - 1])
  {
    hide Worker.Valid, Worker.View, Chain, DidService, Trace, ServesEnough;
    ghost var ks;
    n, ks := w.ServicePart();
    ends := OperationChain(before, f, ks, w.View(), w.hasher);
  }

  method ReceiveStage(w: Worker, ghost before: seq<End>, ghost f: End) returns (ghost ends: seq<End>, n: nat)
    requires w.Valid() && before != [] && Chain(before, f, w.hasher) && Matches(w, before[|before| - 1])
    modifies w.Repr
    ensures w.Valid() && SeatOf(w) == old(SeatOf(w)).(port := w.View(), mem := w.mem[..])
    ensures DidReceive(old(w.View()), w.View(), n) && ReceivesEnough(old(w.View()), w.View(), n)
    ensures ends != [] && ends[0] == before[0] && Chain(ends, f, w.hasher) && Matches(w, ends[|ends| - 1])
  {
    hide Worker.Valid, Worker.View, Chain, DidReceive, Trace, ReceivesEnough;
    ghost var ks;
    n, ks := w.ReceivePart();
    ends := OperationChain(before, f, ks, w.View(), w.hasher);
  }

  method SendStage(w: Worker, ghost before: seq<End>, ghost f: End) returns (ghost ends: seq<End>, n: nat)
    requires w.Valid() && before != [] && Chain(before, f, w.hasher) && Matches(w, before[|before| - 1])
    modifies w.Repr
    ensures w.Valid() && SeatOf(w) == old(SeatOf(w)).(port := w.View(), mem := w.mem[..])
    ensures DidSend(old(w.View()), w.View(), n) && SendsEnough(old(w.View()), n)
    ensures ends != [] && ends[0] == before[0] && Chain(ends, f, w.hasher) && Matches(w, ends[|ends| - 1])
  {
    hide Worker.Valid, Worker.View, Chain, DidSend, Trace, SendsEnough;
    ghost var ks;
    n, ks := w.SendPart();
    ends := OperationChain(before, f, ks, w.View(), w.hasher);
  }

  method FillStage(w: Worker, ghost before: seq<End>, ghost f: End) returns (ghost ends: seq<End>, n: nat)
    requires w.Valid() && before != [] && Chain(before, f, w.hasher) && Matches(w, before[|before| - 1])
    modifies w.Repr
    ensures w.Valid() && SeatOf(w) == old(SeatOf(w)).(port := w.View(), mem := w.mem[..])
    ensures DidFill(old(w.View()), w.View(), n) && FillsEnough(old(w.View()), n)
    ensures ends != [] && ends[0] == before[0] && Chain(ends, f, w.hasher) && Matches(w, ends[|ends| - 1])
  {
    hide Worker.Valid, Worker.View, Chain, DidFill, Trace, FillsEnough;
    ghost var ks;
    n, ks := w.FillPart();
    ends := OperationChain(before, f, ks, w.View(), w.hasher);
  }

  method CheckStage(w: Worker, o: Worker, ghost before: seq<End>, ghost f: End) returns (ghost ends: seq<End>)
    requires w.Valid() && before != [] && Chain(before, f, w.hasher) && Matches(w, before[|before| - 1])
    requires o.Valid() && w.Repr !! o.Repr && w.other == o.port && Matches(o, f)
    modifies w.Repr
    ensures w.Valid() && SeatOf(w).stage == old(w.stage)
    ensures SeatOf(w).hashes == old(SeatOf(w)).hashes && SeatOf(w).transmitted == old(SeatOf(w)).transmitted
    ensures Checked(old(SeatOf(w)), old(SeatOf(o)), old(w.View()), SeatOf(w), w.hasher)
    ensures ends != [] && ends[0] == before[0] && Chain(ends, f, w.hasher) && Matches(w, ends[|ends| - 1])
  {
    hide Worker.Valid, Chain, EndStep, CheckAll, Arrivals, Legible;
    ghost var e := before[|before| - 1];
    w.CheckPart();
    ghost var r := e.(port := w.View(), checks := Checks(w.port.lastReceivedSeq, w.port.outOfOrder, w.port.badHash));
    assert CheckedAll(e, f, r, w.hasher);
    CheckIsStep(e, f, r, w.hasher);
    ChainOn(before, f, r, w.hasher);
    ends := before + [r];
  }

  lemma CheckIsStep(e: End, o: End, r: End, hasher: Hasher)
    requires CheckedAll(e, o, r, hasher)
    ensures EndStep(e, o, r, hasher)
  {
  }

  method TransmitStage(w: Worker, due: bool, ghost before: seq<End>, ghost f: End)
    returns (ghost ends: seq<End>, ghost pkts: seq<Packet>, ghost frames: seq<seq<byte>>)
    requires w.Valid() && before != [] && Chain(before, f, w.hasher) && Matches(w, before[|before| - 1])
    modifies w.Repr
    ensures w.Valid() && SeatOf(w).stage == old(w.stage)
    ensures SeatOf(w).checks == old(SeatOf(w)).checks && SeatOf(w).received == old(SeatOf(w)).received
    ensures QueuedBurst(old(SeatOf(w)), old(w.View()), SeatOf(w), Part(0, pkts, frames, due),
                        Rules(w.total, w.burst, w.hasher))
    ensures ends != [] && ends[0] == before[0] && Chain(ends, f, w.hasher) && Matches(w, ends[|ends| - 1])
  {
    hide Worker.Valid, Chain, EndStep, Wrote, Hashed, BurstCount, ByTheRule;
    ghost var e := before[|before| - 1];
    w.BooksOf();
    var n;
    n, pkts, frames := w.TransmitPart(due);
    ghost var r := e.(port := w.View(), mem := w.mem[..], hashes := w.port.hashes, queued := e.queued + pkts);
    assert QueuedSome(e, r, pkts, frames, w.hasher);
    QueuedIsStep(e, f, r, pkts, frames, w.hasher);
    ChainOn(before, f, r, w.hasher);
    ends := before + [r];
  }

  lemma QueuedIsStep(e: End, o: End, r: End, pkts: seq<Packet>, frames: seq<seq<byte>>, hasher: Hasher)
    requires QueuedSome(e, r, pkts, frames, hasher)
    ensures EndStep(e, o, r, hasher)
  {
  }

  /** On to the next part. */
  method Onward(w: Worker, ghost e: End)
    requires w.Valid() && Matches(w, e)
    modifies w`stage
    ensures w.Valid() && Matches(w, e) && SeatOf(w) == old(SeatOf(w)).(stage := (old(w.stage) + 1) % 6)
  {
    hide Worker.Valid, Worker.View;
    w.NextStage();
  }

  /** States of the whole test while one end moves. */
  function Worlds(ends: seq<End>, o: End, first: bool): (r: seq<World>)
    ensures |r| == |ends|
  {
    seq(|ends|, i requires 0 <= i < |ends| => if first then World(ends[i], o) else World(o, ends[i]))
  }

  lemma RunOn(run: seq<World>, ends: seq<End>, first: bool, hasher: Hasher)
    requires IsRun(run, hasher) && ends != []
    requires var w := run[|run| - 1];
             ends[0] == (if first then w.one else w.two) && Chain(ends, if first then w.two else w.one, hasher)
    ensures var w := run[|run| - 1];
            var more := Worlds(ends[1..], if first then w.two else w.one, first);
            && IsRun(run + more, hasher)
            && (run + more)[|run + more| - 1] ==
                 if first then w.(one := ends[|ends| - 1]) else w.(two := ends[|ends| - 1])
  {
    hide EndStep, Fresh;
    var w, n := run[|run| - 1], |run|;
    var o := if first then w.two else w.one;
    var all := run + Worlds(ends[1..], o, first);
    forall j | 0 <= j < |all| - 1 ensures Step(all[j], all[j + 1], hasher) {
      if j < n - 1 {
        assert Step(run[j], run[j + 1], hasher);
      } else {
        var i := j - (n - 1);
        assert EndStep(ends[i], o, ends[i + 1], hasher);
        assert all[j] == (if first then World(ends[i], o) else World(o, ends[i]));
        assert all[j + 1] == (if first then World(ends[i + 1], o) else World(o, ends[i + 1]));
      }
    }
  }

  /** The two workers and the test object they share. */
  class Bench {
    const one: Worker
    const two: Worker
    const hasher: Hasher

    ghost var run: seq<World>   // the test so far

    ghost predicate Valid()
      reads this, one, one.Repr, two, two.Repr
      ensures Valid() ==> one.Apart() && two.Apart()
    {
      && one.Valid() && two.Valid() && one.Repr !! two.Repr && this !in one.Repr + two.Repr
      && one.other == two.port && two.other == one.port && one.hasher == two.hasher == hasher
      && run != [] && IsRun(run, hasher)
      && Matches(one, run[|run| - 1].one) && Matches(two, run[|run| - 1].two)
    }

    constructor (one: Worker, two: Worker)
      requires one.Valid() && two.Valid() && one.Repr !! two.Repr
      requires one.other == two.port && two.other == one.port && one.hasher == two.hasher
      requires AtStart(one.View()) && AtStart(two.View())
      requires Unused(one.port) && Unused(two.port)
      ensures Valid() && this.one == one && this.two == two && hasher == one.hasher
    {
      hide Worker.Valid, Worker.View, AtStart, Fresh;
      this.one, this.two, hasher := one, two, one.hasher;
      var e := End(one.View(), one.facts, one.mem[..], map[], Checks(0, 0, 0), [], []);
      var f := End(two.View(), two.facts, two.mem[..], map[], Checks(0, 0, 0), [], []);
      run := [World(e, f)];
      new;
      StartFresh(one);
      StartFresh(two);
    }

    /** In every state both ports' counters of errors are zero. */
    lemma NoErrors()
      requires Valid()
      ensures one.port.outOfOrder == one.port.badHash == 0
      ensures two.port.outOfOrder == two.port.badHash == 0
      ensures Intact(run[|run| - 1].one, run[|run| - 1].two, hasher)
    {
      hide Worker.Valid, Worker.View, IsRun, Intact;
      EveryRunIntact(run, |run| - 1, hasher);
    }

    /** What the test sees of both workers. */
    ghost function Seats(): Pair
      requires one.Apart() && two.Apart()
      reads this, one, one.Repr, two, two.Repr
    {
      Pair(SeatOf(one), SeatOf(two))
    }

    /** One worker takes its next part; the other stands still. */
    method Turn(first: bool, due: bool) returns (ghost x: Part)
      requires Valid()
      modifies this`run, one.Repr, two.Repr
      ensures Valid() && old(run) <= run
      ensures Turned(old(Seats()), Seats(), Go(first, due), x, Rules(one.total, one.burst, hasher),
                     Rules(two.total, two.burst, hasher))
    {
      hide Worker.Valid, Worker.Apart, Worker.View, Chain, IsRun, Intact, Fed, TookPart, SeatOf;
      NoErrors();
      ghost var w := run[|run| - 1];
      BothFed(w, hasher);
      ghost var ends;
      if first {
        ends, x := Advance(one, two, due, w.one, w.two);
        RunOn(run, ends, true, hasher);
        run := run + Worlds(ends[1..], w.two, true);
      } else {
        ends, x := Advance(two, one, due, w.two, w.one);
        RunOn(run, ends, false, hasher);
        run := run + Worlds(ends[1..], w.one, false);
      }
    }

    /** The workers take turns in any order. `seats` is what the test sees between the turns, and `parts` what
        each turn did. */
    method Run(schedule: seq<Go>) returns (ghost seats: seq<Pair>, ghost parts: seq<Part>)
      requires Valid()
      modifies this`run, one.Repr, two.Repr
      ensures Valid() && old(run) <= run
      ensures one.port.outOfOrder == one.port.badHash == 0
      ensures two.port.outOfOrder == two.port.badHash == 0
      ensures TookTurns(seats, parts, schedule, Rules(one.total, one.burst, hasher),
                        Rules(two.total, two.burst, hasher))
      ensures seats[0] == old(Seats()) && seats[|schedule|] == Seats()
    {
      hide Valid, Turned, Seats;
      seats, parts := [Seats()], [];
      for i := 0 to |schedule|
        invariant Valid() && old(run) <= run
        invariant |seats| == i + 1 && |parts| == i && seats[0] == old(Seats()) && seats[i] == Seats()
        invariant TookTurns(seats, parts, schedule[..i], Rules(one.total, one.burst, hasher),
                            Rules(two.total, two.burst, hasher))
      {
        ghost var x := Turn(schedule[i].first, schedule[i].due);
        OneTurnMore(seats, parts, schedule, i, Seats(), x, Rules(one.total, one.burst, hasher),
                    Rules(two.total, two.burst, hasher));
        seats, parts := seats + [Seats()], parts + [x];
      }
      assert schedule[..|schedule|] == schedule;
      NoErrors();
    }
  }

  datatype Pair = Pair(one: Seat, two: Seat)

  /** Whose turn it is, and whether the clock allows a burst. */
  datatype Go = Go(first: bool, due: bool)

  /** The worker whose turn it was took its next part, and the other one stood still. */
  ghost predicate Turned(s: Pair, t: Pair, go: Go, x: Part, rules1: Rules, rules2: Rules) {
    x.due == go.due &&
    if go.first then TookPart(s.one, s.two, t.one, x, rules1) && t.two == s.two
    else TookPart(s.two, s.one, t.two, x, rules2) && t.one == s.one
  }

  /** One part for every entry of the schedule, by the worker it names. */
  ghost predicate TookTurns(seats: seq<Pair>, parts: seq<Part>, schedule: seq<Go>, rules1: Rules, rules2: Rules) {
    && |seats| == |schedule| + 1 && |parts| == |schedule|
    && forall i :: 0 <= i < |schedule| ==> Turned(seats[i], seats[i + 1], schedule[i], parts[i], rules1, rules2)
  }

  lemma OneTurnMore(seats: seq<Pair>, parts: seq<Part>, schedule: seq<Go>, i: nat, t: Pair, x: Part,
                    rules1: Rules, rules2: Rules)
    requires i < |schedule| && TookTurns(seats, parts, schedule[..i], rules1, rules2)
    requires Turned(seats[i], t, schedule[i], x, rules1, rules2)
    ensures TookTurns(seats + [t], parts + [x], schedule[..i + 1], rules1, rules2)
  {
    hide Turned;
    var ss, ps, sc := seats + [t], parts + [x], schedule[..i + 1];
    forall j | 0 <= j < i + 1 ensures Turned(ss[j], ss[j + 1], sc[j], ps[j], rules1, rules2) {
      if j < i {
        assert schedule[..i][j] == sc[j];
      }
    }
  }

  lemma BothFed(w: World, hasher: Hasher)
    requires Intact(w.one, w.two, hasher)
    ensures Fed(w.one, w.two) && Fed(w.two, w.one)
  {
    IntactParts(w.one, w.two, hasher);
    IntactParts(w.two, w.one, hasher);
  }

  ghost predicate Unused(p: PortState)
    reads p
  {
    p.outOfOrder == p.badHash == p.lastReceivedSeq == 0 && p.seqNo == 1 && p.hashes == map[]
  }

  /** A worker at its loop head for the first time is a fresh end. */
  lemma StartFresh(w: Worker)
    requires w.Valid() && AtStart(w.View()) && Unused(w.port)
    ensures Fresh(End(w.View(), w.facts, w.mem[..], map[], Checks(0, 0, 0), [], []))
    ensures Matches(w, End(w.View(), w.facts, w.mem[..], map[], Checks(0, 0, 0), [], []))
  {
    hide Sound, Backed;
  }

  /** A worker at its first loop head: its area mapped, its link filled, its books empty. */
  ghost predicate Opening(s: Seat) {
    && s.stage == 0 && JustFilled(s.port, MmapArea.AreaBufs(4096, 2048, BufCustom)) && |s.mem| == 4096 * 2048
    && s.hashes == map[] && s.checks == Checks(0, 0, 0) && s.received == s.transmitted == 0
  }

  /** The whole test up to the end of any schedule: both workers start without a panic, every turn does the part
      that is next, and no packet is ever counted out of order or with a bad hash, whatever is lost on the
      wire. */
  method Execute(total: nat, burst: nat, hasher: Hasher, schedule: seq<Go>)
    returns (bench: Bench, ghost seats: seq<Pair>, ghost parts: seq<Part>)
    requires burst > 0 && total + 2 < Limit(8)
    ensures fresh(bench) && bench.Valid()
    ensures TookTurns(seats, parts, schedule, Rules(total, burst, hasher), Rules(total, burst, hasher))
    ensures Opening(seats[0].one) && Opening(seats[0].two) && seats[|schedule|] == bench.Seats()
    ensures bench.one.port.outOfOrder == bench.one.port.badHash == 0
    ensures bench.two.port.outOfOrder == bench.two.port.badHash == 0
  {
    hide Worker.Valid, Worker.Apart, Worker.View, AtStart, Limit, Bench.Valid, JustFilled, TookTurns;
    var p1 := new PortState();
    var p2 := new PortState();
    UnusedBooks(p1, total, burst);
    UnusedBooks(p2, total, burst);
    var one := Launch(p1, p2, total, burst, hasher);
    var two := Launch(p2, p1, total, burst, hasher);
    bench := new Bench(one, two);
    seats, parts := bench.Run(schedule);
  }

  lemma UnusedBooks(p: PortState, total: nat, burst: nat)
    requires Unused(p) && p.transmitted == 0 && burst > 0
    ensures p.Valid(total, burst)
  {
    assert 0 % burst == 0;
  }
}
