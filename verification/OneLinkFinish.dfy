/** l2fwd-1link from its start to its end: any number of passes, then the wire falls silent while the kernel
    goes on transmitting. Where it can drain it does, and everything that was received has left. */
module OneLinkFinish {
  import opened Frames
  import opened LinkState
  import opened OneLink
  import opened MacParity
  import opened OneLinkLoop
  import opened OneLinkRun
  import opened OneLinkDrain
  import opened InFlight
  import Bits
  import MmapArea
  import LateSwaps
  import Forwarding
  import ForwardDrain
  import DrainsExactly

  method SilenceStage(w: Loop, ghost run: seq<Swapper>) returns (ghost more: seq<Swapper>)
    requires w.Valid() && run != [] && IsRun(run) && Matches(w, run[|run| - 1])
    modifies w.Repr
    ensures w.Valid() && Continues(run, more) && Matches(w, more[|more| - 1]) &&
            more[|more| - 1].at == run[|run| - 1].at
    ensures OneTurn(old(w.View()), w.View()) && Silent(w.View())
  {
    hide Loop.Valid, Loop.View, IsRun, KernelMove, OneTurn;
    ghost var was, mem := w.View(), w.mem[..];
    w.KeepsKept();
    w.Silence();
    w.KeepsKept();
    SilentTurn(was, mem, w.View(), w.facts);
    ghost var m := run[|run| - 1].(one := w.View());
    MoveIsStep(run[|run| - 1], m);
    RunOn(run, m);
    more := run + [m];
  }

  lemma SilentTurn(n: One, mem: seq<byte>, m: One, f: Forwarding.Facts)
    requires Kept(n, f) && m == n.(lane := n.lane.(link := m.lane.link)) && FellSilent(n.lane.link, m.lane.link)
    ensures OneTurn(n, m) && Next(n.lane.link, Snap(n.lane.link.k, mem), Snap(m.lane.link.k, mem))
  {
    hide LinkInv, Kept;
    KeptLink(n, f);
    FellSilentKeeps(n.lane.link, m.lane.link);
  }

  method TransmitStage(w: Loop, ghost run: seq<Swapper>) returns (ghost more: seq<Swapper>)
    requires w.Valid() && run != [] && IsRun(run) && Matches(w, run[|run| - 1])
    modifies w.Repr
    ensures w.Valid() && Continues(run, more) && Matches(w, more[|more| - 1]) &&
            more[|more| - 1].at == run[|run| - 1].at
    ensures OneTurn(old(w.View()), w.View()) && ForwardDrain.Transmitted(w.View().lane.link)
  {
    hide Loop.Valid, Loop.View, IsRun, OneTurn, Trace, ForwardDrain.Transmitted;
    ghost var ks := w.TransmitPart();
    KernelOn(run, ks);
    more := Along(run, ks);
  }

  /** The kernel transmits what it can, then the loop runs once. */
  method NextRound(w: Loop, ghost run: seq<Swapper>)
    returns (ghost more: seq<Swapper>, ghost mid: One, ghost x: OnePass)
    requires w.Valid() && run != [] && IsRun(run) && Matches(w, run[|run| - 1]) && run[|run| - 1].at == Receiving
    modifies w.Repr
    ensures w.Valid() && Continues(run, more) && Matches(w, more[|more| - 1]) && more[|more| - 1].at == Receiving
    ensures Round(old(w.View()), mid, x, w.View(), w.facts, w.batchSize)
  {
    hide Loop.Valid, Loop.View, IsRun, OneTurn, OnePassed, Continues, ForwardDrain.Transmitted;
    ghost var was := w.View();
    ghost var some := TransmitStage(w, run);
    ContinuesRun(run, some);
    mid := w.View();
    more, x := Pass(w, some);
    ThenMore(run, some, more);
    assert Round(was, mid, x, w.View(), w.facts, w.batchSize);
  }

  /** On a silent wire, as many rounds as the load end it: drained or wedged. */
  method Drain(w: Loop, ghost run: seq<Swapper>, rounds: nat) returns (ghost more: seq<Swapper>)
    requires w.Valid() && run != [] && IsRun(run) && Matches(w, run[|run| - 1]) && run[|run| - 1].at == Receiving
    requires Silent(w.View()) && w.facts.initial <= |w.facts.owned| && Load(w.View()) <= rounds
    modifies w.Repr
    ensures w.Valid() && Continues(run, more) && Matches(w, more[|more| - 1])
    ensures w.batchSize > 0 ==> Ended(w.View(), w.batchSize)
    ensures Unwedged(old(w.View()), w.facts, w.batchSize) ==> Unwedged(w.View(), w.facts, w.batchSize)
  {
    hide Loop.Valid, Loop.View, IsRun, Load, Ended, Unwedged, Kept, Round, Silent, Continues;
    more := run;
    NoMore(run);
    w.KeepsKept();
    for i := 0 to rounds
      invariant w.Valid() && Continues(run, more) && more != [] && Matches(w, more[|more| - 1])
      invariant more[|more| - 1].at == Receiving && IsRun(more) && Kept(w.View(), w.facts)
      invariant w.batchSize > 0 ==> Silent(w.View()) && (Ended(w.View(), w.batchSize) || Load(w.View()) <= rounds - i)
      invariant Unwedged(old(w.View()), w.facts, w.batchSize) ==> Unwedged(w.View(), w.facts, w.batchSize)
    {
      ghost var n := w.View();
      ghost var next, mid, x := NextRound(w, more);
      ThenMore(run, more, next);
      more := next;
      if w.batchSize > 0 {
        RoundWent(n, mid, x, w.View(), w.facts, w.batchSize);
        OneRound(n, w.View(), w.batchSize);
      }
      if Unwedged(n, w.facts, w.batchSize) {
        RoundUnwedged(n, mid, x, w.View(), w.facts, w.batchSize);
      }
      w.KeepsKept();
    }
    if w.batchSize > 0 && !Ended(w.View(), w.batchSize) {
      NoLoadDrained(w.View(), w.facts, w.batchSize);
    }
  }

  lemma OneRound(n: One, q: One, batch: nat)
    requires Went(n, q, batch, Ended(q, batch)) && Silent(n)
    ensures Silent(q) && (Ended(q, batch) || (Load(q) < Load(n) && !Ended(n, batch)))
  {
    hide Load, Silent, Ended;
  }

  lemma RoundUnwedged(n: One, mid: One, x: OnePass, q: One, f: Forwarding.Facts, batch: nat)
    requires Kept(n, f) && Unwedged(n, f, batch) && Round(n, mid, x, q, f, batch)
    ensures Unwedged(q, f, batch)
  {
    hide Kept, Unwedged, OneTurn, OnePassed;
    TurnUnwedged(n, mid, f, batch);
    PassUnwedged(mid, x, q, f, batch);
  }

  lemma NoMore(run: seq<Swapper>)
    requires run != [] && IsRun(run)
    ensures Continues(run, run)
  {
    hide IsRun;
  }

  lemma ThenMore(run: seq<Swapper>, more: seq<Swapper>, last: seq<Swapper>)
    requires Continues(run, more) && Continues(more, last)
    ensures Continues(run, last) && last != [] && IsRun(last)
  {
    hide IsRun;
  }

  /** The whole program, and then the wire falls silent. If it can drain, nine rounds per buffer leave nothing
      behind: every packet that ever arrived is on the wire, in order, its addresses swapped once per
      non-empty receive it sat through. With a positive batch size the only other end is a deque that the Tx
      ring can never take. What is in flight still reads as it went on the wire. */
  method ExecuteAndDrain(bufNum: nat, bufLen: ChunkLen, batchSize: nat, iterations: nat)
    returns (w: Loop, ghost run: seq<Swapper>, ghost marks: seq<nat>, ghost passes: seq<OnePass>)
    requires bufLen >= RESERVED + 12
    ensures w.Valid() && |passes| == iterations && Paced(run, marks, passes) && Outcome(w, run[|run| - 1])
    ensures Drainable(bufNum, batchSize) ==>
      Drained(w.View()) && |w.View().lane.link.k.wire| == |w.View().lane.link.k.arrived|
    ensures batchSize > 0 ==> Drained(w.View()) || Wedged(w.View(), batchSize)
    ensures AllStill(w.View().lane.link, w.mem[..])
    ensures w.facts == AreaFacts(bufNum, bufLen) && w.batchSize == batchSize
    ensures OneJustFilled(run[0].one, MmapArea.AreaBufs(bufNum, bufLen, BufCustom), Bits.Min(2048, bufNum))
  {
    hide Loop.Valid, Loop.Apart, Loop.View, IsRun, LeftAs, OnePassed, Continues, AreaFacts, Paced, Kept, Load, Silent;
    hide Drained, Wedged, Unwedged, OneTurn, AllStill, OneJustFilled;
    w, run, marks, passes := Execute(bufNum, bufLen, batchSize, iterations);
    PacedRun(run, marks, passes);
    ghost var heads := DrainsExactly.HeadsOf(run, marks, passes);
    ghost var before := w.View();
    Arrived(w, run, bufNum, bufLen, heads, passes);
    ghost var quiet := SilenceStage(w, run);
    ContinuesRun(run, quiet);
    w.KeepsKept();
    AreaOwns(bufNum, bufLen);
    LoadBounded(w.View(), w.facts);
    if Unwedged(before, w.facts, batchSize) {
      TurnUnwedged(before, w.View(), w.facts, batchSize);
    }
    ghost var last := Drain(w, quiet, 9 * bufNum);
    ThenMore(run, quiet, last);
    PacedStays(run, marks, passes, last);
    run := last;
    Conclude(w, run);
    w.KeepsKept();
    Finished(w, bufNum, bufLen);
    LateSwaps.EveryRunLate(run, |run| - 1);
  }

  /** At every loop head of a program that can drain there is room. */
  lemma Arrived(w: Loop, run: seq<Swapper>, bufNum: nat, bufLen: ChunkLen, heads: seq<One>, passes: seq<OnePass>)
    requires w.Valid() && w.facts == AreaFacts(bufNum, bufLen) && run != [] && Matches(w, run[|run| - 1])
    requires DrainsExactly.Passes(heads, passes, w.facts, w.batchSize) && DrainsExactly.Begins(heads[0], w.facts)
    requires heads[|passes|] == run[|run| - 1].one
    ensures Kept(w.View(), w.facts)
    ensures bufNum > 0 && Drainable(bufNum, w.batchSize) ==> Unwedged(w.View(), w.facts, w.batchSize)
  {
    hide Loop.Valid, Loop.View, Kept, Unwedged, DrainsExactly.Passes, DrainsExactly.Begins, AreaFacts;
    w.KeepsKept();
    AreaOwns(bufNum, bufLen);
    if bufNum > 0 && Drainable(bufNum, w.batchSize) {
      DrainsExactly.HeadsCount(heads, passes, w.facts, w.batchSize);
      DrainsExactly.BeginsUnwedged(heads[0], w.facts, w.batchSize);
      DrainsExactly.PassesUnwedged(heads, passes, w.facts, w.batchSize, |passes|);
    }
  }

  lemma Finished(w: Loop, bufNum: nat, bufLen: ChunkLen)
    requires w.Valid() && w.facts == AreaFacts(bufNum, bufLen) && Kept(w.View(), w.facts)
    requires w.batchSize > 0 ==> Ended(w.View(), w.batchSize)
    requires bufNum > 0 && Drainable(bufNum, w.batchSize) ==> Unwedged(w.View(), w.facts, w.batchSize)
    ensures Drainable(bufNum, w.batchSize) ==>
      Drained(w.View()) && |w.View().lane.link.k.wire| == |w.View().lane.link.k.arrived|
    ensures w.batchSize > 0 ==> Drained(w.View()) || Wedged(w.View(), w.batchSize)
  {
    hide Loop.Valid, Loop.View, Kept, Unwedged, AreaFacts, Drained;
    if Drainable(bufNum, w.batchSize) {
      AreaOwns(bufNum, bufLen);
      if bufNum == 0 {
        assert w.facts.initial == 0;
        EmptyDrained(w.View(), w.facts);
      } else {
        UnwedgedDrained(w.View(), w.facts, w.batchSize);
      }
      DrainedSent(w.View(), w.facts);
    }
  }
}
