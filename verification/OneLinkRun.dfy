/** l2fwd-1link from its start, for any number of passes: what the program does is a run of module
    MacParity, so every packet it sent left with its addresses swapped as often as that module says. */
module OneLinkRun {
  import opened Bits
  import opened Frames
  import opened LinkState
  import opened MacSwap
  import opened OneLink
  import opened MmapArea
  import opened MacParity
  import opened OneLinkLoop

  /** The program is in the state `n`. */
  ghost predicate Matches(w: Loop, n: Swapper)
    requires w.Apart()
    reads w, w.Repr
  {
    && w.mem in w.Repr
    && n == n.(one := w.View(), facts := w.facts, batch := w.batchSize, mem := w.mem[..])
  }

  ghost predicate Continues(run: seq<Swapper>, more: seq<Swapper>) {
    run != [] && more != [] && run <= more && IsRun(more)
  }

  lemma RunOn(run: seq<Swapper>, m: Swapper)
    requires run != [] && IsRun(run) && Step(run[|run| - 1], m)
    ensures Continues(run, run + [m])
  {
    hide Step, Fresh;
    var all := run + [m];
    forall j | 0 <= j < |all| - 1 ensures Step(all[j], all[j + 1]) {
      if j < |run| - 1 {
        assert Step(run[j], run[j + 1]);
      }
    }
  }

  /** The states while the kernel makes its moves. */
  function Along(run: seq<Swapper>, ks: seq<Snap>): (r: seq<Swapper>)
    requires run != [] && ks != []
    ensures run <= r
    decreases |ks|
  {
    if |ks| == 1 then run
    else
      var before := Along(run, ks[..|ks| - 1]);
      before + [before[|before| - 1].With(Last(ks))]
  }

  /** What the kernel does during an operation continues the run. */
  lemma {:induction false} KernelOn(run: seq<Swapper>, ks: seq<Snap>)
    requires run != [] && IsRun(run) && ks != []
    requires var n := run[|run| - 1]; Trace(n.Link(), ks) && ks[0] == Snap(n.Link().k, n.mem)
    ensures Continues(run, Along(run, ks))
    ensures Along(run, ks)[|Along(run, ks)| - 1] == run[|run| - 1].With(Last(ks))
    decreases |ks|
  {
    hide KernelMove, IsRun;
    var n := run[|run| - 1];
    if |ks| > 1 {
      var some := ks[..|ks| - 1];
      assert Next(n.Link(), ks[|ks| - 2], ks[|ks| - 2 + 1]);
      KernelOn(run, some);
      var before := Along(run, some);
      NextAfter(n.Link(), Last(some), Last(ks));
      var l := before[|before| - 1];
      MoveIsStep(l, l.With(Last(ks)));
      RunOn(before, l.With(Last(ks)));
    }
  }

  /** An operation that took effect at its start, before the kernel's moves. */
  lemma StepThenKernel(run: seq<Swapper>, m: Swapper, ks: seq<Snap>) returns (more: seq<Swapper>)
    requires run != [] && IsRun(run) && MacParity.Step(run[|run| - 1], m)
    requires ks != [] && Trace(m.Link(), ks) && ks[0] == Snap(m.Link().k, m.mem)
    ensures Continues(run, more) && more[|more| - 1] == m.With(Last(ks))
  {
    hide IsRun, MacParity.Step, Trace;
    RunOn(run, m);
    KernelOn(run + [m], ks);
    more := Along(run + [m], ks);
  }

  /** An operation that took effect at its end, after the kernel's moves. */
  lemma KernelThenStep(run: seq<Swapper>, ks: seq<Snap>, m: Swapper) returns (more: seq<Swapper>)
    requires run != [] && IsRun(run)
    requires var n := run[|run| - 1];
      ks != [] && Trace(n.Link(), ks) && ks[0] == Snap(n.Link().k, n.mem) && MacParity.Step(n.With(Last(ks)), m)
    ensures Continues(run, more) && more[|more| - 1] == m
  {
    hide IsRun, MacParity.Step, Trace;
    KernelOn(run, ks);
    RunOn(Along(run, ks), m);
    more := Along(run, ks) + [m];
  }

  lemma MoveIsStep(n: Swapper, m: Swapper)
    requires KernelMoved(n, m)
    ensures Step(n, m)
  {
  }

  // The parts of the loop body, as pieces of the run.

  method ServiceStage(w: Loop, ghost run: seq<Swapper>) returns (ghost more: seq<Swapper>, n: nat)
    requires w.Valid() && run != [] && IsRun(run) && Matches(w, run[|run| - 1])
    modifies w.Repr
    ensures w.Valid() && Continues(run, more) && Matches(w, more[|more| - 1]) &&
            more[|more| - 1].at == run[|run| - 1].at
    ensures OneService(old(w.View()), w.View(), w.facts, n) && ServesEnough(old(w.View()), n, w.batchSize)
    ensures CompGrants(old(w.View()).lane.link, w.View().lane.link, n, w.batchSize)
  {
    hide Loop.Valid, Loop.View, IsRun, OneService, ServesEnough, Trace;
    ghost var ks;
    n, ks := w.ServicePart();
    KernelOn(run, ks);
    ghost var mid := Along(run, ks);
    ghost var l := mid[|mid| - 1];
    ghost var m := l.(one := w.View());
    assert Step(l, m) by { assert Serviced(l, m, n); ServiceIsStep(l, m, n); }
    RunOn(mid, m);
    more := mid + [m];
  }

  lemma ServiceIsStep(n: Swapper, m: Swapper, k: nat)
    requires Serviced(n, m, k)
    ensures Step(n, m)
  {
  }

  method FillStage(w: Loop, ghost run: seq<Swapper>) returns (ghost more: seq<Swapper>, n: nat)
    requires w.Valid() && run != [] && IsRun(run) && Matches(w, run[|run| - 1])
    modifies w.Repr
    ensures w.Valid() && Continues(run, more) && Matches(w, more[|more| - 1]) &&
            more[|more| - 1].at == run[|run| - 1].at
    ensures OneFill(old(w.View()), w.View(), n) && n == Min(|old(w.bufs.items)|, old(w.fqDeficit))
  {
    hide Loop.Valid, Loop.View, IsRun, OneFill, Trace;
    ghost var ks;
    n, ks := w.FillPart();
    KernelOn(run, ks);
    ghost var mid := Along(run, ks);
    ghost var l := mid[|mid| - 1];
    ghost var m := l.(one := w.View());
    assert Step(l, m) by { assert Filled(l, m, n); FillIsStep(l, m, n); }
    RunOn(mid, m);
    more := mid + [m];
  }

  lemma FillIsStep(n: Swapper, m: Swapper, k: nat)
    requires Filled(n, m, k)
    ensures Step(n, m)
  {
  }

  /** The state after a receive of `k` that left the lane as in `one`. */
  function AfterReceive(n: Swapper, one: One, k: nat): Swapper {
    n.(one := one, at := if k > 0 then Swapping else Sending, swaps := n.swaps + Zeros(k),
       stays := if k > 0 then Bump(n.stays + Zeros(k), |n.Link().p.sent|) else n.stays,
       met := n.met && (k > 0 ==> n.one.lane.pending == []))
  }

  /** A receive that found nothing found it when it looked; the kernel may have moved on since. One that had
      no room may have looked all the same. */
  lemma ReceiveRun(run: seq<Swapper>, ks: seq<Snap>, q: One, k: nat) returns (more: seq<Swapper>)
    requires run != [] && IsRun(run) && run[|run| - 1].at == Receiving
    requires var l := run[|run| - 1];
      && Kept(l.one, l.facts) && ReceivesEnough(l.one, k, l.batch)
      && ks != [] && OneKernelRan(l.one, l.mem, ks, Last(ks).mem)
      && q.lane.link.k == Last(ks).k && OneReceive(OneBefore(l.one, ks), q, l.facts, k)
      && ReceivesShown(l.one, q, k, l.batch)
    ensures Continues(run, more)
    ensures var l, m := run[|run| - 1], more[|more| - 1];
      && m == m.(one := q, facts := l.facts, batch := l.batch, mem := Last(ks).mem)
      && m.at == if k > 0 then Swapping else Sending
  {
    hide IsRun, OneReceive, ReceivesEnough, Trace, Kept;
    var l := run[|run| - 1];
    KeptLink(l.one, l.facts);
    OneNothing(l.one, l.facts, l.mem);
    if k == 0 && l.batch > 0 && |l.one.lane.pending| < PENDING_LEN {
      var m := AfterReceive(l, l.one, 0);
      ReceiveIsStep(l, m, 0);
      NothingShown(l.one, q, l.batch);
      OneUnchanged(OneBefore(l.one, ks), q, l.facts);
      more := StepThenKernel(run, m, ks);
    } else {
      var n := l.With(Last(ks));
      StillEnough(l.one, n.one, k, l.batch);
      ReceiveIsStep(n, AfterReceive(n, q, k), k);
      more := KernelThenStep(run, ks, AfterReceive(n, q, k));
    }
  }

  lemma NothingShown(n: One, m: One, batch: nat)
    requires LinkInv(n.lane.link) && ReceivesShown(n, m, 0, batch) && batch > 0 && |n.lane.pending| < PENDING_LEN
    ensures m.lane.link.p.rxSeen == n.lane.link.p.rxSeen
  {
    hide RxAccounted, TxAccounted, Recorded;
  }

  method ReceiveStage(w: Loop, ghost run: seq<Swapper>) returns (ghost more: seq<Swapper>, n: nat)
    requires w.Valid() && run != [] && IsRun(run) && Matches(w, run[|run| - 1]) && run[|run| - 1].at == Receiving
    modifies w.Repr
    ensures w.Valid() && Continues(run, more) && Matches(w, more[|more| - 1])
    ensures more[|more| - 1].at == if n > 0 then Swapping else Sending
    ensures OneReceive(old(w.View()), w.View(), w.facts, n) && ReceivesEnough(old(w.View()), n, w.batchSize)
    ensures ReceivesShown(old(w.View()), w.View(), n, w.batchSize)
  {
    hide Loop.Valid, Loop.View, IsRun, OneReceive, ReceivesEnough, Trace, Kept;
    w.KeepsKept();
    ghost var ks;
    n, ks := w.ReceivePart();
    more := ReceiveRun(run, ks, w.View(), n);
  }

  lemma StillEnough(n: One, m: One, k: nat, batch: nat)
    requires ReceivesEnough(n, k, batch) && m.lane.pending == n.lane.pending
    requires k > 0 || batch == 0 || |n.lane.pending| >= PENDING_LEN
    requires |n.lane.pending| <= PENDING_LEN
    ensures ReceivesEnough(m, k, batch)
  {
  }

  lemma ReceiveIsStep(n: Swapper, m: Swapper, k: nat)
    requires n.at == Receiving && OneReceive(n.one, m.one, n.facts, k) && ReceivesEnough(n.one, k, n.batch)
    requires m.Link().k == n.Link().k && m == AfterReceive(n, m.one, k)
    ensures Step(n, m)
  {
    hide OneReceive, ReceivesEnough;
    assert ReceivedSome(n, m, k);
  }

  method SwapStage(w: Loop, ghost run: seq<Swapper>) returns (ghost more: seq<Swapper>)
    requires w.Valid() && run != [] && IsRun(run) && Matches(w, run[|run| - 1]) && run[|run| - 1].at == Swapping
    modifies w.mem
    ensures w.Valid() && Continues(run, more) && Matches(w, more[|more| - 1]) && more[|more| - 1].at == Sending
    ensures w.View() == old(w.View())
  {
    hide Loop.Valid, IsRun, SwapSlices;
    ghost var l := run[|run| - 1];
    w.SwapPart();
    ghost var m := l.(at := Sending, mem := w.mem[..], swaps := Bump(l.swaps, |l.Link().p.sent|));
    SwapIsStep(l, m);
    RunOn(run, m);
    more := run + [m];
  }

  lemma SwapIsStep(n: Swapper, m: Swapper)
    requires SwappedDeque(n, m)
    ensures Step(n, m)
  {
  }

  /** A forward that was refused was refused when it asked. */
  lemma ForwardRun(run: seq<Swapper>, ks: seq<Snap>, q: One, k: nat) returns (more: seq<Swapper>)
    requires run != [] && IsRun(run) && run[|run| - 1].at == Sending
    requires var l := run[|run| - 1];
      && Kept(l.one, l.facts) && ForwardsEnough(l.one, k, l.batch)
      && ks != [] && OneKernelRan(l.one, l.mem, ks, Last(ks).mem)
      && q.lane.link.k == Last(ks).k && OneForward(OneBefore(l.one, ks), q, k)
    ensures Continues(run, more)
    ensures var l, m := run[|run| - 1], more[|more| - 1];
      m == m.(one := q, facts := l.facts, batch := l.batch, mem := Last(ks).mem, at := Receiving)
  {
    hide IsRun, OneForward, ForwardsEnough, Trace, Kept;
    var l := run[|run| - 1];
    KeptLink(l.one, l.facts);
    OneNothing(l.one, l.facts, l.mem);
    if k == 0 {
      ForwardIsStep(l, l.(at := Receiving), 0);
      OneUnchanged(OneBefore(l.one, ks), q, l.facts);
      more := StepThenKernel(run, l.(at := Receiving), ks);
    } else {
      var n := l.With(Last(ks));
      StillForwards(l.one, n.one, k, l.batch);
      ForwardIsStep(n, n.(one := q, at := Receiving), k);
      more := KernelThenStep(run, ks, n.(one := q, at := Receiving));
    }
  }

  method ForwardStage(w: Loop, ghost run: seq<Swapper>) returns (ghost more: seq<Swapper>, n: nat)
    requires w.Valid() && run != [] && IsRun(run) && Matches(w, run[|run| - 1]) && run[|run| - 1].at == Sending
    modifies w.Repr
    ensures w.Valid() && Continues(run, more) && Matches(w, more[|more| - 1]) && more[|more| - 1].at == Receiving
    ensures OneForward(old(w.View()), w.View(), n) && ForwardsEnough(old(w.View()), n, w.batchSize)
  {
    hide Loop.Valid, Loop.View, IsRun, OneForward, ForwardsEnough, Trace, Kept;
    w.KeepsKept();
    ghost var ks;
    n, ks := w.ForwardPart();
    more := ForwardRun(run, ks, w.View(), n);
  }

  lemma StillForwards(n: One, m: One, k: nat, batch: nat)
    requires k > 0 && ForwardsEnough(n, k, batch)
    requires m.lane.pending == n.lane.pending && m.lane.link.cfg == n.lane.link.cfg
    ensures ForwardsEnough(m, k, batch)
  {
  }

  lemma ForwardIsStep(n: Swapper, m: Swapper, k: nat)
    requires n.at == Sending && OneForward(n.one, m.one, k) && ForwardsEnough(n.one, k, n.batch)
    requires m.Link().k == n.Link().k && m == n.(one := m.one, at := Receiving)
    ensures Step(n, m)
  {
    hide OneForward, ForwardsEnough;
    assert ForwardedSome(n, m, k);
  }

  /** One pass through the loop: service, receive, swap if anything came, forward, fill. Every byte of the
      area is accounted for: the pass is a piece of a run. */
  method Pass(w: Loop, ghost run: seq<Swapper>) returns (ghost more: seq<Swapper>, ghost x: OnePass)
    requires w.Valid() && run != [] && IsRun(run) && Matches(w, run[|run| - 1]) && run[|run| - 1].at == Receiving
    modifies w.Repr
    ensures w.Valid() && Continues(run, more) && Matches(w, more[|more| - 1]) && more[|more| - 1].at == Receiving
    ensures OnePassed(old(w.View()), x, w.View(), w.facts, w.batchSize)
  {
    hide Loop.Valid, Loop.Apart, Loop.View, IsRun, OneService, OneReceive, OneForward, OneFill, ServesEnough;
    hide ReceivesEnough, ForwardsEnough;
    var cq, rx, tx, fq;
    more, cq := ServiceStage(w, run);
    ghost var serviced := w.View();
    more, rx := ReceiveStage(w, more);
    ghost var received := w.View();
    if rx > 0 {
      more := SwapStage(w, more);
    }
    more, tx := ForwardStage(w, more);
    ghost var forwarded := w.View();
    FillCount(w);
    more, fq := FillStage(w, more);
    x := OnePass(serviced, received, forwarded, cq, rx, tx, fq);
  }

  lemma FillCount(w: Loop)
    requires w.Apart()
    ensures |w.bufs.items| == |w.View().bufs| && w.fqDeficit == w.View().lane.deficit
  {
  }

  /** The states at `marks` are loop heads of the run, one pass after the other. */
  ghost predicate Paced(run: seq<Swapper>, marks: seq<nat>, passes: seq<OnePass>) {
    && IsRun(run) && |marks| == |passes| + 1 && marks[0] == 0
    && (forall i :: 0 <= i < |marks| ==> marks[i] < |run| && run[marks[i]].at == Receiving)
    && (forall i :: 0 <= i < |passes| ==>
          && marks[i] <= marks[i + 1]
          && OnePassed(run[marks[i]].one, passes[i], run[marks[i + 1]].one, run[0].facts, run[0].batch))
  }

  /** One more pass. */
  lemma PacedOn(run: seq<Swapper>, marks: seq<nat>, passes: seq<OnePass>, more: seq<Swapper>, x: OnePass)
    requires Paced(run, marks, passes) && marks[|passes|] == |run| - 1 && Continues(run, more)
    requires more[|more| - 1].at == Receiving
    requires OnePassed(run[|run| - 1].one, x, more[|more| - 1].one, run[0].facts, run[0].batch)
    ensures Paced(more, marks + [|more| - 1], passes + [x])
  {
    hide IsRun, OnePassed;
    var ms, xs := marks + [|more| - 1], passes + [x];
    forall i | 0 <= i < |xs|
      ensures ms[i] <= ms[i + 1]
      ensures OnePassed(more[ms[i]].one, xs[i], more[ms[i + 1]].one, more[0].facts, more[0].batch)
    {
    }
  }

  lemma NoPass(run: seq<Swapper>)
    requires |run| == 1 && IsRun(run) && run[0].at == Receiving
    ensures Paced(run, [0], [])
  {
    hide IsRun;
  }

  lemma PacedRun(run: seq<Swapper>, marks: seq<nat>, passes: seq<OnePass>)
    requires Paced(run, marks, passes)
    ensures run != [] && IsRun(run) && |marks| == |passes| + 1
    ensures forall i :: 0 <= i < |marks| ==> marks[i] < |run| && run[marks[i]].at == Receiving
  {
    hide OnePassed;
  }

  /** Moves after the last pass. */
  lemma PacedStays(run: seq<Swapper>, marks: seq<nat>, passes: seq<OnePass>, more: seq<Swapper>)
    requires Paced(run, marks, passes) && Continues(run, more)
    ensures more != [] && more[0] == run[0]
    ensures Paced(more, marks, passes)
  {
    hide IsRun, OnePassed;
  }

  /** The state a program has come to. */
  ghost predicate Outcome(w: Loop, n: Swapper)
    requires w.Apart()
    reads w, w.Repr
  {
    && Matches(w, n) && n.Link().k.wire == w.link.wire
    && (forall r :: 0 <= r < |n.Link().k.wire| ==> LeftAs(n, r))
    && (n.met <==> forall r :: 0 <= r < |n.stays| ==> n.stays[r] == 1)
  }

  /** The whole program. The r-th packet on the wire is the r-th received, swapped once per non-empty receive
      it sat through; and all were swapped exactly once exactly if every non-empty receive found the deque
      empty. */
  method Execute(bufNum: nat, bufLen: ChunkLen, batchSize: nat, iterations: nat)
    returns (w: Loop, ghost run: seq<Swapper>, ghost marks: seq<nat>, ghost passes: seq<OnePass>)
    requires bufLen >= RESERVED + 12
    ensures w.Valid() && fresh(w.Repr) && w.facts == AreaFacts(bufNum, bufLen) && w.batchSize == batchSize
    ensures |passes| == iterations && Paced(run, marks, passes) && marks[iterations] == |run| - 1
    ensures run[0].facts == w.facts && run[0].batch == batchSize && Outcome(w, run[|run| - 1])
    ensures OneJustFilled(run[0].one, AreaBufs(bufNum, bufLen, BufCustom), Min(2048, bufNum))
  {
    hide Loop.Valid, Loop.Apart, Loop.View, IsRun, Outcome, NothingYet, OnePassed, Continues, AreaFacts, Paced;
    hide OneJustFilled;
    w := Start(bufNum, bufLen, batchSize);
    run := [Swapper(w.View(), w.facts, w.batchSize, Receiving, w.mem[..], [], [], true)];
    marks, passes := [0], [];
    StartFresh(w);
    SingletonRun(run);
    NoPass(run);
    for i := 0 to iterations
      invariant w.Valid() && fresh(w.Repr)
      invariant run != [] && OneJustFilled(run[0].one, AreaBufs(bufNum, bufLen, BufCustom), Min(2048, bufNum))
      invariant run != [] && Matches(w, run[|run| - 1]) && run[0].facts == w.facts && run[0].batch == batchSize
      invariant |passes| == i && Paced(run, marks, passes) && |marks| == i + 1 && marks[i] == |run| - 1
    {
      PacedRun(run, marks, passes);
      ghost var more, x := Pass(w, run);
      ContinuesRun(run, more);
      PacedOn(run, marks, passes, more, x);
      run, marks, passes := more, marks + [|more| - 1], passes + [x];
    }
    PacedRun(run, marks, passes);
    Conclude(w, run);
  }

  lemma ContinuesRun(run: seq<Swapper>, more: seq<Swapper>)
    requires Continues(run, more)
    ensures more != [] && IsRun(more) && run <= more
  {
  }

  lemma Conclude(w: Loop, run: seq<Swapper>)
    requires w.Valid() && run != [] && IsRun(run) && Matches(w, run[|run| - 1])
    ensures Outcome(w, run[|run| - 1])
  {
    hide Loop.Valid, Loop.View, IsRun, LeftAs, Kept;
    EveryRunSwaps(run, |run| - 1);
    w.KeepsKept();
  }

  lemma StartFresh(w: Loop)
    requires w.Valid() && w.View().lane.pending == [] && NothingYet(w.View().lane.link)
    ensures Fresh(Swapper(w.View(), w.facts, w.batchSize, Receiving, w.mem[..], [], [], true))
    ensures Matches(w, Swapper(w.View(), w.facts, w.batchSize, Receiving, w.mem[..], [], [], true))
  {
    hide Kept, Stored;
  }

  lemma SingletonRun(run: seq<Swapper>)
    requires |run| == 1 && Fresh(run[0])
    ensures IsRun(run)
  {
    hide Fresh;
  }
}
