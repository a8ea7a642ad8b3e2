/** Progress of the forwarding loop on a silent wire: a measure that no move increases, and that a
    round of the loop with a transmitting kernel lowers unless nothing is left to do. */
module ForwardDrain {
  import opened Frames
  import opened LinkState
  import opened LinkFlow
  import opened Forwarding
  import opened ForwardFacts

  /** How many frames of a lane wait at each point of the way out, and what its fill ring is owed. */
  datatype Tally = Tally(rx: int, pending: int, tx: int, flight: int, comp: int, deficit: int) {
    /** Each step on the way out lowers the load, and so does a fill. */
    function Load(): int {
      8 * rx + 6 * pending + 4 * tx + 3 * flight + 2 * comp + deficit
    }
  }

  ghost function TallyOf(l: Lane): Tally {
    Tally(|l.link.k.rxLog| - l.link.p.rxTaken, |l.pending|, |l.link.p.sent| - l.link.k.txTaken,
          |l.link.k.flight|, |l.link.k.compLog| - l.link.p.compTaken, l.deficit)
  }

  ghost function Load(n: Net): int
    requires |n.lanes| == 2
  {
    TallyOf(n.lanes[0]).Load() + TallyOf(n.lanes[1]).Load()
  }

  ghost predicate SameTallies(n: Net, m: Net)
    requires |n.lanes| == |m.lanes| == 2
  {
    && TallyOf(n.lanes[0]) == TallyOf(m.lanes[0]) && TallyOf(n.lanes[1]) == TallyOf(m.lanes[1])
    && |n.bufs| == |m.bufs|
  }

  ghost predicate Silent(n: Net)
    requires |n.lanes| == 2
  {
    n.lanes[0].link.k.Silent() && n.lanes[1].link.k.Silent()
  }

  /** From `n` to `m` the load did not grow, and if it is the same then nothing moved. */
  ghost predicate Downhill(n: Net, m: Net)
    requires |n.lanes| == |m.lanes| == 2
  {
    && Silent(m)
    && Load(m) <= Load(n)
    && (Load(m) == Load(n) ==> SameTallies(n, m))
  }

  lemma DownhillTransitive(n: Net, m: Net, q: Net)
    requires |n.lanes| == |m.lanes| == |q.lanes| == 2
    requires Downhill(n, m) && Downhill(m, q)
    ensures Downhill(n, q)
    ensures Load(q) == Load(n) ==> SameTallies(n, m)
  {
  }

  lemma KernelTurnDownhill(n: Net, m: Net)
    requires KernelTurn(n, m) && Silent(n)
    ensures Downhill(n, m)
  {
    assert forall i :: 0 <= i < 2 ==> m.lanes[i] == n.lanes[i].(link := m.lanes[i].link);
    LaneTurn(n.lanes[0], m.lanes[0]);
    LaneTurn(n.lanes[1], m.lanes[1]);
  }

  lemma LaneTurn(l: Lane, r: Lane)
    requires r == l.(link := r.link) && Moved(l.link, r.link) && l.link.k.Silent()
    ensures TallyOf(r).Load() <= TallyOf(l).Load() && r.link.k.Silent()
    ensures TallyOf(r).Load() == TallyOf(l).Load() ==> TallyOf(r) == TallyOf(l)
  {
  }

  lemma ServiceDownhill(n: Net, m: Net, f: Facts, pos: nat, k: nat)
    requires pos < 2 && DidService(n, m, f, pos, k) && Silent(n)
    ensures Downhill(n, m)
    ensures Load(m) == Load(n) ==> k == 0
  {
    hide LinkInv, BufsOf, Blanks, Moved;
    var l, r := n.lanes[pos], m.lanes[pos];
    var l' := l.(link := l.link.(p := l.link.p.Services(k, r.link.p.compSeen)), stats := r.stats);
    LaneTurn(l', r);
    assert TallyOf(l') == TallyOf(l).(comp := TallyOf(l).comp - k);
    assert k == 0 ==> BufsOf(Blanks(Completed(l.link, r.link)), f.bufLen, BufCustom) == [] by {
      MovedTaken(l.link.(p := l.link.p.Services(k, r.link.p.compSeen)), r.link);
    }
  }

  lemma MovedTaken(s: State, t: State)
    requires Moved(s, t)
    ensures t.p == s.p
  {
  }

  lemma ReceiveDownhill(n: Net, m: Net, f: Facts, pos: nat, k: nat)
    requires pos < 2 && DidReceive(n, m, f, pos, k) && Silent(n)
    ensures Downhill(n, m)
    ensures Load(m) == Load(n) ==> k == 0
  {
    hide LinkInv, BufsOf, Moved;
    var l, r := n.lanes[pos], m.lanes[pos];
    var s := l.link.(p := l.link.p.Receives(k, r.link.p.rxSeen));
    MovedTaken(s, r.link);
    LaneTurn(r.(link := s), r);
    assert TallyOf(r.(link := s)) ==
           TallyOf(l).(rx := TallyOf(l).rx - k, pending := TallyOf(l).pending + k, deficit := TallyOf(l).deficit + k);
  }

  lemma ForwardDownhill(n: Net, m: Net, pos: nat, k: nat)
    requires pos < 2 && DidForward(n, m, pos, k) && Silent(n)
    ensures Downhill(n, m)
    ensures Load(m) == Load(n) ==> k == 0
  {
    hide Forwarded, Moved;
    LanesDownhill(n.lanes[pos], n.lanes[1 - pos], m.lanes[pos], m.lanes[1 - pos], k);
  }

  lemma LanesDownhill(l: Lane, lo: Lane, r: Lane, ro: Lane, k: nat)
    requires Forwarded(l, lo, r, ro, k) && l.link.k.Silent() && lo.link.k.Silent()
    ensures r.link.k.Silent() && ro.link.k.Silent()
    ensures TallyOf(r) == TallyOf(l).(pending := TallyOf(l).pending - k)
    ensures TallyOf(ro).Load() <= TallyOf(lo).Load() + 4 * k
    ensures TallyOf(ro).Load() == TallyOf(lo).Load() + 4 * k ==> TallyOf(ro) == TallyOf(lo).(tx := TallyOf(lo).tx + k)
  {
    hide LinkInv, Descs, Moved;
    var s := lo.link.(p := lo.link.p.Sends(Descs(l.pending[..k])));
    LaneTurn(ro.(link := s), ro);
    assert TallyOf(ro.(link := s)) == TallyOf(lo).(tx := TallyOf(lo).tx + k);
  }

  lemma FillDownhill(n: Net, m: Net, pos: nat, k: nat)
    requires pos < 2 && DidFill(n, m, pos, k) && Silent(n)
    ensures Downhill(n, m)
    ensures Load(m) == Load(n) ==> k == 0
  {
    hide LinkInv, FillOrder, Moved;
    var l, r := n.lanes[pos], m.lanes[pos];
    var s := l.link.(p := l.link.p.Fills(FillOrder(n.bufs, k)));
    LaneTurn(r.(link := s), r);
    assert TallyOf(r.(link := s)) == TallyOf(l).(deficit := TallyOf(l).deficit - k);
  }

  // When nothing moves: what each part of the loop says by doing nothing.

  ghost predicate ServiceStuck(n: Net, pos: nat)
    requires |n.lanes| == 2 && pos < 2
  {
    TallyOf(n.lanes[pos]).comp == 0
  }

  ghost predicate ReceiveStuck(n: Net, pos: nat)
    requires |n.lanes| == 2 && pos < 2
  {
    TallyOf(n.lanes[pos]).rx == 0 || TallyOf(n.lanes[pos]).pending == PENDING_LEN
  }

  ghost predicate ForwardStuck(n: Net, pos: nat)
    requires |n.lanes| == 2 && pos < 2
  {
    var waiting := TallyOf(n.lanes[pos]).pending;
    waiting == 0 || TallyOf(n.lanes[1 - pos]).tx > RING_SIZE - SOCKET_BATCH_SIZE
  }

  ghost predicate FillStuck(n: Net, pos: nat)
    requires |n.lanes| == 2 && pos < 2
  {
    TallyOf(n.lanes[pos]).deficit < FILL_THRESHOLD || n.bufs == []
  }

  /** One iteration of the loop for link `pos` has nothing to do. */
  ghost predicate LoopStuck(n: Net, pos: nat)
    requires |n.lanes| == 2 && pos < 2
  {
    ServiceStuck(n, pos) && ReceiveStuck(n, pos) && ForwardStuck(n, pos) && FillStuck(n, pos)
  }

  /** The kernel has nothing to transmit on link `pos`, or no room to complete it. */
  ghost predicate KernelStuck(n: Net, pos: nat)
    requires |n.lanes| == 2 && pos < 2
  {
    var t := TallyOf(n.lanes[pos]);
    t.flight == 0 && (t.tx == 0 || t.comp == RING_SIZE)
  }

  /** Nothing is left to do on a lane: no packet waits anywhere and no fill is due. */
  ghost predicate LaneQuiet(l: Lane) {
    && l.pending == []
    && |l.link.k.rxLog| == l.link.p.rxTaken
    && |l.link.p.sent| == l.link.p.compTaken
    && l.deficit < FILL_THRESHOLD
  }

  ghost predicate Quiescent(n: Net)
    requires |n.lanes| == 2
  {
    LaneQuiet(n.lanes[0]) && LaneQuiet(n.lanes[1])
  }

  lemma TallySane(n: Net, f: Facts, pos: nat)
    requires Sound(n, f) && pos < 2
    ensures |n.lanes| == 2
    ensures var t := TallyOf(n.lanes[pos]);
            && t.rx >= 0 && t.tx >= 0 && t.comp >= 0
            && t.tx + t.flight + t.comp == |n.lanes[pos].link.p.sent| - n.lanes[pos].link.p.compTaken
    ensures Load(n) >= 0
  {
    hide Addressed, AllFrames, AllWellFormed, InOrder;
    TxBalance(n.lanes[0].link);
    TxBalance(n.lanes[1].link);
  }

  /** If neither iteration and neither kernel finds anything to do, everything is done. The last step
      needs the initial fills to leave the pool its share: 2 * initial <= owned. */
  lemma StuckIsQuiescent(n: Net, f: Facts)
    requires Sound(n, f) && |n.lanes| == 2
    requires LoopStuck(n, 0) && LoopStuck(n, 1) && KernelStuck(n, 0) && KernelStuck(n, 1)
    ensures Quiescent(n)
  {
    hide LaneInv, LinkInv, AllFrames, AllWellFormed, InOrder, RxStages;
    TallySane(n, f, 0);
    TallySane(n, f, 1);
    PoolSize(n, f);
  }

  /** With nothing pending and nothing on a Tx path, the pool holds at least what the deficits ask for. */
  lemma PoolSize(n: Net, f: Facts)
    requires Sound(n, f)
    ensures |n.lanes| == 2
    ensures |n.bufs| + |n.lanes[0].pending| + |n.lanes[1].pending|
              + (|n.lanes[0].link.p.sent| - n.lanes[0].link.p.compTaken)
              + (|n.lanes[1].link.p.sent| - n.lanes[1].link.p.compTaken)
            >= n.lanes[0].deficit + n.lanes[1].deficit
  {
    hide LaneInv, LinkInv, AllFrames, AllWellFormed, InOrder, RxStages, TxStages;
    FrameCounts(n, f);
    assert LaneCounts(n.lanes[0], f) && LaneCounts(n.lanes[1], f);
  }

  // What a quiescent loop can still receive.

  /** Frames are on their way in: in the fill ring, with the kernel or on the Rx ring. */
  ghost predicate StillFed(l: Lane) {
    LinkInv(l.link) && |RxStages(l.link)| > 0
  }

  /** A quiescent link can go on receiving if the initial fill reached the threshold; otherwise only until it
      has received as many packets as frames were ever filled. */
  lemma QuietFed(n: Net, f: Facts, pos: nat)
    requires Sound(n, f) && pos < 2 && |n.lanes| == 2 && Quiescent(n)
    ensures var l := n.lanes[pos];
            StillFed(l) <==> f.initial >= FILL_THRESHOLD || l.stats.rx < f.initial + l.stats.fq
  {
    hide LinkInv, AllFrames, AllWellFormed, InOrder, RxStages, TxStages, Addressed;
    FrameCounts(n, f);
    assert LaneCounts(n.lanes[pos], f);
  }

  /** Below the threshold no fill is ever due. */
  lemma NeverDue(n: Net, m: Net, f: Facts, pos: nat, k: nat)
    requires Sound(n, f) && pos < 2 && DidFill(n, m, pos, k) && ExactFill(n, pos, k) && f.initial < FILL_THRESHOLD
    ensures k == 0
  {
    hide LinkInv, AllFrames, AllWellFormed, InOrder, Addressed, FillOrder, Moved;
    FrameCounts(n, f);
    assert LaneCounts(n.lanes[pos], f);
  }

  lemma PassRefills(n: Net, x: Pass, q: Net, f: Facts, pos: nat)
    requires pos < 2 && Sound(n, f) && Passed(n, x, q, f, pos) && f.initial < FILL_THRESHOLD
    ensures x.fq == 0 && |n.lanes| == |q.lanes| == 2
    ensures forall p :: 0 <= p < 2 ==> q.lanes[p].stats.fq == n.lanes[p].stats.fq
  {
    hide Sound, DidFill, KernelTurn, DidService, DidReceive, DidForward;
    PassSound(n, x, q, f, pos);
    NeverDue(x.m3, q, f, pos, x.fq);
    TurnFills(n, x.m0);
    ServiceFills(x.m0, x.serviced, f, pos, x.cq);
    TurnFills(x.serviced, x.m1);
    ReceiveFills(x.m1, x.received, f, pos, x.rx);
    TurnFills(x.received, x.m2);
    ForwardFills(x.m2, x.forwarded, pos, x.tx);
    TurnFills(x.forwarded, x.m3);
    NoFills(x.m3, q, pos);
  }

  ghost predicate SameFills(n: Net, m: Net) {
    && |n.lanes| == |m.lanes| == 2
    && m.lanes[0].stats.fq == n.lanes[0].stats.fq && m.lanes[1].stats.fq == n.lanes[1].stats.fq
  }

  lemma TurnFills(n: Net, m: Net)
    requires KernelTurn(n, m)
    ensures SameFills(n, m)
  {
    hide LinkInv, Moved;
  }

  lemma ServiceFills(n: Net, m: Net, f: Facts, pos: nat, k: nat)
    requires pos < 2 && DidService(n, m, f, pos, k)
    ensures SameFills(n, m)
  {
    hide LinkInv, Moved, BufsOf, Blanks;
  }

  lemma ReceiveFills(n: Net, m: Net, f: Facts, pos: nat, k: nat)
    requires pos < 2 && DidReceive(n, m, f, pos, k)
    ensures SameFills(n, m)
  {
    hide LinkInv, Moved, BufsOf;
  }

  lemma ForwardFills(n: Net, m: Net, pos: nat, k: nat)
    requires pos < 2 && DidForward(n, m, pos, k)
    ensures SameFills(n, m)
  {
    hide LinkInv, Moved, Descs;
  }

  lemma NoFills(n: Net, m: Net, pos: nat)
    requires pos < 2 && DidFill(n, m, pos, 0)
    ensures SameFills(n, m)
  {
    hide LinkInv, Moved, FillOrder;
  }

  /** So with an initial fill below the threshold, in no run is any link ever filled again. */
  lemma {:induction false} NeverRefilled(heads: seq<Net>, passes: seq<Pass>, f: Facts, pos: nat, i: nat)
    requires pos < 2 && Looped(heads, passes, f, pos) && i < |heads|
    requires Sound(heads[0], f) && f.initial < FILL_THRESHOLD
    ensures Sound(heads[i], f) && |heads[0].lanes| == |heads[i].lanes| == 2
    ensures forall p :: 0 <= p < 2 ==> heads[i].lanes[p].stats.fq == heads[0].lanes[p].stats.fq
  {
    hide Sound, Passed;
    if i == 0 {
      assert |heads[0].lanes| == 2 by { LanesTwo(heads[0], f); }
    } else {
      NeverRefilled(heads, passes, f, pos, i - 1);
      assert Passed(heads[i - 1], passes[i - 1], heads[i - 1 + 1], f, (pos + (i - 1)) % 2);
      PassRefills(heads[i - 1], passes[i - 1], heads[i], f, (pos + (i - 1)) % 2);
      PassSound(heads[i - 1], passes[i - 1], heads[i], f, (pos + (i - 1)) % 2);
    }
  }

  lemma LanesTwo(n: Net, f: Facts)
    requires Sound(n, f)
    ensures |n.lanes| == 2
  {
  }

  lemma PassSound(n: Net, x: Pass, q: Net, f: Facts, pos: nat)
    requires pos < 2 && Sound(n, f) && Passed(n, x, q, f, pos)
    ensures Sound(x.m3, f) && Sound(q, f)
  {
    hide Sound, KernelTurn, DidService, DidReceive, DidForward, DidFill;
    KernelTurnKeeps(n, x.m0, f);
    ServiceKeeps(x.m0, x.serviced, f, pos, x.cq);
    KernelTurnKeeps(x.serviced, x.m1, f);
    ReceiveKeeps(x.m1, x.received, f, pos, x.rx);
    KernelTurnKeeps(x.received, x.m2, f);
    ForwardKeeps(x.m2, x.forwarded, f, pos, x.tx);
    KernelTurnKeeps(x.forwarded, x.m3, f);
    FillKeeps(x.m3, q, f, pos, x.fq);
  }

  // On a silent wire a quiescent loop stays quiescent, whoever moves.

  lemma QuietMove(l: Lane, r: Lane, s: State)
    requires LaneQuiet(l) && r.pending == [] && r.deficit <= l.deficit && l.link.k.Silent()
    requires LinkInv(r.link) && Moved(s, r.link) && s.k == l.link.k
    requires s.p.sent == l.link.p.sent && l.link.p.rxTaken <= s.p.rxTaken && l.link.p.compTaken <= s.p.compTaken
    ensures LaneQuiet(r)
  {
    TxBalance(r.link);
  }

  lemma KernelTurnQuiet(n: Net, m: Net)
    requires KernelTurn(n, m) && Silent(n) && Quiescent(n)
    ensures Quiescent(m)
  {
    hide LinkInv, Moved;
    assert forall i :: 0 <= i < 2 ==> m.lanes[i] == n.lanes[i].(link := m.lanes[i].link);
    QuietMove(n.lanes[0], m.lanes[0], n.lanes[0].link);
    QuietMove(n.lanes[1], m.lanes[1], n.lanes[1].link);
  }

  lemma ServiceQuiet(n: Net, m: Net, f: Facts, pos: nat, k: nat)
    requires pos < 2 && DidService(n, m, f, pos, k) && Silent(n) && Quiescent(n)
    ensures Quiescent(m)
  {
    hide LinkInv, Moved;
    var l := n.lanes[pos];
    QuietMove(l, m.lanes[pos], l.link.(p := l.link.p.Services(k, m.lanes[pos].link.p.compSeen)));
  }

  lemma ReceiveQuiet(n: Net, m: Net, f: Facts, pos: nat, k: nat)
    requires pos < 2 && DidReceive(n, m, f, pos, k) && Silent(n) && Quiescent(n)
    ensures Quiescent(m)
  {
    hide LinkInv, BufsOf;
    var l := n.lanes[pos];
    assert k == 0;
    assert Received(l.link, m.lanes[pos].link) == [];
    assert BufsOf(Received(l.link, m.lanes[pos].link), f.bufLen, BufCustom) == [];
    QuietMove(l, m.lanes[pos], l.link.(p := l.link.p.Receives(k, m.lanes[pos].link.p.rxSeen)));
  }

  lemma ForwardQuiet(n: Net, m: Net, pos: nat, k: nat)
    requires pos < 2 && DidForward(n, m, pos, k) && Silent(n) && Quiescent(n)
    ensures Quiescent(m)
  {
    hide LinkInv, Moved;
    var lo := n.lanes[1 - pos];
    assert Descs(n.lanes[pos].pending[..k]) == [];
    var sent := lo.link.p.sent + Descs(n.lanes[pos].pending[..k]);
    QuietMove(lo, m.lanes[1 - pos], lo.link.(p := lo.link.p.(sent := sent)));
  }

  lemma FillQuiet(n: Net, m: Net, pos: nat, k: nat)
    requires pos < 2 && DidFill(n, m, pos, k) && Silent(n) && Quiescent(n)
    ensures Quiescent(m)
  {
    hide LinkInv, Moved, FillOrder;
    var l := n.lanes[pos];
    QuietMove(l, m.lanes[pos], l.link.(p := l.link.p.Fills(FillOrder(n.bufs, k))));
  }

  // The four parts of an iteration: the kernel runs, then the program acts.

  /** On a silent wire the load did not grow, if it stayed then `stuck`, and quiet stays quiet. */
  ghost predicate Went(n: Net, q: Net, stuck: bool)
    requires |n.lanes| == |q.lanes| == 2
  {
    Silent(n) ==>
      && Downhill(n, q)
      && (Load(q) == Load(n) ==> stuck)
      && (Quiescent(n) ==> Quiescent(q))
  }

  lemma ServiceNothing(m: Net, q: Net, f: Facts, pos: nat)
    requires pos < 2 && Sound(m, f) && DidService(m, q, f, pos, 0)
    ensures ServiceStuck(m, pos)
  {
    hide LaneInv, LinkInv, Moved, AllFrames, InOrder, AllWellFormed;
    VecHasRoom(m, f, pos);
    TallySane(m, f, pos);
  }

  lemma ReceiveNothing(m: Net, q: Net, f: Facts, pos: nat)
    requires pos < 2 && Sound(m, f) && DidReceive(m, q, f, pos, 0)
    ensures ReceiveStuck(m, pos)
  {
    hide LaneInv, LinkInv, Moved, AllFrames, InOrder, AllWellFormed;
    TallySane(m, f, pos);
  }

  lemma ForwardNothing(m: Net, q: Net, f: Facts, pos: nat)
    requires pos < 2 && Sound(m, f) && DidForward(m, q, pos, 0)
    ensures ForwardStuck(m, pos)
  {
    hide LinkInv, Moved, AllFrames, InOrder, AllWellFormed, Addressed;
  }

  lemma ServiceWent(n: Net, m: Net, q: Net, f: Facts, pos: nat, k: nat)
    requires |n.lanes| == |m.lanes| == |q.lanes| == 2
    requires pos < 2 && Sound(m, f) && KernelTurn(n, m) && DidService(m, q, f, pos, k)
    ensures Went(n, q, ServiceStuck(n, pos))
  {
    hide Sound, KernelTurn, DidService, Load, Quiescent, SameTallies, Silent, TallyOf;
    if Silent(n) {
      KernelTurnDownhill(n, m);
      ServiceDownhill(m, q, f, pos, k);
      DownhillTransitive(n, m, q);
      if k == 0 { ServiceNothing(m, q, f, pos); }
      if Quiescent(n) {
        KernelTurnQuiet(n, m);
        ServiceQuiet(m, q, f, pos, k);
      }
    }
  }

  lemma ReceiveWent(n: Net, m: Net, q: Net, f: Facts, pos: nat, k: nat)
    requires |n.lanes| == |m.lanes| == |q.lanes| == 2
    requires pos < 2 && Sound(m, f) && KernelTurn(n, m) && DidReceive(m, q, f, pos, k)
    ensures Went(n, q, ReceiveStuck(n, pos))
  {
    hide Sound, KernelTurn, DidReceive, Load, Quiescent, SameTallies, Silent, TallyOf;
    if Silent(n) {
      KernelTurnDownhill(n, m);
      ReceiveDownhill(m, q, f, pos, k);
      DownhillTransitive(n, m, q);
      if k == 0 { ReceiveNothing(m, q, f, pos); }
      if Quiescent(n) {
        KernelTurnQuiet(n, m);
        ReceiveQuiet(m, q, f, pos, k);
      }
    }
  }

  lemma ForwardWent(n: Net, m: Net, q: Net, f: Facts, pos: nat, k: nat)
    requires |n.lanes| == |m.lanes| == |q.lanes| == 2
    requires pos < 2 && Sound(m, f) && KernelTurn(n, m) && DidForward(m, q, pos, k)
    ensures Went(n, q, ForwardStuck(n, pos))
  {
    hide Sound, KernelTurn, DidForward, Load, Quiescent, SameTallies, Silent, TallyOf;
    if Silent(n) {
      KernelTurnDownhill(n, m);
      ForwardDownhill(m, q, pos, k);
      DownhillTransitive(n, m, q);
      if k == 0 { ForwardNothing(m, q, f, pos); }
      if Quiescent(n) {
        KernelTurnQuiet(n, m);
        ForwardQuiet(m, q, pos, k);
      }
    }
  }

  lemma FillWent(n: Net, m: Net, q: Net, f: Facts, pos: nat, k: nat)
    requires |n.lanes| == |m.lanes| == |q.lanes| == 2
    requires pos < 2 && Sound(m, f) && KernelTurn(n, m) && DidFill(m, q, pos, k)
    requires ExactFill(m, pos, k)
    ensures Went(n, q, FillStuck(n, pos))
  {
    hide Sound, KernelTurn, DidFill, Load, Quiescent, Silent;
    if Silent(n) {
      KernelTurnDownhill(n, m);
      FillDownhill(m, q, pos, k);
      DownhillTransitive(n, m, q);
      if Quiescent(n) {
        KernelTurnQuiet(n, m);
        FillQuiet(m, q, pos, k);
      }
    }
  }

  /** The four parts together: an iteration on link `pos`. */
  lemma IterationWent(v0: Net, v1: Net, v2: Net, v3: Net, v4: Net, pos: nat)
    requires pos < 2 && |v0.lanes| == |v1.lanes| == |v2.lanes| == |v3.lanes| == |v4.lanes| == 2
    requires Went(v0, v1, ServiceStuck(v0, pos)) && Went(v1, v2, ReceiveStuck(v1, pos))
    requires Went(v2, v3, ForwardStuck(v2, pos)) && Went(v3, v4, FillStuck(v3, pos))
    ensures Went(v0, v4, LoopStuck(v0, pos))
  {
    hide Load, Quiescent;
    if Silent(v0) {
      DownhillTransitive(v0, v1, v2);
      DownhillTransitive(v0, v2, v3);
      DownhillTransitive(v0, v3, v4);
    }
  }

  // A round: both kernels transmit what they can, then the loop runs once for each link.

  ghost predicate Transmitted(s: State) {
    s.k.flight == [] && (s.k.txTaken >= |s.p.sent| || |s.k.compLog| >= s.p.compTaken + s.cfg.compSize)
  }

  lemma TransmitWent(n: Net, m: Net, f: Facts)
    requires Sound(m, f) && KernelTurn(n, m)
    requires |m.lanes| == 2 && Transmitted(m.lanes[0].link) && Transmitted(m.lanes[1].link)
    ensures |n.lanes| == 2 && Went(n, m, KernelStuck(n, 0) && KernelStuck(n, 1))
  {
    if Silent(n) {
      KernelTurnDownhill(n, m);
      TransmittedStuck(m, f, 0);
      TransmittedStuck(m, f, 1);
      hide Sound, KernelTurn, Load, Quiescent, Transmitted;
      if Quiescent(n) {
        KernelTurnQuiet(n, m);
      }
    }
  }

  lemma TransmittedStuck(m: Net, f: Facts, pos: nat)
    requires Sound(m, f) && pos < 2 && |m.lanes| == 2 && Transmitted(m.lanes[pos].link)
    ensures KernelStuck(m, pos)
  {
    hide Addressed, InOrder, AllFrames, AllWellFormed, RxAccounted, TxAccounted;
  }

  lemma RoundWent(v0: Net, v1: Net, v2: Net, v3: Net, f: Facts, pos: nat)
    requires pos < 2 && |v0.lanes| == |v1.lanes| == |v2.lanes| == |v3.lanes| == 2 && Sound(v1, f)
    requires Went(v0, v1, KernelStuck(v0, 0) && KernelStuck(v0, 1))
    requires Went(v1, v2, LoopStuck(v1, pos)) && Went(v2, v3, LoopStuck(v2, 1 - pos))
    ensures Went(v0, v3, Quiescent(v3))
  {
    hide Sound, Load, Quiescent, KernelStuck, LoopStuck, SameTallies;
    if Silent(v0) {
      DownhillTransitive(v0, v1, v2);
      DownhillTransitive(v0, v2, v3);
      if Load(v3) == Load(v0) {
        SameStuck(v0, v1);
        SameStuck(v1, v2);
        StuckIsQuiescent(v1, f);
      }
    }
  }

  lemma SameStuck(n: Net, m: Net)
    requires |n.lanes| == |m.lanes| == 2 && SameTallies(n, m)
    ensures forall p :: 0 <= p < 2 ==>
      (LoopStuck(n, p) <==> LoopStuck(m, p)) && (KernelStuck(n, p) <==> KernelStuck(m, p))
  {
  }

  lemma NoLoadIsQuiescent(n: Net, f: Facts)
    requires Sound(n, f) && |n.lanes| == 2 && Load(n) <= 0
    ensures Quiescent(n)
  {
    hide Addressed, InOrder, AllFrames, AllWellFormed, LaneInv, LinkInv;
    TallySane(n, f, 0);
    TallySane(n, f, 1);
  }

  /** The load is bounded by what the loop owns. */
  lemma LoadBounded(n: Net, f: Facts)
    requires Sound(n, f)
    ensures |n.lanes| == 2 && Load(n) <= 9 * |f.owned|
  {
    hide Sound, LinkInv, RxStages, TxStages;
    FrameCounts(n, f);
    LaneLoad(n, f, 0);
    LaneLoad(n, f, 1);
    assert 2 * f.initial <= |f.owned| by { Owns(n, f); }
  }

  lemma LaneLoad(n: Net, f: Facts, pos: nat)
    requires Sound(n, f) && pos < 2 && |n.lanes| == 2
    requires LinkInv(n.lanes[pos].link) && LaneCounts(n.lanes[pos], f)
    ensures TallyOf(n.lanes[pos]).Load() <= 8 * OutOfPool(n.lanes[pos]) + f.initial
  {
    hide Addressed, AllFrames, AllWellFormed, InOrder, RxStages, TxStages;
    assert n.lanes[pos].deficit <= f.initial;
  }

  lemma Owns(n: Net, f: Facts)
    requires Sound(n, f)
    ensures 2 * f.initial <= |f.owned|
  {
  }
}
