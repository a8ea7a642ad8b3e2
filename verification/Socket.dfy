/** The two halves of a socket. Between every two actions of the program the kernel may run. */
module Socket {
  import opened Bits
  import opened Frames
  import opened LinkState
  import opened Kernel

  /** SocketRx::try_recv. The deque gains the next packets in order. The program's panic on a displaced
      buffer is the assertion in the loop: it never fires. */
  method TryRecv<T>(link: Link, bufs: Deque<Buf<T>>, batchSize: nat, user: T) returns (rcvd: nat, ghost ks: seq<Snap>)
    requires link.Valid() && link.View().p.Idle() && bufs.Valid() && bufs !in link.Repr
    modifies link.Repr, link.mem, bufs`items
    ensures link.Valid() && bufs.Valid()
    ensures RxGrants(old(link.View()), link.View(), rcvd, Min(bufs.capacity - |old(bufs.items)|, batchSize))
    ensures rcvd == 0 ==> Min(bufs.capacity - |old(bufs.items)|, batchSize) == 0 ||
                          old(link.View()).p.rxTaken >= |old(link.View()).k.rxLog|
    ensures ks != [] && ks[0] == Snap(old(link.View()).k, old(link.mem[..]))
    ensures var p := old(link.View()).p.Receives(rcvd, link.View().p.rxSeen);
      Ran(old(link.View()), p, ks, link.View(), link.mem[..]) && Moved(old(link.View()).(p := p), link.View())
    ensures old(link.View()).p.rxTaken + rcvd <= |link.View().k.rxLog|
    ensures bufs.items == old(bufs.items) + BufsOf(Received(old(link.View()), link.View()), link.bufLen, user)
  {
    hide Link.Valid, Link.Owns, Link.View, Ran, Progress, LinkInv, BufsOf, Wrap, WrapAdd;
    ghost var s0, was, p := link.View(), bufs.items, link.View().p;
    link.KeepsAccounts();
    ks := [Snap(s0.k, link.mem[..])];
    RanNothing(s0, link.mem[..]);
    var n := Min(bufs.capacity - |bufs.items|, batchSize);
    ks := link.KernelRun(s0, p, ks);
    RanMoved(s0, p, ks, link.View(), link.mem[..]);
    ghost var v := link.View();
    var idx: u32;
    rcvd, idx := link.RxPeek(n);
    ghost var entries, seen := link.View().p.rxOp.entries, link.View().p.rxSeen;
    p := s0.p.(rxOp := Window(entries, 0), rxSeen := seen);
    RanOn(s0, s0.p, ks, v, link.mem[..], p);
    var i := 0;
    while i < rcvd
      invariant i <= rcvd == |entries| && link.Valid() && bufs.Valid()
      invariant p == s0.p.(rxOp := Window(entries, i), rxSeen := seen)
      invariant ks != [] && ks[0] == Snap(s0.k, old(link.mem[..]))
      invariant Ran(s0, p, ks, link.View(), link.mem[..])
      invariant bufs.items == was + BufsOf(entries[..i], link.bufLen, user)
      invariant rcvd > 0 ==> idx == Wrap(s0.p.rxTaken + i)
    {
      ks := link.KernelRun(s0, p, ks);
      v := link.View();
      ghost var q := s0.p.(rxOp := Window(entries, i + 1), rxSeen := seen);
      RanOn(s0, p, ks, v, link.mem[..], q);
      var d := link.RxRead(idx);
      p := q;
      BufsOfNext(entries, i, link.bufLen, user);
      var displaced := bufs.PushBack(BufOf(d, link.bufLen, user));
      assert !displaced;
      WrapAddIsWrap(s0.p.rxTaken + i, 1);
      idx := WrapAdd(idx, 1);
      i := i + 1;
    }
    assert entries[..rcvd] == entries;
    ks := link.KernelRun(s0, p, ks);
    v := link.View();
    ghost var done := s0.p.Receives(rcvd, seen);
    RanOn(s0, p, ks, v, link.mem[..], done);
    link.RxRelease(rcvd);
    RanMoved(s0, done, ks, link.View(), link.mem[..]);
  }

  /** SocketTx::try_send. The Tx ring gains the front of the deque, in order. */
  method TrySend<T>(link: Link, bufs: Deque<Buf<T>>, batchSize: nat) returns (ready: nat, ghost ks: seq<Snap>)
    requires link.Valid() && link.View().p.Idle() && bufs.Valid() && bufs !in link.Repr
    modifies link.Repr, link.mem, bufs`items
    ensures link.Valid() && bufs.Valid()
    ensures ready == 0 || ready == Min(|old(bufs.items)|, batchSize)
    ensures |old(link.View()).p.sent| - old(link.View()).k.txTaken + Min(|old(bufs.items)|, batchSize)
              <= old(link.View()).cfg.txSize
            ==> ready == Min(|old(bufs.items)|, batchSize)
    ensures bufs.items == old(bufs.items)[ready..]
    ensures ks != [] && ks[0] == Snap(old(link.View()).k, old(link.mem[..]))
    ensures Ran(old(link.View()), old(link.View()).p.Sends(Descs(old(bufs.items)[..ready])), ks,
                link.View(), link.mem[..])
    ensures Moved(old(link.View()).(p := old(link.View()).p.Sends(Descs(old(bufs.items)[..ready]))), link.View())
  {
    hide Link.Valid, Link.Owns, Link.View, Ran, Progress, LinkInv, Descs, Wrap, WrapAdd;
    ghost var s0, was, p := link.View(), bufs.items, link.View().p;
    link.KeepsAccounts();
    ks := [Snap(s0.k, link.mem[..])];
    RanNothing(s0, link.mem[..]);
    ready := 0;
    var n := Min(|bufs.items|, batchSize);
    assert Descs(was[..0]) == [] && s0.p.sent + [] == s0.p.sent;
    if n == 0 {
      RanMoved(s0, s0.p, ks, link.View(), link.mem[..]);
      return;
    }
    ks := link.KernelRun(s0, p, ks);
    RanMoved(s0, p, ks, link.View(), link.mem[..]);
    ghost var v := link.View();
    var idx: u32;
    ready, idx := link.TxReserve(n);
    p := s0.p.(txOp := Grant(ready, Descs(was[..0])));
    RanOn(s0, s0.p, ks, v, link.mem[..], p);
    var i := 0;
    while i < ready
      invariant i <= ready && link.Valid() && bufs.Valid()
      invariant p == s0.p.(txOp := Grant(ready, Descs(was[..i])))
      invariant ks != [] && ks[0] == Snap(s0.k, old(link.mem[..]))
      invariant Ran(s0, p, ks, link.View(), link.mem[..])
      invariant bufs.items == was[i..]
      invariant ready > 0 ==> idx == Wrap(|s0.p.sent| + i)
    {
      ks := link.KernelRun(s0, p, ks);
      v := link.View();
      DescsNext(was, i);
      ghost var q := s0.p.(txOp := Grant(ready, Descs(was[..i + 1])));
      RanOn(s0, p, ks, v, link.mem[..], q);
      var b := bufs.PopFront();
      link.TxWrite(idx, Desc(b.addr, b.len));
      p := q;
      WrapAddIsWrap(|s0.p.sent| + i, 1);
      idx := WrapAdd(idx, 1);
      i := i + 1;
    }
    ks := link.KernelRun(s0, p, ks);
    v := link.View();
    ghost var done := s0.p.Sends(Descs(was[..ready]));
    RanOn(s0, p, ks, v, link.mem[..], done);
    if ready > 0 {
      link.TxSubmit(ready);
    }
    RanMoved(s0, done, ks, link.View(), link.mem[..]);
  }
}
