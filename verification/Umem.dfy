/** The two queues of a umem. Between every two actions of the program the kernel may run. */
module Umem {
  import opened Bits
  import opened Frames
  import opened LinkState
  import opened Kernel

  /** UmemFillQueue::fill. Whatever the kernel does meanwhile, the fill ring is all that the program
      changes, and it gains the taken buffers' addresses, last buffer first. */
  method Fill<T>(link: Link, bufs: Vec<Buf<T>>, batchSize: nat) returns (ready: nat, ghost ks: seq<Snap>)
    requires link.Valid() && link.View().p.Idle() && bufs.Valid() && bufs !in link.Repr
    modifies link.Repr, link.mem, bufs`items
    ensures link.Valid() && bufs.Valid()
    ensures ready == 0 || ready == Min(|old(bufs.items)|, batchSize)
    ensures |old(link.View()).p.filled| - old(link.View()).k.fillTaken + Min(|old(bufs.items)|, batchSize)
              <= old(link.View()).cfg.fillSize
            ==> ready == Min(|old(bufs.items)|, batchSize)
    ensures bufs.items == old(bufs.items)[..|old(bufs.items)| - ready]
    ensures ks != [] && ks[0] == Snap(old(link.View()).k, old(link.mem[..]))
    ensures Ran(old(link.View()), old(link.View()).p.Fills(FillOrder(old(bufs.items), ready)), ks,
                link.View(), link.mem[..])
    ensures Moved(old(link.View()).(p := old(link.View()).p.Fills(FillOrder(old(bufs.items), ready))), link.View())
  {
    hide Link.Valid, Link.Owns, Link.View, Ran, Progress, LinkInv, FillOrder, Wrap, WrapAdd;
    ghost var s0, was, p := link.View(), bufs.items, link.View().p;
    link.KeepsAccounts();
    ks := [Snap(s0.k, link.mem[..])];
    RanNothing(s0, link.mem[..]);
    ready := 0;
    var n := Min(|bufs.items|, batchSize);
    assert FillOrder(was, 0) == [] && s0.p.filled + [] == s0.p.filled;
    if n == 0 {
      RanMoved(s0, s0.p, ks, link.View(), link.mem[..]);
      return;
    }
    ks := link.KernelRun(s0, p, ks);
    RanMoved(s0, p, ks, link.View(), link.mem[..]);
    ghost var v := link.View();
    var idx: u32;
    ready, idx := link.FillReserve(n);
    p := s0.p.(fillOp := Grant(ready, FillOrder(was, 0)));
    RanOn(s0, s0.p, ks, v, link.mem[..], p);
    var i := 0;
    while i < ready
      invariant i <= ready && link.Valid() && bufs.Valid()
      invariant p == s0.p.(fillOp := Grant(ready, FillOrder(was, i)))
      invariant ks != [] && ks[0] == Snap(s0.k, old(link.mem[..]))
      invariant Ran(s0, p, ks, link.View(), link.mem[..])
      invariant bufs.items == was[..|was| - i]
      invariant ready > 0 ==> idx == Wrap(|s0.p.filled| + i)
    {
      ks := link.KernelRun(s0, p, ks);
      v := link.View();
      FillOrderNext(was, i);
      ghost var q := s0.p.(fillOp := Grant(ready, FillOrder(was, i + 1)));
      RanOn(s0, p, ks, v, link.mem[..], q);
      var b := bufs.Pop();
      link.FillWrite(idx, b.addr);
      p := q;
      WrapAddIsWrap(|s0.p.filled| + i, 1);
      idx := WrapAdd(idx, 1);
      i := i + 1;
    }
    ks := link.KernelRun(s0, p, ks);
    v := link.View();
    ghost var done := s0.p.Fills(FillOrder(was, ready));
    RanOn(s0, p, ks, v, link.mem[..], done);
    if ready > 0 {
      link.FillSubmit(ready);
    }
    RanMoved(s0, done, ks, link.View(), link.mem[..]);
  }

  /** UmemCompletionQueue::service. The buffers gained are the next completed addresses in order, with
      length 0 and the default user value `blank`. If the Vec has room and nothing is gained, nothing
      was there; something may be left, since a look at the ring may be stale. */
  method Service<T>(link: Link, bufs: Vec<Buf<T>>, batchSize: nat, blank: T) returns (ready: nat, ghost ks: seq<Snap>)
    requires link.Valid() && link.View().p.Idle() && bufs.Valid() && bufs !in link.Repr
    modifies link.Repr, link.mem, bufs
    ensures link.Valid() && bufs.Valid()
    ensures CompGrants(old(link.View()), link.View(), ready, Min(old(bufs.capacity) - |old(bufs.items)|, batchSize))
    ensures ready == 0 ==> Min(old(bufs.capacity) - |old(bufs.items)|, batchSize) == 0 ||
                           old(link.View()).p.compTaken >= |old(link.View()).k.compLog|
    ensures ks != [] && ks[0] == Snap(old(link.View()).k, old(link.mem[..]))
    ensures var p := old(link.View()).p.Services(ready, link.View().p.compSeen);
      Ran(old(link.View()), p, ks, link.View(), link.mem[..]) && Moved(old(link.View()).(p := p), link.View())
    ensures old(link.View()).p.compTaken + ready <= |link.View().k.compLog|
    ensures bufs.items == old(bufs.items) + BufsOf(Blanks(Completed(old(link.View()), link.View())), link.bufLen, blank)
    ensures bufs.capacity == old(bufs.capacity)
  {
    hide Link.Valid, Link.Owns, Link.View, Ran, Progress, LinkInv, BufsOf, Blanks, Wrap, WrapAdd;
    ghost var s0, was, p := link.View(), bufs.items, link.View().p;
    link.KeepsAccounts();
    ks := [Snap(s0.k, link.mem[..])];
    RanNothing(s0, link.mem[..]);
    var n := Min(bufs.capacity - |bufs.items|, batchSize);
    ks := link.KernelRun(s0, p, ks);
    RanMoved(s0, p, ks, link.View(), link.mem[..]);
    ghost var v := link.View();
    var idx: u32;
    ready, idx := link.CompPeek(n);
    ghost var entries, seen := link.View().p.compOp.entries, link.View().p.compSeen;
    p := s0.p.(compOp := Window(entries, 0), compSeen := seen);
    RanOn(s0, s0.p, ks, v, link.mem[..], p);
    var i := 0;
    while i < ready
      invariant i <= ready == |entries| && link.Valid() && bufs.Valid()
      invariant p == s0.p.(compOp := Window(entries, i), compSeen := seen)
      invariant ks != [] && ks[0] == Snap(s0.k, old(link.mem[..]))
      invariant Ran(s0, p, ks, link.View(), link.mem[..])
      invariant bufs.items == was + BufsOf(Blanks(entries)[..i], link.bufLen, blank)
      invariant bufs.capacity == old(bufs.capacity)
      invariant ready > 0 ==> idx == Wrap(s0.p.compTaken + i)
    {
      ks := link.KernelRun(s0, p, ks);
      v := link.View();
      ghost var q := s0.p.(compOp := Window(entries, i + 1), compSeen := seen);
      RanOn(s0, p, ks, v, link.mem[..], q);
      var a := link.CompRead(idx);
      p := q;
      BlanksAt(entries, i);
      BufsOfNext(Blanks(entries), i, link.bufLen, blank);
      WrapAddIsWrap(s0.p.compTaken + i, 1);
      idx := WrapAdd(idx, 1);
      bufs.Push(BufOf(Blank(a), link.bufLen, blank));
      i := i + 1;
    }
    assert Blanks(entries)[..ready] == Blanks(entries);
    ks := link.KernelRun(s0, p, ks);
    v := link.View();
    ghost var done := s0.p.Services(ready, seen);
    RanOn(s0, p, ks, v, link.mem[..], done);
    link.CompRelease(ready);
    RanMoved(s0, done, ks, link.View(), link.mem[..]);
  }
}
