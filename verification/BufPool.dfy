/** BufPoolVec: the shared pool of buffers. `get` and `put` move a suffix, keeping its order. */
module BufPool {
  import opened Bits
  import opened Frames

  /** A pool and the Vec a caller exchanges buffers with. */
  datatype Exchange<T> = Exchange(pool: seq<T>, bufs: seq<T>)

  /** What a `get` of `num` does. */
  function AfterGet<T>(e: Exchange<T>, num: nat): Exchange<T> {
    var start := |e.pool| - Min(num, |e.pool|);
    Exchange(e.pool[..start], e.bufs + e.pool[start..])
  }

  /** What a `put` of `num` does. */
  function AfterPut<T>(e: Exchange<T>, num: nat): Exchange<T> {
    var start := |e.bufs| - Min(num, |e.bufs|);
    Exchange(e.pool + e.bufs[start..], e.bufs[..start])
  }

  class BufPoolVec<T> {
    const bufs: Vec<T>

    ghost predicate Valid()
      reads this, bufs
    {
      bufs.Valid()
    }

    constructor (capacity: nat)
      ensures Valid() && fresh(bufs) && bufs.items == [] && bufs.capacity == capacity
    {
      bufs := new Vec<T>(capacity);
    }

    method Get(to: Vec<T>, num: nat) returns (ready: nat)
      requires Valid() && to.Valid() && to != bufs
      modifies bufs`items, to
      ensures Valid() && to.Valid() && ready == Min(num, |old(bufs.items)|)
      ensures Exchange(bufs.items, to.items) == AfterGet(old(Exchange(bufs.items, to.items)), num)
      ensures old(bufs.items) == bufs.items + to.items[|old(to.items)|..] && old(to.items) <= to.items
      ensures |to.items| == |old(to.items)| + ready
      ensures |to.items| <= old(to.capacity) ==> to.capacity == old(to.capacity)
    {
      ready := Min(num, |bufs.items|);
      var start := |bufs.items| - ready;
      var taken := bufs.DrainFrom(start);
      to.Extend(taken);
    }

    method Put(from: Vec<T>, num: nat) returns (ready: nat)
      requires Valid() && from.Valid() && from != bufs
      modifies bufs, from`items
      ensures Valid() && from.Valid() && ready == Min(num, |old(from.items)|)
      ensures Exchange(bufs.items, from.items) == AfterPut(old(Exchange(bufs.items, from.items)), num)
      ensures old(from.items) == from.items + bufs.items[|old(bufs.items)|..] && old(bufs.items) <= bufs.items
      ensures |bufs.items| == |old(bufs.items)| + ready
    {
      ready := Min(num, |from.items|);
      var start := |from.items| - ready;
      var given := from.DrainFrom(start);
      bufs.Extend(given);
    }

    method PutBuf(buf: T) returns (n: nat)
      requires Valid()
      modifies bufs
      ensures Valid() && n == 1 && bufs.items == old(bufs.items) + [buf]
    {
      bufs.Push(buf);
      n := 1;
    }

    method Len() returns (n: nat)
      requires Valid()
      ensures n == |bufs.items|
    {
      n := |bufs.items|;
    }
  }

  /** `put` and then `get` of the count it returned restores both sides exactly, order included. */
  lemma PutThenGet<T>(e: Exchange<T>, num: nat)
    ensures AfterGet(AfterPut(e, num), Min(num, |e.bufs|)) == e
  {
    var start := |e.bufs| - Min(num, |e.bufs|);
    assert e.bufs == e.bufs[..start] + e.bufs[start..];
    var p := AfterPut(e, num);
    assert p.pool[..|e.pool|] == e.pool && p.pool[|e.pool|..] == e.bufs[start..];
  }

  lemma GetThenPut<T>(e: Exchange<T>, num: nat)
    ensures AfterPut(AfterGet(e, num), Min(num, |e.pool|)) == e
  {
    var start := |e.pool| - Min(num, |e.pool|);
    assert e.pool == e.pool[..start] + e.pool[start..];
    var g := AfterGet(e, num);
    assert g.bufs[..|e.bufs|] == e.bufs && g.bufs[|e.bufs|..] == e.pool[start..];
  }

  datatype Op<T> = Get(num: nat) | Put(num: nat) | PutBuf(buf: T)

  function After<T>(e: Exchange<T>, ops: seq<Op<T>>): Exchange<T>
    decreases |ops|
  {
    if ops == [] then e else
      After(match ops[0]
              case Get(num) => AfterGet(e, num)
              case Put(num) => AfterPut(e, num)
              case PutBuf(buf) => Exchange(e.pool + [buf], e.bufs),
            ops[1..])
  }

  function Added<T>(ops: seq<Op<T>>): seq<T> {
    if ops == [] then [] else (if ops[0].PutBuf? then [ops[0].buf] else []) + Added(ops[1..])
  }

  /** No sequence of operations loses or duplicates a buffer. */
  lemma {:induction false} PoolConserves<T>(e: Exchange<T>, ops: seq<Op<T>>)
    ensures multiset(After(e, ops).pool) + multiset(After(e, ops).bufs)
            == multiset(e.pool) + multiset(e.bufs) + multiset(Added(ops))
    decreases |ops|
  {
    if ops != [] {
      match ops[0]
      case Get(num) =>
        var start := |e.pool| - Min(num, |e.pool|);
        assert e.pool == e.pool[..start] + e.pool[start..];
        PoolConserves(AfterGet(e, num), ops[1..]);
        assert Added(ops) == Added(ops[1..]);
      case Put(num) =>
        var start := |e.bufs| - Min(num, |e.bufs|);
        assert e.bufs == e.bufs[..start] + e.bufs[start..];
        PoolConserves(AfterPut(e, num), ops[1..]);
        assert Added(ops) == Added(ops[1..]);
      case PutBuf(buf) =>
        PoolConserves(Exchange(e.pool + [buf], e.bufs), ops[1..]);
    }
  }
}
