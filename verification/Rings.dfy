/** The shared rings of AF_XDP, as libbpf's `xsk.h` drives them.

    `ProdRing` is a ring the program produces on (fill, Tx); `ConsRing` is one it consumes from (Rx,
    completion). Cursors are free-running u32 values that wrap; the side that is not the program is
    the kernel, and `Kernel...` methods are its moves.

    Ghost fields record what really happened: `hist` is everything ever published, however long,
    and `taken` how much of it the consumer has given back. `Valid` ties the wrapped cursors and the
    slots to that history, so every contract below reads as one about an unbounded FIFO. */
module Rings {
  import opened Bits

  class ProdRing<T(0)> {
    const size: u32
    const mask: u32
    const slots: array<T>
    var producer: u32     // shared: advanced by submit
    var consumer: u32     // shared: advanced by the kernel
    var cachedProd: u32   // private: advanced by reserve
    var cachedCons: u32   // private: last consumer seen, plus size

    ghost var hist: seq<T>      // everything ever submitted
    ghost var taken: nat        // how much of it the kernel has consumed
    ghost var reserved: nat     // slots granted and not yet submitted
    ghost var staged: seq<T>    // what has been written into the granted slots so far
    ghost var seen: nat         // value of `taken` when cachedCons was last refreshed

    ghost predicate Valid()
      reads this, slots
    {
      && size > 0 && IsPowOfTwo(size) && mask == size - 1 && slots.Length == size
      && seen <= taken <= |hist|
      && |hist| + reserved - seen <= size
      && |staged| <= reserved
      && producer == Wrap(|hist|)
      && consumer == Wrap(taken)
      && cachedProd == Wrap(|hist| + reserved)
      && cachedCons == Wrap(seen + size)
      && (forall i: nat {:trigger hist[i]} :: taken <= i < |hist| ==> slots[Slot(i, size)] == hist[i])
      && (forall j: nat {:trigger staged[j]} :: j < |staged| ==> slots[Slot(|hist| + j, size)] == staged[j])
    }

    /** No reservation is open: the state between two operations. */
    ghost predicate Idle()
      reads this
    {
      reserved == 0 && staged == []
    }

    constructor (size: u32, initial: T)
      requires IsPowOfTwo(size)
      ensures Valid() && Idle() && fresh(slots)
      ensures this.size == size && hist == [] && taken == 0
    {
      this.size, mask := size, size - 1;
      slots := new T[size](_ => initial);
      producer, consumer, cachedProd, cachedCons := 0, 0, 0, Wrap(size);
      hist, taken, reserved, staged, seen := [], 0, 0, [], 0;
    }

    /** How many slots are free, as far as `n` are wanted: the consumer is only looked at again when the
        last look does not show enough. */
    method FreeSlots(n: nat) returns (free: nat)
      requires Valid() && Idle()
      modifies this`cachedCons, this`seen
      ensures Valid() && free == seen + size - |hist|
      ensures free >= n <==> |hist| - taken + n <= size
    {
      hide Wrap, Slot, WrapAdd, WrapSub, BitAnd, IsPowOfTwo;
      WrapSubIsDistance(seen + size, |hist|);
      free := WrapSub(cachedCons, cachedProd);
      if free < n {
        cachedCons := WrapAdd(consumer, size);
        seen := taken;
        WrapAddIsWrap(taken, size);
        WrapSubIsDistance(taken + size, |hist|);
        free := WrapSub(cachedCons, cachedProd);
      }
    }

    /** Grants all of `n` or nothing, and everything exactly when the kernel has freed enough. */
    method Reserve(n: nat) returns (granted: nat, idx: u32)
      requires Valid() && Idle()
      modifies this`cachedProd, this`cachedCons, this`reserved, this`seen
      ensures Valid() && staged == []
      ensures granted == reserved && (granted == 0 || granted == n)
      ensures granted == n <==> n == 0 || |hist| - taken + n <= size
      ensures granted > 0 ==> idx == Wrap(|hist|)
    {
      hide Wrap, Slot, WrapAdd, WrapSub, BitAnd, IsPowOfTwo;
      var free := FreeSlots(n);
      idx := cachedProd;
      if free < n {
        granted := 0;
      } else {
        granted := n;
        WrapAddIsWrap(|hist|, n);
        cachedProd := WrapAdd(cachedProd, n);
        reserved := n;
      }
    }

    /** Write the next granted slot. The precondition is the producer's obligation: `idx` names a
        slot that was granted and that has not been written yet. */
    method WriteSlot(idx: u32, x: T)
      requires Valid() && |staged| < reserved
      requires idx == Wrap(|hist| + |staged|)
      modifies slots, this`staged
      ensures Valid() && staged == old(staged) + [x]
    {
      hide Wrap, Slot, WrapAdd, WrapSub, BitAnd, IsPowOfTwo;
      ghost var at := |hist| + |staged|;
      SlotOfCursor(at, size);
      forall i: nat | taken <= i < at ensures Slot(i, size) != Slot(at, size) {
        SlotsDistinct(i, at, size);
      }
      slots[BitAnd(idx, mask)] := x;
      staged := staged + [x];
    }

    /** Publish. The precondition says every granted slot has been written. */
    method Submit(n: nat)
      requires Valid() && n == reserved == |staged|
      modifies this`producer, this`hist, this`staged, this`reserved
      ensures Valid() && Idle() && hist == old(hist) + old(staged)
    {
      hide Wrap, Slot, WrapAdd, WrapSub, BitAnd, IsPowOfTwo;
      WrapAddIsWrap(|hist|, n);
      producer := WrapAdd(producer, n);
      hist, staged, reserved := hist + staged, [], 0;
      assert forall i: nat {:trigger hist[i]} :: taken <= i < |hist| ==> slots[Slot(i, size)] == hist[i] by {
        forall i: nat | taken <= i < |hist| ensures slots[Slot(i, size)] == hist[i] {
          if i >= old(|hist|) {
            assert hist[i] == old(staged)[i - old(|hist|)];
          }
        }
      }
    }

    method KernelHasWork() returns (b: bool)
      requires Valid()
      ensures b <==> taken < |hist|
    {
      hide Wrap, Slot, WrapAdd, BitAnd, IsPowOfTwo;
      b := producer != consumer;
      WrapSubIsDistance(|hist|, taken);
    }

    /** The kernel consumes one entry: it reads the slot its own wrapped cursor names. */
    method KernelTake() returns (x: T)
      requires Valid() && taken < |hist|
      modifies this`consumer, this`taken
      ensures Valid() && taken == old(taken) + 1
      ensures x == hist[old(taken)]
    {
      hide Wrap, Slot, WrapAdd, WrapSub, BitAnd, IsPowOfTwo;
      SlotOfCursor(taken, size);
      x := slots[BitAnd(consumer, mask)];
      WrapAddIsWrap(taken, 1);
      consumer := WrapAdd(consumer, 1);
      taken := taken + 1;
    }
  }

  class ConsRing<T(0)> {
    const size: u32
    const mask: u32
    const slots: array<T>
    var producer: u32     // shared: advanced by the kernel
    var consumer: u32     // shared: advanced by release
    var cachedProd: u32   // private: last producer seen
    var cachedCons: u32   // private: advanced by peek

    ghost var hist: seq<T>    // everything the kernel ever published
    ghost var taken: nat      // how much of it has been released
    ghost var window: seq<T>  // entries granted and not yet released
    ghost var readCount: nat  // how many of those have been read
    ghost var seen: nat       // |hist| when cachedProd was last refreshed

    ghost predicate Valid()
      reads this, slots
    {
      && size > 0 && IsPowOfTwo(size) && mask == size - 1 && slots.Length == size
      && taken + |window| <= seen <= |hist| <= taken + size
      && window == hist[taken..taken + |window|] && readCount <= |window|
      && producer == Wrap(|hist|)
      && consumer == Wrap(taken)
      && cachedProd == Wrap(seen)
      && cachedCons == Wrap(taken + |window|)
      && (forall i: nat {:trigger hist[i]} :: taken <= i < |hist| ==> slots[Slot(i, size)] == hist[i])
    }

    ghost predicate Idle()
      reads this
    {
      window == [] && readCount == 0
    }

    constructor (size: u32, initial: T)
      requires IsPowOfTwo(size)
      ensures Valid() && Idle() && fresh(slots)
      ensures this.size == size && hist == [] && taken == 0 && seen == 0
    {
      this.size, mask := size, size - 1;
      slots := new T[size](_ => initial);
      producer, consumer, cachedProd, cachedCons := 0, 0, 0, 0;
      hist, taken, window, readCount, seen := [], 0, [], 0, 0;
    }

    method Peek(n: nat) returns (granted: nat, idx: u32)
      requires Valid() && Idle()
      modifies this`cachedProd, this`cachedCons, this`window, this`seen
      ensures Valid() && readCount == 0
      ensures granted == |window| <= n
      ensures taken + granted <= |hist| && window == hist[taken..taken + granted]
      ensures granted == Min(n, seen - taken)
      ensures if old(seen) > taken then seen == old(seen) else seen == |hist|
      ensures granted > 0 ==> idx == Wrap(taken)
    {
      hide Wrap, Slot, WrapAdd, WrapSub, BitAnd, IsPowOfTwo;
      WrapSubIsDistance(seen, taken);
      var entries := WrapSub(cachedProd, cachedCons);
      if entries == 0 {
        cachedProd := producer;
        seen := |hist|;
        WrapSubIsDistance(|hist|, taken);
        entries := WrapSub(cachedProd, cachedCons);
      }
      granted := if entries > n then n else entries;
      idx := cachedCons;
      WrapAddIsWrap(taken, granted);
      cachedCons := WrapAdd(cachedCons, granted);
      window := hist[taken..taken + granted];
    }

    /** Read the next granted slot. */
    method ReadSlot(idx: u32) returns (x: T)
      requires Valid() && readCount < |window|
      requires idx == Wrap(taken + readCount)
      modifies this`readCount
      ensures Valid() && readCount == old(readCount) + 1
      ensures taken + old(readCount) < |hist| && x == window[old(readCount)] == hist[taken + old(readCount)]
    {
      hide Wrap, Slot, WrapAdd, WrapSub, BitAnd, IsPowOfTwo;
      SlotOfCursor(taken + readCount, size);
      x := slots[BitAnd(idx, mask)];
      readCount := readCount + 1;
    }

    /** Give the slots back to the kernel. The precondition says every one of them has been read. */
    method Release(n: nat)
      requires Valid() && n == |window| == readCount
      modifies this`consumer, this`taken, this`window, this`readCount
      ensures Valid() && Idle() && taken == old(taken) + n <= |hist|
      ensures hist[old(taken)..taken] == old(window)
    {
      hide Wrap, Slot, WrapAdd, WrapSub, BitAnd, IsPowOfTwo;
      WrapAddIsWrap(taken, n);
      consumer := WrapAdd(consumer, n);
      taken, window, readCount := taken + n, [], 0;
    }

    /** How many published entries have not been released, from the shared cursors alone. */
    method KernelBacklog() returns (n: nat)
      requires Valid()
      ensures n == |hist| - taken
    {
      hide Wrap, Slot, WrapAdd, WrapSub, BitAnd, IsPowOfTwo;
      WrapSubIsDistance(|hist|, taken);
      n := WrapSub(producer, consumer);
    }

    method KernelPublish(x: T)
      requires Valid() && |hist| - taken < size
      modifies slots, this`producer, this`hist
      ensures Valid() && hist == old(hist) + [x]
    {
      hide Wrap, Slot, WrapAdd, WrapSub, BitAnd, IsPowOfTwo;
      SlotOfCursor(|hist|, size);
      forall i: nat | taken <= i < |hist| ensures Slot(i, size) != Slot(|hist|, size) {
        SlotsDistinct(i, |hist|, size);
      }
      slots[BitAnd(producer, mask)] := x;
      WrapAddIsWrap(|hist|, 1);
      producer := WrapAdd(producer, 1);
      hist := hist + [x];
    }
  }
}
