/** The bytes of a memory area, as one flat string: reading and writing part of it, and why what is
    written into one frame is not seen in another. Nothing here keeps frames apart by itself; that they
    are apart follows from where their chunks lie. */
module Memory {
  import opened Bits
  import opened Frames

  type Packet = seq<byte>

  /** The area after `w` was written at `at`. The kernel refuses addresses outside the area. */
  function Poke(mem: seq<byte>, at: nat, w: seq<byte>): (r: seq<byte>)
    ensures |r| == |mem|
  {
    if at + |w| <= |mem| then mem[..at] + w + mem[at + |w|..] else mem
  }

  /** The `n` bytes at `at`. */
  function Cell(mem: seq<byte>, at: nat, n: nat): seq<byte> {
    if at + n <= |mem| then mem[at..at + n] else []
  }

  /** copy_from_slice into the area. */
  method CopyInto(mem: array<byte>, at: nat, w: seq<byte>)
    requires at + |w| <= mem.Length
    modifies mem
    ensures mem[..] == Poke(old(mem[..]), at, w)
  {
    forall i | 0 <= i < |w| {
      mem[at + i] := w[i];
    }
  }

  lemma PokeByte(mem: seq<byte>, at: nat, w: seq<byte>, p: nat)
    requires at + |w| <= |mem| && p < |mem|
    ensures Poke(mem, at, w)[p] == if at <= p < at + |w| then w[p - at] else mem[p]
  {
  }

  /** Two writes side by side are one. */
  lemma PokeTwice(mem: seq<byte>, at: nat, x: seq<byte>, y: seq<byte>)
    requires at + |x| + |y| <= |mem|
    ensures Poke(Poke(mem, at, x), at + |x|, y) == Poke(mem, at, x + y)
  {
  }

  /** What was written is read back. */
  lemma PokeThenCell(mem: seq<byte>, at: nat, w: seq<byte>, n: nat)
    requires at + |w| <= |mem| && n <= |w|
    ensures Cell(Poke(mem, at, w), at, n) == w[..n]
  {
  }

  lemma PokeElsewhere(mem: seq<byte>, at: nat, w: seq<byte>, b: nat, n: nat)
    requires at + |w| <= b || b + n <= at
    ensures Cell(Poke(mem, at, w), b, n) == Cell(mem, b, n)
  {
    if at + |w| <= |mem| && b + n <= |mem| {
      var m := Poke(mem, at, w);
      forall j | b <= j < b + n ensures m[j] == mem[j] {
        PokeByte(mem, at, w, j);
      }
      assert m[b..b + n] == mem[b..b + n];
    }
  }

  /** A shorter piece of a cell. */
  lemma CellPrefix(mem: seq<byte>, at: nat, n: nat, k: nat)
    requires at + n <= |mem| && k <= n
    ensures Cell(mem, at, k) == Cell(mem, at, n)[..k]
  {
  }

  /** The data parts of two chunks never meet. */
  lemma HomesApart(a: Addr, b: Addr, bufLen: ChunkLen)
    requires a % bufLen == b % bufLen && a < b
    ensures a + bufLen <= b
  {
    var q, r := a / bufLen, b / bufLen;
    assert a == bufLen * q + a % bufLen;
    assert b == bufLen * r + b % bufLen;
    assert bufLen * (r - q) == b - a;
    MulBound(bufLen, r - q);
  }

  /** Writing into the data part of one chunk is not seen in another. */
  lemma FramesApart(mem: seq<byte>, a: Addr, w: seq<byte>, b: Addr, n: nat, bufLen: ChunkLen)
    requires a % bufLen == b % bufLen && a != b && |w| <= bufLen && n <= bufLen
    ensures Cell(Poke(mem, a, w), b, n) == Cell(mem, b, n)
  {
    hide Poke, Cell;
    if a < b {
      HomesApart(a, b, bufLen);
    } else {
      HomesApart(b, a, bufLen);
    }
    PokeElsewhere(mem, a, w, b, n);
  }

  /** The area after writes in order. */
  function PokeAll(mem: seq<byte>, ats: seq<Addr>, ws: seq<seq<byte>>): (r: seq<byte>)
    requires |ats| == |ws|
    ensures |r| == |mem|
  {
    if ats == [] then mem
    else
      var n := |ats| - 1;
      Poke(PokeAll(mem, ats[..n], ws[..n]), ats[n], ws[n])
  }

  lemma PokeAllNext(mem: seq<byte>, ats: seq<Addr>, ws: seq<seq<byte>>, a: Addr, w: seq<byte>)
    requires |ats| == |ws|
    ensures PokeAll(mem, ats + [a], ws + [w]) == Poke(PokeAll(mem, ats, ws), a, w)
  {
    var n := |ats|;
    assert (ats + [a])[..n] == ats && (ws + [w])[..n] == ws;
  }

  /** Frames that are not written to keep their bytes. */
  lemma {:induction false} PokeAllElsewhere(mem: seq<byte>, ats: seq<Addr>, ws: seq<seq<byte>>, b: Addr, n: nat,
                                            bufLen: ChunkLen)
    requires |ats| == |ws| && n <= bufLen && b !in ats
    requires forall i :: 0 <= i < |ats| ==> ats[i] % bufLen == b % bufLen && |ws[i]| <= bufLen
    ensures Cell(PokeAll(mem, ats, ws), b, n) == Cell(mem, b, n)
  {
    if ats != [] {
      var k := |ats| - 1;
      PokeAllElsewhere(mem, ats[..k], ws[..k], b, n, bufLen);
      assert ats[k] in ats;
      FramesApart(PokeAll(mem, ats[..k], ws[..k]), ats[k], ws[k], b, n, bufLen);
    }
  }

  /** If the frames written to are different ones, each holds what was written to it. */
  lemma {:induction false} PokeAllThenCell(mem: seq<byte>, ats: seq<Addr>, ws: seq<seq<byte>>, i: nat, n: nat,
                                           bufLen: ChunkLen)
    requires |ats| == |ws| && i < |ats| && NoRepeats(ats) && n <= |ws[i]|
    requires forall j :: 0 <= j < |ats| ==>
             ats[j] % bufLen == RESERVED && |ws[j]| <= bufLen && ats[j] + |ws[j]| <= |mem|
    ensures Cell(PokeAll(mem, ats, ws), ats[i], n) == ws[i][..n]
  {
    var k := |ats| - 1;
    var before := PokeAll(mem, ats[..k], ws[..k]);
    if i == k {
      PokeThenCell(before, ats[k], ws[k], n);
    } else {
      PokeAllThenCell(mem, ats[..k], ws[..k], i, n, bufLen);
      FramesApart(before, ats[k], ws[k], ats[i], n, bufLen);
    }
  }
}
