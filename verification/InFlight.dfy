/** Frames in flight. The kernel puts a packet on the wire when it takes the Tx entry; a device may also read
    the frame later, up to its completion. It finds the same packet if nobody writes a frame in flight. */
module InFlight {
  import opened Frames
  import opened Memory
  import opened LinkState

  /** The r-th packet taken for transmission is the last one taken from the frame `a`, and the frame still
      reads as that packet went on the wire. */
  ghost predicate StillReads(s: State, mem: seq<byte>, a: Addr, r: nat) {
    && r < s.k.txTaken <= |s.p.sent| && r < |s.k.wire|
    && s.p.sent[r].addr == a && s.p.sent[r].len <= s.cfg.bufLen - RESERVED
    && (forall q :: r < q < s.k.txTaken ==> s.p.sent[q].addr != a)
    && Cell(mem, a, s.p.sent[r].len) == s.k.wire[r]
  }

  ghost predicate AllStill(s: State, mem: seq<byte>) {
    forall a :: a in s.k.flight ==> exists r: nat :: StillReads(s, mem, a, r)
  }

  /** The data part of the frame reads the same. */
  ghost predicate SameFrame(mem: seq<byte>, after: seq<byte>, a: Addr, size: nat) {
    a + size <= |mem| == |after| && Cell(after, a, size) == Cell(mem, a, size)
  }

  /** No frame in flight was written and none went into flight. */
  lemma StillAfter(s: State, mem: seq<byte>, t: State, after: seq<byte>)
    requires AllStill(s, mem) && s.p.sent <= t.p.sent && t.cfg == s.cfg
    requires t.k.txTaken == s.k.txTaken && t.k.wire == s.k.wire
    requires forall a :: a in t.k.flight ==> a in s.k.flight
    requires after == mem || forall a :: a in s.k.flight ==> SameFrame(mem, after, a, s.cfg.bufLen - RESERVED)
    ensures AllStill(t, after)
  {
    hide Cell;
    forall a | a in t.k.flight ensures exists r: nat :: StillReads(t, after, a, r) {
      var r: nat :| StillReads(s, mem, a, r);
      if after != mem {
        assert SameFrame(mem, after, a, s.cfg.bufLen - RESERVED);
        CellPrefix(mem, a, s.cfg.bufLen - RESERVED, s.p.sent[r].len);
        CellPrefix(after, a, s.cfg.bufLen - RESERVED, s.p.sent[r].len);
      }
      assert StillReads(t, after, a, r);
    }
  }

  /** The next Tx entry was taken; its frame was not in flight. */
  lemma StillTaken(s: State, mem: seq<byte>, t: State)
    requires AllStill(s, mem) && Departed(s, mem, t) && |s.k.wire| == s.k.txTaken
    requires var d := s.p.sent[s.k.txTaken]; d.addr !in s.k.flight && d.len <= s.cfg.bufLen - RESERVED
    ensures AllStill(t, mem)
  {
    hide Cell;
    forall a | a in t.k.flight ensures exists r: nat :: StillReads(t, mem, a, r) {
      if a in s.k.flight {
        var r: nat :| StillReads(s, mem, a, r);
        assert StillReads(t, mem, a, r);
      } else {
        assert StillReads(t, mem, a, s.k.txTaken);
      }
    }
  }

  lemma NoneTaken(s: State)
    requires LinkInv(s) && s.k.txTaken == 0
    ensures s.k.flight == []
  {
    assert s.p.sent[..0] == [] && DescAddrs([]) == [];
    assert |multiset(s.k.flight)| == 0;
  }
}
