/** Where the frames of one link are, and that only the program's own actions change that.

    A link holds a frame in one of six stages: fill ring, kernel (Rx side), Rx ring, Tx ring, kernel
    (in flight), completion ring. The kernel moves frames between stages behind the program's back;
    `InLink` is the bag of all of them, and the lemmas say it depends on the program's actions alone. */
module LinkFlow {
  import opened Frames
  import opened LinkState

  /** Frames between a fill and the matching receive. */
  ghost function RxStages(s: State): multiset<Addr>
    requires LinkInv(s)
  {
    multiset(s.p.filled[s.k.fillTaken..]) + multiset(s.k.held) + multiset(DescAddrs(s.k.rxLog[s.p.rxTaken..]))
  }

  /** Frames between a send and the matching service. */
  ghost function TxStages(s: State): multiset<Addr>
    requires LinkInv(s)
  {
    multiset(DescAddrs(s.p.sent[s.k.txTaken..])) + multiset(s.k.flight) + multiset(s.k.compLog[s.p.compTaken..])
  }

  ghost function InLink(s: State): multiset<Addr>
    requires LinkInv(s)
  {
    RxStages(s) + TxStages(s)
  }

  /** Every address the program handed to the kernel is the data address of a chunk. */
  ghost predicate Addressed(s: State) {
    && (forall i :: 0 <= i < |s.p.filled| ==> s.p.filled[i] % s.cfg.bufLen == RESERVED)
    && (forall i :: 0 <= i < |s.p.sent| ==> s.p.sent[i].addr % s.cfg.bufLen == RESERVED)
  }

  ghost predicate AllHome(s: seq<Addr>, bufLen: ChunkLen) {
    forall i :: 0 <= i < |s| ==> s[i] % bufLen == RESERVED
  }

  /** Balance of the Rx side: what was filled is on its way or was received. */
  lemma RxBalance(s: State)
    requires LinkInv(s) && Addressed(s)
    ensures s.p.rxTaken <= |s.k.rxLog|
    ensures multiset(s.p.filled) == RxStages(s) + multiset(DescAddrs(s.k.rxLog[..s.p.rxTaken]))
    ensures |s.p.filled| - s.p.rxTaken ==
            |s.p.filled[s.k.fillTaken..]| + |s.k.held| + |s.k.rxLog[s.p.rxTaken..]|
  {
    var done, rest := s.p.filled[..s.k.fillTaken], s.p.filled[s.k.fillTaken..];
    assert s.p.filled == done + rest;
    HomesFixed(done, s.cfg.bufLen);
    var got, left := s.k.rxLog[..s.p.rxTaken], s.k.rxLog[s.p.rxTaken..];
    assert s.k.rxLog == got + left;
    DescAddrsConcat(got, left);
    assert |multiset(done)| == |multiset(s.k.held) + multiset(DescAddrs(s.k.rxLog))|;
  }

  /** Balance of the Tx side: what was sent is on its way or was serviced. */
  lemma TxBalance(s: State)
    requires LinkInv(s)
    ensures s.p.compTaken <= |s.k.compLog|
    ensures multiset(DescAddrs(s.p.sent)) == TxStages(s) + multiset(s.k.compLog[..s.p.compTaken])
    ensures |s.p.sent| - s.p.compTaken ==
            |s.p.sent[s.k.txTaken..]| + |s.k.flight| + |s.k.compLog[s.p.compTaken..]|
  {
    var done, rest := s.p.sent[..s.k.txTaken], s.p.sent[s.k.txTaken..];
    assert s.p.sent == done + rest;
    DescAddrsConcat(done, rest);
    var got, left := s.k.compLog[..s.p.compTaken], s.k.compLog[s.p.compTaken..];
    assert s.k.compLog == got + left;
    assert |multiset(DescAddrs(done))| == |multiset(s.k.flight) + multiset(s.k.compLog)|;
  }

  /** Whatever is published on Rx carries the data address of a chunk. */
  lemma RxHome(s: State)
    requires LinkInv(s)
    ensures AllHome(DescAddrs(s.k.rxLog), s.cfg.bufLen)
  {
    var hs := Homes(s.p.filled[..s.k.fillTaken], s.cfg.bufLen);
    forall i | 0 <= i < |s.k.rxLog| ensures s.k.rxLog[i].addr % s.cfg.bufLen == RESERVED {
      var a := DescAddrs(s.k.rxLog)[i];
      assert a in multiset(DescAddrs(s.k.rxLog));
      assert a in multiset(hs);
      var j :| 0 <= j < |hs| && hs[j] == a;
      HomeOfHome(s.p.filled[j], s.cfg.bufLen);
    }
  }

  /** Whatever comes back on completion was sent. */
  lemma CompHome(s: State)
    requires LinkInv(s) && Addressed(s)
    ensures AllHome(s.k.compLog, s.cfg.bufLen)
  {
    var sent := DescAddrs(s.p.sent[..s.k.txTaken]);
    forall i | 0 <= i < |s.k.compLog| ensures s.k.compLog[i] % s.cfg.bufLen == RESERVED {
      assert s.k.compLog[i] in multiset(s.k.compLog);
      assert s.k.compLog[i] in multiset(sent);
      var j :| 0 <= j < |sent| && sent[j] == s.k.compLog[i];
    }
  }

  lemma Cancel(a: multiset<Addr>, b: multiset<Addr>, c: multiset<Addr>)
    requires a + c == b + c
    ensures a == b
  {
    assert a == (a + c) - c == (b + c) - c == b;
  }

  lemma Exchange(fs: multiset<Addr>, ft: multiset<Addr>, sub: multiset<Addr>,
                 rs: multiset<Addr>, rt: multiset<Addr>, g: multiset<Addr>, got: multiset<Addr>)
    requires fs == rs + g && ft == rt + (g + got) && ft == fs + sub
    ensures rt + got == rs + sub
  {
    forall a: Addr ensures (rt + got)[a] == (rs + sub)[a] {
      assert ft[a] == rt[a] + (g + got)[a] == fs[a] + sub[a];
    }
  }

  /** If the program's Rx side gained `sub` and lost `got`, so did the Rx stages. */
  lemma RxChange(s: State, t: State, sub: seq<Addr>, got: seq<Desc>)
    requires LinkInv(s) && LinkInv(t) && Addressed(s) && Addressed(t)
    requires t.p.filled == s.p.filled + sub
    requires s.p.rxTaken <= |s.k.rxLog| && t.p.rxTaken <= |t.k.rxLog|
    requires t.k.rxLog[..t.p.rxTaken] == s.k.rxLog[..s.p.rxTaken] + got
    ensures RxStages(t) + multiset(DescAddrs(got)) == RxStages(s) + multiset(sub)
  {
    hide LinkInv, RxStages, Addressed, DescAddrs;
    RxBalance(s);
    RxBalance(t);
    var before := s.k.rxLog[..s.p.rxTaken];
    DescAddrsConcat(before, got);
    assert multiset(DescAddrs(before) + DescAddrs(got)) == multiset(DescAddrs(before)) + multiset(DescAddrs(got));
    assert multiset(s.p.filled + sub) == multiset(s.p.filled) + multiset(sub);
    Exchange(multiset(s.p.filled), multiset(t.p.filled), multiset(sub),
             RxStages(s), RxStages(t), multiset(DescAddrs(before)), multiset(DescAddrs(got)));
  }

  lemma TxChange(s: State, t: State, ds: seq<Desc>, got: seq<Addr>)
    requires LinkInv(s) && LinkInv(t)
    requires t.p.sent == s.p.sent + ds
    requires s.p.compTaken <= |s.k.compLog| && t.p.compTaken <= |t.k.compLog|
    requires t.k.compLog[..t.p.compTaken] == s.k.compLog[..s.p.compTaken] + got
    ensures TxStages(t) + multiset(got) == TxStages(s) + multiset(DescAddrs(ds))
  {
    hide LinkInv, TxStages, DescAddrs;
    TxBalance(s);
    TxBalance(t);
    DescAddrsConcat(s.p.sent, ds);
    assert multiset(DescAddrs(s.p.sent) + DescAddrs(ds)) == multiset(DescAddrs(s.p.sent)) + multiset(DescAddrs(ds));
    var before := s.k.compLog[..s.p.compTaken];
    assert multiset(before + got) == multiset(before) + multiset(got);
    Exchange(multiset(DescAddrs(s.p.sent)), multiset(DescAddrs(t.p.sent)), multiset(DescAddrs(ds)),
             TxStages(s), TxStages(t), multiset(before), multiset(got));
  }

  lemma RxSame(s: State, t: State)
    requires LinkInv(s) && LinkInv(t) && Addressed(s) && Addressed(t) && t.p.filled == s.p.filled
    requires s.p.rxTaken == t.p.rxTaken <= |s.k.rxLog| && s.k.rxLog <= t.k.rxLog
    ensures RxStages(t) == RxStages(s)
  {
    hide LinkInv, RxStages, Addressed;
    RxBalance(s);
    RxBalance(t);
    assert t.k.rxLog[..t.p.rxTaken] == s.k.rxLog[..s.p.rxTaken];
    Cancel(RxStages(t), RxStages(s), multiset(DescAddrs(s.k.rxLog[..s.p.rxTaken])));
  }

  lemma TxSame(s: State, t: State)
    requires LinkInv(s) && LinkInv(t) && t.p.sent == s.p.sent
    requires s.p.compTaken == t.p.compTaken <= |s.k.compLog| && s.k.compLog <= t.k.compLog
    ensures TxStages(t) == TxStages(s)
  {
    hide LinkInv, TxStages;
    TxBalance(s);
    TxBalance(t);
    assert t.k.compLog[..t.p.compTaken] == s.k.compLog[..s.p.compTaken];
    Cancel(TxStages(t), TxStages(s), multiset(s.k.compLog[..s.p.compTaken]));
  }

  lemma LogBounds(s: State)
    requires LinkInv(s)
    ensures s.p.rxTaken <= |s.k.rxLog| && s.p.compTaken <= |s.k.compLog|
  {
  }

  /** The kernel alone never changes which frames a link holds. */
  lemma KernelKeepsFrames(s: State, t: State)
    requires LinkInv(s) && LinkInv(t) && Addressed(s) && Moved(s, t)
    ensures Addressed(t) && RxStages(t) == RxStages(s) && TxStages(t) == TxStages(s)
  {
    hide LinkInv, RxStages, TxStages;
    LogBounds(s);
    LogBounds(t);
    RxSame(s, t);
    TxSame(s, t);
  }

  // The four operations.

  lemma AfterFill(s: State, t: State, sub: seq<Addr>)
    requires LinkInv(s) && LinkInv(t) && Addressed(s) && AllHome(sub, s.cfg.bufLen)
    requires Moved(s.(p := s.p.Fills(sub)), t)
    ensures Addressed(t)
    ensures RxStages(t) == RxStages(s) + multiset(sub) && TxStages(t) == TxStages(s)
  {
    hide LinkInv, RxStages, TxStages;
    LogBounds(s);
    LogBounds(t);
    assert DescAddrs([]) == [];
    RxChange(s, t, sub, []);
    TxSame(s, t);
  }

  lemma AfterReceive(s: State, t: State, n: nat)
    requires LinkInv(s) && LinkInv(t) && Addressed(s)
    requires Moved(s.(p := s.p.Receives(n, t.p.rxSeen)), t)
    ensures t.p.rxTaken <= |t.k.rxLog| && Addressed(t)
    ensures RxStages(s) == RxStages(t) + multiset(DescAddrs(Received(s, t))) && TxStages(t) == TxStages(s)
    ensures AllHome(DescAddrs(Received(s, t)), s.cfg.bufLen)
  {
    hide LinkInv, RxStages, TxStages;
    LogBounds(s);
    LogBounds(t);
    RxChange(s, t, [], Received(s, t));
    TxSame(s, t);
    RxHome(t);
    var got := DescAddrs(Received(s, t));
    forall i | 0 <= i < |got| ensures got[i] % s.cfg.bufLen == RESERVED {
      assert got[i] == DescAddrs(t.k.rxLog)[s.p.rxTaken + i];
    }
  }

  lemma AfterSend(s: State, t: State, ds: seq<Desc>)
    requires LinkInv(s) && LinkInv(t) && Addressed(s) && AllHome(DescAddrs(ds), s.cfg.bufLen)
    requires Moved(s.(p := s.p.Sends(ds)), t)
    ensures Addressed(t)
    ensures TxStages(t) == TxStages(s) + multiset(DescAddrs(ds)) && RxStages(t) == RxStages(s)
  {
    hide LinkInv, RxStages, TxStages;
    forall i | |s.p.sent| <= i < |t.p.sent| ensures t.p.sent[i].addr % t.cfg.bufLen == RESERVED {
      assert DescAddrs(ds)[i - |s.p.sent|] == t.p.sent[i].addr;
    }
    LogBounds(s);
    LogBounds(t);
    RxSame(s, t);
    TxChange(s, t, ds, []);
  }

  lemma AfterService(s: State, t: State, n: nat)
    requires LinkInv(s) && LinkInv(t) && Addressed(s)
    requires Moved(s.(p := s.p.Services(n, t.p.compSeen)), t)
    ensures t.p.compTaken <= |t.k.compLog| && Addressed(t)
    ensures TxStages(s) == TxStages(t) + multiset(Completed(s, t)) && RxStages(t) == RxStages(s)
    ensures AllHome(Completed(s, t), s.cfg.bufLen)
  {
    hide LinkInv, RxStages, TxStages;
    LogBounds(s);
    LogBounds(t);
    RxSame(s, t);
    TxChange(s, t, [], Completed(s, t));
    CompHome(t);
  }

  /** As long as the Rx side holds no more frames than the Rx ring has slots, the kernel finds room
      for every packet it has a frame for. */
  lemma RxRingNeverFull(s: State)
    requires LinkInv(s) && Addressed(s) && |s.p.filled| - s.p.rxTaken <= s.cfg.rxSize
    requires s.k.held != []
    ensures |s.k.rxLog| - s.p.rxTaken < s.cfg.rxSize
  {
    RxBalance(s);
  }
}
