/** l2fwd-2link-multicore: any number of workers over one area and one locked pool.

    A worker first takes its buffers from the pool under the lock, then makes its two initial fills
    (or panics), then runs the forwarding loop on its own. `Run` lets the workers take their turns in
    any order. */
module Multicore {
  import opened Bits
  import opened Frames
  import opened LinkState
  import opened LinkFlow
  import opened Kernel
  import opened BufPool
  import opened MmapArea
  import opened Forwarding
  import opened ForwardFacts
  import opened Forwarder
  import opened CrewWork
  import Isolation
  import TwoLink

  const START_BUFS: nat := 8192

  datatype Phase = Idle | Loaded | Running(loop: Loop) | Panicked

  class Worker {
    const link1: Link
    const link2: Link
    const bufs: Vec<Frame>
    const mem: array<byte>   // the area, which all workers share
    var phase: Phase
    var stage: nat           // which part of a pass is next
    ghost var Repr: set<object>

    ghost predicate Valid()
      reads this, Repr
      ensures Valid() ==> this in Repr && bufs in Repr && mem !in Repr && stage < 4
    {
      && link1.mem == link2.mem == mem && mem !in Repr && stage < 4 && (!phase.Running? ==> stage == 0)
      && {this as object, bufs, link1, link2} + link1.Repr + link2.Repr <= Repr
      && this !in link1.Repr + link2.Repr + {bufs}
      && link1.Repr !! link2.Repr && bufs !in link1.Repr + link2.Repr
      && if phase.Running? then
           phase.loop in Repr && phase.loop.Repr <= Repr && this !in phase.loop.Repr
           && phase.loop.Valid() && phase.loop.mem == mem
           && phase.loop.facts.bufLen == link1.bufLen
         else
           && link1.Valid() && link2.Valid() && bufs.Valid() && link1.bufLen == link2.bufLen
           && (phase.Idle? ==> Untouched() && bufs.items == [] && bufs.capacity == START_BUFS)
           && (phase.Loaded? ==> Untouched() && AllWellFormed(bufs.items, link1.bufLen) && bufs.capacity == START_BUFS)
    }

    ghost predicate Untouched()
      requires link1.Valid() && link2.Valid()
      reads this, link1, link1.Repr, link2, link2.Repr
    {
      && OnlyFilled(link1.View(), link1.bufLen) && OnlyFilled(link2.View(), link1.bufLen)
      && link1.View().p.filled == link2.View().p.filled == []
    }

    /** Every frame this worker holds, locally or in its rings or with its kernel queues. */
    ghost function Frames(): multiset<Addr>
      requires Valid()
      reads this, Repr
    {
      if phase.Running? then
        phase.loop.KeepsSound();
        LanesValid(phase.loop.View(), phase.loop.facts);
        AllFrames(phase.loop.View())
      else
        Held(link1, link2, bufs)
    }

    /** Where this worker stands. */
    ghost function Now(): Seat
      requires Valid()
      reads this, Repr
    {
      match phase
      case Idle => Waiting
      case Loaded => Holding(bufs.items)
      case Running(loop) => Looping(loop.View(), loop.facts, loop.pos, stage)
      case Panicked => Halted
    }

    constructor (link1: Link, link2: Link)
      requires link1.Valid() && link2.Valid() && link1.Repr !! link2.Repr
      requires link1.bufLen == link2.bufLen && link1.mem == link2.mem && link1.mem !in link1.Repr + link2.Repr
      requires OnlyFilled(link1.View(), link1.bufLen) && OnlyFilled(link2.View(), link1.bufLen)
      requires link1.View().p.filled == link2.View().p.filled == []
      ensures Valid() && fresh(Repr - link1.Repr - link2.Repr) && mem == link1.mem
      ensures phase == Idle && this.link1 == link1 && this.link2 == link2
      ensures Frames() == multiset{}
    {
      hide Link.Valid, Link.View, Link.Owns, OnlyFilled, LinkInv, InLink, Addressed;
      var b := new Vec<Frame>(START_BUFS);
      this.link1, this.link2, mem, bufs, phase, stage := link1, link2, link1.mem, b, Idle, 0;
      Repr := {this, b} + link1.Repr + link2.Repr;
      new;
      NothingHeld(link1, link2, bufs);
    }

    /** Take buffers from the shared pool, under its lock. */
    method Load(pool: BufPoolVec<Frame>)
      requires Valid() && phase == Idle && pool.Valid() && pool !in Repr && pool.bufs !in Repr
      requires AllWellFormed(pool.bufs.items, link1.bufLen)
      modifies pool.bufs, bufs, this`phase
      ensures Valid() && phase == Loaded && pool.Valid() && AllWellFormed(pool.bufs.items, link1.bufLen)
      ensures old(pool.bufs.items) == pool.bufs.items + bufs.items
      ensures |bufs.items| == Min(START_BUFS, |old(pool.bufs.items)|)
      ensures multiset(Addrs(pool.bufs.items)) + Frames() == multiset(Addrs(old(pool.bufs.items)))
    {
      hide Link.Valid, Link.View, Link.Owns, OnlyFilled, LinkInv, InLink, Addressed, AllWellFormed, Addrs;
      hide Sound, Loop.Valid, Loop.Apart, Frames, Held, AfterGet;
      ghost var was := Exchange(pool.bufs.items, bufs.items);
      var r := pool.Get(bufs, START_BUFS);
      GotApart(was, START_BUFS, link1.bufLen);
      phase := Loaded;
      LoadedFrames();
    }

    lemma LoadedFrames()
      requires Valid() && phase.Loaded?
      ensures Frames() == multiset(Addrs(bufs.items))
    {
      hide Link.Valid, Link.View, Link.Owns, OnlyFilled, LinkInv, InLink, Addressed, AllWellFormed, Addrs;
      JustBufs(link1, link2, bufs);
    }

    /** The two initial fills: the loop starts, or the worker panics. */
    method Begin()
      requires Valid() && phase == Loaded
      modifies Repr, mem
      ensures Valid() && fresh(Repr - old(Repr)) && (phase.Running? || phase.Panicked?)
      ensures phase.Running? <==> 2 * RING_SIZE <= |old(bufs.items)|
      ensures phase.Running? ==>
        && phase.loop.Valid() && phase.loop.pos == 0 && JustFilled(phase.loop.View(), old(bufs.items), 2048)
        && phase.loop.facts == Facts(link1.bufLen, 2048, multiset(Addrs(old(bufs.items))), START_BUFS) && stage == 0
      ensures Frames() == old(Frames())
    {
      hide Link.Valid, Link.View, Link.Owns, OnlyFilled, LinkInv, InLink, Addressed, AllWellFormed, Addrs;
      hide Sound, Loop.Valid, Loop.View, Loop.Apart, AllFrames, JustFilled;
      JustBufs(link1, link2, bufs);
      var r := StartLoop(link1, link2, bufs, RING_SIZE);
      if r.None? {
        phase := Panicked;
      } else {
        phase := Running(r.value);
        Repr := Repr + r.value.Repr;
        r.value.KeepsSound();
        FramesOwned(r.value.View(), r.value.facts);
      }
    }

    /** The next part of a pass. */
    method Proceed() returns (ghost mid: Net, ghost k: nat)
      requires Valid() && phase.Running?
      modifies Repr, mem
      ensures Valid() && phase == old(phase) && Repr == old(Repr) && stage == (old(stage) + 1) % 4
      ensures phase.loop.Valid()
      ensures phase.loop.pos == if old(stage) == 3 then 1 - old(phase.loop.pos) else old(phase.loop.pos)
      ensures PartDone(old(phase.loop.View()), mid, phase.loop.View(), phase.loop.facts,
                       old(phase.loop.pos), old(stage), k)
      ensures Frames() == old(Frames())
    {
      hide Link.Valid, Link.View, Link.Owns, Sound, Loop.Valid, Loop.View, Loop.Apart, AllFrames, PartDone;
      LoopFrames();
      mid, k := phase.loop.Part(stage);
      LoopFrames();
      NextStage();
    }

    /** A running worker holds what its loop owns. */
    lemma LoopFrames()
      requires Valid() && phase.Running?
      ensures Frames() == phase.loop.facts.owned
    {
      hide Link.Valid, Link.View, Link.Owns, Sound, Loop.Valid, AllFrames;
      phase.loop.KeepsSound();
      FramesOwned(phase.loop.View(), phase.loop.facts);
    }

    method NextStage()
      requires Valid() && phase.Running?
      modifies this`stage
      ensures Valid() && stage == (old(stage) + 1) % 4
      ensures Frames() == old(Frames()) && phase.loop.View() == old(phase.loop.View())
      ensures phase.loop.pos == old(phase.loop.pos)
    {
      hide Link.Valid, Link.View, Link.Owns, Sound, Loop.Valid, Loop.View, Loop.Apart, AllFrames;
      LoopFrames();
      stage := if stage == 3 then 0 else stage + 1;
      LoopFrames();
    }

    /** The worker's next move: it loads, begins, or takes the next part of a pass. After a panic it does
        nothing. */
    method Turn(pool: BufPoolVec<Frame>) returns (ghost x: Deed)
      requires Valid() && pool.Valid() && pool !in Repr && pool.bufs !in Repr
      requires AllWellFormed(pool.bufs.items, link1.bufLen)
      modifies Repr, mem, pool.bufs
      ensures Valid() && fresh(Repr - old(Repr))
      ensures pool.Valid() && AllWellFormed(pool.bufs.items, link1.bufLen)
      ensures TookTurn(old(Now()), old(pool.bufs.items), Now(), pool.bufs.items, x, link1.bufLen)
      ensures multiset(Addrs(pool.bufs.items)) + Frames() == old(multiset(Addrs(pool.bufs.items)) + Frames())
    {
      hide Valid, Now, Frames, AllWellFormed, Addrs, TookTurn;
      x := Deed(Net([], []), 0);
      if phase.Idle? {
        LoadTurn(pool, x);
      } else if phase.Loaded? {
        BeginTurn(pool, x);
      } else if phase.Running? {
        x := ProceedTurn(pool);
      } else {
        AfterPanic(pool.bufs.items, x);
      }
    }

    method LoadTurn(pool: BufPoolVec<Frame>, ghost x: Deed)
      requires Valid() && phase == Idle && pool.Valid() && pool !in Repr && pool.bufs !in Repr
      requires AllWellFormed(pool.bufs.items, link1.bufLen)
      modifies Repr, mem, pool.bufs
      ensures Valid() && fresh(Repr - old(Repr))
      ensures pool.Valid() && AllWellFormed(pool.bufs.items, link1.bufLen)
      ensures TookTurn(old(Now()), old(pool.bufs.items), Now(), pool.bufs.items, x, link1.bufLen)
      ensures multiset(Addrs(pool.bufs.items)) + Frames() == old(multiset(Addrs(pool.bufs.items)) + Frames())
    {
      hide Link.Valid, Link.View, Link.Owns, Loop.Valid, Loop.View, AllWellFormed, Addrs, Frames, Untouched;
      NothingYet();
      Load(pool);
    }

    method BeginTurn(pool: BufPoolVec<Frame>, ghost x: Deed)
      requires Valid() && phase == Loaded && pool.Valid() && pool !in Repr && pool.bufs !in Repr
      requires AllWellFormed(pool.bufs.items, link1.bufLen)
      modifies Repr, mem, pool.bufs
      ensures Valid() && fresh(Repr - old(Repr))
      ensures pool.Valid() && AllWellFormed(pool.bufs.items, link1.bufLen)
      ensures TookTurn(old(Now()), old(pool.bufs.items), Now(), pool.bufs.items, x, link1.bufLen)
      ensures multiset(Addrs(pool.bufs.items)) + Frames() == old(multiset(Addrs(pool.bufs.items)) + Frames())
    {
      hide Link.Valid, Link.View, Link.Owns, Loop.Valid, Loop.View, AllWellFormed, Addrs, Frames, Untouched, JustFilled;
      Begin();
    }

    method ProceedTurn(pool: BufPoolVec<Frame>) returns (ghost x: Deed)
      requires Valid() && phase.Running? && pool.Valid() && pool !in Repr && pool.bufs !in Repr
      requires AllWellFormed(pool.bufs.items, link1.bufLen)
      modifies Repr, mem, pool.bufs
      ensures Valid() && fresh(Repr - old(Repr))
      ensures pool.Valid() && AllWellFormed(pool.bufs.items, link1.bufLen)
      ensures TookTurn(old(Now()), old(pool.bufs.items), Now(), pool.bufs.items, x, link1.bufLen)
      ensures multiset(Addrs(pool.bufs.items)) + Frames() == old(multiset(Addrs(pool.bufs.items)) + Frames())
    {
      hide Link.Valid, Link.View, Link.Owns, Loop.Valid, Loop.View, AllWellFormed, Addrs, Frames, Untouched, PartDone;
      LoopPos();
      ghost var mid, k := Proceed();
      x := Deed(mid, k);
    }

    lemma AfterPanic(pool: seq<Frame>, x: Deed)
      requires Valid() && phase.Panicked?
      ensures TookTurn(Now(), pool, Now(), pool, x, link1.bufLen)
    {
    }

    lemma LoopPos()
      requires Valid() && phase.Running?
      ensures phase.loop.Valid() && phase.loop.pos < 2 && stage < 4
    {
      hide Sound, Link.Valid;
    }

    /** The buffers this worker can write through. After a panic it has none. */
    ghost function Buffers(): seq<Frame>
      requires Valid()
      reads this, Repr
    {
      if phase.Running? then Isolation.NetBufs(phase.loop.View())
      else if phase.Loaded? then bufs.items
      else []
    }

    /** The frames in its rings and with its kernels. */
    ghost function InRings(): multiset<Addr>
      requires Valid()
      reads this, Repr
    {
      if phase.Running? then
        phase.loop.KeepsSound();
        LanesValid(phase.loop.View(), phase.loop.facts);
        InLink(phase.loop.View().lanes[0].link) + InLink(phase.loop.View().lanes[1].link)
      else if phase.Loaded? then multiset{}
      else Frames()
    }

    /** Its buffers and what is in its rings are what it holds. */
    lemma OwnShare()
      requires Valid()
      ensures AllWellFormed(Buffers(), link1.bufLen)
      ensures multiset(Addrs(Buffers())) + InRings() == Frames()
    {
      hide Link.Valid, Link.View, Link.Owns, OnlyFilled, LinkInv, InLink, AllWellFormed, Addrs, Sound;
      hide Loop.View, AllFrames;
      if phase.Running? {
        phase.loop.KeepsSound();
        FramesOwned(phase.loop.View(), phase.loop.facts);
        Isolation.NetShare(phase.loop.View(), phase.loop.facts);
      } else if phase.Loaded? {
        JustBufs(link1, link2, bufs);
      } else {
        NoBuffers(link1.bufLen);
      }
    }

    lemma NothingYet()
      requires Valid() && phase == Idle
      ensures Frames() == multiset{}
    {
      NothingHeld(link1, link2, bufs);
    }
  }

  /** All workers and the pool they share. */
  class Crew {
    const workers: seq<Worker>
    const pool: BufPoolVec<Frame>
    const bufLen: ChunkLen
    const mem: array<byte>

    ghost var Repr: set<object>   // everything the workers own

    ghost predicate Apart()
      reads this, Repr
    {
      && this !in Repr && pool !in Repr && pool.bufs !in Repr
      && (forall i :: 0 <= i < |workers| ==>
            && workers[i] in Repr && workers[i].Repr <= Repr
            && workers[i].link1.bufLen == bufLen && workers[i].mem == mem)
      && (forall i, j :: 0 <= i < j < |workers| ==> workers[i].Repr !! workers[j].Repr)
    }

    ghost predicate Valid()
      reads this, Repr, pool, pool.bufs
    {
      && Apart() && pool.Valid() && AllWellFormed(pool.bufs.items, bufLen)
      && (forall i :: 0 <= i < |workers| ==> workers[i].Valid())
    }

    /** What each worker holds. */
    ghost function Holdings(): (r: seq<multiset<Addr>>)
      requires Valid()
      reads this, Repr, pool, pool.bufs
      ensures |r| == |workers| && forall i :: 0 <= i < |r| ==> r[i] == workers[i].Frames()
    {
      seq(|workers|, i requires 0 <= i < |workers| && Valid() reads this, Repr, pool, pool.bufs =>
        workers[i].Frames())
    }

    /** Where the workers stand, and the pool. */
    ghost function Standings(): (b: Board)
      requires Valid()
      reads this, Repr, pool, pool.bufs
      ensures |b.seats| == |workers| && b.pool == pool.bufs.items
      ensures forall i :: 0 <= i < |workers| ==> b.seats[i] == workers[i].Now()
    {
      Board(seq(|workers|, i requires 0 <= i < |workers| && Valid() reads this, Repr, pool, pool.bufs =>
              workers[i].Now()),
            pool.bufs.items)
    }

    /** The pool holds all the buffers and no worker has started. */
    constructor (workers: seq<Worker>, pool: BufPoolVec<Frame>, bufLen: ChunkLen, mem: array<byte>)
      requires pool.Valid() && AllWellFormed(pool.bufs.items, bufLen)
      requires forall i :: 0 <= i < |workers| ==>
        && workers[i].Valid() && workers[i].phase == Idle && workers[i].link1.bufLen == bufLen && workers[i].mem == mem
        && pool !in workers[i].Repr && pool.bufs !in workers[i].Repr
      requires forall i, j :: 0 <= i < j < |workers| ==> workers[i].Repr !! workers[j].Repr
      ensures Valid() && this.workers == workers && this.pool == pool && this.bufLen == bufLen && this.mem == mem
      ensures Sum(Holdings()) == multiset{}
      ensures Repr == set i, o | 0 <= i < |workers| && o in workers[i].Repr :: o
      ensures Standings() == Board(seq(|workers|, _ => Waiting), pool.bufs.items)
    {
      hide Worker.Valid, Worker.Frames, Sum;
      this.workers, this.pool, this.bufLen, this.mem := workers, pool, bufLen, mem;
      Repr := set i, o | 0 <= i < |workers| && o in workers[i].Repr :: o;
      new;
      forall i | 0 <= i < |workers| ensures workers[i].Frames() == multiset{} {
        workers[i].NothingYet();
      }
      SumOfNothing(Holdings());
    }

    /** One worker takes its turn; whatever it does, workers and pool together hold what they held. */
    method Turn(i: nat) returns (ghost x: Deed)
      requires Valid() && i < |workers|
      modifies this`Repr, Repr, mem, pool.bufs
      ensures Valid() && fresh(Repr - old(Repr))
      ensures Turned(old(Standings()), Standings(), i, x, bufLen)
      ensures Holdings() == old(Holdings())[i := Holdings()[i]]
      ensures multiset(Addrs(pool.bufs.items)) + Sum(Holdings()) ==
              old(multiset(Addrs(pool.bufs.items)) + Sum(Holdings()))
    {
      hide Worker.Valid, Worker.Frames, Worker.Now, AllWellFormed, Addrs, Sum, TookTurn;
      ghost var before, was, stood := Holdings(), multiset(Addrs(pool.bufs.items)), Standings();
      x := workers[i].Turn(pool);
      Repr := Repr + workers[i].Repr;
      forall j | 0 <= j < |workers| && j != i
        ensures workers[j].Valid() && workers[j].Repr == old(workers[j].Repr)
        ensures workers[j].Repr !! workers[i].Repr && workers[j].Frames() == before[j]
        ensures workers[j].Now() == stood.seats[j]
      {
        assert workers[j].Repr !! old(workers[i].Repr);
      }
      assert Apart();
      assert Valid();
      assert Holdings() == before[i := workers[i].Frames()];
      assert Standings().seats == stood.seats[i := workers[i].Now()];
      SumUpdate(before, i, workers[i].Frames());
      Balance(was, multiset(Addrs(pool.bufs.items)), before[i], workers[i].Frames(), Sum(before), Sum(Holdings()));
    }

    /** Everything the pool and the workers hold. */
    ghost function Total(): multiset<Addr>
      requires Valid()
      reads this, Repr, pool, pool.bufs
    {
      multiset(Addrs(pool.bufs.items)) + Sum(Holdings())
    }

    /** The turn of the t-th entry of the schedule. */
    method TurnOf(schedule: seq<nat>, t: nat, ghost boards: seq<Board>, ghost deeds: seq<Deed>)
      returns (ghost bs: seq<Board>, ghost ds: seq<Deed>)
      requires Valid() && t < |schedule| && schedule[t] < |workers|
      requires |boards| == t + 1 && Worked(boards, deeds, schedule[..t], bufLen) && boards[t] == Standings()
      modifies this`Repr, Repr, mem, pool.bufs
      ensures Valid() && fresh(Repr - old(Repr)) && Total() == old(Total())
      ensures |bs| == t + 2 && Worked(bs, ds, schedule[..t + 1], bufLen)
      ensures bs[0] == boards[0] && bs[t + 1] == Standings()
    {
      hide Valid, Addrs, Sum, Turned, Worked, Standings, Holdings;
      ghost var x := Turn(schedule[t]);
      WorkedOn(boards, deeds, schedule, t, Standings(), x, bufLen);
      bs, ds := boards + [Standings()], deeds + [x];
    }

    /** Any number of workers taking turns in any order, one turn for every entry of the schedule. */
    method Run(schedule: seq<nat>) returns (ghost boards: seq<Board>, ghost deeds: seq<Deed>)
      requires Valid() && forall t :: 0 <= t < |schedule| ==> schedule[t] < |workers|
      modifies this`Repr, Repr, mem, pool.bufs
      ensures Valid() && Total() == old(Total()) && Worked(boards, deeds, schedule, bufLen)
      ensures boards[0] == old(Standings()) && boards[|schedule|] == Standings()
    {
      hide Valid, Worked, Standings, Total;
      boards, deeds := [Standings()], [];
      NoTurn(boards, schedule, bufLen);
      for t := 0 to |schedule|
        invariant Valid() && fresh(Repr - old(Repr)) && Total() == old(Total())
        invariant |boards| == t + 1 && Worked(boards, deeds, schedule[..t], bufLen)
        invariant boards[0] == old(Standings()) && boards[t] == Standings()
      {
        boards, deeds := TurnOf(schedule, t, boards, deeds);
      }
      assert schedule[..|schedule|] == schedule;
    }

    /** The frame at `a`, if the area has one, is held by the pool or by one worker, once. */
    ghost predicate InOneHand(bufNum: nat, a: Addr)
      requires Valid()
      reads this, Repr, pool, pool.bufs
    {
      && multiset(Addrs(pool.bufs.items))[a] + Sum(Holdings())[a]
           == (if a % bufLen == RESERVED && a / bufLen < bufNum then 1 else 0)
      && (forall i :: 0 <= i < |workers| ==> multiset(Addrs(pool.bufs.items))[a] == 0 || Holdings()[i][a] == 0)
      && (forall i, j :: 0 <= i < j < |workers| ==> Holdings()[i][a] == 0 || Holdings()[j][a] == 0)
    }

    /** Worker isolation: when pool and workers together hold exactly the area, every frame is held by
        the pool or by one worker, once, and no frame by two. */
    lemma Isolated(bufNum: nat, a: Addr)
      requires Valid()
      requires multiset(Addrs(pool.bufs.items)) + Sum(Holdings()) == multiset(FrameAddrs(bufNum, bufLen))
      ensures InOneHand(bufNum, a)
    {
      hide Valid, Addrs, Sum;
      FramesDistinct(bufNum, bufLen, a);
      var st := Holdings();
      forall i | 0 <= i < |st| ensures multiset(Addrs(pool.bufs.items))[a] == 0 || st[i][a] == 0 {
        SumHolds(st, i);
      }
      forall i, j | 0 <= i < j < |st| ensures st[i][a] == 0 || st[j][a] == 0 {
        StagesDisjoint(st, i, j, a);
      }
    }

    /** Everything the pool and the workers other than the i-th hold. */
    ghost function HeldByOthers(i: nat): multiset<Addr>
      requires Valid() && i < |workers|
      reads this, Repr, pool, pool.bufs
    {
      multiset(Addrs(pool.bufs.items)) + Sum(Holdings()[i := multiset{}])
    }

    /** No buffer of the i-th worker covers a byte of another of its buffers, of a frame in its own rings or
        with its kernels, or of anything the pool or another worker holds; and all stay in the area. */
    ghost predicate WorkerApart(bufNum: nat, i: nat)
      requires Valid() && i < |workers|
      reads this, Repr, pool, pool.bufs
    {
      Isolation.Isolated(workers[i].Buffers(), workers[i].InRings() + HeldByOthers(i), Area(bufNum, bufLen))
    }

    lemma ShareOfWorker(bufNum: nat, i: nat)
      requires Valid() && i < |workers|
      requires multiset(Addrs(pool.bufs.items)) + Sum(Holdings()) == multiset(FrameAddrs(bufNum, bufLen))
      ensures WorkerApart(bufNum, i)
    {
      hide Worker.Valid, Worker.Frames, Addrs, Sum, AllWellFormed, Isolation.Isolated, Worker.Buffers, Worker.InRings;
      var bufs, rings := workers[i].Buffers(), workers[i].InRings();
      workers[i].OwnShare();
      SumUpdate(Holdings(), i, multiset{});
      Regroup(multiset(Addrs(pool.bufs.items)), Sum(Holdings()), Sum(Holdings()[i := multiset{}]),
              multiset(Addrs(bufs)), rings);
      Isolation.ShareIsolated(bufs, rings + HeldByOthers(i), Area(bufNum, bufLen));
    }

    lemma Regroup(p: multiset<Addr>, all: multiset<Addr>, others: multiset<Addr>, b: multiset<Addr>, r: multiset<Addr>)
      requires others + (b + r) == all + multiset{}
      ensures b + (r + (p + others)) == p + all
    {
      forall a: Addr ensures (b + (r + (p + others)))[a] == (p + all)[a] {
        assert (others + (b + r))[a] == (all + multiset{})[a];
      }
    }

    lemma Balance(p: multiset<Addr>, p': multiset<Addr>, x: multiset<Addr>, x': multiset<Addr>,
                  s: multiset<Addr>, s': multiset<Addr>)
      requires p' + x' == p + x && s' + x == s + x'
      ensures p' + s' == p + s
    {
      forall a: Addr ensures (p' + s')[a] == (p + s)[a] {
        assert (p' + x')[a] == (p + x)[a] && (s' + x)[a] == (s + x')[a];
      }
    }
  }

  lemma NoBuffers(bufLen: ChunkLen)
    ensures AllWellFormed<BufCustom>([], bufLen) && Addrs<BufCustom>([]) == []
  {
  }

  lemma FramesOwned(n: Net, f: Facts)
    requires Sound(n, f)
    ensures |n.lanes| == 2 && LinkInv(n.lanes[0].link) && LinkInv(n.lanes[1].link) && AllFrames(n) == f.owned
  {
  }

  lemma GotApart(was: Exchange<Frame>, num: nat, bufLen: ChunkLen)
    requires was.bufs == [] && AllWellFormed(was.pool, bufLen)
    ensures var now := AfterGet(was, num);
      && was.pool == now.pool + now.bufs && |now.bufs| == Min(num, |was.pool|)
      && AllWellFormed(now.pool, bufLen) && AllWellFormed(now.bufs, bufLen)
      && multiset(Addrs(now.pool)) + multiset(Addrs(now.bufs)) == multiset(Addrs(was.pool))
  {
    hide AllWellFormed, Addrs;
    WellFormedSplit(was.pool, |was.pool| - Min(num, |was.pool|), bufLen);
  }

  lemma JustBufs(link1: Link, link2: Link, bufs: Vec<Frame>)
    requires link1.Valid() && link2.Valid()
    requires OnlyFilled(link1.View(), link1.bufLen) && OnlyFilled(link2.View(), link1.bufLen)
    requires link1.View().p.filled == link2.View().p.filled == []
    ensures Held(link1, link2, bufs) == multiset(Addrs(bufs.items))
  {
    hide Link.Valid, Link.View, Link.Owns, LinkInv, InLink, Addressed;
    UntouchedHoldsNothing(link1.View());
    UntouchedHoldsNothing(link2.View());
  }

  lemma NothingHeld(link1: Link, link2: Link, bufs: Vec<Frame>)
    requires link1.Valid() && link2.Valid() && bufs.items == []
    requires OnlyFilled(link1.View(), link1.bufLen) && OnlyFilled(link2.View(), link1.bufLen)
    requires link1.View().p.filled == link2.View().p.filled == []
    ensures Held(link1, link2, bufs) == multiset{}
  {
    JustBufs(link1, link2, bufs);
  }

  lemma {:induction false} SumOfNothing(stages: seq<multiset<Addr>>)
    requires forall i :: 0 <= i < |stages| ==> stages[i] == multiset{}
    ensures Sum(stages) == multiset{}
  {
    if stages != [] {
      SumOfNothing(stages[1..]);
    }
  }

  /** A worker that has not started, on two new links. */
  method NewWorker(bufLen: ChunkLen, mem: array<byte>) returns (w: Worker)
    ensures fresh(w.Repr) && w.Valid() && w.phase == Idle && w.link1.bufLen == bufLen && w.mem == mem
  {
    hide Link.Valid, Link.View, Link.Owns, OnlyFilled, Worker.Frames;
    var link1 := TwoLink.OpenLink(bufLen, mem);
    var link2 := TwoLink.OpenLink(bufLen, mem);
    MemoryApart(link1);
    MemoryApart(link2);
    w := new Worker(link1, link2);
  }

  lemma MemoryApart(link: Link)
    requires link.Valid()
    ensures link.mem !in link.Repr
  {
  }

  method NewWorkers(count: nat, bufLen: ChunkLen, mem: array<byte>) returns (workers: seq<Worker>)
    ensures |workers| == count
    ensures forall i :: 0 <= i < count ==>
      && fresh(workers[i].Repr) && workers[i].Valid() && workers[i].phase == Idle
      && workers[i].link1.bufLen == bufLen && workers[i].mem == mem
    ensures forall i, j :: 0 <= i < j < count ==> workers[i].Repr !! workers[j].Repr
  {
    hide Worker.Valid;
    workers := [];
    for n := 0 to count
      invariant |workers| == n
      invariant forall i :: 0 <= i < n ==>
        && fresh(workers[i].Repr) && workers[i].Valid() && workers[i].phase == Idle
        && workers[i].link1.bufLen == bufLen && workers[i].mem == mem
      invariant forall i, j :: 0 <= i < j < n ==> workers[i].Repr !! workers[j].Repr
    {
      var w := NewWorker(bufLen, mem);
      workers := workers + [w];
    }
  }

  /** The whole program for any number of workers, any area and any schedule: every frame of the area is
      in the pool or with a worker, once, nothing else is anywhere, and whatever a worker can write through is
      apart from everything any other worker, or its kernel queues, holds. */
  method Execute(count: nat, bufNum: nat, bufLen: ChunkLen, schedule: seq<nat>)
    returns (crew: Crew, ghost boards: seq<Board>, ghost deeds: seq<Deed>)
    requires forall t :: 0 <= t < |schedule| ==> schedule[t] < count
    ensures crew.Valid() && |crew.workers| == count && crew.bufLen == bufLen
    ensures Worked(boards, deeds, schedule, bufLen) && boards[|schedule|] == crew.Standings()
    ensures boards[0] == Board(seq(count, _ => Waiting), AreaBufs(bufNum, bufLen, BufCustom))
    ensures AllStanding(boards, schedule, count)
    ensures forall a: Addr :: crew.InOneHand(bufNum, a)
    ensures forall i :: 0 <= i < count ==> crew.WorkerApart(bufNum, i)
  {
    hide Worker.Valid, Worker.Frames, AllWellFormed, Addrs, Sum, Crew.InOneHand, Crew.WorkerApart, Crew.Valid;
    hide Worked, AllStanding, Crew.Standings, Crew.Holdings, AreaBufs;
    var pool, mem := NewPool(bufNum, bufLen, BufCustom);
    var workers := NewWorkers(count, bufLen, mem);
    crew := new Crew(workers, pool, bufLen, mem);
    boards, deeds := crew.Run(schedule);
    EveryoneStands(boards, deeds, schedule, bufLen, count);
    forall a: Addr ensures crew.InOneHand(bufNum, a) {
      crew.Isolated(bufNum, a);
    }
    forall i | 0 <= i < count ensures crew.WorkerApart(bufNum, i) {
      crew.ShareOfWorker(bufNum, i);
    }
  }
}
