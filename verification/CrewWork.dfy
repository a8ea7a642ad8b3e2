/** What the workers of l2fwd-2link-multicore do, as values: each takes its buffers, makes its initial fills or
    panics, and then goes through the parts of the loop body, link by link, however the turns interleave. */
module CrewWork {
  import opened Bits
  import opened Frames
  import opened Forwarding
  import opened ForwardFacts

  /** Where a worker stands. */
  datatype Seat =
    | Waiting
    | Holding(bufs: seq<Frame>)
    | Looping(net: Net, facts: Facts, pos: nat, stage: nat)
    | Halted

  /** What a part of a pass did: the state its kernels left, and how much it moved. */
  datatype Deed = Deed(mid: Net, amount: nat)

  /** One turn of a worker at the pool. */
  ghost predicate TookTurn(s: Seat, pool: seq<Frame>, t: Seat, left: seq<Frame>, x: Deed, bufLen: ChunkLen) {
    match s
    case Waiting => t.Holding? && pool == left + t.bufs && |t.bufs| == Min(8192, |pool|)
    case Holding(bufs) =>
      && left == pool
      && (if 2 * 2048 <= |bufs| then
            && t.Looping? && t.pos == 0 && t.stage == 0 && JustFilled(t.net, bufs, 2048)
            && t.facts == Facts(bufLen, 2048, multiset(Addrs(bufs)), 8192)
          else t.Halted?)
    case Looping(net, facts, pos, stage) =>
      && left == pool && pos < 2 && stage < 4 && t.Looping? && PartDone(net, x.mid, t.net, facts, pos, stage, x.amount)
      && t == Looping(t.net, facts, if stage == 3 then 1 - pos else pos, (stage + 1) % 4)
    case Halted => left == pool && t == Halted
  }

  /** All workers and the pool. */
  datatype Board = Board(seats: seq<Seat>, pool: seq<Frame>)

  /** The i-th worker took a turn and nobody else did. */
  ghost predicate Turned(b: Board, c: Board, i: nat, x: Deed, bufLen: ChunkLen) {
    && i < |b.seats| == |c.seats| && c.seats == b.seats[i := c.seats[i]]
    && TookTurn(b.seats[i], b.pool, c.seats[i], c.pool, x, bufLen)
  }

  /** One turn for every entry of the schedule. */
  ghost predicate Worked(boards: seq<Board>, deeds: seq<Deed>, schedule: seq<nat>, bufLen: ChunkLen) {
    && |boards| == |schedule| + 1 && |deeds| == |schedule|
    && forall t :: 0 <= t < |schedule| ==> Turned(boards[t], boards[t + 1], schedule[t], deeds[t], bufLen)
  }

  lemma WorkedOn(boards: seq<Board>, deeds: seq<Deed>, schedule: seq<nat>, t: nat, c: Board, x: Deed, bufLen: ChunkLen)
    requires t < |schedule| && Worked(boards, deeds, schedule[..t], bufLen)
    requires Turned(boards[t], c, schedule[t], x, bufLen)
    ensures Worked(boards + [c], deeds + [x], schedule[..t + 1], bufLen)
  {
    hide Turned;
    var bs, xs, sc := boards + [c], deeds + [x], schedule[..t + 1];
    forall u | 0 <= u < t + 1 ensures Turned(bs[u], bs[u + 1], sc[u], xs[u], bufLen) {
      if u < t {
        assert schedule[..t][u] == sc[u];
      }
    }
  }

  lemma NoTurn(boards: seq<Board>, schedule: seq<nat>, bufLen: ChunkLen)
    requires |boards| == 1
    ensures Worked(boards, [], schedule[..0], bufLen)
  {
  }

  /** How many turns the i-th worker had before the t-th. */
  function Turns(schedule: seq<nat>, i: nat, t: nat): nat
    requires t <= |schedule|
  {
    if t == 0 then 0 else Turns(schedule, i, t - 1) + (if schedule[t - 1] == i then 1 else 0)
  }

  /** Where a worker stands after `c` turns: it loads, begins, and from then on the parts of a pass follow one
      another, four on one link and four on the other, over and over. */
  ghost predicate Standing(s: Seat, c: nat) {
    && (c == 0 <==> s.Waiting?) && (c == 1 <==> s.Holding?)
    && (s.Looping? ==> s.stage == (c - 2) % 4 && s.pos == (c - 2) / 4 % 2)
  }

  /** In every run, wherever the other workers' turns fall: neither link of a worker is ever passed over. */
  lemma {:induction false} PassesAlternate(boards: seq<Board>, deeds: seq<Deed>, schedule: seq<nat>, bufLen: ChunkLen,
                                           i: nat, t: nat)
    requires Worked(boards, deeds, schedule, bufLen) && t <= |schedule|
    requires i < |boards[0].seats| && boards[0].seats[i] == Waiting
    ensures |boards[t].seats| == |boards[0].seats| && Standing(boards[t].seats[i], Turns(schedule, i, t))
  {
    hide TookTurn, Standing;
    if t == 0 {
      StandsWaiting();
    } else {
      PassesAlternate(boards, deeds, schedule, bufLen, i, t - 1);
      assert Turned(boards[t - 1], boards[t - 1 + 1], schedule[t - 1], deeds[t - 1], bufLen);
      if schedule[t - 1] == i {
        NextStanding(boards[t - 1].seats[i], boards[t - 1].pool, boards[t].seats[i], boards[t].pool, deeds[t - 1],
                     bufLen, Turns(schedule, i, t - 1));
      }
    }
  }

  /** At that moment the worker stands where the number of its turns says. */
  ghost predicate StandsAt(boards: seq<Board>, schedule: seq<nat>, i: nat, t: nat)
    requires t <= |schedule|
  {
    t < |boards| && i < |boards[t].seats| && Standing(boards[t].seats[i], Turns(schedule, i, t))
  }

  ghost predicate AllStanding(boards: seq<Board>, schedule: seq<nat>, count: nat) {
    forall i: nat, t: nat :: i < count && t <= |schedule| ==> StandsAt(boards, schedule, i, t)
  }

  lemma EveryoneStands(boards: seq<Board>, deeds: seq<Deed>, schedule: seq<nat>, bufLen: ChunkLen, count: nat)
    requires Worked(boards, deeds, schedule, bufLen) && boards[0].seats == seq(count, _ => Waiting)
    ensures AllStanding(boards, schedule, count)
  {
    hide Turned, Standing, Turns;
    forall i: nat, t: nat | i < count && t <= |schedule| ensures StandsAt(boards, schedule, i, t) {
      PassesAlternate(boards, deeds, schedule, bufLen, i, t);
    }
  }

  lemma StandsWaiting()
    ensures Standing(Waiting, 0)
  {
  }

  lemma NextStanding(s: Seat, pool: seq<Frame>, t: Seat, left: seq<Frame>, x: Deed, bufLen: ChunkLen, c: nat)
    requires Standing(s, c) && TookTurn(s, pool, t, left, x, bufLen)
    ensures Standing(t, c + 1)
  {
    hide PartDone, JustFilled;
    if s.Looping? {
      var d: nat := c - 2;
      var q := d / 4;
      assert d == 4 * q + s.stage;
      if s.stage == 3 {
        assert (d + 1) / 4 == q + 1 && (d + 1) % 4 == 0;
      } else {
        assert (d + 1) / 4 == q && (d + 1) % 4 == s.stage + 1;
      }
    }
  }
}
