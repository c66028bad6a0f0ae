/**
  All channels at once: one control section, one data section, and a sender and a receiver for
  every slot of the table, with the trusted side creating and rebalancing channels in between.
  What each channel sees of it is a run of its own page ring.
 */
module SharedSection {
  import opened Layout
  import CT = ChannelTable
  import TS = TableShape
  import TK = TableKeys
  import RQ = RepackQueue
  import opened PageRing
  import opened RingFifo
  import opened RingStream
  import opened RingProgress

  const PAGES: nat := DATA_SIZE / PAGE

  // The two sides of one channel, with the history of its pages.
  datatype Sides = Sides(sender: SenderState, receiver: ReceiverState, published: seq<Page>, released: nat)

  const FRESH: Sides := Sides(SenderState(STop, 0, 0), ReceiverState(RTop, [], [], 0), [], 0)

  datatype Section = Section(table: CT.Table, area: seq<Page>, sides: seq<Sides>)

  // What the trusted side and requesters do; traffic is the sides' own steps here.
  type ControlOp = op: CT.Op | !op.Traffic? witness CT.Serve

  datatype Move = Send(slot: nat) | Receive(slot: nat) | Control(op: ControlOp)

  // One program for every slot.
  type Programs = ps: seq<Program> | |ps| == MAX_CHANNELS witness seq(MAX_CHANNELS, i => Program([], []))

  predicate WellSized(w: Section) {
    CT.Sized(w.table) && |w.area| == PAGES && |w.sides| == MAX_CHANNELS
  }

  // ---------- One channel of the section ----------

  function RingAt(w: Section, i: nat): Ring
    requires WellSized(w) && i < MAX_CHANNELS
  {
    var e, x := w.table.entries[i], w.sides[i];
    Ring(w.table.controlMutex, RQ.RingOf(e), e.dataSize, w.area, x.sender, x.receiver, x.published, x.released)
  }

  function Put(w: Section, i: nat, r: Ring): Section
    requires WellSized(w) && i < MAX_CHANNELS
  {
    var e := w.table.entries[i].(head := r.chan.head, tail := r.chan.tail, dataSize := r.dataSize);
    Section(w.table.(entries := w.table.entries[i := e]), r.area,
            w.sides[i := Sides(r.sender, r.receiver, r.published, r.released)])
  }

  // A step of one side, of a channel that exists.  `Bounds` holds of every channel, see `Good`.
  function SideMove(ps: Programs, w: Section, i: nat, step: Step): (w': Section)
    requires WellSized(w) && (step == Sender || step == Receiver)
    ensures WellSized(w')
  {
    if i < w.table.numActive && Bounds(ps[i], RingAt(w, i)) then
      SideKeepsPlace(ps[i], RingAt(w, i), step);
      Put(w, i, StepOnce(ps[i], RingAt(w, i), step))
    else w
  }

  lemma {:induction false} SideKeepsPlace(p: Program, s: Ring, step: Step)
    requires Bounds(p, s) && (step == Sender || step == Receiver)
    ensures var t := StepOnce(p, s, step);
      && t.controlMutex == s.controlMutex && |t.area| == |s.area|
      && t.chan == s.chan.(head := t.chan.head, tail := t.chan.tail)
  {
  }

  function Do(ps: Programs, w: Section, move: Move): (w': Section)
    requires WellSized(w)
    ensures WellSized(w')
  {
    match move
    case Send(i) => SideMove(ps, w, i, Sender)
    case Receive(i) => SideMove(ps, w, i, Receiver)
    case Control(op) => w.(table := CT.Apply(w.table, op))
  }

  function RunMoves(ps: Programs, w: Section, moves: seq<Move>): (w': Section)
    requires WellSized(w)
    ensures WellSized(w')
  {
    if moves == [] then w else Do(ps, RunMoves(ps, w, moves[..|moves| - 1]), moves[|moves| - 1])
  }

  // After initialisation, with any contents of the data section.
  predicate Start(w: Section, candidate: CT.Key) {
    && w.table == CT.InitTable(candidate) && |w.area| == PAGES
    && w.sides == seq(MAX_CHANNELS, i => FRESH)
  }

  // ---------- What every run keeps ----------

  ghost predicate Good(ps: Programs, w: Section) {
    && WellSized(w) && TS.HasShape(w.table)
    && (forall i :: 0 <= i < w.table.numActive ==> Bounds(ps[i], RingAt(w, i)))
    && (forall i :: w.table.numActive <= i < MAX_CHANNELS ==> w.sides[i] == FRESH)
  }

  /** A step of a side is, for the control section, traffic of its channel. */
  lemma {:induction false} SideIsTraffic(ps: Programs, w: Section, i: nat, step: Step)
    requires Good(ps, w) && i < w.table.numActive && (step == Sender || step == Receiver)
    ensures var t, e := StepOnce(ps[i], RingAt(w, i), step), w.table.entries[i];
      SideMove(ps, w, i, step).table ==
      CT.Apply(w.table, CT.Traffic(i, t.chan.head, t.chan.tail, t.dataSize, e.lastSentAt))
  {
    assert Bounds(ps[i], RingAt(w, i));
    SideKeepsPlace(ps[i], RingAt(w, i), step);
  }

  lemma {:induction false} ShapedChannel(t: CT.Table, m: nat, i: nat, area: seq<Page>)
    requires TS.Shaped(t, m) && i < t.numActive && |area| == PAGES
    ensures RQ.RingOf(t.entries[i]).Valid(area)
  {
    assert TS.EntryShaped(t.entries[i], i, m);
    RQ.RegionInside(t, m, i);
  }

  lemma {:induction false} FreshBounds(p: Program)
    ensures SenderBounds(p.messages, FRESH.sender) && ReceiverBounds(p.receives, FRESH.receiver)
  {
  }

  lemma {:induction false} SideKeepsGood(ps: Programs, w: Section, i: nat, step: Step)
    requires Good(ps, w) && (step == Sender || step == Receiver)
    ensures Good(ps, SideMove(ps, w, i, step))
  {
    if i < w.table.numActive {
      var w', s := SideMove(ps, w, i, step), RingAt(w, i);
      var t := StepOnce(ps[i], s, step);
      SideKeepsPlace(ps[i], s, step);
      var m :| TS.Shaped(w.table, m);
      TS.TransmitShaped(w.table, m, i, t.chan.head, t.chan.tail, t.dataSize, w.table.entries[i].lastSentAt);
      assert TS.Shaped(w'.table, m);
      forall j | 0 <= j < w'.table.numActive ensures Bounds(ps[j], RingAt(w', j)) {
        assert Bounds(ps[j], RingAt(w, j));
        if j == i {
          assert RingAt(w', i) == t;
        } else {
          PutElsewhere(w, j, i, t);
        }
      }
    }
  }

  lemma {:induction false} ControlKeepsGood(ps: Programs, w: Section, op: ControlOp)
    requires Good(ps, w)
    ensures Good(ps, w.(table := CT.Apply(w.table, op)))
  {
    var w' := w.(table := CT.Apply(w.table, op));
    assert CT.RunOps(w.table, [op]) == CT.Apply(w.table, op) by {
      assert [op][..0] == [];
    }
    TS.RunKeepsShape(w.table, [op]);
    var m :| TS.Shaped(w'.table, m);
    TK.ApplyAdds(w.table, op);
    forall i | 0 <= i < w'.table.numActive ensures Bounds(ps[i], RingAt(w', i)) {
      ShapedChannel(w'.table, m, i, w'.area);
      FreshBounds(ps[i]);
      if i < w.table.numActive {
        assert Bounds(ps[i], RingAt(w, i));
      }
    }
  }

  lemma {:induction false} DoKeepsGood(ps: Programs, w: Section, move: Move)
    requires Good(ps, w)
    ensures Good(ps, Do(ps, w, move))
  {
    match move
    case Send(i) => SideKeepsGood(ps, w, i, Sender);
    case Receive(i) => SideKeepsGood(ps, w, i, Receiver);
    case Control(op) => ControlKeepsGood(ps, w, op);
  }

  // What a move is for the control section: one operation, or none.
  function MoveOp(ps: Programs, w: Section, move: Move): seq<CT.Op>
    requires WellSized(w)
  {
    match move
    case Send(i) => TrafficOf(ps, w, i, Sender)
    case Receive(i) => TrafficOf(ps, w, i, Receiver)
    case Control(op) => [op]
  }

  function TrafficOf(ps: Programs, w: Section, i: nat, step: Step): seq<CT.Op>
    requires WellSized(w) && (step == Sender || step == Receiver)
  {
    if i < w.table.numActive && Bounds(ps[i], RingAt(w, i)) then
      var t := StepOnce(ps[i], RingAt(w, i), step);
      [CT.Traffic(i, t.chan.head, t.chan.tail, t.dataSize, w.table.entries[i].lastSentAt)]
    else []
  }

  function MoveOps(ps: Programs, w: Section, moves: seq<Move>): seq<CT.Op>
    requires WellSized(w)
  {
    if moves == [] then []
    else
      var n := |moves| - 1;
      MoveOps(ps, w, moves[..n]) + MoveOp(ps, RunMoves(ps, w, moves[..n]), moves[n])
  }

  lemma {:induction false} MoveIsOp(ps: Programs, w: Section, move: Move, before: CT.Table, ops: seq<CT.Op>)
    requires Good(ps, w) && CT.Sized(before) && w.table == CT.RunOps(before, ops)
    ensures Do(ps, w, move).table == CT.RunOps(before, ops + MoveOp(ps, w, move))
  {
    var last := MoveOp(ps, w, move);
    if last == [] {
      assert ops + last == ops;
    } else {
      assert (ops + last)[..|ops|] == ops && (ops + last)[|ops|] == last[0];
      if move.Send? {
        SideIsTraffic(ps, w, move.slot, Sender);
      } else if move.Receive? {
        SideIsTraffic(ps, w, move.slot, Receiver);
      }
    }
  }

  /** A run of the whole system is, for the control section, a run of its operations, each side's step being
      traffic of its channel; so that what holds of all those runs holds of the system. */
  lemma {:induction false} SystemIsRun(ps: Programs, w: Section, moves: seq<Move>)
    requires Good(ps, w)
    ensures Good(ps, RunMoves(ps, w, moves))
    ensures RunMoves(ps, w, moves).table == CT.RunOps(w.table, MoveOps(ps, w, moves))
  {
    if moves != [] {
      var n := |moves| - 1;
      SystemIsRun(ps, w, moves[..n]);
      var before := RunMoves(ps, w, moves[..n]);
      MoveIsOp(ps, before, moves[n], w.table, MoveOps(ps, w, moves[..n]));
      DoKeepsGood(ps, before, moves[n]);
    }
  }

  // ---------- What one channel sees ----------

  // The rebalance repacks.
  predicate Repacks(t: CT.Table, mallocOk: bool)
    requires CT.Sized(t)
  {
    t.numActive > 0 && CT.TargetPages(t.numActive) * PAGE != t.entries[0].bufSize && mallocOk
  }

  function SeenRebalance(w: Section, mallocOk: bool, i: nat): seq<Step>
    requires WellSized(w) && i < w.table.numActive
  {
    if CT.TargetPages(w.table.numActive) * PAGE == w.table.entries[0].bufSize then [Lock, Unlock]
    else if !mallocOk then [Lock]
    else
      var c := RQ.RingOf(CT.Repack(w.table).entries[i]);
      [Lock, Repack(c.base, c.numPage), Unlock]
  }

  function SeenControl(w: Section, op: ControlOp): seq<Step> {
    match op
    case Serve => if w.table.hasCandidate then [Lock, Unlock] else []
    case Make => if w.table.hasCandidate then [Lock] else []
    case Clear => [Unlock]
    case _ => []
  }

  // The steps of channel i's ring that a move is.
  function Seen(ps: Programs, w: Section, move: Move, i: nat): seq<Step>
    requires WellSized(w) && i < w.table.numActive
  {
    match move
    case Send(j) => if j == i then [Sender] else [Others(Do(ps, w, move).area)]
    case Receive(j) => if j == i then [Receiver] else []
    case Control(op) =>
      if op.DoRebalance? then SeenRebalance(w, op.mallocOk, i) else SeenControl(w, op)
  }

  lemma {:induction false} RunOne(p: Program, s: Ring, a: Step)
    requires Bounds(p, s)
    ensures Run(p, s, [a]) == StepOnce(p, s, a)
  {
    assert [a][1..] == [];
  }

  lemma {:induction false} RunTwo(p: Program, s: Ring, a: Step, b: Step)
    requires Bounds(p, s)
    ensures Run(p, s, [a, b]) == StepOnce(p, StepOnce(p, s, a), b)
  {
    assert [a, b][1..] == [b];
    RunOne(p, StepOnce(p, s, a), b);
  }

  lemma {:induction false} RunThree(p: Program, s: Ring, a: Step, b: Step, c: Step)
    requires Bounds(p, s)
    ensures Run(p, s, [a, b, c]) == StepOnce(p, StepOnce(p, StepOnce(p, s, a), b), c)
  {
    assert [a, b, c][1..] == [b, c];
    RunTwo(p, StepOnce(p, s, a), b, c);
  }

  // A side's step changes at most the page at its own head.
  lemma {:induction false} SideWrites(p: Program, s: Ring, step: Step)
    requires Bounds(p, s) && (step == Sender || step == Receiver)
    ensures var k, area := s.chan.base + s.chan.head, StepOnce(p, s, step).area;
      k < |s.area| && |area| == |s.area| && area == s.area[k := area[k]]
    ensures step == Receiver ==> StepOnce(p, s, step).area == s.area
  {
  }

  lemma {:induction false} OwnSideSeen(ps: Programs, w: Section, i: nat, step: Step)
    requires Good(ps, w) && i < w.table.numActive && (step == Sender || step == Receiver)
    ensures StepOnce(ps[i], RingAt(w, i), step) == RingAt(SideMove(ps, w, i, step), i)
  {
    SideKeepsPlace(ps[i], RingAt(w, i), step);
  }

  // For another channel it is a write elsewhere.
  lemma {:induction false} OtherRegionSame(w: Section, m: nat, i: nat, j: nat, area: seq<Page>)
    requires WellSized(w) && TS.Shaped(w.table, m) && i < w.table.numActive && j < w.table.numActive && i != j
    requires RQ.RingOf(w.table.entries[i]).Valid(w.area) && RQ.RingOf(w.table.entries[j]).Valid(w.area)
    requires var c := RQ.RingOf(w.table.entries[j]);
      |area| == |w.area| && area == w.area[c.base + c.head := area[c.base + c.head]]
    ensures SameRegion(RingAt(w, i), area)
  {
    var c := RQ.RingOf(w.table.entries[j]);
    RQ.OtherRegionsUntouched(w.table, m, i, j, w.area, c.base + c.head, area[c.base + c.head]);
  }

  lemma {:induction false} PutElsewhere(w: Section, i: nat, j: nat, r: Ring)
    requires WellSized(w) && i < MAX_CHANNELS && j < MAX_CHANNELS && i != j && |r.area| == PAGES
    ensures WellSized(Put(w, j, r)) && RingAt(Put(w, j, r), i) == RingAt(w, i).(area := r.area)
  {
  }

  lemma {:induction false} OtherSideSame(ps: Programs, w: Section, i: nat, j: nat, step: Step)
    requires Good(ps, w) && i < w.table.numActive && j < w.table.numActive && i != j
    requires step == Sender || step == Receiver
    ensures var w' := SideMove(ps, w, j, step);
      && SameRegion(RingAt(w, i), w'.area) && RingAt(w', i) == RingAt(w, i).(area := w'.area)
      && (step == Receiver ==> w'.area == w.area)
  {
    assert Bounds(ps[i], RingAt(w, i)) && Bounds(ps[j], RingAt(w, j));
    var t := StepOnce(ps[j], RingAt(w, j), step);
    SideWrites(ps[j], RingAt(w, j), step);
    PutElsewhere(w, i, j, t);
    var m :| TS.Shaped(w.table, m);
    OtherRegionSame(w, m, i, j, t.area);
  }

  lemma {:induction false} OthersStep(p: Program, s: Ring, area: seq<Page>)
    requires Bounds(p, s) && SameRegion(s, area)
    ensures StepOnce(p, s, Others(area)) == s.(area := area)
  {
  }

  lemma {:induction false} OtherSideSeen(ps: Programs, w: Section, i: nat, j: nat, step: Step)
    requires Good(ps, w) && i < w.table.numActive && i != j && (step == Sender || step == Receiver)
    ensures var w' := SideMove(ps, w, j, step);
      && StepOnce(ps[i], RingAt(w, i), Others(w'.area)) == RingAt(w', i)
      && (step == Receiver ==> RingAt(w', i) == RingAt(w, i))
  {
    assert Bounds(ps[i], RingAt(w, i));
    if j < w.table.numActive {
      OtherSideSame(ps, w, i, j, step);
      OthersStep(ps[i], RingAt(w, i), SideMove(ps, w, j, step).area);
    } else {
      OthersStep(ps[i], RingAt(w, i), w.area);
    }
  }

  lemma {:induction false} RepackSeen(ps: Programs, w: Section, i: nat)
    requires Good(ps, w) && i < w.table.numActive
    ensures var c := RQ.RingOf(CT.Repack(w.table).entries[i]);
      Run(ps[i], RingAt(w, i), [Lock, Repack(c.base, c.numPage), Unlock]) ==
      RingAt(w.(table := CT.Repack(w.table)), i)
  {
    var m :| TS.Shaped(w.table, m);
    RQ.RingOfRepacked(w.table, m, i);
    TS.RepackShaped(w.table, m);
    ShapedChannel(CT.Repack(w.table), w.table.numActive, i, w.area);
    var c := RQ.RingOf(CT.Repack(w.table).entries[i]);
    RunThree(ps[i], RingAt(w, i), Lock, Repack(c.base, c.numPage), Unlock);
  }

  lemma {:induction false} RebalanceSeen(ps: Programs, w: Section, mallocOk: bool, i: nat)
    requires Good(ps, w) && i < w.table.numActive
    ensures Run(ps[i], RingAt(w, i), SeenRebalance(w, mallocOk, i)) ==
            RingAt(w.(table := CT.Rebalance(w.table, mallocOk)), i)
  {
    if CT.TargetPages(w.table.numActive) * PAGE == w.table.entries[0].bufSize {
      RunTwo(ps[i], RingAt(w, i), Lock, Unlock);
    } else if !mallocOk {
      RunOne(ps[i], RingAt(w, i), Lock);
    } else {
      RepackSeen(ps, w, i);
    }
  }

  lemma {:induction false} SideSeen(ps: Programs, w: Section, i: nat, j: nat, step: Step)
    requires Good(ps, w) && i < w.table.numActive && (step == Sender || step == Receiver)
    ensures var w' := SideMove(ps, w, j, step);
      && (j == i ==> Run(ps[i], RingAt(w, i), [step]) == RingAt(w', i))
      && (j != i ==> Run(ps[i], RingAt(w, i), [Others(w'.area)]) == RingAt(w', i))
      && (j != i && step == Receiver ==> RingAt(w', i) == RingAt(w, i))
  {
    if j == i {
      OwnSideSeen(ps, w, i, step);
      RunOne(ps[i], RingAt(w, i), step);
    } else {
      OtherSideSeen(ps, w, i, j, step);
      RunOne(ps[i], RingAt(w, i), Others(SideMove(ps, w, j, step).area));
    }
  }

  lemma {:induction false} ControlSeen(ps: Programs, w: Section, op: ControlOp, i: nat)
    requires Good(ps, w) && i < w.table.numActive && !op.DoRebalance?
    ensures Run(ps[i], RingAt(w, i), SeenControl(w, op)) == RingAt(w.(table := CT.Apply(w.table, op)), i)
  {
    RunOne(ps[i], RingAt(w, i), if op.Make? then Lock else Unlock);
    RunTwo(ps[i], RingAt(w, i), Lock, Unlock);
    assert CT.Apply(w.table, op).entries[i] == w.table.entries[i];
  }

  /** The projection: a move of the whole section is, for each channel, a few steps of its own ring,
      in which the other channels appear only as writes elsewhere. */
  lemma {:induction false} MoveSeen(ps: Programs, w: Section, move: Move, i: nat)
    requires Good(ps, w) && i < w.table.numActive
    ensures Run(ps[i], RingAt(w, i), Seen(ps, w, move, i)) == RingAt(Do(ps, w, move), i)
  {
    match move
    case Send(j) => SideSeen(ps, w, i, j, Sender);
    case Receive(j) => SideSeen(ps, w, i, j, Receiver);
    case Control(op) =>
      if op.DoRebalance? {
        RebalanceSeen(ps, w, op.mallocOk, i);
      } else {
        ControlSeen(ps, w, op, i);
      }
  }

  // ---------- Whole runs ----------

  // The exact condition under which the rebalance keeps the queue of channel i, and that it disturbs
  // neither of its sides.
  predicate KeepsQueueOf(w: Section, i: nat)
    requires WellSized(w) && i < w.table.numActive
  {
    CT.TargetBounds(w.table.numActive);
    var e, n := w.table.entries[i], CT.TargetPages(w.table.numActive);
    && (e.head == e.tail || (i == 0 && e.tail < e.head <= n && e.head - e.tail < n))
    && KeepsSides(RingAt(w, i), RQ.RingOf(CT.Repack(w.table).entries[i]).base, n)
  }

  predicate KeepsQueues(w: Section, move: Move)
    requires WellSized(w)
  {
    move.Control? && move.op.DoRebalance? && Repacks(w.table, move.op.mallocOk) ==>
      forall i :: 0 <= i < w.table.numActive ==> KeepsQueueOf(w, i)
  }

  predicate AllKeepQueues(ps: Programs, w: Section, moves: seq<Move>)
    requires WellSized(w)
  {
    moves != [] ==>
      var n := |moves| - 1;
      AllKeepQueues(ps, w, moves[..n]) && KeepsQueues(RunMoves(ps, w, moves[..n]), moves[n])
  }

  lemma {:induction false} SeenKeepsQueue(ps: Programs, w: Section, move: Move, i: nat)
    requires Good(ps, w) && i < w.table.numActive && KeepsQueues(w, move)
    ensures QueueKept(ps[i], RingAt(w, i), Seen(ps, w, move, i))
  {
    var steps, s := Seen(ps, w, move, i), RingAt(w, i);
    if |steps| == 3 {
      var c := RQ.RingOf(CT.Repack(w.table).entries[i]);
      assert KeepsQueueOf(w, i);
      assert KeepsQueue(s.chan, c.base, c.numPage) && KeepsSides(s, c.base, c.numPage) by {
        var m :| TS.Shaped(w.table, m);
        TS.EarlyExitExact(w.table, m);
        RQ.RepackKeepsQueueExactly(w.table, m, i);
        RQ.RingOfRepacked(w.table, m, i);
      }
      QueueOfThree(ps[i], s, Repack(c.base, c.numPage));
    } else {
      NoRepackSeen(ps, w, move, i);
      UnmovedKeepsQueue(ps[i], s, steps);
    }
  }

  lemma {:induction false} QueueOfThree(p: Program, s: Ring, step: Step)
    requires Bounds(p, s) && step.Repack? && step.numPage > 0
    requires KeepsQueue(s.chan, step.base, step.numPage) && KeepsSides(s, step.base, step.numPage)
    ensures QueueKept(p, s, [Lock, step, Unlock])
  {
    var s1 := StepOnce(p, s, Lock);
    var s2 := StepOnce(p, s1, step);
    assert [Lock, step, Unlock][1..] == [step, Unlock] && [step, Unlock][1..] == [Unlock] && [Unlock][1..] == [];
    assert QueueKept(p, s2, [Unlock]);
    assert QueueKept(p, s1, [step, Unlock]);
  }

  lemma {:induction false} NoRepackSeen(ps: Programs, w: Section, move: Move, i: nat)
    requires WellSized(w) && i < w.table.numActive && |Seen(ps, w, move, i)| != 3
    ensures Unmoved(Seen(ps, w, move, i))
  {
  }

  // The state of the ring is the end of a run of it from an empty one.
  ghost predicate Reached(p: Program, r: Ring) {
    exists s: Ring, steps: seq<Step> :: Init(p, s) && Run(p, s, steps) == r
  }

  lemma {:induction false} ReachedFurther(p: Program, r: Ring, steps: seq<Step>)
    requires Reached(p, r) && Bounds(p, r)
    ensures Reached(p, Run(p, r, steps))
  {
    var s, before :| Init(p, s) && Run(p, s, before) == r;
    RunJoin(p, s, before, steps);
  }

  // A run of its own ring leads to the state of the channel, and has kept its queue.
  ghost predicate LiveRing(p: Program, r: Ring) {
    Reached(p, r) && Inv(p, r) && Content(p.messages, r.sender, r.published)
  }

  lemma {:induction false} RunKeepsLive(p: Program, r: Ring, steps: seq<Step>)
    requires LiveRing(p, r) && QueueKept(p, r, steps)
    ensures LiveRing(p, Run(p, r, steps))
  {
    ReachedFurther(p, r, steps);
    RunKeepsInv(p, r, steps);
    RunKeepsContent(p, r, steps);
  }

  lemma {:induction false} InitLive(p: Program, r: Ring)
    requires Init(p, r)
    ensures LiveRing(p, r)
  {
    InitInv(p, r);
    InitContent(p, r);
    assert Run(p, r, []) == r;
  }

  lemma {:induction false} NewLive(ps: Programs, w: Section, op: ControlOp, i: nat)
    requires Good(ps, w) && w.table.numActive <= i < CT.Apply(w.table, op).numActive
    ensures LiveRing(ps[i], RingAt(w.(table := CT.Apply(w.table, op)), i))
  {
    var w' := w.(table := CT.Apply(w.table, op));
    ControlKeepsGood(ps, w, op);
    TK.ApplyAdds(w.table, op);
    assert w'.sides[i] == FRESH && w'.table.entries[i].head == w'.table.entries[i].tail;
    InitLive(ps[i], RingAt(w', i));
  }

  ghost predicate AllLive(ps: Programs, w: Section)
    requires WellSized(w)
  {
    forall i :: 0 <= i < w.table.numActive ==> LiveRing(ps[i], RingAt(w, i))
  }

  lemma {:induction false} DoKeepsLive(ps: Programs, w: Section, move: Move)
    requires Good(ps, w) && AllLive(ps, w) && KeepsQueues(w, move)
    ensures AllLive(ps, Do(ps, w, move))
  {
    var w' := Do(ps, w, move);
    if move.Control? {
      TK.ApplyAdds(w.table, move.op);
    }
    forall i | 0 <= i < w'.table.numActive ensures LiveRing(ps[i], RingAt(w', i)) {
      if i < w.table.numActive {
        MoveSeen(ps, w, move, i);
        SeenKeepsQueue(ps, w, move, i);
        RunKeepsLive(ps[i], RingAt(w, i), Seen(ps, w, move, i));
      } else {
        NewLive(ps, w, move.op, i);
      }
    }
  }

  lemma {:induction false} MovesKeepLive(ps: Programs, w: Section, moves: seq<Move>)
    requires Good(ps, w) && AllLive(ps, w) && AllKeepQueues(ps, w, moves)
    ensures Good(ps, RunMoves(ps, w, moves)) && AllLive(ps, RunMoves(ps, w, moves))
  {
    if moves != [] {
      var n := |moves| - 1;
      MovesKeepLive(ps, w, moves[..n]);
      DoKeepsGood(ps, RunMoves(ps, w, moves[..n]), moves[n]);
      DoKeepsLive(ps, RunMoves(ps, w, moves[..n]), moves[n]);
    }
  }

  lemma {:induction false} StartGood(ps: Programs, w: Section, candidate: CT.Key)
    requires Start(w, candidate)
    ensures Good(ps, w) && AllLive(ps, w)
  {
    TS.InitHasShape(candidate);
  }

  /** The whole system: in every run from initialisation of all sides of all channels, with creations,
      requests and rebalances in between that keep the queues, the state of every channel is reached
      by a run of its own ring, satisfies the ring's invariant, so that it delivers its pages first
      in, first out, and its receives are its messages; and the regions of the channels are laid out
      in the one data section. */
  lemma {:induction false} SystemDelivers(ps: Programs, w: Section, candidate: CT.Key, moves: seq<Move>, i: nat)
    requires Start(w, candidate) && AllKeepQueues(ps, w, moves)
    ensures var w' := RunMoves(ps, w, moves);
      && TS.HasShape(w'.table) && TS.LaidOut(w'.table)
      && (i < w'.table.numActive ==>
            var r := RingAt(w', i);
            && Reached(ps[i], r) && Inv(ps[i], r) && Content(ps[i].messages, r.sender, r.published)
            && (Matching(ps[i]) ==> Right(ps[i], r.receiver.filled, r.receiver.buffer)))
  {
    StartGood(ps, w, candidate);
    MovesKeepLive(ps, w, moves);
    var w' := RunMoves(ps, w, moves);
    var m :| TS.Shaped(w'.table, m);
    TS.ShapedLaidOut(w'.table, m);
    if i < w'.table.numActive && Matching(ps[i]) {
      assert LiveRing(ps[i], RingAt(w', i));
      ContentRight(ps[i], RingAt(w', i));
    }
  }
}
