/**
  With control_mutex clear, at least two pages and enough pages sent, every schedule that lets
  both sides step again and again finishes the receives; and the sends too, when no more pages
  are sent than asked for.
 */
module RingProgress {
  import opened Layout
  import opened PageRing
  import opened RingFifo
  import opened RingStream
  import opened Schedules

  predicate ReceivesDone(p: Program, s: Ring) {
    |s.receiver.filled| == |p.receives|
  }

  predicate Finished(p: Program, s: Ring) {
    s.sender.message == |p.messages| && ReceivesDone(p, s)
  }

  // The pages the receives ask for.
  function Needed(p: Program): nat {
    StartPage(p.receives, |p.receives|)
  }

  // At least that many are sent; a message of one page never stops publishing.
  predicate Supplied(p: Program) {
    Ending(p.messages) ==> |ChunksFrom(p.messages, 0)| >= Needed(p)
  }

  // As many pages are received as are sent.
  predicate Balanced(p: Program) {
    Ending(p.messages) && |ChunksFrom(p.messages, 0)| == Needed(p)
  }

  predicate Full(s: Ring) {
    |s.published| - s.released + 1 == s.chan.numPage
  }

  predicate Empty(s: Ring) {
    |s.published| == s.released
  }

  // A page the sender publishes is needed, and its next steps are not the spinning of its full test.
  predicate SenderReady(p: Program, s: Ring) {
    && s.sender.message < |p.messages| && |s.published| < Needed(p)
    && (s.sender.pc.SCopy? || s.sender.pc == SAdd
        || s.sender.dataSent >= p.messages[s.sender.message].size || !Full(s))
  }

  predicate ReceiverReady(p: Program, s: Ring) {
    && |s.receiver.filled| < |p.receives|
    && (s.receiver.pc.RCopy? || s.receiver.pc == RSub
        || s.receiver.dataReceived >= p.receives[|s.receiver.filled|] || !Empty(s))
  }

  predicate Live(p: Program, s: Ring) {
    Inv(p, s) && Content(p.messages, s.sender, s.published) && !s.controlMutex
  }

  // ---------- A rank that never grows ----------

  const UNIT: nat := PAGE + 4

  function SenderWork(p: Program, s: SenderState, published: nat): int {
    if published >= Needed(p) then 0
    else
      UNIT * (Needed(p) - published) + (|p.messages| - s.message)
      + match s.pc
        case SCopy(at) => -(at + 1)
        case SAdd => 2
        case _ => 0
  }

  function ReceiverWork(p: Program, r: ReceiverState, released: nat): int {
    UNIT * (Needed(p) - released) + (|p.receives| - |r.filled|)
    + match r.pc
      case RCopy(at) => -(at + 1)
      case RSub => 2
      case _ => 0
  }

  // The second part of the full test fails without reason when a repack came between the two parts.
  function SenderTests(p: Program, s: Ring): nat {
    if !SenderReady(p, s) then 3
    else match s.sender.pc
         case STop => 3
         case SFirst => 2
         case SSecond => if s.chan.tail == 0 then 4 else 1
         case _ => 0
  }

  function ReceiverTests(p: Program, s: Ring): nat {
    if !ReceiverReady(p, s) then 3
    else match s.receiver.pc
         case RTop => 3
         case RTest => 2
         case _ => 0
  }

  function Rank(p: Program, s: Ring): int {
    5 * (SenderWork(p, s.sender, |s.published|) + ReceiverWork(p, s.receiver, s.released))
    + SenderTests(p, s) + ReceiverTests(p, s)
  }

  lemma {:induction false} StartPageGrows(receives: seq<IntSize>, i: nat, j: nat)
    requires i <= j <= |receives|
    ensures StartPage(receives, i) <= StartPage(receives, j)
    decreases j
  {
    if i < j {
      StartPageGrows(receives, i, j - 1);
    }
  }

  // Before its release a page is one of those still to be received.
  lemma {:induction false} PagesToReceive(p: Program, s: Ring)
    requires ReceiverBounds(p.receives, s.receiver)
    requires Filling(p.receives, s.receiver, s.published, s.released)
    ensures s.released <= Needed(p)
    ensures var n := |s.receiver.filled|;
      n < |p.receives| && s.receiver.dataReceived < p.receives[n] && s.receiver.pc != RSub ==>
        s.released < Needed(p)
  {
    var r, n := s.receiver, |s.receiver.filled|;
    StartPageGrows(p.receives, n, |p.receives|);
    if n < |p.receives| {
      assert StartPage(p.receives, n + 1) == StartPage(p.receives, n) + CeilPages(p.receives[n]);
      StartPageGrows(p.receives, n + 1, |p.receives|);
      if r.dataReceived < p.receives[n] {
        PageWithin(r.dataReceived, p.receives[n]);
      }
    }
  }

  lemma PageWithin(done: nat, size: nat)
    requires done % PAGE == 0 && done < size
    ensures CeilPages(done) < CeilPages(size)
  {
  }

  lemma {:induction false} SenderWorkNonNegative(p: Program, s: SenderState, published: nat)
    requires SenderBounds(p.messages, s)
    ensures SenderWork(p, s, published) >= 0
  {
  }

  lemma {:induction false} ReceiverWorkNonNegative(p: Program, r: ReceiverState, released: nat)
    requires ReceiverBounds(p.receives, r) && released <= Needed(p) && (r.pc.RCopy? ==> released < Needed(p))
    ensures ReceiverWork(p, r, released) >= 0
  {
  }

  lemma {:induction false} RankNonNegative(p: Program, s: Ring)
    requires Live(p, s)
    ensures Rank(p, s) >= 0
  {
    SenderWorkNonNegative(p, s.sender, |s.published|);
    PagesToReceive(p, s);
    ReceiverWorkNonNegative(p, s.receiver, s.released);
  }

  // The sender's part of the rank never grows, and falls with every step but a test that goes on
  // testing.
  lemma {:induction false} SenderWorkFalls(p: Program, s: Ring)
    requires Bounds(p, s) && !s.controlMutex && s.sender.message < |p.messages|
    ensures var t := SenderStep(p, s);
      var before, after := SenderWork(p, s.sender, |s.published|), SenderWork(p, t.sender, |t.published|);
      && after <= before
      && (|s.published| < Needed(p) ==>
            && (s.sender.pc.SCopy? || t.sender.pc.SCopy? ==> after < before)
            && (s.sender.pc == SAdd ==> after + 2 <= before)
            && (s.sender.dataSent >= p.messages[s.sender.message].size ==> after < before))
  {
  }

  lemma {:induction false} ReceiverWorkFalls(p: Program, s: Ring)
    requires Bounds(p, s) && !s.controlMutex
    ensures var t := ReceiverStep(p, s);
      var before, after := ReceiverWork(p, s.receiver, s.released), ReceiverWork(p, t.receiver, t.released);
      var n := |s.receiver.filled|;
      && after <= before
      && (s.receiver.pc.RCopy? ==> after < before)
      && (s.receiver.pc == RSub ==> after + 2 <= before)
      && (n < |p.receives| && s.receiver.dataReceived >= p.receives[n] ==> after < before)
      && (n < |p.receives| && s.receiver.pc == RTest && t.receiver.pc.RCopy? ==> after < before)
  {
  }

  // ---------- Each side's step ----------

  lemma {:induction false} SenderTestsFall(p: Program, s: Ring)
    requires Bounds(p, s) && Holding(s) && !s.controlMutex && SenderReady(p, s)
    requires s.sender.pc in {STop, SFirst, SSecond} && s.sender.dataSent < p.messages[s.sender.message].size
    ensures SenderStep(p, s).sender.pc.SCopy? || SenderTests(p, SenderStep(p, s)) < SenderTests(p, s)
  {
    FullTest(s.chan, |s.published| - s.released);
  }

  lemma {:induction false} SenderLeavesReceiver(p: Program, s: Ring)
    requires Bounds(p, s) && Holding(s)
    ensures var t := SenderStep(p, s);
      && t.receiver == s.receiver && t.released == s.released
      && (ReceiverReady(p, s) ==> ReceiverReady(p, t)) && ReceiverTests(p, t) <= ReceiverTests(p, s)
  {
  }

  lemma {:induction false} ReceiverLeavesSender(p: Program, s: Ring)
    requires Bounds(p, s) && Holding(s)
    ensures var t := ReceiverStep(p, s);
      && t.sender == s.sender && t.published == s.published
      && (SenderReady(p, s) ==> SenderReady(p, t))
      && SenderTests(p, t) <= SenderTests(p, s) + (if s.receiver.pc.RCopy? then 3 else 0)
  {
  }

  lemma {:induction false} SenderDescends(p: Program, s: Ring)
    requires Bounds(p, s) && Holding(s) && !s.controlMutex
    ensures var t := SenderStep(p, s);
      && Rank(p, t) <= Rank(p, s)
      && (SenderReady(p, s) ==> Rank(p, t) < Rank(p, s))
      && (ReceiverReady(p, s) ==> ReceiverReady(p, t))
  {
    SenderLeavesReceiver(p, s);
    if s.sender.message < |p.messages| {
      SenderWorkFalls(p, s);
      if SenderReady(p, s) && s.sender.pc in {STop, SFirst, SSecond}
         && s.sender.dataSent < p.messages[s.sender.message].size {
        SenderTestsFall(p, s);
      }
    }
  }

  lemma {:induction false} ReceiverDescends(p: Program, s: Ring)
    requires Bounds(p, s) && Holding(s) && !s.controlMutex
    ensures var t := ReceiverStep(p, s);
      && Rank(p, t) <= Rank(p, s)
      && (ReceiverReady(p, s) ==> Rank(p, t) < Rank(p, s))
      && (SenderReady(p, s) ==> SenderReady(p, t))
  {
    ReceiverLeavesSender(p, s);
    ReceiverWorkFalls(p, s);
  }

  lemma {:induction false} SideKeepsLive(p: Program, s: Ring, step: Step)
    requires Live(p, s) && (step == Sender || step == Receiver)
    ensures Live(p, StepOnce(p, s, step))
    ensures StepOnce(p, s, step).chan.numPage == s.chan.numPage
  {
    StepKeepsInv(p, s, step);
    StepKeepsContent(p, s, step);
  }

  /** A step of a side never raises the rank, a step of a side that is ready lowers it, and
      neither side makes the other unready. */
  lemma {:induction false} SideDescends(p: Program, s: Ring, step: Step)
    requires Bounds(p, s) && Holding(s) && !s.controlMutex && (step == Sender || step == Receiver)
    ensures var t := StepOnce(p, s, step);
      && Rank(p, t) <= Rank(p, s)
      && (step == Sender && SenderReady(p, s) ==> Rank(p, t) < Rank(p, s))
      && (step == Receiver && ReceiverReady(p, s) ==> Rank(p, t) < Rank(p, s))
      && (step == Sender && ReceiverReady(p, s) ==> ReceiverReady(p, t))
      && (step == Receiver && SenderReady(p, s) ==> SenderReady(p, t))
  {
    if step == Sender {
      SenderDescends(p, s);
    } else {
      ReceiverDescends(p, s);
    }
  }

  lemma {:induction false} SentAll(p: Program, s: Ring)
    requires Live(p, s) && s.sender.message == |p.messages|
    ensures Ending(p.messages) && |s.published| == |ChunksFrom(p.messages, 0)|
  {
    assert |ChunksFrom(p.messages, 0)[|s.published|..]| == 0;
  }

  /** Deadlock freedom: while a receive is unfinished, some side's next steps are not spinning. */
  lemma {:induction false} SomeSideReady(p: Program, s: Ring)
    requires Live(p, s) && Supplied(p) && s.chan.numPage >= 2 && !ReceivesDone(p, s)
    ensures SenderReady(p, s) || ReceiverReady(p, s)
  {
    PagesToReceive(p, s);
    if s.sender.message == |p.messages| {
      SentAll(p, s);
    }
  }

  // ---------- Fair schedules ----------

  // Steps of the two sides, among writes of other channels.
  predicate Calm(steps: seq<Step>) {
    forall k :: 0 <= k < |steps| ==> steps[k] == Sender || steps[k] == Receiver || steps[k].Others?
  }

  // Writes of other channels change neither the rank nor who is ready.
  lemma {:induction false} OthersKeepRank(p: Program, s: Ring, step: Step)
    requires Bounds(p, s) && step.Others?
    ensures var t := StepOnce(p, s, step);
      && t == s.(area := t.area) && Rank(p, t) == Rank(p, s)
      && SenderReady(p, t) == SenderReady(p, s) && ReceiverReady(p, t) == ReceiverReady(p, s)
  {
  }

  lemma {:induction false} CalmKeepsLive(p: Program, s: Ring, step: Step)
    requires Live(p, s) && (step == Sender || step == Receiver || step.Others?)
    ensures Live(p, StepOnce(p, s, step))
    ensures StepOnce(p, s, step).chan.numPage == s.chan.numPage
  {
    StepKeepsInv(p, s, step);
    StepKeepsContent(p, s, step);
    if step.Others? {
      OthersKeepRank(p, s, step);
    }
  }

  // From s to t: the rank does not grow, and falls if the side named is ready and has stepped.
  predicate Descends(p: Program, s: Ring, steps: seq<Step>, t: Ring) {
    && Rank(p, t) <= Rank(p, s)
    && (SenderReady(p, s) && Sender in steps ==> Rank(p, t) < Rank(p, s))
    && (ReceiverReady(p, s) && Receiver in steps ==> Rank(p, t) < Rank(p, s))
  }

  lemma {:induction false} DescendsFirst(p: Program, s: Ring, steps: seq<Step>, t: Ring)
    requires Bounds(p, s) && Holding(s) && !s.controlMutex
    requires steps != [] && (steps[0] == Sender || steps[0] == Receiver || steps[0].Others?)
    requires Descends(p, StepOnce(p, s, steps[0]), steps[1..], t)
    ensures Descends(p, s, steps, t)
  {
    if steps[0].Others? {
      OthersKeepRank(p, s, steps[0]);
    } else {
      SideDescends(p, s, steps[0]);
    }
    assert steps == [steps[0]] + steps[1..];
  }

  lemma {:induction false} SegmentDescends(p: Program, s: Ring, steps: seq<Step>)
    requires Live(p, s) && Calm(steps)
    ensures var t := Run(p, s, steps);
      Live(p, t) && t.chan.numPage == s.chan.numPage && Descends(p, s, steps, t)
    decreases |steps|
  {
    if steps != [] {
      CalmKeepsLive(p, s, steps[0]);
      SegmentDescends(p, StepOnce(p, s, steps[0]), steps[1..]);
      DescendsFirst(p, s, steps, Run(p, s, steps));
    }
  }

  lemma {:induction false} DoneStays(p: Program, s: Ring, steps: seq<Step>)
    requires Bounds(p, s) && ReceivesDone(p, s) && Calm(steps)
    ensures ReceivesDone(p, Run(p, s, steps))
    decreases |steps|
  {
    if steps != [] {
      DoneStays(p, StepOnce(p, s, steps[0]), steps[1..]);
    }
  }

  predicate FairRounds(rounds: seq<seq<Step>>) {
    Fair(rounds, Sender, Receiver) && forall i :: 0 <= i < |rounds| ==> Calm(rounds[i])
  }

  lemma {:induction false} RunJoin(p: Program, s: Ring, a: seq<Step>, b: seq<Step>)
    requires Bounds(p, s)
    ensures Run(p, s, a + b) == Run(p, Run(p, s, a), b)
    decreases |a|
  {
    if a == [] {
      assert a + b == b;
    } else {
      assert (a + b)[1..] == a[1..] + b;
      RunJoin(p, StepOnce(p, s, a[0]), a[1..], b);
    }
  }

  lemma {:induction false} JoinCalm(rounds: seq<seq<Step>>)
    requires FairRounds(rounds)
    ensures Calm(Join(rounds)) && Unmoved(Join(rounds))
  {
    if rounds != [] {
      assert FairRounds(rounds[1..]);
      JoinCalm(rounds[1..]);
    }
  }

  lemma {:induction false} RankPositive(p: Program, s: Ring)
    requires Live(p, s) && Supplied(p) && s.chan.numPage >= 2 && !ReceivesDone(p, s)
    ensures Rank(p, s) > 0
  {
    SomeSideReady(p, s);
    var side := if SenderReady(p, s) then Sender else Receiver;
    SideKeepsLive(p, s, side);
    SideDescends(p, s, side);
    RankNonNegative(p, StepOnce(p, s, side));
  }

  lemma {:induction false} RoundDescends(p: Program, s: Ring, round: seq<Step>)
    requires Live(p, s) && Supplied(p) && s.chan.numPage >= 2 && !ReceivesDone(p, s)
    requires Calm(round) && Sender in round && Receiver in round
    ensures var t := Run(p, s, round);
      Live(p, t) && t.chan.numPage == s.chan.numPage && Rank(p, t) < Rank(p, s)
  {
    SomeSideReady(p, s);
    SegmentDescends(p, s, round);
  }

  lemma {:induction false} DoneFrom(p: Program, s: Ring, rounds: seq<seq<Step>>)
    requires Live(p, s) && ReceivesDone(p, s) && FairRounds(rounds)
    ensures var t := Run(p, s, Join(rounds)); Live(p, t) && ReceivesDone(p, t)
  {
    JoinCalm(rounds);
    SegmentDescends(p, s, Join(rounds));
    DoneStays(p, s, Join(rounds));
  }

  lemma {:induction false} FirstRound(p: Program, s: Ring, rounds: seq<seq<Step>>)
    requires Bounds(p, s) && FairRounds(rounds) && rounds != []
    ensures Calm(rounds[0]) && Sender in rounds[0] && Receiver in rounds[0] && FairRounds(rounds[1..])
    ensures Run(p, s, Join(rounds)) == Run(p, Run(p, s, rounds[0]), Join(rounds[1..]))
  {
    RunJoin(p, s, rounds[0], Join(rounds[1..]));
  }

  /** Termination of the receives: every fair schedule of Rank rounds finishes all of them. */
  lemma {:induction false} FairRunsReceive(p: Program, s: Ring, rounds: seq<seq<Step>>)
    requires Live(p, s) && Supplied(p) && s.chan.numPage >= 2
    requires FairRounds(rounds) && |rounds| >= Rank(p, s)
    ensures var t := Run(p, s, Join(rounds)); Live(p, t) && ReceivesDone(p, t)
    decreases |rounds|
  {
    if ReceivesDone(p, s) {
      DoneFrom(p, s, rounds);
    } else {
      RankPositive(p, s);
      FirstRound(p, s, rounds);
      RoundDescends(p, s, rounds[0]);
      FairRunsReceive(p, Run(p, s, rounds[0]), rounds[1..]);
    }
  }

  // ---------- The sends ----------

  // When all pages are out, what the sender still does is count the last one and return.
  function ReturnsLeft(p: Program, s: SenderState): int {
    2 * (|p.messages| - s.message) + if s.pc == SAdd then 1 else 0
  }

  predicate Sent(p: Program, s: Ring) {
    Live(p, s) && Ending(p.messages) && |s.published| == |ChunksFrom(p.messages, 0)|
  }

  lemma {:induction false} SentSteps(p: Program, s: Ring)
    requires Sent(p, s) && s.sender.message < |p.messages|
    ensures SenderStep(p, s).published == s.published
    ensures ReturnsLeft(p, SenderStep(p, s).sender) < ReturnsLeft(p, s.sender)
  {
    assert Remaining(p.messages, s.sender) == [];
    assert s.sender.pc != SAdd ==> Chunks(p.messages[s.sender.message], s.sender.dataSent) == [];
  }

  // Only the sender's steps change the sender and what is published.
  lemma {:induction false} OthersLeaveSender(p: Program, s: Ring, step: Step)
    requires Bounds(p, s) && step != Sender
    ensures StepOnce(p, s, step).sender == s.sender && StepOnce(p, s, step).published == s.published
  {
  }

  lemma {:induction false} SentStep(p: Program, s: Ring, step: Step)
    requires Sent(p, s) && (step == Sender || step == Receiver || step.Others?)
    ensures var t := StepOnce(p, s, step);
      && Sent(p, t) && ReturnsLeft(p, t.sender) <= ReturnsLeft(p, s.sender)
      && (s.sender.message < |p.messages| && step == Sender ==>
            ReturnsLeft(p, t.sender) < ReturnsLeft(p, s.sender))
      && (step != Sender ==> t.sender == s.sender)
  {
    CalmKeepsLive(p, s, step);
    if step != Sender {
      OthersLeaveSender(p, s, step);
    } else if s.sender.message < |p.messages| {
      SentSteps(p, s);
    } else {
      assert SenderStep(p, s) == s;
    }
  }

  // From s to t fewer returns are left, if the sender has stepped and is not done.
  predicate Returns(p: Program, s: Ring, steps: seq<Step>, t: Ring) {
    && ReturnsLeft(p, t.sender) <= ReturnsLeft(p, s.sender)
    && (s.sender.message < |p.messages| && Sender in steps ==>
          ReturnsLeft(p, t.sender) < ReturnsLeft(p, s.sender))
  }

  lemma {:induction false} ReturnsFirst(p: Program, s: Ring, s': Ring, steps: seq<Step>, t: Ring)
    requires steps != [] && Returns(p, s', steps[1..], t)
    requires ReturnsLeft(p, s'.sender) <= ReturnsLeft(p, s.sender)
    requires s.sender.message < |p.messages| && steps[0] == Sender ==>
      ReturnsLeft(p, s'.sender) < ReturnsLeft(p, s.sender)
    requires steps[0] != Sender ==> s'.sender == s.sender
    ensures Returns(p, s, steps, t)
  {
    assert steps == [steps[0]] + steps[1..];
  }

  lemma {:induction false} SentSegment(p: Program, s: Ring, steps: seq<Step>)
    requires Sent(p, s) && Calm(steps)
    ensures Sent(p, Run(p, s, steps)) && Returns(p, s, steps, Run(p, s, steps))
    decreases |steps|
  {
    if steps != [] {
      var s' := StepOnce(p, s, steps[0]);
      SentStep(p, s, steps[0]);
      SentSegment(p, s', steps[1..]);
      ReturnsFirst(p, s, s', steps, Run(p, s', steps[1..]));
    }
  }

  lemma {:induction false} FairRunsReturn(p: Program, s: Ring, rounds: seq<seq<Step>>)
    requires Sent(p, s) && FairRounds(rounds) && |rounds| >= ReturnsLeft(p, s.sender)
    ensures Run(p, s, Join(rounds)).sender.message == |p.messages|
    decreases |rounds|
  {
    if rounds != [] {
      FirstRound(p, s, rounds);
      SentSegment(p, s, rounds[0]);
      FairRunsReturn(p, Run(p, s, rounds[0]), rounds[1..]);
    }
  }

  function RoundsToFinish(p: Program, s: Ring): int {
    Rank(p, s) + 2 * |p.messages| + 1
  }

  lemma {:induction false} ReceivedAllSent(p: Program, s: Ring)
    requires Live(p, s) && Balanced(p) && ReceivesDone(p, s)
    ensures Sent(p, s) && Empty(s)
  {
    assert s.released == Needed(p);
  }

  lemma {:induction false} FinishFrom(p: Program, s: Ring, rounds: seq<seq<Step>>)
    requires Live(p, s) && Balanced(p) && ReceivesDone(p, s)
    requires FairRounds(rounds) && |rounds| >= 2 * |p.messages| + 1
    ensures var t := Run(p, s, Join(rounds)); Live(p, t) && Finished(p, t) && Empty(t)
  {
    ReceivedAllSent(p, s);
    FairRunsReturn(p, s, rounds);
    JoinCalm(rounds);
    DoneStays(p, s, Join(rounds));
    SegmentDescends(p, s, Join(rounds));
    ReceivedAllSent(p, Run(p, s, Join(rounds)));
  }

  lemma {:induction false} SplitRounds(p: Program, s: Ring, rounds: seq<seq<Step>>, n: nat)
    requires Bounds(p, s) && n <= |rounds| && FairRounds(rounds)
    ensures FairRounds(rounds[..n]) && FairRounds(rounds[n..])
    ensures Run(p, s, Join(rounds)) == Run(p, Run(p, s, Join(rounds[..n])), Join(rounds[n..]))
  {
    assert rounds[..n] + rounds[n..] == rounds;
    JoinConcat(rounds[..n], rounds[n..]);
    RunJoin(p, s, Join(rounds[..n]), Join(rounds[n..]));
  }

  /** Termination: when as many pages are sent as asked for, every fair schedule that is long enough
      ends with all sends and receives done and the ring empty. */
  lemma {:induction false} FairRunsFinish(p: Program, s: Ring, rounds: seq<seq<Step>>)
    requires Live(p, s) && Balanced(p) && s.chan.numPage >= 2
    requires FairRounds(rounds) && |rounds| >= RoundsToFinish(p, s)
    ensures var t := Run(p, s, Join(rounds)); Live(p, t) && Finished(p, t) && Empty(t)
  {
    RankNonNegative(p, s);
    var n := Rank(p, s);
    SplitRounds(p, s, rounds, n);
    FairRunsReceive(p, s, rounds[..n]);
    FinishFrom(p, Run(p, s, Join(rounds[..n])), rounds[n..]);
  }

  // ---------- Delivery ----------

  lemma {:induction false} MatchingBalanced(p: Program)
    requires Matching(p) && AllFullPages(p.messages)
    ensures Balanced(p)
  {
    MessageStart(p, |p.messages|);
  }

  /** Delivery: on an empty ring of at least two pages, with the sizes sent asked for and none
      of them in [PAGE, 2 * PAGE), every fair schedule that is long enough ends with all calls
      returned, the ring empty, and every receive holding exactly its message. */
  lemma {:induction false} FairRunsDeliver(p: Program, s: Ring, rounds: seq<seq<Step>>)
    requires Init(p, s) && !s.controlMutex && s.chan.numPage >= 2
    requires Matching(p) && AllFullPages(p.messages)
    requires FairRounds(rounds) && |rounds| >= RoundsToFinish(p, s)
    ensures var t := Run(p, s, Join(rounds));
      && Finished(p, t) && Empty(t)
      && forall i :: 0 <= i < |p.messages| ==>
           t.receiver.filled[i] == p.messages[i].mem[..p.messages[i].size]
  {
    InitInv(p, s);
    InitContent(p, s);
    MatchingBalanced(p);
    FairRunsFinish(p, s, rounds);
    JoinCalm(rounds);
    UnmovedKeepsQueue(p, s, Join(rounds));
    MessagesDelivered(p, s, Join(rounds));
  }

  // Equal byte totals are equal page totals.
  lemma {:induction false} TotalsBalanced(p: Program)
    requires WholePages(p)
    requires Total(p.receives, |p.receives|) == |SentBytes(p.messages, |p.messages|)|
    ensures Balanced(p)
  {
    var all, n := ChunksFrom(p.messages, 0), |p.messages|;
    TotalPages(p.receives, |p.receives|);
    FullChunks(p.messages, 0);
    FlatPages(all, |all|, 0);
    SentFlat(p.messages, n);
    assert Flat(all) == SentBytes(p.messages, n) + Flat([]) == SentBytes(p.messages, n);
  }

  /** Delivery of the stream: with whole-page sizes and equal totals, however the receives divide
      the stream, every fair schedule that is long enough ends with exactly the bytes sent. */
  lemma {:induction false} FairRunsStream(p: Program, s: Ring, rounds: seq<seq<Step>>)
    requires Init(p, s) && !s.controlMutex && s.chan.numPage >= 2 && WholePages(p)
    requires Total(p.receives, |p.receives|) == |SentBytes(p.messages, |p.messages|)|
    requires FairRounds(rounds) && |rounds| >= RoundsToFinish(p, s)
    ensures var t := Run(p, s, Join(rounds));
      && Finished(p, t) && Empty(t)
      && Flat(t.receiver.filled) == SentBytes(p.messages, |p.messages|)
  {
    InitInv(p, s);
    InitContent(p, s);
    TotalsBalanced(p);
    FairRunsFinish(p, s, rounds);
    JoinCalm(rounds);
    UnmovedKeepsQueue(p, s, Join(rounds));
    StreamDelivered(p, s, Join(rounds));
  }
}
