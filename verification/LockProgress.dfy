/**
  With a key the receiver accepts, the lock-based channel never blocks both sides, every fair
  schedule finishes, and a finished channel is free and drained.
 */
module LockProgress {
  import opened LockChannel
  import opened Schedules

  // The receiver's key accepts the sender's; sender_pid 0 accepts any.
  predicate Accepts(p: Program) {
    && p.receiverKey.receiverVm == p.senderKey.receiverVm
    && p.receiverKey.senderVm == p.senderKey.senderVm
    && (p.receiverKey.senderPid == 0 || p.receiverKey.senderPid == p.senderKey.senderPid)
  }

  predicate Finished(p: Program, s: State) {
    && s.spos.message == |p.messages| && s.spc == LRefTest
    && s.rpos.message == |p.messages| && s.rpc == MReceiver
  }

  // The side's next steps are not spinning.
  predicate SenderReady(p: Program, s: State) {
    SenderHolds(s.spc) || s.spc == LSet || (s.spos.message < |p.messages| && s.refCount == 0 && !s.mutex)
  }

  predicate ReceiverReady(p: Program, s: State) {
    ReceiverHolds(s.rpc) || s.rpc == MSet || (s.rpos.message < |p.messages| && s.refCount == 1 && !s.mutex)
  }

  // ---------- A rank that never grows ----------

  function BytesFrom(messages: seq<Message>, i: nat): nat
    requires i <= |messages|
    decreases |messages| - i
  {
    if i == |messages| then 0 else |messages[i]| + BytesFrom(messages, i + 1)
  }

  function BytesLeft(messages: seq<Message>, pos: Position): int
    requires Normal(messages, pos)
  {
    BytesFrom(messages, pos.message) - pos.offset
  }

  lemma {:induction false} SkipLeft(messages: seq<Message>, i: nat, offset: nat)
    requires i < |messages| && offset <= |messages[i]|
    ensures var pos := Skip(messages, i, offset);
      Normal(messages, pos) && BytesLeft(messages, pos) == BytesFrom(messages, i) - offset
    decreases |messages| - i
  {
    if offset >= |messages[i]| {
      if i + 1 < |messages| {
        SkipLeft(messages, i + 1, 0);
      }
    }
  }

  lemma {:induction false} AdvanceLeft(messages: seq<Message>, pos: Position)
    requires Normal(messages, pos) && pos.message < |messages|
    ensures BytesLeft(messages, Advance(messages, pos)) == BytesLeft(messages, pos) - Chunk(messages, pos)
    ensures BytesLeft(messages, pos) >= Chunk(messages, pos)
  {
    SkipLeft(messages, pos.message, pos.offset + Chunk(messages, pos));
  }

  function SenderWork(p: Program, s: State): int
    requires Bounds(p, s)
  {
    16 * BytesLeft(p.messages, s.spos)
    + match s.spc
      case LCopy(at) => -(at + 1)
      case LReceiver => -(Chunk(p.messages, s.spos) + 2)
      case LVm => -(Chunk(p.messages, s.spos) + 3)
      case LSize => -(Chunk(p.messages, s.spos) + 4)
      case LRef => -(Chunk(p.messages, s.spos) + 5)
      case LUnset => 1
      case _ => 0
  }

  function ReceiverWork(p: Program, s: State): int
    requires Bounds(p, s)
  {
    16 * BytesLeft(p.messages, s.rpos)
    + match s.rpc
      case MCopy(at) => -(at + 1)
      case MStore(_) => -(Chunk(p.messages, s.rpos) + 2)
      case MUnset => 1
      case _ => 0
  }

  function SenderTests(p: Program, s: State): nat {
    if !SenderReady(p, s) then 7
    else match s.spc
         case LRefTest => 3
         case LMutexTest => 2
         case LSet => 1
         case _ => 0
  }

  function ReceiverTests(p: Program, s: State): nat {
    if !ReceiverReady(p, s) then 7
    else match s.rpc
         case MReceiver => 6
         case MVm => 5
         case MPid => 4
         case MRefTest => 3
         case MMutexTest => 2
         case MSet => 1
         case _ => 0
  }

  function Rank(p: Program, s: State): int
    requires Bounds(p, s)
  {
    8 * (SenderWork(p, s) + ReceiverWork(p, s)) + SenderTests(p, s) + ReceiverTests(p, s)
  }

  lemma {:induction false} LeftNonNegative(messages: seq<Message>, pos: Position)
    requires Normal(messages, pos)
    ensures BytesLeft(messages, pos) >= 0
  {
    if pos.message < |messages| {
      AdvanceLeft(messages, pos);
    }
  }

  lemma {:induction false} SenderWorkNonNegative(p: Program, s: State)
    requires Bounds(p, s)
    ensures SenderWork(p, s) >= 0
  {
    LeftNonNegative(p.messages, s.spos);
    if s.spos.message < |p.messages| {
      AdvanceLeft(p.messages, s.spos);
    }
  }

  lemma {:induction false} ReceiverWorkNonNegative(p: Program, s: State)
    requires Bounds(p, s)
    ensures ReceiverWork(p, s) >= 0
  {
    LeftNonNegative(p.messages, s.rpos);
    if s.rpos.message < |p.messages| {
      AdvanceLeft(p.messages, s.rpos);
    }
  }

  lemma {:induction false} RankNonNegative(p: Program, s: State)
    requires Bounds(p, s)
    ensures Rank(p, s) >= 0
  {
    SenderWorkNonNegative(p, s);
    ReceiverWorkNonNegative(p, s);
  }

  lemma {:induction false} SenderLeavesReceiver(p: Program, s: State)
    requires Bounds(p, s)
    ensures var t := SenderStep(p, s); t.rpc == s.rpc && t.rpos == s.rpos && ReceiverWork(p, t) == ReceiverWork(p, s)
  {
  }

  lemma {:induction false} ReceiverLeavesSender(p: Program, s: State)
    requires Bounds(p, s)
    ensures var t := ReceiverStep(p, s); t.spc == s.spc && t.spos == s.spos && SenderWork(p, t) == SenderWork(p, s)
  {
  }

  // The two ways the sender's part of the rank changes: by what it copies, and by its position.
  lemma {:induction false} SenderWorkFalls(p: Program, s: State)
    requires Bounds(p, s)
    ensures SenderWork(p, SenderStep(p, s)) <= SenderWork(p, s)
    ensures SenderHolds(s.spc) || s.spc == LSet ==> SenderWork(p, SenderStep(p, s)) < SenderWork(p, s)
  {
    if s.spc == LRef {
      AdvanceLeft(p.messages, s.spos);
    } else {
      assert SenderStep(p, s).spos == s.spos;
    }
  }

  lemma {:induction false} ReceiverWorkFalls(p: Program, s: State)
    requires Bounds(p, s)
    ensures ReceiverWork(p, ReceiverStep(p, s)) <= ReceiverWork(p, s)
    ensures ReceiverHolds(s.rpc) || s.rpc == MSet ==> ReceiverWork(p, ReceiverStep(p, s)) < ReceiverWork(p, s)
  {
    if s.rpc.MStore? {
      AdvanceLeft(p.messages, s.rpos);
    } else {
      assert ReceiverStep(p, s).rpos == s.rpos;
    }
  }

  lemma {:induction false} SenderDescends(p: Program, s: State)
    requires Bounds(p, s) && Exclusion(s)
    ensures Rank(p, SenderStep(p, s)) <= Rank(p, s)
    ensures SenderReady(p, s) ==> Rank(p, SenderStep(p, s)) < Rank(p, s)
    ensures ReceiverReady(p, s) ==> ReceiverReady(p, SenderStep(p, s))
  {
    SenderLeavesReceiver(p, s);
    SenderWorkFalls(p, s);
  }

  lemma {:induction false} ReceiverDescends(p: Program, s: State)
    requires Bounds(p, s) && Exclusion(s) && Ready(p, s) && Accepts(p)
    ensures Rank(p, ReceiverStep(p, s)) <= Rank(p, s)
    ensures ReceiverReady(p, s) ==> Rank(p, ReceiverStep(p, s)) < Rank(p, s)
    ensures SenderReady(p, s) ==> SenderReady(p, ReceiverStep(p, s))
  {
    ReceiverLeavesSender(p, s);
    ReceiverWorkFalls(p, s);
  }

  /** Progress: in every reachable state that is not finished some side's next step is not spinning. */
  lemma {:induction false} SomeSideReady(p: Program, s: State)
    requires Inv(p, s) && !Finished(p, s)
    ensures SenderReady(p, s) || ReceiverReady(p, s)
  {
  }

  // ---------- Fair schedules ----------

  lemma {:induction false} SideDescends(p: Program, s: State, step: Step)
    requires Bounds(p, s) && Exclusion(s) && Ready(p, s) && Accepts(p)
    ensures var t := StepOnce(p, s, step);
      && Rank(p, t) <= Rank(p, s)
      && (step == Sender && SenderReady(p, s) ==> Rank(p, t) < Rank(p, s))
      && (step == Receiver && ReceiverReady(p, s) ==> Rank(p, t) < Rank(p, s))
      && (step == Sender && ReceiverReady(p, s) ==> ReceiverReady(p, t))
      && (step == Receiver && SenderReady(p, s) ==> SenderReady(p, t))
  {
    if step == Sender {
      SenderDescends(p, s);
    } else {
      ReceiverDescends(p, s);
    }
  }

  // From s to t: the rank does not grow, and falls if the side named is ready and has stepped.
  predicate Descends(p: Program, s: State, steps: seq<Step>, t: State)
    requires Bounds(p, s) && Bounds(p, t)
  {
    && Rank(p, t) <= Rank(p, s)
    && (SenderReady(p, s) && Sender in steps ==> Rank(p, t) < Rank(p, s))
    && (ReceiverReady(p, s) && Receiver in steps ==> Rank(p, t) < Rank(p, s))
  }

  lemma {:induction false} DescendsFirst(p: Program, s: State, steps: seq<Step>, t: State)
    requires Bounds(p, s) && Exclusion(s) && Ready(p, s) && Accepts(p) && Bounds(p, t)
    requires steps != [] && Descends(p, StepOnce(p, s, steps[0]), steps[1..], t)
    ensures Descends(p, s, steps, t)
  {
    SideDescends(p, s, steps[0]);
    assert steps == [steps[0]] + steps[1..];
  }

  lemma {:induction false} SegmentDescends(p: Program, s: State, steps: seq<Step>)
    requires Inv(p, s) && Accepts(p)
    ensures Inv(p, Run(p, s, steps)) && Descends(p, s, steps, Run(p, s, steps))
    decreases |steps|
  {
    if steps != [] {
      StepKeepsInv(p, s, steps[0]);
      SegmentDescends(p, StepOnce(p, s, steps[0]), steps[1..]);
      DescendsFirst(p, s, steps, Run(p, s, steps));
    }
  }

  lemma {:induction false} FinishedStays(p: Program, s: State, steps: seq<Step>)
    requires Bounds(p, s) && Finished(p, s)
    ensures Run(p, s, steps) == s
    decreases |steps|
  {
    if steps != [] {
      FinishedStays(p, s, steps[1..]);
    }
  }

  predicate FairRounds(rounds: seq<seq<Step>>) {
    Fair(rounds, Sender, Receiver)
  }

  lemma {:induction false} RunJoin(p: Program, s: State, a: seq<Step>, b: seq<Step>)
    requires Bounds(p, s)
    ensures Run(p, s, a + b) == Run(p, Run(p, s, a), b)
    decreases |a|
  {
    if a == [] {
      assert a + b == b;
    } else {
      assert (a + b)[1..] == a[1..] + b;
      RunJoin(p, StepOnce(p, s, a[0]), a[1..], b);
    }
  }

  lemma {:induction false} RankPositive(p: Program, s: State)
    requires Inv(p, s) && Accepts(p) && !Finished(p, s)
    ensures Rank(p, s) > 0
  {
    SomeSideReady(p, s);
    var side := if SenderReady(p, s) then Sender else Receiver;
    SideDescends(p, s, side);
    RankNonNegative(p, StepOnce(p, s, side));
  }

  lemma {:induction false} FairRunsFinish(p: Program, s: State, rounds: seq<seq<Step>>)
    requires Inv(p, s) && Accepts(p) && FairRounds(rounds) && |rounds| >= Rank(p, s)
    ensures Finished(p, Run(p, s, Join(rounds))) && Inv(p, Run(p, s, Join(rounds)))
    decreases |rounds|
  {
    if Finished(p, s) {
      FinishedStays(p, s, Join(rounds));
    } else {
      RankPositive(p, s);
      SomeSideReady(p, s);
      SegmentDescends(p, s, rounds[0]);
      FairRunsFinish(p, Run(p, s, rounds[0]), rounds[1..]);
      RunJoin(p, s, rounds[0], Join(rounds[1..]));
    }
  }

  /** Delivery: every fair schedule that is long enough ends with the mutex clear, ref_count 0 and
      every receive holding exactly its message, for every list of sizes. */
  lemma {:induction false} LockDelivers(p: Program, s: State, rounds: seq<seq<Step>>)
    requires Init(p, s) && Accepts(p) && FairRounds(rounds) && |rounds| >= Rank(p, s)
    ensures var t := Run(p, s, Join(rounds));
      !t.mutex && t.refCount == 0 && t.buffers == p.messages
  {
    InitInv(p, s);
    FairRunsFinish(p, s, rounds);
  }
}
