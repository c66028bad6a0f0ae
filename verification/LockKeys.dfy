/**
  Who takes a message of the lock-based channel: a receiver whose key differs from the sender's never
  does, unless the fields it tests one by one show it a key that is partly left over from before.
 */
module LockKeys {
  import opened Layout
  import opened LockChannel
  import opened LockProgress
  import opened Schedules

  // A field the receiver tests differs from the sender's and from what the section held at first.
  predicate ForeignReceiver(p: Program, first: Key) {
    p.receiverKey.receiverVm != p.senderKey.receiverVm && p.receiverKey.receiverVm != first.receiverVm
  }

  predicate ForeignVm(p: Program, first: Key) {
    p.receiverKey.senderVm != p.senderKey.senderVm && p.receiverKey.senderVm != first.senderVm
  }

  predicate ForeignPid(p: Program, first: Key) {
    && p.receiverKey.senderPid != 0
    && p.receiverKey.senderPid != p.senderKey.senderPid && p.receiverKey.senderPid != first.senderPid
  }

  predicate Foreign(p: Program, first: Key) {
    ForeignReceiver(p, first) || ForeignVm(p, first) || ForeignPid(p, first)
  }

  // Every field of the key in the section is the sender's or the first one.
  predicate FieldsKnown(p: Program, first: Key, key: Key) {
    && key.receiverVm in {p.senderKey.receiverVm, first.receiverVm}
    && key.senderVm in {p.senderKey.senderVm, first.senderVm}
    && key.senderPid in {p.senderKey.senderPid, first.senderPid}
  }

  // A foreign receiver is before the test it fails, and has received nothing.
  predicate KeptOut(p: Program, first: Key, s: State) {
    && FieldsKnown(p, first, s.key)
    && s.rpc in {MReceiver, MVm, MPid}
    && (s.rpc == MVm ==> !ForeignReceiver(p, first))
    && (s.rpc == MPid ==> !ForeignReceiver(p, first) && !ForeignVm(p, first))
    && forall i :: 0 <= i < |s.buffers| ==> s.buffers[i] == []
  }

  lemma {:induction false} SenderKeepsOut(p: Program, first: Key, s: State)
    requires Bounds(p, s) && KeptOut(p, first, s)
    ensures KeptOut(p, first, SenderStep(p, s))
  {
    var t := SenderStep(p, s);
    assert t.rpc == s.rpc && t.buffers == s.buffers;
  }

  lemma {:induction false} ReceiverKeepsOut(p: Program, first: Key, s: State)
    requires Bounds(p, s) && Foreign(p, first) && KeptOut(p, first, s)
    ensures KeptOut(p, first, ReceiverStep(p, s))
  {
    var t := ReceiverStep(p, s);
    assert t.key == s.key && t.buffers == s.buffers;
  }

  lemma {:induction false} StepKeepsOut(p: Program, first: Key, s: State, step: Step)
    requires Bounds(p, s) && Foreign(p, first) && KeptOut(p, first, s)
    ensures KeptOut(p, first, StepOnce(p, s, step))
  {
    if step == Sender {
      SenderKeepsOut(p, first, s);
    } else {
      ReceiverKeepsOut(p, first, s);
    }
  }

  lemma {:induction false} RunKeepsOut(p: Program, first: Key, s: State, steps: seq<Step>)
    requires Bounds(p, s) && Foreign(p, first) && KeptOut(p, first, s)
    ensures KeptOut(p, first, Run(p, s, steps))
    decreases |steps|
  {
    if steps != [] {
      StepKeepsOut(p, first, s, steps[0]);
      RunKeepsOut(p, first, StepOnce(p, s, steps[0]), steps[1..]);
    }
  }

  /** Privacy: if some field the receiver tests, receiver_vm, sender_vm or a sender_pid other than 0,
      differs from both the sender's and the one the section held at first, then in every run the
      receiver never gets past its tests of the key, and receives no byte. */
  lemma {:induction false} ForeignReceivesNothing(p: Program, s: State, steps: seq<Step>)
    requires Init(p, s) && Foreign(p, s.key)
    ensures var t := Run(p, s, steps);
      && !ReceiverEntered(t.rpc) && !ReceiverHolds(t.rpc)
      && forall i :: 0 <= i < |t.buffers| ==> t.buffers[i] == []
  {
    InitInv(p, s);
    RunKeepsOut(p, s.key, s, steps);
  }

  predicate AllEmpty(messages: seq<Message>) {
    forall i :: 0 <= i < |messages| ==> messages[i] == []
  }

  ghost predicate Delivers(p: Program, s: State)
    requires Bounds(p, s)
  {
    forall rounds: seq<seq<Step>> :: FairRounds(rounds) && |rounds| >= Rank(p, s) ==>
      Run(p, s, Join(rounds)).buffers == p.messages
  }

  /** With the section as it is initialised and VM ids other than 0, delivery is exact: all fair schedules
      that are long enough deliver every message if and only if the receiver's key accepts the
      sender's, or there is nothing to deliver; and otherwise no byte is received in any run. */
  lemma {:induction false} DeliversExactly(p: Program, s: State)
    requires Init(p, s) && s.key == Key(0, 0, 0)
    requires p.receiverKey.receiverVm != 0 && p.receiverKey.senderVm != 0
    ensures Bounds(p, s)
    ensures Delivers(p, s) <==> Accepts(p) || AllEmpty(p.messages)
    ensures !Accepts(p) ==> Foreign(p, s.key)
  {
    InitInv(p, s);
    if Accepts(p) {
      forall rounds: seq<seq<Step>> | FairRounds(rounds) && |rounds| >= Rank(p, s)
        ensures Run(p, s, Join(rounds)).buffers == p.messages
      {
        LockDelivers(p, s, rounds);
      }
    } else {
      forall rounds: seq<seq<Step>> ensures Run(p, s, Join(rounds)).buffers == seq(|p.messages|, i => []) {
        ForeignReceivesNothing(p, s, Join(rounds));
      }
      RankNonNegative(p, s);
      var rounds := Turns(Sender, Receiver, Rank(p, s));
      TurnsFair(Sender, Receiver, Rank(p, s));
      assert FairRounds(rounds);
      if !AllEmpty(p.messages) {
        var k :| 0 <= k < |p.messages| && p.messages[k] != [];
        assert Run(p, s, Join(rounds)).buffers[k] == [];
      }
    }
  }

  // ---------- A key left over ----------

  lemma {:induction false} RunFour(p: Program, s: State, a: Step, b: Step, c: Step, d: Step)
    requires Bounds(p, s)
    ensures Run(p, s, [a, b, c, d]) == StepOnce(p, StepOnce(p, StepOnce(p, StepOnce(p, s, a), b), c), d)
  {
    var s1 := StepOnce(p, s, a);
    var s2 := StepOnce(p, s1, b);
    var s3 := StepOnce(p, s2, c);
    assert [a, b, c, d][1..] == [b, c, d] && [b, c, d][1..] == [c, d] && [c, d][1..] == [d] && [d][1..] == [];
    assert Run(p, s3, [d]) == StepOnce(p, s3, d);
    assert Run(p, s2, [c, d]) == Run(p, s3, [d]);
    assert Run(p, s1, [b, c, d]) == Run(p, s2, [c, d]);
  }

  // One message of one byte at hand, and a receiver whose key differs from the sender's in sender_vm.
  predicate ByteAtHand(p: Program, s: State) {
    && Bounds(p, s) && |p.messages| > 0 && |p.messages[0]| == 1 && s.buffers[0] == []
    && p.receiverKey.receiverVm == p.senderKey.receiverVm && p.receiverKey.senderPid == 0
    && s.rpos == Position(0, 0)
  }

  lemma {:induction false} ByteCopied(p: Program, s: State)
    requires ByteAtHand(p, s) && s.spos == Position(0, 0) && s.spc == LRefTest && s.refCount == 0 && !s.mutex
    ensures Run(p, s, [Sender, Sender, Sender, Sender]) ==
            s.(mutex := true, data := s.data[0 := p.messages[0][0]], spc := LCopy(1))
  {
    RunFour(p, s, Sender, Sender, Sender, Sender);
  }

  lemma {:induction false} TestsPassed(p: Program, s: State)
    requires ByteAtHand(p, s) && s.spos == Position(0, 0) && s.spc == LCopy(1)
    requires s.rpc == MReceiver && s.key.senderVm == p.receiverKey.senderVm
    ensures Run(p, s, [Sender, Sender, Receiver, Receiver]) ==
            s.(key := p.senderKey.(senderVm := s.key.senderVm), spc := LVm, rpc := MRefTest)
  {
    RunFour(p, s, Sender, Sender, Receiver, Receiver);
  }

  lemma {:induction false} ByteReady(p: Program, s: State)
    requires ByteAtHand(p, s) && s.spos == Position(0, 0) && s.spc == LVm && s.rpc == MRefTest
    ensures var t := Run(p, s, [Sender, Sender, Sender, Sender]);
      t.refCount == 1 && !t.mutex && t.data == s.data && t.rpc == MRefTest && t.rpos == s.rpos && t.buffers == s.buffers
  {
    RunFour(p, s, Sender, Sender, Sender, Sender);
  }

  lemma {:induction false} ByteTaken(p: Program, s: State)
    requires ByteAtHand(p, s) && s.refCount == 1 && !s.mutex && s.rpc == MRefTest && s.data[0] == p.messages[0][0]
    ensures Run(p, s, [Receiver, Receiver, Receiver, Receiver]).buffers[0] == p.messages[0]
  {
    RunFour(p, s, Receiver, Receiver, Receiver, Receiver);
    assert p.messages[0] == [p.messages[0][0]];
  }

  /** The run in which a foreign message gets in: the section still holds the receiver's sender_vm from
      before; the receiver tests receiver_vm and sender_vm between the sender's stores of the two,
      and takes the one byte of a message from another VM. */
  lemma {:induction false} StaleKeyAdmits(p: Program, s: State)
    requires Init(p, s) && |p.messages| > 0 && |p.messages[0]| == 1
    requires p.receiverKey.receiverVm == p.senderKey.receiverVm && p.receiverKey.senderPid == 0
    requires p.receiverKey.senderVm == s.key.senderVm != p.senderKey.senderVm
    ensures Bounds(p, s)
    ensures var a := Run(p, s, [Sender, Sender, Sender, Sender]);
      var b := Run(p, a, [Sender, Sender, Receiver, Receiver]);
      var c := Run(p, b, [Sender, Sender, Sender, Sender]);
      var d := Run(p, c, [Receiver, Receiver, Receiver, Receiver]);
      !Accepts(p) && d.buffers[0] == p.messages[0]
  {
    InitInv(p, s);
    ByteCopied(p, s);
    var a := Run(p, s, [Sender, Sender, Sender, Sender]);
    TestsPassed(p, a);
    var b := Run(p, a, [Sender, Sender, Receiver, Receiver]);
    ByteReady(p, b);
    ByteTaken(p, Run(p, b, [Sender, Sender, Sender, Sender]));
  }
}
