/**
  The mutex of the control section: when the trusted side leaves it set, what clears it, and
  what it does to the two sides of a ring while it is set.
 */
module ControlMutex {
  import opened Layout
  import opened ChannelTable
  import opened TableShape
  import PR = PageRing

  // ---------- The trusted side ----------

  // A rebalance that has to repack and cannot allocate.
  predicate Fails(t: Table, op: Op)
    requires Sized(t)
  {
    op.DoRebalance? && !op.mallocOk && t.numActive > 0 && !AtTarget(t)
  }

  // Such a rebalance, or a service that is begun.
  predicate Takes(t: Table, op: Op)
    requires Sized(t)
  {
    Fails(t, op) || (op.Make? && t.hasCandidate)
  }

  // A service ended, or a rebalance that ends by its early exit or with its repack done.
  predicate Frees(t: Table, op: Op)
    requires Sized(t)
  {
    || (op.Serve? && t.hasCandidate) || op.Clear?
    || (op.DoRebalance? && t.numActive > 0 && (op.mallocOk || AtTarget(t)))
  }

  /** The rebalancer returns with the mutex set if and only if some channel is away from its target
      and the allocation fails. */
  lemma {:induction false} RebalanceMutex(t: Table, m: nat, mallocOk: bool)
    requires Shaped(t, m) && t.numActive > 0
    ensures Rebalance(t, mallocOk).controlMutex <==> !mallocOk && !AtTarget(t)
  {
    EarlyExitExact(t, m);
  }

  lemma {:induction false} ApplyMutex(t: Table, op: Op)
    requires HasShape(t)
    ensures Apply(t, op).controlMutex <==> Takes(t, op) || (t.controlMutex && !Frees(t, op))
  {
    if op.DoRebalance? && t.numActive > 0 {
      var m :| Shaped(t, m);
      RebalanceMutex(t, m, op.mallocOk);
    }
  }

  // Step k takes the mutex and no step after it frees it.
  predicate StuckSince(t: Table, ops: seq<Op>, k: nat)
    requires Sized(t) && k < |ops|
  {
    var n := |ops| - 1;
    if k == n then Takes(RunOps(t, ops[..n]), ops[n])
    else StuckSince(t, ops[..n], k) && !Frees(RunOps(t, ops[..n]), ops[n])
  }

  predicate Stuck(t: Table, ops: seq<Op>)
    requires Sized(t)
  {
    exists k :: 0 <= k < |ops| && StuckSince(t, ops, k)
  }

  lemma {:induction false} StuckLast(t: Table, ops: seq<Op>)
    requires Sized(t) && ops != []
    ensures var n := |ops| - 1;
      var before := RunOps(t, ops[..n]);
      Stuck(t, ops) <==> Takes(before, ops[n]) || (Stuck(t, ops[..n]) && !Frees(before, ops[n]))
  {
    var n := |ops| - 1;
    var before := RunOps(t, ops[..n]);
    if Stuck(t, ops) {
      var k :| 0 <= k < |ops| && StuckSince(t, ops, k);
      assert k == n || StuckSince(t, ops[..n], k);
    }
    if Takes(before, ops[n]) {
      assert StuckSince(t, ops, n);
    } else if Stuck(t, ops[..n]) && !Frees(before, ops[n]) {
      var k :| 0 <= k < n && StuckSince(t, ops[..n], k);
      assert StuckSince(t, ops, k);
    }
  }

  lemma {:induction false} RunMutex(t: Table, ops: seq<Op>)
    requires HasShape(t) && !t.controlMutex
    ensures RunOps(t, ops).controlMutex <==> Stuck(t, ops)
  {
    if ops != [] {
      var n := |ops| - 1;
      RunMutex(t, ops[..n]);
      RunKeepsShape(t, ops[..n]);
      ApplyMutex(RunOps(t, ops[..n]), ops[n]);
      StuckLast(t, ops);
    }
  }

  /** The lock of the control section after every run from initialisation: it is set if and only if
      some rebalance failed to allocate with a channel away from its target, or some service was
      begun, and since then no service was ended and no rebalance succeeded. */
  lemma {:induction false} MutexExactly(candidate: Key, ops: seq<Op>)
    ensures RunOps(InitTable(candidate), ops).controlMutex <==> Stuck(InitTable(candidate), ops)
  {
    InitHasShape(candidate);
    RunMutex(InitTable(candidate), ops);
  }

  /** Two steps that leave it set. */
  lemma {:induction false} MutexLeftSet(candidate: Key, key: Key)
    ensures RunOps(InitTable(candidate), [DoCreate(key), DoRebalance(false)]).controlMutex
  {
    var t, ops := InitTable(candidate), [DoCreate(key), DoRebalance(false)];
    assert ops[..1] == [DoCreate(key)] && ops[..1][..0] == [];
    assert RunOps(t, ops[..1]) == Create(t, key);
    assert Create(t, key).entries[0].bufSize == INIT_SIZE;
    TargetBounds(1);
  }

  // ---------- The two sides of a ring ----------

  // Pages the side publishes or releases before it is back at the top of its loop.
  function SenderLeft(pc: PR.SenderPc): nat {
    if pc == PR.STop || pc == PR.SAdd then 0 else 1
  }

  function ReceiverLeft(pc: PR.ReceiverPc): nat {
    if pc == PR.RTop || pc == PR.RSub then 0 else 1
  }

  // From s to t no call has returned, at most the page in hand was published and released, and a
  // side that was at the top has not moved.
  predicate Stalled(s: PR.Ring, t: PR.Ring) {
    && t.controlMutex
    && t.sender.message == s.sender.message && t.receiver.filled == s.receiver.filled
    && |s.published| <= |t.published|
    && |t.published| + SenderLeft(t.sender.pc) <= |s.published| + SenderLeft(s.sender.pc)
    && s.released <= t.released
    && t.released + ReceiverLeft(t.receiver.pc) <= s.released + ReceiverLeft(s.receiver.pc)
    && (s.sender.pc == PR.STop ==> t.sender == s.sender && t.published == s.published)
    && (s.receiver.pc == PR.RTop ==> t.receiver == s.receiver && t.released == s.released)
    && (s.sender.pc == PR.STop && s.receiver.pc == PR.RTop ==> t.dataSize == s.dataSize)
  }

  lemma {:induction false} SenderStalls(p: PR.Program, s: PR.Ring)
    requires PR.Bounds(p, s) && s.controlMutex
    ensures Stalled(s, PR.SenderStep(p, s))
  {
  }

  lemma {:induction false} ReceiverStalls(p: PR.Program, s: PR.Ring)
    requires PR.Bounds(p, s) && s.controlMutex
    ensures Stalled(s, PR.ReceiverStep(p, s))
  {
  }

  lemma {:induction false} StepStalls(p: PR.Program, s: PR.Ring, step: PR.Step)
    requires PR.Bounds(p, s) && s.controlMutex && step != PR.Unlock
    ensures Stalled(s, PR.StepOnce(p, s, step))
  {
    match step
    case Sender => SenderStalls(p, s);
    case Receiver => ReceiverStalls(p, s);
    case _ =>
  }

  /** While the mutex is set and nobody clears it, neither side gets past the top of its loop: at
      most the page in hand is published and released, no call returns, and a side that is at the
      top does not move at all. */
  lemma {:induction false} MutexStalls(p: PR.Program, s: PR.Ring, steps: seq<PR.Step>)
    requires PR.Bounds(p, s) && s.controlMutex && PR.Unlock !in steps
    ensures Stalled(s, PR.Run(p, s, steps))
    decreases |steps|
  {
    if steps != [] {
      StepStalls(p, s, steps[0]);
      MutexStalls(p, PR.StepOnce(p, s, steps[0]), steps[1..]);
    }
  }
}
