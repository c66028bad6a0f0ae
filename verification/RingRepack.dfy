/**
  A repack while a side is inside an iteration: control_mutex is tested only at the top of the loops,
  so nothing keeps the trusted side from it.
 */
module RingRepack {
  import opened Layout
  import opened PageRing
  import opened RingFifo

  // The sender's page is where it was.
  predicate SamePage(s: Ring, t: Ring) {
    s.sender.pc.SCopy? ==> t.chan.base + t.chan.head == s.chan.base + s.chan.head
  }

  /** The exact condition on the sides, for a repack that keeps the queue: what each side knows from its
      tests still holds and the page being copied is still the one at head if and only if
      `KeepsSides`; so only a sender between its full test and its publication can be disturbed. */
  lemma {:induction false} SidesKeptExactly(p: Program, s: Ring, base: nat, numPage: nat)
    requires Inv(p, s) && CanRepack(s, base, numPage) && KeepsQueue(s.chan, base, numPage)
    ensures var t := StepOnce(p, s, Repack(base, numPage));
      && (KeepsSides(s, base, numPage) <==> Claims(t) && SamePage(s, t))
      && (s.sender.pc in {STop, SFirst, SAdd} ==> KeepsSides(s, base, numPage))
  {
    OccupancyRepack(s.chan, s.area, s.published, s.released, base, numPage);
    assert Queued(s.chan) == |s.published| - s.released;
  }

  /** What happens otherwise: a sender past its test that publishes into a ring the repack has left full
      makes head meet tail, and the receiver takes the ring for empty with all its pages unread. */
  lemma {:induction false} FullPublishLoses(p: Program, s: Ring)
    requires Bounds(p, s) && Occupancy(s.chan, s.area, s.published, s.released)
    requires s.sender.message < |p.messages| && s.sender.pc == SCopy(ToSend(p.messages[s.sender.message].size))
    requires |s.published| - s.released + 1 == s.chan.numPage
    ensures var t := SenderStep(p, s);
      t.chan.head == t.chan.tail && |t.published| - t.released == t.chan.numPage
  {
  }

  lemma {:induction false} RunFour(p: Program, s: Ring, a: Step, b: Step, c: Step, d: Step)
    requires Bounds(p, s)
    ensures Run(p, s, [a, b, c, d]) == StepOnce(p, StepOnce(p, StepOnce(p, StepOnce(p, s, a), b), c), d)
  {
    var s1 := StepOnce(p, s, a);
    var s2 := StepOnce(p, s1, b);
    var s3 := StepOnce(p, s2, c);
    assert [a, b, c, d][1..] == [b, c, d] && [b, c, d][1..] == [c, d] && [c, d][1..] == [d] && [d][1..] == [];
    assert Run(p, s3, [d]) == StepOnce(p, s3, d);
    assert Run(p, s2, [c, d]) == Run(p, s3, [d]);
    assert Run(p, s1, [b, c, d]) == Run(p, s2, [c, d]);
  }

  // A sender at the top of its loop, on a first message of which an iteration copies one byte.
  predicate AtByte(p: Program, s: Ring, sent: nat) {
    && Bounds(p, s) && !s.controlMutex && |p.messages| > 0 && p.messages[0].size == PAGE + 1
    && s.sender == SenderState(STop, 0, sent) && sent < PAGE
  }

  // It passes its full test.
  lemma {:induction false} TestPassed(p: Program, s: Ring, sent: nat)
    requires AtByte(p, s, sent) && s.chan.tail == 1 && 0 < s.chan.head < s.chan.numPage - 1
    ensures var t := SenderStep(p, SenderStep(p, s));
      t == s.(sender := SenderState(SCopy(0), 0, sent))
  {
  }

  // Then it copies its byte and publishes the page.
  lemma {:induction false} BytePublished(p: Program, s: Ring, sent: nat)
    requires Bounds(p, s) && |p.messages| > 0 && p.messages[0].size == PAGE + 1
    requires s.sender == SenderState(SCopy(0), 0, sent)
    ensures var t := SenderStep(p, SenderStep(p, s));
      && t.sender == SenderState(SAdd, 0, sent) && t.chan == s.chan.(head := Next(s.chan.head, s.chan.numPage))
      && |t.published| == |s.published| + 1 && t.released == s.released && t.controlMutex == s.controlMutex
  {
    assert SenderStep(p, s).sender == SenderState(SCopy(1), 0, sent);
  }

  lemma {:induction false} ByteAdded(p: Program, s: Ring, sent: nat)
    requires Bounds(p, s) && |p.messages| > 0 && p.messages[0].size == PAGE + 1
    requires s.sender == SenderState(SAdd, 0, sent)
    ensures var t := SenderStep(p, s);
      && t.sender == SenderState(STop, 0, sent + 1) && t.chan == s.chan && t.controlMutex == s.controlMutex
      && t.published == s.published && t.released == s.released
  {
  }

  /** The failing run: one page queued, the sender past its second full test, and a repack from four
      pages to two that keeps the queue.  The sender then publishes, and both pages are lost. */
  lemma {:induction false} RepackInsideFails(p: Program, s: Ring)
    requires Init(p, s) && !s.controlMutex && s.chan.numPage == 4 && s.chan.head == 1
    requires |p.messages| > 0 && p.messages[0].size == PAGE + 1
    ensures var before := Run(p, Run(p, s, [Sender, Sender, Sender, Sender]), [Sender, Sender, Sender, Lock]);
      var t := Run(p, before, [Repack(s.chan.base, 2), Unlock, Sender, Sender]);
      && CanRepack(before, s.chan.base, 2) && KeepsQueue(before.chan, s.chan.base, 2)
      && t.chan.head == t.chan.tail && |t.published| - t.released == 2
  {
    var s2 := SenderStep(p, SenderStep(p, s));
    TestPassed(p, s, 0);
    var s4 := SenderStep(p, SenderStep(p, s2));
    BytePublished(p, s2, 0);
    var s5 := SenderStep(p, s4);
    ByteAdded(p, s4, 0);
    var s7 := SenderStep(p, SenderStep(p, s5));
    TestPassed(p, s5, 1);
    var s8 := StepOnce(p, s7, Lock);
    RunFour(p, s, Sender, Sender, Sender, Sender);
    RunFour(p, s4, Sender, Sender, Sender, Lock);
    var s10 := StepOnce(p, StepOnce(p, s8, Repack(s.chan.base, 2)), Unlock);
    assert s10 == s7.(chan := Channel(s.chan.base, 2, 0, 1));
    BytePublished(p, s10, 1);
    RunFour(p, s8, Repack(s.chan.base, 2), Unlock, Sender, Sender);
  }
}
