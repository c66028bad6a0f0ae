/**
  Every interleaving of the two sides delivers pages first in, first out: no
  restriction on message sizes, receive sizes, page count or number of wraparounds.
 */
module RingFifo {
  import opened Layout
  import opened PageRing

  // ---------- Occupied pages ----------

  function Slot(tail: nat, i: nat, numPage: nat): nat
    requires tail < numPage && i <= numPage
  {
    if tail + i < numPage then tail + i else tail + i - numPage
  }

  // The ring holds exactly the published, unreleased pages, in order, from tail to head,
  // and at least one page is free.
  predicate Occupancy(c: Channel, area: seq<Page>, published: seq<Page>, released: nat) {
    var count := |published| - released;
    && c.Valid(area)
    && 0 <= count < c.numPage
    && c.head == Slot(c.tail, count, c.numPage)
    && forall i :: 0 <= i < count ==>
         area[c.base + Slot(c.tail, i, c.numPage)] == published[released + i]
  }

  // What each side knows after its test of the other side's index.
  predicate Claims(s: Ring) {
    && (s.sender.pc == SSecond && s.chan.tail != 0 ==> |s.published| - s.released + 2 <= s.chan.numPage)
    && (s.sender.pc.SCopy? ==> |s.published| - s.released + 2 <= s.chan.numPage)
    && (s.receiver.pc.RCopy? ==> |s.published| - s.released >= 1)
  }

  // The bytes the sender has copied so far into the page at head.
  predicate PartialPage(messages: seq<Message>, s: Ring)
    requires s.chan.Valid(s.area) && SenderBounds(messages, s.sender)
  {
    s.sender.pc.SCopy? ==>
      var m, at := messages[s.sender.message], s.sender.pc.at;
      && s.sender.dataSent + at <= |m.mem|
      && s.area[s.chan.base + s.chan.head][..at] == m.mem[s.sender.dataSent..s.sender.dataSent + at]
  }

  // ---------- Received bytes ----------

  function CeilPages(size: nat): nat {
    (size + PAGE - 1) / PAGE
  }

  // Index, among all published pages, of the first page of receive number i.
  function StartPage(receives: seq<IntSize>, i: nat): nat
    requires i <= |receives|
  {
    if i == 0 then 0 else StartPage(receives, i - 1) + CeilPages(receives[i - 1])
  }

  // The buffer holds the bytes of the published pages from page number `first` on.
  predicate From(published: seq<Page>, first: nat, buffer: seq<Byte>) {
    && first + CeilPages(|buffer|) <= |published|
    && forall x :: 0 <= x < |buffer| ==> buffer[x] == published[first + x / PAGE][x % PAGE]
  }

  predicate Filled(receives: seq<IntSize>, filled: seq<seq<Byte>>, published: seq<Page>) {
    && |filled| <= |receives|
    && forall i {:trigger filled[i]} :: 0 <= i < |filled| ==>
         |filled[i]| == receives[i] && From(published, StartPage(receives, i), filled[i])
  }

  // Bytes of the current page the receiver has already copied.
  function Copied(receives: seq<IntSize>, r: ReceiverState): nat
    requires ReceiverBounds(receives, r)
  {
    match r.pc
    case RCopy(at) => at
    case RSub => ToReceive(receives[|r.filled|], r.dataReceived)
    case _ => 0
  }

  // Where the receive in progress stands.
  predicate Filling(receives: seq<IntSize>, r: ReceiverState, published: seq<Page>, released: nat)
    requires ReceiverBounds(receives, r)
  {
    var first := StartPage(receives, |r.filled|);
    && From(published, first, r.buffer)
    && released == first + CeilPages(r.dataReceived) + (if r.pc == RSub then 1 else 0)
    && |r.buffer| == r.dataReceived + Copied(receives, r)
    && (r.dataReceived % PAGE == 0 || r.dataReceived == receives[|r.filled|])
  }

  predicate Holding(s: Ring) {
    Occupancy(s.chan, s.area, s.published, s.released) && Claims(s)
  }

  predicate Delivering(p: Program, s: Ring) {
    && ReceiverBounds(p.receives, s.receiver)
    && Filled(p.receives, s.receiver.filled, s.published)
    && Filling(p.receives, s.receiver, s.published, s.released)
  }

  predicate Inv(p: Program, s: Ring) {
    Bounds(p, s) && Holding(s) && PartialPage(p.messages, s) && Delivering(p, s)
  }

  // ---------- Occupancy under the three ways the ring changes ----------

  lemma {:induction false} OccupancyUpdate(c: Channel, area: seq<Page>, published: seq<Page>, released: nat, page: Page)
    requires Occupancy(c, area, published, released)
    ensures Occupancy(c, area[c.base + c.head := page], published, released)
  {
    var area' := area[c.base + c.head := page];
    forall i | 0 <= i < |published| - released
      ensures area'[c.base + Slot(c.tail, i, c.numPage)] == published[released + i]
    {
      assert Slot(c.tail, i, c.numPage) != c.head;
    }
  }

  lemma {:induction false} OccupancyPublish(c: Channel, area: seq<Page>, published: seq<Page>, released: nat)
    requires Occupancy(c, area, published, released)
    requires |published| - released + 2 <= c.numPage
    ensures Occupancy(c.(head := Next(c.head, c.numPage)), area, published + [area[c.base + c.head]], released)
  {
  }

  lemma {:induction false} OccupancyRelease(c: Channel, area: seq<Page>, published: seq<Page>, released: nat)
    requires Occupancy(c, area, published, released) && |published| > released
    ensures Occupancy(c.(tail := Next(c.tail, c.numPage)), area, published, released + 1)
  {
    var tail := Next(c.tail, c.numPage);
    forall i | 0 <= i < |published| - released - 1
      ensures area[c.base + Slot(tail, i, c.numPage)] == published[released + 1 + i]
    {
      assert Slot(tail, i, c.numPage) == Slot(c.tail, i + 1, c.numPage);
      assert published[released + 1 + i] == published[released + (i + 1)];
    }
  }

  // The sender's full test, with its wrapping tail - 1, and the receiver's empty test are exact.
  lemma FullTest(c: Channel, count: nat)
    requires c.head < c.numPage && c.tail < c.numPage < 0x8000_0000 && count < c.numPage
    requires c.head == Slot(c.tail, count, c.numPage)
    ensures c.head == SubU32(c.tail, 1) || (c.head == c.numPage - 1 && c.tail == 0) <==> count + 1 == c.numPage
    ensures c.head == c.tail <==> count == 0
  {
  }

  lemma {:induction false} SenderTestsHold(p: Program, s: Ring)
    requires Bounds(p, s) && Holding(s) && !s.sender.pc.SCopy?
    ensures Holding(SenderStep(p, s))
  {
    var t := SenderStep(p, s);
    assert t.chan == s.chan && t.area == s.area && t.published == s.published && t.released == s.released;
    FullTest(s.chan, |s.published| - s.released);
  }

  lemma {:induction false} SenderCopyHolds(p: Program, s: Ring)
    requires Bounds(p, s) && Holding(s) && s.sender.pc.SCopy?
    requires s.sender.pc.at < ToSend(p.messages[s.sender.message].size)
    ensures Holding(SenderStep(p, s))
  {
    var t, k := SenderStep(p, s), s.chan.base + s.chan.head;
    OccupancyUpdate(s.chan, s.area, s.published, s.released, t.area[k]);
    assert t.chan == s.chan && t.area == s.area[k := t.area[k]];
    assert t.published == s.published && t.released == s.released;
  }

  lemma {:induction false} SenderPublishHolds(p: Program, s: Ring)
    requires Bounds(p, s) && Holding(s) && s.sender.pc.SCopy?
    requires s.sender.pc.at == ToSend(p.messages[s.sender.message].size)
    ensures Holding(SenderStep(p, s))
  {
    OccupancyPublish(s.chan, s.area, s.published, s.released);
  }

  lemma {:induction false} SenderKeepsHolding(p: Program, s: Ring)
    requires Bounds(p, s) && Holding(s)
    ensures Holding(SenderStep(p, s))
  {
    if !s.sender.pc.SCopy? {
      SenderTestsHold(p, s);
    } else if s.sender.pc.at < ToSend(p.messages[s.sender.message].size) {
      SenderCopyHolds(p, s);
    } else {
      SenderPublishHolds(p, s);
    }
  }

  lemma {:induction false} ReceiverReleaseHolds(p: Program, s: Ring)
    requires Bounds(p, s) && Holding(s) && s.receiver.pc.RCopy?
    requires s.receiver.pc.at == ToReceive(p.receives[|s.receiver.filled|], s.receiver.dataReceived)
    ensures Holding(ReceiverStep(p, s))
  {
    OccupancyRelease(s.chan, s.area, s.published, s.released);
    FullTest(s.chan, |s.published| - s.released);
  }

  lemma {:induction false} ReceiverKeepsHolding(p: Program, s: Ring)
    requires Bounds(p, s) && Holding(s)
    ensures Holding(ReceiverStep(p, s))
  {
    var r := s.receiver;
    if r.pc.RCopy? && r.pc.at == ToReceive(p.receives[|r.filled|], r.dataReceived) {
      ReceiverReleaseHolds(p, s);
    } else {
      var t := ReceiverStep(p, s);
      assert t.chan == s.chan && t.area == s.area && t.published == s.published && t.released == s.released;
      FullTest(s.chan, |s.published| - s.released);
    }
  }

  // ---------- The page being written ----------

  lemma CopyByte(page: Page, mem: seq<Byte>, from: nat, at: nat)
    requires at < PAGE && from + at < |mem| && page[..at] == mem[from..from + at]
    ensures page[at := mem[from + at]][..at + 1] == mem[from..from + at + 1]
  {
    assert page[at := mem[from + at]][..at + 1] == page[..at] + [mem[from + at]];
  }

  // What the sender does when it copies a byte.
  lemma {:induction false} SenderCopies(p: Program, s: Ring)
    requires Bounds(p, s) && s.sender.pc.SCopy? && s.sender.pc.at < ToSend(p.messages[s.sender.message].size)
    ensures var t, me, k := SenderStep(p, s), s.sender, s.chan.base + s.chan.head;
      var m := p.messages[me.message];
      && me.dataSent + me.pc.at < |m.mem| && t.chan == s.chan && t.sender == me.(pc := SCopy(me.pc.at + 1))
      && t.area == s.area[k := s.area[k][me.pc.at := m.mem[me.dataSent + me.pc.at]]]
  {
  }

  lemma {:induction false} SenderKeepsPartialPage(p: Program, s: Ring)
    requires Bounds(p, s) && PartialPage(p.messages, s)
    ensures PartialPage(p.messages, SenderStep(p, s))
  {
    if s.sender.pc.SCopy? && s.sender.pc.at < ToSend(p.messages[s.sender.message].size) {
      SenderCopies(p, s);
      var k := s.chan.base + s.chan.head;
      CopyByte(s.area[k], p.messages[s.sender.message].mem, s.sender.dataSent, s.sender.pc.at);
    }
  }

  lemma {:induction false} ReceiverKeepsPartialPage(p: Program, s: Ring)
    requires Bounds(p, s) && PartialPage(p.messages, s)
    ensures PartialPage(p.messages, ReceiverStep(p, s))
  {
    var t := ReceiverStep(p, s);
    assert t.sender == s.sender && t.area == s.area && t.chan.base == s.chan.base && t.chan.head == s.chan.head;
  }

  // ---------- Received bytes ----------

  lemma {:induction false} FromLonger(before: seq<Page>, after: seq<Page>, first: nat, buffer: seq<Byte>)
    requires before <= after && From(before, first, buffer)
    ensures From(after, first, buffer)
  {
  }

  lemma {:induction false} FilledLonger(
      receives: seq<IntSize>, filled: seq<seq<Byte>>, before: seq<Page>, after: seq<Page>)
    requires before <= after && Filled(receives, filled, before)
    ensures Filled(receives, filled, after)
  {
    forall i | 0 <= i < |filled| ensures From(after, StartPage(receives, i), filled[i]) {
      FromLonger(before, after, StartPage(receives, i), filled[i]);
    }
  }

  lemma {:induction false} FromAppend(published: seq<Page>, first: nat, before: seq<Byte>, b: Byte)
    requires From(published, first, before)
    requires first + |before| / PAGE < |published|
    requires b == published[first + |before| / PAGE][|before| % PAGE]
    ensures From(published, first, before + [b])
  {
  }

  lemma {:induction false} SenderKeepsDelivering(p: Program, s: Ring)
    requires Bounds(p, s) && Delivering(p, s)
    ensures Delivering(p, SenderStep(p, s))
  {
    var t := SenderStep(p, s);
    assert t.receiver == s.receiver && t.released == s.released && s.published <= t.published;
    FromLonger(s.published, t.published, StartPage(p.receives, |s.receiver.filled|), s.receiver.buffer);
    FilledLonger(p.receives, s.receiver.filled, s.published, t.published);
  }

  lemma InPage(start: nat, at: nat)
    requires start % PAGE == 0 && at < PAGE
    ensures (start + at) / PAGE == start / PAGE == CeilPages(start)
    ensures (start + at) % PAGE == at
    ensures CeilPages(start + at + 1) == start / PAGE + 1
  {
  }

  // The copy steps: one byte, then the release of the page.
  lemma {:induction false} FillingByte(receives: seq<IntSize>, r: ReceiverState, published: seq<Page>, released: nat)
    requires ReceiverBounds(receives, r) && Filling(receives, r, published, released)
    requires r.pc.RCopy? && r.pc.at < ToReceive(receives[|r.filled|], r.dataReceived) && released < |published|
    ensures var r' := r.(pc := RCopy(r.pc.at + 1), buffer := r.buffer + [published[released][r.pc.at]]);
      ReceiverBounds(receives, r') && Filling(receives, r', published, released)
  {
    InPage(r.dataReceived, r.pc.at);
    FromAppend(published, StartPage(receives, |r.filled|), r.buffer, published[released][r.pc.at]);
  }

  lemma {:induction false} FilledAppend(
      receives: seq<IntSize>, filled: seq<seq<Byte>>, published: seq<Page>, buffer: seq<Byte>)
    requires Filled(receives, filled, published)
    requires |filled| < |receives| && |buffer| == receives[|filled|]
    requires From(published, StartPage(receives, |filled|), buffer)
    ensures Filled(receives, filled + [buffer], published)
  {
  }

  lemma {:induction false} FillingDone(receives: seq<IntSize>, r: ReceiverState, published: seq<Page>, released: nat)
    requires ReceiverBounds(receives, r) && Filling(receives, r, published, released)
    requires |r.filled| < |receives| && r.pc == RTop && r.dataReceived == receives[|r.filled|]
    ensures var r' := ReceiverState(RTop, r.filled + [r.buffer], [], 0);
      ReceiverBounds(receives, r') && Filling(receives, r', published, released)
  {
    var n := |r.filled|;
    assert StartPage(receives, n + 1) == StartPage(receives, n) + CeilPages(receives[n]);
    assert |r.filled + [r.buffer]| == n + 1;
  }

  lemma {:induction false} FillingRelease(receives: seq<IntSize>, r: ReceiverState, published: seq<Page>, released: nat)
    requires ReceiverBounds(receives, r) && Filling(receives, r, published, released)
    requires r.pc.RCopy? && r.pc.at == ToReceive(receives[|r.filled|], r.dataReceived)
    ensures ReceiverBounds(receives, r.(pc := RSub)) && Filling(receives, r.(pc := RSub), published, released + 1)
  {
  }

  lemma {:induction false} FillingAdvance(receives: seq<IntSize>, r: ReceiverState, published: seq<Page>, released: nat)
    requires ReceiverBounds(receives, r) && Filling(receives, r, published, released) && r.pc == RSub
    ensures var r' := r.(pc := RTop, dataReceived := r.dataReceived + ToReceive(receives[|r.filled|], r.dataReceived));
      ReceiverBounds(receives, r') && Filling(receives, r', published, released)
  {
    var n := ToReceive(receives[|r.filled|], r.dataReceived);
    InPage(r.dataReceived, n - 1);
  }

  // What the receiver does past its test, in terms of the page it copies.
  lemma {:induction false} ReceiverCopies(p: Program, s: Ring)
    requires Bounds(p, s) && s.receiver.pc.RCopy?
    ensures var r, t := s.receiver, ReceiverStep(p, s);
      && t.published == s.published
      && if r.pc.at < ToReceive(p.receives[|r.filled|], r.dataReceived) then
           && t.released == s.released
           && t.receiver == r.(pc := RCopy(r.pc.at + 1),
                               buffer := r.buffer + [s.area[s.chan.base + s.chan.tail][r.pc.at]])
         else t.released == s.released + 1 && t.receiver == r.(pc := RSub)
  {
  }

  lemma {:induction false} CopyKeepsFilling(p: Program, s: Ring)
    requires Bounds(p, s) && Filling(p.receives, s.receiver, s.published, s.released) && s.receiver.pc.RCopy?
    requires s.released < |s.published| && s.area[s.chan.base + s.chan.tail] == s.published[s.released]
    ensures var t := ReceiverStep(p, s); Filling(p.receives, t.receiver, t.published, t.released)
  {
    var r := s.receiver;
    ReceiverCopies(p, s);
    if r.pc.at < ToReceive(p.receives[|r.filled|], r.dataReceived) {
      FillingByte(p.receives, r, s.published, s.released);
    } else {
      FillingRelease(p.receives, r, s.published, s.released);
    }
  }

  lemma {:induction false} ReceiverKeepsFilling(p: Program, s: Ring)
    requires Bounds(p, s) && Filling(p.receives, s.receiver, s.published, s.released)
    requires s.receiver.pc.RCopy? ==>
      s.released < |s.published| && s.area[s.chan.base + s.chan.tail] == s.published[s.released]
    requires s.receiver.pc != RTop
    ensures var t := ReceiverStep(p, s); Filling(p.receives, t.receiver, t.published, t.released)
  {
    if s.receiver.pc == RSub {
      FillingAdvance(p.receives, s.receiver, s.published, s.released);
    } else if s.receiver.pc.RCopy? {
      CopyKeepsFilling(p, s);
    }
  }

  lemma {:induction false} PageAtTail(s: Ring)
    requires Holding(s) && |s.published| > s.released
    ensures s.area[s.chan.base + s.chan.tail] == s.published[s.released]
  {
    assert s.area[s.chan.base + Slot(s.chan.tail, 0, s.chan.numPage)] == s.published[s.released + 0];
  }

  lemma {:induction false} ReceiverKeepsDelivering(p: Program, s: Ring)
    requires Bounds(p, s) && Delivering(p, s)
    requires s.receiver.pc.RCopy? ==>
      s.released < |s.published| && s.area[s.chan.base + s.chan.tail] == s.published[s.released]
    ensures Delivering(p, ReceiverStep(p, s))
  {
    var r := s.receiver;
    if r.pc != RTop {
      ReceiverKeepsFilling(p, s);
    } else if |r.filled| < |p.receives| && !s.controlMutex && r.dataReceived == p.receives[|r.filled|] {
      FilledAppend(p.receives, r.filled, s.published, r.buffer);
      FillingDone(p.receives, r, s.published, s.released);
    }
  }

  // ---------- Repacks and other channels ----------

  // When a repack leaves the queue in place: the ring is empty, or the region keeps its
  // base and the occupied pages do not wrap and fit below the new page count.
  predicate KeepsQueue(c: Channel, base: nat, numPage: nat) {
    || c.head == c.tail
    || (base == c.base && numPage == c.numPage)
    || (base == c.base && c.tail < c.head <= numPage && c.head - c.tail < numPage)
  }

  // Pages between tail and head.
  function Queued(c: Channel): int {
    if c.head >= c.tail then c.head - c.tail else c.head + c.numPage - c.tail
  }

  // When a repack does not disturb a side inside an iteration: a receiver, and a sender that has not
  // begun its full test or has published its page, never; a sender in or past the test only if the
  // ring is not full afterwards, and one that is copying only if its page stays where it is.
  predicate KeepsSides(s: Ring, base: nat, numPage: nat)
    requires numPage > 0
  {
    var room := Queued(s.chan) + 2 <= numPage;
    && (s.sender.pc == SSecond ==> s.chan.tail % numPage == 0 || room)
    && (s.sender.pc.SCopy? ==> room && base + s.chan.head % numPage == s.chan.base + s.chan.head)
  }

  lemma ModLast(head: nat, numPage: nat)
    requires 0 < numPage && head <= numPage
    ensures head % numPage == if head == numPage then 0 else head
  {
  }

  lemma {:induction false} OccupancyRepack(
      c: Channel, area: seq<Page>, published: seq<Page>, released: nat, base: nat, numPage: nat)
    requires Occupancy(c, area, published, released) && KeepsQueue(c, base, numPage)
    requires 1 <= numPage < 0x8000_0000 && base + numPage <= |area|
    ensures Occupancy(Repacked(c, base, numPage), area, published, released)
  {
    if c.head == c.tail {
      assert |published| == released;
    } else {
      ModLast(c.head, numPage);
      ModLast(c.tail, numPage);
      forall i | 0 <= i < |published| - released
        ensures area[base + Slot(c.tail, i, numPage)] == published[released + i]
      {
        assert Slot(c.tail, i, numPage) == Slot(c.tail, i, c.numPage);
      }
    }
  }

  lemma {:induction false} OccupancyOthers(
      c: Channel, area: seq<Page>, published: seq<Page>, released: nat, area': seq<Page>)
    requires Occupancy(c, area, published, released) && |area'| == |area|
    requires area'[c.base..c.base + c.numPage] == area[c.base..c.base + c.numPage]
    ensures Occupancy(c, area', published, released)
    ensures area'[c.base + c.head] == area[c.base + c.head]
  {
    var lo, hi := c.base, c.base + c.numPage;
    forall k | lo <= k < hi ensures area'[k] == area[k] {
      assert area'[lo..hi][k - lo] == area[lo..hi][k - lo];
    }
  }

  lemma {:induction false} SenderKeepsInv(p: Program, s: Ring)
    requires Inv(p, s)
    ensures Inv(p, SenderStep(p, s))
  {
    SenderKeepsHolding(p, s);
    SenderKeepsPartialPage(p, s);
    SenderKeepsDelivering(p, s);
  }

  lemma {:induction false} ReceiverKeepsInv(p: Program, s: Ring)
    requires Inv(p, s)
    ensures Inv(p, ReceiverStep(p, s))
  {
    if s.receiver.pc.RCopy? {
      PageAtTail(s);
    }
    ReceiverKeepsHolding(p, s);
    ReceiverKeepsDelivering(p, s);
    ReceiverKeepsPartialPage(p, s);
  }

  lemma {:induction false} RepackKeepsInv(p: Program, s: Ring, base: nat, numPage: nat)
    requires Inv(p, s) && CanRepack(s, base, numPage)
    requires KeepsQueue(s.chan, base, numPage) && KeepsSides(s, base, numPage)
    ensures Inv(p, StepOnce(p, s, Repack(base, numPage)))
  {
    OccupancyRepack(s.chan, s.area, s.published, s.released, base, numPage);
    assert Queued(s.chan) == |s.published| - s.released;
  }

  lemma {:induction false} OthersKeepInv(p: Program, s: Ring, area: seq<Page>)
    requires Inv(p, s) && SameRegion(s, area)
    ensures Inv(p, s.(area := area))
  {
    OthersKeepHolding(p, s, area);
    OthersKeepPartialPage(p, s, area);
  }

  lemma {:induction false} OthersKeepHolding(p: Program, s: Ring, area: seq<Page>)
    requires Bounds(p, s) && Holding(s) && SameRegion(s, area)
    ensures Holding(s.(area := area)) && Bounds(p, s.(area := area))
    ensures area[s.chan.base + s.chan.head] == s.area[s.chan.base + s.chan.head]
  {
    OccupancyOthers(s.chan, s.area, s.published, s.released, area);
  }

  lemma {:induction false} OthersKeepPartialPage(p: Program, s: Ring, area: seq<Page>)
    requires Bounds(p, s) && PartialPage(p.messages, s)
    requires |area| == |s.area| && area[s.chan.base + s.chan.head] == s.area[s.chan.base + s.chan.head]
    ensures PartialPage(p.messages, s.(area := area))
  {
  }

  lemma {:induction false} MutexKeepsInv(p: Program, s: Ring, locked: bool)
    requires Inv(p, s)
    ensures Inv(p, s.(controlMutex := locked))
  {
  }

  // If the step is a repack that takes place, it leaves the queue in place and disturbs no side.
  predicate StepKeepsQueue(s: Ring, step: Step) {
    step.Repack? && CanRepack(s, step.base, step.numPage) ==>
      KeepsQueue(s.chan, step.base, step.numPage) && KeepsSides(s, step.base, step.numPage)
  }

  lemma {:induction false} StepKeepsInv(p: Program, s: Ring, step: Step)
    requires Inv(p, s) && StepKeepsQueue(s, step)
    ensures Inv(p, StepOnce(p, s, step))
  {
    match step
    case Sender => SenderKeepsInv(p, s);
    case Receiver => ReceiverKeepsInv(p, s);
    case Repack(base, numPage) =>
      if CanRepack(s, base, numPage) {
        RepackKeepsInv(p, s, base, numPage);
      }
    case Others(area) =>
      if SameRegion(s, area) {
        OthersKeepInv(p, s, area);
      }
    case _ => MutexKeepsInv(p, s, step == Lock);
  }

  // ---------- Whole runs ----------

  // Every repack that takes place in the run leaves the queue in place.
  predicate QueueKept(p: Program, s: Ring, steps: seq<Step>)
    requires Bounds(p, s)
    decreases |steps|
  {
    steps != [] ==> StepKeepsQueue(s, steps[0]) && QueueKept(p, StepOnce(p, s, steps[0]), steps[1..])
  }

  lemma {:induction false} RunKeepsInv(p: Program, s: Ring, steps: seq<Step>)
    requires Inv(p, s) && QueueKept(p, s, steps)
    ensures Inv(p, Run(p, s, steps))
    decreases |steps|
  {
    if steps != [] {
      StepKeepsInv(p, s, steps[0]);
      RunKeepsInv(p, StepOnce(p, s, steps[0]), steps[1..]);
    }
  }

  // The channel stays where it is.
  predicate Unmoved(steps: seq<Step>) {
    forall k :: 0 <= k < |steps| ==> !steps[k].Repack?
  }

  lemma {:induction false} UnmovedKeepsQueue(p: Program, s: Ring, steps: seq<Step>)
    requires Bounds(p, s) && Unmoved(steps)
    ensures QueueKept(p, s, steps)
    decreases |steps|
  {
    if steps != [] {
      UnmovedKeepsQueue(p, StepOnce(p, s, steps[0]), steps[1..]);
    }
  }

  lemma {:induction false} InitInv(p: Program, s: Ring)
    requires Init(p, s)
    ensures Inv(p, s)
  {
  }

  /** The page law: in every state of every run, the page the sender is writing is not one
      of the occupied pages (nor the one being read), never more than numPage - 1 pages are
      occupied, and the receiver's bytes are the bytes of the published pages in order:
      receive number i starts at published page StartPage(i). */
  lemma {:induction false} FirstInFirstOut(p: Program, s: Ring, steps: seq<Step>)
    requires Init(p, s) && QueueKept(p, s, steps)
    ensures var t := Run(p, s, steps);
      var count := |t.published| - t.released;
      && Inv(p, t)
      && 0 <= count < t.chan.numPage
      && (t.sender.pc.SCopy? ==>
            forall i :: 0 <= i < count ==> Slot(t.chan.tail, i, t.chan.numPage) != t.chan.head)
      && (t.sender.pc.SCopy? && t.receiver.pc.RCopy? ==> t.chan.head != t.chan.tail)
      && (forall i :: 0 <= i < |t.receiver.filled| ==>
            |t.receiver.filled[i]| == p.receives[i] &&
            From(t.published, StartPage(p.receives, i), t.receiver.filled[i]))
      && From(t.published, StartPage(p.receives, |t.receiver.filled|), t.receiver.buffer)
  {
    InitInv(p, s);
    RunKeepsInv(p, s, steps);
  }
}
