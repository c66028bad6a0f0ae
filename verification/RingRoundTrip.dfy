/**
  Which lists of messages the page ring carries: exactly those without a size in
  [PAGE, 2 * PAGE).
 */
module RingRoundTrip {
  import opened Layout
  import opened PageRing
  import opened RingFifo
  import opened RingStream
  import opened RingPages
  import opened RingSizes
  import opened RingProgress
  import opened Schedules

  // An empty ring that can hold data, open to both sides.
  predicate Starts(p: Program, s: Ring) {
    Init(p, s) && !s.controlMutex && s.chan.numPage >= 2
  }

  // The finished receives are the messages.
  predicate AllRight(p: Program, filled: seq<seq<Byte>>) {
    && |filled| <= |p.messages|
    && forall i :: 0 <= i < |filled| ==> filled[i] == p.messages[i].mem[..p.messages[i].size]
  }

  // In every run, with queue-keeping repacks and other channels' writes, every finished receive is its message.
  ghost predicate EveryRunRight(p: Program) {
    forall s: Ring, steps: seq<Step> :: Init(p, s) && QueueKept(p, s, steps) ==>
      AllRight(p, Run(p, s, steps).receiver.filled)
  }

  // From every start, every fair schedule of so many rounds finishes all receives with their messages.
  ghost predicate ReceivesWithin(p: Program, bound: nat) {
    forall s: Ring, rounds: seq<seq<Step>> :: Starts(p, s) && FairRounds(rounds) && |rounds| >= bound ==>
      var t := Run(p, s, Join(rounds));
      ReceivesDone(p, t) && AllRight(p, t.receiver.filled)
  }

  ghost predicate EventuallyReceives(p: Program) {
    exists bound: nat :: ReceivesWithin(p, bound)
  }

  // ... and also returns all sends and leaves the ring empty.
  ghost predicate DeliversWithin(p: Program, bound: nat) {
    forall s: Ring, rounds: seq<seq<Step>> :: Starts(p, s) && FairRounds(rounds) && |rounds| >= bound ==>
      var t := Run(p, s, Join(rounds));
      Finished(p, t) && AllRight(p, t.receiver.filled) && Empty(t)
  }

  ghost predicate RoundTrips(p: Program) {
    exists bound: nat :: DeliversWithin(p, bound)
  }

  // ---------- Pages sent against pages asked for ----------

  // A message of a size in (PAGE, 2 * PAGE) is cut into at least three pages, and asked for as two.
  lemma {:induction false} ChunkSurplus(m: RawMessage)
    requires LoopEnd(m.size, 0) <= |m.mem| && m.size != PAGE
    ensures |Chunks(m, 0)| >= CeilPages(m.size)
    ensures !FullPages(m.size) ==> |Chunks(m, 0)| > CeilPages(m.size)
  {
    if FullPages(m.size) {
      ChunkAt(m, 0, 0);
    } else {
      var n := m.size - PAGE;
      assert |Chunks(m, 0)| == 1 + |Chunks(m, n)|;
      assert |Chunks(m, n)| == 1 + |Chunks(m, n + n)|;
      assert |Chunks(m, n + n)| >= 1;
      assert CeilPages(m.size) == 2;
    }
  }

  lemma {:induction false} PageSurplus(p: Program, i: nat)
    requires Matching(p) && Ending(p.messages) && i <= |p.messages|
    ensures |ChunksFrom(p.messages, i)| + StartPage(p.receives, i) >= Needed(p)
    ensures (exists j :: i <= j < |p.messages| && !FullPages(p.messages[j].size)) ==>
      |ChunksFrom(p.messages, i)| + StartPage(p.receives, i) > Needed(p)
    decreases |p.messages| - i
  {
    if i < |p.messages| {
      PageSurplus(p, i + 1);
      ChunkSurplus(p.messages[i]);
      assert StartPage(p.receives, i + 1) == StartPage(p.receives, i) + CeilPages(p.receives[i]);
    }
  }

  lemma {:induction false} MatchingSupplied(p: Program)
    requires Matching(p)
    ensures Supplied(p)
  {
    if Ending(p.messages) {
      PageSurplus(p, 0);
    }
  }

  // ---------- Full pages are delivered ----------

  // The rounds a start needs depend on the program alone.
  function StartRounds(p: Program): nat {
    var work := SenderWork(p, SenderState(STop, 0, 0), 0) + ReceiverWork(p, ReceiverState(RTop, [], [], 0), 0);
    (if work < 0 then 6 else 5 * work + 6) + 2 * |p.messages| + 1
  }

  lemma {:induction false} StartRoundsEnough(p: Program, s: Ring)
    requires Starts(p, s)
    ensures RoundsToFinish(p, s) <= StartRounds(p)
  {
  }

  lemma {:induction false} FullPagesDeliver(p: Program)
    requires Matching(p) && AllFullPages(p.messages)
    ensures DeliversWithin(p, StartRounds(p)) && ReceivesWithin(p, StartRounds(p))
  {
    forall s: Ring, rounds: seq<seq<Step>> | Starts(p, s) && FairRounds(rounds) && |rounds| >= StartRounds(p)
      ensures var t := Run(p, s, Join(rounds)); Finished(p, t) && AllRight(p, t.receiver.filled) && Empty(t)
    {
      StartRoundsEnough(p, s);
      FairRunsDeliver(p, s, rounds);
    }
  }

  lemma {:induction false} FullPagesRight(p: Program)
    requires Matching(p) && AllFullPages(p.messages)
    ensures EveryRunRight(p)
  {
    forall s: Ring, steps: seq<Step> | Init(p, s) && QueueKept(p, s, steps)
      ensures AllRight(p, Run(p, s, steps).receiver.filled)
    {
      MessagesDelivered(p, s, steps);
      assert |Run(p, s, steps).receiver.filled| <= |p.receives|;
    }
  }

  // ---------- Other sizes are not ----------

  // A schedule long enough to finish the receives, whatever the sizes.
  lemma {:induction false} LongSchedule(p: Program, s: Ring, bound: nat) returns (rounds: seq<seq<Step>>)
    requires Starts(p, s) && Matching(p)
    ensures FairRounds(rounds) && |rounds| >= bound
    ensures ReceivesDone(p, Run(p, s, Join(rounds))) && Unmoved(Join(rounds))
  {
    InitInv(p, s);
    InitContent(p, s);
    MatchingSupplied(p);
    RankNonNegative(p, s);
    rounds := Turns(Sender, Receiver, bound + Rank(p, s));
    TurnsFair(Sender, Receiver, bound + Rank(p, s));
    FairRunsReceive(p, s, rounds);
    JoinCalm(rounds);
  }

  predicate FirstBad(p: Program, i: nat) {
    i < |p.messages| && FullBefore(p.messages, i) && !FullPages(p.messages[i].size)
  }

  lemma {:induction false} SomeFirstBad(messages: seq<Message>, n: nat) returns (i: nat)
    requires n <= |messages| && !FullBefore(messages, n)
    ensures i < n && FullBefore(messages, i) && !FullPages(messages[i].size)
  {
    if FullBefore(messages, n - 1) {
      i := n - 1;
    } else {
      i := SomeFirstBad(messages, n - 1);
    }
  }

  // What the shared page held before the first page of message i differs from the message.
  predicate StaleAt(p: Program, s: Ring, i: nat, steps: seq<Step>)
    requires Init(p, s) && Matching(p) && FirstBad(p, i)
  {
    var published, first, n := Run(p, s, steps).published, StartPage(p.receives, i), p.messages[i].size - PAGE;
    first < |published| ==> Prior(s, published, first)[n] != p.messages[i].mem[n]
  }

  ghost predicate StaleDiffers(p: Program, s: Ring, i: nat)
    requires Init(p, s) && Matching(p) && FirstBad(p, i)
  {
    forall steps: seq<Step> :: Unmoved(steps) ==> StaleAt(p, s, i, steps)
  }

  // From such a start receive i is not its message, and it is finished.
  lemma {:induction false} WrongReceive(p: Program, s: Ring, i: nat, bound: nat) returns (rounds: seq<seq<Step>>)
    requires Starts(p, s) && Matching(p) && FirstBad(p, i) && StaleDiffers(p, s, i)
    ensures FairRounds(rounds) && |rounds| >= bound && QueueKept(p, s, Join(rounds))
    ensures !AllRight(p, Run(p, s, Join(rounds)).receiver.filled)
  {
    rounds := LongSchedule(p, s, bound);
    var steps := Join(rounds);
    assert StaleAt(p, s, i, steps);
    UnmovedKeepsQueue(p, s, steps);
    SizeLaw(p, s, steps, i);
    var published, first, m := Run(p, s, steps).published, StartPage(p.receives, i), p.messages[i];
    var n := m.size - PAGE;
    assert Prior(s, published, first)[n..][0] != m.mem[n..PAGE][0];
  }

  lemma {:induction false} WrongFails(p: Program, s: Ring, i: nat)
    requires Starts(p, s) && Matching(p) && FirstBad(p, i) && StaleDiffers(p, s, i)
    ensures !EveryRunRight(p) && !EventuallyReceives(p)
  {
    var any := WrongReceive(p, s, i, 0);
    forall bound: nat ensures !ReceivesWithin(p, bound) {
      var rounds := WrongReceive(p, s, i, bound);
    }
  }

  // A ring before any call, its pages filled with one byte.
  function Blank(numPage: nat, b: Byte): Ring {
    Ring(false, Channel(0, numPage, 0, 0), 0, seq(numPage, k => BlankPage(b)),
         SenderState(STop, 0, 0), ReceiverState(RTop, [], [], 0), [], 0)
  }

  function BlankPage(b: Byte): Page {
    seq(PAGE, x => b)
  }

  lemma {:induction false} BlankStarts(p: Program, numPage: nat, b: Byte)
    requires 2 <= numPage < 0x8000_0000
    ensures Starts(p, Blank(numPage, b))
  {
  }

  // On a ring with more pages than are sent before message i, the page it starts in is as it was.
  lemma {:induction false} LargeRingStale(p: Program, i: nat, numPage: nat, b: Byte, steps: seq<Step>)
    requires Matching(p) && FirstBad(p, i) && StartPage(p.receives, i) < numPage
    requires Starts(p, Blank(numPage, b)) && b != p.messages[i].mem[p.messages[i].size - PAGE]
    ensures StaleAt(p, Blank(numPage, b), i, steps)
  {
  }

  lemma {:induction false} LargeRingFails(p: Program, i: nat)
    requires Matching(p) && FirstBad(p, i) && StartPage(p.receives, i) + 2 < 0x8000_0000
    ensures !EveryRunRight(p) && !EventuallyReceives(p)
  {
    var numPage, m := StartPage(p.receives, i) + 2, p.messages[i];
    var b: Byte := if m.mem[m.size - PAGE] == 0 then 1 else 0;
    BlankStarts(p, numPage, b);
    forall steps: seq<Step> | Unmoved(steps) ensures StaleAt(p, Blank(numPage, b), i, steps) {
      LargeRingStale(p, i, numPage, b, steps);
    }
    WrongFails(p, Blank(numPage, b), i);
  }

  /** Exactly when receives are right, for a list of messages asked for with the sizes they are sent
      with: every finished receive is its message in every run, and also every fair schedule finishes
      every receive with its message, if no size is in [PAGE, 2 * PAGE), and only if, unless there
      are more pages before the first such size than the 2^31 a ring can have; `SizesExactly` is
      without that exception. */
  lemma {:induction false} ReceivesExactly(p: Program)
    requires Matching(p)
    ensures AllFullPages(p.messages) ==> EveryRunRight(p) && EventuallyReceives(p)
    ensures forall i :: FirstBad(p, i) && StartPage(p.receives, i) + 2 < 0x8000_0000 ==>
      !EveryRunRight(p) && !EventuallyReceives(p)
    ensures AllFullPages(p.messages) || exists i :: FirstBad(p, i)
  {
    if AllFullPages(p.messages) {
      FullPagesDeliver(p);
      FullPagesRight(p);
    } else {
      var i := SomeFirstBad(p.messages, |p.messages|);
      assert FirstBad(p, i);
    }
    forall i | FirstBad(p, i) && StartPage(p.receives, i) + 2 < 0x8000_0000
      ensures !EveryRunRight(p) && !EventuallyReceives(p)
    {
      LargeRingFails(p, i);
    }
  }

  // ---------- The sizes by themselves ----------

  function Filler(size: BufferSize, b: Byte): (m: Message)
    ensures m.size == size && forall x :: 0 <= x < |m.mem| ==> m.mem[x] == b
  {
    var room := if size < LoopEnd(size, 0) then LoopEnd(size, 0) else size;
    RawMessage(seq(room, x => b), size)
  }

  // Messages of the given sizes, all bytes 0 but those of message i.
  function Marked(sizes: seq<IntSize>, i: nat): (p: Program)
    ensures Matching(p) && p.receives == sizes
  {
    Program(seq(|sizes|, j requires 0 <= j < |sizes| => Filler(sizes[j], if j == i then 1 else 0)), sizes)
  }

  // The pages before those of message i carry pages of earlier messages.
  lemma {:induction false} EarlierPage(p: Program, i: nat, k: nat) returns (j: nat, t: nat)
    requires Matching(p) && i <= |p.messages| && FullBefore(p.messages, i) && k < StartPage(p.receives, i)
    ensures j < i && (t + 1) * PAGE <= |p.messages[j].mem|
    ensures ChunkNo(p.messages, k) == p.messages[j].mem[t * PAGE..(t + 1) * PAGE]
  {
    var start := StartPage(p.receives, i - 1);
    if k < start {
      j, t := EarlierPage(p, i - 1, k);
    } else {
      j, t := i - 1, k - start;
      MessageChunk(p, j, t);
    }
  }

  lemma {:induction false} MarkedStale(sizes: seq<IntSize>, i: nat, steps: seq<Step>)
    requires FirstBad(Marked(sizes, i), i) && Starts(Marked(sizes, i), Blank(2, 0)) && Unmoved(steps)
    ensures StaleAt(Marked(sizes, i), Blank(2, 0), i, steps)
  {
    var p, s := Marked(sizes, i), Blank(2, 0);
    var published, first := Run(p, s, steps).published, StartPage(p.receives, i);
    if 2 <= first < |published| {
      PageContentsAt(p, s, steps, first - 2);
      ZeroBefore(sizes, i, s, published, first - 2);
    }
  }

  lemma {:induction false} ZeroBefore(sizes: seq<IntSize>, i: nat, s: Ring, published: seq<Page>, k: nat)
    requires FirstBad(Marked(sizes, i), i) && k < StartPage(sizes, i) && k < |published|
    requires s.chan.Valid(s.area) && Pieced(Marked(sizes, i).messages, s, published, k)
    ensures forall x :: 0 <= x < PAGE ==> published[k][x] == 0
  {
    var p := Marked(sizes, i);
    var j, t := EarlierPage(p, i, k);
    assert p.messages[j] == Filler(sizes[j], 0);
    assert published[k] == p.messages[j].mem[t * PAGE..(t + 1) * PAGE];
  }

  lemma {:induction false} MarkedFails(sizes: seq<IntSize>, i: nat)
    requires FirstBad(Marked(sizes, i), i)
    ensures !EveryRunRight(Marked(sizes, i)) && !EventuallyReceives(Marked(sizes, i))
  {
    BlankStarts(Marked(sizes, i), 2, 0);
    forall steps: seq<Step> | Unmoved(steps) ensures StaleAt(Marked(sizes, i), Blank(2, 0), i, steps) {
      MarkedStale(sizes, i, steps);
    }
    WrongFails(Marked(sizes, i), Blank(2, 0), i);
  }

  /** The same for sizes alone and without a bound: all messages of the given sizes are received right,
      in every run and by every fair schedule, if and only if no size is in [PAGE, 2 * PAGE). */
  lemma {:induction false} SizesExactly(sizes: seq<IntSize>)
    ensures (forall p: Program :: Matching(p) && p.receives == sizes ==> EveryRunRight(p)) <==>
            forall i :: 0 <= i < |sizes| ==> FullPages(sizes[i])
    ensures (forall p: Program :: Matching(p) && p.receives == sizes ==> EventuallyReceives(p)) <==>
            forall i :: 0 <= i < |sizes| ==> FullPages(sizes[i])
  {
    if forall i :: 0 <= i < |sizes| ==> FullPages(sizes[i]) {
      forall p: Program | Matching(p) && p.receives == sizes ensures EveryRunRight(p) && EventuallyReceives(p) {
        assert AllFullPages(p.messages);
        FullPagesRight(p);
        FullPagesDeliver(p);
      }
    } else {
      var p := Marked(sizes, 0);
      assert !FullBefore(p.messages, |p.messages|) by {
        var k :| 0 <= k < |sizes| && !FullPages(sizes[k]);
        assert !FullPages(p.messages[k].size);
      }
      var i := SomeFirstBad(p.messages, |p.messages|);
      var q := Marked(sizes, i);
      assert FirstBad(q, i);
      MarkedFails(sizes, i);
    }
  }

  // ---------- The whole round trip ----------

  // When both sides are done, all chunks are published and all pages asked for released.
  lemma {:induction false} FinishedCounts(p: Program, s: Ring, steps: seq<Step>)
    requires Init(p, s) && QueueKept(p, s, steps) && Ending(p.messages) && Finished(p, Run(p, s, steps))
    ensures var t := Run(p, s, steps);
      |t.published| == |ChunksFrom(p.messages, 0)| && t.released == Needed(p)
  {
    ReachedContent(p, s, steps);
    var t := Run(p, s, steps);
    assert |ChunksFrom(p.messages, 0)[|t.published|..]| == 0;
  }

  lemma {:induction false} OthersFail(p: Program, bound: nat, i: nat)
    requires Matching(p) && i < |p.messages| && !FullPages(p.messages[i].size)
    ensures !DeliversWithin(p, bound)
  {
    var s := Blank(2, 0);
    BlankStarts(p, 2, 0);
    var rounds := LongSchedule(p, s, bound);
    UnmovedKeepsQueue(p, s, Join(rounds));
    var t := Run(p, s, Join(rounds));
    if Ending(p.messages) {
      if Finished(p, t) {
        FinishedCounts(p, s, Join(rounds));
        PageSurplus(p, 0);
      }
    } else {
      var j :| 0 <= j < |p.messages| && p.messages[j].size == PAGE;
      OnePageNeverEnds(p, s, Join(rounds), j);
    }
    assert !(Finished(p, t) && Empty(t));
  }

  /** The exact domain of the whole round trip, for every list of messages received with the sizes they
      are sent with: from every empty ring of at least two pages, every fair schedule ends with all
      calls returned, every receive holding its message and the ring empty, if and only if no size
      is in [PAGE, 2 * PAGE). */
  lemma {:induction false} RoundTripExactly(p: Program)
    requires Matching(p)
    ensures RoundTrips(p) <==> AllFullPages(p.messages)
  {
    if AllFullPages(p.messages) {
      FullPagesDeliver(p);
    } else {
      var i :| 0 <= i < |p.messages| && !FullPages(p.messages[i].size);
      forall bound: nat ensures !DeliversWithin(p, bound) {
        OthersFail(p, bound, i);
      }
    }
  }
}
