/**
  What the pages contain: which bytes of which message each published page carries, and
  from that what the receiver ends up with.
 */
module RingStream {
  import opened Layout
  import opened PageRing
  import opened RingFifo

  // ---------- The pages a list of messages is cut into ----------

  // The bytes each iteration of the send loop copies, from data_sent on.
  function Chunks(m: RawMessage, dataSent: nat): (r: seq<seq<Byte>>)
    requires LoopEnd(m.size, dataSent) <= |m.mem|
    decreases m.size - dataSent
  {
    var n := ToSend(m.size);
    if dataSent >= m.size || n == 0 then []
    else [m.mem[dataSent..dataSent + n]] + Chunks(m, dataSent + n)
  }

  // Up to the first message of exactly one page: the loop never ends on that one, and copies
  // nothing into the pages it publishes, see `OnePageNeverEnds`.
  function ChunksFrom(messages: seq<Message>, i: nat): seq<seq<Byte>>
    requires i <= |messages|
    decreases |messages| - i
  {
    if i == |messages| || messages[i].size == PAGE then []
    else Chunks(messages[i], 0) + ChunksFrom(messages, i + 1)
  }

  // What is copied into page number k.
  function ChunkNo(messages: seq<Message>, k: nat): seq<Byte> {
    if k < |ChunksFrom(messages, 0)| then ChunksFrom(messages, 0)[k] else []
  }

  predicate Ending(messages: seq<Message>) {
    forall i :: 0 <= i < |messages| ==> messages[i].size != PAGE
  }

  // Sizes for which every iteration copies a whole page.
  predicate FullPages(size: BufferSize) {
    size < PAGE || size >= 2 * PAGE
  }

  predicate OnOnePage(messages: seq<Message>, s: SenderState) {
    s.message < |messages| && messages[s.message].size == PAGE
  }

  // Chunks the sender has not published yet.
  function Remaining(messages: seq<Message>, s: SenderState): seq<seq<Byte>>
    requires SenderBounds(messages, s)
  {
    if s.message == |messages| || OnOnePage(messages, s) then []
    else
      var rest := Chunks(messages[s.message], s.dataSent) + ChunksFrom(messages, s.message + 1);
      if s.pc == SAdd then rest[1..] else rest
  }

  // Page number k starts with chunk number k, and the chunks not published are the remaining ones;
  // on a message of one page there are none left.
  predicate Content(messages: seq<Message>, s: SenderState, published: seq<Page>)
    requires SenderBounds(messages, s)
  {
    var all := ChunksFrom(messages, 0);
    && (forall i :: 0 <= i < s.message ==> messages[i].size != PAGE)
    && (if OnOnePage(messages, s) then s.dataSent == 0 && |all| <= |published|
        else |published| <= |all| && all[|published|..] == Remaining(messages, s))
    && forall k :: 0 <= k < |published| && k < |all| ==> all[k] <= published[k]
  }

  // The chunk being copied is the one page number |published| gets.
  lemma {:induction false} NextChunk(messages: seq<Message>, s: SenderState, published: seq<Page>)
    requires SenderBounds(messages, s) && Content(messages, s, published)
    requires s.message < |messages| && s.pc.SCopy?
    ensures var n := ToSend(messages[s.message].size);
      && s.dataSent + n <= |messages[s.message].mem|
      && ChunkNo(messages, |published|) == messages[s.message].mem[s.dataSent..s.dataSent + n]
  {
    if !OnOnePage(messages, s) {
      var all, m := ChunksFrom(messages, 0), messages[s.message];
      var rest := Chunks(m, s.dataSent) + ChunksFrom(messages, s.message + 1);
      assert all[|published|] == all[|published|..][0] == rest[0];
    }
  }

  lemma {:induction false} ContentPublish(messages: seq<Message>, s: SenderState, published: seq<Page>, page: Page)
    requires SenderBounds(messages, s) && Content(messages, s, published)
    requires s.message < |messages| && s.pc.SCopy? && s.pc.at == ToSend(messages[s.message].size)
    requires s.dataSent + s.pc.at <= |messages[s.message].mem|
    requires page[..s.pc.at] == messages[s.message].mem[s.dataSent..s.dataSent + s.pc.at]
    ensures Content(messages, s.(pc := SAdd), published + [page])
  {
    NextChunk(messages, s, published);
    if !OnOnePage(messages, s) {
      var all := ChunksFrom(messages, 0);
      assert all[|published| + 1..] == all[|published|..][1..];
    }
  }

  // Neither counting a published page nor going on to the next message changes what remains.
  lemma {:induction false} ContentAdd(messages: seq<Message>, s: SenderState, published: seq<Page>, s': SenderState)
    requires SenderBounds(messages, s) && Content(messages, s, published) && s.message < |messages| && s.pc == SAdd
    requires s' == s.(pc := STop, dataSent := s.dataSent + ToSend(messages[s.message].size))
    requires SenderBounds(messages, s')
    ensures Content(messages, s', published)
  {
    if !OnOnePage(messages, s) {
      var m, later := messages[s.message], ChunksFrom(messages, s.message + 1);
      var n := ToSend(m.size);
      var first, next := m.mem[s.dataSent..s.dataSent + n], Chunks(m, s.dataSent + n);
      assert Chunks(m, s.dataSent) == [first] + next;
      assert ([first] + next + later)[1..] == next + later;
    }
  }

  lemma {:induction false} ContentNext(messages: seq<Message>, s: SenderState, published: seq<Page>)
    requires SenderBounds(messages, s) && Content(messages, s, published) && s.message < |messages|
    requires s.pc == STop && s.dataSent >= messages[s.message].size
    ensures var s' := SenderState(STop, s.message + 1, 0);
      SenderBounds(messages, s') && Content(messages, s', published)
  {
    var all, i := ChunksFrom(messages, 0), s.message + 1;
    assert Chunks(messages[s.message], s.dataSent) == [];
    assert all[|published|..] == ChunksFrom(messages, i);
    if i < |messages| && messages[i].size != PAGE {
      assert ChunksFrom(messages, i) == Chunks(messages[i], 0) + ChunksFrom(messages, i + 1);
    }
  }

  lemma {:induction false} ContentMoved(messages: seq<Message>, s: SenderState, pc: SenderPc, published: seq<Page>)
    requires SenderBounds(messages, s) && Content(messages, s, published)
    requires s.pc != SAdd && pc != SAdd && SenderBounds(messages, s.(pc := pc))
    ensures Content(messages, s.(pc := pc), published)
  {
  }

  // What a step of the sender does to its own state and to the published pages.
  predicate Moves(messages: seq<Message>, s: SenderState, published: seq<Page>, s': SenderState, published': seq<Page>)
    requires SenderBounds(messages, s)
  {
    || (s' == s && published' == published)
    || (s.message < |messages| &&
        var m := messages[s.message];
        || (s.pc != SAdd && s'.pc != SAdd && s' == s.(pc := s'.pc) && published' == published)
        || (s.pc == SAdd && s' == s.(pc := STop, dataSent := s.dataSent + ToSend(m.size)) && published' == published)
        || (&& s.pc == STop && s.dataSent >= m.size
            && s' == SenderState(STop, s.message + 1, 0) && published' == published)
        || (&& s.pc.SCopy? && s.pc.at == ToSend(m.size) && s.dataSent + s.pc.at <= |m.mem|
            && s' == s.(pc := SAdd) && |published'| == |published| + 1 && published <= published'
            && published'[|published|][..s.pc.at] == m.mem[s.dataSent..s.dataSent + s.pc.at]))
  }

  lemma {:induction false} SenderMoves(p: Program, s: Ring)
    requires Bounds(p, s) && PartialPage(p.messages, s)
    ensures var t := SenderStep(p, s); Moves(p.messages, s.sender, s.published, t.sender, t.published)
  {
  }

  lemma {:induction false} ContentStep(
      messages: seq<Message>, s: SenderState, published: seq<Page>, s': SenderState, published': seq<Page>)
    requires SenderBounds(messages, s) && SenderBounds(messages, s') && Content(messages, s, published)
    requires Moves(messages, s, published, s', published')
    ensures Content(messages, s', published')
  {
    if s' != s && s.message < |messages| {
      if published' != published {
        assert published' == published + [published'[|published|]];
        ContentPublish(messages, s, published, published'[|published|]);
      } else if s.pc == SAdd {
        ContentAdd(messages, s, published, s');
      } else if s'.message != s.message {
        ContentNext(messages, s, published);
      } else {
        ContentMoved(messages, s, s'.pc, published);
      }
    }
  }

  lemma {:induction false} SenderKeepsContent(p: Program, s: Ring)
    requires Bounds(p, s) && PartialPage(p.messages, s) && Content(p.messages, s.sender, s.published)
    ensures var t := SenderStep(p, s); Content(p.messages, t.sender, t.published)
  {
    var t := SenderStep(p, s);
    SenderMoves(p, s);
    ContentStep(p.messages, s.sender, s.published, t.sender, t.published);
  }

  lemma {:induction false} RunKeepsContent(p: Program, s: Ring, steps: seq<Step>)
    requires Inv(p, s) && QueueKept(p, s, steps) && Content(p.messages, s.sender, s.published)
    ensures var t := Run(p, s, steps); Content(p.messages, t.sender, t.published)
    decreases |steps|
  {
    if steps != [] {
      StepKeepsInv(p, s, steps[0]);
      StepKeepsContent(p, s, steps[0]);
      RunKeepsContent(p, StepOnce(p, s, steps[0]), steps[1..]);
    }
  }

  lemma {:induction false} StepKeepsContent(p: Program, s: Ring, step: Step)
    requires Bounds(p, s) && PartialPage(p.messages, s) && Content(p.messages, s.sender, s.published)
    ensures var t := StepOnce(p, s, step); Content(p.messages, t.sender, t.published)
  {
    if step == Sender {
      SenderKeepsContent(p, s);
    } else {
      var t := StepOnce(p, s, step);
      assert t.sender == s.sender && t.published == s.published;
    }
  }

  lemma {:induction false} InitContent(p: Program, s: Ring)
    requires Init(p, s)
    ensures Content(p.messages, s.sender, s.published)
  {
    assert ChunksFrom(p.messages, 0)[0..] == ChunksFrom(p.messages, 0);
  }

  lemma {:induction false} ReachedContent(p: Program, s: Ring, steps: seq<Step>)
    requires Init(p, s) && QueueKept(p, s, steps)
    ensures var t := Run(p, s, steps); Inv(p, t) && Content(p.messages, t.sender, t.published)
  {
    InitInv(p, s);
    RunKeepsInv(p, s, steps);
    InitContent(p, s);
    RunKeepsContent(p, s, steps);
  }

  // ---------- Message by message ----------

  // Cutting at full pages: chunk t of a message is its t-th page of memory.
  lemma {:induction false} ChunkAt(m: RawMessage, dataSent: nat, t: nat)
    requires LoopEnd(m.size, dataSent) <= |m.mem| && FullPages(m.size)
    ensures |Chunks(m, dataSent)| == (if dataSent < m.size then CeilPages(m.size - dataSent) else 0)
    ensures t < |Chunks(m, dataSent)| ==>
      dataSent + (t + 1) * PAGE <= |m.mem| &&
      Chunks(m, dataSent)[t] == m.mem[dataSent + t * PAGE..dataSent + (t + 1) * PAGE]
    decreases m.size - dataSent
  {
    if dataSent < m.size {
      ChunkAt(m, dataSent + PAGE, if t == 0 then 0 else t - 1);
    }
  }

  // The first n messages are of such sizes.
  predicate FullBefore(messages: seq<Message>, n: nat) {
    forall i :: 0 <= i < |messages| && i < n ==> FullPages(messages[i].size)
  }

  predicate AllFullPages(messages: seq<Message>) {
    FullBefore(messages, |messages|)
  }

  // The receiver asks for exactly the sizes that are sent.
  predicate Matching(p: Program) {
    && |p.receives| == |p.messages|
    && forall i :: 0 <= i < |p.messages| ==> p.receives[i] == p.messages[i].size
  }

  lemma DropConcat<T>(all: seq<T>, start: nat, a: seq<T>, b: seq<T>)
    requires start <= |all| && all[start..] == a + b
    ensures start + |a| <= |all| && all[start + |a|..] == b
  {
    assert all[start + |a|..] == all[start..][|a|..];
  }

  lemma {:induction false} MessageStart(p: Program, i: nat)
    requires Matching(p) && i <= |p.messages| && FullBefore(p.messages, i)
    ensures StartPage(p.receives, i) <= |ChunksFrom(p.messages, 0)|
    ensures ChunksFrom(p.messages, 0)[StartPage(p.receives, i)..] == ChunksFrom(p.messages, i)
  {
    if i > 0 {
      MessageStart(p, i - 1);
      ChunkAt(p.messages[i - 1], 0, 0);
      assert |Chunks(p.messages[i - 1], 0)| == CeilPages(p.receives[i - 1]);
      DropConcat(ChunksFrom(p.messages, 0), StartPage(p.receives, i - 1),
        Chunks(p.messages[i - 1], 0), ChunksFrom(p.messages, i));
    }
  }

  // Page number k starts with chunk number k.
  predicate Started(messages: seq<Message>, published: seq<Page>) {
    var all := ChunksFrom(messages, 0);
    forall k :: 0 <= k < |published| && k < |all| ==> all[k] <= published[k]
  }

  // Page t of message i is chunk, and so page, number StartPage(i) + t.
  lemma {:induction false} MessageChunk(p: Program, i: nat, t: nat)
    requires Matching(p) && i < |p.messages| && FullBefore(p.messages, i + 1) && t < CeilPages(p.receives[i])
    ensures (t + 1) * PAGE <= |p.messages[i].mem|
    ensures StartPage(p.receives, i) + t < |ChunksFrom(p.messages, 0)|
    ensures ChunksFrom(p.messages, 0)[StartPage(p.receives, i) + t] == p.messages[i].mem[t * PAGE..(t + 1) * PAGE]
  {
    var all, start, m := ChunksFrom(p.messages, 0), StartPage(p.receives, i), p.messages[i];
    MessageStart(p, i);
    ChunkAt(m, 0, t);
    assert ChunksFrom(p.messages, i) == Chunks(m, 0) + ChunksFrom(p.messages, i + 1);
    assert all[start + t] == all[start..][t] == Chunks(m, 0)[t];
  }

  lemma {:induction false} MessagePage(p: Program, published: seq<Page>, i: nat, t: nat)
    requires Matching(p) && i < |p.messages| && FullBefore(p.messages, i + 1) && Started(p.messages, published)
    requires t < CeilPages(p.receives[i]) && StartPage(p.receives, i) + t < |published|
    ensures (t + 1) * PAGE <= |p.messages[i].mem|
    ensures published[StartPage(p.receives, i) + t] == p.messages[i].mem[t * PAGE..(t + 1) * PAGE]
  {
    var k := StartPage(p.receives, i) + t;
    MessageChunk(p, i, t);
    assert published[k][..PAGE] == published[k];
  }

  lemma InBuffer(x: nat, n: nat)
    requires x < n
    ensures x / PAGE < CeilPages(n) && x == x / PAGE * PAGE + x % PAGE
  {
  }

  lemma {:induction false} BufferBytes(p: Program, published: seq<Page>, i: nat, buffer: seq<Byte>)
    requires Matching(p) && i < |p.messages| && FullBefore(p.messages, i + 1) && Started(p.messages, published)
    requires From(published, StartPage(p.receives, i), buffer) && |buffer| <= p.receives[i]
    ensures buffer == p.messages[i].mem[..|buffer|]
  {
    var m := p.messages[i];
    forall x | 0 <= x < |buffer| ensures buffer[x] == m.mem[x] {
      InBuffer(x, |buffer|);
      MessagePage(p, published, i, x / PAGE);
    }
  }

  // What the finished receives and the one in progress hold.
  predicate Right(p: Program, filled: seq<seq<Byte>>, buffer: seq<Byte>)
    requires Matching(p) && |filled| <= |p.messages|
  {
    var n := |filled|;
    && (forall i :: 0 <= i < n && FullBefore(p.messages, i + 1) ==>
          filled[i] == p.messages[i].mem[..p.messages[i].size])
    && (n < |p.messages| && FullBefore(p.messages, n + 1) ==>
          buffer <= p.messages[n].mem[..p.messages[n].size])
  }

  lemma {:induction false} RightBuffers(p: Program, published: seq<Page>, filled: seq<seq<Byte>>, buffer: seq<Byte>)
    requires Matching(p) && Started(p.messages, published) && Filled(p.receives, filled, published)
    requires From(published, StartPage(p.receives, |filled|), buffer)
    requires |filled| < |p.receives| ==> |buffer| <= p.receives[|filled|]
    ensures Right(p, filled, buffer)
  {
    forall i | 0 <= i < |filled| && FullBefore(p.messages, i + 1)
      ensures filled[i] == p.messages[i].mem[..p.messages[i].size]
    {
      BufferBytes(p, published, i, filled[i]);
    }
    var n := |filled|;
    if n < |p.messages| && FullBefore(p.messages, n + 1) {
      BufferBytes(p, published, n, buffer);
    }
  }

  lemma {:induction false} BufferFits(p: Program, t: Ring)
    requires Inv(p, t) && |t.receiver.filled| < |p.receives|
    ensures |t.receiver.buffer| <= p.receives[|t.receiver.filled|]
  {
  }

  lemma {:induction false} ContentRight(p: Program, t: Ring)
    requires Inv(p, t) && Content(p.messages, t.sender, t.published) && Matching(p)
    ensures Right(p, t.receiver.filled, t.receiver.buffer)
  {
    if |t.receiver.filled| < |p.receives| {
      BufferFits(p, t);
    }
    RightBuffers(p, t.published, t.receiver.filled, t.receiver.buffer);
  }

  /** The message law: when the receiver asks for the sizes that are sent, then in every state of
      every run, as long as no size so far was in [PAGE, 2 * PAGE), every finished receive holds
      exactly its message, and the one in progress a prefix of its message. */
  lemma {:induction false} MessagesDelivered(p: Program, s: Ring, steps: seq<Step>)
    requires Init(p, s) && QueueKept(p, s, steps) && Matching(p)
    ensures var r := Run(p, s, steps).receiver; Right(p, r.filled, r.buffer)
  {
    ReachedContent(p, s, steps);
    ContentRight(p, Run(p, s, steps));
  }

  // ---------- The byte stream ----------

  function FlatTo(parts: seq<seq<Byte>>, n: nat): seq<Byte>
    requires n <= |parts|
  {
    if n == 0 then [] else FlatTo(parts, n - 1) + parts[n - 1]
  }

  function Flat(parts: seq<seq<Byte>>): seq<Byte> {
    FlatTo(parts, |parts|)
  }

  function SentBytes(messages: seq<Message>, n: nat): seq<Byte>
    requires n <= |messages|
  {
    if n == 0 then [] else SentBytes(messages, n - 1) + messages[n - 1].mem[..messages[n - 1].size]
  }

  function Total(receives: seq<IntSize>, n: nat): nat
    requires n <= |receives|
  {
    if n == 0 then 0 else Total(receives, n - 1) + receives[n - 1]
  }

  // Every send is zero or at least two whole pages, every receive is whole pages.
  predicate WholePages(p: Program) {
    && (forall i :: 0 <= i < |p.messages| ==> p.messages[i].size % PAGE == 0 && p.messages[i].size != PAGE)
    && WholeReceives(p.receives)
  }

  predicate WholeReceives(receives: seq<IntSize>) {
    forall i :: 0 <= i < |receives| ==> receives[i] % PAGE == 0
  }

  lemma Associate(a: seq<Byte>, b: seq<Byte>, c: seq<Byte>)
    ensures a + (b + c) == (a + b) + c
  {
  }

  lemma {:induction false} FlatPrefix(a: seq<seq<Byte>>, b: seq<seq<Byte>>, n: nat)
    requires n <= |a|
    ensures FlatTo(a + b, n) == FlatTo(a, n)
  {
    if n > 0 {
      FlatPrefix(a, b, n - 1);
    }
  }

  lemma {:induction false} FlatConcatTo(a: seq<seq<Byte>>, b: seq<seq<Byte>>, k: nat)
    requires k <= |b|
    ensures FlatTo(a + b, |a| + k) == Flat(a) + FlatTo(b, k)
  {
    if k == 0 {
      FlatPrefix(a, b, |a|);
    } else {
      FlatConcatTo(a, b, k - 1);
      Associate(Flat(a), FlatTo(b, k - 1), b[k - 1]);
    }
  }

  lemma {:induction false} FlatConcat(a: seq<seq<Byte>>, b: seq<seq<Byte>>)
    ensures Flat(a + b) == Flat(a) + Flat(b)
  {
    FlatConcatTo(a, b, |b|);
  }

  lemma {:induction false} FlatPages(pages: seq<seq<Byte>>, n: nat, k: nat)
    requires n <= |pages| && forall i :: 0 <= i < |pages| ==> |pages[i]| == PAGE
    ensures |FlatTo(pages, n)| == PAGE * n
    ensures k < PAGE * n ==> FlatTo(pages, n)[k] == pages[k / PAGE][k % PAGE]
  {
    if n > 0 {
      FlatPages(pages, n - 1, k);
    }
  }

  lemma {:induction false} ChunksFlat(m: RawMessage, dataSent: nat, left: nat)
    requires LoopEnd(m.size, dataSent) <= |m.mem| && FullPages(m.size)
    requires m.size == dataSent + PAGE * left <= |m.mem|
    ensures Flat(Chunks(m, dataSent)) == m.mem[dataSent..m.size]
    decreases left
  {
    if left > 0 {
      var first, later := m.mem[dataSent..dataSent + PAGE], Chunks(m, dataSent + PAGE);
      ChunksFlat(m, dataSent + PAGE, left - 1);
      assert Chunks(m, dataSent) == [first] + later;
      FlatConcat([first], later);
      assert Flat([first]) == FlatTo([first], 0) + first == first;
      assert m.mem[dataSent..m.size] == first + m.mem[dataSent + PAGE..m.size];
    }
  }

  // Message n starts in the chunks where the bytes before it end.
  lemma {:induction false} SentFlat(messages: seq<Message>, n: nat)
    requires n <= |messages|
    requires forall i :: 0 <= i < |messages| ==> messages[i].size % PAGE == 0 && messages[i].size != PAGE
    ensures Flat(ChunksFrom(messages, 0)) == SentBytes(messages, n) + Flat(ChunksFrom(messages, n))
  {
    if n > 0 {
      SentFlat(messages, n - 1);
      var m, before := messages[n - 1], SentBytes(messages, n - 1);
      var mine, later := Chunks(m, 0), ChunksFrom(messages, n);
      ChunksFlat(m, 0, m.size / PAGE);
      FlatConcat(mine, later);
      assert ChunksFrom(messages, n - 1) == mine + later;
      assert m.mem[0..m.size] == m.mem[..m.size];
      Associate(before, Flat(mine), Flat(later));
    }
  }

  lemma {:induction false} FullChunks(messages: seq<Message>, i: nat)
    requires AllFullPages(messages) && i <= |messages|
    ensures forall k :: 0 <= k < |ChunksFrom(messages, i)| ==> |ChunksFrom(messages, i)[k]| == PAGE
    decreases |messages| - i
  {
    if i < |messages| {
      FullChunks(messages, i + 1);
      forall t | 0 <= t < |Chunks(messages[i], 0)| ensures |Chunks(messages[i], 0)[t]| == PAGE {
        ChunkAt(messages[i], 0, t);
      }
    }
  }

  // Every finished receive has the size it asked for.
  predicate Asked(receives: seq<IntSize>, filled: seq<seq<Byte>>)
    requires |filled| <= |receives|
  {
    forall i :: 0 <= i < |filled| ==> |filled[i]| == receives[i]
  }

  lemma {:induction false} TotalPages(receives: seq<IntSize>, n: nat)
    requires n <= |receives| && WholeReceives(receives)
    ensures Total(receives, n) == PAGE * StartPage(receives, n)
  {
    if n > 0 {
      TotalPages(receives, n - 1);
    }
  }

  lemma {:induction false} FilledTotal(receives: seq<IntSize>, filled: seq<seq<Byte>>, n: nat)
    requires n <= |filled| <= |receives| && Asked(receives, filled) && WholeReceives(receives)
    ensures |FlatTo(filled, n)| == Total(receives, n) == PAGE * StartPage(receives, n)
  {
    TotalPages(receives, n);
    if n > 0 {
      FilledTotal(receives, filled, n - 1);
    }
  }

  lemma {:induction false} FromFlat(published: seq<Page>, first: nat, done: seq<Byte>, buffer: seq<Byte>)
    requires From(published, first, buffer) && |done| == PAGE * first && done <= Flat(published)
    ensures done + buffer <= Flat(published)
  {
    FlatPages(published, |published|, 0);
    forall x | 0 <= x < |buffer| ensures Flat(published)[|done| + x] == buffer[x] {
      FlatPages(published, |published|, |done| + x);
      assert (PAGE * first + x) / PAGE == first + x / PAGE && (PAGE * first + x) % PAGE == x % PAGE;
    }
  }

  // What receive k got continues the published bytes where the receives before it stopped.
  predicate Follows(filled: seq<seq<Byte>>, published: seq<Page>, k: nat) {
    k < |filled| && FlatTo(filled, k) <= Flat(published) ==> FlatTo(filled, k + 1) <= Flat(published)
  }

  lemma {:induction false} ReceiveFollows(receives: seq<IntSize>, filled: seq<seq<Byte>>, published: seq<Page>, k: nat)
    requires Filled(receives, filled, published) && k < |filled|
    requires |FlatTo(filled, k)| == PAGE * StartPage(receives, k)
    ensures Follows(filled, published, k)
  {
    var first := StartPage(receives, k);
    assert From(published, first, filled[k]);
    if FlatTo(filled, k) <= Flat(published) {
      FromFlat(published, first, FlatTo(filled, k), filled[k]);
      assert FlatTo(filled, k + 1) == FlatTo(filled, k) + filled[k];
    }
  }

  lemma {:induction false} FollowedFlat(filled: seq<seq<Byte>>, published: seq<Page>, n: nat)
    requires n <= |filled| && forall k :: 0 <= k < |filled| ==> Follows(filled, published, k)
    ensures FlatTo(filled, n) <= Flat(published)
  {
    if n > 0 {
      FollowedFlat(filled, published, n - 1);
      assert Follows(filled, published, n - 1);
    }
  }

  lemma {:induction false} FilledFlat(receives: seq<IntSize>, filled: seq<seq<Byte>>, published: seq<Page>)
    requires Filled(receives, filled, published) && WholeReceives(receives) && Asked(receives, filled)
    ensures Flat(filled) <= Flat(published)
  {
    forall k | 0 <= k < |filled| ensures Follows(filled, published, k) {
      FilledTotal(receives, filled, k);
      ReceiveFollows(receives, filled, published, k);
    }
    FollowedFlat(filled, published, |filled|);
  }

  lemma {:induction false} PublishedFlat(messages: seq<Message>, published: seq<Page>)
    requires AllFullPages(messages)
    requires forall i :: 0 <= i < |messages| ==> messages[i].size % PAGE == 0 && messages[i].size != PAGE
    requires |published| <= |ChunksFrom(messages, 0)|
    requires forall k :: 0 <= k < |published| ==> ChunksFrom(messages, 0)[k] <= published[k]
    ensures Flat(published) <= SentBytes(messages, |messages|)
  {
    var all := ChunksFrom(messages, 0);
    FullChunks(messages, 0);
    forall k | 0 <= k < |published| ensures published[k] == all[k] {
      assert published[k][..PAGE] == published[k];
    }
    var front, back := all[..|published|], all[|published|..];
    assert published == front && front + back == all;
    FlatConcat(front, back);
    SentFlat(messages, |messages|);
    assert Flat(all) == SentBytes(messages, |messages|);
  }

  /** The stream law: with whole-page sizes, however the receives divide the stream, the bytes
      received so far are a prefix of the bytes sent, in every state of every run; and once
      receives of the same total are finished they are exactly the bytes sent. */
  lemma {:induction false} StreamDelivered(p: Program, s: Ring, steps: seq<Step>)
    requires Init(p, s) && QueueKept(p, s, steps) && WholePages(p)
    ensures var r := Run(p, s, steps).receiver;
      var sent := SentBytes(p.messages, |p.messages|);
      && Flat(r.filled) + r.buffer <= sent
      && (|r.filled| == |p.receives| && Total(p.receives, |p.receives|) == |sent| ==> Flat(r.filled) == sent)
  {
    ReachedContent(p, s, steps);
    var t := Run(p, s, steps);
    PublishedFlat(p.messages, t.published);
    var r, n := t.receiver, |t.receiver.filled|;
    assert Asked(p.receives, r.filled);
    FilledFlat(p.receives, r.filled, t.published);
    FilledTotal(p.receives, r.filled, n);
    FromFlat(t.published, StartPage(p.receives, n), Flat(r.filled), r.buffer);
  }
}
