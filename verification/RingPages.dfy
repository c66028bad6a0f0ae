/**
  What every published page holds, for every program of any sizes: the bytes copied into it and,
  after them, what its slot held before.
 */
module RingPages {
  import opened Layout
  import opened PageRing
  import opened RingFifo
  import opened RingStream

  // What the slot of page number k held before page k: a page of the initial memory, or the page
  // published numPage pages earlier.
  function Prior(s: Ring, published: seq<Page>, k: nat): Page
    requires s.chan.Valid(s.area) && k < |published| + s.chan.numPage
  {
    if k < s.chan.numPage then s.area[s.chan.base + Slot(s.chan.head, k, s.chan.numPage)]
    else published[k - s.chan.numPage]
  }

  // Page number k ends with what was there before.
  predicate PastAt(messages: seq<Message>, s: Ring, published: seq<Page>, k: nat)
    requires s.chan.Valid(s.area) && k < |published|
  {
    var n := |ChunkNo(messages, k)|;
    n <= PAGE && published[k][n..] == Prior(s, published, k)[n..]
  }

  predicate Past(messages: seq<Message>, s: Ring, published: seq<Page>)
    requires s.chan.Valid(s.area)
  {
    forall k :: 0 <= k < |published| ==> PastAt(messages, s, published, k)
  }

  // The slots in the order head will reach them still hold what page number |published| + j will
  // find there; the one at head, after the bytes copied so far.
  predicate Ahead(s: Ring, c: Channel, area: seq<Page>, published: seq<Page>, copied: nat)
    requires s.chan.Valid(s.area) && c.Valid(area) && copied <= PAGE
  {
    && c.base == s.chan.base && c.numPage == s.chan.numPage
    && area[c.base + c.head][copied..] == Prior(s, published, |published|)[copied..]
    && forall j :: 0 < j < c.numPage ==>
         area[c.base + Slot(c.head, j, c.numPage)] == Prior(s, published, |published| + j)
  }

  function CopiedBytes(s: SenderState): nat {
    if s.pc.SCopy? then s.pc.at else 0
  }

  predicate Left(messages: seq<Message>, s: Ring, c: Channel, area: seq<Page>, published: seq<Page>, copied: nat)
    requires s.chan.Valid(s.area)
  {
    c.Valid(area) && copied <= PAGE && Past(messages, s, published) && Ahead(s, c, area, published, copied)
  }

  predicate Leftovers(p: Program, s: Ring, t: Ring)
    requires s.chan.Valid(s.area)
  {
    Left(p.messages, s, t.chan, t.area, t.published, CopiedBytes(t.sender))
  }

  // ---------- The three ways the sender's part changes ----------

  lemma {:induction false} AheadCopy(
      s: Ring, c: Channel, area: seq<Page>, published: seq<Page>, copied: nat, b: Byte)
    requires s.chan.Valid(s.area) && c.Valid(area) && copied < PAGE && Ahead(s, c, area, published, copied)
    ensures var page := area[c.base + c.head];
      Ahead(s, c, area[c.base + c.head := page[copied := b]], published, copied + 1)
  {
    var k := c.base + c.head;
    var page, prior := area[k], Prior(s, published, |published|);
    assert page[copied..][1..] == prior[copied..][1..];
    assert page[copied := b][copied + 1..] == page[copied..][1..] == prior[copied + 1..];
    assert forall j :: 0 < j < c.numPage ==> Slot(c.head, j, c.numPage) != c.head;
  }

  lemma {:induction false} PriorLonger(s: Ring, published: seq<Page>, page: Page, k: nat)
    requires s.chan.Valid(s.area) && k < |published| + s.chan.numPage
    ensures Prior(s, published + [page], k) == Prior(s, published, k)
  {
  }

  lemma NextSlot(head: nat, j: nat, numPage: nat)
    requires head < numPage && j < numPage
    ensures Slot(Next(head, numPage), j, numPage) == if j + 1 < numPage then Slot(head, j + 1, numPage) else head
  {
  }

  lemma {:induction false} NextAhead(
      s: Ring, c: Channel, area: seq<Page>, published: seq<Page>, copied: nat, j: nat)
    requires s.chan.Valid(s.area) && c.Valid(area) && copied <= PAGE && Ahead(s, c, area, published, copied)
    requires j < c.numPage
    ensures var page, n := area[c.base + c.head], c.numPage;
      area[c.base + Slot(Next(c.head, n), j, n)] == Prior(s, published + [page], |published| + 1 + j)
  {
    NextSlot(c.head, j, c.numPage);
    if j + 1 < c.numPage {
      PriorLonger(s, published, area[c.base + c.head], |published| + (j + 1));
    }
  }

  lemma {:induction false} AheadPublish(s: Ring, c: Channel, area: seq<Page>, published: seq<Page>, copied: nat)
    requires s.chan.Valid(s.area) && c.Valid(area) && copied <= PAGE && Ahead(s, c, area, published, copied)
    ensures Ahead(s, c.(head := Next(c.head, c.numPage)), area, published + [area[c.base + c.head]], 0)
  {
    var n, after := c.numPage, published + [area[c.base + c.head]];
    var head := Next(c.head, n);
    forall j | 0 <= j < n ensures area[c.base + Slot(head, j, n)] == Prior(s, after, |after| + j) {
      NextAhead(s, c, area, published, copied, j);
    }
    assert Slot(head, 0, n) == head;
  }

  lemma {:induction false} PastAtLonger(messages: seq<Message>, s: Ring, published: seq<Page>, page: Page, k: nat)
    requires s.chan.Valid(s.area) && k < |published| && PastAt(messages, s, published, k)
    ensures PastAt(messages, s, published + [page], k)
  {
    PriorLonger(s, published, page, k);
  }

  lemma {:induction false} PastPublish(messages: seq<Message>, s: Ring, published: seq<Page>, page: Page)
    requires s.chan.Valid(s.area) && Past(messages, s, published)
    requires var n := |ChunkNo(messages, |published|)|;
      n <= PAGE && page[n..] == Prior(s, published, |published|)[n..]
    ensures Past(messages, s, published + [page])
  {
    forall k | 0 <= k < |published + [page]| ensures PastAt(messages, s, published + [page], k) {
      if k < |published| {
        PastAtLonger(messages, s, published, page, k);
      } else {
        PriorLonger(s, published, page, k);
      }
    }
  }

  // ---------- Every step ----------

  // What a step of the sender does to the channel: it copies a byte, or publishes the page its chunk
  // was copied into, or touches nothing.
  predicate Effect(messages: seq<Message>, c: Channel, area: seq<Page>, published: seq<Page>, copied: nat,
                   c': Channel, area': seq<Page>, published': seq<Page>, copied': nat)
    requires c.Valid(area)
  {
    var k := c.base + c.head;
    || (c' == c && area' == area && published' == published && copied' == copied)
    || (&& c' == c && published' == published && copied < PAGE && copied' == copied + 1
        && |area'| == |area| && area' == area[k := area[k][copied := area'[k][copied]]])
    || (&& c' == c.(head := Next(c.head, c.numPage)) && area' == area && published' == published + [area[k]]
        && copied == |ChunkNo(messages, |published|)| && copied' == 0)
  }

  lemma {:induction false} SenderEffect(p: Program, t: Ring)
    requires Bounds(p, t) && Content(p.messages, t.sender, t.published)
    ensures var t' := SenderStep(p, t);
      Effect(p.messages, t.chan, t.area, t.published, CopiedBytes(t.sender),
             t'.chan, t'.area, t'.published, CopiedBytes(t'.sender))
  {
    if t.sender.message < |p.messages| && t.sender.pc.SCopy? {
      NextChunk(p.messages, t.sender, t.published);
    }
  }

  lemma {:induction false} CopyKeepsLeft(
      messages: seq<Message>, s: Ring, c: Channel, area: seq<Page>, published: seq<Page>, copied: nat, b: Byte)
    requires s.chan.Valid(s.area) && Left(messages, s, c, area, published, copied) && copied < PAGE
    ensures var k := c.base + c.head;
      Left(messages, s, c, area[k := area[k][copied := b]], published, copied + 1)
  {
    AheadCopy(s, c, area, published, copied, b);
  }

  lemma {:induction false} PublishKeepsLeft(
      messages: seq<Message>, s: Ring, c: Channel, area: seq<Page>, published: seq<Page>, copied: nat)
    requires s.chan.Valid(s.area) && Left(messages, s, c, area, published, copied)
    requires copied == |ChunkNo(messages, |published|)|
    ensures Left(messages, s, c.(head := Next(c.head, c.numPage)), area, published + [area[c.base + c.head]], 0)
  {
    PastPublish(messages, s, published, area[c.base + c.head]);
    AheadPublish(s, c, area, published, copied);
  }

  lemma {:induction false} EffectKeepsLeft(
      messages: seq<Message>, s: Ring, c: Channel, area: seq<Page>, published: seq<Page>, copied: nat,
      c': Channel, area': seq<Page>, published': seq<Page>, copied': nat)
    requires s.chan.Valid(s.area) && Left(messages, s, c, area, published, copied)
    requires Effect(messages, c, area, published, copied, c', area', published', copied')
    ensures Left(messages, s, c', area', published', copied')
  {
    if c' == c && published' == published {
      if copied' == copied + 1 {
        CopyKeepsLeft(messages, s, c, area, published, copied, area'[c.base + c.head][copied]);
      }
    } else {
      PublishKeepsLeft(messages, s, c, area, published, copied);
    }
  }

  lemma {:induction false} SenderKeepsLeftovers(p: Program, s: Ring, t: Ring)
    requires s.chan.Valid(s.area) && Bounds(p, t) && Leftovers(p, s, t)
    requires Content(p.messages, t.sender, t.published)
    ensures Leftovers(p, s, SenderStep(p, t))
  {
    var t' := SenderStep(p, t);
    SenderEffect(p, t);
    EffectKeepsLeft(p.messages, s, t.chan, t.area, t.published, CopiedBytes(t.sender),
      t'.chan, t'.area, t'.published, CopiedBytes(t'.sender));
  }

  lemma {:induction false} TailKeepsLeft(
      messages: seq<Message>, s: Ring, c: Channel, area: seq<Page>, published: seq<Page>, copied: nat, tail: nat)
    requires s.chan.Valid(s.area) && Left(messages, s, c, area, published, copied) && tail < c.numPage
    ensures Left(messages, s, c.(tail := tail), area, published, copied)
  {
  }

  lemma {:induction false} ReceiverEffect(p: Program, t: Ring)
    requires Bounds(p, t)
    ensures var t' := ReceiverStep(p, t);
      && t'.chan == t.chan.(tail := t'.chan.tail) && t'.chan.tail < t.chan.numPage
      && t'.area == t.area && t'.published == t.published && t'.sender == t.sender
  {
  }

  lemma {:induction false} ReceiverKeepsLeftovers(p: Program, s: Ring, t: Ring)
    requires s.chan.Valid(s.area) && Bounds(p, t) && Leftovers(p, s, t)
    ensures Leftovers(p, s, ReceiverStep(p, t))
  {
    ReceiverEffect(p, t);
    TailKeepsLeft(p.messages, s, t.chan, t.area, t.published, CopiedBytes(t.sender), ReceiverStep(p, t).chan.tail);
  }

  lemma {:induction false} OthersKeepAhead(
      s: Ring, c: Channel, area: seq<Page>, published: seq<Page>, copied: nat, area': seq<Page>)
    requires s.chan.Valid(s.area) && c.Valid(area) && copied <= PAGE && Ahead(s, c, area, published, copied)
    requires |area'| == |area| && area'[c.base..c.base + c.numPage] == area[c.base..c.base + c.numPage]
    ensures Ahead(s, c, area', published, copied)
  {
    var lo, hi := c.base, c.base + c.numPage;
    forall k | lo <= k < hi ensures area'[k] == area[k] {
      assert area'[lo..hi][k - lo] == area[lo..hi][k - lo];
    }
  }

  lemma {:induction false} StepKeepsLeftovers(p: Program, s: Ring, t: Ring, step: Step)
    requires s.chan.Valid(s.area) && Bounds(p, t) && Leftovers(p, s, t) && !step.Repack?
    requires Content(p.messages, t.sender, t.published)
    ensures Leftovers(p, s, StepOnce(p, t, step))
  {
    match step
    case Sender => SenderKeepsLeftovers(p, s, t);
    case Receiver => ReceiverKeepsLeftovers(p, s, t);
    case Others(area) =>
      if SameRegion(t, area) {
        OthersKeepAhead(s, t.chan, t.area, t.published, CopiedBytes(t.sender), area);
      }
    case _ =>
  }

  // ---------- Whole runs ----------

  lemma {:induction false} RunKeepsLeftovers(p: Program, s: Ring, t: Ring, steps: seq<Step>)
    requires s.chan.Valid(s.area) && Inv(p, t) && Leftovers(p, s, t) && Unmoved(steps)
    requires Content(p.messages, t.sender, t.published)
    ensures Leftovers(p, s, Run(p, t, steps))
    decreases |steps|
  {
    if steps != [] {
      StepKeepsInv(p, t, steps[0]);
      StepKeepsContent(p, t, steps[0]);
      StepKeepsLeftovers(p, s, t, steps[0]);
      RunKeepsLeftovers(p, s, StepOnce(p, t, steps[0]), steps[1..]);
    }
  }

  predicate Pieced(messages: seq<Message>, s: Ring, published: seq<Page>, k: nat)
    requires s.chan.Valid(s.area) && k < |published|
  {
    var chunk := ChunkNo(messages, k);
    |chunk| <= PAGE && published[k] == chunk + Prior(s, published, k)[|chunk|..]
  }

  lemma {:induction false} Piece(messages: seq<Message>, s: Ring, published: seq<Page>, k: nat)
    requires s.chan.Valid(s.area) && k < |published| && Past(messages, s, published)
    requires ChunkNo(messages, k) <= published[k]
    ensures Pieced(messages, s, published, k)
  {
    var n := |ChunkNo(messages, k)|;
    assert PastAt(messages, s, published, k);
    assert published[k] == published[k][..n] + published[k][n..];
  }

  lemma {:induction false} ChunkStarts(messages: seq<Message>, s: SenderState, published: seq<Page>, k: nat)
    requires SenderBounds(messages, s) && Content(messages, s, published) && k < |published|
    ensures ChunkNo(messages, k) <= published[k]
  {
  }

  lemma {:induction false} InitLeftovers(p: Program, s: Ring)
    requires Init(p, s)
    ensures Leftovers(p, s, s)
  {
    assert Slot(s.chan.head, 0, s.chan.numPage) == s.chan.head;
  }

  /** The page law, for every list of messages of any sizes: in every state of every run without a
      repack, page number k is the k-th chunk of the messages followed by what its slot held
      before. */
  lemma {:induction false} PageContents(p: Program, s: Ring, steps: seq<Step>)
    requires Init(p, s) && Unmoved(steps)
    ensures var published := Run(p, s, steps).published;
      forall k :: 0 <= k < |published| ==> Pieced(p.messages, s, published, k)
  {
    var t := Run(p, s, steps);
    UnmovedKeepsQueue(p, s, steps);
    ReachedContent(p, s, steps);
    InitInv(p, s);
    InitContent(p, s);
    InitLeftovers(p, s);
    RunKeepsLeftovers(p, s, s, steps);
    forall k | 0 <= k < |t.published| ensures Pieced(p.messages, s, t.published, k) {
      ChunkStarts(p.messages, t.sender, t.published, k);
      Piece(p.messages, s, t.published, k);
    }
  }

  lemma {:induction false} PageContentsAt(p: Program, s: Ring, steps: seq<Step>, k: nat)
    requires Init(p, s) && Unmoved(steps) && k < |Run(p, s, steps).published|
    ensures Pieced(p.messages, s, Run(p, s, steps).published, k)
  {
    PageContents(p, s, steps);
  }

  // ---------- Sizes in [PAGE, 2 * PAGE) ----------

  lemma {:induction false} FirstTwoChunks(m: RawMessage)
    requires LoopEnd(m.size, 0) <= |m.mem| && PAGE < m.size < 2 * PAGE
    ensures var n := m.size - PAGE;
      && n + n <= |m.mem| && |Chunks(m, 0)| >= 2
      && Chunks(m, 0)[0] == m.mem[..n] && Chunks(m, 0)[1] == m.mem[n..n + n]
  {
    var n := m.size - PAGE;
    assert Chunks(m, 0) == [m.mem[0..n]] + Chunks(m, n);
    assert Chunks(m, n) == [m.mem[n..n + n]] + Chunks(m, n + n);
  }

  // The first message of such a size: what its first two pages carry of it.
  lemma {:induction false} ShortChunks(p: Program, i: nat)
    requires Matching(p) && i < |p.messages| && FullBefore(p.messages, i) && !FullPages(p.messages[i].size)
    ensures var m, first := p.messages[i], StartPage(p.receives, i);
      var n := m.size - PAGE;
      && n + n <= |m.mem|
      && ChunkNo(p.messages, first) == m.mem[..n] && ChunkNo(p.messages, first + 1) == m.mem[n..n + n]
  {
    var all, first, m := ChunksFrom(p.messages, 0), StartPage(p.receives, i), p.messages[i];
    MessageStart(p, i);
    if m.size > PAGE {
      FirstTwoChunks(m);
      assert all[first] == all[first..][0] == Chunks(m, 0)[0];
      assert all[first + 1] == all[first..][1] == Chunks(m, 0)[1];
    }
  }

  // A receive of at least one and less than two pages, from the pages it starts at.
  lemma {:induction false} TwoPages(published: seq<Page>, first: nat, buffer: seq<Byte>)
    requires From(published, first, buffer) && PAGE <= |buffer| < 2 * PAGE
    ensures first < |published| && (|buffer| > PAGE ==> first + 1 < |published|)
    ensures buffer == published[first] +
              if |buffer| > PAGE then published[first + 1][..|buffer| - PAGE] else []
  {
    forall x | 0 <= x < |buffer|
      ensures buffer[x] == if x < PAGE then published[first][x] else published[first + 1][x - PAGE]
    {
      assert x / PAGE == (if x < PAGE then 0 else 1) && x % PAGE == if x < PAGE then x else x - PAGE;
    }
  }

  /** The size law: in every run without a repack, the receive of the first message whose size is in
      [PAGE, 2 * PAGE), in a list of any length, is exactly the first size - PAGE bytes of the
      message, then what the shared page held before, then the second size - PAGE bytes.  So it is
      the message if and only if that stale memory and the message itself happen to agree. */
  lemma {:induction false} SizeLaw(p: Program, s: Ring, steps: seq<Step>, i: nat)
    requires Init(p, s) && Unmoved(steps) && Matching(p)
    requires i < |Run(p, s, steps).receiver.filled| && FullBefore(p.messages, i) && !FullPages(p.messages[i].size)
    ensures var t, m, first := Run(p, s, steps), p.messages[i], StartPage(p.receives, i);
      var n := m.size - PAGE;
      && first < |t.published| && n + n <= |m.mem|
      && t.receiver.filled[i] == m.mem[..n] + Prior(s, t.published, first)[n..] + m.mem[n..n + n]
      && (t.receiver.filled[i] == m.mem[..m.size] <==>
            Prior(s, t.published, first)[n..] == m.mem[n..PAGE] && m.mem[n..n + n] == m.mem[PAGE..m.size])
  {
    UnmovedKeepsQueue(p, s, steps);
    FirstInFirstOut(p, s, steps);
    PageContents(p, s, steps);
    var t := Run(p, s, steps);
    ShortReceive(p, s, t.published, i, t.receiver.filled[i]);
  }

  lemma {:induction false} ShortReceive(p: Program, s: Ring, published: seq<Page>, i: nat, buffer: seq<Byte>)
    requires s.chan.Valid(s.area) && Matching(p)
    requires i < |p.messages| && FullBefore(p.messages, i) && !FullPages(p.messages[i].size)
    requires From(published, StartPage(p.receives, i), buffer) && |buffer| == p.receives[i]
    requires forall k :: 0 <= k < |published| ==> Pieced(p.messages, s, published, k)
    ensures var m, first := p.messages[i], StartPage(p.receives, i);
      var n := m.size - PAGE;
      && first < |published| && n + n <= |m.mem|
      && buffer == m.mem[..n] + Prior(s, published, first)[n..] + m.mem[n..n + n]
      && (buffer == m.mem[..m.size] <==>
            Prior(s, published, first)[n..] == m.mem[n..PAGE] && m.mem[n..n + n] == m.mem[PAGE..m.size])
  {
    var m, first := p.messages[i], StartPage(p.receives, i);
    ShortPages(p, s, published, i);
    assert first < |published|;
    ShortBuffer(m.mem, m.size, published, first, buffer, Prior(s, published, first));
  }

  lemma {:induction false} ShortBuffer(
      mem: seq<Byte>, size: nat, published: seq<Page>, first: nat, buffer: seq<Byte>, prior: Page)
    requires From(published, first, buffer) && |buffer| == size && PAGE <= size < 2 * PAGE && size <= |mem|
    requires var n := size - PAGE;
      && n + n <= |mem|
      && (first < |published| ==> published[first] == mem[..n] + prior[n..])
      && (first + 1 < |published| ==> published[first + 1][..n] == mem[n..n + n])
    ensures var n := size - PAGE;
      && buffer == mem[..n] + prior[n..] + mem[n..n + n]
      && (buffer == mem[..size] <==> prior[n..] == mem[n..PAGE] && mem[n..n + n] == mem[PAGE..size])
  {
    var n := size - PAGE;
    TwoPages(published, first, buffer);
    Assemble(mem, n, prior, published[first], if n > 0 then published[first + 1][..n] else [], buffer);
    ThreeParts(mem, n, prior[n..], size);
  }

  lemma {:induction false} ShortPages(p: Program, s: Ring, published: seq<Page>, i: nat)
    requires s.chan.Valid(s.area) && Matching(p)
    requires i < |p.messages| && FullBefore(p.messages, i) && !FullPages(p.messages[i].size)
    requires forall k :: 0 <= k < |published| ==> Pieced(p.messages, s, published, k)
    ensures var m, first := p.messages[i], StartPage(p.receives, i);
      var n := m.size - PAGE;
      && n + n <= |m.mem|
      && (first < |published| ==> published[first] == m.mem[..n] + Prior(s, published, first)[n..])
      && (first + 1 < |published| ==> published[first + 1][..n] == m.mem[n..n + n])
  {
    var first := StartPage(p.receives, i);
    ShortChunks(p, i);
    if first < |published| {
      assert Pieced(p.messages, s, published, first);
    }
    if first + 1 < |published| {
      assert Pieced(p.messages, s, published, first + 1);
    }
  }

  lemma Assemble(mem: seq<Byte>, n: nat, prior: Page, page: Page, second: seq<Byte>, buffer: seq<Byte>)
    requires n < PAGE && n + n <= |mem| && page == mem[..n] + prior[n..]
    requires buffer == page + second && second == mem[n..n + n]
    ensures buffer == mem[..n] + prior[n..] + mem[n..n + n]
  {
  }

  lemma {:induction false} ThreeParts(mem: seq<Byte>, n: nat, middle: seq<Byte>, size: nat)
    requires n < PAGE && size == PAGE + n && size <= |mem| && n + n <= |mem| && |middle| == PAGE - n
    ensures mem[..n] + middle + mem[n..n + n] == mem[..size] <==>
            middle == mem[n..PAGE] && mem[n..n + n] == mem[PAGE..size]
  {
    var whole := mem[..n] + middle + mem[n..n + n];
    assert whole[n..PAGE] == middle && whole[PAGE..] == mem[n..n + n];
    assert mem[..size][n..PAGE] == mem[n..PAGE] && mem[..size][PAGE..] == mem[PAGE..size];
    assert mem[..size] == mem[..n] + mem[n..PAGE] + mem[PAGE..size];
  }
}
