/**
  What the sizes passed to send and receive decide: how far the loop copies and reads, when it
  ends, and what data_size counts.
 */
module RingSizes {
  import opened Layout
  import opened PageRing
  import opened RingFifo
  import opened RingStream

  // ---------- The send loop by itself ----------

  lemma {:induction false} LoopFullPages(size: BufferSize, dataSent: nat)
    requires FullPages(size) && dataSent % PAGE == 0
    ensures LoopPages(size, dataSent) == (if dataSent < size then CeilPages(size - dataSent) else 0)
    ensures LoopEnd(size, dataSent) == dataSent + PAGE * LoopPages(size, dataSent)
    decreases size - dataSent
  {
    if dataSent < size {
      LoopFullPages(size, dataSent + PAGE);
    }
  }

  /** The loop of ivshmem_send_buffer, given `rounds` turns at a ring with room.  It leaves
      after ceil(size / PAGE) pages when every iteration copies a page, and then has copied
      exactly `size` bytes if and only if PAGE divides size; at size PAGE it spends every
      round without moving data_sent. */
  method SendLoop(size: BufferSize, rounds: nat) returns (dataSent: nat, pages: nat)
    ensures dataSent < size ==> pages == rounds
    ensures ToSend(size) != 0 && rounds >= LoopPages(size, 0) ==>
      pages == LoopPages(size, 0) && dataSent == LoopEnd(size, 0)
    ensures FullPages(size) && rounds >= CeilPages(size) ==>
      && pages == CeilPages(size) && dataSent == PAGE * CeilPages(size)
      && (dataSent == size <==> size % PAGE == 0)
    ensures size == PAGE ==> dataSent == 0 && pages == rounds
  {
    dataSent, pages := 0, 0;
    while pages < rounds && dataSent < size
      invariant pages <= rounds
      invariant size == PAGE ==> dataSent == 0
      invariant ToSend(size) != 0 ==> pages + LoopPages(size, dataSent) == LoopPages(size, 0)
      invariant LoopEnd(size, dataSent) == LoopEnd(size, 0)
      decreases rounds - pages
    {
      dataSent := dataSent + ToSend(size);
      pages := pages + 1;
    }
    if FullPages(size) {
      LoopFullPages(size, 0);
    }
  }

  // Counting down by n from a ends at zero.
  predicate Divides(n: nat, a: nat)
    requires n > 0
  {
    if a < n then a == 0 else Divides(n, a - n)
  }

  lemma {:induction false} DividesMod(n: nat, a: nat, q: nat, r: nat)
    requires 0 < n && r < n && a == q * n + r
    ensures Divides(n, a) <==> r == 0
    decreases q
  {
    if q > 0 {
      assert (q - 1) * n == q * n - n;
      assert q * n >= n;
      DividesMod(n, a - n, q - 1, r);
    }
  }

  lemma {:induction false} LoopEndDivides(size: BufferSize, dataSent: nat)
    requires dataSent <= size && ToSend(size) != 0
    ensures LoopEnd(size, dataSent) <= size <==> Divides(ToSend(size), size - dataSent)
    decreases size - dataSent
  {
    var n := ToSend(size);
    if dataSent < size {
      assert LoopEnd(size, dataSent) == LoopEnd(size, dataSent + n) >= dataSent + n;
      if dataSent + n <= size {
        LoopEndDivides(size, dataSent + n);
      }
    }
  }

  /** The loop stays inside the caller's buffer if and only if the size is one page, on which it
      copies nothing, or a multiple of what an iteration copies: of the page for sizes outside
      [PAGE, 2 * PAGE), and of size - PAGE inside.  Otherwise its last iteration reads past the
      end of the buffer. */
  lemma {:induction false} ReadsInside(size: BufferSize)
    ensures LoopEnd(size, 0) <= size <==> size == PAGE || size % ToSend(size) == 0
  {
    if size != PAGE {
      var n := ToSend(size);
      LoopEndDivides(size, 0);
      DividesMod(n, size, size / n, size % n);
    }
  }

  // ---------- Messages of one page ----------

  predicate NotPast(s: SenderState, i: nat) {
    s.message < i || (s.message == i && s.dataSent == 0)
  }

  /** No run gets past a message of exactly one page: the call never returns. */
  lemma {:induction false} OnePageNeverEnds(p: Program, s: Ring, steps: seq<Step>, i: nat)
    requires Bounds(p, s) && NotPast(s.sender, i)
    requires i < |p.messages| && p.messages[i].size == PAGE
    ensures NotPast(Run(p, s, steps).sender, i)
    decreases |steps|
  {
    if steps != [] {
      var t := StepOnce(p, s, steps[0]);
      assert NotPast(t.sender, i);
      OnePageNeverEnds(p, t, steps[1..], i);
    }
  }

  // ---------- data_size ----------

  // Bytes the receiver has taken off data_size.
  function BytesTaken(p: Program, r: ReceiverState): nat
    requires |r.filled| <= |p.receives|
  {
    Total(p.receives, |r.filled|) + r.dataReceived
  }

  // Bytes copied into the first k pages.
  function BytesIn(messages: seq<Message>, k: nat): nat {
    if k == 0 then 0 else BytesIn(messages, k - 1) + |ChunkNo(messages, k - 1)|
  }

  // Bytes of a page that is published and not yet added.
  function Unadded(messages: seq<Message>, s: SenderState): nat
    requires SenderBounds(messages, s)
  {
    if s.message < |messages| && s.pc == SAdd then ToSend(messages[s.message].size) else 0
  }

  function BytesAdded(messages: seq<Message>, s: SenderState, published: seq<Page>): int
    requires SenderBounds(messages, s)
  {
    BytesIn(messages, |published|) - Unadded(messages, s)
  }

  predicate Accounted(p: Program, s: Ring)
    requires Bounds(p, s)
  {
    s.dataSize == (BytesAdded(p.messages, s.sender, s.published) - BytesTaken(p, s.receiver)) % U64
  }

  lemma WrapAdd(a: int, b: nat)
    ensures (a % U64 + b) % U64 == (a + b) % U64
  {
  }

  lemma WrapSub(a: int, b: nat)
    requires b <= U64
    ensures (a % U64 + U64 - b) % U64 == (a - b) % U64
  {
  }

  lemma {:induction false} MovesBytes(
      messages: seq<Message>, s: SenderState, published: seq<Page>, s': SenderState, published': seq<Page>)
    requires SenderBounds(messages, s) && SenderBounds(messages, s') && Content(messages, s, published)
    requires Moves(messages, s, published, s', published') && (s' == s ==> s.pc != SAdd)
    ensures BytesAdded(messages, s', published') == BytesAdded(messages, s, published) + Unadded(messages, s)
  {
    if |published'| > |published| {
      NextChunk(messages, s, published);
    }
  }

  lemma {:induction false} SenderDataSize(p: Program, s: Ring)
    requires Bounds(p, s)
    ensures var t := SenderStep(p, s);
      && t.receiver == s.receiver
      && t.dataSize == if s.sender.message < |p.messages| && s.sender.pc == SAdd
                       then (s.dataSize + Unadded(p.messages, s.sender)) % U64 else s.dataSize
  {
  }

  lemma {:induction false} AddKeepsAccount(p: Program, s: Ring, t: Ring, added: nat)
    requires Bounds(p, s) && Bounds(p, t) && Accounted(p, s) && t.receiver == s.receiver
    requires BytesAdded(p.messages, t.sender, t.published) == BytesAdded(p.messages, s.sender, s.published) + added
    requires t.dataSize == (s.dataSize + added) % U64 || (t.dataSize == s.dataSize && added == 0)
    ensures Accounted(p, t)
  {
    WrapAdd(BytesAdded(p.messages, s.sender, s.published) - BytesTaken(p, s.receiver), added);
  }

  lemma {:induction false} SenderKeepsAccount(p: Program, s: Ring)
    requires Bounds(p, s) && Accounted(p, s) && PartialPage(p.messages, s)
    requires Content(p.messages, s.sender, s.published)
    ensures Accounted(p, SenderStep(p, s))
  {
    var t := SenderStep(p, s);
    SenderMoves(p, s);
    SenderDataSize(p, s);
    MovesBytes(p.messages, s.sender, s.published, t.sender, t.published);
    AddKeepsAccount(p, s, t, Unadded(p.messages, s.sender));
  }

  lemma {:induction false} ReceiverAccount(p: Program, s: Ring)
    requires Bounds(p, s)
    ensures var t := ReceiverStep(p, s);
      var n := if s.receiver.pc != RSub then 0
               else ToReceive(p.receives[|s.receiver.filled|], s.receiver.dataReceived);
      && t.sender == s.sender && t.published == s.published
      && t.dataSize == (if s.receiver.pc == RSub then (s.dataSize + U64 - n) % U64 else s.dataSize)
      && BytesTaken(p, t.receiver) == BytesTaken(p, s.receiver) + n
  {
  }

  lemma {:induction false} ReceiverKeepsAccount(p: Program, s: Ring)
    requires Bounds(p, s) && Accounted(p, s)
    ensures Accounted(p, ReceiverStep(p, s))
  {
    ReceiverAccount(p, s);
    if s.receiver.pc == RSub {
      WrapSub(BytesAdded(p.messages, s.sender, s.published) - BytesTaken(p, s.receiver),
        ToReceive(p.receives[|s.receiver.filled|], s.receiver.dataReceived));
    }
  }

  lemma {:induction false} StepKeepsAccount(p: Program, s: Ring, step: Step)
    requires Bounds(p, s) && Accounted(p, s) && PartialPage(p.messages, s)
    requires Content(p.messages, s.sender, s.published)
    ensures Accounted(p, StepOnce(p, s, step))
  {
    match step
    case Sender => SenderKeepsAccount(p, s);
    case Receiver => ReceiverKeepsAccount(p, s);
    case _ =>
      var t := StepOnce(p, s, step);
      assert t.sender == s.sender && t.receiver == s.receiver;
      assert t.published == s.published && t.dataSize == s.dataSize;
  }

  lemma {:induction false} RunKeepsAccount(p: Program, s: Ring, steps: seq<Step>)
    requires Inv(p, s) && QueueKept(p, s, steps)
    requires Accounted(p, s) && Content(p.messages, s.sender, s.published)
    ensures Accounted(p, Run(p, s, steps))
    decreases |steps|
  {
    if steps != [] {
      StepKeepsInv(p, s, steps[0]);
      StepKeepsContent(p, s, steps[0]);
      StepKeepsAccount(p, s, steps[0]);
      RunKeepsAccount(p, StepOnce(p, s, steps[0]), steps[1..]);
    }
  }

  // What a receive of the given size leaves of its last page.
  function Unused(size: nat): nat {
    PAGE * CeilPages(size) - size
  }

  // What the finished receives left of their last pages.
  function Slack(receives: seq<IntSize>, n: nat): nat
    requires n <= |receives|
  {
    if n == 0 then 0 else Slack(receives, n - 1) + Unused(receives[n - 1])
  }

  // What the first k pages miss of full ones.
  function Short(messages: seq<Message>, k: nat): int {
    PAGE * k - BytesIn(messages, k)
  }

  lemma {:induction false} SlackTotal(receives: seq<IntSize>, n: nat)
    requires n <= |receives|
    ensures PAGE * StartPage(receives, n) == Total(receives, n) + Slack(receives, n)
    ensures Slack(receives, n) == 0 <==> forall i :: 0 <= i < n ==> receives[i] % PAGE == 0
  {
    if n > 0 {
      SlackTotal(receives, n - 1);
    }
  }

  lemma {:induction false} FullNotShort(messages: seq<Message>, k: nat)
    requires AllFullPages(messages) && k <= |ChunksFrom(messages, 0)|
    ensures Short(messages, k) == 0
  {
    if k > 0 {
      FullNotShort(messages, k - 1);
      FullChunks(messages, 0);
    }
  }

  // The pages occupied, the slack of the receives, finished or in progress, less what the pages
  // published miss of full ones.
  function Exact(p: Program, t: Ring): int
    requires |t.receiver.filled| <= |p.receives|
  {
    PAGE * (|t.published| - t.released) + Slack(p.receives, |t.receiver.filled|)
    + Unused(t.receiver.dataReceived) - Short(p.messages, |t.published|)
  }

  // The receives so far were of whole pages, and so was what the one in progress has taken.
  predicate WholeSoFar(p: Program, r: ReceiverState)
    requires |r.filled| <= |p.receives|
  {
    r.dataReceived % PAGE == 0 && forall i :: 0 <= i < |r.filled| ==> p.receives[i] % PAGE == 0
  }

  /** Modulo 2^64 data_size is `Exact`, less the bytes of the page whose head is out but which are
      not added, plus the page whose tail is out but whose bytes are not taken.  With no such
      page pending, and full pages sent, data_size is what the occupied pages hold exactly if the
      receives are of whole pages. */
  predicate Conserved(p: Program, t: Ring)
    requires Bounds(p, t)
  {
    var count, exact := |t.published| - t.released, Exact(p, t);
    && t.dataSize ==
       (exact - Unadded(p.messages, t.sender) + (if t.receiver.pc == RSub then PAGE else 0)) % U64
    && (t.sender.pc != SAdd && t.receiver.pc != RSub && 0 <= exact < U64 ==>
          && t.dataSize == exact
          && (AllFullPages(p.messages) ==> (t.dataSize == PAGE * count <==> WholeSoFar(p, t.receiver))))
  }

  lemma {:induction false} PagesTaken(p: Program, t: Ring)
    requires ReceiverBounds(p.receives, t.receiver) && Filling(p.receives, t.receiver, t.published, t.released)
    ensures BytesTaken(p, t.receiver) + Slack(p.receives, |t.receiver.filled|) + Unused(t.receiver.dataReceived) ==
            PAGE * (t.released - if t.receiver.pc == RSub then 1 else 0)
  {
    SlackTotal(p.receives, |t.receiver.filled|);
  }

  lemma UnusedNone(size: nat)
    ensures Unused(size) >= 0 && (Unused(size) == 0 <==> size % PAGE == 0)
  {
  }

  lemma {:induction false} ExactIsAccount(p: Program, t: Ring)
    requires Bounds(p, t) && Filling(p.receives, t.receiver, t.published, t.released)
    ensures Exact(p, t) - Unadded(p.messages, t.sender) + (if t.receiver.pc == RSub then PAGE else 0) ==
            BytesAdded(p.messages, t.sender, t.published) - BytesTaken(p, t.receiver)
  {
    PagesTaken(p, t);
  }

  // With full pages sent, the drift is the slack.
  lemma {:induction false} DriftExact(p: Program, t: Ring)
    requires Bounds(p, t) && Content(p.messages, t.sender, t.published) && AllFullPages(p.messages)
    ensures Exact(p, t) == PAGE * (|t.published| - t.released) <==> WholeSoFar(p, t.receiver)
  {
    FullNotShort(p.messages, |t.published|);
    SlackTotal(p.receives, |t.receiver.filled|);
    UnusedNone(t.receiver.dataReceived);
  }

  lemma {:induction false} AccountConserved(p: Program, t: Ring)
    requires Inv(p, t) && Content(p.messages, t.sender, t.published) && Accounted(p, t)
    ensures Conserved(p, t)
  {
    ExactIsAccount(p, t);
    if AllFullPages(p.messages) {
      DriftExact(p, t);
    }
  }

  lemma {:induction false} InitAccounted(p: Program, s: Ring)
    requires Init(p, s)
    ensures Accounted(p, s)
  {
  }

  /** Conservation of data_size, in every state of every run, for every program of any sizes. */
  lemma {:induction false} DataSizeConserved(p: Program, s: Ring, steps: seq<Step>)
    requires Init(p, s) && QueueKept(p, s, steps)
    ensures Conserved(p, Run(p, s, steps))
  {
    InitInv(p, s);
    InitContent(p, s);
    InitAccounted(p, s);
    ReachedContent(p, s, steps);
    RunKeepsAccount(p, s, steps);
    AccountConserved(p, Run(p, s, steps));
  }
}
