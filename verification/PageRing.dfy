/**
  One sender and one receiver on one page-mode channel, as a state machine whose
  steps are the single accesses to shared memory made by `ivshmem_send_buffer` and
  `ivshmem_recv_buffer`.  A memcpy is one step per byte.  Memory is sequentially
  consistent.  Local computation is attached to the access that precedes it.
 */
module PageRing {
  import opened Layout

  // The memory readable at the sender's buffer pointer and the size it passes.
  datatype RawMessage = RawMessage(mem: seq<Byte>, size: BufferSize)

  // The buffer has `size` bytes; the loop may read further, to `LoopEnd`, and those bytes
  // have to exist too.
  type Message = m: RawMessage | m.size <= |m.mem| && LoopEnd(m.size, 0) <= |m.mem|
    witness RawMessage([], 0)

  // What the two sides do: consecutive sends, and consecutive receives of given sizes.
  datatype Program = Program(messages: seq<Message>, receives: seq<IntSize>)

  datatype SenderPc = STop | SFirst | SSecond | SCopy(at: nat) | SAdd
  datatype ReceiverPc = RTop | RTest | RCopy(at: nat) | RSub

  // The channel's region (base is buf_offset in pages) and its two indices.
  datatype Channel = Channel(base: nat, numPage: nat, head: nat, tail: nat) {
    predicate Valid(area: seq<Page>) {
      head < numPage && tail < numPage < 0x8000_0000 && base + numPage <= |area|
    }
  }

  // `message` is the index of the send in progress.
  datatype SenderState = SenderState(pc: SenderPc, message: nat, dataSent: nat)

  // `filled` are the buffers of the finished receives, `buffer` what the receive in
  // progress has copied.
  datatype ReceiverState =
    ReceiverState(pc: ReceiverPc, filled: seq<seq<Byte>>, buffer: seq<Byte>, dataReceived: nat)

  // `area` is the whole data section.  Two history variables: `published`, the page
  // contents in the order head passed them, and `released`, how many tail passed.
  datatype Ring = Ring(
    controlMutex: bool,
    chan: Channel,
    dataSize: nat,
    area: seq<Page>,
    sender: SenderState,
    receiver: ReceiverState,
    published: seq<Page>,
    released: nat)

  datatype Step =
    | Sender
    | Receiver
    | Lock
    | Unlock
    | Repack(base: nat, numPage: nat)
    | Others(area: seq<Page>)   // writes of other channels

  // ---------- The loops' arithmetic ----------

  // MIN(size - IVSHMEM_PAGE_SIZE, IVSHMEM_PAGE_SIZE), the subtraction unsigned.
  function ToSend(size: BufferSize): nat
    ensures ToSend(size) <= PAGE
    ensures size < PAGE || size >= 2 * PAGE <==> ToSend(size) == PAGE
    ensures PAGE <= size < 2 * PAGE ==> ToSend(size) == size - PAGE
  {
    Min(SubU64(size, PAGE), PAGE)
  }

  // The value of data_sent when the loop is left; data_sent never moves if ToSend is 0.
  function LoopEnd(size: BufferSize, dataSent: nat): (end: nat)
    ensures end >= dataSent
    decreases size - dataSent
  {
    if dataSent >= size || ToSend(size) == 0 then dataSent
    else LoopEnd(size, dataSent + ToSend(size))
  }

  // Number of pages the loop still publishes.
  function LoopPages(size: BufferSize, dataSent: nat): nat
    decreases size - dataSent
  {
    if dataSent >= size || ToSend(size) == 0 then 0
    else 1 + LoopPages(size, dataSent + ToSend(size))
  }

  function ToReceive(size: IntSize, dataReceived: nat): nat
    requires dataReceived <= size
  {
    Min(size - dataReceived, PAGE)
  }

  function Next(index: nat, numPage: nat): (r: nat)
    requires index < numPage
    ensures r == if index + 1 == numPage then 0 else index + 1
  {
    (index + 1) % numPage
  }

  // ---------- Steps ----------

  predicate SenderBounds(messages: seq<Message>, s: SenderState) {
    if s.message < |messages| then
      var m := messages[s.message];
      && LoopEnd(m.size, s.dataSent) <= |m.mem|
      && (s.pc != STop ==> s.dataSent < m.size)
      && (s.pc.SCopy? ==> s.pc.at <= ToSend(m.size))
    else
      s == SenderState(STop, |messages|, 0)
  }

  predicate ReceiverBounds(receives: seq<IntSize>, r: ReceiverState) {
    if |r.filled| < |receives| then
      var size := receives[|r.filled|];
      && r.dataReceived <= size
      && (r.pc != RTop ==> r.dataReceived < size)
      && (r.pc.RCopy? ==> r.pc.at <= ToReceive(size, r.dataReceived))
    else
      |r.filled| == |receives| && r.pc == RTop && r.buffer == [] && r.dataReceived == 0
  }

  predicate Bounds(p: Program, s: Ring) {
    && s.chan.Valid(s.area)
    && SenderBounds(p.messages, s.sender)
    && ReceiverBounds(p.receives, s.receiver)
  }

  function SenderStep(p: Program, s: Ring): (t: Ring)
    requires Bounds(p, s)
    ensures Bounds(p, t)
  {
    if s.sender.message == |p.messages| then s
    else
      var m, c, me := p.messages[s.sender.message], s.chan, s.sender;
      match me.pc
      case STop =>
        if s.controlMutex then s
        else if me.dataSent >= m.size then s.(sender := SenderState(STop, me.message + 1, 0))
        else s.(sender := me.(pc := SFirst))
      case SFirst =>
        // the first read of tail
        if c.head == SubU32(c.tail, 1) then s.(sender := me.(pc := STop))
        else if c.head == c.numPage - 1 then s.(sender := me.(pc := SSecond))
        else s.(sender := me.(pc := SCopy(0)))
      case SSecond =>
        // the second read of tail
        s.(sender := me.(pc := if c.tail == 0 then STop else SCopy(0)))
      case SCopy(at) =>
        var page := s.area[c.base + c.head];
        if at < ToSend(m.size) then
          s.(area := s.area[c.base + c.head := page[at := m.mem[me.dataSent + at]]],
             sender := me.(pc := SCopy(at + 1)))
        else
          s.(chan := c.(head := Next(c.head, c.numPage)), published := s.published + [page],
             sender := me.(pc := SAdd))
      case SAdd =>
        s.(dataSize := (s.dataSize + ToSend(m.size)) % U64,
           sender := me.(pc := STop, dataSent := me.dataSent + ToSend(m.size)))
  }

  function ReceiverStep(p: Program, s: Ring): (t: Ring)
    requires Bounds(p, s)
    ensures Bounds(p, t)
  {
    if |s.receiver.filled| == |p.receives| then s
    else
      var size, c, me := p.receives[|s.receiver.filled|], s.chan, s.receiver;
      match me.pc
      case RTop =>
        if s.controlMutex then s
        else if me.dataReceived >= size then
          s.(receiver := ReceiverState(RTop, me.filled + [me.buffer], [], 0))
        else s.(receiver := me.(pc := RTest))
      case RTest =>
        s.(receiver := me.(pc := if c.head == c.tail then RTop else RCopy(0)))
      case RCopy(at) =>
        if at < ToReceive(size, me.dataReceived) then
          s.(receiver := me.(pc := RCopy(at + 1), buffer := me.buffer + [s.area[c.base + c.tail][at]]))
        else
          s.(chan := c.(tail := Next(c.tail, c.numPage)), released := s.released + 1,
             receiver := me.(pc := RSub))
      case RSub =>
        var n := ToReceive(size, me.dataReceived);
        s.(dataSize := (s.dataSize + U64 - n) % U64,
           receiver := me.(pc := RTop, dataReceived := me.dataReceived + n))
  }

  // The trusted side repacks while it holds control_mutex, wherever the two sides are.
  predicate CanRepack(s: Ring, base: nat, numPage: nat) {
    s.controlMutex && 1 <= numPage < 0x8000_0000 && base + numPage <= |s.area|
  }

  function Repacked(c: Channel, base: nat, numPage: nat): Channel
    requires numPage > 0
  {
    Channel(base, numPage, c.head % numPage, c.tail % numPage)
  }

  predicate SameRegion(s: Ring, area: seq<Page>)
    requires s.chan.Valid(s.area)
  {
    var lo, hi := s.chan.base, s.chan.base + s.chan.numPage;
    |area| == |s.area| && area[lo..hi] == s.area[lo..hi]
  }

  // A step that is not enabled leaves the state as it is.
  function StepOnce(p: Program, s: Ring, step: Step): (t: Ring)
    requires Bounds(p, s)
    ensures Bounds(p, t)
  {
    match step
    case Sender => SenderStep(p, s)
    case Receiver => ReceiverStep(p, s)
    case Lock => s.(controlMutex := true)
    case Unlock => s.(controlMutex := false)
    case Repack(base, numPage) =>
      if CanRepack(s, base, numPage) then s.(chan := Repacked(s.chan, base, numPage)) else s
    case Others(area) => if SameRegion(s, area) then s.(area := area) else s
  }

  function Run(p: Program, s: Ring, steps: seq<Step>): (t: Ring)
    requires Bounds(p, s)
    ensures Bounds(p, t)
    decreases |steps|
  {
    if steps == [] then s else Run(p, StepOnce(p, s, steps[0]), steps[1..])
  }

  // Both sides about to make their first call on an empty ring.
  predicate Init(p: Program, s: Ring) {
    && Bounds(p, s)
    && s.chan.head == s.chan.tail && s.dataSize == 0
    && s.sender == SenderState(STop, 0, 0)
    && s.receiver == ReceiverState(RTop, [], [], 0)
    && s.published == [] && s.released == 0
  }
}
