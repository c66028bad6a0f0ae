/**
  The lock-based channel: one sender and one receiver around a single data region, as a state
  machine whose steps are the single accesses to shared memory of `ivshmem_lock_send_buffer`
  and `ivshmem_lock_recv_buffer`.  A memcpy is one step per byte, the mutex is tested and set
  in separate steps, and `ref_count--` is a load and a store.
 */
module LockChannel {
  import opened Layout

  // IVSHMEM_SIZE less sizeof(struct IvshmemLockControlSection)
  const LOCK_DATA: nat := SHM_SIZE - 32

  datatype Key = Key(senderVm: nat, senderPid: nat, receiverVm: nat)

  type Message = m: seq<Byte> | |m| < 0x8000_0000

  // Consecutive sends; the receiver makes one receive of the size of each message.
  datatype Program = Program(messages: seq<Message>, senderKey: Key, receiverKey: Key)

  // The call in progress and the bytes of it that are done.
  datatype Position = Position(message: nat, offset: nat)

  datatype SenderPc = LRefTest | LMutexTest | LSet | LCopy(at: nat) | LReceiver | LVm | LSize | LRef | LUnset

  datatype ReceiverPc =
    MReceiver | MVm | MPid | MRefTest | MMutexTest | MSet | MCopy(at: nat) | MStore(loaded: int) | MUnset

  // `buffers` are the receive buffers, one a call, as far as they are filled.
  datatype State = State(
    refCount: int, mutex: bool, key: Key, dataSize: nat, data: seq<Byte>,
    spc: SenderPc, spos: Position,
    rpc: ReceiverPc, rpos: Position, buffers: seq<seq<Byte>>)

  datatype Step = Sender | Receiver

  // ---------- Positions ----------

  // The loop test `done >= size` and the return, for as many calls as it applies to.
  function Skip(messages: seq<Message>, i: nat, offset: nat): (pos: Position)
    requires i <= |messages|
    ensures pos.message <= |messages|
    ensures pos.message == |messages| ==> i == |messages| || pos.offset == 0
    ensures pos.message < |messages| ==> pos.offset < |messages[pos.message]|
    decreases |messages| - i
  {
    if i < |messages| && offset >= |messages[i]| then Skip(messages, i + 1, 0) else Position(i, offset)
  }

  // Inside a call, with bytes left to move, or past the last call.
  predicate Normal(messages: seq<Message>, pos: Position) {
    if pos.message < |messages| then pos.offset < |messages[pos.message]| else pos == Position(|messages|, 0)
  }

  function Chunk(messages: seq<Message>, pos: Position): (n: nat)
    requires Normal(messages, pos) && pos.message < |messages|
    ensures 0 < n <= LOCK_DATA && pos.offset + n <= |messages[pos.message]|
    ensures n == LOCK_DATA || pos.offset + n == |messages[pos.message]|
  {
    Min(|messages[pos.message]| - pos.offset, LOCK_DATA)
  }

  function ChunkBytes(messages: seq<Message>, pos: Position): seq<Byte>
    requires Normal(messages, pos) && pos.message < |messages|
  {
    messages[pos.message][pos.offset..pos.offset + Chunk(messages, pos)]
  }

  function Advance(messages: seq<Message>, pos: Position): (next: Position)
    requires Normal(messages, pos) && pos.message < |messages|
    ensures Normal(messages, next)
  {
    Skip(messages, pos.message, pos.offset + Chunk(messages, pos))
  }

  // ---------- Steps ----------

  predicate Bounds(p: Program, s: State) {
    && |s.data| == LOCK_DATA && |s.buffers| == |p.messages|
    && Normal(p.messages, s.spos) && Normal(p.messages, s.rpos)
    && (s.spos.message == |p.messages| ==> s.spc in {LRefTest, LUnset})
    && (s.rpos.message == |p.messages| ==> s.rpc in {MReceiver, MUnset})
    && (s.spc.LCopy? ==> s.spc.at <= Chunk(p.messages, s.spos))
    && (s.rpc.MCopy? ==> s.rpc.at <= Chunk(p.messages, s.rpos))
    && (s.rpc == MPid ==> p.receiverKey.senderPid != 0)
  }

  function SenderStep(p: Program, s: State): (t: State)
    requires Bounds(p, s)
    ensures Bounds(p, t)
  {
    match s.spc
    case LRefTest =>
      if s.spos.message == |p.messages| || s.refCount > 0 then s else s.(spc := LMutexTest)
    case LMutexTest => s.(spc := if s.mutex then LRefTest else LSet)
    case LSet => s.(mutex := true, spc := LCopy(0))
    case LCopy(at) =>
      if at < Chunk(p.messages, s.spos) then
        s.(data := s.data[at := p.messages[s.spos.message][s.spos.offset + at]], spc := LCopy(at + 1))
      else s.(key := s.key.(senderPid := p.senderKey.senderPid), spc := LReceiver)
    case LReceiver => s.(key := s.key.(receiverVm := p.senderKey.receiverVm), spc := LVm)
    case LVm => s.(key := s.key.(senderVm := p.senderKey.senderVm), spc := LSize)
    case LSize => s.(dataSize := Chunk(p.messages, s.spos), spc := LRef)
    case LRef => s.(refCount := 1, spos := Advance(p.messages, s.spos), spc := LUnset)
    case LUnset => s.(mutex := false, spc := LRefTest)
  }

  function ReceiverStep(p: Program, s: State): (t: State)
    requires Bounds(p, s)
    ensures Bounds(p, t)
  {
    match s.rpc
    case MReceiver =>
      if s.rpos.message == |p.messages| || s.key.receiverVm != p.receiverKey.receiverVm then s
      else s.(rpc := MVm)
    case MVm =>
      s.(rpc := if s.key.senderVm != p.receiverKey.senderVm then MReceiver
                else if p.receiverKey.senderPid != 0 then MPid else MRefTest)
    case MPid => s.(rpc := if s.key.senderPid != p.receiverKey.senderPid then MReceiver else MRefTest)
    case MRefTest => s.(rpc := if s.refCount <= 0 then MReceiver else MMutexTest)
    case MMutexTest => s.(rpc := if s.mutex then MReceiver else MSet)
    case MSet => s.(mutex := true, rpc := MCopy(0))
    case MCopy(at) =>
      if at < Chunk(p.messages, s.rpos) then
        s.(buffers := s.buffers[s.rpos.message := s.buffers[s.rpos.message] + [s.data[at]]], rpc := MCopy(at + 1))
      else s.(rpc := MStore(s.refCount))
    case MStore(loaded) => s.(refCount := loaded - 1, rpos := Advance(p.messages, s.rpos), rpc := MUnset)
    case MUnset => s.(mutex := false, rpc := MReceiver)
  }

  function StepOnce(p: Program, s: State, step: Step): (t: State)
    requires Bounds(p, s)
    ensures Bounds(p, t)
  {
    if step == Sender then SenderStep(p, s) else ReceiverStep(p, s)
  }

  function Run(p: Program, s: State, steps: seq<Step>): (t: State)
    requires Bounds(p, s)
    ensures Bounds(p, t)
    decreases |steps|
  {
    if steps == [] then s else Run(p, StepOnce(p, s, steps[0]), steps[1..])
  }

  // After ivshmem_lock_init_control_section; the key may be anything, since the programs also set it.
  predicate Init(p: Program, s: State) {
    && |s.data| == LOCK_DATA
    && s.refCount == 0 && !s.mutex
    && s.spc == LRefTest && s.spos == Skip(p.messages, 0, 0)
    && s.rpc == MReceiver && s.rpos == Skip(p.messages, 0, 0)
    && s.buffers == seq(|p.messages|, i => [])
  }

  // ---------- Mutual exclusion ----------

  predicate SenderHolds(pc: SenderPc) {
    pc.LCopy? || pc in {LReceiver, LVm, LSize, LRef, LUnset}
  }

  predicate ReceiverHolds(pc: ReceiverPc) {
    pc.MCopy? || pc.MStore? || pc == MUnset
  }

  // Past its test of ref_count, and ref_count not yet changed by it.
  predicate SenderEntered(pc: SenderPc) {
    (SenderHolds(pc) && pc != LUnset) || pc in {LMutexTest, LSet}
  }

  predicate ReceiverEntered(pc: ReceiverPc) {
    (ReceiverHolds(pc) && pc != MUnset) || pc in {MMutexTest, MSet}
  }

  predicate Exclusion(s: State) {
    && s.refCount in {0, 1}
    && (SenderEntered(s.spc) ==> s.refCount == 0)
    && (ReceiverEntered(s.rpc) ==> s.refCount == 1)
    && (s.mutex <==> SenderHolds(s.spc) || ReceiverHolds(s.rpc))
    && !(SenderHolds(s.spc) && ReceiverHolds(s.rpc))
    && (s.spc == LSet ==> !s.mutex)
    && (s.rpc == MSet ==> !s.mutex)
    && (s.rpc.MStore? ==> s.rpc.loaded == 1)
  }

  lemma {:induction false} StepKeepsExclusion(p: Program, s: State, step: Step)
    requires Bounds(p, s) && Exclusion(s)
    ensures Exclusion(StepOnce(p, s, step))
  {
  }

  // ---------- The two positions ----------

  // With ref_count 1 exactly one chunk, the receiver's next, is in the region.
  predicate InStep(p: Program, s: State)
    requires Bounds(p, s)
  {
    if s.refCount == 0 then s.spos == s.rpos
    else s.rpos.message < |p.messages| && s.spos == Advance(p.messages, s.rpos)
  }

  lemma {:induction false} StepKeepsInStep(p: Program, s: State, step: Step)
    requires Bounds(p, s) && Exclusion(s) && InStep(p, s)
    ensures InStep(p, StepOnce(p, s, step))
  {
  }

  // ---------- The region ----------

  predicate Writing(p: Program, s: State)
    requires Bounds(p, s)
  {
    && (s.spc.LCopy? ==> s.data[..s.spc.at] == ChunkBytes(p.messages, s.spos)[..s.spc.at])
    && (s.spc in {LReceiver, LVm, LSize, LRef} ==>
          && s.data[..Chunk(p.messages, s.spos)] == ChunkBytes(p.messages, s.spos)
          && s.key.senderPid == p.senderKey.senderPid)
    && (s.spc in {LVm, LSize, LRef} ==> s.key.receiverVm == p.senderKey.receiverVm)
    && (s.spc in {LSize, LRef} ==> s.key == p.senderKey)
    && (s.spc == LRef ==> s.dataSize == Chunk(p.messages, s.spos))
  }

  predicate Ready(p: Program, s: State)
    requires Bounds(p, s)
  {
    s.refCount == 1 && s.rpos.message < |p.messages| ==>
      && s.data[..Chunk(p.messages, s.rpos)] == ChunkBytes(p.messages, s.rpos)
      && s.key == p.senderKey && s.dataSize == Chunk(p.messages, s.rpos)
  }

  lemma {:induction false} SenderKeepsWriting(p: Program, s: State)
    requires Bounds(p, s) && Writing(p, s)
    ensures Writing(p, SenderStep(p, s))
  {
    if s.spc.LCopy? && s.spc.at < Chunk(p.messages, s.spos) {
      var bytes, at, t := ChunkBytes(p.messages, s.spos), s.spc.at, SenderStep(p, s);
      assert t.data[..at + 1] == s.data[..at] + [bytes[at]];
    }
  }

  lemma {:induction false} SenderKeepsReady(p: Program, s: State)
    requires Bounds(p, s) && Exclusion(s) && InStep(p, s) && Writing(p, s) && Ready(p, s)
    ensures Ready(p, SenderStep(p, s))
  {
  }

  lemma {:induction false} ReceiverKeepsRegion(p: Program, s: State)
    requires Bounds(p, s) && Exclusion(s) && Writing(p, s) && Ready(p, s)
    ensures Writing(p, ReceiverStep(p, s)) && Ready(p, ReceiverStep(p, s))
  {
    var t := ReceiverStep(p, s);
    assert t.spc == s.spc && t.spos == s.spos && t.data == s.data && t.key == s.key && t.dataSize == s.dataSize;
  }

  // ---------- The receive buffers ----------

  predicate Buffered(p: Program, s: State)
    requires Bounds(p, s)
  {
    && (forall i :: 0 <= i < |p.messages| && i < s.rpos.message ==> s.buffers[i] == p.messages[i])
    && (forall i :: s.rpos.message < i < |p.messages| ==> s.buffers[i] == [])
    && (s.rpos.message < |p.messages| ==>
          var m := p.messages[s.rpos.message];
          s.buffers[s.rpos.message] ==
            m[..s.rpos.offset + match s.rpc
                                case MCopy(at) => at
                                case MStore(_) => Chunk(p.messages, s.rpos)
                                case _ => 0])
  }

  // Calls skipped have nothing to receive.
  lemma {:induction false} SkipBuffered(messages: seq<Message>, i: nat, offset: nat, buffers: seq<seq<Byte>>)
    requires |buffers| == |messages| && i < |messages| && offset <= |messages[i]|
    requires forall k :: 0 <= k < i ==> buffers[k] == messages[k]
    requires buffers[i] == messages[i][..offset]
    requires forall k :: i < k < |messages| ==> buffers[k] == []
    ensures var pos := Skip(messages, i, offset);
      && (forall k :: 0 <= k < |messages| && k < pos.message ==> buffers[k] == messages[k])
      && (pos.message < |messages| ==> buffers[pos.message] == messages[pos.message][..pos.offset])
      && (forall k :: pos.message < k < |messages| ==> buffers[k] == [])
    decreases |messages| - i
  {
    if offset >= |messages[i]| {
      assert messages[i][..offset] == messages[i];
      if i + 1 < |messages| {
        SkipBuffered(messages, i + 1, 0, buffers);
      }
    }
  }

  lemma {:induction false} ReceiverCopies(p: Program, s: State)
    requires Bounds(p, s) && Exclusion(s) && Ready(p, s) && Buffered(p, s)
    requires s.rpc.MCopy? && s.rpc.at < Chunk(p.messages, s.rpos)
    ensures Buffered(p, ReceiverStep(p, s))
  {
    var m, pos, at := p.messages[s.rpos.message], s.rpos, s.rpc.at;
    assert s.data[at] == s.data[..Chunk(p.messages, pos)][at] == m[pos.offset + at];
    assert m[..pos.offset + at + 1] == m[..pos.offset + at] + [m[pos.offset + at]];
  }

  lemma {:induction false} SenderKeepsBuffered(p: Program, s: State)
    requires Bounds(p, s) && Buffered(p, s)
    ensures Buffered(p, SenderStep(p, s))
  {
    var t := SenderStep(p, s);
    assert t.rpos == s.rpos && t.rpc == s.rpc && t.buffers == s.buffers;
  }

  lemma {:induction false} ReceiverKeepsBuffered(p: Program, s: State)
    requires Bounds(p, s) && Exclusion(s) && Ready(p, s) && Buffered(p, s)
    ensures Buffered(p, ReceiverStep(p, s))
  {
    if s.rpc.MCopy? && s.rpc.at < Chunk(p.messages, s.rpos) {
      ReceiverCopies(p, s);
    } else if s.rpc.MStore? {
      SkipBuffered(p.messages, s.rpos.message, s.rpos.offset + Chunk(p.messages, s.rpos), s.buffers);
    } else {
      var t := ReceiverStep(p, s);
      assert t.rpos == s.rpos && t.buffers == s.buffers;
    }
  }

  // ---------- Whole runs ----------

  predicate Inv(p: Program, s: State) {
    Bounds(p, s) && Exclusion(s) && InStep(p, s) && Writing(p, s) && Ready(p, s) && Buffered(p, s)
  }

  lemma {:induction false} StepKeepsInv(p: Program, s: State, step: Step)
    requires Inv(p, s)
    ensures Inv(p, StepOnce(p, s, step))
  {
    StepKeepsExclusion(p, s, step);
    StepKeepsInStep(p, s, step);
    if step == Sender {
      SenderKeepsBuffered(p, s);
      SenderKeepsWriting(p, s);
      SenderKeepsReady(p, s);
    } else {
      ReceiverKeepsBuffered(p, s);
      ReceiverKeepsRegion(p, s);
    }
  }

  lemma {:induction false} RunKeepsInv(p: Program, s: State, steps: seq<Step>)
    requires Inv(p, s)
    ensures Inv(p, Run(p, s, steps))
    decreases |steps|
  {
    if steps != [] {
      StepKeepsInv(p, s, steps[0]);
      RunKeepsInv(p, StepOnce(p, s, steps[0]), steps[1..]);
    }
  }

  lemma {:induction false} InitInv(p: Program, s: State)
    requires Init(p, s)
    ensures Inv(p, s)
  {
    if p.messages != [] {
      SkipBuffered(p.messages, 0, 0, s.buffers);
    }
  }

  /** Safety: under every interleaving the two critical sections never overlap and ref_count is 0
      or 1, although the mutex is tested and set in separate steps; and every message received is
      the message sent, the one in progress as far as it has come, for every size. */
  lemma {:induction false} LockSafe(p: Program, s: State, steps: seq<Step>)
    requires Init(p, s)
    ensures var t := Run(p, s, steps);
      && Inv(p, t)
      && !(SenderHolds(t.spc) && ReceiverHolds(t.rpc))
      && t.refCount in {0, 1}
      && (forall i :: 0 <= i < |p.messages| && i < t.rpos.message ==> t.buffers[i] == p.messages[i])
      && (forall i :: 0 <= i < |p.messages| ==> t.buffers[i] <= p.messages[i])
  {
    InitInv(p, s);
    RunKeepsInv(p, s, steps);
  }
}
