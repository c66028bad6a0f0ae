/**
  The control section: channel lookup and requests, and the trusted side's creation and
  rebalancing of channels.  `Table` is its value; the functions on it specify the methods
  of class `ControlSection`, which update the section in place as the C code does.
 */
module ChannelTable {
  import opened Layout

  datatype Key = Key(senderVm: nat, senderPid: nat, receiverVm: nat)

  // struct IvshmemChannel; offsets and sizes in bytes.
  datatype Entry = Entry(id: nat, key: Key, bufOffset: nat, bufSize: nat, dataSize: nat,
                         tail: nat, head: nat, numPage: nat, headTouch: nat, lastSentAt: nat)

  const ZERO: Entry := Entry(0, Key(0, 0, 0), 0, 0, 0, 0, 0, 0, 0, 0)

  datatype Table = Table(freeStart: nat, numActive: nat, lastId: nat, entries: seq<Entry>,
                         controlMutex: bool, hasCandidate: bool, candidate: Key)

  predicate Sized(t: Table) {
    |t.entries| == MAX_CHANNELS && t.numActive <= MAX_CHANNELS
  }

  function InitTable(candidate: Key): (t: Table)
    ensures Sized(t)
  {
    Table(0, 0, 1, seq(MAX_CHANNELS, i => ZERO), false, false, candidate)
  }

  // ---------- Lookup ----------

  // A wanted sender_pid of 0 accepts any sender process.
  predicate Matches(channel: Key, wanted: Key) {
    && channel.senderVm == wanted.senderVm
    && (wanted.senderPid == 0 || channel.senderPid == wanted.senderPid)
    && channel.receiverVm == wanted.receiverVm
  }

  // The first matching slot from i on.
  function FindFrom(t: Table, key: Key, i: nat): (r: Option<nat>)
    requires Sized(t) && i <= t.numActive
    ensures r.Some? ==> i <= r.value < t.numActive && Matches(t.entries[r.value].key, key)
    ensures forall j :: i <= j < (if r.Some? then r.value else t.numActive) ==> !Matches(t.entries[j].key, key)
    decreases t.numActive - i
  {
    if i == t.numActive then None
    else if Matches(t.entries[i].key, key) then Some(i)
    else FindFrom(t, key, i + 1)
  }

  function Find(t: Table, key: Key): (r: Option<nat>)
    requires Sized(t)
  {
    FindFrom(t, key, 0)
  }

  // ---------- Creation ----------

  predicate CanCreate(t: Table) {
    t.numActive < MAX_CHANNELS && t.freeStart + INIT_SIZE <= DATA_SIZE
  }

  function InitEntry(t: Table, key: Key): Entry {
    Entry(t.lastId, key, t.freeStart, INIT_SIZE, 0, 0, 0, INIT_SIZE / PAGE, 0, 0)
  }

  function Create(t: Table, key: Key): (t': Table)
    requires Sized(t)
    ensures Sized(t')
  {
    if CanCreate(t) then
      t.(entries := t.entries[t.numActive := InitEntry(t, key)], lastId := t.lastId + 1,
         freeStart := t.freeStart + INIT_SIZE, numActive := t.numActive + 1)
    else t
  }

  function Control(t: Table): (t': Table)
    requires Sized(t)
    ensures Sized(t')
  {
    if t.hasCandidate then Create(t, t.candidate).(hasCandidate := false, controlMutex := false) else t
  }

  function FindOrCreate(t: Table, key: Key): (t': Table)
    requires Sized(t)
    ensures Sized(t')
  {
    if Find(t, key).Some? then t else Create(t, key)
  }

  // ---------- Rebalancing ----------

  // Pages each of n channels gets: two nested floor divisions.
  function TargetPages(n: nat): nat
    requires n > 0
  {
    (DATA_SIZE - INIT_SIZE - 1) / n / PAGE
  }

  function RepackEntry(e: Entry, i: nat, pages: nat): Entry
    requires pages > 0
  {
    e.(bufOffset := i * (pages * PAGE), bufSize := pages * PAGE, tail := e.tail % pages,
       head := e.head % pages, numPage := pages, headTouch := 0)
  }

  lemma MulMono(n: nat, x: nat, y: nat)
    requires x <= y
    ensures n * x <= n * y
  {
  }

  lemma MulAdd(n: nat, x: nat, y: nat)
    ensures n * (x + y) == n * x + n * y
  {
  }

  lemma MulAssoc(n: nat, x: nat, y: nat)
    ensures n * (x * y) == n * x * y
  {
  }

  lemma MulCancel(n: nat, x: nat, y: nat)
    requires n * x > n * y
    ensures x > y
  {
  }

  // A nested floor division is one floor division by the product.
  lemma {:induction false} NestedFloor(a: nat, n: nat)
    requires 0 < n
    ensures n * (a / n / PAGE) * PAGE <= a < n * (a / n / PAGE + 1) * PAGE
  {
    var q := a / n;
    var pages := q / PAGE;
    assert n * q <= a < n * q + n;
    Distribute(n, pages, q - pages * PAGE);
  }

  lemma Distribute(n: nat, pages: nat, rest: nat)
    requires rest < PAGE
    ensures n * pages * PAGE <= n * (pages * PAGE + rest)
    ensures n * (pages * PAGE + rest) + n <= n * (pages + 1) * PAGE
  {
    MulAdd(n, pages * PAGE, rest);
    MulAssoc(n, pages, PAGE);
    MulAssoc(n, pages + 1, PAGE);
    MulAdd(n, pages * PAGE, PAGE);
    MulAdd(n, rest, 1);
    MulMono(n, rest + 1, PAGE);
  }

  lemma {:induction false} TargetBounds(n: nat)
    requires 0 < n <= MAX_CHANNELS
    ensures n * TargetPages(n) * PAGE <= DATA_SIZE - INIT_SIZE - 1 < n * (TargetPages(n) + 1) * PAGE
    ensures TargetPages(n) >= 31
  {
    NestedFloor(DATA_SIZE - INIT_SIZE - 1, n);
    MulCancel(n, TargetPages(n) + 1, 31);
  }

  // The repack without the early exit.
  function Repack(t: Table): (t': Table)
    requires Sized(t) && t.numActive > 0
    ensures Sized(t')
  {
    TargetBounds(t.numActive);
    var pages := TargetPages(t.numActive);
    t.(entries := seq(MAX_CHANNELS, i requires 0 <= i < MAX_CHANNELS =>
                        if i < t.numActive then RepackEntry(t.entries[i], i, pages) else ZERO),
       freeStart := t.numActive * (pages * PAGE), controlMutex := false)
  }

  // mallocOk says whether the temporary array can be allocated; if not, control_mutex stays set.
  function Rebalance(t: Table, mallocOk: bool): (t': Table)
    requires Sized(t)
    ensures Sized(t')
  {
    if t.numActive == 0 then t
    else if TargetPages(t.numActive) * PAGE == t.entries[0].bufSize then t.(controlMutex := false)
    else if !mallocOk then t.(controlMutex := true)
    else Repack(t)
  }

  // ---------- Runs ----------

  // What the parties do to the section, one after the other.
  datatype Op =
    | Flag                         // a requester sets has_channel_candidate
    | Store(key: Key)              // and stores its key in channel_candidate
    | Serve                        // ivshmem_trusted_control
    | Make                         // the part of it up to the new channel
    | Clear                        // and the part from there on
    | DoCreate(key: Key)
    | DoFindOrCreate(key: Key)
    | DoRebalance(mallocOk: bool)
    | Traffic(slot: nat, head: nat, tail: nat, dataSize: nat, lastSentAt: nat)

  // What others do around the accesses of a requester, when nobody else asks for or makes a channel.
  type Meanwhile = op: Op | op.DoRebalance? || op.Traffic? || op.Serve? witness DoRebalance(true)

  function Made(t: Table): (t': Table)
    requires Sized(t)
    ensures Sized(t')
  {
    if t.hasCandidate then Create(t, t.candidate).(controlMutex := true) else t
  }

  function Cleared(t: Table): Table {
    t.(hasCandidate := false, controlMutex := false)
  }

  // Sends and receives move a channel's indices, within its pages.
  function Transmit(t: Table, slot: nat, head: nat, tail: nat, dataSize: nat, lastSentAt: nat): (t': Table)
    requires Sized(t)
    ensures Sized(t')
  {
    if slot < t.numActive && head < t.entries[slot].numPage && tail < t.entries[slot].numPage then
      var e := t.entries[slot].(head := head, tail := tail, dataSize := dataSize, lastSentAt := lastSentAt);
      t.(entries := t.entries[slot := e])
    else t
  }

  function Apply(t: Table, op: Op): (t': Table)
    requires Sized(t)
    ensures Sized(t')
  {
    match op
    case Flag => t.(hasCandidate := true)
    case Store(key) => t.(candidate := key)
    case Serve => Control(t)
    case Make => Made(t)
    case Clear => Cleared(t)
    case DoCreate(key) => Create(t, key)
    case DoFindOrCreate(key) => FindOrCreate(t, key)
    case DoRebalance(mallocOk) => Rebalance(t, mallocOk)
    case Traffic(slot, head, tail, dataSize, lastSentAt) => Transmit(t, slot, head, tail, dataSize, lastSentAt)
  }

  function RunOps(t: Table, ops: seq<Op>): (t': Table)
    requires Sized(t)
    ensures Sized(t')
  {
    if ops == [] then t else Apply(RunOps(t, ops[..|ops| - 1]), ops[|ops| - 1])
  }

  // ivshmem_request_channel: `looked` is what others do between the lookup and the store of the flag,
  // `flagged` between that and the store of the key, `waiting` until the caller sees the flag cleared;
  // the trusted side serves it at the latest then.
  function Request(t: Table, key: Key, looked: seq<Meanwhile>, flagged: seq<Meanwhile>, waiting: seq<Meanwhile>):
    (t': Table)
    requires Sized(t)
    ensures Sized(t')
  {
    if Find(t, key).Some? then t
    else Control(RunOps(Asked(t, key, looked, flagged), waiting))
  }

  function Flagged(t: Table, looked: seq<Meanwhile>): (t': Table)
    requires Sized(t)
    ensures Sized(t')
  {
    RunOps(t, looked).(hasCandidate := true)
  }

  // Both stores done.
  function Asked(t: Table, key: Key, looked: seq<Meanwhile>, flagged: seq<Meanwhile>): (t': Table)
    requires Sized(t)
    ensures Sized(t')
  {
    RunOps(Flagged(t, looked), flagged).(candidate := key)
  }

  class ControlSection {
    var freeStartOffset: nat
    var numActiveChannels: nat
    var lastChannelId: nat
    const channels: array<Entry>
    var controlMutex: bool
    var hasChannelCandidate: bool
    var channelCandidate: Key

    ghost predicate Valid()
      reads this
    {
      channels.Length == MAX_CHANNELS && numActiveChannels <= MAX_CHANNELS
    }

    ghost function View(): (t: Table)
      reads this, channels
    {
      Table(freeStartOffset, numActiveChannels, lastChannelId, channels[..],
            controlMutex, hasChannelCandidate, channelCandidate)
    }

    // `candidate` is what the candidate's memory holds; it is not initialised.
    constructor Init(candidate: Key, data: array<Byte>)
      requires data.Length == DATA_SIZE
      modifies data
      ensures Valid() && fresh(channels) && View() == InitTable(candidate)
      ensures forall k :: 0 <= k < data.Length ==> data[k] == 0
    {
      freeStartOffset, numActiveChannels, lastChannelId := 0, 0, 1;
      controlMutex, hasChannelCandidate, channelCandidate := false, false, candidate;
      channels := new Entry[MAX_CHANNELS](i => ZERO);
      new;
      forall k | 0 <= k < data.Length {
        data[k] := 0;
      }
    }

    method FindChannel(key: Key) returns (r: Option<nat>)
      requires Valid()
      ensures r == Find(View(), key)
      ensures r.Some? ==>
        && r.value < numActiveChannels
        && channels[r.value].key.senderVm == key.senderVm && channels[r.value].key.receiverVm == key.receiverVm
        && (key.senderPid != 0 ==> channels[r.value].key.senderPid == key.senderPid)
      ensures forall j :: 0 <= j < (if r.Some? then r.value else numActiveChannels) ==>
        || channels[j].key.senderVm != key.senderVm || channels[j].key.receiverVm != key.receiverVm
        || (key.senderPid != 0 && channels[j].key.senderPid != key.senderPid)
    {
      var i := 0;
      while i < numActiveChannels
        invariant i <= numActiveChannels
        invariant Find(View(), key) == FindFrom(View(), key, i)
      {
        if Matches(channels[i].key, key) {
          return Some(i);
        }
        i := i + 1;
      }
      return None;
    }

    method InitChannel(slot: nat, key: Key)
      requires Valid() && slot < MAX_CHANNELS
      modifies channels
      ensures View() == old(View()).(entries := old(channels[..])[slot := InitEntry(old(View()), key)])
    {
      channels[slot] := Entry(lastChannelId, key, freeStartOffset, INIT_SIZE, 0, 0, 0, INIT_SIZE / PAGE, 0, 0);
    }

    method CreateChannel(key: Key) returns (ret: int)
      requires Valid()
      modifies this, channels
      ensures Valid() && View() == Create(old(View()), key)
      ensures ret == if CanCreate(old(View())) then 0 else -1
    {
      if numActiveChannels >= MAX_CHANNELS {
        return -1;
      }
      if freeStartOffset + INIT_SIZE > DATA_SIZE {
        return -1;
      }
      InitChannel(numActiveChannels, key);
      lastChannelId := lastChannelId + 1;
      freeStartOffset := freeStartOffset + INIT_SIZE;
      numActiveChannels := numActiveChannels + 1;
      return 0;
    }

    method TrustedControl() returns (ret: int)
      requires Valid()
      modifies this, channels
      ensures Valid() && View() == Control(old(View()))
      ensures ret == if old(hasChannelCandidate) && !CanCreate(old(View())) then -1 else 0
    {
      if !hasChannelCandidate {
        return 0;
      }
      controlMutex := true;
      ret := CreateChannel(channelCandidate);
      hasChannelCandidate := false;
      controlMutex := false;
    }

    method TrustedRebalancing(mallocOk: bool) returns (ret: int)
      requires Valid()
      modifies this, channels
      ensures Valid() && View() == Rebalance(old(View()), mallocOk)
      ensures ret == if old(numActiveChannels) > 0 && !mallocOk &&
                        TargetPages(old(numActiveChannels)) * PAGE != old(channels[0].bufSize) then -1 else 0
    {
      if numActiveChannels <= 0 {
        return 0;
      }
      controlMutex := true;
      var bufSize := (DATA_SIZE - INIT_SIZE - 1) / numActiveChannels;
      var numPage := bufSize / PAGE;
      bufSize := numPage * PAGE;
      if bufSize == channels[0].bufSize {
        controlMutex := false;
        return 0;
      }
      if !mallocOk {
        return -1;
      }
      TargetBounds(numActiveChannels);
      Relocate(numPage);
      controlMutex := false;
      return 0;
    }

    // The part of the rebalancing that moves the channels, with its temporary copy of them.
    method Relocate(numPage: nat)
      requires Valid() && numPage > 0
      modifies this`freeStartOffset, this`numActiveChannels, channels
      ensures Valid() && numActiveChannels == old(numActiveChannels)
      ensures freeStartOffset == numActiveChannels * (numPage * PAGE)
      ensures forall i :: 0 <= i < MAX_CHANNELS ==>
                channels[i] == if i < numActiveChannels then RepackEntry(old(channels[i]), i, numPage) else ZERO
    {
      var bufSize := numPage * PAGE;
      var saved := channels[..numActiveChannels];
      freeStartOffset := 0;
      var cnt := 0;
      while cnt < numActiveChannels
        invariant cnt <= numActiveChannels == old(numActiveChannels) <= MAX_CHANNELS
        invariant freeStartOffset == cnt * bufSize
        invariant saved == old(channels[..])[..numActiveChannels]
        invariant forall i :: 0 <= i < cnt ==> channels[i] == RepackEntry(saved[i], i, numPage)
      {
        channels[cnt] := saved[cnt].(
          bufOffset := freeStartOffset, bufSize := bufSize, tail := saved[cnt].tail % numPage,
          head := saved[cnt].head % numPage, numPage := numPage, headTouch := 0);
        freeStartOffset := freeStartOffset + bufSize;
        cnt := cnt + 1;
      }
      numActiveChannels := cnt;
      forall i | cnt <= i < MAX_CHANNELS {
        channels[i] := ZERO;
      }
    }

    method FindOrCreateChannel(key: Key) returns (r: Option<nat>)
      requires Valid()
      modifies this, channels
      ensures Valid() && View() == FindOrCreate(old(View()), key)
      ensures old(Find(View(), key)).Some? ==> r == old(Find(View(), key))
      ensures old(Find(View(), key)).None? ==>
        r == if old(CanCreate(View())) then Some(old(numActiveChannels)) else None
    {
      r := FindChannel(key);
      if r.Some? {
        return;
      }
      var ret := CreateChannel(key);
      r := if ret != 0 then None else Some(numActiveChannels - 1);
    }

    // A send or a receive of some channel, as far as the section is concerned.
    method MoveData(slot: nat, head: nat, tail: nat, dataSize: nat, lastSentAt: nat)
      requires Valid()
      modifies channels
      ensures View() == Transmit(old(View()), slot, head, tail, dataSize, lastSentAt)
    {
      if slot < numActiveChannels && head < channels[slot].numPage && tail < channels[slot].numPage {
        channels[slot] := channels[slot].(head := head, tail := tail, dataSize := dataSize, lastSentAt := lastSentAt);
      }
    }

    // What others do while a requester is between two of its accesses.
    method Others(ops: seq<Meanwhile>)
      requires Valid()
      modifies this, channels
      ensures Valid() && View() == RunOps(old(View()), ops)
    {
      for i := 0 to |ops|
        invariant Valid() && View() == RunOps(old(View()), ops[..i])
      {
        assert ops[..i + 1][..i] == ops[..i];
        match ops[i]
        case DoRebalance(mallocOk) =>
          var _ := TrustedRebalancing(mallocOk);
        case Traffic(slot, head, tail, dataSize, lastSentAt) =>
          MoveData(slot, head, tail, dataSize, lastSentAt);
        case Serve =>
          var _ := TrustedControl();
      }
      assert ops[..|ops|] == ops;
    }

    method RequestChannel(key: Key, looked: seq<Meanwhile>, flagged: seq<Meanwhile>, waiting: seq<Meanwhile>)
      returns (r: Option<nat>)
      requires Valid()
      modifies this, channels
      ensures Valid() && View() == Request(old(View()), key, looked, flagged, waiting)
      ensures r == Find(View(), key)
    {
      r := FindChannel(key);
      if r.Some? {
        return;
      }
      Others(looked);
      hasChannelCandidate := true;
      Others(flagged);
      channelCandidate := key;
      Others(waiting);
      if hasChannelCandidate {
        var _ := TrustedControl();
      }
      r := FindChannel(key);
    }
  }
}
