/**
  What every run of requests, creations, rebalances and traffic keeps of the control
  section: the layout of the data section, the early exit of the rebalancer, room for the
  next channel, and the identity of channels.
 */
module TableShape {
  import opened Layout
  import opened ChannelTable

  // ---------- The target page count ----------

  lemma {:induction false} SharesCompare(a: nat, b: nat, x: nat, y: nat)
    requires 0 < a < b && a <= y && b * y < a * (x + 1)
    ensures x > y
  {
    assert (a + 1) * y <= b * y;
    assert a * y < a * x;
    MulCancel(a, x, y);
  }

  /** The share of each channel strictly shrinks with every channel added. */
  lemma {:induction false} TargetDecreases(a: nat, b: nat)
    requires 0 < a < b <= MAX_CHANNELS
    ensures TargetPages(a) > TargetPages(b)
  {
    TargetBounds(a);
    TargetBounds(b);
    SharesCompare(a, b, TargetPages(a), TargetPages(b));
  }

  // ---------- The shape of the table ----------

  // A block of m channels of equal share, then channels of initial size.
  function Pages(i: nat, m: nat): nat
    requires m <= MAX_CHANNELS
  {
    if i < m then TargetPages(m) else 4
  }

  function FirstPage(i: nat, m: nat): nat
    requires m <= MAX_CHANNELS
  {
    if i == 0 then 0 else FirstPage(i - 1, m) + Pages(i - 1, m)
  }

  predicate EntryShaped(e: Entry, i: nat, m: nat)
    requires m <= MAX_CHANNELS
  {
    && e.id == i + 1
    && e.numPage == Pages(i, m) && e.bufSize == e.numPage * PAGE
    && e.bufOffset == FirstPage(i, m) * PAGE
    && e.head < e.numPage && e.tail < e.numPage
    && e.headTouch == 0
  }

  predicate Shaped(t: Table, m: nat) {
    && Sized(t) && m <= t.numActive
    && t.lastId == t.numActive + 1
    && t.freeStart == FirstPage(t.numActive, m) * PAGE <= DATA_SIZE
    && (forall i :: 0 <= i < t.numActive ==> EntryShaped(t.entries[i], i, m))
    && (forall i :: t.numActive <= i < MAX_CHANNELS ==> t.entries[i] == ZERO)
  }

  lemma {:induction false} FirstPageBlock(i: nat, m: nat)
    requires 0 < m <= MAX_CHANNELS && i <= m
    ensures FirstPage(i, m) == i * TargetPages(m)
  {
    if i > 0 {
      FirstPageBlock(i - 1, m);
      assert (i - 1) * TargetPages(m) + TargetPages(m) == i * TargetPages(m);
    }
  }

  lemma {:induction false} CreateShaped(t: Table, key: Key, m: nat)
    requires Shaped(t, m)
    ensures Shaped(Create(t, key), m)
  {
  }

  // The offset a repack gives slot i.
  lemma {:induction false} RepackOffset(i: nat, n: nat)
    requires 0 < n <= MAX_CHANNELS && i <= n
    ensures i * (TargetPages(n) * PAGE) == FirstPage(i, n) * PAGE
  {
    FirstPageBlock(i, n);
    MulAssoc(i, TargetPages(n), PAGE);
  }

  lemma ModRange(x: nat, n: nat)
    requires n > 0
    ensures x % n < n && (x < n ==> x % n == x)
  {
  }

  lemma {:induction false} RepackEntryShaped(e: Entry, i: nat, m: nat, n: nat)
    requires m <= MAX_CHANNELS && EntryShaped(e, i, m) && i < n <= MAX_CHANNELS && TargetPages(n) > 0
    ensures EntryShaped(RepackEntry(e, i, TargetPages(n)), i, n)
    ensures m == n ==> RepackEntry(e, i, TargetPages(n)) == e
  {
    var pages := TargetPages(n);
    RepackOffset(i, n);
    ModRange(e.head, pages);
    ModRange(e.tail, pages);
    var e' := RepackEntry(e, i, pages);
    assert e'.head < pages && e'.tail < pages && e'.numPage == pages;
    assert e'.bufOffset == FirstPage(i, n) * PAGE && e'.bufSize == pages * PAGE;
  }

  lemma {:induction false} RepackShaped(t: Table, m: nat)
    requires Shaped(t, m) && t.numActive > 0
    ensures Shaped(Repack(t), t.numActive)
  {
    var n, t' := t.numActive, Repack(t);
    TargetBounds(n);
    RepackOffset(n, n);
    FirstPageBlock(n, n);
    forall i | 0 <= i < n ensures EntryShaped(t'.entries[i], i, n) {
      RepackEntryShaped(t.entries[i], i, m, n);
    }
  }

  // Every active channel already has the size and the offset a repack would give it.
  predicate AtTarget(t: Table)
    requires Sized(t) && t.numActive > 0
  {
    forall i :: 0 <= i < t.numActive ==>
      && t.entries[i].bufSize == TargetPages(t.numActive) * PAGE
      && t.entries[i].bufOffset == i * (TargetPages(t.numActive) * PAGE)
  }

  lemma {:induction false} BlockAtTarget(t: Table)
    requires t.numActive > 0 && Shaped(t, t.numActive)
    ensures AtTarget(t)
  {
    var n := t.numActive;
    forall i | 0 <= i < n
      ensures t.entries[i].bufSize == TargetPages(n) * PAGE && t.entries[i].bufOffset == i * (TargetPages(n) * PAGE)
    {
      assert EntryShaped(t.entries[i], i, n);
      RepackOffset(i, n);
    }
  }

  /** The early exit is exact: looking only at channels[0] tells whether every active channel
      is at its target, that is, whether no channel was added since the last repack. */
  lemma {:induction false} EarlyExitExact(t: Table, m: nat)
    requires Shaped(t, m) && t.numActive > 0
    ensures TargetPages(t.numActive) * PAGE == t.entries[0].bufSize <==> AtTarget(t)
    ensures AtTarget(t) <==> m == t.numActive
  {
    var n := t.numActive;
    TargetBounds(n);
    assert EntryShaped(t.entries[0], 0, m);
    if m == n {
      BlockAtTarget(t);
    } else {
      if m > 0 {
        TargetDecreases(m, n);
      }
      assert t.entries[0].bufSize != TargetPages(n) * PAGE;
    }
  }

  /** So the rebalancer does exactly what it would do without the early exit. */
  lemma {:induction false} RebalanceIsRepack(t: Table, m: nat)
    requires Shaped(t, m) && t.numActive > 0
    ensures Rebalance(t, true) == Repack(t)
  {
    EarlyExitExact(t, m);
    if m == t.numActive {
      var n := t.numActive;
      TargetBounds(n);
      forall i | 0 <= i < n ensures Repack(t).entries[i] == t.entries[i] {
        RepackEntryShaped(t.entries[i], i, n, n);
      }
      assert Repack(t).entries == t.entries;
      RepackOffset(n, n);
    }
  }

  // ---------- Every run keeps a shape ----------

  ghost predicate HasShape(t: Table) {
    exists m :: Shaped(t, m)
  }

  lemma {:induction false} RebalanceKeepsShape(t: Table, mallocOk: bool)
    requires HasShape(t)
    ensures HasShape(Rebalance(t, mallocOk))
  {
    var m :| Shaped(t, m);
    if t.numActive > 0 && TargetPages(t.numActive) * PAGE != t.entries[0].bufSize && mallocOk {
      RepackShaped(t, m);
    } else {
      assert Shaped(Rebalance(t, mallocOk), m);
    }
  }

  lemma {:induction false} FlagsShaped(t: Table, m: nat, mutex: bool, has: bool, candidate: Key)
    requires Shaped(t, m)
    ensures Shaped(t.(controlMutex := mutex, hasCandidate := has, candidate := candidate), m)
  {
  }

  lemma {:induction false} TransmitShaped(
      t: Table, m: nat, slot: nat, head: nat, tail: nat, dataSize: nat, lastSentAt: nat)
    requires Shaped(t, m)
    ensures Shaped(Transmit(t, slot, head, tail, dataSize, lastSentAt), m)
  {
    var t' := Transmit(t, slot, head, tail, dataSize, lastSentAt);
    forall i | 0 <= i < t'.numActive ensures EntryShaped(t'.entries[i], i, m) {
      assert EntryShaped(t.entries[i], i, m);
    }
  }

  lemma {:induction false} ControlShaped(t: Table, m: nat)
    requires Shaped(t, m)
    ensures Shaped(Control(t), m)
  {
    if t.hasCandidate {
      CreateShaped(t, t.candidate, m);
      var made := Create(t, t.candidate);
      FlagsShaped(made, m, false, false, made.candidate);
      assert Control(t) == made.(controlMutex := false, hasCandidate := false, candidate := made.candidate);
    }
  }

  // Only a rebalance changes the block.
  lemma {:induction false} ApplyShaped(t: Table, m: nat, op: Op)
    requires Shaped(t, m) && !op.DoRebalance?
    ensures Shaped(Apply(t, op), m)
  {
    match op
    case Flag => FlagsShaped(t, m, t.controlMutex, true, t.candidate);
    case Store(key) => FlagsShaped(t, m, t.controlMutex, t.hasCandidate, key);
    case Serve => ControlShaped(t, m);
    case Make =>
      if t.hasCandidate {
        CreateShaped(t, t.candidate, m);
        FlagsShaped(Create(t, t.candidate), m, true, true, t.candidate);
      }
    case Clear => FlagsShaped(t, m, false, false, t.candidate);
    case DoCreate(key) => CreateShaped(t, key, m);
    case DoFindOrCreate(key) => CreateShaped(t, key, m);
    case Traffic(slot, head, tail, dataSize, lastSentAt) =>
      TransmitShaped(t, m, slot, head, tail, dataSize, lastSentAt);
  }

  lemma {:induction false} RunKeepsShape(t: Table, ops: seq<Op>)
    requires HasShape(t)
    ensures HasShape(RunOps(t, ops))
  {
    if ops != [] {
      var n := |ops| - 1;
      RunKeepsShape(t, ops[..n]);
      var before := RunOps(t, ops[..n]);
      if ops[n].DoRebalance? {
        RebalanceKeepsShape(before, ops[n].mallocOk);
      } else {
        var m :| Shaped(before, m);
        ApplyShaped(before, m, ops[n]);
      }
    }
  }

  lemma {:induction false} InitHasShape(candidate: Key)
    ensures HasShape(InitTable(candidate))
  {
    assert Shaped(InitTable(candidate), 0);
  }

  // ---------- What the shape says about the data section ----------

  // The region is whole pages, starts where the one before it ends, and holds its indices.
  predicate RegionOk(t: Table, i: nat)
    requires Sized(t) && i < t.numActive
  {
    var e := t.entries[i];
    && e.bufSize == e.numPage * PAGE && e.numPage >= 4 && e.head < e.numPage && e.tail < e.numPage
    && e.bufOffset % PAGE == 0
    && (i == 0 ==> e.bufOffset == 0)
    && e.bufOffset + e.bufSize == (if i + 1 < t.numActive then t.entries[i + 1].bufOffset else t.freeStart)
  }

  // Regions are contiguous from 0, pairwise disjoint, and end at freeStart inside the data section.
  predicate LaidOut(t: Table)
    requires Sized(t)
  {
    && (t.numActive == 0 ==> t.freeStart == 0)
    && t.freeStart <= DATA_SIZE
    && (forall i :: 0 <= i < t.numActive ==> RegionOk(t, i))
    && (forall i, j :: 0 <= i < j < t.numActive ==>
          t.entries[i].bufOffset + t.entries[i].bufSize <= t.entries[j].bufOffset)
  }

  lemma {:induction false} FirstPageGrows(i: nat, j: nat, m: nat)
    requires i < j && m <= MAX_CHANNELS
    ensures FirstPage(i, m) + Pages(i, m) <= FirstPage(j, m)
    decreases j
  {
    if i + 1 < j {
      FirstPageGrows(i, j - 1, m);
    }
  }

  lemma {:induction false} PagesEnough(i: nat, m: nat)
    requires m <= MAX_CHANNELS
    ensures Pages(i, m) >= 4
  {
    if i < m {
      TargetBounds(m);
    }
  }

  lemma PageMultiple(first: nat, pages: nat)
    ensures first * PAGE % PAGE == 0 && first * PAGE + pages * PAGE == (first + pages) * PAGE
  {
  }

  lemma {:induction false} ShapedRegion(t: Table, m: nat, i: nat)
    requires Shaped(t, m) && i < t.numActive
    ensures RegionOk(t, i)
  {
    assert EntryShaped(t.entries[i], i, m);
    assert FirstPage(i + 1, m) == FirstPage(i, m) + Pages(i, m);
    PagesEnough(i, m);
    PageMultiple(FirstPage(i, m), Pages(i, m));
    if i + 1 < t.numActive {
      assert EntryShaped(t.entries[i + 1], i + 1, m);
    }
  }

  lemma {:induction false} ShapedDisjoint(t: Table, m: nat, i: nat, j: nat)
    requires Shaped(t, m) && i < j < t.numActive
    ensures t.entries[i].bufOffset + t.entries[i].bufSize <= t.entries[j].bufOffset
  {
    assert EntryShaped(t.entries[i], i, m) && EntryShaped(t.entries[j], j, m);
    FirstPageGrows(i, j, m);
  }

  lemma {:induction false} ShapedLaidOut(t: Table, m: nat)
    requires Shaped(t, m)
    ensures LaidOut(t)
  {
    forall i | 0 <= i < t.numActive ensures RegionOk(t, i) {
      ShapedRegion(t, m, i);
    }
    forall i, j | 0 <= i < j < t.numActive
      ensures t.entries[i].bufOffset + t.entries[i].bufSize <= t.entries[j].bufOffset
    {
      ShapedDisjoint(t, m, i, j);
    }
  }

  /** Layout: after every run from initialisation, the regions of the active channels are
      disjoint, contiguous, whole pages, inside the data section and end at freeStart. */
  lemma {:induction false} RunsLaidOut(candidate: Key, ops: seq<Op>)
    ensures var t := RunOps(InitTable(candidate), ops); HasShape(t) && LaidOut(t)
  {
    InitHasShape(candidate);
    RunKeepsShape(InitTable(candidate), ops);
    var t := RunOps(InitTable(candidate), ops);
    var m :| Shaped(t, m);
    ShapedLaidOut(t, m);
  }

  lemma {:induction false} RoomAtTarget(t: Table)
    requires Shaped(t, t.numActive) && t.numActive < MAX_CHANNELS
    ensures CanCreate(t)
  {
    if t.numActive > 0 {
      RepackOffset(t.numActive, t.numActive);
      FirstPageBlock(t.numActive, t.numActive);
      TargetBounds(t.numActive);
    }
  }

  /** When a creation is refused: exactly if there are 32 channels or fewer than four whole pages of the
      data section are left. */
  lemma {:induction false} RoomExactly(t: Table, m: nat)
    requires Shaped(t, m)
    ensures CanCreate(t) <==> t.numActive < 32 && DATA_SIZE / PAGE - t.freeStart / PAGE >= 4
  {
  }

  /** Room: after every rebalance that does not fail, by early exit or by repack, there is room
      for one more channel while the table is not full. */
  lemma {:induction false} CreateAfterRebalance(t: Table, m: nat)
    requires Shaped(t, m) && t.numActive < MAX_CHANNELS
    ensures CanCreate(Rebalance(t, true))
  {
    if t.numActive > 0 {
      RebalanceIsRepack(t, m);
      RepackShaped(t, m);
      RoomAtTarget(Repack(t));
    }
  }

  /** The rebalancer after every run from initialisation: the test of channels[0] is exact, the
      result is that of an unconditional repack, and there is room for one more channel while the
      table is not full. */
  lemma {:induction false} RunsRebalance(candidate: Key, ops: seq<Op>)
    ensures var t := RunOps(InitTable(candidate), ops);
      && (t.numActive > 0 ==>
            && (TargetPages(t.numActive) * PAGE == t.entries[0].bufSize <==> AtTarget(t))
            && Rebalance(t, true) == Repack(t) && AtTarget(Repack(t))
            && TargetPages(t.numActive) >= 31)
      && (t.numActive < MAX_CHANNELS ==> CanCreate(Rebalance(t, true)))
  {
    RunsLaidOut(candidate, ops);
    var t := RunOps(InitTable(candidate), ops);
    var m :| Shaped(t, m);
    if t.numActive > 0 {
      EarlyExitExact(t, m);
      RebalanceIsRepack(t, m);
      RepackShaped(t, m);
      BlockAtTarget(Repack(t));
      TargetBounds(t.numActive);
    }
    if t.numActive < MAX_CHANNELS {
      CreateAfterRebalance(t, m);
    }
  }
}
