/**
  Channels keep their slot, id and key for ever; when a request is granted, and when it makes a
  second channel with one key.
 */
module TableKeys {
  import opened Layout
  import opened ChannelTable
  import opened TableShape

  // Every channel of t is still in t', in the same slot, with the same id and key.
  predicate Extends(t: Table, t': Table) {
    && Sized(t) && Sized(t') && t.numActive <= t'.numActive
    && forall i :: 0 <= i < t.numActive ==> t'.entries[i].id == t.entries[i].id && t'.entries[i].key == t.entries[i].key
  }

  // Rebalancing leaves everything but place and indices alone.
  lemma {:induction false} RebalanceExtends(t: Table, mallocOk: bool)
    requires Sized(t)
    ensures var t' := Rebalance(t, mallocOk);
      && Extends(t, t') && t'.numActive == t.numActive && t'.lastId == t.lastId
      && t'.hasCandidate == t.hasCandidate && t'.candidate == t.candidate
      && forall i :: 0 <= i < t.numActive ==>
           t'.entries[i].dataSize == t.entries[i].dataSize && t'.entries[i].lastSentAt == t.entries[i].lastSentAt
  {
  }

  // ---------- Which channels a step adds ----------

  // The key of the channel the step makes, if it makes one.
  function Adds(t: Table, op: Op): Option<Key>
    requires Sized(t)
  {
    if !CanCreate(t) then None
    else match op
         case Serve => if t.hasCandidate then Some(t.candidate) else None
         case Make => if t.hasCandidate then Some(t.candidate) else None
         case DoCreate(key) => Some(key)
         case DoFindOrCreate(key) => if Find(t, key).None? then Some(key) else None
         case _ => None
  }

  lemma {:induction false} ApplyAdds(t: Table, op: Op)
    requires Sized(t)
    ensures var t', made := Apply(t, op), Adds(t, op);
      && Extends(t, t')
      && t'.numActive == t.numActive + (if made.Some? then 1 else 0)
      && (made.Some? ==> t'.entries[t.numActive].key == made.value)
  {
    if op.DoRebalance? {
      RebalanceExtends(t, op.mallocOk);
    }
  }

  /** What an operation leaves alone: a channel it makes is empty and has never sent; one that makes none
      changes no channel's indices unless it rebalances or is that channel's traffic; and only the
      accesses of requesters and services change the pending request. */
  lemma {:induction false} ApplyLeaves(t: Table, op: Op)
    requires Sized(t)
    ensures var t' := Apply(t, op);
      && (Adds(t, op).Some? ==>
            var e := t'.entries[t.numActive];
            e.head == e.tail == e.dataSize == e.headTouch == e.lastSentAt == 0)
      && (!op.DoRebalance? && !op.Traffic? ==> forall i :: 0 <= i < t.numActive ==> t'.entries[i] == t.entries[i])
      && (op.Traffic? ==> forall i :: 0 <= i < t.numActive && i != op.slot ==> t'.entries[i] == t.entries[i])
      && (op.Traffic? && op.slot < t.numActive && t'.entries[op.slot] != t.entries[op.slot] ==>
            var e := t'.entries[op.slot];
            (e.head, e.tail, e.dataSize, e.lastSentAt) == (op.head, op.tail, op.dataSize, op.lastSentAt))
      && t'.candidate == (if op.Store? then op.key else t.candidate)
      && t'.hasCandidate == (if op.Flag? then true else if op.Serve? || op.Clear? then false else t.hasCandidate)
      && t'.lastId == t.lastId + (if Adds(t, op).Some? then 1 else 0)
  {
    if op.DoRebalance? {
      RebalanceExtends(t, op.mallocOk);
    }
  }

  lemma {:induction false} RunExtends(t: Table, ops: seq<Op>)
    requires Sized(t)
    ensures Extends(t, RunOps(t, ops))
  {
    if ops != [] {
      RunExtends(t, ops[..|ops| - 1]);
      ApplyAdds(RunOps(t, ops[..|ops| - 1]), ops[|ops| - 1]);
    }
  }

  lemma {:induction false} FindIsFirst(t: Table, key: Key, slot: nat)
    requires Sized(t)
    ensures Find(t, key) == Some(slot) <==>
      && slot < t.numActive && Matches(t.entries[slot].key, key)
      && forall j :: 0 <= j < slot ==> !Matches(t.entries[j].key, key)
  {
    var r := FindFrom(t, key, 0);
    assert r.Some? ==> Matches(t.entries[r.value].key, key);
  }

  // The channel's key is the wanted one, up to the sender_pid if that is 0.
  predicate SameKey(channel: Key, wanted: Key) {
    if wanted.senderPid == 0 then channel.(senderPid := 0) == wanted else channel == wanted
  }

  /** The lookup, in terms of the keys themselves: the slot found is the first active one whose key is
      the wanted key, or, for a wanted sender_pid of 0, whose sender_vm and receiver_vm are; none is
      found if and only if there is none. */
  lemma {:induction false} FindFields(t: Table, key: Key)
    requires Sized(t)
    ensures match Find(t, key)
      case Some(slot) =>
        && slot < t.numActive && SameKey(t.entries[slot].key, key)
        && forall j :: 0 <= j < slot ==> !SameKey(t.entries[j].key, key)
      case None => forall j :: 0 <= j < t.numActive ==> !SameKey(t.entries[j].key, key)
  {
    var r := FindFrom(t, key, 0);
    assert forall k: Key :: Matches(k, key) <==> SameKey(k, key);
    assert forall j :: 0 <= j < (if r.Some? then r.value else t.numActive) ==> !Matches(t.entries[j].key, key);
  }

  /** Handle stability: a channel pointer obtained by a lookup denotes the same channel, with the
      same id (slot + 1) and key, after any further run, and the lookup goes on yielding it. */
  lemma {:induction false} HandleStable(candidate: Key, before: seq<Op>, key: Key, after: seq<Op>)
    ensures var t := RunOps(InitTable(candidate), before);
      var t' := RunOps(t, after);
      Find(t, key).Some? ==>
        var slot := Find(t, key).value;
        && Find(t', key) == Some(slot)
        && slot < t'.numActive && t'.entries[slot].id == slot + 1
        && t'.entries[slot].key == t.entries[slot].key && Matches(t'.entries[slot].key, key)
  {
    var t := RunOps(InitTable(candidate), before);
    var t' := RunOps(t, after);
    RunExtends(t, after);
    RunsLaidOut(candidate, before);
    if Find(t, key).Some? {
      var slot := Find(t, key).value;
      FindIsFirst(t, key, slot);
      FindIsFirst(t', key, slot);
      var m :| Shaped(t, m);
      assert EntryShaped(t.entries[slot], slot, m);
    }
  }

  // ---------- One request ----------

  // The table when the candidate is first served, if it is.
  function ServedAt(t: Table, ops: seq<Meanwhile>): Option<Table>
    requires Sized(t)
  {
    if ops == [] then None
    else
      var n := |ops| - 1;
      var before := RunOps(t, ops[..n]);
      match ServedAt(t, ops[..n])
      case Some(served) => Some(served)
      case None => if ops[n].Serve? && before.hasCandidate then Some(before) else None
  }

  // A run of the others adds nothing but the channel of the candidate, at the first service.
  predicate Follows(t: Table, t': Table, served: Option<Table>) {
    && Extends(t, t') && t'.candidate == t.candidate
    && match served
       case None => t'.hasCandidate == t.hasCandidate && t'.numActive == t.numActive
       case Some(v) =>
         && t.hasCandidate && !t'.hasCandidate
         && Sized(v) && v.numActive == t.numActive
         && t'.numActive == t.numActive + (if CanCreate(v) then 1 else 0)
         && (CanCreate(v) ==> t'.entries[t.numActive].key == t.candidate)
  }

  lemma {:induction false} MeanwhileApply(t: Table, op: Meanwhile)
    requires Sized(t)
    ensures var t' := Apply(t, op);
      Follows(t, t', if op.Serve? && t.hasCandidate then Some(t) else None)
  {
    ApplyAdds(t, op);
    if op.DoRebalance? {
      RebalanceExtends(t, op.mallocOk);
    }
  }

  lemma {:induction false} MeanwhileRun(t: Table, ops: seq<Meanwhile>)
    requires Sized(t)
    ensures Follows(t, RunOps(t, ops), ServedAt(t, ops))
    ensures ServedAt(t, ops).Some? <==> t.hasCandidate && Serve in ops
  {
    if ops != [] {
      var n := |ops| - 1;
      MeanwhileRun(t, ops[..n]);
      MeanwhileApply(RunOps(t, ops[..n]), ops[n]);
      assert ops == ops[..n] + [ops[n]];
    }
  }

  // The table when the request is served: early, between the two stores, or after them.
  function Service(t: Table, key: Key, looked: seq<Meanwhile>, flagged: seq<Meanwhile>, waiting: seq<Meanwhile>):
    (v: Table)
    requires Sized(t)
  {
    match ServedAt(Flagged(t, looked), flagged)
    case Some(v) => v
    case None =>
      match ServedAt(Asked(t, key, looked, flagged), waiting)
      case Some(v) => v
      case None => RunOps(Asked(t, key, looked, flagged), waiting)
  }

  // The channel a request makes has its key, unless it is served between its two stores; then it has
  // the key of the candidate before.
  function KeyServed(t: Table, key: Key, flagged: seq<Meanwhile>): Key {
    if Serve in flagged then t.candidate else key
  }

  lemma {:induction false} RequestMakes(
      t: Table, key: Key, looked: seq<Meanwhile>, flagged: seq<Meanwhile>, waiting: seq<Meanwhile>)
    requires Sized(t) && !t.hasCandidate && Find(t, key).None?
    ensures var t', v := Request(t, key, looked, flagged, waiting), Service(t, key, looked, flagged, waiting);
      && Extends(t, t') && !t'.hasCandidate && Sized(v) && v.numActive == t.numActive
      && t'.numActive == t.numActive + (if CanCreate(v) then 1 else 0)
      && (CanCreate(v) ==> t'.entries[t.numActive].key == KeyServed(t, key, flagged))
      && (CanCreate(v) && Serve !in flagged && Serve !in waiting ==>
            !t'.controlMutex && var e := t'.entries[t.numActive]; e.head == e.tail && e.dataSize == 0)
  {
    MeanwhileRun(t, looked);
    MeanwhileRun(Flagged(t, looked), flagged);
    MeanwhileRun(Asked(t, key, looked, flagged), waiting);
    MeanwhileApply(RunOps(Asked(t, key, looked, flagged), waiting), Serve);
  }

  /** Request and grant, exactly: a request that does not overlap another, however the trusted side's
      services fall between its accesses, leaves nothing pending and yields the channel there already
      was; if there was none, it yields one, the new one, if and only if there was room when it was
      served and either the service came after both stores or the previous candidate matches too. */
  lemma {:induction false} RequestGranted(
      t: Table, key: Key, looked: seq<Meanwhile>, flagged: seq<Meanwhile>, waiting: seq<Meanwhile>)
    requires Sized(t) && !t.hasCandidate
    ensures var t', v := Request(t, key, looked, flagged, waiting), Service(t, key, looked, flagged, waiting);
      && !t'.hasCandidate
      && (Find(t, key).Some? ==> t' == t)
      && (Find(t, key).None? ==>
            && (Find(t', key).Some? <==> CanCreate(v) && (Serve in flagged ==> Matches(t.candidate, key)))
            && (Find(t', key).Some? ==> Find(t', key) == Some(t.numActive))
            && t'.numActive == t.numActive + (if CanCreate(v) then 1 else 0)
            && (CanCreate(v) ==> t'.entries[t.numActive].key == KeyServed(t, key, flagged))
            && (CanCreate(v) && Serve !in flagged && Serve !in waiting ==>
                  !t'.controlMutex && var e := t'.entries[t.numActive]; e.head == e.tail && e.dataSize == 0))
  {
    if Find(t, key).None? {
      var t' := Request(t, key, looked, flagged, waiting);
      RequestMakes(t, key, looked, flagged, waiting);
      forall j | 0 <= j < t.numActive ensures !Matches(t'.entries[j].key, key) {
        assert t'.entries[j].key == t.entries[j].key;
      }
      FindIsFirst(t', key, t.numActive);
    }
  }

  // ---------- Room after a rebalance ----------

  // A rebalance that succeeds puts all channels at their target, where they stay until one is added.
  lemma {:induction false} RebalanceReachesTarget(t: Table)
    requires HasShape(t)
    ensures var t' := Rebalance(t, true); Shaped(t', t'.numActive)
  {
    var m :| Shaped(t, m);
    if t.numActive > 0 {
      RebalanceIsRepack(t, m);
      RepackShaped(t, m);
    }
  }

  lemma {:induction false} MeanwhileKeepsTarget(t: Table, op: Meanwhile)
    requires Shaped(t, t.numActive) && (op.Serve? ==> !t.hasCandidate)
    ensures var t' := Apply(t, op); Shaped(t', t'.numActive)
  {
    if op.Traffic? {
      ApplyShaped(t, t.numActive, op);
    } else if op.DoRebalance? && t.numActive > 0 {
      EarlyExitExact(t, t.numActive);
      FlagsShaped(t, t.numActive, false, t.hasCandidate, t.candidate);
    }
  }

  lemma {:induction false} TargetStays(t: Table, ops: seq<Meanwhile>)
    requires HasShape(t) && ServedAt(t, ops).None?
    requires DoRebalance(true) in ops || Shaped(t, t.numActive)
    ensures var t' := RunOps(t, ops); Shaped(t', t'.numActive)
  {
    if ops != [] {
      var n := |ops| - 1;
      assert ops == ops[..n] + [ops[n]];
      if ops[n] == DoRebalance(true) {
        RunKeepsShape(t, ops[..n]);
        RebalanceReachesTarget(RunOps(t, ops[..n]));
      } else {
        TargetStays(t, ops[..n]);
        MeanwhileKeepsTarget(RunOps(t, ops[..n]), ops[n]);
      }
    }
  }

  lemma {:induction false} TargetAtService(t: Table, ops: seq<Meanwhile>)
    requires Shaped(t, t.numActive) && ServedAt(t, ops).Some?
    ensures var v := ServedAt(t, ops).value; Sized(v) && Shaped(v, v.numActive)
  {
    var n := |ops| - 1;
    if ServedAt(t, ops[..n]).Some? {
      TargetAtService(t, ops[..n]);
    } else {
      TargetStays(t, ops[..n]);
    }
  }

  // A rebalance succeeds before the service, as far as the order of the others' steps tells.
  predicate RebalancedBefore(looked: seq<Meanwhile>, flagged: seq<Meanwhile>, waiting: seq<Meanwhile>) {
    || DoRebalance(true) in looked
    || (Serve !in flagged &&
        (DoRebalance(true) in flagged || (Serve !in waiting && DoRebalance(true) in waiting)))
  }

  lemma {:induction false} FlagsKeepTarget(t: Table, mutex: bool, has: bool, candidate: Key)
    requires Shaped(t, t.numActive)
    ensures var t' := t.(controlMutex := mutex, hasCandidate := has, candidate := candidate);
      Shaped(t', t'.numActive)
  {
    FlagsShaped(t, t.numActive, mutex, has, candidate);
  }

  lemma {:induction false} FlaggedShape(t: Table, looked: seq<Meanwhile>)
    requires HasShape(t) && !t.hasCandidate
    ensures var a := Flagged(t, looked);
      HasShape(a) && (DoRebalance(true) in looked ==> Shaped(a, a.numActive))
  {
    var b := RunOps(t, looked);
    MeanwhileRun(t, looked);
    RunKeepsShape(t, looked);
    var m :| Shaped(b, m);
    FlagsShaped(b, m, b.controlMutex, true, b.candidate);
    assert Shaped(Flagged(t, looked), m);
    if DoRebalance(true) in looked {
      TargetStays(t, looked);
      FlagsKeepTarget(b, b.controlMutex, true, b.candidate);
    }
  }

  // Without an early service, the table after both stores.
  lemma {:induction false} AskedShape(t: Table, key: Key, looked: seq<Meanwhile>, flagged: seq<Meanwhile>)
    requires HasShape(t) && !t.hasCandidate && Serve !in flagged
    ensures var a := Asked(t, key, looked, flagged);
      && HasShape(a)
      && (DoRebalance(true) in looked || DoRebalance(true) in flagged ==> Shaped(a, a.numActive))
  {
    var a := Flagged(t, looked);
    var b := RunOps(a, flagged);
    FlaggedShape(t, looked);
    MeanwhileRun(a, flagged);
    RunKeepsShape(a, flagged);
    var m :| Shaped(b, m);
    FlagsShaped(b, m, b.controlMutex, b.hasCandidate, key);
    assert Shaped(Asked(t, key, looked, flagged), m);
    if DoRebalance(true) in looked || DoRebalance(true) in flagged {
      TargetStays(a, flagged);
      FlagsKeepTarget(b, b.controlMutex, b.hasCandidate, key);
    }
  }

  lemma {:induction false} ServiceAtTarget(
      t: Table, key: Key, looked: seq<Meanwhile>, flagged: seq<Meanwhile>, waiting: seq<Meanwhile>)
    requires HasShape(t) && !t.hasCandidate && RebalancedBefore(looked, flagged, waiting)
    ensures var v := Service(t, key, looked, flagged, waiting); Shaped(v, v.numActive)
  {
    var a, b := Flagged(t, looked), Asked(t, key, looked, flagged);
    FlaggedShape(t, looked);
    MeanwhileRun(a, flagged);
    if Serve in flagged {
      TargetAtService(a, flagged);
    } else {
      AskedShape(t, key, looked, flagged);
      MeanwhileRun(b, waiting);
      if Serve in waiting {
        TargetAtService(b, waiting);
      } else {
        TargetStays(b, waiting);
      }
    }
  }

  /** With a rebalance that succeeds before the service, room is never what refuses a request: in a
      table that is not full it is granted if and only if it is served after both its stores or the
      previous candidate matches too. */
  lemma {:induction false} RequestAfterRebalance(
      t: Table, key: Key, looked: seq<Meanwhile>, flagged: seq<Meanwhile>, waiting: seq<Meanwhile>)
    requires HasShape(t) && !t.hasCandidate && t.numActive < MAX_CHANNELS
    requires Find(t, key).None? && RebalancedBefore(looked, flagged, waiting)
    ensures Find(Request(t, key, looked, flagged, waiting), key).Some? <==>
            (Serve in flagged ==> Matches(t.candidate, key))
  {
    ServiceAtTarget(t, key, looked, flagged, waiting);
    RequestMakes(t, key, looked, flagged, waiting);
    RoomAtTarget(Service(t, key, looked, flagged, waiting));
    RequestGranted(t, key, looked, flagged, waiting);
  }

  // ---------- Distinct keys ----------

  predicate KeysDistinct(t: Table)
    requires Sized(t)
  {
    forall i, j :: 0 <= i < j < t.numActive ==> t.entries[i].key != t.entries[j].key
  }

  predicate HasKey(t: Table, key: Key)
    requires Sized(t)
  {
    exists i :: 0 <= i < t.numActive && t.entries[i].key == key
  }

  // t' has one channel more, or none more.
  lemma {:induction false} GrowDistinct(t: Table, t': Table, made: Option<Key>)
    requires Extends(t, t') && t'.numActive == t.numActive + (if made.Some? then 1 else 0)
    requires made.Some? ==> t'.entries[t.numActive].key == made.value
    ensures KeysDistinct(t') <==> KeysDistinct(t) && !(made.Some? && HasKey(t, made.value))
  {
    var n := t.numActive;
    if KeysDistinct(t') {
      forall i, j | 0 <= i < j < n ensures t.entries[i].key != t.entries[j].key {
        assert t'.entries[i].key != t'.entries[j].key;
      }
    }
    if made.Some? && HasKey(t, made.value) {
      var i :| 0 <= i < n && t.entries[i].key == made.value;
      assert t'.entries[i].key == t'.entries[n].key;
    } else if KeysDistinct(t) {
      forall i, j | 0 <= i < j < t'.numActive ensures t'.entries[i].key != t'.entries[j].key {
        assert t'.entries[i].key == t.entries[i].key;
      }
    }
  }

  // The step makes a second channel with a key.
  predicate Repeats(t: Table, op: Op)
    requires Sized(t)
  {
    Adds(t, op).Some? && HasKey(t, Adds(t, op).value)
  }

  lemma {:induction false} ApplyDistinct(t: Table, op: Op)
    requires Sized(t)
    ensures KeysDistinct(Apply(t, op)) <==> KeysDistinct(t) && !Repeats(t, op)
  {
    ApplyAdds(t, op);
    GrowDistinct(t, Apply(t, op), Adds(t, op));
  }

  lemma {:induction false} NoneFoundNew(t: Table, key: Key)
    requires Sized(t) && Find(t, key).None?
    ensures !HasKey(t, key)
  {
    assert forall j :: 0 <= j < t.numActive ==> !Matches(t.entries[j].key, key);
  }

  /** A request that overlaps no other makes a second channel with one key if and only if it is served
      between its two stores, with room, and the previous candidate's channel is there. */
  lemma {:induction false} RequestDistinctExactly(
      t: Table, key: Key, looked: seq<Meanwhile>, flagged: seq<Meanwhile>, waiting: seq<Meanwhile>)
    requires Sized(t) && !t.hasCandidate && KeysDistinct(t) && Find(t, key).None?
    ensures KeysDistinct(Request(t, key, looked, flagged, waiting)) <==>
            !(&& Serve in flagged && HasKey(t, t.candidate)
              && CanCreate(Service(t, key, looked, flagged, waiting)))
  {
    var v := Service(t, key, looked, flagged, waiting);
    RequestMakes(t, key, looked, flagged, waiting);
    NoneFoundNew(t, key);
    GrowDistinct(t, Request(t, key, looked, flagged, waiting),
      if CanCreate(v) then Some(KeyServed(t, key, flagged)) else None);
  }

  /** The failing run: a whole request for k1, then one for k2 that is served between its two stores.
      It gets no channel, though there is room, and the first key has two. */
  lemma {:induction false} EarlyServiceFails(candidate: Key, k1: Key, k2: Key)
    requires !Matches(k1, k2)
    ensures var t := Request(InitTable(candidate), k1, [], [], []);
      var t' := Request(t, k2, [], [Serve], []);
      !t'.hasCandidate && Find(t', k2).None? && CanCreate(t') && !KeysDistinct(t')
  {
    var s := InitTable(candidate);
    var t := Request(s, k1, [], [], []);
    assert t == Create(s, k1).(hasCandidate := false, controlMutex := false, candidate := k1);
    assert t.entries[0].key == k1;
    FindIsFirst(t, k2, 0);
    assert Find(t, k2).None?;
    assert [Serve][..0] == [];
    assert ServedAt(Flagged(t, []), [Serve]) == Some(Flagged(t, []));
    assert Service(t, k2, [], [Serve], []) == Flagged(t, []);
    assert CanCreate(t);
    RequestGranted(t, k2, [], [Serve], []);
    RequestDistinctExactly(t, k2, [], [Serve], []);
    assert Request(t, k2, [], [Serve], []) == Control(Flagged(t, [])).(candidate := k2);
  }
}
