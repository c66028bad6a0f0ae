/**
  Any number of processes that request channels at the same time, each access to the control section a
  step of its own: the lookup, the store of the flag, the store of the key, the wait and the second
  lookup.  The trusted side serves in two steps, up to the new channel and the clearing of the flag.
 */
module Requesters {
  import opened Layout
  import opened ChannelTable
  import opened TableShape
  import opened TableKeys

  datatype Pc = Looking | Flagging | Storing | Waiting | Again | Done(found: Option<nat>)

  // One request.  `seen` is the number of channels there were when it looked.
  datatype Requester = Requester(key: Key, pc: Pc, seen: nat)

  // `making` is the trusted side between the two steps of a service; `author` says which requester
  // has stored the candidate last, if one has.
  datatype Scene = Scene(table: Table, requesters: seq<Requester>, making: bool, author: Option<nat>)

  // The other functions of the trusted side, and the traffic of the channels.
  type Other = op: Op | op.DoCreate? || op.DoFindOrCreate? || op.DoRebalance? || op.Traffic?
    witness DoRebalance(true)

  datatype Move = Access(i: nat) | Begin | End | Do(op: Other)

  predicate Cast(s: Scene) {
    Sized(s.table) && (s.author.Some? ==> s.author.value < |s.requesters|)
  }

  function AccessStep(s: Scene, i: nat): (s': Scene)
    requires Cast(s) && i < |s.requesters|
    ensures Cast(s')
  {
    var r, t := s.requesters[i], s.table;
    match r.pc
    case Looking =>
      var found := Find(t, r.key);
      var next := if found.Some? then Done(found) else Flagging;
      s.(requesters := s.requesters[i := r.(pc := next, seen := t.numActive)])
    case Flagging => s.(table := Apply(t, Flag), requesters := s.requesters[i := r.(pc := Storing)])
    case Storing =>
      s.(table := Apply(t, Store(r.key)), requesters := s.requesters[i := r.(pc := Waiting)], author := Some(i))
    case Waiting => if t.hasCandidate then s else s.(requesters := s.requesters[i := r.(pc := Again)])
    case Again => s.(requesters := s.requesters[i := r.(pc := Done(Find(t, r.key)))])
    case Done(_) => s
  }

  // The trusted side does one thing after the other.
  function Step(s: Scene, move: Move): (s': Scene)
    requires Cast(s)
    ensures Cast(s')
  {
    match move
    case Access(i) => if i < |s.requesters| then AccessStep(s, i) else s
    case Begin => if s.making then s else s.(table := Apply(s.table, Make), making := s.table.hasCandidate)
    case End => if s.making then s.(table := Apply(s.table, Clear), making := false) else s
    case Do(op) => if s.making && !op.Traffic? then s else s.(table := Apply(s.table, op))
  }

  function Run(s: Scene, moves: seq<Move>): (s': Scene)
    requires Cast(s)
    ensures Cast(s')
  {
    if moves == [] then s else Step(Run(s, moves[..|moves| - 1]), moves[|moves| - 1])
  }

  // What a move is for the control section: one operation, or none.
  function TableOp(s: Scene, move: Move): seq<Op>
    requires Cast(s)
  {
    match move
    case Access(i) =>
      if i >= |s.requesters| then []
      else if s.requesters[i].pc == Flagging then [Flag]
      else if s.requesters[i].pc == Storing then [Store(s.requesters[i].key)]
      else []
    case Begin => if s.making then [] else [Make]
    case End => if s.making then [Clear] else []
    case Do(op) => if s.making && !op.Traffic? then [] else [op]
  }

  function TableOps(s: Scene, moves: seq<Move>): seq<Op>
    requires Cast(s)
  {
    if moves == [] then []
    else
      var n := |moves| - 1;
      TableOps(s, moves[..n]) + TableOp(Run(s, moves[..n]), moves[n])
  }

  lemma {:induction false} MoveIsOp(s: Scene, move: Move)
    requires Cast(s)
    ensures var ops := TableOp(s, move);
      |ops| <= 1 && Step(s, move).table == if ops == [] then s.table else Apply(s.table, ops[0])
  {
  }

  lemma {:induction false} RunOpsFurther(t: Table, ops: seq<Op>, last: seq<Op>)
    requires Sized(t) && |last| <= 1
    ensures RunOps(t, ops + last) == if last == [] then RunOps(t, ops) else Apply(RunOps(t, ops), last[0])
  {
    if last == [] {
      assert ops + last == ops;
    } else {
      assert (ops + last)[..|ops|] == ops && (ops + last)[|ops|] == last[0];
    }
  }

  /** A run of requesters and trusted side is a run of operations on the control section, so that what
      holds of all those, such as the layout of the data section, holds however requests overlap. */
  lemma {:induction false} SceneIsRun(s: Scene, moves: seq<Move>)
    requires Cast(s)
    ensures Run(s, moves).table == RunOps(s.table, TableOps(s, moves))
  {
    if moves != [] {
      var n := |moves| - 1;
      SceneIsRun(s, moves[..n]);
      MoveIsOp(Run(s, moves[..n]), moves[n]);
      RunOpsFurther(s.table, TableOps(s, moves[..n]), TableOp(Run(s, moves[..n]), moves[n]));
    }
  }

  // Nobody has looked yet and nothing is pending.
  predicate Start(s: Scene) {
    && Sized(s.table) && !s.table.hasCandidate && !s.making && s.author == None
    && forall i :: 0 <= i < |s.requesters| ==> s.requesters[i].pc == Looking
  }

  // ---------- What a requester has seen ----------

  predicate Active(r: Requester) {
    r.pc in {Flagging, Storing, Waiting, Again}
  }

  // None of the channels there were at its lookup matches.
  predicate NoneSeen(t: Table, r: Requester)
    requires Sized(t)
  {
    r.seen <= t.numActive && forall j :: 0 <= j < r.seen ==> !Matches(t.entries[j].key, r.key)
  }

  // A channel that does has been made since.
  predicate MatchSince(t: Table, r: Requester)
    requires Sized(t)
  {
    exists j :: r.seen <= j < t.numActive && Matches(t.entries[j].key, r.key)
  }

  predicate KeySince(t: Table, r: Requester)
    requires Sized(t)
  {
    exists j :: r.seen <= j < t.numActive && t.entries[j].key == r.key
  }

  predicate Inv(s: Scene) {
    && Cast(s)
    && (forall i :: 0 <= i < |s.requesters| && Active(s.requesters[i]) ==> NoneSeen(s.table, s.requesters[i]))
    && (s.author.Some? ==>
          var r := s.requesters[s.author.value];
          NoneSeen(s.table, r) && s.table.candidate == r.key && r.pc != Looking)
  }

  lemma {:induction false} SeenExtends(t: Table, t': Table, r: Requester)
    requires Extends(t, t') && NoneSeen(t, r)
    ensures NoneSeen(t', r)
  {
    forall j | 0 <= j < r.seen ensures !Matches(t'.entries[j].key, r.key) {
      assert t'.entries[j].key == t.entries[j].key;
    }
  }

  lemma {:induction false} LookupSeen(t: Table, key: Key)
    requires Sized(t) && Find(t, key).None?
    ensures NoneSeen(t, Requester(key, Flagging, t.numActive))
  {
  }

  // A step of the trusted side, of a kind that leaves the candidate's key.
  lemma {:induction false} TableKeepsInv(s: Scene, t: Table, making: bool)
    requires Inv(s) && Extends(s.table, t) && t.candidate == s.table.candidate
    ensures Inv(s.(table := t, making := making))
  {
    forall i | 0 <= i < |s.requesters| && Active(s.requesters[i]) ensures NoneSeen(t, s.requesters[i]) {
      SeenExtends(s.table, t, s.requesters[i]);
    }
    if s.author.Some? {
      SeenExtends(s.table, t, s.requesters[s.author.value]);
    }
  }

  lemma {:induction false} CandidateKept(t: Table, op: Op)
    requires Sized(t) && !op.Store?
    ensures Extends(t, Apply(t, op)) && Apply(t, op).candidate == t.candidate
  {
    ApplyAdds(t, op);
    if op.DoRebalance? {
      RebalanceExtends(t, op.mallocOk);
    }
  }

  // An access changes the requester's program counter and what it has seen, and the flag or the key.
  lemma {:induction false} AccessKeepsInv(s: Scene, i: nat)
    requires Inv(s) && i < |s.requesters|
    ensures Inv(AccessStep(s, i))
  {
    var s', r, t := AccessStep(s, i), s.requesters[i], s.table;
    assert s'.table.entries == t.entries && s'.table.numActive == t.numActive;
    assert s'.requesters == s.requesters[i := s'.requesters[i]];
    assert s'.author == s.author || (s'.author == Some(i) && s'.table.candidate == r.key);
    if r.pc == Looking {
      if Find(t, r.key).None? {
        LookupSeen(t, r.key);
      }
    } else {
      assert s'.requesters[i].key == r.key && s'.requesters[i].seen == r.seen;
    }
  }

  lemma {:induction false} StepKeepsInv(s: Scene, move: Move)
    requires Inv(s)
    ensures Inv(Step(s, move))
  {
    match move
    case Access(i) =>
      if i < |s.requesters| {
        AccessKeepsInv(s, i);
      }
    case Begin =>
      CandidateKept(s.table, Make);
      TableKeepsInv(s, Apply(s.table, Make), s.table.hasCandidate);
    case End =>
      CandidateKept(s.table, Clear);
      TableKeepsInv(s, Apply(s.table, Clear), false);
    case Do(op) =>
      CandidateKept(s.table, op);
      TableKeepsInv(s, Apply(s.table, op), s.making);
  }

  lemma {:induction false} RunKeepsInv(s: Scene, moves: seq<Move>)
    requires Inv(s)
    ensures Inv(Run(s, moves))
  {
    if moves != [] {
      RunKeepsInv(s, moves[..|moves| - 1]);
      StepKeepsInv(Run(s, moves[..|moves| - 1]), moves[|moves| - 1]);
    }
  }

  /** When a request is granted, however requests, services and creations overlap: at its second lookup a
      requester finds a channel if and only if one that matches its key was made since its first. */
  lemma {:induction false} GrantedExactly(s: Scene, moves: seq<Move>, i: nat)
    requires Start(s) && i < |Run(s, moves).requesters| && Run(s, moves).requesters[i].pc == Again
    ensures var t := Run(s, moves);
      Find(t.table, t.requesters[i].key).Some? <==> MatchSince(t.table, t.requesters[i])
  {
    RunKeepsInv(s, moves);
    var t := Run(s, moves);
    var r := t.requesters[i];
    var found := FindFrom(t.table, r.key, 0);
    assert NoneSeen(t.table, r);
    if found.Some? {
      assert Matches(t.table.entries[found.value].key, r.key);
    }
  }

  // The first slot with a key the requester wants.
  predicate FirstFor(t: Table, key: Key, slot: nat)
    requires Sized(t)
  {
    && slot < t.numActive && SameKey(t.entries[slot].key, key)
    && forall j :: 0 <= j < slot ==> !SameKey(t.entries[j].key, key)
  }

  lemma {:induction false} FindFirst(t: Table, key: Key)
    requires Sized(t)
    ensures match Find(t, key)
      case Some(slot) => FirstFor(t, key, slot)
      case None => !exists slot :: FirstFor(t, key, slot)
  {
    FindFields(t, key);
  }

  lemma {:induction false} SinceFirst(t: Table, r: Requester)
    requires Sized(t) && NoneSeen(t, r)
    ensures match Find(t, r.key)
      case Some(slot) => r.seen <= slot && FirstFor(t, r.key, slot) && MatchSince(t, r)
      case None => !MatchSince(t, r)
  {
    FindFirst(t, r.key);
    var found := FindFrom(t, r.key, 0);
    if found.Some? {
      assert Matches(t.entries[found.value].key, r.key);
    }
  }

  // What the first lookup leads to, and what the second.
  ghost predicate FirstAnswer(t: Table, key: Key, r': Requester)
    requires Sized(t)
  {
    if exists slot :: FirstFor(t, key, slot) then
      r'.key == key && r'.pc.Done? && r'.pc.found.Some? && FirstFor(t, key, r'.pc.found.value)
    else r' == Requester(key, Flagging, t.numActive)
  }

  predicate SecondAnswer(t: Table, r: Requester, r': Requester)
    requires Sized(t)
  {
    && r'.key == r.key && r'.pc.Done?
    && (r'.pc.found.Some? <==> MatchSince(t, r))
    && (r'.pc.found.Some? ==> r.seen <= r'.pc.found.value && FirstFor(t, r.key, r'.pc.found.value))
  }

  lemma {:induction false} StepAnswers(s: Scene, i: nat)
    requires Inv(s) && i < |s.requesters|
    ensures var s', r := Step(s, Access(i)), s.requesters[i];
      && |s'.requesters| == |s.requesters|
      && (r.pc == Looking ==> s'.table == s.table && FirstAnswer(s.table, r.key, s'.requesters[i]))
      && (r.pc == Again ==> s'.table == s.table && SecondAnswer(s.table, r, s'.requesters[i]))
  {
    var r := s.requesters[i];
    FindFirst(s.table, r.key);
    if r.pc == Again {
      SinceFirst(s.table, r);
    }
  }

  /** What a requester gets, in every run: a first lookup ends the request with the first slot of its key if
      there is one, and otherwise goes on, having seen all channels there are; a second lookup ends it
      with the first such slot, which was made since, or with none if and only if none was made. */
  lemma {:induction false} AnswerExactly(s: Scene, moves: seq<Move>, i: nat)
    requires Start(s) && i < |Run(s, moves).requesters|
    ensures var t := Run(s, moves);
      var t', r := Step(t, Access(i)), t.requesters[i];
      && |t'.requesters| == |t.requesters|
      && (r.pc == Looking ==> t'.table == t.table && FirstAnswer(t.table, r.key, t'.requesters[i]))
      && (r.pc == Again ==> t'.table == t.table && SecondAnswer(t.table, r, t'.requesters[i]))
  {
    RunKeepsInv(s, moves);
    StepAnswers(Run(s, moves), i);
  }

  // A requester that is done with a slot has the first slot of its key.
  predicate Answered(s: Scene)
    requires Cast(s)
  {
    forall i :: 0 <= i < |s.requesters| && s.requesters[i].pc.Done? && s.requesters[i].pc.found.Some? ==>
      FirstFor(s.table, s.requesters[i].key, s.requesters[i].pc.found.value)
  }

  lemma {:induction false} FirstStays(t: Table, t': Table, key: Key, slot: nat)
    requires Extends(t, t') && FirstFor(t, key, slot)
    ensures FirstFor(t', key, slot)
  {
    assert forall j :: 0 <= j <= slot ==> t'.entries[j].key == t.entries[j].key;
  }

  lemma {:induction false} StepExtends(s: Scene, move: Move)
    requires Cast(s)
    ensures Extends(s.table, Step(s, move).table)
  {
    match move
    case Access(i) =>
    case Begin => ApplyAdds(s.table, Make);
    case End => ApplyAdds(s.table, Clear);
    case Do(op) => ApplyAdds(s.table, op);
  }

  // A step changes no finished requester, and finishes one only with what it finds.
  lemma {:induction false} DoneStays(s: Scene, move: Move, i: nat)
    requires Cast(s) && i < |s.requesters|
    ensures var s' := Step(s, move);
      && |s'.requesters| == |s.requesters| && s'.requesters[i].key == s.requesters[i].key
      && (s.requesters[i].pc.Done? ==> s'.requesters[i] == s.requesters[i])
      && (!s.requesters[i].pc.Done? && s'.requesters[i].pc.Done? ==>
            s'.table == s.table && s'.requesters[i].pc.found == Find(s.table, s.requesters[i].key))
  {
  }

  lemma {:induction false} StepKeepsAnswered(s: Scene, move: Move)
    requires Cast(s) && Answered(s)
    ensures Answered(Step(s, move))
  {
    var s' := Step(s, move);
    StepExtends(s, move);
    forall i | 0 <= i < |s'.requesters| && s'.requesters[i].pc.Done? && s'.requesters[i].pc.found.Some?
      ensures FirstFor(s'.table, s'.requesters[i].key, s'.requesters[i].pc.found.value)
    {
      assert |s'.requesters| == |s.requesters|;
      DoneStays(s, move, i);
      if s.requesters[i].pc.Done? {
        FirstStays(s.table, s'.table, s.requesters[i].key, s.requesters[i].pc.found.value);
      } else {
        FindFields(s.table, s.requesters[i].key);
      }
    }
  }

  lemma {:induction false} AnsweredSize(s: Scene, moves: seq<Move>)
    requires Cast(s)
    ensures |Run(s, moves).requesters| == |s.requesters|
  {
    if moves != [] {
      AnsweredSize(s, moves[..|moves| - 1]);
    }
  }

  /** An answer is for good: after any further moves of anybody a finished request still has its answer,
      and a slot it was given still is the first slot of its key. */
  lemma {:induction false} AnswerKept(s: Scene, moves: seq<Move>, i: nat)
    requires Cast(s) && Answered(s) && i < |s.requesters| && s.requesters[i].pc.Done?
    ensures var t := Run(s, moves);
      && Answered(t) && |t.requesters| == |s.requesters| && t.requesters[i] == s.requesters[i]
      && (s.requesters[i].pc.found.Some? ==> FirstFor(t.table, t.requesters[i].key, s.requesters[i].pc.found.value))
  {
    AnsweredSize(s, moves);
    if moves != [] {
      var n := |moves| - 1;
      AnswerKept(s, moves[..n], i);
      StepKeepsAnswered(Run(s, moves[..n]), moves[n]);
      DoneStays(Run(s, moves[..n]), moves[n], i);
    }
  }

  // ---------- Second channels ----------

  // The service would make a channel with the key its requester stored, or the key in the candidate's
  // memory from before all requests, and one with that key was made since that requester's lookup, or
  // ever.
  predicate ServesAgain(s: Scene)
    requires Cast(s)
  {
    && s.table.hasCandidate && CanCreate(s.table)
    && match s.author
       case Some(r) => KeySince(s.table, s.requesters[r])
       case None => HasKey(s.table, s.table.candidate)
  }

  // The moves that make a second channel: such a service, and a bare creation of a key that is there.
  predicate MakesSecond(s: Scene, move: Move)
    requires Cast(s)
  {
    match move
    case Begin => !s.making && ServesAgain(s)
    case Do(op) => !s.making && op.DoCreate? && CanCreate(s.table) && HasKey(s.table, op.key)
    case _ => false
  }

  lemma {:induction false} ServiceRepeats(s: Scene)
    requires Inv(s)
    ensures Repeats(s.table, Make) <==> ServesAgain(s)
  {
    if s.author.Some? {
      var t, r := s.table, s.requesters[s.author.value];
      if HasKey(t, t.candidate) {
        var i :| 0 <= i < t.numActive && t.entries[i].key == t.candidate;
        assert Matches(t.entries[i].key, r.key);
        assert i >= r.seen;
      }
    }
  }

  lemma {:induction false} FindOrCreateNew(t: Table, key: Key)
    requires Sized(t)
    ensures !Repeats(t, DoFindOrCreate(key))
  {
    if Find(t, key).None? {
      NoneFoundNew(t, key);
    }
  }

  lemma {:induction false} StepDistinct(s: Scene, move: Move)
    requires Inv(s)
    ensures KeysDistinct(Step(s, move).table) <==> KeysDistinct(s.table) && !MakesSecond(s, move)
  {
    match move
    case Access(i) =>
      if i < |s.requesters| {
        var t := AccessStep(s, i).table;
        assert t.entries == s.table.entries && t.numActive == s.table.numActive;
      }
    case Begin =>
      ApplyDistinct(s.table, Make);
      ServiceRepeats(s);
    case End => ApplyDistinct(s.table, Clear);
    case Do(op) =>
      ApplyDistinct(s.table, op);
      if op.DoFindOrCreate? {
        FindOrCreateNew(s.table, op.key);
      }
  }

  predicate NeverSecond(s: Scene, moves: seq<Move>)
    requires Cast(s)
  {
    moves != [] ==>
      var n := |moves| - 1;
      NeverSecond(s, moves[..n]) && !MakesSecond(Run(s, moves[..n]), moves[n])
  }

  /** Exactly which orders of lookups, stores, services and creations make a second channel with one key,
      over every run of any number of overlapping requests: a service of a stored key after a channel
      with that key was made since the lookup of the requester that stored it (or of what the
      candidate's memory held before any request, if its channel is there), and a bare creation. */
  lemma {:induction false} DistinctExactly(s: Scene, moves: seq<Move>)
    requires Inv(s) && KeysDistinct(s.table)
    ensures KeysDistinct(Run(s, moves).table) <==> NeverSecond(s, moves)
  {
    if moves != [] {
      var n := |moves| - 1;
      RunKeepsInv(s, moves[..n]);
      DistinctExactly(s, moves[..n]);
      StepDistinct(Run(s, moves[..n]), moves[n]);
    }
  }

  // ---------- Requests one after the other ----------

  predicate Idle(s: Scene) {
    forall j :: 0 <= j < |s.requesters| ==> !Active(s.requesters[j])
  }

  // A requester begins only when no other is at work, is served only once its key is stored, and the
  // trusted side makes channels of its own only in between, of new keys.
  predicate OrderlyMove(s: Scene, move: Move)
    requires Cast(s)
  {
    match move
    case Access(i) =>
      i < |s.requesters| && s.requesters[i].pc == Looking ==> Idle(s)
    case Begin => forall j :: 0 <= j < |s.requesters| ==> s.requesters[j].pc != Storing
    case End => true
    case Do(op) =>
      op.DoCreate? || op.DoFindOrCreate? ==>
        && Idle(s) && (op.DoCreate? ==> !HasKey(s.table, op.key))
  }

  predicate Orderly(s: Scene, moves: seq<Move>)
    requires Cast(s)
  {
    moves != [] ==>
      var n := |moves| - 1;
      Orderly(s, moves[..n]) && OrderlyMove(Run(s, moves[..n]), moves[n])
  }

  // Where the request at work stands.
  predicate Stands(s: Scene, r: Requester, i: nat)
    requires Cast(s)
  {
    var t := s.table;
    match r.pc
    case Flagging => !t.hasCandidate && !s.making && r.seen == t.numActive
    case Storing => t.hasCandidate && !s.making && r.seen == t.numActive
    case Waiting =>
      && s.author == Some(i)
      && (s.making ==> t.hasCandidate)
      && (t.hasCandidate && !s.making ==> r.seen == t.numActive)
    case Again => !t.hasCandidate && !s.making
    case _ => true
  }

  predicate Alone(s: Scene) {
    && Cast(s)
    && (forall i, j :: 0 <= i < j < |s.requesters| ==> !(Active(s.requesters[i]) && Active(s.requesters[j])))
    && (forall i :: 0 <= i < |s.requesters| ==> Stands(s, s.requesters[i], i))
    && (Idle(s) ==> !s.table.hasCandidate && !s.making)
  }

  lemma {:induction false} OrderlyAccess(s: Scene, i: nat)
    requires Inv(s) && Alone(s) && OrderlyMove(s, Access(i)) && i < |s.requesters|
    ensures Alone(AccessStep(s, i))
  {
    var s', r := AccessStep(s, i), s.requesters[i];
    forall j | 0 <= j < |s'.requesters| ensures Stands(s', s'.requesters[j], j) {
      assert Stands(s, s.requesters[j], j);
      if j != i && Active(r) {
        assert !Active(s.requesters[j]);
      }
    }
    assert Stands(s, r, i);
    if Idle(s') {
      assert !Active(s'.requesters[i]);
      forall j | 0 <= j < |s.requesters| && j != i ensures !Active(s.requesters[j]) {
        assert s'.requesters[j] == s.requesters[j];
      }
    }
  }

  // The channels a move of the trusted side adds, if it is orderly.
  lemma {:induction false} OrderlyTrusted(s: Scene, move: Move)
    requires Inv(s) && Alone(s) && OrderlyMove(s, move) && !move.Access?
    ensures Alone(Step(s, move)) && !MakesSecond(s, move)
  {
    var s' := Step(s, move);
    if move.Begin? {
      ApplyAdds(s.table, Make);
    } else if move.Do? {
      ApplyAdds(s.table, move.op);
      if move.op.DoRebalance? {
        RebalanceExtends(s.table, move.op.mallocOk);
      }
    }
    forall j | 0 <= j < |s'.requesters| ensures Stands(s', s'.requesters[j], j) {
      assert Stands(s, s.requesters[j], j) && s'.requesters[j] == s.requesters[j];
    }
  }

  /** Requests one after the other, each served after both its stores, keep all keys distinct. */
  lemma {:induction false} OrderlyDistinct(s: Scene, moves: seq<Move>)
    requires Inv(s) && Alone(s) && KeysDistinct(s.table) && Orderly(s, moves)
    ensures var t := Run(s, moves); Inv(t) && Alone(t) && KeysDistinct(t.table)
  {
    if moves != [] {
      var n := |moves| - 1;
      OrderlyDistinct(s, moves[..n]);
      var t := Run(s, moves[..n]);
      StepKeepsInv(t, moves[n]);
      StepDistinct(t, moves[n]);
      if moves[n].Access? {
        if moves[n].i < |t.requesters| {
          OrderlyAccess(t, moves[n].i);
        }
      } else {
        OrderlyTrusted(t, moves[n]);
      }
    }
  }

  lemma {:induction false} StartHolds(s: Scene)
    requires Start(s)
    ensures Inv(s) && Alone(s)
  {
  }

  // ---------- Runs that fail ----------

  // The states a run goes through.
  lemma {:induction false} RunThrough(s: Scene, moves: seq<Move>, states: seq<Scene>)
    requires Cast(s) && |states| == |moves| + 1 && states[0] == s
    requires forall k :: 0 <= k < |moves| ==> Cast(states[k]) && states[k + 1] == Step(states[k], moves[k])
    ensures Run(s, moves) == states[|moves|]
  {
    if moves != [] {
      var n := |moves| - 1;
      assert forall k :: 0 <= k < n ==> moves[..n][k] == moves[k];
      RunThrough(s, moves[..n], states[..|moves|]);
    }
  }

  function Asking(candidate: Key, keys: seq<Key>): (s: Scene)
    ensures Start(s) && KeysDistinct(s.table)
  {
    Scene(InitTable(candidate), seq(|keys|, i requires 0 <= i < |keys| => Requester(keys[i], Looking, 0)), false, None)
  }

  /** Two requests for one key: both look, one stores and is served, then the other stores and is
      served. */
  lemma {:induction false} TwoRequestsRepeat(candidate: Key, key: Key)
    ensures var moves := [Access(0), Access(1), Access(0), Access(0), Begin, End, Access(1), Access(1), Begin];
      !KeysDistinct(Run(Asking(candidate, [key, key]), moves).table)
  {
    var s := Asking(candidate, [key, key]);
    var moves := [Access(0), Access(1), Access(0), Access(0), Begin, End, Access(1), Access(1), Begin];
    var s1 := Step(s, Access(0));
    var s2 := Step(s1, Access(1));
    var s3 := Step(s2, Access(0));
    var s4 := Step(s3, Access(0));
    var s5 := Step(s4, Begin);
    var s6 := Step(s5, End);
    var s7 := Step(s6, Access(1));
    var s8 := Step(s7, Access(1));
    var s9 := Step(s8, Begin);
    assert s2.requesters == [Requester(key, Flagging, 0), Requester(key, Flagging, 0)] && s2.table == s.table;
    assert s4.requesters == [Requester(key, Waiting, 0), Requester(key, Flagging, 0)] && s4.table.candidate == key;
    assert s6.table.numActive == 1 && s6.table.entries[0].key == key && !s6.making;
    assert s8.table.candidate == key && s8.table.hasCandidate && s8.table.entries == s6.table.entries;
    assert s9.table.numActive == 2 && s9.table.entries[0].key == s9.table.entries[1].key;
    RunThrough(s, moves, [s, s1, s2, s3, s4, s5, s6, s7, s8, s9]);
  }

  /** A request overlapped by a creation of its key after its lookup. */
  lemma {:induction false} CreationOverlapRepeats(candidate: Key, key: Key)
    ensures var moves := [Access(0), Do(DoFindOrCreate(key)), Access(0), Access(0), Begin];
      !KeysDistinct(Run(Asking(candidate, [key]), moves).table)
  {
    var s := Asking(candidate, [key]);
    var moves := [Access(0), Do(DoFindOrCreate(key)), Access(0), Access(0), Begin];
    var s1 := Step(s, Access(0));
    var s2 := Step(s1, Do(DoFindOrCreate(key)));
    var s3 := Step(s2, Access(0));
    var s4 := Step(s3, Access(0));
    var s5 := Step(s4, Begin);
    assert s1.requesters == [Requester(key, Flagging, 0)] && s1.table == s.table;
    assert s2.table.numActive == 1 && s2.table.entries[0].key == key;
    assert s4.table.candidate == key && s4.table.hasCandidate && s4.table.entries == s2.table.entries;
    assert s5.table.numActive == 2 && s5.table.entries[0].key == s5.table.entries[1].key;
    RunThrough(s, moves, [s, s1, s2, s3, s4, s5]);
  }

  /** A request lost: its flag is set while the trusted side is about to clear another's, so it finds
      nothing, though its key was stored and there is room. */
  lemma {:induction false} RequestLost(candidate: Key, k0: Key, k1: Key)
    requires !Matches(k0, k1)
    ensures var moves :=
        [Access(0), Access(0), Access(0), Begin, Access(1), Access(1), Access(1), End, Access(1), Access(1)];
      var t := Run(Asking(candidate, [k0, k1]), moves);
      && |t.requesters| == 2 && t.requesters[1] == Requester(k1, Done(None), 1)
      && CanCreate(t.table) && !t.table.hasCandidate
  {
    var s := Asking(candidate, [k0, k1]);
    var moves := [Access(0), Access(0), Access(0), Begin, Access(1), Access(1), Access(1), End, Access(1), Access(1)];
    var s1 := Step(s, Access(0));
    var s2 := Step(s1, Access(0));
    var s3 := Step(s2, Access(0));
    var s4 := Step(s3, Begin);
    var s5 := Step(s4, Access(1));
    var s6 := Step(s5, Access(1));
    var s7 := Step(s6, Access(1));
    var s8 := Step(s7, End);
    var s9 := Step(s8, Access(1));
    var s10 := Step(s9, Access(1));
    assert s3.requesters == [Requester(k0, Waiting, 0), Requester(k1, Looking, 0)] && s3.table.candidate == k0;
    assert s4.table.numActive == 1 && s4.table.entries[0].key == k0 && s4.making;
    FindIsFirst(s4.table, k1, 0);
    assert Find(s4.table, k1).None?;
    assert s7.requesters[1] == Requester(k1, Waiting, 1) && s7.making;
    assert s7.table.entries == s4.table.entries && s7.table.numActive == 1;
    assert s9.requesters[1] == Requester(k1, Again, 1);
    FindIsFirst(s9.table, k1, 0);
    assert s10.requesters[1] == Requester(k1, Done(None), 1);
    RunThrough(s, moves, [s, s1, s2, s3, s4, s5, s6, s7, s8, s9, s10]);
  }
}
