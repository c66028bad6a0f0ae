/**
  The whole system finishes: once the trusted side rests with its mutex clear, every schedule that
  lets the two sides of a channel step again and again, among the steps of all other channels,
  finishes what the channel has to carry.  And which channel a key leads to.
 */
module SystemProgress {
  import opened Layout
  import CT = ChannelTable
  import TS = TableShape
  import TK = TableKeys
  import opened PageRing
  import opened RingFifo
  import opened RingStream
  import opened RingProgress
  import opened Schedules
  import opened SharedSection

  // ---------- What a channel sees of a run ----------

  // Steps of the sides of all channels.
  predicate Quiet(moves: seq<Move>) {
    forall k :: 0 <= k < |moves| ==> !moves[k].Control?
  }

  function SeenMoves(ps: Programs, w: Section, moves: seq<Move>, i: nat): seq<Step>
    requires WellSized(w)
  {
    if moves == [] then []
    else
      var n := |moves| - 1;
      var before := RunMoves(ps, w, moves[..n]);
      SeenMoves(ps, w, moves[..n], i) + if i < before.table.numActive then Seen(ps, before, moves[n], i) else []
  }

  lemma {:induction false} QuietMove(ps: Programs, w: Section, move: Move, i: nat)
    requires WellSized(w) && i < w.table.numActive && !move.Control?
    ensures Do(ps, w, move).table.numActive == w.table.numActive
    ensures Do(ps, w, move).table.controlMutex == w.table.controlMutex
    ensures Calm(Seen(ps, w, move, i))
    ensures (move == Send(i) ==> Sender in Seen(ps, w, move, i))
    ensures (move == Receive(i) ==> Receiver in Seen(ps, w, move, i))
  {
  }

  lemma {:induction false} QuietMoves(ps: Programs, w: Section, moves: seq<Move>, i: nat)
    requires WellSized(w) && i < w.table.numActive && Quiet(moves)
    ensures RunMoves(ps, w, moves).table.numActive == w.table.numActive
    ensures Calm(SeenMoves(ps, w, moves, i))
    ensures Send(i) in moves ==> Sender in SeenMoves(ps, w, moves, i)
    ensures Receive(i) in moves ==> Receiver in SeenMoves(ps, w, moves, i)
  {
    if moves != [] {
      var n := |moves| - 1;
      QuietMoves(ps, w, moves[..n], i);
      QuietMove(ps, RunMoves(ps, w, moves[..n]), moves[n], i);
      assert moves == moves[..n] + [moves[n]];
    }
  }

  lemma {:induction false} MovesSeen(ps: Programs, w: Section, moves: seq<Move>, i: nat)
    requires Good(ps, w) && i < w.table.numActive && Quiet(moves)
    ensures var w' := RunMoves(ps, w, moves);
      && Good(ps, w') && w'.table.numActive == w.table.numActive
      && Run(ps[i], RingAt(w, i), SeenMoves(ps, w, moves, i)) == RingAt(w', i)
  {
    if moves != [] {
      var n := |moves| - 1;
      QuietMoves(ps, w, moves, i);
      MovesSeen(ps, w, moves[..n], i);
      var before := RunMoves(ps, w, moves[..n]);
      DoKeepsGood(ps, before, moves[n]);
      MoveSeen(ps, before, moves[n], i);
      RunJoin(ps[i], RingAt(w, i), SeenMoves(ps, w, moves[..n], i), Seen(ps, before, moves[n], i));
    }
  }

  lemma {:induction false} RunMovesJoin(ps: Programs, w: Section, a: seq<Move>, b: seq<Move>)
    requires WellSized(w)
    ensures RunMoves(ps, w, a + b) == RunMoves(ps, RunMoves(ps, w, a), b)
  {
    if b == [] {
      assert a + b == a;
    } else {
      var n := |b| - 1;
      RunMovesJoin(ps, w, a, b[..n]);
      assert (a + b)[..|a + b| - 1] == a + b[..n] && (a + b)[|a + b| - 1] == b[n];
    }
  }

  // ---------- Fair schedules ----------

  // In every round both sides of channel i step, among any steps of other channels.
  predicate FairMoves(rounds: seq<seq<Move>>, i: nat) {
    forall k :: 0 <= k < |rounds| ==> Quiet(rounds[k]) && Send(i) in rounds[k] && Receive(i) in rounds[k]
  }

  function SeenRounds(ps: Programs, w: Section, rounds: seq<seq<Move>>, i: nat): (r: seq<seq<Step>>)
    requires WellSized(w)
    ensures |r| == |rounds|
    decreases |rounds|
  {
    if rounds == [] then []
    else [SeenMoves(ps, w, rounds[0], i)] + SeenRounds(ps, RunMoves(ps, w, rounds[0]), rounds[1..], i)
  }

  lemma {:induction false} RoundsSeen(ps: Programs, w: Section, rounds: seq<seq<Move>>, i: nat)
    requires Good(ps, w) && i < w.table.numActive && FairMoves(rounds, i)
    ensures FairRounds(SeenRounds(ps, w, rounds, i))
    ensures Run(ps[i], RingAt(w, i), Join(SeenRounds(ps, w, rounds, i))) ==
            RingAt(RunMoves(ps, w, Join(rounds)), i)
    decreases |rounds|
  {
    if rounds != [] {
      var w', first := RunMoves(ps, w, rounds[0]), SeenMoves(ps, w, rounds[0], i);
      MovesSeen(ps, w, rounds[0], i);
      QuietMoves(ps, w, rounds[0], i);
      assert FairMoves(rounds[1..], i);
      RoundsSeen(ps, w', rounds[1..], i);
      var later := SeenRounds(ps, w', rounds[1..], i);
      var all := SeenRounds(ps, w, rounds, i);
      assert all == [first] + later && all[0] == first && all[1..] == later;
      FairFirst(first, later);
      RunJoin(ps[i], RingAt(w, i), first, Join(later));
      RunMovesJoin(ps, w, rounds[0], Join(rounds[1..]));
    }
  }

  lemma {:induction false} FairFirst(first: seq<Step>, later: seq<seq<Step>>)
    requires FairRounds(later) && Calm(first) && Sender in first && Receiver in first
    ensures FairRounds([first] + later)
  {
    var all := [first] + later;
    forall k | 0 <= k < |all| ensures Sender in all[k] && Receiver in all[k] && Calm(all[k]) {
      if k > 0 {
        assert all[k] == later[k - 1];
      }
    }
  }

  // Rounds that are enough for a program wherever its ring stands.
  function MaxRounds(p: Program): nat {
    var pages := UNIT * Needed(p);
    5 * (pages + pages + |p.messages| + |p.receives| + 4) + 7 + 2 * |p.messages| + 1
  }

  lemma SenderWorkBounded(p: Program, s: SenderState, published: nat)
    ensures SenderWork(p, s, published) <= UNIT * Needed(p) + |p.messages| + 2
  {
  }

  lemma ReceiverWorkBounded(p: Program, r: ReceiverState, released: nat)
    ensures ReceiverWork(p, r, released) <= UNIT * Needed(p) + |p.receives| + 2
  {
  }

  lemma TestsBounded(p: Program, s: Ring)
    ensures SenderTests(p, s) <= 4 && ReceiverTests(p, s) <= 3
  {
  }

  lemma RankSum(a: int, b: int, x: int, y: int, pages: nat, sends: nat, receives: nat)
    requires a <= pages + sends + 2 && b <= pages + receives + 2 && x <= 4 && y <= 3
    ensures 5 * (a + b) + x + y <= 5 * (pages + pages + sends + receives + 4) + 7
  {
  }

  lemma {:induction false} RoundsBounded(p: Program, s: Ring)
    ensures RoundsToFinish(p, s) <= MaxRounds(p)
  {
    var a, b := SenderWork(p, s.sender, |s.published|), ReceiverWork(p, s.receiver, s.released);
    SenderWorkBounded(p, s.sender, |s.published|);
    ReceiverWorkBounded(p, s.receiver, s.released);
    TestsBounded(p, s);
    RankSum(a, b, SenderTests(p, s), ReceiverTests(p, s), UNIT * Needed(p), |p.messages|, |p.receives|);
    assert Rank(p, s) == 5 * (a + b) + SenderTests(p, s) + ReceiverTests(p, s);
  }

  lemma {:induction false} EnoughPages(t: CT.Table, i: nat)
    requires TS.HasShape(t) && i < t.numActive
    ensures t.entries[i].numPage >= 4
  {
    var m :| TS.Shaped(t, m);
    TS.ShapedRegion(t, m, i);
  }

  /** Liveness of the whole system: after any run from initialisation that keeps the queues, with the
      mutex clear, if the trusted side then rests, every schedule of all sides of all channels that is
      fair to channel i for MaxRounds rounds, a number that depends on its program alone, finishes
      a balanced program, with the ring empty and, for matching sizes, every message delivered. */
  lemma {:induction false} SystemFinishes(
      ps: Programs, w: Section, candidate: CT.Key, before: seq<Move>, rounds: seq<seq<Move>>, i: nat)
    requires Start(w, candidate) && AllKeepQueues(ps, w, before)
    requires i < RunMoves(ps, w, before).table.numActive && !RunMoves(ps, w, before).table.controlMutex
    requires Balanced(ps[i]) && FairMoves(rounds, i) && |rounds| >= MaxRounds(ps[i])
    ensures var r := RingAt(RunMoves(ps, w, before + Join(rounds)), i);
      && Finished(ps[i], r) && Empty(r)
      && (Matching(ps[i]) ==> Right(ps[i], r.receiver.filled, r.receiver.buffer))
  {
    var w1 := RunMoves(ps, w, before);
    StartGood(ps, w, candidate);
    MovesKeepLive(ps, w, before);
    var s := RingAt(w1, i);
    assert LiveRing(ps[i], s);
    EnoughPages(w1.table, i);
    RoundsBounded(ps[i], s);
    RoundsSeen(ps, w1, rounds, i);
    FairRunsFinish(ps[i], s, SeenRounds(ps, w1, rounds, i));
    RunMovesJoin(ps, w, before, Join(rounds));
    if Matching(ps[i]) {
      ContentRight(ps[i], RingAt(RunMoves(ps, w, before + Join(rounds)), i));
    }
  }

  // ---------- Channels by key ----------

  lemma {:induction false} MovesExtend(ps: Programs, w: Section, moves: seq<Move>)
    requires WellSized(w)
    ensures TK.Extends(w.table, RunMoves(ps, w, moves).table)
  {
    if moves != [] {
      var n := |moves| - 1;
      MovesExtend(ps, w, moves[..n]);
      var before := RunMoves(ps, w, moves[..n]);
      if moves[n].Control? {
        TK.ApplyAdds(before.table, moves[n].op);
      }
    }
  }

  // A slot that a lookup yields, or does not, it goes on yielding, or not.
  lemma {:induction false} FindStays(t: CT.Table, t': CT.Table, key: CT.Key, slot: nat)
    requires TK.Extends(t, t') && slot < t.numActive
    ensures CT.Find(t', key) == Some(slot) <==> CT.Find(t, key) == Some(slot)
  {
    TK.FindIsFirst(t, key, slot);
    TK.FindIsFirst(t', key, slot);
    assert forall j :: 0 <= j <= slot ==> t'.entries[j].key == t.entries[j].key;
  }

  /** Sender and receiver of a channel meet by key: once a sender's key has led it to a slot with that
      key, it leads there for ever, whatever the system does; and a receiver's key leads there, at any
      later time, if and only if it matches and no earlier slot matched when the sender looked: with
      distinct keys and a sender_pid of its own, if and only if it is the same key; with sender_pid
      0, if and only if both VM ids are the same and no earlier slot has them. */
  lemma {:induction false} KeysMeet(
      ps: Programs, w: Section, before: seq<Move>, after: seq<Move>, sending: CT.Key, receiving: CT.Key, i: nat)
    requires WellSized(w) && CT.Find(RunMoves(ps, w, before).table, sending) == Some(i)
    requires i < MAX_CHANNELS && RunMoves(ps, w, before).table.entries[i].key == sending
    ensures var t, t' := RunMoves(ps, w, before).table, RunMoves(ps, w, before + after).table;
      && CT.Find(t', sending) == Some(i)
      && (CT.Find(t', receiving) == Some(i) <==>
            CT.Matches(sending, receiving) && forall j :: 0 <= j < i ==> !CT.Matches(t.entries[j].key, receiving))
      && (TK.KeysDistinct(t) && receiving.senderPid != 0 ==>
            (CT.Find(t', receiving) == Some(i) <==> receiving == sending))
      && (receiving.senderPid == 0 ==>
            (CT.Find(t', receiving) == Some(i) <==>
               && sending.senderVm == receiving.senderVm && sending.receiverVm == receiving.receiverVm
               && forall j :: 0 <= j < i ==>
                    t.entries[j].key.senderVm != receiving.senderVm
                    || t.entries[j].key.receiverVm != receiving.receiverVm))
  {
    var w1 := RunMoves(ps, w, before);
    RunMovesJoin(ps, w, before, after);
    MovesExtend(ps, w1, after);
    TK.FindIsFirst(w1.table, sending, i);
    FindStays(w1.table, RunMoves(ps, w1, after).table, sending, i);
    FindStays(w1.table, RunMoves(ps, w1, after).table, receiving, i);
    TK.FindIsFirst(w1.table, receiving, i);
    if receiving.senderPid != 0 {
      assert forall key :: CT.Matches(key, receiving) <==> key == receiving;
    }
  }
}
