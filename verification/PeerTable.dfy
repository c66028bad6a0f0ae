/**
  The ivshmem client's peer table: what the messages of the server make of it, against a map
  from peer id to event descriptors, and where every descriptor goes.
 */
module PeerTable {

  const MAX_VECTORS: nat := 64

  // struct IvshmemClientPeer: the first `count` of its 64 vector slots are in use.
  datatype Peer = Peer(id: int, vectors: seq<int>, count: nat) {
    predicate Valid() {
      |vectors| == MAX_VECTORS && count <= MAX_VECTORS
    }

    function Fds(): seq<int>
      requires Valid()
    {
      vectors[..count]
    }
  }

  // A message of the server: an id, and a descriptor or -1.  `callocOk` is the outcome of the
  // allocation of a new peer, if there is one.
  datatype RawMsg = RawMsg(id: int, fd: int, callocOk: bool)

  type Msg = m: RawMsg | m.fd >= -1 witness RawMsg(0, -1, true)

  datatype Where = Local | At(index: nat) | Missing

  // `closed` logs the close calls, `stored` the descriptors the client took over.
  datatype Table = Table(
    local: Peer, peers: seq<Peer>, shmFd: int, sockFd: int, closed: seq<int>, stored: seq<int>)

  // ---------- What the client keeps ----------

  // Slots past the count are -1 in the local entry, and those before it descriptors.
  predicate LocalValid(p: Peer) {
    p.Valid() && forall i :: 0 <= i < MAX_VECTORS ==>
      if i < p.count then p.vectors[i] >= 0 else p.vectors[i] == -1
  }

  predicate AllValid(peers: seq<Peer>) {
    forall i :: 0 <= i < |peers| ==> peers[i].Valid()
  }

  predicate PeersValid(peers: seq<Peer>) {
    && AllValid(peers)
    && (forall i, j :: 0 <= i < j < |peers| ==> peers[i].id != peers[j].id)
  }

  predicate Valid(t: Table) {
    && LocalValid(t.local) && PeersValid(t.peers) && t.shmFd >= -1 && t.sockFd >= -1
    && forall i :: 0 <= i < |t.peers| ==> t.peers[i].id != t.local.id
  }

  function SearchFrom(peers: seq<Peer>, id: int, i: nat): (r: Where)
    requires i <= |peers|
    ensures r.At? ==> i <= r.index < |peers| && peers[r.index].id == id
    ensures !r.At? ==> r == Missing && forall j :: i <= j < |peers| ==> peers[j].id != id
    decreases |peers| - i
  {
    if i == |peers| then Missing else if peers[i].id == id then At(i) else SearchFrom(peers, id, i + 1)
  }

  function Search(t: Table, id: int): Where {
    if id == t.local.id then Local else SearchFrom(t.peers, id, 0)
  }

  function Add(p: Peer, fd: int): Peer
    requires p.Valid() && p.count < MAX_VECTORS
  {
    p.(vectors := p.vectors[p.count := fd], count := p.count + 1)
  }

  function NewPeer(id: int): Peer {
    Peer(id, seq(MAX_VECTORS, i => 0), 0)
  }

  function Remove(peers: seq<Peer>, i: nat): seq<Peer>
    requires i < |peers|
  {
    peers[..i] + peers[i + 1..]
  }

  // ivshmem_client_handle_server_msg on a message that was read: new table and return value.
  function Handle(t: Table, m: Msg): (r: (Table, int))
    requires Valid(t)
  {
    match Search(t, m.id)
    case Local =>
      if m.fd == -1 || t.local.count >= MAX_VECTORS then (t, -1)
      else (t.(local := Add(t.local, m.fd), stored := t.stored + [m.fd]), 0)
    case At(i) =>
      if m.fd == -1 then (t.(peers := Remove(t.peers, i), closed := t.closed + t.peers[i].Fds()), 0)
      else if t.peers[i].count >= MAX_VECTORS then (t, -1)
      else (t.(peers := t.peers[i := Add(t.peers[i], m.fd)], stored := t.stored + [m.fd]), 0)
    case Missing =>
      if m.fd == -1 || !m.callocOk then (t, -1)
      else (t.(peers := t.peers + [Add(NewPeer(m.id), m.fd)], stored := t.stored + [m.fd]), 0)
  }

  lemma {:induction false} RemoveValid(peers: seq<Peer>, i: nat)
    requires PeersValid(peers) && i < |peers|
    ensures PeersValid(Remove(peers, i))
    ensures forall k :: 0 <= k < |peers| - 1 ==> Remove(peers, i)[k] == peers[if k < i then k else k + 1]
  {
  }

  lemma {:induction false} AppendValid(t: Table, p: Peer)
    requires Valid(t) && p.Valid() && Search(t, p.id) == Missing
    ensures Valid(t.(peers := t.peers + [p]))
  {
    var peers := t.peers + [p];
    forall i, j | 0 <= i < j < |peers| ensures peers[i].id != peers[j].id {
      assert peers[i] == t.peers[i];
    }
  }

  lemma {:induction false} UpdateValid(t: Table, i: nat, p: Peer)
    requires Valid(t) && i < |t.peers| && p.Valid() && p.id == t.peers[i].id
    ensures Valid(t.(peers := t.peers[i := p]))
  {
  }

  lemma {:induction false} HandleValid(t: Table, m: Msg)
    requires Valid(t)
    ensures Valid(Handle(t, m).0)
  {
    match Search(t, m.id)
    case Local =>
    case At(i) => RemoveValid(t.peers, i);
    case Missing => AppendValid(t, Add(NewPeer(m.id), m.fd));
  }

  function Run(t: Table, messages: seq<Msg>): (t': Table)
    requires Valid(t)
    ensures Valid(t')
    decreases |messages|
  {
    if messages == [] then t
    else
      HandleValid(t, messages[0]);
      Run(Handle(t, messages[0]).0, messages[1..])
  }

  // ---------- The map it stands for ----------

  function MapOf(peers: seq<Peer>): map<int, seq<int>>
    requires AllValid(peers)
  {
    if peers == [] then map[]
    else
      var last := peers[|peers| - 1];
      MapOf(peers[..|peers| - 1])[last.id := last.Fds()]
  }

  function Abs(t: Table): map<int, seq<int>>
    requires Valid(t)
  {
    MapOf(t.peers)[t.local.id := t.local.Fds()]
  }

  // A message on the map: remove, append to, or add an entry; the own id is never removed.
  function MapStep(map_: map<int, seq<int>>, own: int, m: Msg): map<int, seq<int>> {
    if m.fd == -1 then
      if m.id == own then map_ else map_ - {m.id}
    else if m.id in map_ then
      if |map_[m.id]| >= MAX_VECTORS then map_ else map_[m.id := map_[m.id] + [m.fd]]
    else if m.callocOk then map_[m.id := [m.fd]]
    else map_
  }

  function MapRun(map_: map<int, seq<int>>, own: int, messages: seq<Msg>): map<int, seq<int>>
    decreases |messages|
  {
    if messages == [] then map_ else MapRun(MapStep(map_, own, messages[0]), own, messages[1..])
  }

  lemma {:induction false} MapOfAt(peers: seq<Peer>, i: nat)
    requires PeersValid(peers) && i < |peers|
    ensures peers[i].id in MapOf(peers) && MapOf(peers)[peers[i].id] == peers[i].Fds()
    decreases |peers|
  {
    var n := |peers| - 1;
    if i < n {
      MapOfAt(peers[..n], i);
    }
  }

  lemma {:induction false} MapOfMissing(peers: seq<Peer>, id: int)
    requires PeersValid(peers) && forall i :: 0 <= i < |peers| ==> peers[i].id != id
    ensures id !in MapOf(peers)
    decreases |peers|
  {
    if peers != [] {
      MapOfMissing(peers[..|peers| - 1], id);
    }
  }

  lemma {:induction false} FrontValid(peers: seq<Peer>)
    requires PeersValid(peers) && peers != []
    ensures PeersValid(peers[..|peers| - 1])
    ensures forall k :: 0 <= k < |peers| - 1 ==> peers[k].id != peers[|peers| - 1].id
  {
  }

  lemma {:induction false} MapOfLast(front: seq<Peer>, last: Peer)
    requires AllValid(front) && last.Valid()
    ensures AllValid(front + [last]) && MapOf(front + [last]) == MapOf(front)[last.id := last.Fds()]
  {
    assert (front + [last])[..|front|] == front;
  }

  lemma MinusUpdate(a: map<int, seq<int>>, x: int, y: int, v: seq<int>)
    ensures x != y ==> (a - {x})[y := v] == a[y := v] - {x}
    ensures x == y && x !in a ==> a[y := v] - {x} == a
  {
  }

  lemma {:induction false} MapOfRemove(peers: seq<Peer>, i: nat)
    requires PeersValid(peers) && i < |peers|
    ensures AllValid(Remove(peers, i)) && MapOf(Remove(peers, i)) == MapOf(peers) - {peers[i].id}
    decreases |peers|
  {
    var n := |peers| - 1;
    var front, last := peers[..n], peers[n];
    FrontValid(peers);
    MapOfLast(front, last);
    MinusUpdate(MapOf(front), peers[i].id, last.id, last.Fds());
    assert peers == front + [last];
    if i < n {
      assert front[i] == peers[i];
      MapOfRemove(front, i);
      MapOfLast(Remove(front, i), last);
      RemoveFront(peers, i);
    } else {
      assert Remove(peers, i) == front;
      MapOfMissing(front, last.id);
    }
  }

  lemma {:induction false} MapOfUpdate(peers: seq<Peer>, i: nat, p: Peer)
    requires PeersValid(peers) && i < |peers| && p.Valid() && p.id == peers[i].id
    ensures PeersValid(peers[i := p]) && MapOf(peers[i := p]) == MapOf(peers)[p.id := p.Fds()]
    decreases |peers|
  {
    var n := |peers| - 1;
    var front, last := peers[..n], peers[n];
    if i < n {
      MapOfUpdate(front, i, p);
      assert peers[i := p][..n] == front[i := p] && peers[i := p][n] == last;
    } else {
      assert peers[i := p][..n] == front;
    }
  }

  lemma AddFds(p: Peer, fd: int)
    requires p.Valid() && p.count < MAX_VECTORS
    ensures Add(p, fd).Fds() == p.Fds() + [fd]
  {
  }

  lemma {:induction false} PeerRefines(t: Table, i: nat, m: Msg)
    requires Valid(t) && Valid(Handle(t, m).0) && Search(t, m.id) == At(i)
    ensures Abs(Handle(t, m).0) == MapStep(Abs(t), t.local.id, m)
  {
    MapOfAt(t.peers, i);
    if m.fd == -1 {
      MapOfRemove(t.peers, i);
    } else if t.peers[i].count < MAX_VECTORS {
      MapOfUpdate(t.peers, i, Add(t.peers[i], m.fd));
      AddFds(t.peers[i], m.fd);
    }
  }

  lemma {:induction false} NewRefines(t: Table, m: Msg)
    requires Valid(t) && Valid(Handle(t, m).0) && Search(t, m.id) == Missing
    ensures Abs(Handle(t, m).0) == MapStep(Abs(t), t.local.id, m)
  {
    MapOfMissing(t.peers, m.id);
    if m.fd != -1 && m.callocOk {
      var p := Add(NewPeer(m.id), m.fd);
      AddFds(NewPeer(m.id), m.fd);
      assert p.Fds() == [m.fd];
      MapOfLast(t.peers, p);
    }
  }

  lemma {:induction false} HandleRefines(t: Table, m: Msg)
    requires Valid(t)
    ensures Valid(Handle(t, m).0) && Abs(Handle(t, m).0) == MapStep(Abs(t), t.local.id, m)
    ensures Handle(t, m).0.local.id == t.local.id
  {
    HandleValid(t, m);
    match Search(t, m.id)
    case Local =>
      if m.fd != -1 && t.local.count < MAX_VECTORS {
        AddFds(t.local, m.fd);
      }
    case At(i) => PeerRefines(t, i, m);
    case Missing => NewRefines(t, m);
  }

  /** The return value of every message: 0 if it changes what the client knows of its peers, -1 if not. */
  lemma {:induction false} HandleReturns(t: Table, m: Msg)
    requires Valid(t)
    ensures Handle(t, m).1 == if MapStep(Abs(t), t.local.id, m) != Abs(t) then 0 else -1
  {
    match Search(t, m.id)
    case Local =>
      assert Abs(t)[m.id] == t.local.Fds();
    case At(i) =>
      MapOfAt(t.peers, i);
      assert m.id in Abs(t) && Abs(t)[m.id] == t.peers[i].Fds();
    case Missing =>
      MapOfMissing(t.peers, m.id);
      assert m.id !in Abs(t);
  }

  function Ids(peers: seq<Peer>): seq<int> {
    seq(|peers|, i requires 0 <= i < |peers| => peers[i].id)
  }

  /** The list keeps its order: a message appends a peer at the end, takes one out, or leaves it. */
  lemma {:induction false} HandleOrder(t: Table, m: Msg)
    requires Valid(t)
    ensures var before, after := Ids(t.peers), Ids(Handle(t, m).0.peers);
      if m.id == t.local.id then after == before
      else if m.id in before then
        if m.fd != -1 then after == before
        else exists k :: 0 <= k < |before| && before[k] == m.id && after == before[..k] + before[k + 1..]
      else if m.fd != -1 && m.callocOk then after == before + [m.id]
      else after == before
  {
    var before, after := Ids(t.peers), Ids(Handle(t, m).0.peers);
    var r := Search(t, m.id);
    if r.At? {
      assert before[r.index] == m.id;
      if m.fd == -1 {
        assert after == before[..r.index] + before[r.index + 1..];
      }
    } else if r == Missing {
      assert m.id !in before;
    }
  }

  lemma {:induction false} MapOfSmall(peers: seq<Peer>)
    requires PeersValid(peers)
    ensures forall id :: id in MapOf(peers) ==> |MapOf(peers)[id]| <= MAX_VECTORS
    decreases |peers|
  {
    if peers != [] {
      MapOfSmall(peers[..|peers| - 1]);
    }
  }

  /** Refinement: after every sequence of messages the list and the local entry are the map that the
      messages build, the ids are distinct and none is the own id, and no entry has more than 64
      descriptors. */
  lemma {:induction false} RunRefines(t: Table, messages: seq<Msg>)
    requires Valid(t)
    ensures var t' := Run(t, messages);
      && Abs(t') == MapRun(Abs(t), t.local.id, messages)
      && t'.local.id == t.local.id && PeersValid(t'.peers)
      && (forall i :: 0 <= i < |t'.peers| ==> t'.peers[i].id != t.local.id)
      && (forall id :: id in Abs(t') ==> |Abs(t')[id]| <= MAX_VECTORS)
    decreases |messages|
  {
    if messages != [] {
      HandleRefines(t, messages[0]);
      RunRefines(Handle(t, messages[0]).0, messages[1..]);
    } else {
      MapOfSmall(t.peers);
    }
  }

  // ---------- Every descriptor is held or closed, once ----------

  function HeldBy(peers: seq<Peer>): multiset<int>
    requires AllValid(peers)
  {
    if peers == [] then multiset{} else HeldBy(peers[..|peers| - 1]) + multiset(peers[|peers| - 1].Fds())
  }

  predicate Countable(t: Table) {
    t.local.Valid() && AllValid(t.peers)
  }

  function OpenFd(fd: int): multiset<int> {
    if fd >= 0 then multiset{fd} else multiset{}
  }

  function Held(t: Table): multiset<int>
    requires Countable(t)
  {
    HeldBy(t.peers) + multiset(t.local.Fds()) + OpenFd(t.shmFd) + OpenFd(t.sockFd)
  }

  predicate Balanced(t: Table)
    requires Countable(t)
  {
    multiset(t.stored) == Held(t) + multiset(t.closed)
  }

  lemma {:induction false} HeldLast(front: seq<Peer>, last: Peer)
    requires AllValid(front) && last.Valid()
    ensures AllValid(front + [last]) && HeldBy(front + [last]) == HeldBy(front) + multiset(last.Fds())
  {
    assert (front + [last])[..|front|] == front;
  }

  lemma RemoveFront(peers: seq<Peer>, i: nat)
    requires i < |peers| - 1
    ensures var n := |peers| - 1; Remove(peers, i) == Remove(peers[..n], i) + [peers[n]]
  {
  }

  lemma {:induction false} HeldRemove(peers: seq<Peer>, i: nat)
    requires AllValid(peers) && i < |peers|
    ensures AllValid(Remove(peers, i)) && HeldBy(peers) == HeldBy(Remove(peers, i)) + multiset(peers[i].Fds())
    decreases |peers|
  {
    var n := |peers| - 1;
    var front, last := peers[..n], peers[n];
    HeldLast(front, last);
    assert peers == front + [last];
    if i < n {
      HeldRemove(front, i);
      HeldLast(Remove(front, i), last);
      RemoveFront(peers, i);
    } else {
      assert Remove(peers, i) == front;
    }
  }

  lemma {:induction false} HeldAdd(peers: seq<Peer>, i: nat, fd: int)
    requires AllValid(peers) && i < |peers| && peers[i].count < MAX_VECTORS
    ensures AllValid(peers[i := Add(peers[i], fd)])
    ensures HeldBy(peers[i := Add(peers[i], fd)]) == HeldBy(peers) + multiset{fd}
  {
    var after := peers[i := Add(peers[i], fd)];
    HeldRemove(peers, i);
    HeldRemove(after, i);
    AddFds(peers[i], fd);
    assert Remove(after, i) == Remove(peers, i);
  }

  lemma {:induction false} LocalBalanced(t: Table, fd: int)
    requires Valid(t) && Balanced(t) && t.local.count < MAX_VECTORS && fd >= 0
    ensures var t' := t.(local := Add(t.local, fd), stored := t.stored + [fd]); Valid(t') && Balanced(t')
  {
    AddFds(t.local, fd);
  }

  lemma {:induction false} PeerBalanced(t: Table, i: nat, fd: int)
    requires Valid(t) && Balanced(t) && i < |t.peers| && t.peers[i].count < MAX_VECTORS
    ensures var t' := t.(peers := t.peers[i := Add(t.peers[i], fd)], stored := t.stored + [fd]);
      Valid(t') && Balanced(t')
  {
    UpdateValid(t, i, Add(t.peers[i], fd));
    HeldAdd(t.peers, i, fd);
    assert multiset(t.stored + [fd]) == multiset(t.stored) + multiset{fd};
  }

  lemma {:induction false} FreeBalanced(t: Table, i: nat)
    requires Valid(t) && Balanced(t) && i < |t.peers|
    ensures var t' := t.(peers := Remove(t.peers, i), closed := t.closed + t.peers[i].Fds());
      Valid(t') && Balanced(t')
  {
    HeldRemove(t.peers, i);
    RemoveValid(t.peers, i);
  }

  lemma {:induction false} NewBalanced(t: Table, id: int, fd: int)
    requires Valid(t) && Balanced(t) && Search(t, id) == Missing
    ensures var t' := t.(peers := t.peers + [Add(NewPeer(id), fd)], stored := t.stored + [fd]);
      Valid(t') && Balanced(t')
  {
    var p := Add(NewPeer(id), fd);
    AppendValid(t, p);
    AddFds(NewPeer(id), fd);
    assert p.Fds() == [fd];
    HeldLast(t.peers, p);
  }

  lemma {:induction false} HandleBalanced(t: Table, m: Msg)
    requires Valid(t) && Balanced(t)
    ensures Valid(Handle(t, m).0) && Balanced(Handle(t, m).0)
  {
    match Search(t, m.id)
    case Local =>
      if m.fd != -1 && t.local.count < MAX_VECTORS {
        LocalBalanced(t, m.fd);
      }
    case At(i) =>
      if m.fd == -1 {
        FreeBalanced(t, i);
      } else if t.peers[i].count < MAX_VECTORS {
        PeerBalanced(t, i, m.fd);
      }
    case Missing =>
      if m.fd != -1 && m.callocOk {
        NewBalanced(t, m.id, m.fd);
      }
  }

  /** Conservation: over every sequence of messages, each descriptor the client took over is either
      still held, once, or was closed, once. */
  lemma {:induction false} RunBalanced(t: Table, messages: seq<Msg>)
    requires Valid(t) && Balanced(t)
    ensures Balanced(Run(t, messages))
    decreases |messages|
  {
    if messages != [] {
      HandleBalanced(t, messages[0]);
      RunBalanced(Handle(t, messages[0]).0, messages[1..]);
    }
  }

  // ---------- Descriptors received and dropped ----------

  // The message brings a descriptor and meets one of the two failing branches.
  predicate Drops(t: Table, m: Msg)
    requires Valid(t)
  {
    m.fd != -1 &&
    match Search(t, m.id)
    case Local => t.local.count >= MAX_VECTORS
    case At(i) => t.peers[i].count >= MAX_VECTORS
    case Missing => !m.callocOk
  }

  function FdOf(m: Msg): multiset<int> {
    if m.fd == -1 then multiset{} else multiset{m.fd}
  }

  function Received(messages: seq<Msg>): multiset<int> {
    if messages == [] then multiset{} else FdOf(messages[0]) + Received(messages[1..])
  }

  function Dropped(t: Table, messages: seq<Msg>): multiset<int>
    requires Valid(t)
    decreases |messages|
  {
    if messages == [] then multiset{}
    else
      HandleValid(t, messages[0]);
      (if Drops(t, messages[0]) then FdOf(messages[0]) else multiset{})
      + Dropped(Handle(t, messages[0]).0, messages[1..])
  }

  // No message of the run meets a failing branch.
  predicate NoneDrops(t: Table, messages: seq<Msg>)
    requires Valid(t)
    decreases |messages|
  {
    if messages == [] then true
    else
      HandleValid(t, messages[0]);
      !Drops(t, messages[0]) && NoneDrops(Handle(t, messages[0]).0, messages[1..])
  }

  lemma {:induction false} HandleLedger(t: Table, m: Msg)
    requires Valid(t)
    ensures multiset(t.stored) + FdOf(m) ==
            multiset(Handle(t, m).0.stored) + (if Drops(t, m) then FdOf(m) else multiset{})
  {
  }

  lemma Chain(a: multiset<int>, b: multiset<int>, c: multiset<int>, x: multiset<int>, y: multiset<int>,
              u: multiset<int>, v: multiset<int>)
    requires a + x == b + u && b + y == c + v
    ensures a + (x + y) == c + (u + v)
  {
    assert a + (x + y) == (a + x) + y == b + y + u;
  }

  lemma {:induction false} RunLedger(t: Table, messages: seq<Msg>)
    requires Valid(t)
    ensures multiset(t.stored) + Received(messages) ==
            multiset(Run(t, messages).stored) + Dropped(t, messages)
    decreases |messages|
  {
    if messages != [] {
      var m := messages[0];
      HandleValid(t, m);
      var t' := Handle(t, m).0;
      HandleLedger(t, m);
      RunLedger(t', messages[1..]);
      Chain(multiset(t.stored), multiset(t'.stored), multiset(Run(t, messages).stored),
        FdOf(m), Received(messages[1..]),
        if Drops(t, m) then FdOf(m) else multiset{}, Dropped(t', messages[1..]));
    }
  }

  lemma {:induction false} DroppedNone(t: Table, messages: seq<Msg>)
    requires Valid(t)
    ensures Dropped(t, messages) == multiset{} <==> NoneDrops(t, messages)
    decreases |messages|
  {
    if messages != [] {
      var m := messages[0];
      HandleValid(t, m);
      DroppedNone(Handle(t, m).0, messages[1..]);
      assert Drops(t, m) ==> m.fd in Dropped(t, messages);
    }
  }

  lemma SumsEqual(total: multiset<int>, kept: multiset<int>, lost: multiset<int>)
    requires total == kept + lost
    ensures total == kept <==> lost == multiset{}
  {
    if total == kept {
      assert |total| == |kept| + |lost|;
    }
  }

  /** The whole ledger: over every sequence of messages, the descriptors the client had and those it
      received are those it holds, those it closed and those it dropped; so all of them are held
      or closed, once, if and only if no message meets the full entry or the failed allocation. */
  lemma {:induction false} HeldOrClosedExactly(t: Table, messages: seq<Msg>)
    requires Valid(t) && Balanced(t)
    ensures var t' := Run(t, messages);
      var all, kept := multiset(t.stored) + Received(messages), Held(t') + multiset(t'.closed);
      && all == kept + Dropped(t, messages)
      && (all == kept <==> NoneDrops(t, messages))
  {
    var t' := Run(t, messages);
    RunBalanced(t, messages);
    RunLedger(t, messages);
    DroppedNone(t, messages);
    SumsEqual(multiset(t.stored) + Received(messages), Held(t') + multiset(t'.closed), Dropped(t, messages));
  }

  function Repeat(m: Msg, n: nat): (r: seq<Msg>)
    ensures |r| == n && forall k :: 0 <= k < n ==> r[k] == m
  {
    seq(n, k => m)
  }

  /** Where it leaks: of any number of vectors for the own id, exactly those past the 64th are
      dropped; so 65 on a new client lose one. */
  lemma {:induction false} OwnVectorsDropped(t: Table, fd: int, n: nat)
    requires Valid(t) && fd >= 0
    ensures var room := MAX_VECTORS - t.local.count;
      Dropped(t, Repeat(RawMsg(t.local.id, fd, true), n))[fd] == (if n <= room then 0 else n - room)
    decreases n
  {
    if n > 0 {
      var m: Msg := RawMsg(t.local.id, fd, true);
      HandleValid(t, m);
      OwnVectorsDropped(Handle(t, m).0, fd, n - 1);
      assert Repeat(m, n)[1..] == Repeat(m, n - 1);
    }
  }

  // ---------- Closing ----------

  function AllFds(peers: seq<Peer>): seq<int>
    requires AllValid(peers)
  {
    if peers == [] then [] else peers[0].Fds() + AllFds(peers[1..])
  }

  function IfOpen(fd: int): seq<int> {
    if fd >= 0 then [fd] else []
  }

  function Close(t: Table): Table
    requires Valid(t)
  {
    Table(Peer(-1, seq(MAX_VECTORS, i => -1), 0), [], -1, -1,
          t.closed + AllFds(t.peers) + IfOpen(t.shmFd) + IfOpen(t.sockFd) + t.local.Fds(), t.stored)
  }

  lemma {:induction false} AllFdsHeld(peers: seq<Peer>)
    requires AllValid(peers)
    ensures multiset(AllFds(peers)) == HeldBy(peers)
    decreases |peers|
  {
    if peers != [] {
      HeldRemove(peers, 0);
      assert Remove(peers, 0) == peers[1..];
      AllFdsHeld(peers[1..]);
    }
  }

  /** After a close nothing is held, and every descriptor ever taken over was closed exactly once. */
  lemma {:induction false} CloseReleasesAll(t: Table)
    requires Valid(t) && Balanced(t)
    ensures Valid(Close(t)) && Held(Close(t)) == multiset{} && Idle(Close(t)) && Close(t).local.id == -1
    ensures multiset(Close(t).closed) == multiset(t.stored)
  {
    AllFdsHeld(t.peers);
    assert Close(t).local.Fds() == [];
    var a, b, c, d, e := t.closed, AllFds(t.peers), IfOpen(t.shmFd), IfOpen(t.sockFd), t.local.Fds();
    assert multiset(a + b + c + d + e) == multiset(a) + multiset(b) + multiset(c) + multiset(d) + multiset(e);
    assert multiset(c) == OpenFd(t.shmFd) && multiset(d) == OpenFd(t.sockFd);
  }

  /** A whole session: everything received is closed in the end, exactly once, except what was dropped. */
  lemma {:induction false} SessionClosesAll(t: Table, messages: seq<Msg>)
    requires Valid(t) && Balanced(t)
    ensures var end := Close(Run(t, messages));
      && Held(end) == multiset{}
      && multiset(t.stored) + Received(messages) == multiset(end.closed) + Dropped(t, messages)
  {
    RunBalanced(t, messages);
    RunLedger(t, messages);
    CloseReleasesAll(Run(t, messages));
  }

  // ---------- Connecting ----------

  // What ivshmem_client_read_one_msg gives: nothing, or an id and a descriptor or -1.
  datatype Reading = Failed | Read(id: int, fd: Fd)

  type Fd = x: int | x >= -1 witness -1

  // A client that is not connected.
  predicate Idle(t: Table) {
    t.local.vectors == seq(MAX_VECTORS, i => -1) && t.local.count == 0 && t.peers == [] && t.shmFd == t.sockFd == -1
  }

  // Version 0, then an id, both without a descriptor, then the shared memory with id -1.
  predicate Greeted(hello: Reading, own: Reading) {
    hello == Read(0, -1) && own.Read? && own.id >= 0 && own.fd == -1
  }

  predicate Handshake(hello: Reading, own: Reading, shm: Reading) {
    Greeted(hello, own) && shm.Read? && shm.id == -1 && shm.fd >= 0
  }

  // ivshmem_client_connect: new table and return value.  `sock` is what socket() returns; `connects`
  // and the three readings are what the server does.
  function Connection(t: Table, sock: Fd, connects: bool, hello: Reading, own: Reading, shm: Reading): (Table, int) {
    if sock < 0 then (t.(sockFd := sock), -1)
    else
      var id := if connects && hello == Read(0, -1) && own.Read? then own.id else t.local.id;
      var t' := t.(local := t.local.(id := id));
      if connects && Handshake(hello, own, shm) then
        (t'.(sockFd := sock, shmFd := shm.fd, stored := t.stored + [sock] + [shm.fd]), 0)
      else
        var third := Third(connects, hello, own, shm);
        (t'.(sockFd := -1, stored := t.stored + [sock] + third, closed := t.closed + third + [sock]), -1)
  }

  // The descriptor of the third message, if the connection gets that far.
  function Third(connects: bool, hello: Reading, own: Reading, shm: Reading): seq<int> {
    if connects && Greeted(hello, own) && shm.Read? then IfOpen(shm.fd) else []
  }

  lemma {:induction false} IdleBalanced(t: Table)
    requires Valid(t) && Idle(t)
    ensures Held(t) == multiset{} && (Balanced(t) <==> multiset(t.stored) == multiset(t.closed))
  {
    assert t.local.Fds() == [];
  }

  lemma MixedSums(a: seq<int>, b: seq<int>, x: int, third: seq<int>)
    requires multiset(a) == multiset(b)
    ensures multiset(a + [x] + third) == multiset(b + third + [x])
  {
    assert multiset(a + [x] + third) == multiset(a) + multiset{x} + multiset(third);
    assert multiset(b + third + [x]) == multiset(b) + multiset(third) + multiset{x};
  }

  // The tables a connection can end in, over the two ledgers.
  lemma {:induction false} ClosedAgain(t: Table, id: int, sock: int, third: seq<int>)
    requires Valid(t) && Balanced(t) && Idle(t)
    ensures var t' := t.(local := t.local.(id := id), sockFd := -1,
                         stored := t.stored + [sock] + third, closed := t.closed + third + [sock]);
      Valid(t') && Balanced(t') && Idle(t') && Held(t') == multiset{}
  {
    IdleBalanced(t);
    MixedSums(t.stored, t.closed, sock, third);
    IdleBalanced(t.(local := t.local.(id := id), sockFd := -1,
                    stored := t.stored + [sock] + third, closed := t.closed + third + [sock]));
  }

  lemma {:induction false} HeldPair(t: Table, id: int, sock: int, shm: int)
    requires Valid(t) && Balanced(t) && Idle(t) && sock >= 0 && shm >= 0
    ensures var t' := t.(local := t.local.(id := id), sockFd := sock, shmFd := shm,
                         stored := t.stored + [sock] + [shm]);
      Valid(t') && Balanced(t') && Held(t') == multiset{sock, shm}
  {
    IdleBalanced(t);
    assert t.local.Fds() == [];
    assert t.local.(id := id).Fds() == [];
  }

  /** A connection that fails, at whatever point, holds nothing; one that succeeds holds its two
      descriptors; and either way every descriptor taken over is held or closed, once. */
  lemma {:induction false} ConnectionBalanced(
      t: Table, sock: Fd, connects: bool, hello: Reading, own: Reading, shm: Reading)
    requires Valid(t) && Balanced(t) && Idle(t)
    ensures var (t', ret) := Connection(t, sock, connects, hello, own, shm);
      && Valid(t') && Balanced(t')
      && (ret == 0 <==>
            && sock >= 0 && connects && hello == Read(0, -1) && own.Read? && own.id >= 0 && own.fd == -1
            && shm.Read? && shm.id == -1 && shm.fd >= 0)
      && (ret == 0 ==> Held(t') == multiset{sock, shm.fd} && t'.local.id == own.id && t'.peers == [])
      && (ret != 0 ==> ret == -1 && Idle(t') && Held(t') == multiset{})
      && t'.local.id == (if sock >= 0 && connects && hello == Read(0, -1) && own.Read? then own.id else t.local.id)
  {
    var id := if connects && hello == Read(0, -1) && own.Read? then own.id else t.local.id;
    if sock < 0 {
      IdleBalanced(t);
    } else if connects && Handshake(hello, own, shm) {
      HeldPair(t, id, sock, shm.fd);
    } else {
      ClosedAgain(t, id, sock, Third(connects, hello, own, shm));
    }
  }

  // The descriptors a connection overwrites.
  function Overwritten(t: Table, ret: int): multiset<int> {
    OpenFd(t.sockFd) + if ret == 0 then OpenFd(t.shmFd) else multiset{}
  }

  // The descriptors of the peers and of the local entry, which a connection leaves alone.
  function Vectors(t: Table): multiset<int>
    requires Countable(t)
  {
    HeldBy(t.peers) + multiset(t.local.Fds())
  }

  lemma {:induction false} ConnectionKeeps(
      t: Table, sock: Fd, connects: bool, hello: Reading, own: Reading, shm: Reading)
    requires Countable(t)
    ensures var (t', ret) := Connection(t, sock, connects, hello, own, shm);
      && Countable(t') && Vectors(t') == Vectors(t)
      && (ret == 0 ==> sock >= 0 && shm.Read? && shm.fd >= 0 && t'.sockFd == sock && t'.shmFd == shm.fd
                       && t'.stored == t.stored + [sock] + [shm.fd] && t'.closed == t.closed)
      && (ret != 0 ==> t'.sockFd == -1 && t'.shmFd == t.shmFd)
      && (ret != 0 && sock < 0 ==> t'.stored == t.stored && t'.closed == t.closed)
      && (ret != 0 && sock >= 0 ==>
            var third := Third(connects, hello, own, shm);
            t'.stored == t.stored + [sock] + third && t'.closed == t.closed + third + [sock])
  {
  }

  lemma PairSums(a: seq<int>, x: int, y: int)
    ensures multiset(a + [x] + [y]) == multiset(a) + multiset{x} + multiset{y}
  {
  }

  lemma ThirdSums(a: seq<int>, b: seq<int>, x: int, third: seq<int>)
    ensures multiset(a + [x] + third) == multiset(a) + multiset{x} + multiset(third)
    ensures multiset(b + third + [x]) == multiset(b) + multiset(third) + multiset{x}
  {
  }

  lemma Regroup(
      v: multiset<int>, m: multiset<int>, k: multiset<int>, c: multiset<int>, x: multiset<int>, y: multiset<int>)
    ensures (v + m + k + c) + x + y == (v + y + x) + c + (k + m)
    ensures (v + m + k + c) + x + y == (v + m) + (c + y + x) + k
  {
  }

  // The ledger after a connection, from the parts it had before.
  lemma {:induction false} SuccessLoses(t: Table, t': Table, sock: int, shm: int)
    requires Countable(t) && Balanced(t) && Countable(t') && Vectors(t') == Vectors(t)
    requires sock >= 0 && shm >= 0 && t'.sockFd == sock && t'.shmFd == shm
    requires t'.stored == t.stored + [sock] + [shm] && t'.closed == t.closed
    ensures multiset(t'.stored) == Held(t') + multiset(t'.closed) + Overwritten(t, 0)
  {
    PairSums(t.stored, sock, shm);
    Regroup(Vectors(t), OpenFd(t.shmFd), OpenFd(t.sockFd), multiset(t.closed), multiset{sock}, multiset{shm});
  }

  lemma {:induction false} FailureLoses(t: Table, t': Table, sock: Fd, third: seq<int>)
    requires Countable(t) && Balanced(t) && Countable(t') && Vectors(t') == Vectors(t)
    requires t'.sockFd == -1 && t'.shmFd == t.shmFd
    requires sock < 0 ==> t'.stored == t.stored && t'.closed == t.closed
    requires sock >= 0 ==> t'.stored == t.stored + [sock] + third && t'.closed == t.closed + third + [sock]
    ensures multiset(t'.stored) == Held(t') + multiset(t'.closed) + Overwritten(t, -1)
  {
    var v, m, k, c := Vectors(t), OpenFd(t.shmFd), OpenFd(t.sockFd), multiset(t.closed);
    assert Held(t') == v + m && Overwritten(t, -1) == k;
    if sock >= 0 {
      ThirdSums(t.stored, t.closed, sock, third);
      Regroup(v, m, k, c, multiset{sock}, multiset(third));
    } else {
      Regroup(v, m, k, c, multiset{}, multiset{});
    }
  }

  lemma {:induction false} ConnectionLoses(
      t: Table, sock: Fd, connects: bool, hello: Reading, own: Reading, shm: Reading)
    requires Countable(t) && Balanced(t)
    ensures var (t', ret) := Connection(t, sock, connects, hello, own, shm);
      Countable(t') && multiset(t'.stored) == Held(t') + multiset(t'.closed) + Overwritten(t, ret)
  {
    var (t', ret) := Connection(t, sock, connects, hello, own, shm);
    ConnectionKeeps(t, sock, connects, hello, own, shm);
    if ret == 0 {
      SuccessLoses(t, t', sock, shm.fd);
    } else {
      FailureLoses(t, t', sock, Third(connects, hello, own, shm));
    }
  }

  /** Connecting a client that may be connected already: its ledger stays balanced if and only if it
      has no socket open and, when the connection succeeds, no shared memory; otherwise exactly
      those descriptors are overwritten and lost. */
  lemma {:induction false} ReconnectExactly(
      t: Table, sock: Fd, connects: bool, hello: Reading, own: Reading, shm: Reading)
    requires Valid(t) && Balanced(t)
    ensures var (t', ret) := Connection(t, sock, connects, hello, own, shm);
      Countable(t') && (Balanced(t') <==> t.sockFd == -1 && (ret == 0 ==> t.shmFd == -1))
  {
    var (t', ret) := Connection(t, sock, connects, hello, own, shm);
    ConnectionLoses(t, sock, connects, hello, own, shm);
    SumsEqual(multiset(t'.stored), Held(t') + multiset(t'.closed), Overwritten(t, ret));
    assert t.sockFd >= 0 ==> t.sockFd in Overwritten(t, ret);
    assert ret == 0 && t.shmFd >= 0 ==> t.shmFd in Overwritten(t, ret);
  }

  function FdIn(r: Reading): seq<int> {
    if r.Read? then IfOpen(r.fd) else []
  }

  // The descriptors of the messages a connection reads before it returns.
  function Brought(connects: bool, hello: Reading, own: Reading, shm: Reading): seq<int> {
    if !connects then []
    else if hello != Read(0, -1) then FdIn(hello)
    else if !Greeted(hello, own) then FdIn(hello) + FdIn(own)
    else FdIn(hello) + FdIn(own) + FdIn(shm)
  }

  // One of the first two messages read brings a descriptor.
  predicate GreetingFd(connects: bool, hello: Reading, own: Reading) {
    connects && ((hello.Read? && hello.fd != -1) || (hello == Read(0, -1) && own.Read? && own.fd != -1))
  }

  lemma {:induction false} BroughtThird(connects: bool, hello: Reading, own: Reading, shm: Reading)
    ensures Brought(connects, hello, own, shm) == Third(connects, hello, own, shm) ||
            |Brought(connects, hello, own, shm)| > |Third(connects, hello, own, shm)|
    ensures Brought(connects, hello, own, shm) == Third(connects, hello, own, shm) <==>
            !GreetingFd(connects, hello, own)
  {
  }

  lemma ExtraShows(before: seq<int>, a: seq<int>, b: seq<int>)
    requires a == b || |a| > |b|
    ensures multiset(before + b) == multiset(before + a) <==> a == b
  {
    assert |multiset(before + a)| == |before + a| && |multiset(before + b)| == |before + b|;
  }

  /** What a connection drops: every descriptor of the messages it reads is taken over, and so held or
      closed, if and only if neither greeting brings one. */
  lemma {:induction false} ConnectionTakesExactly(
      t: Table, sock: int, connects: bool, hello: Reading, own: Reading, shm: Reading)
    requires sock >= 0
    ensures multiset(Connection(t, sock, connects, hello, own, shm).0.stored) ==
            multiset(t.stored + [sock] + Brought(connects, hello, own, shm))
            <==> !GreetingFd(connects, hello, own)
  {
    BroughtThird(connects, hello, own, shm);
    assert Connection(t, sock, connects, hello, own, shm).0.stored ==
           t.stored + [sock] + Third(connects, hello, own, shm);
    ExtraShows(t.stored + [sock], Brought(connects, hello, own, shm), Third(connects, hello, own, shm));
  }

  // ---------- The client ----------

  class Client {
    var local: Peer
    var peers: seq<Peer>
    var shmFd: int
    var sockFd: int
    var closed: seq<int>
    var stored: seq<int>

    ghost function View(): Table
      reads this
    {
      Table(local, peers, shmFd, sockFd, closed, stored)
    }

    constructor Init()
      ensures Valid(View()) && Balanced(View()) && Idle(View()) && local.id == -1 && stored == closed == []
    {
      local := Peer(-1, seq(MAX_VECTORS, i => -1), 0);
      peers, closed, stored := [], [], [];
      shmFd, sockFd := -1, -1;
    }

    method Connect(sock: Fd, connects: bool, hello: Reading, own: Reading, shm: Reading) returns (ret: int)
      modifies this
      ensures (View(), ret) == Connection(old(View()), sock, connects, hello, own, shm)
    {
      sockFd := sock;
      if sockFd < 0 {
        return -1;
      }
      stored := stored + [sock];
      if connects && hello == Read(0, -1) {
        if own.Read? {
          local := local.(id := own.id);
        }
        if own.Read? && local.id >= 0 && own.fd == -1 {
          if shm.Read? && shm.id == -1 && shm.fd >= 0 {
            shmFd := shm.fd;
            stored := stored + [shm.fd];
            return 0;
          }
          if shm.Read? && shm.fd >= 0 {
            stored, closed := stored + [shm.fd], closed + [shm.fd];
          }
        }
      }
      closed := closed + [sockFd];
      sockFd := -1;
      assert stored == old(stored) + [sock] + Third(connects, hello, own, shm);
      assert closed == old(closed) + Third(connects, hello, own, shm) + [sock];
      return -1;
    }

    method SearchPeer(id: int) returns (r: Where)
      ensures r == Search(View(), id)
    {
      if id == local.id {
        return Local;
      }
      var i := 0;
      while i < |peers|
        invariant i <= |peers| && SearchFrom(peers, id, 0) == SearchFrom(peers, id, i)
      {
        if peers[i].id == id {
          return At(i);
        }
        i := i + 1;
      }
      return Missing;
    }

    method FreePeer(index: nat)
      requires index < |peers| && peers[index].Valid()
      modifies this`peers, this`closed
      ensures peers == Remove(old(peers), index)
      ensures closed == old(closed) + old(peers)[index].Fds()
    {
      var peer := peers[index];
      peers := peers[..index] + peers[index + 1..];
      var vector := 0;
      while vector < peer.count
        invariant vector <= peer.count && closed == old(closed) + peer.vectors[..vector]
        invariant peers == Remove(old(peers), index)
      {
        assert peer.vectors[..vector + 1] == peer.vectors[..vector] + [peer.vectors[vector]];
        closed := closed + [peer.vectors[vector]];
        vector := vector + 1;
      }
    }

    method HandleServerMsg(m: Msg) returns (ret: int)
      requires Valid(View())
      modifies this
      ensures Valid(View()) && (View(), ret) == Handle(old(View()), m)
    {
      HandleValid(View(), m);
      var r := SearchPeer(m.id);
      ghost var before := peers;
      if m.fd == -1 {
        if r == Missing || r == Local {
          return -1;
        }
        FreePeer(r.index);
        return 0;
      }
      if r == Missing {
        if !m.callocOk {
          return -1;
        }
        peers := peers + [NewPeer(m.id)];
        r := At(|peers| - 1);
      }
      var peer := if r == Local then local else peers[r.index];
      if peer.count >= MAX_VECTORS {
        return -1;
      }
      peer := peer.(vectors := peer.vectors[peer.count := m.fd], count := peer.count + 1);
      if r == Local {
        local := peer;
      } else {
        peers := peers[r.index := peer];
        assert r == At(|before|) ==> peers == before + [Add(NewPeer(m.id), m.fd)];
      }
      stored := stored + [m.fd];
      return 0;
    }

    method ClosePeers()
      requires AllValid(peers)
      modifies this`peers, this`closed
      ensures peers == [] && closed == old(closed) + AllFds(old(peers))
    {
      while |peers| > 0
        invariant AllValid(peers) && closed + AllFds(peers) == old(closed) + AllFds(old(peers))
        decreases |peers|
      {
        ghost var log, first, later := closed, peers[0].Fds(), AllFds(peers[1..]);
        assert Remove(peers, 0) == peers[1..];
        FreePeer(0);
        assert log + (first + later) == (log + first) + later;
      }
    }

    method CloseLocal()
      requires LocalValid(local)
      modifies this`local, this`closed
      ensures local == Peer(old(local.id), seq(MAX_VECTORS, i => -1), old(local.count))
      ensures closed == old(closed) + old(local.Fds())
    {
      var i := 0;
      while i < MAX_VECTORS
        invariant i <= MAX_VECTORS && |local.vectors| == MAX_VECTORS
        invariant local.count == old(local.count) && local.id == old(local.id)
        invariant forall k :: 0 <= k < i ==> local.vectors[k] == -1
        invariant forall k :: i <= k < MAX_VECTORS ==> local.vectors[k] == old(local.vectors[k])
        invariant closed == old(closed) + old(local.vectors)[..if i < local.count then i else local.count]
      {
        if local.vectors[i] >= 0 {
          closed := closed + [local.vectors[i]];
          local := local.(vectors := local.vectors[i := -1]);
        }
        i := i + 1;
      }
      assert local.vectors == seq(MAX_VECTORS, k => -1);
    }

    method CloseClient()
      requires Valid(View())
      modifies this
      ensures View() == Close(old(View()))
    {
      ClosePeers();
      if shmFd >= 0 {
        closed := closed + [shmFd];
        shmFd := -1;
      }
      if sockFd >= 0 {
        closed := closed + [sockFd];
        sockFd := -1;
      }
      local := local.(id := -1);
      CloseLocal();
      local := local.(count := 0);
    }
  }
}
