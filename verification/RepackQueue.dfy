/**
  The rebalancer meets the ring: which repacks keep the queued pages of a channel, and why
  the traffic of one channel never touches the pages of another.
 */
module RepackQueue {
  import opened Layout
  import PageRing
  import RingFifo
  import CT = ChannelTable
  import TS = TableShape

  type Channel = PageRing.Channel

  predicate Indexed(c: Channel) {
    c.head < c.numPage && c.tail < c.numPage
  }

  function CountOf(c: Channel): nat
    requires Indexed(c)
  {
    if c.head >= c.tail then c.head - c.tail else c.head + c.numPage - c.tail
  }

  // The physical pages of the queue, oldest first.
  function Occupied(c: Channel): seq<nat>
    requires Indexed(c)
  {
    seq(CountOf(c), i requires 0 <= i < CountOf(c) => c.base + RingFifo.Slot(c.tail, i, c.numPage))
  }

  // The queued page contents, oldest first.
  function Queue(area: seq<Page>, c: Channel): seq<Page>
    requires Indexed(c) && c.base + c.numPage <= |area|
  {
    seq(CountOf(c), i requires 0 <= i < CountOf(c) => area[Occupied(c)[i]])
  }

  // The queue reads the same through c and c', whatever the pages hold.
  ghost predicate SameQueue(c: Channel, c': Channel, size: nat)
    requires Indexed(c) && Indexed(c') && c.base + c.numPage <= size && c'.base + c'.numPage <= size
  {
    forall area: seq<Page> :: |area| == size ==> Queue(area, c) == Queue(area, c')
  }

  lemma {:induction false} SameQueueSamePages(c: Channel, c': Channel, size: nat)
    requires Indexed(c) && Indexed(c') && c.base + c.numPage <= size && c'.base + c'.numPage <= size
    ensures SameQueue(c, c', size) <==> Occupied(c) == Occupied(c')
  {
    var a, b := Occupied(c), Occupied(c');
    if a != b {
      var blank: Page := seq(PAGE, x => 0 as Byte);
      var area := seq(size, k => blank);
      if |a| == |b| {
        var i :| 0 <= i < |a| && a[i] != b[i];
        var ink: Page := seq(PAGE, x => 1 as Byte);
        assert ink[0] != blank[0];
        area := area[a[i] := ink];
        assert Queue(area, c)[i] == ink && Queue(area, c')[i] == blank;
      } else {
        assert |Queue(area, c)| != |Queue(area, c')|;
      }
      assert Queue(area, c) != Queue(area, c');
    } else {
      forall area: seq<Page> | |area| == size ensures Queue(area, c) == Queue(area, c') {
        assert |Queue(area, c)| == |a|;
      }
    }
  }

  // ---------- The exact condition ----------

  lemma {:induction false} KeepsPages(c: Channel, base: nat, numPage: nat)
    requires Indexed(c) && numPage > 0 && RingFifo.KeepsQueue(c, base, numPage)
    ensures Indexed(PageRing.Repacked(c, base, numPage))
    ensures Occupied(PageRing.Repacked(c, base, numPage)) == Occupied(c)
  {
    if c.head != c.tail {
      RingFifo.ModLast(c.head, numPage);
      RingFifo.ModLast(c.tail, numPage);
    }
  }

  lemma {:induction false} LosesPages(c: Channel, base: nat, numPage: nat)
    requires Indexed(c) && numPage > 0 && !RingFifo.KeepsQueue(c, base, numPage)
    requires base <= c.base || c.numPage <= numPage
    ensures var c' := PageRing.Repacked(c, base, numPage); Indexed(c') && Occupied(c') != Occupied(c)
  {
    var c' := PageRing.Repacked(c, base, numPage);
    TS.ModRange(c.head, numPage);
    TS.ModRange(c.tail, numPage);
    var a, b := Occupied(c), Occupied(c');
    assert a[0] == c.base + c.tail;
    if |a| == |b| && base + c'.tail != c.base + c.tail {
      assert b[0] == base + c'.tail;
    } else if |a| == |b| {
      // same start: then the same base, and some old page is past the new end of the region
      var k := if c.head < c.tail then c.numPage - 1 - c.tail else |a| - 1;
      assert a[k] == c.base + c.tail + k;
      assert b[k] < base + numPage;
    }
  }

  // ---------- Channels of the table ----------

  function RingOf(e: CT.Entry): Channel {
    PageRing.Channel(e.bufOffset / PAGE, e.numPage, e.head, e.tail)
  }

  lemma Product(a: nat, b: nat, x: nat, y: nat)
    requires a <= b && x <= y
    ensures a * x <= b * y
  {
    CT.MulMono(a, x, y);
    CT.MulMono(y, a, b);
  }

  // n shares of x pages fit where one more page each for m shares of y would not; then fewer than
  // n shares of x end before m shares of y.
  lemma {:induction false} FewerShares(i: nat, m: nat, n: nat, x: nat, y: nat)
    requires m < i < n && n * x < m * (y + 1) && m <= x
    ensures i * x < m * y
  {
    Product(i, n - 1, x, x);
    CT.MulAdd(x, n - 1, 1);
    CT.MulAdd(m, y, 1);
  }

  // The shares of m and of n > m channels, without the divisions.
  lemma {:induction false} ShareFacts(m: nat, n: nat)
    requires 0 < m < n <= MAX_CHANNELS
    ensures CT.TargetPages(n) < CT.TargetPages(m)
    ensures n * CT.TargetPages(n) < m * (CT.TargetPages(m) + 1)
    ensures CT.TargetPages(n) >= 31
  {
    TS.TargetDecreases(m, n);
    CT.TargetBounds(m);
    CT.TargetBounds(n);
    CT.MulCancel(PAGE, m * (CT.TargetPages(m) + 1), n * CT.TargetPages(n));
  }

  lemma {:induction false} FirstPageInit(i: nat)
    ensures TS.FirstPage(i, 0) == 4 * i
  {
    if i > 0 {
      FirstPageInit(i - 1);
    }
  }

  lemma {:induction false} FirstRepackMoves(i: nat, n: nat)
    requires 0 < i < n <= MAX_CHANNELS
    ensures TS.FirstPage(i, n) > TS.FirstPage(i, 0) && TS.Pages(i, 0) <= CT.TargetPages(n)
  {
    FirstPageInit(i);
    TS.FirstPageBlock(i, n);
    CT.TargetBounds(n);
    CT.MulMono(i, 31, CT.TargetPages(n));
  }

  lemma {:induction false} BlockMoves(i: nat, m: nat, n: nat)
    requires 0 < i <= m < n <= MAX_CHANNELS
    ensures TS.FirstPage(i, n) < TS.FirstPage(i, m)
  {
    TS.FirstPageBlock(i, n);
    TS.FirstPageBlock(i, m);
    ShareFacts(m, n);
    CT.MulMono(i, CT.TargetPages(n) + 1, CT.TargetPages(m));
    CT.MulAdd(i, CT.TargetPages(n), 1);
  }

  lemma {:induction false} PastBlockMoves(i: nat, m: nat, n: nat)
    requires 0 < m < i < n <= MAX_CHANNELS
    ensures TS.FirstPage(i, n) < TS.FirstPage(i, m)
  {
    TS.FirstPageBlock(i, n);
    TS.FirstPageBlock(m, m);
    TS.FirstPageGrows(m, i, m);
    ShareFacts(m, n);
    FewerShares(i, m, n, CT.TargetPages(n), CT.TargetPages(m));
  }

  // Where a repack puts a channel other than the first: never where it was.
  lemma {:induction false} RepackMoves(i: nat, m: nat, n: nat)
    requires m < n <= MAX_CHANNELS && 0 < i < n
    ensures m > 0 ==> TS.FirstPage(i, n) < TS.FirstPage(i, m)
    ensures m == 0 ==> TS.FirstPage(i, n) > TS.FirstPage(i, m) && TS.Pages(i, m) <= CT.TargetPages(n)
  {
    if m == 0 {
      FirstRepackMoves(i, n);
    } else if i <= m {
      BlockMoves(i, m, n);
    } else {
      PastBlockMoves(i, m, n);
    }
  }

  lemma {:induction false} RingOfRepacked(t: CT.Table, m: nat, i: nat)
    requires TS.Shaped(t, m) && i < t.numActive
    ensures var c, c' := RingOf(t.entries[i]), RingOf(CT.Repack(t).entries[i]);
      && Indexed(c) && c.base == TS.FirstPage(i, m) && c.base + c.numPage <= DATA_SIZE / PAGE
      && Indexed(c') && c'.base == TS.FirstPage(i, t.numActive) && c'.numPage == CT.TargetPages(t.numActive)
      && c'.base + c'.numPage <= DATA_SIZE / PAGE
      && c' == PageRing.Repacked(c, c'.base, c'.numPage)
  {
    var n := t.numActive;
    TS.RepackShaped(t, m);
    var t' := CT.Repack(t);
    assert TS.EntryShaped(t.entries[i], i, m) && TS.EntryShaped(t'.entries[i], i, n);
    RegionInside(t, m, i);
    RegionInside(t', n, i);
  }

  lemma {:induction false} RegionInside(t: CT.Table, m: nat, i: nat)
    requires TS.Shaped(t, m) && i < t.numActive
    ensures TS.FirstPage(i, m) + TS.Pages(i, m) <= DATA_SIZE / PAGE
  {
    TS.FirstPageGrows(i, t.numActive, m);
  }

  /** Repacks and queues: when a rebalance of a reachable table repacks (m < numActive), the pages
      queued on channel i are still the queue afterwards, whatever they hold, if and only if the
      ring is empty, or i is 0, the occupied pages do not wrap, and they fit: tail < head <= the
      new page count, and fewer of them than the new page count.  Page contents are not moved. */
  lemma {:induction false} RepackKeepsQueueExactly(t: CT.Table, m: nat, i: nat)
    requires TS.Shaped(t, m) && m < t.numActive && i < t.numActive
    ensures var c, c', n' := RingOf(t.entries[i]), RingOf(CT.Repack(t).entries[i]), CT.TargetPages(t.numActive);
      && Indexed(c) && Indexed(c') && c.base + c.numPage <= DATA_SIZE / PAGE && c'.base + c'.numPage <= DATA_SIZE / PAGE
      && (SameQueue(c, c', DATA_SIZE / PAGE) <==>
            c.head == c.tail || (i == 0 && c.tail < c.head <= n' && c.head - c.tail < n'))
      && (SameQueue(c, c', DATA_SIZE / PAGE) <==> RingFifo.KeepsQueue(c, c'.base, c'.numPage))
  {
    RingOfRepacked(t, m, i);
    var c, c' := RingOf(t.entries[i]), RingOf(CT.Repack(t).entries[i]);
    SameQueueSamePages(c, c', DATA_SIZE / PAGE);
    RepackGeometry(t, m, i);
    if RingFifo.KeepsQueue(c, c'.base, c'.numPage) {
      KeepsPages(c, c'.base, c'.numPage);
    } else {
      LosesPages(c, c'.base, c'.numPage);
    }
  }

  /** The same after every run from initialisation, for every rebalance that finds some channel away
      from its target. */
  lemma {:induction false} RunsKeepQueuesExactly(candidate: CT.Key, ops: seq<CT.Op>, i: nat)
    ensures var t := CT.RunOps(CT.InitTable(candidate), ops);
      i < t.numActive && !TS.AtTarget(t) ==>
        var c, c', n' := RingOf(t.entries[i]), RingOf(CT.Rebalance(t, true).entries[i]), CT.TargetPages(t.numActive);
        && Indexed(c) && c.base + c.numPage <= DATA_SIZE / PAGE
        && Indexed(c') && c'.base + c'.numPage <= DATA_SIZE / PAGE
        && (SameQueue(c, c', DATA_SIZE / PAGE) <==>
              c.head == c.tail || (i == 0 && c.tail < c.head <= n' && c.head - c.tail < n'))
  {
    TS.RunsLaidOut(candidate, ops);
    var t := CT.RunOps(CT.InitTable(candidate), ops);
    if i < t.numActive && !TS.AtTarget(t) {
      var m :| TS.Shaped(t, m);
      TS.EarlyExitExact(t, m);
      TS.RebalanceIsRepack(t, m);
      RepackKeepsQueueExactly(t, m, i);
    }
  }

  lemma {:induction false} RepackGeometry(t: CT.Table, m: nat, i: nat)
    requires TS.Shaped(t, m) && m < t.numActive && i < t.numActive
    ensures var c, c' := RingOf(t.entries[i]), RingOf(CT.Repack(t).entries[i]);
      && (c'.base <= c.base || c.numPage <= c'.numPage)
      && (i == 0 ==> c'.base == c.base && c'.numPage != c.numPage)
      && (i > 0 ==> c'.base != c.base)
  {
    RingOfRepacked(t, m, i);
    assert TS.EntryShaped(t.entries[i], i, m);
    if i > 0 {
      RepackMoves(i, m, t.numActive);
    } else {
      CT.TargetBounds(t.numActive);
      if m > 0 {
        TS.TargetDecreases(m, t.numActive);
      }
    }
  }

  /** A write anywhere in the region of channel j is, for channel i, a step of others. */
  lemma {:induction false} OtherRegionsUntouched(
      t: CT.Table, m: nat, i: nat, j: nat, area: seq<Page>, k: nat, page: Page)
    requires TS.Shaped(t, m) && i < t.numActive && j < t.numActive && i != j && |area| == DATA_SIZE / PAGE
    requires RingOf(t.entries[j]).base <= k < RingOf(t.entries[j]).base + RingOf(t.entries[j]).numPage
    ensures var c := RingOf(t.entries[i]);
      k < |area| && c.base + c.numPage <= |area| &&
      area[k := page][c.base..c.base + c.numPage] == area[c.base..c.base + c.numPage]
  {
    RingOfRepacked(t, m, i);
    RingOfRepacked(t, m, j);
    assert TS.EntryShaped(t.entries[i], i, m) && TS.EntryShaped(t.entries[j], j, m);
    if i < j {
      TS.FirstPageGrows(i, j, m);
    } else {
      TS.FirstPageGrows(j, i, m);
    }
  }

  // ---------- What a rebalance does to the indices ----------

  // The index below n that differs from x by a multiple of n.
  ghost predicate Reduced(x: nat, x': nat, n: nat) {
    x' < n && exists q: nat :: x == q * n + x'
  }

  lemma {:induction false} ReducedMod(x: nat, n: nat)
    requires n > 0
    ensures Reduced(x, x % n, n) && (x < n ==> x % n == x)
  {
    assert x == (x / n) * n + x % n;
  }

  // A channel e that has been given n pages, whether or not it has moved.
  ghost predicate IndicesReduced(e: CT.Entry, e': CT.Entry, n: nat) {
    && Reduced(e.head, e'.head, n) && Reduced(e.tail, e'.tail, n)
    && (e.head < n ==> e'.head == e.head) && (e.tail < n ==> e'.tail == e.tail)
  }

  lemma {:induction false} EntryReduced(e: CT.Entry, i: nat, n: nat)
    requires n > 0
    ensures IndicesReduced(e, CT.RepackEntry(e, i, n), n)
    ensures var e' := CT.RepackEntry(e, i, n);
      e'.id == e.id && e'.key == e.key && e'.dataSize == e.dataSize && e'.lastSentAt == e.lastSentAt
  {
    ReducedMod(e.head, n);
    ReducedMod(e.tail, n);
  }

  /** Every rebalance after every run from initialisation, channel by channel, moved or not: if it
      repacks, head and tail become the indices below the new page count that differ from the old ones
      by a multiple of it, so that an index below it is unchanged and, if both are, the queue has as
      many pages as before, changed by the difference of the page counts if it wraps; if it does not
      repack, by early exit or failed allocation, nothing in the channel changes. */
  lemma {:induction false} RunsReduceIndices(candidate: CT.Key, ops: seq<CT.Op>, mallocOk: bool, i: nat)
    ensures var t := CT.RunOps(CT.InitTable(candidate), ops);
      i < t.numActive ==>
        var e, e', n := t.entries[i], CT.Rebalance(t, mallocOk).entries[i], CT.TargetPages(t.numActive);
        && (TS.AtTarget(t) || !mallocOk ==> e' == e)
        && (!TS.AtTarget(t) && mallocOk ==>
              && e'.numPage == n && IndicesReduced(e, e', n)
              && (e.tail <= e.head < n ==> RingFifo.Queued(RingOf(e')) == RingFifo.Queued(RingOf(e)))
              && (e.head < e.tail < n ==> RingFifo.Queued(RingOf(e')) + e.numPage == RingFifo.Queued(RingOf(e)) + n))
  {
    TS.RunsLaidOut(candidate, ops);
    var t := CT.RunOps(CT.InitTable(candidate), ops);
    if i < t.numActive {
      var m :| TS.Shaped(t, m);
      TS.EarlyExitExact(t, m);
      RingOfRepacked(t, m, i);
      CT.TargetBounds(t.numActive);
      EntryReduced(t.entries[i], i, CT.TargetPages(t.numActive));
    }
  }

  /** The same of the ring by itself. */
  lemma {:induction false} RingReduced(c: Channel, base: nat, numPage: nat)
    requires numPage > 0
    ensures var c' := PageRing.Repacked(c, base, numPage);
      && c'.base == base && c'.numPage == numPage
      && Reduced(c.head, c'.head, numPage) && Reduced(c.tail, c'.tail, numPage)
      && (c.head < numPage ==> c'.head == c.head) && (c.tail < numPage ==> c'.tail == c.tail)
  {
    ReducedMod(c.head, numPage);
    ReducedMod(c.tail, numPage);
  }
}
