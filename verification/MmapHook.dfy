/**
  The mmap interception: a hook at the entry of the mapper redirects the call to a rejecting
  stub or to a wrapper that calls the mapper again, through the same hook.
 */
module MmapHook {
  import opened Layout

  const HOOK_DNAME: string := "myshm"
  const MIN_VALID_OFFSET: nat := 0x1000
  const MAX_ALLOWED_MMAP_SIZE: nat := 0x200000
  // the limit_map_size the module sets; the theorems hold for any
  const LIMIT_MAP_SIZE: nat := 0x1000
  const MEM_SIZE: nat := 4 * 1024 * 1024
  const EINVAL: int := 22
  const EAGAIN: int := 11

  // A mapping request: the file's name if it has a dentry, the page offset, and the page-aligned
  // address range the kernel chose.  `failAt` is the number of pages remapped before a remap fails.
  datatype RawCall = RawCall(dname: Option<string>, pgoff: nat, start: nat, pages: nat, failAt: nat) {
    function Offset(): nat { pgoff * PAGE }
    function Length(): nat { pages * PAGE }
  }

  // No overflow of offset + length as a signed long.
  type Call = c: RawCall | c.Offset() + c.Length() < 0x8000_0000_0000_0000 witness RawCall(None, 0, 0, 0, 0)

  // One page of the device mapped at a virtual address.
  datatype Mapping = Mapping(vaddr: nat, page: nat)

  datatype Target = Original | Dummy | Origin

  // ---------- The decision ----------

  predicate Hooked(c: Call) {
    c.dname.Some? && HOOK_DNAME <= c.dname.value
  }

  // The three guards, as the hook tests them.
  predicate Rejected(c: Call, limit: nat) {
    Hooked(c) &&
    (|| (c.Offset() < MIN_VALID_OFFSET && c.Offset() + c.Length() > MIN_VALID_OFFSET)
     || (c.Offset() >= MIN_VALID_OFFSET && c.Offset() + c.Length() > MAX_ALLOWED_MMAP_SIZE)
     || c.Length() > limit)
  }

  // [lo, hi) lies in the control section or in the data section of the device.
  predicate InOneSection(lo: nat, hi: nat) {
    hi <= MIN_VALID_OFFSET || (MIN_VALID_OFFSET <= lo && hi <= MAX_ALLOWED_MMAP_SIZE)
  }

  // ---------- The mapper ----------

  // The result of myshm_mmap and the pages it maps.
  function MapperResult(c: Call): int {
    if c.Offset() + c.Length() > MEM_SIZE then -EINVAL
    else if c.failAt < c.pages then -EAGAIN
    else 0
  }

  function Mapped(c: Call): seq<Mapping> {
    if c.Offset() + c.Length() > MEM_SIZE then []
    else seq(Min(c.failAt, c.pages), (i: nat) => Mapping(c.start + i * PAGE, c.pgoff + i))
  }

  predicate AllMapped(c: Call) {
    |Mapped(c)| == c.pages
  }

  /** The guards accept a request on the hooked device exactly if it stays in one section and within
      the limit; then the mapper does not refuse it, and if no remap fails it maps exactly the
      requested pages, one to one and inside that section. */
  lemma {:induction false} AcceptedMapsOneSection(c: Call, limit: nat)
    requires c.dname.Some? && |c.dname.value| >= 5 && c.dname.value[..5] == "myshm"
    ensures !Rejected(c, limit) <==> InOneSection(c.Offset(), c.Offset() + c.Length()) && c.Length() <= limit
    ensures !Rejected(c, limit) && c.failAt >= c.pages ==>
      && MapperResult(c) == 0 && |Mapped(c)| == c.pages
      && (forall i :: 0 <= i < c.pages ==> Mapped(c)[i] == Mapping(c.start + i * PAGE, c.pgoff + i))
      && (forall i, j :: 0 <= i < j < c.pages ==>
            Mapped(c)[i].vaddr != Mapped(c)[j].vaddr && Mapped(c)[i].page != Mapped(c)[j].page)
      && (forall i :: 0 <= i < c.pages ==>
            InOneSection(Mapped(c)[i].page * PAGE, (Mapped(c)[i].page + 1) * PAGE))
  {
    if !Rejected(c, limit) && c.failAt >= c.pages {
      forall i | 0 <= i < c.pages
        ensures InOneSection(Mapped(c)[i].page * PAGE, (Mapped(c)[i].page + 1) * PAGE)
      {
        assert c.Offset() <= (c.pgoff + i) * PAGE && (c.pgoff + i + 1) * PAGE <= c.Offset() + c.Length();
      }
    }
  }

  /** Files of other names, and files without a dentry, are never rejected, whatever they ask for; the
      mapper gets all their calls, and maps exactly the pages asked for if they are on the device and
      no remap fails. */
  lemma {:induction false} OtherFilesPass(c: Call, limit: nat)
    requires c.dname.Some? ==> |c.dname.value| < 5 || c.dname.value[..5] != "myshm"
    ensures !Rejected(c, limit)
    ensures c.Offset() + c.Length() <= MEM_SIZE && c.failAt >= c.pages ==>
      |Mapped(c)| == c.pages &&
      forall i :: 0 <= i < c.pages ==> Mapped(c)[i] == Mapping(c.start + i * PAGE, c.pgoff + i)
  {
  }

  /** What the mapper's result says: -EINVAL exactly for a range past the end of the device, of which
      nothing is mapped; -EAGAIN exactly if it stops at a remap that fails, with the pages before that
      one mapped; and 0 otherwise. */
  lemma {:induction false} MapperResultMeans(c: Call)
    ensures MapperResult(c) == -EINVAL <==> c.Offset() + c.Length() > MEM_SIZE
    ensures MapperResult(c) == -EINVAL ==> Mapped(c) == []
    ensures MapperResult(c) == -EAGAIN <==> c.Offset() + c.Length() <= MEM_SIZE && |Mapped(c)| < c.pages
    ensures MapperResult(c) == -EAGAIN ==> |Mapped(c)| == c.failAt
    ensures MapperResult(c) in {0, -EINVAL, -EAGAIN}
  {
  }

  // The pages mapped by a run of calls: those of the accepted ones.
  function MappedBy(calls: seq<Call>, limit: nat, n: nat): seq<Mapping>
    requires n <= |calls|
  {
    if n == 0 then []
    else MappedBy(calls, limit, n - 1) + if Rejected(calls[n - 1], limit) then [] else Mapped(calls[n - 1])
  }

  function AcceptedOf(calls: seq<Call>, limit: nat, n: nat): nat
    requires n <= |calls|
  {
    if n == 0 then 0 else AcceptedOf(calls, limit, n - 1) + if Rejected(calls[n - 1], limit) then 0 else 1
  }

  class Hook {
    const limitMapSize: nat
    var spinHeld: bool
    var isLocked: bool
    // what happened so far
    var hookRuns: nat
    var mapperRuns: nat
    var mappings: seq<Mapping>

    constructor (limit: nat)
      ensures limitMapSize == limit
      ensures !spinHeld && !isLocked && hookRuns == 0 && mapperRuns == 0 && mappings == []
    {
      limitMapSize := limit;
      spinHeld, isLocked, hookRuns, mapperRuns, mappings := false, false, 0, 0, [];
    }

    // Taking the lock while it is held would never return.
    method SpinLock()
      requires !spinHeld
      modifies this`spinHeld
      ensures spinHeld
    {
      spinHeld := true;
    }

    method SpinUnlock()
      requires spinHeld
      modifies this`spinHeld
      ensures !spinHeld
    {
      spinHeld := false;
    }

    method MmapGuard(condition: bool) returns (rejected: bool)
      requires spinHeld
      modifies this`spinHeld
      ensures rejected == condition && spinHeld == !condition
    {
      if condition {
        SpinUnlock();
        return true;
      }
      return false;
    }

    // Where the instruction pointer is left: Original means the call goes on into the mapper.
    method HookFunc(c: Call) returns (ip: Target)
      requires !spinHeld
      modifies this`spinHeld, this`isLocked, this`hookRuns
      ensures !spinHeld && isLocked && hookRuns == old(hookRuns) + 1
      ensures ip == if old(isLocked) then Original else if Rejected(c, limitMapSize) then Dummy else Origin
      ensures ip == Dummy ==> c.dname.Some? && HOOK_DNAME <= c.dname.value
    {
      hookRuns := hookRuns + 1;
      if isLocked {
        return Original;
      }
      SpinLock();
      isLocked := true;
      if c.dname.Some? {
        if HOOK_DNAME <= c.dname.value {
          var offset, length := c.Offset(), c.Length();
          var rejected := MmapGuard(offset < MIN_VALID_OFFSET && offset + length > MIN_VALID_OFFSET);
          if rejected {
            return Dummy;
          }
          rejected := MmapGuard(offset >= MIN_VALID_OFFSET && offset + length > MAX_ALLOWED_MMAP_SIZE);
          if rejected {
            return Dummy;
          }
          rejected := MmapGuard(length > limitMapSize);
          if rejected {
            return Dummy;
          }
        }
      }
      SpinUnlock();
      return Origin;
    }

    method MyshmMmap(c: Call) returns (ret: int)
      modifies this`mapperRuns, this`mappings
      ensures ret == MapperResult(c)
      ensures mappings == old(mappings) + Mapped(c) && mapperRuns == old(mapperRuns) + 1
    {
      mapperRuns := mapperRuns + 1;
      var offset, size := c.Offset(), c.Length();
      if offset + size > MEM_SIZE {
        return -EINVAL;
      }
      var vaddr := c.start;
      ghost var i := 0;
      while size > 0
        invariant i <= c.pages && i <= c.failAt && size == (c.pages - i) * PAGE
        invariant offset == (c.pgoff + i) * PAGE && vaddr == c.start + i * PAGE
        invariant mappings == old(mappings) + Mapped(c)[..i] && mapperRuns == old(mapperRuns) + 1
        decreases size
      {
        if offset / PAGE - c.pgoff >= c.failAt {
          assert Mapped(c)[..i] == Mapped(c);
          return -EAGAIN;
        }
        assert Mapped(c)[..i + 1] == Mapped(c)[..i] + [Mapping(vaddr, offset / PAGE)];
        mappings := mappings + [Mapping(vaddr, offset / PAGE)];
        vaddr, offset, size := vaddr + PAGE, offset + PAGE, size - PAGE;
        i := i + 1;
      }
      assert Mapped(c)[..i] == Mapped(c);
      return 0;
    }

    // The redirected call: the hook runs first and says where to go.
    method CallMmap(c: Call) returns (ret: int)
      requires !spinHeld
      modifies this
      ensures !spinHeld
      ensures old(isLocked) ==>
        && isLocked && ret == MapperResult(c) && hookRuns == old(hookRuns) + 1
        && mapperRuns == old(mapperRuns) + 1 && mappings == old(mappings) + Mapped(c)
      ensures !old(isLocked) && !Rejected(c, limitMapSize) ==>
        && !isLocked && ret == 0 && hookRuns == old(hookRuns) + 2
        && mapperRuns == old(mapperRuns) + 1 && mappings == old(mappings) + Mapped(c)
      ensures !old(isLocked) && Rejected(c, limitMapSize) ==>
        && !isLocked && ret == -EINVAL && hookRuns == old(hookRuns) + 1
        && mapperRuns == old(mapperRuns) && mappings == old(mappings)
      decreases if isLocked then 0 else 2
    {
      var ip := HookFunc(c);
      match ip
      case Original => ret := MyshmMmap(c);
      case Dummy => ret := DummyMmap();
      case Origin => ret := OriginMmap(c);
    }

    method OriginMmap(c: Call) returns (ret: int)
      requires !spinHeld && isLocked
      modifies this
      ensures !spinHeld && !isLocked && ret == 0 && hookRuns == old(hookRuns) + 1
      ensures mapperRuns == old(mapperRuns) + 1 && mappings == old(mappings) + Mapped(c)
      decreases 1
    {
      var _ := CallMmap(c);
      SpinLock();
      isLocked := false;
      SpinUnlock();
      return 0;
    }

    method DummyMmap() returns (ret: int)
      requires !spinHeld
      modifies this`spinHeld, this`isLocked
      ensures !spinHeld && !isLocked && ret == -EINVAL
    {
      SpinLock();
      isLocked := false;
      SpinUnlock();
      return -EINVAL;
    }

    /** One process after another maps: every call finds the hook free and leaves it free, the mapper
        has run once for each accepted call and never for a rejected one, the hook once more than
        that for each call, and the pages mapped are those of the accepted calls, in order. */
    method Serve(calls: seq<Call>) returns (rets: seq<int>)
      requires !spinHeld && !isLocked
      modifies this
      ensures !spinHeld && !isLocked
      ensures mapperRuns == old(mapperRuns) + AcceptedOf(calls, limitMapSize, |calls|)
      ensures hookRuns == old(hookRuns) + |calls| + AcceptedOf(calls, limitMapSize, |calls|)
      ensures mappings == old(mappings) + MappedBy(calls, limitMapSize, |calls|)
      ensures |rets| == |calls| && forall i :: 0 <= i < |calls| ==>
                rets[i] == if Rejected(calls[i], limitMapSize) then -EINVAL else 0
    {
      rets := [];
      for i := 0 to |calls|
        invariant !spinHeld && !isLocked
        invariant mapperRuns == old(mapperRuns) + AcceptedOf(calls, limitMapSize, i)
        invariant hookRuns == old(hookRuns) + i + AcceptedOf(calls, limitMapSize, i)
        invariant mappings == old(mappings) + MappedBy(calls, limitMapSize, i)
        invariant |rets| == i && forall k :: 0 <= k < i ==>
                    rets[k] == if Rejected(calls[k], limitMapSize) then -EINVAL else 0
      {
        ghost var before := MappedBy(calls, limitMapSize, i);
        assert old(mappings) + (before + Mapped(calls[i])) == (old(mappings) + before) + Mapped(calls[i]);
        var ret := CallMmap(calls[i]);
        rets := rets + [ret];
      }
    }
  }

  /** The wrapper returns 0 for every accepted call.  That 0 means that all the pages asked for are
      mapped exactly if there are none, or the range ends inside the device and no remap fails; on
      the hooked device, exactly if no remap fails. */
  lemma {:induction false} WrapperHidesFailure(c: Call, limit: nat)
    requires !Rejected(c, limit)
    ensures AllMapped(c) <==> c.pages == 0 || (c.Offset() + c.Length() <= MEM_SIZE && c.failAt >= c.pages)
    ensures Hooked(c) ==> (AllMapped(c) <==> c.failAt >= c.pages)
  {
    assert c.pages > 0 ==> (|Mapped(c)| == c.pages ==> c.Offset() + c.Length() <= MEM_SIZE);
  }

  /** An accepted call on the hooked device of which nothing is mapped. */
  lemma NothingMapped() returns (c: Call)
    ensures Hooked(c) && !Rejected(c, LIMIT_MAP_SIZE) && c.pages == 1 && Mapped(c) == []
  {
    c := RawCall(Some(HOOK_DNAME), 1, 0, 1, 0);
  }
}
