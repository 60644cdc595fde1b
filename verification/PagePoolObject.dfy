/** The page pool as the object the backend mutates. Each method is tied to the pool function of the
    same name, so every lemma about those functions holds of the object. */
module PagePoolObject {
  import opened Common
  import opened CacheErrors
  import opened PagePool

  class PhysicalPagePool {
    const pageTokens: nat
    const pageStates: array<PageState>
    const storedPages: array<seq<KvEntry>>
    var freePageIds: seq<PageId>

    ghost const Repr: set<object> := {this, pageStates, storedPages}

    /** The pool value this object holds. */
    ghost function Value(): Pool
      reads this, pageStates, storedPages
    {
      Pool(pageTokens, pageStates[..], freePageIds, storedPages[..])
    }

    ghost predicate Valid()
      reads this, pageStates, storedPages
    {
      Shaped(Value())
    }

    constructor (tokensPerPage: nat, pageCount: nat, filler: KvEntry)
      requires tokensPerPage > 0
      ensures Valid() && fresh(Repr)
      ensures Value() == FreshPool(tokensPerPage, pageCount, filler)
    {
      pageTokens := tokensPerPage;
      pageStates := new PageState[pageCount](_ => Unallocated);
      storedPages := new seq<KvEntry>[pageCount](_ => seq(tokensPerPage, _ => filler));
      freePageIds := seq(pageCount, i requires 0 <= i < pageCount => pageCount - 1 - i);
      new;
      hide FreshPool;
      ghost var p := FreshPool(tokensPerPage, pageCount, filler);
      assert pageStates[..] == p.states && freePageIds == p.free && storedPages[..] == p.pages;
    }

    method Allocate() returns (r: Result<PageId>)
      requires Valid()
      modifies this, pageStates
      ensures Valid()
      ensures match PagePool.Allocate(old(Value()))
              case Err(e) => r == Err(e) && Value() == old(Value())
              case Ok((p, id)) => r == Ok(id) && Value() == p
    {
      if freePageIds == [] { return Err(NoFreePage); }
      var id := freePageIds[|freePageIds| - 1];
      freePageIds := freePageIds[..|freePageIds| - 1];
      pageStates[id] := PendingWrite;
      r := Ok(id);
    }

    method RetainPage(id: PageId) returns (error: Option<CacheError>)
      requires Valid()
      modifies pageStates
      ensures Valid() && freePageIds == old(freePageIds)
      ensures match PagePool.RetainPage(old(Value()), id)
              case Err(e) => error == Some(e) && Value() == old(Value())
              case Ok(p) => error == None && Value() == p
    {
      if id >= pageStates.Length { return Some(InvalidPage); }
      match pageStates[id].Retain()
      case Err(e) =>
        error := Some(e);
      case Ok(state) =>
        pageStates[id] := state;
        error := None;
    }

    /** Writes the saved states back, oldest first. */
    method RestoreSaved(saved: seq<(PageId, PageState)>)
      requires Valid()
      modifies pageStates
      ensures Valid() && freePageIds == old(freePageIds)
      ensures Value() == old(Value()).(states := RestoreStates(old(pageStates[..]), saved))
    {
      ghost var start := pageStates[..];
      assert saved[0..] == saved;
      for i := 0 to |saved|
        invariant RestoreStates(pageStates[..], saved[i..]) == RestoreStates(start, saved)
      {
        assert saved[i..][1..] == saved[i + 1..];
        if saved[i].0 < pageStates.Length {
          ghost var before := pageStates[..];
          pageStates[saved[i].0] := saved[i].1;
          assert pageStates[..] == before[saved[i].0 := saved[i].1];
        }
      }
    }

    /** Retains every page as one transaction. */
    method RetainAll(ids: seq<PageId>) returns (error: Option<CacheError>)
      requires Valid()
      modifies pageStates
      ensures Valid() && freePageIds == old(freePageIds)
      ensures PoolStep(Value(), error) == PagePool.RetainAll(old(Value()), ids)
    {
      var saved: seq<(PageId, PageState)> := [];
      assert ids[0..] == ids;
      for i := 0 to |ids|
        invariant Valid() && freePageIds == old(freePageIds)
        invariant RetainFrom(Value(), ids[i..], saved) == PagePool.RetainAll(old(Value()), ids)
      {
        var id := ids[i];
        assert ids[i..][1..] == ids[i + 1..];
        if id >= pageStates.Length {
          RestoreSaved(saved);
          return Some(InvalidPage);
        }
        var previous := pageStates[id];
        var failed := RetainPage(id);
        if failed.Some? {
          RestoreSaved(saved);
          return failed;
        }
        saved := saved + [(id, previous)];
      }
      error := None;
    }

    method ReleasePage(id: PageId) returns (error: Option<CacheError>)
      requires Valid()
      modifies this, pageStates
      ensures Valid()
      ensures match PagePool.ReleasePage(old(Value()), id)
              case Err(e) => error == Some(e) && Value() == old(Value())
              case Ok(p) => error == None && Value() == p
    {
      if id >= pageStates.Length { return Some(InvalidPage); }
      match pageStates[id].Release()
      case Err(e) =>
        error := Some(e);
      case Ok(state) =>
        pageStates[id] := state;
        if state == Unallocated { freePageIds := freePageIds + [id]; }
        error := None;
    }

    method ReleaseAll(ids: seq<PageId>) returns (error: Option<CacheError>)
      requires Valid()
      modifies this, pageStates
      ensures Valid()
      ensures PoolStep(Value(), error) == PagePool.ReleaseAll(old(Value()), ids)
    {
      assert ids[0..] == ids;
      for i := 0 to |ids|
        invariant Valid()
        invariant PagePool.ReleaseAll(Value(), ids[i..]) == PagePool.ReleaseAll(old(Value()), ids)
      {
        assert ids[i..][1..] == ids[i + 1..];
        var failed := ReleasePage(ids[i]);
        if failed.Some? { return failed; }
      }
      error := None;
    }

    /** Whether the index is the only owner of every listed page. */
    predicate AreInactive(ids: seq<PageId>): (r: bool)
      reads this, pageStates, storedPages
      ensures r == ArePagesInactive(Value(), ids)
    {
      forall i :: 0 <= i < |ids| ==> ids[i] < pageStates.Length && pageStates[ids[i]] == WrittenNotInUse
    }

    method WritePage(id: PageId, offset: nat, values: seq<KvEntry>) returns (error: Option<CacheError>)
      requires Valid() && id < pageStates.Length && offset + |values| <= pageTokens
      modifies storedPages
      ensures Valid() && freePageIds == old(freePageIds)
      ensures match PagePool.WritePage(old(Value()), id, offset, values)
              case Err(e) => error == Some(e) && Value() == old(Value())
              case Ok(p) => error == None && Value() == p
    {
      if !pageStates[id].IsWritable() { return Some(PageNotWritable); }
      ghost var before := storedPages[..];
      storedPages[id] := storedPages[id][..offset] + values + storedPages[id][offset + |values|..];
      assert storedPages[..] == before[id := storedPages[id]];
      error := None;
    }
  }
}
