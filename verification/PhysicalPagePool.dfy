/** Errors the cache can report, and the usual success-or-error result. */
module CacheErrors {
  datatype CacheError =
    | NoFreePage
    | InvalidPage
    | CannotRetainUnallocated
    | ReaderCountOverflow
    | CannotReleaseUnallocated
    | NoActiveReaders
    | PageNotWritable
    | InsufficientCapacity(required: nat, available: nat)
    | InvalidLayer
    | WrongStartPosition
    | EmptyAppend
    | TableAlreadyPopulated
    | CannotTruncate
    | NothingCached
    | TooFewTokens
    | TooFewCachedPages
    | CursorBeyondSequence
    | ParentMissing
    | RequestExists
    | RequestMissing

  datatype Result<+T> = Ok(value: T) | Err(error: CacheError)
}

/** The shared physical pages: an ownership count packed into each page's state, a free list used as
    a stack, and the stored key/value entries. Every operation of the pool is a function on the
    value `Pool`; `PhysicalPagePool` is the object that updates the same fields in place. */
module PagePool {
  import opened Common
  import opened Arithmetic
  import opened CacheErrors

  type PageId = nat

  /** `reader_count` is a `u32`. */
  const MAX_READERS: nat := 0xFFFF_FFFF

  datatype PageState =
    | Unallocated
    | PendingWrite
    | WrittenNotInUse
    | WrittenInUse(readerCount: nat)
  {
    function Retain(): Result<PageState> {
      match this
      case Unallocated => Err(CannotRetainUnallocated)
      case PendingWrite => Ok(WrittenInUse(1))
      case WrittenNotInUse => Ok(WrittenInUse(1))
      case WrittenInUse(n) => if n < MAX_READERS then Ok(WrittenInUse(n + 1)) else Err(ReaderCountOverflow)
    }

    function Release(): Result<PageState> {
      match this
      case Unallocated => Err(CannotReleaseUnallocated)
      case PendingWrite => Ok(Unallocated)
      case WrittenNotInUse => Ok(Unallocated)
      case WrittenInUse(n) =>
        if n == 1 then Ok(WrittenNotInUse)
        else if n > 1 then Ok(WrittenInUse(n - 1))
        else Err(NoActiveReaders)
    }

    predicate IsWritable() { this == PendingWrite }
  }

  datatype Pool = Pool(pageTokens: nat, states: seq<PageState>, free: seq<PageId>, pages: seq<seq<KvEntry>>)

  /** Every page unallocated and on the free list once, the lowest page on top. */
  function FreshPool(pageTokens: nat, pageCount: nat, filler: KvEntry): (p: Pool)
    ensures p.pageTokens == pageTokens && |p.states| == |p.free| == |p.pages| == pageCount
    ensures forall id :: 0 <= id < pageCount ==> p.states[id] == Unallocated && p.free[id] == pageCount - 1 - id
    ensures forall id :: 0 <= id < pageCount ==> p.pages[id] == seq(pageTokens, _ => filler)
  {
    Pool(pageTokens, seq(pageCount, _ => Unallocated),
         seq(pageCount, i requires 0 <= i < pageCount => pageCount - 1 - i),
         seq(pageCount, _ => seq(pageTokens, _ => filler)))
  }

  /** A pool operation that may stop part way: the pool it leaves behind, and the error if any. */
  datatype PoolStep = PoolStep(pool: Pool, error: Option<CacheError>)

  ghost predicate Shaped(p: Pool) {
    && p.pageTokens > 0
    && |p.pages| == |p.states|
    && (forall i :: 0 <= i < |p.pages| ==> |p.pages[i]| == p.pageTokens)
    && (forall i :: 0 <= i < |p.free| ==> p.free[i] < |p.states|)
  }

  /** The free list holds each unallocated page exactly once and nothing else. */
  ghost predicate FreeListExact(p: Pool) {
    && Distinct(p.free)
    && (forall id: PageId :: id in p.free <==> id < |p.states| && p.states[id] == Unallocated)
  }

  ghost predicate PoolOk(p: Pool) { Shaped(p) && FreeListExact(p) }

  function Allocate(p: Pool): Result<(Pool, PageId)>
    requires Shaped(p)
  {
    if p.free == [] then Err(NoFreePage)
    else
      var id := Last(p.free);
      Ok((p.(free := p.free[..|p.free| - 1], states := p.states[id := PendingWrite]), id))
  }

  function RetainPage(p: Pool, id: PageId): Result<Pool> {
    if id >= |p.states| then Err(InvalidPage)
    else
      match p.states[id].Retain()
      case Err(e) => Err(e)
      case Ok(state) => Ok(p.(states := p.states[id := state]))
  }

  function ReleasePage(p: Pool, id: PageId): Result<Pool> {
    if id >= |p.states| then Err(InvalidPage)
    else
      match p.states[id].Release()
      case Err(e) => Err(e)
      case Ok(state) =>
        Ok(p.(states := p.states[id := state], free := if state == Unallocated then p.free + [id] else p.free))
  }

  /** Writes the saved states back, oldest entry first. */
  function RestoreStates(states: seq<PageState>, saved: seq<(PageId, PageState)>): (r: seq<PageState>)
    ensures |r| == |states|
    decreases |saved|
  {
    if saved == [] then states
    else
      var (id, state) := saved[0];
      RestoreStates(if id < |states| then states[id := state] else states, saved[1..])
  }

  function RetainFrom(p: Pool, ids: seq<PageId>, saved: seq<(PageId, PageState)>): PoolStep
    decreases |ids|
  {
    if ids == [] then PoolStep(p, None)
    else
      match RetainPage(p, ids[0])
      case Err(e) => PoolStep(p.(states := RestoreStates(p.states, saved)), Some(e))
      case Ok(p') => RetainFrom(p', ids[1..], saved + [(ids[0], p.states[ids[0]])])
  }

  /** Retains every page, rolling back on the first failure. */
  function RetainAll(p: Pool, ids: seq<PageId>): PoolStep { RetainFrom(p, ids, []) }

  /** Releases pages in order and stops at the first failure without rollback. */
  function ReleaseAll(p: Pool, ids: seq<PageId>): PoolStep
    decreases |ids|
  {
    if ids == [] then PoolStep(p, None)
    else
      match ReleasePage(p, ids[0])
      case Err(e) => PoolStep(p, Some(e))
      case Ok(p') => ReleaseAll(p', ids[1..])
  }

  function WritePage(p: Pool, id: PageId, offset: nat, values: seq<KvEntry>): Result<Pool>
    requires id < |p.states| && |p.pages| == |p.states| && offset + |values| <= |p.pages[id]|
  {
    if !p.states[id].IsWritable() then Err(PageNotWritable)
    else Ok(p.(pages := p.pages[id := p.pages[id][..offset] + values + p.pages[id][offset + |values|..]]))
  }

  function RequiredPages(pageTokens: nat, current: nat, appending: nat): nat
    requires pageTokens > 0
  {
    var offset := Mod(current, pageTokens);
    var room := if offset == 0 then 0 else pageTokens - offset;
    CeilDiv(Max(appending - room, 0), pageTokens)
  }

  predicate ArePagesInactive(p: Pool, ids: seq<PageId>) {
    forall i :: 0 <= i < |ids| ==> ids[i] < |p.states| && p.states[ids[i]] == WrittenNotInUse
  }

  // ---- What the operations mean ------------------------------------------------------------

  /** The request for pages is exactly the growth of the page-rounded length. */
  lemma RequiredPagesIsGrowth(d: nat, current: nat, appending: nat)
    requires d > 0
    ensures RequiredPages(d, current, appending) == CeilDiv(current + appending, d) - CeilDiv(current, d)
  {
    var k, j := Div(current, d), Mod(current, d);
    DivMod(current, d);
    CeilDivShift(k, j, d);
    CeilDivShift(k, j + appending, d);
    assert current + appending == k * d + (j + appending);
    CeilDivForm(j, d);
    DivUnique(j, d, 0, j);
    if j > 0 && appending <= d - j {
      CeilDivBounds(0, d);
      CeilDivForm(j + appending, d);
      if j + appending < d { DivUnique(j + appending, d, 0, j + appending); } else { DivUnique(d, d, 1, 0); }
    } else if j > 0 {
      CeilDivShift(1, appending - (d - j), d);
    }
  }

  /** Retaining and releasing are inverse on an owned page. */
  lemma ReleaseUndoesRetain(s: PageState)
    requires s.WrittenInUse? ==> 1 <= s.readerCount < MAX_READERS
    ensures s.WrittenNotInUse? || s.WrittenInUse? ==>
              s.Retain().Ok? && s.Retain().value.Release() == Ok(s)
    ensures s.PendingWrite? ==> s.Retain().Ok? && s.Retain().value.Release() == Ok(WrittenNotInUse)
  {
  }

  lemma AllocateKeepsPool(p: Pool)
    requires PoolOk(p)
    ensures Allocate(p).Ok? <==> p.free != []
    ensures Allocate(p).Ok? ==>
              var (p', id) := Allocate(p).value;
              && PoolOk(p') && id < |p.states| && p.states[id] == Unallocated
              && p'.states == p.states[id := PendingWrite] && p'.pages == p.pages && p'.pageTokens == p.pageTokens
              && |p'.free| == |p.free| - 1
  {
    if p.free != [] {
      var (p', id) := Allocate(p).value;
      assert id == p.free[|p.free| - 1] && id in p.free;
      forall x: PageId | x < |p.states|
        ensures x in p'.free <==> p'.states[x] == Unallocated
      {
        if x != id && x in p.free {
          var k :| 0 <= k < |p.free| && p.free[k] == x;
          assert p'.free[k] == x;
        }
      }
    }
  }

  lemma ReleaseKeepsPool(p: Pool, id: PageId)
    requires PoolOk(p) && id < |p.states| && p.states[id].Release().Ok?
    ensures ReleasePage(p, id).Ok?
    ensures var p' := ReleasePage(p, id).value;
            && PoolOk(p') && p'.states == p.states[id := p.states[id].Release().value]
            && p'.pages == p.pages && p'.pageTokens == p.pageTokens
  {
    var p' := ReleasePage(p, id).value;
    assert id !in p.free;
    forall x: PageId
      ensures x in p'.free <==> x < |p'.states| && p'.states[x] == Unallocated
    {
      assert x in p.free + [id] <==> x in p.free || x == id;
    }
  }

  /** The page freed last is the page handed out next, and the rest of the free list waits behind it. */
  lemma FreedLastReusedFirst(p: Pool, id: PageId)
    requires PoolOk(p) && id < |p.states| && p.states[id].Release() == Ok(Unallocated)
    ensures var freed := ReleasePage(p, id).value;
            && Shaped(freed) && Allocate(freed).Ok?
            && Allocate(freed).value.1 == id && Allocate(freed).value.0.free == p.free
  {
    ReleaseKeepsPool(p, id);
    var freed := ReleasePage(p, id).value;
    assert freed.free[..|freed.free| - 1] == p.free;
  }

  /** A failing release has released exactly the pages before the one that cannot be released. */
  lemma {:induction false} ReleaseAllStops(p: Pool, ids: seq<PageId>) returns (k: nat)
    requires ReleaseAll(p, ids).error.Some?
    ensures k < |ids| && ReleaseAll(p, ids[..k]) == PoolStep(ReleaseAll(p, ids).pool, None)
    ensures ReleasePage(ReleaseAll(p, ids).pool, ids[k]) == Err(ReleaseAll(p, ids).error.value)
    decreases |ids|
  {
    match ReleasePage(p, ids[0])
    case Err(_) => k := 0;
    case Ok(p') =>
      var j := ReleaseAllStops(p', ids[1..]);
      k := j + 1;
      assert ids[..k] == [ids[0]] + ids[1..][..j];
      assert ids[..k][1..] == ids[1..][..j];
  }

  predicate Retainable(p: Pool, ids: seq<PageId>) {
    forall i :: 0 <= i < |ids| ==> ids[i] < |p.states| && p.states[ids[i]].Retain().Ok?
  }

  predicate Releasable(p: Pool, ids: seq<PageId>) {
    forall i :: 0 <= i < |ids| ==> ids[i] < |p.states| && p.states[ids[i]].Release().Ok?
  }

  /** The pool after every listed page was retained once. */
  ghost function Retained(p: Pool, ids: seq<PageId>): Pool
    requires Retainable(p, ids)
  {
    p.(states := seq(|p.states|, i requires 0 <= i < |p.states| => if i in ids then p.states[i].Retain().value else p.states[i]))
  }

  /** Retaining distinct retainable pages moves each of them one step and touches nothing else. */
  lemma {:induction false} RetainAllEffect(p: Pool, ids: seq<PageId>, saved: seq<(PageId, PageState)>)
    requires Retainable(p, ids) && Distinct(ids)
    ensures RetainFrom(p, ids, saved) == PoolStep(Retained(p, ids), None)
    decreases |ids|
  {
    if ids == [] {
      assert Retained(p, ids).states == p.states;
    } else {
      var p' := RetainPage(p, ids[0]).value;
      var rest := ids[1..];
      forall i | 0 <= i < |rest|
        ensures rest[i] < |p'.states| && p'.states[rest[i]].Retain().Ok?
      {
        assert rest[i] == ids[i + 1] && rest[i] != ids[0];
      }
      assert Distinct(rest) by { forall i, j | 0 <= i < j < |rest| ensures rest[i] != rest[j] { assert ids[i + 1] != ids[j + 1]; } }
      RetainAllEffect(p', rest, saved + [(ids[0], p.states[ids[0]])]);
      assert ids[0] !in rest;
      assert ids == [ids[0]] + rest;
      assert Retained(p', rest).states == Retained(p, ids).states;
    }
  }

  lemma RetainKeepsFreeList(p: Pool, ids: seq<PageId>)
    requires PoolOk(p) && Retainable(p, ids)
    ensures PoolOk(Retained(p, ids))
  {
    var p' := Retained(p, ids);
    forall id: PageId
      ensures id in p'.free <==> id < |p'.states| && p'.states[id] == Unallocated
    {
      if id in ids { assert p.states[id].Retain().Ok?; }
    }
  }

  lemma RestReleasable(p: Pool, p1: Pool, ids: seq<PageId>)
    requires Releasable(p, ids) && Distinct(ids) && ids != [] && |p1.states| == |p.states|
    requires forall i :: 0 <= i < |p.states| && i != ids[0] ==> p1.states[i] == p.states[i]
    ensures Releasable(p1, ids[1..]) && Distinct(ids[1..]) && ids[0] !in ids[1..]
  {
    var rest := ids[1..];
    forall i | 0 <= i < |rest|
      ensures rest[i] < |p1.states| && p1.states[rest[i]].Release().Ok? && rest[i] != ids[0]
    {
      assert rest[i] == ids[i + 1] && ids[i + 1] != ids[0];
    }
    forall i, j | 0 <= i < j < |rest| ensures rest[i] != rest[j] { assert ids[i + 1] != ids[j + 1]; }
  }

  /** Releasing distinct releasable pages moves each of them one step back and keeps the free list
      exact. */
  lemma {:induction false} ReleaseAllEffect(p: Pool, ids: seq<PageId>)
    requires PoolOk(p) && Releasable(p, ids) && Distinct(ids)
    ensures ReleaseAll(p, ids).error == None
    ensures var p' := ReleaseAll(p, ids).pool;
            && PoolOk(p') && |p'.states| == |p.states| && p'.pages == p.pages && p'.pageTokens == p.pageTokens
            && forall i :: 0 <= i < |p.states| ==>
                 p'.states[i] == if i in ids then p.states[i].Release().value else p.states[i]
    decreases |ids|
  {
    hide PoolOk;
    if ids != [] {
      ReleaseKeepsPool(p, ids[0]);
      var p1 := ReleasePage(p, ids[0]).value;
      var rest := ids[1..];
      RestReleasable(p, p1, ids);
      ReleaseAllEffect(p1, rest);
      assert ids[0] !in rest;
      assert ids == [ids[0]] + rest;
    }
  }

  /** Releasing n pages that all become unallocated adds exactly n pages to the free list. */
  lemma {:induction false} ReleaseAllFrees(p: Pool, ids: seq<PageId>)
    requires PoolOk(p) && Releasable(p, ids) && Distinct(ids)
    requires forall i :: 0 <= i < |ids| ==> p.states[ids[i]].Release() == Ok(Unallocated)
    ensures |ReleaseAll(p, ids).pool.free| == |p.free| + |ids|
    decreases |ids|
  {
    if ids != [] {
      ReleaseKeepsPool(p, ids[0]);
      var p1 := ReleasePage(p, ids[0]).value;
      var rest := ids[1..];
      forall i | 0 <= i < |rest|
        ensures rest[i] < |p1.states| && p1.states[rest[i]] == p.states[rest[i]] && p.states[rest[i]].Release() == Ok(Unallocated)
      {
        assert rest[i] == ids[i + 1] && rest[i] != ids[0];
      }
      assert Distinct(rest) by { forall i, j | 0 <= i < j < |rest| ensures rest[i] != rest[j] { assert ids[i + 1] != ids[j + 1]; } }
      ReleaseAllFrees(p1, rest);
    }
  }

  // ---- When the rollback of a failed retain is exact ----------------------------------------

  /** The number of leading pages that are retained before the first failure. */
  function RetainedPrefix(p: Pool, ids: seq<PageId>): (n: nat)
    ensures n <= |ids|
    decreases |ids|
  {
    if ids == [] || RetainPage(p, ids[0]).Err? then 0
    else 1 + RetainedPrefix(RetainPage(p, ids[0]).value, ids[1..])
  }

  lemma {:induction false} RestoreUntouched(states: seq<PageState>, saved: seq<(PageId, PageState)>, i: nat)
    requires i < |states|
    requires forall k :: 0 <= k < |saved| ==> saved[k].0 < |states| && saved[k].0 != i
    ensures RestoreStates(states, saved)[i] == states[i]
    decreases |saved|
  {
    if saved != [] { RestoreUntouched(states[saved[0].0 := saved[0].1], saved[1..], i); }
  }

  lemma {:induction false} RestoreLast(states: seq<PageState>, saved: seq<(PageId, PageState)>, i: nat, k: nat)
    requires i < |states| && k < |saved| && saved[k].0 == i
    requires forall m :: 0 <= m < |saved| ==> saved[m].0 < |states|
    requires forall m :: k < m < |saved| ==> saved[m].0 != i
    ensures RestoreStates(states, saved)[i] == saved[k].1
    decreases |saved|
  {
    var states' := states[saved[0].0 := saved[0].1];
    if k == 0 { RestoreUntouched(states', saved[1..], i); } else { RestoreLast(states', saved[1..], i, k - 1); }
  }

  lemma RestoreLastWins(states: seq<PageState>, saved: seq<(PageId, PageState)>, i: nat)
    requires i < |states|
    requires forall k :: 0 <= k < |saved| ==> saved[k].0 < |states|
    ensures (forall k :: 0 <= k < |saved| ==> saved[k].0 != i) ==> RestoreStates(states, saved)[i] == states[i]
    ensures forall k :: 0 <= k < |saved| && saved[k].0 == i && (forall m :: k < m < |saved| ==> saved[m].0 != i) ==>
              RestoreStates(states, saved)[i] == saved[k].1
  {
    forall k | 0 <= k < |saved| && saved[k].0 == i && (forall m :: k < m < |saved| ==> saved[m].0 != i)
      ensures RestoreStates(states, saved)[i] == saved[k].1
    {
      RestoreLast(states, saved, i, k);
    }
    if forall k :: 0 <= k < |saved| ==> saved[k].0 != i { RestoreUntouched(states, saved, i); }
  }

  /** Retaining never returns a page to an earlier state. */
  function Rank(s: PageState): nat {
    match s
    case Unallocated => 0
    case PendingWrite => 0
    case WrittenNotInUse => 0
    case WrittenInUse(n) => n + 1
  }

  /** A failed transaction puts the pool back exactly when no page was retained twice before the
      failure: with a repeated page the oldest saved state is overwritten by a newer one. */
  lemma {:induction false} RollbackExactIffDistinct(p: Pool, ids: seq<PageId>)
    requires RetainAll(p, ids).error.Some?
    ensures RetainAll(p, ids).pool == p <==> Distinct(ids[..RetainedPrefix(p, ids)])
  {
    RollbackFrom(p.states, p, ids, [], []);
    assert [] + ids[..RetainedPrefix(p, ids)] == ids[..RetainedPrefix(p, ids)];
  }

  /** The page states of a transaction that began at `start` and has retained `done`. */
  ghost predicate StatesInProgress(start: seq<PageState>, now: seq<PageState>, done: seq<PageId>) {
    && |now| == |start|
    && (forall i :: 0 <= i < |start| ==> if i in done then Rank(start[i]) < Rank(now[i]) else now[i] == start[i])
  }

  /** The saved states of that transaction: only the first entry about a page is its old state. */
  ghost predicate SavedInProgress(start: seq<PageState>, done: seq<PageId>, saved: seq<(PageId, PageState)>) {
    && |saved| == |done|
    && (forall k :: 0 <= k < |done| ==>
         && done[k] < |start| && saved[k].0 == done[k]
         && if SeenBefore(done, k) then Rank(start[done[k]]) < Rank(saved[k].1) else saved[k].1 == start[done[k]])
  }

  ghost predicate SeenBefore(s: seq<PageId>, k: nat)
    requires k < |s|
  {
    exists j :: 0 <= j < k && s[j] == s[k]
  }

  lemma {:induction false} RollbackFrom(start: seq<PageState>, p: Pool, ids: seq<PageId>, done: seq<PageId>,
                                        saved: seq<(PageId, PageState)>)
    requires StatesInProgress(start, p.states, done) && SavedInProgress(start, done, saved)
    requires RetainFrom(p, ids, saved).error.Some?
    ensures RetainFrom(p, ids, saved).pool == p.(states := start) <==> Distinct(done + ids[..RetainedPrefix(p, ids)])
    decreases |ids|
  {
    if RetainPage(p, ids[0]).Err? {
      assert done + ids[..0] == done;
      RollbackAtFailure(start, p.states, done, saved);
    } else {
      var p' := RetainPage(p, ids[0]).value;
      var done', saved' := done + [ids[0]], saved + [(ids[0], p.states[ids[0]])];
      StatesStep(start, p, done, ids[0]);
      SavedStep(start, p.states, done, saved, ids[0]);
      RollbackFrom(start, p', ids[1..], done', saved');
      PrefixStep(ids, done, RetainedPrefix(p', ids[1..]));
    }
  }

  lemma PrefixStep(ids: seq<PageId>, done: seq<PageId>, n: nat)
    requires ids != [] && n < |ids|
    ensures done + [ids[0]] + ids[1..][..n] == done + ids[..n + 1]
  {
    assert ids[..n + 1] == [ids[0]] + ids[1..][..n];
  }

  lemma StatesStep(start: seq<PageState>, p: Pool, done: seq<PageId>, id: PageId)
    requires StatesInProgress(start, p.states, done) && RetainPage(p, id).Ok?
    ensures StatesInProgress(start, RetainPage(p, id).value.states, done + [id])
  {
    var now := RetainPage(p, id).value.states;
    forall i | 0 <= i < |start|
      ensures if i in done + [id] then Rank(start[i]) < Rank(now[i]) else now[i] == start[i]
    {
      assert i in done + [id] <==> i in done || i == id;
    }
  }

  lemma SavedStep(start: seq<PageState>, now: seq<PageState>, done: seq<PageId>, saved: seq<(PageId, PageState)>, id: PageId)
    requires StatesInProgress(start, now, done) && SavedInProgress(start, done, saved) && id < |now|
    ensures SavedInProgress(start, done + [id], saved + [(id, now[id])])
  {
    var done', saved' := done + [id], saved + [(id, now[id])];
    forall k | 0 <= k < |done'|
      ensures if SeenBefore(done', k) then Rank(start[done'[k]]) < Rank(saved'[k].1) else saved'[k].1 == start[done'[k]]
    {
      if k < |done| {
        assert forall j :: 0 <= j <= k ==> done'[j] == done[j];
        assert SeenBefore(done', k) <==> SeenBefore(done, k);
      } else {
        assert forall j :: 0 <= j < k ==> done'[j] == done[j];
        assert SeenBefore(done', k) <==> id in done;
      }
    }
  }

  lemma RollbackAtFailure(start: seq<PageState>, now: seq<PageState>, done: seq<PageId>, saved: seq<(PageId, PageState)>)
    requires StatesInProgress(start, now, done) && SavedInProgress(start, done, saved)
    ensures RestoreStates(now, saved) == start <==> Distinct(done)
  {
    hide StatesInProgress, SavedInProgress, SeenBefore;
    SavedAreStates(start, now, done, saved);
    if Distinct(done) {
      forall i | 0 <= i < |start| ensures RestoreStates(now, saved)[i] == start[i] { RestoredOnce(start, now, done, saved, i); }
    } else {
      var i := RestoredWrongly(start, now, done, saved);
      assert RestoreStates(now, saved)[i] != start[i];
    }
  }

  lemma SavedAreStates(start: seq<PageState>, now: seq<PageState>, done: seq<PageId>, saved: seq<(PageId, PageState)>)
    requires StatesInProgress(start, now, done) && SavedInProgress(start, done, saved)
    ensures |now| == |start| && forall k :: 0 <= k < |saved| ==> saved[k].0 < |now|
  {
  }

  /** A page that was retained once gets its old state back, one that was not retained keeps it. */
  lemma RestoredOnce(start: seq<PageState>, now: seq<PageState>, done: seq<PageId>, saved: seq<(PageId, PageState)>, i: nat)
    requires StatesInProgress(start, now, done) && SavedInProgress(start, done, saved) && Distinct(done) && i < |start|
    ensures RestoreStates(now, saved)[i] == start[i]
  {
    SavedAreStates(start, now, done, saved);
    RestoreLastWins(now, saved, i);
    if i in done {
      var k :| 0 <= k < |done| && done[k] == i;
      assert saved[k].0 == i && !SeenBefore(done, k);
      forall m | k < m < |saved| ensures saved[m].0 != i { assert saved[m].0 == done[m] && done[m] != done[k]; }
    } else {
      forall k | 0 <= k < |saved| ensures saved[k].0 != i { assert saved[k].0 == done[k]; }
    }
  }

  /** A page that was retained twice ends with the state it had in between. */
  lemma RestoredWrongly(start: seq<PageState>, now: seq<PageState>, done: seq<PageId>, saved: seq<(PageId, PageState)>) returns (i: nat)
    requires StatesInProgress(start, now, done) && SavedInProgress(start, done, saved) && !Distinct(done)
    ensures i < |start| == |now| && RestoreStates(now, saved)[i] != start[i]
  {
    SavedAreStates(start, now, done, saved);
    var a, b :| 0 <= a < b < |done| && done[a] == done[b];
    i := done[b];
    var c := LastOccurrence(done, i);
    assert c >= b && done[c] == done[a] && SeenBefore(done, c);
    RestoreLastWins(now, saved, i);
    assert saved[c].0 == i;
    forall m | c < m < |saved| ensures saved[m].0 != i { assert saved[m].0 == done[m]; }
    assert RestoreStates(now, saved)[i] == saved[c].1;
  }

  lemma {:induction false} LastOccurrence(s: seq<PageId>, x: PageId) returns (c: nat)
    requires x in s
    ensures c < |s| && s[c] == x && forall m :: c < m < |s| ==> s[m] != x
    ensures forall b :: 0 <= b < |s| && s[b] == x ==> b <= c
    decreases |s|
  {
    if Last(s) == x {
      c := |s| - 1;
    } else {
      c := LastOccurrence(s[..|s| - 1], x);
    }
  }

  /** A concrete failing rollback: page 0 is listed twice before the unallocated page 1. */
  lemma RollbackWithRepeatedPageLeaksAReader()
    ensures var p := Pool(1, [WrittenNotInUse, Unallocated], [1], [[KvEntry(0, 0)], [KvEntry(0, 0)]]);
            && RetainAll(p, [0, 0, 1]).error == Some(CannotRetainUnallocated)
            && RetainAll(p, [0, 0, 1]).pool.states == [WrittenInUse(1), Unallocated]
  {
    var p := Pool(1, [WrittenNotInUse, Unallocated], [1], [[KvEntry(0, 0)], [KvEntry(0, 0)]]);
    var p1 := RetainPage(p, 0).value;
    var p2 := RetainPage(p1, 0).value;
    var s1: seq<(PageId, PageState)>, s2: seq<(PageId, PageState)> := [(0, WrittenNotInUse)], [(0, WrittenNotInUse), (0, WrittenInUse(1))];
    assert [] + s1 == s1 && s1 + [(0, WrittenInUse(1))] == s2;
    assert [0, 0, 1][1..] == [0, 1] && [0, 1][1..] == [1];
    assert RetainFrom(p2, [1], s2).pool.states == RestoreStates(p2.states, s2);
    assert s2[1..] == [(0, WrittenInUse(1))] && |s2[1..][1..]| == 0;
    assert [WrittenNotInUse, Unallocated][0 := WrittenInUse(1)] == [WrittenInUse(1), Unallocated];
    assert p2.states[0 := WrittenNotInUse] == [WrittenNotInUse, Unallocated];
    assert RestoreStates(p2.states, s2) == RestoreStates([WrittenNotInUse, Unallocated], s2[1..]);
  }
}
