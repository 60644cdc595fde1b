/** What the caches hold in a generation run. Every request carries its tokens, committed and proposed;
    a model computes the entries of a due pass from them, and sampling appends, keeps or drops tokens. In
    every run both caches then hold, for every request and layer, what recomputing the request's own
    tokens would give, whatever was restored, shared, evicted, proposed or rolled back in between. */
module GenerationContent {
  import opened Common
  import PagePool
  import opened PagedCacheSpec
  import PrefixTrie
  import opened CacheInvariant
  import opened CacheAppend
  import opened CacheRelease
  import opened CacheContent
  import opened CachePublish
  import CacheRuns
  import PrefixCacheFlight
  import opened SchedulerSpec
  import opened SchedulerRuns
  import opened CacheService
  import opened CacheEffects
  import opened GenerationLengths
  import opened ServingRuns
  import opened GenerationRuns

  /** What the target and the draft model compute for a layer and a token prefix. */
  datatype Models = Models(target: KvFunction, draft: KvFunction)
  {
    function On(side: Side): KvFunction { if side == Target then target else draft }
  }

  /** A serving system and the tokens of its requests: the committed ones, and behind them those of a
      proposal under way. */
  datatype Carried = Carried(w: Serving, tokens: map<RequestId, seq<Token>>)

  /** An operation, and the token that is sampled if one is. */
  datatype TokenOp = TokenOp(op: GenerationOp, sampled: Token)

  /** How many tokens a request has, proposed ones included. */
  function Pending(e: Progress): nat {
    match e.work
    case Propose(_) => e.draft.count + 1
    case Verify(drawn) => e.committed + drawn
    case _ => e.committed
  }

  /** The entries are those of the request's own next tokens. */
  ghost predicate OwnEntries(kv: KvFunction, l: nat, tokens: seq<Token>, count: nat, values: seq<KvEntry>) {
    count + |values| <= |tokens| ==> values == CacheRuns.NextEntries(kv, l, tokens, count, |values|)
  }

  /** A request is started and published with its own tokens, and each model computes their entries. */
  ghost predicate TokenEnabled(cfg: Config, m: Models, d: Carried, op: TokenOp) {
    && Enabled(cfg, d.w, op.op)
    && match op.op
       case Begin(id, input) => id in d.tokens ==> input == d.tokens[id]
       case FillLayer(id, side, values) =>
         id in d.tokens ==> OwnEntries(m.On(side), d.w.progress[id].On(side).layers, d.tokens[id], d.w.progress[id].On(side).count, values)
       case PublishNow(id, tokens) => id in d.tokens ==> tokens == d.tokens[id]
       case _ => true
  }

  function Take(s: seq<Token>, n: nat): (r: seq<Token>) { if n <= |s| then s[..n] else s }

  /** The draft pass of a proposal ends with the layer, so that its next token is sampled. */
  predicate EndsDraftPass(e: Progress, side: Side, layerCount: nat) {
    side == Draft && e.work.Propose? && e.draft.layers + 1 == layerCount
  }

  /** The tokens of a request after a step is completed. */
  function Completed(e: Progress, drafted: bool, control: Control, tokens: seq<Token>, sampled: Token): seq<Token>
    requires LengthsOk(e, drafted) && MayDo(e, drafted, control)
  {
    var committed := Do(e, drafted, control).committed;
    match control
    case CompleteSpeculation(accepted, replaced, _) =>
      Take(Take(tokens, e.committed + accepted) + (if replaced then [sampled] else []), committed)
    case _ => if committed > e.committed then tokens + [sampled] else tokens
  }

  ghost function TokensAfter(cfg: Config, d: Carried, op: TokenOp): map<RequestId, seq<Token>>
    requires Enabled(cfg, d.w, op.op)
  {
    match op.op
    case Book(Submit(id, input, _, _)) => d.tokens[id := input]
    case Advance(id, control) =>
      if id in d.tokens then d.tokens[id := Completed(d.w.progress[id], d.w.Drafted(), control, d.tokens[id], op.sampled)] else d.tokens
    case FillLayer(id, side, _) =>
      if id in d.tokens && EndsDraftPass(d.w.progress[id], side, CacheOn(d.w.g, side).shared.layerCount)
      then d.tokens[id := d.tokens[id] + [op.sampled]] else d.tokens
    case _ => d.tokens
  }

  ghost function CarriedAfter(cfg: Config, d: Carried, op: TokenOp): Carried
    requires Enabled(cfg, d.w, op.op) && AllSucceed(cfg, d.w.g, Expand(d.w, op.op))
  {
    Carried(GenerationRuns.After(cfg, d.w, op.op), TokensAfter(cfg, d, op))
  }

  // ---- The invariant ----------------------------------------------------------------------------

  ghost predicate BothSound(m: Models, g: System, tokens: map<RequestId, seq<Token>>) {
    Sound(g.target, m.target, tokens) && (g.draft.Some? ==> Sound(g.draft.value, m.draft, tokens))
  }

  /** Every request that was ever submitted has tokens, as many as its progress says. */
  ghost predicate TokensFit(w: Serving, tokens: map<RequestId, seq<Token>>) {
    && (forall id :: id in w.g.bounds ==> id in tokens)
    && (forall id :: id in w.progress ==> id in tokens && |tokens[id]| == Pending(w.progress[id]))
  }

  ghost predicate CarriedOk(cfg: Config, m: Models, d: Carried) {
    ServingOk(cfg, d.w) && BothSound(m, d.w.g, d.tokens) && TokensFit(d.w, d.tokens)
  }

  /** In such a state every view of an active request, in either cache, is the recomputation of that many of
      the request's own tokens. */
  lemma ViewsAreRecomputed(cfg: Config, m: Models, d: Carried, side: Side, id: RequestId, l: nat)
    requires CarriedOk(cfg, m, d) && Holds(d.w.g.t.s.active, id) && (side == Draft ==> d.w.Drafted())
    requires l < CacheOn(d.w.g, side).shared.layerCount
    ensures id in d.tokens && id in CacheOn(d.w.g, side).tables && l < |CacheOn(d.w.g, side).tables[id].layers|
    ensures var (c, layer) := (CacheOn(d.w.g, side), CacheOn(d.w.g, side).tables[id].layers[l]);
            && layer.count <= |d.tokens[id]| && ViewDefined(c.shared.pool, layer)
            && View(c.shared.pool, layer) == Recomputed(m.On(side), l, d.tokens[id], layer.count)
  {
    hide ServingOk, Sound, CacheOk, ViewDefined, View;
    ServingFacts(cfg, d.w, id, side);
    InvCacheOk(CacheOn(d.w.g, side));
    ViewIsRecomputation(CacheOn(d.w.g, side), m.On(side), d.tokens, id, l);
  }

  // ---- Single caches ------------------------------------------------------------------------------

  lemma SoundCounts(c: Cache, kv: KvFunction, tokens: map<RequestId, seq<Token>>, id: RequestId)
    requires Sound(c, kv, tokens) && id in c.tables
    ensures id in tokens && forall l :: 0 <= l < |c.tables[id].layers| ==> c.tables[id].layers[l].count <= |tokens[id]|
  {
    assert RequestSound(c.shared, c.tables[id], kv, tokens[id]);
    hide IndexSound, PrefixTrie.Blocks, ViewDefined;
  }

  /** Tokens beyond what is cached may be exchanged. */
  lemma Retoken(c: Cache, kv: KvFunction, tokens: map<RequestId, seq<Token>>, id: RequestId, own: seq<Token>, n: nat)
    requires Inv(c) && Sound(c, kv, tokens) && id in c.tables && id in tokens
    requires n <= |own| && n <= |tokens[id]| && own[..n] == tokens[id][..n]
    requires forall l :: 0 <= l < |c.tables[id].layers| ==> c.tables[id].layers[l].count <= n
    ensures Sound(c, kv, tokens[id := own])
  {
    hide CacheOk, LedgerOk, Sound;
    var ledger: Ledger :| Consistent(c, ledger);
    assert AgreesOnCached(c.tables[id], tokens[id], own) by {
      forall l | 0 <= l < |c.tables[id].layers|
        ensures own[..c.tables[id].layers[l].count] == tokens[id][..c.tables[id].layers[l].count]
      {
        var k := c.tables[id].layers[l].count;
        assert own[..n][..k] == own[..k] && tokens[id][..n][..k] == tokens[id][..k];
      }
    }
    RetokenSound(c, ledger, id, kv, tokens, own);
  }

  lemma Elsewhere(c: Cache, kv: KvFunction, tokens: map<RequestId, seq<Token>>, id: RequestId, own: seq<Token>)
    requires Sound(c, kv, tokens) && id !in c.tables
    ensures Sound(c, kv, tokens[id := own])
  {
    hide IndexSound, RequestSound;
  }

  lemma AppendedSound(c: Cache, kv: KvFunction, tokens: map<RequestId, seq<Token>>, id: RequestId, k: Cached, floor: nat,
                      values: seq<KvEntry>, bounds: map<RequestId, nat>)
    requires Inv(c) && CacheOk(c) && Sound(c, kv, tokens) && Shows(c, id, k, floor) && id in tokens
    requires CacheOpAllowed(c, id, AppendC(k.layers, values), bounds)
    requires k.count + |values| <= |tokens[id]| && OwnEntries(kv, k.layers, tokens[id], k.count, values)
    ensures Sound(OnCache(c, id, AppendC(k.layers, values), bounds), kv, tokens)
  {
    hide CacheOk, LedgerOk, Sound, Append;
    var ledger: Ledger :| Consistent(c, ledger);
    assert c.tables[id].layers[k.layers].count == k.count;
    CacheRuns.StepKeepsGood(CacheRuns.Driver(c, tokens), kv, CacheRuns.AppendOp(id, k.layers, |values|));
  }

  lemma RestoredSound(c: Cache, kv: KvFunction, tokens: map<RequestId, seq<Token>>, id: RequestId, n: nat, bounds: map<RequestId, nat>)
    requires Inv(c) && CacheOk(c) && Sound(c, kv, tokens) && id in tokens && n <= |tokens[id]|
    requires CacheOpAllowed(c, id, RestoreC(tokens[id][..n]), bounds)
    ensures Sound(OnCache(c, id, RestoreC(tokens[id][..n]), bounds), kv, tokens)
  {
    hide CacheOk, LedgerOk, Sound, Restore;
    CacheRuns.StepKeepsGood(CacheRuns.Driver(c, tokens), kv, CacheRuns.RestoreOp(id, n));
  }

  lemma CutSound(c: Cache, kv: KvFunction, tokens: map<RequestId, seq<Token>>, id: RequestId, target: nat, bounds: map<RequestId, nat>)
    requires Inv(c) && CacheOk(c) && Sound(c, kv, tokens) && CacheOpAllowed(c, id, TruncateC(target), bounds)
    ensures Sound(OnCache(c, id, TruncateC(target), bounds), kv, tokens)
  {
    hide CacheOk, LedgerOk, Sound, Truncate, AtOrAboveCursor;
    CacheRuns.StepKeepsGood(CacheRuns.Driver(c, tokens), kv, CacheRuns.TruncateOp(id, target));
  }

  lemma PublishedSound(c: Cache, kv: KvFunction, tokens: map<RequestId, seq<Token>>, id: RequestId, bounds: map<RequestId, nat>)
    requires Inv(c) && CacheOk(c) && Sound(c, kv, tokens) && id in tokens && CacheOpAllowed(c, id, PublishC(tokens[id]), bounds)
    ensures Sound(OnCache(c, id, PublishC(tokens[id]), bounds), kv, tokens)
  {
    hide CacheOk, LedgerOk, Sound, Publish, Uniform, BlocksComplete;
    TableNotEmpty(c, id);
    UniformIsComplete(c.shared, c.tables[id]);
    SoundCounts(c, kv, tokens, id);
    CacheRuns.StepKeepsGood(CacheRuns.Driver(c, tokens), kv, CacheRuns.PublishOp(id));
  }

  lemma GoneSound(c: Cache, kv: KvFunction, tokens: map<RequestId, seq<Token>>, id: RequestId)
    requires Inv(c) && Sound(c, kv, tokens)
    ensures Sound(Gone(c, id), kv, tokens)
  {
    hide CacheOk, LedgerOk, Sound, Removed;
    if id in c.tables { CacheRuns.StepKeepsGood(CacheRuns.Driver(c, tokens), kv, CacheRuns.RemoveOp(id)); }
  }

  lemma {:induction false} StartAllSound(c: Cache, kv: KvFunction, tokens: map<RequestId, seq<Token>>, ids: seq<RequestId>)
    requires Inv(c) && Sound(c, kv, tokens) && Distinct(ids) && |c.tables| + |ids| <= PagePool.MAX_READERS
    requires forall i :: 0 <= i < |ids| ==> ids[i] !in c.tables && ids[i] in tokens
    ensures Sound(StartAll(c, ids), kv, tokens)
    decreases |ids|
  {
    hide CacheOk, LedgerOk, Sound, Started;
    if ids != [] {
      var rest, c1 := ids[1..], Started(c, ids[0]);
      CacheRuns.StepKeepsGood(CacheRuns.Driver(c, tokens), kv, CacheRuns.StartOp(ids[0], tokens[ids[0]]));
      assert tokens[ids[0] := tokens[ids[0]]] == tokens;
      StartedTables(c, ids[0]);
      assert |c1.tables.Keys| == |c1.tables| && |c.tables.Keys| == |c.tables|;
      forall i | 0 <= i < |rest| ensures rest[i] !in c1.tables && rest[i] in tokens {
        assert rest[i] == ids[i + 1] && ids[i + 1] != ids[0];
      }
      assert Distinct(rest) by { forall i, j | 0 <= i < j < |rest| ensures rest[i] != rest[j] { assert rest[i] == ids[i + 1]; } }
      StartAllSound(c1, kv, tokens, rest);
    }
  }

  // ---- Lengths ------------------------------------------------------------------------------------

  /** The tokens of a due pass are there. */
  lemma DueTokensExist(e: Progress, drafted: bool, side: Side)
    requires LengthsOk(e, drafted) && Due(e, side) > 0 && (side == Draft ==> drafted)
    ensures e.On(side).count + Due(e, side) <= Pending(e)
  {
  }

  lemma PendingFilled(e: Progress, drafted: bool, side: Side, layerCount: nat)
    requires LengthsOk(e, drafted) && Due(e, side) > 0 && (side == Draft ==> drafted)
    ensures Pending(LayerFilled(e, side, layerCount)) == Pending(e) + if EndsDraftPass(e, side, layerCount) then 1 else 0
  {
  }

  /** A completed step leaves as many tokens as are committed, and those that stay cached are the same. */
  lemma CompletedTokens(e: Progress, drafted: bool, control: Control, tokens: seq<Token>, sampled: Token)
    requires LengthsOk(e, drafted) && MayDo(e, drafted, control) && |tokens| == Pending(e)
    ensures |Completed(e, drafted, control, tokens, sampled)| == Pending(Do(e, drafted, control))
    ensures e.committed <= |tokens| && tokens[..e.committed] <= Completed(e, drafted, control, tokens, sampled)
    ensures !control.CompleteSpeculation? ==> tokens <= Completed(e, drafted, control, tokens, sampled)
    ensures control.CompleteSpeculation? && e.committed > 0 ==>
              var n := Retained(e, control.accepted, control.replaced);
              && n <= |tokens| && n <= |Completed(e, drafted, control, tokens, sampled)|
              && Completed(e, drafted, control, tokens, sampled)[..n] == tokens[..n]
              && Do(e, drafted, control).target == Do(e, drafted, control).draft == Cached(n, 0, 0)
  {
  }

  // ---- What ran ------------------------------------------------------------------------------------

  lemma RanOne(cfg: Config, g: System, side: Side, id: RequestId, op: CacheOp)
    requires (side == Draft ==> g.draft.Some?) && AllSucceed(cfg, g, [OnSide(side, id, op)])
    ensures CacheOk(CacheOn(g, side)) && CacheOpAllowed(CacheOn(g, side), id, op, g.bounds)
    ensures var g' := RunAll(cfg, g, [OnSide(side, id, op)]);
            && g'.bounds == g.bounds && g'.draft.Some? == g.draft.Some?
            && CacheOn(g', side) == OnCache(CacheOn(g, side), id, op, g.bounds)
            && (side == Target ==> g'.draft == g.draft) && (side == Draft ==> g'.target == g.target)
  {
    hide CacheOk, CacheOpAllowed, CacheStepOf, Applied;
    assert [OnSide(side, id, op)][1..] == [];
  }

  lemma SplitRun(cfg: Config, g: System, a: SystemOp, b: SystemOp)
    requires AllSucceed(cfg, g, [a] + [b])
    ensures AllSucceed(cfg, g, [a]) && AllSucceed(cfg, RunAll(cfg, g, [a]), [b])
    ensures RunAll(cfg, g, [a] + [b]) == RunAll(cfg, RunAll(cfg, g, [a]), [b])
  {
    hide Next, CachesOk, OpAllowed, Succeeds;
    assert [a][1..] == [] && ([a] + [b])[1..] == [b] && ([a] + [b])[0] == a;
  }

  lemma RanBoth(cfg: Config, g: System, id: RequestId, op: CacheOp)
    requires AllSucceed(cfg, g, OnBoth(g.draft.Some?, id, op))
    ensures CacheOk(g.target) && CacheOpAllowed(g.target, id, op, g.bounds)
    ensures g.draft.Some? ==> CacheOk(g.draft.value) && CacheOpAllowed(g.draft.value, id, op, g.bounds)
    ensures var g' := RunAll(cfg, g, OnBoth(g.draft.Some?, id, op));
            && g'.bounds == g.bounds && g'.draft.Some? == g.draft.Some?
            && g'.target == OnCache(g.target, id, op, g.bounds)
            && (g.draft.Some? ==> g'.draft.value == OnCache(g.draft.value, id, op, g.bounds))
  {
    hide CacheOk, CacheOpAllowed, OnCache, AllSucceed, RunAll;
    if g.draft.Some? {
      SplitRun(cfg, g, OnTarget(id, op), OnDraft(id, op));
      RanOne(cfg, g, Target, id, op);
      RanOne(cfg, RunAll(cfg, g, [OnTarget(id, op)]), Draft, id, op);
    } else {
      assert OnBoth(false, id, op) == [OnTarget(id, op)];
      RanOne(cfg, g, Target, id, op);
    }
  }

  // ---- Exchanging tokens in both caches ---------------------------------------------------------------

  ghost predicate CountsAtMost(c: Cache, id: RequestId, n: nat) {
    id in c.tables && forall l :: 0 <= l < |c.tables[id].layers| ==> c.tables[id].layers[l].count <= n
  }

  lemma RetokenBoth(cfg: Config, m: Models, w: Serving, tokens: map<RequestId, seq<Token>>, id: RequestId, own: seq<Token>, n: nat)
    requires ServingOk(cfg, w) && BothSound(m, w.g, tokens) && id in tokens
    requires n <= |own| && n <= |tokens[id]| && own[..n] == tokens[id][..n]
    requires CountsAtMost(w.g.target, id, n) && (w.Drafted() ==> CountsAtMost(w.g.draft.value, id, n))
    ensures BothSound(m, w.g, tokens[id := own])
  {
    hide ServingOk, Sound, Inv, SystemOk;
    ServingSystem(cfg, w);
    InvOn(cfg, w.g, Target);
    Retoken(w.g.target, m.target, tokens, id, own, n);
    if w.Drafted() {
      InvOn(cfg, w.g, Draft);
      Retoken(w.g.draft.value, m.draft, tokens, id, own, n);
    }
  }

  /** Tokens may always be added behind those a request has. */
  lemma ExtendBoth(cfg: Config, m: Models, w: Serving, tokens: map<RequestId, seq<Token>>, id: RequestId, own: seq<Token>)
    requires ServingOk(cfg, w) && BothSound(m, w.g, tokens) && id in w.progress && id in tokens && tokens[id] <= own
    ensures BothSound(m, w.g, tokens[id := own])
  {
    hide ServingOk, Sound;
    ActiveProgress(cfg, w, id);
    ServingFacts(cfg, w, id, Target);
    SoundCounts(w.g.target, m.target, tokens, id);
    if w.Drafted() {
      ServingFacts(cfg, w, id, Draft);
      SoundCounts(w.g.draft.value, m.draft, tokens, id);
    }
    assert tokens[id][..|tokens[id]|] == tokens[id];
    RetokenBoth(cfg, m, w, tokens, id, own, |tokens[id]|);
  }

  // ---- The operations --------------------------------------------------------------------------------

  lemma FilledCarried(cfg: Config, m: Models, d: Carried, op: TokenOp)
    requires CarriedOk(cfg, m, d) && TokenEnabled(cfg, m, d, op) && op.op.FillLayer?
    ensures AllSucceed(cfg, d.w.g, Expand(d.w, op.op)) && CarriedOk(cfg, m, CarriedAfter(cfg, d, op))
  {
    hide ServingOk, AllSucceed, RunAll, Expand, Due, LengthsOk, BothSound, FillOps;
    var (id, side, values) := (op.op.id, op.op.side, op.op.values);
    var (w, e) := (d.w, d.w.progress[id]);
    var layerCount := CacheOn(w.g, side).shared.layerCount;
    FilledOk(cfg, w, id, side, values);
    LengthsOf(cfg, w, id);
    PendingFilled(e, w.Drafted(), side, layerCount);
    FilledSound(cfg, m, d, id, side, values);
    var w' := GenerationRuns.After(cfg, w, op.op);
    if EndsDraftPass(e, side, layerCount) {
      ExtendBoth(cfg, m, w', d.tokens, id, d.tokens[id] + [op.sampled]);
    }
  }

  lemma LengthsOf(cfg: Config, w: Serving, id: RequestId)
    requires ServingOk(cfg, w) && id in w.progress
    ensures LengthsOk(w.progress[id], w.Drafted()) && Holds(w.g.t.s.active, id)
  {
    ActiveProgress(cfg, w, id);
  }

  lemma FilledSound(cfg: Config, m: Models, d: Carried, id: RequestId, side: Side, values: seq<KvEntry>)
    requires CarriedOk(cfg, m, d) && TokenEnabled(cfg, m, d, TokenOp(FillLayer(id, side, values), 0))
    requires AllSucceed(cfg, d.w.g, Expand(d.w, FillLayer(id, side, values)))
    ensures var g' := RunAll(cfg, d.w.g, Expand(d.w, FillLayer(id, side, values)));
            BothSound(m, g', d.tokens) && g'.bounds == d.w.g.bounds
  {
    hide ServingOk, AllSucceed, RunAll, Due, LengthsOk, Sound, Inv, CacheOk, CacheOpAllowed, OnCache, Shows, OwnEntries;
    var (w, e) := (d.w, d.w.progress[id]);
    var c, k := CacheOn(w.g, side), e.On(side);
    LengthsOf(cfg, w, id);
    ServingFacts(cfg, w, id, side);
    DueTokensExist(e, w.Drafted(), side);
    RanOne(cfg, w.g, side, id, AppendC(k.layers, values));
    AppendedSound(c, m.On(side), d.tokens, id, k, Floor(e, side), values, w.g.bounds);
  }

  lemma AdvancedCarried(cfg: Config, m: Models, d: Carried, op: TokenOp)
    requires CarriedOk(cfg, m, d) && TokenEnabled(cfg, m, d, op) && op.op.Advance? && !op.op.control.CompleteSpeculation?
    ensures AllSucceed(cfg, d.w.g, Expand(d.w, op.op)) && CarriedOk(cfg, m, CarriedAfter(cfg, d, op))
  {
    hide ServingOk, AllSucceed, RunAll, Expand, LengthsOk, MayDo, Do, BothSound, Completed, GenerationRuns.After;
    var (id, control) := (op.op.id, op.op.control);
    var (w, e) := (d.w, d.w.progress[id]);
    ControlSucceeds(cfg, w, id, control);
    ControlAfter(cfg, w, id, control);
    CompletedTokens(e, w.Drafted(), control, d.tokens[id], op.sampled);
    var w' := GenerationRuns.After(cfg, w, op.op);
    ExtendBoth(cfg, m, w', d.tokens, id, Completed(e, w.Drafted(), control, d.tokens[id], op.sampled));
  }

  lemma RolledBackCarried(cfg: Config, m: Models, d: Carried, op: TokenOp)
    requires CarriedOk(cfg, m, d) && TokenEnabled(cfg, m, d, op) && op.op.Advance? && op.op.control.CompleteSpeculation?
    ensures AllSucceed(cfg, d.w.g, Expand(d.w, op.op)) && CarriedOk(cfg, m, CarriedAfter(cfg, d, op))
  {
    hide ServingOk, AllSucceed, RunAll, LengthsOk, MayDo, Do, BothSound, Completed, Retained;
    var (id, control) := (op.op.id, op.op.control);
    var (w, e) := (d.w, d.w.progress[id]);
    RollbackSucceeds(cfg, w, id, control);
    CommittedSome(e, w.Drafted(), control);
    CompletedTokens(e, w.Drafted(), control, d.tokens[id], op.sampled);
    CutBoth(cfg, m, d, id, control);
    var w', n := GenerationRuns.After(cfg, w, op.op), Retained(e, control.accepted, control.replaced);
    CountsCut(cfg, w', id, n);
    RetokenBoth(cfg, m, w', d.tokens, id, Completed(e, w.Drafted(), control, d.tokens[id], op.sampled), n);
  }

  lemma CutBoth(cfg: Config, m: Models, d: Carried, id: RequestId, control: Control)
    requires CarriedOk(cfg, m, d) && Enabled(cfg, d.w, Advance(id, control)) && control.CompleteSpeculation?
    requires AllSucceed(cfg, d.w.g, Expand(d.w, Advance(id, control))) && d.w.progress[id].committed > 0
    ensures var g' := RunAll(cfg, d.w.g, Expand(d.w, Advance(id, control)));
            BothSound(m, g', d.tokens) && g'.bounds == d.w.g.bounds
  {
    hide ServingOk, AllSucceed, RunAll, LengthsOk, MayDo, Sound, Inv, CacheOk, CacheOpAllowed, OnCache, Retained;
    var (w, n) := (d.w, Retained(d.w.progress[id], control.accepted, control.replaced));
    ServingSystem(cfg, w);
    RanBoth(cfg, w.g, id, TruncateC(n));
    InvOn(cfg, w.g, Target);
    CutSound(w.g.target, m.target, d.tokens, id, n, w.g.bounds);
    if w.Drafted() {
      InvOn(cfg, w.g, Draft);
      CutSound(w.g.draft.value, m.draft, d.tokens, id, n, w.g.bounds);
    }
  }

  /** After a rollback no layer of either cache has more than what was retained. */
  lemma CountsCut(cfg: Config, w: Serving, id: RequestId, n: nat)
    requires ServingOk(cfg, w) && id in w.progress && w.progress[id].target == w.progress[id].draft == Cached(n, 0, 0)
    ensures CountsAtMost(w.g.target, id, n) && (w.Drafted() ==> CountsAtMost(w.g.draft.value, id, n))
  {
    hide ServingOk, SchedulingOk, CacheInService, Inv, WithinBounds, CacheShows;
    LengthsOf(cfg, w, id);
    ServingFacts(cfg, w, id, Target);
    if w.Drafted() { ServingFacts(cfg, w, id, Draft); }
  }

  lemma BegunCarried(cfg: Config, m: Models, d: Carried, op: TokenOp)
    requires CarriedOk(cfg, m, d) && TokenEnabled(cfg, m, d, op) && op.op.Begin?
    ensures AllSucceed(cfg, d.w.g, Expand(d.w, op.op)) && CarriedOk(cfg, m, CarriedAfter(cfg, d, op))
  {
    hide ServingOk, AllSucceed, RunAll, LengthsOk, Sound, Inv, CacheOk, CacheOpAllowed, OnCache;
    var (id, input) := (op.op.id, op.op.input);
    var w := d.w;
    BeginSucceeds(cfg, w, id, input);
    ServingFacts(cfg, w, id, Target);
    var n: nat := |input| - 1;
    RanBoth(cfg, w.g, id, RestoreC(input[..n]));
    RestoredSound(w.g.target, m.target, d.tokens, id, n, w.g.bounds);
    if w.Drafted() {
      ServingFacts(cfg, w, id, Draft);
      RestoredSound(w.g.draft.value, m.draft, d.tokens, id, n, w.g.bounds);
    }
  }

  lemma PublishedCarried(cfg: Config, m: Models, d: Carried, op: TokenOp)
    requires CarriedOk(cfg, m, d) && TokenEnabled(cfg, m, d, op) && op.op.PublishNow?
    ensures AllSucceed(cfg, d.w.g, Expand(d.w, op.op)) && CarriedOk(cfg, m, CarriedAfter(cfg, d, op))
  {
    hide ServingOk, AllSucceed, RunAll, LengthsOk, Sound, Inv, CacheOk, CacheOpAllowed, OnCache;
    var (w, id) := (d.w, op.op.id);
    PublicationSucceeds(cfg, w, id, op.op.tokens);
    ServingSystem(cfg, w);
    RanBoth(cfg, w.g, id, PublishC(d.tokens[id]));
    InvOn(cfg, w.g, Target);
    PublishedSound(w.g.target, m.target, d.tokens, id, w.g.bounds);
    if w.Drafted() {
      InvOn(cfg, w.g, Draft);
      PublishedSound(w.g.draft.value, m.draft, d.tokens, id, w.g.bounds);
    }
  }

  lemma DepartedCarried(cfg: Config, m: Models, d: Carried, op: TokenOp)
    requires CarriedOk(cfg, m, d) && TokenEnabled(cfg, m, d, op) && op.op.Depart?
    ensures AllSucceed(cfg, d.w.g, Expand(d.w, op.op)) && CarriedOk(cfg, m, CarriedAfter(cfg, d, op))
  {
    hide ServingOk, AllSucceed, RunAll, LengthsOk, Sound, Inv, CachesOk, OpAllowed, Succeeds, Terminate, RemoveActive, Removed, Gone;
    var (w, id) := (d.w, op.op.id);
    DepartSucceeds(cfg, w, id, op.op.how);
    ServingSystem(cfg, w);
    LeaveRan(cfg, w, id, op.op.how);
    InvOn(cfg, w.g, Target);
    GoneSound(w.g.target, m.target, d.tokens, id);
    if w.Drafted() {
      InvOn(cfg, w.g, Draft);
      GoneSound(w.g.draft.value, m.draft, d.tokens, id);
    }
  }

  lemma LeaveRan(cfg: Config, w: Serving, id: RequestId, how: PrefixCacheFlight.Termination)
    requires AllSucceed(cfg, w.g, [Leave(id, how)])
    ensures var g' := RunAll(cfg, w.g, [Leave(id, how)]);
            && g'.bounds == w.g.bounds && g'.target == Gone(w.g.target, id) && g'.draft.Some? == w.g.draft.Some?
            && (w.g.draft.Some? ==> g'.draft.value == Gone(w.g.draft.value, id))
  {
    hide CachesOk, Terminate, RemoveActive, Gone;
    assert [Leave(id, how)][1..] == [];
  }

  lemma AdmittedCarried(cfg: Config, m: Models, d: Carried, op: TokenOp)
    requires CarriedOk(cfg, m, d) && TokenEnabled(cfg, m, d, op) && op.op.AdmitAll?
    ensures AllSucceed(cfg, d.w.g, Expand(d.w, op.op)) && CarriedOk(cfg, m, CarriedAfter(cfg, d, op))
  {
    hide ServingOk, SystemOk, AllSucceed, RunAll, LengthsOk, Sound, Inv, CachesOk, SchedulingOk, CacheInService,
      StartAll, Admit, IdsDistinct;
    var w := d.w;
    AdmitAllSucceeds(cfg, w);
    ServingSystem(cfg, w);
    AdmitRan(cfg, w);
    SystemParts(cfg, w.g);
    var more := AdmitScheduling(cfg, w.g.t, w.g.bounds);
    NewIds(w.g.t.s.active, more);
    NobodyNew(cfg, w, Ids(more));
    AdmittedBoth(cfg, m, d, more);
  }

  lemma AdmittedBoth(cfg: Config, m: Models, d: Carried, more: seq<Request>)
    requires CarriedOk(cfg, m, d) && Distinct(Ids(more)) && |d.w.g.t.s.active| + |more| <= PagePool.MAX_READERS
    requires forall i :: 0 <= i < |more| ==> more[i].id in d.w.g.bounds && !Holds(d.w.g.t.s.active, more[i].id)
    ensures Sound(StartAll(d.w.g.target, Ids(more)), m.target, d.tokens)
    ensures d.w.Drafted() ==> Sound(StartAll(d.w.g.draft.value, Ids(more)), m.draft, d.tokens)
  {
    hide ServingOk, SystemOk, Sound, Inv, StartAll;
    CachesHoldActive(cfg, d.w);
    ServingSystem(cfg, d.w);
    InvOn(cfg, d.w.g, Target);
    TablesNoMoreThanActive(d.w.g.target, d.w.g.t.s.active);
    StartAllSound(d.w.g.target, m.target, d.tokens, Ids(more));
    if d.w.Drafted() {
      InvOn(cfg, d.w.g, Draft);
      TablesNoMoreThanActive(d.w.g.draft.value, d.w.g.t.s.active);
      StartAllSound(d.w.g.draft.value, m.draft, d.tokens, Ids(more));
    }
  }

  lemma AdmitRan(cfg: Config, w: Serving)
    requires AllSucceed(cfg, w.g, [AdmitAndStart]) && cfg.pageTokens > 0
    ensures var (g', ids) := (RunAll(cfg, w.g, [AdmitAndStart]), Admit(cfg, w.g.t.s).1);
            && g'.bounds == w.g.bounds && g'.target == StartAll(w.g.target, ids) && g'.draft.Some? == w.g.draft.Some?
            && (w.g.draft.Some? ==> g'.draft.value == StartAll(w.g.draft.value, ids))
  {
    hide CachesOk, StartAll, Admit;
    assert [AdmitAndStart][1..] == [];
  }

  lemma BookedCarried(cfg: Config, m: Models, d: Carried, op: TokenOp)
    requires CarriedOk(cfg, m, d) && TokenEnabled(cfg, m, d, op) && op.op.Book?
    ensures AllSucceed(cfg, d.w.g, Expand(d.w, op.op)) && CarriedOk(cfg, m, CarriedAfter(cfg, d, op))
  {
    hide ServingOk, SystemOk, BothSound, TokensFit, Bounded, AllSucceed, RunAll, OpAllowed, Next, CachesOk;
    var (w, o) := (d.w, op.op.op);
    BookSucceeds(cfg, w, o);
    ServingSystem(cfg, w);
    OneOp(cfg, w.g, o);
    BookKeeps(cfg, w, o);
    BookBounds(cfg, w.g, o);
    BookedSound(cfg, m, d, o);
    var after := CarriedAfter(cfg, d, op);
    SameCaches(m, w.g, after.w.g, after.tokens);
    BookedFit(w, after.w, d.tokens, after.tokens, o);
  }

  lemma SameCaches(m: Models, g: System, g': System, tokens: map<RequestId, seq<Token>>)
    requires BothSound(m, g, tokens) && g'.target == g.target && g'.draft == g.draft
    ensures BothSound(m, g', tokens)
  {
  }

  lemma BookedFit(w: Serving, w': Serving, tokens: map<RequestId, seq<Token>>, tokens': map<RequestId, seq<Token>>, o: SystemOp)
    requires TokensFit(w, tokens) && w'.progress == w.progress
    requires w'.g.bounds.Keys == w.g.bounds.Keys + if o.Submit? then {o.id} else {}
    requires if o.Submit? then o.id !in w.progress && tokens' == tokens[o.id := o.input] else tokens' == tokens
    ensures TokensFit(w', tokens')
  {
    hide Pending;
    forall id | id in w'.g.bounds ensures id in tokens' { assert id in w'.g.bounds.Keys; }
  }

  lemma BookedSound(cfg: Config, m: Models, d: Carried, o: SystemOp)
    requires CarriedOk(cfg, m, d) && Enabled(cfg, d.w, Book(o))
    ensures BothSound(m, d.w.g, d.tokens) && (o.Submit? ==> o.id !in d.w.progress && BothSound(m, d.w.g, d.tokens[o.id := o.input]))
  {
    hide ServingOk, Sound, OpAllowed;
    if o.Submit? {
      SubmitIsNew(cfg, d.w, o);
      SubmittedNew(cfg, d.w, o.id);
      Elsewhere(d.w.g.target, m.target, d.tokens, o.id, o.input);
      if d.w.Drafted() { Elsewhere(d.w.g.draft.value, m.draft, d.tokens, o.id, o.input); }
    }
  }

  lemma BookBounds(cfg: Config, g: System, op: SystemOp)
    requires cfg.pageTokens > 0 && CachesOk(g) && (op.Submit? || op.Progress? || op.ReleaseFlight?) && OpAllowed(cfg, g, op)
    ensures Next(cfg, g, op).bounds.Keys == g.bounds.Keys + if op.Submit? then {op.id} else {}
  {
    hide CachesOk;
  }

  /** A submitted request is in neither cache and has made no progress. */
  lemma SubmittedNew(cfg: Config, w: Serving, id: RequestId)
    requires ServingOk(cfg, w) && !InPlay(w.g.t, id)
    ensures id !in w.progress && id !in w.g.target.tables && (w.Drafted() ==> id !in w.g.draft.value.tables)
  {
    hide ServingOk;
    CachesHoldActive(cfg, w);
    if id in w.progress { LengthsOf(cfg, w, id); }
  }

  // ---- Whole runs ------------------------------------------------------------------------------------

  /** Every operation is performed by the caches, keeps every entry right, and never changes a committed
      token. */
  lemma StepKeepsContent(cfg: Config, m: Models, d: Carried, op: TokenOp)
    requires CarriedOk(cfg, m, d) && TokenEnabled(cfg, m, d, op)
    ensures AllSucceed(cfg, d.w.g, Expand(d.w, op.op)) && CarriedOk(cfg, m, CarriedAfter(cfg, d, op))
  {
    hide CarriedOk, TokenEnabled, Expand, AllSucceed, CarriedAfter;
    match op.op
    case Book(_) => BookedCarried(cfg, m, d, op);
    case AdmitAll => AdmittedCarried(cfg, m, d, op);
    case Begin(_, _) => BegunCarried(cfg, m, d, op);
    case Advance(_, control) =>
      if control.CompleteSpeculation? { RolledBackCarried(cfg, m, d, op); } else { AdvancedCarried(cfg, m, d, op); }
    case FillLayer(_, _, _) => FilledCarried(cfg, m, d, op);
    case PublishNow(_, _) => PublishedCarried(cfg, m, d, op);
    case Depart(_, _) => DepartedCarried(cfg, m, d, op);
  }

  ghost predicate IsTokenRun(cfg: Config, m: Models, states: seq<Carried>, ops: seq<TokenOp>) {
    |states| == |ops| + 1 && forall i :: 0 <= i < |ops| ==> TokenStep(cfg, m, states, ops, i)
  }

  ghost predicate TokenStep(cfg: Config, m: Models, states: seq<Carried>, ops: seq<TokenOp>, i: nat)
    requires |states| == |ops| + 1 && i < |ops|
  {
    && TokenEnabled(cfg, m, states[i], ops[i])
    && (AllSucceed(cfg, states[i].w.g, Expand(states[i].w, ops[i].op)) ==> states[i + 1] == CarriedAfter(cfg, states[i], ops[i]))
  }

  /** In every generation run, after every operation, both caches hold for every active request and layer
      exactly what recomputing the request's own tokens would give. */
  lemma {:induction false} GenerationIsSound(cfg: Config, m: Models, states: seq<Carried>, ops: seq<TokenOp>, n: nat)
    requires IsTokenRun(cfg, m, states, ops) && CarriedOk(cfg, m, states[0]) && n <= |ops|
    ensures CarriedOk(cfg, m, states[n])
    ensures forall side: Side, id, l: nat :: Viewed(states[n], side, id, l) ==> IsRecomputed(m, states[n], side, id, l)
    decreases n
  {
    hide CarriedOk, TokenEnabled, Expand, AllSucceed, CarriedAfter, Viewed, IsRecomputed;
    if n > 0 {
      GenerationIsSound(cfg, m, states, ops, n - 1);
      assert TokenStep(cfg, m, states, ops, n - 1);
      StepKeepsContent(cfg, m, states[n - 1], ops[n - 1]);
    }
    forall side: Side, id, l: nat | Viewed(states[n], side, id, l) ensures IsRecomputed(m, states[n], side, id, l) {
      AllRecomputed(cfg, m, states[n], side, id, l);
    }
  }

  /** An active request and a layer of one of the models. */
  ghost predicate Viewed(d: Carried, side: Side, id: RequestId, l: nat) {
    Holds(d.w.g.t.s.active, id) && (side == Draft ==> d.w.Drafted()) && l < CacheOn(d.w.g, side).shared.layerCount
  }

  ghost predicate IsRecomputed(m: Models, d: Carried, side: Side, id: RequestId, l: nat) {
    && (side == Draft ==> d.w.Drafted()) && id in d.tokens && id in CacheOn(d.w.g, side).tables
    && l < |CacheOn(d.w.g, side).tables[id].layers|
    && var (c, layer) := (CacheOn(d.w.g, side), CacheOn(d.w.g, side).tables[id].layers[l]);
       && layer.count <= |d.tokens[id]| && ViewDefined(c.shared.pool, layer)
       && View(c.shared.pool, layer) == Recomputed(m.On(side), l, d.tokens[id], layer.count)
  }

  lemma AllRecomputed(cfg: Config, m: Models, d: Carried, side: Side, id: RequestId, l: nat)
    requires CarriedOk(cfg, m, d) && Viewed(d, side, id, l)
    ensures IsRecomputed(m, d, side, id, l)
  {
    hide CarriedOk, View, ViewDefined, Recomputed;
    ViewsAreRecomputed(cfg, m, d, side, id, l);
  }

  /** A committed token of a running request never changes. */
  lemma CommittedTokensStay(cfg: Config, m: Models, d: Carried, op: TokenOp, id: RequestId)
    requires CarriedOk(cfg, m, d) && TokenEnabled(cfg, m, d, op) && id in d.w.progress
    ensures id in TokensAfter(cfg, d, op) && d.w.progress[id].committed <= |d.tokens[id]|
    ensures d.tokens[id][..d.w.progress[id].committed] <= TokensAfter(cfg, d, op)[id]
  {
    hide ServingOk, BothSound, LengthsOk, MayDo, Do, Completed, OpAllowed;
    LengthsOf(cfg, d.w, id);
    PendingAtLeast(d.w.progress[id], d.w.Drafted());
    if op.op.Advance? && op.op.id == id {
      CompletedTokens(d.w.progress[id], d.w.Drafted(), op.op.control, d.tokens[id], op.sampled);
    } else if op.op.Book? && op.op.op.Submit? {
      SubmitIsNew(cfg, d.w, op.op.op);
      SubmittedNew(cfg, d.w, op.op.op.id);
    }
  }

  lemma SubmitIsNew(cfg: Config, w: Serving, o: SystemOp)
    requires o.Submit? && OpAllowed(cfg, w.g, o)
    ensures !InPlay(w.g.t, o.id)
  {
  }

  lemma PendingAtLeast(e: Progress, drafted: bool)
    requires LengthsOk(e, drafted)
    ensures e.committed <= Pending(e)
  {
  }

  /** A system without requests carries nothing and is sound if its caches index nothing wrong. */
  lemma FreshCarried(cfg: Config, m: Models, g: System)
    requires SystemOk(cfg, g) && g.bounds == map[] && g.t.s.active == []
    requires IndexSound(g.target.shared, m.target) && (g.draft.Some? ==> IndexSound(g.draft.value.shared, m.draft))
    ensures CarriedOk(cfg, m, Carried(Serving(g, map[], map[]), map[]))
  {
    hide SystemOk, IndexSound;
    FreshServing(cfg, g);
    CachesHoldActive(cfg, Serving(g, map[], map[]));
  }
}
