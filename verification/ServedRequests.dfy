/** The worker's rounds together with the executions they advance: admission, starts from whatever was
    restored, one scheduling decision, and one step for each request it names. Under every policy and
    coordination, and with any draft model or none, the worker runs out of requests within a number of
    rounds known beforehand, and every request that no failure or cancellation takes out ends with what
    target-only decoding of its own input gives. */
module ServedRequests {
  import opened Common
  import opened PrefixCacheFlight
  import opened SchedulerSpec
  import opened SchedulingDecision
  import opened SchedulerRuns
  import opened AdmissionOrder
  import opened WorkerLedgers
  import Greedy = GreedyDecoding
  import Single = RequestExecutionObject
  import Batch = RequestExecutionBatchObject

  /** What a request asks for. */
  datatype Ask = Ask(p: Greedy.Params, input: seq<Token>, counts: seq<(nat, nat)> -> nat)

  ghost predicate ValidAsk(a: Ask) { a.input != [] && a.p.maxNew > 0 && forall h :: a.counts(h) > 0 }

  type Asks = map<RequestId, Ask>

  /** The tokens that target-only decoding gives, and why it ends. */
  function Wanted(a: Ask, target: Greedy.Model): Greedy.Outcome { Greedy.Reference(a.p, target, a.input, a.p.maxNew) }

  /** The models of a worker; it decodes on the target alone without a draft. */
  datatype Models = Models(target: Greedy.Model, draft: Option<Greedy.Model>)

  /** How many tokens of a started request's input each cache had. */
  datatype Restored = Restored(target: nat, draft: nat)

  /** What a round cannot know: what is restored, which starts fail, whose clients are gone when the batch is
      put together, and which requests fail in the batch or after it. */
  datatype Chance = Chance(restored: RequestId -> Restored, refused: set<RequestId>, cancelled: set<RequestId>, failing: set<RequestId>)
  {
    function Failing(): set<RequestId> { refused + cancelled + failing }
  }

  datatype Served = Served(s: State, running: map<RequestId, Batch.Stepped>, done: map<RequestId, Greedy.Outcome>, failed: set<RequestId>)

  // ---- A round -----------------------------------------------------------------------------------

  /** A new execution; the last input token is never restored. */
  function Started(a: Ask, id: RequestId, m: Models, r: Restored): Batch.Stepped
    requires a.input != []
  {
    var t := Min(r.target, |a.input| - 1);
    var d := if m.draft.Some? then Min(r.draft, |a.input| - 1) else 0;
    var remaining := if m.draft.Some? then |a.input| - 1 - Min(t, d) else |a.input| - t;
    Batch.Stepped(Batch.Execution(id, a.p, a.input, a.input, t, d, Single.PrefillPhase(remaining), a.counts, []),
                  a.input[..t], a.input[..d])
  }

  /** One request's next step, speculative if there is a draft. */
  ghost function Step(m: Models, x: Batch.Stepped, budget: nat): Batch.Stepped
    requires Executing(m, x)
  {
    if m.draft.Some? then Batch.StepAlone(x.e, budget, m.target, m.draft.value, x.targetCache, x.draftCache)
    else
      var st := Single.TargetStep(x.e.p, m.target, x.e.input, Alone(x), budget);
      Batch.Stepped(x.e.(tokens := st.tokens, targetPosition := st.position, phase := st.phase), st.cached, x.draftCache)
  }

  function Alone(x: Batch.Stepped): Single.TargetState {
    Single.TargetState(x.e.tokens, x.e.targetPosition, x.e.phase, x.targetCache)
  }

  /** Tokens, positions and caches are in lockstep. */
  ghost predicate Executing(m: Models, x: Batch.Stepped) {
    if m.draft.Some? then Batch.Ready(x.e, x.targetCache, x.draftCache) else TargetReady(x)
  }

  ghost predicate TargetReady(x: Batch.Stepped) {
    && x.e.input != [] && x.e.p.maxNew > 0
    && match x.e.phase
       case Prefilling(remaining) =>
         && x.e.tokens == x.e.input && x.e.targetPosition < |x.e.input| && remaining == |x.e.input| - x.e.targetPosition
         && x.targetCache == x.e.input[..x.e.targetPosition]
       case Decoding(generated) =>
         && generated < x.e.p.maxNew && |x.e.tokens| == |x.e.input| + generated && x.e.input <= x.e.tokens
         && x.targetCache == x.e.tokens[..|x.e.tokens| - 1]
       case Finished(_) => true
  }

  lemma StepRefines(m: Models, x: Batch.Stepped, budget: nat)
    requires Executing(m, x) && budget > 0 && !x.e.phase.Finished?
    ensures var y := Step(m, x, budget);
            && Executing(m, y) && y.e.p == x.e.p
            && Batch.Expected(y.e, m.target) == Batch.Expected(x.e, m.target) && Batch.StepsLeft(y.e) < Batch.StepsLeft(x.e)
  {
    if m.draft.Some? { SpeculativeStepRefines(m, x, budget); } else { TargetStepRefines(m, x, budget); }
  }

  lemma SpeculativeStepRefines(m: Models, x: Batch.Stepped, budget: nat)
    requires m.draft.Some? && Executing(m, x) && budget > 0 && !x.e.phase.Finished?
    ensures var y := Step(m, x, budget);
            && Executing(m, y) && y.e.p == x.e.p
            && Batch.Expected(y.e, m.target) == Batch.Expected(x.e, m.target) && Batch.StepsLeft(y.e) < Batch.StepsLeft(x.e)
  {
    hide Batch.Expected, Batch.Ready, Batch.StepAlone;
    Batch.StepAloneRefines(x.e, budget, m.target, m.draft.value, x.targetCache, x.draftCache);
    SameParams(m, x, budget);
  }

  lemma SameParams(m: Models, x: Batch.Stepped, budget: nat)
    requires m.draft.Some? && Executing(m, x)
    ensures Step(m, x, budget).e.p == x.e.p
  {
    match x.e.phase
    case Prefilling(_) => assert Batch.Advanced(x.e, Batch.ChunkEnd(x.e, budget)).p == x.e.p;
    case Decoding(_) =>
      var proposal := Greedy.ProposeFrom(x.e.p, m.draft.value, x.e.tokens, [], Batch.ProposalLimit(x.e));
      var logits := Greedy.TargetLogits(m.target, x.e.tokens, proposal);
      assert Batch.Completed(x.e, proposal, logits).p == x.e.p;
    case Finished(_) =>
  }

  /** A target-only step commits the next token of target-only decoding, if any. */
  lemma TargetStepRefines(m: Models, x: Batch.Stepped, budget: nat)
    requires m.draft.None? && Executing(m, x) && budget > 0 && !x.e.phase.Finished?
    ensures var y := Step(m, x, budget);
            && Executing(m, y) && y.e.p == x.e.p
            && Batch.Expected(y.e, m.target) == Batch.Expected(x.e, m.target) && Batch.StepsLeft(y.e) < Batch.StepsLeft(x.e)
  {
    hide Single.SampledNext, Greedy.Reference;
    match x.e.phase
    case Prefilling(_) =>
      var end := Min(x.e.targetPosition + budget, |x.e.input|);
      if end == |x.e.input| {
        assert x.e.input[..end] == x.e.tokens;
        SampledRefines(m, x.e, Alone(x).(position := end, cached := x.e.input[..end]), 0);
      }
    case Decoding(g) => SampledRefines(m, x.e, Alone(x).(cached := x.e.tokens), g);
  }

  lemma SampledRefines(m: Models, e: Batch.Execution, st: Single.TargetState, g: nat)
    requires e.input != [] && g < e.p.maxNew && |st.tokens| == |e.input| + g && e.input <= st.tokens && st.cached == st.tokens
    ensures var after := Single.SampledNext(e.p, m.target, st, g);
            var y := Batch.Stepped(e.(tokens := after.tokens, targetPosition := after.position, phase := after.phase), after.cached, []);
            && TargetReady(y) && Batch.StepsLeft(y.e) < e.p.maxNew - g
            && Batch.Expected(y.e, m.target) == Greedy.Reference(e.p, m.target, st.tokens, e.p.maxNew - g)
  {
    var next := Greedy.NextToken(e.p, m.target, st.tokens);
    assert (st.tokens + [next])[..|st.tokens|] == st.tokens;
  }

  function Reported(phase: Single.Phase): GenerationPhase {
    match phase
    case Prefilling(remaining) => PrefillPhase(remaining)
    case Decoding(generated) => DecodePhase(generated)
    case Finished(_) => FinishedPhase
  }

  function Abort(d: Served, id: RequestId): Served {
    Served(Terminate(RemoveActive(d.s, id).0, id, Aborted).0, d.running - {id}, d.done, d.failed + {id})
  }

  /** The scheduler follows an execution: on to its next phase, with the release of a flight whose prefix is
      now there, or off the books with its outcome. */
  function Follow(d: Served, id: RequestId, x: Batch.Stepped): Served {
    var (s, r) := UpdatePhase(d.s, id, Reported(x.e.phase));
    if r.PhaseError? then Abort(d, id)
    else match x.e.phase
      case Finished(reason) =>
        Served(Terminate(s, id, Completed).0, d.running - {id}, d.done[id := Greedy.Outcome(x.e.tokens, reason)], d.failed)
      case _ => Served(if r.mustPublish then ReleasePrefixFlight(s, id).0 else s, d.running[id := x], d.done, d.failed)
  }

  function StartOne(asks: Asks, m: Models, d: Served, id: RequestId, chance: Chance): Served {
    if id in chance.refused || id !in asks || asks[id].input == [] then Abort(d, id)
    else Follow(d, id, Started(asks[id], id, m, chance.restored(id)))
  }

  /** A request that is not executing has no step. */
  ghost function StepOne(m: Models, d: Served, g: Grant, chance: Chance): Served {
    if g.id in chance.cancelled + chance.failing || g.id !in d.running || !Executing(m, d.running[g.id]) then Abort(d, g.id)
    else Follow(d, g.id, Step(m, d.running[g.id], g.budget))
  }

  function StartAll(asks: Asks, m: Models, d: Served, ids: seq<RequestId>, chance: Chance): Served
    decreases |ids|
  {
    if ids == [] then d else StartAll(asks, m, StartOne(asks, m, d, ids[0], chance), ids[1..], chance)
  }

  /** The results of the cancelled requests come before those of the batch. */
  ghost function StepAll(m: Models, d: Served, grants: seq<Grant>, chance: Chance, cancelled: bool): Served
    decreases |grants|
  {
    if grants == [] then d
    else
      var next := if (grants[0].id in chance.cancelled) == cancelled then StepOne(m, d, grants[0], chance) else d;
      StepAll(m, next, grants[1..], chance, cancelled)
  }

  ghost function Round(cfg: Config, asks: Asks, m: Models, d: Served, chance: Chance): Served
    requires cfg.pageTokens > 0
  {
    var (admitted, ids) := Admit(cfg, d.s);
    var started := StartAll(asks, m, d.(s := admitted), ids, chance);
    var (decided, grants) := Decide(cfg, started.s);
    StepAll(m, StepAll(m, started.(s := decided), grants, chance, true), grants, chance, false)
  }

  // ---- The invariant -----------------------------------------------------------------------------

  ghost predicate Fits(asks: Asks, r: Request) { r.id in asks && ValidAsk(asks[r.id]) && r.maxNew == asks[r.id].p.maxNew }

  /** Not started yet: the whole input is to be prefilled. */
  ghost predicate NotStarted(asks: Asks, r: Request) { Fits(asks, r) && r.phase == Prefill(|asks[r.id].input|) }

  /** What the scheduler knows of an execution. */
  predicate Shown(r: Request, phase: Single.Phase) {
    match phase
    case Prefilling(remaining) => r.phase == Prefill(remaining)
    case Decoding(generated) => r.phase == Decode && r.generated == generated
    case Finished(_) => false
  }

  /** On its way from the request's input to what target-only decoding gives. */
  ghost predicate OnTheWay(a: Ask, m: Models, x: Batch.Stepped) {
    Executing(m, x) && x.e.p == a.p && Batch.Expected(x.e, m.target) == Wanted(a, m.target)
  }

  ghost predicate EntryOk(asks: Asks, m: Models, r: Request, running: map<RequestId, Batch.Stepped>, starting: set<RequestId>) {
    if r.id in starting then NotStarted(asks, r)
    else Fits(asks, r) && r.id in running && OnTheWay(asks[r.id], m, running[r.id]) && Shown(r, running[r.id].e.phase)
  }

  ghost predicate EntriesOk(asks: Asks, m: Models, s: State, running: map<RequestId, Batch.Stepped>, starting: set<RequestId>) {
    && (forall i :: 0 <= i < |s.queue| ==> NotStarted(asks, s.queue[i]))
    && (forall i :: 0 <= i < |s.active| ==> EntryOk(asks, m, s.active[i], running, starting))
  }

  /** Every request is waiting, active, done or failed, and only one of them. */
  ghost predicate EachOnce(asks: Asks, d: Served) {
    && asks.Keys == IdSet(d.s.queue) + IdSet(d.s.active) + d.done.Keys + d.failed
    && IdSet(d.s.queue) + IdSet(d.s.active) !! d.done.Keys !! d.failed
  }

  ghost predicate ServedOk(cfg: Config, asks: Asks, m: Models, d: Served, starting: set<RequestId>) {
    && SchedulerOk(cfg, Tracked(d.s, {})) && EntriesOk(asks, m, d.s, d.running, starting) && EachOnce(asks, d)
    && starting <= IdSet(d.s.active)
    && forall id :: id in d.done ==> id in asks && d.done[id] == Wanted(asks[id], m.target)
  }

  // ---- The work that is left ----------------------------------------------------------------------

  function Left(r: Request): nat {
    match r.phase
    case Prefill(remaining) => remaining + r.maxNew + 1
    case Decode => if r.generated < r.maxNew then r.maxNew - r.generated else 0
  }

  function SumLeft(rs: seq<Request>): nat {
    if rs == [] then 0 else SumLeft(rs[..|rs| - 1]) + Left(rs[|rs| - 1])
  }

  /** At least as many as the rounds still needed: the steps of every request, and the start of each queued one. */
  function Work(s: State): nat { |s.queue| + SumLeft(s.queue) + SumLeft(s.active) }

  lemma {:induction false} SumLeftConcat(a: seq<Request>, b: seq<Request>)
    ensures SumLeft(a + b) == SumLeft(a) + SumLeft(b)
    decreases |b|
  {
    if b == [] {
      assert a + b == a;
    } else {
      SumLeftConcat(a, b[..|b| - 1]);
      assert (a + b)[..|a + b| - 1] == a + b[..|b| - 1];
    }
  }

  lemma SumLeftOne(r: Request)
    ensures SumLeft([r]) == Left(r)
  {
    assert [r][..0] == [];
  }

  lemma SumLeftDrop(s: seq<Request>, k: nat)
    requires k < |s|
    ensures SumLeft(s) == SumLeft(Drop(s, k)) + Left(s[k])
  {
    hide SumLeft;
    assert s == s[..k] + [s[k]] + s[k + 1..];
    SumLeftConcat(s[..k] + [s[k]], s[k + 1..]);
    SumLeftConcat(s[..k], [s[k]]);
    SumLeftConcat(s[..k], s[k + 1..]);
    SumLeftOne(s[k]);
  }

  lemma SumLeftUpdate(s: seq<Request>, k: nat, r: Request)
    requires k < |s|
    ensures SumLeft(s[k := r]) == SumLeft(s) - Left(s[k]) + Left(r)
  {
    hide SumLeft;
    SumLeftDrop(s, k);
    SumLeftDrop(s[k := r], k);
    assert Drop(s[k := r], k) == Drop(s, k);
  }

  lemma {:induction false} SumLeftPermuted(a: seq<Request>, b: seq<Request>)
    requires multiset(a) == multiset(b)
    ensures SumLeft(a) == SumLeft(b)
    decreases |a|
  {
    hide SumLeft, Drop;
    if a == [] {
      assert |multiset(b)| == |b|;
      assert a == b;
    } else {
      assert a[0] in multiset(a) && a[0] in multiset(b);
      var k :| 0 <= k < |b| && b[k] == a[0];
      DropExact(a, 0);
      DropExact(b, k);
      SumLeftDrop(a, 0);
      SumLeftDrop(b, k);
      DropShorter(a, 0);
      SumLeftPermuted(Drop(a, 0), Drop(b, k));
    }
  }

  lemma DropShorter(s: seq<Request>, k: nat)
    requires k < |s|
    ensures |Drop(s, k)| == |s| - 1
  {
  }

  lemma {:induction false} SumLeftUnblocked(a: seq<Request>, b: seq<Request>)
    requires OnlyUnblocked(a, b)
    ensures SumLeft(a) == SumLeft(b)
    decreases |a|
  {
    if a != [] { SumLeftUnblocked(a[..|a| - 1], b[..|b| - 1]); }
  }

  // ---- How the entries change -----------------------------------------------------------------------

  lemma UnblockedEntries(asks: Asks, m: Models, s: State, s': State, running: map<RequestId, Batch.Stepped>, starting: set<RequestId>)
    requires EntriesOk(asks, m, s, running, starting) && OnlyUnblocked(s.queue, s'.queue) && s'.active == s.active
    ensures EntriesOk(asks, m, s', running, starting) && Work(s') == Work(s)
  {
    hide EntryOk, SumLeft, ValidAsk;
    SumLeftUnblocked(s.queue, s'.queue);
    forall i | 0 <= i < |s'.queue| ensures NotStarted(asks, s'.queue[i]) {
      assert NotStarted(asks, s.queue[i]) && s'.queue[i] == s.queue[i].(blocked := s'.queue[i].blocked);
    }
  }

  lemma OtherEntry(asks: Asks, m: Models, r: Request, id: RequestId, running: map<RequestId, Batch.Stepped>,
                   running': map<RequestId, Batch.Stepped>, starting: set<RequestId>)
    requires EntryOk(asks, m, r, running, starting) && r.id != id
    requires r.id in running ==> r.id in running' && running'[r.id] == running[r.id]
    ensures EntryOk(asks, m, r, running', starting - {id})
  {
    hide OnTheWay, Fits, Shown;
  }

  lemma ReplacedEntries(asks: Asks, m: Models, s: State, s': State, running: map<RequestId, Batch.Stepped>,
                        starting: set<RequestId>, k: nat, x: Batch.Stepped)
    requires EntriesOk(asks, m, s, running, starting) && IdsDistinct(s.active) && k < |s.active|
    requires |s'.active| == |s.active| && s'.active == s.active[k := s'.active[k]] && s'.active[k].id == s.active[k].id
    requires s'.queue == s.queue
    requires EntryOk(asks, m, s'.active[k], running[s.active[k].id := x], starting - {s.active[k].id})
    ensures EntriesOk(asks, m, s', running[s.active[k].id := x], starting - {s.active[k].id})
    ensures Work(s') == Work(s) - Left(s.active[k]) + Left(s'.active[k])
  {
    hide EntryOk, NotStarted, SumLeft, Left;
    SumLeftUpdate(s.active, k, s'.active[k]);
    forall i | 0 <= i < |s'.active|
      ensures EntryOk(asks, m, s'.active[i], running[s.active[k].id := x], starting - {s.active[k].id})
    {
      if i != k {
        assert s'.active[i] == s.active[i] && s.active[i].id != s.active[k].id;
        OtherEntry(asks, m, s.active[i], s.active[k].id, running, running[s.active[k].id := x], starting);
      }
    }
  }

  lemma DroppedEntries(asks: Asks, m: Models, s: State, s': State, running: map<RequestId, Batch.Stepped>,
                       starting: set<RequestId>, k: nat)
    requires EntriesOk(asks, m, s, running, starting) && IdsDistinct(s.active) && k < |s.active|
    requires s'.active == Drop(s.active, k) && s'.queue == s.queue
    ensures EntriesOk(asks, m, s', running - {s.active[k].id}, starting - {s.active[k].id})
    ensures Work(s') == Work(s) - Left(s.active[k])
  {
    hide EntryOk, NotStarted, SumLeft, Left, Drop;
    SumLeftDrop(s.active, k);
    DropExact(s.active, k);
    DropShorter(s.active, k);
    EntryHasWork(asks, m, s.active[k], running, starting);
    forall i | 0 <= i < |s'.active|
      ensures EntryOk(asks, m, s'.active[i], running - {s.active[k].id}, starting - {s.active[k].id})
    {
      var j := if i < k then i else i + 1;
      assert s'.active[i] == s.active[j] && s.active[j].id != s.active[k].id;
      OtherEntry(asks, m, s.active[j], s.active[k].id, running, running - {s.active[k].id}, starting);
    }
  }

  lemma EntryHasWork(asks: Asks, m: Models, r: Request, running: map<RequestId, Batch.Stepped>, starting: set<RequestId>)
    requires EntryOk(asks, m, r, running, starting)
    ensures Left(r) > 0 && (r.phase.Prefill? ==> r.phase.remaining > 0)
    ensures r.id !in starting ==> Left(r) == Batch.StepsLeft(running[r.id].e)
  {
    hide Greedy.Reference, Batch.Expected;
  }

  lemma {:induction false} WaitingHaveWork(asks: Asks, rs: seq<Request>)
    requires forall i :: 0 <= i < |rs| ==> NotStarted(asks, rs[i])
    ensures rs != [] ==> SumLeft(rs) > 0
  {
    if rs != [] { assert NotStarted(asks, rs[|rs| - 1]); }
  }

  // ---- One request of a round -------------------------------------------------------------------------

  /** An execution on its way to its end, and by so many steps closer to it than the scheduler knows. */
  ghost predicate Follows(asks: Asks, m: Models, r: Request, x: Batch.Stepped, gain: nat) {
    Fits(asks, r) && OnTheWay(asks[r.id], m, x) && Batch.StepsLeft(x.e) + gain <= Left(r)
  }

  /** What one request's turn does: so much of the work is gone, the request is not starting any more, and
      the others stay where they are. */
  ghost predicate TurnOk(cfg: Config, asks: Asks, m: Models, d: Served, d': Served, id: RequestId, starting: set<RequestId>, gain: nat) {
    && ServedOk(cfg, asks, m, d', starting - {id}) && Work(d'.s) + gain <= Work(d.s)
    && IdSet(d.s.active) - {id} <= IdSet(d'.s.active) && d.failed <= d'.failed <= d.failed + {id}
  }

  /** Where a request is after its turn: still active, done as wanted, or failed. */
  ghost predicate Moved(asks: Asks, m: Models, d: Served, d': Served, id: RequestId) {
    && IdSet(d'.s.queue) == IdSet(d.s.queue)
    && if id in IdSet(d'.s.active) then IdSet(d'.s.active) == IdSet(d.s.active) && d'.done == d.done && d'.failed == d.failed
       else && IdSet(d'.s.active) == IdSet(d.s.active) - {id}
            && if id in d'.failed then d'.done == d.done && d'.failed == d.failed + {id}
               else id in asks && d'.done == d.done[id := Wanted(asks[id], m.target)] && d'.failed == d.failed
  }

  lemma TurnTaken(cfg: Config, asks: Asks, m: Models, d: Served, d': Served, id: RequestId, starting: set<RequestId>, gain: nat)
    requires ServedOk(cfg, asks, m, d, starting) && id in IdSet(d.s.active) && IdSet(d.s.queue) !! IdSet(d.s.active)
    requires SchedulerOk(cfg, Tracked(d'.s, {})) && EntriesOk(asks, m, d'.s, d'.running, starting - {id}) && Work(d'.s) + gain <= Work(d.s)
    requires Moved(asks, m, d, d', id)
    ensures TurnOk(cfg, asks, m, d, d', id, starting, gain)
  {
    hide SchedulerOk, EntriesOk, Work, Wanted, EachOnce;
    TurnPlaces(asks, m, d, d', id);
  }

  lemma TurnPlaces(asks: Asks, m: Models, d: Served, d': Served, id: RequestId)
    requires EachOnce(asks, d) && id in IdSet(d.s.active) && IdSet(d.s.queue) !! IdSet(d.s.active) && Moved(asks, m, d, d', id)
    ensures EachOnce(asks, d')
  {
    hide Wanted, IdSet;
  }

  lemma AbortKeeps(cfg: Config, asks: Asks, m: Models, d: Served, id: RequestId, starting: set<RequestId>, k: nat, gain: nat)
    requires ServedOk(cfg, asks, m, d, starting) && k < |d.s.active| && d.s.active[k].id == id && gain <= Left(d.s.active[k])
    ensures TurnOk(cfg, asks, m, d, Abort(d, id), id, starting, gain)
  {
    hide SchedulerOk, EntriesOk, RemoveActive, Terminate, Work, Wanted, TurnOk;
    assert Holds(d.s.active, id);
    DepartureMoves(cfg, d.s, id, Aborted);
    LeavesEntries(cfg, asks, m, d, id, starting, k, RemoveActive(d.s, id).0, Aborted);
    PlacesApart(cfg, d.s);
    TurnTaken(cfg, asks, m, d, Abort(d, id), id, starting, gain);
  }

  lemma PlacesApart(cfg: Config, s: State)
    requires SchedulerOk(cfg, Tracked(s, {}))
    ensures IdsDistinct(s.active) && IdSet(s.queue) !! IdSet(s.active)
  {
    hide FlightsOk, QueueOk, Coordinated;
  }

  /** A request that was taken out of the active list is terminated. */
  lemma LeavesEntries(cfg: Config, asks: Asks, m: Models, d: Served, id: RequestId, starting: set<RequestId>,
                      k: nat, s: State, how: Termination)
    requires SchedulerOk(cfg, Tracked(d.s, {})) && EntriesOk(asks, m, d.s, d.running, starting)
    requires k < |d.s.active| && d.s.active[k].id == id && s == RemoveActive(d.s, id).0
    ensures EntriesOk(asks, m, Terminate(s, id, how).0, d.running - {id}, starting - {id})
    ensures Work(Terminate(s, id, how).0) == Work(d.s) - Left(d.s.active[k])
  {
    hide EntriesOk, Terminate, Work, SchedulerOk;
    PlacesApart(cfg, d.s);
    PositionFound(d.s.active, id, 0);
    assert Position(d.s.active, id).value == k;
    DroppedEntries(asks, m, d.s, s, d.running, starting, k);
    TerminateOnly(s, id, how);
    UnblockedEntries(asks, m, s, Terminate(s, id, how).0, d.running - {id}, starting - {id});
  }

  /** An execution goes on. */
  lemma GoesOnKeeps(cfg: Config, asks: Asks, m: Models, d: Served, id: RequestId, starting: set<RequestId>,
                    k: nat, x: Batch.Stepped, gain: nat)
    requires ServedOk(cfg, asks, m, d, starting) && k < |d.s.active| && d.s.active[k].id == id
    requires Follows(asks, m, d.s.active[k], x, gain) && !x.e.phase.Finished?
    ensures TurnOk(cfg, asks, m, d, Follow(d, id, x), id, starting, gain)
  {
    hide SchedulerOk, EntriesOk, EachOnce, EntryOk, UpdatePhase, ReleasePrefixFlight, Work, Wanted, Follows, GoesForward,
      RequiresPublication, TurnOk;
    PlacesApart(cfg, d.s);
    assert Holds(d.s.active, id);
    ForwardEntry(asks, m, d, id, k, x, starting, gain);
    PhaseMoves(cfg, d.s, id, Reported(x.e.phase));
    ForwardEntries(cfg, asks, m, d, id, starting, k, x, gain);
    if UpdatePhase(d.s, id, Reported(x.e.phase)).1.mustPublish { ReleaseMoves(cfg, UpdatePhase(d.s, id, Reported(x.e.phase)).0, id); }
    TurnTaken(cfg, asks, m, d, Follow(d, id, x), id, starting, gain);
  }

  lemma ForwardEntries(cfg: Config, asks: Asks, m: Models, d: Served, id: RequestId, starting: set<RequestId>,
                       k: nat, x: Batch.Stepped, gain: nat)
    requires EntriesOk(asks, m, d.s, d.running, starting) && IdsDistinct(d.s.active) && k < |d.s.active| && d.s.active[k].id == id
    requires Follows(asks, m, d.s.active[k], x, gain) && !x.e.phase.Finished?
    ensures var s := UpdatePhase(d.s, id, Reported(x.e.phase)).0;
            && EntriesOk(asks, m, s, d.running[id := x], starting - {id}) && Work(s) + gain <= Work(d.s)
            && EntriesOk(asks, m, ReleasePrefixFlight(s, id).0, d.running[id := x], starting - {id})
            && Work(ReleasePrefixFlight(s, id).0) + gain <= Work(d.s)
  {
    hide EntriesOk, EntryOk, UpdatePhase, ReleasePrefixFlight, Work, Follows, GoesForward, Left;
    ForwardEntry(asks, m, d, id, k, x, starting, gain);
    var s := UpdatePhase(d.s, id, Reported(x.e.phase)).0;
    ReplacedEntries(asks, m, d.s, s, d.running, starting, k, x);
    ReleaseOnly(s, id);
    UnblockedEntries(asks, m, s, ReleasePrefixFlight(s, id).0, d.running[id := x], starting - {id});
  }

  /** The scheduler's entry after it followed an execution. */
  lemma ForwardEntry(asks: Asks, m: Models, d: Served, id: RequestId, k: nat, x: Batch.Stepped, starting: set<RequestId>, gain: nat)
    requires k < |d.s.active| && d.s.active[k].id == id && IdsDistinct(d.s.active)
    requires Follows(asks, m, d.s.active[k], x, gain) && !x.e.phase.Finished?
    ensures GoesForward(d.s, id, Reported(x.e.phase))
    ensures var s := UpdatePhase(d.s, id, Reported(x.e.phase)).0;
            && |s.active| == |d.s.active| && s.active == d.s.active[k := s.active[k]] && s.active[k].id == id && s.queue == d.s.queue
            && EntryOk(asks, m, s.active[k], d.running[id := x], starting - {id}) && Left(s.active[k]) + gain <= Left(d.s.active[k])
  {
    hide Batch.Expected, Greedy.Reference;
    PositionFound(d.s.active, id, 0);
    assert Position(d.s.active, id).value == k;
  }

  /** An execution that has ended leaves with its outcome. */
  lemma FinishKeeps(cfg: Config, asks: Asks, m: Models, d: Served, id: RequestId, starting: set<RequestId>,
                    k: nat, x: Batch.Stepped, gain: nat)
    requires ServedOk(cfg, asks, m, d, starting) && k < |d.s.active| && d.s.active[k].id == id
    requires Follows(asks, m, d.s.active[k], x, gain) && x.e.phase.Finished?
    ensures TurnOk(cfg, asks, m, d, Follow(d, id, x), id, starting, gain)
  {
    hide SchedulerOk, EntriesOk, EachOnce, UpdatePhase, RemoveActive, Terminate, Work, GoesForward, Greedy.Reference, TurnOk,
      RequiresPublication;
    PlacesApart(cfg, d.s);
    assert Holds(d.s.active, id);
    FinishIsRemoval(d.s, id, k);
    ForwardFinish(d.s, id);
    PhaseMoves(cfg, d.s, id, FinishedPhase);
    var s := UpdatePhase(d.s, id, FinishedPhase).0;
    TerminateMoves(cfg, s, id, Completed);
    LeavesEntries(cfg, asks, m, d, id, starting, k, s, Completed);
    assert id !in d.failed by { NotBoth(asks, d, id); }
    TurnTaken(cfg, asks, m, d, Follow(d, id, x), id, starting, gain);
  }

  lemma NotBoth(asks: Asks, d: Served, id: RequestId)
    requires EachOnce(asks, d) && id in IdSet(d.s.active)
    ensures id !in d.failed && id !in d.done
  {
  }

  lemma ForwardFinish(s: State, id: RequestId)
    ensures GoesForward(s, id, FinishedPhase)
  {
  }

  lemma FinishIsRemoval(s: State, id: RequestId, k: nat)
    requires k < |s.active| && s.active[k].id == id
    ensures UpdatePhase(s, id, FinishedPhase).0 == RemoveActive(s, id).0
  {
    PositionFound(s.active, id, 0);
  }

  lemma FollowKeeps(cfg: Config, asks: Asks, m: Models, d: Served, id: RequestId, starting: set<RequestId>,
                    k: nat, x: Batch.Stepped, gain: nat)
    requires ServedOk(cfg, asks, m, d, starting) && k < |d.s.active| && d.s.active[k].id == id
    requires Follows(asks, m, d.s.active[k], x, gain)
    ensures TurnOk(cfg, asks, m, d, Follow(d, id, x), id, starting, gain)
  {
    hide ServedOk, Follows, TurnOk, Follow;
    if x.e.phase.Finished? {
      FinishKeeps(cfg, asks, m, d, id, starting, k, x, gain);
    } else {
      GoesOnKeeps(cfg, asks, m, d, id, starting, k, x, gain);
    }
  }

  lemma StartOneKeeps(cfg: Config, asks: Asks, m: Models, d: Served, id: RequestId, starting: set<RequestId>, chance: Chance)
    requires ServedOk(cfg, asks, m, d, starting) && id in starting
    ensures TurnOk(cfg, asks, m, d, StartOne(asks, m, d, id, chance), id, starting, 0)
    ensures id !in chance.refused ==> StartOne(asks, m, d, id, chance).failed == d.failed
  {
    hide TurnOk, Follow, Abort, EntryOk, SchedulerOk, EachOnce, Wanted;
    assert id in IdSet(d.s.active) && Holds(d.s.active, id);
    var k :| 0 <= k < |d.s.active| && d.s.active[k].id == id;
    StartCloser(asks, m, d.s.active[k], d.running, starting, chance.restored(id));
    if id in chance.refused {
      AbortKeeps(cfg, asks, m, d, id, starting, k, 0);
    } else {
      var x := Started(asks[id], id, m, chance.restored(id));
      FollowKeeps(cfg, asks, m, d, id, starting, k, x, 0);
      FollowFailsNobody(cfg, asks, m, d, id, k, x);
    }
  }

  lemma StartCloser(asks: Asks, m: Models, r: Request, running: map<RequestId, Batch.Stepped>, starting: set<RequestId>, restored: Restored)
    requires EntryOk(asks, m, r, running, starting) && r.id in starting
    ensures r.id in asks && asks[r.id].input != [] && Follows(asks, m, r, Started(asks[r.id], r.id, m, restored), 0)
  {
    hide Greedy.Reference;
  }

  lemma FollowFailsNobody(cfg: Config, asks: Asks, m: Models, d: Served, id: RequestId, k: nat, x: Batch.Stepped)
    requires SchedulerOk(cfg, Tracked(d.s, {})) && k < |d.s.active| && d.s.active[k].id == id && Follows(asks, m, d.s.active[k], x, 0)
    ensures Follow(d, id, x).failed == d.failed
  {
    hide SchedulerOk, UpdatePhase, GoesForward, Terminate, ReleasePrefixFlight, RequiresPublication;
    assert Holds(d.s.active, id);
    PlacesApart(cfg, d.s);
    PhaseMoves(cfg, d.s, id, Reported(x.e.phase));
    if x.e.phase.Finished? { ForwardFinish(d.s, id); } else { ForwardEntry(asks, m, d, id, k, x, {}, 0); }
  }

  lemma StepOneKeeps(cfg: Config, asks: Asks, m: Models, d: Served, g: Grant, chance: Chance)
    requires ServedOk(cfg, asks, m, d, {}) && g.id in IdSet(d.s.active) && g.budget > 0
    ensures TurnOk(cfg, asks, m, d, StepOne(m, d, g, chance), g.id, {}, 1)
    ensures g.id !in chance.Failing() ==> StepOne(m, d, g, chance).failed == d.failed
  {
    hide TurnOk, Follow, Abort, EntryOk, SchedulerOk, EachOnce, Wanted, Executing, Step;
    assert Holds(d.s.active, g.id);
    var k :| 0 <= k < |d.s.active| && d.s.active[k].id == g.id;
    StepCloser(asks, m, d.s.active[k], d.running, g.budget);
    if g.id in chance.cancelled + chance.failing {
      AbortKeeps(cfg, asks, m, d, g.id, {}, k, 1);
    } else {
      var x := d.running[g.id];
      var next := Step(m, x, g.budget);
      FollowKeeps(cfg, asks, m, d, g.id, {}, k, next, 1);
      FollowFailsNobody(cfg, asks, m, d, g.id, k, next);
    }
  }

  lemma StepCloser(asks: Asks, m: Models, r: Request, running: map<RequestId, Batch.Stepped>, budget: nat)
    requires EntryOk(asks, m, r, running, {}) && budget > 0
    ensures r.id in running && Executing(m, running[r.id])
    ensures var x := running[r.id];
            Left(r) > 0 && Follows(asks, m, r, Step(m, x, budget), 1)
  {
    hide Batch.Expected, Wanted, Step, Executing;
    EntryHasWork(asks, m, r, running, {});
    StepRefines(m, running[r.id], budget);
  }

  // ---- A whole round ----------------------------------------------------------------------------------

  /** What a stretch of a round does: the requests stay in order, the work does not grow, and only those
      that fail or are cancelled fail. */
  ghost predicate StretchOk(cfg: Config, asks: Asks, m: Models, d: Served, d': Served, chance: Chance) {
    && ServedOk(cfg, asks, m, d', {}) && Work(d'.s) <= Work(d.s) && d.failed <= d'.failed <= d.failed + chance.Failing()
  }

  lemma {:induction false} StartAllKeeps(cfg: Config, asks: Asks, m: Models, d: Served, ids: seq<RequestId>, chance: Chance)
    requires ServedOk(cfg, asks, m, d, Elements(ids)) && Distinct(ids)
    ensures StretchOk(cfg, asks, m, d, StartAll(asks, m, d, ids, chance), chance)
    decreases |ids|
  {
    hide ServedOk, StartOne, Work;
    if ids == [] {
      assert Elements(ids) == {};
    } else {
      var rest := ids[1..];
      StartOneKeeps(cfg, asks, m, d, ids[0], Elements(ids), chance);
      RestElements(ids);
      StartAllKeeps(cfg, asks, m, StartOne(asks, m, d, ids[0], chance), rest, chance);
    }
  }

  lemma RestElements(ids: seq<RequestId>)
    requires Distinct(ids) && ids != []
    ensures Distinct(ids[1..]) && Elements(ids) - {ids[0]} == Elements(ids[1..])
  {
    assert ids == [ids[0]] + ids[1..];
  }

  lemma {:induction false} StepAllKeeps(cfg: Config, asks: Asks, m: Models, d: Served, grants: seq<Grant>, chance: Chance, cancelled: bool)
    requires ServedOk(cfg, asks, m, d, {}) && Granting(grants) && GrantsLive(d.s, grants, chance, cancelled)
    ensures var d' := StepAll(m, d, grants, chance, cancelled);
            && StretchOk(cfg, asks, m, d, d', chance)
            && (cancelled ==> IdSet(d.s.active) - chance.cancelled <= IdSet(d'.s.active))
            && (grants != [] && (grants[0].id in chance.cancelled) == cancelled ==> Work(d'.s) < Work(d.s))
    decreases |grants|
  {
    hide ServedOk, StepOne, Work, IdSet;
    if grants != [] {
      var rest, next := grants[1..], d;
      RestGranting(grants);
      if (grants[0].id in chance.cancelled) == cancelled {
        next := StepOne(m, d, grants[0], chance);
        StepOneKeeps(cfg, asks, m, d, grants[0], chance);
        assert {} - {grants[0].id} == {};
      }
      forall i | 0 <= i < |rest| && (rest[i].id in chance.cancelled) == cancelled ensures rest[i].id in IdSet(next.s.active) {
        assert rest[i] == grants[i + 1] && grants[i + 1].id != grants[0].id;
      }
      StepAllKeeps(cfg, asks, m, next, rest, chance, cancelled);
    }
  }

  /** Grants of at least one token to different requests. */
  ghost predicate Granting(grants: seq<Grant>) {
    && (forall i :: 0 <= i < |grants| ==> grants[i].budget > 0)
    && (forall i, j :: 0 <= i < j < |grants| ==> grants[i].id != grants[j].id)
  }

  lemma RestGranting(grants: seq<Grant>)
    requires Granting(grants) && grants != []
    ensures Granting(grants[1..])
  {
    forall i, j | 0 <= i < j < |grants| - 1 ensures grants[1..][i].id != grants[1..][j].id {
      assert grants[1..][i] == grants[i + 1] && grants[1..][j] == grants[j + 1];
    }
  }

  /** The cancelled, or the other, grants are to active requests. */
  ghost predicate GrantsLive(s: State, grants: seq<Grant>, chance: Chance, cancelled: bool) {
    forall i :: 0 <= i < |grants| && (grants[i].id in chance.cancelled) == cancelled ==> grants[i].id in IdSet(s.active)
  }

  lemma AdmittedKeeps(cfg: Config, asks: Asks, m: Models, d: Served)
    requires ServedOk(cfg, asks, m, d, {})
    ensures cfg.pageTokens > 0
    ensures var (s, ids) := Admit(cfg, d.s);
            && ServedOk(cfg, asks, m, d.(s := s), Elements(ids)) && Distinct(ids) && Work(s) + |ids| == Work(d.s)
  {
    assert cfg.pageTokens > 0;
    hide SchedulerOk, Admit, Wanted, EntriesOk, EachOnce, Work;
    AdmitMoves(cfg, d.s);
    PlacesApart(cfg, d.s);
    AdmittedEntries(cfg, asks, m, d.s, d.running);
    SamePlaces(asks, d, d.(s := Admit(cfg, d.s).0));
  }

  lemma SamePlaces(asks: Asks, d: Served, d': Served)
    requires EachOnce(asks, d) && d'.done == d.done && d'.failed == d.failed
    requires IdSet(d'.s.queue) + IdSet(d'.s.active) == IdSet(d.s.queue) + IdSet(d.s.active)
    ensures EachOnce(asks, d')
  {
    hide IdSet;
  }

  lemma AdmittedEntries(cfg: Config, asks: Asks, m: Models, s: State, running: map<RequestId, Batch.Stepped>)
    requires cfg.pageTokens > 0 && EntriesOk(asks, m, s, running, {}) && IdSet(s.queue) !! IdSet(s.active)
    requires SchedulerOk(cfg, Tracked(s, {}))
    ensures var (s', ids) := Admit(cfg, s);
            EntriesOk(asks, m, s', running, Elements(ids)) && Work(s') + |ids| == Work(s)
  {
    hide Admit, Unblocked, Blocked, PolicyOrder, LongestFitting, SumPages, EntryOk, NotStarted, SumLeft, SchedulerOk;
    AdmitMoves(cfg, s);
    var n := AdmitExact(cfg, s);
    var moved := Unblocked(PolicyOrder(cfg.policy, s.queue))[..n];
    var (s', ids) := Admit(cfg, s);
    assert multiset(s'.queue + s'.active) == multiset(s.queue + s.active);
    assert |multiset(s'.queue + s'.active)| == |s'.queue + s'.active| && |multiset(s.queue + s.active)| == |s.queue + s.active|;
    SumLeftPermuted(s'.queue + s'.active, s.queue + s.active);
    SumLeftConcat(s'.queue, s'.active);
    SumLeftConcat(s.queue, s.active);
    forall i | 0 <= i < |s'.queue| ensures NotStarted(asks, s'.queue[i]) {
      FromQueue(s, s', s'.queue[i], ids);
      var j :| 0 <= j < |s.queue| && s.queue[j] == s'.queue[i];
    }
    forall i | 0 <= i < |s'.active| ensures EntryOk(asks, m, s'.active[i], running, Elements(ids)) {
      AdmittedEntry(asks, m, s, s', running, i, moved, ids);
    }
  }

  /** What is queued after admission was queued before. */
  lemma FromQueue(s: State, s': State, r: Request, ids: seq<RequestId>)
    requires multiset(s'.queue) + multiset(s'.active) == multiset(s.queue) + multiset(s.active)
    requires IdSet(s.queue) !! IdSet(s.active) && IdSet(s'.queue) <= IdSet(s.queue) && r in s'.queue
    ensures r in s.queue
  {
    assert r in multiset(s'.queue) && r in multiset(s.queue) + multiset(s.active);
    var i :| 0 <= i < |s'.queue| && s'.queue[i] == r;
    assert Holds(s'.queue, r.id) && r.id in IdSet(s.queue);
    forall j | 0 <= j < |s.active| ensures s.active[j] != r { assert Holds(s.active, s.active[j].id); }
  }

  lemma AdmittedEntry(asks: Asks, m: Models, s: State, s': State, running: map<RequestId, Batch.Stepped>, i: nat,
                      moved: seq<Request>, ids: seq<RequestId>)
    requires EntriesOk(asks, m, s, running, {}) && IdSet(s.queue) !! IdSet(s.active) && Elements(ids) <= IdSet(s.queue)
    requires multiset(s'.queue) + multiset(s'.active) == multiset(s.queue) + multiset(s.active)
    requires s'.active == s.active + moved && ids == Ids(moved) && i < |s'.active|
    ensures EntryOk(asks, m, s'.active[i], running, Elements(ids))
  {
    hide OnTheWay, Fits, Shown;
    var r := s'.active[i];
    if i < |s.active| {
      assert r == s.active[i] && Holds(s.active, r.id) && r.id !in Elements(ids);
      assert EntryOk(asks, m, s.active[i], running, {});
    } else {
      var k := i - |s.active|;
      assert r == moved[k] && ids[k] == r.id && r.id in IdSet(s.queue);
      assert r in multiset(s'.active) && r in multiset(s.queue) + multiset(s.active);
      forall j | 0 <= j < |s.active| ensures s.active[j] != r { assert Holds(s.active, s.active[j].id); }
      var j :| 0 <= j < |s.queue| && s.queue[j] == r;
      assert NotStarted(asks, s.queue[j]);
    }
  }

  /** The decision grants tokens whenever something is active, and never none to a request. */
  lemma DecisionGrants(cfg: Config, asks: Asks, m: Models, d: Served)
    requires ServedOk(cfg, asks, m, d, {})
    ensures var grants := Decide(cfg, d.s).1;
            Granting(grants) && forall i :: 0 <= i < |grants| ==> grants[i].id in IdSet(d.s.active)
    ensures d.s.active != [] && cfg.maxBatchedTokens > 0 ==> Decide(cfg, d.s).1 != []
  {
    hide SchedulerOk, EachOnce, Decide, Wanted, EntryOk, DecodeCount, TotalRemaining, TotalBudget, Prefills;
    SomeRemaining(asks, m, d.s, d.running);
    PlacesApart(cfg, d.s);
    hide EntriesOk, PrefillsRemain;
    GrantsApply(cfg, d.s);
    WorkConserving(cfg, d.s);
    if d.s.active != [] { SomethingToDo(d.s.active); }
    NoBudget();
  }

  lemma NoBudget()
    ensures TotalBudget([]) == 0
  {
  }

  lemma GrantsApply(cfg: Config, s: State)
    requires IdsDistinct(s.active) && PrefillsRemain(s.active)
    ensures var grants := Decide(cfg, s).1;
            Granting(grants) && forall i :: 0 <= i < |grants| ==> grants[i].id in IdSet(s.active)
  {
    hide Decide, PrefillsRemain, IsActive;
    OneGrantEach(cfg, s);
    PositiveGrants(cfg, s);
    var grants := Decide(cfg, s).1;
    forall i | 0 <= i < |grants| ensures grants[i].id in IdSet(s.active) { ActiveHolds(s.active, grants[i].id); }
  }

  /** The decision changes nothing but the cursor. */
  lemma DecidedKeeps(cfg: Config, asks: Asks, m: Models, d: Served)
    requires ServedOk(cfg, asks, m, d, {})
    ensures ServedOk(cfg, asks, m, d.(s := Decide(cfg, d.s).0), {}) && Work(Decide(cfg, d.s).0) == Work(d.s)
  {
    hide SchedulerOk, Decide, Wanted, EntryOk, NotStarted, Work;
    DecisionMovesCursor(cfg, d.s);
  }

  lemma ActiveHolds(active: seq<Request>, id: RequestId)
    ensures IsActive(active, id) <==> Holds(active, id)
  {
  }

  lemma DecisionMovesCursor(cfg: Config, s: State)
    ensures var s' := Decide(cfg, s).0;
            && s' == s.(next := s'.next) && Work(s') == Work(s) && (SchedulerOk(cfg, Tracked(s, {})) ==> SchedulerOk(cfg, Tracked(s', {})))
  {
    hide FlightsOk, IsKnown, IsFollower, SumLeft, ScheduleDecodes, SchedulePrefills, OrderPrefills, NextCursor, Prefills;
  }

  ghost predicate PrefillsRemain(active: seq<Request>) {
    forall i :: 0 <= i < |active| && active[i].phase.Prefill? ==> active[i].phase.remaining > 0
  }

  lemma SomeRemaining(asks: Asks, m: Models, s: State, running: map<RequestId, Batch.Stepped>)
    requires EntriesOk(asks, m, s, running, {})
    ensures PrefillsRemain(s.active)
  {
    hide EntryOk;
    forall i | 0 <= i < |s.active| && s.active[i].phase.Prefill? ensures s.active[i].phase.remaining > 0 {
      EntryHasWork(asks, m, s.active[i], running, {});
    }
  }

  lemma SomethingToDo(active: seq<Request>)
    requires active != [] && PrefillsRemain(active)
    ensures DecodeCount(active) + TotalRemaining(Prefills(active)) > 0
  {
    if active[0].phase.Prefill? { assert Prefills(active)[0] == PrefillWork(active[0].id, active[0].phase.remaining); }
  }

  lemma PositiveGrants(cfg: Config, s: State)
    requires PrefillsRemain(s.active)
    ensures forall i :: 0 <= i < |Decide(cfg, s).1| ==> Decide(cfg, s).1[i].budget > 0
  {
    hide ScheduleDecodes, SchedulePrefills, OrderPrefills, Prefills, NextCursor;
    var decodes := ScheduleDecodes(s.active, cfg.maxBatchedTokens);
    DecodesWithinBudget(s.active, cfg.maxBatchedTokens);
    DecodeGrants(s.active, cfg.maxBatchedTokens);
    var ordered := OrderPrefills(cfg.policy, Prefills(s.active), s.next);
    OrderKeepsWork(cfg.policy, Prefills(s.active), s.next);
    PrefillsAreActive(s.active);
    forall i | 0 <= i < |ordered| ensures ordered[i].remaining > 0 {
      assert ordered[i] in multiset(ordered) && ordered[i] in Prefills(s.active);
    }
    PrefillsGetSome(ordered, cfg.maxBatchedTokens - |decodes|);
    forall i | 0 <= i < |decodes| ensures decodes[i].budget > 0 { assert decodes[i] in decodes; }
  }

  lemma {:induction false} PrefillsGetSome(prefills: seq<PrefillWork>, budget: nat)
    requires forall i :: 0 <= i < |prefills| ==> prefills[i].remaining > 0
    ensures forall i :: 0 <= i < |SchedulePrefills(prefills, budget)| ==> SchedulePrefills(prefills, budget)[i].budget > 0
    decreases |prefills|
  {
    if prefills != [] && budget > 0 { PrefillsGetSome(prefills[1..], budget - Min(prefills[0].remaining, budget)); }
  }

  predicate Vacant(s: State) { s.queue == [] && s.active == [] }

  lemma NoWorkIsVacant(cfg: Config, asks: Asks, m: Models, d: Served)
    requires ServedOk(cfg, asks, m, d, {})
    ensures Work(d.s) == 0 <==> Vacant(d.s)
  {
    hide SchedulerOk, EachOnce, EntryOk, NotStarted, Wanted;
    WaitingHaveWork(asks, d.s.queue);
    if d.s.active != [] { EntryHasWork(asks, m, Last(d.s.active), d.running, {}); }
  }

  /** A round keeps every request in order and on its way; only those that fail or are cancelled in it fail;
      and it leaves less work unless the worker is out of requests. */
  lemma RoundProgresses(cfg: Config, asks: Asks, m: Models, d: Served, chance: Chance)
    requires ServedOk(cfg, asks, m, d, {})
    ensures cfg.pageTokens > 0 && StretchOk(cfg, asks, m, d, Round(cfg, asks, m, d, chance), chance)
    ensures cfg.maxBatchedTokens > 0 && !Vacant(d.s) ==> Work(Round(cfg, asks, m, d, chance).s) < Work(d.s)
  {
    hide ServedOk, Admit, StartAll, StepAll, Decide, Work;
    AdmittedKeeps(cfg, asks, m, d);
    var (admitted, ids) := Admit(cfg, d.s);
    StartAllKeeps(cfg, asks, m, d.(s := admitted), ids, chance);
    var started := StartAll(asks, m, d.(s := admitted), ids, chance);
    DecisionGrants(cfg, asks, m, started);
    DecidedKeeps(cfg, asks, m, started);
    var (decided, grants) := Decide(cfg, started.s);
    DecisionMovesCursor(cfg, started.s);
    BothPasses(cfg, asks, m, started.(s := decided), grants, chance);
    if !Vacant(d.s) && ids == [] {
      NobodyAdmitted(cfg, asks, m, d);
      assert started.s == admitted by { NobodyStarted(asks, m, d.(s := admitted), chance); }
    }
  }

  lemma BothPasses(cfg: Config, asks: Asks, m: Models, d: Served, grants: seq<Grant>, chance: Chance)
    requires ServedOk(cfg, asks, m, d, {}) && Granting(grants) && forall i :: 0 <= i < |grants| ==> grants[i].id in IdSet(d.s.active)
    ensures var d' := StepAll(m, StepAll(m, d, grants, chance, true), grants, chance, false);
            StretchOk(cfg, asks, m, d, d', chance) && (grants != [] ==> Work(d'.s) < Work(d.s))
  {
    hide ServedOk, StepAll, Work, IdSet, Granting;
    StepAllKeeps(cfg, asks, m, d, grants, chance, true);
    StepAllKeeps(cfg, asks, m, StepAll(m, d, grants, chance, true), grants, chance, false);
  }

  lemma NobodyStarted(asks: Asks, m: Models, d: Served, chance: Chance)
    ensures StartAll(asks, m, d, [], chance) == d
  {
  }

  /** Nobody is admitted to a worker with requests only when some are active. */
  lemma NobodyAdmitted(cfg: Config, asks: Asks, m: Models, d: Served)
    requires ServedOk(cfg, asks, m, d, {}) && !Vacant(d.s) && cfg.pageTokens > 0 && Admit(cfg, d.s).1 == []
    ensures Admit(cfg, d.s).0.active != []
  {
    hide SchedulerOk, EntriesOk, EachOnce, Admit, LongestFitting, Unblocked, Blocked, PolicyOrder, SumPages;
    var _ := AdmitExact(cfg, d.s);
    if d.s.active == [] { NoDeadlock(cfg, Tracked(d.s, {})); }
  }

  // ---- Runs -----------------------------------------------------------------------------------------

  ghost predicate IsServedRun(cfg: Config, asks: Asks, m: Models, states: seq<Served>, chances: seq<Chance>) {
    cfg.pageTokens > 0 && |states| == |chances| + 1 && forall i :: 0 <= i < |chances| ==> RoundTaken(cfg, asks, m, states, chances, i)
  }

  ghost predicate RoundTaken(cfg: Config, asks: Asks, m: Models, states: seq<Served>, chances: seq<Chance>, i: nat)
    requires cfg.pageTokens > 0 && |states| == |chances| + 1 && i < |chances|
  {
    states[i + 1] == Round(cfg, asks, m, states[i], chances[i])
  }

  /** Whether a request failed or was cancelled in one of the first n rounds. */
  ghost predicate FailedIn(chances: seq<Chance>, n: nat, id: RequestId)
    requires n <= |chances|
  {
    exists i :: 0 <= i < n && id in chances[i].Failing()
  }

  lemma {:induction false} RunsDown(cfg: Config, asks: Asks, m: Models, states: seq<Served>, chances: seq<Chance>, n: nat)
    requires IsServedRun(cfg, asks, m, states, chances) && ServedOk(cfg, asks, m, states[0], {}) && n <= |chances|
    requires cfg.maxBatchedTokens > 0
    ensures ServedOk(cfg, asks, m, states[n], {}) && Work(states[n].s) <= Max(Work(states[0].s) - n, 0)
    ensures forall id :: id in states[n].failed ==> id in states[0].failed || FailedIn(chances, n, id)
    decreases n
  {
    hide ServedOk, Work, Round;
    if n > 0 {
      RunsDown(cfg, asks, m, states, chances, n - 1);
      assert RoundTaken(cfg, asks, m, states, chances, n - 1);
      RoundProgresses(cfg, asks, m, states[n - 1], chances[n - 1]);
      NoWorkIsVacant(cfg, asks, m, states[n - 1]);
    }
  }

  /** Without further submissions the worker is out of requests after as many rounds as there was work, and
      then every request ended exactly once: with what target-only decoding of its input gives, or because
      it failed or was cancelled. */
  lemma EveryRequestEnds(cfg: Config, asks: Asks, m: Models, states: seq<Served>, chances: seq<Chance>, n: nat)
    requires IsServedRun(cfg, asks, m, states, chances) && ServedOk(cfg, asks, m, states[0], {})
    requires cfg.maxBatchedTokens > 0 && Work(states[0].s) <= n <= |chances|
    ensures Vacant(states[n].s) && asks.Keys == states[n].done.Keys + states[n].failed && states[n].done.Keys !! states[n].failed
    ensures forall id :: id in states[n].done ==> states[n].done[id] == Wanted(asks[id], m.target)
    ensures forall id :: id in states[n].failed ==> id in states[0].failed || FailedIn(chances, n, id)
  {
    hide Work, SchedulerOk, EntriesOk, Wanted, RoundTaken, FailedIn;
    RunsDown(cfg, asks, m, states, chances, n);
    NoWorkIsVacant(cfg, asks, m, states[n]);
    assert IdSet(states[n].s.queue) == {} && IdSet(states[n].s.active) == {};
  }

  // ---- Where runs start -------------------------------------------------------------------------------

  /** A request under a new id may be submitted between any two rounds. */
  lemma SubmitKeeps(cfg: Config, asks: Asks, m: Models, d: Served, id: RequestId, a: Ask, cached: nat)
    requires ServedOk(cfg, asks, m, d, {}) && ValidAsk(a) && id !in asks
    requires Allowed(cfg, Tracked(d.s, {}), EnqueueOp(id, a.input, a.p.maxNew, cached))
    ensures cfg.pageTokens > 0 && ServedOk(cfg, asks[id := a], m, d.(s := Enqueue(cfg, d.s, id, a.input, a.p.maxNew, cached).0), {})
  {
    assert cfg.pageTokens > 0;
    hide SchedulerOk, EntriesOk, EachOnce, Enqueue, Wanted, Allowed;
    EnqueueMoves(cfg, d.s, id, a.input, a.p.maxNew, cached);
    SubmittedEntries(cfg, asks, m, d.s, d.running, id, a, cached);
    SubmittedPlaces(asks, d, d.(s := Enqueue(cfg, d.s, id, a.input, a.p.maxNew, cached).0), id, a);
  }

  lemma SubmittedPlaces(asks: Asks, d: Served, d': Served, id: RequestId, a: Ask)
    requires EachOnce(asks, d) && id !in asks && d'.done == d.done && d'.failed == d.failed
    requires IdSet(d'.s.queue) == IdSet(d.s.queue) + {id} && d'.s.active == d.s.active
    ensures EachOnce(asks[id := a], d')
  {
    hide IdSet;
    assert id !in IdSet(d.s.queue) + IdSet(d.s.active) + d.done.Keys + d.failed;
  }

  lemma SubmittedEntries(cfg: Config, asks: Asks, m: Models, s: State, running: map<RequestId, Batch.Stepped>,
                         id: RequestId, a: Ask, cached: nat)
    requires cfg.pageTokens > 0 && EntriesOk(asks, m, s, running, {}) && ValidAsk(a) && id !in asks
    ensures EntriesOk(asks[id := a], m, Enqueue(cfg, s, id, a.input, a.p.maxNew, cached).0, running, {})
  {
    hide OnTheWay, Shown, Add;
    var s' := Enqueue(cfg, s, id, a.input, a.p.maxNew, cached).0;
    forall i | 0 <= i < |s'.queue| ensures NotStarted(asks[id := a], s'.queue[i]) {
      if i < |s.queue| { assert s'.queue[i] == s.queue[i] && NotStarted(asks, s.queue[i]); }
    }
    forall i | 0 <= i < |s'.active| ensures EntryOk(asks[id := a], m, s'.active[i], running, {}) {
      assert s'.active[i] == s.active[i] && EntryOk(asks, m, s.active[i], running, {});
    }
  }

  lemma NobodyServed(cfg: Config, m: Models, coordination: Option<Flights>)
    requires cfg.pageTokens > 0 && cfg.maxActive > 0 && (coordination.Some? ==> Empty(coordination.value))
    ensures ServedOk(cfg, map[], m, Served(State([], [], None, coordination), map[], map[], {}), {})
  {
    hide SchedulerOk;
    FreshSchedulerOk(cfg, coordination);
  }
}
