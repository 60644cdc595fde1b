/** Starting, finishing and aborting a request on the target and the draft instance. Of the two caches
    only the ids with a cache state are kept: a request has one in both caches or in neither, whichever
    part of an operation fails. */
module ModelExecutorObject {
  import opened Common

  /** What restoring the prefix and creating the execution state give: a fresh state is never finished. */
  datatype StartReport = StartFails | StartsPrefill(remaining: nat) | StartsDecode

  /** Whether the output can be taken from the execution state, and whether each instance can finish. */
  datatype FinishReport = FinishReport(outputOk: bool, targetOk: bool, draftOk: bool)

  class ModelExecutor {
    const drafted: bool
    var target: set<RequestId>
    var draft: set<RequestId>

    /** Both caches hold exactly these requests. */
    ghost predicate Holds(ids: set<RequestId>)
      reads this
    {
      target == ids && draft == if drafted then ids else {}
    }

    constructor (withDraft: bool)
      ensures drafted == withDraft && Holds({})
    {
      drafted := withDraft;
      target, draft := {}, {};
    }

    /** `prepare_model_instances`: a refused draft start takes the target start back. */
    method PrepareModelInstances(id: RequestId) returns (ok: bool)
      modifies this
      ensures ok <==> id !in old(target) && (drafted ==> id !in old(draft))
      ensures target == (if ok then old(target) + {id} else old(target))
      ensures draft == if ok && drafted then old(draft) + {id} else old(draft)
    {
      if id in target { return false; }
      target := target + {id};
      if drafted {
        if id in draft {
          target := target - {id};
          return false;
        }
        draft := draft + {id};
      }
      ok := true;
    }

    /** Both instances are tried, whether or not the first one knows the request. */
    method AbortRequest(id: RequestId) returns (ok: bool)
      modifies this
      ensures target == old(target) - {id} && draft == if drafted then old(draft) - {id} else old(draft)
      ensures ok <==> id in old(target) && (drafted ==> id in old(draft))
    {
      ok := id in target;
      target := target - {id};
      if drafted {
        ok := ok && id in draft;
        draft := draft - {id};
      }
    }

    /** A failed start leaves no state behind. */
    method StartRequest(id: RequestId, report: StartReport, ghost ids: set<RequestId>) returns (start: StartReport)
      requires Holds(ids)
      modifies this
      ensures start == if id in ids then StartFails else report
      ensures Holds(if start.StartFails? then ids else ids + {id})
    {
      var prepared := PrepareModelInstances(id);
      if !prepared { return StartFails; }
      if report.StartFails? { var _ := AbortRequest(id); }
      start := report;
    }

    /** Publishes on both instances; which requests have a state does not change. */
    method PublishCompletedPrefix(id: RequestId, works: bool, ghost ids: set<RequestId>) returns (ok: bool)
      requires Holds(ids)
      ensures ok <==> works && id in ids
    {
      if id !in target { return false; }
      if drafted && id !in draft { return false; }
      ok := works;
    }

    /** Whether it succeeds or fails, a finished request has no state left in either cache. */
    method FinishRequest(id: RequestId, report: FinishReport, ghost ids: set<RequestId>) returns (ok: bool)
      requires Holds(ids) && id in ids
      modifies this
      ensures Holds(ids - {id})
      ensures ok <==> report.outputOk && report.targetOk && (drafted ==> report.draftOk)
    {
      if !report.outputOk {
        var _ := AbortRequest(id);
        return false;
      }
      if report.targetOk { target := target - {id}; }
      if drafted && report.draftOk { draft := draft - {id}; }
      ok := report.targetOk && (!drafted || report.draftOk);
      if !ok { var _ := AbortRequest(id); }
    }
  }
}
