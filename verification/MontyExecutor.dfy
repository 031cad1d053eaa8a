/** The executor object itself, with its two tables updated in place. Here an `await` is a call that returns the
    awaited call's outcome; what other tasks do meanwhile is the subject of `MontyConfluence`. */
module MontyExecutors {
  import opened MontyExecution
  import opened Options
  import opened MontyTheorems

  datatype PendingCall = PendingCall(name: string, kwargs: string)

  lemma ResultsComplete(results: map<int, Outcome>, r: Ref, ids: seq<int>)
    requires forall id :: id in ids ==> id in r.owed
    requires forall id :: id in results ==> id in ids && id in r.owed && results[id] == r.owed[id]
    requires forall k :: 0 <= k < |ids| ==> ids[k] in results
    ensures results == RefResults(r, ids) && results.Keys == set id | id in ids
  {
    forall id ensures id in results <==> id in ids {
      if id in ids {
        var k :| 0 <= k < |ids| && ids[k] == id;
      }
    }
    assert forall id :: id in RefResults(r, ids) <==> id in ids;
    assert forall id :: id in results ==> results[id] == RefResults(r, ids)[id];
  }

  class MontyExecutor {
    const host: Host
    const globalSequential: bool
    var accepted: nat
    var pendingIds: seq<int>
    var pending: map<int, PendingCall>
    var preResolved: map<int, Outcome>

    constructor (host: Host, globalSequential: bool)
      ensures this.host == host && this.globalSequential == globalSequential
      ensures Owes(map[]) && accepted == 0
    {
      this.host, this.globalSequential, this.accepted := host, globalSequential, 0;
      this.pendingIds, this.pending, this.preResolved := [], map[], map[];
    }

    ghost predicate Owes(owed: map<int, Outcome>)
      reads this
    {
      && Distinct(pendingIds)
      && (forall id :: id in pendingIds <==> id in pending)
      && (forall id :: id in pending ==> id !in preResolved)
      && (forall id :: id in owed <==> id in pending || id in preResolved)
      && (forall id :: id in pending ==> owed[id] == host.outcome(pending[id].name, pending[id].kwargs))
      && (forall id :: id in preResolved ==> owed[id] == preResolved[id])
    }

    method AwaitExternal(call: PendingCall) returns (outcome: Outcome)
      ensures outcome == host.outcome(call.name, call.kwargs)
    {
      outcome := host.outcome(call.name, call.kwargs);
    }

    method Pop(id: int) returns (call: PendingCall)
      requires id in pending && Distinct(pendingIds) && forall x :: x in pendingIds <==> x in pending
      modifies this`pending, this`pendingIds
      ensures call == old(pending)[id] && pending == old(pending) - {id}
      ensures Distinct(pendingIds) && forall x :: x in pendingIds <==> x in pending
    {
      MontyConfluence.RemoveIn(pendingIds, id);
      call := pending[id];
      pending := pending - {id};
      pendingIds := Remove(pendingIds, id);
    }

    method AwaitPending(ghost owed: map<int, Outcome>)
      requires Owes(owed)
      modifies this`pending, this`pendingIds, this`preResolved
      ensures Owes(owed) && pending == map[]
    {
      while pendingIds != []
        invariant Owes(owed)
        decreases pending.Keys
      {
        var cid := pendingIds[0];
        assert cid in pendingIds;
        var call := Pop(cid);
        var outcome := AwaitExternal(call);
        preResolved := preResolved[cid := outcome];
      }
      assert forall id :: id in pending ==> id in pendingIds;
    }

    /** Dispatch or defer one call; the payload and the tables are those of the reference machine. */
    method HandleFunction(call: Snapshot, ghost r: Ref) returns (payload: Resume)
      requires call.Function? && call.callId !in r.used && r.owed.Keys <= r.used
      requires Owes(r.owed) && accepted == r.accepted
      modifies this
      ensures var rejection := Rejection(host, call);
              var next := if rejection.Some? then r.(history := r.history + [rejection.value])
                  else RefDispatch(host, r, call);
              next.history == r.history + [payload] && Owes(next.owed) && accepted == next.accepted
      ensures AnswersCall(host, call, r.accepted, payload)
    {
      var rejection := Rejection(host, call);
      if rejection.Some? {
        return rejection.value;
      }
      if call.name in host.sequential {
        AwaitPending(r.owed);
        var refused := host.refuses(accepted);
        if refused.Some? {
          return Answer(Raised(refused.value));
        }
        accepted := accepted + 1;
        var outcome := AwaitExternal(PendingCall(call.name, call.kwargs));
        return Answer(outcome);
      }
      var refused := host.refuses(accepted);
      if refused.Some? {
        return Answer(Raised(refused.value));
      }
      accepted := accepted + 1;
      pending := pending[call.callId := PendingCall(call.name, call.kwargs)];
      pendingIds := pendingIds + [call.callId];
      return Deferred;
    }

    ghost predicate Partial(owed: map<int, Outcome>, results: map<int, Outcome>)
      reads this
    {
      && Owes(owed - results.Keys)
      && (forall id :: id in results ==> id in owed && results[id] == owed[id])
    }

    method Collect(cid: int, results: map<int, Outcome>, ghost owed: map<int, Outcome>)
      returns (more: map<int, Outcome>)
      requires Partial(owed, results) && cid in owed && cid !in results
      requires cid in preResolved || cid in pending
      modifies this`pending, this`pendingIds, this`preResolved
      ensures Partial(owed, more) && more.Keys == results.Keys + {cid}
      ensures forall id :: id != cid ==> (id in pending <==> id in old(pending))
    {
      if cid in preResolved {
        more := results[cid := preResolved[cid]];
        preResolved := preResolved - {cid};
      } else {
        var call := Pop(cid);
        var outcome := AwaitExternal(call);
        more := results[cid := outcome];
      }
    }

    /** The first pass: what a barrier resolved early and, under global sequencing, every call in turn. */
    method CollectEarly(ids: seq<int>, ghost owed: map<int, Outcome>) returns (results: map<int, Outcome>)
      requires Distinct(ids) && (forall id :: id in ids ==> id in owed) && Owes(owed)
      modifies this`pending, this`pendingIds, this`preResolved
      ensures Partial(owed, results) && (forall id :: id in results ==> id in ids)
      ensures forall id :: id in ids ==> id in results || id in pending
    {
      results := map[];
      assert owed - results.Keys == owed;
      var i := 0;
      while i < |ids|
        invariant 0 <= i <= |ids|
        invariant Partial(owed, results) && (forall id :: id in results ==> id in ids)
        invariant forall k :: i <= k < |ids| ==> ids[k] !in results
        invariant forall k :: 0 <= k < i ==> ids[k] in results || ids[k] in pending
      {
        var cid := ids[i];
        assert cid in ids && cid in owed - results.Keys;
        if cid in preResolved || globalSequential {
          results := Collect(cid, results, owed);
        }
        i := i + 1;
      }
    }

    lemma PartialMeans(owed: map<int, Outcome>, results: map<int, Outcome>)
      requires Partial(owed, results)
      ensures Owes(owed - results.Keys) && forall id :: id in results ==> id in owed && results[id] == owed[id]
    {
    }

    /** The second pass: everything not collected yet. */
    method CollectRest(ids: seq<int>, early: map<int, Outcome>, ghost owed: map<int, Outcome>)
      returns (results: map<int, Outcome>)
      requires forall id :: id in ids ==> id in owed && (id in early || id in pending)
      requires Partial(owed, early) && forall id :: id in early ==> id in ids
      modifies this`pending, this`pendingIds, this`preResolved
      ensures Partial(owed, results) && (forall id :: id in results ==> id in ids)
      ensures forall k :: 0 <= k < |ids| ==> ids[k] in results
    {
      hide Owes;
      results := early;
      var i := 0;
      while i < |ids|
        invariant 0 <= i <= |ids|
        invariant Partial(owed, results) && (forall id :: id in results ==> id in ids)
        invariant forall k :: 0 <= k < i ==> ids[k] in results
        invariant forall id :: id in ids ==> id in results || id in pending
      {
        var cid := ids[i];
        assert cid in ids;
        if cid !in results {
          results := Collect(cid, results, owed);
        }
        i := i + 1;
      }
    }

    /** Await the rest, and hand over results for exactly the ids asked for. */
    method ResolveFutures(ids: seq<int>, ghost r: Ref) returns (payload: Resume)
      requires Distinct(ids) && (forall id :: id in ids ==> id in r.owed) && Owes(r.owed)
      modifies this`pending, this`pendingIds, this`preResolved
      ensures payload == Results(RefResults(r, ids))
      ensures Owes(r.owed - (set id | id in ids))
    {
      hide Partial;
      var early := CollectEarly(ids, r.owed);
      var results := CollectRest(ids, early, r.owed);
      assert
        && Owes(r.owed - results.Keys)
        && (forall id :: id in results ==> id in r.owed && results[id] == r.owed[id])
      by {
        PartialMeans(r.owed, results);
      }
      ResultsComplete(results, r, ids);
      return Results(results);
    }

    /** Drive the sandbox until it completes: the payloads made are the reference machine's. */
    method Run(sandbox: Sandbox, ghost steps: nat) returns (history: seq<Resume>)
      requires SandboxContract(sandbox, host) && Terminal(sandbox(RefRun(sandbox, host, steps).history))
      requires Owes(map[]) && accepted == 0
      modifies this
      ensures Terminal(sandbox(history)) && history == RefRun(sandbox, host, steps).history
      ensures forall k :: 0 <= k < |history| ==> Answers(sandbox, host, history[..k], history[k])
    {
      history := [];
      ghost var r := RefStart;
      ghost var made: nat := 0;
      while !Terminal(sandbox(history))
        invariant made <= steps && r == RefRun(sandbox, host, made) && history == r.history
        invariant Owes(r.owed) && accepted == r.accepted && r.owed.Keys <= r.used
        decreases steps - made
      {
        assert AsksProperly(sandbox, r);
        var state := sandbox(history);
        var payload;
        if state.NameLookup? {
          payload := Undefined;
        } else if state.Function? {
          payload := HandleFunction(state, r);
        } else {
          payload := ResolveFutures(state.ids, r);
        }
        history := history + [payload];
        r := RefStep(sandbox, host, r);
        made := made + 1;
      }
      RefStops(sandbox, host, made, steps);
      RefRunAnswers(sandbox, host, made);
    }
  }
}
