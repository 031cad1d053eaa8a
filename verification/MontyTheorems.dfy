/** What follows for whole runs of the executor: confluence, delivery, and who runs when. */
module MontyTheorems {
  import opened MontyExecution
  import opened Options
  import opened MontyConfluence

  predicate Terminal(snapshot: Snapshot) {
    snapshot.Complete? || snapshot.Aborted?
  }

  lemma {:induction false} RefStops(sandbox: Sandbox, host: Host, m: nat, n: nat)
    requires m <= n && Terminal(sandbox(RefRun(sandbox, host, m).history))
    ensures RefRun(sandbox, host, n) == RefRun(sandbox, host, m)
  {
    if m < n {
      RefStops(sandbox, host, m, n - 1);
    }
  }

  lemma RefGrows(sandbox: Sandbox, host: Host, r: Ref)
    ensures r.history <= RefStep(sandbox, host, r).history
  {
  }

  lemma {:induction false} RefExtends(sandbox: Sandbox, host: Host, m: nat, n: nat)
    requires m <= n
    ensures RefRun(sandbox, host, m).history <= RefRun(sandbox, host, n).history
  {
    if m < n {
      RefExtends(sandbox, host, m, n - 1);
      RefGrows(sandbox, host, RefRun(sandbox, host, n - 1));
      hide RefStep;
    }
  }

  lemma StartTracks(u: Setup)
    ensures Tracks(u, Start)
  {
    assert RefRun(u.sandbox, u.host, 0) == RefStart;
  }

  lemma TracksHistory(u: Setup, s: State)
    requires Tracks(u, s)
    ensures s.history == RefRun(u.sandbox, u.host, |s.history|).history
  {
    hide RefRun;
  }

  lemma ExitIsTerminal(u: Setup, s: State)
    requires Tracks(u, s) && s.phase.Exited? && !s.phase.exit.Interrupted?
    ensures u.sandbox(s.history) ==
            if s.phase.exit.Output? then Complete(s.phase.exit.value) else Aborted(s.phase.exit.error)
  {
    hide RefRun;
  }

  ghost predicate SameProgram(a: Setup, b: Setup) {
    a.sandbox == b.sandbox && a.host == b.host
  }

  /** Confluence. For one sandbox and host, any two runs of the executor, whatever their modes, interleavings and
      settle orders, resume the sandbox with the same payloads as far as both got; and if both end by themselves,
      they made the same payloads and end with the same result. */
  lemma Confluence(a: Setup, b: Setup, aEvents: seq<Event>, bEvents: seq<Event>, aLast: State, bLast: State)
    requires SameProgram(a, b) && SandboxContract(a.sandbox, a.host)
    requires Reaches(a, Start, aEvents, aLast) && Reaches(b, Start, bEvents, bLast)
    ensures aLast.history <= bLast.history || bLast.history <= aLast.history
    ensures && aLast.phase.Exited? && !aLast.phase.exit.Interrupted?
            && bLast.phase.Exited? && !bLast.phase.exit.Interrupted?
            ==> aLast.history == bLast.history && aLast.phase == bLast.phase
  {
    StartTracks(a);
    StartTracks(b);
    ReachableTracks(a, Start, aEvents, aLast);
    ReachableTracks(b, Start, bEvents, bLast);
    TracksHistory(a, aLast);
    TracksHistory(b, bLast);
    OneIsLonger(a, b, aLast, bLast);
  }

  lemma OneIsLonger(a: Setup, b: Setup, aLast: State, bLast: State)
    requires SameProgram(a, b) && Tracks(a, aLast) && Tracks(b, bLast)
    ensures aLast.history <= bLast.history || bLast.history <= aLast.history
    ensures && aLast.phase.Exited? && !aLast.phase.exit.Interrupted?
            && bLast.phase.Exited? && !bLast.phase.exit.Interrupted?
            ==> aLast.history == bLast.history && aLast.phase == bLast.phase
    decreases |aLast.history| > |bLast.history|
  {
    if |aLast.history| > |bLast.history| {
      OneIsLonger(b, a, bLast, aLast);
    } else {
      TracksHistory(a, aLast);
      TracksHistory(b, bLast);
      RefExtends(a.sandbox, a.host, |aLast.history|, |bLast.history|);
      if aLast.phase.Exited? && !aLast.phase.exit.Interrupted? && bLast.phase.Exited?
          && !bLast.phase.exit.Interrupted? {
        ExitIsTerminal(a, aLast);
        ExitIsTerminal(b, bLast);
        RefStops(a.sandbox, a.host, |aLast.history|, |bLast.history|);
      }
    }
  }

  // ---- delivery -------------------------------------------------------------------------------

  /** Payload `k` deferred the call `id`, whose own outcome is `outcome`. */
  ghost predicate DeferredAt(sandbox: Sandbox, host: Host, history: seq<Resume>, k: nat, id: int, outcome: Outcome) {
    && k < |history| && history[k] == Deferred
    && var call := sandbox(history[..k]);
    && call.Function? && call.callId == id && outcome == host.outcome(call.name, call.kwargs)
  }

  /** Payload `i` delivers, for exactly the ids asked for, each call's own outcome, deferred earlier. */
  ghost predicate DeliversOwn(sandbox: Sandbox, host: Host, history: seq<Resume>, i: nat)
    requires i < |history| && history[i].Results?
  {
    && sandbox(history[..i]).Future?
    && (forall id :: id in history[i].results <==> id in sandbox(history[..i]).ids)
    && (forall id :: id in history[i].results ==>
          exists k :: 0 <= k < i && DeferredAt(sandbox, host, history, k, id, history[i].results[id]))
  }

  ghost predicate RefGood(sandbox: Sandbox, host: Host, r: Ref) {
    && (forall id :: id in r.owed ==>
          id in r.used && exists k :: 0 <= k < |r.history| && DeferredAt(sandbox, host, r.history, k, id, r.owed[id]))
    && (forall i :: 0 <= i < |r.history| && r.history[i].Results? ==>
          && DeliversOwn(sandbox, host, r.history, i)
          && forall id :: id in r.history[i].results ==> id in r.used && id !in r.owed)
    && (forall i, j :: 0 <= i < j < |r.history| && r.history[i].Results? && r.history[j].Results? ==>
          r.history[i].results.Keys !! r.history[j].results.Keys)
  }

  lemma DeferredStays(sandbox: Sandbox, host: Host, history: seq<Resume>, more: seq<Resume>, k: nat, id: int,
      outcome: Outcome)
    requires DeferredAt(sandbox, host, history, k, id, outcome)
    ensures DeferredAt(sandbox, host, history + more, k, id, outcome)
  {
    assert (history + more)[..k] == history[..k];
  }

  lemma DeliveryStays(sandbox: Sandbox, host: Host, history: seq<Resume>, more: seq<Resume>, i: nat)
    requires i < |history| && history[i].Results? && DeliversOwn(sandbox, host, history, i)
    ensures DeliversOwn(sandbox, host, history + more, i)
  {
    assert (history + more)[..i] == history[..i];
    forall id | id in history[i].results
      ensures exists k :: 0 <= k < i && DeferredAt(sandbox, host, history + more, k, id, history[i].results[id])
    {
      var k :| 0 <= k < i && DeferredAt(sandbox, host, history, k, id, history[i].results[id]);
      DeferredStays(sandbox, host, history, more, k, id, history[i].results[id]);
    }
  }

  /** Everything already said about the payloads stays true when one more follows. */
  lemma PayloadsStayGood(sandbox: Sandbox, host: Host, r: Ref, payload: Resume)
    requires RefGood(sandbox, host, r)
    ensures var history := r.history + [payload];
      && (forall id :: id in r.owed ==>
            exists k :: 0 <= k < |r.history| && DeferredAt(sandbox, host, history, k, id, r.owed[id]))
      && (forall i :: 0 <= i < |r.history| && history[i].Results? ==> DeliversOwn(sandbox, host, history, i))
  {
    var history := r.history + [payload];
    forall id | id in r.owed
      ensures exists k :: 0 <= k < |r.history| && DeferredAt(sandbox, host, history, k, id, r.owed[id])
    {
      var k :| 0 <= k < |r.history| && DeferredAt(sandbox, host, r.history, k, id, r.owed[id]);
      DeferredStays(sandbox, host, r.history, [payload], k, id, r.owed[id]);
    }
    forall i | 0 <= i < |r.history| && history[i].Results? ensures DeliversOwn(sandbox, host, history, i) {
      DeliveryStays(sandbox, host, r.history, [payload], i);
    }
  }

  lemma RefStepStaysGood(sandbox: Sandbox, host: Host, r: Ref)
    requires RefGood(sandbox, host, r) && AsksProperly(sandbox, r)
    ensures RefGood(sandbox, host, RefStep(sandbox, host, r))
  {
    hide RefGood, AsksProperly;
    var next := RefStep(sandbox, host, r);
    if next.history != r.history {
      var payload := next.history[|r.history|];
      assert next.history == r.history + [payload];
      if payload.Deferred? {
        DeferralStaysGood(sandbox, host, r);
      } else if payload.Results? {
        DeliveryStaysGood(sandbox, host, r);
      } else {
        OtherStaysGood(sandbox, host, r, next, payload);
      }
    }
  }

  lemma OtherStaysGood(sandbox: Sandbox, host: Host, r: Ref, next: Ref, payload: Resume)
    requires RefGood(sandbox, host, r) && !payload.Results?
    requires next.history == r.history + [payload] && next.owed == r.owed && r.used <= next.used
    ensures RefGood(sandbox, host, next)
  {
    PayloadsStayGood(sandbox, host, r, payload);
    assert next.history[..|r.history|] == r.history;
    hide DeferredAt, DeliversOwn;
  }

  lemma DeferralStaysGood(sandbox: Sandbox, host: Host, r: Ref)
    requires RefGood(sandbox, host, r) && AsksProperly(sandbox, r)
    requires var next := RefStep(sandbox, host, r); next.history == r.history + [Deferred]
    ensures RefGood(sandbox, host, RefStep(sandbox, host, r))
  {
    var next := RefStep(sandbox, host, r);
    var call := sandbox(r.history);
    PayloadsStayGood(sandbox, host, r, Deferred);
    assert next.history[..|r.history|] == r.history;
    assert DeferredAt(sandbox, host, next.history, |r.history|, call.callId, next.owed[call.callId]);
    hide DeliversOwn;
  }

  lemma DeliveryStaysGood(sandbox: Sandbox, host: Host, r: Ref)
    requires RefGood(sandbox, host, r) && AsksProperly(sandbox, r)
    requires var next := RefStep(sandbox, host, r);
             next.history != r.history && next.history[|r.history|].Results?
    ensures RefGood(sandbox, host, RefStep(sandbox, host, r))
  {
    var next := RefStep(sandbox, host, r);
    var payload := next.history[|r.history|];
    PayloadsStayGood(sandbox, host, r, payload);
    assert next.history == r.history + [payload] && next.history[..|r.history|] == r.history;
    assert DeliversOwn(sandbox, host, next.history, |r.history|);
    forall i | 0 <= i < |r.history| && r.history[i].Results? ensures r.history[i].results.Keys !! payload.results.Keys {
      forall id | id in r.history[i].results ensures id !in payload.results {
        assert id !in r.owed;
      }
    }
    hide DeferredAt, DeliversOwn;
  }

  lemma {:induction false} RefRunIsGood(sandbox: Sandbox, host: Host, steps: nat)
    requires SandboxContract(sandbox, host)
    ensures RefGood(sandbox, host, RefRun(sandbox, host, steps))
  {
    if steps > 0 {
      RefRunIsGood(sandbox, host, steps - 1);
      RefStepStaysGood(sandbox, host, RefRun(sandbox, host, steps - 1));
    }
  }

  /** In every reachable state, each future snapshot got results for exactly the ids it asked for, each of them the
      outcome of the very call that was deferred under that id, and no id was delivered twice. */
  lemma DeliveredOnceWithOwnOutcome(u: Setup, events: seq<Event>, last: State)
    requires SandboxContract(u.sandbox, u.host) && Reaches(u, Start, events, last)
    ensures forall i :: 0 <= i < |last.history| && last.history[i].Results? ==>
              DeliversOwn(u.sandbox, u.host, last.history, i)
    ensures forall i, j :: 0 <= i < j < |last.history| && last.history[i].Results? && last.history[j].Results? ==>
              last.history[i].results.Keys !! last.history[j].results.Keys
  {
    StartTracks(u);
    ReachableTracks(u, Start, events, last);
    TracksHistory(u, last);
    RefRunIsGood(u.sandbox, u.host, |last.history|);
  }

  // ---- answers --------------------------------------------------------------------------------

  /** How many calls of the sandbox were accepted by the host when it had been resumed with `history`. */
  ghost function AcceptedBefore(sandbox: Sandbox, host: Host, history: seq<Resume>): nat {
    if history == [] then 0
    else
      var before := history[..|history| - 1];
      var accepted := AcceptedBefore(sandbox, host, before);
      var call := sandbox(before);
      if call.Function? && !call.os && call.name in host.valid && !call.positional && host.refuses(accepted).None?
      then accepted + 1 else accepted
  }

  /** What the sandbox asked after `before` is answered by `payload`. */
  ghost predicate Answers(sandbox: Sandbox, host: Host, before: seq<Resume>, payload: Resume) {
    var asked := sandbox(before);
    match asked
    case NameLookup => payload == Undefined
    case Function(_, _, _, _, _) => AnswersCall(host, asked, AcceptedBefore(sandbox, host, before), payload)
    case Future(ids) => payload.Results? && forall id :: id in payload.results <==> id in ids
    case _ => false
  }

  ghost predicate AllAnswered(sandbox: Sandbox, host: Host, history: seq<Resume>) {
    forall k :: 0 <= k < |history| ==> Answers(sandbox, host, history[..k], history[k])
  }

  lemma OneMoreAnswered(sandbox: Sandbox, host: Host, history: seq<Resume>, payload: Resume)
    requires AllAnswered(sandbox, host, history) && Answers(sandbox, host, history, payload)
    ensures AllAnswered(sandbox, host, history + [payload])
  {
    var more := history + [payload];
    forall k | 0 <= k < |more| ensures Answers(sandbox, host, more[..k], more[k]) {
      assert more[..k] == history[..k];
      assert history[..|history|] == history;
    }
  }

  lemma RefStepAnswers(sandbox: Sandbox, host: Host, r: Ref)
    requires AsksProperly(sandbox, r) && r.accepted == AcceptedBefore(sandbox, host, r.history)
    ensures var next := RefStep(sandbox, host, r);
            && (if Terminal(sandbox(r.history)) then next == r
                else |next.history| == |r.history| + 1 && next.history[..|r.history|] == r.history
                     && Answers(sandbox, host, r.history, next.history[|r.history|]))
            && next.accepted == AcceptedBefore(sandbox, host, next.history)
  {
    var next := RefStep(sandbox, host, r);
    if !Terminal(sandbox(r.history)) {
      assert next.history[..|r.history|] == r.history;
    }
  }

  /** All payloads so far are due, and the reference machine counts the calls it accepted. */
  ghost predicate AnswersSoFar(sandbox: Sandbox, host: Host, r: Ref) {
    AllAnswered(sandbox, host, r.history) && r.accepted == AcceptedBefore(sandbox, host, r.history)
  }

  lemma RefStepAnswersSoFar(sandbox: Sandbox, host: Host, r: Ref)
    requires AsksProperly(sandbox, r) && AnswersSoFar(sandbox, host, r)
    ensures AnswersSoFar(sandbox, host, RefStep(sandbox, host, r))
  {
    hide RefStep, AllAnswered, Answers, AsksProperly, AcceptedBefore;
    RefStepAnswers(sandbox, host, r);
    if !Terminal(sandbox(r.history)) {
      var next := RefStep(sandbox, host, r);
      OneMoreAnswered(sandbox, host, r.history, next.history[|r.history|]);
      assert next.history == r.history + [next.history[|r.history|]];
    }
  }

  lemma {:induction false} RefRunAnswers(sandbox: Sandbox, host: Host, steps: nat)
    requires SandboxContract(sandbox, host)
    ensures AnswersSoFar(sandbox, host, RefRun(sandbox, host, steps))
  {
    if steps > 0 {
      assert AsksProperly(sandbox, RefRun(sandbox, host, steps - 1));
      RefRunAnswers(sandbox, host, steps - 1);
      hide AnswersSoFar, RefStep, AsksProperly, SandboxContract;
      RefStepAnswersSoFar(sandbox, host, RefRun(sandbox, host, steps - 1));
    }
  }

  /** In every reachable state each snapshot got the answer its own fields and the host call for: a call the outcome of
      its own dispatch, a refusal or an error; a name lookup nothing; a future snapshot results for its ids. */
  lemma EveryAnswerIsDue(u: Setup, events: seq<Event>, last: State)
    requires SandboxContract(u.sandbox, u.host) && Reaches(u, Start, events, last)
    ensures forall k :: 0 <= k < |last.history| ==> Answers(u.sandbox, u.host, last.history[..k], last.history[k])
  {
    StartTracks(u);
    ReachableTracks(u, Start, events, last);
    TracksHistory(u, last);
    RefRunAnswers(u.sandbox, u.host, |last.history|);
    hide Answers, Reaches, RefRun;
  }

  // ---- who runs when --------------------------------------------------------------------------

  ghost predicate Runs(s: State, id: int) {
    id in s.bodies && s.bodies[id].status.Running?
  }

  /** A sequential call runs alone; under global sequencing at most one body runs at any time, unwinding included;
      and when the executor has returned, raised or been interrupted, nothing it started is left running. */
  lemma WhoRuns(u: Setup, events: seq<Event>, last: State)
    requires SandboxContract(u.sandbox, u.host) && Reaches(u, Start, events, last)
    ensures last.phase.Inline? ==> forall id :: Runs(last, id) ==> id == last.phase.callId
    ensures u.globalSequential ==> forall a, b :: Runs(last, a) && Runs(last, b) ==> a == b
    ensures last.phase.Exited? ==> forall id :: id in last.bodies ==>
              last.bodies[id].status.Settled? || last.bodies[id].status.Dropped?
  {
    StartTracks(u);
    ReachableTracks(u, Start, events, last);
    var r := RefRun(u.sandbox, u.host, |last.history|);
    if Ending(last.phase) {
      EndingRuns(u, last, r);
    } else {
      LiveRuns(u, last, r);
    }
    hide InvLive, InvEnd, Runs, Reaches, SandboxContract, RefRun;
  }

  lemma LiveRuns(u: Setup, s: State, r: Ref)
    requires InvLive(u, s, r)
    ensures s.phase.Inline? ==> forall id :: Runs(s, id) ==> id == s.phase.callId
    ensures u.globalSequential ==> forall a, b :: Runs(s, a) && Runs(s, b) ==> a == b
  {
    hide Tables, Outcomes, Known;
  }

  lemma EndingRuns(u: Setup, s: State, r: Ref)
    requires InvEnd(u, s, r)
    ensures u.globalSequential ==> forall a, b :: Runs(s, a) && Runs(s, b) ==> a == b
    ensures s.phase.Exited? ==> forall id :: id in s.bodies ==>
              s.bodies[id].status.Settled? || s.bodies[id].status.Dropped?
  {
  }

  /** The executor abandons no body that runs: a body stops running only by settling or unwinding itself, and a call is
      closed unstarted only while the executor cleans up. */
  lemma BodiesEndByThemselves(u: Setup, events: seq<Event>, s: State, e: Event, id: int)
    requires SandboxContract(u.sandbox, u.host) && Reaches(u, Start, events, s) && Enabled(u, s, e)
    requires id in s.bodies
    ensures var s' := Step(u, s, e);
            && id in s'.bodies && s'.bodies[id].outcome == s.bodies[id].outcome
            && (Runs(s, id) && !Runs(s', id) <==> e == Settles(id) || e == Unwinds(id))
            && (s.bodies[id].status.Bare? && s'.bodies[id].status.Dropped? ==> s'.phase.Cleaning?)
  {
    StartTracks(u);
    ReachableTracks(u, Start, events, s);
    var r := RefRun(u.sandbox, u.host, |s.history|);
    assert AsksProperly(u.sandbox, r);
    hide RefRun, Reaches, SandboxContract;
    if e.Advance? {
      AdvanceKeepsBodies(u, s, r, id);
    }
  }

  /** What an advance may do to a body. */
  ghost predicate KeepsBody(s: State, s': State, id: int)
    requires id in s.bodies
  {
    && id in s'.bodies && s'.bodies[id].outcome == s.bodies[id].outcome
    && (Runs(s, id) ==> Runs(s', id))
    && (s.bodies[id].status.Bare? && s'.bodies[id].status.Dropped? ==> s'.phase.Cleaning?)
  }

  lemma DriveKeepsBodies(u: Setup, s: State, r: Ref, id: int)
    requires InvLive(u, s, r) && AsksProperly(u.sandbox, r) && s.phase.Driving? && id in s.bodies
    ensures KeepsBody(s, Drive(u, s), id)
  {
    hide Tables, Outcomes, Statuses, Distinct, Rejection;
  }

  lemma AdvanceKeepsBodies(u: Setup, s: State, r: Ref, id: int)
    requires Inv(u, s, r) && AsksProperly(u.sandbox, r) && CanAdvance(u, s) && id in s.bodies
    ensures KeepsBody(s, AdvanceStep(u, s), id)
  {
    hide Tables, Outcomes, Statuses, Remove, Without, Distinct, Rejection;
    if s.phase.Driving? {
      DriveKeepsBodies(u, s, r, id);
      hide Drive, KeepsBody;
    }
  }

  /** Every body has settled but that of `id`, which runs. */
  function AllSettledBut(s: State, id: int): State {
    s.(bodies := map b | b in s.bodies :: s.bodies[b].(status := if b == id then Running else Settled))
  }

  /** The executor cannot go on before the body of `id` has ended. */
  ghost predicate Needs(u: Setup, s: State, id: int) {
    id in s.bodies && !CanAdvance(u, AllSettledBut(s, id))
  }

  /** In every run that is not ending: the executor can be cancelled exactly when it needs a body to end, and it
      passes the cancellation on to exactly the bodies it needs. */
  lemma CancelReachesTheNeeded(u: Setup, events: seq<Event>, s: State)
    requires SandboxContract(u.sandbox, u.host) && Reaches(u, Start, events, s) && !Ending(s.phase)
    ensures Enabled(u, s, Cancel) <==> exists id :: Needs(u, s, id)
    ensures Enabled(u, s, Cancel) ==>
              var s' := Step(u, s, Cancel);
              && s'.phase.Interrupting? && (forall id :: id in s'.phase.waitFor <==> Needs(u, s, id))
              && s'.(phase := s.phase) == s
  {
    StartTracks(u);
    ReachableTracks(u, Start, events, s);
    var r := RefRun(u.sandbox, u.host, |s.history|);
    assert AsksProperly(u.sandbox, r);
    hide RefRun, Reaches, SandboxContract;
    forall id ensures id in Awaited(u, s) <==> Needs(u, s, id) {
      AwaitedIsNeeded(u, s, r, id);
    }
    hide Inv, CanAdvance, Needs, Awaited;
    var awaited := Awaited(u, s);
    if (forall id :: id !in awaited) {
      assert awaited == {};
    } else {
      var id :| id in awaited;
      assert Needs(u, s, id);
    }
  }

  lemma AwaitedIsNeeded(u: Setup, s: State, r: Ref, id: int)
    requires InvLive(u, s, r) && AsksProperly(u.sandbox, r)
    ensures id in Awaited(u, s) <==> Needs(u, s, id)
  {
    if s.phase.Gathering? {
      var ids := u.sandbox(s.history).ids;
      forall x | x in ids && x !in s.phase.results ensures x in s.bodies {
        var k :| 0 <= k < |ids| && ids[k] == x;
        assert ids[k] in s.pending && x in r.owed;
      }
    }
    hide Remove, Without, Rejection;
  }

  lemma CanAdvanceWhenIdle(u: Setup, s: State, r: Ref)
    requires Inv(u, s, r) && AsksProperly(u.sandbox, r) && !s.phase.Exited? && forall id :: !Runs(s, id)
    ensures CanAdvance(u, s)
  {
    if s.phase.Gathering? {
      var ids := u.sandbox(s.history).ids;
      forall id | id in ids && id !in s.phase.results ensures IsSettled(s, id) {
        var k :| 0 <= k < |ids| && ids[k] == id;
        assert ids[k] in s.pending && id in r.owed && !Runs(s, id);
      }
    } else if !Ending(s.phase) {
      forall id | id in AwaitedDeferred(s.phase) + InlineCall(s.phase) ensures IsSettled(s, id) {
        assert !Runs(s, id);
      }
    } else {
      assert forall id :: id in s.bodies && s.bodies[id].status.Running? ==> Runs(s, id);
    }
  }

  /** The executor is never stuck on itself: when no body is running it can take its next step. */
  lemma NeverStuck(u: Setup, events: seq<Event>, last: State)
    requires SandboxContract(u.sandbox, u.host) && Reaches(u, Start, events, last)
    requires !last.phase.Exited? && forall id :: !Runs(last, id)
    ensures CanAdvance(u, last)
  {
    StartTracks(u);
    ReachableTracks(u, Start, events, last);
    CanAdvanceWhenIdle(u, last, RefRun(u.sandbox, u.host, |last.history|));
  }
}
