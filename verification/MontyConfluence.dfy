/** Every interleaving of the executor, in either mode, resumes the sandbox with the same payloads as the
    reference machine that settles each call where it is made. */
module MontyConfluence {
  import opened MontyExecution
  import opened Options

  function AwaitedDeferred(phase: Phase): set<int> {
    match phase
    case Barrier(awaited) => {awaited}
    case AwaitingOne(_, _, cid) => {cid}
    case _ => {}
  }

  function ResultsOf(phase: Phase): map<int, Outcome> {
    match phase
    case Collecting(_, results) => results
    case AwaitingOne(_, results, _) => results
    case Gathering(results) => results
    case _ => map[]
  }

  function InlineCall(phase: Phase): set<int> {
    if phase.Inline? then {phase.callId} else {}
  }

  predicate Ending(phase: Phase) {
    phase.Interrupting? || phase.Cleaning? || phase.Exited?
  }

  /** Each call owed to the sandbox is in exactly one place: pending, settled early, awaited, or collected. */
  ghost predicate Tables(s: State, r: Ref) {
    var awaited, results := AwaitedDeferred(s.phase), ResultsOf(s.phase);
    && Distinct(s.pending)
    && (forall id :: id in r.owed ==> id in s.pending || id in s.preResolved || id in awaited || id in results)
    && (forall id :: id in s.pending ==> id in r.owed)
    && (forall id :: id in s.preResolved ==> id in r.owed)
    && (forall id :: id in awaited ==> id in r.owed)
    && (forall id :: id in results ==> id in r.owed)
    && (forall id :: id in s.pending ==> id !in s.preResolved && id !in awaited && id !in results)
    && (forall id :: id in s.preResolved ==> id !in awaited && id !in results)
    && (forall id :: id in awaited ==> id !in results)
  }

  ghost predicate Outcomes(s: State, r: Ref) {
    && (forall id :: id in r.owed ==> id in s.bodies && s.bodies[id].outcome == r.owed[id])
    && (forall id :: id in s.preResolved && id in r.owed ==> s.preResolved[id] == r.owed[id])
    && (forall id :: id in ResultsOf(s.phase) && id in r.owed ==> ResultsOf(s.phase)[id] == r.owed[id])
  }

  ghost predicate Known(s: State, r: Ref) {
    && (forall id :: id in s.bodies <==> id in r.used || id in InlineCall(s.phase))
    && (forall id :: id in r.owed ==> id in r.used)
    && (forall id :: id in InlineCall(s.phase) ==> id !in r.used)
  }

  /** Only awaited calls and, in parallel mode, pending ones run; only pending ones wait unstarted. */
  ghost predicate Statuses(u: Setup, s: State) {
    forall id :: id in s.bodies ==>
      match s.bodies[id].status
      case Running =>
        id in AwaitedDeferred(s.phase) || id in InlineCall(s.phase) || (!u.globalSequential && id in s.pending)
      case Bare => u.globalSequential && id in s.pending
      case Settled => u.globalSequential ==> id !in s.pending
      case Dropped => false
  }

  ghost predicate AtCall(u: Setup, r: Ref) {
    && u.sandbox(r.history).Function?
    && Rejection(u.host, u.sandbox(r.history)).None?
    && u.sandbox(r.history).name in u.host.sequential
  }

  ghost predicate Collected(u: Setup, s: State, r: Ref, next: nat, results: map<int, Outcome>) {
    && u.sandbox(r.history).Future?
    && var ids := u.sandbox(r.history).ids;
    && next <= |ids|
    && (forall k :: 0 <= k < next ==> ids[k] in results || (!u.globalSequential && ids[k] in s.pending))
    && (forall id :: id in results ==> id in ids)
    && (forall k :: next <= k < |ids| ==> ids[k] !in results)
  }

  ghost predicate PhaseOk(u: Setup, s: State, r: Ref) {
    && s.accepted == r.accepted + (if s.phase.Inline? then 1 else 0)
    && match s.phase
       case Driving => true
       case Barrier(_) => AtCall(u, r)
       case Inline(id) =>
         && AtCall(u, r) && s.pending == []
         && var call := u.sandbox(r.history);
         && id == call.callId && u.host.refuses(r.accepted).None?
         && id in s.bodies && s.bodies[id].outcome == u.host.outcome(call.name, call.kwargs)
       case Collecting(next, results) => Collected(u, s, r, next, results)
       case AwaitingOne(next, results, cid) =>
         && Collected(u, s, r, next, results) && u.globalSequential
         && next < |u.sandbox(r.history).ids| && cid == u.sandbox(r.history).ids[next]
       case Gathering(results) =>
         && u.sandbox(r.history).Future? && !u.globalSequential
         && Collected(u, s, r, |u.sandbox(r.history).ids|, results)
       case _ => false
  }

  ghost predicate InvLive(u: Setup, s: State, r: Ref) {
    && r.history == s.history
    && Tables(s, r) && Outcomes(s, r) && Known(s, r) && Statuses(u, s) && PhaseOk(u, s, r)
  }

  ghost predicate ExitOk(u: Setup, s: State, exit: Exit) {
    match exit
    case Output(value) => u.sandbox(s.history) == Complete(value)
    case Error(error) => u.sandbox(s.history) == Aborted(error)
    case Interrupted => true
  }

  ghost predicate InvEnd(u: Setup, s: State, r: Ref) {
    && r.history == s.history
    && match s.phase
       case Interrupting(waitFor) =>
         && (u.globalSequential ==> forall a, b :: a in waitFor && b in waitFor ==> a == b)
         && forall id :: id in s.bodies ==>
           && (s.bodies[id].status.Running? ==> id in waitFor || (!u.globalSequential && id in s.pending))
           && (s.bodies[id].status.Bare? ==> id in s.pending)
       case Cleaning(exit) =>
         && ExitOk(u, s, exit)
         && forall id :: id in s.bodies ==>
           && !s.bodies[id].status.Bare?
           && (s.bodies[id].status.Running? ==> !u.globalSequential && id in s.pending)
       case Exited(exit) =>
         && ExitOk(u, s, exit)
         && forall id :: id in s.bodies ==> s.bodies[id].status.Settled? || s.bodies[id].status.Dropped?
       case _ => false
  }

  ghost predicate Inv(u: Setup, s: State, r: Ref) {
    if Ending(s.phase) then InvEnd(u, s, r) else InvLive(u, s, r)
  }

  /** The executor is where the reference machine is after as many payloads. */
  ghost predicate Tracks(u: Setup, s: State) {
    Inv(u, s, RefRun(u.sandbox, u.host, |s.history|))
  }

  /** `next` follows `s` without a payload, or with exactly the reference machine's next one. */
  ghost predicate Follows(u: Setup, s: State, next: State, r: Ref) {
    || (next.history == s.history && Inv(u, next, r))
    || (|next.history| == |s.history| + 1 && Inv(u, next, RefStep(u.sandbox, u.host, r)))
  }

  lemma {:induction false} RemoveIn(ids: seq<int>, id: int)
    requires Distinct(ids)
    ensures Distinct(Remove(ids, id))
    ensures forall x :: x in Remove(ids, id) <==> x in ids && x != id
  {
    if ids != [] {
      var rest := ids[1..];
      assert ids == [ids[0]] + rest;
      assert ids[0] !in rest;
      RemoveIn(rest, id);
    }
  }

  lemma {:induction false} WithoutIn(ids: seq<int>, gone: set<int>)
    requires Distinct(ids)
    ensures Distinct(Without(ids, gone))
    ensures forall x :: x in Without(ids, gone) <==> x in ids && x !in gone
  {
    if ids != [] {
      var rest := ids[1..];
      assert ids == [ids[0]] + rest;
      assert ids[0] !in rest;
      WithoutIn(rest, gone);
    }
  }

  lemma CleaningBegins(u: Setup, s: State, r: Ref, exit: Exit)
    requires Inv(u, s, r) && ExitOk(u, s, exit)
    requires s.phase.Driving? || (s.phase.Interrupting? && CanAdvance(u, s))
    ensures InvEnd(u, BeginCleaning(s, exit), r)
  {
  }

  /** Answering a suspension without dispatching anything. */
  lemma AnswerKeepsInv(u: Setup, s: State, r: Ref, payload: Resume)
    requires InvLive(u, s, r) && s.phase.Driving?
    ensures InvLive(u, s.(history := s.history + [payload]), r.(history := r.history + [payload]))
  {
  }

  lemma PopKeepsInv(u: Setup, s: State, r: Ref)
    requires InvLive(u, s, r) && s.phase.Driving? && AtCall(u, r) && s.pending != []
    ensures s.pending[0] in s.bodies
    ensures InvLive(u, s.(bodies := Started(s, s.pending[0]), pending := s.pending[1..],
        phase := Barrier(s.pending[0])), r)
  {
    var first := s.pending[0];
    assert first in s.pending && first in r.owed;
    PopKeepsTables(u, s, r);
    PopKeepsStatuses(u, s, r);
    hide Tables, AtCall, Statuses;
  }

  lemma PopKeepsStatuses(u: Setup, s: State, r: Ref)
    requires Statuses(u, s) && s.phase.Driving? && s.pending != [] && s.pending[0] in s.bodies
    ensures Statuses(u, s.(bodies := Started(s, s.pending[0]), pending := s.pending[1..],
        phase := Barrier(s.pending[0])))
  {
    assert s.pending == [s.pending[0]] + s.pending[1..];
  }

  lemma PopKeepsTables(u: Setup, s: State, r: Ref)
    requires Tables(s, r) && s.phase.Driving? && s.pending != [] && s.pending[0] in s.bodies
    ensures Tables(s.(bodies := Started(s, s.pending[0]), pending := s.pending[1..], phase := Barrier(s.pending[0])), r)
  {
    assert s.pending == [s.pending[0]] + s.pending[1..];
  }

  lemma DispatchKeepsInv(u: Setup, s: State, r: Ref, call: Snapshot)
    requires InvLive(u, s, r) && s.phase.Driving? && AtCall(u, r) && AsksProperly(u.sandbox, r)
    requires s.pending == [] && u.host.refuses(s.accepted).None? && call == u.sandbox(s.history)
    ensures InvLive(u, BarrierTurn(u, s, call), r) && BarrierTurn(u, s, call).history == s.history
  {
  }

  lemma BarrierTurnFollows(u: Setup, s: State, r: Ref)
    requires InvLive(u, s, r) && s.phase.Driving? && AtCall(u, r) && AsksProperly(u.sandbox, r)
    ensures Follows(u, s, BarrierTurn(u, s, u.sandbox(s.history)), r)
  {
    if s.pending != [] {
      PopKeepsInv(u, s, r);
      hide InvLive, Started, AtCall, AsksProperly;
    } else if u.host.refuses(s.accepted).Some? {
      AnswerKeepsInv(u, s, r, Answer(Raised(u.host.refuses(s.accepted).value)));
      RefusedRef(u, s, r);
      hide InvLive, AtCall, AsksProperly, RefStep;
    } else {
      DispatchKeepsInv(u, s, r, u.sandbox(s.history));
      DispatchedPhase(u, s);
      hide InvLive, AtCall, AsksProperly, BarrierTurn;
    }
  }

  lemma DispatchedPhase(u: Setup, s: State)
    requires s.pending == [] && u.host.refuses(s.accepted).None? && u.sandbox(s.history).Function?
    ensures BarrierTurn(u, s, u.sandbox(s.history)).phase.Inline?
  {
  }

  lemma RefusedRef(u: Setup, s: State, r: Ref)
    requires r.history == s.history && r.accepted == s.accepted && AtCall(u, r) && u.host.refuses(s.accepted).Some?
    ensures RefStep(u.sandbox, u.host, r) ==
            r.(history := r.history + [Answer(Raised(u.host.refuses(s.accepted).value))])
  {
  }

  lemma CallFollows(u: Setup, s: State, r: Ref)
    requires InvLive(u, s, r) && s.phase.Driving? && AsksProperly(u.sandbox, r) && u.sandbox(s.history).Function?
    ensures Follows(u, s, Drive(u, s), r)
  {
    var rejection := Rejection(u.host, u.sandbox(s.history));
    if rejection.Some? {
      AnswerKeepsInv(u, s, r, rejection.value);
      hide InvLive, Rejection, AsksProperly;
    } else if u.sandbox(s.history).name in u.host.sequential {
      BarrierTurnFollows(u, s, r);
      hide InvLive, Rejection, BarrierTurn, Follows, AsksProperly;
    } else {
      DeferFollows(u, s, r);
      hide InvLive, Rejection, Defer, Follows, AsksProperly;
    }
  }

  lemma DriveFollows(u: Setup, s: State, r: Ref)
    requires InvLive(u, s, r) && s.phase.Driving? && AsksProperly(u.sandbox, r)
    ensures Follows(u, s, Drive(u, s), r)
  {
    assert r.history == s.history;
    match u.sandbox(s.history)
    case NameLookup =>
      AnswerKeepsInv(u, s, r, Undefined);
      hide InvLive, AsksProperly;
    case Function(_, _, _, _, _) =>
      CallFollows(u, s, r);
      hide InvLive, AsksProperly, Follows, Drive;
    case Future(_) =>
      CollectingBegins(u, s, r);
      hide InvLive, AsksProperly;
    case Complete(output) =>
      CleaningBegins(u, s, r, Output(output));
      hide InvLive, InvEnd, AsksProperly;
    case Aborted(error) =>
      CleaningBegins(u, s, r, Error(error));
      hide InvLive, InvEnd, AsksProperly;
  }

  lemma CollectingBegins(u: Setup, s: State, r: Ref)
    requires InvLive(u, s, r) && s.phase.Driving? && u.sandbox(s.history).Future?
    ensures InvLive(u, s.(phase := Collecting(0, map[])), r)
  {
    hide Distinct;
  }

  lemma DeferFollows(u: Setup, s: State, r: Ref)
    requires InvLive(u, s, r) && s.phase.Driving? && AsksProperly(u.sandbox, r)
    requires u.sandbox(r.history).Function? && Rejection(u.host, u.sandbox(r.history)).None?
    requires u.sandbox(r.history).name !in u.host.sequential
    ensures Follows(u, s, Defer(u, s, u.sandbox(s.history)), r)
  {
    DeferTables(u, s, r);
    DeferBodies(u, s, r);
    hide Tables, Outcomes, Known, Statuses, AsksProperly, Rejection;
  }

  lemma DeferTables(u: Setup, s: State, r: Ref)
    requires InvLive(u, s, r) && s.phase.Driving? && AsksProperly(u.sandbox, r)
    requires u.sandbox(r.history).Function? && Rejection(u.host, u.sandbox(r.history)).None?
    requires u.sandbox(r.history).name !in u.host.sequential
    ensures Tables(Defer(u, s, u.sandbox(s.history)), RefStep(u.sandbox, u.host, r))
  {
    hide Outcomes, Statuses;
  }

  lemma DeferBodies(u: Setup, s: State, r: Ref)
    requires InvLive(u, s, r) && s.phase.Driving? && AsksProperly(u.sandbox, r)
    requires u.sandbox(r.history).Function? && Rejection(u.host, u.sandbox(r.history)).None?
    requires u.sandbox(r.history).name !in u.host.sequential
    ensures var next, ref := Defer(u, s, u.sandbox(s.history)), RefStep(u.sandbox, u.host, r);
            Outcomes(next, ref) && Known(next, ref) && Statuses(u, next) && PhaseOk(u, next, ref)
  {
  }

  lemma CollectedAreOwed(u: Setup, s: State, r: Ref, ids: seq<int>)
    requires InvLive(u, s, r) && s.phase.Collecting? && AsksProperly(u.sandbox, r)
    requires u.sandbox(s.history) == Future(ids) && forall id :: id in ids ==> id in s.phase.results
    ensures s.phase.results == RefResults(r, ids)
  {
    var results := s.phase.results;
    assert Collected(u, s, r, s.phase.next, results);
    forall id ensures id in results <==> id in RefResults(r, ids) {}
    forall id | id in results ensures results[id] == r.owed[id] {}
  }

  lemma CollectEarlyKeepsInv(u: Setup, s: State, r: Ref, ids: seq<int>, cid: int)
    requires InvLive(u, s, r) && s.phase.Collecting? && AsksProperly(u.sandbox, r)
    requires u.sandbox(s.history) == Future(ids) && s.phase.next < |ids| && cid == ids[s.phase.next]
    requires cid in s.preResolved
    ensures InvLive(u, s.(preResolved := s.preResolved - {cid},
                          phase := Collecting(s.phase.next + 1, s.phase.results[cid := s.preResolved[cid]])), r)
  {
  }

  lemma CollectAwaitKeepsInv(u: Setup, s: State, r: Ref, ids: seq<int>, cid: int)
    requires InvLive(u, s, r) && s.phase.Collecting? && u.globalSequential
    requires u.sandbox(s.history) == Future(ids) && s.phase.next < |ids| && cid == ids[s.phase.next]
    requires cid in s.pending && cid in s.bodies
    ensures InvLive(u, s.(bodies := Started(s, cid), pending := Remove(s.pending, cid),
                          phase := AwaitingOne(s.phase.next, s.phase.results, cid)), r)
  {
    RemoveIn(s.pending, cid);
  }

  lemma CollectLaterKeepsInv(u: Setup, s: State, r: Ref, ids: seq<int>, cid: int)
    requires InvLive(u, s, r) && s.phase.Collecting? && !u.globalSequential
    requires u.sandbox(s.history) == Future(ids) && s.phase.next < |ids| && cid == ids[s.phase.next]
    requires cid in r.owed && cid !in s.preResolved
    ensures InvLive(u, s.(phase := Collecting(s.phase.next + 1, s.phase.results)), r)
  {
    assert cid in s.pending;
  }

  lemma CollectOneKeepsInv(u: Setup, s: State, r: Ref, ids: seq<int>)
    requires InvLive(u, s, r) && s.phase.Collecting? && AsksProperly(u.sandbox, r)
    requires u.sandbox(s.history) == Future(ids) && s.phase.next < |ids|
    ensures InvLive(u, Collect(u, s, ids), r) && Collect(u, s, ids).history == s.history
  {
    hide InvLive, AsksProperly, Started, Remove;
    var cid := ids[s.phase.next];
    NextIsOwed(u, s, r, ids);
    if cid in s.preResolved {
      CollectEarlyKeepsInv(u, s, r, ids, cid);
    } else if u.globalSequential {
      CollectAwaitKeepsInv(u, s, r, ids, cid);
    } else {
      CollectLaterKeepsInv(u, s, r, ids, cid);
    }
  }

  lemma NextIsOwed(u: Setup, s: State, r: Ref, ids: seq<int>)
    requires InvLive(u, s, r) && s.phase.Collecting? && AsksProperly(u.sandbox, r)
    requires u.sandbox(s.history) == Future(ids) && s.phase.next < |ids|
    ensures var cid := ids[s.phase.next];
            cid in ids && cid in r.owed && cid in s.bodies && (cid in s.pending || cid in s.preResolved)
  {
    assert ids[s.phase.next] in ids;
  }

  /** All asked-for calls are collected: the payload is the reference machine's. */
  lemma ResumeKeepsInv(u: Setup, s: State, r: Ref, ids: seq<int>)
    requires InvLive(u, s, r) && s.phase.Collecting? && AsksProperly(u.sandbox, r)
    requires u.sandbox(s.history) == Future(ids) && forall id :: id in ids ==> id in s.phase.results
    ensures InvLive(u, s.(history := s.history + [Results(s.phase.results)], phase := Driving),
                    RefStep(u.sandbox, u.host, r))
  {
    CollectedAreOwed(u, s, r, ids);
  }

  lemma BeginGatherKeepsInv(u: Setup, s: State, r: Ref, ids: seq<int>)
    requires InvLive(u, s, r) && s.phase.Collecting?
    requires u.sandbox(s.history) == Future(ids) && s.phase.next == |ids|
    requires !(forall id :: id in ids ==> id in s.phase.results)
    ensures InvLive(u, s.(phase := Gathering(s.phase.results)), r)
  {
  }

  lemma CollectFollows(u: Setup, s: State, r: Ref)
    requires InvLive(u, s, r) && s.phase.Collecting? && AsksProperly(u.sandbox, r)
    ensures Follows(u, s, Collect(u, s, u.sandbox(s.history).ids), r)
  {
    var ids := u.sandbox(s.history).ids;
    if s.phase.next < |ids| {
      CollectOneKeepsInv(u, s, r, ids);
      CollectIsLive(u, s, ids);
      hide InvLive, Collect, AsksProperly;
    } else if forall id :: id in ids ==> id in s.phase.results {
      ResumeKeepsInv(u, s, r, ids);
      hide InvLive, RefStep, AsksProperly;
    } else {
      BeginGatherKeepsInv(u, s, r, ids);
      hide InvLive, AsksProperly;
    }
  }

  lemma CollectIsLive(u: Setup, s: State, ids: seq<int>)
    requires s.phase.Collecting? && s.phase.next <= |ids|
    ensures !Ending(Collect(u, s, ids).phase)
  {
  }

  lemma GatheredAreOwed(u: Setup, s: State, r: Ref, ids: seq<int>)
    requires InvLive(u, s, r) && s.phase.Gathering? && AsksProperly(u.sandbox, r)
    requires u.sandbox(s.history) == Future(ids)
    ensures Gathered(s, ids) == RefResults(r, ids)
  {
    forall id | id in ids ensures id in r.owed && id in Gathered(s, ids) && Gathered(s, ids)[id] == r.owed[id] {
      assert id in r.owed;
    }
  }

  lemma GatherFollows(u: Setup, s: State, r: Ref)
    requires InvLive(u, s, r) && s.phase.Gathering? && AsksProperly(u.sandbox, r) && CanAdvance(u, s)
    ensures Follows(u, s, AdvanceStep(u, s), r)
  {
    GatherTables(u, s, r);
    GatherBodies(u, s, r);
    GatheredAreOwed(u, s, r, u.sandbox(s.history).ids);
    hide Tables, Outcomes, Known, Statuses, AsksProperly;
  }

  lemma GatherTables(u: Setup, s: State, r: Ref)
    requires InvLive(u, s, r) && s.phase.Gathering? && AsksProperly(u.sandbox, r) && CanAdvance(u, s)
    ensures Tables(AdvanceStep(u, s), RefStep(u.sandbox, u.host, r))
  {
    var ids := u.sandbox(s.history).ids;
    WithoutIn(s.pending, (set id | id in ids) - s.phase.results.Keys);
    GatheredAreOwed(u, s, r, ids);
    hide Outcomes, Known, Statuses;
  }

  lemma GatherBodies(u: Setup, s: State, r: Ref)
    requires InvLive(u, s, r) && s.phase.Gathering? && AsksProperly(u.sandbox, r) && CanAdvance(u, s)
    ensures var next, ref := AdvanceStep(u, s), RefStep(u.sandbox, u.host, r);
            Outcomes(next, ref) && Known(next, ref) && Statuses(u, next) && PhaseOk(u, next, ref)
  {
    var ids := u.sandbox(s.history).ids;
    WithoutIn(s.pending, (set id | id in ids) - s.phase.results.Keys);
  }

  lemma BarrierFollows(u: Setup, s: State, r: Ref)
    requires InvLive(u, s, r) && s.phase.Barrier? && AsksProperly(u.sandbox, r) && CanAdvance(u, s)
    ensures Follows(u, s, AdvanceStep(u, s), r)
  {
    var awaited := s.phase.awaited;
    var settled := s.(preResolved := s.preResolved[awaited := s.bodies[awaited].outcome], phase := Driving);
    assert InvLive(u, settled, r);
    hide InvLive, InvEnd, BarrierTurn;
    BarrierTurnFollows(u, settled, r);
    assert BarrierTurn(u, settled, u.sandbox(s.history)) == AdvanceStep(u, s) by {
      BarrierTurnIgnoresPhase(u, settled, Barrier(awaited), u.sandbox(s.history));
    }
  }

  lemma BarrierTurnIgnoresPhase(u: Setup, s: State, phase: Phase, call: Snapshot)
    requires call.Function?
    ensures BarrierTurn(u, s, call) == BarrierTurn(u, s.(phase := phase), call)
  {
  }

  lemma AwaitedFollows(u: Setup, s: State, r: Ref)
    requires InvLive(u, s, r) && (s.phase.Inline? || s.phase.AwaitingOne?) && CanAdvance(u, s)
    requires AsksProperly(u.sandbox, r)
    ensures Follows(u, s, AdvanceStep(u, s), r)
  {
    if s.phase.Inline? {
      InlineFollows(u, s, r);
      hide InvLive, AsksProperly;
    } else {
      CollectedFollows(u, s, r);
      hide InvLive, AsksProperly;
    }
  }

  lemma InlineFollows(u: Setup, s: State, r: Ref)
    requires InvLive(u, s, r) && s.phase.Inline? && CanAdvance(u, s) && AsksProperly(u.sandbox, r)
    ensures var next := AdvanceStep(u, s);
            && InvLive(u, next, RefStep(u.sandbox, u.host, r)) && !Ending(next.phase)
            && |next.history| == |s.history| + 1
  {
  }

  lemma CollectedFollows(u: Setup, s: State, r: Ref)
    requires InvLive(u, s, r) && s.phase.AwaitingOne? && CanAdvance(u, s) && AsksProperly(u.sandbox, r)
    ensures var next := AdvanceStep(u, s);
            InvLive(u, next, r) && !Ending(next.phase) && next.history == s.history
  {
  }

  lemma StepFollows(u: Setup, s: State, e: Event, r: Ref)
    requires Inv(u, s, r) && AsksProperly(u.sandbox, r) && Enabled(u, s, e)
    ensures Follows(u, s, Step(u, s, e), r)
  {
    if e.Advance? {
      hide InvLive, Follows, BarrierTurn, Collect, Drive;
      match s.phase
      case Driving => DriveFollows(u, s, r);
      case Barrier(_) => BarrierFollows(u, s, r);
      case Inline(_) => AwaitedFollows(u, s, r);
      case Collecting(_, _) => CollectFollows(u, s, r);
      case AwaitingOne(_, _, _) => AwaitedFollows(u, s, r);
      case Gathering(_) => GatherFollows(u, s, r);
      case Interrupting(_) =>
        CleaningBegins(u, s, r, Interrupted);
        EndFollows(u, s, Step(u, s, e), r);
      case Cleaning(_) => EndFollows(u, s, Step(u, s, e), r);
    } else {
      OtherFollows(u, s, e, r);
    }
  }

  lemma EndFollows(u: Setup, s: State, next: State, r: Ref)
    requires Ending(next.phase) && next.history == s.history && InvEnd(u, next, r)
    ensures Follows(u, s, next, r)
  {
  }

  lemma OtherFollows(u: Setup, s: State, e: Event, r: Ref)
    requires Inv(u, s, r) && !e.Advance? && Enabled(u, s, e)
    ensures Follows(u, s, Step(u, s, e), r)
  {
    var next := Step(u, s, e);
    assert Inv(u, next, r);
  }

  lemma StepTracks(u: Setup, s: State, e: Event)
    requires SandboxContract(u.sandbox, u.host) && Tracks(u, s) && Enabled(u, s, e)
    ensures Tracks(u, Step(u, s, e))
  {
    StepFollows(u, s, e, RefRun(u.sandbox, u.host, |s.history|));
    hide Inv, Step, Enabled;
  }

  lemma {:induction false} ReachableTracks(u: Setup, first: State, events: seq<Event>, last: State)
    requires SandboxContract(u.sandbox, u.host) && Tracks(u, first) && Reaches(u, first, events, last)
    ensures Tracks(u, last)
    decreases |events|
  {
    if events != [] {
      StepTracks(u, first, events[0]);
      hide Tracks, Step, Enabled;
      ReachableTracks(u, Step(u, first, events[0]), events[1..], last);
    }
  }
}
