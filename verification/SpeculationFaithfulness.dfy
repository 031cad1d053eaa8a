/** Over whole runs: speculation shows, for some tools, exactly when a call settles from a launch it claimed that ran
    another tool than the one the call names. */
module SpeculationFaithfulness {
  import opened Options
  import opened PythonDict
  import opened PythonRepr
  import opened CanonicalKey
  import opened SpeculationStore
  import opened SpeculativeRun
  import opened SpeculationConservation
  import opened SpeculationTransparency

  // ---- the condition -------------------------------------------------------------------------------------------

  /** The call settles in the rest of the run. */
  ghost predicate SettledLater(setup: Setup, w: World, events: seq<Event>, call: CallId)
    decreases |events|
  {
    events != [] &&
    (Settles(w, events[0], call) || SettledLater(setup, Step(setup, w, events[0]), events[1..], call))
  }

  predicate Settles(w: World, e: Event, call: CallId) {
    e == Settle(call) && Ready(w.session, call, true)
  }

  /** The launch a dispatch takes, if it takes one: the oldest under its key, of its own part first. */
  function Taken(setup: Setup, w: World, e: Event): Option<Launch>
    requires e.Dispatch?
  {
    if HasBudget(setup, w.session, e.run) then
      Claim(w.store.parts, w.session.executions[e.run].parent, Key(setup.p, e.name, e.kwargs)).0
    else None
  }

  /** The dispatch takes a launch that ran another tool than the function stands for in its execution. */
  predicate TakesForeign(setup: Setup, w: World, e: Event) {
    && e.Dispatch? && Taken(setup, w, e).Some?
    && Taken(setup, w, e).value.originalName != Original(w.session.executions[e.run].renames, e.name)
  }

  /** No dispatch takes a launch of another tool and then settles. */
  ghost predicate OwnClaims(setup: Setup, w: World, events: seq<Event>)
    decreases |events|
  {
    events == [] ||
    var next := Step(setup, w, events[0]);
    && (TakesForeign(setup, w, events[0]) ==>
          !SettledLater(setup, next, events[1..], NextId(w.session, events[0].run)))
    && OwnClaims(setup, next, events[1..])
  }

  // ---- the same condition, read where calls settle ---------------------------------------------------------------

  ghost predicate OwnAnswers(setup: Setup, w: World, events: seq<Event>)
    decreases |events|
  {
    events == [] || (Own(w, events[0]) && OwnAnswers(setup, Step(setup, w, events[0]), events[1..]))
  }

  /** A claim of a call that settles later is a launch of the call's own tool. */
  ghost predicate Clean(setup: Setup, w: World, events: seq<Event>, claim: (CallId, Launch)) {
    claim.0 in w.session.pending && SettledLater(setup, w, events, claim.0) ==>
      claim.1.originalName == w.session.pending[claim.0].part.toolName
  }

  ghost predicate AllClean(setup: Setup, w: World, events: seq<Event>) {
    forall i :: 0 <= i < |w.claims| ==> Clean(setup, w, events, w.claims[i])
  }

  /** A call that is over, and whose id is not given again. */
  ghost predicate Gone(s: Session, call: CallId) {
    call.run < |s.executions| && call.n <= s.executions[call.run].callCount && call !in s.pending
  }

  lemma SessionStepGone(setup: Setup, s: Session, e: Event, call: CallId)
    requires Gone(s, call)
    ensures Gone(ColdStep(setup, s, e), call)
  {
    hide MeaningOf;
  }

  lemma StepGone(setup: Setup, w: World, e: Event, call: CallId)
    requires Gone(w.session, call)
    ensures Gone(Step(setup, w, e).session, call)
  {
    hide MeaningOf, Claim, Bag, Queued, WatchBag, LaunchInto, EvictPart, RetireStale, Close, Key;
    SessionStepGone(setup, w.session, e, call);
  }

  lemma {:induction false} GoneIsNotSettled(setup: Setup, w: World, events: seq<Event>, call: CallId)
    requires Gone(w.session, call)
    ensures !SettledLater(setup, w, events, call)
    decreases |events|
  {
    hide Step;
    if events != [] {
      StepGone(setup, w, events[0], call);
      hide Gone;
      assert !Settles(w, events[0], call) by {
        GoneIsNotReady(w.session, call);
      }
      GoneIsNotSettled(setup, Step(setup, w, events[0]), events[1..], call);
    }
  }

  lemma GoneIsNotReady(s: Session, call: CallId)
    requires Gone(s, call)
    ensures !Ready(s, call, true)
  {
  }

  // ---- both conditions agree ---------------------------------------------------------------------------------------

  predicate Releases(w: World, e: Event) {
    e.Abandon? || (e.Settle? && Ready(w.session, e.call, true))
  }

  predicate Takes(setup: Setup, w: World, e: Event) {
    e.Dispatch? && Taken(setup, w, e).Some?
  }

  /** Pending calls keep the part they were dispatched with. */
  ghost predicate SameParts(s: Session, s': Session) {
    forall call :: call in s.pending ==> call in s'.pending && s'.pending[call].part == s.pending[call].part
  }

  lemma TakingClaims(setup: Setup, w: World, e: Event)
    requires Numbered(w.session) && Takes(setup, w, e)
    ensures var w', id := Step(setup, w, e), NextId(w.session, e.run);
            && w'.claims == w.claims + [(id, Taken(setup, w, e).value)]
            && SameParts(w.session, w'.session) && id in w'.session.pending
            && w'.session.pending[id].part == PartOf(w.session, e.run, e.name, e.kwargs)
  {
    NextIdFresh(w.session, e.run);
    hide Claim, Key, Numbered;
  }

  lemma ReleasingClaims(setup: Setup, w: World, e: Event)
    requires Accounted(w) && Releases(w, e)
    ensures var w' := Step(setup, w, e);
            w'.claims == Delete(w.claims, e.call) && w'.session.pending == w.session.pending - {e.call}
  {
    if e.Settle? && Has(w.claims, e.call) {
      ClaimedNotEvicted(w, e.call);
    }
    hide Accounted, MeaningOf;
  }

  lemma OtherClaims(setup: Setup, w: World, e: Event)
    requires Numbered(w.session) && !Takes(setup, w, e) && !Releases(w, e)
    ensures Step(setup, w, e).claims == w.claims && SameParts(w.session, Step(setup, w, e).session)
  {
    hide Claim, Key, MeaningOf, Bag, Queued, WatchBag, LaunchInto, EvictPart, RetireStale, Close;
    if e.Dispatch? {
      FreeDispatchClaims(setup, w, e);
    }
    hide Dispatched;
  }

  lemma FreeDispatchClaims(setup: Setup, w: World, e: Event)
    requires Numbered(w.session) && e.Dispatch? && !Takes(setup, w, e)
    ensures Step(setup, w, e).claims == w.claims && SameParts(w.session, Step(setup, w, e).session)
  {
    hide Claim, Key;
    if e.run < |w.session.executions| {
      NextIdFresh(w.session, e.run);
    }
  }

  /** A claim that a step leaves alone is clean before it exactly when it is after it. */
  lemma CleanStays(setup: Setup, w: World, events: seq<Event>, claim: (CallId, Launch))
    requires events != [] && claim.0 in w.session.pending && !Settles(w, events[0], claim.0)
    requires var s' := Step(setup, w, events[0]).session;
             claim.0 in s'.pending && s'.pending[claim.0].part == w.session.pending[claim.0].part
    ensures Clean(setup, w, events, claim) <==> Clean(setup, Step(setup, w, events[0]), events[1..], claim)
  {
    hide Step, Settles;
  }

  lemma ClaimPending(w: World, i: nat)
    requires Matched(w.session, w.claims) && i < |w.claims|
    ensures w.claims[i].0 in w.session.pending
  {
    assert MatchedClaim(w.session, w.claims[i]);
  }

  lemma OtherCleans(setup: Setup, w: World, events: seq<Event>)
    requires Sound(setup, w) && events != [] && !Takes(setup, w, events[0]) && !Releases(w, events[0])
    ensures AllClean(setup, w, events) <==> AllClean(setup, Step(setup, w, events[0]), events[1..])
  {
    OtherClaims(setup, w, events[0]);
    forall i | 0 <= i < |w.claims|
      ensures Clean(setup, w, events, w.claims[i]) <==>
              Clean(setup, Step(setup, w, events[0]), events[1..], w.claims[i])
    {
      ClaimPending(w, i);
      CleanStays(setup, w, events, w.claims[i]);
    }
    hide Clean, Step, Sound, Takes, Releases, SameParts;
  }

  lemma TakingCleans(setup: Setup, w: World, events: seq<Event>)
    requires Sound(setup, w) && events != [] && Takes(setup, w, events[0])
    ensures var e, w' := events[0], Step(setup, w, events[0]);
            AllClean(setup, w', events[1..]) <==>
            && AllClean(setup, w, events)
            && (TakesForeign(setup, w, e) ==> !SettledLater(setup, w', events[1..], NextId(w.session, e.run)))
  {
    var e, w', rest := events[0], Step(setup, w, events[0]), events[1..];
    TakingClaims(setup, w, e);
    var n := |w.claims|;
    forall i | 0 <= i < n
      ensures w'.claims[i] == w.claims[i]
      ensures Clean(setup, w, events, w.claims[i]) <==> Clean(setup, w', rest, w.claims[i])
    {
      ClaimPending(w, i);
      CleanStays(setup, w, events, w.claims[i]);
    }
    hide Step, Sound, SameParts, Taken;
    assert Clean(setup, w', rest, w'.claims[n]) <==>
      (TakesForeign(setup, w, e) ==> !SettledLater(setup, w', rest, NextId(w.session, e.run)));
    hide Clean, Takes, TakesForeign, SettledLater;
  }

  /** The claims left are the others. */
  lemma LeftClaims(claims: Dict<CallId, Launch>, call: CallId)
    requires forall i, j :: 0 <= i < j < |claims| ==> claims[i].0 != claims[j].0
    ensures forall claim :: claim in Delete(claims, call) <==> claim in claims && claim.0 != call
  {
    var left, at := Delete(claims, call), Find(claims, call);
    forall claim | claim in claims && claim.0 != call ensures claim in left {
      var i :| 0 <= i < |claims| && claims[i] == claim;
      assert i < at ==> left[i] == claim;
      assert i > at ==> left[i - 1] == claim;
    }
    forall claim | claim in left ensures claim in claims && claim.0 != call {
      var i :| 0 <= i < |left| && left[i] == claim;
      assert claim == claims[if i < at then i else i + 1];
    }
  }

  ghost predicate AllCleanIn(setup: Setup, w: World, events: seq<Event>, claims: Dict<CallId, Launch>) {
    forall claim :: claim in claims ==> Clean(setup, w, events, claim)
  }

  lemma AllCleanMembers(setup: Setup, w: World, events: seq<Event>)
    ensures AllClean(setup, w, events) <==> AllCleanIn(setup, w, events, w.claims)
  {
    hide Clean;
    if AllClean(setup, w, events) {
      forall claim | claim in w.claims ensures Clean(setup, w, events, claim) {
        var i :| 0 <= i < |w.claims| && w.claims[i] == claim;
      }
    }
    if AllCleanIn(setup, w, events, w.claims) {
      forall i | 0 <= i < |w.claims| ensures Clean(setup, w, events, w.claims[i]) {
        assert w.claims[i] in w.claims;
      }
    }
  }

  /** The claim of the released call is clean exactly when the call settles from its own launch. */
  lemma ReleasedClean(setup: Setup, w: World, events: seq<Event>, claim: (CallId, Launch))
    requires Sound(setup, w) && events != [] && Releases(w, events[0])
    requires claim in w.claims && claim.0 == events[0].call
    ensures Clean(setup, w, events, claim) <==> Own(w, events[0])
  {
    var e := events[0];
    var i :| 0 <= i < |w.claims| && w.claims[i] == claim;
    ClaimPending(w, i);
    assert Find(w.claims, claim.0) == i;
    if e.Abandon? {
      ReleasingClaims(setup, w, e);
      assert Gone(Step(setup, w, e).session, e.call) by {
        StepGoneOf(setup, w, e);
      }
      GoneIsNotSettled(setup, Step(setup, w, e), events[1..], e.call);
    }
    hide Sound, Step, Gone;
  }

  lemma StepGoneOf(setup: Setup, w: World, e: Event)
    requires Numbered(w.session) && e.Abandon? && e.call in w.session.pending
    ensures Gone(Step(setup, w, e).session, e.call)
  {
  }

  lemma OthersStayClean(setup: Setup, w: World, events: seq<Event>)
    requires Sound(setup, w) && events != [] && Releases(w, events[0])
    ensures var left := Delete(w.claims, events[0].call);
            AllCleanIn(setup, w, events, left) <==>
            AllCleanIn(setup, Step(setup, w, events[0]), events[1..], left)
  {
    var e := events[0];
    ReleasingClaims(setup, w, e);
    LeftClaims(w.claims, e.call);
    forall claim | claim in Delete(w.claims, e.call)
      ensures Clean(setup, w, events, claim) <==> Clean(setup, Step(setup, w, e), events[1..], claim)
    {
      var i :| 0 <= i < |w.claims| && w.claims[i] == claim;
      ClaimPending(w, i);
      CleanStays(setup, w, events, claim);
    }
    hide Clean, Step, Sound, Releases, Delete;
  }

  lemma CleanWithout(setup: Setup, w: World, events: seq<Event>, call: CallId)
    requires forall i, j :: 0 <= i < j < |w.claims| ==> w.claims[i].0 != w.claims[j].0
    ensures AllCleanIn(setup, w, events, w.claims) <==>
            && AllCleanIn(setup, w, events, Delete(w.claims, call))
            && (Has(w.claims, call) ==> Clean(setup, w, events, w.claims[Find(w.claims, call)]))
  {
    LeftClaims(w.claims, call);
    hide Clean, Delete;
    if Has(w.claims, call) {
      var claim := w.claims[Find(w.claims, call)];
      assert claim in w.claims;
      OneClaim(w.claims, call, claim);
    } else {
      assert forall claim :: claim in w.claims ==> claim.0 != call;
    }
  }

  lemma ReleasingCleans(setup: Setup, w: World, events: seq<Event>)
    requires Sound(setup, w) && events != [] && Releases(w, events[0])
    ensures AllClean(setup, w, events) <==>
            Own(w, events[0]) && AllClean(setup, Step(setup, w, events[0]), events[1..])
  {
    var e, w' := events[0], Step(setup, w, events[0]);
    ReleasingClaims(setup, w, e);
    OthersStayClean(setup, w, events);
    CleanWithout(setup, w, events, e.call);
    AllCleanMembers(setup, w, events);
    AllCleanMembers(setup, w', events[1..]);
    if Has(w.claims, e.call) {
      assert w.claims[Find(w.claims, e.call)] in w.claims;
      ReleasedClean(setup, w, events, w.claims[Find(w.claims, e.call)]);
    } else {
      assert Own(w, e);
    }
    hide Clean, Step, Sound, Releases, AllClean, AllCleanIn, Own, Delete;
  }

  lemma OneClaim(claims: Dict<CallId, Launch>, call: CallId, claim: (CallId, Launch))
    requires forall i, j :: 0 <= i < j < |claims| ==> claims[i].0 != claims[j].0
    requires claim in claims && claim.0 == call
    ensures forall other :: other in claims && other.0 == call ==> other == claim
  {
  }

  /** One step moves the burden from the claims still held to the dispatch that took them. */
  lemma StepCleans(setup: Setup, w: World, events: seq<Event>)
    requires Sound(setup, w) && events != []
    ensures var e, w' := events[0], Step(setup, w, events[0]);
            Own(w, e) && AllClean(setup, w', events[1..]) <==>
            && AllClean(setup, w, events)
            && (TakesForeign(setup, w, e) ==> !SettledLater(setup, w', events[1..], NextId(w.session, e.run)))
  {
    var e := events[0];
    if Takes(setup, w, e) {
      TakingCleans(setup, w, events);
    } else if Releases(w, e) {
      ReleasingCleans(setup, w, events);
    } else {
      OtherCleans(setup, w, events);
    }
    hide Sound, AllClean, Step, SettledLater;
  }

  lemma {:induction false} BothConditions(setup: Setup, w: World, events: seq<Event>)
    requires Sound(setup, w)
    ensures OwnAnswers(setup, w, events) <==> OwnClaims(setup, w, events) && AllClean(setup, w, events)
    decreases |events|
  {
    if events == [] {
      NothingSettles(setup, w);
    } else {
      var next := Step(setup, w, events[0]);
      StepSound(setup, w, events[0]);
      StepCleans(setup, w, events);
      hide Sound, AllClean, Step, SettledLater, Own, TakesForeign;
      BothConditions(setup, next, events[1..]);
    }
  }

  lemma NothingSettles(setup: Setup, w: World)
    ensures AllClean(setup, w, [])
  {
  }

  // ---- the condition does not depend on the tools -----------------------------------------------------------------

  type Tools = (string, Meaning) -> Outcome

  ghost predicate AlikeExecutions(e: Execution, f: Execution) {
    e.(nestedReturns := map[]) == f.(nestedReturns := map[])
  }

  /** The same but for what the tools returned. */
  ghost predicate AlikeSessions(s: Session, t: Session) {
    && s.renames == t.renames && s.pending == t.pending && |s.executions| == |t.executions|
    && forall r :: 0 <= r < |s.executions| ==> AlikeExecutions(s.executions[r], t.executions[r])
  }

  ghost predicate Alike(w: World, v: World) {
    v.(session := w.session) == w && AlikeSessions(w.session, v.session)
  }

  lemma ReserveAlike(setup: Setup, tools: Tools, s: Session, t: Session, run: nat, name: string, kwargs: Value)
    requires AlikeSessions(s, t)
    ensures AlikeSessions(Reserve(setup, s, run, name, kwargs), Reserve(setup.(tools := tools), t, run, name, kwargs))
  {
  }

  lemma FinishAlike(s: Session, t: Session, call: CallId, outcome: Outcome, other: Outcome)
    requires AlikeSessions(s, t) && Ready(s, call, true)
    ensures Ready(t, call, true) && AlikeSessions(Finish(s, call, outcome), Finish(t, call, other))
  {
  }

  lemma SessionAlike(setup: Setup, tools: Tools, s: Session, t: Session, e: Event)
    requires AlikeSessions(s, t) && !e.Dispatch? && !e.Settle?
    ensures AlikeSessions(ColdStep(setup, s, e), ColdStep(setup.(tools := tools), t, e))
  {
  }

  lemma DispatchAlike(setup: Setup, tools: Tools, w: World, v: World, run: nat, name: string, kwargs: Value)
    requires Alike(w, v)
    ensures Alike(Dispatched(setup, w, run, name, kwargs), Dispatched(setup.(tools := tools), v, run, name, kwargs))
  {
    ReserveAlike(setup, tools, w.session, v.session, run, name, kwargs);
    if run < |w.session.executions| {
      assert AlikeExecutions(w.session.executions[run], v.session.executions[run]);
    }
    hide Claim, Key, Reserve, AlikeExecutions;
  }

  lemma SettleAlike(setup: Setup, tools: Tools, w: World, v: World, call: CallId)
    requires Alike(w, v)
    ensures Alike(Settled(setup, w, call), Settled(setup.(tools := tools), v, call))
  {
    if Ready(w.session, call, true) {
      var part, l := w.session.pending[call].part, Get(w.claims, call, NoLaunch);
      assert AlikeExecutions(w.session.executions[call.run], v.session.executions[call.run]);
      FinishAlike(w.session, v.session, call, setup.tools(part.toolName, MeaningOf(part.args)),
                  tools(part.toolName, MeaningOf(part.args)));
      FinishAlike(w.session, v.session, call, setup.tools(l.originalName, MeaningOf(l.kwargs)),
                  tools(l.originalName, MeaningOf(l.kwargs)));
    }
    hide Finish, MeaningOf, AlikeExecutions, Delete;
  }

  lemma CallEventAlike(setup: Setup, tools: Tools, w: World, v: World, e: Event)
    requires Alike(w, v) && (e.Begin? || e.Abandon? || e.Complete?)
    ensures Alike(Step(setup, w, e), Step(setup.(tools := tools), v, e))
  {
    SessionAlike(setup, tools, w.session, v.session, e);
    var run := if e.Complete? then e.run else e.call.run;
    if run < |w.session.executions| {
      assert AlikeExecutions(w.session.executions[run], v.session.executions[run]);
    }
    hide AlikeExecutions, Record, Delete, EvictPart, WatchBag;
  }

  lemma StepAlike(setup: Setup, tools: Tools, w: World, v: World, e: Event)
    requires Alike(w, v)
    ensures Alike(Step(setup, w, e), Step(setup.(tools := tools), v, e))
  {
    match e
    case Dispatch(run, name, kwargs) => DispatchAlike(setup, tools, w, v, run, name, kwargs);
    case Settle(call) => SettleAlike(setup, tools, w, v, call);
    case Begin(_, _) => CallEventAlike(setup, tools, w, v, e);
    case Abandon(_) => CallEventAlike(setup, tools, w, v, e);
    case Complete(_) => CallEventAlike(setup, tools, w, v, e);
    case StashStep(_) => SessionEventAlike(setup, tools, w, v, e);
    case StartExecution(_) => SessionEventAlike(setup, tools, w, v, e);
    case Feed(_) => SessionEventAlike(setup, tools, w, v, e);
    case _ => StoreEventAlike(setup, tools, w, v, e);
  }

  lemma SessionEventAlike(setup: Setup, tools: Tools, w: World, v: World, e: Event)
    requires Alike(w, v) && (e.StashStep? || e.StartExecution? || e.Feed?)
    ensures Alike(Step(setup, w, e), Step(setup.(tools := tools), v, e))
  {
    SessionAlike(setup, tools, w.session, v.session, e);
    hide AlikeSessions, ColdStep;
  }

  lemma StoreEventAlike(setup: Setup, tools: Tools, w: World, v: World, e: Event)
    requires Alike(w, v)
    requires e.NextStep? || e.Observe? || e.PartStart? || e.Rekey? || e.LaunchOne? || e.CloseStore?
    ensures Alike(Step(setup, w, e), Step(setup.(tools := tools), v, e))
  {
    hide AlikeExecutions, LaunchInto, RetireStale, Close, Queued, WatchBag;
  }

  lemma OwnAlike(w: World, v: World, e: Event)
    requires Alike(w, v)
    ensures Own(w, e) <==> Own(v, e)
  {
  }

  lemma {:induction false} OwnAnswersAlike(setup: Setup, tools: Tools, w: World, v: World, events: seq<Event>)
    requires Alike(w, v)
    ensures OwnAnswers(setup, w, events) <==> OwnAnswers(setup.(tools := tools), v, events)
    decreases |events|
  {
    hide Alike, Step, Own;
    if events != [] {
      StepAlike(setup, tools, w, v, events[0]);
      OwnAlike(w, v, events[0]);
      OwnAnswersAlike(setup, tools, Step(setup, w, events[0]), Step(setup.(tools := tools), v, events[0]), events[1..]);
    }
  }

  // ---- enough -----------------------------------------------------------------------------------------------------

  lemma {:induction false} OwnAnswersAreCold(setup: Setup, w: World, events: seq<Event>)
    requires Sound(setup, w) && OwnAnswers(setup, w, events)
    ensures Run(setup, w, events).session == ColdRun(setup, w.session, events)
    decreases |events|
  {
    hide Sound, Step, ColdStep, Own;
    if events != [] {
      StepSound(setup, w, events[0]);
      StepTransparent(setup, w, events[0]);
      OwnAnswersAreCold(setup, Step(setup, w, events[0]), events[1..]);
    }
  }

  // ---- and needed -------------------------------------------------------------------------------------------------

  /** Tools that answer with their names. */
  const EchoName: Tools := (tool: string, args: Meaning) => Outcome(tool, "", None, None)

  predicate IsPrefix<T(==)>(a: seq<T>, b: seq<T>) {
    |a| <= |b| && a == b[..|a|]
  }

  lemma StepDelivers(setup: Setup, w: World, e: Event)
    ensures IsPrefix(w.session.delivered, Step(setup, w, e).session.delivered)
    ensures IsPrefix(w.session.delivered, ColdStep(setup, w.session, e).delivered)
  {
    hide MeaningOf, Claim, Key, Bag, Queued, WatchBag, LaunchInto, EvictPart, RetireStale, Close, Delete;
  }

  lemma {:induction false} RunDelivers(setup: Setup, w: World, events: seq<Event>)
    ensures IsPrefix(w.session.delivered, Run(setup, w, events).session.delivered)
    decreases |events|
  {
    hide Step;
    if events != [] {
      StepDelivers(setup, w, events[0]);
      RunDelivers(setup, Step(setup, w, events[0]), events[1..]);
    }
  }

  lemma ColdStepDelivers(setup: Setup, s: Session, e: Event)
    ensures IsPrefix(s.delivered, ColdStep(setup, s, e).delivered)
  {
    hide MeaningOf;
  }

  lemma {:induction false} ColdRunDelivers(setup: Setup, s: Session, events: seq<Event>)
    ensures IsPrefix(s.delivered, ColdRun(setup, s, events).delivered)
    decreases |events|
  {
    hide ColdStep;
    if events != [] {
      ColdStepDelivers(setup, s, events[0]);
      ColdRunDelivers(setup, ColdStep(setup, s, events[0]), events[1..]);
    }
  }

  /** A call that settles from a launch of another tool gets that tool's name for an answer. */
  lemma ForeignAnswerShows(setup: Setup, w: World, e: Event)
    requires Sound(setup, w) && setup.tools == EchoName && !Own(w, e)
    ensures var n, warm, cold :=
              |w.session.delivered|, Step(setup, w, e).session.delivered, ColdStep(setup, w.session, e).delivered;
            |warm| == |cold| == n + 1 && warm[n] != cold[n]
  {
    ClaimedNotEvicted(w, e.call);
    hide Accounted, Numbered, Matched, Filed, MeaningOf;
  }

  /** What was delivered differently stays delivered. */
  lemma DifferenceLasts(a: seq<Delivery>, b: seq<Delivery>, warm: seq<Delivery>, cold: seq<Delivery>, n: nat)
    requires IsPrefix(a, warm) && IsPrefix(b, cold) && n < |a| && n < |b| && a[n] != b[n]
    ensures warm != cold
  {
    assert warm[n] == a[n] && cold[n] == b[n];
  }

  lemma ForeignAnswerLasts(setup: Setup, w: World, events: seq<Event>)
    requires Sound(setup, w) && setup.tools == EchoName && events != [] && !Own(w, events[0])
    ensures Run(setup, w, events).session != ColdRun(setup, w.session, events)
  {
    var warm, cold := Step(setup, w, events[0]), ColdStep(setup, w.session, events[0]);
    ForeignAnswerShows(setup, w, events[0]);
    RunDelivers(setup, warm, events[1..]);
    ColdRunDelivers(setup, cold, events[1..]);
    hide Sound, Own, Step, ColdStep;
    DifferenceLasts(warm.session.delivered, cold.delivered, Run(setup, w, events).session.delivered,
                    ColdRun(setup, w.session, events).delivered, |w.session.delivered|);
  }

  lemma {:induction false} SameMeansOwn(setup: Setup, w: World, events: seq<Event>)
    requires Sound(setup, w) && setup.tools == EchoName
    requires Run(setup, w, events).session == ColdRun(setup, w.session, events)
    ensures OwnAnswers(setup, w, events)
    decreases |events|
  {
    hide Sound, Own, Step, ColdStep;
    if events != [] {
      if Own(w, events[0]) {
        StepSound(setup, w, events[0]);
        StepTransparent(setup, w, events[0]);
        SameMeansOwn(setup, Step(setup, w, events[0]), events[1..]);
      } else {
        ForeignAnswerLasts(setup, w, events);
      }
    }
  }

  // ---- the main result --------------------------------------------------------------------------------------------

  /** With these tools the run shows what the cold run over the same events shows. */
  ghost predicate ShowsTheColdRun(setup: Setup, renames: map<string, string>, step: int, events: seq<Event>) {
    Run(setup, Initial(renames, step), events).session == ColdRun(setup, EmptySession(renames), events)
  }

  lemma InitiallySound(setup: Setup, renames: map<string, string>, step: int)
    ensures Sound(setup, Initial(renames, step)) && AllClean(setup, Initial(renames, step), [])
    ensures forall events :: AllClean(setup, Initial(renames, step), events)
    ensures Initial(renames, step).session == EmptySession(renames)
  {
    InitiallyAccounted(renames, step);
  }

  /** A run with early launches, survivors of failed attempts, claims across parts, reused ids and evictions shows
      every snippet, whatever the tools are, exactly what the cold run does, if and only if no dispatch that settles
      took a launch that ran another tool than the one its function stands for. */
  lemma SpeculationIsTransparentExactlyWhen(setup: Setup, renames: map<string, string>, step: int, events: seq<Event>)
    ensures (forall tools: Tools :: ShowsTheColdRun(setup.(tools := tools), renames, step, events)) <==>
            OwnClaims(setup, Initial(renames, step), events)
  {
    var first := Initial(renames, step);
    InitiallySound(setup, renames, step);
    BothConditions(setup, first, events);
    if OwnClaims(setup, first, events) {
      forall tools: Tools ensures ShowsTheColdRun(setup.(tools := tools), renames, step, events) {
        var other := setup.(tools := tools);
        InitiallySound(other, renames, step);
        OwnAnswersAlike(setup, tools, first, first, events);
        OwnAnswersAreCold(other, first, events);
      }
    }
    if forall tools: Tools :: ShowsTheColdRun(setup.(tools := tools), renames, step, events) {
      var echo := setup.(tools := EchoName);
      assert ShowsTheColdRun(echo, renames, step, events);
      InitiallySound(echo, renames, step);
      SameMeansOwn(echo, first, events);
      OwnAnswersAlike(setup, EchoName, first, first, events);
    }
  }

  ghost predicate SameAnswer(tools: Tools, l: Launch, part: CallPart) {
    tools(l.originalName, MeaningOf(l.kwargs)) == tools(part.toolName, MeaningOf(part.args))
  }

  /** For one claim: a launch under the same key answers as the call itself would, whatever the tools are, exactly
      when it ran the tool the call names. */
  lemma ClaimIsFaithful(p: Printable, l: Launch, name: string, part: CallPart)
    requires Key(p, l.sandboxName, l.kwargs) == Key(p, name, part.args)
    ensures (forall tools :: SameAnswer(tools, l, part)) <==> l.originalName == part.toolName
  {
    KeyIdentity(p, l.sandboxName, l.kwargs, name, part.args);
    if forall tools :: SameAnswer(tools, l, part) {
      assert SameAnswer(EchoName, l, part);
    }
  }

  // ---- a run in which it shows ------------------------------------------------------------------------------------

  function RenamingEvents(kwargs: Value): seq<Event> {
    [LaunchOne("id", Extracted("f", kwargs)), StashStep(map["f" := "new"]), StartExecution("id"),
     Dispatch(0, "f", kwargs), Begin(CallId(0, 1), true), Settle(CallId(0, 1))]
  }

  /** A call launched before a step that gives its function to another tool answers for the old tool. */
  lemma RenamingShows(p: Printable, kwargs: Value)
    ensures var setup := Setup(p, 1, 1, EchoName);
            var call := CallId(0, 1);
            && Run(setup, Initial(map["f" := "old"], 0), RenamingEvents(kwargs)).session.delivered ==
               [Delivery(call, Given("old"))]
            && ColdRun(setup, EmptySession(map["f" := "old"]), RenamingEvents(kwargs)).delivered ==
               [Delivery(call, Given("new"))]
  {
    var setup := Setup(p, 1, 1, EchoName);
    var events := RenamingEvents(kwargs);
    var w := Initial(map["f" := "old"], 0);
    SixSteps(setup, w, events);
    LaunchedThenRenamed(setup, w, kwargs);
    RenamedThenClaimed(setup, Step(setup, Step(setup, Step(setup, w, events[0]), events[1]), events[2]), kwargs);
    ColdAnswer(setup, kwargs);
    hide Step, Run, ColdRun, Initial;
  }

  lemma ColdAnswer(setup: Setup, kwargs: Value)
    requires setup.maxToolCalls == 1 && setup.tools == EchoName
    ensures ColdRun(setup, EmptySession(map["f" := "old"]), RenamingEvents(kwargs)).delivered ==
            [Delivery(CallId(0, 1), Given("new"))]
  {
    SixColdSteps(setup, EmptySession(map["f" := "old"]), RenamingEvents(kwargs));
  }

  lemma SixSteps(setup: Setup, w: World, es: seq<Event>)
    requires |es| == 6
    ensures Run(setup, w, es) ==
            var w3 := Step(setup, Step(setup, Step(setup, w, es[0]), es[1]), es[2]);
            Step(setup, Step(setup, Step(setup, w3, es[3]), es[4]), es[5])
  {
    hide Step;
    var s1 := Step(setup, w, es[0]);
    var s2 := Step(setup, s1, es[1]);
    var s3 := Step(setup, s2, es[2]);
    var s4 := Step(setup, s3, es[3]);
    var s5 := Step(setup, s4, es[4]);
    assert Run(setup, w, es) == Run(setup, s1, es[1..]);
    assert es[1..][1..] == es[2..] && Run(setup, s1, es[1..]) == Run(setup, s2, es[2..]);
    assert es[2..][1..] == es[3..] && Run(setup, s2, es[2..]) == Run(setup, s3, es[3..]);
    assert es[3..][1..] == es[4..] && Run(setup, s3, es[3..]) == Run(setup, s4, es[4..]);
    assert es[4..][1..] == es[5..] && Run(setup, s4, es[4..]) == Run(setup, s5, es[5..]);
    assert es[5..][1..] == [];
  }

  lemma SixColdSteps(setup: Setup, s: Session, es: seq<Event>)
    requires |es| == 6
    ensures ColdRun(setup, s, es) ==
            var s3 := ColdStep(setup, ColdStep(setup, ColdStep(setup, s, es[0]), es[1]), es[2]);
            ColdStep(setup, ColdStep(setup, ColdStep(setup, s3, es[3]), es[4]), es[5])
  {
    hide ColdStep;
    var s1 := ColdStep(setup, s, es[0]);
    var s2 := ColdStep(setup, s1, es[1]);
    var s3 := ColdStep(setup, s2, es[2]);
    var s4 := ColdStep(setup, s3, es[3]);
    var s5 := ColdStep(setup, s4, es[4]);
    assert ColdRun(setup, s, es) == ColdRun(setup, s1, es[1..]);
    assert es[1..][1..] == es[2..] && ColdRun(setup, s1, es[1..]) == ColdRun(setup, s2, es[2..]);
    assert es[2..][1..] == es[3..] && ColdRun(setup, s2, es[2..]) == ColdRun(setup, s3, es[3..]);
    assert es[3..][1..] == es[4..] && ColdRun(setup, s3, es[3..]) == ColdRun(setup, s4, es[4..]);
    assert es[4..][1..] == es[5..] && ColdRun(setup, s4, es[4..]) == ColdRun(setup, s5, es[5..]);
    assert es[5..][1..] == [];
  }

  function OldLaunch(kwargs: Value): Launch {
    Launch(0, "f", "old", kwargs, 0)
  }

  /** The launch waits under the old name while the session knows the new one. */
  ghost predicate Renamed(setup: Setup, w: World, kwargs: Value) {
    && w.session == Session(map["f" := "new"], [Execution("id", map["f" := "new"], 0, false, map[], map[])], map[], [])
    && w.store.parts == [("id", File(NewWatch(0), Key(setup.p, "f", kwargs), OldLaunch(kwargs)))]
    && w.claims == [] && w.evicted == multiset{}
  }

  lemma LaunchedThenRenamed(setup: Setup, w: World, kwargs: Value)
    requires w == Initial(map["f" := "old"], 0) && setup.cap == 1
    ensures var es := RenamingEvents(kwargs);
            Renamed(setup, Step(setup, Step(setup, Step(setup, w, es[0]), es[1]), es[2]), kwargs)
  {
    hide File, Key;
  }

  lemma RenamedThenClaimed(setup: Setup, w: World, kwargs: Value)
    requires Renamed(setup, w, kwargs) && setup.maxToolCalls == 1 && setup.tools == EchoName
    ensures var es := RenamingEvents(kwargs);
            Step(setup, Step(setup, Step(setup, w, es[3]), es[4]), es[5]).session.delivered ==
            [Delivery(CallId(0, 1), Given("old"))]
  {
    var es := RenamingEvents(kwargs);
    ClaimsTheOld(setup, w, kwargs);
    var claimed := Step(setup, w, es[3]);
    assert Step(setup, claimed, es[4]).claims == claimed.claims;
    assert Ready(Step(setup, claimed, es[4]).session, CallId(0, 1), true);
    hide Renamed, Dispatched, MeaningOf;
  }

  lemma ClaimsTheOld(setup: Setup, w: World, kwargs: Value)
    requires Renamed(setup, w, kwargs) && setup.maxToolCalls == 1
    ensures var claimed := Step(setup, w, RenamingEvents(kwargs)[3]);
            && claimed.claims == [(CallId(0, 1), OldLaunch(kwargs))]
            && claimed.evicted == multiset{} && claimed.session.delivered == []
            && |claimed.session.executions| == 1
            && claimed.session.pending == map[CallId(0, 1) := Pending(CallPart("new", kwargs), false)]
  {
    hide Key;
    var key := Key(setup.p, "f", kwargs);
    var watch := File(NewWatch(0), key, OldLaunch(kwargs));
    assert Queue(watch, key) == [OldLaunch(kwargs)];
    assert Claimed(w.store.parts, "id", key) == 0;
  }
}
