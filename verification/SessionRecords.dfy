/** What a snippet's session records and hands to the sandbox, said of runs and of what the tools answer: how a nested
    call settles, how it is recorded, and when the budget refuses it. */
module SessionRecords {
  import opened Options
  import opened PythonDict
  import opened CanonicalKey
  import opened SpeculationStore
  import opened SpeculativeRun
  import opened SpeculationConservation

  // ---- runs ------------------------------------------------------------------------------------------------------

  lemma {:induction false} OneMoreColdStep(setup: Setup, s: Session, events: seq<Event>, e: Event)
    ensures ColdRun(setup, s, events + [e]) == ColdStep(setup, ColdRun(setup, s, events), e)
    decreases |events|
  {
    hide ColdStep;
    if events == [] {
      assert [e][1..] == [];
    } else {
      assert (events + [e])[1..] == events[1..] + [e];
      OneMoreColdStep(setup, ColdStep(setup, s, events[0]), events[1..], e);
    }
  }

  lemma {:induction false} OneMoreStep(setup: Setup, w: World, events: seq<Event>, e: Event)
    ensures Run(setup, w, events + [e]) == Step(setup, Run(setup, w, events), e)
    decreases |events|
  {
    hide Step;
    if events == [] {
      assert [e][1..] == [];
    } else {
      assert (events + [e])[1..] == events[1..] + [e];
      OneMoreStep(setup, Step(setup, w, events[0]), events[1..], e);
    }
  }

  /** Every pending call belongs to an execution. */
  ghost predicate Placed(s: Session) {
    forall call :: call in s.pending ==> call.run < |s.executions|
  }

  lemma ColdStepPlaced(setup: Setup, s: Session, e: Event)
    requires Placed(s)
    ensures Placed(ColdStep(setup, s, e)) && |s.executions| <= |ColdStep(setup, s, e).executions|
  {
    hide MeaningOf;
  }

  lemma {:induction false} ColdRunPlaced(setup: Setup, s: Session, events: seq<Event>)
    requires Placed(s)
    ensures Placed(ColdRun(setup, s, events))
    decreases |events|
  {
    hide Placed, ColdStep;
    if events != [] {
      ColdStepPlaced(setup, s, events[0]);
      ColdRunPlaced(setup, ColdStep(setup, s, events[0]), events[1..]);
    }
  }

  // ---- how a call settles ------------------------------------------------------------------------------------------

  /** Only execution `run` may differ, and it only as `part` says. */
  ghost predicate OthersSame(s: Session, s': Session, run: nat) {
    && s'.renames == s.renames && |s'.executions| == |s.executions|
    && forall i :: 0 <= i < |s.executions| && i != run ==> s'.executions[i] == s.executions[i]
  }

  /** The return recorded under `n`: the value with its metadata; the message of a denial, marked as one; and nothing
      new for any other error. */
  ghost predicate RecordsReturn(before: Execution, after: Execution, n: nat, part: CallPart, o: Outcome) {
    && after.(nestedReturns := before.nestedReturns) == before
    && after.nestedReturns - {n} == before.nestedReturns - {n}
    && (o.error.None? ==>
          n in after.nestedReturns &&
          after.nestedReturns[n] == ReturnPart(part.toolName, o.content, o.metadata, false))
    && (o.error.Some? && o.denied.Some? ==>
          n in after.nestedReturns &&
          after.nestedReturns[n] == ReturnPart(part.toolName, o.denied.value, "", true))
    && (o.error.Some? && o.denied.None? ==> after.nestedReturns == before.nestedReturns)
  }

  /** The sandbox gets one more delivery, for `call`: the error if there is one, and else the content. */
  ghost predicate Delivers(s: Session, s': Session, call: CallId, o: Outcome) {
    && |s'.delivered| == |s.delivered| + 1 && s'.delivered[..|s.delivered|] == s.delivered
    && var last := s'.delivered[|s.delivered|];
    && last.call == call
    && (forall e :: last.payload == Failed(e) <==> o.error == Some(e))
    && (last.payload == Given(o.content) <==> o.error.None?)
  }

  ghost predicate SettlesAs(s: Session, s': Session, call: CallId, o: Outcome)
    requires call in s.pending && call.run < |s.executions|
  {
    && OthersSame(s, s', call.run)
    && RecordsReturn(s.executions[call.run], s'.executions[call.run], call.n, s.pending[call].part, o)
    && Delivers(s, s', call, o)
    && s'.pending == s.pending - {call}
  }

  lemma FinishSettles(s: Session, call: CallId, o: Outcome)
    requires Ready(s, call, true)
    ensures SettlesAs(s, Finish(s, call, o), call, o)
  {
    var s' := Finish(s, call, o);
    var before, after := s.executions[call.run], s'.executions[call.run];
    assert after.nestedReturns - {call.n} == before.nestedReturns - {call.n};
  }

  /** In every cold run: when a begun call settles, the sandbox and the history get what the tool answers to the call's
      own arguments; an event that settles nothing changes nothing. */
  lemma SettledCallsAreRecorded(setup: Setup, renames: map<string, string>, events: seq<Event>, call: CallId)
    ensures var s := ColdRun(setup, EmptySession(renames), events);
            var s' := ColdRun(setup, EmptySession(renames), events + [Settle(call)]);
            && Placed(s)
            && if call in s.pending && s.pending[call].begun then
                 var part := s.pending[call].part;
                 SettlesAs(s, s', call, setup.tools(part.toolName, MeaningOf(part.args)))
               else s' == s
  {
    var s := ColdRun(setup, EmptySession(renames), events);
    OneMoreColdStep(setup, EmptySession(renames), events, Settle(call));
    ColdRunPlaced(setup, EmptySession(renames), events);
    if Ready(s, call, true) {
      FinishSettles(s, call, setup.tools(s.pending[call].part.toolName, MeaningOf(s.pending[call].part.args)));
    }
    hide ColdRun, Finish, SettlesAs, MeaningOf;
  }

  /** In every run with early launches: a call that claimed a launch gets what the launched tool answers to the launched
      arguments, any other what its own tool answers. */
  lemma ClaimedCallsAreRecorded(
    setup: Setup, renames: map<string, string>, step: int, events: seq<Event>, call: CallId)
    requires Ready(Run(setup, Initial(renames, step), events).session, call, true)
    ensures var w := Run(setup, Initial(renames, step), events);
            var w' := Run(setup, Initial(renames, step), events + [Settle(call)]);
            var part, l := w.session.pending[call].part, Get(w.claims, call, NoLaunch);
            SettlesAs(w.session, w'.session, call,
              if Has(w.claims, call) then setup.tools(l.originalName, MeaningOf(l.kwargs))
              else setup.tools(part.toolName, MeaningOf(part.args)))
  {
    var w := Run(setup, Initial(renames, step), events);
    OneMoreStep(setup, Initial(renames, step), events, Settle(call));
    InitiallyAccounted(renames, step);
    RunAccounts(setup, Initial(renames, step), events);
    var part, l := w.session.pending[call].part, Get(w.claims, call, NoLaunch);
    if Has(w.claims, call) {
      ClaimedNotEvicted(w, call);
      FinishSettles(w.session, call, setup.tools(l.originalName, MeaningOf(l.kwargs)));
    } else {
      FinishSettles(w.session, call, setup.tools(part.toolName, MeaningOf(part.args)));
    }
    hide Run, Finish, SettlesAs, MeaningOf, Accounted, Initial;
  }

  /** In every cold run: a call whose coroutine starts is recorded as dispatched, under its own number, once. */
  lemma BegunCallsAreRecorded(
    setup: Setup, renames: map<string, string>, events: seq<Event>, call: CallId, eligible: bool)
    ensures var s := ColdRun(setup, EmptySession(renames), events);
            var s' := ColdRun(setup, EmptySession(renames), events + [Begin(call, eligible)]);
            && Placed(s)
            && if call in s.pending && !s.pending[call].begun then
                 var part, before := s.pending[call].part, s.executions[call.run];
                 && OthersSame(s, s', call.run) && s'.delivered == s.delivered
                 && s'.executions[call.run] == before.(nestedCalls := before.nestedCalls[call.n := part])
                 && s'.pending == s.pending[call := Pending(part, true)]
               else s' == s
  {
    OneMoreColdStep(setup, EmptySession(renames), events, Begin(call, eligible));
    ColdRunPlaced(setup, EmptySession(renames), events);
    hide ColdRun;
  }

  // ---- the budget, counted over the events -------------------------------------------------------------------------

  function Init(events: seq<Event>): seq<Event>
    requires events != []
  {
    events[..|events| - 1]
  }

  function Last(events: seq<Event>): Event
    requires events != []
  {
    events[|events| - 1]
  }

  /** How many executions were started. */
  function StartedBy(events: seq<Event>): nat {
    if events == [] then 0 else StartedBy(Init(events)) + if Last(events).StartExecution? then 1 else 0
  }

  /** How many calls the snippet of execution `run` has asked for. */
  function Asked(events: seq<Event>, run: nat): nat {
    if events == [] then 0
    else
      Asked(Init(events), run)
      + if Last(events).Dispatch? && Last(events).run == run && run < StartedBy(Init(events)) then 1 else 0
  }

  /** The map of tool names of the current step. */
  function ToolsNow(renames: map<string, string>, events: seq<Event>): map<string, string> {
    if events == [] then renames
    else if Last(events).StashStep? then Last(events).renames
    else ToolsNow(renames, Init(events))
  }

  /** The map of tool names that was current when execution `run` was last fed. */
  function ToolsFed(renames: map<string, string>, events: seq<Event>, run: nat): map<string, string> {
    if events == [] then map[]
    else if Last(events) == Feed(run) || (Last(events).StartExecution? && StartedBy(Init(events)) == run) then
      ToolsNow(renames, Init(events))
    else ToolsFed(renames, Init(events), run)
  }

  function Min(a: nat, b: nat): nat {
    if a < b then a else b
  }

  ghost predicate CountsOne(
    setup: Setup, s: Session, renames: map<string, string>, events: seq<Event>, run: nat)
  {
    if run < |s.executions| then
      && s.executions[run].callCount == Min(Asked(events, run), setup.maxToolCalls)
      && (s.executions[run].budgetExhausted <==> Asked(events, run) > setup.maxToolCalls)
      && s.executions[run].renames == ToolsFed(renames, events, run)
    else Asked(events, run) == 0
  }

  ghost predicate Counts(setup: Setup, s: Session, renames: map<string, string>, events: seq<Event>) {
    && |s.executions| == StartedBy(events) && s.renames == ToolsNow(renames, events)
    && forall run: nat :: CountsOne(setup, s, renames, events, run)
  }

  lemma OneMoreEvent(renames: map<string, string>, events: seq<Event>, e: Event, run: nat)
    ensures StartedBy(events + [e]) == StartedBy(events) + if e.StartExecution? then 1 else 0
    ensures Asked(events + [e], run) ==
            Asked(events, run) + if e.Dispatch? && e.run == run && run < StartedBy(events) then 1 else 0
    ensures ToolsNow(renames, events + [e]) == if e.StashStep? then e.renames else ToolsNow(renames, events)
    ensures ToolsFed(renames, events + [e], run) ==
            if e == Feed(run) || (e.StartExecution? && StartedBy(events) == run) then ToolsNow(renames, events)
            else ToolsFed(renames, events, run)
  {
    assert Init(events + [e]) == events && Last(events + [e]) == e;
  }

  lemma StepCountsOne(
    setup: Setup, s: Session, renames: map<string, string>, events: seq<Event>, e: Event, run: nat)
    requires Counts(setup, s, renames, events)
    ensures CountsOne(setup, ColdStep(setup, s, e), renames, events + [e], run)
  {
    hide MeaningOf, Asked, ToolsFed, ToolsNow, StartedBy;
    OneMoreEvent(renames, events, e, run);
    assert CountsOne(setup, s, renames, events, run);
    hide Counts;
    match e
    case Dispatch(_, _, _) =>
    case _ => hide Reserve;
  }

  lemma StepCounts(setup: Setup, s: Session, renames: map<string, string>, events: seq<Event>, e: Event)
    requires Counts(setup, s, renames, events)
    ensures Counts(setup, ColdStep(setup, s, e), renames, events + [e])
  {
    assert Init(events + [e]) == events && Last(events + [e]) == e;
    forall run: nat ensures CountsOne(setup, ColdStep(setup, s, e), renames, events + [e], run) {
      StepCountsOne(setup, s, renames, events, e, run);
    }
    hide MeaningOf, CountsOne;
  }

  /** In every cold run: what each execution has been granted, whether it overdrew, and the tools it was last fed with,
      counted over the events alone. */
  lemma {:induction false} EveryCallIsCounted(setup: Setup, renames: map<string, string>, events: seq<Event>)
    ensures Counts(setup, ColdRun(setup, EmptySession(renames), events), renames, events)
    decreases |events|
  {
    if events != [] {
      EveryCallIsCounted(setup, renames, Init(events));
      StepCounts(setup, ColdRun(setup, EmptySession(renames), Init(events)), renames, Init(events), Last(events));
      OneMoreColdStep(setup, EmptySession(renames), Init(events), Last(events));
      assert Init(events) + [Last(events)] == events;
    }
    hide Counts, ColdStep;
  }

  /** In every cold run: a call is refused exactly when its snippet asked for as many calls before as the budget allows.
      Otherwise it is pending under the next number, with the tool its name stood for when the snippet was last fed. */
  lemma RefusedExactlyBeyondBudget(
    setup: Setup, renames: map<string, string>, events: seq<Event>, run: nat, name: string, kwargs: Value)
    ensures var s := ColdRun(setup, EmptySession(renames), events);
            var s' := ColdRun(setup, EmptySession(renames), events + [Dispatch(run, name, kwargs)]);
            var asked, tools := Asked(events, run), ToolsFed(renames, events, run);
            && |s.executions| == StartedBy(events)
            && if run >= StartedBy(events) then s' == s
               else if asked >= setup.maxToolCalls then
                 && OthersSame(s, s', run)
                 && s'.delivered == s.delivered + [Delivery(CallId(run, setup.maxToolCalls + 1), Refused)]
                 && s'.pending == s.pending && s'.executions[run] == s.executions[run].(budgetExhausted := true)
               else
                 var part := CallPart(if name in tools then tools[name] else name, kwargs);
                 && OthersSame(s, s', run)
                 && s'.pending == s.pending[CallId(run, asked + 1) := Pending(part, false)]
                 && s'.delivered == s.delivered && s'.executions[run] == s.executions[run].(callCount := asked + 1)
  {
    hide ColdRun, Asked, ToolsFed, StartedBy, ToolsNow;
    OneMoreColdStep(setup, EmptySession(renames), events, Dispatch(run, name, kwargs));
    EveryCallIsCounted(setup, renames, events);
    var s := ColdRun(setup, EmptySession(renames), events);
    assert CountsOne(setup, s, renames, events, run);
    assert |s.executions| == StartedBy(events);
    hide Counts;
    assert ColdStep(setup, s, Dispatch(run, name, kwargs)) == Reserve(setup, s, run, name, kwargs);
    hide ColdStep;
  }
}
