/** A claimed launch is never older than the model step before the last one the stream has shown. */
module SpeculationStaleness {
  import opened Options
  import opened PythonDict
  import opened PythonRepr
  import opened CanonicalKey
  import opened SpeculationStore
  import opened SpeculativeRun
  import opened SpeculationConservation

  /** A watch survives one retry step, and its launches are no older than it is. */
  ghost predicate TimelyWatch(observed: int, step: int, watch: Watch) {
    && observed - 1 <= watch.runStep <= step
    && forall l :: l in WatchBag(watch) ==> watch.runStep <= l.step <= step
  }

  ghost predicate TimelyParts(observed: int, step: int, parts: Dict<string, Watch>) {
    forall part :: part in parts ==> TimelyWatch(observed, step, part.1)
  }

  ghost predicate Timely(w: World) {
    w.observed <= w.step && TimelyParts(w.observed, w.step, w.store.parts)
  }

  lemma FromParts(parts: Dict<string, Watch>, id: string, default: Watch)
    ensures Has(parts, id) ==> exists part :: part in parts && part.1 == Get(parts, id, default)
  {
    if Has(parts, id) {
      var part := parts[Find(parts, id)];
      assert part in parts;
    }
  }

  lemma PutTimely(observed: int, step: int, parts: Dict<string, Watch>, id: string, watch: Watch)
    requires TimelyParts(observed, step, parts) && TimelyWatch(observed, step, watch)
    ensures TimelyParts(observed, step, Put(parts, id, watch))
  {
  }

  lemma DeleteTimely(observed: int, step: int, parts: Dict<string, Watch>, id: string)
    requires TimelyParts(observed, step, parts)
    ensures TimelyParts(observed, step, Delete(parts, id))
  {
  }

  lemma GetTimely(observed: int, step: int, parts: Dict<string, Watch>, id: string)
    requires observed <= step && TimelyParts(observed, step, parts)
    ensures TimelyWatch(observed, step, Get(parts, id, NewWatch(step)))
  {
    EmptyWatch(step, "");
    FromParts(parts, id, NewWatch(step));
    hide WatchBag;
  }

  lemma ClaimTimely(observed: int, step: int, parts: Dict<string, Watch>, parent: string, key: string)
    requires TimelyParts(observed, step, parts)
    ensures TimelyParts(observed, step, Claim(parts, parent, key).1)
    ensures Claim(parts, parent, key).0.Some? ==> observed - 1 <= Claim(parts, parent, key).0.value.step
  {
    var i := Claimed(parts, parent, key);
    if i < |parts| {
      var part := parts[i];
      assert part in parts;
      Popping(part.1, key, key);
      hide WatchBag, PopFront, Queue, Claimed;
      assert TimelyWatch(observed, step, PopFront(part.1, key)) by {
        SamePart(part.1, key);
      }
    }
  }

  lemma SamePart(watch: Watch, key: string)
    requires Queue(watch, key) != []
    ensures PopFront(watch, key).runStep == watch.runStep
  {
  }

  lemma ObservedTimely(w: World)
    requires Timely(w)
    ensures Timely(Observed(w)) && Observed(w).observed == w.step
  {
    RetiredParts(w.store.parts, w.step);
    hide WatchBag, Queued, WaitingAll;
  }

  lemma LaunchTimely(setup: Setup, w: World, id: string, call: Extracted)
    requires Timely(w)
    ensures Timely(LaunchBelowCap(setup, w, id, call))
  {
    var c := ContextOf(setup, w);
    var l := NewLaunch(c, w.store, call);
    var watch := WatchOf(c, w.store, id);
    GetTimely(w.observed, w.step, w.store.parts, id);
    Filing(watch, KeyOf(c.p, call), l, "");
    PutTimely(w.observed, w.step, w.store.parts, id, File(watch, KeyOf(c.p, call), l)) by {
      FiledStep(watch, KeyOf(c.p, call), l);
      hide WatchBag, File, KeyOf;
    }
  }

  lemma FiledStep(watch: Watch, key: string, l: Launch)
    ensures File(watch, key, l).runStep == watch.runStep
  {
  }

  lemma NoteTimely(w: World, id: string, note: Watch -> Watch)
    requires Timely(w) && (note == NoteHit || note == NoteMiss)
    ensures Timely(Noted(w, id, note))
  {
    var watch := Get(w.store.parts, id, NewWatch(w.step));
    GetTimely(w.observed, w.step, w.store.parts, id);
    assert WatchBag(note(watch)) == WatchBag(watch);
    PutTimely(w.observed, w.step, w.store.parts, id, note(watch)) by {
      hide WatchBag;
    }
  }

  lemma RekeyTimely(w: World, id: string, newId: string)
    requires Timely(w)
    ensures Timely(Rekeyed(w, id, newId))
  {
    hide WatchBag, TimelyWatch;
    if Has(w.store.parts, id) {
      FromParts(w.store.parts, id, NewWatch(0));
      DeleteTimely(w.observed, w.step, w.store.parts, id);
      PutTimely(w.observed, w.step, Delete(w.store.parts, id), newId, Get(w.store.parts, id, NewWatch(0)));
    }
  }

  lemma StartTimely(w: World, id: string)
    requires Timely(w)
    ensures Timely(Replace(Observed(w), id, NewWatch(w.step)))
  {
    ObservedTimely(w);
    EmptyWatch(w.step, "");
    hide WatchBag;
    PutTimely(w.step, w.step, Observed(w).store.parts, id, NewWatch(w.step));
  }

  lemma StepTimely(setup: Setup, w: World, e: Event)
    requires Timely(w)
    ensures Timely(Step(setup, w, e))
  {
    hide WatchBag, Queued, Noted, Observed, Replace, Rekeyed, LaunchBelowCap, Finish, Record, Reserve, MeaningOf, Claim;
    hide Close, EvictPart, RetireStale, LaunchInto, Delete, ColdStep;
    match e
    case NextStep =>
    case Observe => ObservedTimely(w);
    case PartStart(id) => StartTimely(w, id);
    case Rekey(id, newId) => RekeyTimely(w, id, newId);
    case LaunchOne(id, extracted) => LaunchTimely(setup, w, id, extracted);
    case Dispatch(run, name, kwargs) =>
      if HasBudget(setup, w.session, run) {
        ClaimTimely(w.observed, w.step, w.store.parts, w.session.executions[run].parent, Key(setup.p, name, kwargs));
      }
    case Begin(call, eligible) => BegunTimely(w, call, eligible);
    case Settle(call) => SettledTimely(setup, w, call);
    case Complete(run) => CompletedTimely(w, run);
    case CloseStore => ClosedTimely(w);
    case _ =>
  }

  lemma BegunTimely(w: World, call: CallId, eligible: bool)
    requires Timely(w)
    ensures Timely(Begun(w, call, eligible))
  {
    hide TimelyParts, Noted, Record;
    if Ready(w.session, call, false) && !Has(w.claims, call) {
      NoteTimely(w.(session := Record(w.session, call)), ParentOf(w.session, call), NoteMiss);
    }
  }

  lemma SettledTimely(setup: Setup, w: World, call: CallId)
    requires Timely(w)
    ensures Timely(Settled(setup, w, call))
  {
    hide TimelyParts, Noted, Finish, MeaningOf;
    if Ready(w.session, call, true) {
      NoteTimely(w, ParentOf(w.session, call), NoteHit);
      NoteKeepsClock(w, ParentOf(w.session, call), NoteHit);
    }
  }

  lemma NoteKeepsClock(w: World, id: string, note: Watch -> Watch)
    ensures Noted(w, id, note).step == w.step && Noted(w, id, note).observed == w.observed
  {
  }

  lemma CompletedTimely(w: World, run: nat)
    requires Timely(w)
    ensures Timely(Completed(w, run))
  {
    if run < |w.session.executions| {
      DeleteTimely(w.observed, w.step, w.store.parts, w.session.executions[run].parent);
    }
  }

  lemma ClosedTimely(w: World)
    requires Timely(w)
    ensures Timely(w.(store := Close(w.store), evicted := w.evicted + Queued(w.store.parts)))
  {
  }

  lemma {:induction false} RunTimely(setup: Setup, w: World, events: seq<Event>)
    requires Timely(w)
    ensures Timely(Run(setup, w, events))
    decreases |events|
  {
    hide Timely, Step;
    if events != [] {
      StepTimely(setup, w, events[0]);
      RunTimely(setup, Step(setup, w, events[0]), events[1..]);
    }
  }

  /** What the dispatch claims, if anything, was launched in step `earliest` or later. */
  ghost predicate FreshFrom(setup: Setup, w: World, run: nat, name: string, kwargs: Value, earliest: int) {
    var after := Step(setup, w, Dispatch(run, name, kwargs));
    |after.claims| > |w.claims| ==> after.claims[|w.claims|].1.step >= earliest
  }

  /** Whatever a dispatch claims after any run, its launch was made in the last observed model step or the one
      before, or later. Reused ids do not matter here. */
  lemma NothingStaleIsClaimed(
    setup: Setup, renames: map<string, string>, step: int, events: seq<Event>, run: nat, name: string, kwargs: Value)
    ensures var w := Run(setup, Initial(renames, step), events);
            w.observed <= w.step && FreshFrom(setup, w, run, name, kwargs, w.observed - 1)
  {
    assert Timely(Initial(renames, step));
    RunTimely(setup, Initial(renames, step), events);
    hide Run, Initial, Timely, FreshFrom;
    TimelyIsFresh(setup, Run(setup, Initial(renames, step), events), run, name, kwargs);
  }

  lemma TimelyIsFresh(setup: Setup, w: World, run: nat, name: string, kwargs: Value)
    requires Timely(w)
    ensures w.observed <= w.step && FreshFrom(setup, w, run, name, kwargs, w.observed - 1)
  {
    hide TimelyParts, Claim, Reserve, Key;
    if HasBudget(setup, w.session, run) {
      ClaimTimely(w.observed, w.step, w.store.parts, w.session.executions[run].parent, Key(setup.p, name, kwargs));
    }
  }

  // ---- steps the stream does not show -----------------------------------------------------------------------------

  /** A launch made in step 0 and observed in step 1; then steps without a stream event. */
  function Unseen(gap: nat): seq<Event> {
    if gap == 0 then [] else [NextStep] + Unseen(gap - 1)
  }

  function QuietRun(kwargs: Value, gap: nat): seq<Event> {
    [PartStart("id"), LaunchOne("id", Extracted("f", kwargs)), NextStep, Observe, StartExecution("id")] + Unseen(gap)
  }

  lemma {:induction false} UnseenSteps(setup: Setup, w: World, gap: nat)
    ensures Run(setup, w, Unseen(gap)) == w.(step := w.step + gap)
    decreases gap
  {
    if gap > 0 {
      assert Unseen(gap)[1..] == Unseen(gap - 1);
      UnseenSteps(setup, w.(step := w.step + 1), gap - 1);
    }
  }

  lemma {:induction false} RunConcat(setup: Setup, w: World, a: seq<Event>, b: seq<Event>)
    ensures Run(setup, w, a + b) == Run(setup, Run(setup, w, a), b)
    decreases |a|
  {
    hide Step;
    if a == [] {
      assert a + b == b;
    } else {
      assert (a + b)[1..] == a[1..] + b;
      RunConcat(setup, Step(setup, w, a[0]), a[1..], b);
    }
  }

  function FirstLaunch(kwargs: Value): Launch {
    Launch(0, "f", "f", kwargs, 0)
  }

  /** A launch of step 0 waits in a part the last observed step still keeps. */
  ghost predicate OldWaits(setup: Setup, w: World, kwargs: Value, step: int) {
    && w.step == step && w.observed == 1 && w.claims == []
    && w.session == Session(map[], [Execution("id", map[], 0, false, map[], map[])], map[], [])
    && w.store.parts == [("id", File(NewWatch(0), Key(setup.p, "f", kwargs), FirstLaunch(kwargs)))]
  }

  lemma LaunchedInStepZero(setup: Setup, kwargs: Value)
    requires setup.cap > 0
    ensures var w := Step(setup, Step(setup, Initial(map[], 0), PartStart("id")),
        LaunchOne("id", Extracted("f", kwargs)));
            && w.step == 0 && w.observed == 0 && w.claims == [] && w.session == EmptySession(map[])
            && w.store.parts == [("id", File(NewWatch(0), Key(setup.p, "f", kwargs), FirstLaunch(kwargs)))]
  {
    hide Key, File, WatchBag, Bag;
    var w := Step(setup, Initial(map[], 0), PartStart("id"));
    assert w.store.parts == [("id", NewWatch(0))];
  }

  lemma ObservedInStepOne(setup: Setup, w: World, kwargs: Value)
    requires w.step == 0 && w.observed == 0 && w.claims == [] && w.session == EmptySession(map[])
    requires w.store.parts == [("id", File(NewWatch(0), Key(setup.p, "f", kwargs), FirstLaunch(kwargs)))]
    ensures OldWaits(setup, Step(setup, Step(setup, Step(setup, w, NextStep), Observe), StartExecution("id")),
        kwargs, 1)
  {
    hide Key, Queued, WaitingAll;
    var part := w.store.parts[0];
    assert part.1.runStep == 0 && w.store.parts[1..] == [];
    assert Fresh(w.store.parts, 1) == [part] + Fresh([], 1) == w.store.parts;
  }

  lemma QuietRunLeadsThere(setup: Setup, kwargs: Value, gap: nat)
    requires setup.cap > 0
    ensures OldWaits(setup, Run(setup, Initial(map[], 0), QuietRun(kwargs, gap)), kwargs, 1 + gap)
  {
    var e0, e1 := PartStart("id"), LaunchOne("id", Extracted("f", kwargs));
    var launched := Step(setup, Step(setup, Initial(map[], 0), e0), e1);
    LaunchedInStepZero(setup, kwargs);
    ObservedInStepOne(setup, launched, kwargs);
    var started := Step(setup, Step(setup, Step(setup, launched, NextStep), Observe), StartExecution("id"));
    UnseenSteps(setup, started, gap);
    hide Step;
    var events := [e0, e1, NextStep, Observe, StartExecution("id")];
    assert events == [e0] + ([e1] + ([NextStep] + ([Observe] + [StartExecution("id")])));
    RunConcat(setup, Initial(map[], 0), events, Unseen(gap));
    FiveSteps(setup, Initial(map[], 0), e0, e1, NextStep, Observe, StartExecution("id"));
  }

  lemma FiveSteps(setup: Setup, w: World, e0: Event, e1: Event, e2: Event, e3: Event, e4: Event)
    ensures Run(setup, w, [e0, e1, e2, e3, e4]) ==
            Step(setup, Step(setup, Step(setup, Step(setup, Step(setup, w, e0), e1), e2), e3), e4)
  {
    hide Step;
    var w1 := Step(setup, w, e0);
    var w2 := Step(setup, w1, e1);
    var w3 := Step(setup, w2, e2);
    var w4 := Step(setup, w3, e3);
    assert Run(setup, w4, [e4]) == Step(setup, w4, e4) by {
      assert [e4][1..] == [];
    }
    assert [e3, e4][1..] == [e4] && Run(setup, w3, [e3, e4]) == Run(setup, w4, [e4]);
    assert [e2, e3, e4][1..] == [e3, e4] && Run(setup, w2, [e2, e3, e4]) == Run(setup, w3, [e3, e4]);
    assert [e1, e2, e3, e4][1..] == [e2, e3, e4] && Run(setup, w1, [e1, e2, e3, e4]) == Run(setup, w2, [e2, e3, e4]);
    assert [e0, e1, e2, e3, e4][1..] == [e1, e2, e3, e4];
  }

  /** There the dispatch takes the launch of step 0. */
  lemma OldIsTaken(setup: Setup, w: World, kwargs: Value, step: int)
    requires OldWaits(setup, w, kwargs, step) && setup.maxToolCalls > 0
    ensures !FreshFrom(setup, w, 0, "f", kwargs, 1)
  {
    hide Key;
    var key := Key(setup.p, "f", kwargs);
    var watch := File(NewWatch(0), key, FirstLaunch(kwargs));
    assert Queue(watch, key) == [FirstLaunch(kwargs)];
    assert Claimed(w.store.parts, "id", key) == 0;
  }

  /** After any run in which the stream last showed a step `gap` steps ago, a claim is no older than the step
      before the current one. */
  ghost predicate FreshAfter(setup: Setup, gap: nat) {
    forall renames: map<string, string>, step: int, events: seq<Event>, run: nat, name: string, kwargs: Value ::
      FreshAfterRun(setup, gap, renames, step, events, run, name, kwargs)
  }

  ghost predicate FreshAfterRun(
    setup: Setup, gap: nat, renames: map<string, string>, step: int, events: seq<Event>,
    run: nat, name: string, kwargs: Value)
  {
    var w := Run(setup, Initial(renames, step), events);
    w.step == w.observed + gap ==> FreshFrom(setup, w, run, name, kwargs, w.step - 1)
  }

  /** That holds exactly when the stream has shown the current step: each step without a stream event lets a claim
      be one step older. */
  lemma FreshExactlyWhenObserved(setup: Setup, gap: nat, kwargs: Value)
    requires setup.cap > 0 && setup.maxToolCalls > 0
    ensures FreshAfter(setup, gap) <==> gap == 0
  {
    hide FreshAfterRun;
    if gap == 0 {
      forall renames: map<string, string>, step: int, events: seq<Event>, run: nat, name: string, args: Value
        ensures FreshAfterRun(setup, gap, renames, step, events, run, name, args)
      {
        FreshWhenObserved(setup, renames, step, events, run, name, args);
      }
    } else {
      OldAfterQuietRun(setup, gap, kwargs);
    }
  }

  lemma FreshWhenObserved(
    setup: Setup, renames: map<string, string>, step: int, events: seq<Event>, run: nat, name: string, kwargs: Value)
    ensures FreshAfterRun(setup, 0, renames, step, events, run, name, kwargs)
  {
    hide Run, Initial, FreshFrom;
    NothingStaleIsClaimed(setup, renames, step, events, run, name, kwargs);
  }

  lemma OldAfterQuietRun(setup: Setup, gap: nat, kwargs: Value)
    requires setup.cap > 0 && setup.maxToolCalls > 0 && gap > 0
    ensures !FreshAfterRun(setup, gap, map[], 0, QuietRun(kwargs, gap), 0, "f", kwargs)
  {
    hide Initial, OldWaits, FreshFrom, Run, QuietRun;
    var w := Run(setup, Initial(map[], 0), QuietRun(kwargs, gap));
    QuietRunLeadsThere(setup, kwargs, gap);
    OldIsTaken(setup, w, kwargs, 1 + gap);
    GapOf(setup, w, kwargs, gap);
    OlderIsNotFresh(setup, w, kwargs, w.step - 1);
  }

  lemma OlderIsNotFresh(setup: Setup, w: World, kwargs: Value, earliest: int)
    requires !FreshFrom(setup, w, 0, "f", kwargs, 1) && earliest >= 1
    ensures !FreshFrom(setup, w, 0, "f", kwargs, earliest)
  {
    hide Step;
  }

  lemma GapOf(setup: Setup, w: World, kwargs: Value, gap: nat)
    requires OldWaits(setup, w, kwargs, 1 + gap)
    ensures w.step == w.observed + gap == gap + 1
  {
  }
}
