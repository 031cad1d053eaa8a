/** What single events of a run with early launches do to the store: which launch is started, filed, claimed or moved.
    */
module SpeculationEvents {
  import opened Options
  import opened PythonDict
  import opened PythonRepr
  import opened CanonicalKey
  import opened SpeculationStore
  import opened SpeculativeRun
  import opened SpeculationConservation
  import opened SpeculationTransparency
  import opened SessionRecords

  lemma {:induction false} RunSound(setup: Setup, w: World, events: seq<Event>)
    requires Sound(setup, w)
    ensures Sound(setup, Run(setup, w, events))
    decreases |events|
  {
    hide Sound, Step;
    if events != [] {
      StepSound(setup, w, events[0]);
      RunSound(setup, Step(setup, w, events[0]), events[1..]);
    }
  }

  lemma ReachedIsSound(setup: Setup, renames: map<string, string>, step: int, events: seq<Event>)
    ensures Sound(setup, Run(setup, Initial(renames, step), events))
  {
    InitiallyAccounted(renames, step);
    RunSound(setup, Initial(renames, step), events);
  }

  /** The launch is of that function, with arguments that mean the same. */
  ghost predicate SameCall(l: Launch, name: string, kwargs: Value) {
    l.sandboxName == name && MeaningOf(l.kwargs) == MeaningOf(kwargs)
  }

  /** The oldest waiting launch is taken off the store for this call. */
  ghost predicate Takes(w: World, w': World, call: CallId, l: Launch) {
    && l in Queued(w.store.parts) && Queued(w'.store.parts) == Queued(w.store.parts) - multiset{l}
    && w'.claims == w.claims + [(call, l)]
  }

  /** A dispatch within its budget claims a launch of the same call exactly when one waits in any part, and nothing
      else of the store changes. */
  ghost predicate ClaimsWhatWaits(setup: Setup, w: World, w': World, run: nat, name: string, kwargs: Value) {
    && w'.launches == w.launches && w'.evicted == w.evicted && w'.adopted == w.adopted && w'.leaked == w.leaked
    && if && run < |w.session.executions| && w.session.executions[run].callCount < setup.maxToolCalls
          && InFlight(w.store.parts, Key(setup.p, name, kwargs)) > 0
       then exists l :: SameCall(l, name, kwargs)
              && Takes(w, w', CallId(run, w.session.executions[run].callCount + 1), l)
       else w'.store == w.store && w'.claims == w.claims
  }

  lemma ClaimedIsSame(setup: Setup, w: World, run: nat, name: string, kwargs: Value)
    requires Sound(setup, w)
    ensures ClaimsWhatWaits(setup, w, Dispatched(setup, w, run, name, kwargs), run, name, kwargs)
  {
    hide Key, Claim, Queued, Filed, InFlight, Reserve, MeaningOf;
    if HasBudget(setup, w.session, run) {
      var key, parent := Key(setup.p, name, kwargs), w.session.executions[run].parent;
      Claiming(w.store.parts, parent, key, key);
      ClaimFiled(setup.p, w.store.parts, parent, key);
      var l := Claim(w.store.parts, parent, key).0;
      if l.Some? {
        KeyIdentity(setup.p, l.value.sandboxName, l.value.kwargs, name, kwargs);
        var w' := Dispatched(setup, w, run, name, kwargs);
        assert SameCall(l.value, name, kwargs);
        assert Takes(w, w', CallId(run, w.session.executions[run].callCount + 1), l.value);
      }
    }
  }

  /** In every run a dispatch does just that. */
  lemma DispatchClaimsWhatWaits(
    setup: Setup, renames: map<string, string>, step: int, events: seq<Event>, run: nat, name: string, kwargs: Value)
    ensures ClaimsWhatWaits(setup, Run(setup, Initial(renames, step), events),
              Run(setup, Initial(renames, step), events + [Dispatch(run, name, kwargs)]), run, name, kwargs)
  {
    OneMoreStep(setup, Initial(renames, step), events, Dispatch(run, name, kwargs));
    ReachedIsSound(setup, renames, step, events);
    hide Run, Initial, ClaimsWhatWaits, Dispatched, Sound;
    ClaimedIsSame(setup, Run(setup, Initial(renames, step), events), run, name, kwargs);
  }

  /** In every run: an early launch is started exactly when its part is below the cap. It is numbered in the order of
      launches, runs the tool its function stands for in the current step, and waits under the key of its call. */
  lemma LaunchesBelowTheCap(
    setup: Setup, renames: map<string, string>, step: int, events: seq<Event>, id: string, call: Extracted, key: string)
    ensures var w := Run(setup, Initial(renames, step), events);
            var w' := Run(setup, Initial(renames, step), events + [LaunchOne(id, call)]);
            var tools := w.session.renames;
            var l := Launch(|w.launches|, call.name, if call.name in tools then tools[call.name] else call.name,
                            call.kwargs, w.step);
            if Get(w.store.parts, id, NewWatch(0)).launched >= setup.cap then w' == w
            else
              && w'.launches == w.launches + [l] && Queued(w'.store.parts) == Queued(w.store.parts) + multiset{l}
              && InFlight(w'.store.parts, key) ==
                 InFlight(w.store.parts, key) + (if key == Key(setup.p, call.name, call.kwargs) then 1 else 0)
              && w'.session == w.session && w'.claims == w.claims && w'.evicted == w.evicted
              && w'.adopted == w.adopted && w'.leaked == w.leaked
  {
    OneMoreStep(setup, Initial(renames, step), events, LaunchOne(id, call));
    ReachedIsSound(setup, renames, step, events);
    hide Run, Initial;
    var w := Run(setup, Initial(renames, step), events);
    Launching(ContextOf(setup, w), w.store, id, call, key);
    hide InFlight, Queued, Key, LaunchInto, Filed, Matched, Numbered, Places;
  }

  /** In every run: when a part gets a new id its watch goes with all its launches, and whatever was filed under that id
      before is out of reach. */
  lemma RekeyMovesTheWatch(
    setup: Setup, renames: map<string, string>, step: int, events: seq<Event>, id: string, newId: string)
    requires id != newId && Has(Run(setup, Initial(renames, step), events).store.parts, id)
    ensures var w := Run(setup, Initial(renames, step), events);
            var w' := Run(setup, Initial(renames, step), events + [Rekey(id, newId)]);
            var parts, parts' := w.store.parts, w'.store.parts;
            && Has(parts', newId) && Get(parts', newId, NewWatch(0)) == Get(parts, id, NewWatch(0))
            && w'.leaked == w.leaked + WatchBag(Get(Delete(parts, id), newId, NewWatch(0)))
            && w'.launches == w.launches && w'.session == w.session && w'.claims == w.claims
            && w'.evicted == w.evicted && w'.adopted == w.adopted
  {
    OneMoreStep(setup, Initial(renames, step), events, Rekey(id, newId));
    hide Run, Initial;
    var w := Run(setup, Initial(renames, step), events);
    GetPut(Delete(w.store.parts, id), newId, Get(w.store.parts, id, NewWatch(0)), newId, NewWatch(0));
    hide WatchBag;
  }
}
