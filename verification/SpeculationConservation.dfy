/** No launch is lost or used twice, and none outlives the step after the one it was made for. */
module SpeculationConservation {
  import opened Options
  import opened PythonDict
  import opened PythonRepr
  import opened CanonicalKey
  import opened SpeculationStore
  import opened SpeculativeRun

  /** A part that is replaced, or written over by a re-keyed one, still holds launches. */
  ghost predicate Overwrites(w: World, e: Event) {
    match e
    case PartStart(id) => WatchBag(Get(Observed(w).store.parts, id, NewWatch(0))) != multiset{}
    case Rekey(id, newId) =>
      id != newId && Has(w.store.parts, id) &&
      WatchBag(Get(Delete(w.store.parts, id), newId, NewWatch(0))) != multiset{}
    case _ => false
  }

  ghost predicate IdsNotReused(setup: Setup, w: World, events: seq<Event>)
    decreases |events|
  {
    events == [] || (!Overwrites(w, events[0]) && IdsNotReused(setup, Step(setup, w, events[0]), events[1..]))
  }

  // ---- one step keeps the account ----------------------------------------------------------------------------

  lemma Noting(w: World, id: string, note: Watch -> Watch)
    requires note == NoteHit || note == NoteMiss
    ensures Queued(Noted(w, id, note).store.parts) == Queued(w.store.parts)
  {
    var watch := Get(w.store.parts, id, NewWatch(w.step));
    EmptyWatch(w.step, "");
    assert WatchBag(note(watch)) == WatchBag(watch);
    BagPut(w.store.parts, id, note(watch), NewWatch(w.step), WatchBag);
    hide Bag, WatchBag;
  }

  lemma ObservedPlaces(w: World)
    requires Accounted(w)
    ensures Accounted(Observed(w))
  {
    Retiring(w.store.parts, w.step);
    EvictionsAreCounted(w.store, w.step, "");
    hide Bag;
  }

  lemma ReplacedPlaces(w: World, id: string, watch: Watch)
    ensures Places(Replace(w, id, watch)) == Places(w) + WatchBag(watch)
  {
    EmptyWatch(0, "");
    BagPut(w.store.parts, id, watch, NewWatch(0), WatchBag);
    hide Bag;
  }

  lemma RekeyedPlaces(w: World, id: string, newId: string)
    requires Accounted(w)
    ensures Accounted(Rekeyed(w, id, newId))
  {
    hide Bag, Replace, WatchBag, Delete;
    if id != newId && Has(w.store.parts, id) {
      var watch := Get(w.store.parts, id, NewWatch(0));
      var without := w.(store := w.store.(parts := Delete(w.store.parts, id)));
      EmptyWatch(0, "");
      BagDelete(w.store.parts, id, NewWatch(0), WatchBag);
      ReplacedPlaces(without, newId, watch);
      ReplacedCounters(without, newId, watch);
      hide Queued;
      Total(Queued(without.store.parts), Queued(w.store.parts), WatchBag(watch), w);
    }
  }

  lemma ReplacedCounters(w: World, id: string, watch: Watch)
    ensures var w' := Replace(w, id, watch);
            && w'.launches == w.launches && w'.store == w.store.(parts := w'.store.parts)
            && w'.adopted == w.adopted && w'.evicted == w.evicted
  {
    hide WatchBag;
  }

  /** Launches `x` taken off the waiting ones and added to the others make the same total. */
  lemma Total(less: multiset<Launch>, more: multiset<Launch>, x: multiset<Launch>, w: World)
    requires x <= more && less == more - x
    ensures var others := Bag(w.claims, ClaimBag) + w.abandoned + w.adopted + w.evicted + w.leaked;
            (less + Bag(w.claims, ClaimBag) + w.abandoned + w.adopted + w.evicted + w.leaked) + x ==
            more + Bag(w.claims, ClaimBag) + w.abandoned + w.adopted + w.evicted + w.leaked
  {
    hide Bag;
  }

  lemma LaunchedPlaces(setup: Setup, w: World, id: string, call: Extracted)
    requires Accounted(w)
    ensures Accounted(LaunchBelowCap(setup, w, id, call))
  {
    var c := ContextOf(setup, w);
    Launching(c, w.store, id, call, "");
    hide Bag;
  }

  lemma DispatchedPlaces(setup: Setup, w: World, run: nat, name: string, kwargs: Value)
    requires Accounted(w)
    ensures Accounted(Dispatched(setup, w, run, name, kwargs))
  {
    hide Bag, Claim, Reserve, Key;
    if HasBudget(setup, w.session, run) {
      var key := Key(setup.p, name, kwargs);
      Claiming(w.store.parts, w.session.executions[run].parent, key, key);
      var (l, parts) := Claim(w.store.parts, w.session.executions[run].parent, key);
      if l.Some? {
        BagConcat(w.claims, [(NextId(w.session, run), l.value)], ClaimBag);
        OneBag(NextId(w.session, run), l.value);
      }
    }
  }

  lemma OneBag(call: CallId, l: Launch)
    ensures Bag([(call, l)], ClaimBag) == multiset{l}
  {
    assert [(call, l)][1..] == [];
  }

  lemma {:induction false} ReleasedClaim(claims: Dict<CallId, Launch>, call: CallId)
    requires Has(claims, call)
    ensures Get(claims, call, NoLaunch) in Bag(claims, ClaimBag)
    ensures Bag(Delete(claims, call), ClaimBag) == Bag(claims, ClaimBag) - multiset{Get(claims, call, NoLaunch)}
  {
    BagWithout(claims, Find(claims, call), ClaimBag);
  }

  lemma SettledPlaces(setup: Setup, w: World, call: CallId)
    requires Accounted(w)
    ensures Accounted(Settled(setup, w, call))
  {
    hide Bag, Finish, MeaningOf;
    if Ready(w.session, call, true) && Has(w.claims, call) && Get(w.claims, call, NoLaunch) !in w.evicted {
      ReleasedClaim(w.claims, call);
      Noting(w, ParentOf(w.session, call), NoteHit);
    }
  }

  lemma CompletedPlaces(w: World, run: nat)
    requires Accounted(w)
    ensures Accounted(Completed(w, run))
  {
    if run < |w.session.executions| {
      var id := w.session.executions[run].parent;
      EvictionsAreCounted(w.store, 0, id);
      hide Bag, Queued, WatchBag, EvictPart, Waiting;
      EvictedFrom(w, EvictPart(w.store, id), WatchBag(Get(w.store.parts, id, NewWatch(0)))) by {
        EvictKeepsRest(w.store, id);
      }
    }
  }

  lemma EvictKeepsRest(s: Store, id: string)
    ensures EvictPart(s, id).launched == s.launched && EvictPart(s, id).adopted == s.adopted
  {
  }

  /** Launches that leave the store as evicted. */
  lemma EvictedFrom(w: World, store: Store, x: multiset<Launch>)
    requires Accounted(w) && x <= Queued(w.store.parts) && Queued(store.parts) == Queued(w.store.parts) - x
    requires store.launched == w.store.launched && store.adopted == w.store.adopted
    requires store.evicted == w.store.evicted + |x|
    ensures Accounted(w.(store := store, evicted := w.evicted + x))
  {
    hide Bag, Queued;
  }

  lemma ClosedPlaces(w: World)
    requires Accounted(w)
    ensures Accounted(w.(store := Close(w.store), evicted := w.evicted + Queued(w.store.parts)))
  {
    EvictionsAreCounted(w.store, 0, "");
    NoParts();
    hide Bag, Queued, WaitingAll;
    EvictedFrom(w, Close(w.store), Queued(w.store.parts));
  }

  lemma BegunPlaces(w: World, call: CallId, eligible: bool)
    requires Accounted(w)
    ensures Accounted(Begun(w, call, eligible))
  {
    if Ready(w.session, call, false) && !Has(w.claims, call) {
      Noting(w, ParentOf(w.session, call), NoteMiss);
      hide Bag;
    }
  }

  lemma AbandonedPlaces(w: World, call: CallId)
    requires Accounted(w)
    ensures Accounted(Abandoned(w, call))
  {
    hide Bag, Queued, Delete, Drop;
    if Has(w.claims, call) {
      ReleasedClaim(w.claims, call);
      ClaimTo(w, Delete(w.claims, call), Get(w.claims, call, NoLaunch));
    }
  }

  /** A claim given up is abandoned. */
  lemma ClaimTo(w: World, claims: Dict<CallId, Launch>, l: Launch)
    requires Accounted(w) && l in Bag(w.claims, ClaimBag)
    requires Bag(claims, ClaimBag) == Bag(w.claims, ClaimBag) - multiset{l}
    ensures Accounted(w.(claims := claims, abandoned := w.abandoned + multiset{l}))
  {
    hide Bag, Queued;
  }

  lemma StartedPlaces(w: World, id: string)
    requires Accounted(w)
    ensures Accounted(Replace(Observed(w), id, NewWatch(w.step)))
  {
    ObservedPlaces(w);
    ReplacedPlaces(Observed(w), id, NewWatch(w.step));
    EmptyWatch(w.step, "");
    hide Observed, Bag;
  }

  lemma StepAccounts(setup: Setup, w: World, e: Event)
    requires Accounted(w)
    ensures Accounted(Step(setup, w, e))
  {
    hide Observed, Replace, Rekeyed, LaunchBelowCap, Dispatched, Begun, Settled, Abandoned, Completed, Bag, ColdStep;
    match e
    case Observe => ObservedPlaces(w);
    case PartStart(id) => StartedPlaces(w, id);
    case Rekey(id, newId) => RekeyedPlaces(w, id, newId);
    case LaunchOne(id, extracted) => LaunchedPlaces(setup, w, id, extracted);
    case Dispatch(run, name, kwargs) => DispatchedPlaces(setup, w, run, name, kwargs);
    case Begin(call, eligible) => BegunPlaces(w, call, eligible);
    case Settle(call) => SettledPlaces(setup, w, call);
    case Abandon(call) => AbandonedPlaces(w, call);
    case Complete(run) => CompletedPlaces(w, run);
    case CloseStore => ClosedPlaces(w);
    case _ =>
  }

  lemma {:induction false} RunAccounts(setup: Setup, w: World, events: seq<Event>)
    requires Accounted(w)
    ensures Accounted(Run(setup, w, events))
    decreases |events|
  {
    hide Accounted, Step;
    if events != [] {
      StepAccounts(setup, w, events[0]);
      RunAccounts(setup, Step(setup, w, events[0]), events[1..]);
    }
  }

  lemma InitiallyAccounted(renames: map<string, string>, step: int)
    ensures Accounted(Initial(renames, step))
  {
  }

  // ---- leaks -----------------------------------------------------------------------------------------------------

  lemma StepLeaks(setup: Setup, w: World, e: Event)
    ensures w.leaked <= Step(setup, w, e).leaked
    ensures Step(setup, w, e).leaked == w.leaked <==> !Overwrites(w, e)
  {
    hide Queued, Bag, Finish, Record, Reserve, MeaningOf, Claim, EvictPart, RetireStale, Close, LaunchInto;
    hide WatchBag;
    match e
    case Rekey(id, newId) => Leaks(w, Get(Delete(w.store.parts, id), newId, NewWatch(0)));
    case PartStart(id) => Leaks(w, Get(Observed(w).store.parts, id, NewWatch(0)));
    case _ =>
  }

  lemma Leaks(w: World, watch: Watch)
    ensures w.leaked + WatchBag(watch) == w.leaked <==> WatchBag(watch) == multiset{}
  {
    hide WatchBag;
    var bag := WatchBag(watch);
    if w.leaked + bag == w.leaked {
      assert |w.leaked + bag| == |w.leaked| + |bag|;
    }
  }

  lemma {:induction false} RunLeaks(setup: Setup, w: World, events: seq<Event>)
    ensures w.leaked <= Run(setup, w, events).leaked
    ensures Run(setup, w, events).leaked == w.leaked <==> IdsNotReused(setup, w, events)
    decreases |events|
  {
    hide Step, Overwrites;
    if events != [] {
      var next := Step(setup, w, events[0]);
      StepLeaks(setup, w, events[0]);
      RunLeaks(setup, next, events[1..]);
      Between(w.leaked, next.leaked, Run(setup, next, events[1..]).leaked);
    }
  }

  lemma Between(a: multiset<Launch>, b: multiset<Launch>, c: multiset<Launch>)
    requires a <= b <= c
    ensures a == c <==> a == b && b == c
  {
    if a == c {
      forall l ensures a[l] == b[l] {
        assert a[l] <= b[l] <= c[l];
      }
      assert a == b;
    }
  }

  // ---- the main results --------------------------------------------------------------------------------------------

  ghost predicate NoDuplicates(launches: seq<Launch>) {
    forall i, j :: 0 <= i < j < |launches| ==> launches[i] != launches[j]
  }

  /** Over any interleaving of streaming, retries, dispatches, cancellations and evictions: the launches are those
      waiting, claimed and unresolved, adopted, evicted, or out of reach. */
  lemma LaunchesAreConserved(setup: Setup, renames: map<string, string>, step: int, events: seq<Event>)
    ensures var w := Run(setup, Initial(renames, step), events); multiset(w.launches) == Places(w)
  {
    InitiallyAccounted(renames, step);
    RunAccounts(setup, Initial(renames, step), events);
  }

  /** Each of them is in one place only, as no two are the same. */
  lemma LaunchesDiffer(setup: Setup, renames: map<string, string>, step: int, events: seq<Event>)
    ensures NoDuplicates(Run(setup, Initial(renames, step), events).launches)
  {
    InitiallyAccounted(renames, step);
    RunAccounts(setup, Initial(renames, step), events);
    hide Run, Initial, Places;
  }

  function Unresolved(w: World): nat {
    |w.claims| + |w.abandoned|
  }

  ghost predicate CountsAddUp(w: World) {
    w.store.launched == w.store.adopted + w.store.evicted + |Queued(w.store.parts)| + Unresolved(w) + |w.leaked|
  }

  /** So the counters add up at every moment. */
  lemma CountersAddUp(setup: Setup, renames: map<string, string>, step: int, events: seq<Event>)
    ensures CountsAddUp(Run(setup, Initial(renames, step), events))
  {
    var w := Run(setup, Initial(renames, step), events);
    InitiallyAccounted(renames, step);
    RunAccounts(setup, Initial(renames, step), events);
    ClaimsSize(w.claims);
    hide Run, Queued, Bag, Initial;
    PlacesSize(w);
  }

  /** A launch gets out of reach exactly when a part in use is replaced. */
  lemma LeaksExactlyOnReuse(setup: Setup, renames: map<string, string>, step: int, events: seq<Event>)
    ensures Run(setup, Initial(renames, step), events).leaked == multiset{} <==>
            IdsNotReused(setup, Initial(renames, step), events)
  {
    RunLeaks(setup, Initial(renames, step), events);
    InitialLeaks(renames, step);
  }

  lemma InitialLeaks(renames: map<string, string>, step: int)
    ensures Initial(renames, step).leaked == multiset{}
  {
  }

  lemma PlacesSize(w: World)
    ensures |Places(w)| == |Queued(w.store.parts)| + |Bag(w.claims, ClaimBag)| + |w.abandoned| + |w.adopted|
        + |w.evicted| + |w.leaked|
  {
    hide Queued, Bag;
  }

  lemma {:induction false} ClaimsSize(claims: Dict<CallId, Launch>)
    ensures |Bag(claims, ClaimBag)| == |claims|
  {
    if claims != [] {
      ClaimsSize(claims[1..]);
    }
  }

  lemma {:induction false} SerialsDistinct(ls: seq<Launch>, from: nat, l: Launch)
    requires forall i :: 0 <= i < |ls| ==> ls[i].serial == from + i
    ensures multiset(ls)[l] <= 1
    ensures l.serial < from ==> multiset(ls)[l] == 0
  {
    if ls != [] {
      assert ls == [ls[0]] + ls[1..];
      SerialsDistinct(ls[1..], from + 1, l);
    }
  }

  /** A claimed launch was never cancelled: adopting it yields what the call answered. */
  lemma ClaimedNotEvicted(w: World, call: CallId)
    requires Accounted(w) && Has(w.claims, call)
    ensures Get(w.claims, call, NoLaunch) !in w.evicted
  {
    var l := Get(w.claims, call, NoLaunch);
    ReleasedClaim(w.claims, call);
    SerialsDistinct(w.launches, 0, l);
    hide Queued, Bag;
    assert Places(w)[l] >= Bag(w.claims, ClaimBag)[l] + w.evicted[l];
  }

  /** The counters at the end of a run: what was launched was adopted or evicted, apart from dispatches cancelled
      while they waited, exactly when no part that still held launches was replaced. */
  lemma ClosedRunLeavesNothing(setup: Setup, renames: map<string, string>, step: int, events: seq<Event>)
    ensures var w := Step(setup, Run(setup, Initial(renames, step), events), CloseStore);
            && Queued(w.store.parts) == multiset{}
            && (w.store.launched == w.store.adopted + w.store.evicted + Unresolved(w) <==>
                  IdsNotReused(setup, Initial(renames, step), events))
  {
    var w := Run(setup, Initial(renames, step), events);
    var closed := Step(setup, w, CloseStore);
    CountersAddUp(setup, renames, step, events);
    LeaksExactlyOnReuse(setup, renames, step, events);
    WaitingAllIsBagSize(w.store.parts);
    hide Run, IdsNotReused, Bag, WaitingAll, Initial, Places;
    assert Queued([]) == multiset{} by {
      NoParts();
    }
  }

  lemma NoParts()
    ensures Queued([]) == multiset{}
  {
  }

  /** One launch waits in the part `id`, and nothing else has happened. */
  ghost predicate OneWaiting(w: World, key: string, l: Launch) {
    && w.step == 0 && w.observed == 0 && w.claims == [] && w.leaked == multiset{}
    && w.store == Store([("id", File(NewWatch(0), key, l))], 1, 0, 0)
  }

  lemma LaunchWaits(setup: Setup, call: Extracted)
    requires setup.cap > 0
    ensures var w := Step(setup, Step(setup, Initial(map[], 0), PartStart("id")), LaunchOne("id", call));
            OneWaiting(w, KeyOf(setup.p, call),
                NewLaunch(ContextOf(setup, Initial(map[], 0)), Store([], 0, 0, 0), call))
  {
    hide KeyOf, File, Bag;
    EmptyWatch(0, "");
    var first := Step(setup, Initial(map[], 0), PartStart("id"));
    assert first.store.parts == [("id", NewWatch(0))];
  }

  lemma ReplacedLeaks(setup: Setup, w: World, key: string, l: Launch)
    requires OneWaiting(w, key, l)
    ensures var w' := Step(setup, Step(setup, w, PartStart("id")), CloseStore);
            w'.store == Store([], 1, 0, 0) && w'.claims == [] && w'.leaked == multiset{l}
  {
    PartReplaced(setup, w, key, l);
    NothingWaits();
    hide OneWaiting, Observed, Replace, Queued, WaitingAll;
  }

  lemma PartReplaced(setup: Setup, w: World, key: string, l: Launch)
    requires OneWaiting(w, key, l)
    ensures var w' := Step(setup, w, PartStart("id"));
            && w'.store == Store([("id", NewWatch(0))], 1, 0, 0)
            && w'.claims == [] && w'.leaked == multiset{l}
  {
    Filing(NewWatch(0), key, l, "");
    EmptyWatch(0, "");
    hide File, WatchBag, Bag;
  }

  lemma NothingWaits()
    ensures WaitingAll([("id", NewWatch(0))]) == 0
  {
  }

  /** A reused part id: the launch of the part it replaces is neither adopted nor evicted, even by the cleanup at
      the end of the run. */
  lemma ReusedIdLeaks(setup: Setup, call: Extracted)
    requires setup.cap > 0
    ensures var launched := Step(setup, Step(setup, Initial(map[], 0), PartStart("id")), LaunchOne("id", call));
            var w := Step(setup, Step(setup, launched, PartStart("id")), CloseStore);
            w.store.launched == 1 && w.store.adopted == 0 && w.store.evicted == 0 && w.claims == [] && |w.leaked| == 1
  {
    hide Step;
    LaunchWaits(setup, call);
    ReplacedLeaks(setup, Step(setup, Step(setup, Initial(map[], 0), PartStart("id")), LaunchOne("id", call)),
                  KeyOf(setup.p, call), NewLaunch(ContextOf(setup, Initial(map[], 0)), Store([], 0, 0, 0), call));
  }
}
